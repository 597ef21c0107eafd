// What the entries of the system account hold after each operation: which shards they mark as knowing the
// metadata, what a failed delivery stores, and which entries count liquidity and how much.
module Entries {
  import opened Bytes
  import opened Wrappers
  import opened TokenId
  import opened Ledger
  import opened Transfers
  import opened TxData
  import opened Totals
  import opened Shapes
  import opened Limits
  import opened Bitmap
  import opened Network
  import opened Wire
  import opened SameShard
  import opened Metadata

  // ----- marks -----

  /** The entry has been written with the token's metadata, and marks exactly its own shard and `from`. */
  ghost predicate Stored(cfg: Config, s: Shard, s1: Shard, key: bytes, from: nat, t: Token) {
    && key in s1.system
    && s1.system[key].meta == t.meta && s1.system[key].typ == t.typ
    && s1.system[key].value == 0 && s1.system[key].reserved == []
    && forall to :: Marks(s1, key, to) <==> to != META && (to == s.id || to == from)
  }

  /** Where metadata is tracked, a written entry knows its own shard and the sender's, and no other. */
  lemma StoredBySave(
    cfg: Config, s: Shard, userAcc: Option<Addr>, from: nat, key: bytes, nonce: nat, t: Token, mustUpdate: bool)
    requires TracksMetaData(cfg) && cfg.numShards <= META && nonce > 0 && t.meta.Some?
    requires mustUpdate || key !in s.system
    requires SaveMetaData(cfg, s, userAcc, from, key, nonce, t, mustUpdate).Ok?
    ensures Stored(cfg, s, SaveMetaData(cfg, s, userAcc, from, key, nonce, t, mustUpdate).value, key, from, t)
  {
    var e := NewEntry(cfg, s, userAcc, from, key, t).value;
    forall to: nat
      ensures to < |e.properties| && e.properties[to] > 0 <==> to != META && (to == s.id || to == from)
    {
    }
  }

  // ----- failed deliveries -----

  /** A failed single transfer with a whole token stores its metadata, and nothing else changes. */
  lemma RejectedNft(cfg: Config, s: Shard, m: Msg, args: seq<bytes>, t: Token)
    requires TracksMetaData(cfg) && cfg.numShards <= META
    requires cfg.shardOf(m.src) != s.id && cfg.shardOf(m.dst) == s.id
    requires Parse(m.data) == Ok((NFT_TRANSFER, args)) && |args| >= 4
    requires args[3] != ZERO_PAYLOAD && cfg.unmarshal(args[3]) == Some(t)
    requires t.meta.Some? && U64(SetBytes(args[1])) > 0 && SaveMetaDataOf(cfg, s, m).Ok?
    ensures var s1, key := SaveMetaDataOf(cfg, s, m).value, KeyOf(args[0], U64(SetBytes(args[1])));
            && Stored(cfg, s, s1, key, cfg.shardOf(m.src), t)
            && s1.accounts == s.accounts && s1.system - {key} == s.system - {key}
  {
    hide SaveMetaData, KeyOf, Parse;
    var nonce := U64(SetBytes(args[1]));
    StoredBySave(cfg, s, None, cfg.shardOf(m.src), KeyOf(args[0], nonce), nonce, t, true);
    SaveMetaDataWrites(cfg, s, None, cfg.shardOf(m.src), KeyOf(args[0], nonce), nonce, t, true);
  }

  /** Item `i` of a failed multi transfer carries a whole token with metadata, to be stored under `key`. */
  predicate Carries(cfg: Config, args: seq<bytes>, i: nat, key: bytes)
    requires 3 * i + 4 <= |args|
  {
    var nonce, payload := U64(SetBytes(args[3 * i + 2])), args[3 * i + 3];
    && nonce > 0 && |payload| > 32 && key == KeyOf(args[3 * i + 1], nonce)
    && cfg.unmarshal(payload).Some? && cfg.unmarshal(payload).value.meta.Some?
  }

  /** One turn of the loop of a failed multi transfer. */
  function SaveOfItem(cfg: Config, s: Shard, from: nat, args: seq<bytes>, i: nat): Result<Shard>
    requires 3 * i + 4 <= |args|
  {
    var item := ItemAt(args, 1, i);
    if item.nonce > 0 && |args[3 * i + 3]| > MAX_VALUE_LENGTH then
      match cfg.unmarshal(args[3 * i + 3])
      case Some(t) => SaveMetaData(cfg, s, None, from, KeyOf(item.token, item.nonce), item.nonce, t, true)
      case None => Err(Unmarshal)
    else Ok(s)
  }

  lemma ItemStored(cfg: Config, s: Shard, from: nat, args: seq<bytes>, i: nat, key: bytes)
    requires TracksMetaData(cfg) && cfg.numShards <= META && 3 * i + 4 <= |args|
    requires SaveOfItem(cfg, s, from, args, i).Ok?
    ensures var s1 := SaveOfItem(cfg, s, from, args, i).value;
            && s1.id == s.id && s1.accounts == s.accounts
            && (Carries(cfg, args, i, key) ==> Stored(cfg, s, s1, key, from, cfg.unmarshal(args[3 * i + 3]).value))
            && (!Carries(cfg, args, i, key) ==> SameEntry(s, s1, key))
  {
    hide SaveMetaData, KeyOf, Stored;
    var item := ItemAt(args, 1, i);
    if item.nonce > 0 && |args[3 * i + 3]| > MAX_VALUE_LENGTH {
      var t, own := cfg.unmarshal(args[3 * i + 3]).value, KeyOf(item.token, item.nonce);
      SaveMetaDataWrites(cfg, s, None, from, own, item.nonce, t, true);
      if t.meta.Some? {
        StoredBySave(cfg, s, None, from, own, item.nonce, t, true);
      } else {
        NothingToSave(cfg, s, None, from, own, item.nonce, t);
      }
    }
  }

  lemma NothingToSave(
    cfg: Config, s: Shard, userAcc: Option<Addr>, from: nat, key: bytes, nonce: nat, t: Token)
    requires t.meta.None?
    ensures SaveMetaData(cfg, s, userAcc, from, key, nonce, t, true) == Ok(s)
  {
  }

  ghost predicate SameEntry(s: Shard, s1: Shard, key: bytes) {
    (key in s1.system <==> key in s.system) && (key in s.system ==> s1.system[key] == s.system[key])
  }

  lemma ItemsStepOf(cfg: Config, s: Shard, from: nat, args: seq<bytes>, n: nat, i: nat)
    requires i < n && 3 * n + 1 <= |args|
    ensures SaveMetaDataOfItems(cfg, s, from, args, n, i) ==
            match SaveOfItem(cfg, s, from, args, i)
            case Ok(one) => SaveMetaDataOfItems(cfg, one, from, args, n, i + 1)
            case Err(e) => Err(e)
  {
  }

  /** A failed multi transfer leaves every entry that no item from `i` on carries. */
  lemma {:induction false} UncarriedStays(
    cfg: Config, s: Shard, from: nat, args: seq<bytes>, n: nat, i: nat, key: bytes)
    requires TracksMetaData(cfg) && cfg.numShards <= META && i <= n && 3 * n + 1 <= |args|
    requires forall j :: i <= j < n ==> !Carries(cfg, args, j, key)
    requires SaveMetaDataOfItems(cfg, s, from, args, n, i).Ok?
    ensures var s1 := SaveMetaDataOfItems(cfg, s, from, args, n, i).value;
            s1.id == s.id && s1.accounts == s.accounts && SameEntry(s, s1, key)
    decreases n - i
  {
    hide SaveOfItem, Carries;
    if i < n {
      ItemsStepOf(cfg, s, from, args, n, i);
      ItemStored(cfg, s, from, args, i, key);
      UncarriedStays(cfg, SaveOfItem(cfg, s, from, args, i).value, from, args, n, i + 1, key);
    }
  }

  /** A failed multi transfer stores, for every key it carries, the metadata of the last item that carries it. */
  lemma {:induction false} LastCarriedStored(
    cfg: Config, s: Shard, from: nat, args: seq<bytes>, n: nat, i: nat, k: nat, key: bytes)
    requires TracksMetaData(cfg) && cfg.numShards <= META && i <= k < n && 3 * n + 1 <= |args|
    requires Carries(cfg, args, k, key) && forall j :: k < j < n ==> !Carries(cfg, args, j, key)
    requires SaveMetaDataOfItems(cfg, s, from, args, n, i).Ok?
    ensures Stored(cfg, s, SaveMetaDataOfItems(cfg, s, from, args, n, i).value, key, from,
                   cfg.unmarshal(args[3 * k + 3]).value)
    decreases n - i
  {
    hide SaveOfItem, Carries;
    ItemsStepOf(cfg, s, from, args, n, i);
    var one := SaveOfItem(cfg, s, from, args, i).value;
    ItemStored(cfg, s, from, args, i, key);
    if i < k {
      LastCarriedStored(cfg, one, from, args, n, i + 1, k, key);
    } else {
      UncarriedStays(cfg, one, from, args, n, i + 1, key);
      var s1 := SaveMetaDataOfItems(cfg, one, from, args, n, i + 1).value;
      assert forall to :: Marks(s1, key, to) <==> Marks(one, key, to);
    }
  }

  lemma RejectedMulti(cfg: Config, s: Shard, m: Msg, args: seq<bytes>, k: nat, key: bytes)
    requires TracksMetaData(cfg) && cfg.numShards <= META
    requires cfg.shardOf(m.src) != s.id && cfg.shardOf(m.dst) == s.id
    requires Parse(m.data) == Ok((MULTI_TRANSFER, args)) && |args| >= 4
    requires SaveMetaDataOf(cfg, s, m).Ok? && k < U64(SetBytes(args[0])) && 3 * U64(SetBytes(args[0])) + 1 <= |args|
    requires Carries(cfg, args, k, key)
    requires forall j :: k < j < U64(SetBytes(args[0])) ==> !Carries(cfg, args, j, key)
    ensures var s1 := SaveMetaDataOf(cfg, s, m).value;
            && s1.accounts == s.accounts
            && Stored(cfg, s, s1, key, cfg.shardOf(m.src), cfg.unmarshal(args[3 * k + 3]).value)
  {
    hide SaveMetaDataOfItems, Carries, Stored, Parse;
    LastCarriedStored(cfg, s, cfg.shardOf(m.src), args, U64(SetBytes(args[0])), 0, k, key);
    FunctionNames();
    SaveMetaDataOfId(cfg, s, m);
  }

  // ----- liquidity -----

  /** The entry counts exactly if it should and the amount is positive, and then counts that amount. */
  ghost predicate CountsAs(s: Shard, key: bytes, counting: bool, amount: int) {
    && (Counts(s, key) <==> counting && amount > 0)
    && (Counts(s, key) ==> s.system[key].value == amount)
  }

  /** A change of liquidity: an entry that counts changes by the amount and goes when nothing is left. */
  lemma AdjustCounts(cfg: Config, s: Shard, token: bytes, nonce: nat, delta: int)
    requires cfg.saveToSystem && cfg.sendAlways && nonce > 0 && AddLiquidity(cfg, s, token, nonce, delta).Ok?
    ensures var s1, key := AddLiquidity(cfg, s, token, nonce, delta).value, KeyOf(token, nonce);
            && key in s.system
            && CountsAs(s1, key, Counts(s, key), s.system[key].value + delta)
            && (Counts(s, key) && s.system[key].value + delta == 0 ==> key !in s1.system)
  {
    hide KeyOf;
  }

  /** A saved token with metadata gets an entry that counts if it is the first here and the account's own record
      had none; a forced save ends the counting. */
  ghost predicate Counting(cfg: Config, s: Shard, a: Addr, key: bytes, t: Token, mustUpdate: bool) {
    if key !in s.system then
      t.meta.Some? && !(cfg.fixOldTokenLiquidity && RecordAt(s, Slot(a, key)).meta.Some?)
    else
      Counts(s, key) && !(mustUpdate && t.meta.Some?)
  }

  function CountBefore(s: Shard, key: bytes): int {
    if key in s.system then s.system[key].value else 0
  }

  lemma SaveCounts(
    cfg: Config, s: Shard, input: Input, sender: Addr, a: Addr, token: bytes, nonce: nat, t: Token, mustUpdate: bool,
    delta: int)
    requires cfg.saveToSystem && cfg.sendAlways && nonce > 0
    requires SaveWithLiquidity(cfg, s, input, sender, a, token, nonce, t, mustUpdate, delta).Ok?
    ensures var s1 := SaveWithLiquidity(cfg, s, input, sender, a, token, nonce, t, mustUpdate, delta).value;
            var key := KeyOf(token, nonce);
            CountsAs(s1, key, Counting(cfg, s, a, key, t, mustUpdate), CountBefore(s, key) + delta)
  {
    var saved, key := SaveToken(cfg, s, input, sender, a, token, nonce, t, mustUpdate).value, KeyOf(token, nonce);
    SaveStarts(cfg, s, input, sender, a, token, nonce, t, mustUpdate);
    hide SaveToken, AddLiquidity, KeyOf, Counting;
    AdjustCounts(cfg, saved, token, nonce, delta);
  }

  lemma SaveStarts(
    cfg: Config, s: Shard, input: Input, sender: Addr, a: Addr, token: bytes, nonce: nat, t: Token, mustUpdate: bool)
    requires cfg.saveToSystem && cfg.sendAlways && nonce > 0
    requires SaveToken(cfg, s, input, sender, a, token, nonce, t, mustUpdate).Ok?
    ensures var saved := SaveToken(cfg, s, input, sender, a, token, nonce, t, mustUpdate).value;
            var key := KeyOf(token, nonce);
            && (Counts(saved, key) <==> Counting(cfg, s, a, key, t, mustUpdate))
            && (Counts(saved, key) ==> saved.system[key].value == CountBefore(s, key))
  {
    hide CheckSave, KeyOf;
  }

  /** A creation: the entry counts the quantity if it is new, and else counts nothing. */
  lemma CreatedCounts(cfg: Config, s: Shard, input: Input, latest: uint64)
    requires cfg.saveToSystem && cfg.sendAlways && U64(latest + 1) > 0 && Create(cfg, s, input, latest).Ok?
    ensures |input.args| >= 7
    ensures var key := KeyOf(input.args[0], U64(latest + 1));
            CountsAs(Create(cfg, s, input, latest).value, key,
                     key !in s.system &&
                     !(cfg.fixOldTokenLiquidity && RecordAt(s, Slot(Owner(input), key)).meta.Some?),
                     SetBytes(input.args[1]))
  {
    var nonce, t := U64(latest + 1), CreatedToken(input, U64(latest + 1));
    CreateIsSave(cfg, s, input, latest);
    hide Create, CreatedToken, SaveWithLiquidity, SaysArguments, KeyOf;
    SaveCounts(cfg, s, input, Owner(input), Owner(input), input.args[0], nonce, t, true, t.value);
  }

  /** Adding quantity raises what a counting entry counts. */
  lemma AddedCounts(cfg: Config, s: Shard, input: Input)
    requires cfg.saveToSystem && cfg.sendAlways && AddQuantity(cfg, s, input).Ok?
    ensures |input.args| >= 3
    ensures var key := KeyOf(input.args[0], U64(SetBytes(input.args[1])));
            key in s.system ==>
              CountsAs(AddQuantity(cfg, s, input).value, key, Counts(s, key),
                       s.system[key].value + SetBytes(input.args[2]))
  {
    hide SaveWithLiquidity, KeyOf, TokenAt, CountsAs;
    var token, nonce, value: int := input.args[0], U64(SetBytes(input.args[1])), SetBytes(input.args[2]);
    var t := TokenAt(cfg, s, input.caller, token, nonce);
    SaveCounts(cfg, s, input, input.caller, input.caller, token, nonce, t.(value := t.value + value), false, value);
  }

  /** Burning lowers it; at zero the entry goes. */
  lemma BurnedCounts(cfg: Config, s: Shard, input: Input)
    requires cfg.saveToSystem && cfg.sendAlways && Burn(cfg, s, input).Ok?
    ensures |input.args| >= 3
    ensures var key := KeyOf(input.args[0], U64(SetBytes(input.args[1])));
            key in s.system ==>
              CountsAs(Burn(cfg, s, input).value, key, Counts(s, key), s.system[key].value - SetBytes(input.args[2]))
  {
    hide SaveWithLiquidity, KeyOf, TokenAt, CountsAs;
    var token, nonce, value: int := input.args[0], U64(SetBytes(input.args[1])), SetBytes(input.args[2]);
    var t := TokenAt(cfg, s, input.caller, token, nonce);
    SaveCounts(cfg, s, input, input.caller, input.caller, token, nonce, t.(value := t.value - value), false, -value);
  }

  /** A token arriving from another shard: a new entry counts what arrived, an entry that counts that much more. */
  lemma ArrivedCounts(cfg: Config, s: Shard, input: Input, snd: Addr, dst: Addr, t: Token, token: bytes, nonce: nat)
    requires cfg.saveToSystem && cfg.sendAlways && nonce > 0 && cfg.shardOf(snd) != cfg.shardOf(dst)
    requires Credit(cfg, s, input, snd, dst, t, token, nonce).Ok?
    ensures var s1, key := Credit(cfg, s, input, snd, dst, t, token, nonce).value.0, KeyOf(token, nonce);
            CountsAs(s1, key, Counting(cfg, s, dst, key, t, false), CountBefore(s, key) + t.value)
  {
    hide SaveWithLiquidity, KeyOf, TokenAt, CountsAs, Credit;
    var sum := t.(value := t.value + TokenAt(cfg, s, dst, token, nonce).value);
    CreditFarShape(cfg, s, input, snd, dst, t, token, nonce);
    SaveCounts(cfg, s, input, snd, dst, token, nonce, sum, false, t.value);
  }
}
