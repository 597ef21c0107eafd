// The record of which shards know a token's metadata: the properties of a system entry, kept when
// SaveToSystemAccount is on and SendAlways off. What one operation does to it.
module Bitmap {
  import opened Bytes
  import opened Wrappers
  import opened TokenId
  import opened Ledger
  import opened Transfers
  import opened TxData
  import opened Totals
  import opened Shapes
  import opened Wire
  import opened Network

  predicate TracksMetaData(cfg: Config) {
    cfg.saveToSystem && !cfg.sendAlways
  }

  /** The entry of `key` marks shard `to` as knowing the metadata. */
  predicate Marks(s: Shard, key: bytes, to: nat) {
    key in s.system && to < |s.system[key].properties| && s.system[key].properties[to] > 0
  }

  /** Metadata lives in system entries only, and every entry has some. */
  ghost predicate Plain(s: Shard) {
    && (forall p :: p in s.accounts ==> s.accounts[p].meta.None?)
    && (forall key :: key in s.system ==> s.system[key].meta.Some?)
  }

  /** No entry is lost, and a new mark names this shard, or shard `from` for one of the keys `known`. */
  ghost predicate Grows(s: Shard, s1: Shard, from: nat, known: iset<bytes>) {
    && s1.id == s.id
    && Plain(s1)
    && (forall key :: key in s.system ==> key in s1.system)
    && (forall key, to :: Marks(s1, key, to) ==> Marks(s, key, to) || to == s.id || (to == from && key in known))
  }

  lemma GrowsChain(s: Shard, s1: Shard, s2: Shard, from: nat, known: iset<bytes>)
    requires Grows(s, s1, from, known) && Grows(s1, s2, from, known)
    ensures Grows(s, s2, from, known)
  {
  }

  lemma NewEntryMarks(cfg: Config, s: Shard, userAcc: Option<Addr>, senderShard: nat, key: bytes, t: Token, to: nat)
    requires TracksMetaData(cfg)
    requires NewEntry(cfg, s, userAcc, senderShard, key, t).Ok?
    ensures var e := NewEntry(cfg, s, userAcc, senderShard, key, t).value;
            && e.meta == t.meta
            && (to < |e.properties| && e.properties[to] > 0 ==> to == s.id || to == senderShard)
  {
  }

  lemma SaveMetaDataGrows(
    cfg: Config, s: Shard, userAcc: Option<Addr>, senderShard: nat, key: bytes, nonce: nat, t: Token, mustUpdate: bool)
    requires TracksMetaData(cfg) && Plain(s)
    requires SaveMetaData(cfg, s, userAcc, senderShard, key, nonce, t, mustUpdate).Ok?
    ensures var s1 := SaveMetaData(cfg, s, userAcc, senderShard, key, nonce, t, mustUpdate).value;
            && s1.accounts == s.accounts
            && Grows(s, s1, senderShard, if t.meta.Some? then iset{key} else iset{})
            && (nonce > 0 && t.meta.Some? ==> key in s1.system)
            && (!mustUpdate && (t.meta.None? || key in s.system) ==> s1 == s)
  {
    var s1 := SaveMetaData(cfg, s, userAcc, senderShard, key, nonce, t, mustUpdate).value;
    if s1 != s {
      forall k, to | Marks(s1, k, to)
        ensures Marks(s, k, to) || to == s.id || (to == senderShard && k == key)
      {
        NewEntryMarks(cfg, s, userAcc, senderShard, key, t, to);
      }
    }
  }

  /** What saving a token does to the entries. */
  lemma SaveTokenGrows(
    cfg: Config, s: Shard, input: Input, sender: Addr, a: Addr, token: bytes, nonce: nat, t: Token, mustUpdate: bool)
    requires TracksMetaData(cfg) && Plain(s)
    requires SaveToken(cfg, s, input, sender, a, token, nonce, t, mustUpdate).Ok?
    ensures var s1 := SaveToken(cfg, s, input, sender, a, token, nonce, t, mustUpdate).value;
            var key := KeyOf(token, nonce);
            && Grows(s, s1, cfg.shardOf(sender), if t.meta.Some? then iset{key} else iset{})
            && (nonce > 0 && t.meta.Some? ==> key in s1.system)
            && (!mustUpdate && (t.meta.None? || key in s.system) ==> s1.system == s.system)
  {
    var key := KeyOf(token, nonce);
    SaveMetaDataGrows(cfg, s, Some(a), cfg.shardOf(sender), key, nonce, t, mustUpdate);
  }

  /** Without SendAlways there is no liquidity to keep. */
  lemma NoLiquidity(cfg: Config, s: Shard, token: bytes, nonce: nat, delta: int)
    requires TracksMetaData(cfg)
    ensures AddLiquidity(cfg, s, token, nonce, delta) == Ok(s)
  {
  }

  lemma SaveWithLiquidityIsSave(
    cfg: Config, s: Shard, input: Input, sender: Addr, a: Addr, token: bytes, nonce: nat, t: Token, mustUpdate: bool,
    delta: int)
    requires TracksMetaData(cfg)
    ensures SaveWithLiquidity(cfg, s, input, sender, a, token, nonce, t, mustUpdate, delta)
         == SaveToken(cfg, s, input, sender, a, token, nonce, t, mustUpdate)
  {
  }

  /** The token read from a plain shard shows the metadata of the entry, if there is one. */
  lemma TokenAtMeta(cfg: Config, s: Shard, a: Addr, token: bytes, nonce: nat)
    requires TracksMetaData(cfg) && Plain(s)
    ensures var t, key := TokenAt(cfg, s, a, token, nonce), KeyOf(token, nonce);
            && (t.meta.Some? ==> key in s.system)
            && (Slot(a, key) in s.accounts && nonce > 0 && key in s.system ==> t.meta.Some?)
  {
  }

  // ----- the built-in functions of one account -----

  /** The operation adds no mark but for its own shard. */
  ghost predicate OwnGrowth(s: Shard, r: Result<Shard>) {
    r.Ok? ==> Grows(s, r.value, s.id, iset{})
  }

  lemma SaveHere(
    cfg: Config, s: Shard, input: Input, a: Addr, token: bytes, nonce: nat, t: Token, mustUpdate: bool)
    requires TracksMetaData(cfg) && Plain(s) && cfg.shardOf(a) == s.id
    ensures OwnGrowth(s, SaveToken(cfg, s, input, a, a, token, nonce, t, mustUpdate))
  {
    if SaveToken(cfg, s, input, a, a, token, nonce, t, mustUpdate).Ok? {
      SaveTokenGrows(cfg, s, input, a, a, token, nonce, t, mustUpdate);
    }
  }

  lemma SaveAdjustHere(
    cfg: Config, s: Shard, input: Input, a: Addr, token: bytes, nonce: nat, t: Token, mustUpdate: bool, delta: int)
    requires TracksMetaData(cfg) && Plain(s) && cfg.shardOf(a) == s.id
    ensures OwnGrowth(s, SaveWithLiquidity(cfg, s, input, a, a, token, nonce, t, mustUpdate, delta))
  {
    SaveWithLiquidityIsSave(cfg, s, input, a, a, token, nonce, t, mustUpdate, delta);
    SaveHere(cfg, s, input, a, token, nonce, t, mustUpdate);
  }

  lemma OneOfGrowth(s: Shard, r: Result<Shard>, r1: Result<Shard>, r2: Result<Shard>)
    requires OwnGrowth(s, r1) && OwnGrowth(s, r2)
    requires RefusedOr(r, r1) || r == r2
    ensures OwnGrowth(s, r)
  {
  }

  lemma CreateGrowth(cfg: Config, s: Shard, input: Input, latest: uint64)
    requires TracksMetaData(cfg) && Plain(s) && |input.args| >= 7
    requires RoleHolder(input).Ok? && cfg.shardOf(RoleHolder(input).value) == s.id
    ensures OwnGrowth(s, Create(cfg, s, input, latest))
  {
    var nonce, owner := U64(latest + 1), RoleHolder(input).value;
    var t := CreatedToken(input, nonce);
    SaveAdjustHere(cfg, s, input, owner, input.args[0], nonce, t, true, t.value);
  }

  lemma DepositGrowth(cfg: Config, s: Shard, input: Input, token: bytes, nonce: uint64, t: Token, value: int)
    requires TracksMetaData(cfg) && Plain(s) && cfg.shardOf(input.caller) == s.id
    ensures OwnGrowth(s, Deposit(cfg, s, input, token, nonce, t, value))
  {
    var a := input.caller;
    SaveAdjustHere(cfg, s, input, a, token, nonce, t.(value := t.value + value), false, value);
    var last := SaveWithLiquidity(cfg, s, input, a, a, token, nonce, t.(value := t.value + value), false, value);
    OneOfGrowth(s, Deposit(cfg, s, input, token, nonce, t, value), last, last);
  }

  lemma WithdrawGrowth(cfg: Config, s: Shard, input: Input, token: bytes, nonce: uint64, t: Token, value: int)
    requires TracksMetaData(cfg) && Plain(s) && cfg.shardOf(input.caller) == s.id
    ensures OwnGrowth(s, Withdraw(cfg, s, input, token, nonce, t, value))
  {
    if t.value >= value {
      var a := input.caller;
      SaveAdjustHere(cfg, s, input, a, token, nonce, t.(value := t.value - value), false, -value);
      var last := SaveWithLiquidity(cfg, s, input, a, a, token, nonce, t.(value := t.value - value), false, -value);
      OneOfGrowth(s, Withdraw(cfg, s, input, token, nonce, t, value), last, last);
    }
  }

  lemma QuantityGrowth(cfg: Config, s: Shard, input: Input)
    requires TracksMetaData(cfg) && Plain(s) && cfg.shardOf(input.caller) == s.id && |input.args| >= 3
    ensures OwnGrowth(s, AddQuantity(cfg, s, input)) && OwnGrowth(s, Burn(cfg, s, input))
  {
    var token, nonce, value := input.args[0], U64(SetBytes(input.args[1])), SetBytes(input.args[2]);
    var t := TokenAt(cfg, s, input.caller, token, nonce);
    DepositGrowth(cfg, s, input, token, nonce, t, value);
    WithdrawGrowth(cfg, s, input, token, nonce, t, value);
    AddQuantityShape(cfg, s, input, token, nonce, value);
    BurnShape(cfg, s, input, token, nonce, value);
    var more, less := Deposit(cfg, s, input, token, nonce, t, value), Withdraw(cfg, s, input, token, nonce, t, value);
    OneOfGrowth(s, AddQuantity(cfg, s, input), more, more);
    OneOfGrowth(s, Burn(cfg, s, input), less, less);
  }

  lemma UpdateGrowth(cfg: Config, s: Shard, input: Input)
    requires TracksMetaData(cfg) && Plain(s) && cfg.shardOf(input.caller) == s.id
    ensures OwnGrowth(s, UpdateAttributes(cfg, s, input))
  {
    if UpdateAttributes(cfg, s, input).Ok? {
      var a, token, nonce := input.caller, input.args[0], U64(SetBytes(input.args[1]));
      var t := TokenAt(cfg, s, a, token, nonce);
      SaveHere(cfg, s, input, a, token, nonce, t.(meta := Some(t.meta.value.(attributes := input.args[2]))), true);
    }
  }

  lemma AddToBalanceGrowth(cfg: Config, s: Shard, input: Input, a: Addr, token: bytes, delta: int)
    requires Plain(s)
    ensures OwnGrowth(s, AddToBalance(cfg, s, input, a, token, delta))
  {
    if AddToBalance(cfg, s, input, a, token, delta).Ok? {
      AddToBalanceWrites(cfg, s, input, a, token, delta);
    }
  }

  lemma FungibleGrowth(cfg: Config, s: Shard, input: Input)
    requires Plain(s) && |input.args| >= 2
    ensures OwnGrowth(s, FungibleTransfer(cfg, s, input))
  {
    var token, value: int := input.args[0], SetBytes(input.args[1]);
    var debited := FungibleDebit(cfg, s, input, token, value);
    FungibleTransferShape(cfg, s, input, value);
    AddToBalanceGrowth(cfg, s, input, input.caller, token, -value);
    if debited.Ok? {
      AddToBalanceGrowth(cfg, debited.value, input, input.recipient, token, value);
    }
    OneOfGrowth(s, FungibleTransfer(cfg, s, input), debited, FungibleCredit(cfg, debited, input, token, value));
  }

  lemma FreezeOrWipeGrowth(cfg: Config, s: Shard, input: Input, frozen: bool)
    requires TracksMetaData(cfg) && Plain(s)
    ensures OwnGrowth(s, SetFrozen(cfg, s, input, frozen)) && OwnGrowth(s, Wipe(cfg, s, input))
  {
  }

  lemma ActGrowth(cfg: Config, s: Shard, action: Action, input: Input)
    requires TracksMetaData(cfg) && Plain(s) && Placed(cfg, s, action, input)
    ensures OwnGrowth(s, ActOn(cfg, s, action, input))
  {
    match action
    case Creating(latest) =>
      if |input.args| >= 7 && RoleHolder(input).Ok? {
        CreateGrowth(cfg, s, input, latest);
      }
    case AddingQuantity => if |input.args| >= 3 { QuantityGrowth(cfg, s, input); }
    case Burning => if |input.args| >= 3 { QuantityGrowth(cfg, s, input); }
    case Updating => UpdateGrowth(cfg, s, input);
    case Freezing(frozen) => FreezeOrWipeGrowth(cfg, s, input, frozen);
    case Wiping => FreezeOrWipeGrowth(cfg, s, input, true);
    case Minting(sign) =>
      if |input.args| >= 2 {
        AddToBalanceGrowth(cfg, s, input, input.caller, input.args[0],
                           (if sign > 0 then 1 else -1) * SetBytes(input.args[1]));
      }
    case MovingFungible => if |input.args| >= 2 { FungibleGrowth(cfg, s, input); }
  }

  // ----- sending -----

  /** The items sent have metadata exactly where the shard has an entry. */
  ghost predicate MetaKnown(s: Shard, item: Item, t: Token) {
    item.nonce > 0 ==> (t.meta.Some? <==> KeyOf(item.token, item.nonce) in s.system)
  }

  /** A sender-side move changes no entry. */
  ghost predicate SameEntries(s: Shard, r: Result<(Shard, Token)>, item: Item) {
    r.Ok? ==> Plain(r.value.0) && r.value.0.id == s.id && r.value.0.system == s.system && MetaKnown(s, item, r.value.1)
  }

  lemma DebitEntries(cfg: Config, s: Shard, input: Input, item: Item)
    requires TracksMetaData(cfg) && Plain(s)
    ensures SameEntries(s, Debit(cfg, s, input, item), item)
  {
    var r := Debit(cfg, s, input, item);
    var before := TokenAt(cfg, s, input.caller, item.token, item.nonce);
    DebitShape(cfg, s, input, item);
    TokenAtMeta(cfg, s, input.caller, item.token, item.nonce);
    if r.Ok? {
      SaveTokenGrows(cfg, s, input, input.caller, input.caller, item.token, item.nonce,
                     before.(value := before.value - item.value), false);
      DebitPresent(cfg, s, input, item);
    }
  }

  lemma DebitPresent(cfg: Config, s: Shard, input: Input, item: Item)
    requires Debit(cfg, s, input, item).Ok?
    ensures Slot(input.caller, KeyOf(item.token, item.nonce)) in s.accounts
  {
  }

  lemma SettleEntries(cfg: Config, s: Shard, input: Input, dst: Addr, item: Item, t: Token)
    requires TracksMetaData(cfg) && Plain(s) && MetaKnown(s, item, t) && cfg.shardOf(input.caller) == s.id
    requires item.nonce == 0 ==> t.meta.None?
    ensures SameEntries(s, Settle(cfg, s, input, dst, item, t), item)
  {
    if cfg.shardOf(dst) == s.id {
      var sum := t.(value := t.value + TokenAt(cfg, s, dst, item.token, item.nonce).value);
      CreditHereShape(cfg, s, input, input.caller, dst, t, item.token, item.nonce);
      if Settle(cfg, s, input, dst, item, t).Ok? {
        SaveTokenGrows(cfg, s, input, input.caller, dst, item.token, item.nonce, sum, false);
      }
    } else {
      SettleFarShape(cfg, s, input, dst, item, t);
      NoLiquidity(cfg, s, item.token, item.nonce, -(item.value as int));
    }
  }

  lemma DebitMeta(cfg: Config, s: Shard, input: Input, item: Item)
    requires TracksMetaData(cfg) && Plain(s) && Debit(cfg, s, input, item).Ok?
    ensures item.nonce == 0 ==> Debit(cfg, s, input, item).value.1.meta.None?
  {
    DebitShape(cfg, s, input, item);
  }

  lemma MoveEntries(cfg: Config, s: Shard, input: Input, dst: Addr, item: Item)
    requires TracksMetaData(cfg) && Plain(s) && cfg.shardOf(input.caller) == s.id
    ensures var debited := Debit(cfg, s, input, item);
            debited.Ok? ==> SameEntries(s, Settle(cfg, debited.value.0, input, dst, item, debited.value.1), item)
  {
    var debited := Debit(cfg, s, input, item);
    DebitEntries(cfg, s, input, item);
    if debited.Ok? {
      DebitMeta(cfg, s, input, item);
      SettleEntries(cfg, debited.value.0, input, dst, item, debited.value.1);
    }
  }

  lemma SendOneEntries(cfg: Config, s: Shard, input: Input, dst: Addr, item: Item)
    requires TracksMetaData(cfg) && Plain(s) && cfg.shardOf(input.caller) == s.id
    ensures SameEntries(s, SendOne(cfg, s, input, dst, item), item)
  {
    SendOneShape(cfg, s, input, dst, item);
    MoveEntries(cfg, s, input, dst, item);
  }

  ghost predicate AllKnown(s: Shard, sent: seq<Sent>) {
    forall k :: 0 <= k < |sent| ==> MetaKnown(s, sent[k].item, sent[k].tok)
  }

  /** The whole loop changes no entry. */
  ghost predicate LoopEntries(s: Shard, r: Result<(Shard, seq<Sent>)>) {
    r.Ok? ==> Plain(r.value.0) && r.value.0.id == s.id && r.value.0.system == s.system && AllKnown(s, r.value.1)
  }

  lemma TurnEntries(
    s: Shard, r: Result<(Shard, seq<Sent>)>, item: Item, one: Result<(Shard, Token)>, rest: Result<(Shard, seq<Sent>)>)
    requires Turn(r, item, one, rest) && SameEntries(s, one, item)
    requires one.Ok? ==> LoopEntries(one.value.0, rest)
    ensures LoopEntries(s, r)
  {
  }

  lemma {:induction false} SendItemsEntries(cfg: Config, s: Shard, input: Input, dst: Addr, n: nat, i: nat)
    requires TracksMetaData(cfg) && Plain(s) && cfg.shardOf(input.caller) == s.id
    requires i <= n && 3 * n + 2 <= |input.args|
    ensures LoopEntries(s, SendItems(cfg, s, input, dst, n, i))
    decreases n - i, 0
  {
    if i < n {
      var item := ItemAt(input.args, 2, i);
      var one := SendOne(cfg, s, input, dst, item);
      SendItemsStep(cfg, s, input, dst, n, i);
      SendOneEntries(cfg, s, input, dst, item);
      RestEntries(cfg, one, input, dst, n, i + 1);
      TurnEntries(s, SendItems(cfg, s, input, dst, n, i), item, one, RestOf(cfg, one, input, dst, n, i + 1));
    }
  }

  lemma {:induction false} RestEntries(
    cfg: Config, one: Result<(Shard, Token)>, input: Input, dst: Addr, n: nat, i: nat)
    requires TracksMetaData(cfg) && i <= n && 3 * n + 2 <= |input.args|
    requires one.Ok? ==> Plain(one.value.0) && cfg.shardOf(input.caller) == one.value.0.id
    ensures one.Ok? ==> LoopEntries(one.value.0, RestOf(cfg, one, input, dst, n, i))
    decreases n - i, 1
  {
    if one.Ok? {
      SendItemsEntries(cfg, one.value.0, input, dst, n, i);
    }
  }

  // ----- encoding -----

  /** Item `k` of the list is spelled with its whole token and has the key. */
  ghost predicate SpelledWhole(cfg: Config, encoded: seq<bytes>, sent: seq<Sent>, i: nat, k: nat, key: bytes) {
    && i <= k < |sent| && 3 * (k - i) + 2 < |encoded|
    && sent[k].item.nonce > 0
    && key == KeyOf(sent[k].item.token, sent[k].item.nonce)
    && encoded[3 * (k - i) + 2] == cfg.marshal(sent[k].tok)
  }

  /** What one question about the destination's knowledge changes. */
  lemma AlreadySentMarks(cfg: Config, s: Shard, token: bytes, nonce: nat, dst: Addr, key: bytes, to: nat)
    requires TracksMetaData(cfg) && AlreadySent(cfg, s, token, nonce, dst).Ok?
    ensures var (sent, s1) := AlreadySent(cfg, s, token, nonce, dst).value;
            && s1.id == s.id && s1.accounts == s.accounts && s1.system.Keys == s.system.Keys
            && (Plain(s) ==> Plain(s1))
            && (Marks(s1, key, to) ==>
                  Marks(s, key, to) || (!sent && nonce > 0 && key == KeyOf(token, nonce) && to == cfg.shardOf(dst)))
  {
  }

  /** Some item from `i` on is spelled with its whole token and has the key. */
  ghost predicate SpelledSomewhere(cfg: Config, encoded: seq<bytes>, sent: seq<Sent>, i: nat, key: bytes) {
    exists k: nat :: SpelledWhole(cfg, encoded, sent, i, k, key)
  }

  lemma SpelledCons(cfg: Config, first: seq<bytes>, rest: seq<bytes>, sent: seq<Sent>, i: nat, key: bytes)
    requires |first| == 3 && SpelledSomewhere(cfg, rest, sent, i + 1, key)
    ensures SpelledSomewhere(cfg, first + rest, sent, i, key)
  {
    var k: nat :| SpelledWhole(cfg, rest, sent, i + 1, k, key);
    assert (first + rest)[3 * (k - i) + 2] == rest[3 * (k - (i + 1)) + 2];
    assert SpelledWhole(cfg, first + rest, sent, i, k, key);
  }

  lemma SpelledFirst(cfg: Config, first: seq<bytes>, rest: seq<bytes>, sent: seq<Sent>, i: nat)
    requires i < |sent| && sent[i].item.nonce > 0
    requires |first| == 3 && first[2] == cfg.marshal(sent[i].tok)
    ensures SpelledSomewhere(cfg, first + rest, sent, i, KeyOf(sent[i].item.token, sent[i].item.nonce))
  {
    assert (first + rest)[3 * (i - i) + 2] == first[2];
    assert SpelledWhole(cfg, first + rest, sent, i, i, KeyOf(sent[i].item.token, sent[i].item.nonce));
  }

  /** A mark that encoding adds is for the destination's shard, and the item is spelled with its whole token. */
  ghost predicate MarksSpelled(
    cfg: Config, s: Shard, s1: Shard, encoded: seq<bytes>, sent: seq<Sent>, dst: Addr, i: nat, key: bytes, to: nat)
  {
    && s1.id == s.id && Plain(s1) && s1.system.Keys == s.system.Keys
    && (Marks(s1, key, to) && !Marks(s, key, to) ==>
          to == cfg.shardOf(dst) && SpelledSomewhere(cfg, encoded, sent, i, key))
  }

  lemma {:induction false} EncodeMarks(
    cfg: Config, s: Shard, sent: seq<Sent>, dst: Addr, gas: nat, i: nat, key: bytes, to: nat)
    requires TracksMetaData(cfg) && Plain(s) && i <= |sent|
    requires EncodeItems(cfg, s, sent, dst, gas, i).Ok?
    ensures var (s1, encoded, _) := EncodeItems(cfg, s, sent, dst, gas, i).value;
            MarksSpelled(cfg, s, s1, encoded, sent, dst, i, key, to)
    decreases |sent| - i
  {
    if i < |sent| {
      var (one, payload, left) := EncodePayload(cfg, s, sent[i], dst, gas).value;
      var (s1, rest, _) := EncodeItems(cfg, one, sent, dst, left, i + 1).value;
      PayloadMarks(cfg, s, sent[i], dst, gas, key, to);
      EncodeMarks(cfg, one, sent, dst, left, i + 1, key, to);
      TurnMarks(cfg, s, one, s1, payload, rest, sent, dst, i, key, to);
    }
  }

  lemma TurnMarks(
    cfg: Config, s: Shard, one: Shard, s1: Shard, payload: bytes, rest: seq<bytes>, sent: seq<Sent>, dst: Addr, i: nat,
    key: bytes, to: nat)
    requires i < |sent| && MarksSpelled(cfg, one, s1, rest, sent, dst, i + 1, key, to)
    requires PayloadMarked(cfg, s, one, payload, sent[i], dst, key, to)
    ensures MarksSpelled(cfg, s, s1, [sent[i].item.token, NonceArg(sent[i].item.nonce), payload] + rest, sent, dst, i,
                         key, to)
  {
    var first := [sent[i].item.token, NonceArg(sent[i].item.nonce), payload];
    if Marks(s1, key, to) && !Marks(s, key, to) {
      if Marks(one, key, to) {
        SpelledFirst(cfg, first, rest, sent, i);
      } else {
        SpelledCons(cfg, first, rest, sent, i, key);
      }
    }
  }

  ghost predicate PayloadMarked(
    cfg: Config, s: Shard, s1: Shard, payload: bytes, x: Sent, dst: Addr, key: bytes, to: nat)
  {
    && s1.id == s.id && Plain(s1) && s1.system.Keys == s.system.Keys
    && (Marks(s1, key, to) && !Marks(s, key, to) ==>
          && to == cfg.shardOf(dst) && x.item.nonce > 0 && key == KeyOf(x.item.token, x.item.nonce)
          && payload == cfg.marshal(x.tok))
  }

  lemma PayloadMarks(cfg: Config, s: Shard, x: Sent, dst: Addr, gas: nat, key: bytes, to: nat)
    requires TracksMetaData(cfg) && Plain(s) && EncodePayload(cfg, s, x, dst, gas).Ok?
    ensures var (s1, payload, _) := EncodePayload(cfg, s, x, dst, gas).value;
            PayloadMarked(cfg, s, s1, payload, x, dst, key, to)
  {
    if x.item.nonce > 0 {
      AlreadySentMarks(cfg, s, x.item.token, x.item.nonce, dst, key, to);
    }
  }

  // ----- receiving -----

  /** Item `k` of a received list carries the metadata of `key`. */
  ghost predicate ItemCarries(cfg: Config, args: seq<bytes>, k: nat, key: bytes) {
    && 3 * k + 4 <= |args|
    && DecodeItem(cfg, args, k).Ok?
    && var x := DecodeItem(cfg, args, k).value;
    && x.item.nonce > 0 && x.tok.meta.Some? && key == KeyOf(x.item.token, x.item.nonce)
  }

  ghost predicate NftCarries(cfg: Config, args: seq<bytes>, key: bytes)
    requires |args| >= NFT_MIN_ARGS
  {
    && NftPayload(cfg, args).Ok? && NftPayload(cfg, args).value.meta.Some?
    && NftItem(args).nonce > 0 && key == KeyOf(args[0], NftItem(args).nonce)
  }

  ghost predicate MultiCarries(cfg: Config, args: seq<bytes>, key: bytes)
    requires |args| >= 4
  {
    exists k: nat :: k < U64(SetBytes(args[0])) && ItemCarries(cfg, args, k, key)
  }

  /** The message carries the metadata of `key`. */
  ghost predicate CarriesMeta(cfg: Config, m: Msg, key: bytes) {
    match Parse(m.data)
    case Err(_) => false
    case Ok((func, args)) =>
      |args| >= 4 && if func == NFT_TRANSFER then NftCarries(cfg, args, key)
                     else func == MULTI_TRANSFER && MultiCarries(cfg, args, key)
  }

  ghost function CarriedKeys(cfg: Config, m: Msg): iset<bytes> {
    iset key | CarriesMeta(cfg, m, key)
  }

  lemma CreditGrows(
    cfg: Config, s: Shard, input: Input, snd: Addr, dst: Addr, t: Token, token: bytes, nonce: nat, known: iset<bytes>)
    requires TracksMetaData(cfg) && Plain(s) && cfg.shardOf(snd) != cfg.shardOf(dst)
    requires t.meta.Some? ==> nonce == 0 || KeyOf(token, nonce) in known
    requires Credit(cfg, s, input, snd, dst, t, token, nonce).Ok?
    ensures var s1 := Credit(cfg, s, input, snd, dst, t, token, nonce).value.0;
            && Grows(s, s1, cfg.shardOf(snd), known)
            && (t.meta.Some? && nonce > 0 ==> KeyOf(token, nonce) in s1.system)
  {
    var sum := t.(value := t.value + TokenAt(cfg, s, dst, token, nonce).value);
    CreditFarShape(cfg, s, input, snd, dst, t, token, nonce);
    SaveWithLiquidityIsSave(cfg, s, input, snd, dst, token, nonce, sum, false, t.value);
    SaveTokenGrows(cfg, s, input, snd, dst, token, nonce, sum, false);
    if nonce == 0 {
      SaveTokenWrites(cfg, s, input, snd, dst, token, nonce, sum, false);
    }
  }

  lemma ReceiveOneGrows(cfg: Config, s: Shard, input: Input, x: Sent, known: iset<bytes>)
    requires TracksMetaData(cfg) && Plain(s) && cfg.shardOf(input.caller) != cfg.shardOf(input.recipient)
    requires x.item.nonce > 0 && x.tok.meta.Some? ==> KeyOf(x.item.token, x.item.nonce) in known
    requires ReceiveOne(cfg, s, input, x).Ok?
    ensures var s1 := ReceiveOne(cfg, s, input, x).value;
            && Grows(s, s1, cfg.shardOf(input.caller), known)
            && (x.item.nonce > 0 && x.tok.meta.Some? ==> KeyOf(x.item.token, x.item.nonce) in s1.system)
  {
    if x.item.nonce > 0 {
      CreditGrows(cfg, s, input, input.caller, input.recipient, x.tok, x.item.token, x.item.nonce, known);
    } else {
      AddToBalanceGrowth(cfg, s, input, input.recipient, x.item.token, x.tok.value);
    }
  }

  /** The loop from item `i` on grows the shard, and leaves an entry for every item that carries metadata. */
  ghost predicate LoopLearns(
    cfg: Config, s: Shard, r: Result<Shard>, from: nat, known: iset<bytes>, args: seq<bytes>, n: nat, i: nat)
  {
    r.Ok? ==>
      && Grows(s, r.value, from, known)
      && forall k: nat, key :: i <= k < n && ItemCarries(cfg, args, k, key) ==> key in r.value.system
  }

  /** One turn: the shard grows and learns what item `i` carries. */
  ghost predicate TurnLearns(
    cfg: Config, s: Shard, s1: Shard, from: nat, known: iset<bytes>, args: seq<bytes>, i: nat)
  {
    Grows(s, s1, from, known) && forall key :: ItemCarries(cfg, args, i, key) ==> key in s1.system
  }

  lemma LearnsCons(
    cfg: Config, s: Shard, s1: Shard, r: Result<Shard>, from: nat, known: iset<bytes>, args: seq<bytes>, n: nat, i: nat)
    requires TurnLearns(cfg, s, s1, from, known, args, i) && LoopLearns(cfg, s1, r, from, known, args, n, i + 1)
    ensures LoopLearns(cfg, s, r, from, known, args, n, i)
  {
    if r.Ok? {
      GrowsChain(s, s1, r.value, from, known);
    }
  }

  lemma NothingLeft(cfg: Config, s: Shard, from: nat, known: iset<bytes>, args: seq<bytes>, n: nat)
    requires Plain(s)
    ensures LoopLearns(cfg, s, Ok(s), from, known, args, n, n)
  {
  }

  lemma ReceiveOneLearns(cfg: Config, s: Shard, input: Input, i: nat, known: iset<bytes>)
    requires TracksMetaData(cfg) && Plain(s) && cfg.shardOf(input.caller) != cfg.shardOf(input.recipient)
    requires 3 * i + 4 <= |input.args| && DecodeItem(cfg, input.args, i).Ok?
    requires forall key :: ItemCarries(cfg, input.args, i, key) ==> key in known
    requires ReceiveOne(cfg, s, input, DecodeItem(cfg, input.args, i).value).Ok?
    ensures TurnLearns(cfg, s, ReceiveOne(cfg, s, input, DecodeItem(cfg, input.args, i).value).value,
                       cfg.shardOf(input.caller), known, input.args, i)
  {
    var x := DecodeItem(cfg, input.args, i).value;
    assert x.item.nonce > 0 && x.tok.meta.Some? ==> ItemCarries(cfg, input.args, i, KeyOf(x.item.token, x.item.nonce));
    ReceiveOneGrows(cfg, s, input, x, known);
  }

  lemma {:induction false} ReceiveItemsGrow(cfg: Config, s: Shard, input: Input, n: nat, i: nat, known: iset<bytes>)
    requires TracksMetaData(cfg) && Plain(s) && cfg.shardOf(input.caller) != cfg.shardOf(input.recipient)
    requires i <= n && 3 * n + 1 <= |input.args|
    requires forall k: nat, key :: k < n && ItemCarries(cfg, input.args, k, key) ==> key in known
    ensures LoopLearns(cfg, s, ReceiveItems(cfg, s, input, n, i), cfg.shardOf(input.caller), known, input.args, n, i)
    decreases n - i
  {
    hide ReceiveOne;
    var from := cfg.shardOf(input.caller);
    if i == n {
      NothingLeft(cfg, s, from, known, input.args, n);
    } else if DecodeItem(cfg, input.args, i).Ok? {
      var one := ReceiveOne(cfg, s, input, DecodeItem(cfg, input.args, i).value);
      if one.Ok? {
        ReceiveOneLearns(cfg, s, input, i, known);
        ReceiveItemsGrow(cfg, one.value, input, n, i + 1, known);
        LearnsCons(cfg, s, one.value, ReceiveItems(cfg, one.value, input, n, i + 1), from, known, input.args, n, i);
      }
    }
  }

  /** After the step the receiver's shard has an entry for every key whose metadata the message carries. */
  ghost predicate Learns(cfg: Config, s: Shard, r: Result<Shard>, m: Msg) {
    r.Ok? ==>
      && Grows(s, r.value, cfg.shardOf(m.src), CarriedKeys(cfg, m))
      && forall key :: CarriesMeta(cfg, m, key) ==> key in r.value.system
  }

  lemma DeliverNftLearns(cfg: Config, s: Shard, m: Msg, env: Input, args: seq<bytes>)
    requires TracksMetaData(cfg) && Plain(s) && cfg.shardOf(m.src) != cfg.shardOf(m.dst)
    requires Parse(m.data) == Ok((NFT_TRANSFER, args)) && |args| >= NFT_MIN_ARGS
    ensures Learns(cfg, s, Deliver(cfg, s, m, env), m)
  {
    if Deliver(cfg, s, m, env).Ok? {
      var input := DeliveryInput(m, args, env);
      var item, t := NftItem(args), NftPayload(cfg, args).value;
      assert t.meta.Some? && item.nonce > 0 ==> CarriesMeta(cfg, m, KeyOf(item.token, item.nonce));
      CreditGrows(cfg, s, input, m.src, m.dst, t, item.token, item.nonce, CarriedKeys(cfg, m));
    }
  }

  lemma DeliverMultiLearns(cfg: Config, s: Shard, m: Msg, env: Input, args: seq<bytes>)
    requires TracksMetaData(cfg) && Plain(s) && cfg.shardOf(m.src) != cfg.shardOf(m.dst)
    requires Parse(m.data) == Ok((MULTI_TRANSFER, args)) && |args| >= 4
    ensures Learns(cfg, s, Deliver(cfg, s, m, env), m)
  {
    if Deliver(cfg, s, m, env).Ok? {
      var input, n := DeliveryInput(m, args, env), U64(SetBytes(args[0]));
      FunctionNames();
      forall k: nat, key | k < n && ItemCarries(cfg, args, k, key)
        ensures CarriesMeta(cfg, m, key)
      {
        assert MultiCarries(cfg, args, key);
      }
      ReceiveItemsGrow(cfg, s, input, n, 0, CarriedKeys(cfg, m));
    }
  }

  lemma DeliverLearns(cfg: Config, s: Shard, m: Msg, env: Input)
    requires TracksMetaData(cfg) && Plain(s) && cfg.shardOf(m.src) != cfg.shardOf(m.dst)
    ensures Learns(cfg, s, Deliver(cfg, s, m, env), m)
  {
    if Deliver(cfg, s, m, env).Ok? {
      var (func, args) := Parse(m.data).value;
      if func == NFT_TRANSFER {
        DeliverNftLearns(cfg, s, m, env, args);
      } else {
        DeliverMultiLearns(cfg, s, m, env, args);
      }
    }
  }

  // ----- failed deliveries -----

  lemma SaveOneLearns(cfg: Config, s: Shard, senderShard: nat, args: seq<bytes>, i: nat, t: Token, known: iset<bytes>)
    requires TracksMetaData(cfg) && Plain(s) && 3 * i + 4 <= |args|
    requires ItemAt(args, 1, i).nonce > 0 && |args[3 * i + 3]| > MAX_VALUE_LENGTH
    requires cfg.unmarshal(args[3 * i + 3]) == Some(t)
    requires forall key :: ItemCarries(cfg, args, i, key) ==> key in known
    requires var item := ItemAt(args, 1, i);
             SaveMetaData(cfg, s, None, senderShard, KeyOf(item.token, item.nonce), item.nonce, t, true).Ok?
    ensures var item := ItemAt(args, 1, i);
            var saved := SaveMetaData(cfg, s, None, senderShard, KeyOf(item.token, item.nonce), item.nonce, t, true);
            TurnLearns(cfg, s, saved.value, senderShard, known, args, i)
  {
    var item := ItemAt(args, 1, i);
    var key := KeyOf(item.token, item.nonce);
    assert t.meta.Some? ==> ItemCarries(cfg, args, i, key);
    SaveMetaDataGrows(cfg, s, None, senderShard, key, item.nonce, t, true);
  }

  lemma NothingSaved(cfg: Config, s: Shard, senderShard: nat, args: seq<bytes>, i: nat, known: iset<bytes>)
    requires Plain(s) && 3 * i + 4 <= |args|
    requires ItemAt(args, 1, i).nonce == 0 || |args[3 * i + 3]| <= MAX_VALUE_LENGTH
    ensures TurnLearns(cfg, s, s, senderShard, known, args, i)
  {
  }

  lemma {:induction false} SaveItemsGrow(
    cfg: Config, s: Shard, senderShard: nat, args: seq<bytes>, n: nat, i: nat, known: iset<bytes>)
    requires TracksMetaData(cfg) && Plain(s) && i <= n && 3 * n + 1 <= |args|
    requires forall k: nat, key :: k < n && ItemCarries(cfg, args, k, key) ==> key in known
    ensures LoopLearns(cfg, s, SaveMetaDataOfItems(cfg, s, senderShard, args, n, i), senderShard, known, args, n, i)
    decreases n - i
  {
    if i == n {
      NothingLeft(cfg, s, senderShard, known, args, n);
    } else {
      var item := ItemAt(args, 1, i);
      if item.nonce > 0 && |args[3 * i + 3]| > MAX_VALUE_LENGTH {
        if cfg.unmarshal(args[3 * i + 3]).Some? {
          var t := cfg.unmarshal(args[3 * i + 3]).value;
          var one := SaveMetaData(cfg, s, None, senderShard, KeyOf(item.token, item.nonce), item.nonce, t, true);
          if one.Ok? {
            SaveOneLearns(cfg, s, senderShard, args, i, t, known);
            SaveItemsGrow(cfg, one.value, senderShard, args, n, i + 1, known);
            LearnsCons(cfg, s, one.value, SaveMetaDataOfItems(cfg, one.value, senderShard, args, n, i + 1),
                       senderShard, known, args, n, i);
          }
        }
      } else {
        NothingSaved(cfg, s, senderShard, args, i, known);
        SaveItemsGrow(cfg, s, senderShard, args, n, i + 1, known);
        LearnsCons(cfg, s, s, SaveMetaDataOfItems(cfg, s, senderShard, args, n, i + 1), senderShard, known, args, n, i);
      }
    }
  }

  lemma RejectMultiLearns(cfg: Config, s: Shard, m: Msg, args: seq<bytes>)
    requires TracksMetaData(cfg) && Plain(s) && cfg.shardOf(m.src) != cfg.shardOf(m.dst) == s.id
    requires Parse(m.data) == Ok((MULTI_TRANSFER, args)) && |args| >= 4
    ensures Learns(cfg, s, SaveMetaDataOf(cfg, s, m), m)
  {
    FunctionNames();
    if SaveMetaDataOf(cfg, s, m).Ok? {
      var n := U64(SetBytes(args[0]));
      forall k: nat, key | k < n && ItemCarries(cfg, args, k, key)
        ensures CarriesMeta(cfg, m, key)
      {
        assert MultiCarries(cfg, args, key);
      }
      SaveItemsGrow(cfg, s, cfg.shardOf(m.src), args, n, 0, CarriedKeys(cfg, m));
    }
  }

  lemma RejectNftLearns(cfg: Config, s: Shard, m: Msg, args: seq<bytes>)
    requires TracksMetaData(cfg) && Plain(s) && cfg.shardOf(m.src) != cfg.shardOf(m.dst) == s.id
    requires Parse(m.data) == Ok((NFT_TRANSFER, args)) && |args| >= NFT_MIN_ARGS
    ensures Learns(cfg, s, SaveMetaDataOf(cfg, s, m), m)
  {
    if SaveMetaDataOf(cfg, s, m).Ok? && args[3] != ZERO_PAYLOAD {
      var item, t := NftItem(args), cfg.unmarshal(args[3]).value;
      var key := KeyOf(item.token, item.nonce);
      assert t.meta.Some? && item.nonce > 0 ==> CarriesMeta(cfg, m, key);
      SaveMetaDataGrows(cfg, s, None, cfg.shardOf(m.src), key, item.nonce, t, true);
    }
  }

  lemma RejectLearns(cfg: Config, s: Shard, m: Msg)
    requires TracksMetaData(cfg) && Plain(s) && cfg.shardOf(m.src) != cfg.shardOf(m.dst) == s.id
    ensures Learns(cfg, s, SaveMetaDataOf(cfg, s, m), m)
  {
    var parsed := Parse(m.data);
    if parsed.Ok? && |parsed.value.1| >= 4 {
      if parsed.value.0 == NFT_TRANSFER {
        RejectNftLearns(cfg, s, m, parsed.value.1);
      } else if parsed.value.0 == MULTI_TRANSFER {
        RejectMultiLearns(cfg, s, m, parsed.value.1);
      }
    }
  }
}
