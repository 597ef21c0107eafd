// A condition that can be checked before a multi transfer, under which no charge wraps and its gas balances.
module GasBounds {
  import opened Bytes
  import opened Wrappers
  import opened TokenId
  import opened Ledger
  import opened Transfers
  import opened Totals
  import opened Shapes
  import opened Wire
  import opened Gas

  /** The token object with which a single move of the item ends: it carries the amount, or in the same shard
      the receiver's new balance. */
  function SentToken(cfg: Config, s: Shard, src: Addr, dst: Addr, item: Item): Token {
    var there := if cfg.shardOf(dst) == s.id then TokenAt(cfg, s, dst, item.token, item.nonce).value else 0;
    TokenAt(cfg, s, src, item.token, item.nonce).(value := item.value + there)
  }

  /** The two states agree on everything under the key. */
  ghost predicate SameUnder(s: Shard, s1: Shard, key: bytes) {
    && s1.id == s.id
    && (forall a :: Slot(a, key) in s1.accounts <==> Slot(a, key) in s.accounts)
    && (forall a :: Slot(a, key) in s.accounts && Slot(a, key) in s1.accounts ==>
          s1.accounts[Slot(a, key)] == s.accounts[Slot(a, key)])
    && (key in s1.system <==> key in s.system)
    && (key in s.system && key in s1.system ==> s1.system[key] == s.system[key])
  }

  lemma WriteElsewhere(s: Shard, s1: Shard, slot: Slot, key: bytes)
    requires SameExcept(s, s1, slot) && key != slot.key
    ensures SameUnder(s, s1, key)
  {
  }

  lemma SameUnderBoth(s: Shard, s1: Shard, s2: Shard, key: bytes)
    requires SameUnder(s, s1, key) && SameUnder(s1, s2, key)
    ensures SameUnder(s, s2, key)
  {
  }

  lemma SentTokenSame(cfg: Config, s: Shard, s1: Shard, src: Addr, dst: Addr, item: Item)
    requires SameUnder(s, s1, KeyOf(item.token, item.nonce))
    ensures SentToken(cfg, s1, src, dst, item) == SentToken(cfg, s, src, dst, item)
  {
    hide KeyOf;
  }

  /** Sending one item ends with its token object, and leaves other keys alone. */
  ghost predicate EndsWithToken(cfg: Config, s: Shard, one: Result<(Shard, Token)>, src: Addr, dst: Addr, item: Item) {
    one.Ok? ==>
      && one.value.0.id == s.id
      && one.value.1 == SentToken(cfg, s, src, dst, item)
      && forall key :: key != KeyOf(item.token, item.nonce) ==> SameUnder(s, one.value.0, key)
  }

  lemma SettledHere(cfg: Config, s: Shard, s1: Shard, input: Input, dst: Addr, item: Item, t: Token)
    requires cfg.shardOf(input.caller) == cfg.shardOf(dst) == s.id && input.caller != dst && s1.id == s.id
    requires t == TokenAt(cfg, s, input.caller, item.token, item.nonce).(value := item.value)
    requires SameExcept(s, s1, Slot(input.caller, KeyOf(item.token, item.nonce)))
    ensures EndsWithToken(cfg, s, Settle(cfg, s1, input, dst, item, t), input.caller, dst, item)
  {
    hide Credit, SaveToken, KeyOf;
    var r := Credit(cfg, s1, input, input.caller, dst, t, item.token, item.nonce);
    CreditHereShape(cfg, s1, input, input.caller, dst, t, item.token, item.nonce);
    if r.Ok? {
      SaveTokenWrites(cfg, s1, input, input.caller, dst, item.token, item.nonce, r.value.1, false);
      forall key | key != KeyOf(item.token, item.nonce)
        ensures SameUnder(s, r.value.0, key)
      {
        WriteElsewhere(s, s1, Slot(input.caller, KeyOf(item.token, item.nonce)), key);
        WriteElsewhere(s1, r.value.0, Slot(dst, KeyOf(item.token, item.nonce)), key);
        SameUnderBoth(s, s1, r.value.0, key);
      }
    }
  }

  lemma SettledFar(cfg: Config, s: Shard, s1: Shard, input: Input, dst: Addr, item: Item, t: Token)
    requires cfg.shardOf(dst) != s.id && s1.id == s.id
    requires t == TokenAt(cfg, s, input.caller, item.token, item.nonce).(value := item.value)
    requires SameExcept(s, s1, Slot(input.caller, KeyOf(item.token, item.nonce)))
    ensures EndsWithToken(cfg, s, Settle(cfg, s1, input, dst, item, t), input.caller, dst, item)
  {
    hide Settle, AddLiquidity, KeyOf;
    var r := Settle(cfg, s1, input, dst, item, t);
    SettleFarShape(cfg, s1, input, dst, item, t);
    if r.Ok? {
      var slot := Slot(input.caller, KeyOf(item.token, item.nonce));
      AddLiquidityWrites(cfg, s1, item.token, item.nonce, -(item.value as int));
      forall key | key != slot.key
        ensures SameUnder(s, r.value.0, key)
      {
        WriteElsewhere(s, s1, slot, key);
        WriteElsewhere(s1, r.value.0, slot, key);
        SameUnderBoth(s, s1, r.value.0, key);
      }
    }
  }

  lemma OneEndsWithToken(cfg: Config, s: Shard, input: Input, dst: Addr, item: Item)
    requires cfg.shardOf(input.caller) == s.id && input.caller != dst
    ensures EndsWithToken(cfg, s, SendOne(cfg, s, input, dst, item), input.caller, dst, item)
  {
    hide SendOne, Debit, Settle, SaveToken, EndsWithToken;
    SendOneShape(cfg, s, input, dst, item);
    DebitShape(cfg, s, input, item);
    if SendOne(cfg, s, input, dst, item).Ok? {
      var (s1, t) := Debit(cfg, s, input, item).value;
      var before := TokenAt(cfg, s, input.caller, item.token, item.nonce);
      SaveTokenWrites(cfg, s, input, input.caller, input.caller, item.token, item.nonce,
                      before.(value := before.value - item.value), false);
      if cfg.shardOf(dst) == s.id {
        SettledHere(cfg, s, s1, input, dst, item, t);
      } else {
        SettledFar(cfg, s, s1, input, dst, item, t);
      }
    } else {
      Refused(cfg, s, SendOne(cfg, s, input, dst, item), input.caller, dst, item);
    }
  }

  lemma Refused(cfg: Config, s: Shard, one: Result<(Shard, Token)>, src: Addr, dst: Addr, item: Item)
    requires one.Err?
    ensures EndsWithToken(cfg, s, one, src, dst, item)
  {
  }

  // ----- the loop -----

  predicate DistinctKeys(args: seq<bytes>, n: nat, i: nat)
    requires 3 * n + 2 <= |args|
  {
    forall j, k :: i <= j < k < n ==> KeyAt(args, j) != KeyAt(args, k)
  }

  function KeyAt(args: seq<bytes>, k: nat): bytes
    requires 3 * k + 5 <= |args|
  {
    KeyOf(ItemAt(args, 2, k).token, ItemAt(args, 2, k).nonce)
  }

  /** What the loop records from item `i` on. */
  ghost predicate RecordsTokens(
    cfg: Config, s: Shard, args: seq<bytes>, src: Addr, dst: Addr, i: nat, sent: seq<Sent>)
  {
    && 3 * (i + |sent|) + 2 <= |args|
    && forall k :: i <= k < i + |sent| ==> sent[k - i] == ExpectedAt(cfg, s, args, src, dst, k)
  }

  function ExpectedAt(cfg: Config, s: Shard, args: seq<bytes>, src: Addr, dst: Addr, k: nat): Sent
    requires 3 * k + 5 <= |args|
  {
    Sent(ItemAt(args, 2, k), SentToken(cfg, s, src, dst, ItemAt(args, 2, k)))
  }

  lemma RecordsFirst(
    cfg: Config, s: Shard, s1: Shard, args: seq<bytes>, src: Addr, dst: Addr, i: nat, rest: seq<Sent>)
    requires 3 * (i + 1 + |rest|) + 2 <= |args| && RecordsTokens(cfg, s1, args, src, dst, i + 1, rest)
    requires DistinctKeys(args, i + 1 + |rest|, i)
    requires forall key :: key != KeyAt(args, i) ==> SameUnder(s, s1, key)
    ensures RecordsTokens(cfg, s, args, src, dst, i, [ExpectedAt(cfg, s, args, src, dst, i)] + rest)
  {
    hide SentToken, SameUnder, KeyOf;
    var sent := [ExpectedAt(cfg, s, args, src, dst, i)] + rest;
    forall k | i <= k < i + |sent|
      ensures sent[k - i] == ExpectedAt(cfg, s, args, src, dst, k)
    {
      if k > i {
        assert KeyAt(args, i) != KeyAt(args, k);
        SentTokenSame(cfg, s, s1, src, dst, ItemAt(args, 2, k));
        assert sent[k - i] == rest[k - (i + 1)] == ExpectedAt(cfg, s1, args, src, dst, k);
      }
    }
  }

  ghost predicate LoopTokens(
    cfg: Config, s: Shard, r: Result<(Shard, seq<Sent>)>, args: seq<bytes>, src: Addr, dst: Addr, n: nat, i: nat)
    requires i <= n
  {
    r.Ok? ==> |r.value.1| == n - i && RecordsTokens(cfg, s, args, src, dst, i, r.value.1)
  }

  lemma TurnTokens(
    cfg: Config, s: Shard, r: Result<(Shard, seq<Sent>)>, one: Result<(Shard, Token)>, rest: Result<(Shard, seq<Sent>)>,
    args: seq<bytes>, src: Addr, dst: Addr, n: nat, i: nat)
    requires i < n && 3 * n + 2 <= |args| && DistinctKeys(args, n, i)
    requires Turn(r, ItemAt(args, 2, i), one, rest) && EndsWithToken(cfg, s, one, src, dst, ItemAt(args, 2, i))
    requires one.Ok? ==> LoopTokens(cfg, one.value.0, rest, args, src, dst, n, i + 1)
    ensures LoopTokens(cfg, s, r, args, src, dst, n, i)
  {
    hide SentToken, SameUnder, RecordsTokens;
    if r.Ok? {
      RecordsFirst(cfg, s, one.value.0, args, src, dst, i, rest.value.1);
    }
  }

  lemma {:induction false} ItemsEndWithTokens(cfg: Config, s: Shard, input: Input, dst: Addr, n: nat, i: nat)
    requires cfg.shardOf(input.caller) == s.id && input.caller != dst
    requires i <= n && 3 * n + 2 <= |input.args| && DistinctKeys(input.args, n, i)
    ensures LoopTokens(cfg, s, SendItems(cfg, s, input, dst, n, i), input.args, input.caller, dst, n, i)
    decreases n - i, 0
  {
    if i < n {
      hide SendOne, SendItems, EndsWithToken, LoopTokens;
      var one := SendOne(cfg, s, input, dst, ItemAt(input.args, 2, i));
      SendItemsStep(cfg, s, input, dst, n, i);
      OneEndsWithToken(cfg, s, input, dst, ItemAt(input.args, 2, i));
      RestEndsWithTokens(cfg, s, one, input, dst, n, i + 1);
      TurnTokens(cfg, s, SendItems(cfg, s, input, dst, n, i), one, RestOf(cfg, one, input, dst, n, i + 1),
                 input.args, input.caller, dst, n, i);
    }
  }

  lemma {:induction false} RestEndsWithTokens(
    cfg: Config, s: Shard, one: Result<(Shard, Token)>, input: Input, dst: Addr, n: nat, i: nat)
    requires 0 < i <= n && 3 * n + 2 <= |input.args| && DistinctKeys(input.args, n, i)
    requires EndsWithToken(cfg, s, one, input.caller, dst, ItemAt(input.args, 2, i - 1))
    requires cfg.shardOf(input.caller) == s.id && input.caller != dst
    ensures one.Ok? ==>
              LoopTokens(cfg, one.value.0, RestOf(cfg, one, input, dst, n, i), input.args, input.caller, dst, n, i)
    decreases n - i, 1
  {
    hide SameUnder, SentToken;
    if one.Ok? {
      ItemsEndWithTokens(cfg, one.value.0, input, dst, n, i);
    }
  }

  // ----- what is paid for -----

  /** The bytes of every item with a nonce cost less than 2^64. */
  ghost predicate CopiesFit(cfg: Config, sent: seq<Sent>, i: nat) {
    forall k :: i <= k < |sent| && sent[k].item.nonce > 0 ==> |cfg.marshal(sent[k].tok)| * cfg.copyGas < TWO64
  }

  lemma {:induction false} PaidFit(cfg: Config, encoded: seq<bytes>, sent: seq<Sent>, i: nat)
    requires Lawful(cfg) && i <= |sent| && Spells(cfg, encoded, sent, 0) && CopiesFit(cfg, sent, i)
    ensures NoWrap(PaidLengths(encoded, 3 * i, |sent| - i), cfg.copyGas)
    decreases |sent| - i
  {
    hide ToBytes, SetBytes;
    if i < |sent| {
      var p, rest := 3 * i, PaidLengths(encoded, 3 * (i + 1), |sent| - i - 1);
      PaidFit(cfg, encoded, sent, i + 1);
      assert SpellsOne(cfg, encoded, 3 * (i - 0), sent[i]);
      NonceArgDecodes(sent[i].item.nonce);
      assert PaidAt(encoded, p) ==> encoded[p + 2] == cfg.marshal(sent[i].tok);
      assert PaidLengths(encoded, p, |sent| - i) == (if PaidAt(encoded, p) then [|encoded[p + 2]|] else []) + rest;
    }
  }

  /** What a caller can check before a multi transfer of `n` different tokens: neither the fee nor the price
      of copying any of them reaches 2^64. */
  ghost predicate ChargesFit(cfg: Config, s: Shard, input: Input, n: nat)
    requires 3 * n + 2 <= |input.args|
  {
    && n * cfg.multiGas < TWO64
    && DistinctKeys(input.args, n, 0)
    && forall k :: 0 <= k < n && ItemAt(input.args, 2, k).nonce > 0 ==>
         |cfg.marshal(ExpectedAt(cfg, s, input.args, input.caller, input.args[0], k).tok)| * cfg.copyGas < TWO64
  }

  lemma SpelledFits(cfg: Config, s: Shard, input: Input, dst: Addr, n: nat, gas: nat)
    requires Lawful(cfg) && cfg.shardOf(input.caller) == s.id && input.caller != dst
    requires 3 * n + 2 <= |input.args| && dst == input.args[0] && ChargesFit(cfg, s, input, n)
    requires SendAll(cfg, s, input, dst, n, gas).Ok?
    ensures var spelled := SpelledBy(cfg, s, input, dst, n, gas);
            |spelled| == 3 * n && NoWrap(PaidLengths(spelled, 0, n), cfg.copyGas)
  {
    hide SendItems, EncodeItems, NoWrap, PaidLengths, SentToken;
    var (moved, sent) := SendItems(cfg, s, input, dst, n, 0).value;
    ItemsEndWithTokens(cfg, s, input, dst, n, 0);
    EncodeSpells(cfg, moved, sent, dst, gas, 0);
    forall k | 0 <= k < |sent| && sent[k].item.nonce > 0
      ensures |cfg.marshal(sent[k].tok)| * cfg.copyGas < TWO64
    {
      assert sent[k - 0] == ExpectedAt(cfg, s, input.args, input.caller, dst, k);
    }
    PaidFit(cfg, EncodeItems(cfg, moved, sent, dst, gas, 0).value.1, sent, 0);
  }

  /** Under that condition the gas of a multi transfer balances: what is provided is what the output holds, the
      fee, and the price of all bytes copied, as integers. */
  lemma MultiGasBalances(cfg: Config, s: Shard, input: Input)
    requires Lawful(cfg) && cfg.shardOf(input.caller) == s.id
    requires |input.args| >= 4 && SendMulti(cfg, s, input).Ok?
    requires var n := U64(SetBytes(input.args[1])); 3 * n + 2 <= |input.args| && ChargesFit(cfg, s, input, n)
    ensures var n, spelled := U64(SetBytes(input.args[1])), Spelled(cfg, s, input);
            && |spelled| == 3 * n
            && input.gasProvided == GasIn(SendMulti(cfg, s, input).value.1) + MultiFee(cfg, input)
                                    + TrueCharge(PaidLengths(spelled, 0, n), cfg.copyGas)
  {
    hide SendMulti, SendAll, SpelledBy, PaidLengths;
    var n := U64(SetBytes(input.args[1]));
    SendMultiChecks(cfg, s, input);
    SpelledFits(cfg, s, input, input.args[0], n, input.gasProvided - U64(n * cfg.multiGas));
    MultiGasConserved(cfg, s, input);
  }
}
