// A multi transfer inside one shard is its single moves, one after the other.
module MultiMoves {
  import opened Bytes
  import opened Wrappers
  import opened TokenId
  import opened Ledger
  import opened Transfers
  import opened Totals
  import opened Shapes
  import opened Wire
  import opened Supply

  /** What moving `item` from `src` to `dst` adds to the record at `p`. */
  function Effect(item: Item, src: Addr, dst: Addr, p: Slot): int {
    if p.key != KeyOf(item.token, item.nonce) then 0
    else if p.addr == src then -(item.value as int)
    else if p.addr == dst then item.value
    else 0
  }

  /** The `i`-th to the `n`-th single move in order, seen from one record that holds `value`. */
  function AfterMoves(value: int, items: seq<Item>, src: Addr, dst: Addr, p: Slot): int
    decreases |items|
  {
    if items == [] then value
    else AfterMoves(value + Effect(items[0], src, dst, p), items[1..], src, dst, p)
  }

  /** The record is never below zero on the way. */
  predicate CoveredThroughout(value: int, items: seq<Item>, src: Addr, dst: Addr, p: Slot)
    decreases |items|
  {
    value >= 0 &&
    (items != [] ==> CoveredThroughout(value + Effect(items[0], src, dst, p), items[1..], src, dst, p))
  }

  /** No item has the key of `p`, or `p` belongs to neither party. */
  predicate Uninvolved(items: seq<Item>, src: Addr, dst: Addr, p: Slot) {
    p.addr !in {src, dst} || forall k :: 0 <= k < |items| ==> KeyOf(items[k].token, items[k].nonce) != p.key
  }

  predicate SameRecord(s: Shard, s1: Shard, p: Slot) {
    (p in s.accounts <==> p in s1.accounts) && RecordAt(s, p) == RecordAt(s1, p)
  }

  /** One move: the two records change by the amount, all others stay. */
  ghost predicate MovesOne(s: Shard, s1: Shard, item: Item, src: Addr, dst: Addr) {
    && s1.id == s.id && NonNegative(s1)
    && (forall p :: Holding(s1, p) == Holding(s, p) + Effect(item, src, dst, p))
    && (forall p :: Uninvolved([item], src, dst, p) ==> SameRecord(s, s1, p))
  }

  lemma TwoWritesMove(s: Shard, s1: Shard, s2: Shard, item: Item, src: Addr, dst: Addr)
    requires NonNegative(s) && src != dst
    requires var key := KeyOf(item.token, item.nonce);
             && SameExcept(s, s1, Slot(src, key)) && SameExcept(s1, s2, Slot(dst, key))
             && Holding(s1, Slot(src, key)) == Holding(s, Slot(src, key)) - item.value >= 0
             && Holding(s2, Slot(dst, key)) == Holding(s1, Slot(dst, key)) + item.value
    ensures MovesOne(s, s2, item, src, dst)
  {
    var key := KeyOf(item.token, item.nonce);
    forall p
      ensures Holding(s2, p) == Holding(s, p) + Effect(item, src, dst, p)
    {
      assert p == Slot(src, key) || p == Slot(dst, key) || Effect(item, src, dst, p) == 0;
    }
    forall p | Uninvolved([item], src, dst, p)
      ensures SameRecord(s, s2, p)
    {
      assert [item][0] == item;
      assert p != Slot(src, key) && p != Slot(dst, key);
    }
    forall p | p in s2.accounts
      ensures s2.accounts[p].value >= 0
    {
      assert Holding(s2, p) == Holding(s, p) + Effect(item, src, dst, p);
      assert p == Slot(src, key) || Holding(s, p) >= 0;
    }
  }

  ghost predicate TurnMovesOne(s: Shard, one: Result<(Shard, Token)>, item: Item, src: Addr, dst: Addr) {
    one.Ok? ==> MovesOne(s, one.value.0, item, src, dst)
  }

  lemma SendOneMoves(cfg: Config, s: Shard, input: Input, dst: Addr, item: Item)
    requires NonNegative(s) && cfg.shardOf(input.caller) == cfg.shardOf(dst) == s.id && input.caller != dst
    ensures TurnMovesOne(s, SendOne(cfg, s, input, dst, item), item, input.caller, dst)
  {
    SendOneShape(cfg, s, input, dst, item);
    DebitShape(cfg, s, input, item);
    var debited := Debit(cfg, s, input, item);
    if debited.Ok? {
      SettleMoves(cfg, s, debited.value.0, input, dst, item, debited.value.1);
    }
  }

  lemma SettleMoves(cfg: Config, s: Shard, s1: Shard, input: Input, dst: Addr, item: Item, t: Token)
    requires NonNegative(s) && cfg.shardOf(input.caller) == cfg.shardOf(dst) == s1.id && input.caller != dst
    requires var before := TokenAt(cfg, s, input.caller, item.token, item.nonce);
             && before.value >= item.value && t == before.(value := item.value)
             && Ok(s1) == SaveToken(cfg, s, input, input.caller, input.caller, item.token, item.nonce,
                                    before.(value := before.value - item.value), false)
    ensures TurnMovesOne(s, Settle(cfg, s1, input, dst, item, t), item, input.caller, dst)
  {
    var before := TokenAt(cfg, s, input.caller, item.token, item.nonce);
    CreditHereShape(cfg, s1, input, input.caller, dst, t, item.token, item.nonce);
    var r := Credit(cfg, s1, input, input.caller, dst, t, item.token, item.nonce);
    if r.Ok? {
      SavesMove(cfg, s, s1, r.value.0, input, dst, item, before.(value := before.value - item.value), r.value.1);
    }
  }

  lemma SavesMove(
    cfg: Config, s: Shard, s1: Shard, s2: Shard, input: Input, dst: Addr, item: Item, left: Token, sum: Token)
    requires NonNegative(s) && input.caller != dst
    requires Ok(s1) == SaveToken(cfg, s, input, input.caller, input.caller, item.token, item.nonce, left, false)
    requires Ok(s2) == SaveToken(cfg, s1, input, input.caller, dst, item.token, item.nonce, sum, false)
    requires var key := KeyOf(item.token, item.nonce);
             && left.value == Holding(s, Slot(input.caller, key)) - item.value >= 0
             && sum.value == item.value + TokenAt(cfg, s1, dst, item.token, item.nonce).value
    ensures MovesOne(s, s2, item, input.caller, dst)
  {
    var key := KeyOf(item.token, item.nonce);
    SaveTokenWrites(cfg, s, input, input.caller, input.caller, item.token, item.nonce, left, false);
    SaveTokenWrites(cfg, s1, input, input.caller, dst, item.token, item.nonce, sum, false);
    assert Holding(s1, Slot(dst, key)) == Holding(s, Slot(dst, key)) >= 0;
    TwoWritesMove(s, s1, s2, item, input.caller, dst);
  }

  /** The items of the arguments from `i` on. */
  function ItemsFrom(args: seq<bytes>, n: nat, i: nat): (items: seq<Item>)
    requires i <= n && 3 * n + 2 <= |args|
    ensures |items| == n - i
  {
    seq(n - i, k requires 0 <= k < n - i =>
      Item(args[3 * (i + k) + 2], U64(SetBytes(args[3 * (i + k) + 3])), SetBytes(args[3 * (i + k) + 4])))
  }

  lemma ItemsStep(args: seq<bytes>, n: nat, i: nat)
    requires i < n && 3 * n + 2 <= |args|
    ensures ItemsFrom(args, n, i)[0] == ItemAt(args, 2, i)
    ensures ItemsFrom(args, n, i)[1..] == ItemsFrom(args, n, i + 1)
  {
  }

  /** `s1` is `s` after the single moves in order. */
  ghost predicate MovesAll(s: Shard, s1: Shard, items: seq<Item>, src: Addr, dst: Addr) {
    && (forall p :: Holding(s1, p) == AfterMoves(Holding(s, p), items, src, dst, p))
    && (forall p :: CoveredThroughout(Holding(s, p), items, src, dst, p))
    && (forall p :: Uninvolved(items, src, dst, p) ==> SameRecord(s, s1, p))
  }

  lemma MovesCons(s: Shard, one: Shard, s1: Shard, items: seq<Item>, src: Addr, dst: Addr)
    requires NonNegative(s) && items != []
    requires MovesOne(s, one, items[0], src, dst) && MovesAll(one, s1, items[1..], src, dst)
    ensures MovesAll(s, s1, items, src, dst)
  {
    forall p | Uninvolved(items, src, dst, p)
      ensures SameRecord(s, s1, p)
    {
      assert Uninvolved([items[0]], src, dst, p) && Uninvolved(items[1..], src, dst, p);
      assert SameRecord(s, one, p) && SameRecord(one, s1, p);
    }
    forall p
      ensures Holding(s1, p) == AfterMoves(Holding(s, p), items, src, dst, p)
      ensures CoveredThroughout(Holding(s, p), items, src, dst, p)
    {
      assert Holding(one, p) == Holding(s, p) + Effect(items[0], src, dst, p);
      assert CoveredThroughout(Holding(one, p), items[1..], src, dst, p);
    }
  }

  ghost predicate LoopMoves(s: Shard, r: Result<(Shard, seq<Sent>)>, items: seq<Item>, src: Addr, dst: Addr) {
    r.Ok? ==> MovesAll(s, r.value.0, items, src, dst)
  }

  lemma TurnMoves(
    s: Shard, r: Result<(Shard, seq<Sent>)>, one: Result<(Shard, Token)>, rest: Result<(Shard, seq<Sent>)>,
    items: seq<Item>, src: Addr, dst: Addr)
    requires NonNegative(s) && items != [] && Turn(r, items[0], one, rest)
    requires TurnMovesOne(s, one, items[0], src, dst)
    requires one.Ok? ==> LoopMoves(one.value.0, rest, items[1..], src, dst)
    ensures LoopMoves(s, r, items, src, dst)
  {
    if r.Ok? {
      MovesCons(s, one.value.0, r.value.0, items, src, dst);
    }
  }

  lemma NoneLeft(cfg: Config, s: Shard, input: Input, dst: Addr, n: nat)
    requires NonNegative(s) && 3 * n + 2 <= |input.args|
    ensures LoopMoves(s, SendItems(cfg, s, input, dst, n, n), ItemsFrom(input.args, n, n), input.caller, dst)
  {
    NoMoves(s, input.caller, dst);
  }

  lemma {:induction false} SendItemsMove(cfg: Config, s: Shard, input: Input, dst: Addr, n: nat, i: nat)
    requires NonNegative(s) && cfg.shardOf(input.caller) == cfg.shardOf(dst) == s.id && input.caller != dst
    requires i <= n && 3 * n + 2 <= |input.args|
    ensures LoopMoves(s, SendItems(cfg, s, input, dst, n, i), ItemsFrom(input.args, n, i), input.caller, dst)
    decreases n - i, 1
  {
    if i == n {
      NoneLeft(cfg, s, input, dst, n);
    } else {
      var item := ItemAt(input.args, 2, i);
      SendOneMoves(cfg, s, input, dst, item);
      SendItemsStep(cfg, s, input, dst, n, i);
      FirstAndRestMove(cfg, s, input, dst, n, i, SendOne(cfg, s, input, dst, item),
                       SendItems(cfg, s, input, dst, n, i));
    }
  }

  lemma {:induction false} FirstAndRestMove(
    cfg: Config, s: Shard, input: Input, dst: Addr, n: nat, i: nat, one: Result<(Shard, Token)>,
    r: Result<(Shard, seq<Sent>)>)
    requires NonNegative(s) && cfg.shardOf(input.caller) == cfg.shardOf(dst) == s.id && input.caller != dst
    requires i < n && 3 * n + 2 <= |input.args|
    requires TurnMovesOne(s, one, ItemAt(input.args, 2, i), input.caller, dst)
    requires Turn(r, ItemAt(input.args, 2, i), one, RestOf(cfg, one, input, dst, n, i + 1))
    ensures LoopMoves(s, r, ItemsFrom(input.args, n, i), input.caller, dst)
    decreases n - i, 0
  {
    var items := ItemsFrom(input.args, n, i);
    ItemsStep(input.args, n, i);
    RestMoves(cfg, s, items[0], one, input, dst, n, i + 1);
    TurnMoves(s, r, one, RestOf(cfg, one, input, dst, n, i + 1), items, input.caller, dst);
  }

  lemma {:induction false} RestMoves(
    cfg: Config, s: Shard, item: Item, one: Result<(Shard, Token)>, input: Input, dst: Addr, n: nat, i: nat)
    requires i <= n && 3 * n + 2 <= |input.args| && input.caller != dst
    requires TurnMovesOne(s, one, item, input.caller, dst) && cfg.shardOf(input.caller) == cfg.shardOf(dst) == s.id
    ensures one.Ok? ==>
              LoopMoves(one.value.0, RestOf(cfg, one, input, dst, n, i), ItemsFrom(input.args, n, i), input.caller, dst)
    decreases n - i, 2
  {
    if one.Ok? {
      SendItemsMove(cfg, one.value.0, input, dst, n, i);
    }
  }

  lemma NoMoves(s: Shard, src: Addr, dst: Addr)
    requires NonNegative(s)
    ensures MovesAll(s, s, [], src, dst)
  {
  }

  /** The loop's moves, with the totals they leave. */
  ghost predicate MovesWithin(s: Shard, r: Result<(Shard, VMOutput)>, items: seq<Item>, src: Addr, dst: Addr) {
    r.Ok? ==> MovesAll(s, r.value.0, items, src, dst) && forall key :: Total(r.value.0, key) == Total(s, key)
  }

  lemma OutputMoves(
    cfg: Config, s: Shard, moved: Shard, input: Input, dst: Addr, sent: seq<Sent>, gas: nat, items: seq<Item>)
    requires 3 * |sent| + 2 <= |input.args|
    requires MovesAll(s, moved, items, input.caller, dst) && forall key :: Total(moved, key) == Total(s, key)
    ensures MovesWithin(s, MultiOutput(cfg, moved, input, dst, sent, gas), items, input.caller, dst)
  {
    var r := MultiOutput(cfg, moved, input, dst, sent, gas);
    if r.Ok? {
      EncodeSameId(cfg, moved, sent, dst, gas, 0);
      MovesSameAccounts(s, moved, r.value.0, items, input.caller, dst);
      forall key
        ensures Total(r.value.0, key) == Total(moved, key)
      {
        TotalSameAccounts(moved, r.value.0, key);
      }
    }
  }

  lemma SendAllMoves(cfg: Config, s: Shard, input: Input, dst: Addr, n: nat, gas: nat)
    requires NonNegative(s) && cfg.shardOf(input.caller) == cfg.shardOf(dst) == s.id && input.caller != dst
    requires 3 * n + 2 <= |input.args|
    ensures MovesWithin(s, SendAll(cfg, s, input, dst, n, gas), ItemsFrom(input.args, n, 0), input.caller, dst)
  {
    var all := SendItems(cfg, s, input, dst, n, 0);
    SendAllShape(cfg, s, input, dst, n, gas);
    SendItemsMove(cfg, s, input, dst, n, 0);
    SendItemsShift(cfg, s, input, dst, n, 0);
    if all.Ok? && |all.value.1| == n {
      OutputMoves(cfg, s, all.value.0, input, dst, all.value.1, gas, ItemsFrom(input.args, n, 0));
    }
  }

  /** A successful multi transfer inside a shard, with repeated tokens or not: every record is what the
      single moves in order leave there, none is ever below zero, the total of every key is conserved,
      and every record of another account or key is untouched. */
  lemma MultiIsSingleMoves(cfg: Config, s: Shard, input: Input, n: uint64)
    requires NonNegative(s) && |input.args| >= 4 && n == U64(SetBytes(input.args[1]))
    requires cfg.shardOf(input.caller) == cfg.shardOf(input.args[0]) == s.id
    ensures var r, dst := SendMulti(cfg, s, input), input.args[0];
            r.Ok? ==> && 3 * n + 2 <= |input.args| && dst != input.caller
                      && MovesWithin(s, r, ItemsFrom(input.args, n, 0), input.caller, dst)
  {
    hide SendMulti, SendAll;
    SendMultiChecks(cfg, s, input);
    var r, dst, gas := SendMulti(cfg, s, input), input.args[0], input.gasProvided - U64(n * cfg.multiGas);
    if r.Ok? {
      SendAllMoves(cfg, s, input, dst, n, gas);
      SameWithin(s, r, SendAll(cfg, s, input, dst, n, gas), ItemsFrom(input.args, n, 0), input.caller, dst);
    }
  }

  lemma SameWithin(
    s: Shard, r: Result<(Shard, VMOutput)>, all: Result<(Shard, VMOutput)>, items: seq<Item>, src: Addr, dst: Addr)
    requires r == all && MovesWithin(s, all, items, src, dst)
    ensures MovesWithin(s, r, items, src, dst)
  {
  }

  lemma MovesSameAccounts(s: Shard, moved: Shard, s1: Shard, items: seq<Item>, src: Addr, dst: Addr)
    requires MovesAll(s, moved, items, src, dst) && s1.accounts == moved.accounts
    ensures MovesAll(s, s1, items, src, dst)
  {
    forall p
      ensures Holding(s1, p) == Holding(moved, p) && SameRecord(moved, s1, p)
    {
    }
  }
}
