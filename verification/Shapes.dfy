// What each built-in function comes down to once its checks have passed. These lemmas let the
// proofs about runs speak of saves and credits instead of unfolding whole functions.
module Shapes {
  import opened Bytes
  import opened Wrappers
  import opened Ledger
  import opened Transfers

  /** `r` is an early refusal or the outcome `last`. */
  ghost predicate RefusedOr(r: Result<Shard>, last: Result<Shard>) {
    (r.Err? && r.error != InvalidLiquidity) || r == last
  }

  lemma AddQuantityShape(cfg: Config, s: Shard, input: Input, token: bytes, nonce: uint64, value: int)
    requires |input.args| >= 3
    requires token == input.args[0] && nonce == U64(SetBytes(input.args[1])) && value == SetBytes(input.args[2])
    ensures RefusedOr(AddQuantity(cfg, s, input),
                      Deposit(cfg, s, input, token, nonce, TokenAt(cfg, s, input.caller, token, nonce), value))
  {
  }

  lemma BurnShape(cfg: Config, s: Shard, input: Input, token: bytes, nonce: uint64, value: int)
    requires |input.args| >= 3
    requires token == input.args[0] && nonce == U64(SetBytes(input.args[1])) && value == SetBytes(input.args[2])
    ensures RefusedOr(Burn(cfg, s, input),
                      Withdraw(cfg, s, input, token, nonce, TokenAt(cfg, s, input.caller, token, nonce), value))
  {
  }

  /** The debit where the sender lives. */
  function FungibleDebit(cfg: Config, s: Shard, input: Input, token: bytes, value: int): Result<Shard> {
    if cfg.shardOf(input.caller) == s.id then AddToBalance(cfg, s, input, input.caller, token, -value) else Ok(s)
  }

  function FungibleCredit(cfg: Config, debited: Result<Shard>, input: Input, token: bytes, value: int): Result<Shard> {
    var s1 :- debited;
    AddToBalance(cfg, s1, input, input.recipient, token, value)
  }

  lemma FungibleTransferShape(cfg: Config, s: Shard, input: Input, value: int)
    requires |input.args| >= 2 && value == SetBytes(input.args[1])
    ensures var debited := FungibleDebit(cfg, s, input, input.args[0], value);
            || RefusedOr(FungibleTransfer(cfg, s, input), debited)
            || FungibleTransfer(cfg, s, input) == FungibleCredit(cfg, debited, input, input.args[0], value)
  {
  }

  /** A debit is one save of what is left. */
  lemma DebitShape(cfg: Config, s: Shard, input: Input, item: Item)
    ensures var before := TokenAt(cfg, s, input.caller, item.token, item.nonce);
            var r := Debit(cfg, s, input, item);
            if r.Err? then
              r.error != InvalidLiquidity
            else
              && before.value >= item.value
              && r.value.1 == before.(value := item.value)
              && r.value.0.id == s.id
              && Ok(r.value.0) == SaveToken(cfg, s, input, input.caller, input.caller, item.token, item.nonce,
                                            before.(value := before.value - item.value), false)
  {
  }

  /** A credit from the same shard is one save of the sum. */
  lemma CreditHereShape(cfg: Config, s: Shard, input: Input, snd: Addr, dst: Addr, t: Token, token: bytes, nonce: nat)
    requires cfg.shardOf(snd) == cfg.shardOf(dst)
    ensures var sum := t.(value := t.value + TokenAt(cfg, s, dst, token, nonce).value);
            var r := Credit(cfg, s, input, snd, dst, t, token, nonce);
            if r.Err? then
              r.error != InvalidLiquidity
            else
              r.value.1 == sum && Ok(r.value.0) == SaveToken(cfg, s, input, snd, dst, token, nonce, sum, false)
  {
  }

  /** A credit from another shard also raises the liquidity. */
  lemma CreditFarShape(cfg: Config, s: Shard, input: Input, snd: Addr, dst: Addr, t: Token, token: bytes, nonce: nat)
    requires cfg.shardOf(snd) != cfg.shardOf(dst)
    ensures var sum := t.(value := t.value + TokenAt(cfg, s, dst, token, nonce).value);
            var last := SaveWithLiquidity(cfg, s, input, snd, dst, token, nonce, sum, false, t.value);
            var r := Credit(cfg, s, input, snd, dst, t, token, nonce);
            (r.Err? && r.error != InvalidLiquidity) || SameOutcome(r, last)
  {
    hide SaveWithLiquidity;
  }


  /** Settling in another shard is the drop in liquidity. */
  lemma SettleFarShape(cfg: Config, s: Shard, input: Input, dst: Addr, item: Item, t: Token)
    requires cfg.shardOf(dst) != s.id
    ensures var r := Settle(cfg, s, input, dst, item, t);
            && SameOutcome(r, AddLiquidity(cfg, s, item.token, item.nonce, -(item.value as int)))
            && (r.Ok? ==> r.value.1 == t)
  {
  }

  ghost predicate SameOutcome(r: Result<(Shard, Token)>, last: Result<Shard>) {
    match r
    case Ok(p) => last == Ok(p.0)
    case Err(e) => last == Err(e)
  }

  /** Sending one item is a debit and its settlement. */
  lemma SendOneShape(cfg: Config, s: Shard, input: Input, dst: Addr, item: Item)
    ensures var r := SendOne(cfg, s, input, dst, item);
            var debited := Debit(cfg, s, input, item);
            || (r.Err? && r.error != InvalidLiquidity)
            || (item.value > 0 && debited.Ok? && r == Settle(cfg, debited.value.0, input, dst, item, debited.value.1))
  {
  }

  lemma SettleSameShard(cfg: Config, s: Shard, input: Input, dst: Addr, item: Item, t: Token)
    requires Settle(cfg, s, input, dst, item, t).Ok?
    ensures Settle(cfg, s, input, dst, item, t).value.0.id == s.id
  {
    if cfg.shardOf(dst) == s.id {
      CreditSameShard(cfg, s, input, input.caller, dst, t, item.token, item.nonce);
    } else {
      SettleFarShape(cfg, s, input, dst, item, t);
    }
  }

  lemma CreditSameShard(cfg: Config, s: Shard, input: Input, snd: Addr, dst: Addr, t: Token, token: bytes, nonce: nat)
    requires Credit(cfg, s, input, snd, dst, t, token, nonce).Ok?
    ensures Credit(cfg, s, input, snd, dst, t, token, nonce).value.0.id == s.id
  {
    if cfg.shardOf(snd) == cfg.shardOf(dst) {
      CreditHereShape(cfg, s, input, snd, dst, t, token, nonce);
    } else {
      CreditFarShape(cfg, s, input, snd, dst, t, token, nonce);
    }
  }

  /** A single transfer is a debit, its settlement and the output. */
  lemma SendNftShape(cfg: Config, s: Shard, input: Input)
    requires |input.args| >= NFT_MIN_ARGS
    ensures var r := SendNft(cfg, s, input);
            var item, dst := NftItem(input.args), input.args[3];
            var debited := Debit(cfg, s, input, item);
            || (r.Err? && r.error != InvalidLiquidity)
            || (debited.Ok? &&
                var settled := Settle(cfg, debited.value.0, input, dst, item, debited.value.1);
                || (r.Err? && settled == Err(r.error))
                || (settled.Ok? && input.gasProvided >= cfg.nftGas && dst != input.caller && item.nonce != 0 &&
                    r == NftOutput(cfg, settled.value.0, input, settled.value.1, input.gasProvided - cfg.nftGas)))
  {
    DebitShape(cfg, s, input, NftItem(input.args));
  }

  /** `r` is the refusal of a turn, or what the rest of the loop makes of it. */
  ghost predicate Turn(
    r: Result<(Shard, seq<Sent>)>, item: Item, one: Result<(Shard, Token)>, rest: Result<(Shard, seq<Sent>)>)
  {
    if r.Err? then
      r.error != InvalidLiquidity || one == Err(r.error) || (one.Ok? && rest == Err(r.error))
    else
      one.Ok? && rest.Ok? && r.value == (rest.value.0, [Sent(item, one.value.1)] + rest.value.1)
  }

  /** The sender-shard loop from the state one turn left. */
  function RestOf(cfg: Config, one: Result<(Shard, Token)>, input: Input, dst: Addr, n: nat, i: nat)
    : Result<(Shard, seq<Sent>)>
    requires i <= n && 3 * n + 2 <= |input.args|
  {
    var (s1, _) :- one;
    SendItems(cfg, s1, input, dst, n, i)
  }

  lemma SendItemsStep(cfg: Config, s: Shard, input: Input, dst: Addr, n: nat, i: nat)
    requires i < n && 3 * n + 2 <= |input.args|
    ensures var item := ItemAt(input.args, 2, i);
            var one := SendOne(cfg, s, input, dst, item);
            Turn(SendItems(cfg, s, input, dst, n, i), item, one, RestOf(cfg, one, input, dst, n, i + 1))
  {
  }

  /** A multi transfer on the sender's shard is refused by a check or is its loop and output. */
  lemma SendMultiChecks(cfg: Config, s: Shard, input: Input)
    requires |input.args| >= 4
    ensures var r, dst, n := SendMulti(cfg, s, input), input.args[0], U64(SetBytes(input.args[1]));
            var gas := input.gasProvided - U64(n * cfg.multiGas);
            || (r.Err? && r.error != InvalidLiquidity)
            || (&& 0 < n && 3 * n + 2 <= |input.args| && gas >= 0 && CheckDestination(cfg, input, dst).Ok?
                && r == SendAll(cfg, s, input, dst, n, gas))
  {
  }

  /** The loop and the output one after the other. */
  lemma SendAllShape(cfg: Config, s: Shard, input: Input, dst: Addr, n: nat, gas: nat)
    requires 3 * n + 2 <= |input.args|
    ensures var r, all := SendAll(cfg, s, input, dst, n, gas), SendItems(cfg, s, input, dst, n, 0);
            || (r.Err? && all == Err(r.error))
            || (all.Ok? && |all.value.1| == n && r == MultiOutput(cfg, all.value.0, input, dst, all.value.1, gas))
  {
    SentLength(cfg, s, input, dst, n, 0);
  }

  /** The outcome satisfies `P` and, when `strict`, is not the refusal for too little liquidity. */
  ghost predicate Satisfies<T>(P: Shard -> bool, strict: bool, r: Result<(Shard, T)>) {
    (strict ==> r != Err(InvalidLiquidity)) && (r.Ok? ==> P(r.value.0))
  }

  lemma TurnSatisfies(
    P: Shard -> bool, strict: bool, r: Result<(Shard, seq<Sent>)>, item: Item, one: Result<(Shard, Token)>,
    rest: Result<(Shard, seq<Sent>)>)
    requires Turn(r, item, one, rest)
    requires Satisfies(P, strict, one) && (one.Ok? ==> Satisfies(P, strict, rest))
    ensures Satisfies(P, strict, r)
  {
  }

  ghost predicate SendsSatisfy(P: Shard -> bool, strict: bool, cfg: Config, input: Input, dst: Addr, item: Item) {
    forall s {:trigger SendOne(cfg, s, input, dst, item)} ::
      P(s) ==> Satisfies(P, strict, SendOne(cfg, s, input, dst, item))
  }

  lemma OneSatisfies(P: Shard -> bool, strict: bool, cfg: Config, s: Shard, input: Input, dst: Addr, item: Item)
    requires P(s) && SendsSatisfy(P, strict, cfg, input, dst, item)
    ensures Satisfies(P, strict, SendOne(cfg, s, input, dst, item))
  {
  }

  lemma NothingToSend(P: Shard -> bool, strict: bool, cfg: Config, s: Shard, input: Input, dst: Addr, n: nat)
    requires P(s) && 3 * n + 2 <= |input.args|
    ensures Satisfies(P, strict, SendItems(cfg, s, input, dst, n, n))
  {
  }

  /** What every turn of the sender's loop keeps, the loop keeps. */
  lemma {:induction false} SendItemsPreserve(
    P: Shard -> bool, strict: bool, cfg: Config, s: Shard, input: Input, dst: Addr, n: nat, i: nat)
    requires P(s) && i <= n && 3 * n + 2 <= |input.args|
    requires forall j :: i <= j < n ==> SendsSatisfy(P, strict, cfg, input, dst, ItemAt(input.args, 2, j))
    ensures Satisfies(P, strict, SendItems(cfg, s, input, dst, n, i))
    decreases n - i, 0
  {
    hide SendOne, SendItems, Satisfies, Turn, RestOf, SendsSatisfy;
    if i < n {
      var item := ItemAt(input.args, 2, i);
      OneSatisfies(P, strict, cfg, s, input, dst, item);
      var one := SendOne(cfg, s, input, dst, item);
      SendItemsStep(cfg, s, input, dst, n, i);
      RestPreserve(P, strict, cfg, one, input, dst, n, i + 1);
      TurnSatisfies(P, strict, SendItems(cfg, s, input, dst, n, i), item, one, RestOf(cfg, one, input, dst, n, i + 1));
    } else {
      NothingToSend(P, strict, cfg, s, input, dst, n);
    }
  }

  lemma {:induction false} RestPreserve(
    P: Shard -> bool, strict: bool, cfg: Config, one: Result<(Shard, Token)>, input: Input, dst: Addr, n: nat, i: nat)
    requires Satisfies(P, strict, one) && i <= n && 3 * n + 2 <= |input.args|
    requires forall j :: i <= j < n ==> SendsSatisfy(P, strict, cfg, input, dst, ItemAt(input.args, 2, j))
    ensures one.Ok? ==> Satisfies(P, strict, RestOf(cfg, one, input, dst, n, i))
    decreases n - i, 1
  {
    if one.Ok? {
      SendItemsPreserve(P, strict, cfg, one.value.0, input, dst, n, i);
    }
  }

  ghost predicate ReceivesSatisfy(P: Shard -> bool, strict: bool, cfg: Config, input: Input, x: Sent) {
    forall s {:trigger ReceiveOne(cfg, s, input, x)} :: P(s) ==>
      var r := ReceiveOne(cfg, s, input, x);
      (strict ==> r != Err(InvalidLiquidity)) && (r.Ok? ==> P(r.value))
  }

  /** What every turn of the receiver's loop keeps, the loop keeps. */
  lemma {:induction false} ReceiveItemsPreserve(
    P: Shard -> bool, strict: bool, cfg: Config, s: Shard, input: Input, n: nat, i: nat)
    requires P(s) && i <= n && 3 * n + 1 <= |input.args|
    requires forall j :: i <= j < n && DecodeItem(cfg, input.args, j).Ok? ==>
               ReceivesSatisfy(P, strict, cfg, input, DecodeItem(cfg, input.args, j).value)
    ensures var r := ReceiveItems(cfg, s, input, n, i);
            (strict ==> r != Err(InvalidLiquidity)) && (r.Ok? ==> P(r.value))
    decreases n - i
  {
    hide ReceiveOne;
    if i < n {
      var x := DecodeItem(cfg, input.args, i);
      if x.Ok? {
        assert ReceivesSatisfy(P, strict, cfg, input, x.value);
        var one := ReceiveOne(cfg, s, input, x.value);
        if one.Ok? {
          ReceiveItemsPreserve(P, strict, cfg, one.value, input, n, i + 1);
        }
      }
    }
  }
}
