// What one call changes of the records it is about: fungible balances, freezing, thawing and wiping.
module Balances {
  import opened Bytes
  import opened Wrappers
  import opened TokenId
  import opened Ledger
  import opened Transfers
  import opened Totals
  import opened Shapes
  import opened MultiMoves
  import opened Limits
  import opened Entries
  import opened Network

  /** Every record but the one at `slot` is the same, and so is the system account. */
  ghost predicate OnlyRecord(s: Shard, s1: Shard, slot: Slot) {
    && s1.id == s.id && s1.system == s.system
    && forall p :: p != slot ==> SameRecord(s, s1, p)
  }

  /** The record at `slot` is the former one with `value`; it is there unless nothing is worth keeping. */
  ghost predicate RecordKept(s: Shard, s1: Shard, slot: Slot, value: int, properties: bytes) {
    && Holding(s1, slot) == value
    && (slot in s1.accounts <==> value != 0 || exists i :: 0 <= i < |properties| && properties[i] != 0)
    && (slot in s1.accounts ==>
          s1.accounts[slot] == RecordAt(s, slot).(value := value, properties := properties))
  }

  // ----- mint and burn -----

  /** The fungible balance at `slot` changes by `delta` and nothing else does. */
  ghost predicate BalanceMoves(s: Shard, s1: Shard, slot: Slot, delta: int) {
    && RecordAt(s, slot).typ == Fungible && Holding(s, slot) + delta >= 0
    && RecordKept(s, s1, slot, Holding(s, slot) + delta, RecordAt(s, slot).properties)
    && OnlyRecord(s, s1, slot)
  }

  lemma AddToBalanceMoves(cfg: Config, s: Shard, input: Input, a: Addr, token: bytes, delta: int)
    requires AddToBalance(cfg, s, input, a, token, delta).Ok?
    ensures BalanceMoves(s, AddToBalance(cfg, s, input, a, token, delta).value, Slot(a, token), delta)
  {
  }

  /** A balance may change where its own record is fungible and covers the change, and neither the record is
      frozen nor the token paused, the system contract and returns after an error excepted. */
  ghost predicate MayMove(cfg: Config, s: Shard, input: Input, a: Addr, token: bytes, delta: int) {
    && RecordAt(s, Slot(a, token)).typ == Fungible && Holding(s, Slot(a, token)) + delta >= 0
    && (!input.returnAfterError && a != cfg.dcdtSC ==>
          !IsFrozen(RecordAt(s, Slot(a, token)).properties) && token !in input.paused)
  }

  /** A mint, exactly when it is permitted, raises the caller's balance of the token named first by the amount
      named second. */
  lemma MintsExactly(cfg: Config, s: Shard, input: Input)
    ensures ActOn(cfg, s, Minting(1), input).Ok? <==>
              && |input.args| >= 2 && input.caller == input.recipient && input.allowed
              && input.gasProvided >= cfg.mintGas
              && SetBytes(input.args[1]) > 0 && |input.args[1]| <= cfg.maxIssueLength
              && MayMove(cfg, s, input, input.caller, input.args[0], SetBytes(input.args[1]))
    ensures ActOn(cfg, s, Minting(1), input).Ok? ==>
              BalanceMoves(s, ActOn(cfg, s, Minting(1), input).value, Slot(input.caller, input.args[0]),
                           SetBytes(input.args[1]))
  {
    if |input.args| >= 2 && AddToBalance(cfg, s, input, input.caller, input.args[0], SetBytes(input.args[1])).Ok? {
      AddToBalanceMoves(cfg, s, input, input.caller, input.args[0], SetBytes(input.args[1]));
    }
    hide BalanceMoves;
  }

  /** A burn, exactly when it is permitted and covered, lowers it by that amount. */
  lemma BurnsExactly(cfg: Config, s: Shard, input: Input)
    ensures ActOn(cfg, s, Minting(-1), input).Ok? <==>
              && |input.args| >= 2 && input.caller == input.recipient && input.allowed
              && input.gasProvided >= cfg.localBurnGas
              && SetBytes(input.args[1]) > 0 && (cfg.consistentLengths ==> |input.args[1]| <= cfg.maxIssueLength)
              && MayMove(cfg, s, input, input.caller, input.args[0], -(SetBytes(input.args[1]) as int))
    ensures ActOn(cfg, s, Minting(-1), input).Ok? ==>
              BalanceMoves(s, ActOn(cfg, s, Minting(-1), input).value, Slot(input.caller, input.args[0]),
                           -(SetBytes(input.args[1]) as int))
  {
    if |input.args| >= 2
       && AddToBalance(cfg, s, input, input.caller, input.args[0], -(SetBytes(input.args[1]) as int)).Ok? {
      AddToBalanceMoves(cfg, s, input, input.caller, input.args[0], -(SetBytes(input.args[1]) as int));
    }
    hide BalanceMoves;
  }

  /** Burning what was minted leaves every balance as it was. */
  lemma BurnUndoesMint(cfg: Config, s: Shard, input: Input, p: Slot)
    requires ActOn(cfg, s, Minting(1), input).Ok?
    requires ActOn(cfg, ActOn(cfg, s, Minting(1), input).value, Minting(-1), input).Ok?
    ensures Holding(ActOn(cfg, ActOn(cfg, s, Minting(1), input).value, Minting(-1), input).value, p) == Holding(s, p)
  {
    MintsExactly(cfg, s, input);
    BurnsExactly(cfg, ActOn(cfg, s, Minting(1), input).value, input);
    hide ActOn, AddToBalance;
  }

  // ----- fungible transfer -----

  /** What a fungible transfer adds to the record at `p` of shard `id`. */
  function FungibleEffect(cfg: Config, id: nat, input: Input, token: bytes, value: int, p: Slot): int {
    (if p == Slot(input.caller, token) && cfg.shardOf(input.caller) == id then -value else 0)
    + (if p == Slot(input.recipient, token) && cfg.shardOf(input.recipient) == id then value else 0)
  }

  /** A fungible transfer takes the amount named second from the caller, where the caller lives, and gives it to
      the recipient, where the recipient lives. */
  lemma FungibleMovesExactly(cfg: Config, s: Shard, input: Input)
    requires FungibleTransfer(cfg, s, input).Ok?
    ensures |input.args| >= 2 && SetBytes(input.args[1]) > 0
    ensures var s1, token, value := FungibleTransfer(cfg, s, input).value, input.args[0], SetBytes(input.args[1]);
            && s1.id == s.id && s1.system == s.system
            && (forall p :: Holding(s1, p) == Holding(s, p) + FungibleEffect(cfg, s.id, input, token, value, p))
            && (forall p :: p != Slot(input.caller, token) && p != Slot(input.recipient, token) ==>
                  SameRecord(s, s1, p))
            && (cfg.shardOf(input.caller) == s.id ==> Holding(s, Slot(input.caller, token)) >= value)
  {
    hide AddToBalance, SameRecord;
    var token, value: int := input.args[0], SetBytes(input.args[1]);
    var s1, middle := FungibleTransfer(cfg, s, input).value, FungibleDebit(cfg, s, input, token, value).value;
    LegMoves(cfg, s, middle, input, input.caller, token, -value);
    LegMoves(cfg, middle, s1, input, input.recipient, token, value);
    forall p | p != Slot(input.caller, token) && p != Slot(input.recipient, token)
      ensures SameRecord(s, s1, p)
    {
      SameRecordTrans(s, middle, s1, p);
    }
  }

  lemma SameRecordTrans(s: Shard, s1: Shard, s2: Shard, p: Slot)
    requires SameRecord(s, s1, p) && SameRecord(s1, s2, p)
    ensures SameRecord(s, s2, p)
  {
  }

  /** One side of the transfer, in the shard where `a` lives or not. */
  lemma LegMoves(cfg: Config, s: Shard, s1: Shard, input: Input, a: Addr, token: bytes, delta: int)
    requires if cfg.shardOf(a) == s.id then AddToBalance(cfg, s, input, a, token, delta) == Ok(s1) else s1 == s
    ensures s1.id == s.id && s1.system == s.system
    ensures forall p ::
              Holding(s1, p) == Holding(s, p) + if p == Slot(a, token) && cfg.shardOf(a) == s.id then delta else 0
    ensures forall p :: p != Slot(a, token) ==> SameRecord(s, s1, p)
    ensures cfg.shardOf(a) == s.id ==> Holding(s, Slot(a, token)) + delta >= 0
  {
    if cfg.shardOf(a) == s.id {
      AddToBalanceMoves(cfg, s, input, a, token, delta);
    }
    hide AddToBalance;
    assert forall p :: SameRecord(s, s1, p) ==> Holding(s1, p) == Holding(s, p);
  }

  // ----- freezing, thawing and wiping -----

  /** Freezing and thawing by the system contract: the record named by the argument is frozen afterwards exactly
      if it was to be, and holds what it held; nothing else changes. */
  lemma FreezesExactly(cfg: Config, s: Shard, input: Input, frozen: bool)
    ensures SetFrozen(cfg, s, input, frozen).Ok? <==> |input.args| == 1 && input.caller == cfg.dcdtSC
    ensures SetFrozen(cfg, s, input, frozen).Ok? ==>
              var s1, slot := SetFrozen(cfg, s, input, frozen).value, Slot(input.recipient, input.args[0]);
              && (IsFrozen(RecordAt(s1, slot).properties) <==> frozen)
              && RecordKept(s, s1, slot, Holding(s, slot), if frozen then [1, 0] else [0, 0])
              && OnlyRecord(s, s1, slot)
  {
    assert FreezeBytes(frozen)[0] == (if frozen then 1 else 0) && FreezeBytes(frozen)[1] == 0;
  }

  /** Thawing what was frozen brings back every balance, and the record as it was but for its properties. */
  lemma ThawUndoesFreeze(cfg: Config, s: Shard, input: Input, p: Slot)
    requires |input.args| == 1 && input.caller == cfg.dcdtSC
    ensures ActOn(cfg, s, Freezing(true), input).Ok?
    ensures ActOn(cfg, ActOn(cfg, s, Freezing(true), input).value, Freezing(false), input).Ok?
    ensures var thawed := ActOn(cfg, ActOn(cfg, s, Freezing(true), input).value, Freezing(false), input).value;
            && Holding(thawed, p) == Holding(s, p)
            && (p != Slot(input.recipient, input.args[0]) ==> SameRecord(s, thawed, p))
            && (p == Slot(input.recipient, input.args[0]) && Holding(s, p) != 0 ==>
                  RecordAt(thawed, p) == RecordAt(s, p).(properties := [0, 0]))
  {
    FreezesExactly(cfg, s, input, true);
    FreezesExactly(cfg, SetFrozen(cfg, s, input, true).value, input, false);
    hide SetFrozen;
  }

  /** A wipe: only a frozen record is wiped, it is gone, no other record changes, and of the system account at
      most the entry of the extracted key. */
  lemma WipesExactly(cfg: Config, s: Shard, input: Input)
    requires Wipe(cfg, s, input).Ok?
    ensures |input.args| == 1 && input.caller == cfg.dcdtSC
    ensures var s1, slot := Wipe(cfg, s, input).value, Slot(input.recipient, input.args[0]);
            var key := WipedKey(input.args[0]);
            && IsFrozen(RecordAt(s, slot).properties)
            && slot !in s1.accounts && (forall p :: p != slot ==> SameRecord(s, s1, p))
            && s1.system - {key} == s.system - {key}
            && (!cfg.wipeDecreasesLiquidity ==> s1.system == s.system)
            && (cfg.wipeDecreasesLiquidity && cfg.saveToSystem && cfg.sendAlways && ExtractWipe(input.args[0]).1 > 0 ==>
                  key in s.system && CountsAs(s1, key, Counts(s, key), s.system[key].value - Holding(s, slot)))
  {
    hide ExtractWipe, AddLiquidity, CountsAs;
    var slot := Slot(input.recipient, input.args[0]);
    var (token, nonce) := ExtractWipe(input.args[0]);
    if cfg.wipeDecreasesLiquidity {
      AddLiquidityWrites(cfg, Drop(s, slot), token, nonce, -Holding(s, slot));
      assert SameExcept(Drop(s, slot), Wipe(cfg, s, input).value, Slot([], KeyOf(token, nonce)));
      if cfg.saveToSystem && cfg.sendAlways && nonce > 0 {
        AdjustCounts(cfg, Drop(s, slot), token, nonce, -Holding(s, slot));
      }
    }
  }
}
