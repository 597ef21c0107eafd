// Global supply: what all accounts hold in all shards plus what all messages carry, under every
// combination of flags. Only creation, added quantity, burning and wiping change it.
module Supply {
  import opened Bytes
  import opened Wrappers
  import opened TokenId
  import opened Ledger
  import opened Transfers
  import opened Totals
  import opened Shapes
  import opened Wire
  import opened Emission

  // ----- one shard -----

  /** `r` moves the total under `key` by `delta` and no other total, and leaves no negative record. */
  ghost predicate Shifts(s: Shard, r: Result<Shard>, key: bytes, delta: int) {
    r.Ok? ==>
      && NonNegative(r.value)
      && r.value.id == s.id
      && forall k :: Total(r.value, k) == Total(s, k) + if k == key then delta else 0
  }

  lemma WriteShifts(s: Shard, s1: Shard, slot: Slot, delta: int)
    requires NonNegative(s) && SameExcept(s, s1, slot)
    requires Holding(s1, slot) == Holding(s, slot) + delta >= 0
    ensures Shifts(s, Ok(s1), slot.key, delta)
  {
    forall k
      ensures Total(s1, k) == Total(s, k) + if k == slot.key then delta else 0
    {
      TotalAfterWrite(s, s1, slot, k);
    }
  }

  lemma AddLiquidityShifts(cfg: Config, s: Shard, token: bytes, nonce: nat, delta: int)
    requires NonNegative(s)
    ensures Shifts(s, AddLiquidity(cfg, s, token, nonce, delta), KeyOf(token, nonce), 0)
  {
    var r := AddLiquidity(cfg, s, token, nonce, delta);
    if r.Ok? {
      AddLiquidityWrites(cfg, s, token, nonce, delta);
      forall k
        ensures Total(r.value, k) == Total(s, k)
      {
        TotalSameAccounts(s, r.value, k);
      }
    }
  }

  lemma SaveTokenShifts(
    cfg: Config, s: Shard, input: Input, sender: Addr, a: Addr, token: bytes, nonce: nat, t: Token, mustUpdate: bool)
    requires NonNegative(s) && t.value >= 0
    ensures var slot := Slot(a, KeyOf(token, nonce));
            Shifts(s, SaveToken(cfg, s, input, sender, a, token, nonce, t, mustUpdate), slot.key,
                   t.value - Holding(s, slot))
  {
    var r := SaveToken(cfg, s, input, sender, a, token, nonce, t, mustUpdate);
    var slot := Slot(a, KeyOf(token, nonce));
    if r.Ok? {
      SaveTokenWrites(cfg, s, input, sender, a, token, nonce, t, mustUpdate);
      WriteShifts(s, r.value, slot, t.value - Holding(s, slot));
    }
  }

  lemma SaveWithLiquidityShifts(
    cfg: Config, s: Shard, input: Input, sender: Addr, a: Addr, token: bytes, nonce: nat, t: Token, mustUpdate: bool,
    delta: int)
    requires NonNegative(s) && t.value >= 0
    ensures var slot := Slot(a, KeyOf(token, nonce));
            Shifts(s, SaveWithLiquidity(cfg, s, input, sender, a, token, nonce, t, mustUpdate, delta), slot.key,
                   t.value - Holding(s, slot))
  {
    var saved := SaveToken(cfg, s, input, sender, a, token, nonce, t, mustUpdate);
    if saved.Ok? {
      SaveTokenShifts(cfg, s, input, sender, a, token, nonce, t, mustUpdate);
      AddLiquidityShifts(cfg, saved.value, token, nonce, delta);
    }
  }

  lemma TokenAtValue(cfg: Config, s: Shard, a: Addr, token: bytes, nonce: nat)
    requires NonNegative(s)
    ensures TokenAt(cfg, s, a, token, nonce).value == Holding(s, Slot(a, KeyOf(token, nonce))) >= 0
  {
  }

  lemma RefusedOrShifts(s: Shard, r: Result<Shard>, last: Result<Shard>, key: bytes, delta: int)
    requires RefusedOr(r, last) && Shifts(s, last, key, delta)
    ensures Shifts(s, r, key, delta)
  {
  }

  /** Saving `t1` and changing the liquidity, as the outcome `r` of a function that does just that. */
  lemma SavedShifts(
    cfg: Config, s: Shard, r: Result<Shard>, input: Input, a: Addr, token: bytes, nonce: nat, t1: Token, delta: int)
    requires NonNegative(s) && t1.value >= 0 && t1.value == Holding(s, Slot(a, KeyOf(token, nonce))) + delta
    requires r == SaveWithLiquidity(cfg, s, input, a, a, token, nonce, t1, false, delta)
    ensures Shifts(s, r, KeyOf(token, nonce), delta)
  {
    SaveWithLiquidityShifts(cfg, s, input, a, a, token, nonce, t1, false, delta);
  }

  lemma DepositShifts(cfg: Config, s: Shard, input: Input, token: bytes, nonce: uint64, value: nat)
    requires NonNegative(s)
    ensures Shifts(s, Deposit(cfg, s, input, token, nonce, TokenAt(cfg, s, input.caller, token, nonce), value),
                   KeyOf(token, nonce), value)
  {
    var t := TokenAt(cfg, s, input.caller, token, nonce);
    var r := Deposit(cfg, s, input, token, nonce, t, value);
    TokenAtValue(cfg, s, input.caller, token, nonce);
    SavedShifts(cfg, s, r, input, input.caller, token, nonce, t.(value := t.value + value), value);
  }

  lemma AddQuantityShifts(cfg: Config, s: Shard, input: Input)
    requires NonNegative(s) && |input.args| >= 3
    ensures Shifts(s, AddQuantity(cfg, s, input), KeyOf(input.args[0], U64(SetBytes(input.args[1]))),
                   SetBytes(input.args[2]))
  {
    var token, nonce, value := input.args[0], U64(SetBytes(input.args[1])), SetBytes(input.args[2]);
    AddQuantityShape(cfg, s, input, token, nonce, value);
    DepositShifts(cfg, s, input, token, nonce, value);
    RefusedOrShifts(s, AddQuantity(cfg, s, input),
                    Deposit(cfg, s, input, token, nonce, TokenAt(cfg, s, input.caller, token, nonce), value),
                    KeyOf(token, nonce), value);
  }

  lemma WithdrawShifts(cfg: Config, s: Shard, input: Input, token: bytes, nonce: uint64, value: int)
    requires NonNegative(s)
    ensures Shifts(s, Withdraw(cfg, s, input, token, nonce, TokenAt(cfg, s, input.caller, token, nonce), value),
                   KeyOf(token, nonce), -value)
  {
    var t := TokenAt(cfg, s, input.caller, token, nonce);
    var r := Withdraw(cfg, s, input, token, nonce, t, value);
    if t.value >= value {
      TokenAtValue(cfg, s, input.caller, token, nonce);
      SavedShifts(cfg, s, r, input, input.caller, token, nonce, t.(value := t.value - value), -value);
    }
  }

  lemma BurnShifts(cfg: Config, s: Shard, input: Input)
    requires NonNegative(s) && |input.args| >= 3
    ensures Shifts(s, Burn(cfg, s, input), KeyOf(input.args[0], U64(SetBytes(input.args[1]))),
                   -(SetBytes(input.args[2]) as int))
  {
    var token, nonce, value := input.args[0], U64(SetBytes(input.args[1])), SetBytes(input.args[2]) as int;
    BurnShape(cfg, s, input, token, nonce, value);
    WithdrawShifts(cfg, s, input, token, nonce, value);
    RefusedOrShifts(s, Burn(cfg, s, input),
                    Withdraw(cfg, s, input, token, nonce, TokenAt(cfg, s, input.caller, token, nonce), value),
                    KeyOf(token, nonce), -value);
  }

  /** A creation overwrites the record at its nonce: the supply grows by the quantity exactly when
      nothing was held there. */
  lemma CreateShifts(cfg: Config, s: Shard, input: Input, latest: uint64)
    requires NonNegative(s) && |input.args| >= 7 && RoleHolder(input).Ok?
    ensures var key := KeyOf(input.args[0], U64(latest + 1));
            Shifts(s, Create(cfg, s, input, latest), key,
                   SetBytes(input.args[1]) - Holding(s, Slot(RoleHolder(input).value, key)))
  {
    var nonce, owner := U64(latest + 1), RoleHolder(input).value;
    var t := CreatedToken(input, nonce);
    SaveWithLiquidityShifts(cfg, s, input, owner, owner, input.args[0], nonce, t, true, t.value);
  }

  lemma UpdateShifts(cfg: Config, s: Shard, input: Input)
    requires NonNegative(s) && |input.args| >= 2
    ensures Shifts(s, UpdateAttributes(cfg, s, input), KeyOf(input.args[0], U64(SetBytes(input.args[1]))), 0)
  {
    if UpdateAttributes(cfg, s, input).Ok? {
      var a, token, nonce := input.caller, input.args[0], U64(SetBytes(input.args[1]));
      var t := TokenAt(cfg, s, a, token, nonce);
      TokenAtValue(cfg, s, a, token, nonce);
      SaveTokenShifts(cfg, s, input, a, a, token, nonce,
                      t.(meta := Some(t.meta.value.(attributes := input.args[2]))), true);
    }
  }

  lemma SetFrozenShifts(cfg: Config, s: Shard, input: Input, frozen: bool)
    requires NonNegative(s) && |input.args| >= 1
    ensures Shifts(s, SetFrozen(cfg, s, input, frozen), input.args[0], 0)
  {
    var r := SetFrozen(cfg, s, input, frozen);
    if r.Ok? {
      WriteShifts(s, r.value, Slot(input.recipient, input.args[0]), 0);
    }
  }

  lemma WipeShifts(cfg: Config, s: Shard, input: Input)
    requires NonNegative(s) && |input.args| >= 1
    ensures Shifts(s, Wipe(cfg, s, input), input.args[0], -Holding(s, Slot(input.recipient, input.args[0])))
  {
    hide AddLiquidity, ExtractWipe;
    var slot := Slot(input.recipient, input.args[0]);
    var (token, nonce) := ExtractWipe(input.args[0]);
    WriteShifts(s, Drop(s, slot), slot, -Holding(s, slot));
    AddLiquidityShifts(cfg, Drop(s, slot), token, nonce, -Holding(s, slot));
  }

  lemma AddToBalanceShifts(cfg: Config, s: Shard, input: Input, a: Addr, token: bytes, delta: int)
    requires NonNegative(s)
    ensures Shifts(s, AddToBalance(cfg, s, input, a, token, delta), token, delta)
  {
    var r := AddToBalance(cfg, s, input, a, token, delta);
    if r.Ok? {
      AddToBalanceWrites(cfg, s, input, a, token, delta);
      WriteShifts(s, r.value, Slot(a, token), delta);
    }
  }

  // ----- transfers -----

  ghost predicate ShiftsPair<T>(s: Shard, r: Result<(Shard, T)>, key: bytes, delta: int) {
    r.Ok? ==> Shifts(s, Ok(r.value.0), key, delta)
  }

  lemma CreditShifts(cfg: Config, s: Shard, input: Input, snd: Addr, dst: Addr, t: Token, token: bytes, nonce: nat)
    requires NonNegative(s) && t.value >= 0
    ensures ShiftsPair(s, Credit(cfg, s, input, snd, dst, t, token, nonce), KeyOf(token, nonce), t.value)
  {
    var sum := t.(value := t.value + TokenAt(cfg, s, dst, token, nonce).value);
    TokenAtValue(cfg, s, dst, token, nonce);
    if cfg.shardOf(snd) == cfg.shardOf(dst) {
      CreditHereShape(cfg, s, input, snd, dst, t, token, nonce);
      SaveTokenShifts(cfg, s, input, snd, dst, token, nonce, sum, false);
    } else {
      CreditFarShape(cfg, s, input, snd, dst, t, token, nonce);
      SaveWithLiquidityShifts(cfg, s, input, snd, dst, token, nonce, sum, false, t.value);
    }
  }

  lemma DebitSavedShifts(cfg: Config, s: Shard, s1: Shard, input: Input, item: Item, before: Token)
    requires NonNegative(s) && before == TokenAt(cfg, s, input.caller, item.token, item.nonce)
    requires before.value >= item.value
    requires Ok(s1) == SaveToken(cfg, s, input, input.caller, input.caller, item.token, item.nonce,
                                 before.(value := before.value - item.value), false)
    ensures Shifts(s, Ok(s1), KeyOf(item.token, item.nonce), -(item.value as int))
  {
    TokenAtValue(cfg, s, input.caller, item.token, item.nonce);
    SaveTokenShifts(cfg, s, input, input.caller, input.caller, item.token, item.nonce,
                    before.(value := before.value - item.value), false);
  }

  lemma DebitShifts(cfg: Config, s: Shard, input: Input, item: Item)
    requires NonNegative(s)
    ensures ShiftsPair(s, Debit(cfg, s, input, item), KeyOf(item.token, item.nonce), -(item.value as int))
    ensures Debit(cfg, s, input, item).Ok? ==> Debit(cfg, s, input, item).value.1.value == item.value
  {
    DebitShape(cfg, s, input, item);
    var r := Debit(cfg, s, input, item);
    if r.Ok? {
      DebitSavedShifts(cfg, s, r.value.0, input, item, TokenAt(cfg, s, input.caller, item.token, item.nonce));
    }
  }

  /** What leaves the shard with an item. */
  function Leaving(cfg: Config, id: nat, dst: Addr, value: int): int {
    if cfg.shardOf(dst) == id then 0 else value
  }

  lemma SettleShifts(cfg: Config, s: Shard, input: Input, dst: Addr, item: Item, t: Token)
    requires NonNegative(s) && t.value == item.value
    ensures ShiftsPair(s, Settle(cfg, s, input, dst, item, t), KeyOf(item.token, item.nonce),
                       item.value - Leaving(cfg, s.id, dst, item.value))
  {
    if cfg.shardOf(dst) == s.id {
      CreditShifts(cfg, s, input, input.caller, dst, t, item.token, item.nonce);
    } else {
      SettleFarShape(cfg, s, input, dst, item, t);
      AddLiquidityShifts(cfg, s, item.token, item.nonce, -(item.value as int));
    }
  }

  lemma ShiftsChain(s: Shard, s1: Shard, r: Result<Shard>, key: bytes, d1: int, d2: int)
    requires Shifts(s, Ok(s1), key, d1) && Shifts(s1, r, key, d2)
    ensures Shifts(s, r, key, d1 + d2)
  {
  }

  /** Debit and settlement of one item. */
  lemma MoveShifts(cfg: Config, s: Shard, input: Input, dst: Addr, item: Item)
    requires NonNegative(s)
    ensures var debited := Debit(cfg, s, input, item);
            debited.Ok? ==>
              ShiftsPair(s, Settle(cfg, debited.value.0, input, dst, item, debited.value.1),
                         KeyOf(item.token, item.nonce), -Leaving(cfg, s.id, dst, item.value))
  {
    var debited := Debit(cfg, s, input, item);
    var key := KeyOf(item.token, item.nonce);
    DebitShifts(cfg, s, input, item);
    if debited.Ok? {
      SettleShifts(cfg, debited.value.0, input, dst, item, debited.value.1);
      var settled := Settle(cfg, debited.value.0, input, dst, item, debited.value.1);
      if settled.Ok? {
        ShiftsChain(s, debited.value.0, Ok(settled.value.0), key, -(item.value as int),
                    item.value - Leaving(cfg, s.id, dst, item.value));
      }
    }
  }

  lemma SendOneShifts(cfg: Config, s: Shard, input: Input, dst: Addr, item: Item)
    requires NonNegative(s)
    ensures ShiftsPair(s, SendOne(cfg, s, input, dst, item), KeyOf(item.token, item.nonce),
                       -Leaving(cfg, s.id, dst, item.value))
  {
    SendOneShape(cfg, s, input, dst, item);
    MoveShifts(cfg, s, input, dst, item);
  }

  function AmountAt(m: Move, key: bytes): int {
    if KeyOf(m.token, m.nonce) == key then m.value else 0
  }

  /** What the moves from `i` on carry of `key`. */
  function Carried(moves: seq<Move>, i: nat, key: bytes): int
    decreases |moves| - i
  {
    if i >= |moves| then 0 else AmountAt(moves[i], key) + Carried(moves, i + 1, key)
  }

  lemma {:induction false} SendItemsShift(cfg: Config, s: Shard, input: Input, dst: Addr, n: nat, i: nat)
    requires NonNegative(s) && i <= n && 3 * n + 2 <= |input.args|
    ensures var r := SendItems(cfg, s, input, dst, n, i);
            r.Ok? ==>
              && NonNegative(r.value.0) && r.value.0.id == s.id
              && forall k :: Total(r.value.0, k)
                          == Total(s, k) - Leaving(cfg, s.id, dst, Carried(RequestedMoves(input.args, n), i, k))
    decreases n - i
  {
    hide SendOne;
    if i < n && SendItems(cfg, s, input, dst, n, i).Ok? {
      var item := ItemAt(input.args, 2, i);
      SendItemsStep(cfg, s, input, dst, n, i);
      SendOneShifts(cfg, s, input, dst, item);
      var s1 := SendOne(cfg, s, input, dst, item).value.0;
      SendItemsShift(cfg, s1, input, dst, n, i + 1);
      assert RequestedMoves(input.args, n)[i] == MoveOfItem(item);
    }
  }

  lemma ReceiveOneShifts(cfg: Config, s: Shard, input: Input, x: Sent)
    requires NonNegative(s) && x.tok.value >= 0
    ensures Shifts(s, ReceiveOne(cfg, s, input, x), KeyOf(x.item.token, x.item.nonce), x.tok.value)
  {
    if x.item.nonce > 0 {
      CreditShifts(cfg, s, input, input.caller, input.recipient, x.tok, x.item.token, x.item.nonce);
    } else {
      AddToBalanceShifts(cfg, s, input, input.recipient, x.item.token, x.tok.value);
    }
  }

  lemma {:induction false} ReceiveItemsShift(cfg: Config, s: Shard, input: Input, moves: seq<Move>, n: nat, i: nat)
    requires NonNegative(s) && i <= n == |moves| && 3 * n + 1 <= |input.args|
    requires forall j :: 0 <= j < n ==>
               DecodeItem(cfg, input.args, j).Ok? && moves[j] == MoveOf(DecodeItem(cfg, input.args, j).value)
    requires forall j :: 0 <= j < n ==> moves[j].value >= 0
    ensures var r := ReceiveItems(cfg, s, input, n, i);
            r.Ok? ==>
              && NonNegative(r.value) && r.value.id == s.id
              && forall k :: Total(r.value, k) == Total(s, k) + Carried(moves, i, k)
    decreases n - i
  {
    hide ReceiveOne;
    if i < n && ReceiveItems(cfg, s, input, n, i).Ok? {
      var x := DecodeItem(cfg, input.args, i).value;
      assert moves[i] == MoveOf(x);
      ReceiveOneShifts(cfg, s, input, x);
      ReceiveItemsShift(cfg, ReceiveOne(cfg, s, input, x).value, input, moves, n, i + 1);
    }
  }
}
