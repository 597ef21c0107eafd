// Frozen records over every run: no operation that respects freezing changes what a frozen record
// holds, and a frozen collection record protects every record of the collection on its account.
module Frozen {
  import opened Bytes
  import opened Wrappers
  import opened TokenId
  import opened Ledger
  import opened Transfers
  import opened Totals
  import opened Liquidity
  import opened Shapes
  import opened Wire
  import opened Network

  /** The record at `p` is protected by the frozen record at `f`: it is that record, or belongs to
      the collection frozen there. The system contract is exempt from the first kind of check. */
  ghost predicate Covers(cfg: Config, f: Slot, p: Slot) {
    && f.addr != cfg.dcdtSC
    && (p == f || (cfg.checkFrozenCollection && p.addr == f.addr && ValidToken(f.key) && InCollection(f.key, p.key)))
  }

  ghost predicate InCollection(token: bytes, key: bytes) {
    exists n: uint64 :: n > 0 && key == KeyOf(token, n)
  }

  /** The record at `f` is frozen and the one at `p` holds `value`. */
  ghost predicate Held(s: Shard, f: Slot, p: Slot, value: int) {
    IsFrozen(RecordAt(s, f).properties) && Holding(s, p) == value
  }

  ghost predicate StillHeld(r: Result<Shard>, f: Slot, p: Slot, value: int) {
    r.Ok? ==> Held(r.value, f, p, value)
  }

  /** Reading of collections needs valid identifiers: otherwise keys are ambiguous. */
  ghost predicate Unambiguous(f: Slot, p: Slot, token: bytes) {
    p == f || ValidToken(token)
  }

  lemma CollectionKey(f: Slot, p: Slot, token: bytes, nonce: nat)
    requires p != f && ValidToken(f.key) && InCollection(f.key, p.key) && ValidToken(token)
    ensures KeyOf(token, nonce) == p.key ==> token == f.key && nonce > 0
  {
    if KeyOf(token, nonce) == p.key {
      var n: uint64 :| n > 0 && p.key == KeyOf(f.key, n);
      KeyInjective(token, nonce, f.key, n);
    }
  }

  /** Every save that carries the record's own properties, or any save into a frozen collection, is refused. */
  lemma SaveTokenHeld(
    cfg: Config, s: Shard, input: Input, sender: Addr, a: Addr, token: bytes, nonce: nat, t: Token, mustUpdate: bool,
    f: Slot, p: Slot, value: int)
    requires Covers(cfg, f, p) && Held(s, f, p, value) && !input.returnAfterError && Unambiguous(f, p, token)
    requires Slot(a, KeyOf(token, nonce)) == f ==> IsFrozen(t.properties)
    ensures StillHeld(SaveToken(cfg, s, input, sender, a, token, nonce, t, mustUpdate), f, p, value)
  {
    var r := SaveToken(cfg, s, input, sender, a, token, nonce, t, mustUpdate);
    if r.Ok? {
      SaveTokenWrites(cfg, s, input, sender, a, token, nonce, t, mustUpdate);
      if p != f {
        CollectionKey(f, p, token, nonce);
      }
    }
  }

  lemma AddLiquidityHeld(cfg: Config, s: Shard, token: bytes, nonce: nat, delta: int, f: Slot, p: Slot, value: int)
    requires Held(s, f, p, value)
    ensures StillHeld(AddLiquidity(cfg, s, token, nonce, delta), f, p, value)
  {
  }

  lemma SaveWithLiquidityHeld(
    cfg: Config, s: Shard, input: Input, sender: Addr, a: Addr, token: bytes, nonce: nat, t: Token, mustUpdate: bool,
    delta: int, f: Slot, p: Slot, value: int)
    requires Covers(cfg, f, p) && Held(s, f, p, value) && !input.returnAfterError && Unambiguous(f, p, token)
    requires Slot(a, KeyOf(token, nonce)) == f ==> IsFrozen(t.properties)
    ensures StillHeld(SaveWithLiquidity(cfg, s, input, sender, a, token, nonce, t, mustUpdate, delta), f, p, value)
  {
    var saved := SaveToken(cfg, s, input, sender, a, token, nonce, t, mustUpdate);
    SaveTokenHeld(cfg, s, input, sender, a, token, nonce, t, mustUpdate, f, p, value);
    if saved.Ok? {
      AddLiquidityHeld(cfg, saved.value, token, nonce, delta, f, p, value);
    }
  }

  lemma AddToBalanceHeld(
    cfg: Config, s: Shard, input: Input, a: Addr, token: bytes, delta: int, f: Slot, p: Slot, value: int)
    requires Covers(cfg, f, p) && Held(s, f, p, value) && !input.returnAfterError && Unambiguous(f, p, token)
    ensures StillHeld(AddToBalance(cfg, s, input, a, token, delta), f, p, value)
  {
    if AddToBalance(cfg, s, input, a, token, delta).Ok? {
      AddToBalanceWrites(cfg, s, input, a, token, delta);
      if p != f {
        CollectionKey(f, p, token, 0);
      }
    }
  }

  lemma OneOfHeld(r: Result<Shard>, r1: Result<Shard>, r2: Result<Shard>, f: Slot, p: Slot, value: int)
    requires StillHeld(r1, f, p, value) && StillHeld(r2, f, p, value)
    requires RefusedOr(r, r1) || r == r2
    ensures StillHeld(r, f, p, value)
  {
  }

  // ----- the built-in functions of one account -----

  /** The slot a creation writes to. */
  function CreatedSlot(input: Input, latest: uint64): Option<Slot> {
    if input.args != [] && RoleHolder(input).Ok?
    then Some(Slot(RoleHolder(input).value, KeyOf(input.args[0], U64(latest + 1))))
    else None
  }

  /** The action does not create at the frozen record, thaw it, or wipe either record. */
  predicate Spares(action: Action, input: Input, f: Slot, p: Slot) {
    match action
    case Creating(latest) => CreatedSlot(input, latest) != Some(f)
    case Freezing(frozen) => frozen || input.args == [] || Slot(input.recipient, input.args[0]) != f
    case Wiping => input.args == [] || Slot(input.recipient, input.args[0]) !in {f, p}
    case _ => true
  }

  lemma CreateHeld(cfg: Config, s: Shard, input: Input, latest: uint64, f: Slot, p: Slot, value: int)
    requires Covers(cfg, f, p) && Held(s, f, p, value) && !input.returnAfterError
    requires |input.args| >= 7 && Unambiguous(f, p, input.args[0])
    requires Spares(Creating(latest), input, f, p)
    ensures StillHeld(Create(cfg, s, input, latest), f, p, value)
  {
    if RoleHolder(input).Ok? {
      var nonce, owner := U64(latest + 1), RoleHolder(input).value;
      var t := CreatedToken(input, nonce);
      SaveWithLiquidityHeld(cfg, s, input, owner, owner, input.args[0], nonce, t, true, t.value, f, p, value);
    }
  }

  /** Why creation is set apart: it looks at the new token alone, so at a frozen record it replaces
      the holding by the created quantity and the record is frozen no more. */
  lemma CreateOverwrites(cfg: Config, s: Shard, input: Input, latest: uint64)
    requires Create(cfg, s, input, latest).Ok?
    ensures CreatedSlot(input, latest).Some?
    ensures var s1, slot := Create(cfg, s, input, latest).value, CreatedSlot(input, latest).value;
            && Holding(s1, slot) == SetBytes(input.args[1]) > 0
            && !IsFrozen(RecordAt(s1, slot).properties)
  {
    var nonce, owner := U64(latest + 1), RoleHolder(input).value;
    var t := CreatedToken(input, nonce);
    SaveTokenWrites(cfg, s, input, owner, owner, input.args[0], nonce, t, true);
    var saved := SaveToken(cfg, s, input, owner, owner, input.args[0], nonce, t, true).value;
    AddLiquidityWrites(cfg, saved, input.args[0], nonce, t.value);
  }

  /** Reading a record, with or without its metadata, shows whether it is frozen. */
  lemma TokenAtFrozen(cfg: Config, s: Shard, a: Addr, token: bytes, nonce: nat, f: Slot)
    requires IsFrozen(RecordAt(s, f).properties)
    ensures Slot(a, KeyOf(token, nonce)) == f ==> IsFrozen(TokenAt(cfg, s, a, token, nonce).properties)
  {
  }

  lemma DepositHeld(
    cfg: Config, s: Shard, input: Input, token: bytes, nonce: uint64, more: int, f: Slot, p: Slot, value: int)
    requires Covers(cfg, f, p) && Held(s, f, p, value) && !input.returnAfterError && Unambiguous(f, p, token)
    ensures StillHeld(Deposit(cfg, s, input, token, nonce, TokenAt(cfg, s, input.caller, token, nonce), more), f, p,
                      value)
  {
    var a, t := input.caller, TokenAt(cfg, s, input.caller, token, nonce);
    TokenAtFrozen(cfg, s, a, token, nonce, f);
    SaveWithLiquidityHeld(cfg, s, input, a, a, token, nonce, t.(value := t.value + more), false, more, f, p, value);
    var last := SaveWithLiquidity(cfg, s, input, a, a, token, nonce, t.(value := t.value + more), false, more);
    OneOfHeld(Deposit(cfg, s, input, token, nonce, t, more), last, last, f, p, value);
  }

  lemma AddQuantityHeld(cfg: Config, s: Shard, input: Input, f: Slot, p: Slot, value: int)
    requires Covers(cfg, f, p) && Held(s, f, p, value) && !input.returnAfterError
    requires |input.args| >= 3 && Unambiguous(f, p, input.args[0])
    ensures StillHeld(AddQuantity(cfg, s, input), f, p, value)
  {
    var token, nonce, more: int := input.args[0], U64(SetBytes(input.args[1])), SetBytes(input.args[2]);
    AddQuantityShape(cfg, s, input, token, nonce, more);
    DepositHeld(cfg, s, input, token, nonce, more, f, p, value);
    var last := Deposit(cfg, s, input, token, nonce, TokenAt(cfg, s, input.caller, token, nonce), more);
    OneOfHeld(AddQuantity(cfg, s, input), last, last, f, p, value);
  }

  lemma WithdrawHeld(
    cfg: Config, s: Shard, input: Input, token: bytes, nonce: uint64, less: int, f: Slot, p: Slot, value: int)
    requires Covers(cfg, f, p) && Held(s, f, p, value) && !input.returnAfterError && Unambiguous(f, p, token)
    ensures StillHeld(Withdraw(cfg, s, input, token, nonce, TokenAt(cfg, s, input.caller, token, nonce), less), f, p,
                      value)
  {
    var a, t := input.caller, TokenAt(cfg, s, input.caller, token, nonce);
    TokenAtFrozen(cfg, s, a, token, nonce, f);
    if t.value >= less {
      SaveWithLiquidityHeld(cfg, s, input, a, a, token, nonce, t.(value := t.value - less), false, -less, f, p, value);
      var last := SaveWithLiquidity(cfg, s, input, a, a, token, nonce, t.(value := t.value - less), false, -less);
      OneOfHeld(Withdraw(cfg, s, input, token, nonce, t, less), last, last, f, p, value);
    }
  }

  lemma BurnHeld(cfg: Config, s: Shard, input: Input, f: Slot, p: Slot, value: int)
    requires Covers(cfg, f, p) && Held(s, f, p, value) && !input.returnAfterError
    requires |input.args| >= 3 && Unambiguous(f, p, input.args[0])
    ensures StillHeld(Burn(cfg, s, input), f, p, value)
  {
    var token, nonce, less: int := input.args[0], U64(SetBytes(input.args[1])), SetBytes(input.args[2]);
    BurnShape(cfg, s, input, token, nonce, less);
    WithdrawHeld(cfg, s, input, token, nonce, less, f, p, value);
    var last := Withdraw(cfg, s, input, token, nonce, TokenAt(cfg, s, input.caller, token, nonce), less);
    OneOfHeld(Burn(cfg, s, input), last, last, f, p, value);
  }

  lemma UpdateHeld(cfg: Config, s: Shard, input: Input, f: Slot, p: Slot, value: int)
    requires Covers(cfg, f, p) && Held(s, f, p, value) && !input.returnAfterError
    requires |input.args| == 3 && Unambiguous(f, p, input.args[0])
    ensures StillHeld(UpdateAttributes(cfg, s, input), f, p, value)
  {
    if UpdateAttributes(cfg, s, input).Ok? {
      var a, token, nonce := input.caller, input.args[0], U64(SetBytes(input.args[1]));
      var t := TokenAt(cfg, s, a, token, nonce);
      TokenAtFrozen(cfg, s, a, token, nonce, f);
      SaveTokenHeld(cfg, s, input, a, a, token, nonce,
                    t.(meta := Some(t.meta.value.(attributes := input.args[2]))), true, f, p, value);
    }
  }

  lemma FungibleTransferHeld(cfg: Config, s: Shard, input: Input, f: Slot, p: Slot, value: int)
    requires Covers(cfg, f, p) && Held(s, f, p, value) && !input.returnAfterError
    requires |input.args| >= 2 && Unambiguous(f, p, input.args[0])
    ensures StillHeld(FungibleTransfer(cfg, s, input), f, p, value)
  {
    var token, amount: int := input.args[0], SetBytes(input.args[1]);
    var debited := FungibleDebit(cfg, s, input, token, amount);
    FungibleTransferShape(cfg, s, input, amount);
    AddToBalanceHeld(cfg, s, input, input.caller, token, -amount, f, p, value);
    if debited.Ok? {
      AddToBalanceHeld(cfg, debited.value, input, input.recipient, token, amount, f, p, value);
    }
    OneOfHeld(FungibleTransfer(cfg, s, input), debited, FungibleCredit(cfg, debited, input, token, amount), f, p,
              value);
  }

  lemma FreezeHeld(cfg: Config, s: Shard, input: Input, frozen: bool, f: Slot, p: Slot, value: int)
    requires Held(s, f, p, value) && Spares(Freezing(frozen), input, f, p)
    ensures StillHeld(SetFrozen(cfg, s, input, frozen), f, p, value)
  {
    if |input.args| == 1 {
      var slot := Slot(input.recipient, input.args[0]);
      assert frozen ==> FreezeBytes(frozen)[0] == 1 && !AllZero(FreezeBytes(frozen));
    }
  }

  lemma WipeHeld(cfg: Config, s: Shard, input: Input, f: Slot, p: Slot, value: int)
    requires Held(s, f, p, value) && Spares(Wiping, input, f, p)
    ensures StillHeld(Wipe(cfg, s, input), f, p, value)
  {
    if |input.args| == 1 {
      var slot := Slot(input.recipient, input.args[0]);
      var (token, nonce) := ExtractWipe(input.args[0]);
      AddLiquidityHeld(cfg, Drop(s, slot), token, nonce, -Holding(s, slot), f, p, value);
    }
  }

  lemma ActHeld(cfg: Config, s: Shard, action: Action, input: Input, f: Slot, p: Slot, value: int)
    requires Covers(cfg, f, p) && Held(s, f, p, value) && !input.returnAfterError && Spares(action, input, f, p)
    requires p == f || action.Freezing? || action.Wiping? || input.args == [] || ValidToken(input.args[0])
    ensures StillHeld(ActOn(cfg, s, action, input), f, p, value)
  {
    if action.Freezing? {
      FreezeHeld(cfg, s, input, action.frozen, f, p, value);
    } else if action.Wiping? {
      WipeHeld(cfg, s, input, f, p, value);
    } else if |input.args| >= 2 {
      match action
      case Creating(latest) =>
        if |input.args| >= 7 {
          CreateHeld(cfg, s, input, latest, f, p, value);
        }
      case Minting(sign) =>
        AddToBalanceHeld(cfg, s, input, input.caller, input.args[0],
                         (if sign > 0 then 1 else -1) * SetBytes(input.args[1]), f, p, value);
      case MovingFungible => FungibleTransferHeld(cfg, s, input, f, p, value);
      case _ => OwnTokenHeld(cfg, s, action, input, f, p, value);
    }
  }

  lemma OwnTokenHeld(cfg: Config, s: Shard, action: Action, input: Input, f: Slot, p: Slot, value: int)
    requires Covers(cfg, f, p) && Held(s, f, p, value) && !input.returnAfterError
    requires action.AddingQuantity? || action.Burning? || action.Updating?
    requires |input.args| >= 2 && Unambiguous(f, p, input.args[0])
    ensures StillHeld(ActOn(cfg, s, action, input), f, p, value)
  {
    if |input.args| >= 3 {
      match action
      case AddingQuantity => AddQuantityHeld(cfg, s, input, f, p, value);
      case Burning => BurnHeld(cfg, s, input, f, p, value);
      case Updating =>
        if |input.args| == 3 {
          UpdateHeld(cfg, s, input, f, p, value);
        }
    }
  }

  // ----- transfers -----

  ghost predicate PairHeld<T>(r: Result<(Shard, T)>, f: Slot, p: Slot, value: int) {
    r.Ok? ==> Held(r.value.0, f, p, value)
  }

  /** A credit checks the receiver's own record before it saves. */
  lemma CreditHeld(
    cfg: Config, s: Shard, input: Input, snd: Addr, dst: Addr, t: Token, token: bytes, nonce: nat, f: Slot, p: Slot,
    value: int)
    requires Covers(cfg, f, p) && Held(s, f, p, value) && !input.returnAfterError && Unambiguous(f, p, token)
    ensures PairHeld(Credit(cfg, s, input, snd, dst, t, token, nonce), f, p, value)
  {
    var sum := t.(value := t.value + TokenAt(cfg, s, dst, token, nonce).value);
    TokenAtFrozen(cfg, s, dst, token, nonce, f);
    if Slot(dst, KeyOf(token, nonce)) != f {
      if cfg.shardOf(snd) == cfg.shardOf(dst) {
        CreditHereShape(cfg, s, input, snd, dst, t, token, nonce);
        SaveTokenHeld(cfg, s, input, snd, dst, token, nonce, sum, false, f, p, value);
      } else {
        CreditFarShape(cfg, s, input, snd, dst, t, token, nonce);
        SaveWithLiquidityHeld(cfg, s, input, snd, dst, token, nonce, sum, false, t.value, f, p, value);
      }
    }
  }

  lemma DebitHeld(cfg: Config, s: Shard, input: Input, item: Item, f: Slot, p: Slot, value: int)
    requires Covers(cfg, f, p) && Held(s, f, p, value) && !input.returnAfterError && Unambiguous(f, p, item.token)
    ensures PairHeld(Debit(cfg, s, input, item), f, p, value)
  {
    var before := TokenAt(cfg, s, input.caller, item.token, item.nonce);
    DebitShape(cfg, s, input, item);
    TokenAtFrozen(cfg, s, input.caller, item.token, item.nonce, f);
    SaveTokenHeld(cfg, s, input, input.caller, input.caller, item.token, item.nonce,
                  before.(value := before.value - item.value), false, f, p, value);
  }

  lemma SettleHeld(cfg: Config, s: Shard, input: Input, dst: Addr, item: Item, t: Token, f: Slot, p: Slot, value: int)
    requires Covers(cfg, f, p) && Held(s, f, p, value) && !input.returnAfterError && Unambiguous(f, p, item.token)
    ensures PairHeld(Settle(cfg, s, input, dst, item, t), f, p, value)
  {
    if cfg.shardOf(dst) == s.id {
      CreditHeld(cfg, s, input, input.caller, dst, t, item.token, item.nonce, f, p, value);
    } else {
      SettleFarShape(cfg, s, input, dst, item, t);
      AddLiquidityHeld(cfg, s, item.token, item.nonce, -(item.value as int), f, p, value);
    }
  }

  lemma MoveHeld(cfg: Config, s: Shard, input: Input, dst: Addr, item: Item, f: Slot, p: Slot, value: int)
    requires Covers(cfg, f, p) && Held(s, f, p, value) && !input.returnAfterError && Unambiguous(f, p, item.token)
    ensures var debited := Debit(cfg, s, input, item);
            debited.Ok? ==> PairHeld(Settle(cfg, debited.value.0, input, dst, item, debited.value.1), f, p, value)
  {
    var debited := Debit(cfg, s, input, item);
    DebitHeld(cfg, s, input, item, f, p, value);
    if debited.Ok? {
      SettleHeld(cfg, debited.value.0, input, dst, item, debited.value.1, f, p, value);
    }
  }

  lemma SendOneHeld(cfg: Config, s: Shard, input: Input, dst: Addr, item: Item, f: Slot, p: Slot, value: int)
    requires Covers(cfg, f, p) && Held(s, f, p, value) && !input.returnAfterError && Unambiguous(f, p, item.token)
    ensures PairHeld(SendOne(cfg, s, input, dst, item), f, p, value)
  {
    SendOneShape(cfg, s, input, dst, item);
    MoveHeld(cfg, s, input, dst, item, f, p, value);
  }

  lemma SendNftHeld(cfg: Config, s: Shard, input: Input, f: Slot, p: Slot, value: int)
    requires Covers(cfg, f, p) && Held(s, f, p, value) && !input.returnAfterError
    requires |input.args| >= NFT_MIN_ARGS && Unambiguous(f, p, input.args[0])
    ensures PairHeld(SendNft(cfg, s, input), f, p, value)
  {
    var item, dst := NftItem(input.args), input.args[3];
    SendNftShape(cfg, s, input);
    MoveHeld(cfg, s, input, dst, item, f, p, value);
    if SendNft(cfg, s, input).Ok? {
      var debited := Debit(cfg, s, input, item).value;
      var settled := Settle(cfg, debited.0, input, dst, item, debited.1).value;
      AlreadySentWrites(cfg, settled.0, item.token, item.nonce, dst);
    }
  }

  lemma SendItemsHeld(cfg: Config, s: Shard, input: Input, dst: Addr, n: nat, f: Slot, p: Slot, value: int)
    requires Covers(cfg, f, p) && Held(s, f, p, value) && !input.returnAfterError
    requires 3 * n + 2 <= |input.args| && (p != f ==> ValidItems(input.args, 2, n))
    ensures PairHeld(SendItems(cfg, s, input, dst, n, 0), f, p, value)
  {
    var P := (x: Shard) => Held(x, f, p, value);
    forall j | 0 <= j < n
      ensures SendsSatisfy(P, false, cfg, input, dst, ItemAt(input.args, 2, j))
    {
      forall x | P(x)
        ensures Satisfies(P, false, SendOne(cfg, x, input, dst, ItemAt(input.args, 2, j)))
      {
        SendOneHeld(cfg, x, input, dst, ItemAt(input.args, 2, j), f, p, value);
      }
    }
    SendItemsPreserve(P, false, cfg, s, input, dst, n, 0);
  }

  lemma SendMultiHeld(cfg: Config, s: Shard, input: Input, f: Slot, p: Slot, value: int)
    requires Covers(cfg, f, p) && Held(s, f, p, value) && !input.returnAfterError
    requires |input.args| >= 4
    requires p != f ==>
               var n := U64(SetBytes(input.args[1])); 3 * n + 2 <= |input.args| ==> ValidItems(input.args, 2, n)
    ensures PairHeld(SendMulti(cfg, s, input), f, p, value)
  {
    hide SendMulti, SendAll;
    var n := U64(SetBytes(input.args[1]));
    var gas := input.gasProvided - U64(n * cfg.multiGas);
    SendMultiChecks(cfg, s, input);
    if 3 * n + 2 <= |input.args| && gas >= 0 {
      SendAllHeld(cfg, s, input, input.args[0], n, gas, f, p, value);
    }
  }

  lemma SendAllHeld(cfg: Config, s: Shard, input: Input, dst: Addr, n: nat, gas: nat, f: Slot, p: Slot, value: int)
    requires Covers(cfg, f, p) && Held(s, f, p, value) && !input.returnAfterError
    requires 3 * n + 2 <= |input.args| && (p != f ==> ValidItems(input.args, 2, n))
    ensures PairHeld(SendAll(cfg, s, input, dst, n, gas), f, p, value)
  {
    var all := SendItems(cfg, s, input, dst, n, 0);
    SendAllShape(cfg, s, input, dst, n, gas);
    SendItemsHeld(cfg, s, input, dst, n, f, p, value);
    if all.Ok? && |all.value.1| == n {
      MultiOutputHeld(cfg, all.value.0, input, dst, all.value.1, gas, f, p, value);
    }
  }

  lemma MultiOutputHeld(
    cfg: Config, s: Shard, input: Input, dst: Addr, sent: seq<Sent>, gas: nat, f: Slot, p: Slot, value: int)
    requires Held(s, f, p, value) && 3 * |sent| + 2 <= |input.args|
    ensures PairHeld(MultiOutput(cfg, s, input, dst, sent, gas), f, p, value)
  {
    if MultiOutput(cfg, s, input, dst, sent, gas).Ok? {
      EncodeSameId(cfg, s, sent, dst, gas, 0);
    }
  }

  lemma ReceiveNftHeld(cfg: Config, s: Shard, input: Input, f: Slot, p: Slot, value: int)
    requires Covers(cfg, f, p) && Held(s, f, p, value) && !input.returnAfterError
    requires |input.args| >= NFT_MIN_ARGS && Unambiguous(f, p, input.args[0])
    ensures PairHeld(ReceiveNft(cfg, s, input), f, p, value)
  {
    var item, payload := NftItem(input.args), NftPayload(cfg, input.args);
    if payload.Ok? {
      CreditHeld(cfg, s, input, input.caller, input.recipient, payload.value, item.token, item.nonce, f, p, value);
    }
  }

  lemma ReceiveOneHeld(cfg: Config, s: Shard, input: Input, x: Sent, f: Slot, p: Slot, value: int)
    requires Covers(cfg, f, p) && Held(s, f, p, value) && !input.returnAfterError && Unambiguous(f, p, x.item.token)
    ensures StillHeld(ReceiveOne(cfg, s, input, x), f, p, value)
  {
    if x.item.nonce > 0 {
      CreditHeld(cfg, s, input, input.caller, input.recipient, x.tok, x.item.token, x.item.nonce, f, p, value);
    } else {
      AddToBalanceHeld(cfg, s, input, input.recipient, x.item.token, x.tok.value, f, p, value);
    }
  }

  lemma ReceiveItemsHeld(cfg: Config, s: Shard, input: Input, n: nat, f: Slot, p: Slot, value: int)
    requires Covers(cfg, f, p) && Held(s, f, p, value) && !input.returnAfterError
    requires 3 * n + 1 <= |input.args| && (p != f ==> ValidPayloads(cfg, input.args, n))
    ensures StillHeld(ReceiveItems(cfg, s, input, n, 0), f, p, value)
  {
    var P := (x: Shard) => Held(x, f, p, value);
    forall j | 0 <= j < n && DecodeItem(cfg, input.args, j).Ok?
      ensures ReceivesSatisfy(P, false, cfg, input, DecodeItem(cfg, input.args, j).value)
    {
      forall x | P(x)
        ensures StillHeld(ReceiveOne(cfg, x, input, DecodeItem(cfg, input.args, j).value), f, p, value)
      {
        ReceiveOneHeld(cfg, x, input, DecodeItem(cfg, input.args, j).value, f, p, value);
      }
    }
    ReceiveItemsPreserve(P, false, cfg, s, input, n, 0);
  }

  lemma ReceiveMultiHeld(cfg: Config, s: Shard, input: Input, f: Slot, p: Slot, value: int)
    requires Covers(cfg, f, p) && Held(s, f, p, value) && !input.returnAfterError
    requires |input.args| >= 4
    requires p != f ==>
               var n := U64(SetBytes(input.args[0])); 3 * n + 1 <= |input.args| ==> ValidPayloads(cfg, input.args, n)
    ensures PairHeld(ReceiveMulti(cfg, s, input), f, p, value)
  {
    var n := U64(SetBytes(input.args[0]));
    if 3 * n + 1 <= |input.args| {
      ReceiveItemsHeld(cfg, s, input, n, f, p, value);
    }
  }
}
