// The branches for old tokens (flag FixOldTokenLiquidity): over every run of the network they are never taken,
// so that the flag makes no difference.
module OldTokens {
  import opened Bytes
  import opened Wrappers
  import opened TokenId
  import opened Ledger
  import opened Transfers
  import opened TxData
  import opened Totals
  import opened Shapes
  import opened Liquidity
  import opened Wire
  import opened Network
  import opened NetworkWire
  import opened NetworkLiquidity

  /** The configuration without the fix for old tokens. */
  function Off(cfg: Config): Config {
    cfg.(fixOldTokenLiquidity := false)
  }

  // ----- saving -----

  /** An old token is a record with its metadata inline, where the system account has no entry. */
  predicate OldTokenAt(s: Shard, slot: Slot) {
    slot.key !in s.system && RecordAt(s, slot).meta.Some?
  }

  lemma SaveTokenSame(
    cfg: Config, s: Shard, input: Input, sender: Addr, a: Addr, token: bytes, nonce: nat, t: Token, mustUpdate: bool)
    requires CountsLiquidity(cfg) && (nonce == 0 || !OldTokenAt(s, Slot(a, KeyOf(token, nonce))))
    ensures SaveToken(Off(cfg), s, input, sender, a, token, nonce, t, mustUpdate)
         == SaveToken(cfg, s, input, sender, a, token, nonce, t, mustUpdate)
  {
  }

  lemma NoOldTokens(s: Shard, a: Addr, token: bytes, nonce: uint64)
    requires LiquidityInv(s) && ValidToken(token)
    ensures nonce == 0 || !OldTokenAt(s, Slot(a, KeyOf(token, nonce)))
  {
    NonceGivesNftKey(token, nonce);
    assert Slot(a, KeyOf(token, nonce)) in s.accounts ==> RecordOk(s, Slot(a, KeyOf(token, nonce)));
  }

  /** What is saved and then counted as it should be is counted alike. */
  lemma SaveWithLiquiditySame(
    cfg: Config, s: Shard, input: Input, sender: Addr, a: Addr, token: bytes, nonce: uint64, t: Token,
    mustUpdate: bool, delta: int)
    requires CountsLiquidity(cfg) && LiquidityInv(s) && ValidToken(token)
    requires || (t.value >= 0 && t.value == Holding(s, Slot(a, KeyOf(token, nonce))) + delta)
             || (mustUpdate && t.meta.Some? && t.value == delta > 0)
    ensures SaveWithLiquidity(Off(cfg), s, input, sender, a, token, nonce, t, mustUpdate, delta)
         == SaveWithLiquidity(cfg, s, input, sender, a, token, nonce, t, mustUpdate, delta)
  {
    var slot := Slot(a, KeyOf(token, nonce));
    var saved := SaveToken(cfg, s, input, sender, a, token, nonce, t, mustUpdate);
    NoOldTokens(s, a, token, nonce);
    SaveTokenSame(cfg, s, input, sender, a, token, nonce, t, mustUpdate);
    if saved.Ok? && nonce > 0 {
      SaveTokenWrites(cfg, s, input, sender, a, token, nonce, t, mustUpdate);
      NonceGivesNftKey(token, nonce);
      assert EntryMatches(s, slot.key);
      HoldersKnown(s, slot);
      SaveTokenEntry(cfg, s, input, sender, a, token, nonce, t, mustUpdate);
      AdjustKeepsInv(cfg, s, saved.value, slot, token, nonce, delta);
    }
  }

  // ----- the built-in functions of one account -----

  lemma CreateSame(cfg: Config, s: Shard, input: Input, latest: uint64)
    requires CountsLiquidity(cfg) && LiquidityInv(s)
    requires |input.args| > 0 && ValidToken(input.args[0])
    ensures Create(Off(cfg), s, input, latest) == Create(cfg, s, input, latest)
  {
    hide SaveWithLiquidity, TotalLength;
    var nonce := U64(latest + 1);
    if |input.args| >= 7 && RoleHolder(input).Ok? && CreatedToken(input, nonce).value > 0 {
      var t, owner := CreatedToken(input, nonce), RoleHolder(input).value;
      SaveWithLiquiditySame(cfg, s, input, owner, owner, input.args[0], nonce, t, true, t.value);
    }
  }

  lemma TokenAtSame(cfg: Config, s: Shard, a: Addr, token: bytes, nonce: nat)
    ensures TokenAt(Off(cfg), s, a, token, nonce) == TokenAt(cfg, s, a, token, nonce)
  {
  }

  lemma DepositSame(cfg: Config, s: Shard, input: Input, token: bytes, nonce: uint64, t: Token, value: nat)
    requires CountsLiquidity(cfg) && LiquidityInv(s) && ValidToken(token)
    requires t == TokenAt(cfg, s, input.caller, token, nonce)
    ensures Deposit(Off(cfg), s, input, token, nonce, t, value) == Deposit(cfg, s, input, token, nonce, t, value)
  {
    hide SaveWithLiquidity;
    var a := input.caller;
    TokenAtFacts(cfg, s, a, token, nonce);
    SaveWithLiquiditySame(cfg, s, input, a, a, token, nonce, t.(value := t.value + value), false, value);
  }

  lemma AddQuantitySame(cfg: Config, s: Shard, input: Input)
    requires CountsLiquidity(cfg) && LiquidityInv(s)
    requires |input.args| > 0 && ValidToken(input.args[0])
    ensures AddQuantity(Off(cfg), s, input) == AddQuantity(cfg, s, input)
  {
    if |input.args| >= 3 {
      var token, nonce := input.args[0], U64(SetBytes(input.args[1]));
      TokenAtSame(cfg, s, input.caller, token, nonce);
      DepositSame(cfg, s, input, token, nonce, TokenAt(cfg, s, input.caller, token, nonce), SetBytes(input.args[2]));
    }
  }

  lemma WithdrawSame(cfg: Config, s: Shard, input: Input, token: bytes, nonce: uint64, t: Token, value: int)
    requires CountsLiquidity(cfg) && LiquidityInv(s) && ValidToken(token)
    requires t == TokenAt(cfg, s, input.caller, token, nonce)
    ensures Withdraw(Off(cfg), s, input, token, nonce, t, value) == Withdraw(cfg, s, input, token, nonce, t, value)
  {
    hide SaveWithLiquidity;
    if t.value >= value {
      var a := input.caller;
      TokenAtFacts(cfg, s, a, token, nonce);
      SaveWithLiquiditySame(cfg, s, input, a, a, token, nonce, t.(value := t.value - value), false, -value);
    }
  }

  lemma BurnSame(cfg: Config, s: Shard, input: Input)
    requires CountsLiquidity(cfg) && LiquidityInv(s)
    requires |input.args| > 0 && ValidToken(input.args[0])
    ensures Burn(Off(cfg), s, input) == Burn(cfg, s, input)
  {
    if |input.args| >= 3 {
      var token, nonce := input.args[0], U64(SetBytes(input.args[1]));
      TokenAtSame(cfg, s, input.caller, token, nonce);
      WithdrawSame(cfg, s, input, token, nonce, TokenAt(cfg, s, input.caller, token, nonce), SetBytes(input.args[2]));
    }
  }

  lemma UpdateSame(cfg: Config, s: Shard, input: Input)
    requires CountsLiquidity(cfg) && LiquidityInv(s)
    requires |input.args| > 0 && ValidToken(input.args[0])
    ensures UpdateAttributes(Off(cfg), s, input) == UpdateAttributes(cfg, s, input)
  {
    if |input.args| >= 3 {
      var token, nonce := input.args[0], U64(SetBytes(input.args[1]));
      var t := TokenAt(cfg, s, input.caller, token, nonce);
      TokenAtSame(cfg, s, input.caller, token, nonce);
      NoOldTokens(s, input.caller, token, nonce);
      if t.meta.Some? {
        SaveTokenSame(cfg, s, input, input.caller, input.caller, token, nonce,
                      t.(meta := Some(t.meta.value.(attributes := input.args[2]))), true);
      }
    }
  }

  lemma WipeSame(cfg: Config, s: Shard, input: Input, token: bytes, nonce: uint64)
    requires CountsLiquidity(cfg) && LiquidityInv(s)
    requires ValidToken(token) && DASH !in ToBytes(nonce)
    requires |input.args| > 0 && input.args[0] == KeyOf(token, nonce)
    ensures Wipe(Off(cfg), s, input) == Wipe(cfg, s, input)
  {
    var slot := Slot(input.recipient, input.args[0]);
    ExtractedExactly(token, nonce);
    NonceGivesNftKey(token, nonce);
    if nonce > 0 {
      assert EntryMatches(s, slot.key);
      AdjustKeepsInv(cfg, s, Drop(s, slot), slot, token, nonce, -Holding(s, slot));
    }
  }

  lemma AddToBalanceSame(cfg: Config, s: Shard, input: Input, a: Addr, token: bytes, delta: int)
    ensures AddToBalance(Off(cfg), s, input, a, token, delta) == AddToBalance(cfg, s, input, a, token, delta)
  {
  }

  lemma FungibleTransferSame(cfg: Config, s: Shard, input: Input)
    ensures FungibleTransfer(Off(cfg), s, input) == FungibleTransfer(cfg, s, input)
  {
    hide AddToBalance;
    if |input.args| >= 2 {
      var token, value: int := input.args[0], SetBytes(input.args[1]);
      AddToBalanceSame(cfg, s, input, input.caller, token, -value);
      AddToBalanceSame(cfg, s, input, input.recipient, token, value);
      var debited := AddToBalance(cfg, s, input, input.caller, token, -value);
      if debited.Ok? {
        AddToBalanceSame(cfg, debited.value, input, input.recipient, token, value);
      }
    }
  }

  lemma BalancesSame(cfg: Config, s: Shard, input: Input, action: Action)
    requires action.Minting? || action.MovingFungible? || action.Freezing?
    ensures ActOn(Off(cfg), s, action, input) == ActOn(cfg, s, action, input)
  {
    hide AddToBalance, FungibleTransfer;
    FungibleTransferSame(cfg, s, input);
    if action.Minting? && |input.args| >= 2 {
      var value: int := SetBytes(input.args[1]);
      AddToBalanceSame(cfg, s, input, input.caller, input.args[0], value);
      AddToBalanceSame(cfg, s, input, input.caller, input.args[0], -value);
    }
  }

  lemma ActSame(cfg: Config, s: Shard, action: Action, input: Input)
    requires CountsLiquidity(cfg) && LiquidityInv(s) && NamesValidTokens(Act(0, action, input))
    ensures ActOn(Off(cfg), s, action, input) == ActOn(cfg, s, action, input)
  {
    if action.Minting? || action.MovingFungible? || action.Freezing? {
      BalancesSame(cfg, s, input, action);
    } else if action.Wiping? {
      if |input.args| == 1 {
        assert input.args == [input.args[0]];
        var t: bytes, n: uint64 :| ValidToken(t) && DASH !in ToBytes(n) && input.args[0] == KeyOf(t, n);
        WipeSame(cfg, s, input, t, n);
      }
    } else if input.args == [] {
      NoArgumentsRefused(cfg, s, action, input);
      NoArgumentsRefused(Off(cfg), s, action, input);
    } else {
      match action
      case Creating(latest) => CreateSame(cfg, s, input, latest);
      case AddingQuantity => AddQuantitySame(cfg, s, input);
      case Burning => BurnSame(cfg, s, input);
      case Updating => UpdateSame(cfg, s, input);
    }
  }

  // ----- the sender's side -----

  lemma DebitSame(cfg: Config, s: Shard, input: Input, item: Item)
    requires CountsLiquidity(cfg) && LiquidityInv(s) && ValidToken(item.token)
    ensures Debit(Off(cfg), s, input, item) == Debit(cfg, s, input, item)
  {
    var a, t := input.caller, TokenAt(cfg, s, input.caller, item.token, item.nonce);
    NoOldTokens(s, a, item.token, item.nonce);
    TokenAtSame(cfg, s, a, item.token, item.nonce);
    SaveTokenSame(cfg, s, input, a, a, item.token, item.nonce, t.(value := t.value - item.value), false);
  }

  /** The drop in liquidity after a debit. */
  lemma SendAwaySame(cfg: Config, s: Shard, input: Input, dst: Addr, item: Item, s1: Shard, t: Token)
    requires CountsLiquidity(cfg) && LiquidityInv(s) && ValidToken(item.token) && cfg.shardOf(dst) != s1.id
    requires Debit(cfg, s, input, item) == Ok((s1, t))
    ensures Settle(Off(cfg), s1, input, dst, item, t) == Settle(cfg, s1, input, dst, item, t)
  {
    var a, delta := input.caller, -(item.value as int);
    var before := TokenAt(cfg, s, a, item.token, item.nonce);
    var left := before.(value := before.value + delta);
    DebitShape(cfg, s, input, item);
    TokenAtFacts(cfg, s, a, item.token, item.nonce);
    NoOldTokens(s, a, item.token, item.nonce);
    SaveTokenSame(cfg, s, input, a, a, item.token, item.nonce, left, false);
    SaveWithLiquiditySame(cfg, s, input, a, a, item.token, item.nonce, left, false, delta);
    AdjustedAlike(cfg, s, input, a, item.token, item.nonce, left, delta, s1);
  }

  lemma AdjustedAlike(
    cfg: Config, s: Shard, input: Input, a: Addr, token: bytes, nonce: uint64, left: Token, delta: int, s1: Shard)
    requires SaveToken(cfg, s, input, a, a, token, nonce, left, false) == Ok(s1)
    requires SaveToken(Off(cfg), s, input, a, a, token, nonce, left, false) == Ok(s1)
    requires SaveWithLiquidity(Off(cfg), s, input, a, a, token, nonce, left, false, delta)
          == SaveWithLiquidity(cfg, s, input, a, a, token, nonce, left, false, delta)
    ensures AddLiquidity(Off(cfg), s1, token, nonce, delta) == AddLiquidity(cfg, s1, token, nonce, delta)
  {
  }

  /** After a debit the destination still holds no old token. */
  lemma DestinationNotOld(
    cfg: Config, s: Shard, s1: Shard, input: Input, a: Addr, b: Addr, token: bytes, nonce: uint64, left: Token)
    requires CountsLiquidity(cfg) && LiquidityInv(s) && ValidToken(token)
    requires Ok(s1) == SaveToken(cfg, s, input, a, a, token, nonce, left, false)
    ensures nonce == 0 || !OldTokenAt(s1, Slot(b, KeyOf(token, nonce)))
  {
    var slot := Slot(b, KeyOf(token, nonce));
    SaveTokenWrites(cfg, s, input, a, a, token, nonce, left, false);
    NonceGivesNftKey(token, nonce);
    assert slot in s.accounts ==> RecordOk(s, slot);
  }

  lemma CreditHereAlike(
    cfg: Config, s: Shard, input: Input, snd: Addr, dst: Addr, t: Token, token: bytes, nonce: uint64)
    requires CountsLiquidity(cfg) && cfg.shardOf(snd) == cfg.shardOf(dst)
    requires nonce == 0 || !OldTokenAt(s, Slot(dst, KeyOf(token, nonce)))
    ensures Credit(Off(cfg), s, input, snd, dst, t, token, nonce) == Credit(cfg, s, input, snd, dst, t, token, nonce)
  {
    hide SaveToken;
    var here := TokenAt(cfg, s, dst, token, nonce);
    TokenAtSame(cfg, s, dst, token, nonce);
    SaveTokenSame(cfg, s, input, snd, dst, token, nonce, t.(value := t.value + here.value), false);
  }

  lemma CreditHereSame(cfg: Config, s: Shard, input: Input, dst: Addr, item: Item, s1: Shard, t: Token)
    requires CountsLiquidity(cfg) && LiquidityInv(s) && ValidToken(item.token)
    requires cfg.shardOf(input.caller) == cfg.shardOf(dst) == s1.id
    requires Debit(cfg, s, input, item) == Ok((s1, t))
    ensures Settle(Off(cfg), s1, input, dst, item, t) == Settle(cfg, s1, input, dst, item, t)
  {
    var before := TokenAt(cfg, s, input.caller, item.token, item.nonce);
    DebitShape(cfg, s, input, item);
    DestinationNotOld(cfg, s, s1, input, input.caller, dst, item.token, item.nonce,
                      before.(value := before.value - item.value));
    CreditHereAlike(cfg, s1, input, input.caller, dst, t, item.token, item.nonce);
  }

  lemma SettleSame(cfg: Config, s: Shard, input: Input, dst: Addr, item: Item, s1: Shard, t: Token)
    requires CountsLiquidity(cfg) && LiquidityInv(s) && ValidToken(item.token) && cfg.shardOf(input.caller) == s.id
    requires Debit(cfg, s, input, item) == Ok((s1, t))
    ensures Settle(Off(cfg), s1, input, dst, item, t) == Settle(cfg, s1, input, dst, item, t)
  {
    DebitShape(cfg, s, input, item);
    if cfg.shardOf(dst) == s1.id {
      CreditHereSame(cfg, s, input, dst, item, s1, t);
    } else {
      SendAwaySame(cfg, s, input, dst, item, s1, t);
    }
  }

  lemma SendOneSame(cfg: Config, s: Shard, input: Input, dst: Addr, item: Item)
    requires CountsLiquidity(cfg) && LiquidityInv(s) && ValidToken(item.token) && cfg.shardOf(input.caller) == s.id
    ensures SendOne(Off(cfg), s, input, dst, item) == SendOne(cfg, s, input, dst, item)
  {
    DebitSame(cfg, s, input, item);
    var debited := Debit(cfg, s, input, item);
    if debited.Ok? {
      SettleSame(cfg, s, input, dst, item, debited.value.0, debited.value.1);
    }
  }

  /** From every state with `P` the item is sent alike and `P` is kept. */
  ghost predicate SendsAlike(P: Shard -> bool, cfg: Config, input: Input, dst: Addr, item: Item) {
    forall s {:trigger SendOne(cfg, s, input, dst, item)} :: P(s) ==>
      var one := SendOne(cfg, s, input, dst, item);
      SendOne(Off(cfg), s, input, dst, item) == one && (one.Ok? ==> P(one.value.0))
  }

  lemma OneAlike(P: Shard -> bool, cfg: Config, s: Shard, input: Input, dst: Addr, item: Item)
    requires P(s) && SendsAlike(P, cfg, input, dst, item)
    ensures var one := SendOne(cfg, s, input, dst, item);
            SendOne(Off(cfg), s, input, dst, item) == one && (one.Ok? ==> P(one.value.0))
  {
  }

  lemma TurnAlike(cfg: Config, s: Shard, input: Input, dst: Addr, n: nat, i: nat, one: Result<(Shard, Token)>)
    requires i < n && 3 * n + 2 <= |input.args|
    requires one == SendOne(cfg, s, input, dst, ItemAt(input.args, 2, i))
    requires one == SendOne(Off(cfg), s, input, dst, ItemAt(input.args, 2, i))
    requires RestAlike(cfg, one, input, dst, n, i + 1)
    ensures SendItems(Off(cfg), s, input, dst, n, i) == SendItems(cfg, s, input, dst, n, i)
  {
  }

  ghost predicate RestAlike(cfg: Config, one: Result<(Shard, Token)>, input: Input, dst: Addr, n: nat, i: nat)
    requires i <= n && 3 * n + 2 <= |input.args|
  {
    one.Ok? ==> SendItems(Off(cfg), one.value.0, input, dst, n, i) == SendItems(cfg, one.value.0, input, dst, n, i)
  }

  lemma {:induction false} SendItemsAlike(
    P: Shard -> bool, cfg: Config, s: Shard, input: Input, dst: Addr, n: nat, i: nat)
    requires P(s) && i <= n && 3 * n + 2 <= |input.args|
    requires forall j :: i <= j < n ==> SendsAlike(P, cfg, input, dst, ItemAt(input.args, 2, j))
    ensures SendItems(Off(cfg), s, input, dst, n, i) == SendItems(cfg, s, input, dst, n, i)
    decreases n - i, 2
  {
    if i < n {
      OneAlike(P, cfg, s, input, dst, ItemAt(input.args, 2, i));
      GoesOnAlike(P, cfg, s, input, dst, n, i, SendOne(cfg, s, input, dst, ItemAt(input.args, 2, i)));
    }
  }

  lemma {:induction false} GoesOnAlike(
    P: Shard -> bool, cfg: Config, s: Shard, input: Input, dst: Addr, n: nat, i: nat, one: Result<(Shard, Token)>)
    requires i < n && 3 * n + 2 <= |input.args| && (one.Ok? ==> P(one.value.0))
    requires one == SendOne(cfg, s, input, dst, ItemAt(input.args, 2, i))
    requires one == SendOne(Off(cfg), s, input, dst, ItemAt(input.args, 2, i))
    requires forall j :: i < j < n ==> SendsAlike(P, cfg, input, dst, ItemAt(input.args, 2, j))
    ensures SendItems(Off(cfg), s, input, dst, n, i) == SendItems(cfg, s, input, dst, n, i)
    decreases n - i, 1
  {
    hide SendOne;
    RestIsAlike(P, cfg, one, input, dst, n, i + 1);
    TurnAlike(cfg, s, input, dst, n, i, one);
  }

  lemma {:induction false} RestIsAlike(
    P: Shard -> bool, cfg: Config, one: Result<(Shard, Token)>, input: Input, dst: Addr, n: nat, i: nat)
    requires (one.Ok? ==> P(one.value.0)) && i <= n && 3 * n + 2 <= |input.args|
    requires forall j :: i <= j < n ==> SendsAlike(P, cfg, input, dst, ItemAt(input.args, 2, j))
    ensures RestAlike(cfg, one, input, dst, n, i)
    decreases n - i, 3
  {
    if one.Ok? {
      SendItemsAlike(P, cfg, one.value.0, input, dst, n, i);
    }
  }

  lemma SendItemsSame(cfg: Config, s: Shard, input: Input, dst: Addr, n: nat)
    requires CountsLiquidity(cfg) && LiquidityInv(s) && cfg.shardOf(input.caller) == s.id
    requires ValidItems(input.args, 2, n)
    ensures SendItems(Off(cfg), s, input, dst, n, 0) == SendItems(cfg, s, input, dst, n, 0)
  {
    var P := (x: Shard) => LiquidityInv(x) && x.id == cfg.shardOf(input.caller);
    forall j | 0 <= j < n
      ensures SendsAlike(P, cfg, input, dst, ItemAt(input.args, 2, j))
    {
      SendOneAlike(P, cfg, input, dst, ItemAt(input.args, 2, j));
    }
    SendItemsAlike(P, cfg, s, input, dst, n, 0);
  }

  lemma SendOneAlike(P: Shard -> bool, cfg: Config, input: Input, dst: Addr, item: Item)
    requires CountsLiquidity(cfg) && ValidToken(item.token)
    requires forall x :: P(x) <==> LiquidityInv(x) && x.id == cfg.shardOf(input.caller)
    ensures SendsAlike(P, cfg, input, dst, item)
  {
    forall x | P(x)
      ensures var one := SendOne(cfg, x, input, dst, item);
              SendOne(Off(cfg), x, input, dst, item) == one && (one.Ok? ==> P(one.value.0))
    {
      SendOneSame(cfg, x, input, dst, item);
      SendOneKeeps(cfg, x, input, dst, item);
    }
  }

  lemma PayloadSame(cfg: Config, s: Shard, x: Sent, dst: Addr, gas: nat)
    ensures EncodePayload(Off(cfg), s, x, dst, gas) == EncodePayload(cfg, s, x, dst, gas)
  {
  }

  lemma EncodeTurnSame(
    cfg: Config, s: Shard, sent: seq<Sent>, dst: Addr, gas: nat, i: nat, one: Result<(Shard, bytes, nat)>)
    requires i < |sent|
    requires one == EncodePayload(cfg, s, sent[i], dst, gas) && one == EncodePayload(Off(cfg), s, sent[i], dst, gas)
    requires one.Ok? ==>
               EncodeItems(Off(cfg), one.value.0, sent, dst, one.value.2, i + 1)
               == EncodeItems(cfg, one.value.0, sent, dst, one.value.2, i + 1)
    ensures EncodeItems(Off(cfg), s, sent, dst, gas, i) == EncodeItems(cfg, s, sent, dst, gas, i)
  {
  }

  lemma {:induction false} EncodeItemsSame(cfg: Config, s: Shard, sent: seq<Sent>, dst: Addr, gas: nat, i: nat)
    requires i <= |sent|
    ensures EncodeItems(Off(cfg), s, sent, dst, gas, i) == EncodeItems(cfg, s, sent, dst, gas, i)
    decreases |sent| - i, 1
  {
    if i < |sent| {
      PayloadSame(cfg, s, sent[i], dst, gas);
      EncodeGoesOn(cfg, s, sent, dst, gas, i, EncodePayload(cfg, s, sent[i], dst, gas));
    }
  }

  lemma {:induction false} EncodeGoesOn(
    cfg: Config, s: Shard, sent: seq<Sent>, dst: Addr, gas: nat, i: nat, one: Result<(Shard, bytes, nat)>)
    requires i < |sent|
    requires one == EncodePayload(cfg, s, sent[i], dst, gas) && one == EncodePayload(Off(cfg), s, sent[i], dst, gas)
    ensures EncodeItems(Off(cfg), s, sent, dst, gas, i) == EncodeItems(cfg, s, sent, dst, gas, i)
    decreases |sent| - i, 0
  {
    if one.Ok? {
      EncodeItemsSame(cfg, one.value.0, sent, dst, one.value.2, i + 1);
    }
    EncodeTurnSame(cfg, s, sent, dst, gas, i, one);
  }

  lemma SendAllSame(cfg: Config, s: Shard, input: Input, dst: Addr, n: nat, gas: nat)
    requires CountsLiquidity(cfg) && LiquidityInv(s) && cfg.shardOf(input.caller) == s.id
    requires ValidItems(input.args, 2, n)
    ensures SendAll(Off(cfg), s, input, dst, n, gas) == SendAll(cfg, s, input, dst, n, gas)
  {
    hide SendItems, EncodeItems;
    SendItemsSame(cfg, s, input, dst, n);
    var all := SendItems(cfg, s, input, dst, n, 0);
    if all.Ok? {
      SentLength(cfg, s, input, dst, n, 0);
      EncodeItemsSame(cfg, all.value.0, all.value.1, dst, gas, 0);
    }
  }

  lemma SendMultiSame(cfg: Config, s: Shard, input: Input)
    requires CountsLiquidity(cfg) && LiquidityInv(s) && cfg.shardOf(input.caller) == s.id
    requires |input.args| >= 4
    requires var n := U64(SetBytes(input.args[1])); 3 * n + 2 <= |input.args| ==> ValidItems(input.args, 2, n)
    ensures SendMulti(Off(cfg), s, input) == SendMulti(cfg, s, input)
  {
    hide SendAll;
    var n := U64(SetBytes(input.args[1]));
    if 3 * n + 2 <= |input.args| && input.gasProvided >= U64(n * cfg.multiGas) {
      SendAllSame(cfg, s, input, input.args[0], n, input.gasProvided - U64(n * cfg.multiGas));
    }
  }

  lemma AlreadySentSame(cfg: Config, s: Shard, token: bytes, nonce: nat, dst: Addr)
    ensures AlreadySent(Off(cfg), s, token, nonce, dst) == AlreadySent(cfg, s, token, nonce, dst)
  {
  }

  lemma NftOutputSame(cfg: Config, s: Shard, input: Input, t: Token, gas: nat)
    requires |input.args| >= NFT_MIN_ARGS
    ensures NftOutput(Off(cfg), s, input, t, gas) == NftOutput(cfg, s, input, t, gas)
  {
    hide AlreadySent;
    AlreadySentSame(cfg, s, input.args[0], NftItem(input.args).nonce, input.args[3]);
  }

  lemma SendNftSame(cfg: Config, s: Shard, input: Input)
    requires CountsLiquidity(cfg) && LiquidityInv(s) && cfg.shardOf(input.caller) == s.id
    requires |input.args| >= NFT_MIN_ARGS && ValidToken(input.args[0])
    ensures SendNft(Off(cfg), s, input) == SendNft(cfg, s, input)
  {
    hide Debit, Settle, NftOutput;
    var item, dst := NftItem(input.args), input.args[3];
    DebitSame(cfg, s, input, item);
    var debited := Debit(cfg, s, input, item);
    if debited.Ok? && input.gasProvided >= cfg.nftGas {
      SettleSame(cfg, s, input, dst, item, debited.value.0, debited.value.1);
      var settled := Settle(cfg, debited.value.0, input, dst, item, debited.value.1);
      if settled.Ok? {
        NftOutputSame(cfg, settled.value.0, input, settled.value.1, input.gasProvided - cfg.nftGas);
      }
    }
  }

  // ----- the receiver's side -----

  lemma CreditFarSame(cfg: Config, s: Shard, input: Input, snd: Addr, dst: Addr, t: Token, token: bytes, nonce: uint64)
    requires CountsLiquidity(cfg) && LiquidityInv(s) && ValidToken(token)
    requires cfg.shardOf(snd) != cfg.shardOf(dst) && t.value >= 0
    ensures Credit(Off(cfg), s, input, snd, dst, t, token, nonce) == Credit(cfg, s, input, snd, dst, t, token, nonce)
  {
    hide SaveWithLiquidity;
    var here := TokenAt(cfg, s, dst, token, nonce);
    TokenAtFacts(cfg, s, dst, token, nonce);
    TokenAtSame(cfg, s, dst, token, nonce);
    SaveWithLiquiditySame(cfg, s, input, snd, dst, token, nonce, t.(value := t.value + here.value), false, t.value);
  }

  lemma ReceiveOneSame(cfg: Config, s: Shard, input: Input, x: Sent)
    requires CountsLiquidity(cfg) && LiquidityInv(s)
    requires cfg.shardOf(input.caller) != cfg.shardOf(input.recipient)
    requires ValidToken(x.item.token) && x.tok.value >= 0
    ensures ReceiveOne(Off(cfg), s, input, x) == ReceiveOne(cfg, s, input, x)
  {
    if x.item.nonce > 0 {
      CreditFarSame(cfg, s, input, input.caller, input.recipient, x.tok, x.item.token, x.item.nonce);
    }
  }

  /** From every state with `P` the item is received alike and `P` is kept. */
  ghost predicate ReceivesAlike(P: Shard -> bool, cfg: Config, input: Input, x: Sent) {
    forall s {:trigger ReceiveOne(cfg, s, input, x)} :: P(s) ==>
      var one := ReceiveOne(cfg, s, input, x);
      ReceiveOne(Off(cfg), s, input, x) == one && (one.Ok? ==> P(one.value))
  }

  lemma ReceiveTurnAlike(cfg: Config, s: Shard, input: Input, n: nat, i: nat, x: Sent, one: Result<Shard>)
    requires i < n && 3 * n + 1 <= |input.args| && DecodeItem(cfg, input.args, i) == Ok(x)
    requires one == ReceiveOne(cfg, s, input, x) && one == ReceiveOne(Off(cfg), s, input, x)
    requires one.Ok? ==>
               ReceiveItems(Off(cfg), one.value, input, n, i + 1) == ReceiveItems(cfg, one.value, input, n, i + 1)
    ensures ReceiveItems(Off(cfg), s, input, n, i) == ReceiveItems(cfg, s, input, n, i)
  {
  }

  lemma {:induction false} ReceiveItemsAlike(P: Shard -> bool, cfg: Config, s: Shard, input: Input, n: nat, i: nat)
    requires P(s) && i <= n && 3 * n + 1 <= |input.args|
    requires forall j :: i <= j < n && DecodeItem(cfg, input.args, j).Ok? ==>
               ReceivesAlike(P, cfg, input, DecodeItem(cfg, input.args, j).value)
    ensures ReceiveItems(Off(cfg), s, input, n, i) == ReceiveItems(cfg, s, input, n, i)
    decreases n - i, 1
  {
    if i < n && DecodeItem(cfg, input.args, i).Ok? {
      var x := DecodeItem(cfg, input.args, i).value;
      OneReceivedAlike(P, cfg, s, input, x);
      ReceivingGoesOn(P, cfg, s, input, n, i, x, ReceiveOne(cfg, s, input, x));
    }
  }

  lemma OneReceivedAlike(P: Shard -> bool, cfg: Config, s: Shard, input: Input, x: Sent)
    requires P(s) && ReceivesAlike(P, cfg, input, x)
    ensures var one := ReceiveOne(cfg, s, input, x);
            ReceiveOne(Off(cfg), s, input, x) == one && (one.Ok? ==> P(one.value))
  {
  }

  lemma {:induction false} ReceivingGoesOn(
    P: Shard -> bool, cfg: Config, s: Shard, input: Input, n: nat, i: nat, x: Sent, one: Result<Shard>)
    requires i < n && 3 * n + 1 <= |input.args| && DecodeItem(cfg, input.args, i) == Ok(x)
    requires one == ReceiveOne(cfg, s, input, x) && one == ReceiveOne(Off(cfg), s, input, x)
    requires one.Ok? ==> P(one.value)
    requires forall j :: i < j < n && DecodeItem(cfg, input.args, j).Ok? ==>
               ReceivesAlike(P, cfg, input, DecodeItem(cfg, input.args, j).value)
    ensures ReceiveItems(Off(cfg), s, input, n, i) == ReceiveItems(cfg, s, input, n, i)
    decreases n - i, 0
  {
    hide ReceiveOne;
    if one.Ok? {
      ReceiveItemsAlike(P, cfg, one.value, input, n, i + 1);
    }
    ReceiveTurnAlike(cfg, s, input, n, i, x, one);
  }

  lemma ReceiveItemsSame(cfg: Config, s: Shard, input: Input, n: nat)
    requires CountsLiquidity(cfg) && LiquidityInv(s)
    requires cfg.shardOf(input.caller) != cfg.shardOf(input.recipient)
    requires ValidPayloads(cfg, input.args, n)
    ensures ReceiveItems(Off(cfg), s, input, n, 0) == ReceiveItems(cfg, s, input, n, 0)
  {
    var P := (x: Shard) => LiquidityInv(x);
    forall j | 0 <= j < n && DecodeItem(cfg, input.args, j).Ok?
      ensures ReceivesAlike(P, cfg, input, DecodeItem(cfg, input.args, j).value)
    {
      ReceiveOneAlike(P, cfg, input, DecodeItem(cfg, input.args, j).value);
    }
    ReceiveItemsAlike(P, cfg, s, input, n, 0);
  }

  lemma ReceiveOneAlike(P: Shard -> bool, cfg: Config, input: Input, x: Sent)
    requires CountsLiquidity(cfg) && cfg.shardOf(input.caller) != cfg.shardOf(input.recipient)
    requires ValidToken(x.item.token) && x.tok.value >= 0
    requires forall s :: P(s) <==> LiquidityInv(s)
    ensures ReceivesAlike(P, cfg, input, x)
  {
    forall s | P(s)
      ensures var one := ReceiveOne(cfg, s, input, x);
              ReceiveOne(Off(cfg), s, input, x) == one && (one.Ok? ==> P(one.value))
    {
      ReceiveOneSame(cfg, s, input, x);
      ReceiveOneKeeps(cfg, s, input, x);
    }
  }

  lemma NftTransferSame(cfg: Config, s: Shard, input: Input)
    requires CountsLiquidity(cfg) && LiquidityInv(s)
    requires |input.args| >= 4 && input.caller != input.recipient
    requires ReadNft(cfg, input.args).Ok? && ValidMove(ReadNft(cfg, input.args).value.0[0])
    ensures NftTransfer(Off(cfg), s, input) == NftTransfer(cfg, s, input)
  {
    if cfg.shardOf(input.caller) != s.id && cfg.shardOf(input.recipient) == s.id {
      var item, t := NftItem(input.args), NftPayload(cfg, input.args).value;
      CreditFarSame(cfg, s, input, input.caller, input.recipient, t, item.token, item.nonce);
    }
  }

  lemma MultiTransferSame(cfg: Config, s: Shard, input: Input)
    requires CountsLiquidity(cfg) && LiquidityInv(s)
    requires |input.args| >= 4 && input.caller != input.recipient
    requires ValidPayloads(cfg, input.args, U64(SetBytes(input.args[0])))
    ensures MultiTransfer(Off(cfg), s, input) == MultiTransfer(cfg, s, input)
  {
    if cfg.shardOf(input.caller) != s.id && cfg.shardOf(input.recipient) == s.id {
      ReceiveItemsSame(cfg, s, input, U64(SetBytes(input.args[0])));
    }
  }

  lemma DeliverSame(cfg: Config, s: Shard, m: Msg, env: Input)
    requires CountsLiquidity(cfg) && LiquidityInv(s) && ValidMessage(cfg, m)
    ensures Deliver(Off(cfg), s, m, env) == Deliver(cfg, s, m, env)
  {
    var (func, args) := Parse(m.data).value;
    var input := DeliveryInput(m, args, env);
    FunctionNames();
    if func == NFT_TRANSFER {
      assert ReadNft(cfg, args).value.0[0] in ReadMessage(cfg, m.data).value.0;
      NftTransferSame(cfg, s, input);
    } else {
      ReceivedTokens(cfg, args);
      MultiTransferSame(cfg, s, input);
    }
  }

  // ----- runs -----

  lemma SendStepSame(cfg: Config, g: Net, step: Step)
    requires CountsLiquidity(cfg) && NetInv(cfg, g) && NamesValidTokens(step)
    requires step.SendingNft? || step.SendingMulti?
    ensures Outcome(Off(cfg), g, step) == Outcome(cfg, g, step)
  {
    hide SendNft, SendMulti;
    var i, input := step.shard, step.input;
    if CanSend(cfg, g, i, input) && |input.args| >= 4 {
      if step.SendingNft? {
        SendNftSame(cfg, g.shards[i], input);
      } else {
        SendMultiSame(cfg, g.shards[i], input);
      }
    }
  }

  lemma ActStepSame(cfg: Config, g: Net, i: nat, action: Action, input: Input)
    requires CountsLiquidity(cfg) && NetInv(cfg, g) && NamesValidTokens(Act(i, action, input))
    ensures Outcome(Off(cfg), g, Act(i, action, input)) == Outcome(cfg, g, Act(i, action, input))
  {
    if i < |g.shards| {
      ActSame(cfg, g.shards[i], action, input);
    }
  }

  lemma DeliveringSame(cfg: Config, g: Net, k: nat, env: Input)
    requires CountsLiquidity(cfg) && NetInv(cfg, g)
    ensures Outcome(Off(cfg), g, Delivering(k, env)) == Outcome(cfg, g, Delivering(k, env))
  {
    if CanReceive(cfg, g, k) {
      var m := g.inflight[k];
      assert ValidMessage(cfg, m);
      DeliverSame(cfg, g.shards[cfg.shardOf(m.dst)], m, env);
    }
  }

  lemma RejectingSame(cfg: Config, g: Net, k: nat, pending: bool)
    requires CountsLiquidity(cfg)
    ensures Outcome(Off(cfg), g, Rejecting(k, pending)) == Outcome(cfg, g, Rejecting(k, pending))
  {
    if CanReceive(cfg, g, k) {
      var m := g.inflight[k];
      SaveMetaDataIdle(cfg, g.shards[cfg.shardOf(m.dst)], m);
      SaveMetaDataIdle(Off(cfg), g.shards[cfg.shardOf(m.dst)], m);
    }
  }

  lemma StepSame(cfg: Config, g: Net, step: Step)
    requires CountsLiquidity(cfg) && NetInv(cfg, g) && NamesValidTokens(step)
    ensures Outcome(Off(cfg), g, step) == Outcome(cfg, g, step)
  {
    match step
    case Act(i, action, input) => ActStepSame(cfg, g, i, action, input);
    case SendingNft(_, _) => SendStepSame(cfg, g, step);
    case SendingMulti(_, _) => SendStepSame(cfg, g, step);
    case Delivering(k, env) => DeliveringSame(cfg, g, k, env);
    case Rejecting(k, pending) => RejectingSame(cfg, g, k, pending);
  }

  lemma {:induction false} RunSame(cfg: Config, g: Net, steps: seq<Step>)
    requires CountsLiquidity(cfg) && Lawful(cfg) && NetInv(cfg, g)
    requires forall k :: 0 <= k < |steps| ==> NamesValidTokens(steps[k])
    ensures Run(Off(cfg), g, steps) == Run(cfg, g, steps)
    decreases |steps|
  {
    if steps != [] {
      StepSame(cfg, g, steps[0]);
      StepKeeps(cfg, g, steps[0]);
      RunSame(cfg, Next(cfg, g, steps[0]), steps[1..]);
    }
  }

  /** Over every run the fix for old tokens makes no difference: each step has the same outcome, errors
      included, and the same state follows. */
  lemma FixMakesNoDifference(cfg: Config, steps: seq<Step>, fix: bool)
    requires CountsLiquidity(cfg) && Lawful(cfg)
    requires forall k :: 0 <= k < |steps| ==> NamesValidTokens(steps[k])
    ensures var other := cfg.(fixOldTokenLiquidity := fix);
            var g := Run(cfg, Genesis(cfg), steps);
            && Run(other, Genesis(other), steps) == g
            && forall step :: NamesValidTokens(step) ==> Outcome(other, g, step) == Outcome(cfg, g, step)
  {
    var other := cfg.(fixOldTokenLiquidity := fix);
    var g := Run(cfg, Genesis(cfg), steps);
    assert Off(other) == Off(cfg) && Genesis(other) == Genesis(cfg);
    GenesisInv(cfg);
    GenesisInv(other);
    RunSame(cfg, Genesis(cfg), steps);
    RunSame(other, Genesis(other), steps);
    RunKeeps(cfg, Genesis(cfg), steps);
    RunKeeps(other, Genesis(other), steps);
    forall step | NamesValidTokens(step)
      ensures Outcome(other, g, step) == Outcome(cfg, g, step)
    {
      StepSame(cfg, g, step);
      StepSame(other, g, step);
    }
  }
}
