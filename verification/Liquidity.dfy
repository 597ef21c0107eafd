// The liquidity counter of a shard's system account: what every operation keeps.
// Flags: SaveToSystemAccount, SendAlways and WipeSingleNFTLiquidityDecrease on, the others free.
module Liquidity {
  import opened Bytes
  import opened Wrappers
  import opened TokenId
  import opened Ledger
  import opened Transfers
  import opened Totals
  import opened Shapes

  ghost predicate CountsLiquidity(cfg: Config) {
    cfg.saveToSystem && cfg.sendAlways && cfg.wipeDecreasesLiquidity
  }

  /** The keys with a nonce: only they have entries and liquidity. */
  ghost predicate NftKey(key: bytes) {
    exists t: bytes, n: uint64 :: ValidToken(t) && n > 0 && key == KeyOf(t, n)
  }

  /** Without an entry nobody holds the token here; an entry that counts equals the sum of the holders. */
  ghost predicate EntryMatches(s: Shard, key: bytes) {
    if key in s.system then
      && s.system[key].meta.Some?
      && (s.system[key].reserved != [] ==> s.system[key].value == Total(s, key) > 0)
    else
      Total(s, key) == 0
  }

  ghost predicate RecordOk(s: Shard, slot: Slot) {
    slot in s.accounts ==>
      && s.accounts[slot].value >= 0
      && (NftKey(slot.key) ==> s.accounts[slot].meta.None?)
  }

  ghost predicate LiquidityInv(s: Shard) {
    && (forall p :: p in s.accounts ==> RecordOk(s, p))
    && (forall key :: NftKey(key) ==> EntryMatches(s, key))
  }

  lemma TokenIsNotNftKey(token: bytes)
    requires ValidToken(token)
    ensures !NftKey(token)
  {
    forall t: bytes, n: uint64 | ValidToken(t) && n > 0
      ensures token != KeyOf(t, n)
    {
      KeyInjective(token, 0, t, n);
    }
  }

  lemma NonceGivesNftKey(token: bytes, n: uint64)
    requires ValidToken(token)
    ensures NftKey(KeyOf(token, n)) <==> n > 0
  {
    if n == 0 {
      TokenIsNotNftKey(token);
    }
  }

  lemma HoldersKnown(s: Shard, slot: Slot)
    requires LiquidityInv(s) && NftKey(slot.key)
    ensures 0 <= Holding(s, slot) <= Total(s, slot.key)
    ensures slot.key !in s.system ==> Holding(s, slot) == 0
  {
    assert forall p :: p in s.accounts ==> RecordOk(s, p);
    HoldingWithinTotal(s, slot);
    assert EntryMatches(s, slot.key);
  }

  /** A write under one key leaves every other key as it was. */
  lemma OtherKeysKept(s: Shard, s1: Shard, slot: Slot)
    requires LiquidityInv(s) && SameExcept(s, s1, slot) && RecordOk(s1, slot)
    ensures forall p :: p in s1.accounts ==> RecordOk(s1, p)
    ensures forall key :: NftKey(key) && key != slot.key ==> EntryMatches(s1, key)
  {
    forall p | p in s1.accounts
      ensures RecordOk(s1, p)
    {
      assert p != slot ==> RecordOk(s, p);
    }
    forall key | NftKey(key) && key != slot.key
      ensures EntryMatches(s1, key)
    {
      assert EntryMatches(s, key);
      TotalAfterWrite(s, s1, slot, key);
    }
  }

  lemma NonNftWriteKeepsInv(s: Shard, s1: Shard, slot: Slot)
    requires LiquidityInv(s) && SameExcept(s, s1, slot) && RecordOk(s1, slot) && !NftKey(slot.key)
    ensures LiquidityInv(s1)
  {
    OtherKeysKept(s, s1, slot);
  }

  /** What saving a token may do to the entry of its key. */
  ghost predicate EntrySaved(s: Shard, s1: Shard, key: bytes) {
    && (key in s1.system ==> s1.system[key].meta.Some?)
    && (key in s.system ==>
          && key in s1.system
          && (s1.system[key].reserved != [] ==>
                s.system[key].reserved != [] && s1.system[key].value == s.system[key].value))
    && (key !in s.system && key in s1.system ==> s1.system[key].value == 0)
  }

  lemma SaveTokenEntry(
    cfg: Config, s: Shard, input: Input, sender: Addr, a: Addr, token: bytes, nonce: nat, t: Token, mustUpdate: bool)
    requires CountsLiquidity(cfg) && nonce > 0
    requires KeyOf(token, nonce) in s.system ==> s.system[KeyOf(token, nonce)].meta.Some?
    requires SaveToken(cfg, s, input, sender, a, token, nonce, t, mustUpdate).Ok?
    ensures var s1 := SaveToken(cfg, s, input, sender, a, token, nonce, t, mustUpdate).value;
            var key := KeyOf(token, nonce);
            && EntrySaved(s, s1, key)
            && (t.meta.None? ==> s1.system == s.system)
            && (t.meta.Some? && mustUpdate && key in s.system ==> s1.system[key].reserved == [])
            && (key in s1.system <==> key in s.system || t.meta.Some?)
  {
  }

  /** The change of liquidity at its own key. */
  lemma AdjustEntry(cfg: Config, s1: Shard, token: bytes, nonce: uint64, delta: int)
    requires CountsLiquidity(cfg) && nonce > 0
    requires var key := KeyOf(token, nonce);
             key in s1.system && s1.system[key].reserved != [] ==>
               && s1.system[key].value + delta == Total(s1, key) >= 0
               && (delta < 0 ==> s1.system[key].value > 0)
    requires KeyOf(token, nonce) in s1.system ==> s1.system[KeyOf(token, nonce)].meta.Some?
    ensures var r := AddLiquidity(cfg, s1, token, nonce, delta);
            && r != Err(InvalidLiquidity)
            && r == AddLiquidity(cfg.(fixOldTokenLiquidity := false), s1, token, nonce, delta)
            && (r.Ok? ==> EntryMatches(r.value, KeyOf(token, nonce)))
  {
    var r := AddLiquidity(cfg, s1, token, nonce, delta);
    if r.Ok? {
      TotalSameAccounts(s1, r.value, KeyOf(token, nonce));
    }
  }

  /** The change of liquidity at the other keys. */
  lemma AdjustOthers(cfg: Config, s1: Shard, token: bytes, nonce: uint64, delta: int)
    requires AddLiquidity(cfg, s1, token, nonce, delta).Ok?
    requires forall p :: p in s1.accounts ==> RecordOk(s1, p)
    requires forall k :: NftKey(k) && k != KeyOf(token, nonce) ==> EntryMatches(s1, k)
    ensures var s2 := AddLiquidity(cfg, s1, token, nonce, delta).value;
            && (forall p :: p in s2.accounts ==> RecordOk(s2, p))
            && (forall k :: NftKey(k) && k != KeyOf(token, nonce) ==> EntryMatches(s2, k))
  {
    var s2 := AddLiquidity(cfg, s1, token, nonce, delta).value;
    AddLiquidityWrites(cfg, s1, token, nonce, delta);
    assert SameExcept(s1, s2, Slot([], KeyOf(token, nonce)));
    forall k | NftKey(k) && k != KeyOf(token, nonce)
      ensures EntryMatches(s2, k)
    {
      TotalSameAccounts(s1, s2, k);
      assert EntryMatches(s1, k);
    }
    forall p | p in s2.accounts
      ensures RecordOk(s2, p)
    {
      assert RecordOk(s1, p);
    }
  }

  /** A record write followed by the matching change of liquidity keeps the invariant; the change
      is never refused as too large, and the branch for old tokens makes no difference. */
  lemma AdjustKeepsInv(cfg: Config, s: Shard, s1: Shard, slot: Slot, token: bytes, nonce: uint64, delta: int)
    requires CountsLiquidity(cfg) && LiquidityInv(s)
    requires ValidToken(token) && nonce > 0 && slot.key == KeyOf(token, nonce)
    requires SameExcept(s, s1, slot) && RecordOk(s1, slot) && EntrySaved(s, s1, slot.key)
    requires || Holding(s1, slot) == Holding(s, slot) + delta
             || (slot.key in s1.system && s1.system[slot.key].reserved == [])
    ensures var r := AddLiquidity(cfg, s1, token, nonce, delta);
            && r != Err(InvalidLiquidity)
            && r == AddLiquidity(cfg.(fixOldTokenLiquidity := false), s1, token, nonce, delta)
            && (r.Ok? ==> LiquidityInv(r.value))
  {
    var key := slot.key;
    NonceGivesNftKey(token, nonce);
    OtherKeysKept(s, s1, slot);
    TotalAfterWrite(s, s1, slot, key);
    assert EntryMatches(s, key);
    HoldersKnown(s, slot);
    assert NonNegative(s1) by {
      assert forall p :: p in s1.accounts ==> RecordOk(s1, p);
    }
    HoldingWithinTotal(s1, slot);
    AdjustEntry(cfg, s1, token, nonce, delta);
    if AddLiquidity(cfg, s1, token, nonce, delta).Ok? {
      AdjustOthers(cfg, s1, token, nonce, delta);
    }
  }

  /** The outcome keeps the invariant and is not the refusal for too little liquidity. */
  ghost predicate Keeps(r: Result<Shard>) {
    r != Err(InvalidLiquidity) && (r.Ok? ==> LiquidityInv(r.value))
  }

  /** Saving a token and changing the liquidity by what the holding changes. */
  lemma SaveWithLiquidityKeeps(
    cfg: Config, s: Shard, input: Input, sender: Addr, a: Addr, token: bytes, nonce: uint64, t: Token,
    mustUpdate: bool, delta: int)
    requires CountsLiquidity(cfg) && LiquidityInv(s) && ValidToken(token)
    requires || (t.value >= 0 && t.value == Holding(s, Slot(a, KeyOf(token, nonce))) + delta)
             || (mustUpdate && t.meta.Some? && t.value == delta > 0)
    ensures Keeps(SaveWithLiquidity(cfg, s, input, sender, a, token, nonce, t, mustUpdate, delta))
  {
    var slot := Slot(a, KeyOf(token, nonce));
    var saved := SaveToken(cfg, s, input, sender, a, token, nonce, t, mustUpdate);
    if saved.Ok? {
      SaveTokenWrites(cfg, s, input, sender, a, token, nonce, t, mustUpdate);
      NonceGivesNftKey(token, nonce);
      if nonce == 0 {
        NonNftWriteKeepsInv(s, saved.value, slot);
      } else {
        assert EntryMatches(s, slot.key);
        HoldersKnown(s, slot);
        SaveTokenEntry(cfg, s, input, sender, a, token, nonce, t, mustUpdate);
        AdjustKeepsInv(cfg, s, saved.value, slot, token, nonce, delta);
      }
    }
  }

  lemma TokenAtFacts(cfg: Config, s: Shard, a: Addr, token: bytes, nonce: uint64)
    requires CountsLiquidity(cfg) && LiquidityInv(s) && ValidToken(token)
    ensures var t := TokenAt(cfg, s, a, token, nonce);
            var slot := Slot(a, KeyOf(token, nonce));
            && t.value == Holding(s, slot) >= 0
            && (nonce > 0 && t.meta.Some? ==> slot.key in s.system)
            && (nonce > 0 && t.value > 0 ==> slot.key in s.system)
  {
    var slot := Slot(a, KeyOf(token, nonce));
    assert slot in s.accounts ==> RecordOk(s, slot);
    NonceGivesNftKey(token, nonce);
    if nonce > 0 {
      HoldersKnown(s, slot);
    }
  }

  lemma OneOfKeeps(r: Result<Shard>, r1: Result<Shard>, r2: Result<Shard>)
    requires Keeps(r1) && Keeps(r2)
    requires RefusedOr(r, r1) || r == r2
    ensures Keeps(r)
  {
  }

  // ----- the built-in functions of one account -----

  lemma CreateKeeps(cfg: Config, s: Shard, input: Input, latest: uint64)
    requires CountsLiquidity(cfg) && LiquidityInv(s)
    requires |input.args| > 0 && ValidToken(input.args[0])
    ensures Keeps(Create(cfg, s, input, latest))
  {
    var nonce := U64(latest + 1);
    if |input.args| >= 7 && RoleHolder(input).Ok? && CreatedToken(input, nonce).value > 0 {
      var t, owner := CreatedToken(input, nonce), RoleHolder(input).value;
      SaveWithLiquidityKeeps(cfg, s, input, owner, owner, input.args[0], nonce, t, true, t.value);
    }
  }

  lemma DepositKeeps(cfg: Config, s: Shard, input: Input, token: bytes, nonce: uint64, value: nat)
    requires CountsLiquidity(cfg) && LiquidityInv(s) && ValidToken(token)
    ensures Keeps(Deposit(cfg, s, input, token, nonce, TokenAt(cfg, s, input.caller, token, nonce), value))
  {
    hide SaveWithLiquidity, LiquidityInv;
    var a, t := input.caller, TokenAt(cfg, s, input.caller, token, nonce);
    TokenAtFacts(cfg, s, a, token, nonce);
    SaveWithLiquidityKeeps(cfg, s, input, a, a, token, nonce, t.(value := t.value + value), false, value);
    var last := SaveWithLiquidity(cfg, s, input, a, a, token, nonce, t.(value := t.value + value), false, value);
    OneOfKeeps(Deposit(cfg, s, input, token, nonce, t, value), last, last);
  }

  lemma AddQuantityKeeps(cfg: Config, s: Shard, input: Input)
    requires CountsLiquidity(cfg) && LiquidityInv(s)
    requires |input.args| > 0 && ValidToken(input.args[0])
    ensures Keeps(AddQuantity(cfg, s, input))
  {
    if |input.args| >= 3 {
      var token, nonce, value := input.args[0], U64(SetBytes(input.args[1])), SetBytes(input.args[2]);
      AddQuantityShape(cfg, s, input, token, nonce, value);
      DepositKeeps(cfg, s, input, token, nonce, value);
      var last := Deposit(cfg, s, input, token, nonce, TokenAt(cfg, s, input.caller, token, nonce), value);
      OneOfKeeps(AddQuantity(cfg, s, input), last, last);
    }
  }

  lemma WithdrawKeeps(cfg: Config, s: Shard, input: Input, token: bytes, nonce: uint64, value: int)
    requires CountsLiquidity(cfg) && LiquidityInv(s) && ValidToken(token)
    ensures Keeps(Withdraw(cfg, s, input, token, nonce, TokenAt(cfg, s, input.caller, token, nonce), value))
  {
    hide SaveWithLiquidity, LiquidityInv;
    var a, t := input.caller, TokenAt(cfg, s, input.caller, token, nonce);
    if t.value >= value {
      TokenAtFacts(cfg, s, a, token, nonce);
      SaveWithLiquidityKeeps(cfg, s, input, a, a, token, nonce, t.(value := t.value - value), false, -value);
      var last := SaveWithLiquidity(cfg, s, input, a, a, token, nonce, t.(value := t.value - value), false, -value);
      OneOfKeeps(Withdraw(cfg, s, input, token, nonce, t, value), last, last);
    }
  }

  lemma BurnKeeps(cfg: Config, s: Shard, input: Input)
    requires CountsLiquidity(cfg) && LiquidityInv(s)
    requires |input.args| > 0 && ValidToken(input.args[0])
    ensures Keeps(Burn(cfg, s, input))
  {
    if |input.args| >= 3 {
      var token, nonce, value := input.args[0], U64(SetBytes(input.args[1])), SetBytes(input.args[2]);
      BurnShape(cfg, s, input, token, nonce, value);
      WithdrawKeeps(cfg, s, input, token, nonce, value);
      var last := Withdraw(cfg, s, input, token, nonce, TokenAt(cfg, s, input.caller, token, nonce), value);
      OneOfKeeps(Burn(cfg, s, input), last, last);
    }
  }

  /** An update rewrites the entry without Reserved: it stops counting, which is why the equality
      with the holders is claimed only for entries that count. */
  lemma UpdateKeeps(cfg: Config, s: Shard, input: Input)
    requires CountsLiquidity(cfg) && LiquidityInv(s)
    requires |input.args| > 0 && ValidToken(input.args[0])
    ensures Keeps(UpdateAttributes(cfg, s, input))
    ensures UpdateAttributes(cfg, s, input).Ok? ==>
              var key := KeyOf(input.args[0], U64(SetBytes(input.args[1])));
              var s1 := UpdateAttributes(cfg, s, input).value;
              key in s1.system && s1.system[key].reserved == [] && s1.system[key].value == 0
  {
    var r := UpdateAttributes(cfg, s, input);
    if r.Ok? {
      var a, token, nonce := input.caller, input.args[0], U64(SetBytes(input.args[1]));
      var slot := Slot(a, KeyOf(token, nonce));
      TokenAtFacts(cfg, s, a, token, nonce);
      var t := TokenAt(cfg, s, a, token, nonce);
      var t1 := t.(meta := Some(t.meta.value.(attributes := input.args[2])));
      SaveTokenWrites(cfg, s, input, a, a, token, nonce, t1, true);
      NonceGivesNftKey(token, nonce);
      assert EntryMatches(s, slot.key);
      SaveTokenEntry(cfg, s, input, a, a, token, nonce, t1, true);
      OtherKeysKept(s, r.value, slot);
      assert EntryMatches(r.value, slot.key);
    }
  }

  lemma SetFrozenKeeps(cfg: Config, s: Shard, input: Input, frozen: bool)
    requires LiquidityInv(s)
    ensures Keeps(SetFrozen(cfg, s, input, frozen))
  {
    var r := SetFrozen(cfg, s, input, frozen);
    if r.Ok? {
      var slot := Slot(input.recipient, input.args[0]);
      assert slot in s.accounts ==> RecordOk(s, slot);
      OtherKeysKept(s, r.value, slot);
      TotalAfterWrite(s, r.value, slot, slot.key);
      assert NftKey(slot.key) ==> EntryMatches(s, slot.key);
    }
  }

  lemma DropWrites(s: Shard, slot: Slot)
    requires NftKey(slot.key) ==> EntryMatches(s, slot.key)
    ensures var s1 := Drop(s, slot);
            SameExcept(s, s1, slot) && RecordOk(s1, slot) && Holding(s1, slot) == 0
    ensures NftKey(slot.key) ==> EntrySaved(s, Drop(s, slot), slot.key)
  {
  }

  lemma NoNonceNoAdjusting(cfg: Config, s: Shard, token: bytes, delta: int)
    ensures AddLiquidity(cfg, s, token, 0, delta) == Ok(s)
  {
  }

  lemma DropThenAdjustKeeps(cfg: Config, s: Shard, slot: Slot, token: bytes, nonce: uint64)
    requires CountsLiquidity(cfg) && LiquidityInv(s)
    requires ValidToken(token) && slot.key == KeyOf(token, nonce)
    ensures Keeps(AddLiquidity(cfg, Drop(s, slot), token, nonce, -Holding(s, slot)))
  {
    NonceGivesNftKey(token, nonce);
    assert NftKey(slot.key) ==> EntryMatches(s, slot.key);
    hide LiquidityInv, SameExcept, RecordOk, EntrySaved, EntryMatches, NftKey, KeyOf, AddLiquidity;
    DropWrites(s, slot);
    if nonce == 0 {
      NoNonceNoAdjusting(cfg, Drop(s, slot), token, -Holding(s, slot));
      NonNftWriteKeepsInv(s, Drop(s, slot), slot);
    } else {
      AdjustKeepsInv(cfg, s, Drop(s, slot), slot, token, nonce, -Holding(s, slot));
    }
  }

  lemma ExtractedExactly(token: bytes, nonce: uint64)
    requires ValidToken(token) && DASH !in ToBytes(nonce)
    ensures ExtractWipe(KeyOf(token, nonce)) == (token, nonce)
  {
    if nonce == 0 {
      ExtractAfterToken(token, []);
      assert token + [] == token;
    } else {
      ExtractUndoesKey(token, nonce);
    }
  }

  /** Wiping keeps the invariant when the argument is a valid identifier and a nonce without a dash byte. */
  lemma WipeKeeps(cfg: Config, s: Shard, input: Input, token: bytes, nonce: uint64)
    requires CountsLiquidity(cfg) && LiquidityInv(s)
    requires ValidToken(token) && DASH !in ToBytes(nonce)
    requires |input.args| > 0 && input.args[0] == KeyOf(token, nonce)
    ensures Keeps(Wipe(cfg, s, input))
  {
    var slot := Slot(input.recipient, input.args[0]);
    ExtractedExactly(token, nonce);
    DropThenAdjustKeeps(cfg, s, slot, token, nonce);
    var last := AddLiquidity(cfg, Drop(s, slot), token, nonce, -Holding(s, slot));
    OneOfKeeps(Wipe(cfg, s, input), last, last);
  }

  lemma AddToBalanceKeeps(cfg: Config, s: Shard, input: Input, a: Addr, token: bytes, delta: int)
    requires LiquidityInv(s) && ValidToken(token)
    ensures Keeps(AddToBalance(cfg, s, input, a, token, delta))
  {
    var r := AddToBalance(cfg, s, input, a, token, delta);
    if r.Ok? {
      AddToBalanceWrites(cfg, s, input, a, token, delta);
      TokenIsNotNftKey(token);
      NonNftWriteKeepsInv(s, r.value, Slot(a, token));
    }
  }

  lemma MintOrBurnKeeps(cfg: Config, s: Shard, input: Input, sign: int)
    requires LiquidityInv(s) && |input.args| > 0 && ValidToken(input.args[0])
    ensures Keeps(MintOrBurn(cfg, s, input, sign))
  {
    if |input.args| >= 2 {
      AddToBalanceKeeps(cfg, s, input, input.caller, input.args[0], sign * SetBytes(input.args[1]));
    }
  }

  lemma FungibleLegsKeep(cfg: Config, s: Shard, input: Input, token: bytes, value: int)
    requires LiquidityInv(s) && ValidToken(token)
    ensures var debited := FungibleDebit(cfg, s, input, token, value);
            Keeps(debited) && Keeps(FungibleCredit(cfg, debited, input, token, value))
  {
    var debited := FungibleDebit(cfg, s, input, token, value);
    FungibleDebitKeeps(cfg, s, input, token, value);
    if debited.Ok? {
      AddToBalanceKeeps(cfg, debited.value, input, input.recipient, token, value);
      var last := AddToBalance(cfg, debited.value, input, input.recipient, token, value);
      OneOfKeeps(FungibleCredit(cfg, debited, input, token, value), last, last);
    }
  }

  lemma FungibleDebitKeeps(cfg: Config, s: Shard, input: Input, token: bytes, value: int)
    requires LiquidityInv(s) && ValidToken(token)
    ensures Keeps(FungibleDebit(cfg, s, input, token, value))
  {
    AddToBalanceKeeps(cfg, s, input, input.caller, token, -value);
    var last := if cfg.shardOf(input.caller) == s.id
                then AddToBalance(cfg, s, input, input.caller, token, -value)
                else Ok(s);
    OneOfKeeps(FungibleDebit(cfg, s, input, token, value), last, last);
  }

  lemma FungibleTransferKeeps(cfg: Config, s: Shard, input: Input)
    requires LiquidityInv(s) && |input.args| > 0 && ValidToken(input.args[0])
    ensures Keeps(FungibleTransfer(cfg, s, input))
  {
    if |input.args| >= 2 {
      var token, value: int := input.args[0], SetBytes(input.args[1]);
      var debited := FungibleDebit(cfg, s, input, token, value);
      FungibleTransferShape(cfg, s, input, value);
      FungibleLegsKeep(cfg, s, input, token, value);
      OneOfKeeps(FungibleTransfer(cfg, s, input), debited, FungibleCredit(cfg, debited, input, token, value));
    }
  }

  // ----- transfers -----

  ghost predicate KeepsPair<T>(r: Result<(Shard, T)>) {
    r != Err(InvalidLiquidity) && (r.Ok? ==> LiquidityInv(r.value.0))
  }

  /** A credit that arrives from another shard raises the liquidity by what it adds. */
  lemma CreditFromAfarKeeps(
    cfg: Config, s: Shard, input: Input, snd: Addr, dst: Addr, t: Token, token: bytes, nonce: uint64)
    requires CountsLiquidity(cfg) && LiquidityInv(s) && ValidToken(token)
    requires cfg.shardOf(snd) != cfg.shardOf(dst) && t.value >= 0
    ensures KeepsPair(Credit(cfg, s, input, snd, dst, t, token, nonce))
  {
    TokenAtFacts(cfg, s, dst, token, nonce);
    var sum := t.(value := t.value + TokenAt(cfg, s, dst, token, nonce).value);
    CreditFarShape(cfg, s, input, snd, dst, t, token, nonce);
    SaveWithLiquidityKeeps(cfg, s, input, snd, dst, token, nonce, sum, false, t.value);
    PairKeeps(Credit(cfg, s, input, snd, dst, t, token, nonce),
              SaveWithLiquidity(cfg, s, input, snd, dst, token, nonce, sum, false, t.value));
  }

  lemma SavedThenAdjustKeeps(
    cfg: Config, s: Shard, s1: Shard, input: Input, a: Addr, token: bytes, nonce: uint64, left: Token, delta: int)
    requires CountsLiquidity(cfg) && LiquidityInv(s) && ValidToken(token)
    requires Ok(s1) == SaveToken(cfg, s, input, a, a, token, nonce, left, false)
    requires left.value >= 0 && left.value == Holding(s, Slot(a, KeyOf(token, nonce))) + delta
    ensures Keeps(AddLiquidity(cfg, s1, token, nonce, delta))
  {
    SaveWithLiquidityKeeps(cfg, s, input, a, a, token, nonce, left, false, delta);
  }

  /** A debit whose credit lies in another shard lowers the liquidity by what it takes. */
  lemma SendAwayKeeps(cfg: Config, s: Shard, input: Input, dst: Addr, item: Item, s1: Shard, t: Token)
    requires CountsLiquidity(cfg) && LiquidityInv(s) && ValidToken(item.token)
    requires cfg.shardOf(dst) != s.id
    requires Debit(cfg, s, input, item) == Ok((s1, t))
    ensures KeepsPair(Settle(cfg, s1, input, dst, item, t))
  {
    var a, delta := input.caller, -(item.value as int);
    DebitShape(cfg, s, input, item);
    TokenAtFacts(cfg, s, a, item.token, item.nonce);
    var before := TokenAt(cfg, s, a, item.token, item.nonce);
    SavedThenAdjustKeeps(cfg, s, s1, input, a, item.token, item.nonce, before.(value := before.value + delta), delta);
    SettleFarShape(cfg, s1, input, dst, item, t);
    PairKeeps(Settle(cfg, s1, input, dst, item, t), AddLiquidity(cfg, s1, item.token, item.nonce, delta));
  }

  lemma PairKeeps(r: Result<(Shard, Token)>, last: Result<Shard>)
    requires Keeps(last)
    requires (r.Err? && r.error != InvalidLiquidity) || SameOutcome(r, last)
    ensures KeepsPair(r)
  {
  }

  /** Two writes under one key that cancel out, with no entry appearing from nothing. */
  lemma CancellingWritesKeepInv(s: Shard, s1: Shard, s2: Shard, slot1: Slot, slot2: Slot)
    requires LiquidityInv(s) && slot1.key == slot2.key
    requires SameExcept(s, s1, slot1) && SameExcept(s1, s2, slot2)
    requires RecordOk(s1, slot1) && RecordOk(s2, slot2)
    requires Holding(s1, slot1) - Holding(s, slot1) + Holding(s2, slot2) - Holding(s1, slot2) == 0
    requires EntrySaved(s, s1, slot1.key) && EntrySaved(s1, s2, slot1.key)
    requires slot1.key in s2.system ==> slot1.key in s.system
    ensures LiquidityInv(s2)
  {
    var key := slot1.key;
    TotalAfterWrite(s, s1, slot1, key);
    TotalAfterWrite(s1, s2, slot2, key);
    OtherKeysKept(s, s1, slot1);
    forall p | p in s2.accounts
      ensures RecordOk(s2, p)
    {
      assert p != slot2 ==> RecordOk(s1, p);
    }
    forall k | NftKey(k)
      ensures EntryMatches(s2, k)
    {
      assert EntryMatches(s, k);
      if k != key {
        TotalAfterWrite(s1, s2, slot2, k);
        assert EntryMatches(s1, k);
      }
    }
  }

  /** Two saves under one key, the second putting back what the first took. */
  lemma TwoSavesKeep(
    cfg: Config, s: Shard, s1: Shard, s2: Shard, input: Input, a: Addr, b: Addr, token: bytes, nonce: uint64,
    left: Token, sum: Token)
    requires CountsLiquidity(cfg) && LiquidityInv(s) && ValidToken(token)
    requires Ok(s1) == SaveToken(cfg, s, input, a, a, token, nonce, left, false)
    requires Ok(s2) == SaveToken(cfg, s1, input, a, b, token, nonce, sum, false)
    requires left.value >= 0 && sum.value >= 0 && left.meta == sum.meta
    requires left.meta.Some? && nonce > 0 ==> KeyOf(token, nonce) in s.system
    requires var key := KeyOf(token, nonce);
             left.value - Holding(s, Slot(a, key)) + sum.value - Holding(s1, Slot(b, key)) == 0
    ensures LiquidityInv(s2)
  {
    var key := KeyOf(token, nonce);
    SaveTokenWrites(cfg, s, input, a, a, token, nonce, left, false);
    SaveTokenWrites(cfg, s1, input, a, b, token, nonce, sum, false);
    NonceGivesNftKey(token, nonce);
    if nonce == 0 {
      NonNftWriteKeepsInv(s, s1, Slot(a, key));
      NonNftWriteKeepsInv(s1, s2, Slot(b, key));
    } else {
      assert EntryMatches(s, key);
      SaveTokenEntry(cfg, s, input, a, a, token, nonce, left, false);
      SaveTokenEntry(cfg, s1, input, a, b, token, nonce, sum, false);
      CancellingWritesKeepInv(s, s1, s2, Slot(a, key), Slot(b, key));
    }
  }

  lemma DestinationHolding(
    cfg: Config, s: Shard, s1: Shard, input: Input, a: Addr, b: Addr, token: bytes, nonce: uint64, left: Token)
    requires CountsLiquidity(cfg) && LiquidityInv(s) && ValidToken(token)
    requires Ok(s1) == SaveToken(cfg, s, input, a, a, token, nonce, left, false)
    ensures TokenAt(cfg, s1, b, token, nonce).value == Holding(s1, Slot(b, KeyOf(token, nonce))) >= 0
  {
    SaveTokenWrites(cfg, s, input, a, a, token, nonce, left, false);
    var slot := Slot(b, KeyOf(token, nonce));
    assert slot in s.accounts ==> RecordOk(s, slot);
  }

  /** A move inside the shard leaves the liquidity alone. */
  lemma MoveWithinShardKeeps(cfg: Config, s: Shard, input: Input, dst: Addr, item: Item, s1: Shard, t: Token)
    requires CountsLiquidity(cfg) && LiquidityInv(s) && ValidToken(item.token)
    requires cfg.shardOf(dst) == s.id == cfg.shardOf(input.caller)
    requires Debit(cfg, s, input, item) == Ok((s1, t))
    ensures KeepsPair(Settle(cfg, s1, input, dst, item, t))
  {
    var a, token, nonce := input.caller, item.token, item.nonce;
    var before := TokenAt(cfg, s, a, token, nonce);
    var left := before.(value := before.value - item.value);
    DebitShape(cfg, s, input, item);
    TokenAtFacts(cfg, s, a, token, nonce);
    DestinationHolding(cfg, s, s1, input, a, dst, token, nonce, left);
    CreditHereShape(cfg, s1, input, a, dst, t, token, nonce);
    var r := Credit(cfg, s1, input, a, dst, t, token, nonce);
    if r.Ok? {
      TwoSavesKeep(cfg, s, s1, r.value.0, input, a, dst, token, nonce, left, r.value.1);
    }
  }

  lemma SendKeeps(cfg: Config, s: Shard, input: Input, dst: Addr, item: Item, s1: Shard, t: Token)
    requires CountsLiquidity(cfg) && LiquidityInv(s) && ValidToken(item.token)
    requires cfg.shardOf(input.caller) == s.id
    requires Debit(cfg, s, input, item) == Ok((s1, t))
    ensures KeepsPair(Settle(cfg, s1, input, dst, item, t))
  {
    if cfg.shardOf(dst) == s.id {
      MoveWithinShardKeeps(cfg, s, input, dst, item, s1, t);
    } else {
      SendAwayKeeps(cfg, s, input, dst, item, s1, t);
    }
  }

  /** The tokens of the first `n` items are valid identifiers. */
  ghost predicate ValidItems(args: seq<bytes>, start: nat, n: nat) {
    3 * n + start <= |args| && forall i :: 0 <= i < n ==> ValidToken(ItemAt(args, start, i).token)
  }

  lemma SendOneKeeps(cfg: Config, s: Shard, input: Input, dst: Addr, item: Item)
    requires CountsLiquidity(cfg) && LiquidityInv(s) && ValidToken(item.token)
    requires cfg.shardOf(input.caller) == s.id
    ensures KeepsPair(SendOne(cfg, s, input, dst, item))
    ensures SendOne(cfg, s, input, dst, item).Ok? ==> SendOne(cfg, s, input, dst, item).value.0.id == s.id
  {
    DebitShape(cfg, s, input, item);
    var debited := Debit(cfg, s, input, item);
    if debited.Ok? {
      SendKeeps(cfg, s, input, dst, item, debited.value.0, debited.value.1);
      if Settle(cfg, debited.value.0, input, dst, item, debited.value.1).Ok? {
        SettleSameShard(cfg, debited.value.0, input, dst, item, debited.value.1);
      }
    }
    SendOneShape(cfg, s, input, dst, item);
  }

  lemma SendItemsKeep(cfg: Config, s: Shard, input: Input, dst: Addr, n: nat)
    requires CountsLiquidity(cfg) && LiquidityInv(s) && cfg.shardOf(input.caller) == s.id
    requires ValidItems(input.args, 2, n)
    ensures KeepsPair(SendItems(cfg, s, input, dst, n, 0))
  {
    var P := (x: Shard) => LiquidityInv(x) && x.id == cfg.shardOf(input.caller);
    forall j | 0 <= j < n
      ensures SendsSatisfy(P, true, cfg, input, dst, ItemAt(input.args, 2, j))
    {
      forall x | P(x)
        ensures Satisfies(P, true, SendOne(cfg, x, input, dst, ItemAt(input.args, 2, j)))
      {
        SendOneKeeps(cfg, x, input, dst, ItemAt(input.args, 2, j));
      }
    }
    SendItemsPreserve(P, true, cfg, s, input, dst, n, 0);
  }

  /** With SendAlways the sender's shard keeps no record of what was sent. */
  lemma {:induction false} EncodeItemsKeep(cfg: Config, s: Shard, sent: seq<Sent>, dst: Addr, gas: nat, i: nat)
    requires cfg.saveToSystem && cfg.sendAlways && i <= |sent|
    ensures var r := EncodeItems(cfg, s, sent, dst, gas, i);
            r != Err(InvalidLiquidity) && (r.Ok? ==> r.value.0 == s)
    decreases |sent| - i
  {
    if i < |sent| {
      var one := EncodePayload(cfg, s, sent[i], dst, gas);
      if one.Ok? {
        EncodeItemsKeep(cfg, s, sent, dst, one.value.2, i + 1);
      }
    }
  }

  lemma MultiOutputKeeps(cfg: Config, s: Shard, input: Input, dst: Addr, sent: seq<Sent>, gas: nat)
    requires CountsLiquidity(cfg) && LiquidityInv(s) && 3 * |sent| + 2 <= |input.args|
    ensures KeepsPair(MultiOutput(cfg, s, input, dst, sent, gas))
  {
    EncodeItemsKeep(cfg, s, sent, dst, gas, 0);
  }

  lemma SendAllKeeps(cfg: Config, s: Shard, input: Input, dst: Addr, n: nat, gas: nat)
    requires CountsLiquidity(cfg) && LiquidityInv(s) && cfg.shardOf(input.caller) == s.id
    requires ValidItems(input.args, 2, n)
    ensures KeepsPair(SendAll(cfg, s, input, dst, n, gas))
  {
    var all := SendItems(cfg, s, input, dst, n, 0);
    SendAllShape(cfg, s, input, dst, n, gas);
    SendItemsKeep(cfg, s, input, dst, n);
    if all.Ok? && |all.value.1| == n {
      MultiOutputKeeps(cfg, all.value.0, input, dst, all.value.1, gas);
    }
  }

  lemma SendMultiKeeps(cfg: Config, s: Shard, input: Input)
    requires CountsLiquidity(cfg) && LiquidityInv(s) && cfg.shardOf(input.caller) == s.id
    requires |input.args| >= 4
    requires var n := U64(SetBytes(input.args[1])); 3 * n + 2 <= |input.args| ==> ValidItems(input.args, 2, n)
    ensures KeepsPair(SendMulti(cfg, s, input))
  {
    hide SendMulti, SendAll;
    var n := U64(SetBytes(input.args[1]));
    var gas := input.gasProvided - U64(n * cfg.multiGas);
    SendMultiChecks(cfg, s, input);
    if 3 * n + 2 <= |input.args| && gas >= 0 {
      SendAllKeeps(cfg, s, input, input.args[0], n, gas);
    }
  }

  lemma SendNftKeeps(cfg: Config, s: Shard, input: Input)
    requires CountsLiquidity(cfg) && LiquidityInv(s) && cfg.shardOf(input.caller) == s.id
    requires |input.args| >= NFT_MIN_ARGS && ValidToken(input.args[0])
    ensures KeepsPair(SendNft(cfg, s, input))
  {
    var item, dst := NftItem(input.args), input.args[3];
    DebitShape(cfg, s, input, item);
    var debited := Debit(cfg, s, input, item);
    if debited.Ok? {
      SendKeeps(cfg, s, input, dst, item, debited.value.0, debited.value.1);
    }
    SendNftShape(cfg, s, input);
  }

  /** The payload of a received single transfer is not negative. */
  lemma ReceiveNftKeeps(cfg: Config, s: Shard, input: Input)
    requires CountsLiquidity(cfg) && LiquidityInv(s)
    requires cfg.shardOf(input.caller) != cfg.shardOf(input.recipient)
    requires |input.args| >= NFT_MIN_ARGS && ValidToken(input.args[0])
    requires NftPayload(cfg, input.args).Ok? ==> NftPayload(cfg, input.args).value.value >= 0
    ensures KeepsPair(ReceiveNft(cfg, s, input))
  {
    var item, payload := NftItem(input.args), NftPayload(cfg, input.args);
    if payload.Ok? {
      CreditFromAfarKeeps(cfg, s, input, input.caller, input.recipient, payload.value, item.token, item.nonce);
    }
  }

  lemma ReceiveOneKeeps(cfg: Config, s: Shard, input: Input, x: Sent)
    requires CountsLiquidity(cfg) && LiquidityInv(s)
    requires cfg.shardOf(input.caller) != cfg.shardOf(input.recipient)
    requires ValidToken(x.item.token) && x.tok.value >= 0
    ensures Keeps(ReceiveOne(cfg, s, input, x))
  {
    if x.item.nonce > 0 {
      CreditFromAfarKeeps(cfg, s, input, input.caller, input.recipient, x.tok, x.item.token, x.item.nonce);
    } else {
      AddToBalanceKeeps(cfg, s, input, input.recipient, x.item.token, x.tok.value);
    }
  }

  /** Every item the receiver decodes has a valid token and a value that is not negative. */
  ghost predicate ValidPayloads(cfg: Config, args: seq<bytes>, n: nat) {
    3 * n + 1 <= |args| &&
    forall i :: 0 <= i < n ==>
      var x := DecodeItem(cfg, args, i);
      x.Ok? ==> ValidToken(x.value.item.token) && x.value.tok.value >= 0
  }

  lemma ReceiveItemsKeep(cfg: Config, s: Shard, input: Input, n: nat)
    requires CountsLiquidity(cfg) && LiquidityInv(s)
    requires cfg.shardOf(input.caller) != cfg.shardOf(input.recipient)
    requires ValidPayloads(cfg, input.args, n)
    ensures Keeps(ReceiveItems(cfg, s, input, n, 0))
  {
    var P := (x: Shard) => LiquidityInv(x);
    forall j | 0 <= j < n && DecodeItem(cfg, input.args, j).Ok?
      ensures ReceivesSatisfy(P, true, cfg, input, DecodeItem(cfg, input.args, j).value)
    {
      forall x | P(x)
        ensures Keeps(ReceiveOne(cfg, x, input, DecodeItem(cfg, input.args, j).value))
      {
        ReceiveOneKeeps(cfg, x, input, DecodeItem(cfg, input.args, j).value);
      }
    }
    ReceiveItemsPreserve(P, true, cfg, s, input, n, 0);
  }

  lemma ReceiveMultiKeeps(cfg: Config, s: Shard, input: Input)
    requires CountsLiquidity(cfg) && LiquidityInv(s)
    requires cfg.shardOf(input.caller) != cfg.shardOf(input.recipient)
    requires |input.args| >= 4
    requires var n := U64(SetBytes(input.args[0])); 3 * n + 1 <= |input.args| ==> ValidPayloads(cfg, input.args, n)
    ensures KeepsPair(ReceiveMulti(cfg, s, input))
  {
    var n := U64(SetBytes(input.args[0]));
    if 3 * n + 1 <= |input.args| {
      ReceiveItemsKeep(cfg, s, input, n);
    }
  }
}
