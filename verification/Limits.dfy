// Where the liquidity counter stops matching what accounts hold: wipes of a nonce that holds a dash byte,
// and token arguments that are no identifiers.
module Limits {
  import opened Bytes
  import opened TokenId
  import opened Ledger
  import opened Totals
  import opened Liquidity

  predicate Counts(s: Shard, key: bytes) {
    key in s.system && s.system[key].reserved != []
  }

  /** The key at which a wipe lowers the liquidity. */
  function WipedKey(arg: bytes): bytes {
    KeyOf(ExtractWipe(arg).0, ExtractWipe(arg).1)
  }

  /** What is extracted from a key whose nonce holds a dash byte: nothing, or another positive nonce. */
  lemma ExtractedElsewhere(token: bytes, n: uint64)
    requires ValidToken(token) && n > 0 && DASH in ToBytes(n)
    ensures var (t, m) := ExtractWipe(KeyOf(token, n));
            || (t == KeyOf(token, n) && m == 0)
            || (t == token && 0 < m < n && KeyOf(t, m) != KeyOf(token, n))
  {
    var p := BeforeDash(ToBytes(n));
    ExtractAfterToken(token, ToBytes(n));
    NonceBeforeDash(n);
    if p != [] {
      NoLeadingZero(n);
      assert p[0] == ToBytes(n)[0];
      LongerIsLarger([], p);
      assert [] + p == p;
      SetBytesToBytes(n);
      BeforeDashSmaller(ToBytes(n));
      U64Identity(SetBytes(p));
      KeyInjective(token, SetBytes(p), token, n);
    }
  }

  lemma WipeIs(cfg: Config, s: Shard, input: Input)
    requires CountsLiquidity(cfg) && |input.args| == 1 && Wipe(cfg, s, input).Ok?
    ensures var slot := Slot(input.recipient, input.args[0]);
            var (t, m) := ExtractWipe(input.args[0]);
            Wipe(cfg, s, input) == AddLiquidity(cfg, Drop(s, slot), t, m, -Holding(s, slot))
  {
  }

  /** A wiped holding leaves an entry that counts above the total. */
  lemma EntryLeftBehind(s: Shard, s1: Shard, slot: Slot)
    requires LiquidityInv(s) && NftKey(slot.key) && Holding(s, slot) > 0 && Counts(s, slot.key)
    requires s1.accounts == s.accounts - {slot} && slot.key in s1.system && s1.system[slot.key] == s.system[slot.key]
    ensures !LiquidityInv(s1)
  {
    assert EntryMatches(s, slot.key);
    TotalDropped(s, s1, slot, slot.key);
    assert !EntryMatches(s1, slot.key);
  }

  lemma TotalDropped(s: Shard, s1: Shard, slot: Slot, key: bytes)
    requires s1.accounts == s.accounts - {slot}
    ensures Total(s1, key) == Total(s, key) - if key == slot.key then Holding(s, slot) else 0
  {
    TotalAfterWrite(s, Drop(s, slot), slot, key);
    TotalSameAccounts(Drop(s, slot), s1, key);
  }

  /** The extracted entry is lowered although nobody's holding of it changed. */
  lemma OtherEntryLowered(cfg: Config, s: Shard, slot: Slot, t: bytes, m: uint64)
    requires CountsLiquidity(cfg) && LiquidityInv(s) && ValidToken(t) && m > 0 && KeyOf(t, m) != slot.key
    requires Holding(s, slot) > 0 && Counts(s, KeyOf(t, m))
    requires AddLiquidity(cfg, Drop(s, slot), t, m, -Holding(s, slot)).Ok?
    ensures !LiquidityInv(AddLiquidity(cfg, Drop(s, slot), t, m, -Holding(s, slot)).value)
  {
    var s1, key := AddLiquidity(cfg, Drop(s, slot), t, m, -Holding(s, slot)).value, KeyOf(t, m);
    NonceGivesNftKey(t, m);
    assert EntryMatches(s, key);
    AddLiquidityWrites(cfg, Drop(s, slot), t, m, -Holding(s, slot));
    TotalDropped(s, s1, slot, key);
    assert !EntryMatches(s1, key);
  }

  /** Nothing held, or nothing counted at either key: the wipe leaves every entry as it was. */
  lemma HarmlessWipe(cfg: Config, s: Shard, slot: Slot, t: bytes, m: uint64)
    requires CountsLiquidity(cfg) && LiquidityInv(s) && NftKey(slot.key)
    requires m == 0 || (ValidToken(t) && KeyOf(t, m) != slot.key)
    requires Holding(s, slot) == 0 || (!Counts(s, slot.key) && !Counts(s, KeyOf(t, m)))
    requires AddLiquidity(cfg, Drop(s, slot), t, m, -Holding(s, slot)).Ok?
    ensures LiquidityInv(AddLiquidity(cfg, Drop(s, slot), t, m, -Holding(s, slot)).value)
  {
    var s1 := AddLiquidity(cfg, Drop(s, slot), t, m, -Holding(s, slot)).value;
    HoldersKnown(s, slot);
    if m > 0 {
      NonceGivesNftKey(t, m);
      assert EntryMatches(s, KeyOf(t, m));
    }
    assert s1 == Drop(s, slot) by {
      assert m > 0 && KeyOf(t, m) in s.system && Holding(s, slot) == 0 && Counts(s, KeyOf(t, m)) ==>
        s.system[KeyOf(t, m) := s.system[KeyOf(t, m)]] == s.system;
    }
    OtherKeysKept(s, s1, slot);
    TotalDropped(s, s1, slot, slot.key);
    assert EntryMatches(s, slot.key);
    assert EntryMatches(s1, slot.key);
  }

  lemma LoweredElsewhere(cfg: Config, s: Shard, slot: Slot, t: bytes, m: uint64)
    requires CountsLiquidity(cfg) && LiquidityInv(s) && NftKey(slot.key)
    requires (m == 0 && KeyOf(t, m) == slot.key) || (m > 0 && ValidToken(t) && KeyOf(t, m) != slot.key)
    requires AddLiquidity(cfg, Drop(s, slot), t, m, -Holding(s, slot)).Ok?
    ensures LiquidityInv(AddLiquidity(cfg, Drop(s, slot), t, m, -Holding(s, slot)).value) <==>
              Holding(s, slot) == 0 || (!Counts(s, slot.key) && !Counts(s, KeyOf(t, m)))
  {
    if Holding(s, slot) == 0 || (!Counts(s, slot.key) && !Counts(s, KeyOf(t, m))) {
      HarmlessWipe(cfg, s, slot, t, m);
    } else {
      HoldersKnown(s, slot);
      if Counts(s, slot.key) {
        EntryLeftBehind(s, AddLiquidity(cfg, Drop(s, slot), t, m, -Holding(s, slot)).value, slot);
      } else {
        OtherEntryLowered(cfg, s, slot, t, m);
      }
    }
  }

  /** A successful wipe of a valid identifier and nonce keeps the liquidity right exactly when the nonce
      holds no dash byte, or nothing was held, or neither the wiped key nor the extracted one counts. */
  lemma WipeKeepsExactly(cfg: Config, s: Shard, input: Input, token: bytes, n: uint64)
    requires CountsLiquidity(cfg) && LiquidityInv(s) && ValidToken(token) && n > 0
    requires input.args == [KeyOf(token, n)] && Wipe(cfg, s, input).Ok?
    ensures LiquidityInv(Wipe(cfg, s, input).value) <==>
              || DASH !in ToBytes(n)
              || Holding(s, Slot(input.recipient, KeyOf(token, n))) == 0
              || (!Counts(s, KeyOf(token, n)) && !Counts(s, WipedKey(KeyOf(token, n))))
  {
    NonceGivesNftKey(token, n);
    if DASH !in ToBytes(n) {
      WipeKeeps(cfg, s, input, token, n);
    } else {
      var (t, m) := ExtractWipe(KeyOf(token, n));
      ExtractedElsewhere(token, n);
      WipeIs(cfg, s, input);
      LoweredElsewhere(cfg, s, Slot(input.recipient, KeyOf(token, n)), t, m);
    }
  }

  /** A token argument that spells the key of an NFT: minting it as a fungible token raises what accounts
      hold of the NFT, and keeps the liquidity right exactly when the NFT has an entry that does not count. */
  lemma MintAtNftKeyBreaks(cfg: Config, s: Shard, input: Input, token: bytes, n: uint64)
    requires CountsLiquidity(cfg) && LiquidityInv(s) && ValidToken(token) && n > 0
    requires |input.args| >= 2 && input.args[0] == KeyOf(token, n)
    requires MintOrBurn(cfg, s, input, 1).Ok?
    ensures LiquidityInv(MintOrBurn(cfg, s, input, 1).value) <==>
              KeyOf(token, n) in s.system && s.system[KeyOf(token, n)].reserved == []
  {
    var s1, key := MintOrBurn(cfg, s, input, 1).value, KeyOf(token, n);
    var slot := Slot(input.caller, key);
    NonceGivesNftKey(token, n);
    AddToBalanceWrites(cfg, s, input, input.caller, key, SetBytes(input.args[1]));
    TotalAfterWrite(s, s1, slot, key);
    assert EntryMatches(s, key);
    if key in s.system && s.system[key].reserved == [] {
      assert slot in s.accounts ==> RecordOk(s, slot);
      OtherKeysKept(s, s1, slot);
      assert EntryMatches(s1, key);
    } else {
      assert !EntryMatches(s1, key);
    }
  }
}
