// Sums over all holders of a key in a shard, and how one write changes them.
module Totals {
  import opened Bytes
  import opened Wrappers
  import opened TokenId
  import opened Ledger

  ghost function Sum(m: map<Slot, int>): int {
    if m == map[] then 0 else
      var p :| p in m;
      m[p] + Sum(m - {p})
  }

  lemma {:induction false} SumRemove(m: map<Slot, int>, p: Slot)
    requires p in m
    ensures Sum(m) == m[p] + Sum(m - {p})
    decreases |m|
  {
    var q :| q in m && Sum(m) == m[q] + Sum(m - {q});
    if p != q {
      SumRemove(m - {q}, p);
      SumRemove(m - {p}, q);
      assert m - {q} - {p} == m - {p} - {q};
    }
  }

  lemma {:induction false} SumNonNegative(m: map<Slot, int>)
    requires forall p :: p in m ==> m[p] >= 0
    ensures Sum(m) >= 0
    decreases |m|
  {
    if m != map[] {
      var p :| p in m;
      SumRemove(m, p);
      SumNonNegative(m - {p});
    }
  }

  ghost function HoldersOf(s: Shard, key: bytes): map<Slot, int> {
    map p | p in s.accounts && p.key == key :: s.accounts[p].value
  }

  /** What all accounts of the shard hold under `key`. */
  ghost function Total(s: Shard, key: bytes): int {
    Sum(HoldersOf(s, key))
  }

  ghost predicate NonNegative(s: Shard) {
    forall p :: p in s.accounts ==> s.accounts[p].value >= 0
  }

  /** `s2` differs from `s1` at most in the record at `slot` and the system entry of its key. */
  ghost predicate SameExcept(s1: Shard, s2: Shard, slot: Slot) {
    && s1.id == s2.id
    && (forall p :: p != slot ==> (p in s1.accounts <==> p in s2.accounts))
    && (forall p :: p != slot && p in s1.accounts && p in s2.accounts ==> s1.accounts[p] == s2.accounts[p])
    && (forall k :: k != slot.key ==> (k in s1.system <==> k in s2.system))
    && (forall k :: k != slot.key && k in s1.system && k in s2.system ==> s1.system[k] == s2.system[k])
  }

  lemma TotalAfterWrite(s1: Shard, s2: Shard, slot: Slot, key: bytes)
    requires SameExcept(s1, s2, slot)
    ensures Total(s2, key) == Total(s1, key) + if key == slot.key then Holding(s2, slot) - Holding(s1, slot) else 0
  {
    var h1, h2 := HoldersOf(s1, key), HoldersOf(s2, key);
    if key != slot.key {
      assert h1 == h2;
    } else {
      assert h1 - {slot} == h2 - {slot};
      if slot in h1 {
        SumRemove(h1, slot);
      } else {
        assert h1 - {slot} == h1;
      }
      if slot in h2 {
        SumRemove(h2, slot);
      } else {
        assert h2 - {slot} == h2;
      }
    }
  }

  lemma TotalSameAccounts(s1: Shard, s2: Shard, key: bytes)
    requires s1.accounts == s2.accounts
    ensures Total(s1, key) == Total(s2, key)
  {
    assert HoldersOf(s1, key) == HoldersOf(s2, key);
  }

  /** Nobody holds more than the total, so a total of zero means that nobody holds anything. */
  lemma HoldingWithinTotal(s: Shard, slot: Slot)
    requires NonNegative(s)
    ensures 0 <= Holding(s, slot) <= Total(s, slot.key)
  {
    var h := HoldersOf(s, slot.key);
    if slot in h {
      SumRemove(h, slot);
      SumNonNegative(h - {slot});
    } else {
      SumNonNegative(h);
    }
  }

  // ----- what the storage operations write -----

  /** Saving metadata writes at most the entry of its key. */
  lemma SaveMetaDataWrites(
    cfg: Config, s: Shard, userAcc: Option<Addr>, senderShard: nat, key: bytes, nonce: nat, t: Token, mustUpdate: bool)
    requires SaveMetaData(cfg, s, userAcc, senderShard, key, nonce, t, mustUpdate).Ok?
    ensures var s1 := SaveMetaData(cfg, s, userAcc, senderShard, key, nonce, t, mustUpdate).value;
            && s1.accounts == s.accounts && s1.id == s.id
            && (nonce == 0 ==> s1.system == s.system)
            && (forall k :: k != key ==> (k in s.system <==> k in s1.system))
            && (forall k :: k != key && k in s.system && k in s1.system ==> s.system[k] == s1.system[k])
  {
    hide NewEntry;
  }

  /** `SaveToken` writes one record; what it leaves there is the token's value. */
  lemma SaveTokenWrites(
    cfg: Config, s: Shard, input: Input, sender: Addr, a: Addr, token: bytes, nonce: nat, t: Token, mustUpdate: bool)
    requires SaveToken(cfg, s, input, sender, a, token, nonce, t, mustUpdate).Ok?
    ensures var s1 := SaveToken(cfg, s, input, sender, a, token, nonce, t, mustUpdate).value;
            var slot := Slot(a, KeyOf(token, nonce));
            && SameExcept(s, s1, slot)
            && Holding(s1, slot) == (if t.value <= 0 then 0 else t.value)
            && (slot in s1.accounts ==> s1.accounts[slot] == OnAccount(cfg, t))
            && (nonce == 0 ==> s1.system == s.system)
  {
    hide SaveMetaData, CheckSave;
    if cfg.saveToSystem {
      SaveMetaDataWrites(cfg, s, Some(a), cfg.shardOf(sender), KeyOf(token, nonce), nonce, t, mustUpdate);
    }
  }

  lemma AddLiquidityWrites(cfg: Config, s: Shard, token: bytes, nonce: nat, delta: int)
    requires AddLiquidity(cfg, s, token, nonce, delta).Ok?
    ensures var s1 := AddLiquidity(cfg, s, token, nonce, delta).value;
            && s1.accounts == s.accounts && s1.id == s.id
            && (forall a :: SameExcept(s, s1, Slot(a, KeyOf(token, nonce))))
  {
  }

  lemma AlreadySentWrites(cfg: Config, s: Shard, token: bytes, nonce: nat, dst: Addr)
    requires AlreadySent(cfg, s, token, nonce, dst).Ok?
    ensures var s1 := AlreadySent(cfg, s, token, nonce, dst).value.1;
            && s1.accounts == s.accounts && s1.id == s.id
            && (cfg.sendAlways ==> s1 == s)
            && s1.system.Keys == s.system.Keys
  {
  }

  lemma AddToBalanceWrites(cfg: Config, s: Shard, input: Input, a: Addr, token: bytes, delta: int)
    requires AddToBalance(cfg, s, input, a, token, delta).Ok?
    ensures var s1 := AddToBalance(cfg, s, input, a, token, delta).value;
            && SameExcept(s, s1, Slot(a, token)) && s1.system == s.system
            && Holding(s1, Slot(a, token)) == Holding(s, Slot(a, token)) + delta >= 0
            && (Slot(a, token) in s1.accounts ==> s1.accounts[Slot(a, token)].meta == RecordAt(s, Slot(a, token)).meta)
  {
  }
}
