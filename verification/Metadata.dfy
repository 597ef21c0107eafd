// What is read back of a token after it was created, changed or moved: its type, properties and metadata, field
// by field, whether metadata lives on the account or in the system account.
module Metadata {
  import opened Bytes
  import opened Wrappers
  import opened TokenId
  import opened Ledger
  import opened Transfers
  import opened Totals

  // ----- saving -----

  /** The metadata the system account has for the key. */
  function EntryMeta(s: Shard, key: bytes): Option<MetaData> {
    if key in s.system then s.system[key].meta else None
  }

  /** A saved token is read back as it was; with SaveToSystemAccount its metadata is that of the entry. */
  lemma SavedReadsBack(
    cfg: Config, s: Shard, input: Input, sender: Addr, a: Addr, token: bytes, nonce: nat, t: Token, mustUpdate: bool)
    requires t.value > 0 && SaveToken(cfg, s, input, sender, a, token, nonce, t, mustUpdate).Ok?
    ensures var s1 := SaveToken(cfg, s, input, sender, a, token, nonce, t, mustUpdate).value;
            var r := TokenAt(cfg, s1, a, token, nonce);
            && r.typ == t.typ && r.value == t.value && r.properties == t.properties
            && r.meta == if !cfg.saveToSystem then t.meta
                         else if nonce == 0 then None
                         else EntryMeta(s1, KeyOf(token, nonce))
  {
    hide SaveMetaData, CheckSave, KeyOf;
  }

  /** What saving does to the entry of its key: without metadata nothing; a forced or a first save writes it; any
      other save refreshes it only where that is switched on, everything is always sent and nothing is reserved. */
  lemma SavedEntry(
    cfg: Config, s: Shard, input: Input, sender: Addr, a: Addr, token: bytes, nonce: nat, t: Token, mustUpdate: bool)
    requires SaveToken(cfg, s, input, sender, a, token, nonce, t, mustUpdate).Ok?
    ensures var s1, key := SaveToken(cfg, s, input, sender, a, token, nonce, t, mustUpdate).value, KeyOf(token, nonce);
            if !cfg.saveToSystem || nonce == 0 || t.meta.None? then
              s1.system == s.system
            else if mustUpdate || key !in s.system then
              EntryMeta(s1, key) == t.meta && s1.system[key].value == 0 && s1.system[key].typ == t.typ
            else if cfg.alwaysSaveMetaData && cfg.sendAlways && s.system[key].reserved == [] then
              s1.system == s.system[key := s.system[key].(meta := t.meta)]
            else
              s1.system == s.system
  {
    hide CheckSave, KeyOf;
  }

  /** A change of liquidity leaves the metadata of an entry that stays. */
  lemma AdjustedEntry(cfg: Config, s: Shard, token: bytes, nonce: nat, delta: int)
    requires AddLiquidity(cfg, s, token, nonce, delta).Ok?
    ensures var s1, key := AddLiquidity(cfg, s, token, nonce, delta).value, KeyOf(token, nonce);
            && s1.accounts == s.accounts
            && (key in s1.system ==> key in s.system && EntryMeta(s1, key) == EntryMeta(s, key))
            && (key in s.system && (delta > 0 && s.system[key].value >= 0) ==> key in s1.system)
  {
    hide KeyOf;
  }

  /** Saving and adjusting, seen from what is read back. */
  lemma AdjustedReadsBack(
    cfg: Config, s: Shard, input: Input, sender: Addr, a: Addr, token: bytes, nonce: nat, t: Token, mustUpdate: bool,
    delta: int)
    requires t.value > 0 && SaveWithLiquidity(cfg, s, input, sender, a, token, nonce, t, mustUpdate, delta).Ok?
    ensures var s1 := SaveWithLiquidity(cfg, s, input, sender, a, token, nonce, t, mustUpdate, delta).value;
            var r, key := TokenAt(cfg, s1, a, token, nonce), KeyOf(token, nonce);
            && r.typ == t.typ && r.value == t.value && r.properties == t.properties
            && (!cfg.saveToSystem ==> r.meta == t.meta)
            && (cfg.saveToSystem && nonce == 0 ==> r.meta.None?)
            && (cfg.saveToSystem && nonce > 0 ==> r.meta == EntryMeta(s1, key))
            && (key in s1.system ==>
                  EntryMeta(s1, key) ==
                  EntryMeta(SaveToken(cfg, s, input, sender, a, token, nonce, t, mustUpdate).value, key))
  {
    var saved := SaveToken(cfg, s, input, sender, a, token, nonce, t, mustUpdate).value;
    hide SaveToken, AddLiquidity, KeyOf;
    SavedReadsBack(cfg, s, input, sender, a, token, nonce, t, mustUpdate);
    AdjustedEntry(cfg, saved, token, nonce, delta);
  }

  // ----- creation -----

  /** Where a creation stores its token: with the caller, or with the account named last when the caller executes
      on behalf of it. */
  function Owner(input: Input): Addr
    requires input.args != []
  {
    if input.callType == ExecOnDestByCaller then input.args[|input.args| - 1] else input.caller
  }

  /** The metadata says what the arguments of a creation say. */
  ghost predicate SaysArguments(m: MetaData, input: Input, nonce: uint64)
    requires |input.args| >= 8 || (|input.args| >= 7 && input.callType != ExecOnDestByCaller)
  {
    && m.nonce == nonce
    && m.name == input.args[2]
    && m.creator == input.caller
    && m.royalties == SetBytes(input.args[3]) % 0x1_0000_0000 <= 10000
    && m.hash == input.args[4]
    && m.attributes == input.args[5]
    && m.uris == if input.callType == ExecOnDestByCaller then input.args[6..|input.args| - 1] else input.args[6..]
  }

  lemma LowBits(n: nat)
    ensures U64(n) % 0x1_0000_0000 == n % 0x1_0000_0000
  {
    assert n == n / TWO64 * TWO64 + U64(n);
    assert n == (n / TWO64 * 0x1_0000_0000) * 0x1_0000_0000 + U64(n);
  }

  lemma CreateIsSave(cfg: Config, s: Shard, input: Input, latest: uint64)
    requires Create(cfg, s, input, latest).Ok?
    ensures |input.args| >= 8 || (|input.args| >= 7 && input.callType != ExecOnDestByCaller)
    ensures var nonce, t := U64(latest + 1), CreatedToken(input, U64(latest + 1));
            && Create(cfg, s, input, latest) ==
               SaveWithLiquidity(cfg, s, input, Owner(input), Owner(input), input.args[0], nonce, t, true, t.value)
            && t.value == SetBytes(input.args[1]) > 0 && t.typ == NonFungible && t.properties == []
            && t.meta.Some? && SaysArguments(t.meta.value, input, nonce)
  {
    LowBits(SetBytes(input.args[3]));
    hide SaveWithLiquidity;
  }

  /** A successful creation: the owner's token at the next nonce has the quantity and, field by field, the
      metadata of the arguments; nothing else changes. A nonce that wraps to zero has no metadata in the system
      account. */
  lemma CreatedReadsBack(cfg: Config, s: Shard, input: Input, latest: uint64)
    requires Create(cfg, s, input, latest).Ok?
    ensures |input.args| >= 8 || (|input.args| >= 7 && input.callType != ExecOnDestByCaller)
    ensures var s1, nonce := Create(cfg, s, input, latest).value, U64(latest + 1);
            var t := TokenAt(cfg, s1, Owner(input), input.args[0], nonce);
            && t.typ == NonFungible && t.value == SetBytes(input.args[1]) > 0 && t.properties == []
            && (if cfg.saveToSystem && nonce == 0 then t.meta.None?
                else t.meta.Some? && SaysArguments(t.meta.value, input, nonce))
            && SameExcept(s, s1, Slot(Owner(input), KeyOf(input.args[0], nonce)))
  {
    var owner, token, nonce, t := Owner(input), input.args[0], U64(latest + 1), CreatedToken(input, U64(latest + 1));
    CreateIsSave(cfg, s, input, latest);
    hide Create, CreatedToken, SaysArguments, SaveToken, AddLiquidity, KeyOf;
    AdjustedReadsBack(cfg, s, input, owner, owner, token, nonce, t, true, t.value);
    SavedEntry(cfg, s, input, owner, owner, token, nonce, t, true);
    var saved := SaveToken(cfg, s, input, owner, owner, token, nonce, t, true).value;
    AdjustedEntry(cfg, saved, token, nonce, t.value);
    SaveTokenWrites(cfg, s, input, owner, owner, token, nonce, t, true);
    AddLiquidityWrites(cfg, saved, token, nonce, t.value);
  }

  // ----- update -----

  /** Only the attributes differ. */
  ghost predicate OnlyAttributes(before: MetaData, after: MetaData, attributes: bytes) {
    && after.attributes == attributes
    && after.nonce == before.nonce && after.name == before.name && after.creator == before.creator
    && after.royalties == before.royalties && after.hash == before.hash && after.uris == before.uris
  }

  lemma UpdateIsSave(cfg: Config, s: Shard, input: Input)
    requires UpdateAttributes(cfg, s, input).Ok?
    ensures |input.args| == 3
    ensures var nonce := U64(SetBytes(input.args[1]));
            var before := TokenAt(cfg, s, input.caller, input.args[0], nonce);
            && nonce > 0 && Slot(input.caller, KeyOf(input.args[0], nonce)) in s.accounts && before.meta.Some?
            && exists t: Token :: t == before.(meta := t.meta) && t.meta.Some?
                           && OnlyAttributes(before.meta.value, t.meta.value, input.args[2])
                           && UpdateAttributes(cfg, s, input) ==
                              SaveToken(cfg, s, input, input.caller, input.caller, input.args[0], nonce, t, true)
  {
    var nonce := U64(SetBytes(input.args[1]));
    var before := TokenAt(cfg, s, input.caller, input.args[0], nonce);
    hide SaveToken, KeyOf;
    var t := before.(meta := Some(before.meta.value.(attributes := input.args[2])));
    assert UpdateAttributes(cfg, s, input) ==
           SaveToken(cfg, s, input, input.caller, input.caller, input.args[0], nonce, t, true);
  }

  /** A successful update: the token has the new attributes and every other field of its metadata, its type, value
      and properties as before; no other record and no other entry changes. A record of value zero is deleted. */
  lemma UpdatedReadsBack(cfg: Config, s: Shard, input: Input)
    requires UpdateAttributes(cfg, s, input).Ok?
    ensures |input.args| == 3
    ensures var s1, a, token, nonce := UpdateAttributes(cfg, s, input).value, input.caller, input.args[0],
                                       U64(SetBytes(input.args[1]));
            var before, after := TokenAt(cfg, s, a, token, nonce), TokenAt(cfg, s1, a, token, nonce);
            var key := KeyOf(token, nonce);
            && before.meta.Some? && SameExcept(s, s1, Slot(a, key))
            && (before.value > 0 ==>
                  && after.value == before.value && after.typ == before.typ && after.properties == before.properties
                  && after.meta.Some? && OnlyAttributes(before.meta.value, after.meta.value, input.args[2]))
            && (before.value <= 0 ==> Slot(a, key) !in s1.accounts)
            && (cfg.saveToSystem ==>
                  && EntryMeta(s1, key).Some?
                  && OnlyAttributes(before.meta.value, EntryMeta(s1, key).value, input.args[2]))
  {
    UpdateIsSave(cfg, s, input);
    var a, token, nonce := input.caller, input.args[0], U64(SetBytes(input.args[1]));
    var before := TokenAt(cfg, s, a, token, nonce);
    var t: Token :| t == before.(meta := t.meta) && t.meta.Some?
                    && OnlyAttributes(before.meta.value, t.meta.value, input.args[2])
                    && UpdateAttributes(cfg, s, input) == SaveToken(cfg, s, input, a, a, token, nonce, t, true);
    hide UpdateAttributes, SaveToken, OnlyAttributes, KeyOf;
    SaveTokenWrites(cfg, s, input, a, a, token, nonce, t, true);
    SavedEntry(cfg, s, input, a, a, token, nonce, t, true);
    if t.value > 0 {
      SavedReadsBack(cfg, s, input, a, a, token, nonce, t, true);
    } else {
      DroppedAtZero(cfg, s, input, a, a, token, nonce, t, true);
    }
  }

  lemma DroppedAtZero(
    cfg: Config, s: Shard, input: Input, sender: Addr, a: Addr, token: bytes, nonce: nat, t: Token, mustUpdate: bool)
    requires t.value <= 0 && SaveToken(cfg, s, input, sender, a, token, nonce, t, mustUpdate).Ok?
    ensures Slot(a, KeyOf(token, nonce)) !in
            SaveToken(cfg, s, input, sender, a, token, nonce, t, mustUpdate).value.accounts
  {
    hide SaveMetaData, CheckSave, KeyOf;
  }

  // ----- more and less of a token -----

  /** The metadata read back is as it was: always where accounts keep it, else where the entry has it or is new. */
  ghost predicate MetaStays(
    cfg: Config, s: Shard, s1: Shard, key: bytes, before: Option<MetaData>, after: Option<MetaData>)
  {
    !cfg.saveToSystem || (key in s1.system && (key in s.system ==> s.system[key].meta.Some?)) ==> after == before
  }

  /** The token of `a` now has `value` and is otherwise the same, or is gone with nothing left; no other record and
      no other entry changed. */
  ghost predicate Changed(cfg: Config, s: Shard, s1: Shard, a: Addr, token: bytes, nonce: nat, value: int) {
    var before, after, key := TokenAt(cfg, s, a, token, nonce), TokenAt(cfg, s1, a, token, nonce), KeyOf(token, nonce);
    && SameExcept(s, s1, Slot(a, key))
    && (value <= 0 ==> Slot(a, key) !in s1.accounts)
    && (value > 0 ==>
          && after.value == value && after.typ == before.typ && after.properties == before.properties
          && MetaStays(cfg, s, s1, key, before.meta, after.meta))
  }

  /** Saving a token with the metadata just read leaves an entry that has metadata as it is. */
  lemma ReadEntryKept(
    cfg: Config, s: Shard, input: Input, src: Addr, sender: Addr, a: Addr, token: bytes, nonce: nat, t: Token)
    requires cfg.saveToSystem && nonce > 0 && Slot(src, KeyOf(token, nonce)) in s.accounts
    requires t.meta == TokenAt(cfg, s, src, token, nonce).meta
    requires SaveToken(cfg, s, input, sender, a, token, nonce, t, false).Ok?
    ensures var s1, key := SaveToken(cfg, s, input, sender, a, token, nonce, t, false).value, KeyOf(token, nonce);
            && (key in s.system && s.system[key].meta.Some? ==> s1.system == s.system && t.meta == EntryMeta(s, key))
            && (key !in s.system && key in s1.system ==> EntryMeta(s1, key) == t.meta)
            && (key in s.system ==> key in s1.system)
  {
    hide SaveToken, KeyOf;
    SavedEntry(cfg, s, input, sender, a, token, nonce, t, false);
    var key := KeyOf(token, nonce);
    if key in s.system {
      assert s.system[key := s.system[key].(meta := s.system[key].meta)] == s.system;
    }
  }

  lemma ChangedReadsBack(cfg: Config, s: Shard, input: Input, token: bytes, nonce: nat, t: Token, delta: int)
    requires nonce > 0 && Slot(input.caller, KeyOf(token, nonce)) in s.accounts
    requires t == TokenAt(cfg, s, input.caller, token, nonce).(value := t.value)
    requires SaveWithLiquidity(cfg, s, input, input.caller, input.caller, token, nonce, t, false, delta).Ok?
    ensures Changed(cfg, s,
                    SaveWithLiquidity(cfg, s, input, input.caller, input.caller, token, nonce, t, false, delta).value,
                    input.caller, token, nonce, t.value)
  {
    hide SaveToken, AddLiquidity, KeyOf, TokenAt;
    var a := input.caller;
    var saved := SaveToken(cfg, s, input, a, a, token, nonce, t, false).value;
    SaveTokenWrites(cfg, s, input, a, a, token, nonce, t, false);
    AddLiquidityWrites(cfg, saved, token, nonce, delta);
    AdjustedEntry(cfg, saved, token, nonce, delta);
    if t.value <= 0 {
      DroppedAtZero(cfg, s, input, a, a, token, nonce, t, false);
    } else {
      AdjustedReadsBack(cfg, s, input, a, a, token, nonce, t, false, delta);
      if cfg.saveToSystem {
        ReadEntryKept(cfg, s, input, a, a, a, token, nonce, t);
      }
    }
  }

  /** A successful addition: the caller's token grows by the quantity named third. */
  lemma AddedReadsBack(cfg: Config, s: Shard, input: Input)
    requires AddQuantity(cfg, s, input).Ok?
    ensures |input.args| >= 3
    ensures var token, nonce := input.args[0], U64(SetBytes(input.args[1]));
            && nonce > 0 && Slot(input.caller, KeyOf(token, nonce)) in s.accounts
            && Changed(cfg, s, AddQuantity(cfg, s, input).value, input.caller, token, nonce,
                       Holding(s, Slot(input.caller, KeyOf(token, nonce))) + SetBytes(input.args[2]))
  {
    hide SaveWithLiquidity, Changed, KeyOf;
    var token, nonce, value: int := input.args[0], U64(SetBytes(input.args[1])), SetBytes(input.args[2]);
    var t := TokenAt(cfg, s, input.caller, token, nonce);
    ChangedReadsBack(cfg, s, input, token, nonce, t.(value := t.value + value), value);
  }

  /** A successful burn: the caller's token shrinks by the quantity named third, which it covers. */
  lemma BurnedReadsBack(cfg: Config, s: Shard, input: Input)
    requires Burn(cfg, s, input).Ok?
    ensures |input.args| >= 3
    ensures var token, nonce := input.args[0], U64(SetBytes(input.args[1]));
            var held := Holding(s, Slot(input.caller, KeyOf(token, nonce)));
            && nonce > 0 && Slot(input.caller, KeyOf(token, nonce)) in s.accounts && held >= SetBytes(input.args[2])
            && Changed(cfg, s, Burn(cfg, s, input).value, input.caller, token, nonce, held - SetBytes(input.args[2]))
  {
    hide SaveWithLiquidity, Changed, KeyOf;
    var token, nonce, value: int := input.args[0], U64(SetBytes(input.args[1])), SetBytes(input.args[2]);
    var t := TokenAt(cfg, s, input.caller, token, nonce);
    ChangedReadsBack(cfg, s, input, token, nonce, t.(value := t.value - value), -value);
  }
}
