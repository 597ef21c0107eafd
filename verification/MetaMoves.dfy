// A token keeps its type, properties and metadata when it moves: inside a shard, and from the sender's account
// over a message to the receiver's.
module MetaMoves {
  import opened Bytes
  import opened Wrappers
  import opened TokenId
  import opened Ledger
  import opened Transfers
  import opened Totals
  import opened Shapes
  import opened Bitmap
  import opened Network
  import opened Outputs
  import opened Payloads
  import opened MultiMoves
  import opened Metadata

  // ----- inside a shard -----

  /** What `a` has of the item's token is `before` with `value`, or nothing. */
  ghost predicate ReadsAs(cfg: Config, s: Shard, s1: Shard, a: Addr, item: Item, before: Token, value: int) {
    var key, after := KeyOf(item.token, item.nonce), TokenAt(cfg, s1, a, item.token, item.nonce);
    if value <= 0 then
      Slot(a, key) !in s1.accounts
    else
      && after.value == value && after.typ == before.typ && after.properties == before.properties
      && (item.nonce > 0 ==> MetaStays(cfg, s, s1, key, before.meta, after.meta))
  }

  /** The entry is as it was, or got the metadata read where it had none. */
  ghost predicate EntryKept(cfg: Config, s: Shard, s1: Shard, item: Item, before: Token) {
    var key := KeyOf(item.token, item.nonce);
    || s1.system == s.system
    || (cfg.saveToSystem && item.nonce > 0 && key in s1.system && (key in s.system ==> s.system[key].meta.None?)
        && EntryMeta(s1, key) == before.meta)
  }

  lemma SaveKeepsEntry(
    cfg: Config, s: Shard, s1: Shard, input: Input, src: Addr, a: Addr, item: Item, before: Token, value: int)
    requires EntryKept(cfg, s, s1, item, before)
    requires Slot(src, KeyOf(item.token, item.nonce)) in s.accounts
    requires before == TokenAt(cfg, s, src, item.token, item.nonce)
    requires SaveToken(cfg, s1, input, src, a, item.token, item.nonce, before.(value := value), false).Ok?
    ensures EntryKept(cfg, s,
                      SaveToken(cfg, s1, input, src, a, item.token, item.nonce, before.(value := value), false).value,
                      item, before)
  {
    hide SaveToken, KeyOf;
    SavedEntry(cfg, s1, input, src, a, item.token, item.nonce, before.(value := value), false);
    var key := KeyOf(item.token, item.nonce);
    if key in s.system {
      assert s.system[key := s.system[key].(meta := s.system[key].meta)] == s.system;
    }
  }

  lemma SavedRecord(
    cfg: Config, s1: Shard, input: Input, sender: Addr, a: Addr, item: Item, t: Token)
    requires SaveToken(cfg, s1, input, sender, a, item.token, item.nonce, t, false).Ok?
    ensures var s2 := SaveToken(cfg, s1, input, sender, a, item.token, item.nonce, t, false).value;
            var slot := Slot(a, KeyOf(item.token, item.nonce));
            && SameExcept(s1, s2, slot) && (slot in s2.accounts <==> t.value > 0)
            && (slot in s2.accounts ==> s2.accounts[slot] == OnAccount(cfg, t))
  {
    hide SaveToken, KeyOf;
    SaveTokenWrites(cfg, s1, input, sender, a, item.token, item.nonce, t, false);
    if t.value <= 0 {
      DroppedAtZero(cfg, s1, input, sender, a, item.token, item.nonce, t, false);
    }
  }

  lemma RecordReads(cfg: Config, s: Shard, s1: Shard, src: Addr, a: Addr, item: Item, before: Token, value: int)
    requires EntryKept(cfg, s, s1, item, before) && Slot(src, KeyOf(item.token, item.nonce)) in s.accounts
    requires before == TokenAt(cfg, s, src, item.token, item.nonce)
    requires var slot := Slot(a, KeyOf(item.token, item.nonce));
             && (slot in s1.accounts <==> value > 0)
             && (slot in s1.accounts ==> s1.accounts[slot] == OnAccount(cfg, before.(value := value)))
    ensures ReadsAs(cfg, s, s1, a, item, before, value)
  {
    hide KeyOf;
  }

  /** After `item` moved from `src` to `dst` inside a shard, both read the token `src` had, with its type,
      properties and metadata; what `dst` had of properties and metadata before is lost. */
  ghost predicate MovedWhole(cfg: Config, s: Shard, s1: Shard, src: Addr, dst: Addr, item: Item) {
    var key, before := KeyOf(item.token, item.nonce), TokenAt(cfg, s, src, item.token, item.nonce);
    && Slot(src, key) in s.accounts && before.value >= item.value
    && ReadsAs(cfg, s, s1, src, item, before, before.value - item.value)
    && ReadsAs(cfg, s, s1, dst, item, before, Holding(s, Slot(dst, key)) + item.value)
  }

  lemma TwoSavesRead(
    cfg: Config, s: Shard, s1: Shard, s2: Shard, input: Input, dst: Addr, item: Item, before: Token, left: int,
    sum: int)
    requires input.caller != dst && Slot(input.caller, KeyOf(item.token, item.nonce)) in s.accounts
    requires before == TokenAt(cfg, s, input.caller, item.token, item.nonce)
    requires Ok(s1) == SaveToken(cfg, s, input, input.caller, input.caller, item.token, item.nonce,
                                 before.(value := left), false)
    requires Ok(s2) == SaveToken(cfg, s1, input, input.caller, dst, item.token, item.nonce, before.(value := sum),
                                 false)
    ensures ReadsAs(cfg, s, s2, input.caller, item, before, left) && ReadsAs(cfg, s, s2, dst, item, before, sum)
    ensures var slot := Slot(dst, KeyOf(item.token, item.nonce)); Holding(s1, slot) == Holding(s, slot)
  {
    assert EntryKept(cfg, s, s, item, before);
    hide SaveToken, KeyOf, ReadsAs, EntryKept, OnAccount, TokenAt;
    var src := input.caller;
    SavedRecord(cfg, s, input, src, src, item, before.(value := left));
    SavedRecord(cfg, s1, input, src, dst, item, before.(value := sum));
    SaveKeepsEntry(cfg, s, s, input, src, src, item, before, left);
    SaveKeepsEntry(cfg, s, s1, input, src, dst, item, before, sum);
    RecordReads(cfg, s, s2, src, src, item, before, left);
    RecordReads(cfg, s, s2, src, dst, item, before, sum);
  }

  lemma MoveReads(cfg: Config, s: Shard, input: Input, dst: Addr, item: Item)
    requires cfg.shardOf(input.caller) == cfg.shardOf(dst) == s.id && input.caller != dst
    requires Debit(cfg, s, input, item).Ok?
    requires var (s1, t) := Debit(cfg, s, input, item).value; Settle(cfg, s1, input, dst, item, t).Ok?
    ensures var (s1, t) := Debit(cfg, s, input, item).value;
            MovedWhole(cfg, s, Settle(cfg, s1, input, dst, item, t).value.0, input.caller, dst, item)
  {
    hide SaveToken, Credit, KeyOf, ReadsAs, TokenAt;
    var (s1, t) := Debit(cfg, s, input, item).value;
    var before := TokenAt(cfg, s, input.caller, item.token, item.nonce);
    DebitShape(cfg, s, input, item);
    CreditHereShape(cfg, s1, input, input.caller, dst, t, item.token, item.nonce);
    HeldIs(cfg, s1, dst, item.token, item.nonce);
    var s2 := Credit(cfg, s1, input, input.caller, dst, t, item.token, item.nonce).value.0;
    TwoSavesRead(cfg, s, s1, s2, input, dst, item, before, before.value - item.value,
                 item.value + Holding(s1, Slot(dst, KeyOf(item.token, item.nonce))));
  }

  /** One turn of a multi transfer inside a shard. */
  lemma SendOneReads(cfg: Config, s: Shard, input: Input, dst: Addr, item: Item)
    requires cfg.shardOf(input.caller) == cfg.shardOf(dst) == s.id && input.caller != dst
    requires SendOne(cfg, s, input, dst, item).Ok?
    ensures item.value > 0 && MovedWhole(cfg, s, SendOne(cfg, s, input, dst, item).value.0, input.caller, dst, item)
  {
    hide Debit, Settle, MovedWhole;
    SendOneShape(cfg, s, input, dst, item);
    MoveReads(cfg, s, input, dst, item);
  }

  /** A single transfer inside a shard moves the amount named third of the token and nonce named first and second
      to the address named fourth, and the receiver reads the sender's token. */
  lemma NftIsOneMove(cfg: Config, s: Shard, input: Input)
    requires NonNegative(s) && input.caller == input.recipient && |input.args| >= NFT_MIN_ARGS
    requires cfg.shardOf(input.caller) == cfg.shardOf(input.args[3]) == s.id && NftTransfer(cfg, s, input).Ok?
    ensures var item := Item(input.args[0], U64(SetBytes(input.args[1])), SetBytes(input.args[2]));
            var s1, dst := NftTransfer(cfg, s, input).value.0, input.args[3];
            && dst != input.caller && item.nonce > 0
            && MovesOne(s, s1, item, input.caller, dst) && MovedWhole(cfg, s, s1, input.caller, dst, item)
  {
    hide SendNft, Debit, Settle, MovedWhole, MovesOne, KeyOf, AlreadySent, SendOutput;
    var item, dst := NftItem(input.args), input.args[3];
    SendNftShape(cfg, s, input);
    DebitShape(cfg, s, input, item);
    var (s1, t) := Debit(cfg, s, input, item).value;
    MoveReads(cfg, s, input, dst, item);
    SettleMoves(cfg, s, s1, input, dst, item, t);
    var s2 := Settle(cfg, s1, input, dst, item, t).value.0;
    SettleSameShard(cfg, s1, input, dst, item, t);
    NothingSentInside(cfg, s2, item.token, item.nonce, dst);
  }

  lemma NothingSentInside(cfg: Config, s: Shard, token: bytes, nonce: nat, dst: Addr)
    requires cfg.shardOf(dst) == s.id && AlreadySent(cfg, s, token, nonce, dst).Ok?
    ensures AlreadySent(cfg, s, token, nonce, dst).value.1 == s
  {
  }

  // ----- on delivery -----

  /** After `t` arrived from another shard, its receiver has its type and properties and the sum of both values;
      the metadata is that of `t` where accounts keep it or there was no entry, and otherwise that of the entry,
      unless entries are refreshed from what arrives. */
  ghost predicate Arrived(cfg: Config, s: Shard, s1: Shard, dst: Addr, token: bytes, nonce: nat, t: Token) {
    var key, after := KeyOf(token, nonce), TokenAt(cfg, s1, dst, token, nonce);
    var sum := Holding(s, Slot(dst, key)) + t.value;
    && SameExcept(s, s1, Slot(dst, key))
    && (sum <= 0 ==> Slot(dst, key) !in s1.accounts)
    && (sum > 0 ==>
          && after.value == sum && after.typ == t.typ && after.properties == t.properties
          && (!cfg.saveToSystem ==> after.meta == t.meta)
          && (cfg.saveToSystem && nonce > 0 && key in s1.system ==>
                after.meta == if key !in s.system then t.meta
                              else if t.meta.Some? && Refreshes(cfg, s, key) then t.meta
                              else EntryMeta(s, key)))
  }

  /** Saving a token refreshes the metadata of an existing entry. */
  predicate Refreshes(cfg: Config, s: Shard, key: bytes) {
    cfg.alwaysSaveMetaData && cfg.sendAlways && key in s.system && s.system[key].reserved == []
  }

  lemma CreditReads(
    cfg: Config, s: Shard, input: Input, snd: Addr, dst: Addr, t: Token, token: bytes, nonce: nat)
    requires cfg.shardOf(snd) != cfg.shardOf(dst) && Credit(cfg, s, input, snd, dst, t, token, nonce).Ok?
    ensures Arrived(cfg, s, Credit(cfg, s, input, snd, dst, t, token, nonce).value.0, dst, token, nonce, t)
  {
    hide SaveToken, AddLiquidity, Credit, KeyOf, TokenAt;
    var held := TokenAt(cfg, s, dst, token, nonce).value;
    HeldIs(cfg, s, dst, token, nonce);
    var sum := t.(value := t.value + held);
    CreditFarShape(cfg, s, input, snd, dst, t, token, nonce);
    var saved := SaveToken(cfg, s, input, snd, dst, token, nonce, sum, false).value;
    SaveTokenWrites(cfg, s, input, snd, dst, token, nonce, sum, false);
    AddLiquidityWrites(cfg, saved, token, nonce, t.value);
    SavedEntry(cfg, s, input, snd, dst, token, nonce, sum, false);
    AdjustedEntry(cfg, saved, token, nonce, t.value);
    if sum.value > 0 {
      AdjustedReadsBack(cfg, s, input, snd, dst, token, nonce, sum, false, t.value);
    } else {
      DroppedAtZero(cfg, s, input, snd, dst, token, nonce, sum, false);
    }
  }

  lemma HeldIs(cfg: Config, s: Shard, a: Addr, token: bytes, nonce: nat)
    ensures TokenAt(cfg, s, a, token, nonce).value == Holding(s, Slot(a, KeyOf(token, nonce)))
  {
  }

  /** A delivered single transfer: the zero marker brings the amount named third, any other payload the token it
      spells. */
  lemma NftArrives(cfg: Config, s: Shard, input: Input)
    requires input.caller != input.recipient && NftTransfer(cfg, s, input).Ok?
    ensures |input.args| >= NFT_MIN_ARGS
    ensures var token, nonce, payload := input.args[0], U64(SetBytes(input.args[1])), input.args[3];
            && (payload != ZERO_PAYLOAD ==> cfg.unmarshal(payload).Some?)
            && Arrived(cfg, s, NftTransfer(cfg, s, input).value.0, input.recipient, token, nonce,
                       if payload == ZERO_PAYLOAD then Token(NonFungible, SetBytes(input.args[2]), [], None, [])
                       else cfg.unmarshal(payload).value)
  {
    hide Credit, Arrived, ReceiveOutput;
    var item, t := NftItem(input.args), NftPayload(cfg, input.args).value;
    CreditReads(cfg, s, input, input.caller, input.recipient, t, item.token, item.nonce);
  }

  /** One turn of a delivered multi transfer, for an item with a nonce: a payload of up to 32 bytes is the amount,
      a longer one the token it spells. */
  lemma ItemArrives(cfg: Config, s: Shard, input: Input, i: nat)
    requires 3 * i + 4 <= |input.args| && cfg.shardOf(input.caller) != cfg.shardOf(input.recipient)
    requires U64(SetBytes(input.args[3 * i + 2])) > 0
    requires DecodeItem(cfg, input.args, i).Ok? && ReceiveOne(cfg, s, input, DecodeItem(cfg, input.args, i).value).Ok?
    ensures var token, nonce, payload :=
              input.args[3 * i + 1], U64(SetBytes(input.args[3 * i + 2])), input.args[3 * i + 3];
            && (|payload| > 32 ==> cfg.unmarshal(payload).Some?)
            && Arrived(cfg, s, ReceiveOne(cfg, s, input, DecodeItem(cfg, input.args, i).value).value, input.recipient,
                       token, nonce,
                       if |payload| <= 32 then Token(NonFungible, SetBytes(payload), [], None, [])
                       else cfg.unmarshal(payload).value)
  {
    hide Credit, Arrived;
    var x := DecodeItem(cfg, input.args, i).value;
    CreditReads(cfg, s, input, input.caller, input.recipient, x.tok, x.item.token, x.item.nonce);
  }

  /** A single transfer from shard to shard, end to end: what arrives is the sender's token with its type,
      properties and metadata, carrying the amount sent; or the amount alone, where the sender's shard knows the
      metadata to be there and the amount is not one. */
  lemma NftEndToEnd(cfg: Config, s: Shard, input: Input, s1: Shard, env: Input, args: seq<bytes>)
    requires Lawful(cfg) && cfg.shardOf(input.caller) == s.id && (TracksMetaData(cfg) ==> Plain(s))
    requires input.caller == input.recipient && |input.args| >= NFT_MIN_ARGS && cfg.shardOf(input.args[3]) != s.id
    requires Sends(NftTransfer(cfg, s, input), NFT_TRANSFER, args)
    requires NftTransfer(cfg, s1, Delivery(input.caller, input.args[3], args, env)).Ok?
    ensures var token, nonce, value := input.args[0], U64(SetBytes(input.args[1])), SetBytes(input.args[2]);
            var whole := !Knows(cfg, s, KeyOf(token, nonce), input.args[3]) || value == 1;
            Arrived(cfg, s1, NftTransfer(cfg, s1, Delivery(input.caller, input.args[3], args, env)).value.0,
                    input.args[3], token, nonce,
                    if whole then TokenAt(cfg, s, input.caller, token, nonce).(value := value)
                    else Token(NonFungible, value, [], None, []))
  {
    hide NftTransfer, Knows, Arrived, TokenAt, KeyOf;
    NftForms(cfg, s, input);
    var token, nonce, value := input.args[0], U64(SetBytes(input.args[1])), SetBytes(input.args[2]);
    var whole := !Knows(cfg, s, KeyOf(token, nonce), input.args[3]) || value == 1;
    var payload :|
      && Sends(NftTransfer(cfg, s, input), NFT_TRANSFER, input.args[..3] + [payload] + input.args[4..])
      && (!whole ==> payload == ZERO_PAYLOAD)
      && (whole ==>
            && |payload| > MAX_VALUE_LENGTH
            && cfg.unmarshal(payload) == Some(TokenAt(cfg, s, input.caller, token, nonce).(value := value)));
    NftArrives(cfg, s1, Delivery(input.caller, input.args[3], args, env));
  }
}
