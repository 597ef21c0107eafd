// Which form a transferred NFT takes in a message: the whole token, which is paid for by the byte, or only its
// amount, where the receiver's shard is known to have the metadata.
module Payloads {
  import opened Bytes
  import opened Wrappers
  import opened TokenId
  import opened Ledger
  import opened Transfers
  import opened Shapes
  import opened Wire
  import opened Bitmap
  import opened Emission
  import opened Gas
  import opened MultiMoves
  import opened Outputs

  /** The shard `s` knows that the receiver's shard has the metadata of `key`: it is the same shard, or the
      entry marks it. The metachain counts as knowing, and nobody is known to while all data is always sent. */
  ghost predicate Knows(cfg: Config, s: Shard, key: bytes, dst: Addr) {
    var to := cfg.shardOf(dst);
    cfg.saveToSystem && (to == s.id || (!cfg.sendAlways && (to == META || Marks(s, key, to))))
  }

  /** The question about the receiver's shard is answered by the marks, and leaves a mark where there is an
      entry. */
  lemma AlreadySentExactly(cfg: Config, s: Shard, token: bytes, nonce: nat, dst: Addr, other: bytes)
    requires nonce > 0 && AlreadySent(cfg, s, token, nonce, dst).Ok?
    ensures var (sent, s1) := AlreadySent(cfg, s, token, nonce, dst).value;
            var key := KeyOf(token, nonce);
            && (sent <==> Knows(cfg, s, key, dst))
            && s1.id == s.id && s1.accounts == s.accounts && s1.system.Keys == s.system.Keys
            && (Knows(cfg, s1, other, dst) <==>
                  || Knows(cfg, s, other, dst)
                  || (TracksMetaData(cfg) && other == key && key in s.system))
  {
    hide KeyOf;
  }

  function KeyOfItem(item: Item): bytes {
    KeyOf(item.token, item.nonce)
  }

  /** When item `k` is spelled, its metadata is known to be there: from the beginning, or because an item from
      `i` on with the same key went before. */
  ghost predicate KnownAt(cfg: Config, s: Shard, items: seq<Item>, dst: Addr, i: nat, k: nat)
    requires k < |items|
  {
    || Knows(cfg, s, KeyOfItem(items[k]), dst)
    || (TracksMetaData(cfg) && KeyOfItem(items[k]) in s.system && Earlier(items, i, k))
  }

  ghost predicate Earlier(items: seq<Item>, i: nat, k: nat)
    requires k < |items|
  {
    exists j :: i <= j < k && items[j].nonce > 0 && KeyOfItem(items[j]) == KeyOfItem(items[k])
  }

  /** The item travels with its whole token: it has a nonce, and its metadata is not known to be there, or its
      amount is one or too long. */
  ghost predicate TravelsWhole(cfg: Config, s: Shard, items: seq<Item>, dst: Addr, i: nat, k: nat)
    requires k < |items|
  {
    && items[k].nonce > 0
    && (!KnownAt(cfg, s, items, dst, i, k) || items[k].value == 1 || |ToBytes(items[k].value)| > MAX_VALUE_LENGTH)
  }

  /** What the first item's question changes for a later one. */
  lemma KnownLater(cfg: Config, s: Shard, one: Shard, items: seq<Item>, dst: Addr, i: nat, k: nat)
    requires i < k < |items|
    requires one.system.Keys == s.system.Keys
    requires var key := KeyOfItem(items[k]);
             Knows(cfg, one, key, dst) <==>
               || Knows(cfg, s, key, dst)
               || (items[i].nonce > 0 && TracksMetaData(cfg) && key == KeyOfItem(items[i]) && key in s.system)
    ensures TravelsWhole(cfg, one, items, dst, i + 1, k) <==> TravelsWhole(cfg, s, items, dst, i, k)
  {
    hide Knows, KeyOfItem, TracksMetaData;
    assert Earlier(items, i, k) <==>
           Earlier(items, i + 1, k) || (items[i].nonce > 0 && KeyOfItem(items[i]) == KeyOfItem(items[k]));
  }

  /** The form of one item. */
  ghost predicate FormOf(cfg: Config, payload: bytes, x: Sent, whole: bool) {
    payload == if whole then cfg.marshal(x.tok) else ToBytes(x.item.value)
  }

  ghost predicate FormsOf(
    cfg: Config, s: Shard, encoded: seq<bytes>, sent: seq<Sent>, items: seq<Item>, dst: Addr, i: nat)
  {
    && |items| == |sent| && i <= |sent| && |encoded| == 3 * (|sent| - i)
    && forall k :: i <= k < |sent| ==>
         FormOf(cfg, encoded[3 * (k - i) + 2], sent[k], TravelsWhole(cfg, s, items, dst, i, k))
  }

  lemma PayloadForm(cfg: Config, s: Shard, sent: seq<Sent>, items: seq<Item>, dst: Addr, gas: nat, i: nat)
    requires |items| == |sent| && i < |sent| && items[i] == sent[i].item
    requires EncodePayload(cfg, s, sent[i], dst, gas).Ok?
    ensures var (one, payload, left) := EncodePayload(cfg, s, sent[i], dst, gas).value;
            && FormOf(cfg, payload, sent[i], TravelsWhole(cfg, s, items, dst, i, i))
            && one.system.Keys == s.system.Keys
            && forall key :: Knows(cfg, one, key, dst) <==>
                 || Knows(cfg, s, key, dst)
                 || (items[i].nonce > 0 && TracksMetaData(cfg) && key == KeyOfItem(items[i]) && key in s.system)
  {
    hide AlreadySent, Knows;
    var item := items[i];
    if item.nonce > 0 && AlreadySent(cfg, s, item.token, item.nonce, dst).Ok? {
      forall key
        ensures var (sent, s1) := AlreadySent(cfg, s, item.token, item.nonce, dst).value;
                && (sent <==> Knows(cfg, s, KeyOfItem(item), dst)) && s1.system.Keys == s.system.Keys
                && (Knows(cfg, s1, key, dst) <==>
                      || Knows(cfg, s, key, dst)
                      || (TracksMetaData(cfg) && key == KeyOfItem(item) && key in s.system))
      {
        AlreadySentExactly(cfg, s, item.token, item.nonce, dst, key);
      }
    }
  }

  lemma FormsCons(
    cfg: Config, s: Shard, one: Shard, payload: bytes, rest: seq<bytes>, sent: seq<Sent>, items: seq<Item>, dst: Addr,
    i: nat)
    requires |items| == |sent| && i < |sent|
    requires FormOf(cfg, payload, sent[i], TravelsWhole(cfg, s, items, dst, i, i))
    requires FormsOf(cfg, one, rest, sent, items, dst, i + 1)
    requires forall k :: i < k < |items| ==>
               (TravelsWhole(cfg, one, items, dst, i + 1, k) <==> TravelsWhole(cfg, s, items, dst, i, k))
    ensures FormsOf(cfg, s, [sent[i].item.token, NonceArg(sent[i].item.nonce), payload] + rest, sent, items, dst, i)
  {
    hide TravelsWhole, FormOf;
    var encoded := [sent[i].item.token, NonceArg(sent[i].item.nonce), payload] + rest;
    forall k | i <= k < |sent|
      ensures FormOf(cfg, encoded[3 * (k - i) + 2], sent[k], TravelsWhole(cfg, s, items, dst, i, k))
    {
      if k > i {
        assert encoded[3 * (k - i) + 2] == rest[3 * (k - (i + 1)) + 2];
      }
    }
  }

  /** The argument loop spells every item in the form that its metadata calls for. */
  lemma {:induction false} EncodedForms(
    cfg: Config, s: Shard, sent: seq<Sent>, items: seq<Item>, dst: Addr, gas: nat, i: nat)
    requires |items| == |sent| && i <= |sent| && forall k :: 0 <= k < |sent| ==> items[k] == sent[k].item
    requires EncodeItems(cfg, s, sent, dst, gas, i).Ok?
    ensures FormsOf(cfg, s, EncodeItems(cfg, s, sent, dst, gas, i).value.1, sent, items, dst, i)
    decreases |sent| - i
  {
    hide EncodePayload, Knows, TravelsWhole, FormOf;
    if i < |sent| {
      var (one, payload, left) := EncodePayload(cfg, s, sent[i], dst, gas).value;
      EncodedForms(cfg, one, sent, items, dst, left, i + 1);
      PayloadForm(cfg, s, sent, items, dst, gas, i);
      forall k | i < k < |items|
        ensures TravelsWhole(cfg, one, items, dst, i + 1, k) <==> TravelsWhole(cfg, s, items, dst, i, k)
      {
        KnownLater(cfg, s, one, items, dst, i, k);
      }
      FormsCons(cfg, s, one, payload, EncodeItems(cfg, one, sent, dst, left, i + 1).value.1, sent, items, dst, i);
    }
  }

  // ----- whole transfers -----

  /** What the sender's side keeps of what it knows while it debits and credits. */
  lemma TravelsSame(cfg: Config, s: Shard, moved: Shard, items: seq<Item>, dst: Addr, k: nat)
    requires k < |items| && moved.id == s.id && (TracksMetaData(cfg) ==> moved.system == s.system)
    ensures TravelsWhole(cfg, moved, items, dst, 0, k) <==> TravelsWhole(cfg, s, items, dst, 0, k)
  {
  }

  /** The three arguments that spell item `k`: its token and nonce, and the whole token or the amount alone. The
      bytes are paid for exactly in the first case. */
  ghost predicate SpelledAs(
    cfg: Config, spelled: seq<bytes>, k: nat, item: Item, whole: bool, crosses: bool)
    requires 3 * k + 3 <= |spelled|
  {
    && spelled[3 * k] == item.token && U64(SetBytes(spelled[3 * k + 1])) == item.nonce
    && (PaidAt(spelled, 3 * k) <==> whole)
    && (!whole ==> spelled[3 * k + 2] == ToBytes(item.value))
    && (whole && crosses ==>
          cfg.unmarshal(spelled[3 * k + 2]).Some? && cfg.unmarshal(spelled[3 * k + 2]).value.value == item.value)
  }

  lemma FormSpelled(cfg: Config, spelled: seq<bytes>, k: nat, x: Sent, whole: bool, crosses: bool)
    requires Lawful(cfg) && 3 * k + 3 <= |spelled| && SpellsOne(cfg, spelled, 3 * k, x)
    requires FormOf(cfg, spelled[3 * k + 2], x, whole) && (whole ==> x.item.nonce > 0)
    requires !whole && x.item.nonce > 0 ==> |ToBytes(x.item.value)| <= MAX_VALUE_LENGTH
    requires crosses ==> x.tok.value == x.item.value
    ensures SpelledAs(cfg, spelled, k, x.item, whole, crosses)
  {
    hide ToBytes, SetBytes;
    NonceArgDecodes(x.item.nonce);
  }

  lemma SendAllForms(cfg: Config, s: Shard, input: Input, dst: Addr, n: nat, gas: nat)
    requires Lawful(cfg) && cfg.shardOf(input.caller) == s.id && (TracksMetaData(cfg) ==> Plain(s))
    requires 3 * n + 2 <= |input.args| && SendAll(cfg, s, input, dst, n, gas).Ok?
    ensures var spelled, items := SpelledBy(cfg, s, input, dst, n, gas), ItemsFrom(input.args, n, 0);
            && |spelled| == 3 * n
            && forall k :: 0 <= k < n ==>
                 SpelledAs(cfg, spelled, k, items[k], TravelsWhole(cfg, s, items, dst, 0, k), cfg.shardOf(dst) != s.id)
  {
    hide SendItems, EncodeItems, Spells, FormOf, TravelsWhole, SpelledAs, SpellsOne;
    var items := ItemsFrom(input.args, n, 0);
    var (moved, sent) := SendItems(cfg, s, input, dst, n, 0).value;
    SendAllShape(cfg, s, input, dst, n, gas);
    SentRecords(cfg, s, input, dst, n, 0);
    if TracksMetaData(cfg) {
      SendItemsEntries(cfg, s, input, dst, n, 0);
    }
    forall k | 0 <= k < n
      ensures items[k] == sent[k].item && (cfg.shardOf(dst) != s.id ==> sent[k].tok.value == sent[k].item.value)
    {
      assert RecordsItem(cfg, s.id, input.args, dst, 0 + k, sent[k]);
    }
    var spelled := EncodeItems(cfg, moved, sent, dst, gas, 0).value.1;
    EncodeSpells(cfg, moved, sent, dst, gas, 0);
    EncodedForms(cfg, moved, sent, items, dst, gas, 0);
    forall k | 0 <= k < n
      ensures SpelledAs(cfg, spelled, k, items[k], TravelsWhole(cfg, s, items, dst, 0, k), cfg.shardOf(dst) != s.id)
    {
      TravelsSame(cfg, s, moved, items, dst, k);
      ItemSpelled(cfg, moved, spelled, sent, items, dst, k, cfg.shardOf(dst) != s.id);
    }
  }

  lemma ItemSpelled(
    cfg: Config, s: Shard, spelled: seq<bytes>, sent: seq<Sent>, items: seq<Item>, dst: Addr, k: nat, crosses: bool)
    requires Lawful(cfg) && k < |sent| && Spells(cfg, spelled, sent, 0)
    requires FormsOf(cfg, s, spelled, sent, items, dst, 0) && items[k] == sent[k].item
    requires crosses ==> sent[k].tok.value == sent[k].item.value
    ensures 3 * k + 3 <= |spelled|
    ensures SpelledAs(cfg, spelled, k, items[k], TravelsWhole(cfg, s, items, dst, 0, k), crosses)
  {
    hide FormOf, SpelledAs, KnownAt;
    assert SpellsOne(cfg, spelled, 3 * (k - 0), sent[k]);
    assert FormOf(cfg, spelled[3 * (k - 0) + 2], sent[k], TravelsWhole(cfg, s, items, dst, 0, k));
    FormSpelled(cfg, spelled, k, sent[k], TravelsWhole(cfg, s, items, dst, 0, k), crosses);
  }

  /** A multi transfer: every NFT travels whole exactly when the sender's shard does not know its metadata to be
      with the receiver, or its amount is one or longer than 32 bytes; otherwise only the amount travels, free of
      charge. A second item of the same token counts as known once the first went. */
  lemma MultiForms(cfg: Config, s: Shard, input: Input)
    requires Lawful(cfg) && cfg.shardOf(input.caller) == s.id && (TracksMetaData(cfg) ==> Plain(s))
    requires input.caller == input.recipient && MultiTransfer(cfg, s, input).Ok?
    ensures |input.args| >= 4 && SendMulti(cfg, s, input).Ok?
    ensures var n, dst, spelled := U64(SetBytes(input.args[1])), input.args[0], Spelled(cfg, s, input);
            && 3 * n + 2 <= |input.args| && |spelled| == 3 * n
            && (forall k :: 0 <= k < n ==>
                  SpelledAs(cfg, spelled, k, ItemsFrom(input.args, n, 0)[k],
                            TravelsWhole(cfg, s, ItemsFrom(input.args, n, 0), dst, 0, k), cfg.shardOf(dst) != s.id))
            && (cfg.shardOf(dst) != s.id ==>
                  Sends(MultiTransfer(cfg, s, input), MULTI_TRANSFER,
                        [ToBytes(n)] + spelled + input.args[3 * n + 2..]))
  {
    hide SendMulti, SendAll, SpelledAs, TravelsWhole, SpelledBy, Sends;
    var n, dst := U64(SetBytes(input.args[1])), input.args[0];
    SendMultiChecks(cfg, s, input);
    SendAllForms(cfg, s, input, dst, n, input.gasProvided - U64(n * cfg.multiGas));
    if cfg.shardOf(dst) != s.id {
      SendAllText(cfg, s, input, dst, n, input.gasProvided - U64(n * cfg.multiGas));
    }
  }

  lemma SendAllText(cfg: Config, s: Shard, input: Input, dst: Addr, n: nat, gas: nat)
    requires 3 * n + 2 <= |input.args| && SendAll(cfg, s, input, dst, n, gas).Ok? && cfg.shardOf(dst) != s.id
    ensures Sends(SendAll(cfg, s, input, dst, n, gas), MULTI_TRANSFER,
                  [ToBytes(n)] + SpelledBy(cfg, s, input, dst, n, gas) + input.args[3 * n + 2..])
  {
    hide SendItems, MultiOutput, EncodeItems;
    var (moved, sent) := SendItems(cfg, s, input, dst, n, 0).value;
    SendAllShape(cfg, s, input, dst, n, gas);
    SentRecords(cfg, s, input, dst, n, 0);
    MultiTextFunction(cfg, moved, input, dst, sent, gas);
  }

  /** A single transfer to another shard: the sender's whole token travels exactly when its metadata is not known to be
      there or its amount is one; otherwise the zero marker travels, free of charge. */
  lemma NftForms(cfg: Config, s: Shard, input: Input)
    requires Lawful(cfg) && cfg.shardOf(input.caller) == s.id && (TracksMetaData(cfg) ==> Plain(s))
    requires input.caller == input.recipient && |input.args| >= NFT_MIN_ARGS && cfg.shardOf(input.args[3]) != s.id
    requires NftTransfer(cfg, s, input).Ok?
    ensures var r, dst := NftTransfer(cfg, s, input), input.args[3];
            var key, value := KeyOf(input.args[0], U64(SetBytes(input.args[1]))), SetBytes(input.args[2]);
            var whole := !Knows(cfg, s, key, dst) || value == 1;
            exists payload ::
              && Sends(r, NFT_TRANSFER, input.args[..3] + [payload] + input.args[4..])
              && input.gasProvided ==
                 GasIn(r.value.1) + cfg.nftGas + (if whole then U64(|payload| * cfg.copyGas) else 0)
              && (!whole ==> payload == ZERO_PAYLOAD)
              && (whole ==>
                    && |payload| > MAX_VALUE_LENGTH
                    && cfg.unmarshal(payload) ==
                       Some(TokenAt(cfg, s, input.caller, input.args[0], U64(SetBytes(input.args[1])))
                            .(value := value)))
  {
    hide SendNft, Debit, Settle, NftOutput, Knows, AlreadySent, SenderEnds, Sends, KeyOf;
    var item, dst := NftItem(input.args), input.args[3];
    SendNftShape(cfg, s, input);
    DebitShape(cfg, s, input, item);
    var (s1, t1) := Debit(cfg, s, input, item).value;
    SettleSameShard(cfg, s1, input, dst, item, t1);
    SettleFarShape(cfg, s1, input, dst, item, t1);
    var (s2, t) := Settle(cfg, s1, input, dst, item, t1).value;
    if TracksMetaData(cfg) {
      MoveEntries(cfg, s, input, dst, item);
    }
    KnowsSame(cfg, s, s2, KeyOf(item.token, item.nonce), dst);
    NftForm(cfg, s2, input, t, input.gasProvided - cfg.nftGas);
  }

  lemma KnowsSame(cfg: Config, s: Shard, s1: Shard, key: bytes, dst: Addr)
    requires s1.id == s.id && (TracksMetaData(cfg) ==> s1.system == s.system)
    ensures Knows(cfg, s1, key, dst) <==> Knows(cfg, s, key, dst)
  {
  }

  lemma NftForm(cfg: Config, s: Shard, input: Input, t: Token, gas: nat)
    requires Lawful(cfg) && |input.args| >= NFT_MIN_ARGS && cfg.shardOf(input.args[3]) != s.id
    requires NftItem(input.args).nonce > 0 && t.value == NftItem(input.args).value
    requires NftOutput(cfg, s, input, t, gas).Ok?
    ensures var r, item, dst := NftOutput(cfg, s, input, t, gas), NftItem(input.args), input.args[3];
            var whole := !Knows(cfg, s, KeyOf(item.token, item.nonce), dst) || item.value == 1;
            var payload := if whole then cfg.marshal(t) else ZERO_PAYLOAD;
            && Sends(r, NFT_TRANSFER, input.args[..3] + [payload] + input.args[4..])
            && gas == GasIn(r.value.1) + if whole then U64(|payload| * cfg.copyGas) else 0
  {
    hide Knows, AlreadySent, NftOutput, KeyOf;
    var item, dst := NftItem(input.args), input.args[3];
    NftOutputGas(cfg, s, input, t, gas);
    NftTextArgs(cfg, s, input, t, gas);
    AlreadySentExactly(cfg, s, item.token, item.nonce, dst, []);
    NftChargeIs(cfg, NftPayloadOf(cfg, s, input, t));
  }
}
