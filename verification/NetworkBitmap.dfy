// The record of which shards know a token's metadata, over every run of the network.
module NetworkBitmap {
  import opened Bytes
  import opened Wrappers
  import opened TokenId
  import opened Ledger
  import opened Transfers
  import opened TxData
  import opened Shapes
  import opened Wire
  import opened Network
  import opened Emission
  import opened Bitmap

  // ----- what sending emits -----

  /** A sender-side function adds a mark only together with a message to the marked shard that carries
      the metadata, and messages carry metadata only of entries the sender's shard has. */
  ghost predicate SendsKnown(cfg: Config, s: Shard, s1: Shard, msgs: seq<Msg>) {
    && s1.id == s.id && Plain(s1) && s1.system.Keys == s.system.Keys
    && (forall m :: m in msgs ==>
          && cfg.shardOf(m.src) == s.id != cfg.shardOf(m.dst)
          && forall key :: CarriesMeta(cfg, m, key) ==> key in s.system)
    && (forall key, to :: Marks(s1, key, to) && !Marks(s, key, to) ==> SomeCarries(cfg, msgs, key, to))
  }

  ghost predicate SomeCarries(cfg: Config, msgs: seq<Msg>, key: bytes, to: nat) {
    exists m :: m in msgs && cfg.shardOf(m.dst) == to && CarriesMeta(cfg, m, key)
  }

  /** An item carries metadata to the receiver exactly when it was spelled with its whole token. */
  lemma SpelledMeta(cfg: Config, s: Shard, sent: seq<Sent>, encoded: seq<bytes>, call: seq<bytes>, k: nat, key: bytes)
    requires Lawful(cfg) && Spells(cfg, encoded, sent, 0) && CarriesItsValue(sent)
    requires k < |sent| && MetaKnown(s, sent[k].item, sent[k].tok)
    ensures var args := MultiArgs(sent, encoded, call);
            && (ItemCarries(cfg, args, k, key) ==> key in s.system)
            && (SpelledWhole(cfg, encoded, sent, 0, k, key) && key in s.system ==> ItemCarries(cfg, args, k, key))
  {
    DecodeAt(cfg, sent, encoded, call, k);
    assert SpellsOne(cfg, encoded, 3 * (k - 0), sent[k]);
  }

  lemma MultiMessageMeta(
    cfg: Config, s: Shard, m: Msg, sent: seq<Sent>, encoded: seq<bytes>, call: seq<bytes>, key: bytes)
    requires Lawful(cfg) && Spells(cfg, encoded, sent, 0) && CarriesItsValue(sent) && sent != []
    requires |MultiArgs(sent, encoded, call)| < TWO64
    requires AllKnown(s, sent) && m.data == Print(MULTI_TRANSFER, MultiArgs(sent, encoded, call))
    ensures CarriesMeta(cfg, m, key) ==> key in s.system
    ensures SpelledSomewhere(cfg, encoded, sent, 0, key) && key in s.system ==> CarriesMeta(cfg, m, key)
  {
    var args := MultiArgs(sent, encoded, call);
    FunctionNames();
    ParsePrint(MULTI_TRANSFER, args);
    CountDecodes(|sent|, args);
    forall k: nat | k < |sent|
      ensures ItemCarries(cfg, args, k, key) ==> key in s.system
      ensures SpelledWhole(cfg, encoded, sent, 0, k, key) && key in s.system ==> ItemCarries(cfg, args, k, key)
    {
      SpelledMeta(cfg, s, sent, encoded, call, k, key);
    }
  }

  lemma MultiOutputKnown(cfg: Config, s: Shard, input: Input, dst: Addr, sent: seq<Sent>, gas: nat)
    requires Lawful(cfg) && TracksMetaData(cfg) && Plain(s) && AllKnown(s, sent) && CarriesItsValue(sent)
    requires sent != [] && 3 * |sent| + 2 <= |input.args| < TWO64
    requires cfg.shardOf(input.caller) == s.id != cfg.shardOf(dst)
    requires MultiOutput(cfg, s, input, dst, sent, gas).Ok?
    ensures var (s1, out) := MultiOutput(cfg, s, input, dst, sent, gas).value;
            SendsKnown(cfg, s, s1, Emitted(cfg, s, out))
  {
    var (s1, encoded, left) := EncodeItems(cfg, s, sent, dst, gas, 0).value;
    var call := input.args[3 * |sent| + 2..];
    var m := Msg(input.caller, dst, Print(MULTI_TRANSFER, MultiArgs(sent, encoded, call)));
    EncodeSpells(cfg, s, sent, dst, gas, 0);
    EncodeMarks(cfg, s, sent, dst, gas, 0, [], 0);
    assert Emitted(cfg, s, MultiOutput(cfg, s, input, dst, sent, gas).value.1) == [m];
    forall key
      ensures CarriesMeta(cfg, m, key) ==> key in s.system
    {
      MultiMessageMeta(cfg, s, m, sent, encoded, call, key);
    }
    forall key, to | Marks(s1, key, to) && !Marks(s, key, to)
      ensures SomeCarries(cfg, [m], key, to)
    {
      EncodeMarks(cfg, s, sent, dst, gas, 0, key, to);
      MultiMessageMeta(cfg, s, m, sent, encoded, call, key);
      assert m in [m];
    }
  }

  /** Nothing is marked and nothing emitted for a receiver in the same shard. */
  lemma {:induction false} EncodeHere(cfg: Config, s: Shard, sent: seq<Sent>, dst: Addr, gas: nat, i: nat)
    requires TracksMetaData(cfg) && cfg.shardOf(dst) == s.id && i <= |sent|
    requires EncodeItems(cfg, s, sent, dst, gas, i).Ok?
    ensures EncodeItems(cfg, s, sent, dst, gas, i).value.0 == s
    decreases |sent| - i
  {
    if i < |sent| {
      var (one, _, left) := EncodePayload(cfg, s, sent[i], dst, gas).value;
      EncodeHere(cfg, one, sent, dst, left, i + 1);
    }
  }

  lemma MultiOutputHere(cfg: Config, s: Shard, input: Input, dst: Addr, sent: seq<Sent>, gas: nat)
    requires TracksMetaData(cfg) && Plain(s) && 3 * |sent| + 2 <= |input.args| && cfg.shardOf(dst) == s.id
    requires MultiOutput(cfg, s, input, dst, sent, gas).Ok?
    ensures var (s1, out) := MultiOutput(cfg, s, input, dst, sent, gas).value;
            SendsKnown(cfg, s, s1, Emitted(cfg, s, out))
  {
    EncodeHere(cfg, s, sent, dst, gas, 0);
  }

  /** What the loop does to accounts changes nothing about entries and messages. */
  lemma SendsKnownFrom(cfg: Config, s: Shard, moved: Shard, s1: Shard, msgs: seq<Msg>)
    requires moved.id == s.id && moved.system == s.system && SendsKnown(cfg, moved, s1, msgs)
    ensures SendsKnown(cfg, s, s1, msgs)
  {
    forall key, to | Marks(s1, key, to) && !Marks(s, key, to)
      ensures SomeCarries(cfg, msgs, key, to)
    {
      assert !Marks(moved, key, to);
    }
  }

  lemma SentCarryValues(cfg: Config, id: nat, args: seq<bytes>, dst: Addr, sent: seq<Sent>)
    requires RecordsFrom(cfg, id, args, dst, 0, sent) && cfg.shardOf(dst) != id
    ensures CarriesItsValue(sent)
  {
    forall k | 0 <= k < |sent|
      ensures sent[k].tok.value == sent[k].item.value
    {
      assert RecordsItem(cfg, id, args, dst, 0 + k, sent[k]);
    }
  }

  ghost predicate PairKnown(cfg: Config, s: Shard, r: Result<(Shard, VMOutput)>) {
    r.Ok? ==> SendsKnown(cfg, s, r.value.0, Emitted(cfg, s, r.value.1))
  }

  lemma SendAllKnown(cfg: Config, s: Shard, input: Input, dst: Addr, n: nat, gas: nat)
    requires Lawful(cfg) && TracksMetaData(cfg) && Plain(s) && cfg.shardOf(input.caller) == s.id
    requires 0 < n && 3 * n + 2 <= |input.args| < TWO64
    ensures PairKnown(cfg, s, SendAll(cfg, s, input, dst, n, gas))
  {
    var all := SendItems(cfg, s, input, dst, n, 0);
    SendAllShape(cfg, s, input, dst, n, gas);
    SendItemsEntries(cfg, s, input, dst, n, 0);
    SentRecords(cfg, s, input, dst, n, 0);
    if all.Ok? && |all.value.1| == n && MultiOutput(cfg, all.value.0, input, dst, all.value.1, gas).Ok? {
      MultiFinishKnown(cfg, s, all.value.0, input, dst, all.value.1, gas);
    }
  }

  lemma SendMultiKnown(cfg: Config, s: Shard, input: Input)
    requires Lawful(cfg) && TracksMetaData(cfg) && Plain(s) && cfg.shardOf(input.caller) == s.id
    requires 4 <= |input.args| < TWO64
    ensures PairKnown(cfg, s, SendMulti(cfg, s, input))
  {
    hide SendMulti, SendAll;
    var n := U64(SetBytes(input.args[1]));
    var gas := input.gasProvided - U64(n * cfg.multiGas);
    SendMultiChecks(cfg, s, input);
    if 0 < n && 3 * n + 2 <= |input.args| && gas >= 0 {
      SendAllKnown(cfg, s, input, input.args[0], n, gas);
    }
  }

  lemma MultiFinishKnown(cfg: Config, s: Shard, moved: Shard, input: Input, dst: Addr, sent: seq<Sent>, gas: nat)
    requires Lawful(cfg) && TracksMetaData(cfg) && Plain(moved) && cfg.shardOf(input.caller) == s.id
    requires moved.id == s.id && moved.system == s.system && AllKnown(s, sent)
    requires RecordsFrom(cfg, s.id, input.args, dst, 0, sent)
    requires sent != [] && 3 * |sent| + 2 <= |input.args| < TWO64
    requires MultiOutput(cfg, moved, input, dst, sent, gas).Ok?
    ensures var (s1, out) := MultiOutput(cfg, moved, input, dst, sent, gas).value;
            SendsKnown(cfg, s, s1, Emitted(cfg, s, out))
  {
    var (s1, out) := MultiOutput(cfg, moved, input, dst, sent, gas).value;
    if cfg.shardOf(dst) == s.id {
      MultiOutputHere(cfg, moved, input, dst, sent, gas);
    } else {
      SentCarryValues(cfg, s.id, input.args, dst, sent);
      MultiOutputKnown(cfg, moved, input, dst, sent, gas);
    }
    SendsKnownFrom(cfg, s, moved, s1, Emitted(cfg, moved, out));
  }

  // ----- single transfers -----

  lemma NftMessageMeta(cfg: Config, s: Shard, m: Msg, args: seq<bytes>, t: Token, whole: bool, key: bytes)
    requires Lawful(cfg) && |args| >= NFT_MIN_ARGS && NftItem(args).nonce > 0
    requires args[3] == (if whole then cfg.marshal(t) else ZERO_PAYLOAD)
    requires MetaKnown(s, NftItem(args), t)
    requires m.data == Print(NFT_TRANSFER, args)
    ensures CarriesMeta(cfg, m, key) ==> key in s.system
    ensures whole && key == KeyOf(args[0], NftItem(args).nonce) && key in s.system ==> CarriesMeta(cfg, m, key)
  {
    FunctionNames();
    ParsePrint(NFT_TRANSFER, args);
    assert whole ==> |args[3]| > MAX_VALUE_LENGTH;
  }

  lemma NftOutputKnown(cfg: Config, s: Shard, input: Input, t: Token, gas: nat)
    requires Lawful(cfg) && TracksMetaData(cfg) && Plain(s) && |input.args| >= NFT_MIN_ARGS
    requires NftItem(input.args).nonce > 0 && MetaKnown(s, NftItem(input.args), t)
    requires cfg.shardOf(input.caller) == s.id
    requires NftOutput(cfg, s, input, t, gas).Ok?
    ensures var (s1, out) := NftOutput(cfg, s, input, t, gas).value;
            SendsKnown(cfg, s, s1, Emitted(cfg, s, out))
  {
    var item, dst := NftItem(input.args), input.args[3];
    var (sent, s1) := AlreadySent(cfg, s, item.token, item.nonce, dst).value;
    AlreadySentMarks(cfg, s, item.token, item.nonce, dst, [], 0);
    var out := NftOutput(cfg, s, input, t, gas).value.1;
    if cfg.shardOf(dst) != s.id {
      var whole := !sent || t.value == 1;
      var args := input.args[..3] + [if whole then cfg.marshal(t) else ZERO_PAYLOAD] + input.args[4..];
      var m := Msg(input.caller, dst, Print(NFT_TRANSFER, args));
      assert NftItem(args) == item;
      assert Emitted(cfg, s, out) == [m];
      NftMarksKnown(cfg, s, s1, sent, item, args, t, whole, m);
    }
  }

  lemma NftMarksKnown(
    cfg: Config, s: Shard, s1: Shard, sent: bool, item: Item, args: seq<bytes>, t: Token, whole: bool, m: Msg)
    requires Lawful(cfg) && TracksMetaData(cfg) && Plain(s) && |args| >= NFT_MIN_ARGS && NftItem(args) == item
    requires item.nonce > 0 && MetaKnown(s, item, t) && (!sent ==> whole)
    requires args[3] == (if whole then cfg.marshal(t) else ZERO_PAYLOAD)
    requires m.data == Print(NFT_TRANSFER, args) && cfg.shardOf(m.src) == s.id != cfg.shardOf(m.dst)
    requires AlreadySent(cfg, s, item.token, item.nonce, m.dst) == Ok((sent, s1))
    ensures SendsKnown(cfg, s, s1, [m])
  {
    AlreadySentMarks(cfg, s, item.token, item.nonce, m.dst, [], 0);
    forall key
      ensures CarriesMeta(cfg, m, key) ==> key in s.system
    {
      NftMessageMeta(cfg, s, m, args, t, whole, key);
    }
    forall key, to | Marks(s1, key, to) && !Marks(s, key, to)
      ensures SomeCarries(cfg, [m], key, to)
    {
      AlreadySentMarks(cfg, s, item.token, item.nonce, m.dst, key, to);
      NftMessageMeta(cfg, s, m, args, t, whole, key);
      assert m in [m];
    }
  }

  lemma SendNftKnown(cfg: Config, s: Shard, input: Input)
    requires Lawful(cfg) && TracksMetaData(cfg) && Plain(s) && cfg.shardOf(input.caller) == s.id
    requires |input.args| >= NFT_MIN_ARGS && SendNft(cfg, s, input).Ok?
    ensures var (s1, out) := SendNft(cfg, s, input).value;
            SendsKnown(cfg, s, s1, Emitted(cfg, s, out))
  {
    hide SendNft, NftOutput, Debit, Settle;
    var item, dst := NftItem(input.args), input.args[3];
    SendNftShape(cfg, s, input);
    MoveEntries(cfg, s, input, dst, item);
    var debited := Debit(cfg, s, input, item).value;
    var (moved, t) := Settle(cfg, debited.0, input, dst, item, debited.1).value;
    NftOutputKnown(cfg, moved, input, t, input.gasProvided - cfg.nftGas);
    var (s1, out) := SendNft(cfg, s, input).value;
    SendsKnownFrom(cfg, s, moved, s1, Emitted(cfg, moved, out));
  }

  // ----- the network -----

  /** Shard `to` has an entry, or a message that carries the metadata is on its way there. */
  ghost predicate Known(cfg: Config, g: Net, key: bytes, to: nat)
    requires to < |g.shards|
  {
    key in g.shards[to].system || SomeCarries(cfg, g.inflight, key, to)
  }

  /** A message crosses shards, and its source has an entry for all metadata it carries. */
  ghost predicate SourceKnows(cfg: Config, g: Net, m: Msg) {
    && cfg.shardOf(m.src) != cfg.shardOf(m.dst)
    && cfg.shardOf(m.src) < |g.shards|
    && forall key :: CarriesMeta(cfg, m, key) ==> key in g.shards[cfg.shardOf(m.src)].system
  }

  ghost predicate BitmapInv(cfg: Config, g: Net) {
    && WellFormed(cfg, g)
    && (forall i :: 0 <= i < |g.shards| ==> Plain(g.shards[i]))
    && (forall m :: m in g.inflight ==> SourceKnows(cfg, g, m))
    && (forall i, key, to :: 0 <= i < |g.shards| && 0 <= to < |g.shards| && Marks(g.shards[i], key, to) ==>
          Known(cfg, g, key, to))
  }

  /** A shard that grows with marks for shards that know. */
  lemma ShardGrown(cfg: Config, g: Net, i: nat, s: Shard, from: nat, known: iset<bytes>)
    requires BitmapInv(cfg, g) && i < |g.shards| && Grows(g.shards[i], s, from, known)
    requires from < |g.shards| && forall key :: key in known ==> key in g.shards[from].system
    ensures BitmapInv(cfg, WithShard(g, i, s))
  {
    var g1 := WithShard(g, i, s);
    forall key, to: nat | to < |g.shards| && Known(cfg, g, key, to)
      ensures Known(cfg, g1, key, to)
    {
    }
    forall m | m in g.inflight
      ensures SourceKnows(cfg, g1, m)
    {
      assert SourceKnows(cfg, g, m);
    }
    forall j, key, to | 0 <= j < |g.shards| && 0 <= to < |g.shards| && Marks(g1.shards[j], key, to)
      ensures Known(cfg, g1, key, to)
    {
      if Marks(g.shards[j], key, to) {
        assert Known(cfg, g, key, to);
      }
    }
  }

  /** A message may go once its receiver's shard has an entry for all it carries. */
  lemma MessageLearned(cfg: Config, g: Net, k: nat, rejected: seq<Msg>)
    requires BitmapInv(cfg, g) && k < |g.inflight| && cfg.shardOf(g.inflight[k].dst) < |g.shards|
    requires forall key ::
               CarriesMeta(cfg, g.inflight[k], key) ==> key in g.shards[cfg.shardOf(g.inflight[k].dst)].system
    ensures BitmapInv(cfg, g.(inflight := WithoutAt(g.inflight, k), rejected := rejected))
  {
    var g1 := g.(inflight := WithoutAt(g.inflight, k), rejected := rejected);
    forall m | m in g1.inflight
      ensures m in g.inflight && SourceKnows(cfg, g1, m)
    {
      assert SourceKnows(cfg, g, m);
    }
    forall key, to: nat | to < |g.shards| && Known(cfg, g, key, to)
      ensures Known(cfg, g1, key, to)
    {
      if key !in g.shards[to].system {
        var m :| m in g.inflight && cfg.shardOf(m.dst) == to && CarriesMeta(cfg, m, key);
        assert m in g1.inflight;
      }
    }
  }

  lemma SentKnown(cfg: Config, g: Net, i: nat, s: Shard, msgs: seq<Msg>)
    requires BitmapInv(cfg, g) && i < |g.shards| && SendsKnown(cfg, g.shards[i], s, msgs)
    ensures BitmapInv(cfg, WithShard(g, i, s).(inflight := g.inflight + msgs))
  {
    var g1 := WithShard(g, i, s).(inflight := g.inflight + msgs);
    forall key, to: nat | to < |g.shards| && Known(cfg, g, key, to)
      ensures Known(cfg, g1, key, to)
    {
      if key !in g.shards[to].system {
        var m :| m in g.inflight && cfg.shardOf(m.dst) == to && CarriesMeta(cfg, m, key);
        assert m in g1.inflight;
      }
    }
    forall m | m in g1.inflight
      ensures SourceKnows(cfg, g1, m)
    {
      if m in g.inflight {
        assert SourceKnows(cfg, g, m);
      }
    }
    forall j, key, to | 0 <= j < |g.shards| && 0 <= to < |g.shards| && Marks(g1.shards[j], key, to)
      ensures Known(cfg, g1, key, to)
    {
      if Marks(g.shards[j], key, to) {
        assert Known(cfg, g, key, to);
      } else {
        var m :| m in msgs && cfg.shardOf(m.dst) == to && CarriesMeta(cfg, m, key);
        assert m in g1.inflight;
      }
    }
  }

  lemma ReceivedKnown(cfg: Config, g: Net, k: nat, r: Result<Shard>, rejected: seq<Msg>)
    requires BitmapInv(cfg, g) && CanReceive(cfg, g, k)
    requires Learns(cfg, g.shards[cfg.shardOf(g.inflight[k].dst)], r, g.inflight[k]) && r.Ok?
    ensures var i := cfg.shardOf(g.inflight[k].dst);
            BitmapInv(cfg, WithShard(g, i, r.value).(inflight := WithoutAt(g.inflight, k), rejected := rejected))
  {
    var m, i := g.inflight[k], cfg.shardOf(g.inflight[k].dst);
    assert m in g.inflight && SourceKnows(cfg, g, m);
    ShardGrown(cfg, g, i, r.value, cfg.shardOf(m.src), CarriedKeys(cfg, m));
    MessageLearned(cfg, WithShard(g, i, r.value), k, rejected);
  }

  /** The only condition on a step: a message cannot have 2^64 arguments. */
  predicate FitsMessage(step: Step) {
    step.SendingMulti? ==> |step.input.args| < TWO64
  }

  lemma SendStepKnown(cfg: Config, g: Net, step: Step)
    requires Lawful(cfg) && TracksMetaData(cfg) && BitmapInv(cfg, g) && FitsMessage(step)
    requires step.SendingNft? || step.SendingMulti?
    ensures BitmapInv(cfg, Next(cfg, g, step))
  {
    var i, input := step.shard, step.input;
    if CanSend(cfg, g, i, input) {
      var s := g.shards[i];
      if step.SendingNft? {
        if |input.args| >= NFT_MIN_ARGS && SendNft(cfg, s, input).Ok? {
          var (s1, out) := SendNft(cfg, s, input).value;
          SendNftKnown(cfg, s, input);
          SentKnown(cfg, g, i, s1, Emitted(cfg, s, out));
        }
      } else if |input.args| >= 4 && SendMulti(cfg, s, input).Ok? {
        SendMultiKnown(cfg, s, input);
        var (s1, out) := SendMulti(cfg, s, input).value;
        SentKnown(cfg, g, i, s1, Emitted(cfg, s, out));
      }
    }
  }

  lemma ActStepKnown(cfg: Config, g: Net, i: nat, action: Action, input: Input)
    requires TracksMetaData(cfg) && BitmapInv(cfg, g)
    ensures BitmapInv(cfg, Next(cfg, g, Act(i, action, input)))
  {
    if i < |g.shards| && Placed(cfg, g.shards[i], action, input) {
      var r := ActOn(cfg, g.shards[i], action, input);
      ActGrowth(cfg, g.shards[i], action, input);
      if r.Ok? {
        ShardGrown(cfg, g, i, r.value, i, iset{});
      }
    }
  }

  lemma ReceiveStepKnown(cfg: Config, g: Net, step: Step)
    requires TracksMetaData(cfg) && BitmapInv(cfg, g) && (step.Delivering? || step.Rejecting?)
    ensures BitmapInv(cfg, Next(cfg, g, step))
  {
    var k := step.index;
    if CanReceive(cfg, g, k) {
      var m := g.inflight[k];
      var s := g.shards[cfg.shardOf(m.dst)];
      assert m in g.inflight && SourceKnows(cfg, g, m);
      if step.Delivering? {
        var r := Deliver(cfg, s, m, step.env);
        DeliverLearns(cfg, s, m, step.env);
        if r.Ok? {
          ReceivedKnown(cfg, g, k, r, g.rejected);
        }
      } else {
        var r := SaveMetaDataOf(cfg, s, m);
        RejectLearns(cfg, s, m);
        if r.Ok? {
          ReceivedKnown(cfg, g, k, r, g.rejected + [m]);
          ShardGrown(cfg, g, cfg.shardOf(m.dst), r.value, cfg.shardOf(m.src), CarriedKeys(cfg, m));
        }
      }
    }
  }

  lemma StepKnown(cfg: Config, g: Net, step: Step)
    requires Lawful(cfg) && TracksMetaData(cfg) && BitmapInv(cfg, g) && FitsMessage(step)
    ensures BitmapInv(cfg, Next(cfg, g, step))
  {
    match step
    case Act(i, action, input) => ActStepKnown(cfg, g, i, action, input);
    case SendingNft(_, _) => SendStepKnown(cfg, g, step);
    case SendingMulti(_, _) => SendStepKnown(cfg, g, step);
    case _ => ReceiveStepKnown(cfg, g, step);
  }

  lemma {:induction false} RunKnown(cfg: Config, g: Net, steps: seq<Step>)
    requires Lawful(cfg) && TracksMetaData(cfg) && BitmapInv(cfg, g)
    requires forall k :: 0 <= k < |steps| ==> FitsMessage(steps[k])
    ensures BitmapInv(cfg, Run(cfg, g, steps))
    decreases |steps|
  {
    if steps != [] {
      StepKnown(cfg, g, steps[0]);
      RunKnown(cfg, Next(cfg, g, steps[0]), steps[1..]);
    }
  }

  /** After every run, whatever was updated, delivered or rejected, and whatever the token arguments
      were: a shard marked as knowing a token's metadata has an entry that holds it, or a message that carries
      the metadata is on its way there. */
  lemma BitmapOverRuns(cfg: Config, steps: seq<Step>, shard: nat, to: nat, key: bytes)
    requires Lawful(cfg) && TracksMetaData(cfg) && shard < cfg.numShards && to < cfg.numShards
    requires forall k :: 0 <= k < |steps| ==> FitsMessage(steps[k])
    ensures var g := Run(cfg, Genesis(cfg), steps);
            && |g.shards| == cfg.numShards
            && (Marks(g.shards[shard], key, to) ==>
                  || (key in g.shards[to].system && g.shards[to].system[key].meta.Some?)
                  || exists m :: m in g.inflight && cfg.shardOf(m.dst) == to && CarriesMeta(cfg, m, key))
  {
    var g := Run(cfg, Genesis(cfg), steps);
    RunKnown(cfg, Genesis(cfg), steps);
    if Marks(g.shards[shard], key, to) {
      assert Known(cfg, g, key, to);
    }
  }
}
