// The parser of transfer calls on the messages in flight: over every run it reports of a message what its
// delivery reads.
module NetworkReports {
  import opened Bytes
  import opened Wrappers
  import opened Ledger
  import opened Transfers
  import opened TxData
  import opened Shapes
  import opened Wire
  import opened Network
  import opened Emission
  import opened NetworkBitmap
  import opened TransferParser
  import opened NftReports

  /** The parser reports of the message what its delivery reads, and never takes its count for an address. */
  ghost predicate Reported(cfg: Config, m: Msg) {
    && Parse(m.data).Ok? && ReadMessage(cfg, m.data).Ok?
    && var (func, args) := Parse(m.data).value;
       var (moves, call) := ReadMessage(cfg, m.data).value;
       && ParseTransfers(cfg, m.src, m.dst, func, args) == Ok(WithCall(ParsedMoves(moves), m.dst, call))
       && (func == MULTI_TRANSFER ==> args != [] && forall rcv :: !LooksLikeAddress(args[0], rcv))
  }

  lemma MultiReported(cfg: Config, s: Shard, input: Input, dst: Addr, sent: seq<Sent>, gas: nat)
    requires Lawful(cfg) && CarriesItsValue(sent) && sent != []
    requires 3 * |sent| + 2 <= |input.args| < TWO64 && cfg.shardOf(dst) != s.id
    requires MultiOutput(cfg, s, input, dst, sent, gas).Ok?
    ensures var m := MultiOutput(cfg, s, input, dst, sent, gas).value.1.transfer;
            m.Some? && Reported(cfg, Msg(input.caller, dst, m.value.data))
  {
    ParsesOwnMessages(cfg, s, input, dst, sent, gas);
    MultiWireRoundTrip(cfg, s, input, dst, sent, gas);
    CountIsNumber(cfg, s, input, dst, sent, gas);
    hide MultiOutput, ParseTransfers, ReadMessage, ParsedMoves;
  }

  lemma CountIsNumber(cfg: Config, s: Shard, input: Input, dst: Addr, sent: seq<Sent>, gas: nat)
    requires 3 * |sent| + 2 <= |input.args| < TWO64 && cfg.shardOf(dst) != s.id
    requires MultiOutput(cfg, s, input, dst, sent, gas).Ok?
    ensures var m := MultiOutput(cfg, s, input, dst, sent, gas).value.1.transfer;
            && m.Some? && Parse(m.value.data).Ok?
            && var args := Parse(m.value.data).value.1;
               args != [] && forall rcv :: !LooksLikeAddress(args[0], rcv)
  {
    var (s1, encoded, left) := EncodeItems(cfg, s, sent, dst, gas, 0).value;
    var args := MultiArgs(sent, encoded, input.args[3 * |sent| + 2..]);
    EncodeSameId(cfg, s, sent, dst, gas, 0);
    FunctionNames();
    ParsePrint(MULTI_TRANSFER, args);
    SetBytesToBytes(|sent|);
    assert args[0] == ToBytes(|sent|);
  }

  lemma NftReported(cfg: Config, s: Shard, input: Input, t: Token, gas: nat)
    requires Lawful(cfg) && |input.args| >= NFT_MIN_ARGS && cfg.shardOf(input.args[3]) != s.id
    requires input.caller != input.args[3] && NftItem(input.args).nonce > 0
    requires t.value == NftItem(input.args).value
    requires NftOutput(cfg, s, input, t, gas).Ok?
    ensures var m := NftOutput(cfg, s, input, t, gas).value.1.transfer;
            m.Some? && Reported(cfg, Msg(input.caller, input.args[3], m.value.data))
  {
    ParsesOwnNftMessage(cfg, s, input, t, gas);
    NftWireRoundTrip(cfg, s, input, t, gas);
    FunctionNames();
    hide NftOutput, ParseTransfers, ReadMessage;
    var item := NftItem(input.args);
    assert ParsedMoves([Move(item.token, item.nonce, t.value)])
        == [Parsed(item.token, NonFungible, item.nonce, item.value)];
  }

  // ----- sending -----

  /** Every message that leaves the shard is reported. */
  ghost predicate EmitsReported(cfg: Config, s: Shard, r: Result<(Shard, VMOutput)>) {
    r.Ok? ==> forall m :: m in Emitted(cfg, s, r.value.1) ==> Reported(cfg, m)
  }

  /** An output for a receiver in the shard emits nothing, one for a receiver elsewhere its own message. */
  lemma EmittedFrom(cfg: Config, s: Shard, out: VMOutput, src: Addr, dst: Addr)
    requires out.transfer.Some? ==> out.transfer.value.sender == src && out.transfer.value.recipient == dst
    ensures forall m :: m in Emitted(cfg, s, out) ==>
              cfg.shardOf(dst) != s.id && out.transfer.Some? && m == Msg(src, dst, out.transfer.value.data)
  {
  }

  lemma OutputParties(
    cfg: Config, s: Shard, input: Input, dst: Addr, func: bytes, callArgs: seq<bytes>, minArgs: nat, gas: nat)
    ensures var x := SendOutput(cfg, s, input, dst, func, callArgs, minArgs, gas).transfer;
            x.Some? ==> x.value.sender == input.caller && x.value.recipient == dst
  {
  }

  lemma NftParties(cfg: Config, s: Shard, input: Input, t: Token, gas: nat)
    requires |input.args| >= NFT_MIN_ARGS && NftOutput(cfg, s, input, t, gas).Ok?
    ensures var x := NftOutput(cfg, s, input, t, gas).value.1.transfer;
            x.Some? ==> x.value.sender == input.caller && x.value.recipient == input.args[3]
  {
    hide AlreadySent, SendOutput, Marshalled;
    var item, dst := NftItem(input.args), input.args[3];
    var (sent, s1) := AlreadySent(cfg, s, item.token, item.nonce, dst).value;
    var paid: Result<(bytes, nat)> :=
      if !sent || t.value == 1 then Marshalled(cfg, t, gas) else Ok((ZERO_PAYLOAD, gas));
    var callArgs := input.args[..3] + [paid.value.0] + input.args[4..];
    OutputParties(cfg, s1, input, dst, NFT_TRANSFER, callArgs, NFT_MIN_ARGS, paid.value.1);
  }

  lemma SendNftReported(cfg: Config, s: Shard, input: Input)
    requires Lawful(cfg) && |input.args| >= NFT_MIN_ARGS
    ensures EmitsReported(cfg, s, SendNft(cfg, s, input))
  {
    hide SendNft, Debit, Settle, NftOutput, Reported;
    var r, item, dst := SendNft(cfg, s, input), NftItem(input.args), input.args[3];
    SendNftShape(cfg, s, input);
    DebitShape(cfg, s, input, item);
    if r.Ok? {
      var (s1, t) := Debit(cfg, s, input, item).value;
      SettleSameShard(cfg, s1, input, dst, item, t);
      var (s2, t2) := Settle(cfg, s1, input, dst, item, t).value;
      NftParties(cfg, s2, input, t2, input.gasProvided - cfg.nftGas);
      EmittedFrom(cfg, s, r.value.1, input.caller, dst);
      if cfg.shardOf(dst) != s.id {
        SettleFarShape(cfg, s1, input, dst, item, t);
        NftReported(cfg, s2, input, t2, input.gasProvided - cfg.nftGas);
      }
    }
  }

  lemma MultiParties(cfg: Config, s: Shard, input: Input, dst: Addr, sent: seq<Sent>, gas: nat)
    requires 3 * |sent| + 2 <= |input.args| && MultiOutput(cfg, s, input, dst, sent, gas).Ok?
    ensures var x := MultiOutput(cfg, s, input, dst, sent, gas).value.1.transfer;
            x.Some? ==> x.value.sender == input.caller && x.value.recipient == dst
  {
    hide SendOutput, EncodeItems;
    var (s1, encoded, left) := EncodeItems(cfg, s, sent, dst, gas, 0).value;
    var minArgs := 3 * |sent| + 2;
    var callArgs := [ToBytes(|sent|)] + encoded + input.args[minArgs..];
    OutputParties(cfg, s1, input, dst, MULTI_TRANSFER, callArgs, minArgs, left);
  }

  lemma SendAllReported(cfg: Config, s: Shard, input: Input, dst: Addr, n: nat, gas: nat)
    requires Lawful(cfg) && 0 < n && 3 * n + 2 <= |input.args| < TWO64
    ensures EmitsReported(cfg, s, SendAll(cfg, s, input, dst, n, gas))
  {
    var r, all := SendAll(cfg, s, input, dst, n, gas), SendItems(cfg, s, input, dst, n, 0);
    SendAllShape(cfg, s, input, dst, n, gas);
    SentRecords(cfg, s, input, dst, n, 0);
    hide SendAll, SendItems, MultiOutput;
    if r.Ok? {
      var (s1, sent) := all.value;
      MultiParties(cfg, s1, input, dst, sent, gas);
      EmittedFrom(cfg, s, r.value.1, input.caller, dst);
      if cfg.shardOf(dst) != s.id {
        forall k | 0 <= k < |sent|
          ensures sent[k].tok.value == sent[k].item.value
        {
          assert RecordsItem(cfg, s.id, input.args, dst, 0 + k, sent[k]);
        }
        MultiReported(cfg, s1, input, dst, sent, gas);
      }
    }
  }

  lemma SendMultiReported(cfg: Config, s: Shard, input: Input)
    requires Lawful(cfg) && 4 <= |input.args| < TWO64
    ensures EmitsReported(cfg, s, SendMulti(cfg, s, input))
  {
    hide SendMulti, SendAll;
    var n := U64(SetBytes(input.args[1]));
    SendMultiChecks(cfg, s, input);
    if 0 < n && 3 * n + 2 <= |input.args| && input.gasProvided >= U64(n * cfg.multiGas) {
      SendAllReported(cfg, s, input, input.args[0], n, input.gasProvided - U64(n * cfg.multiGas));
    }
  }

  // ----- runs -----

  ghost predicate AllReported(cfg: Config, g: Net) {
    forall m :: m in g.inflight ==> Reported(cfg, m)
  }

  lemma StepReported(cfg: Config, g: Net, step: Step)
    requires Lawful(cfg) && AllReported(cfg, g) && FitsMessage(step)
    ensures AllReported(cfg, Next(cfg, g, step))
  {
    hide Reported, ActOn, SendNft, SendMulti, Deliver, SaveMetaDataOf, Emitted;
    match step
    case SendingNft(i, input) =>
      if CanSend(cfg, g, i, input) && |input.args| >= NFT_MIN_ARGS {
        SendNftReported(cfg, g.shards[i], input);
      }
    case SendingMulti(i, input) =>
      if CanSend(cfg, g, i, input) && |input.args| >= 4 {
        SendMultiReported(cfg, g.shards[i], input);
      }
    case _ =>
  }

  /** Over every run: of every message in flight the parser reports the receiver, the tokens, nonces and
      amounts and the call that its delivery reads. */
  lemma {:induction false} ReportsOverRuns(cfg: Config, g: Net, steps: seq<Step>)
    requires Lawful(cfg) && AllReported(cfg, g)
    requires forall k :: 0 <= k < |steps| ==> FitsMessage(steps[k])
    ensures AllReported(cfg, Run(cfg, g, steps))
    decreases |steps|
  {
    hide Reported, Next;
    if steps != [] {
      StepReported(cfg, g, steps[0]);
      ReportsOverRuns(cfg, Next(cfg, g, steps[0]), steps[1..]);
    }
  }

  lemma ReachableReported(cfg: Config, steps: seq<Step>)
    requires Lawful(cfg) && forall k :: 0 <= k < |steps| ==> FitsMessage(steps[k])
    ensures AllReported(cfg, Run(cfg, Genesis(cfg), steps))
  {
    hide Reported, Run;
    ReportsOverRuns(cfg, Genesis(cfg), steps);
  }
}
