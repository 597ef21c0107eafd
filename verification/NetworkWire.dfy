// The messages in flight over every run: each crosses shards and carries amounts of valid tokens.
module NetworkWire {
  import opened Bytes
  import opened Wrappers
  import opened TokenId
  import opened Ledger
  import opened Transfers
  import opened Liquidity
  import opened Wire
  import opened Network
  import opened Emission
  import opened SameShard

  /** The token arguments of the step are valid identifiers; a wiped nonce has no dash byte. */
  ghost predicate NamesValidTokens(step: Step) {
    match step
    case Act(_, action, input) =>
      (match action
       case Freezing(_) => true
       case Wiping =>
         forall arg :: input.args == [arg] ==>
           exists t: bytes, n: uint64 :: ValidToken(t) && DASH !in ToBytes(n) && arg == KeyOf(t, n)
       case _ => input.args != [] ==> ValidToken(input.args[0]))
    case SendingNft(_, input) => input.args != [] ==> ValidToken(input.args[0])
    case SendingMulti(_, input) =>
      && |input.args| < TWO64
      && (|input.args| >= 4 ==>
            var n := U64(SetBytes(input.args[1]));
            3 * n + 2 <= |input.args| ==> ValidItems(input.args, 2, n))
    case Delivering(_, _) => true
    case Rejecting(_, _) => true
  }

  ghost predicate ValidMove(m: Move) {
    ValidToken(m.token) && m.value >= 0
  }

  /** A message crosses shards and carries valid amounts. */
  ghost predicate ValidMessage(cfg: Config, m: Msg) {
    && cfg.shardOf(m.src) != cfg.shardOf(m.dst)
    && ReadMessage(cfg, m.data).Ok?
    && (forall x :: x in ReadMessage(cfg, m.data).value.0 ==> ValidMove(x))
  }

  ghost predicate ValidMessages(cfg: Config, msgs: seq<Msg>) {
    forall k :: 0 <= k < |msgs| ==> ValidMessage(cfg, msgs[k])
  }

  ghost predicate WireInv(cfg: Config, g: Net) {
    WellFormed(cfg, g) && ValidMessages(cfg, g.inflight)
  }

  lemma EmittedValid(cfg: Config, s: Shard, msgs: seq<Msg>, src: Addr, dst: Addr, moves: seq<Move>)
    requires EmitsMoves(cfg, s, msgs, src, dst, moves) && cfg.shardOf(src) == s.id
    requires forall x :: x in moves ==> ValidMove(x)
    ensures ValidMessages(cfg, msgs)
  {
  }

  /** A sender-side function stays on its shard and emits valid messages. */
  ghost predicate EmitsValid(cfg: Config, s: Shard, r: Result<(Shard, VMOutput)>) {
    r.Ok? ==> r.value.0.id == s.id && ValidMessages(cfg, Emitted(cfg, s, r.value.1))
  }

  lemma NftEmitsValid(cfg: Config, s: Shard, input: Input)
    requires Lawful(cfg) && input.caller == input.recipient && cfg.shardOf(input.caller) == s.id
    requires NamesValidTokens(SendingNft(s.id, input))
    ensures EmitsValid(cfg, s, NftTransfer(cfg, s, input))
  {
    var r := NftTransfer(cfg, s, input);
    if r.Ok? {
      SendNftEmits(cfg, s, input);
      EmittedValid(cfg, s, Emitted(cfg, s, r.value.1), input.caller, input.args[3], [MoveOfItem(NftItem(input.args))]);
    }
  }

  lemma RequestedValid(args: seq<bytes>, n: nat)
    requires ValidItems(args, 2, n)
    ensures forall x :: x in RequestedMoves(args, n) ==> ValidMove(x)
  {
    forall x | x in RequestedMoves(args, n)
      ensures ValidMove(x)
    {
      var k :| 0 <= k < n && x == RequestedMoves(args, n)[k];
      assert ValidToken(ItemAt(args, 2, k).token);
    }
  }

  lemma MultiEmitsValid(cfg: Config, s: Shard, input: Input)
    requires Lawful(cfg) && input.caller == input.recipient && cfg.shardOf(input.caller) == s.id
    requires NamesValidTokens(SendingMulti(s.id, input))
    ensures EmitsValid(cfg, s, MultiTransfer(cfg, s, input))
  {
    var r := MultiTransfer(cfg, s, input);
    if r.Ok? {
      var n := U64(SetBytes(input.args[1]));
      SendMultiEmits(cfg, s, input);
      RequestedValid(input.args, n);
      EmittedValid(cfg, s, Emitted(cfg, s, r.value.1), input.caller, input.args[0], RequestedMoves(input.args, n));
    }
  }

  lemma SendWire(cfg: Config, g: Net, i: nat, r: Result<(Shard, VMOutput)>)
    requires WireInv(cfg, g) && i < |g.shards| && EmitsValid(cfg, g.shards[i], r)
    ensures AfterSend(cfg, g, i, r).Ok? ==> WireInv(cfg, AfterSend(cfg, g, i, r).value)
  {
  }

  /** A step that runs on shard `i` and takes the message at `k` away. */
  lemma TakeWire(cfg: Config, g: Net, i: nat, s: Shard, k: nat, rejected: seq<Msg>)
    requires WireInv(cfg, g) && i < |g.shards| && s.id == i && k < |g.inflight|
    ensures WireInv(cfg, WithShard(g, i, s).(inflight := WithoutAt(g.inflight, k), rejected := rejected))
  {
  }

  lemma StepWire(cfg: Config, g: Net, step: Step)
    requires Lawful(cfg) && WireInv(cfg, g) && NamesValidTokens(step)
    ensures WireInv(cfg, Next(cfg, g, step))
  {
    match step
    case Act(i, action, input) =>
      if i < |g.shards| {
        ActId(cfg, g.shards[i], action, input);
      }
    case SendingNft(i, input) =>
      if CanSend(cfg, g, i, input) {
        NftEmitsValid(cfg, g.shards[i], input);
        SendWire(cfg, g, i, NftTransfer(cfg, g.shards[i], input));
      }
    case SendingMulti(i, input) =>
      if CanSend(cfg, g, i, input) {
        MultiEmitsValid(cfg, g.shards[i], input);
        SendWire(cfg, g, i, MultiTransfer(cfg, g.shards[i], input));
      }
    case Delivering(k, env) => DeliverWire(cfg, g, k, env);
    case Rejecting(k, pending) => RejectWire(cfg, g, k, pending);
  }

  lemma DeliverWire(cfg: Config, g: Net, k: nat, env: Input)
    requires WireInv(cfg, g)
    ensures WireInv(cfg, Next(cfg, g, Delivering(k, env)))
  {
    if CanReceive(cfg, g, k) {
      var m, i := g.inflight[k], cfg.shardOf(g.inflight[k].dst);
      var r := Deliver(cfg, g.shards[i], m, env);
      assert ValidMessage(cfg, m);
      DeliverId(cfg, g.shards[i], m, env);
      if r.Ok? {
        TakeWire(cfg, g, i, r.value, k, g.rejected);
      }
    }
  }

  lemma RejectWire(cfg: Config, g: Net, k: nat, pending: bool)
    requires WireInv(cfg, g)
    ensures WireInv(cfg, Next(cfg, g, Rejecting(k, pending)))
  {
    if CanReceive(cfg, g, k) {
      var m, i := g.inflight[k], cfg.shardOf(g.inflight[k].dst);
      var r := SaveMetaDataOf(cfg, g.shards[i], m);
      SaveMetaDataOfId(cfg, g.shards[i], m);
      if r.Ok? {
        TakeWire(cfg, g, i, r.value, k, g.rejected + [m]);
      }
    }
  }

  lemma {:induction false} RunWire(cfg: Config, g: Net, steps: seq<Step>)
    requires Lawful(cfg) && WireInv(cfg, g)
    requires forall k :: 0 <= k < |steps| ==> NamesValidTokens(steps[k])
    ensures WireInv(cfg, Run(cfg, g, steps))
    decreases |steps|
  {
    if steps != [] {
      StepWire(cfg, g, steps[0]);
      RunWire(cfg, Next(cfg, g, steps[0]), steps[1..]);
    }
  }

  /** In every reachable state all messages in flight are valid. */
  lemma ReachableMessagesValid(cfg: Config, steps: seq<Step>)
    requires Lawful(cfg) && forall k :: 0 <= k < |steps| ==> NamesValidTokens(steps[k])
    ensures WireInv(cfg, Run(cfg, Genesis(cfg), steps))
  {
    RunWire(cfg, Genesis(cfg), steps);
  }

  /** What a received multi transfer decodes, item by item. */
  lemma ReceivedTokens(cfg: Config, args: seq<bytes>)
    requires |args| >= 4 && ReadMulti(cfg, args).Ok?
    requires forall x :: x in ReadMulti(cfg, args).value.0 ==> ValidMove(x)
    ensures ValidPayloads(cfg, args, U64(SetBytes(args[0])))
  {
    var n := U64(SetBytes(args[0]));
    ReadItemsAt(cfg, args, n, 0);
    forall i | 0 <= i < n
      ensures DecodeItem(cfg, args, i).Ok?
      ensures ValidToken(DecodeItem(cfg, args, i).value.item.token) && DecodeItem(cfg, args, i).value.tok.value >= 0
    {
      assert ReadMulti(cfg, args).value.0[i - 0] == MoveOf(DecodeItem(cfg, args, i).value);
      assert ValidMove(ReadMulti(cfg, args).value.0[i]);
    }
  }
}
