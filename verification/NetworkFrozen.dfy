// Freezing over every run of the network.
module NetworkFrozen {
  import opened Bytes
  import opened Wrappers
  import opened TokenId
  import opened Ledger
  import opened Transfers
  import opened TxData
  import opened Liquidity
  import opened Wire
  import opened Network
  import opened NetworkWire
  import opened Frozen
  import opened SameShard

  /** The step respects freezing, and neither thaws, wipes nor overwrites by creation. */
  predicate SparesStep(step: Step, f: Slot, p: Slot) {
    match step
    case Act(_, action, input) => !input.returnAfterError && Spares(action, input, f, p)
    case SendingNft(_, input) => !input.returnAfterError
    case SendingMulti(_, input) => !input.returnAfterError
    case Delivering(_, env) => !env.returnAfterError
    case Rejecting(_, _) => true
  }

  ghost predicate NetHeld(g: Net, i: nat, f: Slot, p: Slot, value: int) {
    i < |g.shards| && Held(g.shards[i], f, p, value)
  }

  lemma NftTransferHeld(cfg: Config, s: Shard, input: Input, f: Slot, p: Slot, value: int)
    requires Covers(cfg, f, p) && Held(s, f, p, value) && !input.returnAfterError
    requires input.args == [] || Unambiguous(f, p, input.args[0])
    ensures PairHeld(NftTransfer(cfg, s, input), f, p, value)
  {
    if |input.args| >= NFT_MIN_ARGS {
      SendNftHeld(cfg, s, input, f, p, value);
      ReceiveNftHeld(cfg, s, input, f, p, value);
    }
  }

  /** The items of a multi transfer, on either side, are valid tokens. */
  ghost predicate ItemsUnambiguous(cfg: Config, input: Input, f: Slot, p: Slot) {
    || p == f
    || |input.args| < 4
    || (input.caller == input.recipient &&
        var n := U64(SetBytes(input.args[1])); 3 * n + 2 <= |input.args| ==> ValidItems(input.args, 2, n))
    || (input.caller != input.recipient &&
        var n := U64(SetBytes(input.args[0])); 3 * n + 1 <= |input.args| ==> ValidPayloads(cfg, input.args, n))
  }

  lemma MultiTransferHeld(cfg: Config, s: Shard, input: Input, f: Slot, p: Slot, value: int)
    requires Covers(cfg, f, p) && Held(s, f, p, value) && !input.returnAfterError
    requires ItemsUnambiguous(cfg, input, f, p)
    ensures PairHeld(MultiTransfer(cfg, s, input), f, p, value)
  {
    if |input.args| >= 4 {
      if input.caller == input.recipient {
        SendMultiHeld(cfg, s, input, f, p, value);
      } else {
        ReceiveMultiHeld(cfg, s, input, f, p, value);
      }
    }
  }

  lemma DeliverHeld(cfg: Config, s: Shard, m: Msg, env: Input, f: Slot, p: Slot, value: int)
    requires Covers(cfg, f, p) && Held(s, f, p, value) && !env.returnAfterError
    requires p == f || ValidMessage(cfg, m)
    ensures StillHeld(Deliver(cfg, s, m, env), f, p, value)
  {
    if Deliver(cfg, s, m, env).Ok? {
      var (func, args) := Parse(m.data).value;
      var input := DeliveryInput(m, args, env);
      FunctionNames();
      if func == NFT_TRANSFER {
        if p != f {
          assert ReadNft(cfg, args).value.0[0] in ReadMessage(cfg, m.data).value.0;
        }
        NftTransferHeld(cfg, s, input, f, p, value);
      } else {
        if p != f {
          ReceivedTokens(cfg, args);
        }
        MultiTransferHeld(cfg, s, input, f, p, value);
      }
    }
  }

  lemma SendingHeld(cfg: Config, g: Net, i: nat, j: nat, r: Result<(Shard, VMOutput)>, f: Slot, p: Slot, value: int)
    requires NetHeld(g, i, f, p, value) && j < |g.shards| && (j == i ==> PairHeld(r, f, p, value))
    ensures AfterSend(cfg, g, j, r).Ok? ==> NetHeld(AfterSend(cfg, g, j, r).value, i, f, p, value)
  {
  }

  lemma StepHeld(cfg: Config, g: Net, step: Step, i: nat, f: Slot, p: Slot, value: int)
    requires Covers(cfg, f, p) && NetHeld(g, i, f, p, value) && SparesStep(step, f, p)
    requires p == f || (WireInv(cfg, g) && NamesValidTokens(step))
    ensures NetHeld(Next(cfg, g, step), i, f, p, value)
  {
    hide NftTransfer, MultiTransfer, Deliver, SaveMetaDataOf, ActOn;
    match step
    case Act(j, action, input) =>
      if j == i {
        ActHeld(cfg, g.shards[i], action, input, f, p, value);
      }
    case SendingNft(j, input) =>
      if CanSend(cfg, g, j, input) {
        if j == i {
          NftTransferHeld(cfg, g.shards[i], input, f, p, value);
        }
        SendingHeld(cfg, g, i, j, NftTransfer(cfg, g.shards[j], input), f, p, value);
      }
    case SendingMulti(j, input) =>
      if CanSend(cfg, g, j, input) {
        if j == i {
          MultiTransferHeld(cfg, g.shards[i], input, f, p, value);
        }
        SendingHeld(cfg, g, i, j, MultiTransfer(cfg, g.shards[j], input), f, p, value);
      }
    case Delivering(k, env) =>
      if CanReceive(cfg, g, k) && cfg.shardOf(g.inflight[k].dst) == i {
        assert WireInv(cfg, g) ==> ValidMessage(cfg, g.inflight[k]);
        DeliverHeld(cfg, g.shards[i], g.inflight[k], env, f, p, value);
      }
    case Rejecting(k, _) =>
      if CanReceive(cfg, g, k) && cfg.shardOf(g.inflight[k].dst) == i {
        SaveMetaDataOfId(cfg, g.shards[i], g.inflight[k]);
      }
  }

  lemma {:induction false} RunHeld(cfg: Config, g: Net, steps: seq<Step>, i: nat, f: Slot, p: Slot, value: int)
    requires Covers(cfg, f, p) && NetHeld(g, i, f, p, value)
    requires forall k :: 0 <= k < |steps| ==> SparesStep(steps[k], f, p)
    requires p == f ||
             (Lawful(cfg) && WireInv(cfg, g) && forall k :: 0 <= k < |steps| ==> NamesValidTokens(steps[k]))
    ensures NetHeld(Run(cfg, g, steps), i, f, p, value)
    decreases |steps|
  {
    if steps != [] {
      StepHeld(cfg, g, steps[0], i, f, p, value);
      if p != f {
        StepWire(cfg, g, steps[0]);
      }
      RunHeld(cfg, Next(cfg, g, steps[0]), steps[1..], i, f, p, value);
    }
  }

  /** From any state, over any run that respects freezing: a frozen record stays frozen and keeps its
      value, whatever is minted, burned, added, sent, delivered or rejected. */
  lemma FrozenOverRuns(cfg: Config, g: Net, steps: seq<Step>, i: nat, f: Slot)
    requires f.addr != cfg.dcdtSC
    requires i < |g.shards| && IsFrozen(RecordAt(g.shards[i], f).properties)
    requires forall k :: 0 <= k < |steps| ==> SparesStep(steps[k], f, f)
    ensures var g1 := Run(cfg, g, steps);
            && i < |g1.shards|
            && IsFrozen(RecordAt(g1.shards[i], f).properties)
            && Holding(g1.shards[i], f) == Holding(g.shards[i], f)
  {
    RunHeld(cfg, g, steps, i, f, f, Holding(g.shards[i], f));
  }

  /** From any state whose messages are valid, which every reachable state is: while the collection record
      of an account stays frozen, what the account holds of every nonce of the collection stays the same
      over every run, creations included. */
  lemma FrozenCollectionOverRuns(cfg: Config, g: Net, steps: seq<Step>, i: nat, a: Addr, token: bytes, n: uint64)
    requires Lawful(cfg) && WireInv(cfg, g) && cfg.checkFrozenCollection && a != cfg.dcdtSC
    requires ValidToken(token) && n > 0
    requires i < |g.shards| && IsFrozen(RecordAt(g.shards[i], Slot(a, token)).properties)
    requires forall k :: 0 <= k < |steps| ==> NamesValidTokens(steps[k])
    requires forall k :: 0 <= k < |steps| ==> SparesStep(steps[k], Slot(a, token), Slot(a, KeyOf(token, n)))
    ensures var g1 := Run(cfg, g, steps);
            && i < |g1.shards|
            && IsFrozen(RecordAt(g1.shards[i], Slot(a, token)).properties)
            && Holding(g1.shards[i], Slot(a, KeyOf(token, n))) == Holding(g.shards[i], Slot(a, KeyOf(token, n)))
  {
    RunHeld(cfg, g, steps, i, Slot(a, token), Slot(a, KeyOf(token, n)), Holding(g.shards[i], Slot(a, KeyOf(token, n))));
  }
}
