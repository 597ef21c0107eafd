// Liquidity over every run of the network.
module NetworkLiquidity {
  import opened Bytes
  import opened Wrappers
  import opened TokenId
  import opened Ledger
  import opened Transfers
  import opened TxData
  import opened Totals
  import opened Liquidity
  import opened Wire
  import opened Network
  import opened NetworkWire

  ghost predicate AllCount(shards: seq<Shard>) {
    forall i :: 0 <= i < |shards| ==> LiquidityInv(shards[i])
  }

  ghost predicate NetInv(cfg: Config, g: Net) {
    WireInv(cfg, g) && AllCount(g.shards)
  }

  lemma ActKeeps(cfg: Config, s: Shard, action: Action, input: Input)
    requires CountsLiquidity(cfg) && LiquidityInv(s)
    requires NamesValidTokens(Act(0, action, input))
    ensures Keeps(ActOn(cfg, s, action, input))
  {
    match action
    case Freezing(frozen) => SetFrozenKeeps(cfg, s, input, frozen);
    case Wiping =>
      if |input.args| == 1 {
        assert input.args == [input.args[0]];
        var t: bytes, n: uint64 :| ValidToken(t) && DASH !in ToBytes(n) && input.args[0] == KeyOf(t, n);
        WipeKeeps(cfg, s, input, t, n);
      }
    case _ =>
      if input.args == [] {
        NoArgumentsRefused(cfg, s, action, input);
      } else {
        TokenActionKeeps(cfg, s, action, input);
      }
  }

  lemma NoArgumentsRefused(cfg: Config, s: Shard, action: Action, input: Input)
    requires input.args == []
    ensures ActOn(cfg, s, action, input) == Err(InvalidArguments)
  {
  }

  lemma TokenActionKeeps(cfg: Config, s: Shard, action: Action, input: Input)
    requires CountsLiquidity(cfg) && LiquidityInv(s)
    requires !action.Freezing? && !action.Wiping?
    requires input.args != [] && ValidToken(input.args[0])
    ensures Keeps(ActOn(cfg, s, action, input))
  {
    match action
    case Creating(latest) => CreateKeeps(cfg, s, input, latest);
    case AddingQuantity => AddQuantityKeeps(cfg, s, input);
    case Burning => BurnKeeps(cfg, s, input);
    case Updating => UpdateKeeps(cfg, s, input);
    case Minting(sign) => MintOrBurnKeeps(cfg, s, input, if sign > 0 then 1 else -1);
    case MovingFungible => FungibleTransferKeeps(cfg, s, input);
  }

  lemma NftTransferKeeps(cfg: Config, s: Shard, input: Input)
    requires CountsLiquidity(cfg) && LiquidityInv(s)
    requires |input.args| >= 4 && input.caller != input.recipient
    requires ReadNft(cfg, input.args).Ok? && ValidMove(ReadNft(cfg, input.args).value.0[0])
    ensures KeepsPair(NftTransfer(cfg, s, input))
  {
    if cfg.shardOf(input.caller) != s.id && cfg.shardOf(input.recipient) == s.id {
      ReceiveNftKeeps(cfg, s, input);
    }
  }

  lemma MultiTransferKeeps(cfg: Config, s: Shard, input: Input)
    requires CountsLiquidity(cfg) && LiquidityInv(s)
    requires |input.args| >= 4 && input.caller != input.recipient
    requires ValidPayloads(cfg, input.args, U64(SetBytes(input.args[0])))
    ensures KeepsPair(MultiTransfer(cfg, s, input))
  {
    if cfg.shardOf(input.caller) != s.id && cfg.shardOf(input.recipient) == s.id {
      ReceiveMultiKeeps(cfg, s, input);
    }
  }

  lemma DeliverKeeps(cfg: Config, s: Shard, m: Msg, env: Input)
    requires CountsLiquidity(cfg) && LiquidityInv(s) && ValidMessage(cfg, m)
    ensures Keeps(Deliver(cfg, s, m, env))
  {
    var (func, args) := Parse(m.data).value;
    var input := DeliveryInput(m, args, env);
    FunctionNames();
    if func == NFT_TRANSFER {
      assert ReadNft(cfg, args).value.0[0] in ReadMessage(cfg, m.data).value.0;
      NftTransferKeeps(cfg, s, input);
    } else {
      ReceivedTokens(cfg, args);
      MultiTransferKeeps(cfg, s, input);
    }
  }

  lemma SaveMetaDataIdle(cfg: Config, s: Shard, m: Msg)
    requires CountsLiquidity(cfg)
    ensures SaveMetaDataOf(cfg, s, m) == Ok(s)
  {
  }

  /** Every shard satisfies the invariant, and the step is not refused for too little liquidity. */
  ghost predicate StepCounts(cfg: Config, g: Net, step: Step) {
    Outcome(cfg, g, step) != Err(InvalidLiquidity) && AllCount(Next(cfg, g, step).shards)
  }

  lemma SendCounts(cfg: Config, g: Net, i: nat, r: Result<(Shard, VMOutput)>)
    requires NetInv(cfg, g) && i < |g.shards| && KeepsPair(r)
    ensures var sent := AfterSend(cfg, g, i, r);
            && sent != Err(InvalidLiquidity)
            && (sent.Ok? ==> AllCount(sent.value.shards))
  {
  }

  lemma SendNftCounts(cfg: Config, g: Net, i: nat, input: Input)
    requires CountsLiquidity(cfg) && NetInv(cfg, g) && NamesValidTokens(SendingNft(i, input))
    ensures StepCounts(cfg, g, SendingNft(i, input))
  {
    if CanSend(cfg, g, i, input) {
      if |input.args| >= NFT_MIN_ARGS {
        SendNftKeeps(cfg, g.shards[i], input);
      }
      SendCounts(cfg, g, i, NftTransfer(cfg, g.shards[i], input));
    }
  }

  lemma SendMultiCounts(cfg: Config, g: Net, i: nat, input: Input)
    requires CountsLiquidity(cfg) && NetInv(cfg, g) && NamesValidTokens(SendingMulti(i, input))
    ensures StepCounts(cfg, g, SendingMulti(i, input))
  {
    if CanSend(cfg, g, i, input) {
      if |input.args| >= 4 {
        SendMultiKeeps(cfg, g.shards[i], input);
      }
      SendCounts(cfg, g, i, MultiTransfer(cfg, g.shards[i], input));
    }
  }

  lemma ActCounts(cfg: Config, g: Net, i: nat, action: Action, input: Input)
    requires CountsLiquidity(cfg) && NetInv(cfg, g) && NamesValidTokens(Act(i, action, input))
    ensures StepCounts(cfg, g, Act(i, action, input))
  {
    if i < |g.shards| {
      ActKeeps(cfg, g.shards[i], action, input);
    }
  }

  lemma DeliveringCounts(cfg: Config, g: Net, k: nat, env: Input)
    requires CountsLiquidity(cfg) && NetInv(cfg, g)
    ensures StepCounts(cfg, g, Delivering(k, env))
  {
    if CanReceive(cfg, g, k) {
      var m, i := g.inflight[k], cfg.shardOf(g.inflight[k].dst);
      assert ValidMessage(cfg, m);
      DeliverKeeps(cfg, g.shards[i], m, env);
    }
  }

  lemma RejectingCounts(cfg: Config, g: Net, k: nat, pending: bool)
    requires CountsLiquidity(cfg) && NetInv(cfg, g)
    ensures StepCounts(cfg, g, Rejecting(k, pending))
  {
    if CanReceive(cfg, g, k) {
      SaveMetaDataIdle(cfg, g.shards[cfg.shardOf(g.inflight[k].dst)], g.inflight[k]);
    }
  }

  /** Every step keeps the invariant, and none is refused for too little liquidity. */
  lemma StepKeeps(cfg: Config, g: Net, step: Step)
    requires CountsLiquidity(cfg) && Lawful(cfg) && NetInv(cfg, g) && NamesValidTokens(step)
    ensures Outcome(cfg, g, step) != Err(InvalidLiquidity) && NetInv(cfg, Next(cfg, g, step))
  {
    StepWire(cfg, g, step);
    match step
    case Act(i, action, input) => ActCounts(cfg, g, i, action, input);
    case SendingNft(i, input) => SendNftCounts(cfg, g, i, input);
    case SendingMulti(i, input) => SendMultiCounts(cfg, g, i, input);
    case Delivering(k, env) => DeliveringCounts(cfg, g, k, env);
    case Rejecting(k, pending) => RejectingCounts(cfg, g, k, pending);
  }

  lemma {:induction false} RunKeeps(cfg: Config, g: Net, steps: seq<Step>)
    requires CountsLiquidity(cfg) && Lawful(cfg) && NetInv(cfg, g)
    requires forall k :: 0 <= k < |steps| ==> NamesValidTokens(steps[k])
    ensures NetInv(cfg, Run(cfg, g, steps))
    decreases |steps|
  {
    if steps != [] {
      StepKeeps(cfg, g, steps[0]);
      RunKeeps(cfg, Next(cfg, g, steps[0]), steps[1..]);
    }
  }

  lemma GenesisInv(cfg: Config)
    ensures NetInv(cfg, Genesis(cfg))
  {
    var g := Genesis(cfg);
    forall i | 0 <= i < |g.shards|
      ensures LiquidityInv(g.shards[i])
    {
      forall key
        ensures Total(g.shards[i], key) == 0
      {
        assert HoldersOf(g.shards[i], key) == map[];
      }
    }
  }

  /** After every run, in every shard and for every identifier and nonce: without a system entry no
      account holds the token; an entry that counts equals what the accounts hold together; and no
      next step is refused for too little liquidity. */
  lemma LiquidityOverRuns(cfg: Config, steps: seq<Step>, shard: nat, token: bytes, nonce: uint64, a: Addr)
    requires CountsLiquidity(cfg) && Lawful(cfg) && shard < cfg.numShards
    requires forall k :: 0 <= k < |steps| ==> NamesValidTokens(steps[k])
    requires ValidToken(token) && nonce > 0
    ensures var g := Run(cfg, Genesis(cfg), steps);
            && |g.shards| == cfg.numShards
            && var s, key := g.shards[shard], KeyOf(token, nonce);
            && (key !in s.system ==> Holding(s, Slot(a, key)) == 0)
            && (key in s.system && s.system[key].reserved != [] ==> s.system[key].value == Total(s, key) > 0)
            && forall step :: NamesValidTokens(step) ==> Outcome(cfg, g, step) != Err(InvalidLiquidity)
  {
    GenesisInv(cfg);
    RunKeeps(cfg, Genesis(cfg), steps);
    var g := Run(cfg, Genesis(cfg), steps);
    var s, key := g.shards[shard], KeyOf(token, nonce);
    NonceGivesNftKey(token, nonce);
    assert EntryMatches(s, key);
    HoldersKnown(s, Slot(a, key));
    forall step | NamesValidTokens(step)
      ensures Outcome(cfg, g, step) != Err(InvalidLiquidity)
    {
      StepKeeps(cfg, g, step);
    }
  }
}
