// The whole network: one ledger per shard, and the cross-shard messages in flight. A step is one
// built-in function on one shard; a step that returns an error leaves everything as it was,
// because the node reverts it.
module Network {
  import opened Bytes
  import opened Wrappers
  import opened TokenId
  import opened Ledger
  import opened Transfers
  import opened TxData

  datatype Msg = Msg(src: Addr, dst: Addr, data: bytes)

  /** `rejected` holds the messages whose delivery failed for good: only their metadata was saved. */
  datatype Net = Net(shards: seq<Shard>, inflight: seq<Msg>, rejected: seq<Msg>)

  datatype Action =
    | Creating(latest: uint64)
    | AddingQuantity
    | Burning
    | Updating
    | Freezing(frozen: bool)
    | Wiping
    | Minting(sign: int)
    | MovingFungible

  /** A delivery that fails saves the metadata of its message; the message is given up or stays `pending`, to
      be tried again. */
  datatype Step =
    | Act(shard: nat, action: Action, input: Input)
    | SendingNft(shard: nat, input: Input)
    | SendingMulti(shard: nat, input: Input)
    | Delivering(index: nat, env: Input)
    | Rejecting(index: nat, pending: bool)

  ghost predicate WellFormed(cfg: Config, g: Net) {
    |g.shards| == cfg.numShards && forall i :: 0 <= i < |g.shards| ==> g.shards[i].id == i
  }

  function ActOn(cfg: Config, s: Shard, action: Action, input: Input): Result<Shard> {
    match action
    case Creating(latest) => Create(cfg, s, input, latest)
    case AddingQuantity => AddQuantity(cfg, s, input)
    case Burning => Burn(cfg, s, input)
    case Updating => UpdateAttributes(cfg, s, input)
    case Freezing(frozen) => SetFrozen(cfg, s, input, frozen)
    case Wiping => Wipe(cfg, s, input)
    case Minting(sign) => MintOrBurn(cfg, s, input, if sign > 0 then 1 else -1)
    case MovingFungible => FungibleTransfer(cfg, s, input)
  }

  /** The account a step works for lives on the shard where the step runs. */
  function ActingAccount(action: Action, input: Input): Addr {
    match action
    case Creating(_) => if RoleHolder(input).Ok? then RoleHolder(input).value else input.caller
    case Freezing(_) => input.recipient
    case Wiping => input.recipient
    case _ => input.caller
  }

  predicate Placed(cfg: Config, s: Shard, action: Action, input: Input) {
    action.MovingFungible? || cfg.shardOf(ActingAccount(action, input)) == s.id
  }

  /** The output transfer of a sender-side function becomes a message when it leaves the shard;
      otherwise it is a contract call of the same shard. */
  function Emitted(cfg: Config, s: Shard, out: VMOutput): seq<Msg> {
    match out.transfer
    case Some(x) => if cfg.shardOf(x.recipient) == s.id then [] else [Msg(x.sender, x.recipient, x.data)]
    case None => []
  }

  function DeliveryInput(m: Msg, args: seq<bytes>, env: Input): Input {
    env.(caller := m.src, recipient := m.dst, args := args)
  }

  /** Delivery: the data string is parsed and the named function runs on the receiver's shard. */
  function Deliver(cfg: Config, s: Shard, m: Msg, env: Input): Result<Shard> {
    var (func, args) :- Parse(m.data);
    var input := DeliveryInput(m, args, env);
    if func == NFT_TRANSFER then
      var (s1, _) :- NftTransfer(cfg, s, input);
      Ok(s1)
    else if func == MULTI_TRANSFER then
      var (s1, _) :- MultiTransfer(cfg, s, input);
      Ok(s1)
    else
      Err(NotTransferInput)
  }

  // ----- SaveNFTMetaDataToSystemAccount -----

  /** The loop of `addMetaDataToSystemAccountFromMultiTransfer` from item `i` on. */
  function SaveMetaDataOfItems(cfg: Config, s: Shard, senderShard: nat, args: seq<bytes>, n: nat, i: nat): Result<Shard>
    requires i <= n && 3 * n + 1 <= |args|
    decreases n - i
  {
    if i == n then
      Ok(s)
    else
      var item := ItemAt(args, 1, i);
      var s1 :- if item.nonce > 0 && |args[3 * i + 3]| > MAX_VALUE_LENGTH then
                  match cfg.unmarshal(args[3 * i + 3])
                  case Some(t) =>
                    SaveMetaData(cfg, s, None, senderShard, KeyOf(item.token, item.nonce), item.nonce, t, true)
                  case None => Err(Unmarshal)
                else Ok(s);
      SaveMetaDataOfItems(cfg, s1, senderShard, args, n, i + 1)
  }

  /** `SaveNFTMetaDataToSystemAccount`, run on the receiver's shard when a delivery fails. */
  function SaveMetaDataOf(cfg: Config, s: Shard, m: Msg): Result<Shard> {
    if !cfg.saveToSystem || cfg.sendAlways then Ok(s)
    else if cfg.shardOf(m.src) == cfg.shardOf(m.dst) || cfg.shardOf(m.dst) != s.id then Ok(s)
    else
      match Parse(m.data)
      case Err(_) => Ok(s)
      case Ok((func, args)) =>
        if |args| < 4 then Ok(s)
        else if func == NFT_TRANSFER then
          if args[3] == ZERO_PAYLOAD then Ok(s)
          else
            match cfg.unmarshal(args[3])
            case Some(t) =>
              var nonce := U64(SetBytes(args[1]));
              SaveMetaData(cfg, s, None, cfg.shardOf(m.src), KeyOf(args[0], nonce), nonce, t, true)
            case None => Err(Unmarshal)
        else if func == MULTI_TRANSFER then
          var n :- TransferCount(args, args[0], 1);
          var _ :- Need(|args| >= 3 * n + 1, Panic);
          SaveMetaDataOfItems(cfg, s, cfg.shardOf(m.src), args, n, 0)
        else Ok(s)
  }

  // ----- steps -----

  function WithoutAt<T>(s: seq<T>, i: nat): seq<T>
    requires i < |s|
  {
    s[..i] + s[i + 1..]
  }

  function WithShard(g: Net, i: nat, s: Shard): Net
    requires i < |g.shards|
  {
    g.(shards := g.shards[i := s])
  }

  /** The state after a sender-side function. */
  function AfterSend(cfg: Config, g: Net, i: nat, r: Result<(Shard, VMOutput)>): Result<Net>
    requires i < |g.shards|
  {
    var (s, out) :- r;
    Ok(WithShard(g, i, s).(inflight := g.inflight + Emitted(cfg, g.shards[i], out)))
  }

  predicate CanSend(cfg: Config, g: Net, i: nat, input: Input) {
    i < |g.shards| && input.caller == input.recipient && cfg.shardOf(input.caller) == g.shards[i].id
  }

  predicate CanReceive(cfg: Config, g: Net, k: nat) {
    k < |g.inflight| && cfg.shardOf(g.inflight[k].dst) < |g.shards|
  }

  /** What a step makes of the network, or the error it returns. A step for an account, a shard or
      a message that is not there does not take place. */
  function Outcome(cfg: Config, g: Net, step: Step): Result<Net> {
    match step
    case Act(i, action, input) =>
      var _ :- Need(i < |g.shards| && Placed(cfg, g.shards[i], action, input), InvalidRcvAddr);
      var s :- ActOn(cfg, g.shards[i], action, input);
      Ok(WithShard(g, i, s))
    case SendingNft(i, input) =>
      var _ :- Need(CanSend(cfg, g, i, input), InvalidRcvAddr);
      AfterSend(cfg, g, i, NftTransfer(cfg, g.shards[i], input))
    case SendingMulti(i, input) =>
      var _ :- Need(CanSend(cfg, g, i, input), InvalidRcvAddr);
      AfterSend(cfg, g, i, MultiTransfer(cfg, g.shards[i], input))
    case Delivering(k, env) =>
      var _ :- Need(CanReceive(cfg, g, k), InvalidRcvAddr);
      var i := cfg.shardOf(g.inflight[k].dst);
      var s :- Deliver(cfg, g.shards[i], g.inflight[k], env);
      Ok(WithShard(g, i, s).(inflight := WithoutAt(g.inflight, k)))
    case Rejecting(k, pending) =>
      var _ :- Need(CanReceive(cfg, g, k), InvalidRcvAddr);
      var i := cfg.shardOf(g.inflight[k].dst);
      var s :- SaveMetaDataOf(cfg, g.shards[i], g.inflight[k]);
      if pending then
        Ok(WithShard(g, i, s))
      else
        Ok(WithShard(g, i, s).(inflight := WithoutAt(g.inflight, k), rejected := g.rejected + [g.inflight[k]]))
  }

  /** A step that returns an error changes nothing. */
  function Next(cfg: Config, g: Net, step: Step): Net {
    match Outcome(cfg, g, step)
    case Ok(g1) => g1
    case Err(_) => g
  }

  /** The network before the first step. */
  function Genesis(cfg: Config): (g: Net)
    ensures WellFormed(cfg, g)
  {
    Net(seq(cfg.numShards, (i: nat) => Shard(i, map[], map[])), [], [])
  }

  function Run(cfg: Config, g: Net, steps: seq<Step>): Net
    decreases |steps|
  {
    if steps == [] then g else Run(cfg, Next(cfg, g, steps[0]), steps[1..])
  }
}
