// Supply over every run of the network, for every combination of flags.
module NetworkSupply {
  import opened Bytes
  import opened Wrappers
  import opened TokenId
  import opened Ledger
  import opened Transfers
  import opened TxData
  import opened Totals
  import opened Liquidity
  import opened Shapes
  import opened Wire
  import opened Network
  import opened Emission
  import opened SameShard
  import opened Supply

  // ----- what a network holds -----

  ghost function ShardsTotal(shards: seq<Shard>, key: bytes): int {
    if shards == [] then 0 else Total(shards[0], key) + ShardsTotal(shards[1..], key)
  }

  /** What a message carries of `key`, as its receiver reads it. */
  function MessageAmount(cfg: Config, m: Msg, key: bytes): int {
    match ReadMessage(cfg, m.data)
    case Ok((moves, _)) => Carried(moves, 0, key)
    case Err(_) => 0
  }

  function InFlight(cfg: Config, msgs: seq<Msg>, key: bytes): int {
    if msgs == [] then 0 else MessageAmount(cfg, msgs[0], key) + InFlight(cfg, msgs[1..], key)
  }

  /** All account values of all shards and all message values. */
  ghost function SupplyOf(cfg: Config, g: Net, key: bytes): int {
    ShardsTotal(g.shards, key) + InFlight(cfg, g.inflight, key) + InFlight(cfg, g.rejected, key)
  }

  lemma {:induction false} ShardsTotalUpdate(shards: seq<Shard>, i: nat, s: Shard, key: bytes)
    requires i < |shards|
    ensures ShardsTotal(shards[i := s], key) == ShardsTotal(shards, key) - Total(shards[i], key) + Total(s, key)
  {
    if i == 0 {
      assert shards[0 := s][1..] == shards[1..];
    } else {
      ShardsTotalUpdate(shards[1..], i - 1, s, key);
      assert shards[i := s][1..] == shards[1..][i - 1 := s];
    }
  }

  lemma {:induction false} InFlightConcat(cfg: Config, a: seq<Msg>, b: seq<Msg>, key: bytes)
    ensures InFlight(cfg, a + b, key) == InFlight(cfg, a, key) + InFlight(cfg, b, key)
  {
    if a == [] {
      assert a + b == b;
    } else {
      InFlightConcat(cfg, a[1..], b, key);
      assert (a + b)[1..] == a[1..] + b;
    }
  }

  lemma InFlightWithout(cfg: Config, msgs: seq<Msg>, k: nat, key: bytes)
    requires k < |msgs|
    ensures InFlight(cfg, WithoutAt(msgs, k), key) == InFlight(cfg, msgs, key) - MessageAmount(cfg, msgs[k], key)
  {
    InFlightConcat(cfg, msgs[..k], msgs[k..], key);
    InFlightConcat(cfg, msgs[..k], msgs[k + 1..], key);
    assert msgs == msgs[..k] + msgs[k..];
    assert msgs[k..][1..] == msgs[k + 1..];
  }

  // ----- what a step issues -----

  /** The change of supply an action is meant to make: the created, added or minted quantity, minus the burned
      quantity, minus the wiped holding. A plain fungible transfer takes its amount away where the sender lives
      and brings it where the receiver lives: between shards it travels with its transaction. */
  function Issued(cfg: Config, s: Shard, action: Action, input: Input, key: bytes): int {
    match action
    case Creating(latest) =>
      if |input.args| >= 2 && key == KeyOf(input.args[0], U64(latest + 1)) then SetBytes(input.args[1]) else 0
    case AddingQuantity =>
      if |input.args| >= 3 && key == KeyOf(input.args[0], U64(SetBytes(input.args[1])))
      then SetBytes(input.args[2]) else 0
    case Burning =>
      if |input.args| >= 3 && key == KeyOf(input.args[0], U64(SetBytes(input.args[1])))
      then -(SetBytes(input.args[2]) as int) else 0
    case Wiping =>
      if |input.args| >= 1 && key == input.args[0] then -Holding(s, Slot(input.recipient, key)) else 0
    case Minting(sign) =>
      if |input.args| >= 2 && key == input.args[0]
      then if sign > 0 then SetBytes(input.args[1]) else -(SetBytes(input.args[1]) as int) else 0
    case MovingFungible =>
      if |input.args| >= 2 && key == input.args[0]
      then (if cfg.shardOf(input.recipient) == s.id then SetBytes(input.args[1]) else 0)
           - (if cfg.shardOf(input.caller) == s.id then SetBytes(input.args[1]) else 0)
      else 0
    case _ => 0
  }

  /** What a step issues: nothing when it returns an error, and nothing when it moves tokens. */
  function IssuedBy(cfg: Config, g: Net, step: Step, key: bytes): int {
    match step
    case Act(i, action, input) =>
      if Outcome(cfg, g, step).Ok? && i < |g.shards| then Issued(cfg, g.shards[i], action, input, key) else 0
    case _ => 0
  }

  function IssuedOver(cfg: Config, g: Net, steps: seq<Step>, key: bytes): int
    decreases |steps|
  {
    if steps == [] then 0
    else IssuedBy(cfg, g, steps[0], key) + IssuedOver(cfg, Next(cfg, g, steps[0]), steps[1..], key)
  }

  /** A creation writes to a nonce of which its account holds nothing. */
  ghost predicate Accountable(cfg: Config, g: Net, step: Step) {
    match step
    case Act(i, action, input) =>
      (match action
       case Creating(latest) =>
         i < |g.shards| && input.args != [] && RoleHolder(input).Ok? ==>
           Holding(g.shards[i], Slot(RoleHolder(input).value, KeyOf(input.args[0], U64(latest + 1)))) == 0
       case _ => true)
    case SendingMulti(_, input) => |input.args| < TWO64
    case _ => true
  }

  ghost predicate AccountableRun(cfg: Config, g: Net, steps: seq<Step>)
    decreases |steps|
  {
    steps == [] || (Accountable(cfg, g, steps[0]) && AccountableRun(cfg, Next(cfg, g, steps[0]), steps[1..]))
  }

  /** A message crosses shards and its amounts are not negative. */
  ghost predicate FairMessage(cfg: Config, m: Msg) {
    && cfg.shardOf(m.src) != cfg.shardOf(m.dst)
    && ReadMessage(cfg, m.data).Ok?
    && forall k :: 0 <= k < |ReadMessage(cfg, m.data).value.0| ==> ReadMessage(cfg, m.data).value.0[k].value >= 0
  }

  ghost predicate SupplyInv(cfg: Config, g: Net) {
    && WellFormed(cfg, g)
    && (forall i :: 0 <= i < |g.shards| ==> NonNegative(g.shards[i]))
    && (forall k :: 0 <= k < |g.inflight| ==> FairMessage(cfg, g.inflight[k]))
  }

  // ----- one step -----

  /** `r` keeps the records non-negative and moves the total under `key` by `delta`. */
  ghost predicate MovesTotal(s: Shard, r: Result<Shard>, key: bytes, delta: int) {
    r.Ok? ==> NonNegative(r.value) && r.value.id == s.id && Total(r.value, key) == Total(s, key) + delta
  }

  lemma FungibleLegsMove(cfg: Config, s: Shard, input: Input, token: bytes, value: int, key: bytes)
    requires NonNegative(s)
    ensures var debited := FungibleDebit(cfg, s, input, token, value);
            var out := if key == token && cfg.shardOf(input.caller) == s.id then -value else 0;
            && MovesTotal(s, debited, key, out)
            && MovesTotal(s, FungibleCredit(cfg, debited, input, token, value), key,
                          out + if key == token then value else 0)
  {
    hide AddToBalance;
    AddToBalanceShifts(cfg, s, input, input.caller, token, -value);
    var debited := FungibleDebit(cfg, s, input, token, value);
    if debited.Ok? {
      AddToBalanceShifts(cfg, debited.value, input, input.recipient, token, value);
    }
  }

  /** A fungible transfer ends with its debit where the receiver lives elsewhere, and with its credit here. */
  lemma FungibleEnd(cfg: Config, s: Shard, input: Input, value: int)
    requires |input.args| >= 2 && value == SetBytes(input.args[1]) && FungibleTransfer(cfg, s, input).Ok?
    ensures var debited := FungibleDebit(cfg, s, input, input.args[0], value);
            FungibleTransfer(cfg, s, input) ==
            if cfg.shardOf(input.recipient) == s.id then FungibleCredit(cfg, debited, input, input.args[0], value)
            else debited
  {
    hide AddToBalance;
  }

  lemma FungibleTransferMoves(cfg: Config, s: Shard, input: Input, key: bytes)
    requires NonNegative(s) && |input.args| >= 2
    ensures MovesTotal(s, FungibleTransfer(cfg, s, input), key, Issued(cfg, s, MovingFungible, input, key))
  {
    hide FungibleTransfer, FungibleDebit, FungibleCredit;
    if FungibleTransfer(cfg, s, input).Ok? {
      FungibleEnd(cfg, s, input, SetBytes(input.args[1]));
      FungibleLegsMove(cfg, s, input, input.args[0], SetBytes(input.args[1]), key);
    }
  }

  lemma MintOrBurnMoves(cfg: Config, s: Shard, input: Input, sign: int, key: bytes)
    requires NonNegative(s) && |input.args| >= 2
    ensures MovesTotal(s, ActOn(cfg, s, Minting(sign), input), key, Issued(cfg, s, Minting(sign), input, key))
  {
    hide AddToBalance;
    var one := if sign > 0 then 1 else -1;
    AddToBalanceShifts(cfg, s, input, input.caller, input.args[0], one * SetBytes(input.args[1]));
  }

  /** Moving only the total under `own` by `delta`, seen from any key. */
  lemma ShiftMoves(s: Shard, r: Result<Shard>, own: bytes, delta: int, key: bytes)
    requires Shifts(s, r, own, delta)
    ensures MovesTotal(s, r, key, if key == own then delta else 0)
  {
  }

  lemma CreateMoves(cfg: Config, s: Shard, input: Input, latest: uint64, key: bytes)
    requires NonNegative(s) && |input.args| >= 7 && RoleHolder(input).Ok?
    requires Holding(s, Slot(RoleHolder(input).value, KeyOf(input.args[0], U64(latest + 1)))) == 0
    ensures MovesTotal(s, Create(cfg, s, input, latest), key, Issued(cfg, s, Creating(latest), input, key))
  {
    hide Create;
    CreateShifts(cfg, s, input, latest);
    ShiftMoves(s, Create(cfg, s, input, latest), KeyOf(input.args[0], U64(latest + 1)), SetBytes(input.args[1]), key);
  }

  lemma OwnTokenMoves(cfg: Config, s: Shard, action: Action, input: Input, key: bytes)
    requires NonNegative(s) && |input.args| >= 3
    requires action.AddingQuantity? || action.Burning? || action.Updating?
    ensures MovesTotal(s, ActOn(cfg, s, action, input), key, Issued(cfg, s, action, input, key))
  {
    var own, value := KeyOf(input.args[0], U64(SetBytes(input.args[1]))), SetBytes(input.args[2]);
    match action
    case AddingQuantity =>
      AddQuantityShifts(cfg, s, input);
      ShiftMoves(s, AddQuantity(cfg, s, input), own, value, key);
    case Burning =>
      BurnShifts(cfg, s, input);
      ShiftMoves(s, Burn(cfg, s, input), own, -(value as int), key);
    case Updating =>
      UpdateShifts(cfg, s, input);
      ShiftMoves(s, UpdateAttributes(cfg, s, input), own, 0, key);
  }

  lemma FreezeOrWipeMoves(cfg: Config, s: Shard, action: Action, input: Input, key: bytes)
    requires NonNegative(s) && |input.args| == 1
    requires action.Freezing? || action.Wiping?
    ensures MovesTotal(s, ActOn(cfg, s, action, input), key, Issued(cfg, s, action, input, key))
  {
    match action
    case Freezing(frozen) =>
      SetFrozenShifts(cfg, s, input, frozen);
      ShiftMoves(s, SetFrozen(cfg, s, input, frozen), input.args[0], 0, key);
    case Wiping =>
      WipeShifts(cfg, s, input);
      ShiftMoves(s, Wipe(cfg, s, input), input.args[0], -Holding(s, Slot(input.recipient, input.args[0])), key);
  }

  /** What an action does to the total under any key of its shard. */
  lemma ActMoves(cfg: Config, s: Shard, action: Action, input: Input, key: bytes)
    requires NonNegative(s)
    requires Accountable(cfg, Net([s], [], []), Act(0, action, input))
    ensures MovesTotal(s, ActOn(cfg, s, action, input), key, Issued(cfg, s, action, input, key))
  {
    EnoughArguments(cfg, s, action, input);
    if Enough(action, input) {
      match action
      case Creating(latest) => CreateMoves(cfg, s, input, latest, key);
      case Freezing(_) => FreezeOrWipeMoves(cfg, s, action, input, key);
      case Wiping => FreezeOrWipeMoves(cfg, s, action, input, key);
      case Minting(sign) => MintOrBurnMoves(cfg, s, input, sign, key);
      case MovingFungible => FungibleTransferMoves(cfg, s, input, key);
      case _ => OwnTokenMoves(cfg, s, action, input, key);
    }
  }

  /** The number of arguments without which an action is refused. */
  predicate Enough(action: Action, input: Input) {
    match action
    case Creating(_) => |input.args| >= 7 && RoleHolder(input).Ok?
    case Freezing(_) => |input.args| == 1
    case Wiping => |input.args| == 1
    case Minting(_) => |input.args| >= 2
    case MovingFungible => |input.args| >= 2
    case _ => |input.args| >= 3
  }

  lemma EnoughArguments(cfg: Config, s: Shard, action: Action, input: Input)
    ensures Enough(action, input) || ActOn(cfg, s, action, input).Err?
  {
  }

  /** A sender-side function: what leaves the shard is what the emitted message carries. */
  ghost predicate SendsExactly(cfg: Config, s: Shard, r: Result<(Shard, VMOutput)>) {
    r.Ok? ==>
      && NonNegative(r.value.0) && r.value.0.id == s.id
      && (forall k :: 0 <= k < |Emitted(cfg, s, r.value.1)| ==> FairMessage(cfg, Emitted(cfg, s, r.value.1)[k]))
      && (forall key :: Total(r.value.0, key) + InFlight(cfg, Emitted(cfg, s, r.value.1), key) == Total(s, key))
  }

  /** The amounts `moves` leave `s`, and are what the emitted messages read. */
  lemma EmittedAmount(cfg: Config, s: Shard, msgs: seq<Msg>, src: Addr, dst: Addr, moves: seq<Move>)
    requires EmitsMoves(cfg, s, msgs, src, dst, moves) && cfg.shardOf(src) == s.id
    requires forall k :: 0 <= k < |moves| ==> moves[k].value >= 0
    ensures forall k :: 0 <= k < |msgs| ==> FairMessage(cfg, msgs[k])
    ensures forall key :: InFlight(cfg, msgs, key) == Leaving(cfg, s.id, dst, Carried(moves, 0, key))
  {
    forall key
      ensures InFlight(cfg, msgs, key) == Leaving(cfg, s.id, dst, Carried(moves, 0, key))
    {
      if cfg.shardOf(dst) != s.id {
        assert msgs[1..] == [];
        assert InFlight(cfg, msgs, key) == MessageAmount(cfg, msgs[0], key);
      }
    }
  }

  lemma NftTotals(cfg: Config, s: Shard, input: Input)
    requires NonNegative(s) && |input.args| >= NFT_MIN_ARGS && SendNft(cfg, s, input).Ok?
    ensures var s1, item := SendNft(cfg, s, input).value.0, NftItem(input.args);
            && NonNegative(s1)
            && forall k :: Total(s1, k) == Total(s, k)
                           - Leaving(cfg, s.id, input.args[3], AmountAt(MoveOfItem(item), k))
  {
    var item, dst := NftItem(input.args), input.args[3];
    SendNftShape(cfg, s, input);
    MoveShifts(cfg, s, input, dst, item);
    var debited := Debit(cfg, s, input, item).value;
    var settled := Settle(cfg, debited.0, input, dst, item, debited.1).value;
    AlreadySentWrites(cfg, settled.0, item.token, item.nonce, dst);
    var s1 := SendNft(cfg, s, input).value.0;
    forall k
      ensures Total(s1, k) == Total(settled.0, k)
    {
      TotalSameAccounts(settled.0, s1, k);
    }
  }

  lemma SendNftExact(cfg: Config, s: Shard, input: Input)
    requires Lawful(cfg) && NonNegative(s) && input.caller == input.recipient && cfg.shardOf(input.caller) == s.id
    ensures SendsExactly(cfg, s, NftTransfer(cfg, s, input))
  {
    var r := NftTransfer(cfg, s, input);
    if r.Ok? {
      var moves := [MoveOfItem(NftItem(input.args))];
      NftTotals(cfg, s, input);
      SendNftEmits(cfg, s, input);
      EmittedAmount(cfg, s, Emitted(cfg, s, r.value.1), input.caller, input.args[3], moves);
      assert forall key :: Carried(moves, 0, key) == AmountAt(moves[0], key) + Carried(moves, 1, key);
    }
  }

  lemma MultiOutputTotals(cfg: Config, s: Shard, input: Input, dst: Addr, sent: seq<Sent>, gas: nat)
    requires 3 * |sent| + 2 <= |input.args| && MultiOutput(cfg, s, input, dst, sent, gas).Ok? && NonNegative(s)
    ensures var s1 := MultiOutput(cfg, s, input, dst, sent, gas).value.0;
            NonNegative(s1) && forall k :: Total(s1, k) == Total(s, k)
  {
    EncodeSameId(cfg, s, sent, dst, gas, 0);
    var s1 := MultiOutput(cfg, s, input, dst, sent, gas).value.0;
    forall k
      ensures Total(s1, k) == Total(s, k)
    {
      TotalSameAccounts(s, s1, k);
    }
  }

  /** What a sender-side function that moves `moves` to `dst` does to the totals of its shard. */
  ghost predicate Deducts(cfg: Config, s: Shard, r: Result<(Shard, VMOutput)>, dst: Addr, moves: seq<Move>) {
    r.Ok? ==>
      && NonNegative(r.value.0)
      && forall k :: Total(r.value.0, k) == Total(s, k) - Leaving(cfg, s.id, dst, Carried(moves, 0, k))
  }

  lemma SendAllTotals(cfg: Config, s: Shard, input: Input, dst: Addr, n: nat, gas: nat)
    requires NonNegative(s) && 3 * n + 2 <= |input.args|
    ensures Deducts(cfg, s, SendAll(cfg, s, input, dst, n, gas), dst, RequestedMoves(input.args, n))
  {
    var all := SendItems(cfg, s, input, dst, n, 0);
    SendAllShape(cfg, s, input, dst, n, gas);
    SendItemsShift(cfg, s, input, dst, n, 0);
    if all.Ok? && |all.value.1| == n && MultiOutput(cfg, all.value.0, input, dst, all.value.1, gas).Ok? {
      MultiOutputTotals(cfg, all.value.0, input, dst, all.value.1, gas);
    }
  }

  lemma MultiTotals(cfg: Config, s: Shard, input: Input, n: nat)
    requires NonNegative(s) && |input.args| >= 4 && n == U64(SetBytes(input.args[1])) && SendMulti(cfg, s, input).Ok?
    ensures 3 * n + 2 <= |input.args|
    ensures Deducts(cfg, s, SendMulti(cfg, s, input), input.args[0], RequestedMoves(input.args, n))
  {
    hide SendMulti, SendAll;
    SendMultiChecks(cfg, s, input);
    SendAllTotals(cfg, s, input, input.args[0], n, input.gasProvided - U64(n * cfg.multiGas));
  }

  lemma SendMultiExact(cfg: Config, s: Shard, input: Input)
    requires Lawful(cfg) && NonNegative(s) && input.caller == input.recipient && cfg.shardOf(input.caller) == s.id
    requires |input.args| < TWO64
    ensures SendsExactly(cfg, s, MultiTransfer(cfg, s, input))
  {
    var r := MultiTransfer(cfg, s, input);
    if r.Ok? {
      var n := U64(SetBytes(input.args[1]));
      MultiTotals(cfg, s, input, n);
      SendMultiEmits(cfg, s, input);
      EmittedAmount(cfg, s, Emitted(cfg, s, r.value.1), input.caller, input.args[0], RequestedMoves(input.args, n));
    }
  }

  /** A delivery adds to the shard exactly what the message carries. */
  ghost predicate ReceivesExactly(cfg: Config, s: Shard, r: Result<Shard>, m: Msg) {
    r.Ok? ==>
      && NonNegative(r.value) && r.value.id == s.id
      && forall key :: Total(r.value, key) == Total(s, key) + MessageAmount(cfg, m, key)
  }

  lemma DeliverNftExact(cfg: Config, s: Shard, m: Msg, env: Input, args: seq<bytes>)
    requires NonNegative(s) && FairMessage(cfg, m) && Parse(m.data) == Ok((NFT_TRANSFER, args))
    ensures ReceivesExactly(cfg, s, Deliver(cfg, s, m, env), m)
  {
    var input := DeliveryInput(m, args, env);
    var moves := ReadMessage(cfg, m.data).value.0;
    var t := NftPayload(cfg, args).value;
    assert moves[0].value == t.value;
    CreditShifts(cfg, s, input, m.src, m.dst, t, args[0], U64(SetBytes(args[1])));
    assert forall key :: Carried(moves, 0, key) == AmountAt(moves[0], key) + Carried(moves, 1, key);
  }

  lemma DeliverMultiExact(cfg: Config, s: Shard, m: Msg, env: Input, args: seq<bytes>)
    requires NonNegative(s) && FairMessage(cfg, m) && Parse(m.data) == Ok((MULTI_TRANSFER, args))
    ensures ReceivesExactly(cfg, s, Deliver(cfg, s, m, env), m)
  {
    hide ReceiveItems, ReadItems;
    var input := DeliveryInput(m, args, env);
    var n := U64(SetBytes(args[0]));
    FunctionNames();
    var moves := ReadMessage(cfg, m.data).value.0;
    ReadItemsAt(cfg, args, n, 0);
    forall j | 0 <= j < n
      ensures DecodeItem(cfg, args, j).Ok? && moves[j] == MoveOf(DecodeItem(cfg, args, j).value)
    {
      assert moves[j - 0] == MoveOf(DecodeItem(cfg, args, j).value);
    }
    ReceiveItemsShift(cfg, s, input, moves, n, 0);
  }

  lemma DeliverExact(cfg: Config, s: Shard, m: Msg, env: Input)
    requires NonNegative(s) && FairMessage(cfg, m)
    ensures ReceivesExactly(cfg, s, Deliver(cfg, s, m, env), m)
  {
    var (func, args) := Parse(m.data).value;
    if func == NFT_TRANSFER {
      DeliverNftExact(cfg, s, m, env, args);
    } else {
      DeliverMultiExact(cfg, s, m, env, args);
    }
  }

  // ----- every step -----

  /** The step keeps the invariant and changes the supply of `key` by what it issues. */
  ghost predicate StepBalances(cfg: Config, g: Net, step: Step, key: bytes) {
    var g1 := Next(cfg, g, step);
    SupplyInv(cfg, g1) && SupplyOf(cfg, g1, key) == SupplyOf(cfg, g, key) + IssuedBy(cfg, g, step, key)
  }

  /** Exchanging one shard for another changes the supply by what the two differ in. */
  lemma ShardBalances(cfg: Config, g: Net, i: nat, s: Shard, key: bytes)
    requires SupplyInv(cfg, g) && i < |g.shards| && NonNegative(s) && s.id == i
    ensures SupplyInv(cfg, WithShard(g, i, s))
    ensures SupplyOf(cfg, WithShard(g, i, s), key) == SupplyOf(cfg, g, key) + Total(s, key) - Total(g.shards[i], key)
  {
    ShardsTotalUpdate(g.shards, i, s, key);
  }

  /** Taking a message away lowers the supply by what it carries, unless it is kept as rejected. */
  lemma MessageBalances(cfg: Config, g: Net, k: nat, keep: bool, key: bytes)
    requires SupplyInv(cfg, g) && k < |g.inflight|
    ensures var rejected := if keep then g.rejected + [g.inflight[k]] else g.rejected;
            var g1 := g.(inflight := WithoutAt(g.inflight, k), rejected := rejected);
            && SupplyInv(cfg, g1)
            && SupplyOf(cfg, g1, key) ==
               SupplyOf(cfg, g, key) - if keep then 0 else MessageAmount(cfg, g.inflight[k], key)
  {
    var m := g.inflight[k];
    InFlightWithout(cfg, g.inflight, k, key);
    InFlightConcat(cfg, g.rejected, [m], key);
    assert [m][1..] == [];
    assert InFlight(cfg, [m], key) == MessageAmount(cfg, m, key);
  }

  lemma ActBalances(cfg: Config, g: Net, i: nat, action: Action, input: Input, key: bytes)
    requires SupplyInv(cfg, g) && Accountable(cfg, g, Act(i, action, input))
    ensures StepBalances(cfg, g, Act(i, action, input), key)
  {
    if i < |g.shards| && Placed(cfg, g.shards[i], action, input) {
      var r := ActOn(cfg, g.shards[i], action, input);
      ActMoves(cfg, g.shards[i], action, input, key);
      ActBalanced(cfg, g, i, action, input, r, key);
    }
  }

  lemma ActBalanced(cfg: Config, g: Net, i: nat, action: Action, input: Input, r: Result<Shard>, key: bytes)
    requires SupplyInv(cfg, g) && i < |g.shards| && Placed(cfg, g.shards[i], action, input)
    requires r == ActOn(cfg, g.shards[i], action, input)
    requires MovesTotal(g.shards[i], r, key, Issued(cfg, g.shards[i], action, input, key))
    ensures StepBalances(cfg, g, Act(i, action, input), key)
  {
    hide ActOn, Issued;
    if r.Ok? {
      ShardBalances(cfg, g, i, r.value, key);
    }
  }

  lemma SendBalances(cfg: Config, g: Net, i: nat, r: Result<(Shard, VMOutput)>, key: bytes)
    requires SupplyInv(cfg, g) && i < |g.shards| && SendsExactly(cfg, g.shards[i], r)
    ensures var sent := AfterSend(cfg, g, i, r);
            sent.Ok? ==> SupplyInv(cfg, sent.value) && SupplyOf(cfg, sent.value, key) == SupplyOf(cfg, g, key)
  {
    if r.Ok? {
      ShardsTotalUpdate(g.shards, i, r.value.0, key);
      InFlightConcat(cfg, g.inflight, Emitted(cfg, g.shards[i], r.value.1), key);
    }
  }

  lemma DeliveryBalances(cfg: Config, g: Net, k: nat, env: Input, key: bytes)
    requires SupplyInv(cfg, g)
    ensures StepBalances(cfg, g, Delivering(k, env), key)
  {
    if CanReceive(cfg, g, k) {
      var m, i := g.inflight[k], cfg.shardOf(g.inflight[k].dst);
      assert FairMessage(cfg, m);
      var r := Deliver(cfg, g.shards[i], m, env);
      DeliverExact(cfg, g.shards[i], m, env);
      if r.Ok? {
        ShardBalances(cfg, g, i, r.value, key);
        MessageBalances(cfg, WithShard(g, i, r.value), k, false, key);
      }
    }
  }

  lemma RejectionBalances(cfg: Config, g: Net, k: nat, pending: bool, key: bytes)
    requires SupplyInv(cfg, g)
    ensures StepBalances(cfg, g, Rejecting(k, pending), key)
  {
    if CanReceive(cfg, g, k) {
      var m, i := g.inflight[k], cfg.shardOf(g.inflight[k].dst);
      var r := SaveMetaDataOf(cfg, g.shards[i], m);
      SaveMetaDataOfId(cfg, g.shards[i], m);
      if r.Ok? {
        TotalSameAccounts(g.shards[i], r.value, key);
        ShardBalances(cfg, g, i, r.value, key);
        if !pending {
          MessageBalances(cfg, WithShard(g, i, r.value), k, true, key);
        }
      }
    }
  }

  lemma StepBalance(cfg: Config, g: Net, step: Step, key: bytes)
    requires Lawful(cfg) && SupplyInv(cfg, g) && Accountable(cfg, g, step)
    ensures StepBalances(cfg, g, step, key)
  {
    hide NftTransfer, MultiTransfer;
    match step
    case Act(i, action, input) => ActBalances(cfg, g, i, action, input, key);
    case SendingNft(i, input) =>
      if CanSend(cfg, g, i, input) {
        SendNftExact(cfg, g.shards[i], input);
        SendBalances(cfg, g, i, NftTransfer(cfg, g.shards[i], input), key);
      }
    case SendingMulti(i, input) =>
      if CanSend(cfg, g, i, input) {
        SendMultiExact(cfg, g.shards[i], input);
        SendBalances(cfg, g, i, MultiTransfer(cfg, g.shards[i], input), key);
      }
    case Delivering(k, env) => DeliveryBalances(cfg, g, k, env, key);
    case Rejecting(k, pending) => RejectionBalances(cfg, g, k, pending, key);
  }

  lemma {:induction false} RunBalance(cfg: Config, g: Net, steps: seq<Step>, key: bytes)
    requires Lawful(cfg) && SupplyInv(cfg, g) && AccountableRun(cfg, g, steps)
    ensures SupplyInv(cfg, Run(cfg, g, steps))
    ensures SupplyOf(cfg, Run(cfg, g, steps), key) == SupplyOf(cfg, g, key) + IssuedOver(cfg, g, steps, key)
    decreases |steps|
  {
    if steps != [] {
      StepBalance(cfg, g, steps[0], key);
      RunBalance(cfg, Next(cfg, g, steps[0]), steps[1..], key);
    }
  }

  lemma {:induction false} EmptyShards(shards: seq<Shard>, key: bytes)
    requires forall i :: 0 <= i < |shards| ==> shards[i].accounts == map[]
    ensures ShardsTotal(shards, key) == 0
  {
    if shards != [] {
      assert HoldersOf(shards[0], key) == map[];
      EmptyShards(shards[1..], key);
    }
  }

  /** Over every run, whatever the flags and whatever the arguments: under every key, what all accounts and all
      messages hold together is what was created, added and minted, minus what was burned and wiped, and what
      plain fungible transactions brought, minus what they took away. */
  lemma SupplyOverRuns(cfg: Config, steps: seq<Step>, key: bytes)
    requires Lawful(cfg) && AccountableRun(cfg, Genesis(cfg), steps)
    ensures SupplyOf(cfg, Run(cfg, Genesis(cfg), steps), key) == IssuedOver(cfg, Genesis(cfg), steps, key)
  {
    EmptyShards(Genesis(cfg).shards, key);
    RunBalance(cfg, Genesis(cfg), steps, key);
  }

  /** Fungible functions that name valid identifiers issue nothing of an NFT. */
  lemma FungibleIssuesNoNft(cfg: Config, s: Shard, action: Action, input: Input, token: bytes, nonce: uint64)
    requires ValidToken(token) && nonce > 0 && (action.Minting? || action.MovingFungible?)
    requires input.args != [] ==> ValidToken(input.args[0])
    ensures Issued(cfg, s, action, input, KeyOf(token, nonce)) == 0
  {
    NonceGivesNftKey(token, nonce);
    if input.args != [] {
      TokenIsNotNftKey(input.args[0]);
    }
  }

  // ----- one shard -----

  /** What the actions on shard `i` issue, in a run of actions. */
  function IssuedIn(cfg: Config, g: Net, steps: seq<Step>, i: nat, key: bytes): int
    decreases |steps|
  {
    if steps == [] then 0
    else (if steps[0].Act? && steps[0].shard == i then IssuedBy(cfg, g, steps[0], key) else 0)
         + IssuedIn(cfg, Next(cfg, g, steps[0]), steps[1..], i, key)
  }

  lemma ActInShard(cfg: Config, g: Net, j: nat, action: Action, input: Input, i: nat, key: bytes)
    requires SupplyInv(cfg, g) && i < |g.shards| && Accountable(cfg, g, Act(j, action, input))
    ensures var step := Act(j, action, input);
            && |Next(cfg, g, step).shards| == |g.shards|
            && Total(Next(cfg, g, step).shards[i], key)
               == Total(g.shards[i], key) + if j == i then IssuedBy(cfg, g, step, key) else 0
  {
    hide ActOn, Issued;
    if j == i && Placed(cfg, g.shards[i], action, input) {
      ActMoves(cfg, g.shards[i], action, input, key);
    }
  }

  /** Over every run of actions, from any state: the total of a shard under any key changes by what its own
      actions issue. For a fungible token moved inside the shard that is what was minted minus what was burned. */
  lemma {:induction false} ShardTotalOverRuns(cfg: Config, g: Net, steps: seq<Step>, i: nat, key: bytes)
    requires Lawful(cfg) && SupplyInv(cfg, g) && i < |g.shards| && AccountableRun(cfg, g, steps)
    requires forall k :: 0 <= k < |steps| ==> steps[k].Act?
    ensures var g1 := Run(cfg, g, steps);
            && |g1.shards| == |g.shards|
            && Total(g1.shards[i], key) == Total(g.shards[i], key) + IssuedIn(cfg, g, steps, i, key)
    decreases |steps|
  {
    hide Outcome, Next, Issued;
    if steps != [] {
      var step := steps[0];
      assert step.Act?;
      ActInShard(cfg, g, step.shard, step.action, step.input, i, key);
      StepBalance(cfg, g, step, key);
      ShardTotalOverRuns(cfg, Next(cfg, g, step), steps[1..], i, key);
    }
  }
}
