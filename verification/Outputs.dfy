// What transfers hand on: where the gas goes, and which call runs behind the transferred tokens, on the
// sender's shard, inside one shard and on delivery.
module Outputs {
  import opened Bytes
  import opened Wrappers
  import opened Ledger
  import opened Transfers
  import opened TxData
  import opened Shapes
  import opened Wire
  import opened Emission
  import opened Gas

  // ----- when and what is called -----

  /** A contract's address: more than ten bytes, the first eight of them zero. */
  ghost predicate Contract(a: Addr) {
    |a| > 10 && forall i :: 0 <= i < 8 ==> a[i] == 0
  }

  /** A call follows the arguments before `p`: there is one, the receiver is a contract, the transfer is no
      return after an error unless it is a call-back, and the function is named where that is checked. */
  ghost predicate CallFollows(cfg: Config, input: Input, dst: Addr, p: nat) {
    && |input.args| > p && Contract(dst)
    && (input.returnAfterError ==> input.callType == AsyncCallBack)
    && (cfg.checkFunctionArgument ==> input.args[p] != [])
  }

  lemma CallFollowsExactly(cfg: Config, input: Input, dst: Addr, p: nat)
    ensures IsCallAfter(cfg, input, dst, p) <==> CallFollows(cfg, input, dst, p)
  {
  }

  /** The transfer goes from the caller to `dst`, takes `gas` and the locked gas along, and its text names the
      function and the arguments of `call`. */
  ghost predicate Calls(input: Input, x: OutTransfer, dst: Addr, call: seq<bytes>, gas: int) {
    && call != []
    && x.sender == input.caller && x.recipient == dst && x.gasLimit == gas && x.gasLocked == input.gasLocked
    && x.data == Print(call[0], call[1..])
    && (call[0] != [] && AT !in call[0] ==> Parse(x.data) == Ok((call[0], call[1..])))
  }

  /** The output of a sender-side transfer to `dst` whose items end before argument `p` and which has `left`
      gas after fee and copying. To another shard a message goes out, and the gas goes with it exactly when a
      call follows; inside the shard the call takes all gas, and without a call everything stays. */
  ghost predicate SenderEnds(cfg: Config, id: nat, input: Input, dst: Addr, p: nat, out: VMOutput, left: int) {
    if cfg.shardOf(dst) != id then
      && out.transfer.Some?
      && var x := out.transfer.value;
      && x.sender == input.caller && x.recipient == dst && x.gasLocked == input.gasLocked
      && (CallFollows(cfg, input, dst, p) ==> out.gasRemaining == 0 && x.gasLimit == left)
      && (!CallFollows(cfg, input, dst, p) ==> out.gasRemaining == left && x.gasLimit == 0)
    else if CallFollows(cfg, input, dst, p) then
      out.gasRemaining == 0 && out.transfer.Some? && Calls(input, out.transfer.value, dst, input.args[p..], left)
    else
      out.gasRemaining == left && out.transfer.None?
  }

  lemma CallOutputCalls(input: Input, dst: Addr, call: seq<bytes>, gas: nat)
    requires call != []
    ensures var out := CallOutput(input, dst, call, gas);
            out.gasRemaining == 0 && out.transfer.Some? && Calls(input, out.transfer.value, dst, call, gas)
  {
    ParsePrint(call[0], call[1..]);
  }

  lemma SendOutputEnds(
    cfg: Config, s: Shard, input: Input, dst: Addr, func: bytes, callArgs: seq<bytes>, p: nat, gas: nat)
    ensures SenderEnds(cfg, s.id, input, dst, p, SendOutput(cfg, s, input, dst, func, callArgs, p, gas), gas)
  {
    CallFollowsExactly(cfg, input, dst, p);
    hide IsCallAfter, CallOutput, Calls;
    if CallFollows(cfg, input, dst, p) {
      CallOutputCalls(input, dst, input.args[p..], gas);
    }
  }

  // ----- the sender's side -----

  lemma MultiOutputEnds(cfg: Config, s: Shard, input: Input, dst: Addr, sent: seq<Sent>, gas: nat)
    requires Lawful(cfg) && 3 * |sent| + 2 <= |input.args| && MultiOutput(cfg, s, input, dst, sent, gas).Ok?
    ensures var encoded := EncodeItems(cfg, s, sent, dst, gas, 0).value.1;
            && |encoded| == 3 * |sent|
            && SenderEnds(cfg, s.id, input, dst, 3 * |sent| + 2, MultiOutput(cfg, s, input, dst, sent, gas).value.1,
                          gas - Charge(PaidLengths(encoded, 0, |sent|), cfg.copyGas))
  {
    hide SenderEnds, SendOutput, EncodeItems, PaidLengths, Charge;
    var (s1, encoded, left) := EncodeItems(cfg, s, sent, dst, gas, 0).value;
    EncodeCharge(cfg, s, sent, dst, gas, 0);
    EncodeSameId(cfg, s, sent, dst, gas, 0);
    var p := 3 * |sent| + 2;
    SendOutputEnds(cfg, s1, input, dst, MULTI_TRANSFER, [ToBytes(|sent|)] + encoded + input.args[p..], p, left);
  }

  lemma SendAllEnds(cfg: Config, s: Shard, input: Input, dst: Addr, n: nat, gas: nat)
    requires Lawful(cfg) && 3 * n + 2 <= |input.args| && SendAll(cfg, s, input, dst, n, gas).Ok?
    ensures var spelled := SpelledBy(cfg, s, input, dst, n, gas);
            && |spelled| == 3 * n
            && SenderEnds(cfg, s.id, input, dst, 3 * n + 2, SendAll(cfg, s, input, dst, n, gas).value.1,
                          gas - Charge(PaidLengths(spelled, 0, n), cfg.copyGas))
  {
    hide SenderEnds, MultiOutput, SendItems, EncodeItems, PaidLengths, Charge;
    var (moved, sent) := SendItems(cfg, s, input, dst, n, 0).value;
    SendAllShape(cfg, s, input, dst, n, gas);
    SentRecords(cfg, s, input, dst, n, 0);
    MultiOutputEnds(cfg, moved, input, dst, sent, gas);
  }

  /** A multi transfer on the sender's shard. */
  lemma MultiEnds(cfg: Config, s: Shard, input: Input)
    requires Lawful(cfg) && input.caller == input.recipient && MultiTransfer(cfg, s, input).Ok?
    ensures |input.args| >= 4 && SendMulti(cfg, s, input).Ok?
    ensures var n, spelled := U64(SetBytes(input.args[1])), Spelled(cfg, s, input);
            && |spelled| == 3 * n
            && SenderEnds(cfg, s.id, input, input.args[0], 3 * n + 2, MultiTransfer(cfg, s, input).value.1,
                          input.gasProvided - U64(n * cfg.multiGas)
                          - Charge(PaidLengths(spelled, 0, n), cfg.copyGas))
  {
    hide SenderEnds, SendMulti, SendAll, SpelledBy, PaidLengths, Charge;
    var n := U64(SetBytes(input.args[1]));
    SendMultiChecks(cfg, s, input);
    SendAllEnds(cfg, s, input, input.args[0], n, input.gasProvided - U64(n * cfg.multiGas));
  }

  lemma NftOutputEnds(cfg: Config, s: Shard, input: Input, t: Token, gas: nat)
    requires Lawful(cfg) && |input.args| >= NFT_MIN_ARGS && NftOutput(cfg, s, input, t, gas).Ok?
    ensures AlreadySent(cfg, s, input.args[0], NftItem(input.args).nonce, input.args[3]).Ok?
    ensures SenderEnds(cfg, s.id, input, input.args[3], NFT_MIN_ARGS, NftOutput(cfg, s, input, t, gas).value.1,
                       gas - Charge(NftLengths(NftPayloadOf(cfg, s, input, t)), cfg.copyGas))
  {
    var item, dst := NftItem(input.args), input.args[3];
    var (sent, s1) := AlreadySent(cfg, s, item.token, item.nonce, dst).value;
    AlreadySentWritesId(cfg, s, item.token, item.nonce, dst);
    var payload := NftPayloadOf(cfg, s, input, t);
    assert |cfg.marshal(t)| > MAX_VALUE_LENGTH;
    NftChargeIs(cfg, payload);
    hide AlreadySent, SendOutput, SenderEnds, Charge, NftLengths;
    var left := if !sent || t.value == 1 then Marshalled(cfg, t, gas).value.1 else gas;
    SendOutputEnds(cfg, s1, input, dst, NFT_TRANSFER, input.args[..3] + [payload] + input.args[4..], NFT_MIN_ARGS,
                   left);
  }

  lemma AlreadySentWritesId(cfg: Config, s: Shard, token: bytes, nonce: nat, dst: Addr)
    requires AlreadySent(cfg, s, token, nonce, dst).Ok?
    ensures AlreadySent(cfg, s, token, nonce, dst).value.1.id == s.id
  {
  }

  /** A single transfer on the sender's shard. */
  lemma NftEnds(cfg: Config, s: Shard, input: Input)
    requires Lawful(cfg) && input.caller == input.recipient && NftTransfer(cfg, s, input).Ok?
    ensures |input.args| >= NFT_MIN_ARGS && SendNft(cfg, s, input).Ok?
    ensures var (s2, t) := SettledNft(cfg, s, input);
            && AlreadySent(cfg, s2, input.args[0], NftItem(input.args).nonce, input.args[3]).Ok?
            && SenderEnds(cfg, s.id, input, input.args[3], NFT_MIN_ARGS, NftTransfer(cfg, s, input).value.1,
                          input.gasProvided - cfg.nftGas
                          - Charge(NftLengths(NftPayloadOf(cfg, s2, input, t)), cfg.copyGas))
  {
    hide SenderEnds, SendNft, Debit, Settle, NftOutput, Charge, NftLengths, NftPayloadOf, AlreadySent;
    SendNftShape(cfg, s, input);
    DebitShape(cfg, s, input, NftItem(input.args));
    var (s1, t1) := Debit(cfg, s, input, NftItem(input.args)).value;
    SettleSameShard(cfg, s1, input, input.args[3], NftItem(input.args), t1);
    var (s2, t) := SettledNft(cfg, s, input);
    NftOutputEnds(cfg, s2, input, t, input.gasProvided - cfg.nftGas);
  }

  // ----- the receiver's side -----

  /** The output of a delivery whose items end before argument `p`: whatever follows runs as a call of the
      receiving contract, with all gas; otherwise all gas stays. */
  ghost predicate ReceiverEnds(input: Input, call: seq<bytes>, out: VMOutput) {
    if call != [] && Contract(input.recipient) then
      && out.gasRemaining == 0 && out.transfer.Some?
      && Calls(input, out.transfer.value, input.recipient, call, input.gasProvided)
    else
      out.gasRemaining == input.gasProvided && out.transfer.None?
  }

  lemma ReceiveOutputEnds(input: Input, p: nat)
    requires p <= |input.args|
    ensures ReceiverEnds(input, input.args[p..], ReceiveOutput(input, p))
  {
    if |input.args| > p {
      CallOutputCalls(input, input.recipient, input.args[p..], input.gasProvided);
    }
    hide CallOutput, Calls;
    assert IsSmartContract(input.recipient) <==> Contract(input.recipient);
  }

  lemma MultiReceiverEnds(cfg: Config, s: Shard, input: Input)
    requires input.caller != input.recipient && MultiTransfer(cfg, s, input).Ok?
    ensures var n := if |input.args| >= 4 then U64(SetBytes(input.args[0])) else 0;
            && 0 < n && 3 * n + 1 <= |input.args|
            && ReceiverEnds(input, input.args[3 * n + 1..], MultiTransfer(cfg, s, input).value.1)
  {
    hide ReceiverEnds, ReceiveOutput, ReceiveItems;
    ReceiveOutputEnds(input, 3 * U64(SetBytes(input.args[0])) + 1);
  }

  lemma NftReceiverEnds(cfg: Config, s: Shard, input: Input)
    requires input.caller != input.recipient && NftTransfer(cfg, s, input).Ok?
    ensures |input.args| >= NFT_MIN_ARGS
    ensures ReceiverEnds(input, input.args[NFT_MIN_ARGS..], NftTransfer(cfg, s, input).value.1)
  {
    hide ReceiverEnds, ReceiveOutput, Credit;
    ReceiveOutputEnds(input, NFT_MIN_ARGS);
  }

  // ----- from the sender to the receiver -----

  /** The message of a multi transfer, read back: the amounts requested and what is written behind them. */
  lemma MultiMessageReads(cfg: Config, s: Shard, input: Input)
    requires Lawful(cfg) && input.caller == input.recipient && 4 <= |input.args| < TWO64
    requires MultiTransfer(cfg, s, input).Ok? && cfg.shardOf(input.args[0]) != s.id
    ensures var n, m := U64(SetBytes(input.args[1])), MultiTransfer(cfg, s, input).value.1.transfer;
            && 3 * n + 2 <= |input.args| && m.Some?
            && ReadMessage(cfg, m.value.data) == Ok((RequestedMoves(input.args, n), input.args[3 * n + 2..]))
            && Parse(m.value.data).Ok? && Parse(m.value.data).value.0 == MULTI_TRANSFER
  {
    hide SendMulti, SendAll;
    var n := U64(SetBytes(input.args[1]));
    SendMultiChecks(cfg, s, input);
    SendAllReads(cfg, s, input, input.args[0], n, input.gasProvided - U64(n * cfg.multiGas));
  }

  lemma SendAllReads(cfg: Config, s: Shard, input: Input, dst: Addr, n: nat, gas: nat)
    requires Lawful(cfg) && 0 < n && 3 * n + 2 <= |input.args| < TWO64 && cfg.shardOf(dst) != s.id
    requires SendAll(cfg, s, input, dst, n, gas).Ok?
    ensures var m := SendAll(cfg, s, input, dst, n, gas).value.1.transfer;
            && m.Some?
            && ReadMessage(cfg, m.value.data) == Ok((RequestedMoves(input.args, n), input.args[3 * n + 2..]))
            && Parse(m.value.data).Ok? && Parse(m.value.data).value.0 == MULTI_TRANSFER
  {
    hide SendItems, MultiOutput, ReadMessage;
    var (moved, sent) := SendItems(cfg, s, input, dst, n, 0).value;
    SendAllShape(cfg, s, input, dst, n, gas);
    SentRecords(cfg, s, input, dst, n, 0);
    forall k | 0 <= k < |sent|
      ensures sent[k].tok.value == sent[k].item.value && MoveOf(sent[k]) == RequestedMoves(input.args, n)[k]
    {
      assert RecordsItem(cfg, s.id, input.args, dst, 0 + k, sent[k]);
    }
    assert MovesOf(sent) == RequestedMoves(input.args, n);
    MultiWireRoundTrip(cfg, moved, input, dst, sent, gas);
    MultiTextFunction(cfg, moved, input, dst, sent, gas);
  }

  lemma MultiTextFunction(cfg: Config, s: Shard, input: Input, dst: Addr, sent: seq<Sent>, gas: nat)
    requires 3 * |sent| + 2 <= |input.args| && cfg.shardOf(dst) != s.id
    requires MultiOutput(cfg, s, input, dst, sent, gas).Ok?
    ensures var m := MultiOutput(cfg, s, input, dst, sent, gas).value.1.transfer;
            && m.Some?
            && Parse(m.value.data) ==
               Ok((MULTI_TRANSFER, MultiArgs(sent, EncodeItems(cfg, s, sent, dst, gas, 0).value.1,
                                             input.args[3 * |sent| + 2..])))
  {
    hide EncodeItems, IsCallAfter, Print, Parse;
    var (s1, encoded, left) := EncodeItems(cfg, s, sent, dst, gas, 0).value;
    EncodeSameId(cfg, s, sent, dst, gas, 0);
    FunctionNames();
    ParsePrint(MULTI_TRANSFER, MultiArgs(sent, encoded, input.args[3 * |sent| + 2..]));
  }

  /** The input of a delivery. */
  function Delivery(src: Addr, dst: Addr, args: seq<bytes>, env: Input): Input {
    env.(caller := src, recipient := dst, args := args)
  }

  /** The output sends a message that calls `func` with `args`. */
  ghost predicate Sends(r: Result<(Shard, VMOutput)>, func: bytes, args: seq<bytes>) {
    r.Ok? && r.value.1.transfer.Some? && Parse(r.value.1.transfer.value.data) == Ok((func, args))
  }

  /** If the delivery succeeds, `call` runs. */
  ghost predicate Runs(r: Result<(Shard, VMOutput)>, delivery: Input, call: seq<bytes>) {
    r.Ok? ==> ReceiverEnds(delivery, call, r.value.1)
  }

  /** The call written behind the items of a multi transfer to another shard is the one that runs when its
      message is delivered, with the gas of the delivery. */
  lemma MultiCallArrives(cfg: Config, s: Shard, input: Input, n: uint64, s1: Shard, env: Input, args: seq<bytes>)
    requires Lawful(cfg) && input.caller == input.recipient && 4 <= |input.args| < TWO64
    requires cfg.shardOf(input.args[0]) != s.id && input.caller != input.args[0]
    requires Sends(MultiTransfer(cfg, s, input), MULTI_TRANSFER, args) && n == U64(SetBytes(input.args[1]))
    ensures 3 * n + 2 <= |input.args|
    ensures var delivery := Delivery(input.caller, input.args[0], args, env);
            Runs(MultiTransfer(cfg, s1, delivery), delivery, input.args[3 * n + 2..])
  {
    hide MultiTransfer, ReceiverEnds, ReadMessage, RequestedMoves, Parse;
    var delivery := Delivery(input.caller, input.args[0], args, env);
    MultiMessageReads(cfg, s, input);
    CallRead(cfg, MultiTransfer(cfg, s, input).value.1.transfer.value.data, args);
    if MultiTransfer(cfg, s1, delivery).Ok? {
      MultiReceiverEnds(cfg, s1, delivery);
    }
  }

  lemma CallRead(cfg: Config, data: bytes, args: seq<bytes>)
    requires Parse(data) == Ok((MULTI_TRANSFER, args)) && ReadMessage(cfg, data).Ok?
    ensures |args| >= 4 && 3 * U64(SetBytes(args[0])) + 1 <= |args|
    ensures ReadMessage(cfg, data).value.1 == args[3 * U64(SetBytes(args[0])) + 1..]
  {
    hide ReadItems, Parse;
    FunctionNames();
  }

  /** The same for a single transfer. */
  lemma NftCallArrives(cfg: Config, s: Shard, input: Input, s1: Shard, env: Input, args: seq<bytes>)
    requires Lawful(cfg) && input.caller == input.recipient && |input.args| >= NFT_MIN_ARGS
    requires cfg.shardOf(input.args[3]) != s.id && input.caller != input.args[3]
    requires Sends(NftTransfer(cfg, s, input), NFT_TRANSFER, args)
    ensures var delivery := Delivery(input.caller, input.args[3], args, env);
            Runs(NftTransfer(cfg, s1, delivery), delivery, input.args[NFT_MIN_ARGS..])
  {
    hide NftTransfer, ReceiverEnds, Parse;
    var delivery := Delivery(input.caller, input.args[3], args, env);
    NftMessageArgs(cfg, s, input);
    if NftTransfer(cfg, s1, delivery).Ok? {
      NftReceiverEnds(cfg, s1, delivery);
    }
  }

  /** The arguments in the message of a single transfer: those of the call, with the payload in place of the
      destination. */
  lemma NftMessageArgs(cfg: Config, s: Shard, input: Input)
    requires input.caller == input.recipient && |input.args| >= NFT_MIN_ARGS
    requires NftTransfer(cfg, s, input).Ok? && cfg.shardOf(input.args[3]) != s.id
    ensures var m := NftTransfer(cfg, s, input).value.1.transfer;
            && m.Some? && Parse(m.value.data).Ok?
            && var (func, args) := Parse(m.value.data).value;
            && func == NFT_TRANSFER && |args| == |input.args|
            && args[..3] == input.args[..3] && args[NFT_MIN_ARGS..] == input.args[NFT_MIN_ARGS..]
  {
    hide SendNft, Debit, Settle, NftOutput;
    SendNftShape(cfg, s, input);
    DebitShape(cfg, s, input, NftItem(input.args));
    var (s1, t1) := Debit(cfg, s, input, NftItem(input.args)).value;
    SettleSameShard(cfg, s1, input, input.args[3], NftItem(input.args), t1);
    var (s2, t) := Settle(cfg, s1, input, input.args[3], NftItem(input.args), t1).value;
    NftTextArgs(cfg, s2, input, t, input.gasProvided - cfg.nftGas);
  }

  lemma NftTextArgs(cfg: Config, s: Shard, input: Input, t: Token, gas: nat)
    requires |input.args| >= NFT_MIN_ARGS && cfg.shardOf(input.args[3]) != s.id && NftOutput(cfg, s, input, t, gas).Ok?
    ensures AlreadySent(cfg, s, input.args[0], NftItem(input.args).nonce, input.args[3]).Ok?
    ensures var m := NftOutput(cfg, s, input, t, gas).value.1.transfer;
            && m.Some?
            && Parse(m.value.data) ==
               Ok((NFT_TRANSFER, input.args[..3] + [NftPayloadOf(cfg, s, input, t)] + input.args[4..]))
  {
    var item, dst := NftItem(input.args), input.args[3];
    AlreadySentWritesId(cfg, s, item.token, item.nonce, dst);
    hide AlreadySent, IsCallAfter, Print, Parse;
    FunctionNames();
    ParsePrint(NFT_TRANSFER, input.args[..3] + [NftPayloadOf(cfg, s, input, t)] + input.args[4..]);
  }

  // ----- fungible transfers -----

  /** What a fungible transfer hands on. Where the receiver lives a call runs with the gas after the fee; a
      contract's transfer to another shard takes its gas along with its own arguments; otherwise the gas stays
      where the sender lives, and a call-back keeps all of it. */
  lemma FungibleEnds(cfg: Config, s: Shard, input: Input)
    requires FungibleTransfer(cfg, s, input).Ok?
    ensures |input.args| >= FUNGIBLE_MIN_ARGS
    ensures var out := FungibleOutput(cfg, s, input);
            var fromHere, call := cfg.shardOf(input.caller) == s.id, input.args[FUNGIBLE_MIN_ARGS..];
            var left := if fromHere then input.gasProvided - cfg.fungibleGas else 0;
            if cfg.shardOf(input.recipient) == s.id then
              if CallFollows(cfg, input, input.recipient, FUNGIBLE_MIN_ARGS) then
                && out.gasRemaining == 0 && out.transfer.Some?
                && Calls(input, out.transfer.value, input.recipient, call,
                         if input.gasProvided < cfg.fungibleGas then 0 else input.gasProvided - cfg.fungibleGas)
              else
                && out.transfer.None?
                && out.gasRemaining == if !fromHere && input.callType == AsyncCallBack then input.gasProvided else left
            else if Contract(input.caller) then
              && out.gasRemaining == 0 && out.transfer.Some?
              && var x := out.transfer.value;
                 && x.sender == input.caller && x.recipient == input.recipient && x.gasLimit == left
                 && x.gasLocked == input.gasLocked && Parse(x.data) == Ok((FUNGIBLE_TRANSFER, input.args))
            else
              out.gasRemaining == left && out.transfer.None?
  {
    CallFollowsExactly(cfg, input, input.recipient, FUNGIBLE_MIN_ARGS);
    assert IsSmartContract(input.caller) <==> Contract(input.caller);
    if CallFollows(cfg, input, input.recipient, FUNGIBLE_MIN_ARGS) {
      CallOutputCalls(input, input.recipient, input.args[FUNGIBLE_MIN_ARGS..],
                      SafeSub(input.gasProvided, cfg.fungibleGas));
    }
    if cfg.shardOf(input.recipient) != s.id && Contract(input.caller) {
      FungibleWireRoundTrip(cfg, s, input);
    }
    hide CallOutput, Calls, IsCallAfter, IsSmartContract, Contract, AddToBalance, Parse, Print;
  }
}
