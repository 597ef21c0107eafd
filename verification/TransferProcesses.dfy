// Fungible, single and multi transfers as they run on the storage handler (dcdtTransfer.go,
// dcdtNFTTransfer.go, multiDCDTNFTTransfer.go). One token object serves for the debit, as the amount on the
// way and, in the same shard, as the receiver's new balance. Each method is proved equal to its function of
// `Transfers`.
module TransferProcesses {
  import opened Bytes
  import opened Wrappers
  import opened Ledger
  import opened Transfers
  import opened TxData
  import opened Storage

  /** `vmcommon.VMOutput` in memory. */
  class Output {
    var gasRemaining: nat
    var transfer: Option<OutTransfer>

    constructor (gas: nat)
      ensures AsOutput() == VMOutput(gas, None)
    {
      gasRemaining, transfer := gas, None;
    }

    function AsOutput(): VMOutput
      reads this
    {
      VMOutput(gasRemaining, transfer)
    }

    /** Pays for the bytes of a marshalled token. */
    method PayForData(cfg: Config, t: TokenObject) returns (r: Result<bytes>)
      modifies this`gasRemaining
      ensures match Marshalled(cfg, t.AsToken(), old(gasRemaining))
              case Ok((data, left)) => r == Ok(data) && AsOutput() == old(AsOutput()).(gasRemaining := left)
              case Err(e) => r == Err(e)
    {
      var data := cfg.marshal(t.AsToken());
      var cost := U64(|data| * cfg.copyGas);
      if cost > gasRemaining {
        return Err(NotEnoughGas);
      }
      gasRemaining := gasRemaining - cost;
      return Ok(data);
    }

    /** `addOutputTransferToVMOutput`, which takes all remaining gas along. */
    method AddCall(input: Input, recipient: Addr, call: seq<bytes>)
      requires call != []
      modifies this
      ensures AsOutput() == CallOutput(input, recipient, call, old(gasRemaining))
    {
      var data := PrintCall(call[0], call[1..]);
      transfer := Some(OutTransfer(input.caller, recipient, data, gasRemaining, input.gasLocked));
      gasRemaining := 0;
    }

    /** The common end of the two sender-side functions. */
    method Finish(h: Handler, input: Input, dst: Addr, func: bytes, callArgs: seq<bytes>, minArgs: nat)
      modifies this
      ensures transfer == old(transfer) || transfer.Some?
      ensures old(transfer).None? ==>
                AsOutput() == SendOutput(h.cfg, old(h.State()), input, dst, func, callArgs, minArgs, old(gasRemaining))
    {
      var callAfter := IsCallAfter(h.cfg, input, dst, minArgs);
      if h.id != h.cfg.shardOf(dst) {
        var gasToTransfer: nat := 0;
        if callAfter {
          gasToTransfer := gasRemaining;
          gasRemaining := 0;
        }
        var data := PrintCall(func, callArgs);
        transfer := Some(OutTransfer(input.caller, dst, data, gasToTransfer, input.gasLocked));
        return;
      }
      if callAfter {
        AddCall(input, dst, input.args[minArgs..]);
      }
    }

    /** The common end of the two receiver-side functions. */
    method FinishAtReceiver(input: Input, minArgs: nat)
      requires AsOutput() == VMOutput(input.gasProvided, None)
      modifies this
      ensures AsOutput() == ReceiveOutput(input, minArgs)
    {
      if |input.args| > minArgs && IsSmartContract(input.recipient) {
        AddCall(input, input.recipient, input.args[minArgs..]);
      }
    }
  }

  // ----- moving one token -----

  /** `addNFTToDestination`: afterwards the object carries the receiver's new balance. */
  method AddToDestination(h: Handler, input: Input, snd: Addr, dst: Addr, t: TokenObject, token: bytes, nonce: nat)
    returns (r: Result<()>)
    modifies h, t`value
    ensures match Credit(h.cfg, old(h.State()), input, snd, dst, old(t.AsToken()), token, nonce)
            case Ok((s, sum)) => r.Ok? && h.State() == s && t.AsToken() == sum
            case Err(e) => r == Err(e)
  {
    var current := h.TokenOnDestination(dst, token, nonce);
    var _ :- CheckFrozeAndPause(h.cfg, input, dst, token, current.AsToken());
    var transferred := t.value;
    t.SetValue(t.value + current.value);
    var _ :- h.SaveToken(input, snd, dst, token, nonce, t, false);
    if h.cfg.shardOf(snd) != h.cfg.shardOf(dst) {
      r := h.AddToLiquidity(token, nonce, transferred);
    } else {
      r := Ok(());
    }
  }

  /** Subtracts, saves, and sets the object to the amount on its way. */
  method TakeFromSender(h: Handler, input: Input, item: Item, t: TokenObject) returns (r: Result<()>)
    requires Ok(t.AsToken()) == TokenOnSender(h.cfg, h.State(), input.caller, item.token, item.nonce)
    requires t.value >= item.value
    modifies h, t`value
    ensures match Debit(h.cfg, old(h.State()), input, item)
            case Ok((s, moved)) => r.Ok? && h.State() == s && t.AsToken() == moved
            case Err(e) => r == Err(e)
  {
    t.SetValue(t.value - item.value);
    var _ :- h.SaveToken(input, input.caller, input.caller, item.token, item.nonce, t, false);
    t.SetValue(item.value);
    return Ok(());
  }

  /** The credit where the receiver lives here, the drop in liquidity where not. */
  method SettleWith(h: Handler, input: Input, dst: Addr, item: Item, t: TokenObject) returns (r: Result<()>)
    modifies h, t`value
    ensures match Settle(h.cfg, old(h.State()), input, dst, item, old(t.AsToken()))
            case Ok((s, t1)) => r.Ok? && h.State() == s && t.AsToken() == t1
            case Err(e) => r == Err(e)
  {
    if h.cfg.shardOf(dst) == h.id {
      r := AddToDestination(h, input, input.caller, dst, t, item.token, item.nonce);
    } else {
      r := h.AddToLiquidity(item.token, item.nonce, -(item.value as int));
    }
  }

  /** `transferOneTokenOnSenderShard` */
  method TransferOne(h: Handler, input: Input, dst: Addr, item: Item) returns (r: Result<TokenObject>)
    modifies h
    ensures match SendOne(h.cfg, old(h.State()), input, dst, item)
            case Ok((s, t)) => r.Ok? && fresh(r.value) && h.State() == s && r.value.AsToken() == t
            case Err(e) => r == Err(e)
  {
    if item.value <= 0 {
      return Err(InvalidNFTQuantity);
    }
    var t :- h.TokenOnSender(input.caller, item.token, item.nonce);
    if t.value < item.value {
      return Err(InsufficientQuantity);
    }
    var _ :- TakeFromSender(h, input, item, t);
    var _ :- CheckRestricted(input, item.token);
    var _ :- SettleWith(h, input, dst, item, t);
    return Ok(t);
  }

  // ----- fungible transfer -----

  /** The checks of a fungible transfer before anything moves. */
  method CheckFungible(h: Handler, input: Input) returns (r: Result<()>)
    ensures r.Ok? ==> |input.args| >= FUNGIBLE_MIN_ARGS
    ensures r.Err? ==> FungibleTransfer(h.cfg, h.State(), input) == Err(r.error)
    ensures r.Ok? ==> FungibleTransfer(h.cfg, h.State(), input) == MoveFungible(h.cfg, h.State(), input)
  {
    if |input.args| < FUNGIBLE_MIN_ARGS {
      return Err(InvalidArguments);
    }
    if h.cfg.shardOf(input.recipient) == META {
      return Err(InvalidRcvAddr);
    }
    if h.cfg.consistentLengths && |input.args[1]| > h.cfg.maxIssueLength {
      return Err(InvalidArguments);
    }
    if SetBytes(input.args[1]) == 0 {
      return Err(NegativeValue);
    }
    if h.cfg.shardOf(input.caller) == h.id {
      if !input.returnAfterError && input.args[0] in input.restricted {
        return Err(ActionNotAllowed);
      }
      if input.gasProvided < h.cfg.fungibleGas {
        return Err(NotEnoughGas);
      }
    }
    return Ok(());
  }

  /** The two legs of a fungible transfer whose checks have passed. */
  function MoveFungible(cfg: Config, s: Shard, input: Input): Result<Shard>
    requires |input.args| >= FUNGIBLE_MIN_ARGS
  {
    var value: int := SetBytes(input.args[1]);
    var s1 :- if cfg.shardOf(input.caller) == s.id
              then AddToBalance(cfg, s, input, input.caller, input.args[0], -value)
              else Ok(s);
    if cfg.shardOf(input.recipient) == s.id then
      var _ :- Need(input.payable, AccountNotPayable);
      AddToBalance(cfg, s1, input, input.recipient, input.args[0], value)
    else
      Ok(s1)
  }

  method MoveBalances(h: Handler, input: Input) returns (r: Result<()>)
    requires |input.args| >= FUNGIBLE_MIN_ARGS
    modifies h
    ensures MoveFungible(h.cfg, old(h.State()), input) == h.After(r)
  {
    var value: int := SetBytes(input.args[1]);
    if h.cfg.shardOf(input.caller) == h.id {
      var _ :- h.AddToBalance(input, input.caller, input.args[0], -value);
    }
    if h.cfg.shardOf(input.recipient) == h.id {
      if !input.payable {
        return Err(AccountNotPayable);
      }
      var _ :- h.AddToBalance(input, input.recipient, input.args[0], value);
    }
    return Ok(());
  }

  /** `dcdtTransfer.ProcessBuiltinFunction` */
  method ProcessFungibleTransfer(h: Handler, input: Input) returns (r: Result<Output>)
    modifies h
    ensures match FungibleTransfer(h.cfg, old(h.State()), input)
            case Ok(s) =>
              r.Ok? && fresh(r.value) && h.State() == s && r.value.AsOutput() == FungibleOutput(h.cfg, s, input)
            case Err(e) => r == Err(e)
  {
    var _ :- CheckFungible(h, input);
    var _ :- MoveBalances(h, input);
    var out := FinishFungible(h, input);
    return Ok(out);
  }

  /** The end of a fungible transfer. */
  method FinishFungible(h: Handler, input: Input) returns (out: Output)
    requires |input.args| >= FUNGIBLE_MIN_ARGS
    ensures fresh(out) && out.AsOutput() == FungibleOutput(h.cfg, h.State(), input)
  {
    var atSender := h.cfg.shardOf(input.caller) == h.id;
    out := new Output(if atSender then SafeSub(input.gasProvided, h.cfg.fungibleGas) else 0);
    if h.cfg.shardOf(input.recipient) == h.id {
      if IsCallAfter(h.cfg, input, input.recipient, FUNGIBLE_MIN_ARGS) {
        out.gasRemaining := SafeSub(input.gasProvided, h.cfg.fungibleGas);
        out.AddCall(input, input.recipient, input.args[FUNGIBLE_MIN_ARGS..]);
      } else if input.callType == AsyncCallBack && !atSender {
        out.gasRemaining := input.gasProvided;
      }
      return;
    }
    if IsSmartContract(input.caller) {
      var data := PrintCall(FUNGIBLE_TRANSFER, input.args);
      out.transfer := Some(OutTransfer(input.caller, input.recipient, data, out.gasRemaining, input.gasLocked));
      out.gasRemaining := 0;
    }
  }

  // ----- single transfer -----

  /** `createNFTOutputTransfers` */
  method CreateNftOutput(h: Handler, out: Output, input: Input, t: TokenObject) returns (r: Result<()>)
    requires |input.args| >= NFT_MIN_ARGS && out.transfer.None?
    modifies h, out
    ensures match NftOutput(h.cfg, old(h.State()), input, t.AsToken(), old(out.gasRemaining))
            case Ok((s, o)) => r.Ok? && h.State() == s && out.AsOutput() == o
            case Err(e) => r == Err(e)
  {
    var callArgs := input.args[..3];
    var dst := input.args[3];
    var sent :- h.WasAlreadySent(input.args[0], U64(SetBytes(input.args[1])), dst);
    if !sent || t.value == 1 {
      var data :- out.PayForData(h.cfg, t);
      callArgs := callArgs + [data];
    } else {
      callArgs := callArgs + [ZERO_PAYLOAD];
    }
    callArgs := callArgs + input.args[4..];
    out.Finish(h, input, dst, NFT_TRANSFER, callArgs, NFT_MIN_ARGS);
    return Ok(());
  }

  /** `processNFTTransferOnSenderShard` */
  method SendNftOnSender(h: Handler, input: Input) returns (r: Result<Output>)
    requires |input.args| >= NFT_MIN_ARGS
    modifies h
    ensures match SendNft(h.cfg, old(h.State()), input)
            case Ok((s, o)) => r.Ok? && fresh(r.value) && h.State() == s && r.value.AsOutput() == o
            case Err(e) => r == Err(e)
  {
    var dst, item := input.args[3], NftItem(input.args);
    var _ :- CheckDestination(h.cfg, input, dst);
    if input.gasProvided < h.cfg.nftGas {
      return Err(NotEnoughGas);
    }
    var t :- h.TokenOnSender(input.caller, item.token, item.nonce);
    if item.nonce == 0 {
      return Err(NFTDoesNotHaveMetadata);
    }
    if h.cfg.consistentLengths && |input.args[2]| > h.cfg.maxIssueLength {
      return Err(InvalidArguments);
    }
    if t.value < item.value {
      return Err(InvalidNFTQuantity);
    }
    if h.cfg.checkTransfer && item.value <= 0 {
      return Err(InvalidNFTQuantity);
    }
    r := MoveNft(h, input, t);
  }

  /** A single transfer whose checks have passed: debit, settlement and output. */
  method MoveNft(h: Handler, input: Input, t: TokenObject) returns (r: Result<Output>)
    requires |input.args| >= NFT_MIN_ARGS && input.gasProvided >= h.cfg.nftGas
    requires Ok(t.AsToken()) ==
             TokenOnSender(h.cfg, h.State(), input.caller, NftItem(input.args).token, NftItem(input.args).nonce)
    requires t.value >= NftItem(input.args).value
    modifies h, t`value
    ensures match SendNftChecked(h.cfg, old(h.State()), input)
            case Ok((s, o)) => r.Ok? && fresh(r.value) && h.State() == s && r.value.AsOutput() == o
            case Err(e) => r == Err(e)
  {
    hide Debit, Settle, NftOutput;
    var dst, item := input.args[3], NftItem(input.args);
    var _ :- TakeFromSender(h, input, item, t);
    if h.cfg.shardOf(dst) == h.id && !input.payable {
      return Err(AccountNotPayable);
    }
    var _ :- SettleWith(h, input, dst, item, t);
    var _ :- CheckRestricted(input, item.token);
    var out := new Output(input.gasProvided - h.cfg.nftGas);
    var _ :- CreateNftOutput(h, out, input, t);
    return Ok(out);
  }

  /** The receiver's side of `dcdtNFTTransfer.ProcessBuiltinFunction`. */
  method ReceiveNftOnReceiver(h: Handler, input: Input) returns (r: Result<Output>)
    requires |input.args| >= NFT_MIN_ARGS
    modifies h
    ensures match ReceiveNft(h.cfg, old(h.State()), input)
            case Ok((s, o)) => r.Ok? && fresh(r.value) && h.State() == s && r.value.AsOutput() == o
            case Err(e) => r == Err(e)
  {
    var t := new TokenObject(Token(NonFungible, SetBytes(input.args[2]), [], None, []));
    if input.args[3] != ZERO_PAYLOAD {
      var data := h.cfg.unmarshal(input.args[3]);
      if data.None? {
        return Err(Unmarshal);
      }
      t := new TokenObject(data.value);
    }
    if !input.payable {
      return Err(AccountNotPayable);
    }
    var _ :- AddToDestination(h, input, input.caller, input.recipient, t, input.args[0], U64(SetBytes(input.args[1])));
    var out := new Output(input.gasProvided);
    out.FinishAtReceiver(input, NFT_MIN_ARGS);
    return Ok(out);
  }

  /** `dcdtNFTTransfer.ProcessBuiltinFunction` */
  method ProcessNftTransfer(h: Handler, input: Input) returns (r: Result<Output>)
    modifies h
    ensures match NftTransfer(h.cfg, old(h.State()), input)
            case Ok((s, o)) => r.Ok? && fresh(r.value) && h.State() == s && r.value.AsOutput() == o
            case Err(e) => r == Err(e)
  {
    if |input.args| < NFT_MIN_ARGS {
      return Err(InvalidArguments);
    }
    if input.caller == input.recipient {
      r := SendNftOnSender(h, input);
      return;
    }
    if h.cfg.shardOf(input.caller) == h.id || h.cfg.shardOf(input.recipient) != h.id {
      return Err(InvalidRcvAddr);
    }
    r := ReceiveNftOnReceiver(h, input);
  }

  // ----- multi transfer -----

  /** The loop's result with the items sent before it in front. */
  function AfterSent(sent: seq<Sent>, r: Result<(Shard, seq<Sent>)>): (all: Result<(Shard, seq<Sent>)>)
    ensures sent == [] ==> all == r
  {
    match r
    case Ok((s, rest)) =>
      assert sent == [] ==> sent + rest == rest;
      Ok((s, sent + rest))
    case Err(e) => Err(e)
  }

  /** One turn of the sender's loop. */
  function SendNext(cfg: Config, s: Shard, input: Input, dst: Addr, i: nat): Result<(Shard, Token)>
    requires 3 * i + 5 <= |input.args|
  {
    var _ :- Need(!(cfg.consistentLengths && |input.args[3 * i + 4]| > cfg.maxIssueLength), InvalidArguments);
    SendOne(cfg, s, input, dst, ItemAt(input.args, 2, i))
  }

  lemma AfterSentSnoc(cfg: Config, sent: seq<Sent>, s: Shard, input: Input, dst: Addr, n: nat, i: nat)
    requires i < n && 3 * n + 2 <= |input.args|
    ensures var one := SendNext(cfg, s, input, dst, i);
            AfterSent(sent, SendItems(cfg, s, input, dst, n, i)) ==
            if one.Err? then Err(one.error)
            else AfterSent(sent + [Sent(ItemAt(input.args, 2, i), one.value.1)],
                           SendItems(cfg, one.value.0, input, dst, n, i + 1))
  {
    var item, one := ItemAt(input.args, 2, i), SendNext(cfg, s, input, dst, i);
    if one.Ok? {
      var rest := SendItems(cfg, one.value.0, input, dst, n, i + 1);
      assert rest.Ok? ==>
        sent + ([Sent(item, one.value.1)] + rest.value.1) == sent + [Sent(item, one.value.1)] + rest.value.1;
    }
  }

  /** The objects hold the tokens of `sent`, the items are its items. */
  ghost predicate Lists(objects: seq<TokenObject>, items: seq<Item>, sent: seq<Sent>)
    reads objects
  {
    && |objects| == |items| == |sent|
    && forall k :: 0 <= k < |sent| ==> sent[k] == Sent(items[k], objects[k].AsToken())
  }

  method TransferNext(h: Handler, input: Input, dst: Addr, i: nat) returns (r: Result<TokenObject>)
    requires 3 * i + 5 <= |input.args|
    modifies h
    ensures match SendNext(h.cfg, old(h.State()), input, dst, i)
            case Ok((s, t)) => r.Ok? && fresh(r.value) && h.State() == s && r.value.AsToken() == t
            case Err(e) => r == Err(e)
  {
    if |input.args[3 * i + 4]| > h.cfg.maxIssueLength && h.cfg.consistentLengths {
      return Err(InvalidArguments);
    }
    r := TransferOne(h, input, dst, ItemAt(input.args, 2, i));
  }

  /** The sender's loop, filling the lists of token objects and transfer data. */
  method TransferItems(h: Handler, input: Input, dst: Addr, n: nat)
    returns (r: Result<()>, objects: seq<TokenObject>, items: seq<Item>)
    requires 3 * n + 2 <= |input.args|
    modifies h
    ensures forall t :: t in objects ==> fresh(t)
    ensures match SendItems(h.cfg, old(h.State()), input, dst, n, 0)
            case Ok((s, sent)) => r.Ok? && h.State() == s && Lists(objects, items, sent)
            case Err(e) => r == Err(e)
  {
    objects, items := [], [];
    ghost var sent: seq<Sent> := [];
    ghost var all := SendItems(h.cfg, h.State(), input, dst, n, 0);
    var i := 0;
    while i < n
      invariant i <= n
      invariant forall t :: t in objects ==> fresh(t)
      invariant Lists(objects, items, sent)
      invariant all == AfterSent(sent, SendItems(h.cfg, h.State(), input, dst, n, i))
    {
      AfterSentSnoc(h.cfg, sent, h.State(), input, dst, n, i);
      var one := TransferNext(h, input, dst, i);
      if one.Err? {
        r := Err(one.error);
        return;
      }
      var item := ItemAt(input.args, 2, i);
      ListsSnoc(objects, items, sent, one.value, item);
      objects, items, sent := objects + [one.value], items + [item], sent + [Sent(item, one.value.AsToken())];
      i := i + 1;
    }
    assert sent + [] == sent;
    r := Ok(());
  }

  lemma ListsSnoc(objects: seq<TokenObject>, items: seq<Item>, sent: seq<Sent>, t: TokenObject, item: Item)
    requires Lists(objects, items, sent)
    ensures Lists(objects + [t], items + [item], sent + [Sent(item, t.AsToken())])
  {
  }

  /** The payload of one item. */
  method PayloadFor(h: Handler, out: Output, item: Item, t: TokenObject, dst: Addr) returns (r: Result<bytes>)
    modifies h, out`gasRemaining
    ensures match EncodePayload(h.cfg, old(h.State()), Sent(item, t.AsToken()), dst, old(out.gasRemaining))
            case Ok((s, payload, left)) => r == Ok(payload) && h.State() == s && out.gasRemaining == left
            case Err(e) => r == Err(e)
  {
    if item.nonce > 0 {
      var sent :- h.WasAlreadySent(item.token, item.nonce, dst);
      if !sent || item.value == 1 || |ToBytes(item.value)| > MAX_VALUE_LENGTH {
        r := out.PayForData(h.cfg, t);
        return;
      }
    }
    return Ok(ToBytes(item.value));
  }

  /** The encoding loop's result with the arguments before it in front. */
  function AfterEncoded(
    encoded: seq<bytes>, r: Result<(Shard, seq<bytes>, nat)>): (all: Result<(Shard, seq<bytes>, nat)>)
    ensures encoded == [] ==> all == r
  {
    match r
    case Ok((s, rest, left)) =>
      assert encoded == [] ==> encoded + rest == rest;
      Ok((s, encoded + rest, left))
    case Err(e) => Err(e)
  }

  lemma AfterEncodedSnoc(cfg: Config, encoded: seq<bytes>, s: Shard, sent: seq<Sent>, dst: Addr, gas: nat, i: nat)
    requires i < |sent|
    ensures var one := EncodePayload(cfg, s, sent[i], dst, gas);
            AfterEncoded(encoded, EncodeItems(cfg, s, sent, dst, gas, i)) ==
            if one.Err? then Err(one.error)
            else AfterEncoded(encoded + [sent[i].item.token, NonceArg(sent[i].item.nonce), one.value.1],
                              EncodeItems(cfg, one.value.0, sent, dst, one.value.2, i + 1))
  {
    var one := EncodePayload(cfg, s, sent[i], dst, gas);
    if one.Ok? {
      var first := [sent[i].item.token, NonceArg(sent[i].item.nonce), one.value.1];
      var rest := EncodeItems(cfg, one.value.0, sent, dst, one.value.2, i + 1);
      assert rest.Ok? ==> encoded + (first + rest.value.1) == encoded + first + rest.value.1;
    }
  }

  /** The argument loop of `createDCDTNFTOutputTransfers`. */
  method EncodeArguments(
    h: Handler, out: Output, objects: seq<TokenObject>, items: seq<Item>, ghost sent: seq<Sent>, dst: Addr)
    returns (r: Result<seq<bytes>>)
    requires Lists(objects, items, sent)
    modifies h, out`gasRemaining
    ensures match EncodeItems(h.cfg, old(h.State()), sent, dst, old(out.gasRemaining), 0)
            case Ok((s, encoded, left)) => r == Ok(encoded) && h.State() == s && out.gasRemaining == left
            case Err(e) => r == Err(e)
  {
    var encoded: seq<bytes> := [];
    var i := 0;
    while i < |items|
      invariant i <= |items|
      invariant Lists(objects, items, sent)
      invariant EncodeItems(h.cfg, old(h.State()), sent, dst, old(out.gasRemaining), 0)
             == AfterEncoded(encoded, EncodeItems(h.cfg, h.State(), sent, dst, out.gasRemaining, i))
    {
      AfterEncodedSnoc(h.cfg, encoded, h.State(), sent, dst, out.gasRemaining, i);
      assert sent[i] == Sent(items[i], objects[i].AsToken());
      var nonceArg: bytes := [0];
      if items[i].nonce > 0 {
        nonceArg := ToBytes(items[i].nonce);
      }
      var payload :- PayloadFor(h, out, items[i], objects[i], dst);
      encoded := encoded + [items[i].token, nonceArg, payload];
      i := i + 1;
    }
    assert encoded + [] == encoded;
    return Ok(encoded);
  }

  /** `createDCDTNFTOutputTransfers` */
  method CreateMultiOutput(
    h: Handler, out: Output, input: Input, objects: seq<TokenObject>, items: seq<Item>, ghost sent: seq<Sent>,
    dst: Addr)
    returns (r: Result<()>)
    requires Lists(objects, items, sent) && 3 * |sent| + 2 <= |input.args| && out.transfer.None?
    modifies h, out
    ensures match MultiOutput(h.cfg, old(h.State()), input, dst, sent, old(out.gasRemaining))
            case Ok((s, o)) => r.Ok? && h.State() == s && out.AsOutput() == o
            case Err(e) => r == Err(e)
  {
    var encoded :- EncodeArguments(h, out, objects, items, sent, dst);
    var minArgs := 3 * |items| + 2;
    var callArgs := [ToBytes(|items|)] + encoded + input.args[minArgs..];
    out.Finish(h, input, dst, MULTI_TRANSFER, callArgs, minArgs);
    return Ok(());
  }

  /** `processDCDTNFTMultiTransferOnSenderShard` */
  method SendMultiOnSender(h: Handler, input: Input) returns (r: Result<Output>)
    requires |input.args| >= 4
    modifies h
    ensures match SendMulti(h.cfg, old(h.State()), input)
            case Ok((s, o)) => r.Ok? && fresh(r.value) && h.State() == s && r.value.AsOutput() == o
            case Err(e) => r == Err(e)
  {
    var dst := input.args[0];
    var _ :- CheckDestination(h.cfg, input, dst);
    var count :- TransferCount(input.args, input.args[1], 2);
    var n: nat := count;
    var cost := U64(n * h.cfg.multiGas);
    if input.gasProvided < cost {
      return Err(NotEnoughGas);
    }
    if h.cfg.shardOf(dst) == h.id && !input.payable {
      return Err(AccountNotPayable);
    }
    var out := new Output(input.gasProvided - cost);
    var _ :- AllocateList(input.args, n, 2);
    var _ :- SendAllItems(h, out, input, dst, n);
    return Ok(out);
  }

  /** The loop and the output of a multi transfer. */
  method SendAllItems(h: Handler, out: Output, input: Input, dst: Addr, n: nat) returns (r: Result<()>)
    requires 3 * n + 2 <= |input.args| && out.transfer.None?
    modifies h, out
    ensures match SendAll(h.cfg, old(h.State()), input, dst, n, old(out.gasRemaining))
            case Ok((s, o)) => r.Ok? && h.State() == s && out.AsOutput() == o
            case Err(e) => r == Err(e)
  {
    SentLength(h.cfg, h.State(), input, dst, n, 0);
    ghost var all := SendItems(h.cfg, h.State(), input, dst, n, 0);
    var done, objects, items := TransferItems(h, input, dst, n);
    if done.Err? {
      return Err(done.error);
    }
    r := CreateMultiOutput(h, out, input, objects, items, all.value.1, dst);
  }

  /** One turn of the receiver's loop. */
  method ReceiveItem(h: Handler, input: Input, i: nat) returns (r: Result<()>)
    requires 3 * i + 4 <= |input.args|
    modifies h
    ensures match DecodeItem(h.cfg, input.args, i)
            case Ok(x) => ReceiveOne(h.cfg, old(h.State()), input, x) == h.After(r)
            case Err(e) => r == Err(e)
  {
    var token, nonce := input.args[3 * i + 1], U64(SetBytes(input.args[3 * i + 2]));
    if nonce > 0 {
      var t := new TokenObject(Token(NonFungible, SetBytes(input.args[3 * i + 3]), [], None, []));
      if |input.args[3 * i + 3]| > MAX_VALUE_LENGTH {
        var data := h.cfg.unmarshal(input.args[3 * i + 3]);
        if data.None? {
          return Err(Unmarshal);
        }
        t := new TokenObject(data.value);
      }
      r := AddToDestination(h, input, input.caller, input.recipient, t, token, nonce);
    } else {
      r := h.AddToBalance(input, input.recipient, token, SetBytes(input.args[3 * i + 3]));
    }
  }

  /** The receiver's loop. */
  method ReceiveAllItems(h: Handler, input: Input, n: nat) returns (r: Result<()>)
    requires 3 * n + 1 <= |input.args|
    modifies h
    ensures ReceiveItems(h.cfg, old(h.State()), input, n, 0) == h.After(r)
  {
    ghost var all := ReceiveItems(h.cfg, h.State(), input, n, 0);
    var i := 0;
    while i < n
      invariant i <= n
      invariant all == ReceiveItems(h.cfg, h.State(), input, n, i)
    {
      var _ :- ReceiveItem(h, input, i);
      i := i + 1;
    }
    return Ok(());
  }

  /** The receiver's side of `dcdtNFTMultiTransfer.ProcessBuiltinFunction`. */
  method ReceiveMultiOnReceiver(h: Handler, input: Input) returns (r: Result<Output>)
    requires |input.args| >= 4
    modifies h
    ensures match ReceiveMulti(h.cfg, old(h.State()), input)
            case Ok((s, o)) => r.Ok? && fresh(r.value) && h.State() == s && r.value.AsOutput() == o
            case Err(e) => r == Err(e)
  {
    hide ReceiveItems;
    var count :- TransferCount(input.args, input.args[0], 1);
    var n: nat := count;
    var _ :- AllocateList(input.args, n, 1);
    if !input.payable {
      return Err(AccountNotPayable);
    }
    var out := new Output(input.gasProvided);
    var _ :- ReceiveAllItems(h, input, n);
    out.FinishAtReceiver(input, 3 * n + 1);
    return Ok(out);
  }

  /** `dcdtNFTMultiTransfer.ProcessBuiltinFunction` */
  method ProcessMultiTransfer(h: Handler, input: Input) returns (r: Result<Output>)
    modifies h
    ensures match MultiTransfer(h.cfg, old(h.State()), input)
            case Ok((s, o)) => r.Ok? && fresh(r.value) && h.State() == s && r.value.AsOutput() == o
            case Err(e) => r == Err(e)
  {
    if |input.args| < 4 {
      return Err(InvalidArguments);
    }
    if input.caller == input.recipient {
      r := SendMultiOnSender(h, input);
      return;
    }
    if h.cfg.shardOf(input.caller) == h.id || h.cfg.shardOf(input.recipient) != h.id {
      return Err(InvalidRcvAddr);
    }
    r := ReceiveMultiOnReceiver(h, input);
  }
}
