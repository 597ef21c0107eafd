// Single and multi transfers as functions on a shard: debit and message on the sender's
// shard, credit on the receiver's (dcdtNFTTransfer.go, multiDCDTNFTTransfer.go).
module Transfers {
  import opened Bytes
  import opened Wrappers
  import opened TokenId
  import opened Ledger
  import opened TxData

  const FUNGIBLE_TRANSFER := Ascii("DCDTTransfer")
  const NFT_TRANSFER := Ascii("DCDTNFTTransfer")
  const MULTI_TRANSFER := Ascii("MultiDCDTNFTTransfer")

  /** `vmcommon.DCDTTransfer` */
  datatype Item = Item(token: bytes, nonce: uint64, value: nat)

  /** A transferred item with the token object its debit left behind. */
  datatype Sent = Sent(item: Item, tok: Token)

  datatype OutTransfer = OutTransfer(sender: Addr, recipient: Addr, data: bytes, gasLimit: nat, gasLocked: nat)

  datatype VMOutput = VMOutput(gasRemaining: nat, transfer: Option<OutTransfer>)

  // ----- moving one token -----

  /** `addNFTToDestination`: `t` carries the moved value; the result carries the new balance. */
  function Credit(cfg: Config, s: Shard, input: Input, snd: Addr, dst: Addr, t: Token, token: bytes, nonce: nat)
    : Result<(Shard, Token)>
  {
    var current := TokenAt(cfg, s, dst, token, nonce);
    var _ :- CheckFrozeAndPause(cfg, input, dst, token, current);
    var sum := t.(value := t.value + current.value);
    var s1 :- if cfg.shardOf(snd) == cfg.shardOf(dst)
              then SaveToken(cfg, s, input, snd, dst, token, nonce, sum, false)
              else SaveWithLiquidity(cfg, s, input, snd, dst, token, nonce, sum, false, t.value);
    Ok((s1, sum))
  }

  /** The debit of one item: read, subtract, save. The token comes back carrying the moved value. */
  function Debit(cfg: Config, s: Shard, input: Input, item: Item): Result<(Shard, Token)> {
    var t :- TokenOnSender(cfg, s, input.caller, item.token, item.nonce);
    var _ :- Need(t.value >= item.value, InsufficientQuantity);
    var s1 :- SaveToken(cfg, s, input, input.caller, input.caller, item.token, item.nonce,
                        t.(value := t.value - item.value), false);
    Ok((s1, t.(value := item.value)))
  }

  /** The counterpart of a debit: the credit when the receiver lives here, the drop in liquidity when not. */
  function Settle(cfg: Config, s: Shard, input: Input, dst: Addr, item: Item, t: Token): Result<(Shard, Token)> {
    if cfg.shardOf(dst) == s.id then
      Credit(cfg, s, input, input.caller, dst, t, item.token, item.nonce)
    else
      var s1 :- AddLiquidity(cfg, s, item.token, item.nonce, -(item.value as int));
      Ok((s1, t))
  }

  function CheckRestricted(input: Input, token: bytes): Result<()> {
    Need(input.returnAfterError || token !in input.restricted, ActionNotAllowed)
  }

  /** `transferOneTokenOnSenderShard` */
  function SendOne(cfg: Config, s: Shard, input: Input, dst: Addr, item: Item): Result<(Shard, Token)> {
    var _ :- Need(item.value > 0, InvalidNFTQuantity);
    var (s1, t) :- Debit(cfg, s, input, item);
    var _ :- CheckRestricted(input, item.token);
    Settle(cfg, s1, input, dst, item, t)
  }

  // ----- the output of a transfer -----

  predicate IsSmartContract(a: Addr) {
    |a| > 10 && ((forall i :: 0 <= i < |a| ==> a[i] == 0) || (forall i :: 0 <= i < 8 ==> a[i] == 0))
  }

  /** `DetermineIsSCCallAfter` */
  predicate IsCallAfter(cfg: Config, input: Input, dst: Addr, minArgs: nat) {
    && |input.args| > minArgs
    && !(input.returnAfterError && input.callType != AsyncCallBack)
    && IsSmartContract(dst)
    && (cfg.checkFunctionArgument ==> input.args[minArgs] != [])
  }

  /** `addOutputTransferToVMOutput`: all remaining gas goes with the call. */
  function CallOutput(input: Input, recipient: Addr, call: seq<bytes>, gas: nat): VMOutput
    requires call != []
  {
    VMOutput(0, Some(OutTransfer(input.caller, recipient, Print(call[0], call[1..]), gas, input.gasLocked)))
  }

  /** The end of both sender-side functions: a cross-shard message, a contract call or nothing. */
  function SendOutput(
    cfg: Config, s: Shard, input: Input, dst: Addr, func: bytes, callArgs: seq<bytes>, minArgs: nat, gas: nat)
    : VMOutput
  {
    var callAfter := IsCallAfter(cfg, input, dst, minArgs);
    if s.id != cfg.shardOf(dst) then
      var data := Print(func, callArgs);
      VMOutput(if callAfter then 0 else gas,
               Some(OutTransfer(input.caller, dst, data, if callAfter then gas else 0, input.gasLocked)))
    else if callAfter then
      CallOutput(input, dst, input.args[minArgs..], gas)
    else
      VMOutput(gas, None)
  }

  /** The end of both receiver-side functions. */
  function ReceiveOutput(input: Input, minArgs: nat): VMOutput {
    if |input.args| > minArgs && IsSmartContract(input.recipient)
    then CallOutput(input, input.recipient, input.args[minArgs..], input.gasProvided)
    else VMOutput(input.gasProvided, None)
  }

  /** The marshalled token and the gas left after paying for its bytes. */
  function Marshalled(cfg: Config, t: Token, gas: nat): Result<(bytes, nat)> {
    var data := cfg.marshal(t);
    var cost := U64(|data| * cfg.copyGas);
    var _ :- Need(cost <= gas, NotEnoughGas);
    Ok((data, gas - cost))
  }

  // ----- fungible transfer -----

  const FUNGIBLE_MIN_ARGS := 2

  function SafeSub(a: uint64, b: uint64): uint64 {
    if a < b then 0 else a - b
  }

  /** The output of `dcdtTransfer.ProcessBuiltinFunction`. Only a contract's transfer to another shard is a
      message of its own; any other crosses with its transaction. */
  function FungibleOutput(cfg: Config, s: Shard, input: Input): VMOutput
    requires |input.args| >= FUNGIBLE_MIN_ARGS
  {
    var atSender := cfg.shardOf(input.caller) == s.id;
    var gas := if atSender then SafeSub(input.gasProvided, cfg.fungibleGas) else 0;
    if cfg.shardOf(input.recipient) == s.id then
      if IsCallAfter(cfg, input, input.recipient, FUNGIBLE_MIN_ARGS) then
        CallOutput(input, input.recipient, input.args[FUNGIBLE_MIN_ARGS..], SafeSub(input.gasProvided, cfg.fungibleGas))
      else if input.callType == AsyncCallBack && !atSender then
        VMOutput(input.gasProvided, None)
      else
        VMOutput(gas, None)
    else if IsSmartContract(input.caller) then
      VMOutput(0, Some(OutTransfer(input.caller, input.recipient, Print(FUNGIBLE_TRANSFER, input.args), gas,
                                   input.gasLocked)))
    else
      VMOutput(gas, None)
  }

  // ----- single transfer -----

  const NFT_MIN_ARGS := 4

  function NftItem(args: seq<bytes>): Item
    requires |args| >= NFT_MIN_ARGS
  {
    Item(args[0], U64(SetBytes(args[1])), SetBytes(args[2]))
  }

  const ZERO_PAYLOAD: bytes := [0]

  /** `createNFTOutputTransfers`. The value compared with one is the token object's: in the same
      shard it has become the receiver's new balance. */
  function NftOutput(cfg: Config, s: Shard, input: Input, t: Token, gas: nat): Result<(Shard, VMOutput)>
    requires |input.args| >= NFT_MIN_ARGS
  {
    var item, dst := NftItem(input.args), input.args[3];
    var (sent, s1) :- AlreadySent(cfg, s, item.token, item.nonce, dst);
    var (payload, left) :- if !sent || t.value == 1 then Marshalled(cfg, t, gas) else Ok((ZERO_PAYLOAD, gas));
    var callArgs := input.args[..3] + [payload] + input.args[4..];
    Ok((s1, SendOutput(cfg, s1, input, dst, NFT_TRANSFER, callArgs, NFT_MIN_ARGS, left)))
  }

  function CheckDestination(cfg: Config, input: Input, dst: Addr): Result<()> {
    var _ :- Need(|dst| == |input.caller|, InvalidArguments);
    var _ :- Need(dst != input.caller, InvalidArguments);
    Need(cfg.shardOf(dst) != META, InvalidRcvAddr)
  }

  /** `processNFTTransferOnSenderShard` */
  function SendNft(cfg: Config, s: Shard, input: Input): Result<(Shard, VMOutput)>
    requires |input.args| >= NFT_MIN_ARGS
  {
    var item, dst := NftItem(input.args), input.args[3];
    var _ :- CheckDestination(cfg, input, dst);
    var _ :- Need(input.gasProvided >= cfg.nftGas, NotEnoughGas);
    var _ :- Need(Slot(input.caller, KeyOf(item.token, item.nonce)) in s.accounts, NewNFTDataOnSender);
    var _ :- Need(item.nonce != 0, NFTDoesNotHaveMetadata);
    var _ :- Need(!(cfg.consistentLengths && |input.args[2]| > cfg.maxIssueLength), InvalidArguments);
    var _ :- Need(Holding(s, Slot(input.caller, KeyOf(item.token, item.nonce))) >= item.value, InvalidNFTQuantity);
    var _ :- Need(!cfg.checkTransfer || item.value > 0, InvalidNFTQuantity);
    SendNftChecked(cfg, s, input)
  }

  /** A single transfer whose checks have passed: debit, settlement and output. */
  function SendNftChecked(cfg: Config, s: Shard, input: Input): Result<(Shard, VMOutput)>
    requires |input.args| >= NFT_MIN_ARGS && input.gasProvided >= cfg.nftGas
  {
    var item, dst := NftItem(input.args), input.args[3];
    var (s1, t) :- Debit(cfg, s, input, item);
    var _ :- Need(cfg.shardOf(dst) != s.id || input.payable, AccountNotPayable);
    var (s2, t2) :- Settle(cfg, s1, input, dst, item, t);
    var _ :- CheckRestricted(input, item.token);
    NftOutput(cfg, s2, input, t2, input.gasProvided - cfg.nftGas)
  }

  /** The token a single-transfer message credits. */
  function NftPayload(cfg: Config, args: seq<bytes>): Result<Token>
    requires |args| >= NFT_MIN_ARGS
  {
    if args[3] == ZERO_PAYLOAD then
      Ok(Token(NonFungible, NftItem(args).value, [], None, []))
    else
      match cfg.unmarshal(args[3])
      case Some(t) => Ok(t)
      case None => Err(Unmarshal)
  }

  /** The receiver's side of `dcdtNFTTransfer.ProcessBuiltinFunction`. */
  function ReceiveNft(cfg: Config, s: Shard, input: Input): Result<(Shard, VMOutput)>
    requires |input.args| >= NFT_MIN_ARGS
  {
    var item := NftItem(input.args);
    var t :- NftPayload(cfg, input.args);
    var _ :- Need(input.payable, AccountNotPayable);
    var (s1, _) :- Credit(cfg, s, input, input.caller, input.recipient, t, item.token, item.nonce);
    Ok((s1, ReceiveOutput(input, NFT_MIN_ARGS)))
  }

  /** `dcdtNFTTransfer.ProcessBuiltinFunction`; the sender's account is present where it lives. */
  function NftTransfer(cfg: Config, s: Shard, input: Input): Result<(Shard, VMOutput)> {
    var _ :- Need(|input.args| >= NFT_MIN_ARGS, InvalidArguments);
    if input.caller == input.recipient then
      SendNft(cfg, s, input)
    else
      var _ :- Need(cfg.shardOf(input.caller) != s.id && cfg.shardOf(input.recipient) == s.id, InvalidRcvAddr);
      ReceiveNft(cfg, s, input)
  }

  // ----- multi transfer -----

  /** The `i`-th item of a list of (token, nonce, value) arguments beginning at `start`. */
  function ItemAt(args: seq<bytes>, start: nat, i: nat): Item
    requires start + 3 * i + 3 <= |args|
  {
    Item(args[start + 3 * i], U64(SetBytes(args[start + 3 * i + 1])), SetBytes(args[start + 3 * i + 2]))
  }

  /** The sender-shard loop from item `i` on. */
  function SendItems(cfg: Config, s: Shard, input: Input, dst: Addr, n: nat, i: nat): Result<(Shard, seq<Sent>)>
    requires i <= n && 3 * n + 2 <= |input.args|
    decreases n - i
  {
    if i == n then
      Ok((s, []))
    else
      var _ :- Need(!(cfg.consistentLengths && |input.args[3 * i + 4]| > cfg.maxIssueLength), InvalidArguments);
      var item := ItemAt(input.args, 2, i);
      var (s1, t) :- SendOne(cfg, s, input, dst, item);
      var (s2, rest) :- SendItems(cfg, s1, input, dst, n, i + 1);
      Ok((s2, [Sent(item, t)] + rest))
  }

  /** The payload argument of one item, and the gas left. */
  function EncodePayload(cfg: Config, s: Shard, x: Sent, dst: Addr, gas: nat): Result<(Shard, bytes, nat)> {
    if x.item.nonce == 0 then
      Ok((s, ToBytes(x.item.value), gas))
    else
      var (sent, s1) :- AlreadySent(cfg, s, x.item.token, x.item.nonce, dst);
      if !sent || x.item.value == 1 || |ToBytes(x.item.value)| > MAX_VALUE_LENGTH then
        var (data, left) :- Marshalled(cfg, x.tok, gas);
        Ok((s1, data, left))
      else
        Ok((s1, ToBytes(x.item.value), gas))
  }

  function NonceArg(nonce: uint64): bytes {
    if nonce > 0 then ToBytes(nonce) else [0]
  }

  /** The argument loop of `createDCDTNFTOutputTransfers` from item `i` on. */
  function EncodeItems(
    cfg: Config, s: Shard, sent: seq<Sent>, dst: Addr, gas: nat, i: nat): Result<(Shard, seq<bytes>, nat)>
    requires i <= |sent|
    decreases |sent| - i
  {
    if i == |sent| then
      Ok((s, [], gas))
    else
      var (s1, payload, left) :- EncodePayload(cfg, s, sent[i], dst, gas);
      var (s2, rest, end) :- EncodeItems(cfg, s1, sent, dst, left, i + 1);
      Ok((s2, [sent[i].item.token, NonceArg(sent[i].item.nonce), payload] + rest, end))
  }

  /** `createDCDTNFTOutputTransfers` */
  function MultiOutput(
    cfg: Config, s: Shard, input: Input, dst: Addr, sent: seq<Sent>, gas: nat): Result<(Shard, VMOutput)>
    requires 3 * |sent| + 2 <= |input.args|
  {
    var (s1, encoded, left) :- EncodeItems(cfg, s, sent, dst, gas, 0);
    var minArgs := 3 * |sent| + 2;
    var callArgs := [ToBytes(|sent|)] + encoded + input.args[minArgs..];
    Ok((s1, SendOutput(cfg, s1, input, dst, MULTI_TRANSFER, callArgs, minArgs, left)))
  }

  /** The number of transfers in `arg`, checked against the number of arguments with wrapping products. */
  function TransferCount(args: seq<bytes>, arg: bytes, k: nat): Result<uint64> {
    var n := U64(SetBytes(arg));
    var _ :- Need(n != 0, InvalidArguments);
    var _ :- Need(|args| >= U64(3 * n + k), InvalidArguments);
    Ok(n)
  }

  /** Where the product `3 * n + k` wrapped, the Go code goes on to allocate a list of `n` entries
      and stops there. */
  function AllocateList(args: seq<bytes>, n: nat, k: nat): Result<()> {
    Need(|args| >= 3 * n + k, Panic)
  }

  /** `processDCDTNFTMultiTransferOnSenderShard` */
  function SendMulti(cfg: Config, s: Shard, input: Input): Result<(Shard, VMOutput)>
    requires |input.args| >= 4
  {
    var dst := input.args[0];
    var _ :- CheckDestination(cfg, input, dst);
    var n :- TransferCount(input.args, input.args[1], 2);
    var cost := U64(n * cfg.multiGas);
    var _ :- Need(input.gasProvided >= cost, NotEnoughGas);
    var _ :- Need(cfg.shardOf(dst) != s.id || input.payable, AccountNotPayable);
    var _ :- AllocateList(input.args, n, 2);
    SendAll(cfg, s, input, dst, n, input.gasProvided - cost)
  }

  /** The loop and the output of a multi transfer whose checks have passed. */
  function SendAll(cfg: Config, s: Shard, input: Input, dst: Addr, n: nat, gas: nat): Result<(Shard, VMOutput)>
    requires 3 * n + 2 <= |input.args|
  {
    var (s1, sent) :- SendItems(cfg, s, input, dst, n, 0);
    SentLength(cfg, s, input, dst, n, 0);
    MultiOutput(cfg, s1, input, dst, sent, gas)
  }

  lemma {:induction false} SentLength(cfg: Config, s: Shard, input: Input, dst: Addr, n: nat, i: nat)
    requires i <= n && 3 * n + 2 <= |input.args|
    ensures var r := SendItems(cfg, s, input, dst, n, i); r.Ok? ==> |r.value.1| == n - i
    decreases n - i
  {
    if i < n && SendItems(cfg, s, input, dst, n, i).Ok? {
      var s1 := SendOne(cfg, s, input, dst, ItemAt(input.args, 2, i)).value.0;
      SentLength(cfg, s1, input, dst, n, i + 1);
    }
  }

  /** What the receiver's loop reads of item `i`: the item, and the token to credit if it has a nonce. */
  function DecodeItem(cfg: Config, args: seq<bytes>, i: nat): Result<Sent>
    requires 3 * i + 4 <= |args|
  {
    var item := ItemAt(args, 1, i);
    if item.nonce > 0 && |args[3 * i + 3]| > MAX_VALUE_LENGTH then
      match cfg.unmarshal(args[3 * i + 3])
      case Some(t) => Ok(Sent(item, t))
      case None => Err(Unmarshal)
    else
      Ok(Sent(item, Token(if item.nonce > 0 then NonFungible else Fungible, item.value, [], None, [])))
  }

  /** The credit of one received item. */
  function ReceiveOne(cfg: Config, s: Shard, input: Input, x: Sent): Result<Shard> {
    if x.item.nonce > 0 then
      var (s1, _) :- Credit(cfg, s, input, input.caller, input.recipient, x.tok, x.item.token, x.item.nonce);
      Ok(s1)
    else
      AddToBalance(cfg, s, input, input.recipient, x.item.token, x.tok.value)
  }

  /** The receiver's loop from item `i` on. */
  function ReceiveItems(cfg: Config, s: Shard, input: Input, n: nat, i: nat): Result<Shard>
    requires i <= n && 3 * n + 1 <= |input.args|
    decreases n - i
  {
    if i == n then
      Ok(s)
    else
      var x :- DecodeItem(cfg, input.args, i);
      var s1 :- ReceiveOne(cfg, s, input, x);
      ReceiveItems(cfg, s1, input, n, i + 1)
  }

  /** The receiver's side of `dcdtNFTMultiTransfer.ProcessBuiltinFunction`. */
  function ReceiveMulti(cfg: Config, s: Shard, input: Input): Result<(Shard, VMOutput)>
    requires |input.args| >= 4
  {
    var n :- TransferCount(input.args, input.args[0], 1);
    var _ :- AllocateList(input.args, n, 1);
    var _ :- Need(input.payable, AccountNotPayable);
    var s1 :- ReceiveItems(cfg, s, input, n, 0);
    Ok((s1, ReceiveOutput(input, 3 * n + 1)))
  }

  /** `dcdtNFTMultiTransfer.ProcessBuiltinFunction` */
  function MultiTransfer(cfg: Config, s: Shard, input: Input): Result<(Shard, VMOutput)> {
    var _ :- Need(|input.args| >= 4, InvalidArguments);
    if input.caller == input.recipient then
      SendMulti(cfg, s, input)
    else
      var _ :- Need(cfg.shardOf(input.caller) != s.id && cfg.shardOf(input.recipient) == s.id, InvalidRcvAddr);
      ReceiveMulti(cfg, s, input)
  }
}
