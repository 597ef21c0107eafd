// Gas of single and multi transfers: what a call is given is what remains, plus what goes on with the
// emitted transfer, plus the charges. The charges are products that wrap at 2^64.
module Gas {
  import opened Bytes
  import opened Wrappers
  import opened Ledger
  import opened Transfers
  import opened Shapes
  import opened Wire

  /** The gas an output holds: what remains and what its transfer takes along. */
  function GasIn(out: VMOutput): nat {
    out.gasRemaining + if out.transfer.Some? then out.transfer.value.gasLimit else 0
  }

  lemma SendOutputGas(
    cfg: Config, s: Shard, input: Input, dst: Addr, func: bytes, callArgs: seq<bytes>, minArgs: nat, gas: nat)
    ensures GasIn(SendOutput(cfg, s, input, dst, func, callArgs, minArgs, gas)) == gas
  {
  }

  // ----- copying data -----

  /** The item at `p` of an argument list is spelled with a whole token, whose bytes are paid for. */
  predicate PaidAt(args: seq<bytes>, p: nat)
    requires p + 3 <= |args|
  {
    U64(SetBytes(args[p + 1])) > 0 && |args[p + 2]| > MAX_VALUE_LENGTH
  }

  /** The bytes paid for in the items of an argument list that begins at `p`. */
  function PaidLengths(args: seq<bytes>, p: nat, n: nat): seq<nat>
    requires p + 3 * n <= |args|
    decreases n
  {
    if n == 0 then [] else
      (if PaidAt(args, p) then [|args[p + 2]|] else []) + PaidLengths(args, p + 3, n - 1)
  }

  /** The charge for copying, every product taken modulo 2^64 as the code does. */
  function Charge(lengths: seq<nat>, perByte: uint64): nat {
    if lengths == [] then 0 else U64(lengths[0] * perByte) + Charge(lengths[1..], perByte)
  }

  function TrueCharge(lengths: seq<nat>, perByte: uint64): nat {
    if lengths == [] then 0 else lengths[0] * perByte + TrueCharge(lengths[1..], perByte)
  }

  predicate NoWrap(lengths: seq<nat>, perByte: uint64) {
    forall k :: 0 <= k < |lengths| ==> lengths[k] * perByte < TWO64
  }

  lemma {:induction false} ChargeIsTrue(lengths: seq<nat>, perByte: uint64)
    ensures Charge(lengths, perByte) <= TrueCharge(lengths, perByte)
    ensures Charge(lengths, perByte) == TrueCharge(lengths, perByte) <==> NoWrap(lengths, perByte)
  {
    if lengths != [] {
      ChargeIsTrue(lengths[1..], perByte);
      var first: nat := lengths[0] * perByte;
      U64Identity(first);
      assert U64(first) <= first;
      assert NoWrap(lengths, perByte) <==> first < TWO64 && NoWrap(lengths[1..], perByte) by {
        assert forall k :: 0 < k < |lengths| ==> lengths[k] == lengths[1..][k - 1];
      }
    }
  }

  lemma PayloadCharge(cfg: Config, s: Shard, x: Sent, dst: Addr, gas: nat)
    requires Lawful(cfg) && EncodePayload(cfg, s, x, dst, gas).Ok?
    ensures var (_, payload, left) := EncodePayload(cfg, s, x, dst, gas).value;
            gas == left + if x.item.nonce > 0 && |payload| > MAX_VALUE_LENGTH then U64(|payload| * cfg.copyGas) else 0
  {
  }

  lemma PaidShift(first: seq<bytes>, rest: seq<bytes>, p: nat, n: nat)
    requires |first| == 3 && p + 3 * n <= |rest|
    ensures PaidLengths(first + rest, p + 3, n) == PaidLengths(rest, p, n)
    decreases n
  {
    var all := first + rest;
    if n > 0 {
      assert all[p + 3 + 1] == rest[p + 1] && all[p + 3 + 2] == rest[p + 2];
      PaidShift(first, rest, p + 3, n - 1);
    }
  }

  /** The argument loop charges for exactly the items spelled with their whole token. */
  lemma {:induction false} EncodeCharge(cfg: Config, s: Shard, sent: seq<Sent>, dst: Addr, gas: nat, i: nat)
    requires Lawful(cfg) && i <= |sent| && EncodeItems(cfg, s, sent, dst, gas, i).Ok?
    ensures var (_, encoded, left) := EncodeItems(cfg, s, sent, dst, gas, i).value;
            && |encoded| == 3 * (|sent| - i)
            && gas == left + Charge(PaidLengths(encoded, 0, |sent| - i), cfg.copyGas)
    decreases |sent| - i
  {
    if i < |sent| {
      var (one, payload, left) := EncodePayload(cfg, s, sent[i], dst, gas).value;
      EncodeCharge(cfg, one, sent, dst, left, i + 1);
      PayloadCharge(cfg, s, sent[i], dst, gas);
      var (_, rest, end) := EncodeItems(cfg, one, sent, dst, left, i + 1).value;
      TurnCharge(sent[i].item, payload, rest, |sent| - i - 1, cfg.copyGas, gas, left, end);
    }
  }

  lemma TurnCharge(item: Item, payload: bytes, rest: seq<bytes>, n: nat, perByte: uint64, gas: nat, left: nat, end: nat)
    requires |rest| == 3 * n && left == end + Charge(PaidLengths(rest, 0, n), perByte)
    requires gas == left + if item.nonce > 0 && |payload| > MAX_VALUE_LENGTH then U64(|payload| * perByte) else 0
    ensures var encoded := [item.token, NonceArg(item.nonce), payload] + rest;
            gas == end + Charge(PaidLengths(encoded, 0, n + 1), perByte)
  {
    var first := [item.token, NonceArg(item.nonce), payload];
    var encoded, lengths := first + rest, PaidLengths(rest, 0, n);
    NonceArgDecodes(item.nonce);
    PaidShift(first, rest, 0, n);
    assert encoded[1] == first[1] && encoded[2] == payload;
    if PaidAt(encoded, 0) {
      assert ([|payload|] + lengths)[1..] == lengths;
    } else {
      assert [] + lengths == lengths;
    }
  }

  // ----- multi transfer -----

  lemma MultiOutputGas(cfg: Config, s: Shard, input: Input, dst: Addr, sent: seq<Sent>, gas: nat)
    requires Lawful(cfg) && 3 * |sent| + 2 <= |input.args| && MultiOutput(cfg, s, input, dst, sent, gas).Ok?
    ensures var out := MultiOutput(cfg, s, input, dst, sent, gas).value.1;
            var encoded := EncodeItems(cfg, s, sent, dst, gas, 0).value.1;
            && |encoded| == 3 * |sent|
            && gas == GasIn(out) + Charge(PaidLengths(encoded, 0, |sent|), cfg.copyGas)
  {
    var (s1, encoded, left) := EncodeItems(cfg, s, sent, dst, gas, 0).value;
    EncodeCharge(cfg, s, sent, dst, gas, 0);
    var callArgs := [ToBytes(|sent|)] + encoded + input.args[3 * |sent| + 2..];
    SendOutputGas(cfg, s1, input, dst, MULTI_TRANSFER, callArgs, 3 * |sent| + 2, left);
  }

  /** The fee of a multi transfer as an integer; the code takes it modulo 2^64. */
  function MultiFee(cfg: Config, input: Input): nat
    requires |input.args| >= 4
  {
    U64(SetBytes(input.args[1])) * cfg.multiGas
  }

  /** The arguments that spell the items of a multi transfer whose loop and output succeed. */
  function SpelledBy(cfg: Config, s: Shard, input: Input, dst: Addr, n: nat, gas: nat): seq<bytes>
    requires 3 * n + 2 <= |input.args| && SendAll(cfg, s, input, dst, n, gas).Ok?
  {
    var (moved, sent) := SendItems(cfg, s, input, dst, n, 0).value;
    SentLength(cfg, s, input, dst, n, 0);
    EncodeItems(cfg, moved, sent, dst, gas, 0).value.1
  }

  lemma SendAllGas(cfg: Config, s: Shard, input: Input, dst: Addr, n: nat, gas: nat)
    requires Lawful(cfg) && 3 * n + 2 <= |input.args| && SendAll(cfg, s, input, dst, n, gas).Ok?
    ensures var spelled := SpelledBy(cfg, s, input, dst, n, gas);
            && |spelled| == 3 * n
            && gas == GasIn(SendAll(cfg, s, input, dst, n, gas).value.1)
                      + Charge(PaidLengths(spelled, 0, n), cfg.copyGas)
  {
    SendAllShape(cfg, s, input, dst, n, gas);
    var (moved, sent) := SendItems(cfg, s, input, dst, n, 0).value;
    MultiOutputGas(cfg, moved, input, dst, sent, gas);
  }

  /** The arguments that spell the items of a successful multi transfer. */
  function Spelled(cfg: Config, s: Shard, input: Input): seq<bytes>
    requires |input.args| >= 4 && SendMulti(cfg, s, input).Ok?
  {
    SendMultiChecks(cfg, s, input);
    SpelledBy(cfg, s, input, input.args[0], U64(SetBytes(input.args[1])), input.gasProvided - U64(MultiFee(cfg, input)))
  }

  lemma SendMultiGas(cfg: Config, s: Shard, input: Input)
    requires Lawful(cfg) && |input.args| >= 4 && SendMulti(cfg, s, input).Ok?
    ensures var n, spelled := U64(SetBytes(input.args[1])), Spelled(cfg, s, input);
            && |spelled| == 3 * n
            && input.gasProvided == GasIn(SendMulti(cfg, s, input).value.1) + U64(MultiFee(cfg, input))
                                    + Charge(PaidLengths(spelled, 0, n), cfg.copyGas)
  {
    hide SendMulti, SendAll, SpelledBy, PaidLengths;
    SendMultiChecks(cfg, s, input);
    var dst, n, gas := input.args[0], U64(SetBytes(input.args[1])), input.gasProvided - U64(MultiFee(cfg, input));
    var r, all := SendMulti(cfg, s, input), SendAll(cfg, s, input, dst, n, gas);
    SendAllGas(cfg, s, input, dst, n, gas);
    HeldAlike(r, all, gas, Charge(PaidLengths(SpelledBy(cfg, s, input, dst, n, gas), 0, n), cfg.copyGas));
  }

  lemma HeldAlike(r: Result<(Shard, VMOutput)>, all: Result<(Shard, VMOutput)>, gas: nat, charge: nat)
    requires r == all && all.Ok? && gas == GasIn(all.value.1) + charge
    ensures gas == GasIn(r.value.1) + charge
  {
  }

  /** `provided` is covered by what is held and the charges as integers, with equality exactly when no
      product wraps: a wrapped product charges too little. */
  predicate BalancesUnlessWrapped(provided: nat, held: nat, fee: nat, lengths: seq<nat>, perByte: uint64) {
    && provided <= held + fee + TrueCharge(lengths, perByte)
    && (provided == held + fee + TrueCharge(lengths, perByte) <==> fee < TWO64 && NoWrap(lengths, perByte))
  }

  lemma WrappedBalance(provided: nat, held: nat, fee: nat, lengths: seq<nat>, perByte: uint64)
    requires provided == held + U64(fee) + Charge(lengths, perByte)
    ensures BalancesUnlessWrapped(provided, held, fee, lengths, perByte)
  {
    U64Identity(fee);
    assert U64(fee) <= fee;
    ChargeIsTrue(lengths, perByte);
  }

  /** The gas of a multi transfer on the sender's shard, whether it crosses shards, calls a contract or
      neither. */
  lemma MultiGasConserved(cfg: Config, s: Shard, input: Input)
    requires Lawful(cfg) && |input.args| >= 4 && SendMulti(cfg, s, input).Ok?
    ensures var n, spelled := U64(SetBytes(input.args[1])), Spelled(cfg, s, input);
            && |spelled| == 3 * n
            && BalancesUnlessWrapped(input.gasProvided, GasIn(SendMulti(cfg, s, input).value.1), MultiFee(cfg, input),
                                     PaidLengths(spelled, 0, n), cfg.copyGas)
  {
    var n, spelled := U64(SetBytes(input.args[1])), Spelled(cfg, s, input);
    SendMultiGas(cfg, s, input);
    WrappedBalance(input.gasProvided, GasIn(SendMulti(cfg, s, input).value.1), MultiFee(cfg, input),
                   PaidLengths(spelled, 0, n), cfg.copyGas);
  }

  // ----- single transfer -----

  /** What a single transfer pays for: its token's bytes, unless it travels as the zero marker. */
  function NftLengths(payload: bytes): seq<nat> {
    if payload == ZERO_PAYLOAD then [] else [|payload|]
  }

  function NftPayloadOf(cfg: Config, s: Shard, input: Input, t: Token): bytes
    requires |input.args| >= NFT_MIN_ARGS
    requires AlreadySent(cfg, s, input.args[0], NftItem(input.args).nonce, input.args[3]).Ok?
  {
    if !AlreadySent(cfg, s, input.args[0], NftItem(input.args).nonce, input.args[3]).value.0 || t.value == 1
    then cfg.marshal(t) else ZERO_PAYLOAD
  }

  lemma NftChargeIs(cfg: Config, payload: bytes)
    ensures Charge(NftLengths(payload), cfg.copyGas) ==
            if payload == ZERO_PAYLOAD then 0 else U64(|payload| * cfg.copyGas)
  {
    assert [|payload|][1..] == [];
  }

  lemma NftOutputGas(cfg: Config, s: Shard, input: Input, t: Token, gas: nat)
    requires Lawful(cfg) && |input.args| >= NFT_MIN_ARGS && NftOutput(cfg, s, input, t, gas).Ok?
    ensures AlreadySent(cfg, s, input.args[0], NftItem(input.args).nonce, input.args[3]).Ok?
    ensures gas == GasIn(NftOutput(cfg, s, input, t, gas).value.1)
                   + Charge(NftLengths(NftPayloadOf(cfg, s, input, t)), cfg.copyGas)
  {
    var item, dst := NftItem(input.args), input.args[3];
    var (sent, s1) := AlreadySent(cfg, s, item.token, item.nonce, dst).value;
    var payload := NftPayloadOf(cfg, s, input, t);
    assert |cfg.marshal(t)| > MAX_VALUE_LENGTH;
    NftChargeIs(cfg, payload);
    var left := if !sent || t.value == 1 then Marshalled(cfg, t, gas).value.1 else gas;
    SendOutputGas(cfg, s1, input, dst, NFT_TRANSFER, input.args[..3] + [payload] + input.args[4..], NFT_MIN_ARGS, left);
  }

  /** The state and the token object after debit and settlement. */
  function SettledNft(cfg: Config, s: Shard, input: Input): (Shard, Token)
    requires |input.args| >= NFT_MIN_ARGS && SendNft(cfg, s, input).Ok?
  {
    var (s1, t) := Debit(cfg, s, input, NftItem(input.args)).value;
    Settle(cfg, s1, input, input.args[3], NftItem(input.args), t).value
  }

  lemma SendNftGas(cfg: Config, s: Shard, input: Input)
    requires Lawful(cfg) && |input.args| >= NFT_MIN_ARGS && SendNft(cfg, s, input).Ok?
    ensures var (s2, t), out := SettledNft(cfg, s, input), SendNft(cfg, s, input).value.1;
            && AlreadySent(cfg, s2, input.args[0], NftItem(input.args).nonce, input.args[3]).Ok?
            && input.gasProvided == GasIn(out) + cfg.nftGas
                                    + Charge(NftLengths(NftPayloadOf(cfg, s2, input, t)), cfg.copyGas)
  {
    SendNftShape(cfg, s, input);
    var (s2, t) := SettledNft(cfg, s, input);
    NftOutputGas(cfg, s2, input, t, input.gasProvided - cfg.nftGas);
  }

  /** The gas of a single transfer on the sender's shard. */
  lemma NftGasConserved(cfg: Config, s: Shard, input: Input)
    requires Lawful(cfg) && |input.args| >= NFT_MIN_ARGS && SendNft(cfg, s, input).Ok?
    ensures var (s2, t), out := SettledNft(cfg, s, input), SendNft(cfg, s, input).value.1;
            && AlreadySent(cfg, s2, input.args[0], NftItem(input.args).nonce, input.args[3]).Ok?
            && BalancesUnlessWrapped(input.gasProvided, GasIn(out), cfg.nftGas,
                                     NftLengths(NftPayloadOf(cfg, s2, input, t)), cfg.copyGas)
  {
    SendNftGas(cfg, s, input);
    var (s2, t) := SettledNft(cfg, s, input);
    U64Identity(cfg.nftGas);
    WrappedBalance(input.gasProvided, GasIn(SendNft(cfg, s, input).value.1), cfg.nftGas,
                   NftLengths(NftPayloadOf(cfg, s2, input, t)), cfg.copyGas);
  }

  // ----- fungible transfer -----

  /** A fungible transfer charges its fee where the sender lives. On the receiver's shard alone it keeps all
      gas for a call-back, charges a contract call once more, and keeps nothing otherwise. */
  lemma FungibleGasConserved(cfg: Config, s: Shard, input: Input)
    requires FungibleTransfer(cfg, s, input).Ok?
    ensures |input.args| >= FUNGIBLE_MIN_ARGS
    ensures var held := GasIn(FungibleOutput(cfg, s, input));
            var call := IsCallAfter(cfg, input, input.recipient, FUNGIBLE_MIN_ARGS);
            if cfg.shardOf(input.caller) == s.id then
              input.gasProvided == held + cfg.fungibleGas
            else
              held == if cfg.shardOf(input.recipient) != s.id then 0
                      else if call then SafeSub(input.gasProvided, cfg.fungibleGas)
                      else if input.callType == AsyncCallBack then input.gasProvided
                      else 0
  {
  }

  // ----- the receiver's side -----

  /** A delivery charges nothing: all gas remains or goes on with the contract call. */
  lemma ReceivedGasConserved(cfg: Config, s: Shard, input: Input)
    requires input.caller != input.recipient
    ensures NftTransfer(cfg, s, input).Ok? ==> GasIn(NftTransfer(cfg, s, input).value.1) == input.gasProvided
    ensures MultiTransfer(cfg, s, input).Ok? ==> GasIn(MultiTransfer(cfg, s, input).value.1) == input.gasProvided
  {
  }
}
