// parsers/dcdtTransferParser.go: what a transfer call will move, read from its arguments before it
// runs. Proved to agree with what the built-in functions do, and exactly when it does not.
module TransferParser {
  import opened Bytes
  import opened Wrappers
  import opened Ledger
  import opened Transfers
  import opened TxData
  import opened Wire
  import opened Totals
  import opened Shapes

  /** `vmcommon.DCDTTransfer` with its type */
  datatype Parsed = Parsed(token: bytes, typ: TokenType, nonce: uint64, value: int)

  /** `vmcommon.ParsedDCDTTransfers` */
  datatype ParsedTransfers = ParsedTransfers(transfers: seq<Parsed>, receiver: Addr, func: bytes, callArgs: seq<bytes>)

  const NOTHING := Parsed([], Fungible, 0, 0)

  /** The call that follows the transferred items. */
  function WithCall(transfers: seq<Parsed>, receiver: Addr, call: seq<bytes>): ParsedTransfers {
    ParsedTransfers(transfers, receiver, if call == [] then [] else call[0], if call == [] then [] else call[1..])
  }

  function TypeOf(nonce: uint64): TokenType {
    if nonce > 0 then NonFungible else Fungible
  }

  // ----- what the parser reads -----

  /** `createNewDCDTTransfer` */
  function ParsedAt(cfg: Config, args: seq<bytes>, p: nat, atSender: bool): Result<Parsed>
    requires p + 3 <= |args|
  {
    var nonce := U64(SetBytes(args[p + 1]));
    if nonce > 0 && !atSender && |args[p + 2]| > MAX_VALUE_LENGTH then
      match cfg.unmarshal(args[p + 2])
      case Some(t) => Ok(Parsed(args[p], NonFungible, nonce, t.value))
      case None => Err(Unmarshal)
    else
      Ok(Parsed(args[p], TypeOf(nonce), nonce, SetBytes(args[p + 2])))
  }

  function ParsedFrom(cfg: Config, args: seq<bytes>, start: nat, n: nat, i: nat, atSender: bool): Result<seq<Parsed>>
    requires i <= n && start + 3 * n <= |args|
    decreases n - i
  {
    if i == n then
      Ok([])
    else
      var x :- ParsedAt(cfg, args, start + 3 * i, atSender);
      Prepend([x], ParsedFrom(cfg, args, start, n, i + 1, atSender))
  }

  /** The first argument passes for an address when it is as long as one and no uint64. */
  predicate LooksLikeAddress(arg: bytes, rcv: Addr) {
    |arg| == |rcv| && SetBytes(arg) >= TWO64
  }

  /** The items with receiver and call, or the error of the first item that cannot be read. */
  function Assembled(items: Result<seq<Parsed>>, receiver: Addr, call: seq<bytes>): Result<ParsedTransfers> {
    var transfers :- items;
    Ok(WithCall(transfers, receiver, call))
  }

  /** The list of `n` items from argument `start` on, and the call behind it. */
  function ParsedList(
    cfg: Config, args: seq<bytes>, start: nat, n: uint64, atSender: bool, receiver: Addr): Result<ParsedTransfers> {
    var _ :- Need(|args| >= U64(3 * n + start), NotEnoughArguments);
    var _ :- AllocateList(args, n, start);
    Assembled(ParsedFrom(cfg, args, start, n, 0, atSender), receiver, args[3 * n + start..])
  }

  function ParsedMulti(cfg: Config, rcv: Addr, args: seq<bytes>): Result<ParsedTransfers> {
    var _ :- Need(|args| >= 4, NotEnoughArguments);
    if LooksLikeAddress(args[0], rcv) then ParsedList(cfg, args, 2, U64(SetBytes(args[1])), true, args[0])
    else ParsedList(cfg, args, 1, U64(SetBytes(args[0])), false, rcv)
  }

  function ParsedNft(snd: Addr, rcv: Addr, args: seq<bytes>): Result<ParsedTransfers> {
    var _ :- Need(|args| >= NFT_MIN_ARGS, NotEnoughArguments);
    var item := NftItem(args);
    Ok(WithCall([Parsed(item.token, NonFungible, item.nonce, item.value)], if snd == rcv then args[3] else rcv,
                args[NFT_MIN_ARGS..]))
  }

  function ParsedFungible(rcv: Addr, args: seq<bytes>): Result<ParsedTransfers> {
    var _ :- Need(|args| >= 2, NotEnoughArguments);
    Ok(WithCall([Parsed(args[0], Fungible, 0, SetBytes(args[1]))], rcv, args[2..]))
  }

  /** `ParseDCDTTransfers` */
  function ParseTransfers(cfg: Config, snd: Addr, rcv: Addr, func: bytes, args: seq<bytes>): Result<ParsedTransfers> {
    if func == FUNGIBLE_TRANSFER then ParsedFungible(rcv, args)
    else if func == NFT_TRANSFER then ParsedNft(snd, rcv, args)
    else if func == MULTI_TRANSFER then ParsedMulti(cfg, rcv, args)
    else Err(NotTransferInput)
  }

  // ----- the parser -----

  /** Reads one item, field by field. */
  method CreateNewTransfer(cfg: Config, args: seq<bytes>, p: nat, atSender: bool) returns (r: Result<Parsed>)
    requires p + 3 <= |args|
    ensures r == ParsedAt(cfg, args, p, atSender)
  {
    var transfer := Parsed(args[p], Fungible, U64(SetBytes(args[p + 1])), SetBytes(args[p + 2]));
    if transfer.nonce > 0 {
      transfer := transfer.(typ := NonFungible);
      if !atSender && |args[p + 2]| > MAX_VALUE_LENGTH {
        var data := cfg.unmarshal(args[p + 2]);
        if data.None? {
          return Err(Unmarshal);
        }
        transfer := transfer.(value := data.value.value);
      }
    }
    return Ok(transfer);
  }

  lemma ParsedStep(cfg: Config, args: seq<bytes>, start: nat, n: nat, i: nat, atSender: bool, done: seq<Parsed>)
    requires i < n && start + 3 * n <= |args|
    ensures var x := ParsedAt(cfg, args, start + 3 * i, atSender);
            Prepend(done, ParsedFrom(cfg, args, start, n, i, atSender)) ==
            if x.Err? then Err(x.error) else Prepend(done + [x.value], ParsedFrom(cfg, args, start, n, i + 1, atSender))
  {
    var x, rest := ParsedAt(cfg, args, start + 3 * i, atSender), ParsedFrom(cfg, args, start, n, i + 1, atSender);
    assert x.Ok? && rest.Ok? ==> done + ([x.value] + rest.value) == done + [x.value] + rest.value;
  }

  method ParseItems(cfg: Config, args: seq<bytes>, start: nat, n: nat, atSender: bool) returns (r: Result<seq<Parsed>>)
    requires start + 3 * n <= |args|
    ensures r == ParsedFrom(cfg, args, start, n, 0, atSender)
  {
    var transfers := new Parsed[n](_ => NOTHING);
    ghost var all := ParsedFrom(cfg, args, start, n, 0, atSender);
    var i := 0;
    while i < n
      invariant i <= n
      invariant all == Prepend(transfers[..i], ParsedFrom(cfg, args, start, n, i, atSender))
    {
      ghost var done := transfers[..i];
      ParsedStep(cfg, args, start, n, i, atSender, done);
      var x :- CreateNewTransfer(cfg, args, start + 3 * i, atSender);
      transfers[i] := x;
      assert transfers[..i + 1] == done + [x];
      i := i + 1;
    }
    return Ok(transfers[..n]);
  }

  /** Where `minLen` did not wrap, the list can be allocated and the call begins there. */
  lemma CountFits(args: seq<bytes>, n: uint64, start: nat)
    requires |args| < TWO64
    ensures U64(3 * n + start) == 3 * n + start || AllocateList(args, n, start).Err?
  {
    U64Identity(3 * n + start);
  }

  lemma CallSplits(args: seq<bytes>, p: nat)
    requires p <= |args|
    ensures args[p..] == [] <==> p == |args|
    ensures p < |args| ==> args[p..][0] == args[p] && args[p..][1..] == args[p + 1..]
  {
  }

  /** The function and the arguments of the call that begins at `p`. */
  method ParseCall(args: seq<bytes>, p: nat) returns (func: bytes, callArgs: seq<bytes>)
    requires p <= |args|
    ensures forall transfers, rcv ::
              ParsedTransfers(transfers, rcv, func, callArgs) == WithCall(transfers, rcv, args[p..])
  {
    func, callArgs := [], [];
    if |args| > p {
      func := args[p];
    }
    if |args| > p + 1 {
      callArgs := callArgs + args[p + 1..];
    }
    CallSplits(args, p);
  }

  /** A list whose counter did not wrap. */
  lemma ListFits(cfg: Config, args: seq<bytes>, start: nat, n: uint64, atSender: bool, receiver: Addr, minLen: nat)
    requires minLen == U64(3 * n + start) == 3 * n + start <= |args|
    ensures ParsedList(cfg, args, start, n, atSender, receiver) ==
            Assembled(ParsedFrom(cfg, args, start, n, 0, atSender), receiver, args[minLen..])
  {
  }

  method ParseList(cfg: Config, args: seq<bytes>, start: nat, n: uint64, atSender: bool, receiver: Addr)
    returns (r: Result<ParsedTransfers>)
    requires |args| < TWO64
    ensures r == ParsedList(cfg, args, start, n, atSender, receiver)
  {
    var minLen: nat := U64(3 * n + start);
    if |args| < minLen {
      return Err(NotEnoughArguments);
    }
    CountFits(args, n, start);
    var _ :- AllocateList(args, n, start);
    ListFits(cfg, args, start, n, atSender, receiver, minLen);
    r := ParseItemsAndCall(cfg, args, start, n, atSender, receiver);
  }

  method ParseItemsAndCall(cfg: Config, args: seq<bytes>, start: nat, n: nat, atSender: bool, receiver: Addr)
    returns (r: Result<ParsedTransfers>)
    requires start + 3 * n <= |args|
    ensures r == Assembled(ParsedFrom(cfg, args, start, n, 0, atSender), receiver, args[3 * n + start..])
  {
    hide ParsedFrom;
    var func, callArgs := ParseCall(args, 3 * n + start);
    var items := ParseItems(cfg, args, start, n, atSender);
    if items.Err? {
      return Err(items.error);
    }
    return Ok(ParsedTransfers(items.value, receiver, func, callArgs));
  }

  method ParseMulti(cfg: Config, rcv: Addr, args: seq<bytes>) returns (r: Result<ParsedTransfers>)
    requires |args| < TWO64
    ensures r == ParsedMulti(cfg, rcv, args)
  {
    if |args| < 4 {
      return Err(NotEnoughArguments);
    }
    var receiver, number: nat, start: nat, atSender := rcv, SetBytes(args[0]), 1, false;
    if |args[0]| == |rcv| && number >= TWO64 {
      receiver := args[0];
      number := SetBytes(args[1]);
      start := 2;
      atSender := true;
    }
    r := ParseList(cfg, args, start, U64(number), atSender, receiver);
  }

  method ParseNft(snd: Addr, rcv: Addr, args: seq<bytes>) returns (r: Result<ParsedTransfers>)
    ensures r == ParsedNft(snd, rcv, args)
  {
    if |args| < NFT_MIN_ARGS {
      return Err(NotEnoughArguments);
    }
    var receiver := rcv;
    if snd == rcv {
      receiver := args[3];
    }
    var func, callArgs := ParseCall(args, NFT_MIN_ARGS);
    var transfers := new Parsed[1](_ => NOTHING);
    transfers[0] := Parsed(args[0], NonFungible, U64(SetBytes(args[1])), SetBytes(args[2]));
    assert transfers[..] == [transfers[0]];
    return Ok(ParsedTransfers(transfers[..], receiver, func, callArgs));
  }

  method ParseFungible(rcv: Addr, args: seq<bytes>) returns (r: Result<ParsedTransfers>)
    ensures r == ParsedFungible(rcv, args)
  {
    if |args| < 2 {
      return Err(NotEnoughArguments);
    }
    var func, callArgs := ParseCall(args, 2);
    var transfers := new Parsed[1](_ => NOTHING);
    transfers[0] := Parsed(args[0], Fungible, 0, SetBytes(args[1]));
    assert transfers[..] == [transfers[0]];
    return Ok(ParsedTransfers(transfers[..], rcv, func, callArgs));
  }

  /** A Go slice has fewer than 2^64 entries. */
  method ParseDCDTTransfers(cfg: Config, snd: Addr, rcv: Addr, func: bytes, args: seq<bytes>)
    returns (r: Result<ParsedTransfers>)
    requires |args| < TWO64
    ensures r == ParseTransfers(cfg, snd, rcv, func, args)
  {
    if func == FUNGIBLE_TRANSFER {
      r := ParseFungible(rcv, args);
    } else if func == NFT_TRANSFER {
      r := ParseNft(snd, rcv, args);
    } else if func == MULTI_TRANSFER {
      r := ParseMulti(cfg, rcv, args);
    } else {
      r := Err(NotTransferInput);
    }
  }

  // ----- agreement with the built-in functions -----

  /** The items a multi transfer debits on the sender's shard, as the parser would report them. */
  function SenderItems(args: seq<bytes>, n: nat): (r: seq<Parsed>)
    requires 3 * n + 2 <= |args|
    ensures |r| == n
  {
    seq(n, i requires 0 <= i < n =>
      var item := ItemAt(args, 2, i); Parsed(item.token, TypeOf(item.nonce), item.nonce, item.value))
  }

  /** The items a multi transfer credits on the receiver's shard: the amount is the decoded token's. */
  function ReceiverItems(cfg: Config, args: seq<bytes>, n: nat): (r: seq<Parsed>)
    requires 3 * n + 1 <= |args|
    requires forall i :: 0 <= i < n ==> DecodeItem(cfg, args, i).Ok?
    ensures |r| == n
  {
    seq(n, i requires 0 <= i < n =>
      var x := DecodeItem(cfg, args, i).value; Parsed(x.item.token, TypeOf(x.item.nonce), x.item.nonce, x.tok.value))
  }

  lemma {:induction false} ParsesSenderItems(cfg: Config, args: seq<bytes>, n: nat, i: nat)
    requires i <= n && 3 * n + 2 <= |args|
    ensures ParsedFrom(cfg, args, 2, n, i, true) == Ok(SenderItems(args, n)[i..])
    decreases n - i
  {
    var items := SenderItems(args, n);
    if i < n {
      ParsesSenderItems(cfg, args, n, i + 1);
      assert items[i..] == [items[i]] + items[i + 1..];
    } else {
      assert items[i..] == [];
    }
  }

  lemma {:induction false} ParsesReceiverItems(cfg: Config, args: seq<bytes>, n: nat, i: nat)
    requires i <= n && 3 * n + 1 <= |args|
    requires forall k :: 0 <= k < n ==> DecodeItem(cfg, args, k).Ok?
    ensures ParsedFrom(cfg, args, 1, n, i, false) == Ok(ReceiverItems(cfg, args, n)[i..])
    decreases n - i
  {
    var items := ReceiverItems(cfg, args, n);
    if i < n {
      ParsesReceiverItems(cfg, args, n, i + 1);
      assert items[i..] == [items[i]] + items[i + 1..];
    } else {
      assert items[i..] == [];
    }
  }

  lemma ListParses(
    cfg: Config, args: seq<bytes>, start: nat, n: uint64, atSender: bool, receiver: Addr, items: seq<Parsed>)
    requires |args| >= U64(3 * n + start) && |args| >= 3 * n + start
    requires ParsedFrom(cfg, args, start, n, 0, atSender) == Ok(items)
    ensures ParsedList(cfg, args, start, n, atSender, receiver) == Ok(WithCall(items, receiver, args[3 * n + start..]))
  {
  }

  lemma ParsesAllSenderItems(cfg: Config, args: seq<bytes>, n: nat)
    requires 3 * n + 2 <= |args|
    ensures ParsedFrom(cfg, args, 2, n, 0, true) == Ok(SenderItems(args, n))
  {
    ParsesSenderItems(cfg, args, n, 0);
    assert SenderItems(args, n)[0..] == SenderItems(args, n);
  }

  lemma ParsesAllReceiverItems(cfg: Config, args: seq<bytes>, n: nat)
    requires 3 * n + 1 <= |args| && forall k :: 0 <= k < n ==> DecodeItem(cfg, args, k).Ok?
    ensures ParsedFrom(cfg, args, 1, n, 0, false) == Ok(ReceiverItems(cfg, args, n))
  {
    ParsesReceiverItems(cfg, args, n, 0);
    assert ReceiverItems(cfg, args, n)[0..] == ReceiverItems(cfg, args, n);
  }

  /** Which of the two shapes the parser takes the arguments for. */
  lemma MultiIsList(cfg: Config, rcv: Addr, args: seq<bytes>)
    requires |args| >= 4
    ensures ParsedMulti(cfg, rcv, args) ==
            if LooksLikeAddress(args[0], rcv) then ParsedList(cfg, args, 2, U64(SetBytes(args[1])), true, args[0])
            else ParsedList(cfg, args, 1, U64(SetBytes(args[0])), false, rcv)
  {
  }

  lemma ParsesAsSender(cfg: Config, rcv: Addr, args: seq<bytes>, n: uint64)
    requires |args| >= 4 && LooksLikeAddress(args[0], rcv) && n == U64(SetBytes(args[1]))
    requires |args| >= U64(3 * n + 2) && |args| >= 3 * n + 2
    ensures ParsedMulti(cfg, rcv, args) == Ok(WithCall(SenderItems(args, n), args[0], args[3 * n + 2..]))
  {
    ParsesAllSenderItems(cfg, args, n);
    ListParses(cfg, args, 2, n, true, args[0], SenderItems(args, n));
    MultiIsList(cfg, rcv, args);
  }

  lemma ParsesAsReceiver(cfg: Config, rcv: Addr, args: seq<bytes>, n: uint64, items: seq<Parsed>)
    requires |args| >= 4 && !LooksLikeAddress(args[0], rcv) && n == U64(SetBytes(args[0]))
    requires |args| >= U64(3 * n + 1) && |args| >= 3 * n + 1
    requires ParsedFrom(cfg, args, 1, n, 0, false) == Ok(items)
    ensures ParsedMulti(cfg, rcv, args) == Ok(WithCall(items, rcv, args[3 * n + 1..]))
  {
    ListParses(cfg, args, 1, n, false, rcv, items);
    MultiIsList(cfg, rcv, args);
  }

  /** Whom the parser takes for the receiver. */
  lemma ReceiverReported(cfg: Config, rcv: Addr, args: seq<bytes>)
    ensures ParsedMulti(cfg, rcv, args).Ok? ==>
              |args| >= 4 &&
              ParsedMulti(cfg, rcv, args).value.receiver == if LooksLikeAddress(args[0], rcv) then args[0] else rcv
  {
  }

  lemma SenderChecks(cfg: Config, s: Shard, input: Input)
    requires |input.args| >= 4 && SendMulti(cfg, s, input).Ok?
    ensures var args := input.args; var n := U64(SetBytes(args[1]));
            && |args[0]| == |input.caller| && args[0] != input.caller
            && |args| >= U64(3 * n + 2) && |args| >= 3 * n + 2
  {
  }

  /** On the sender's shard the parser reports what a multi transfer debits, the receiver and the call,
      exactly when the receiver's address is no uint64. */
  lemma AgreesWithSender(cfg: Config, s: Shard, input: Input)
    requires |input.args| >= 4 && input.caller == input.recipient && SendMulti(cfg, s, input).Ok?
    ensures var args := input.args; var n := U64(SetBytes(args[1]));
            && 3 * n + 2 <= |args|
            && (ParseTransfers(cfg, input.caller, input.recipient, MULTI_TRANSFER, args)
                == Ok(WithCall(SenderItems(args, n), args[0], args[3 * n + 2..]))
                <==> SetBytes(args[0]) >= TWO64)
  {
    hide SendMulti, ParsedList;
    MultiNames();
    SenderChecks(cfg, s, input);
    ReceiverReported(cfg, input.recipient, input.args);
    if SetBytes(input.args[0]) >= TWO64 {
      ParsesAsSender(cfg, input.recipient, input.args, U64(SetBytes(input.args[1])));
    }
  }

  lemma MultiNames()
    ensures MULTI_TRANSFER != FUNGIBLE_TRANSFER && MULTI_TRANSFER != NFT_TRANSFER && NFT_TRANSFER != FUNGIBLE_TRANSFER
  {
    assert |MULTI_TRANSFER| == 20 && |NFT_TRANSFER| == 15 && |FUNGIBLE_TRANSFER| == 12;
  }

  lemma ReceiverChecks(cfg: Config, s: Shard, input: Input)
    requires |input.args| >= 4 && ReceiveMulti(cfg, s, input).Ok?
    ensures var args := input.args; var n := U64(SetBytes(args[0]));
            && |args| >= U64(3 * n + 1) && |args| >= 3 * n + 1
            && forall k :: 0 <= k < n ==> DecodeItem(cfg, args, k).Ok?
  {
    ReceivedDecode(cfg, s, input, U64(SetBytes(input.args[0])), 0);
    AllDecodeAt(cfg, input.args, 0, U64(SetBytes(input.args[0])));
  }

  /** On the receiver's shard the parser reports what a multi transfer credits unless the count passes
      for an address: then it takes that argument for the receiver, and is wrong unless it is the receiver's. */
  lemma AgreesWithReceiver(cfg: Config, s: Shard, input: Input)
    requires |input.args| >= 4 && input.caller != input.recipient && ReceiveMulti(cfg, s, input).Ok?
    ensures var args := input.args; var n := U64(SetBytes(args[0]));
            var r := ParseTransfers(cfg, input.caller, input.recipient, MULTI_TRANSFER, args);
            && 3 * n + 1 <= |args|
            && (forall i :: 0 <= i < n ==> DecodeItem(cfg, args, i).Ok?)
            && (!LooksLikeAddress(args[0], input.recipient) ==>
                  r == Ok(WithCall(ReceiverItems(cfg, args, n), input.recipient, args[3 * n + 1..])))
            && (LooksLikeAddress(args[0], input.recipient) && r.Ok? ==> r.value.receiver == args[0])
            && (LooksLikeAddress(args[0], input.recipient) && args[0] != input.recipient ==>
                  r != Ok(WithCall(ReceiverItems(cfg, args, n), input.recipient, args[3 * n + 1..])))
  {
    hide ReceiveMulti, ParsedList, ParsedMulti;
    MultiNames();
    ReceiverChecks(cfg, s, input);
    ReceiverReported(cfg, input.recipient, input.args);
    if !LooksLikeAddress(input.args[0], input.recipient) {
      var n := U64(SetBytes(input.args[0]));
      ParsesAllReceiverItems(cfg, input.args, n);
      ParsesAsReceiver(cfg, input.recipient, input.args, n, ReceiverItems(cfg, input.args, n));
    }
  }

  ghost predicate AllDecode(cfg: Config, args: seq<bytes>, i: nat, n: nat)
    requires 3 * n + 1 <= |args|
    decreases n - i
  {
    i < n ==> DecodeItem(cfg, args, i).Ok? && AllDecode(cfg, args, i + 1, n)
  }

  lemma {:induction false} AllDecodeAt(cfg: Config, args: seq<bytes>, i: nat, n: nat)
    requires 3 * n + 1 <= |args| && AllDecode(cfg, args, i, n)
    ensures forall k :: i <= k < n ==> DecodeItem(cfg, args, k).Ok?
    decreases n - i
  {
    if i < n {
      AllDecodeAt(cfg, args, i + 1, n);
    }
  }

  /** The state from which the rest of a successful loop succeeds. */
  lemma ReceivedNext(cfg: Config, s: Shard, input: Input, n: nat, i: nat) returns (s1: Shard)
    requires i < n && 3 * n + 1 <= |input.args| && ReceiveItems(cfg, s, input, n, i).Ok?
    ensures DecodeItem(cfg, input.args, i).Ok? && ReceiveItems(cfg, s1, input, n, i + 1).Ok?
  {
    s1 := ReceiveOne(cfg, s, input, DecodeItem(cfg, input.args, i).value).value;
  }

  lemma {:induction false} ReceivedDecode(cfg: Config, s: Shard, input: Input, n: nat, i: nat)
    requires i <= n && 3 * n + 1 <= |input.args|
    ensures ReceiveItems(cfg, s, input, n, i).Ok? ==> AllDecode(cfg, input.args, i, n)
    decreases n - i
  {
    hide ReceiveItems;
    if i < n && ReceiveItems(cfg, s, input, n, i).Ok? {
      var s1 := ReceivedNext(cfg, s, input, n, i);
      ReceivedDecode(cfg, s1, input, n, i + 1);
    }
  }

  /** The fungible transfer: where the receiver lives, the amount the parser reports is what its balance
      grows by; where the sender lives, what its balance falls by. */
  lemma AgreesWithFungible(cfg: Config, s: Shard, input: Input)
    requires FungibleTransfer(cfg, s, input).Ok? && input.caller != input.recipient
    ensures |input.args| >= FUNGIBLE_MIN_ARGS
    ensures var s1, r := FungibleTransfer(cfg, s, input).value,
                         ParseTransfers(cfg, input.caller, input.recipient, FUNGIBLE_TRANSFER, input.args);
            && r.Ok? && |r.value.transfers| == 1
            && r.value == WithCall(r.value.transfers, input.recipient, input.args[FUNGIBLE_MIN_ARGS..])
            && var x := r.value.transfers[0];
            && x.nonce == 0 && x.value > 0
            && (cfg.shardOf(input.recipient) == s.id ==>
                  Holding(s1, Slot(input.recipient, x.token)) == Holding(s, Slot(input.recipient, x.token)) + x.value)
            && (cfg.shardOf(input.caller) == s.id ==>
                  Holding(s1, Slot(input.caller, x.token)) == Holding(s, Slot(input.caller, x.token)) - x.value >= 0)
  {
    MultiNames();
    FungibleMoved(cfg, s, input, input.args[0], SetBytes(input.args[1]));
  }

  /** What a fungible transfer does to the balances of its parties. */
  lemma FungibleMoved(cfg: Config, s: Shard, input: Input, token: bytes, value: nat)
    requires FungibleTransfer(cfg, s, input).Ok? && input.caller != input.recipient
    requires |input.args| >= FUNGIBLE_MIN_ARGS && token == input.args[0] && value == SetBytes(input.args[1])
    ensures var s1 := FungibleTransfer(cfg, s, input).value;
            && value > 0
            && (cfg.shardOf(input.recipient) == s.id ==>
                  Holding(s1, Slot(input.recipient, token)) == Holding(s, Slot(input.recipient, token)) + value)
            && (cfg.shardOf(input.caller) == s.id ==>
                  Holding(s1, Slot(input.caller, token)) == Holding(s, Slot(input.caller, token)) - value >= 0)
  {
    hide AddToBalance;
    var debited := FungibleDebit(cfg, s, input, token, value);
    if cfg.shardOf(input.caller) == s.id {
      AddToBalanceWrites(cfg, s, input, input.caller, token, -(value as int));
    }
    if cfg.shardOf(input.recipient) == s.id {
      AddToBalanceWrites(cfg, debited.value, input, input.recipient, token, value);
    }
  }

  /** Messages are never misread: whatever list of transfers was sent, the parser reads from the text of
      the message the amounts sent, the receiver and the call. */
  lemma ParsesOwnMessages(cfg: Config, s: Shard, input: Input, dst: Addr, sent: seq<Sent>, gas: nat)
    requires Lawful(cfg) && CarriesItsValue(sent) && sent != []
    requires 3 * |sent| + 2 <= |input.args| < TWO64 && cfg.shardOf(dst) != s.id
    requires MultiOutput(cfg, s, input, dst, sent, gas).Ok?
    ensures var m := MultiOutput(cfg, s, input, dst, sent, gas).value.1.transfer;
            && m.Some?
            && var call := Parse(m.value.data);
            && call.Ok?
            && ParseTransfers(cfg, input.caller, dst, call.value.0, call.value.1)
               == Ok(WithCall(ParsedMoves(MovesOf(sent)), dst, input.args[3 * |sent| + 2..]))
  {
    var (s1, encoded, left) := EncodeItems(cfg, s, sent, dst, gas, 0).value;
    var call := input.args[3 * |sent| + 2..];
    var args := MultiArgs(sent, encoded, call);
    EncodeSpells(cfg, s, sent, dst, gas, 0);
    EncodeSameId(cfg, s, sent, dst, gas, 0);
    FunctionNames();
    MultiNames();
    ParsePrint(MULTI_TRANSFER, args);
    CountDecodes(|sent|, args);
    SetBytesToBytes(|sent|);
    ParsesSpelled(cfg, sent, encoded, call, dst);
  }

  function ParsedMoves(moves: seq<Move>): (r: seq<Parsed>)
    ensures |r| == |moves|
  {
    seq(|moves|, i requires 0 <= i < |moves| =>
      Parsed(moves[i].token, TypeOf(moves[i].nonce), moves[i].nonce, moves[i].value))
  }

  lemma SpelledDecode(cfg: Config, sent: seq<Sent>, encoded: seq<bytes>, call: seq<bytes>)
    requires Lawful(cfg) && Spells(cfg, encoded, sent, 0) && CarriesItsValue(sent)
    ensures var args := MultiArgs(sent, encoded, call);
            && |args| >= 3 * |sent| + 1
            && (forall i :: 0 <= i < |sent| ==> DecodeItem(cfg, args, i).Ok?)
            && ReceiverItems(cfg, args, |sent|) == ParsedMoves(MovesOf(sent))
  {
    var args := MultiArgs(sent, encoded, call);
    forall i | 0 <= i < |sent|
      ensures DecodeItem(cfg, args, i).Ok? && MoveOf(DecodeItem(cfg, args, i).value) == MovesOf(sent)[i]
    {
      DecodeAt(cfg, sent, encoded, call, i);
    }
  }

  lemma ParsesSpelled(cfg: Config, sent: seq<Sent>, encoded: seq<bytes>, call: seq<bytes>, rcv: Addr)
    requires Lawful(cfg) && Spells(cfg, encoded, sent, 0) && CarriesItsValue(sent) && sent != []
    requires |MultiArgs(sent, encoded, call)| < TWO64
    ensures ParsedMulti(cfg, rcv, MultiArgs(sent, encoded, call)) == Ok(WithCall(ParsedMoves(MovesOf(sent)), rcv, call))
  {
    var args, n := MultiArgs(sent, encoded, call), |sent|;
    CountDecodes(n, args);
    SetBytesToBytes(n);
    SpelledDecode(cfg, sent, encoded, call);
    ParsesAllReceiverItems(cfg, args, n);
    ParsesAsReceiver(cfg, rcv, args, n, ParsedMoves(MovesOf(sent)));
    assert args[3 * n + 1..] == call;
  }
}
