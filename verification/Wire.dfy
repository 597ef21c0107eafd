// The wire format of cross-shard transfers: what a message carries, and that it carries
// exactly what was debited.
module Wire {
  import opened Bytes
  import opened Wrappers
  import opened Ledger
  import opened Transfers
  import opened Totals
  import opened TxData

  /** A token amount as a message carries it. */
  datatype Move = Move(token: bytes, nonce: uint64, value: int)

  function MoveOf(x: Sent): Move {
    Move(x.item.token, x.item.nonce, x.tok.value)
  }

  // ----- reading a message -----

  function ReadItems(cfg: Config, args: seq<bytes>, n: nat, i: nat): Result<seq<Move>>
    requires i <= n && 3 * n + 1 <= |args|
    decreases n - i
  {
    if i == n then
      Ok([])
    else
      var x :- DecodeItem(cfg, args, i);
      Prepend([MoveOf(x)], ReadItems(cfg, args, n, i + 1))
  }

  /** The amounts of a multi-transfer message and the call that follows them. */
  function ReadMulti(cfg: Config, args: seq<bytes>): Result<(seq<Move>, seq<bytes>)>
    requires |args| >= 4
  {
    var n :- TransferCount(args, args[0], 1);
    var _ :- AllocateList(args, n, 1);
    var moves :- ReadItems(cfg, args, n, 0);
    Ok((moves, args[3 * n + 1..]))
  }

  /** Reading succeeds when every item decodes, and gives their amounts in order. */
  lemma {:induction false} ReadItemsAt(cfg: Config, args: seq<bytes>, n: nat, i: nat)
    requires i <= n && 3 * n + 1 <= |args|
    requires ReadItems(cfg, args, n, i).Ok?
    ensures var moves := ReadItems(cfg, args, n, i).value;
            && |moves| == n - i
            && forall j | i <= j < n ::
                 DecodeItem(cfg, args, j).Ok? && moves[j - i] == MoveOf(DecodeItem(cfg, args, j).value)
    decreases n - i
  {
    if i < n {
      ReadItemsAt(cfg, args, n, i + 1);
    }
  }

  /** The amount of a single-transfer message and the call that follows it. */
  function ReadNft(cfg: Config, args: seq<bytes>): Result<(seq<Move>, seq<bytes>)>
    requires |args| >= NFT_MIN_ARGS
  {
    var t :- NftPayload(cfg, args);
    Ok(([Move(args[0], U64(SetBytes(args[1])), t.value)], args[NFT_MIN_ARGS..]))
  }

  /** What a receiver reads from the data string of a message. */
  function ReadMessage(cfg: Config, data: bytes): Result<(seq<Move>, seq<bytes>)> {
    var (func, args) :- Parse(data);
    if |args| < 4 then Err(InvalidArguments)
    else if func == NFT_TRANSFER then ReadNft(cfg, args)
    else if func == MULTI_TRANSFER then ReadMulti(cfg, args)
    else Err(NotTransferInput)
  }

  // ----- what the sender writes -----

  ghost predicate PayloadOf(cfg: Config, payload: bytes, x: Sent) {
    || (payload == ToBytes(x.item.value) && (x.item.nonce == 0 || |payload| <= MAX_VALUE_LENGTH))
    || (payload == cfg.marshal(x.tok) && x.item.nonce > 0)
  }

  /** The three arguments at `p` spell the item `x`. */
  ghost predicate SpellsOne(cfg: Config, encoded: seq<bytes>, p: nat, x: Sent) {
    && p + 3 <= |encoded|
    && encoded[p] == x.item.token
    && encoded[p + 1] == NonceArg(x.item.nonce)
    && PayloadOf(cfg, encoded[p + 2], x)
  }

  /** `encoded` spells the items of `sent` from `i` on. */
  ghost predicate Spells(cfg: Config, encoded: seq<bytes>, sent: seq<Sent>, i: nat) {
    && i <= |sent|
    && |encoded| == 3 * (|sent| - i)
    && forall k :: i <= k < |sent| ==> SpellsOne(cfg, encoded, 3 * (k - i), sent[k])
  }

  lemma {:induction false} EncodeSpells(cfg: Config, s: Shard, sent: seq<Sent>, dst: Addr, gas: nat, i: nat)
    requires i <= |sent|
    requires EncodeItems(cfg, s, sent, dst, gas, i).Ok?
    ensures Spells(cfg, EncodeItems(cfg, s, sent, dst, gas, i).value.1, sent, i)
    decreases |sent| - i
  {
    if i < |sent| {
      var (s1, payload, left) := EncodePayload(cfg, s, sent[i], dst, gas).value;
      EncodeSpells(cfg, s1, sent, dst, left, i + 1);
      PayloadFits(cfg, s, sent[i], dst, gas);
      SpellsCons(cfg, payload, EncodeItems(cfg, s1, sent, dst, left, i + 1).value.1, sent, i);
    }
  }

  lemma SpellsShift(cfg: Config, first: seq<bytes>, rest: seq<bytes>, p: nat, x: Sent)
    requires |first| == 3 && SpellsOne(cfg, rest, p, x)
    ensures SpellsOne(cfg, first + rest, p + 3, x)
  {
    var all := first + rest;
    assert all[p + 3] == rest[p] && all[p + 4] == rest[p + 1] && all[p + 5] == rest[p + 2];
  }

  lemma SpellsCons(cfg: Config, payload: bytes, rest: seq<bytes>, sent: seq<Sent>, i: nat)
    requires i < |sent| && PayloadOf(cfg, payload, sent[i]) && Spells(cfg, rest, sent, i + 1)
    ensures Spells(cfg, [sent[i].item.token, NonceArg(sent[i].item.nonce), payload] + rest, sent, i)
  {
    var first := [sent[i].item.token, NonceArg(sent[i].item.nonce), payload];
    assert SpellsOne(cfg, first + rest, 0, sent[i]);
    forall k | i < k < |sent|
      ensures SpellsOne(cfg, first + rest, 3 * (k - i), sent[k])
    {
      SpellsShift(cfg, first, rest, 3 * (k - (i + 1)), sent[k]);
      assert 3 * (k - (i + 1)) + 3 == 3 * (k - i);
    }
  }

  lemma PayloadFits(cfg: Config, s: Shard, x: Sent, dst: Addr, gas: nat)
    requires EncodePayload(cfg, s, x, dst, gas).Ok?
    ensures PayloadOf(cfg, EncodePayload(cfg, s, x, dst, gas).value.1, x)
  {
  }

  /** Both payload forms decode to the amount sent; the marshalled form to the whole token. */
  lemma DecodeSpelled(cfg: Config, args: seq<bytes>, x: Sent, k: nat)
    requires Lawful(cfg) && 3 * k + 4 <= |args|
    requires args[3 * k + 1] == x.item.token && args[3 * k + 2] == NonceArg(x.item.nonce)
    requires PayloadOf(cfg, args[3 * k + 3], x)
    requires x.tok.value == x.item.value
    ensures var r := DecodeItem(cfg, args, k);
            && r.Ok?
            && MoveOf(r.value) == MoveOf(x)
            && (args[3 * k + 3] == cfg.marshal(x.tok) && x.item.nonce > 0 ==> r.value.tok == x.tok)
            && (|args[3 * k + 3]| <= MAX_VALUE_LENGTH ==> r.value.tok.meta.None?)
            && (x.item.nonce == 0 ==> r.value.tok.meta.None?)
  {
    NonceArgDecodes(x.item.nonce);
    SetBytesToBytes(x.item.value);
  }

  lemma NonceArgDecodes(nonce: uint64)
    ensures U64(SetBytes(NonceArg(nonce))) == nonce
  {
    SetBytesToBytes(nonce);
    U64Identity(nonce);
    assert SetBytes([0]) == 0 by {
      assert [0][..0] == [];
    }
  }

  /** The argument list of a multi-transfer message. */
  function MultiArgs(sent: seq<Sent>, encoded: seq<bytes>, call: seq<bytes>): seq<bytes> {
    [ToBytes(|sent|)] + encoded + call
  }

  function MovesOf(sent: seq<Sent>): (r: seq<Move>)
    ensures |r| == |sent|
  {
    seq(|sent|, i requires 0 <= i < |sent| => MoveOf(sent[i]))
  }

  ghost predicate CarriesItsValue(sent: seq<Sent>) {
    forall k :: 0 <= k < |sent| ==> sent[k].tok.value == sent[k].item.value
  }

  lemma DecodeAt(cfg: Config, sent: seq<Sent>, encoded: seq<bytes>, call: seq<bytes>, k: nat)
    requires Lawful(cfg) && Spells(cfg, encoded, sent, 0) && CarriesItsValue(sent)
    requires k < |sent|
    ensures var args := MultiArgs(sent, encoded, call);
            && |args| >= 3 * |sent| + 1
            && args[3 * k + 3] == encoded[3 * k + 2]
            && DecodeItem(cfg, args, k).Ok?
            && MoveOf(DecodeItem(cfg, args, k).value) == MoveOf(sent[k])
            && (encoded[3 * k + 2] == cfg.marshal(sent[k].tok) && sent[k].item.nonce > 0 ==>
                  DecodeItem(cfg, args, k).value.tok == sent[k].tok)
            && (|encoded[3 * k + 2]| <= MAX_VALUE_LENGTH || sent[k].item.nonce == 0 ==>
                  DecodeItem(cfg, args, k).value.tok.meta.None?)
  {
    var args := MultiArgs(sent, encoded, call);
    var x := sent[k];
    assert SpellsOne(cfg, encoded, 3 * (k - 0), x);
    assert args[3 * k + 1] == encoded[3 * k] && args[3 * k + 2] == encoded[3 * k + 1];
    assert args[3 * k + 3] == encoded[3 * k + 2];
    DecodeSpelled(cfg, args, x, k);
  }

  lemma ReadItemsStep(cfg: Config, args: seq<bytes>, n: nat, i: nat, x: Sent, rest: seq<Move>)
    requires i < n && 3 * n + 1 <= |args|
    requires DecodeItem(cfg, args, i) == Ok(x) && ReadItems(cfg, args, n, i + 1) == Ok(rest)
    ensures ReadItems(cfg, args, n, i) == Ok([MoveOf(x)] + rest)
  {
  }

  lemma {:induction false} ReadSpelled(cfg: Config, sent: seq<Sent>, encoded: seq<bytes>, call: seq<bytes>, i: nat)
    requires Lawful(cfg) && Spells(cfg, encoded, sent, 0) && CarriesItsValue(sent)
    requires i <= |sent|
    ensures ReadItems(cfg, MultiArgs(sent, encoded, call), |sent|, i) == Ok(MovesOf(sent)[i..])
    decreases |sent| - i
  {
    var moves := MovesOf(sent);
    if i < |sent| {
      hide ReadItems, DecodeItem;
      var args := MultiArgs(sent, encoded, call);
      DecodeAt(cfg, sent, encoded, call, i);
      ReadSpelled(cfg, sent, encoded, call, i + 1);
      ReadItemsStep(cfg, args, |sent|, i, DecodeItem(cfg, args, i).value, moves[i + 1..]);
      assert moves[i..] == [moves[i]] + moves[i + 1..];
    } else {
      assert moves[i..] == [];
    }
  }

  lemma CountDecodes(n: nat, args: seq<bytes>)
    requires 0 < n && 3 * n + 1 <= |args| < TWO64
    ensures TransferCount(args, ToBytes(n), 1) == Ok(n)
  {
    hide ToBytes, SetBytes;
    SetBytesToBytes(n);
    U64Identity(n);
    U64Identity(3 * n + 1);
  }

  lemma FunctionNames()
    ensures NFT_TRANSFER != [] && AT !in NFT_TRANSFER
    ensures MULTI_TRANSFER != [] && AT !in MULTI_TRANSFER
    ensures NFT_TRANSFER != MULTI_TRANSFER
  {
    assert forall i :: 0 <= i < |NFT_TRANSFER| ==> NFT_TRANSFER[i] == "DCDTNFTTransfer"[i] as int % 256;
    assert forall i :: 0 <= i < |MULTI_TRANSFER| ==> MULTI_TRANSFER[i] == "MultiDCDTNFTTransfer"[i] as int % 256;
  }

  /** Whatever the list of transfers, the receiver reads from the text of the emitted message the
      same tokens, nonces and amounts in the same order, and the same trailing call. */
  lemma MultiWireRoundTrip(cfg: Config, s: Shard, input: Input, dst: Addr, sent: seq<Sent>, gas: nat)
    requires Lawful(cfg) && CarriesItsValue(sent) && sent != []
    requires 3 * |sent| + 2 <= |input.args| < TWO64
    requires cfg.shardOf(dst) != s.id
    requires MultiOutput(cfg, s, input, dst, sent, gas).Ok?
    ensures var out := MultiOutput(cfg, s, input, dst, sent, gas).value.1;
            && out.transfer.Some? && out.transfer.value.recipient == dst && out.transfer.value.sender == input.caller
            && ReadMessage(cfg, out.transfer.value.data) == Ok((MovesOf(sent), input.args[3 * |sent| + 2..]))
  {
    var (s1, encoded, left) := EncodeItems(cfg, s, sent, dst, gas, 0).value;
    var call := input.args[3 * |sent| + 2..];
    var args := MultiArgs(sent, encoded, call);
    EncodeSpells(cfg, s, sent, dst, gas, 0);
    EncodeSameId(cfg, s, sent, dst, gas, 0);
    FunctionNames();
    ParsePrint(MULTI_TRANSFER, args);
    MultiArgsRead(cfg, sent, encoded, call);
  }

  lemma MultiArgsRead(cfg: Config, sent: seq<Sent>, encoded: seq<bytes>, call: seq<bytes>)
    requires Lawful(cfg) && Spells(cfg, encoded, sent, 0) && CarriesItsValue(sent) && sent != []
    requires |MultiArgs(sent, encoded, call)| < TWO64
    ensures var args := MultiArgs(sent, encoded, call);
            |args| >= 4 && ReadMulti(cfg, args) == Ok((MovesOf(sent), call))
  {
    var args := MultiArgs(sent, encoded, call);
    CountDecodes(|sent|, args);
    ReadSpelled(cfg, sent, encoded, call, 0);
    assert MovesOf(sent)[0..] == MovesOf(sent);
    assert args[3 * |sent| + 1..] == call;
  }

  lemma {:induction false} EncodeSameId(cfg: Config, s: Shard, sent: seq<Sent>, dst: Addr, gas: nat, i: nat)
    requires i <= |sent|
    requires EncodeItems(cfg, s, sent, dst, gas, i).Ok?
    ensures EncodeItems(cfg, s, sent, dst, gas, i).value.0.id == s.id
    ensures EncodeItems(cfg, s, sent, dst, gas, i).value.0.accounts == s.accounts
    decreases |sent| - i
  {
    if i < |sent| {
      var (s1, payload, left) := EncodePayload(cfg, s, sent[i], dst, gas).value;
      EncodeSameId(cfg, s1, sent, dst, left, i + 1);
    }
  }

  /** The single transfer: the token is marshalled unless the receiver's shard is known to have its
      metadata; the zero marker stands for the amount argument. */
  lemma NftWireRoundTrip(cfg: Config, s: Shard, input: Input, t: Token, gas: nat)
    requires Lawful(cfg) && |input.args| >= NFT_MIN_ARGS
    requires t.value == NftItem(input.args).value
    requires cfg.shardOf(input.args[3]) != s.id
    requires NftOutput(cfg, s, input, t, gas).Ok?
    ensures var out := NftOutput(cfg, s, input, t, gas).value.1;
            var item := NftItem(input.args);
            && out.transfer.Some? && out.transfer.value.recipient == input.args[3]
            && out.transfer.value.sender == input.caller
            && ReadMessage(cfg, out.transfer.value.data) ==
               Ok(([Move(item.token, item.nonce, t.value)], input.args[NFT_MIN_ARGS..]))
  {
    hide IsCallAfter, AlreadySent;
    var item, dst := NftItem(input.args), input.args[3];
    var (sent, s1) := AlreadySent(cfg, s, item.token, item.nonce, dst).value;
    AlreadySentWrites(cfg, s, item.token, item.nonce, dst);
    var payload := if !sent || t.value == 1 then cfg.marshal(t) else ZERO_PAYLOAD;
    var args := input.args[..3] + [payload] + input.args[4..];
    FunctionNames();
    ParsePrint(NFT_TRANSFER, args);
    assert |payload| > MAX_VALUE_LENGTH || payload == ZERO_PAYLOAD;
    assert args[NFT_MIN_ARGS..] == input.args[NFT_MIN_ARGS..];
    assert NftItem(args) == item;
  }

  /** A contract's fungible transfer to another shard arrives there with its own arguments. */
  lemma FungibleWireRoundTrip(cfg: Config, s: Shard, input: Input)
    requires |input.args| >= FUNGIBLE_MIN_ARGS
    requires IsSmartContract(input.caller) && cfg.shardOf(input.recipient) != s.id
    ensures var out := FungibleOutput(cfg, s, input);
            && out.transfer.Some? && out.transfer.value.recipient == input.recipient
            && Parse(out.transfer.value.data) == Ok((FUNGIBLE_TRANSFER, input.args))
  {
    assert FUNGIBLE_TRANSFER != [] && AT !in FUNGIBLE_TRANSFER by {
      assert forall i :: 0 <= i < |FUNGIBLE_TRANSFER| ==> FUNGIBLE_TRANSFER[i] == "DCDTTransfer"[i] as int % 256;
    }
    ParsePrint(FUNGIBLE_TRANSFER, input.args);
  }
}
