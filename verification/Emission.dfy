// The messages the sender-side functions emit: none for a receiver in the same shard, and for a
// receiver elsewhere one that reads as exactly the amounts debited.
module Emission {
  import opened Bytes
  import opened Wrappers
  import opened Ledger
  import opened Transfers
  import opened Shapes
  import opened Wire
  import opened Network

  /** What the sender's loop records of item `i`: the item of the arguments, with a positive amount,
      and for a receiver elsewhere a token object that carries this amount. */
  ghost predicate RecordsItem(cfg: Config, id: nat, args: seq<bytes>, dst: Addr, i: nat, x: Sent) {
    && 3 * i + 5 <= |args|
    && x.item == ItemAt(args, 2, i)
    && x.item.value > 0
    && (cfg.shardOf(dst) != id ==> x.tok.value == x.item.value)
  }

  lemma SendOneRecords(cfg: Config, s: Shard, input: Input, dst: Addr, i: nat)
    requires 3 * i + 5 <= |input.args|
    ensures var item := ItemAt(input.args, 2, i);
            var r := SendOne(cfg, s, input, dst, item);
            r.Ok? ==> r.value.0.id == s.id && RecordsItem(cfg, s.id, input.args, dst, i, Sent(item, r.value.1))
  {
    var item := ItemAt(input.args, 2, i);
    var debited := Debit(cfg, s, input, item);
    SendOneShape(cfg, s, input, dst, item);
    DebitShape(cfg, s, input, item);
    if debited.Ok? && Settle(cfg, debited.value.0, input, dst, item, debited.value.1).Ok? {
      SettleSameShard(cfg, debited.value.0, input, dst, item, debited.value.1);
      if cfg.shardOf(dst) != s.id {
        SettleFarShape(cfg, debited.value.0, input, dst, item, debited.value.1);
      }
    }
  }

  /** The records of the loop from item `i` on. */
  ghost predicate RecordsFrom(cfg: Config, id: nat, args: seq<bytes>, dst: Addr, i: nat, sent: seq<Sent>) {
    forall k :: 0 <= k < |sent| ==> RecordsItem(cfg, id, args, dst, i + k, sent[k])
  }

  lemma RecordsCons(cfg: Config, id: nat, args: seq<bytes>, dst: Addr, i: nat, x: Sent, rest: seq<Sent>)
    requires RecordsItem(cfg, id, args, dst, i, x) && RecordsFrom(cfg, id, args, dst, i + 1, rest)
    ensures RecordsFrom(cfg, id, args, dst, i, [x] + rest)
  {
    forall k | 0 < k < |rest| + 1
      ensures RecordsItem(cfg, id, args, dst, i + k, ([x] + rest)[k])
    {
      assert RecordsItem(cfg, id, args, dst, i + 1 + (k - 1), rest[k - 1]);
    }
  }

  ghost predicate LoopRecords(
    cfg: Config, id: nat, args: seq<bytes>, dst: Addr, i: nat, count: nat, r: Result<(Shard, seq<Sent>)>) {
    r.Ok? ==> r.value.0.id == id && |r.value.1| == count && RecordsFrom(cfg, id, args, dst, i, r.value.1)
  }

  lemma TurnRecords(
    cfg: Config, id: nat, args: seq<bytes>, dst: Addr, i: nat, count: nat, r: Result<(Shard, seq<Sent>)>, item: Item,
    one: Result<(Shard, Token)>, rest: Result<(Shard, seq<Sent>)>)
    requires Turn(r, item, one, rest)
    requires one.Ok? ==> RecordsItem(cfg, id, args, dst, i, Sent(item, one.value.1))
    requires one.Ok? ==> LoopRecords(cfg, id, args, dst, i + 1, count, rest)
    ensures LoopRecords(cfg, id, args, dst, i, count + 1, r)
  {
    if r.Ok? {
      RecordsCons(cfg, id, args, dst, i, Sent(item, one.value.1), rest.value.1);
    }
  }

  lemma {:induction false} SentRecords(cfg: Config, s: Shard, input: Input, dst: Addr, n: nat, i: nat)
    requires i <= n && 3 * n + 2 <= |input.args|
    ensures LoopRecords(cfg, s.id, input.args, dst, i, n - i, SendItems(cfg, s, input, dst, n, i))
    decreases n - i, 0
  {
    if i < n {
      var item := ItemAt(input.args, 2, i);
      var one := SendOne(cfg, s, input, dst, item);
      SendItemsStep(cfg, s, input, dst, n, i);
      SendOneRecords(cfg, s, input, dst, i);
      RestRecords(cfg, one, input, dst, n, i + 1);
      TurnRecords(cfg, s.id, input.args, dst, i, n - i - 1, SendItems(cfg, s, input, dst, n, i), item, one,
                  RestOf(cfg, one, input, dst, n, i + 1));
    }
  }

  lemma {:induction false} RestRecords(
    cfg: Config, one: Result<(Shard, Token)>, input: Input, dst: Addr, n: nat, i: nat)
    requires i <= n && 3 * n + 2 <= |input.args|
    ensures one.Ok? ==>
              LoopRecords(cfg, one.value.0.id, input.args, dst, i, n - i, RestOf(cfg, one, input, dst, n, i))
    decreases n - i, 1
  {
    if one.Ok? {
      SentRecords(cfg, one.value.0, input, dst, n, i);
    }
  }

  /** The amounts named by the arguments of a multi transfer. */
  function RequestedMoves(args: seq<bytes>, n: nat): (r: seq<Move>)
    requires 3 * n + 2 <= |args|
    ensures |r| == n
  {
    seq(n, i requires 0 <= i < n =>
      Move(args[3 * i + 2], U64(SetBytes(args[3 * i + 3])), SetBytes(args[3 * i + 4])))
  }

  function MoveOfItem(item: Item): Move {
    Move(item.token, item.nonce, item.value)
  }

  /** The message `m` reads as `moves`. */
  ghost predicate Reads(cfg: Config, m: Msg, moves: seq<Move>) {
    ReadMessage(cfg, m.data).Ok? && ReadMessage(cfg, m.data).value.0 == moves
  }

  /** From `src` to `dst` nothing is emitted inside the shard, and one message reading `moves` across. */
  ghost predicate EmitsMoves(cfg: Config, s: Shard, msgs: seq<Msg>, src: Addr, dst: Addr, moves: seq<Move>) {
    if cfg.shardOf(dst) == s.id then
      msgs == []
    else
      |msgs| == 1 && msgs[0].src == src && msgs[0].dst == dst && Reads(cfg, msgs[0], moves)
  }

  lemma OutputStaysHere(
    cfg: Config, s: Shard, input: Input, dst: Addr, func: bytes, callArgs: seq<bytes>, minArgs: nat, gas: nat)
    requires cfg.shardOf(dst) == s.id
    ensures Emitted(cfg, s, SendOutput(cfg, s, input, dst, func, callArgs, minArgs, gas)) == []
  {
  }

  lemma MultiOutputEmits(cfg: Config, s: Shard, s1: Shard, input: Input, dst: Addr, sent: seq<Sent>, gas: nat)
    requires Lawful(cfg) && sent != [] && 3 * |sent| + 2 <= |input.args| < TWO64 && s1.id == s.id
    requires RecordsFrom(cfg, s.id, input.args, dst, 0, sent)
    requires MultiOutput(cfg, s1, input, dst, sent, gas).Ok?
    ensures var (s2, out) := MultiOutput(cfg, s1, input, dst, sent, gas).value;
            && s2.id == s.id && s2.accounts == s1.accounts
            && EmitsMoves(cfg, s, Emitted(cfg, s, out), input.caller, dst, RequestedMoves(input.args, |sent|))
  {
    EncodeSameId(cfg, s1, sent, dst, gas, 0);
    if cfg.shardOf(dst) == s.id {
      var s2 := EncodeItems(cfg, s1, sent, dst, gas, 0).value.0;
      OutputStaysHere(cfg, s2, input, dst, MULTI_TRANSFER,
                      MultiArgs(sent, EncodeItems(cfg, s1, sent, dst, gas, 0).value.1, input.args[3 * |sent| + 2..]),
                      3 * |sent| + 2, EncodeItems(cfg, s1, sent, dst, gas, 0).value.2);
    } else {
      forall k | 0 <= k < |sent|
        ensures sent[k].tok.value == sent[k].item.value && MoveOf(sent[k]) == RequestedMoves(input.args, |sent|)[k]
      {
        assert RecordsItem(cfg, s.id, input.args, dst, 0 + k, sent[k]);
      }
      MultiWireRoundTrip(cfg, s1, input, dst, sent, gas);
      assert MovesOf(sent) == RequestedMoves(input.args, |sent|);
    }
  }

  lemma NftOutputEmits(cfg: Config, s: Shard, s1: Shard, input: Input, t: Token, gas: nat)
    requires Lawful(cfg) && |input.args| >= NFT_MIN_ARGS && s1.id == s.id
    requires cfg.shardOf(input.args[3]) != s.id ==> t.value == NftItem(input.args).value
    requires NftOutput(cfg, s1, input, t, gas).Ok?
    ensures var (s2, out) := NftOutput(cfg, s1, input, t, gas).value;
            && s2.id == s.id && s2.accounts == s1.accounts
            && EmitsMoves(cfg, s, Emitted(cfg, s, out), input.caller, input.args[3], [MoveOfItem(NftItem(input.args))])
  {
    if cfg.shardOf(input.args[3]) != s.id {
      NftWireRoundTrip(cfg, s1, input, t, gas);
    }
  }

  /** A sender-side single transfer. */
  lemma SendNftEmits(cfg: Config, s: Shard, input: Input)
    requires Lawful(cfg) && input.caller == input.recipient
    requires NftTransfer(cfg, s, input).Ok?
    ensures |input.args| >= NFT_MIN_ARGS
    ensures var (s1, out) := NftTransfer(cfg, s, input).value;
            && s1.id == s.id
            && EmitsMoves(cfg, s, Emitted(cfg, s, out), input.caller, input.args[3],
                          [Move(input.args[0], U64(SetBytes(input.args[1])), SetBytes(input.args[2]))])
  {
    var item, dst := NftItem(input.args), input.args[3];
    var debited := Debit(cfg, s, input, item);
    SendNftShape(cfg, s, input);
    DebitShape(cfg, s, input, item);
    var settled := Settle(cfg, debited.value.0, input, dst, item, debited.value.1);
    SettleSameShard(cfg, debited.value.0, input, dst, item, debited.value.1);
    if cfg.shardOf(dst) != s.id {
      SettleFarShape(cfg, debited.value.0, input, dst, item, debited.value.1);
    }
    NftOutputEmits(cfg, s, settled.value.0, input, settled.value.1, input.gasProvided - cfg.nftGas);
  }

  /** The emission of a sender-side function that moves `moves` to `dst`. */
  ghost predicate SendEmits(
    cfg: Config, s: Shard, r: Result<(Shard, VMOutput)>, src: Addr, dst: Addr, moves: seq<Move>)
  {
    r.Ok? ==> r.value.0.id == s.id && EmitsMoves(cfg, s, Emitted(cfg, s, r.value.1), src, dst, moves)
  }

  lemma SendAllEmits(cfg: Config, s: Shard, input: Input, dst: Addr, n: nat, gas: nat)
    requires Lawful(cfg) && 0 < n && 3 * n + 2 <= |input.args| < TWO64
    ensures SendEmits(cfg, s, SendAll(cfg, s, input, dst, n, gas), input.caller, dst, RequestedMoves(input.args, n))
  {
    var all := SendItems(cfg, s, input, dst, n, 0);
    SendAllShape(cfg, s, input, dst, n, gas);
    SentRecords(cfg, s, input, dst, n, 0);
    if all.Ok? && |all.value.1| == n && MultiOutput(cfg, all.value.0, input, dst, all.value.1, gas).Ok? {
      MultiOutputEmits(cfg, s, all.value.0, input, dst, all.value.1, gas);
    }
  }

  lemma SendMultiOutputEmits(cfg: Config, s: Shard, input: Input, n: nat)
    requires Lawful(cfg) && 4 <= |input.args| < TWO64 && n == U64(SetBytes(input.args[1]))
    requires SendMulti(cfg, s, input).Ok?
    ensures 3 * n + 2 <= |input.args|
    ensures SendEmits(cfg, s, SendMulti(cfg, s, input), input.caller, input.args[0], RequestedMoves(input.args, n))
  {
    hide SendMulti, SendAll;
    SendMultiChecks(cfg, s, input);
    SendAllEmits(cfg, s, input, input.args[0], n, input.gasProvided - U64(n * cfg.multiGas));
  }

  /** A sender-side multi transfer. */
  lemma SendMultiEmits(cfg: Config, s: Shard, input: Input)
    requires Lawful(cfg) && input.caller == input.recipient && |input.args| < TWO64
    requires MultiTransfer(cfg, s, input).Ok?
    ensures |input.args| >= 4 && 3 * U64(SetBytes(input.args[1])) + 2 <= |input.args|
    ensures var (s1, out) := MultiTransfer(cfg, s, input).value;
            && s1.id == s.id
            && EmitsMoves(cfg, s, Emitted(cfg, s, out), input.caller, input.args[0],
                          RequestedMoves(input.args, U64(SetBytes(input.args[1]))))
  {
    SendMultiOutputEmits(cfg, s, input, U64(SetBytes(input.args[1])));
  }
}
