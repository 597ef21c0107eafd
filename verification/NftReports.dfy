// What the parser of transfer calls reports of single transfers, against what balances change by and what
// messages say.
module NftReports {
  import opened Bytes
  import opened Wrappers
  import opened TokenId
  import opened Ledger
  import opened Transfers
  import opened TxData
  import opened Wire
  import opened Totals
  import opened Shapes
  import opened MultiMoves
  import opened TransferParser

  /** What a single transfer says it moves. */
  function NftReport(args: seq<bytes>, receiver: Addr): ParsedTransfers
    requires |args| >= NFT_MIN_ARGS
  {
    var item := NftItem(args);
    WithCall([Parsed(item.token, NonFungible, item.nonce, item.value)], receiver, args[NFT_MIN_ARGS..])
  }

  /** The parser reads from the text of a single transfer's message what its arguments said. */
  lemma ParsesOwnNftMessage(cfg: Config, s: Shard, input: Input, t: Token, gas: nat)
    requires |input.args| >= NFT_MIN_ARGS && cfg.shardOf(input.args[3]) != s.id
    requires NftOutput(cfg, s, input, t, gas).Ok?
    ensures var m, dst := NftOutput(cfg, s, input, t, gas).value.1.transfer, input.args[3];
            && m.Some?
            && var call := Parse(m.value.data);
            && call.Ok? && call.value.0 == NFT_TRANSFER
            && (input.caller != dst ==>
                  ParseTransfers(cfg, input.caller, dst, call.value.0, call.value.1) == Ok(NftReport(input.args, dst)))
  {
    var item, dst := NftItem(input.args), input.args[3];
    var (sent, s1) := AlreadySent(cfg, s, item.token, item.nonce, dst).value;
    var payload := if !sent || t.value == 1 then cfg.marshal(t) else ZERO_PAYLOAD;
    var args := input.args[..3] + [payload] + input.args[4..];
    AlreadySentWrites(cfg, s, item.token, item.nonce, dst);
    hide AlreadySent, IsCallAfter;
    FunctionNames();
    MultiNames();
    ParsePrint(NFT_TRANSFER, args);
    assert args[NFT_MIN_ARGS..] == input.args[NFT_MIN_ARGS..];
    assert NftItem(args) == item;
  }

  /** The debit of a single transfer. */
  lemma NftDebited(cfg: Config, s: Shard, input: Input, s1: Shard, s2: Shard, t: Token, t2: Token)
    requires NonNegative(s) && |input.args| >= NFT_MIN_ARGS && cfg.shardOf(input.caller) == s.id
    requires input.caller != input.args[3]
    requires Debit(cfg, s, input, NftItem(input.args)) == Ok((s1, t))
    requires Settle(cfg, s1, input, input.args[3], NftItem(input.args), t) == Ok((s2, t2))
    ensures var item, dst := NftItem(input.args), input.args[3];
            var key := KeyOf(item.token, item.nonce);
            && s2.id == s.id
            && Holding(s2, Slot(input.caller, key)) == Holding(s, Slot(input.caller, key)) - item.value >= 0
            && (cfg.shardOf(dst) == s.id ==> Holding(s2, Slot(dst, key)) == Holding(s, Slot(dst, key)) + item.value)
  {
    hide Debit, Settle, SaveToken, AddLiquidity;
    var item, dst := NftItem(input.args), input.args[3];
    var before := TokenAt(cfg, s, input.caller, item.token, item.nonce);
    DebitShape(cfg, s, input, item);
    SettleSameShard(cfg, s1, input, dst, item, t);
    if cfg.shardOf(dst) == s.id {
      SettleMoves(cfg, s, s1, input, dst, item, t);
    } else {
      SettleFarShape(cfg, s1, input, dst, item, t);
      AddLiquidityWrites(cfg, s1, item.token, item.nonce, -(item.value as int));
      SaveTokenWrites(cfg, s, input, input.caller, input.caller, item.token, item.nonce,
                      before.(value := before.value - item.value), false);
    }
  }

  /** The single transfer on the sender's shard: the parser reports what the sender's balance falls by and,
      inside the shard, the receiver's grows by; across shards it reports the same from the message, and
      that is what the receiver's side reads as well. */
  lemma AgreesWithNft(cfg: Config, s: Shard, input: Input)
    requires NonNegative(s) && input.caller == input.recipient && cfg.shardOf(input.caller) == s.id
    requires NftTransfer(cfg, s, input).Ok?
    ensures |input.args| >= NFT_MIN_ARGS
    ensures var (s1, out) := NftTransfer(cfg, s, input).value;
            var item, dst := NftItem(input.args), input.args[3];
            var key, report := KeyOf(item.token, item.nonce), NftReport(input.args, dst);
            && ParseTransfers(cfg, input.caller, input.recipient, NFT_TRANSFER, input.args) == Ok(report)
            && report.transfers[0].value == Holding(s, Slot(input.caller, key)) - Holding(s1, Slot(input.caller, key))
            && (cfg.shardOf(dst) == s.id ==>
                  report.transfers[0].value == Holding(s1, Slot(dst, key)) - Holding(s, Slot(dst, key)))
            && (cfg.shardOf(dst) != s.id ==>
                  && out.transfer.Some? && Parse(out.transfer.value.data).Ok?
                  && var (func, args) := Parse(out.transfer.value.data).value;
                     && ParseTransfers(cfg, input.caller, dst, func, args) == Ok(report)
                     && (Lawful(cfg) ==>
                           ReadMessage(cfg, out.transfer.value.data) ==
                           Ok(([Move(item.token, item.nonce, report.transfers[0].value)], input.args[NFT_MIN_ARGS..]))))
  {
    MultiNames();
    SendNftShape(cfg, s, input);
    var item, dst := NftItem(input.args), input.args[3];
    var (s1, t) := Debit(cfg, s, input, item).value;
    var (s2, t2) := Settle(cfg, s1, input, dst, item, t).value;
    NftDebited(cfg, s, input, s1, s2, t, t2);
    AlreadySentWrites(cfg, s2, item.token, item.nonce, dst);
    if cfg.shardOf(dst) != s.id {
      ParsesOwnNftMessage(cfg, s2, input, t2, input.gasProvided - cfg.nftGas);
      DebitShape(cfg, s, input, item);
      SettleFarShape(cfg, s1, input, dst, item, t);
      if Lawful(cfg) {
        NftWireRoundTrip(cfg, s2, input, t2, input.gasProvided - cfg.nftGas);
      }
    }
  }

  /** A credit from another shard adds what the token carries. */
  lemma CreditGrows(cfg: Config, s: Shard, input: Input, snd: Addr, dst: Addr, t: Token, token: bytes, nonce: nat)
    requires NonNegative(s) && t.value >= 0 && cfg.shardOf(snd) != cfg.shardOf(dst)
    requires Credit(cfg, s, input, snd, dst, t, token, nonce).Ok?
    ensures var slot := Slot(dst, KeyOf(token, nonce));
            Holding(Credit(cfg, s, input, snd, dst, t, token, nonce).value.0, slot) == Holding(s, slot) + t.value
  {
    hide Credit, SaveToken, AddLiquidity;
    var sum := t.(value := t.value + TokenAt(cfg, s, dst, token, nonce).value);
    CreditFarShape(cfg, s, input, snd, dst, t, token, nonce);
    var saved := SaveToken(cfg, s, input, snd, dst, token, nonce, sum, false);
    SaveTokenWrites(cfg, s, input, snd, dst, token, nonce, sum, false);
    AddLiquidityWrites(cfg, saved.value, token, nonce, t.value);
  }

  /** The single transfer on the receiver's shard: the balance grows by the value of the payload. The parser
      reads the amount argument instead, which is the same for the zero marker and for every message of the
      sender's side (`AgreesWithNft`). */
  lemma AgreesWithNftReceiver(cfg: Config, s: Shard, input: Input)
    requires NonNegative(s) && input.caller != input.recipient && NftTransfer(cfg, s, input).Ok?
    ensures |input.args| >= NFT_MIN_ARGS && NftPayload(cfg, input.args).Ok?
    ensures var s1, value := NftTransfer(cfg, s, input).value.0, NftPayload(cfg, input.args).value.value;
            var item, report := NftItem(input.args), NftReport(input.args, input.recipient);
            var slot := Slot(input.recipient, KeyOf(item.token, item.nonce));
            && ParseTransfers(cfg, input.caller, input.recipient, NFT_TRANSFER, input.args) == Ok(report)
            && (value >= 0 ==> Holding(s1, slot) == Holding(s, slot) + value)
            && (input.args[3] == ZERO_PAYLOAD ==> report.transfers[0].value == Holding(s1, slot) - Holding(s, slot))
  {
    hide Credit;
    MultiNames();
    var item, t := NftItem(input.args), NftPayload(cfg, input.args).value;
    if t.value >= 0 {
      CreditGrows(cfg, s, input, input.caller, input.recipient, t, item.token, item.nonce);
    }
  }
}
