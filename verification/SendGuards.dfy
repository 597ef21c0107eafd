// Exactly when a token may be sent from the sender's shard.
module SendGuards {
  import opened Bytes
  import opened Wrappers
  import opened TokenId
  import opened Ledger
  import opened Transfers
  import opened Totals
  import opened Shapes
  import opened Bitmap
  import opened Payloads
  import opened Metadata
  import opened MetaMoves
  import opened Entries
  import opened Guards

  /** The caller has the amount and may save what is left. */
  ghost predicate MayDebit(cfg: Config, s: Shard, input: Input, item: Item) {
    var key, t := KeyOf(item.token, item.nonce), TokenAt(cfg, s, input.caller, item.token, item.nonce);
    && Slot(input.caller, key) in s.accounts && Holding(s, Slot(input.caller, key)) >= item.value
    && !Blocked(cfg, s, input, input.caller, item.token, item.nonce, t.properties)
    && Markable(cfg, s, input.caller, key, item.nonce, t.meta.Some?, false)
  }

  lemma DebitsExactly(cfg: Config, s: Shard, input: Input, item: Item)
    ensures Debit(cfg, s, input, item).Ok? <==> MayDebit(cfg, s, input, item)
  {
    hide SaveToken, KeyOf, Blocked, Markable;
    var t := TokenAt(cfg, s, input.caller, item.token, item.nonce);
    SavesExactly(cfg, s, input, input.caller, input.caller, item.token, item.nonce,
                 t.(value := t.value - item.value), false);
  }

  /** The receiver may take the sender's token, where it lives here; otherwise the liquidity covers what leaves. */
  ghost predicate MaySettle(cfg: Config, s: Shard, input: Input, dst: Addr, item: Item) {
    var key, t := KeyOf(item.token, item.nonce), TokenAt(cfg, s, input.caller, item.token, item.nonce);
    if cfg.shardOf(dst) == s.id then
      && MayReceive(cfg, s, input, dst, item.token, item.nonce)
      && !Blocked(cfg, s, input, dst, item.token, item.nonce, t.properties)
    else
      Covered(cfg, s, input.caller, key, item.nonce, t, false, -(item.value as int))
  }

  /** What a save of the caller's token leaves for its settlement. */
  lemma DebitLeaves(cfg: Config, s: Shard, s1: Shard, input: Input, dst: Addr, item: Item, t: Token, left: int)
    requires input.caller != dst && t == TokenAt(cfg, s, input.caller, item.token, item.nonce)
    requires Ok(s1) == SaveToken(cfg, s, input, input.caller, input.caller, item.token, item.nonce,
                                 t.(value := left), false)
    ensures s1.id == s.id
    ensures MayReceive(cfg, s1, input, dst, item.token, item.nonce) <==>
            MayReceive(cfg, s, input, dst, item.token, item.nonce)
    ensures Blocked(cfg, s1, input, dst, item.token, item.nonce, t.properties) <==>
            Blocked(cfg, s, input, dst, item.token, item.nonce, t.properties)
    ensures Markable(cfg, s1, input.caller, KeyOf(item.token, item.nonce), item.nonce, t.meta.Some?, false)
    ensures AddLiquidity(cfg, s1, item.token, item.nonce, -(item.value as int)).Ok? <==>
            Covered(cfg, s, input.caller, KeyOf(item.token, item.nonce), item.nonce, t, false, -(item.value as int))
  {
    hide SaveToken, KeyOf, Counting;
    SaveTokenWrites(cfg, s, input, input.caller, input.caller, item.token, item.nonce, t.(value := left), false);
    SavesExactly(cfg, s, input, input.caller, input.caller, item.token, item.nonce, t.(value := left), false);
    SavedEntry(cfg, s, input, input.caller, input.caller, item.token, item.nonce, t.(value := left), false);
    if cfg.saveToSystem && cfg.sendAlways && item.nonce > 0 {
      SaveStarts(cfg, s, input, input.caller, input.caller, item.token, item.nonce, t.(value := left), false);
      CountingIgnoresValue(cfg, s, input.caller, KeyOf(item.token, item.nonce), t, left);
    }
  }

  lemma CountingIgnoresValue(cfg: Config, s: Shard, a: Addr, key: bytes, t: Token, value: int)
    ensures Counting(cfg, s, a, key, t.(value := value), false) <==> Counting(cfg, s, a, key, t, false)
  {
  }

  /** A debit is settled exactly if it may be. */
  lemma SettlesExactly(cfg: Config, s: Shard, input: Input, dst: Addr, item: Item)
    requires input.caller != dst && cfg.shardOf(input.caller) == s.id && Debit(cfg, s, input, item).Ok?
    ensures var (s1, t) := Debit(cfg, s, input, item).value;
            Settle(cfg, s1, input, dst, item, t).Ok? <==> MaySettle(cfg, s, input, dst, item)
  {
    hide SaveToken, AddLiquidity, KeyOf, Blocked, Markable, MayReceive, Covered, TokenAt;
    var (s1, t1) := Debit(cfg, s, input, item).value;
    var t := TokenAt(cfg, s, input.caller, item.token, item.nonce);
    DebitShape(cfg, s, input, item);
    DebitLeaves(cfg, s, s1, input, dst, item, t, t.value - item.value);
    if cfg.shardOf(dst) == s.id {
      var sum := t1.(value := t1.value + TokenAt(cfg, s1, dst, item.token, item.nonce).value);
      ReceivesExactly(cfg, s1, input, dst, item.token, item.nonce);
      SavesExactly(cfg, s1, input, input.caller, dst, item.token, item.nonce, sum, false);
    }
    hide CheckFrozeAndPause;
  }

  /** One turn of a multi transfer succeeds exactly for a positive amount of a token that is not restricted. */
  lemma SendsOneExactly(cfg: Config, s: Shard, input: Input, dst: Addr, item: Item)
    requires input.caller != dst && cfg.shardOf(input.caller) == s.id
    ensures SendOne(cfg, s, input, dst, item).Ok? <==>
              && item.value > 0 && (input.returnAfterError || item.token !in input.restricted)
              && MayDebit(cfg, s, input, item) && MaySettle(cfg, s, input, dst, item)
  {
    hide Debit, Settle, MayDebit, MaySettle;
    DebitsExactly(cfg, s, input, item);
    if Debit(cfg, s, input, item).Ok? {
      SettlesExactly(cfg, s, input, dst, item);
    }
  }

  /** The token object a single transfer ends with: what leaves the shard, or the receiver's new balance. */
  function Settled(cfg: Config, s: Shard, input: Input, dst: Addr, item: Item): Token {
    var t := TokenAt(cfg, s, input.caller, item.token, item.nonce);
    if cfg.shardOf(dst) == s.id
    then t.(value := Holding(s, Slot(dst, KeyOf(item.token, item.nonce))) + item.value)
    else t.(value := item.value)
  }

  lemma SettledIs(cfg: Config, s: Shard, input: Input, dst: Addr, item: Item)
    requires input.caller != dst && cfg.shardOf(input.caller) == s.id && Debit(cfg, s, input, item).Ok?
    requires var (s1, t) := Debit(cfg, s, input, item).value; Settle(cfg, s1, input, dst, item, t).Ok?
    ensures var (s1, t) := Debit(cfg, s, input, item).value;
            var (s2, t2) := Settle(cfg, s1, input, dst, item, t).value;
            s2.id == s.id && t2 == Settled(cfg, s, input, dst, item)
  {
    hide SaveToken, AddLiquidity, KeyOf, TokenAt, Credit;
    var (s1, t1) := Debit(cfg, s, input, item).value;
    var t := TokenAt(cfg, s, input.caller, item.token, item.nonce);
    DebitShape(cfg, s, input, item);
    SaveTokenWrites(cfg, s, input, input.caller, input.caller, item.token, item.nonce,
                    t.(value := t.value - item.value), false);
    SettleSameShard(cfg, s1, input, dst, item, t1);
    if cfg.shardOf(dst) == s.id {
      CreditHereShape(cfg, s1, input, input.caller, dst, t1, item.token, item.nonce);
      HeldIs(cfg, s1, dst, item.token, item.nonce);
    } else {
      SettleFarShape(cfg, s1, input, dst, item, t1);
    }
  }

  /** The bytes of the token that leaves are paid for where it is spelled whole. */
  ghost predicate Affordable(cfg: Config, s: Shard, input: Input, dst: Addr, item: Item) {
    var t := Settled(cfg, s, input, dst, item);
    !Knows(cfg, s, KeyOf(item.token, item.nonce), dst) || t.value == 1 ==>
      U64(|cfg.marshal(t)| * cfg.copyGas) <= input.gasProvided - cfg.nftGas
  }

  lemma OutputsExactly(cfg: Config, s: Shard, input: Input, t: Token, gas: nat)
    requires Lawful(cfg) && |input.args| >= NFT_MIN_ARGS && NftItem(input.args).nonce > 0
    ensures var key, dst := KeyOf(input.args[0], NftItem(input.args).nonce), input.args[3];
            NftOutput(cfg, s, input, t, gas).Ok? <==>
              (!Knows(cfg, s, key, dst) || t.value == 1 ==> U64(|cfg.marshal(t)| * cfg.copyGas) <= gas)
  {
    var item, dst := NftItem(input.args), input.args[3];
    Answered(cfg, s, item.token, item.nonce, dst);
    AlreadySentExactly(cfg, s, item.token, item.nonce, dst, []);
    hide AlreadySent, Knows, SendOutput, KeyOf;
  }

  lemma Answered(cfg: Config, s: Shard, token: bytes, nonce: nat, dst: Addr)
    requires Lawful(cfg)
    ensures AlreadySent(cfg, s, token, nonce, dst).Ok?
  {
    assert cfg.shardOf(dst) < cfg.numShards || cfg.shardOf(dst) == META;
  }

  /** A single transfer succeeds on the sender's shard exactly if the sender has the amount of the token named,
      neither side is blocked, the destination is good, the token not restricted, the liquidity covers what leaves,
      and the gas covers the fee and the bytes that travel. */
  lemma SendsNftExactly(cfg: Config, s: Shard, input: Input)
    requires Lawful(cfg) && input.caller == input.recipient && |input.args| >= NFT_MIN_ARGS
    requires cfg.shardOf(input.caller) == s.id && (TracksMetaData(cfg) ==> Plain(s))
    ensures var item := Item(input.args[0], U64(SetBytes(input.args[1])), SetBytes(input.args[2]));
            NftTransfer(cfg, s, input).Ok? <==>
              && item.nonce > 0 && (cfg.checkTransfer ==> item.value > 0)
              && (cfg.consistentLengths ==> |input.args[2]| <= cfg.maxIssueLength)
              && GoodDestination(cfg, s, input, input.args[3])
              && (input.returnAfterError || item.token !in input.restricted)
              && MayDebit(cfg, s, input, item) && MaySettle(cfg, s, input, input.args[3], item)
              && input.gasProvided >= cfg.nftGas && Affordable(cfg, s, input, input.args[3], item)
  {
    hide Debit, Settle, NftOutput, MaySettle, Affordable, Settled, KeyOf, Knows;
    var item, dst := NftItem(input.args), input.args[3];
    DebitsExactly(cfg, s, input, item);
    if Debit(cfg, s, input, item).Ok? && dst != input.caller {
      SettlesExactly(cfg, s, input, dst, item);
      var (s1, t1) := Debit(cfg, s, input, item).value;
      if Settle(cfg, s1, input, dst, item, t1).Ok? && item.nonce > 0 && input.gasProvided >= cfg.nftGas {
        SettledAffordable(cfg, s, input, item);
      }
    }
    hide MayDebit;
  }

  lemma SettledAffordable(cfg: Config, s: Shard, input: Input, item: Item)
    requires Lawful(cfg) && |input.args| >= NFT_MIN_ARGS && item == NftItem(input.args) && item.nonce > 0
    requires cfg.shardOf(input.caller) == s.id && (TracksMetaData(cfg) ==> Plain(s)) && input.args[3] != input.caller
    requires Debit(cfg, s, input, item).Ok? && input.gasProvided >= cfg.nftGas
    requires var (s1, t) := Debit(cfg, s, input, item).value; Settle(cfg, s1, input, input.args[3], item, t).Ok?
    ensures var (s1, t1) := Debit(cfg, s, input, item).value;
            var (s2, t2) := Settle(cfg, s1, input, input.args[3], item, t1).value;
            NftOutput(cfg, s2, input, t2, input.gasProvided - cfg.nftGas).Ok? <==>
              Affordable(cfg, s, input, input.args[3], item)
  {
    hide Debit, Settle, NftOutput, Settled, KeyOf, Knows;
    var dst := input.args[3];
    var (s1, t1) := Debit(cfg, s, input, item).value;
    var (s2, t2) := Settle(cfg, s1, input, dst, item, t1).value;
    SettledIs(cfg, s, input, dst, item);
    if TracksMetaData(cfg) {
      MoveEntries(cfg, s, input, dst, item);
    }
    KnowsSame(cfg, s, s2, KeyOf(item.token, item.nonce), dst);
    OutputsExactly(cfg, s2, input, t2, input.gasProvided - cfg.nftGas);
  }
}
