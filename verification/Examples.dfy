// Calls that go through although they should not, or that mean something else to a reader: inputs for the
// limits that other modules state exactly.
module Examples {
  import opened Bytes
  import opened Wrappers
  import opened TokenId
  import opened Ledger
  import opened Transfers
  import opened Totals
  import opened Liquidity
  import opened Limits
  import opened Gas
  import opened TransferParser

  // ----- fungible coins of two accounts -----

  function Coins(n: nat): Token {
    Token(Fungible, n, [], None, [])
  }

  /** A shard where `a` holds `x` coins of the token and `b` holds `y`. */
  function Purses(id: nat, a: Addr, x: nat, b: Addr, y: nat, token: bytes): Shard {
    Shard(id, (if x > 0 then map[Slot(a, token) := Coins(x)] else map[])
              + (if y > 0 then map[Slot(b, token) := Coins(y)] else map[]), map[])
  }

  /** A call of `a` without special circumstances. */
  function PlainCall(a: Addr, recipient: Addr, args: seq<bytes>, gas: uint64): Input {
    Input(a, recipient, args, gas, 0, DirectCall, false, {}, {}, true, true, true)
  }

  /** Two accounts of one shard below the metachain. */
  predicate Neighbours(cfg: Config, a: Addr, b: Addr) {
    a != b && |a| == |b| && cfg.shardOf(a) == cfg.shardOf(b) != META
  }

  lemma CoinLeaves(cfg: Config, a: Addr, x: nat, b: Addr, y: nat, token: bytes, args: seq<bytes>, gas: uint64)
    requires Neighbours(cfg, a, b) && x > 0
    ensures var s, s1 := Purses(cfg.shardOf(a), a, x, b, y, token), Purses(cfg.shardOf(a), a, x - 1, b, y, token);
            Debit(cfg, s, PlainCall(a, a, args, gas), Item(token, 0, 1)) == Ok((s1, Coins(1)))
  {
    var id, input := cfg.shardOf(a), PlainCall(a, a, args, gas);
    var s, s1 := Purses(id, a, x, b, y, token), Purses(id, a, x - 1, b, y, token);
    assert KeyOf(token, 0) == token;
    assert (if x == 1 then Drop(s, Slot(a, token)) else Put(s, Slot(a, token), Coins(x - 1))).accounts == s1.accounts;
    assert SaveToken(cfg, s, input, a, a, token, 0, Coins(x - 1), false) == Ok(s1);
    hide SaveToken;
  }

  lemma CoinArrives(cfg: Config, a: Addr, x: nat, b: Addr, y: nat, token: bytes, args: seq<bytes>, gas: uint64)
    requires Neighbours(cfg, a, b)
    ensures var s, s1 := Purses(cfg.shardOf(a), a, x, b, y, token), Purses(cfg.shardOf(a), a, x, b, y + 1, token);
            Credit(cfg, s, PlainCall(a, a, args, gas), a, b, Coins(1), token, 0) == Ok((s1, Coins(y + 1)))
  {
    var id, input := cfg.shardOf(a), PlainCall(a, a, args, gas);
    var s, s1 := Purses(id, a, x, b, y, token), Purses(id, a, x, b, y + 1, token);
    assert KeyOf(token, 0) == token;
    assert TokenAt(cfg, s, b, token, 0) == if y > 0 then Coins(y) else EMPTY_TOKEN;
    assert Put(s, Slot(b, token), Coins(y + 1)).accounts == s1.accounts;
    assert SaveToken(cfg, s, input, a, b, token, 0, Coins(y + 1), false) == Ok(s1);
    hide SaveToken;
  }

  lemma OneCoin(cfg: Config, a: Addr, x: nat, b: Addr, y: nat, token: bytes, args: seq<bytes>, gas: uint64)
    requires Neighbours(cfg, a, b) && x > 0
    ensures var s, s1 := Purses(cfg.shardOf(a), a, x, b, y, token), Purses(cfg.shardOf(a), a, x - 1, b, y + 1, token);
            var r := SendOne(cfg, s, PlainCall(a, a, args, gas), b, Item(token, 0, 1));
            r.Ok? && r.value.0 == s1
  {
    hide Debit, Credit;
    CoinLeaves(cfg, a, x, b, y, token, args, gas);
    CoinArrives(cfg, a, x - 1, b, y, token, args, gas);
  }

  /** The items of the arguments are single coins. */
  ghost predicate AskForCoins(args: seq<bytes>, token: bytes, n: nat) {
    && |args| == 3 * n + 2
    && forall k :: 0 <= k < n ==> ItemAt(args, 2, k) == Item(token, 0, 1) && |args[3 * k + 4]| == 1
  }

  ghost predicate AllFungible(sent: seq<Sent>) {
    forall k :: 0 <= k < |sent| ==> sent[k].item.nonce == 0
  }

  lemma {:induction false} CoinsSent(
    cfg: Config, a: Addr, x: nat, b: Addr, y: nat, token: bytes, args: seq<bytes>, gas: uint64, n: nat, i: nat)
    requires Neighbours(cfg, a, b) && cfg.maxIssueLength >= 1 && AskForCoins(args, token, n) && i <= n && x >= n - i
    ensures var r := SendItems(cfg, Purses(cfg.shardOf(a), a, x, b, y, token), PlainCall(a, a, args, gas), b, n, i);
            r.Ok? && AllFungible(r.value.1) && r.value.0.id == cfg.shardOf(a)
    decreases n - i
  {
    hide SendOne;
    if i < n {
      OneCoin(cfg, a, x, b, y, token, args, gas);
      CoinsSent(cfg, a, x - 1, b, y + 1, token, args, gas, n, i + 1);
    }
  }

  lemma {:induction false} CoinsEncoded(cfg: Config, s: Shard, sent: seq<Sent>, dst: Addr, gas: nat, i: nat)
    requires AllFungible(sent) && i <= |sent|
    ensures var r := EncodeItems(cfg, s, sent, dst, gas, i); r.Ok? && r.value.0 == s && r.value.2 == gas
    decreases |sent| - i
  {
    if i < |sent| {
      CoinsEncoded(cfg, s, sent, dst, gas, i + 1);
    }
  }

  /** A multi transfer of `n` coins between neighbours goes through, and holds what the fee leaves. */
  lemma CoinsTransferred(cfg: Config, a: Addr, b: Addr, token: bytes, args: seq<bytes>, gas: uint64, n: uint64)
    requires Neighbours(cfg, a, b) && cfg.maxIssueLength >= 1 && AskForCoins(args, token, n)
    requires 0 < n == SetBytes(args[1]) && args[0] == b && |args| < TWO64 && gas >= U64(n * cfg.multiGas)
    ensures var r := SendMulti(cfg, Purses(cfg.shardOf(a), a, n, b, 0, token), PlainCall(a, a, args, gas));
            r.Ok? && GasIn(r.value.1) == gas - U64(n * cfg.multiGas)
  {
    hide SendItems, EncodeItems;
    var s, input := Purses(cfg.shardOf(a), a, n, b, 0, token), PlainCall(a, a, args, gas);
    var left := gas - U64(n * cfg.multiGas);
    U64Identity(n);
    U64Identity(3 * n + 2);
    CoinsSent(cfg, a, n, b, 0, token, args, gas, n, 0);
    var (s1, sent) := SendItems(cfg, s, input, b, n, 0).value;
    SentLength(cfg, s, input, b, n, 0);
    CoinsEncoded(cfg, s1, sent, b, left, 0);
    var callArgs := [ToBytes(|sent|)] + EncodeItems(cfg, s1, sent, b, left, 0).value.1 + args[3 * n + 2..];
    SendOutputGas(cfg, s1, input, b, MULTI_TRANSFER, callArgs, 3 * n + 2, left);
  }

  lemma OneByte(x: byte)
    ensures SetBytes([x]) == x
  {
    assert [x][..0] == [];
  }

  /** A call that is executed and that the parser refuses: the receiver's address is a small number, which
      the parser takes for the number of transfers. */
  lemma SmallAddressMisread(cfg: Config, a: Addr, b: Addr, token: bytes)
    requires Neighbours(cfg, a, b) && cfg.maxIssueLength >= 1 && SetBytes(b) == 5
    ensures var args := [b, [1], token, [], [1]];
            && SendMulti(cfg, Purses(cfg.shardOf(a), a, 1, b, 0, token), PlainCall(a, a, args, cfg.multiGas)).Ok?
            && ParseTransfers(cfg, a, a, MULTI_TRANSFER, args) == Err(NotEnoughArguments)
  {
    hide SendMulti;
    var args := [b, [1], token, [], [1]];
    MultiNames();
    OneByte(1);
    U64Identity(cfg.multiGas);
    assert ItemAt(args, 2, 0) == Item(token, 0, 1);
    CoinsTransferred(cfg, a, b, token, args, cfg.multiGas, 1);
  }

  /** Two transfers at a price of 2^63 each are free: the fee wraps to zero. */
  lemma FreeTransfers(cfg: Config, a: Addr, b: Addr, token: bytes)
    requires Neighbours(cfg, a, b) && cfg.maxIssueLength >= 1 && cfg.multiGas == 0x8000_0000_0000_0000
    ensures var input := PlainCall(a, a, [b, [2], token, [], [1], token, [], [1]], 0);
            var r := SendMulti(cfg, Purses(cfg.shardOf(a), a, 2, b, 0, token), input);
            r.Ok? && GasIn(r.value.1) == 0 == input.gasProvided && MultiFee(cfg, input) == TWO64
  {
    var args := [b, [2], token, [], [1], token, [], [1]];
    OneByte(1);
    OneByte(2);
    assert ItemAt(args, 2, 0) == Item(token, 0, 1) == ItemAt(args, 2, 1);
    assert AskForCoins(args, token, 2);
    CoinsTransferred(cfg, a, b, token, args, 0, 2);
  }

  /** A delivery that is executed and misread: the number of transfers is spelled as long as an address, and
      the parser takes it for the receiver. No message of the sender's side spells it so. */
  lemma CountMisread(cfg: Config, a: Addr, b: Addr, token: bytes)
    requires cfg.shardOf(a) != cfg.shardOf(b) && a != b && |b| == |ToBytes(TWO64 + 1)| && b != ToBytes(TWO64 + 1)
    ensures var args := [ToBytes(TWO64 + 1), token, [], [1]];
            var report := ParseTransfers(cfg, a, b, MULTI_TRANSFER, args);
            && MultiTransfer(cfg, Purses(cfg.shardOf(b), b, 0, a, 0, token), PlainCall(a, b, args, 0)).Ok?
            && (report.Ok? ==> report.value.receiver != b)
  {
    var count, s := ToBytes(TWO64 + 1), Purses(cfg.shardOf(b), b, 0, a, 0, token);
    var args := [count, token, [], [1]];
    var input := PlainCall(a, b, args, 0);
    SetBytesToBytes(TWO64 + 1);
    OneByte(1);
    assert U64(TWO64 + 1) == 1;
    var item := Sent(Item(token, 0, 1), Coins(1));
    assert DecodeItem(cfg, args, 0) == Ok(item);
    assert ReceiveOne(cfg, s, input, item).Ok?;
    var s1 := ReceiveOne(cfg, s, input, item).value;
    assert ReceiveItems(cfg, s1, input, 1, 1) == Ok(s1);
    assert ReceiveItems(cfg, s, input, 1, 0) == Ok(s1);
    AgreesWithReceiver(cfg, s, input);
  }

  // ----- a wiped NFT -----

  const SAMPLE := Ascii("ABC-123456")

  lemma SampleValid()
    ensures ValidToken(SAMPLE)
  {
    assert SAMPLE == [65, 66, 67, 45, 49, 50, 51, 52, 53, 54];
  }

  /** One account holds one frozen piece of the NFT with nonce 0x2D, and its entry counts it. */
  function FrozenPiece(id: nat, a: Addr): Shard {
    var meta := MetaData(0x2D, [], a, 0, [], [], []);
    var key := KeyOf(SAMPLE, 0x2D);
    Shard(id, map[Slot(a, key) := Token(NonFungible, 1, FreezeBytes(true), None, [])],
          map[key := Token(NonFungible, 1, [], Some(meta), [1])])
  }

  lemma FrozenPieceCounted(id: nat, a: Addr)
    ensures LiquidityInv(FrozenPiece(id, a))
  {
    var s := FrozenPiece(id, a);
    var slot := Slot(a, KeyOf(SAMPLE, 0x2D));
    assert HoldersOf(s, slot.key) == map[slot := 1];
    SumRemove(map[slot := 1], slot);
    assert map[slot := 1] - {slot} == map[];
    forall key | key != slot.key
      ensures Total(s, key) == 0
    {
      assert HoldersOf(s, key) == map[];
    }
  }

  /** Wiping the nonce 0x2D: its one byte is a dash, nothing is extracted, and the entry goes on counting a
      piece that nobody holds. */
  lemma DashNonce(cfg: Config, id: nat, a: Addr, gas: uint64)
    requires CountsLiquidity(cfg)
    ensures var s, input := FrozenPiece(id, a), PlainCall(cfg.dcdtSC, a, [KeyOf(SAMPLE, 0x2D)], gas);
            LiquidityInv(s) && Wipe(cfg, s, input).Ok? && !LiquidityInv(Wipe(cfg, s, input).value)
  {
    var s, input := FrozenPiece(id, a), PlainCall(cfg.dcdtSC, a, [KeyOf(SAMPLE, 0x2D)], gas);
    SampleValid();
    FrozenPieceCounted(id, a);
    assert ToBytes(0x2D) == ToBytes(0) + [0x2D] == [DASH];
    ExtractAfterToken(SAMPLE, [DASH]);
    WipeKeepsExactly(cfg, s, input, SAMPLE, 0x2D);
  }
}
