// Token identifiers (common.go), the storage keys built from them, and the extraction
// of an identifier and a nonce from a wipe argument (logsAndEvents.go).
module TokenId {
  import opened Bytes
  import opened Split

  const DASH: byte := 0x2D
  const RANDOM_LENGTH := 6

  predicate IsTickerChar(c: byte) {
    'A' as int <= c <= 'Z' as int || '0' as int <= c <= '9' as int
  }

  predicate IsRandomChar(c: byte) {
    'a' as int <= c <= 'f' as int || '0' as int <= c <= '9' as int
  }

  /** `ValidateToken`: 3 to 10 ticker characters, a dash, 6 random characters. */
  predicate ValidToken(t: bytes) {
    && 10 <= |t| <= 17
    && (forall i :: 0 <= i < |t| - 7 ==> IsTickerChar(t[i]))
    && t[|t| - 7] == DASH
    && (forall i :: |t| - 6 <= i < |t| ==> IsRandomChar(t[i]))
  }

  /** `computeDCDTNFTTokenKey`, without the constant prefix all keys share. */
  function KeyOf(token: bytes, nonce: nat): (key: bytes)
    ensures nonce == 0 ==> key == token
  {
    token + ToBytes(nonce)
  }

  /** Whatever follows them, two valid identifiers at the front of the same string are equal. */
  lemma TokenPrefixUnique(t1: bytes, s1: bytes, t2: bytes, s2: bytes)
    requires ValidToken(t1) && ValidToken(t2)
    requires t1 + s1 == t2 + s2
    ensures t1 == t2 && s1 == s2
  {
    var all := t1 + s1;
    assert t1 == all[..|t1|] && t2 == all[..|t2|];
    // the dash of the shorter one would be a ticker character of the longer one
    assert all[|t1| - 7] == DASH && all[|t2| - 7] == DASH;
    assert |t1| == |t2|;
    assert s1 == all[|t1|..] && s2 == all[|t2|..];
  }

  /** The key determines token and nonce, although nothing separates the two. */
  lemma KeyInjective(t1: bytes, n1: nat, t2: bytes, n2: nat)
    requires ValidToken(t1) && ValidToken(t2)
    ensures KeyOf(t1, n1) == KeyOf(t2, n2) <==> t1 == t2 && n1 == n2
  {
    if KeyOf(t1, n1) == KeyOf(t2, n2) {
      TokenPrefixUnique(t1, ToBytes(n1), t2, ToBytes(n2));
      SetBytesToBytes(n1);
      SetBytesToBytes(n2);
    }
  }

  /** Without validation a token argument can spell another token's NFT key. */
  lemma KeyAliasWithoutValidation()
    ensures ValidToken(Ascii("ABC-123456"))
    ensures !ValidToken(Ascii("ABC-123456") + [7])
    ensures KeyOf(Ascii("ABC-123456"), 7) == KeyOf(Ascii("ABC-123456") + [7], 0)
  {
    var t := Ascii("ABC-123456");
    assert t == [65, 66, 67, 45, 49, 50, 51, 52, 53, 54];
    assert ToBytes(7) == ToBytes(0) + [7] == [7];
    assert (t + [7])[|t + [7]| - 7] == 49;
  }

  /** `extractTokenIdentifierAndNonceDCDTWipe` */
  function ExtractWipe(arg: bytes): (bytes, uint64) {
    var parts := SplitAt(arg, DASH);
    if |parts| < 2 || |parts[1]| <= RANDOM_LENGTH then
      (arg, 0)
    else
      (parts[0] + [DASH] + parts[1][..RANDOM_LENGTH], U64(SetBytes(parts[1][RANDOM_LENGTH..])))
  }

  /** The bytes of `s` in front of its first dash. */
  function BeforeDash(s: bytes): (r: bytes)
    ensures r <= s && DASH !in r
    ensures r == s <==> DASH !in s
    ensures r != s ==> s[|r|] == DASH
  {
    if s == [] || s[0] == DASH then [] else [s[0]] + BeforeDash(s[1..])
  }

  /** What the extraction computes on a valid identifier followed by any bytes. */
  lemma ExtractAfterToken(t: bytes, s: bytes)
    requires ValidToken(t)
    ensures ExtractWipe(t + s) ==
            if BeforeDash(s) == [] then (t + s, 0) else (t, U64(SetBytes(BeforeDash(s))))
  {
    hide SetBytes;
    var ticker, random := t[..|t| - 7], t[|t| - 6..];
    assert t + s == ticker + [DASH] + (random + s);
    SplitFirst(ticker, random + s, DASH);
    var p := BeforeDash(s);
    if p == s {
      assert DASH !in random + s;
      SplitNoSeparator(random + s, DASH);
      assert SplitAt(t + s, DASH) == [ticker, random + p];
    } else {
      assert random + s == (random + p) + [DASH] + s[|p| + 1..];
      SplitFirst(random + p, s[|p| + 1..], DASH);
    }
    assert SplitAt(t + s, DASH)[1] == random + p;
    assert (random + p)[..RANDOM_LENGTH] == random && (random + p)[RANDOM_LENGTH..] == p;
    assert t == ticker + [DASH] + random;
  }

  lemma {:induction false} LongerIsLarger(a: bytes, b: bytes)
    requires b != [] && b[0] != 0
    ensures SetBytes(a + b) > SetBytes(a)
  {
    var front := b[..|b| - 1];
    assert (a + b)[..|a + b| - 1] == a + front;
    if front == [] {
      assert a + front == a;
    } else {
      LongerIsLarger(a, front);
    }
  }

  lemma BeforeDashSmaller(s: bytes)
    requires DASH in s
    ensures SetBytes(BeforeDash(s)) < SetBytes(s)
  {
    var p := BeforeDash(s);
    assert s == p + s[|p|..];
    LongerIsLarger(p, s[|p|..]);
  }

  /** The nonce the extraction reads from the bytes of `n`. */
  lemma NonceBeforeDash(n: uint64)
    requires n > 0
    ensures var r := BeforeDash(ToBytes(n));
            if DASH in ToBytes(n) then U64(SetBytes(r)) < n else r != [] && U64(SetBytes(r)) == n
  {
    SetBytesToBytes(n);
    var k := SetBytes(BeforeDash(ToBytes(n)));
    if DASH in ToBytes(n) {
      BeforeDashSmaller(ToBytes(n));
    }
    assert k <= n;
    U64Identity(k);
  }

  /** The extraction undoes the key exactly when no nonce byte is a dash; otherwise it gives
      up the nonce or reports a strictly smaller one. */
  lemma ExtractUndoesKey(t: bytes, n: uint64)
    requires ValidToken(t) && n > 0
    ensures ExtractWipe(KeyOf(t, n)) == (t, n) <==> DASH !in ToBytes(n)
    ensures DASH in ToBytes(n) ==>
              || ExtractWipe(KeyOf(t, n)) == (KeyOf(t, n), 0)
              || (ExtractWipe(KeyOf(t, n)).0 == t && ExtractWipe(KeyOf(t, n)).1 < n)
  {
    ExtractAfterToken(t, ToBytes(n));
    NonceBeforeDash(n);
  }
}
