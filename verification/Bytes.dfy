// Byte strings and the big-endian integers of math/big: `SetBytes`, `Bytes` and `Uint64`.
module Bytes {
  type byte = b: int | 0 <= b < 256

  type bytes = seq<byte>

  const TWO64 := 0x1_0000_0000_0000_0000

  type uint64 = n: int | 0 <= n < TWO64

  /** `big.Int.Uint64()` and every uint64 operation that may wrap. */
  function U64(n: int): uint64 {
    n % TWO64
  }

  lemma U64Identity(n: nat)
    ensures U64(n) == n <==> n < TWO64
  {
  }

  /** `big.NewInt(0).SetBytes(s)` */
  function SetBytes(s: bytes): nat {
    if s == [] then 0 else SetBytes(s[..|s| - 1]) * 256 + s[|s| - 1]
  }

  /** `n.Bytes()`: the shortest big-endian form; zero has no bytes. */
  function ToBytes(n: nat): bytes {
    if n == 0 then [] else ToBytes(n / 256) + [n % 256]
  }

  function Pow256(k: nat): nat {
    if k == 0 then 1 else 256 * Pow256(k - 1)
  }

  lemma {:induction false} SetBytesToBytes(n: nat)
    ensures SetBytes(ToBytes(n)) == n
  {
    if n > 0 {
      SetBytesToBytes(n / 256);
      var s := ToBytes(n);
      assert s[..|s| - 1] == ToBytes(n / 256);
    }
  }

  lemma {:induction false} NoLeadingZero(n: nat)
    requires n > 0
    ensures ToBytes(n) != [] && ToBytes(n)[0] != 0
  {
    if n >= 256 {
      NoLeadingZero(n / 256);
    } else {
      assert ToBytes(n / 256) == [];
    }
  }

  /** The length of the printed form counts base-256 digits. */
  lemma {:induction false} ToBytesLength(n: nat, k: nat)
    ensures |ToBytes(n)| <= k <==> n < Pow256(k)
  {
    if n > 0 && k > 0 {
      ToBytesLength(n / 256, k - 1);
    } else if n == 0 {
      Pow256Positive(k);
    }
  }

  lemma {:induction false} Pow256Positive(k: nat)
    ensures Pow256(k) > 0
  {
    if k > 0 {
      Pow256Positive(k - 1);
    }
  }

  lemma Uint64Length(n: nat)
    ensures |ToBytes(n)| <= 8 <==> n < TWO64
  {
    ToBytesLength(n, 8);
    assert Pow256(8) == TWO64 by {
      assert Pow256(4) == 0x1_0000_0000;
      assert Pow256(8) == 256 * 256 * 256 * 256 * Pow256(4);
    }
  }

  /** `[]byte(s)` for an ASCII literal. */
  function Ascii(s: string): (b: bytes)
    ensures |b| == |s|
  {
    seq(|s|, i requires 0 <= i < |s| => s[i] as int % 256)
  }
}
