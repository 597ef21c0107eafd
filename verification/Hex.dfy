// `hex.EncodeToString` and `hex.DecodeString`: base16 (section 8 of RFC 4648), printed in
// lower case and read in either case.
module Hex {
  import opened Bytes
  import opened Wrappers

  function Digit(d: nat): byte
    requires d < 16
  {
    if d < 10 then '0' as int + d else 'a' as int + d - 10
  }

  function DigitValue(c: byte): (r: Option<nat>)
    ensures r.Some? ==> r.value < 16
  {
    if '0' as int <= c <= '9' as int then Some(c - '0' as int)
    else if 'a' as int <= c <= 'f' as int then Some(c - 'a' as int + 10)
    else if 'A' as int <= c <= 'F' as int then Some(c - 'A' as int + 10)
    else None
  }

  function Encode(s: bytes): (r: bytes)
    ensures |r| == 2 * |s|
  {
    if s == [] then [] else [Digit(s[0] / 16), Digit(s[0] % 16)] + Encode(s[1..])
  }

  function Decode(s: bytes): Result<bytes> {
    if s == [] then
      Ok([])
    else if |s| == 1 then
      Err(TokenizeFailed)
    else
      match (DigitValue(s[0]), DigitValue(s[1])) {
        case (Some(high), Some(low)) =>
          var rest :- Decode(s[2..]);
          Ok([high * 16 + low] + rest)
        case _ =>
          Err(TokenizeFailed)
      }
  }

  lemma {:induction false} DecodeEncode(s: bytes)
    ensures Decode(Encode(s)) == Ok(s)
  {
    if s != [] {
      DecodeEncode(s[1..]);
      assert Encode(s)[2..] == Encode(s[1..]);
      assert [s[0]] + s[1..] == s;
    }
  }

  /** The printed form consists of digits only, so it never holds a separator. */
  lemma {:induction false} EncodeIsDigits(s: bytes)
    ensures forall c :: c in Encode(s) ==> DigitValue(c).Some?
  {
    if s != [] {
      EncodeIsDigits(s[1..]);
    }
  }
}
