/** Session tokens of a route (`generateSession`): ten random bytes written
    as lower-case hexadecimal, as Node's `Buffer.toString("hex")` does. The
    random source is a parameter; only the encoding is modelled. */
module Session {
  import opened Common

  newtype byte = x: int | 0 <= x < 256

  /** The number of random bytes behind one session token. */
  const SessionBytes := 10

  /** The lower-case hexadecimal digit for a nibble. */
  function HexChar(n: int): char
    requires 0 <= n < 16
  {
    if n < 10 then ('0' as int + n) as char else ('a' as int + n - 10) as char
  }

  predicate IsHexDigit(c: char) {
    '0' <= c <= '9' || 'a' <= c <= 'f'
  }

  /** The value of one lower-case hexadecimal digit. */
  function DigitValue(c: char): (v: Option<int>)
    ensures v.Some? <==> IsHexDigit(c)
    ensures v.Some? ==> 0 <= v.value < 16 && HexChar(v.value) == c
  {
    if '0' <= c <= '9' then Some(c as int - '0' as int)
    else if 'a' <= c <= 'f' then Some(c as int - 'a' as int + 10)
    else None
  }

  /** Two digits per byte, high nibble first. */
  function Hex(bytes: seq<byte>): (s: string)
    ensures |s| == 2 * |bytes|
    ensures forall i :: 0 <= i < |s| ==> IsHexDigit(s[i])
  {
    if |bytes| == 0 then ""
    else
      var b := bytes[0] as int;
      [HexChar(b / 16), HexChar(b % 16)] + Hex(bytes[1..])
  }

  /** Reads a hexadecimal string back into bytes; `None` on an odd length or
      a character that is not a lower-case hex digit. */
  function Unhex(s: string): Option<seq<byte>>
    decreases |s|
  {
    if |s| == 0 then Some([])
    else if |s| == 1 then None
    else
      match (DigitValue(s[0]), DigitValue(s[1]), Unhex(s[2..]))
      case (Some(hi), Some(lo), Some(rest)) => Some([(hi * 16 + lo) as byte] + rest)
      case _ => None
  }

  /** `generateSession`: the token made from the ten bytes the random source
      produced. */
  function GenerateSession(random: seq<byte>): (token: string)
    requires |random| == SessionBytes
    ensures |token| == 20
    ensures forall i :: 0 <= i < |token| ==> IsHexDigit(token[i])
    ensures Unhex(token) == Some(random)
  {
    HexRoundTrip(random);
    Hex(random)
  }

  /** Decoding the hex text gives the bytes back. */
  lemma {:induction false} HexRoundTrip(bytes: seq<byte>)
    ensures Unhex(Hex(bytes)) == Some(bytes)
  {
    if |bytes| > 0 {
      var b := bytes[0] as int;
      var hi, lo := b / 16, b % 16;
      var s := Hex(bytes);
      assert s[0] == HexChar(hi) && s[1] == HexChar(lo) && s[2..] == Hex(bytes[1..]);
      HexRoundTrip(bytes[1..]);
      assert DigitValue(s[0]) == Some(hi) && DigitValue(s[1]) == Some(lo);
      assert (hi * 16 + lo) as byte == bytes[0];
      assert Unhex(s) == Some([bytes[0]] + bytes[1..]);
      assert [bytes[0]] + bytes[1..] == bytes;
    }
  }

  /** Different random bytes never give the same token. */
  lemma HexInjective(a: seq<byte>, b: seq<byte>)
    requires Hex(a) == Hex(b)
    ensures a == b
  {
    HexRoundTrip(a);
    HexRoundTrip(b);
  }
}
