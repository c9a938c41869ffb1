/**
 * Python's `bytes.hex()`: two lowercase hexadecimal digits per byte, high
 * nibble first. `Unhex` is its inverse; together they show that the binary
 * fallback of the decoding cascade loses nothing.
 */
module HexRendering {
  import opened Wrappers
  import opened Transport

  predicate IsLowerHexDigit(c: char) {
    ('0' <= c <= '9') || ('a' <= c <= 'f')
  }

  function HexDigit(n: int): (c: char)
    requires 0 <= n < 16
    ensures IsLowerHexDigit(c)
  {
    if n < 10 then ('0' as int + n) as char else ('a' as int + n - 10) as char
  }

  function NibbleOf(c: char): Option<int> {
    if '0' <= c <= '9' then Some(c as int - '0' as int)
    else if 'a' <= c <= 'f' then Some(c as int - 'a' as int + 10)
    else None
  }

  /** `bs.hex()`. */
  function Hex(bs: seq<Byte>): (r: string)
    ensures |r| == 2 * |bs|
    ensures forall k :: 0 <= k < |r| ==> IsLowerHexDigit(r[k])
  {
    if |bs| == 0 then [] else [HexDigit(bs[0] / 16), HexDigit(bs[0] % 16)] + Hex(bs[1..])
  }

  /** Reads a lowercase hex rendering back into bytes; None on an odd length
      or a character that `bytes.hex()` never writes. */
  function Unhex(s: string): Option<seq<Byte>>
    decreases |s|
  {
    if |s| == 0 then Some([])
    else if |s| == 1 then None
    else
      match (NibbleOf(s[0]), NibbleOf(s[1]), Unhex(s[2..]))
      case (Some(hi), Some(lo), Some(rest)) => Some([hi * 16 + lo] + rest)
      case _ => None
  }

  lemma NibbleOfDigit(n: int)
    requires 0 <= n < 16
    ensures NibbleOf(HexDigit(n)) == Some(n)
  {
  }

  /** Reading back the rendering gives the bytes. */
  lemma {:induction false} UnhexOfHex(bs: seq<Byte>)
    ensures Unhex(Hex(bs)) == Some(bs)
    decreases |bs|
  {
    if |bs| > 0 {
      var s := Hex(bs);
      NibbleOfDigit(bs[0] / 16);
      NibbleOfDigit(bs[0] % 16);
      assert s[2..] == Hex(bs[1..]);
      UnhexOfHex(bs[1..]);
      assert [bs[0]] + bs[1..] == bs;
    }
  }

  /** Every string that reads back is the rendering of what it reads back to:
      `bytes.hex()` is a bijection onto the even-length lowercase hex strings. */
  lemma {:induction false} HexOfUnhex(s: string)
    requires Unhex(s).Some?
    ensures Hex(Unhex(s).value) == s
    decreases |s|
  {
    if |s| > 0 {
      var hi := NibbleOf(s[0]).value;
      var lo := NibbleOf(s[1]).value;
      HexOfUnhex(s[2..]);
      var b := hi * 16 + lo;
      assert b / 16 == hi && b % 16 == lo;
      assert HexDigit(hi) == s[0] && HexDigit(lo) == s[1];
      assert s == [s[0], s[1]] + s[2..];
    }
  }
}
