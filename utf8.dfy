/**
 * UTF-8 as Python's strict `bytes.decode('utf-8')` accepts it: exactly the
 * byte sequences of the syntax in section 4 of RFC 3629 (no overlong forms,
 * no surrogates, nothing above U+10FFFF).
 *
 * `ValidUtf8` is that syntax written out; `DecodeUtf8` is an independent
 * arithmetic decoder; `EncodeUtf8` is the encoder. The lemmas show that the
 * decoder succeeds exactly on the grammar's sequences and that decoder and
 * encoder are inverse to each other.
 */
module Utf8 {
  import opened Wrappers
  import opened Transport

  predicate IsTail(b: Byte) {
    0x80 <= b <= 0xBF
  }

  /** The length of the well-formed character at the head of `bs`, following
      the UTF8-1 .. UTF8-4 rules of RFC 3629 section 4; 0 when there is none. */
  function WellFormedLength(bs: seq<Byte>): (n: nat)
    ensures n <= |bs| && n <= 4
  {
    if |bs| == 0 then 0
    else
      var b0 := bs[0];
      if b0 <= 0x7F then 1
      else if 0xC2 <= b0 <= 0xDF then
        if |bs| >= 2 && IsTail(bs[1]) then 2 else 0
      else if b0 == 0xE0 then
        if |bs| >= 3 && 0xA0 <= bs[1] <= 0xBF && IsTail(bs[2]) then 3 else 0
      else if 0xE1 <= b0 <= 0xEC || 0xEE <= b0 <= 0xEF then
        if |bs| >= 3 && IsTail(bs[1]) && IsTail(bs[2]) then 3 else 0
      else if b0 == 0xED then
        if |bs| >= 3 && 0x80 <= bs[1] <= 0x9F && IsTail(bs[2]) then 3 else 0
      else if b0 == 0xF0 then
        if |bs| >= 4 && 0x90 <= bs[1] <= 0xBF && IsTail(bs[2]) && IsTail(bs[3]) then 4 else 0
      else if 0xF1 <= b0 <= 0xF3 then
        if |bs| >= 4 && IsTail(bs[1]) && IsTail(bs[2]) && IsTail(bs[3]) then 4 else 0
      else if b0 == 0xF4 then
        if |bs| >= 4 && 0x80 <= bs[1] <= 0x8F && IsTail(bs[2]) && IsTail(bs[3]) then 4 else 0
      else 0
  }

  /** `bs` is a sequence of UTF8-char (the UTF8-octets rule of RFC 3629). */
  predicate ValidUtf8(bs: seq<Byte>)
    decreases |bs|
  {
    |bs| == 0 || (WellFormedLength(bs) > 0 && ValidUtf8(bs[WellFormedLength(bs)..]))
  }

  /** The value of a continuation byte's payload bits. */
  function Low6(b: Byte): int {
    b - 0x80
  }

  /** Decodes the character at the head of `bs` by its lead byte and code-point
      arithmetic, rejecting overlong forms, surrogates and values above U+10FFFF.
      Returns the character and the number of bytes it used. */
  function DecodeFirst(bs: seq<Byte>): (r: Option<(char, nat)>)
    ensures r.Some? ==> 1 <= r.value.1 <= |bs|
  {
    if |bs| == 0 then None
    else
      var b0 := bs[0];
      if b0 < 0x80 then Some((b0 as char, 1))
      else if b0 < 0xC0 then None
      else if b0 < 0xE0 then
        if |bs| < 2 || !IsTail(bs[1]) then None
        else
          var cp := (b0 - 0xC0) * 64 + Low6(bs[1]);
          if cp < 0x80 then None else Some((cp as char, 2))
      else if b0 < 0xF0 then
        if |bs| < 3 || !IsTail(bs[1]) || !IsTail(bs[2]) then None
        else
          var cp := ((b0 - 0xE0) * 64 + Low6(bs[1])) * 64 + Low6(bs[2]);
          if cp < 0x800 || (0xD800 <= cp <= 0xDFFF) then None else Some((cp as char, 3))
      else if b0 < 0xF8 then
        if |bs| < 4 || !IsTail(bs[1]) || !IsTail(bs[2]) || !IsTail(bs[3]) then None
        else
          var cp := (((b0 - 0xF0) * 64 + Low6(bs[1])) * 64 + Low6(bs[2])) * 64 + Low6(bs[3]);
          if cp < 0x10000 || cp > 0x10FFFF then None else Some((cp as char, 4))
      else None
  }

  /** Python's `payload.decode('utf-8')`: the text, or None where it raises
      UnicodeDecodeError. */
  function DecodeUtf8(bs: seq<Byte>): Option<string>
    decreases |bs|
  {
    if |bs| == 0 then Some([])
    else
      match DecodeFirst(bs)
      case None => None
      case Some((c, n)) =>
        match DecodeUtf8(bs[n..])
        case None => None
        case Some(rest) => Some([c] + rest)
  }

  /** The UTF-8 form of one character. */
  function EncodeChar(c: char): (r: seq<Byte>)
    ensures 1 <= |r| <= 4
  {
    var n := c as int;
    if n < 0x80 then [n]
    else if n < 0x800 then [0xC0 + n / 64, 0x80 + n % 64]
    else if n < 0x10000 then [0xE0 + n / 64 / 64, 0x80 + n / 64 % 64, 0x80 + n % 64]
    else [0xF0 + n / 64 / 64 / 64, 0x80 + n / 64 / 64 % 64, 0x80 + n / 64 % 64, 0x80 + n % 64]
  }

  /** Python's `text.encode('utf-8')`. */
  function EncodeUtf8(s: string): seq<Byte>
  {
    if |s| == 0 then [] else EncodeChar(s[0]) + EncodeUtf8(s[1..])
  }

  /** Splitting a number into a multiple of 64 and a remainder below 64. */
  lemma Split64(q: int, r: int)
    requires 0 <= q && 0 <= r < 64
    ensures (q * 64 + r) / 64 == q && (q * 64 + r) % 64 == r
  {
  }

  /** The arithmetic decoder accepts exactly the grammar's characters, and
      consumes as many bytes as the grammar's rule spans. */
  lemma DecodeFirstMatchesGrammar(bs: seq<Byte>)
    ensures DecodeFirst(bs).Some? <==> WellFormedLength(bs) > 0
    ensures DecodeFirst(bs).Some? ==> DecodeFirst(bs).value.1 == WellFormedLength(bs)
  {
    if |bs| > 0 {
      var b0 := bs[0];
      if 0xC0 <= b0 < 0xE0 && |bs| >= 2 && IsTail(bs[1]) {
        assert (b0 - 0xC0) * 64 + Low6(bs[1]) < 0x80 <==> b0 < 0xC2;
      } else if 0xE0 <= b0 < 0xF0 && |bs| >= 3 && IsTail(bs[1]) && IsTail(bs[2]) {
        var hi := (b0 - 0xE0) * 64 + Low6(bs[1]);
        assert hi * 64 + Low6(bs[2]) < 0x800 <==> hi < 0x20;
        assert 0xD800 <= hi * 64 + Low6(bs[2]) <= 0xDFFF <==> 0x360 <= hi < 0x380;
      } else if 0xF0 <= b0 < 0xF8 && |bs| >= 4 && IsTail(bs[1]) && IsTail(bs[2]) && IsTail(bs[3]) {
        var hi := (b0 - 0xF0) * 64 + Low6(bs[1]);
        var cp := (hi * 64 + Low6(bs[2])) * 64 + Low6(bs[3]);
        assert cp < 0x10000 <==> hi < 0x10;
        assert cp > 0x10FFFF <==> hi >= 0x110;
      }
    }
  }

  /** Decoding succeeds exactly on the byte sequences RFC 3629 calls UTF-8. */
  lemma {:induction false} DecodeSucceedsIffValid(bs: seq<Byte>)
    ensures DecodeUtf8(bs).Some? <==> ValidUtf8(bs)
    decreases |bs|
  {
    if |bs| > 0 {
      DecodeFirstMatchesGrammar(bs);
      if DecodeFirst(bs).Some? {
        DecodeSucceedsIffValid(bs[WellFormedLength(bs)..]);
      }
    }
  }

  /** The decoder reads back the character the encoder wrote, whatever follows it. */
  lemma DecodeFirstOfEncoded(c: char, rest: seq<Byte>)
    ensures DecodeFirst(EncodeChar(c) + rest) == Some((c, |EncodeChar(c)|))
  {
    var n := c as int;
    var bs := EncodeChar(c) + rest;
    if n < 0x80 {
    } else if n < 0x800 {
      Split64(n / 64, n % 64);
      assert (bs[0] - 0xC0) * 64 + Low6(bs[1]) == n;
    } else if n < 0x10000 {
      Split64(n / 64 / 64, n / 64 % 64);
      Split64(n / 64, n % 64);
      assert ((bs[0] - 0xE0) * 64 + Low6(bs[1])) * 64 + Low6(bs[2]) == n;
    } else {
      Split64(n / 64 / 64 / 64, n / 64 / 64 % 64);
      Split64(n / 64 / 64, n / 64 % 64);
      Split64(n / 64, n % 64);
      assert (((bs[0] - 0xF0) * 64 + Low6(bs[1])) * 64 + Low6(bs[2])) * 64 + Low6(bs[3]) == n;
    }
  }

  /** What the decoder accepted is exactly the encoding of the character it returned. */
  lemma EncodedOfDecodeFirst(bs: seq<Byte>)
    requires DecodeFirst(bs).Some?
    ensures bs[..DecodeFirst(bs).value.1] == EncodeChar(DecodeFirst(bs).value.0)
  {
    var b0 := bs[0];
    if b0 < 0x80 {
    } else if b0 < 0xE0 {
      Split64(b0 - 0xC0, Low6(bs[1]));
    } else if b0 < 0xF0 {
      var hi := (b0 - 0xE0) * 64 + Low6(bs[1]);
      Split64(hi, Low6(bs[2]));
      Split64(b0 - 0xE0, Low6(bs[1]));
    } else {
      var hi := (b0 - 0xF0) * 64 + Low6(bs[1]);
      var mid := hi * 64 + Low6(bs[2]);
      Split64(mid, Low6(bs[3]));
      Split64(hi, Low6(bs[2]));
      Split64(b0 - 0xF0, Low6(bs[1]));
    }
  }

  /** Encoding then decoding gives the text back: every text has a UTF-8 form. */
  lemma {:induction false} DecodeOfEncode(s: string)
    ensures DecodeUtf8(EncodeUtf8(s)) == Some(s)
    decreases |s|
  {
    if |s| > 0 {
      var head := EncodeChar(s[0]);
      var tail := EncodeUtf8(s[1..]);
      DecodeFirstOfEncoded(s[0], tail);
      assert (head + tail)[|head|..] == tail;
      DecodeOfEncode(s[1..]);
      assert [s[0]] + s[1..] == s;
    }
  }

  /** A successful decode is the first character followed by the decode of
      the rest. */
  lemma DecodeUtf8Step(bs: seq<Byte>)
    requires |bs| > 0 && DecodeUtf8(bs).Some?
    ensures DecodeFirst(bs).Some?
    ensures DecodeUtf8(bs[DecodeFirst(bs).value.1..]).Some?
    ensures DecodeUtf8(bs).value == [DecodeFirst(bs).value.0] + DecodeUtf8(bs[DecodeFirst(bs).value.1..]).value
  {
  }

  /** One step of a successful decode, named: `bs` is the encoding `head` of
      its first character followed by a shorter `tail` that decodes to
      `rest`. */
  lemma DecodeUtf8Split(bs: seq<Byte>) returns (head: seq<Byte>, tail: seq<Byte>, rest: string)
    requires |bs| > 0 && DecodeUtf8(bs).Some?
    ensures bs == head + tail && |tail| < |bs|
    ensures DecodeUtf8(tail) == Some(rest)
    ensures EncodeUtf8(DecodeUtf8(bs).value) == head + EncodeUtf8(rest)
  {
    DecodeUtf8Step(bs);
    var c, n := DecodeFirst(bs).value.0, DecodeFirst(bs).value.1;
    head, tail := bs[..n], bs[n..];
    rest := DecodeUtf8(tail).value;
    EncodedOfDecodeFirst(bs);
    var s := [c] + rest;
    assert s[1..] == rest;
  }

  /** Decoding then encoding gives the bytes back: the decoder loses nothing. */
  lemma {:induction false} EncodeOfDecode(bs: seq<Byte>)
    requires DecodeUtf8(bs).Some?
    ensures EncodeUtf8(DecodeUtf8(bs).value) == bs
    decreases |bs|
  {
    if |bs| > 0 {
      var head, tail, rest := DecodeUtf8Split(bs);
      EncodeOfDecode(tail);
    }
  }

  /** A byte sequence is valid UTF-8 exactly when it is the encoding of some text. */
  lemma ValidIffEncoding(bs: seq<Byte>)
    ensures ValidUtf8(bs) <==> exists s :: EncodeUtf8(s) == bs
  {
    DecodeSucceedsIffValid(bs);
    if ValidUtf8(bs) {
      EncodeOfDecode(bs);
    }
    forall s | EncodeUtf8(s) == bs
      ensures ValidUtf8(bs)
    {
      DecodeOfEncode(s);
    }
  }
}
