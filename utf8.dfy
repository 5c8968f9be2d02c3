/**
  Bytes and the UTF-8 encoding a script string goes through on its way to a print job:
  `Utf8Value()` yields the UTF-8 form of the string and the bytes are copied one for one.
  The decoder is not part of the program; it is the inverse that shows the encoding loses
  nothing.
*/
module Utf8 {
  import opened Wrappers

  type byte = b: int | 0 <= b < 256

  /** A continuation byte, 10xxxxxx. */
  predicate IsContinuation(b: byte) {
    0x80 <= b < 0xC0
  }

  /** The integers that are Unicode scalar values, that is, Dafny characters. */
  predicate IsScalar(cp: int) {
    (0 <= cp < 0xD800) || (0xE000 <= cp < 0x11_0000)
  }

  /** The one to four bytes of the UTF-8 form of one character. */
  function EncodeChar(c: char): (b: seq<byte>)
    ensures 1 <= |b| <= 4
    ensures (c as int < 0x80) <==> |b| == 1
    ensures |b| == 1 ==> b[0] == c as int
    ensures forall i :: 1 <= i < |b| ==> IsContinuation(b[i])
  {
    var n := c as int;
    if n < 0x80 then [n]
    else if n < 0x800 then [0xC0 + n / 0x40, 0x80 + n % 0x40]
    else if n < 0x1_0000 then [0xE0 + n / 0x1000, 0x80 + (n / 0x40) % 0x40, 0x80 + n % 0x40]
    else [0xF0 + n / 0x4_0000, 0x80 + (n / 0x1000) % 0x40, 0x80 + (n / 0x40) % 0x40, 0x80 + n % 0x40]
  }

  /** The UTF-8 form of a string, character after character. */
  function Encode(s: string): (b: seq<byte>)
    ensures |s| <= |b| <= 4 * |s|
  {
    if s == [] then [] else EncodeChar(s[0]) + Encode(s[1..])
  }

  /**
    The first character of a UTF-8 byte sequence and the number of bytes it takes. Overlong
    forms (a character written with more bytes than it needs) and surrogates are refused.
  */
  function DecodeFirst(b: seq<byte>): (r: Option<(char, nat)>)
    requires b != []
    ensures r.Some? ==> 1 <= r.value.1 <= |b|
  {
    var b0 := b[0];
    if b0 < 0x80 then
      Some((b0 as char, 1))
    else if 0xC0 <= b0 < 0xE0 && 2 <= |b| && IsContinuation(b[1]) then
      var cp := (b0 as int - 0xC0) * 0x40 + (b[1] as int - 0x80);
      if 0x80 <= cp then Some((cp as char, 2)) else None
    else if 0xE0 <= b0 < 0xF0 && 3 <= |b| && IsContinuation(b[1]) && IsContinuation(b[2]) then
      var cp := (b0 as int - 0xE0) * 0x1000 + (b[1] as int - 0x80) * 0x40 + (b[2] as int - 0x80);
      if 0x800 <= cp && IsScalar(cp) then Some((cp as char, 3)) else None
    else if 0xF0 <= b0 < 0xF8 && 4 <= |b| && IsContinuation(b[1]) && IsContinuation(b[2]) && IsContinuation(b[3]) then
      var cp := (b0 as int - 0xF0) * 0x4_0000 + (b[1] as int - 0x80) * 0x1000 + (b[2] as int - 0x80) * 0x40 + (b[3] as int - 0x80);
      if 0x1_0000 <= cp && IsScalar(cp) then Some((cp as char, 4)) else None
    else
      None
  }

  /** Decodes a whole byte sequence, or fails if it is not UTF-8. */
  function Decode(b: seq<byte>): Option<string>
    decreases |b|
  {
    if b == [] then Some([])
    else match DecodeFirst(b)
      case None => None
      case Some((c, n)) =>
        match Decode(b[n..])
        case None => None
        case Some(rest) => Some([c] + rest)
  }

  /** The leading character of an encoding is decoded back, whatever bytes follow it. */
  lemma DecodeFirstEncodeChar(c: char, rest: seq<byte>)
    ensures DecodeFirst(EncodeChar(c) + rest) == Some((c, |EncodeChar(c)|))
  {
    var n := c as int;
    var b := EncodeChar(c) + rest;
    if 0x1_0000 <= n {
      var q := n / 0x40;
      var p := q / 0x40;
      assert n == q * 0x40 + n % 0x40;
      assert q == p * 0x40 + q % 0x40;
      assert p == (p / 0x40) * 0x40 + p % 0x40;
      assert n / 0x1000 == p;
      assert n / 0x4_0000 == p / 0x40;
      assert (b[0] as int - 0xF0) * 0x4_0000 + (b[1] as int - 0x80) * 0x1000 + (b[2] as int - 0x80) * 0x40 + (b[3] as int - 0x80) == n;
    } else if 0x800 <= n {
      var q := n / 0x40;
      assert n == q * 0x40 + n % 0x40;
      assert q == (q / 0x40) * 0x40 + q % 0x40;
      assert n / 0x1000 == q / 0x40;
      assert (b[0] as int - 0xE0) * 0x1000 + (b[1] as int - 0x80) * 0x40 + (b[2] as int - 0x80) == n;
    } else if 0x80 <= n {
      assert (b[0] as int - 0xC0) * 0x40 + (b[1] as int - 0x80) == n;
    }
  }

  /** Round trip: decoding the UTF-8 form of a string gives the string back. */
  lemma {:induction false} DecodeEncode(s: string)
    ensures Decode(Encode(s)) == Some(s)
  {
    if s != [] {
      var head := EncodeChar(s[0]);
      var tail := Encode(s[1..]);
      DecodeFirstEncodeChar(s[0], tail);
      assert (head + tail)[|head|..] == tail;
      DecodeEncode(s[1..]);
      assert [s[0]] + s[1..] == s;
    }
  }

  /** The six payload bits of a continuation byte and the bits above them are recovered from the number they form. */
  lemma DivModOf(q: nat, r: nat)
    requires 0 <= r < 0x40
    ensures (q * 0x40 + r) / 0x40 == q
    ensures (q * 0x40 + r) % 0x40 == r
  {
  }

  /** A two-byte character accepted by the decoder is written in exactly those two bytes. */
  lemma TwoByteForm(b: seq<byte>)
    requires b != [] && DecodeFirst(b).Some? && DecodeFirst(b).value.1 == 2
    ensures b[..2] == EncodeChar(DecodeFirst(b).value.0)
  {
    var hi, lo := b[0] as int - 0xC0, b[1] as int - 0x80;
    DivModOf(hi, lo);
  }

  /** A three-byte character accepted by the decoder is written in exactly those three bytes. */
  lemma ThreeByteForm(b: seq<byte>)
    requires b != [] && DecodeFirst(b).Some? && DecodeFirst(b).value.1 == 3
    ensures b[..3] == EncodeChar(DecodeFirst(b).value.0)
  {
    var m := DecodeFirst(b).value.0 as int;
    var hi, mid, lo := b[0] as int - 0xE0, b[1] as int - 0x80, b[2] as int - 0x80;
    var q := hi * 0x40 + mid;
    assert m == q * 0x40 + lo;
    DivModOf(q, lo);
    DivModOf(hi, mid);
    assert m / 0x1000 == q / 0x40 by {
      assert m / 0x1000 == (m / 0x40) / 0x40;
    }
    assert EncodeChar(m as char) == [b[0], b[1], b[2]];
  }

  /** A four-byte character accepted by the decoder is written in exactly those four bytes. */
  lemma FourByteForm(b: seq<byte>)
    requires b != [] && DecodeFirst(b).Some? && DecodeFirst(b).value.1 == 4
    ensures b[..4] == EncodeChar(DecodeFirst(b).value.0)
  {
    var m := DecodeFirst(b).value.0 as int;
    var hi, b1, b2, lo := b[0] as int - 0xF0, b[1] as int - 0x80, b[2] as int - 0x80, b[3] as int - 0x80;
    var p := hi * 0x40 + b1;
    var q := p * 0x40 + b2;
    assert m == q * 0x40 + lo;
    DivModOf(q, lo);
    DivModOf(p, b2);
    DivModOf(hi, b1);
    assert m / 0x1000 == p by {
      assert m / 0x1000 == (m / 0x40) / 0x40;
    }
    assert m / 0x4_0000 == hi by {
      assert m / 0x4_0000 == (m / 0x1000) / 0x40;
    }
    assert EncodeChar(m as char) == [b[0], b[1], b[2], b[3]];
  }

  /** The bytes the decoder accepts for one character are exactly that character's UTF-8 form. */
  lemma DecodeFirstIsEncodeChar(b: seq<byte>)
    requires b != [] && DecodeFirst(b).Some?
    ensures var (c, n) := DecodeFirst(b).value;
            b[..n] == EncodeChar(c)
  {
    var n := DecodeFirst(b).value.1;
    if n == 2 {
      TwoByteForm(b);
    } else if n == 3 {
      ThreeByteForm(b);
    } else if n == 4 {
      FourByteForm(b);
    }
  }

  /** A successful decoding is its first character followed by the decoding of the rest. */
  lemma DecodeStep(b: seq<byte>)
    requires b != [] && Decode(b).Some?
    ensures DecodeFirst(b).Some?
    ensures Decode(b[DecodeFirst(b).value.1..]).Some?
    ensures Decode(b).value == [DecodeFirst(b).value.0] + Decode(b[DecodeFirst(b).value.1..]).value
  {
  }

  /** Round trip the other way: bytes the decoder accepts are the UTF-8 form of what it yields. */
  lemma {:induction false} EncodeDecode(b: seq<byte>)
    requires Decode(b).Some?
    ensures Encode(Decode(b).value) == b
    decreases |b|
  {
    if b != [] {
      DecodeStep(b);
      var n := DecodeFirst(b).value.1;
      DecodeFirstIsEncodeChar(b);
      EncodeDecode(b[n..]);
      ConsEncoding(DecodeFirst(b).value.0, Decode(b[n..]).value, b, n);
    }
  }

  /** Gluing the form of a first character to the form of the rest. */
  lemma ConsEncoding(c: char, rest: string, b: seq<byte>, n: nat)
    requires n <= |b| && b[..n] == EncodeChar(c) && Encode(rest) == b[n..]
    ensures Encode([c] + rest) == b
  {
    assert ([c] + rest)[1..] == rest;
    assert b == b[..n] + b[n..];
  }

  /** Overlong forms are refused: a NUL in two bytes, an 'A' in three. */
  lemma OverlongRefused()
    ensures Decode([0xC0, 0x80]) == None
    ensures DecodeFirst([0xE0, 0x81, 0x81]) == None
  {
  }

  /** Two strings with the same UTF-8 form are the same string. */
  lemma EncodeInjective(s: string, t: string)
    requires Encode(s) == Encode(t)
    ensures s == t
  {
    DecodeEncode(s);
    DecodeEncode(t);
  }

  /** A string of ASCII characters is copied byte for byte, one byte per character. */
  lemma {:induction false} AsciiOneForOne(s: string)
    requires forall i :: 0 <= i < |s| ==> s[i] as int < 0x80
    ensures |Encode(s)| == |s|
    ensures forall i :: 0 <= i < |s| ==> Encode(s)[i] == s[i] as int
  {
    if s != [] {
      AsciiOneForOne(s[1..]);
    }
  }
}
