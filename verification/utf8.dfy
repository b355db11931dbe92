/** Strict UTF-8, as `bytes.decode('utf-8')` and `str.encode('utf-8')` use it
    for the control-channel payload. Decoding fails (Python raises
    `UnicodeDecodeError`) on any ill-formed sequence: a stray continuation byte,
    a truncated sequence, an overlong form, a surrogate or a value above U+10FFFF. */
module Utf8 {
  import opened Base

  predicate IsContinuation(b: byte) {
    0x80 <= b < 0xC0
  }

  /** The range the second byte of a three- or four-byte sequence must fall in,
      which is what rules out overlong forms, surrogates and values above U+10FFFF. */
  function SecondLow(lead: byte): byte {
    if lead == 0xE0 then 0xA0 else if lead == 0xF0 then 0x90 else 0x80
  }

  function SecondHigh(lead: byte): byte {
    if lead == 0xED then 0x9F else if lead == 0xF4 then 0x8F else 0xBF
  }

  /** The first character of `b` and the number of bytes it takes, or None when
      `b` does not start with a well-formed sequence. */
  function DecodeFirst(b: seq<byte>): (r: Option<(char, nat)>)
    requires |b| > 0
    ensures r.Some? ==> 1 <= r.value.1 <= |b| && r.value.1 <= 4
  {
    var b0 := b[0] as int;
    if b0 < 0x80 then
      Some((b0 as char, 1))
    else if 0xC2 <= b0 < 0xE0 then
      if |b| >= 2 && IsContinuation(b[1]) then
        Some((((b0 - 0xC0) * 64 + (b[1] as int - 0x80)) as char, 2))
      else None
    else if 0xE0 <= b0 < 0xF0 then
      if |b| >= 3 && SecondLow(b[0]) <= b[1] <= SecondHigh(b[0]) && IsContinuation(b[2]) then
        Some((((b0 - 0xE0) * 4096 + (b[1] as int - 0x80) * 64 + (b[2] as int - 0x80)) as char, 3))
      else None
    else if 0xF0 <= b0 < 0xF5 then
      if |b| >= 4 && SecondLow(b[0]) <= b[1] <= SecondHigh(b[0])
         && IsContinuation(b[2]) && IsContinuation(b[3]) then
        Some((((b0 - 0xF0) * 262144 + (b[1] as int - 0x80) * 4096
               + (b[2] as int - 0x80) * 64 + (b[3] as int - 0x80)) as char, 4))
      else None
    else
      None
  }

  /** `b.decode('utf-8')`: None stands for `UnicodeDecodeError`. */
  function Decode(b: seq<byte>): (r: Option<string>)
    ensures r.Some? ==> |r.value| <= |b|
    decreases |b|
  {
    if b == [] then Some("")
    else match DecodeFirst(b)
      case None => None
      case Some((c, n)) =>
        match Decode(b[n..])
        case None => None
        case Some(rest) => Some([c] + rest)
  }

  function EncodeChar(c: char): (r: seq<byte>)
    ensures 1 <= |r| <= 4
  {
    var n := c as int;
    if n < 0x80 then [n as byte]
    else if n < 0x800 then [(0xC0 + n / 64) as byte, (0x80 + n % 64) as byte]
    else if n < 0x10000 then
      [(0xE0 + n / 4096) as byte, (0x80 + (n / 64) % 64) as byte, (0x80 + n % 64) as byte]
    else
      [(0xF0 + n / 262144) as byte, (0x80 + (n / 4096) % 64) as byte,
       (0x80 + (n / 64) % 64) as byte, (0x80 + n % 64) as byte]
  }

  /** `s.encode('utf-8')`. */
  function Encode(s: string): (r: seq<byte>)
    ensures |s| <= |r| <= 4 * |s|
  {
    if s == [] then [] else EncodeChar(s[0]) + Encode(s[1..])
  }

  /** A character of two encoded bytes decodes back from them. */
  lemma DecodeEncodeTwo(c: char, rest: seq<byte>)
    requires 0x80 <= c as int < 0x800
    ensures DecodeFirst(EncodeChar(c) + rest) == Some((c, 2))
  {
    var n := c as int;
    assert n == (n / 64) * 64 + n % 64;
  }

  /** A character of three encoded bytes decodes back from them; the second byte
      stays inside the range that excludes overlong forms and surrogates. */
  lemma DecodeEncodeThree(c: char, rest: seq<byte>)
    requires 0x800 <= c as int < 0x10000
    ensures DecodeFirst(EncodeChar(c) + rest) == Some((c, 3))
  {
    var n := c as int;
    var q := n / 64;
    assert n == q * 64 + n % 64;
    assert q == (n / 4096) * 64 + q % 64;
    assert n / 4096 == 0 ==> q % 64 >= 0x20;
    assert n / 4096 == 13 ==> q % 64 < 0x20;
  }

  /** A character of four encoded bytes decodes back from them; the second byte
      stays inside the range that excludes overlong forms and values above U+10FFFF. */
  lemma DecodeEncodeFour(c: char, rest: seq<byte>)
    requires 0x10000 <= c as int
    ensures DecodeFirst(EncodeChar(c) + rest) == Some((c, 4))
  {
    var n := c as int;
    var q := n / 64;
    var p := n / 4096;
    assert n == q * 64 + n % 64;
    assert q == p * 64 + q % 64;
    assert p == (n / 262144) * 64 + p % 64;
    assert n / 262144 == 0 ==> p % 64 >= 0x10;
    assert n / 262144 == 4 ==> p % 64 < 0x10;
  }

  lemma DecodeEncodeChar(c: char, rest: seq<byte>)
    ensures DecodeFirst(EncodeChar(c) + rest) == Some((c, |EncodeChar(c)|))
  {
    var n := c as int;
    if n < 0x80 {
    } else if n < 0x800 {
      DecodeEncodeTwo(c, rest);
    } else if n < 0x10000 {
      DecodeEncodeThree(c, rest);
    } else {
      DecodeEncodeFour(c, rest);
    }
  }

  /** Decoding undoes encoding: every string survives the trip through the socket. */
  lemma {:induction false} DecodeEncode(s: string)
    ensures Decode(Encode(s)) == Some(s)
  {
    if s != [] {
      var e := Encode(s);
      DecodeEncodeChar(s[0], Encode(s[1..]));
      assert e[|EncodeChar(s[0])|..] == Encode(s[1..]);
      DecodeEncode(s[1..]);
      assert [s[0]] + s[1..] == s;
    }
  }

  /** A well-formed two-byte sequence is the encoding of the character it decodes to. */
  lemma EncodeDecodeTwo(b: seq<byte>)
    requires |b| >= 2 && 0xC2 <= b[0] < 0xE0 && IsContinuation(b[1])
    ensures DecodeFirst(b).Some? && EncodeChar(DecodeFirst(b).value.0) == b[..2]
  {
    var n := (b[0] as int - 0xC0) * 64 + (b[1] as int - 0x80);
    assert n / 64 == b[0] as int - 0xC0 && n % 64 == b[1] as int - 0x80;
  }

  /** A well-formed three-byte sequence is the encoding of the character it decodes to. */
  lemma EncodeDecodeThree(b: seq<byte>)
    requires |b| >= 3 && 0xE0 <= b[0] < 0xF0
    requires SecondLow(b[0]) <= b[1] <= SecondHigh(b[0]) && IsContinuation(b[2])
    ensures DecodeFirst(b).Some? && EncodeChar(DecodeFirst(b).value.0) == b[..3]
  {
    var q := (b[0] as int - 0xE0) * 64 + (b[1] as int - 0x80);
    var n := q * 64 + (b[2] as int - 0x80);
    assert n / 64 == q && n % 64 == b[2] as int - 0x80;
    assert q / 64 == b[0] as int - 0xE0 && q % 64 == b[1] as int - 0x80;
    assert n / 4096 == q / 64;
  }

  /** A well-formed four-byte sequence is the encoding of the character it decodes to. */
  lemma EncodeDecodeFour(b: seq<byte>)
    requires |b| >= 4 && 0xF0 <= b[0] < 0xF5
    requires SecondLow(b[0]) <= b[1] <= SecondHigh(b[0]) && IsContinuation(b[2]) && IsContinuation(b[3])
    ensures DecodeFirst(b).Some? && EncodeChar(DecodeFirst(b).value.0) == b[..4]
  {
    var p := (b[0] as int - 0xF0) * 64 + (b[1] as int - 0x80);
    var q := p * 64 + (b[2] as int - 0x80);
    var n := q * 64 + (b[3] as int - 0x80);
    assert n / 64 == q && n % 64 == b[3] as int - 0x80;
    assert q / 64 == p && q % 64 == b[2] as int - 0x80;
    assert p / 64 == b[0] as int - 0xF0 && p % 64 == b[1] as int - 0x80;
    assert n / 4096 == p && n / 262144 == p / 64;
  }

  /** Whatever the decoder accepts as one character is exactly that character's encoding. */
  lemma EncodeDecodeFirst(b: seq<byte>)
    requires |b| > 0 && DecodeFirst(b).Some?
    ensures EncodeChar(DecodeFirst(b).value.0) == b[..DecodeFirst(b).value.1]
  {
    if 0xC2 <= b[0] < 0xE0 {
      EncodeDecodeTwo(b);
    } else if 0xE0 <= b[0] < 0xF0 {
      EncodeDecodeThree(b);
    } else if 0xF0 <= b[0] < 0xF5 {
      EncodeDecodeFour(b);
    }
  }

  /** Ill-formed input is refused: a stray continuation byte, the overlong form of NUL,
      an encoded surrogate, a value above U+10FFFF, and a truncated sequence. */
  lemma DecodeRejectsIllFormed()
    ensures Decode([0x80]).None?
    ensures Decode([0xC0, 0x80]).None?
    ensures Decode([0xED, 0xA0, 0x80]).None?
    ensures Decode([0xF4, 0x90, 0x80, 0x80]).None?
    ensures Decode([0xE2, 0x82]).None?
  {
  }

  /** Encoding a string that starts with `c` starts with the encoding of `c`. */
  lemma EncodeCons(c: char, rest: string)
    ensures Encode([c] + rest) == EncodeChar(c) + Encode(rest)
  {
    assert ([c] + rest)[0] == c && ([c] + rest)[1..] == rest;
  }

  /** Bytes made of the encoding of `c` followed by the encoding of `rest` encode `[c] + rest`. */
  lemma EncodeJoins(b: seq<byte>, c: char, k: nat, rest: string)
    requires k <= |b| && EncodeChar(c) == b[..k] && Encode(rest) == b[k..]
    ensures Encode([c] + rest) == b
  {
    EncodeCons(c, rest);
    assert b[..k] + b[k..] == b;
  }

  /** A nonempty byte string that decodes does so one character at a time: its first
      character, then the decoding of the bytes after it. */
  lemma DecodeCons(b: seq<byte>)
    requires b != [] && Decode(b).Some?
    ensures DecodeFirst(b).Some?
    ensures Decode(b[DecodeFirst(b).value.1..]).Some?
    ensures Decode(b).value == [DecodeFirst(b).value.0] + Decode(b[DecodeFirst(b).value.1..]).value
  {
  }

  /** Decoding is strict: every byte string it accepts is the encoding of what it decodes
      to, so no overlong form, surrogate or value above U+10FFFF gets through. */
  lemma {:induction false} EncodeDecode(b: seq<byte>)
    requires Decode(b).Some?
    ensures Encode(Decode(b).value) == b
    decreases |b|
  {
    if b != [] {
      DecodeCons(b);
      var c, k := DecodeFirst(b).value.0, DecodeFirst(b).value.1;
      var rest := Decode(b[k..]).value;
      EncodeDecodeFirst(b);
      EncodeDecode(b[k..]);
      EncodeJoins(b, c, k, rest);
    }
  }
}
