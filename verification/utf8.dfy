/** UTF-8 as RFC 3629 defines it. The glue reads C strings with Rust's
    `CStr::to_str`, which accepts exactly the well-formed UTF-8 byte sequences
    and fails on anything else; `ToStr` models that check, and `Encode` is the
    reference encoding it is proved against. */
module Utf8 {
  import opened Wrappers

  type byte = x: int | 0 <= x < 0x100

  /** The bytes of a C string before its terminating NUL, so none of them is 0. */
  type CStr = b: seq<byte> | forall i :: 0 <= i < |b| ==> b[i] != 0
    witness []

  /** A continuation byte, 10xxxxxx. */
  predicate IsContinuation(b: byte) {
    0x80 <= b < 0xC0
  }

  /** The encoding of one scalar value (RFC 3629, section 3). */
  function EncodeChar(c: char): (bs: seq<byte>)
    ensures 1 <= |bs| <= 4
  {
    var n := c as int;
    var r0 := n % 64;
    var q1 := n / 64;
    var r1 := q1 % 64;
    var q2 := q1 / 64;
    var r2 := q2 % 64;
    var q3 := q2 / 64;
    if n < 0x80 then [n]
    else if n < 0x800 then [0xC0 + q1, 0x80 + r0]
    else if n < 0x1_0000 then [0xE0 + q2, 0x80 + r1, 0x80 + r0]
    else [0xF0 + q3, 0x80 + r2, 0x80 + r1, 0x80 + r0]
  }

  /** The encoding of a string: its characters' encodings, in order. */
  function Encode(s: string): seq<byte> {
    if |s| == 0 then [] else EncodeChar(s[0]) + Encode(s[1..])
  }

  /** Decodes the first character of `b`, with the number of bytes it takes.
      Overlong forms, surrogates and values above U+10FFFF are rejected, as are
      truncated sequences and stray continuation bytes. */
  function DecodeChar(b: seq<byte>): (r: Option<(char, nat)>)
    ensures r.Some? ==> 1 <= r.value.1 <= |b| && r.value.1 <= 4
  {
    if |b| == 0 then None
    else
      var b0: int := b[0];
      if b0 < 0x80 then Some((b0 as char, 1))
      else if 0xC2 <= b0 <= 0xDF then
        if |b| >= 2 && IsContinuation(b[1]) then
          Some((Join2(b0 - 0xC0, b[1] - 0x80) as char, 2))
        else None
      else if 0xE0 <= b0 <= 0xEF then
        if |b| >= 3 && IsContinuation(b[1]) && IsContinuation(b[2])
           && (b0 == 0xE0 ==> b[1] >= 0xA0) && (b0 == 0xED ==> b[1] < 0xA0) then
          Some((Join2(Join2(b0 - 0xE0, b[1] - 0x80), b[2] - 0x80) as char, 3))
        else None
      else if 0xF0 <= b0 <= 0xF4 then
        if |b| >= 4 && IsContinuation(b[1]) && IsContinuation(b[2]) && IsContinuation(b[3])
           && (b0 == 0xF0 ==> b[1] >= 0x90) && (b0 == 0xF4 ==> b[1] < 0x90) then
          Some((Join2(Join2(Join2(b0 - 0xF0, b[1] - 0x80), b[2] - 0x80), b[3] - 0x80) as char, 4))
        else None
      else None
  }

  /** Appends six payload bits to a partial scalar value. */
  function Join2(high: int, low: int): int {
    high * 64 + low
  }

  /** Splitting off six payload bits undoes `Join2`. */
  lemma SplitJoin(high: int, low: int)
    requires 0 <= low < 64
    ensures Join2(high, low) / 64 == high && Join2(high, low) % 64 == low
  {
  }

  /** A decoded character is exactly the one whose encoding was consumed. */
  lemma DecodeCharSound(b: seq<byte>)
    requires DecodeChar(b).Some?
    ensures EncodeChar(DecodeChar(b).value.0) == b[..DecodeChar(b).value.1]
  {
    var b0: int := b[0];
    if 0xC2 <= b0 <= 0xDF {
      DecodeTwoSound(b);
    } else if 0xE0 <= b0 <= 0xEF {
      DecodeThreeSound(b);
    } else if 0xF0 <= b0 <= 0xF4 {
      DecodeFourSound(b);
    }
  }

  lemma DecodeTwoSound(b: seq<byte>)
    requires DecodeChar(b).Some? && 0xC2 <= b[0] <= 0xDF
    ensures EncodeChar(DecodeChar(b).value.0) == b[..2]
  {
    SplitJoin(b[0] - 0xC0, b[1] - 0x80);
  }

  lemma DecodeThreeSound(b: seq<byte>)
    requires DecodeChar(b).Some? && 0xE0 <= b[0] <= 0xEF
    ensures EncodeChar(DecodeChar(b).value.0) == b[..3]
  {
    var j := Join2(b[0] - 0xE0, b[1] - 0x80);
    SplitJoin(b[0] - 0xE0, b[1] - 0x80);
    SplitJoin(j, b[2] - 0x80);
  }

  lemma DecodeFourSound(b: seq<byte>)
    requires DecodeChar(b).Some? && 0xF0 <= b[0] <= 0xF4
    ensures EncodeChar(DecodeChar(b).value.0) == b[..4]
  {
    var j1 := Join2(b[0] - 0xF0, b[1] - 0x80);
    var j2 := Join2(j1, b[2] - 0x80);
    SplitJoin(b[0] - 0xF0, b[1] - 0x80);
    SplitJoin(j1, b[2] - 0x80);
    SplitJoin(j2, b[3] - 0x80);
  }

  /** Every character's encoding decodes back to it, whatever follows. */
  lemma DecodeCharOfEncoding(c: char, rest: seq<byte>)
    ensures DecodeChar(EncodeChar(c) + rest) == Some((c, |EncodeChar(c)|))
  {
    var n := c as int;
    if 0x80 <= n < 0x800 {
      DecodeOfTwo(c, rest);
    } else if 0x800 <= n < 0x1_0000 {
      DecodeOfThree(c, rest);
    } else if 0x1_0000 <= n {
      DecodeOfFour(c, rest);
    }
  }

  lemma DecodeOfTwo(c: char, rest: seq<byte>)
    requires 0x80 <= c as int < 0x800
    ensures DecodeChar(EncodeChar(c) + rest) == Some((c, 2))
  {
    var n := c as int;
    assert n == Join2(n / 64, n % 64);
    var e := EncodeChar(c) + rest;
    assert e[0] == 0xC0 + n / 64 && e[1] == 0x80 + n % 64;
  }

  lemma DecodeOfThree(c: char, rest: seq<byte>)
    requires 0x800 <= c as int < 0x1_0000
    ensures DecodeChar(EncodeChar(c) + rest) == Some((c, 3))
  {
    var n := c as int;
    assert n == Join2(n / 64, n % 64);
    assert n / 64 == Join2(n / 64 / 64, n / 64 % 64);
    var e := EncodeChar(c) + rest;
    assert e[0] == 0xE0 + n / 64 / 64 && e[1] == 0x80 + n / 64 % 64 && e[2] == 0x80 + n % 64;
  }

  lemma DecodeOfFour(c: char, rest: seq<byte>)
    requires 0x1_0000 <= c as int
    ensures DecodeChar(EncodeChar(c) + rest) == Some((c, 4))
  {
    var n := c as int;
    assert n == Join2(n / 64, n % 64);
    assert n / 64 == Join2(n / 64 / 64, n / 64 % 64);
    assert n / 64 / 64 == Join2(n / 64 / 64 / 64, n / 64 / 64 % 64);
    var e := EncodeChar(c) + rest;
    assert e[0] == 0xF0 + n / 64 / 64 / 64 && e[1] == 0x80 + n / 64 / 64 % 64;
    assert e[2] == 0x80 + n / 64 % 64 && e[3] == 0x80 + n % 64;
  }

  /** `CStr::to_str`: the string the bytes encode, or `None` when they are not
      well-formed UTF-8. It is stated for any bytes, so that every string's
      encoding is in its domain. */
  function ToStr(b: seq<byte>): (r: Option<string>)
    ensures r.Some? ==> Encode(r.value) == b
    decreases |b|
  {
    if |b| == 0 then Some([])
    else match DecodeChar(b)
      case None => None
      case Some((c, n)) =>
        match ToStr(b[n..])
        case None => None
        case Some(s) =>
          DecodeCharSound(b);
          assert b == b[..n] + b[n..];
          assert ([c] + s)[1..] == s;
          Some([c] + s)
  }

  /** Every string survives encoding followed by `to_str`. */
  lemma {:induction false} ToStrOfEncoding(s: string)
    ensures ToStr(Encode(s)) == Some(s)
  {
    if |s| > 0 {
      var e := EncodeChar(s[0]);
      DecodeCharOfEncoding(s[0], Encode(s[1..]));
      assert Encode(s)[|e|..] == Encode(s[1..]);
      ToStrOfEncoding(s[1..]);
      assert [s[0]] + s[1..] == s;
    }
  }

  /** `to_str` fails exactly on the byte sequences that encode no string. */
  lemma ToStrFailsOnlyOnMalformed(b: seq<byte>)
    ensures ToStr(b).None? <==> forall s :: Encode(s) != b
  {
    if ToStr(b).Some? {
      assert Encode(ToStr(b).value) == b;
    } else {
      forall s
        ensures Encode(s) != b
      {
        ToStrOfEncoding(s);
      }
    }
  }
}
