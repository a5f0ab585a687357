/**
 * UTF-8, as Node's `Buffer.from(string)` and `buffer.toString("utf8")` apply it. Characters are
 * Unicode scalar values, so a string never holds a lone surrogate and encoding is total.
 */
module Utf8 {

  type byte = b: int | 0 <= b < 256

  /** A byte below 0x80 is a character on its own; every byte of a longer sequence is not. */
  predicate IsAscii(b: byte) {
    b < 0x80
  }

  predicate IsContinuation(b: byte) {
    0x80 <= b < 0xC0
  }

  function EncodeChar(c: char): (r: seq<byte>)
    ensures 1 <= |r| <= 4
    ensures |r| == 1 <==> c as int < 0x80
    ensures |r| == 1 ==> r[0] == c as int
    ensures forall i :: 0 <= i < |r| && |r| > 1 ==> !IsAscii(r[i])
  {
    var cp := c as int;
    var r0, x1 := cp % 64, cp / 64;
    var r1, x2 := x1 % 64, x1 / 64;
    var r2, x3 := x2 % 64, x2 / 64;
    if cp < 0x80 then [cp]
    else if cp < 0x800 then [0xC0 + x1, 0x80 + r0]
    else if cp < 0x10000 then [0xE0 + x2, 0x80 + r1, 0x80 + r0]
    else [0xF0 + x3, 0x80 + r2, 0x80 + r1, 0x80 + r0]
  }

  function Encode(s: string): seq<byte> {
    if s == [] then [] else EncodeChar(s[0]) + Encode(s[1..])
  }

  /**
   * Length of the well-formed UTF-8 sequence that starts `b` (Table 3-7 of the Unicode
   * Standard, section 3.9), or 0 when none does.
   */
  function SequenceLength(b: seq<byte>): (n: nat)
    ensures n <= |b| && n <= 4
  {
    if |b| == 0 then 0
    else
      var b0 := b[0];
      if b0 < 0x80 then 1
      else if 0xC2 <= b0 <= 0xDF then
        if |b| >= 2 && IsContinuation(b[1]) then 2 else 0
      else if 0xE0 <= b0 <= 0xEF then
        var lo := if b0 == 0xE0 then 0xA0 else 0x80;
        var hi := if b0 == 0xED then 0x9F else 0xBF;
        if |b| >= 3 && lo <= b[1] <= hi && IsContinuation(b[2]) then 3 else 0
      else if 0xF0 <= b0 <= 0xF4 then
        var lo := if b0 == 0xF0 then 0x90 else 0x80;
        var hi := if b0 == 0xF4 then 0x8F else 0xBF;
        if |b| >= 4 && lo <= b[1] <= hi && IsContinuation(b[2]) && IsContinuation(b[3]) then 4
        else 0
      else 0
  }

  /** The scalar value a well-formed sequence of `n` bytes at the start of `b` stands for. */
  function CodePoint(b: seq<byte>, n: nat): (cp: int)
    requires 1 <= n <= 4 && n == SequenceLength(b)
    ensures 0 <= cp < 0xD800 || 0xE000 <= cp <= 0x10FFFF
  {
    var b0, b1, b2, b3 := b[0] as int, (if n > 1 then b[1] else 0) as int,
                          (if n > 2 then b[2] else 0) as int, (if n > 3 then b[3] else 0) as int;
    if n == 1 then b0
    else if n == 2 then (b0 - 0xC0) * 64 + (b1 - 0x80)
    else if n == 3 then ((b0 - 0xE0) * 64 + (b1 - 0x80)) * 64 + (b2 - 0x80)
    else (((b0 - 0xF0) * 64 + (b1 - 0x80)) * 64 + (b2 - 0x80)) * 64 + (b3 - 0x80)
  }

  /**
   * Decoding; a byte that starts no well-formed sequence becomes U+FFFD on its own (Node
   * replaces a maximal ill-formed subpart as a whole; see README).
   */
  function Decode(b: seq<byte>): string
    decreases |b|
  {
    if b == [] then []
    else
      var n := SequenceLength(b);
      if n == 0 then ['�'] + Decode(b[1..])
      else [CodePoint(b, n) as char] + Decode(b[n..])
  }

  lemma {:induction false} EncodeAppend(s: string, t: string)
    ensures Encode(s + t) == Encode(s) + Encode(t)
  {
    if s == [] {
      assert s + t == t;
    } else {
      assert (s + t)[1..] == s[1..] + t;
      EncodeAppend(s[1..], t);
    }
  }

  /** The encoding of one character is read back as that character, whatever follows it. */
  lemma DecodeEncodedChar(c: char, rest: seq<byte>)
    ensures SequenceLength(EncodeChar(c) + rest) == |EncodeChar(c)|
    ensures CodePoint(EncodeChar(c) + rest, |EncodeChar(c)|) == c as int
  {
    var cp := c as int;
    var r0, x1 := cp % 64, cp / 64;
    var r1, x2 := x1 % 64, x1 / 64;
    var r2, x3 := x2 % 64, x2 / 64;
    assert cp == x1 * 64 + r0;
    assert x1 == x2 * 64 + r1;
    assert x2 == x3 * 64 + r2;
    var e := EncodeChar(c);
    var b := e + rest;
    if cp < 0x80 {
    } else if cp < 0x800 {
      assert b[0] == 0xC0 + x1 && b[1] == 0x80 + r0;
    } else if cp < 0x10000 {
      assert b[0] == 0xE0 + x2 && b[1] == 0x80 + r1 && b[2] == 0x80 + r0;
      assert x2 == 0 ==> x1 >= 32;
      assert x2 == 13 ==> x1 < 13 * 64 + 32;
    } else {
      assert b[0] == 0xF0 + x3 && b[1] == 0x80 + r2 && b[2] == 0x80 + r1 && b[3] == 0x80 + r0;
      assert x3 == 0 ==> x2 >= 16;
      assert x3 <= 4 && (x3 == 4 ==> x2 < 4 * 64 + 16);
    }
  }

  /** Decoding inverts encoding: the id a client reads back is the id the server wrote. */
  lemma {:induction false} DecodeEncode(s: string)
    ensures Decode(Encode(s)) == s
  {
    if s != [] {
      var e, rest := EncodeChar(s[0]), Encode(s[1..]);
      DecodeEncodedChar(s[0], rest);
      assert (e + rest)[|e|..] == rest;
      DecodeEncode(s[1..]);
    }
  }

  /** Encoding keeps ASCII characters as single bytes and all other characters free of them. */
  lemma {:induction false} EncodeAscii(s: string)
    requires forall i :: 0 <= i < |s| ==> s[i] as int < 0x80
    ensures |Encode(s)| == |s|
    ensures forall i :: 0 <= i < |s| ==> Encode(s)[i] == s[i] as int
  {
    if s != [] {
      EncodeAscii(s[1..]);
    }
  }
}
