/**
 * UTF-8 as Python's `bytes(s, 'utf-8')` and `b.decode('utf-8')` use it: a
 * `char` is a Unicode scalar value, encoded in one to four bytes; decoding
 * is strict and rejects truncated sequences, stray continuation bytes,
 * overlong forms, surrogates and values past U+10FFFF.
 */
module Utf8 {
  import opened Wrappers

  type byte = b: int | 0 <= b < 256

  predicate IsContinuation(b: byte)
  {
    0x80 <= b < 0xC0
  }

  /** The bytes of one character. */
  function EncodeChar(c: char): (bs: seq<byte>)
    ensures 1 <= |bs| <= 4
    ensures forall i :: 1 <= i < |bs| ==> IsContinuation(bs[i])
  {
    var cp := c as int;
    if cp < 0x80 then [cp]
    else if cp < 0x800 then [0xC0 + cp / 64, 0x80 + cp % 64]
    else if cp < 0x10000 then [0xE0 + cp / 4096, 0x80 + (cp / 64) % 64, 0x80 + cp % 64]
    else [0xF0 + cp / 262144, 0x80 + (cp / 4096) % 64, 0x80 + (cp / 64) % 64, 0x80 + cp % 64]
  }

  /** `bytes(s, 'utf-8')`. */
  function Encode(s: string): seq<byte>
  {
    if s == [] then [] else EncodeChar(s[0]) + Encode(s[1..])
  }

  /** The length of the sequence a leading byte announces, or 0 for a byte that cannot lead. */
  function SequenceLength(b: byte): nat
  {
    if b < 0x80 then 1
    else if b < 0xC0 then 0
    else if b < 0xE0 then 2
    else if b < 0xF0 then 3
    else if b < 0xF8 then 4
    else 0
  }

  /** The scalar value of a complete sequence of `n` bytes. */
  function Combine(bs: seq<byte>, n: nat): int
    requires 1 <= n <= 4 && n <= |bs|
  {
    var b0: int := bs[0];
    if n == 1 then b0
    else
      var b1: int := bs[1];
      if n == 2 then (b0 - 0xC0) * 64 + (b1 - 0x80)
      else
        var b2: int := bs[2];
        if n == 3 then (b0 - 0xE0) * 4096 + (b1 - 0x80) * 64 + (b2 - 0x80)
        else
          var b3: int := bs[3];
          (b0 - 0xF0) * 262144 + (b1 - 0x80) * 4096 + (b2 - 0x80) * 64 + (b3 - 0x80)
  }

  /** The shortest-form range for an `n`-byte sequence, excluding surrogates. */
  predicate InRange(cp: int, n: nat)
  {
    && (n == 1 ==> 0 <= cp < 0x80)
    && (n == 2 ==> 0x80 <= cp < 0x800)
    && (n == 3 ==> 0x800 <= cp < 0x10000 && !(0xD800 <= cp < 0xE000))
    && (n == 4 ==> 0x10000 <= cp < 0x110000)
  }

  /** Decode the first character of `bs` and report how many bytes it took. */
  function DecodeChar(bs: seq<byte>): (r: Option<(char, nat)>)
    requires |bs| > 0
    ensures r.Some? ==> 1 <= r.value.1 <= |bs| && r.value.1 == SequenceLength(bs[0])
  {
    var n := SequenceLength(bs[0]);
    if n == 0 || n > |bs| then None
    else if !(forall i :: 1 <= i < n ==> IsContinuation(bs[i])) then None
    else
      var cp := Combine(bs, n);
      if InRange(cp, n) then Some((cp as char, n)) else None
  }

  /** `b.decode('utf-8')`, or None where Python raises UnicodeDecodeError. */
  function Decode(bs: seq<byte>): Option<string>
    decreases |bs|
  {
    if bs == [] then Some([])
    else match DecodeChar(bs)
      case None => None
      case Some((c, n)) =>
        match Decode(bs[n..])
        case None => None
        case Some(rest) => Some([c] + rest)
  }

  /** One encoded character decodes back to itself, whatever follows. */
  lemma DecodeEncodedChar(c: char, rest: seq<byte>)
    ensures DecodeChar(EncodeChar(c) + rest) == Some((c, |EncodeChar(c)|))
  {
    var cp := c as int;
    var bs := EncodeChar(c) + rest;
    if cp < 0x80 {
    } else if cp < 0x800 {
      assert bs[0] == 0xC0 + cp / 64 && bs[1] == 0x80 + cp % 64;
      assert Combine(bs, 2) == cp;
    } else if cp < 0x10000 {
      var q := cp / 64;
      assert bs[0] == 0xE0 + cp / 4096 && bs[1] == 0x80 + q % 64 && bs[2] == 0x80 + cp % 64;
      assert cp / 4096 == q / 64;
      assert Combine(bs, 3) == cp;
    } else {
      var q := cp / 64;
      var p := cp / 4096;
      assert p == q / 64;
      assert cp / 262144 == p / 64;
      assert bs[0] == 0xF0 + p / 64 && bs[1] == 0x80 + p % 64;
      assert bs[2] == 0x80 + q % 64 && bs[3] == 0x80 + cp % 64;
      assert Combine(bs, 4) == cp;
    }
  }

  /** Decoding an encoding gives the string back. */
  lemma {:induction false} DecodeEncode(s: string)
    ensures Decode(Encode(s)) == Some(s)
  {
    if s != [] {
      var e := EncodeChar(s[0]);
      var bs := Encode(s);
      assert bs == e + Encode(s[1..]);
      DecodeEncodedChar(s[0], Encode(s[1..]));
      assert bs[|e|..] == Encode(s[1..]);
      DecodeEncode(s[1..]);
      assert [s[0]] + s[1..] == s;
    }
  }

  /** A decodable byte string is the encoding of what it decodes to. */
  lemma {:induction false} EncodeDecode(bs: seq<byte>)
    requires Decode(bs).Some?
    ensures Encode(Decode(bs).value) == bs
    decreases |bs|
  {
    if bs != [] {
      var n := DecodeStep(bs);
      var c := DecodeChar(bs).value.0;
      EncodeCons(c, Decode(bs[n..]).value);
      EncodeDecodedChar(bs);
      EncodeDecode(bs[n..]);
      assert bs == bs[..n] + bs[n..];
    }
  }

  /** A decodable non-empty string decodes as its first character, then the rest. */
  lemma DecodeStep(bs: seq<byte>) returns (n: nat)
    requires bs != [] && Decode(bs).Some?
    ensures DecodeChar(bs).Some? && n == DecodeChar(bs).value.1 && n <= |bs|
    ensures Decode(bs[n..]).Some?
    ensures Decode(bs).value == [DecodeChar(bs).value.0] + Decode(bs[n..]).value
  {
    n := DecodeChar(bs).value.1;
  }

  /** The encoding of a string is its first character's encoding, then the rest's. */
  lemma EncodeCons(c: char, rest: string)
    ensures Encode([c] + rest) == EncodeChar(c) + Encode(rest)
  {
    var s := [c] + rest;
    assert s[0] == c && s[1..] == rest;
  }

  /** The bytes one decoded character took are that character's encoding. */
  lemma EncodeDecodedChar(bs: seq<byte>)
    requires |bs| > 0 && DecodeChar(bs).Some?
    ensures EncodeChar(DecodeChar(bs).value.0) == bs[..DecodeChar(bs).value.1]
  {
    var (c, n) := DecodeChar(bs).value;
    var cp := c as int;
    assert cp == Combine(bs, n);
    var e := EncodeChar(c);
    var b0: int, b1: int, b2: int, b3: int := bs[0], if n > 1 then bs[1] else 0, if n > 2 then bs[2] else 0, if n > 3 then bs[3] else 0;
    if n == 1 {
    } else if n == 2 {
      assert IsContinuation(bs[1]);
      DivMod64(cp, b0 - 0xC0, b1 - 0x80);
      assert e[0] == bs[0] && e[1] == bs[1];
    } else if n == 3 {
      assert IsContinuation(bs[1]) && IsContinuation(bs[2]);
      var q := (b0 - 0xE0) * 64 + (b1 - 0x80);
      DivMod64(cp, q, b2 - 0x80);
      DivMod64(q, b0 - 0xE0, b1 - 0x80);
      Div4096(cp, b0 - 0xE0, (b1 - 0x80) * 64 + (b2 - 0x80));
      assert e[0] == bs[0] && e[1] == bs[1] && e[2] == bs[2];
    } else {
      assert IsContinuation(bs[1]) && IsContinuation(bs[2]) && IsContinuation(bs[3]);
      var p := (b0 - 0xF0) * 64 + (b1 - 0x80);
      var q := p * 64 + (b2 - 0x80);
      DivMod64(cp, q, b3 - 0x80);
      DivMod64(q, p, b2 - 0x80);
      Div4096(cp, p, (b2 - 0x80) * 64 + (b3 - 0x80));
      DivMod64(p, b0 - 0xF0, b1 - 0x80);
      Div262144(cp, b0 - 0xF0, (b1 - 0x80) * 4096 + (b2 - 0x80) * 64 + (b3 - 0x80));
      assert e[0] == bs[0] && e[1] == bs[1] && e[2] == bs[2] && e[3] == bs[3];
    }
  }

  /** Division by 64 recovers the quotient and remainder a value was built from. */
  lemma DivMod64(x: int, q: int, r: int)
    requires 0 <= r < 64 && x == q * 64 + r
    ensures x / 64 == q && x % 64 == r
  {
  }

  /** Division by 4096 recovers the quotient a value was built from. */
  lemma Div4096(x: int, q: int, r: int)
    requires 0 <= r < 4096 && x == q * 4096 + r
    ensures x / 4096 == q
  {
  }

  /** Division by 262144 recovers the quotient a value was built from. */
  lemma Div262144(x: int, q: int, r: int)
    requires 0 <= r < 262144 && x == q * 262144 + r
    ensures x / 262144 == q
  {
  }
}
