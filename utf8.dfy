/**
 * UTF-8 (RFC 3629) encoding of a string's code points, as Node's Buffer.from(string) does it,
 * and a decoder that is its left inverse, so that the encoding is injective.
 */
module Utf8 {
  import opened Wrappers

  /** Is `n` a Unicode scalar value, i.e. something a Dafny char can hold? */
  predicate IsScalar(n: int) {
    (0 <= n < 0xD800) || (0xE000 <= n < 0x11_0000)
  }

  function EncodeChar(c: char): (bs: seq<Byte>)
    ensures 1 <= |bs| <= 4
  {
    var n := c as int;
    if n < 0x80 then [n]
    else if n < 0x800 then [0xC0 + n / 64, 0x80 + n % 64]
    else if n < 0x1_0000 then [0xE0 + n / 4096, 0x80 + (n / 64) % 64, 0x80 + n % 64]
    else [0xF0 + n / 262144, 0x80 + (n / 4096) % 64, 0x80 + (n / 64) % 64, 0x80 + n % 64]
  }

  /** The UTF-8 bytes of a string: the encodings of its characters, in order. */
  function Encode(s: string): seq<Byte> {
    if s == [] then [] else EncodeChar(s[0]) + Encode(s[1..])
  }

  predicate IsContinuation(b: Byte) { 0x80 <= b < 0xC0 }

  /** Decodes the first character of `bs`, with the number of bytes it took. */
  function DecodeChar(bs: seq<Byte>): (r: Option<(char, nat)>)
    ensures r.Some? ==> 1 <= r.value.1 <= |bs|
  {
    if |bs| == 0 then None
    else
      var b0: int := bs[0];
      if b0 < 0x80 then Some((b0 as char, 1))
      else if 0xC0 <= b0 < 0xE0 && |bs| >= 2 && IsContinuation(bs[1]) then
        var b1: int := bs[1];
        var n := (b0 - 0xC0) * 64 + (b1 - 0x80);
        if IsScalar(n) then Some((n as char, 2)) else None
      else if 0xE0 <= b0 < 0xF0 && |bs| >= 3 && IsContinuation(bs[1]) && IsContinuation(bs[2]) then
        var b1: int, b2: int := bs[1], bs[2];
        var n := (b0 - 0xE0) * 4096 + (b1 - 0x80) * 64 + (b2 - 0x80);
        if IsScalar(n) then Some((n as char, 3)) else None
      else if 0xF0 <= b0 < 0xF8 && |bs| >= 4 && IsContinuation(bs[1]) && IsContinuation(bs[2])
              && IsContinuation(bs[3]) then
        var b1: int, b2: int, b3: int := bs[1], bs[2], bs[3];
        var n := (b0 - 0xF0) * 262144 + (b1 - 0x80) * 4096 + (b2 - 0x80) * 64 + (b3 - 0x80);
        if IsScalar(n) then Some((n as char, 4)) else None
      else None
  }

  function Decode(bs: seq<Byte>): Option<string>
    decreases |bs|
  {
    if bs == [] then Some([])
    else
      match DecodeChar(bs)
      case None => None
      case Some((c, k)) =>
        match Decode(bs[k..])
        case None => None
        case Some(rest) => Some([c] + rest)
  }

  lemma FourByteSplit(n: int)
    requires 0x1_0000 <= n < 0x11_0000
    ensures n == (n / 262144) * 262144 + ((n / 4096) % 64) * 4096 + ((n / 64) % 64) * 64 + n % 64
  {
    var q := n / 64;
    assert n == q * 64 + n % 64;
    var q2 := q / 64;
    assert q == q2 * 64 + q % 64;
    assert n / 4096 == q2;
    assert q2 == (q2 / 64) * 64 + q2 % 64;
    assert n / 262144 == q2 / 64;
  }

  lemma ThreeByteSplit(n: int)
    requires 0x800 <= n < 0x1_0000
    ensures n == (n / 4096) * 4096 + ((n / 64) % 64) * 64 + n % 64
  {
    var q := n / 64;
    assert n == q * 64 + n % 64;
    assert q == (q / 64) * 64 + q % 64;
    assert n / 4096 == q / 64;
  }

  lemma {:induction false} DecodeCharOfEncoded(c: char, rest: seq<Byte>)
    ensures DecodeChar(EncodeChar(c) + rest) == Some((c, |EncodeChar(c)|))
  {
    var n := c as int;
    var bs := EncodeChar(c) + rest;
    if n < 0x80 {
    } else if n < 0x800 {
      assert bs[0] == 0xC0 + n / 64 && bs[1] == 0x80 + n % 64;
    } else if n < 0x1_0000 {
      ThreeByteSplit(n);
      assert bs[0] == 0xE0 + n / 4096 && bs[1] == 0x80 + (n / 64) % 64 && bs[2] == 0x80 + n % 64;
    } else {
      FourByteSplit(n);
      assert bs[0] == 0xF0 + n / 262144 && bs[1] == 0x80 + (n / 4096) % 64;
      assert bs[2] == 0x80 + (n / 64) % 64 && bs[3] == 0x80 + n % 64;
    }
  }

  /** Decoding the UTF-8 bytes of a string gives the string back. */
  lemma {:induction false} DecodeEncode(s: string)
    ensures Decode(Encode(s)) == Some(s)
  {
    if s != [] {
      var e := EncodeChar(s[0]);
      DecodeCharOfEncoded(s[0], Encode(s[1..]));
      assert Encode(s) == e + Encode(s[1..]);
      assert (e + Encode(s[1..]))[|e|..] == Encode(s[1..]);
      DecodeEncode(s[1..]);
      assert [s[0]] + s[1..] == s;
    }
  }

  /** Distinct strings have distinct UTF-8 encodings. */
  lemma EncodeInjective(s: string, t: string)
    requires Encode(s) == Encode(t)
    ensures s == t
  {
    DecodeEncode(s);
    DecodeEncode(t);
  }
}
