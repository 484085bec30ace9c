/**
 * Base 64 encoding with the standard alphabet and '=' padding (section 4 of RFC 4648), as
 * Node's buffer.toString('base64') writes it, and a decoder that is its left inverse.
 */
module Base64 {
  import opened Wrappers

  /** The character that stands for a 6-bit value (Table 1 of RFC 4648). */
  function SextetChar(v: nat): (c: char)
    requires v < 64
    ensures c != '='
  {
    if v < 26 then ('A' as int + v) as char
    else if v < 52 then ('a' as int + v - 26) as char
    else if v < 62 then ('0' as int + v - 52) as char
    else if v == 62 then '+'
    else '/'
  }

  /** The 6-bit value a character stands for, if it belongs to the alphabet. */
  function SextetValue(c: char): (r: Option<nat>)
    ensures r.Some? ==> r.value < 64
  {
    if 'A' <= c <= 'Z' then Some(c as int - 'A' as int)
    else if 'a' <= c <= 'z' then Some(c as int - 'a' as int + 26)
    else if '0' <= c <= '9' then Some(c as int - '0' as int + 52)
    else if c == '+' then Some(62)
    else if c == '/' then Some(63)
    else None
  }

  lemma SextetRoundTrip(v: nat)
    requires v < 64
    ensures SextetValue(SextetChar(v)) == Some(v)
  {
  }

  /** Every 3 input bytes become 4 characters; a final 1 or 2 bytes are padded with '='. */
  function Encode(bs: seq<Byte>): (r: string)
    ensures |r| % 4 == 0
  {
    if |bs| == 0 then ""
    else if |bs| == 1 then
      [SextetChar(bs[0] / 4), SextetChar((bs[0] % 4) * 16), '=', '=']
    else if |bs| == 2 then
      [SextetChar(bs[0] / 4), SextetChar((bs[0] % 4) * 16 + bs[1] / 16), SextetChar((bs[1] % 16) * 4), '=']
    else
      [SextetChar(bs[0] / 4), SextetChar((bs[0] % 4) * 16 + bs[1] / 16),
       SextetChar((bs[1] % 16) * 4 + bs[2] / 64), SextetChar(bs[2] % 64)] + Encode(bs[3..])
  }

  function Byte0(v0: nat, v1: nat): Byte requires v0 < 64 && v1 < 64 { v0 * 4 + v1 / 16 }
  function Byte1(v1: nat, v2: nat): Byte requires v1 < 64 && v2 < 64 { (v1 % 16) * 16 + v2 / 4 }
  function Byte2(v2: nat, v3: nat): Byte requires v2 < 64 && v3 < 64 { (v2 % 4) * 64 + v3 }

  /** Reads 4-character groups; '=' may only pad the last group. */
  function Decode(s: string): Option<seq<Byte>>
    decreases |s|
  {
    if s == [] then Some([])
    else if |s| < 4 then None
    else
      var v0, v1 := SextetValue(s[0]), SextetValue(s[1]);
      if v0.None? || v1.None? then None
      else if s[2] == '=' && s[3] == '=' then
        if |s| == 4 then Some([Byte0(v0.value, v1.value)]) else None
      else
        var v2 := SextetValue(s[2]);
        if v2.None? then None
        else if s[3] == '=' then
          if |s| == 4 then Some([Byte0(v0.value, v1.value), Byte1(v1.value, v2.value)]) else None
        else
          var v3 := SextetValue(s[3]);
          if v3.None? then None
          else
            match Decode(s[4..])
            case None => None
            case Some(rest) =>
              Some([Byte0(v0.value, v1.value), Byte1(v1.value, v2.value), Byte2(v2.value, v3.value)] + rest)
  }

  lemma BlockRoundTrip(b0: Byte, b1: Byte, b2: Byte)
    ensures Byte0(b0 / 4, (b0 % 4) * 16 + b1 / 16) == b0
    ensures Byte1((b0 % 4) * 16 + b1 / 16, (b1 % 16) * 4 + b2 / 64) == b1
    ensures Byte2((b1 % 16) * 4 + b2 / 64, b2 % 64) == b2
  {
    var v1 := (b0 % 4) * 16 + b1 / 16;
    assert v1 / 16 == b0 % 4 && v1 % 16 == b1 / 16;
    var v2 := (b1 % 16) * 4 + b2 / 64;
    assert v2 / 4 == b1 % 16 && v2 % 4 == b2 / 64;
  }

  function Group(b0: Byte, b1: Byte, b2: Byte): (g: string)
    ensures |g| == 4
  {
    [SextetChar(b0 / 4), SextetChar((b0 % 4) * 16 + b1 / 16),
     SextetChar((b1 % 16) * 4 + b2 / 64), SextetChar(b2 % 64)]
  }

  lemma {:induction false} DecodeGroup(b0: Byte, b1: Byte, b2: Byte, t: string, rest: seq<Byte>)
    requires Decode(t) == Some(rest)
    ensures Decode(Group(b0, b1, b2) + t) == Some([b0, b1, b2] + rest)
  {
    BlockRoundTrip(b0, b1, b2);
    SextetRoundTrip(b0 / 4);
    SextetRoundTrip((b0 % 4) * 16 + b1 / 16);
    SextetRoundTrip((b1 % 16) * 4 + b2 / 64);
    SextetRoundTrip(b2 % 64);
    var s := Group(b0, b1, b2) + t;
    assert s[4..] == t;
  }

  lemma DecodeLastOne(b0: Byte)
    ensures Decode(Encode([b0])) == Some([b0])
  {
    var v0, v1 := b0 / 4, (b0 % 4) * 16;
    BlockRoundTrip(b0, 0, 0);
    assert Byte0(v0, v1) == b0;
    SextetRoundTrip(v0);
    SextetRoundTrip(v1);
    var s := Encode([b0]);
    assert s == [SextetChar(v0), SextetChar(v1), '=', '='];
    assert SextetValue(s[0]) == Some(v0) && SextetValue(s[1]) == Some(v1);
  }

  lemma DecodeLastTwo(b0: Byte, b1: Byte)
    ensures Decode(Encode([b0, b1])) == Some([b0, b1])
  {
    var v0, v1, v2 := b0 / 4, (b0 % 4) * 16 + b1 / 16, (b1 % 16) * 4;
    BlockRoundTrip(b0, b1, 0);
    assert Byte0(v0, v1) == b0 && Byte1(v1, v2) == b1;
    SextetRoundTrip(v0);
    SextetRoundTrip(v1);
    SextetRoundTrip(v2);
    var s := Encode([b0, b1]);
    assert s == [SextetChar(v0), SextetChar(v1), SextetChar(v2), '='];
    assert SextetValue(s[0]) == Some(v0) && SextetValue(s[1]) == Some(v1);
    assert SextetValue(s[2]) == Some(v2) && s[2] != '=' && s[3] == '=';
  }

  /** Decoding the encoding of a byte string gives the byte string back. */
  lemma {:induction false} DecodeEncode(bs: seq<Byte>)
    ensures Decode(Encode(bs)) == Some(bs)
    decreases |bs|
  {
    if |bs| == 0 {
    } else if |bs| == 1 {
      DecodeLastOne(bs[0]);
      assert bs == [bs[0]];
    } else if |bs| == 2 {
      DecodeLastTwo(bs[0], bs[1]);
      assert bs == [bs[0], bs[1]];
    } else {
      assert Encode(bs) == Group(bs[0], bs[1], bs[2]) + Encode(bs[3..]);
      DecodeEncode(bs[3..]);
      DecodeGroup(bs[0], bs[1], bs[2], Encode(bs[3..]), bs[3..]);
      assert [bs[0], bs[1], bs[2]] + bs[3..] == bs;
    }
  }

  /** Distinct byte strings have distinct encodings. */
  lemma EncodeInjective(a: seq<Byte>, b: seq<Byte>)
    requires Encode(a) == Encode(b)
    ensures a == b
  {
    DecodeEncode(a);
    DecodeEncode(b);
  }
}
