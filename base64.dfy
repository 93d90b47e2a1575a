/**
 * The base64 encoding of section 4 of RFC 4648 (standard alphabet, '='
 * padding), as Go's base64.StdEncoding.EncodeToString writes it, and a
 * decoder that reads it back.
 */
module Base64 {
  import opened Wrappers

  type byte = x: int | 0 <= x < 256
  type sextet = x: int | 0 <= x < 64

  const Padding: char := '='

  /** The character the alphabet of RFC 4648 (Table 1) gives a 6-bit value. */
  function EncodeSextet(v: sextet): (c: char)
    ensures c != Padding
  {
    if v < 26 then (65 + v) as char
    else if v < 52 then (97 + v - 26) as char
    else if v < 62 then (48 + v - 52) as char
    else if v == 62 then '+'
    else '/'
  }

  /** The 6-bit value of an alphabet character; None for anything else. */
  function DecodeSextet(c: char): Option<sextet> {
    if 'A' <= c <= 'Z' then Some(c as int - 65)
    else if 'a' <= c <= 'z' then Some(c as int - 97 + 26)
    else if '0' <= c <= '9' then Some(c as int - 48 + 52)
    else if c == '+' then Some(62)
    else if c == '/' then Some(63)
    else None
  }

  predicate IsAlphabetChar(c: char) {
    DecodeSextet(c).Some?
  }

  /** One full 24-bit group: three bytes become four characters. */
  function EncodeGroup(a: byte, b: byte, c: byte): seq<char> {
    [EncodeSextet(a / 4), EncodeSextet((a % 4) * 16 + b / 16),
     EncodeSextet((b % 16) * 4 + c / 64), EncodeSextet(c % 64)]
  }

  /** base64.StdEncoding.EncodeToString */
  function Encode(bs: seq<byte>): (s: string)
    ensures |s| == (|bs| + 2) / 3 * 4
    decreases |bs|
  {
    if |bs| == 0 then ""
    else if |bs| == 1 then
      [EncodeSextet(bs[0] / 4), EncodeSextet((bs[0] % 4) * 16), Padding, Padding]
    else if |bs| == 2 then
      [EncodeSextet(bs[0] / 4), EncodeSextet((bs[0] % 4) * 16 + bs[1] / 16),
       EncodeSextet((bs[1] % 16) * 4), Padding]
    else EncodeGroup(bs[0], bs[1], bs[2]) + Encode(bs[3..])
  }

  /** The bytes of one four-character group; padding only in the final group. */
  function DecodeGroup(g: seq<char>, last: bool): Option<seq<byte>>
    requires |g| == 4
  {
    match (DecodeSextet(g[0]), DecodeSextet(g[1]), DecodeSextet(g[2]), DecodeSextet(g[3]))
    case (Some(v0), Some(v1), Some(v2), Some(v3)) =>
      var b0: byte := v0 as int * 4 + v1 / 16;
      var b1: byte := (v1 as int % 16) * 16 + v2 / 4;
      var b2: byte := (v2 as int % 4) * 64 + v3;
      Some([b0, b1, b2])
    case (Some(v0), Some(v1), Some(v2), None) =>
      var b0: byte := v0 as int * 4 + v1 / 16;
      var b1: byte := (v1 as int % 16) * 16 + v2 / 4;
      if last && g[3] == Padding then Some([b0, b1]) else None
    case (Some(v0), Some(v1), None, None) =>
      var b0: byte := v0 as int * 4 + v1 / 16;
      if last && g[2] == Padding && g[3] == Padding then Some([b0]) else None
    case _ => None
  }

  /** Reads a padded base64 text back into bytes; None when it is not one. */
  function Decode(s: string): Option<seq<byte>>
    decreases |s|
  {
    if |s| == 0 then Some([])
    else if |s| < 4 then None
    else
      match (DecodeGroup(s[..4], |s| == 4), Decode(s[4..]))
      case (Some(g), Some(rest)) => Some(g + rest)
      case _ => None
  }

  lemma SextetRoundTrip(v: sextet)
    ensures DecodeSextet(EncodeSextet(v)) == Some(v)
  {
  }

  /** Every character of an encoding is from the alphabet or is padding. */
  lemma {:induction false} EncodeAlphabet(bs: seq<byte>)
    ensures forall i :: 0 <= i < |Encode(bs)| ==> IsAlphabetChar(Encode(bs)[i]) || Encode(bs)[i] == Padding
    decreases |bs|
  {
    forall v: sextet ensures IsAlphabetChar(EncodeSextet(v)) {
      SextetRoundTrip(v);
    }
    if |bs| >= 3 {
      EncodeAlphabet(bs[3..]);
    }
  }

  /** The byte arithmetic of one group undoes the sextet arithmetic. */
  lemma GroupArithmetic(a: byte, b: byte, c: byte)
    ensures (a / 4) * 4 + ((a % 4) * 16 + b / 16) / 16 == a
    ensures (((a % 4) * 16 + b / 16) % 16) * 16 + ((b % 16) * 4 + c / 64) / 4 == b
    ensures (((b % 16) * 4 + c / 64) % 4) * 64 + c % 64 == c
  {
  }

  lemma GroupRoundTrip(a: byte, b: byte, c: byte, last: bool)
    ensures DecodeGroup(EncodeGroup(a, b, c), last) == Some([a, b, c])
  {
    var v0, v1, v2, v3 := a / 4, (a % 4) * 16 + b / 16, (b % 16) * 4 + c / 64, c % 64;
    SextetRoundTrip(v0);
    SextetRoundTrip(v1);
    SextetRoundTrip(v2);
    SextetRoundTrip(v3);
    GroupArithmetic(a, b, c);
    var g := EncodeGroup(a, b, c);
    assert g == [EncodeSextet(v0), EncodeSextet(v1), EncodeSextet(v2), EncodeSextet(v3)];
  }

  lemma TwoBytesRoundTrip(a: byte, b: byte)
    ensures Decode(Encode([a, b])) == Some([a, b])
  {
    var s := Encode([a, b]);
    assert s[..4] == s && s[4..] == [];
    SextetRoundTrip(a / 4);
    SextetRoundTrip((a % 4) * 16 + b / 16);
    SextetRoundTrip((b % 16) * 4);
    assert DecodeSextet(Padding) == None;
    assert DecodeGroup(s, true) == Some([a, b]);
    assert Decode(s[4..]) == Some([]);
    assert [a, b] + [] == [a, b];
  }

  lemma OneByteRoundTrip(a: byte)
    ensures Decode(Encode([a])) == Some([a])
  {
    var s := Encode([a]);
    assert s[..4] == s && s[4..] == [];
    SextetRoundTrip(a / 4);
    SextetRoundTrip((a % 4) * 16);
    assert DecodeSextet(Padding) == None;
    assert DecodeGroup(s, true) == Some([a]);
    assert Decode(s[4..]) == Some([]);
    assert [a] + [] == [a];
  }

  lemma GroupThenRest(a: byte, b: byte, c: byte, t: string, rest: seq<byte>)
    requires Decode(t) == Some(rest)
    ensures Decode(EncodeGroup(a, b, c) + t) == Some([a, b, c] + rest)
  {
    var s := EncodeGroup(a, b, c) + t;
    assert s[..4] == EncodeGroup(a, b, c) && s[4..] == t;
    GroupRoundTrip(a, b, c, |s| == 4);
  }

  /** Decoding an encoding gives back the bytes that were encoded. */
  lemma {:induction false} DecodeEncode(bs: seq<byte>)
    ensures Decode(Encode(bs)) == Some(bs)
    decreases |bs|
  {
    if |bs| == 1 {
      assert bs == [bs[0]];
      OneByteRoundTrip(bs[0]);
    } else if |bs| == 2 {
      assert bs == [bs[0], bs[1]];
      TwoBytesRoundTrip(bs[0], bs[1]);
    } else if |bs| >= 3 {
      DecodeEncode(bs[3..]);
      GroupThenRest(bs[0], bs[1], bs[2], Encode(bs[3..]), bs[3..]);
      assert bs == [bs[0], bs[1], bs[2]] + bs[3..];
    }
  }
}
