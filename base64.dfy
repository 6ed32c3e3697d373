/** Standard base64 with padding, as in section 4 of RFC 4648: the encoding
    the handler applies to the provider's audio bytes before it returns them
    (Node's `Buffer.prototype.toString("base64")`), and the decoding a client
    applies to `audio_base64` to get those bytes back. */
module Base64 {
  import opened Wrappers

  type Byte = x: int | 0 <= x < 256

  /** A 6-bit group: the index of one character of the base64 alphabet. */
  type Sextet = x: int | 0 <= x < 64

  const Pad: char := '='

  /** Table 1 of RFC 4648: A-Z, a-z, 0-9, '+', '/'. */
  function SextetChar(k: Sextet): (c: char)
    ensures c != Pad
  {
    if k < 26 then ('A' as int + k) as char
    else if k < 52 then ('a' as int + (k - 26)) as char
    else if k < 62 then ('0' as int + (k - 52)) as char
    else if k == 62 then '+'
    else '/'
  }

  /** Inverse of SextetChar; None for a character outside the alphabet. */
  function CharSextet(c: char): (r: Option<Sextet>)
    ensures r.Some? ==> SextetChar(r.value) == c
    ensures c == Pad ==> r.None?
  {
    if 'A' <= c <= 'Z' then Some(c as int - 'A' as int)
    else if 'a' <= c <= 'z' then Some(c as int - 'a' as int + 26)
    else if '0' <= c <= '9' then Some(c as int - '0' as int + 52)
    else if c == '+' then Some(62)
    else if c == '/' then Some(63)
    else None
  }

  lemma CharOfSextet(k: Sextet)
    ensures CharSextet(SextetChar(k)) == Some(k)
  {
  }

  predicate IsAlphabet(c: char) {
    CharSextet(c).Some?
  }

  /** Three input bytes become four characters. */
  function EncodeTriple(b0: Byte, b1: Byte, b2: Byte): string {
    [SextetChar(b0 / 4), SextetChar((b0 % 4) * 16 + b1 / 16),
     SextetChar((b1 % 16) * 4 + b2 / 64), SextetChar(b2 % 64)]
  }

  /** A final group of two bytes: three characters and one pad. */
  function EncodePair(b0: Byte, b1: Byte): string {
    [SextetChar(b0 / 4), SextetChar((b0 % 4) * 16 + b1 / 16),
     SextetChar((b1 % 16) * 4), Pad]
  }

  /** A final group of one byte: two characters and two pads. */
  function EncodeSingle(b0: Byte): string {
    [SextetChar(b0 / 4), SextetChar((b0 % 4) * 16), Pad, Pad]
  }

  /** Padded base64 of `b`: four characters per started group of three bytes,
      all from the alphabet except the trailing pads. */
  function Encode(b: seq<Byte>): (s: string)
    ensures |s| == 4 * ((|b| + 2) / 3)
    ensures forall i :: 0 <= i < |s| ==> IsAlphabet(s[i]) || s[i] == Pad
    ensures forall i :: 0 <= i < |s| && s[i] == Pad ==> |s| - 2 <= i
    decreases |b|
  {
    if |b| == 0 then []
    else if |b| == 1 then EncodeSingle(b[0])
    else if |b| == 2 then EncodePair(b[0], b[1])
    else EncodeTriple(b[0], b[1], b[2]) + Encode(b[3..])
  }

  /** The bytes of four, three or two sextets: each sextet carries six bits,
      most significant first, and the bits of an incomplete last byte are
      dropped. */
  function JoinTriple(a: Sextet, b: Sextet, c: Sextet, d: Sextet): (r: seq<Byte>)
    ensures |r| == 3
  {
    [a * 4 + b / 16, (b % 16) * 16 + c / 4, (c % 4) * 64 + d]
  }

  function JoinPair(a: Sextet, b: Sextet, c: Sextet): (r: seq<Byte>)
    ensures |r| == 2
  {
    [a * 4 + b / 16, (b % 16) * 16 + c / 4]
  }

  function JoinSingle(a: Sextet, b: Sextet): (r: seq<Byte>)
    ensures |r| == 1
  {
    [a * 4 + b / 16]
  }

  /** Decodes one group of four characters; `last` says whether the group
      ends the input, the only place where padding may stand. Non-zero
      padding bits are rejected (section 3.5 of RFC 4648). */
  function DecodeGroup(g: string, last: bool): (r: Option<seq<Byte>>)
    requires |g| == 4
    ensures r.Some? ==> 1 <= |r.value| <= 3
    ensures r.Some? && |r.value| < 3 ==> last
  {
    var a, b := CharSextet(g[0]), CharSextet(g[1]);
    if a.None? || b.None? then None
    else if last && g[2] == Pad && g[3] == Pad then
      if b.value % 16 == 0 then Some(JoinSingle(a.value, b.value)) else None
    else
      var c := CharSextet(g[2]);
      if c.None? then None
      else if last && g[3] == Pad then
        if c.value % 4 == 0 then Some(JoinPair(a.value, b.value, c.value)) else None
      else
        var d := CharSextet(g[3]);
        if d.None? then None
        else Some(JoinTriple(a.value, b.value, c.value, d.value))
  }

  /** The bytes a padded base64 string stands for, or None when it is not
      one. */
  function Decode(s: string): (r: Option<seq<Byte>>)
    ensures r.Some? ==> |s| % 4 == 0 && |r.value| <= 3 * (|s| / 4)
    decreases |s|
  {
    if |s| == 0 then Some([])
    else if |s| < 4 then None
    else
      match DecodeGroup(s[..4], |s| == 4)
      case None => None
      case Some(head) =>
        match Decode(s[4..])
        case None => None
        case Some(tail) => Some(head + tail)
  }

  /** Splitting bytes into sextets and joining them again is the identity. */
  lemma JoinSplitTriple(b0: Byte, b1: Byte, b2: Byte)
    ensures JoinTriple(b0 / 4, (b0 % 4) * 16 + b1 / 16, (b1 % 16) * 4 + b2 / 64, b2 % 64) == [b0, b1, b2]
  {
    var c1, c2 := (b0 % 4) * 16 + b1 / 16, (b1 % 16) * 4 + b2 / 64;
    assert c1 / 16 == b0 % 4 && c1 % 16 == b1 / 16;
    assert c2 / 4 == b1 % 16 && c2 % 4 == b2 / 64;
  }

  lemma JoinSplitPair(b0: Byte, b1: Byte)
    ensures ((b1 % 16) * 4) % 4 == 0
    ensures JoinPair(b0 / 4, (b0 % 4) * 16 + b1 / 16, (b1 % 16) * 4) == [b0, b1]
  {
    var c1, c2 := (b0 % 4) * 16 + b1 / 16, (b1 % 16) * 4;
    assert c1 / 16 == b0 % 4 && c1 % 16 == b1 / 16;
    assert c2 / 4 == b1 % 16;
  }

  lemma JoinSplitSingle(b0: Byte)
    ensures ((b0 % 4) * 16) % 16 == 0
    ensures JoinSingle(b0 / 4, (b0 % 4) * 16) == [b0]
  {
    var c1 := (b0 % 4) * 16;
    assert c1 / 16 == b0 % 4;
  }

  lemma TripleRoundTrip(b0: Byte, b1: Byte, b2: Byte, last: bool)
    ensures DecodeGroup(EncodeTriple(b0, b1, b2), last) == Some([b0, b1, b2])
  {
    var c0, c1, c2, c3 := b0 / 4, (b0 % 4) * 16 + b1 / 16, (b1 % 16) * 4 + b2 / 64, b2 % 64;
    CharOfSextet(c0); CharOfSextet(c1); CharOfSextet(c2); CharOfSextet(c3);
    JoinSplitTriple(b0, b1, b2);
  }

  lemma PairRoundTrip(b0: Byte, b1: Byte)
    ensures DecodeGroup(EncodePair(b0, b1), true) == Some([b0, b1])
  {
    var c0, c1, c2 := b0 / 4, (b0 % 4) * 16 + b1 / 16, (b1 % 16) * 4;
    CharOfSextet(c0); CharOfSextet(c1); CharOfSextet(c2);
    JoinSplitPair(b0, b1);
  }

  lemma SingleRoundTrip(b0: Byte)
    ensures DecodeGroup(EncodeSingle(b0), true) == Some([b0])
  {
    var c0, c1 := b0 / 4, (b0 % 4) * 16;
    CharOfSextet(c0); CharOfSextet(c1);
    JoinSplitSingle(b0);
  }

  /** Decoding a group followed by more input. */
  lemma DecodeCons(g: string, rest: string, head: seq<Byte>, tail: seq<Byte>)
    requires |g| == 4
    requires DecodeGroup(g, rest == []) == Some(head) && Decode(rest) == Some(tail)
    ensures Decode(g + rest) == Some(head + tail)
  {
    var s := g + rest;
    assert s[..4] == g && s[4..] == rest;
  }

  /** The round trip for a last group of one or two bytes. */
  lemma DecodeEncodeShort(b: seq<Byte>)
    requires 1 <= |b| <= 2
    ensures Decode(Encode(b)) == Some(b)
  {
    if |b| == 1 {
      SingleRoundTrip(b[0]);
      assert Encode(b) == EncodeSingle(b[0]) + [];
      DecodeCons(EncodeSingle(b[0]), [], [b[0]], []);
      assert [b[0]] + [] == b;
    } else {
      PairRoundTrip(b[0], b[1]);
      assert Encode(b) == EncodePair(b[0], b[1]) + [];
      DecodeCons(EncodePair(b[0], b[1]), [], [b[0], b[1]], []);
      assert [b[0], b[1]] + [] == b;
    }
  }

  /** Decoding undoes encoding: a client that decodes `audio_base64` gets
      exactly the bytes the provider sent. */
  lemma {:induction false} DecodeEncode(b: seq<Byte>)
    ensures Decode(Encode(b)) == Some(b)
    decreases |b|
  {
    if |b| == 0 {
    } else if |b| <= 2 {
      DecodeEncodeShort(b);
    } else {
      var head, tail := EncodeTriple(b[0], b[1], b[2]), Encode(b[3..]);
      assert Encode(b) == head + tail;
      TripleRoundTrip(b[0], b[1], b[2], tail == []);
      DecodeEncode(b[3..]);
      DecodeCons(head, tail, [b[0], b[1], b[2]], b[3..]);
      assert [b[0], b[1], b[2]] + b[3..] == b;
    }
  }

  /** Encoding undoes decoding: every string the decoder accepts is the
      encoding of what it decodes to, so base64 text and byte strings are in
      one-to-one correspondence. */
  lemma {:induction false} EncodeDecode(s: string)
    requires Decode(s).Some?
    ensures Encode(Decode(s).value) == s
    decreases |s|
  {
    if |s| == 0 {
    } else {
      var g := s[..4];
      var head := DecodeGroup(g, |s| == 4).value;
      if |head| == 1 {
        SingleGroupEncodes(g, |s| == 4);
      } else if |head| == 2 {
        PairGroupEncodes(g, |s| == 4);
      } else {
        TripleGroupEncodes(g, |s| == 4);
      }
      if |s| == 4 {
        assert Decode(s[4..]) == Some([]);
        assert Decode(s).value == head + [];
        assert s == g;
      } else {
        EncodeDecode(s[4..]);
        var tail := Decode(s[4..]).value;
        assert Decode(s).value == head + tail;
        assert |head| == 3;
        assert (head + tail)[3..] == tail;
        assert s == g + s[4..];
      }
    }
  }

  lemma TripleOfSextets(a: Sextet, b: Sextet, c: Sextet, d: Sextet)
    ensures var r := JoinTriple(a, b, c, d);
      EncodeTriple(r[0], r[1], r[2]) == [SextetChar(a), SextetChar(b), SextetChar(c), SextetChar(d)]
  {
    var r := JoinTriple(a, b, c, d);
    assert r[0] / 4 == a && r[0] % 4 == b / 16;
    assert r[1] / 16 == b % 16 && r[1] % 16 == c / 4;
    assert r[2] / 64 == c % 4 && r[2] % 64 == d;
  }

  lemma PairOfSextets(a: Sextet, b: Sextet, c: Sextet)
    requires c % 4 == 0
    ensures var r := JoinPair(a, b, c);
      EncodePair(r[0], r[1]) == [SextetChar(a), SextetChar(b), SextetChar(c), Pad]
  {
    var r := JoinPair(a, b, c);
    assert r[0] / 4 == a && r[0] % 4 == b / 16;
    assert r[1] / 16 == b % 16 && r[1] % 16 == c / 4;
  }

  lemma SingleOfSextets(a: Sextet, b: Sextet)
    requires b % 16 == 0
    ensures EncodeSingle(JoinSingle(a, b)[0]) == [SextetChar(a), SextetChar(b), Pad, Pad]
  {
    var r := JoinSingle(a, b);
    assert r[0] / 4 == a && r[0] % 4 == b / 16;
  }

  lemma SingleGroupEncodes(g: string, last: bool)
    requires |g| == 4 && DecodeGroup(g, last).Some? && |DecodeGroup(g, last).value| == 1
    ensures EncodeSingle(DecodeGroup(g, last).value[0]) == g
  {
    var a, b := CharSextet(g[0]).value, CharSextet(g[1]).value;
    SingleOfSextets(a, b);
  }

  lemma PairGroupEncodes(g: string, last: bool)
    requires |g| == 4 && DecodeGroup(g, last).Some? && |DecodeGroup(g, last).value| == 2
    ensures var r := DecodeGroup(g, last).value; EncodePair(r[0], r[1]) == g
  {
    var a, b, c := CharSextet(g[0]).value, CharSextet(g[1]).value, CharSextet(g[2]).value;
    PairOfSextets(a, b, c);
  }

  lemma TripleGroupEncodes(g: string, last: bool)
    requires |g| == 4 && DecodeGroup(g, last).Some? && |DecodeGroup(g, last).value| == 3
    ensures var r := DecodeGroup(g, last).value; EncodeTriple(r[0], r[1], r[2]) == g
  {
    var a, b := CharSextet(g[0]).value, CharSextet(g[1]).value;
    var c, d := CharSextet(g[2]).value, CharSextet(g[3]).value;
    TripleOfSextets(a, b, c, d);
  }
}
