/** Base 64 encoding as defined in section 4 of RFC 4648 (standard alphabet,
    `=` padding), the encoding `base64::encode` applies to the bytes of
    `user:password` for an HTTP Basic credential. `Decode` is the inverse a
    server applies; `DecodeEncode` proves the two fit together. */
module Base64 {
  import opened Wrappers
  import opened Bytes

  /** The 64 characters of the alphabet (section 4, table 1). */
  predicate IsAlphabetChar(c: char) {
    ('A' <= c <= 'Z') || ('a' <= c <= 'z') || ('0' <= c <= '9') || c == '+' || c == '/'
  }

  /** A character an encoding may contain: the alphabet or the pad `=`. */
  predicate IsEncodingChar(c: char) {
    IsAlphabetChar(c) || c == '='
  }

  /** The character that table 1 assigns to a 6-bit value. */
  function CharOf(i: int): (c: char)
    requires 0 <= i < 64
    ensures IsAlphabetChar(c)
  {
    if i < 26 then ('A' as int + i) as char
    else if i < 52 then ('a' as int + (i - 26)) as char
    else if i < 62 then ('0' as int + (i - 52)) as char
    else if i == 62 then '+'
    else '/'
  }

  /** The 6-bit value of an alphabet character; None for any other character. */
  function IndexOf(c: char): (r: Option<int>)
    ensures r.Some? <==> IsAlphabetChar(c)
    ensures r.Some? ==> 0 <= r.value < 64
  {
    if 'A' <= c <= 'Z' then Some(c as int - 'A' as int)
    else if 'a' <= c <= 'z' then Some(c as int - 'a' as int + 26)
    else if '0' <= c <= '9' then Some(c as int - '0' as int + 52)
    else if c == '+' then Some(62)
    else if c == '/' then Some(63)
    else None
  }

  /** Table 1 read both ways: value to character to value. */
  lemma IndexOfCharOf(i: int)
    requires 0 <= i < 64
    ensures IndexOf(CharOf(i)) == Some(i)
  {
  }

  /** Table 1 read both ways: character to value to character. */
  lemma CharOfIndexOf(c: char)
    requires IsAlphabetChar(c)
    ensures CharOf(IndexOf(c).value) == c
  {
  }

  /** The four 6-bit values of a 24-bit group, most significant first. */
  function Sextets(b0: Byte, b1: Byte, b2: Byte): (r: (int, int, int, int))
    ensures 0 <= r.0 < 64 && 0 <= r.1 < 64 && 0 <= r.2 < 64 && 0 <= r.3 < 64
  {
    (b0 / 4, (b0 % 4) * 16 + b1 / 16, (b1 % 16) * 4 + b2 / 64, b2 % 64)
  }

  /** The three bytes that four 6-bit values make up. */
  function Octets(c0: int, c1: int, c2: int, c3: int): (r: (Byte, Byte, Byte))
    requires 0 <= c0 < 64 && 0 <= c1 < 64 && 0 <= c2 < 64 && 0 <= c3 < 64
  {
    (c0 * 4 + c1 / 16, (c1 % 16) * 16 + c2 / 4, (c2 % 4) * 64 + c3)
  }

  lemma Split4(hi: int, lo: int)
    requires 0 <= lo < 4
    ensures (hi * 4 + lo) / 4 == hi && (hi * 4 + lo) % 4 == lo
  {
  }

  lemma Split16(hi: int, lo: int)
    requires 0 <= lo < 16
    ensures (hi * 16 + lo) / 16 == hi && (hi * 16 + lo) % 16 == lo
  {
  }

  /** Regrouping bits is reversible. */
  lemma OctetsOfSextets(b0: Byte, b1: Byte, b2: Byte)
    ensures var c := Sextets(b0, b1, b2); Octets(c.0, c.1, c.2, c.3) == (b0, b1, b2)
  {
    Split16(b0 % 4, b1 / 16);
    Split4(b1 % 16, b2 / 64);
  }

  /** The zero bits that fill a short final group are zero low bits of its
      last sextet. */
  lemma FillBits(b0: Byte, b1: Byte)
    ensures var c := Sextets(b0, 0, 0); c.1 % 16 == 0 && c.2 == 0 && c.3 == 0
    ensures var c := Sextets(b0, b1, 0); c.2 % 4 == 0 && c.3 == 0
  {
    Split16(b0 % 4, 0);
    Split4(b1 % 16, 0);
  }

  /** One 24-bit group as four characters. */
  function EncodeGroup(b0: Byte, b1: Byte, b2: Byte): string {
    var c := Sextets(b0, b1, b2);
    [CharOf(c.0), CharOf(c.1), CharOf(c.2), CharOf(c.3)]
  }

  /** The encoding of `s`: full groups of three bytes, then a final group of
      one or two bytes, filled with zero bits and padded with `==` or `=`
      (section 4, cases (2) and (3)). */
  function Encode(s: seq<Byte>): (r: string)
    ensures |r| == 4 * ((|s| + 2) / 3)
    decreases |s|
  {
    if |s| == 0 then ""
    else if |s| == 1 then EncodeGroup(s[0], 0, 0)[..2] + "=="
    else if |s| == 2 then EncodeGroup(s[0], s[1], 0)[..3] + "="
    else EncodeGroup(s[0], s[1], s[2]) + Encode(s[3..])
  }

  /** Decodes one four-character group; `last` allows the padded forms. Bits
      below a pad must be zero, so every encoding has exactly one decoding. */
  function DecodeGroup(g: string, last: bool): (r: Option<seq<Byte>>)
    requires |g| == 4
    ensures r.Some? ==> 1 <= |r.value| <= 3
    ensures r.Some? && !last ==> |r.value| == 3
  {
    var c0 :- IndexOf(g[0]);
    var c1 :- IndexOf(g[1]);
    if last && g[2] == '=' && g[3] == '=' then
      if c1 % 16 == 0 then Some([Octets(c0, c1, 0, 0).0]) else None
    else
      var c2 :- IndexOf(g[2]);
      if last && g[3] == '=' then
        if c2 % 4 == 0 then
          var b := Octets(c0, c1, c2, 0);
          Some([b.0, b.1])
        else None
      else
        var c3 :- IndexOf(g[3]);
        var b := Octets(c0, c1, c2, c3);
        Some([b.0, b.1, b.2])
  }

  /** The inverse of `Encode`: None for a string that is not a padded encoding. */
  function Decode(t: string): (r: Option<seq<Byte>>)
    decreases |t|
  {
    if |t| == 0 then Some([])
    else if |t| < 4 then None
    else if |t| == 4 then DecodeGroup(t, true)
    else
      var head :- DecodeGroup(t[..4], false);
      var tail :- Decode(t[4..]);
      Some(head + tail)
  }

  lemma DecodeOneByte(b0: Byte)
    ensures Decode(Encode([b0])) == Some([b0])
  {
    var c := Sextets(b0, 0, 0);
    OctetsOfSextets(b0, 0, 0);
    FillBits(b0, 0);
    IndexOfCharOf(c.0);
    IndexOfCharOf(c.1);
    var g := Encode([b0]);
    assert g == [CharOf(c.0), CharOf(c.1), '=', '='];
  }

  lemma DecodeTwoBytes(b0: Byte, b1: Byte)
    ensures Decode(Encode([b0, b1])) == Some([b0, b1])
  {
    var c := Sextets(b0, b1, 0);
    OctetsOfSextets(b0, b1, 0);
    FillBits(b0, b1);
    IndexOfCharOf(c.0);
    IndexOfCharOf(c.1);
    IndexOfCharOf(c.2);
    var g := Encode([b0, b1]);
    assert g == [CharOf(c.0), CharOf(c.1), CharOf(c.2), '='];
    assert g[2] != '=';
  }

  lemma DecodeFullGroup(b0: Byte, b1: Byte, b2: Byte, last: bool)
    ensures DecodeGroup(EncodeGroup(b0, b1, b2), last) == Some([b0, b1, b2])
  {
    var c := Sextets(b0, b1, b2);
    OctetsOfSextets(b0, b1, b2);
    IndexOfCharOf(c.0);
    IndexOfCharOf(c.1);
    IndexOfCharOf(c.2);
    IndexOfCharOf(c.3);
    var g := EncodeGroup(b0, b1, b2);
    assert g[2] != '=' && g[3] != '=';
  }

  lemma DecodeThreeBytes(b0: Byte, b1: Byte, b2: Byte)
    ensures Decode(Encode([b0, b1, b2])) == Some([b0, b1, b2])
  {
    assert Encode([b0, b1, b2]) == EncodeGroup(b0, b1, b2);
    DecodeFullGroup(b0, b1, b2, true);
  }

  lemma DecodeEncodeShort(s: seq<Byte>)
    requires |s| <= 3
    ensures Decode(Encode(s)) == Some(s)
  {
    if |s| == 1 {
      DecodeEncode1(s);
    } else if |s| == 2 {
      DecodeEncode2(s);
    } else if |s| == 3 {
      DecodeEncode3(s);
    }
  }

  lemma DecodeEncode1(s: seq<Byte>)
    requires |s| == 1
    ensures Decode(Encode(s)) == Some(s)
  {
    var b0 := s[0];
    assert s == [b0];
    DecodeOneByte(b0);
  }

  lemma DecodeEncode2(s: seq<Byte>)
    requires |s| == 2
    ensures Decode(Encode(s)) == Some(s)
  {
    var b0, b1 := s[0], s[1];
    assert s == [b0, b1];
    DecodeTwoBytes(b0, b1);
  }

  lemma DecodeEncode3(s: seq<Byte>)
    requires |s| == 3
    ensures Decode(Encode(s)) == Some(s)
  {
    HeadAndTail(s);
    DecodeThreeBytes(s[0], s[1], s[2]);
  }

  lemma HeadAndTail(s: seq<Byte>)
    requires |s| >= 3
    ensures s == [s[0], s[1], s[2]] + s[3..]
    ensures |s| == 3 ==> s == [s[0], s[1], s[2]]
  {
  }

  /** Decoding a full group followed by more groups. */
  lemma DecodeCons(g: string, rest: string, head: seq<Byte>, tail: seq<Byte>)
    requires |g| == 4 && |rest| > 0
    requires DecodeGroup(g, false) == Some(head) && Decode(rest) == Some(tail)
    ensures Decode(g + rest) == Some(head + tail)
  {
    var t := g + rest;
    assert t[..4] == g;
    assert t[4..] == rest;
  }

  /** The encoding of more than three bytes: one group, then the rest. */
  lemma EncodeCons(s: seq<Byte>)
    requires |s| > 3
    ensures Encode(s) == EncodeGroup(s[0], s[1], s[2]) + Encode(s[3..])
    ensures |Encode(s[3..])| > 0
  {
  }

  lemma DecodeEncodeLong(s: seq<Byte>)
    requires |s| > 3 && Decode(Encode(s[3..])) == Some(s[3..])
    ensures Decode(Encode(s)) == Some(s)
  {
    EncodeCons(s);
    DecodeFullGroup(s[0], s[1], s[2], false);
    DecodeCons(EncodeGroup(s[0], s[1], s[2]), Encode(s[3..]), [s[0], s[1], s[2]], s[3..]);
    HeadAndTail(s);
  }

  /** Round trip: decoding an encoding gives back the bytes. */
  lemma {:induction false} DecodeEncode(s: seq<Byte>)
    ensures Decode(Encode(s)) == Some(s)
    decreases |s|
  {
    if |s| <= 3 {
      DecodeEncodeShort(s);
    } else {
      DecodeEncode(s[3..]);
      DecodeEncodeLong(s);
    }
  }

  /** Every character of an encoding is in the alphabet or is the pad. */
  lemma {:induction false} EncodeAlphabet(s: seq<Byte>)
    ensures forall i :: 0 <= i < |Encode(s)| ==> IsEncodingChar(Encode(s)[i])
    decreases |s|
  {
    if |s| > 3 {
      EncodeAlphabet(s[3..]);
      EncodeCons(s);
      var g := EncodeGroup(s[0], s[1], s[2]);
      forall i | 0 <= i < |Encode(s)| ensures IsEncodingChar(Encode(s)[i]) {
        if i >= 4 {
          assert Encode(s)[i] == Encode(s[3..])[i - 4];
        }
      }
    }
  }

  /** Distinct byte strings have distinct encodings. */
  lemma EncodeInjective(a: seq<Byte>, b: seq<Byte>)
    requires Encode(a) == Encode(b)
    ensures a == b
  {
    DecodeEncode(a);
    DecodeEncode(b);
  }
}
