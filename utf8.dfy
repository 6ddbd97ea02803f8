/** UTF-8 (RFC 3629): the bytes of a Rust `String`, which is what
    `base64::encode` receives for `user:password`. Dafny's `char` is a
    Unicode scalar value, as Rust's is. `Decode` is the partner that proves
    the encoding loses nothing. */
module Utf8 {
  import opened Wrappers
  import opened Bytes

  /** The UTF-8 form of one scalar value (RFC 3629, section 3). */
  function EncodeChar(c: char): (r: seq<Byte>)
    ensures 1 <= |r| <= 4
    ensures |r| == 1 <==> c as int < 0x80
    ensures |r| == 1 ==> r[0] == c as int
  {
    var n := c as int;
    if n < 0x80 then [n]
    else if n < 0x800 then [0xC0 + n / 64, 0x80 + n % 64]
    else if n < 0x1_0000 then [0xE0 + n / 4096, 0x80 + (n / 64) % 64, 0x80 + n % 64]
    else [0xF0 + n / 262144, 0x80 + (n / 4096) % 64, 0x80 + (n / 64) % 64, 0x80 + n % 64]
  }

  /** The UTF-8 form of a string: its characters' forms in order. */
  function Encode(s: string): (r: seq<Byte>)
    ensures |s| <= |r| <= 4 * |s|
    decreases |s|
  {
    if |s| == 0 then [] else EncodeChar(s[0]) + Encode(s[1..])
  }

  /** How many bytes a sequence starting with `lead` has; 0 if `lead`
      cannot start one. */
  function SequenceLength(lead: Byte): (n: nat)
    ensures n <= 4
  {
    if lead < 0x80 then 1
    else if 0xC2 <= lead < 0xE0 then 2
    else if 0xE0 <= lead < 0xF0 then 3
    else if 0xF0 <= lead < 0xF5 then 4
    else 0
  }

  predicate IsContinuation(b: Byte) {
    0x80 <= b < 0xC0
  }

  /** A scalar value: a code point that is not a surrogate. */
  predicate IsScalar(cp: int) {
    (0 <= cp < 0xD800) || (0xE000 <= cp < 0x11_0000)
  }

  /** Decodes one sequence whose length its lead byte gives; rejects
      overlong forms, surrogates and values past U+10FFFF. */
  function DecodeChar(bs: seq<Byte>): (r: Option<char>)
    requires 1 <= |bs| <= 4 && |bs| == SequenceLength(bs[0])
  {
    if |bs| == 1 then Some(bs[0] as char)
    else if !IsContinuation(bs[1]) || (|bs| > 2 && !IsContinuation(bs[2]))
      || (|bs| > 3 && !IsContinuation(bs[3])) then None
    else
      var cp :=
        if |bs| == 2 then (bs[0] as int - 0xC0) * 64 + (bs[1] as int - 0x80)
        else if |bs| == 3 then
          (bs[0] as int - 0xE0) * 4096 + (bs[1] as int - 0x80) * 64 + (bs[2] as int - 0x80)
        else
          (bs[0] as int - 0xF0) * 262144 + (bs[1] as int - 0x80) * 4096
          + (bs[2] as int - 0x80) * 64 + (bs[3] as int - 0x80);
      var least: int := if |bs| == 2 then 0x80 else if |bs| == 3 then 0x800 else 0x1_0000;
      if least <= cp && IsScalar(cp) then Some(cp as char) else None
  }

  /** The inverse of `Encode`: None for bytes that are not UTF-8. */
  function Decode(bs: seq<Byte>): (r: Option<string>)
    decreases |bs|
  {
    if |bs| == 0 then Some([])
    else
      var n := SequenceLength(bs[0]);
      if n == 0 || |bs| < n then None
      else
        var c :- DecodeChar(bs[..n]);
        var rest :- Decode(bs[n..]);
        Some([c] + rest)
  }

  /** Base-64 digits of a code point below 2^16 and below 2^21. */
  lemma Digits3(n: int)
    requires 0 <= n < 0x1_0000
    ensures n == (n / 4096) * 4096 + ((n / 64) % 64) * 64 + n % 64
  {
    assert n / 64 == (n / 4096) * 64 + (n / 64) % 64;
  }

  lemma Digits4(n: int)
    requires 0 <= n < 0x20_0000
    ensures n == (n / 262144) * 262144 + ((n / 4096) % 64) * 4096 + ((n / 64) % 64) * 64 + n % 64
  {
    assert n / 4096 == (n / 262144) * 64 + (n / 4096) % 64;
    assert n / 64 == (n / 4096) * 64 + (n / 64) % 64;
  }

  lemma DecodeEncodeTwo(c: char)
    requires 0x80 <= c as int < 0x800
    ensures var e := EncodeChar(c); SequenceLength(e[0]) == |e| && DecodeChar(e) == Some(c)
  {
    var n := c as int;
    assert n == (n / 64) * 64 + n % 64;
  }

  lemma DecodeEncodeThree(c: char)
    requires 0x800 <= c as int < 0x1_0000
    ensures var e := EncodeChar(c); SequenceLength(e[0]) == |e| && DecodeChar(e) == Some(c)
  {
    Digits3(c as int);
  }

  lemma DecodeEncodeFour(c: char)
    requires 0x1_0000 <= c as int
    ensures var e := EncodeChar(c); SequenceLength(e[0]) == |e| && DecodeChar(e) == Some(c)
  {
    Digits4(c as int);
  }

  /** One character's form decodes back to the character. */
  lemma DecodeEncodeChar(c: char)
    ensures var e := EncodeChar(c); SequenceLength(e[0]) == |e| && DecodeChar(e) == Some(c)
  {
    var n := c as int;
    if n < 0x80 {
    } else if n < 0x800 {
      DecodeEncodeTwo(c);
    } else if n < 0x1_0000 {
      DecodeEncodeThree(c);
    } else {
      DecodeEncodeFour(c);
    }
  }

  /** Round trip: decoding the UTF-8 form of a string gives the string. */
  lemma {:induction false} DecodeEncode(s: string)
    ensures Decode(Encode(s)) == Some(s)
    decreases |s|
  {
    if |s| > 0 {
      var e := EncodeChar(s[0]);
      var bs := Encode(s);
      assert bs == e + Encode(s[1..]);
      DecodeEncodeChar(s[0]);
      assert bs[0] == e[0];
      assert bs[..|e|] == e;
      assert bs[|e|..] == Encode(s[1..]);
      DecodeEncode(s[1..]);
      assert s == [s[0]] + s[1..];
    }
  }

  /** Different strings have different UTF-8 forms. */
  lemma EncodeInjective(a: string, b: string)
    requires Encode(a) == Encode(b)
    ensures a == b
  {
    DecodeEncode(a);
    DecodeEncode(b);
  }

  /** The form of a concatenation is the concatenation of the forms. */
  lemma {:induction false} EncodeAppend(a: string, b: string)
    ensures Encode(a + b) == Encode(a) + Encode(b)
    decreases |a|
  {
    if |a| > 0 {
      assert (a + b)[0] == a[0];
      assert (a + b)[1..] == a[1..] + b;
      assert Encode(a + b) == EncodeChar(a[0]) + Encode(a[1..] + b);
      EncodeAppend(a[1..], b);
    } else {
      assert a + b == b;
    }
  }
}
