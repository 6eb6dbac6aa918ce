/**
 * Base 64 encoding with the standard alphabet and `=` padding, as in
 * section 4 of RFC 4648 (`base64.b64encode`), with its decoder; and the
 * UTF-8 bytes of an ASCII text, which are its character codes.
 */
module Base64 {
  import opened Wrappers

  type Byte = x: int | 0 <= x < 256

  /** The character for a 6-bit value. */
  function Char64(d: nat): (c: char)
    requires d < 64
  {
    if d < 26 then ('A' as int + d) as char
    else if d < 52 then ('a' as int + d - 26) as char
    else if d < 62 then ('0' as int + d - 52) as char
    else if d == 62 then '+'
    else '/'
  }

  /** The 6-bit value of an alphabet character. */
  function Value64(c: char): (r: Option<nat>)
    ensures r.Some? ==> r.value < 64
  {
    if 'A' <= c <= 'Z' then Some(c as int - 'A' as int)
    else if 'a' <= c <= 'z' then Some(c as int - 'a' as int + 26)
    else if '0' <= c <= '9' then Some(c as int - '0' as int + 52)
    else if c == '+' then Some(62)
    else if c == '/' then Some(63)
    else None
  }

  lemma Char64Value(d: nat)
    requires d < 64
    ensures Value64(Char64(d)) == Some(d)
  {
  }

  predicate InAlphabet(c: char) {
    Value64(c).Some? || c == '='
  }

  /** Three bytes as four characters. */
  function Group3(b0: Byte, b1: Byte, b2: Byte): (g: string)
    ensures |g| == 4 && forall i :: 0 <= i < 4 ==> InAlphabet(g[i])
  {
    [Char64(b0 / 4), Char64(b0 % 4 * 16 + b1 / 16), Char64(b1 % 16 * 4 + b2 / 64), Char64(b2 % 64)]
  }

  /** Two final bytes as three characters and one `=`. */
  function Group2(b0: Byte, b1: Byte): (g: string)
    ensures |g| == 4 && forall i :: 0 <= i < 4 ==> InAlphabet(g[i])
  {
    [Char64(b0 / 4), Char64(b0 % 4 * 16 + b1 / 16), Char64(b1 % 16 * 4), '=']
  }

  /** One final byte as two characters and two `=`. */
  function Group1(b0: Byte): (g: string)
    ensures |g| == 4 && forall i :: 0 <= i < 4 ==> InAlphabet(g[i])
  {
    [Char64(b0 / 4), Char64(b0 % 4 * 16), '=', '=']
  }

  /** `base64.b64encode`: each 3 bytes become 4 characters; a final 1 or 2 bytes are padded with `=`. */
  function Encode(b: seq<Byte>): (s: string)
    ensures |s| == (|b| + 2) / 3 * 4
    ensures forall i :: 0 <= i < |s| ==> InAlphabet(s[i])
  {
    if |b| == 0 then []
    else if |b| == 1 then Group1(b[0])
    else if |b| == 2 then Group2(b[0], b[1])
    else Group3(b[0], b[1], b[2]) + Encode(b[3..])
  }

  /** Decoding one group of 4 characters, the last group possibly padded. */
  function DecodeGroup(g: string, last: bool): (r: Option<seq<Byte>>)
    requires |g| == 4
  {
    var v0, v1 := Value64(g[0]), Value64(g[1]);
    if v0.None? || v1.None? then None
    else
      var b0 := v0.value * 4 + v1.value / 16;
      if last && g[2] == '=' && g[3] == '=' then Some([b0])
      else
        var v2 := Value64(g[2]);
        if v2.None? then None
        else
          var b1 := v1.value % 16 * 16 + v2.value / 4;
          if last && g[3] == '=' then Some([b0, b1])
          else
            var v3 := Value64(g[3]);
            if v3.None? then None
            else Some([b0, b1, v2.value % 4 * 64 + v3.value])
  }

  /** Decoding of an encoded text; `None` when it is not a whole number of valid groups. */
  function Decode(s: string): Option<seq<Byte>>
    decreases |s|
  {
    if |s| == 0 then Some([])
    else if |s| < 4 then None
    else
      var g := DecodeGroup(s[..4], |s| == 4);
      var rest := Decode(s[4..]);
      if g.None? || rest.None? then None else Some(g.value + rest.value)
  }

  lemma GroupOfThree(b0: Byte, b1: Byte, b2: Byte, last: bool)
    ensures DecodeGroup(Group3(b0, b1, b2), last) == Some([b0, b1, b2])
  {
    Char64Value(b0 / 4);
    Char64Value(b0 % 4 * 16 + b1 / 16);
    Char64Value(b1 % 16 * 4 + b2 / 64);
    Char64Value(b2 % 64);
    assert (b0 % 4 * 16 + b1 / 16) / 16 == b0 % 4;
    assert (b0 % 4 * 16 + b1 / 16) % 16 == b1 / 16;
    assert (b1 % 16 * 4 + b2 / 64) / 4 == b1 % 16;
    assert (b1 % 16 * 4 + b2 / 64) % 4 == b2 / 64;
  }

  lemma GroupOfTwo(b0: Byte, b1: Byte)
    ensures DecodeGroup(Group2(b0, b1), true) == Some([b0, b1])
  {
    Char64Value(b0 / 4);
    Char64Value(b0 % 4 * 16 + b1 / 16);
    Char64Value(b1 % 16 * 4);
    assert (b0 % 4 * 16 + b1 / 16) / 16 == b0 % 4;
    assert (b0 % 4 * 16 + b1 / 16) % 16 == b1 / 16;
    assert (b1 % 16 * 4) / 4 == b1 % 16;
  }

  lemma GroupOfOne(b0: Byte)
    ensures DecodeGroup(Group1(b0), true) == Some([b0])
  {
    Char64Value(b0 / 4);
    Char64Value(b0 % 4 * 16);
    assert (b0 % 4 * 16) / 16 == b0 % 4;
  }

  /** Decoding a group followed by more text. */
  lemma DecodeCons(g: string, rest: string, x: seq<Byte>, y: seq<Byte>)
    requires |g| == 4 && DecodeGroup(g, rest == []) == Some(x) && Decode(rest) == Some(y)
    ensures Decode(g + rest) == Some(x + y)
  {
    var s := g + rest;
    assert s[..4] == g && s[4..] == rest;
  }

  lemma DecodeOne(b: seq<Byte>)
    requires |b| == 1
    ensures Decode(Encode(b)) == Some(b)
  {
    GroupOfOne(b[0]);
    DecodeCons(Group1(b[0]), [], [b[0]], []);
    assert Group1(b[0]) + [] == Encode(b);
    assert [b[0]] + [] == b;
  }

  lemma DecodeTwo(b: seq<Byte>)
    requires |b| == 2
    ensures Decode(Encode(b)) == Some(b)
  {
    GroupOfTwo(b[0], b[1]);
    DecodeCons(Group2(b[0], b[1]), [], [b[0], b[1]], []);
    assert Group2(b[0], b[1]) + [] == Encode(b);
    assert [b[0], b[1]] + [] == b;
  }

  /** Decoding the encoding gives the bytes back. */
  lemma {:induction false} DecodeEncode(b: seq<Byte>)
    ensures Decode(Encode(b)) == Some(b)
    decreases |b|
  {
    if |b| == 1 {
      DecodeOne(b);
    } else if |b| == 2 {
      DecodeTwo(b);
    } else if |b| >= 3 {
      var tail := b[3..];
      DecodeEncode(tail);
      assert Encode(b) == Group3(b[0], b[1], b[2]) + Encode(tail);
      DecodeThreeMore(b[0], b[1], b[2], tail, Encode(tail));
      assert [b[0], b[1], b[2]] + tail == b;
    }
  }

  lemma DecodeThreeMore(b0: Byte, b1: Byte, b2: Byte, tail: seq<Byte>, rest: string)
    requires Decode(rest) == Some(tail)
    ensures Decode(Group3(b0, b1, b2) + rest) == Some([b0, b1, b2] + tail)
  {
    GroupOfThree(b0, b1, b2, rest == []);
    DecodeCons(Group3(b0, b1, b2), rest, [b0, b1, b2], tail);
  }

  // --------------------------------------------------------------- ASCII text

  predicate IsAsciiText(s: string) {
    forall i :: 0 <= i < |s| ==> (s[i] as int) < 128
  }

  /** `s.encode()` (UTF-8) of an ASCII text: one byte per character, its code. */
  function AsciiBytes(s: string): (b: seq<Byte>)
    requires IsAsciiText(s)
    ensures |b| == |s| && forall i :: 0 <= i < |b| ==> b[i] == s[i] as int
  {
    seq(|s|, i requires 0 <= i < |s| => s[i] as int)
  }

  /** `b.decode()` (UTF-8) of bytes below 128. */
  function AsciiText(b: seq<Byte>): (s: string)
    requires forall i :: 0 <= i < |b| ==> b[i] < 128
    ensures |s| == |b|
  {
    seq(|b|, i requires 0 <= i < |b| => b[i] as char)
  }

  lemma AsciiRoundTrip(s: string)
    requires IsAsciiText(s)
    ensures AsciiText(AsciiBytes(s)) == s
  {
  }

  /** The text of the decoded content is the text that was encoded. */
  lemma ContentRoundTrip(s: string)
    requires IsAsciiText(s)
    ensures Decode(Encode(AsciiBytes(s))).Some?
    ensures var b := Decode(Encode(AsciiBytes(s))).value;
      (forall i :: 0 <= i < |b| ==> b[i] < 128) && AsciiText(b) == s
  {
    DecodeEncode(AsciiBytes(s));
    AsciiRoundTrip(s);
  }
}
