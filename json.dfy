/**
 * The JSON text `json.dumps(value, indent=4)` produces (RFC 8259), with
 * Python's default `ensure_ascii=True`: every string is quoted and escaped
 * so that the text is printable ASCII apart from the layout's newlines.
 * The string escaping is paired with a decoder of RFC 8259 section 7
 * string literals.
 */
module Json {
  import opened Wrappers
  import opened PyStr

  /** The JSON values `SiteConfig.to_dict` produces; object members keep their insertion order. */
  datatype JValue =
    | JInt(i: int)
    | JStr(s: string)
    | JArr(items: seq<JValue>)
    | JObj(members: seq<(string, JValue)>)

  predicate Printable(c: char) { ' ' <= c <= '~' }

  predicate AllPrintable(s: string) {
    forall i :: 0 <= i < |s| ==> Printable(s[i])
  }

  predicate IsAscii(s: string) {
    forall i :: 0 <= i < |s| ==> s[i] < '\U{80}'
  }

  // ---------------------------------------------------------------- hex digits

  function HexDigit(d: nat): (c: char)
    requires d < 16
    ensures Printable(c)
  {
    if d < 10 then ('0' as int + d) as char else ('a' as int + d - 10) as char
  }

  /** The value of a hexadecimal digit, in either case. */
  function HexValue(c: char): Option<nat> {
    if '0' <= c <= '9' then Some(c as int - '0' as int)
    else if 'a' <= c <= 'f' then Some(c as int - 'a' as int + 10)
    else if 'A' <= c <= 'F' then Some(c as int - 'A' as int + 10)
    else None
  }

  lemma HexDigitValue(d: nat)
    requires d < 16
    ensures HexValue(HexDigit(d)) == Some(d)
  {
  }

  /** `'{0:04x}'.format(n)`. */
  function Hex4(n: nat): (h: string)
    requires n < 0x10000
    ensures |h| == 4 && AllPrintable(h)
  {
    var m1 := n / 16;
    var m2 := m1 / 16;
    [HexDigit(m2 / 16), HexDigit(m2 % 16), HexDigit(m1 % 16), HexDigit(n % 16)]
  }

  /** The value of four hexadecimal digits. */
  function Hex4Value(h: string): (r: Option<nat>)
    requires |h| == 4
    ensures r.Some? ==> r.value < 0x10000
  {
    match (HexValue(h[0]), HexValue(h[1]), HexValue(h[2]), HexValue(h[3]))
    case (Some(a), Some(b), Some(c), Some(d)) =>
      if a < 16 && b < 16 && c < 16 && d < 16 then Some(((a * 16 + b) * 16 + c) * 16 + d) else None
    case _ => None
  }

  lemma Hex4RoundTrip(n: nat)
    requires n < 0x10000
    ensures Hex4Value(Hex4(n)) == Some(n)
  {
    var m1 := n / 16;
    var m2 := m1 / 16;
    HexDigitValue(m2 / 16);
    HexDigitValue(m2 % 16);
    HexDigitValue(m1 % 16);
    HexDigitValue(n % 16);
    assert m2 == (m2 / 16) * 16 + m2 % 16;
    assert m1 == m2 * 16 + m1 % 16;
    assert n == m1 * 16 + n % 16;
  }

  // ------------------------------------------------------------------ escaping

  /** `\uXXXX`. */
  function UEscape(n: nat): (r: string)
    requires n < 0x10000
    ensures |r| == 6 && AllPrintable(r)
  {
    "\\u" + Hex4(n)
  }

  /** One character as `ensure_ascii` writes it. */
  function EscapeChar(c: char): (r: string)
    ensures r != [] && AllPrintable(r)
  {
    if c == '"' then "\\\""
    else if c == '\\' then "\\\\"
    else if c == '\n' then "\\n"
    else if c == '\r' then "\\r"
    else if c == '\t' then "\\t"
    else if c == '\U{8}' then "\\b"
    else if c == '\U{c}' then "\\f"
    else if Printable(c) then [c]
    else if (c as int) < 0x10000 then UEscape(c as int)
    else
      var v := c as int - 0x10000;
      UEscape(0xD800 + v / 1024) + UEscape(0xDC00 + v % 1024)
  }

  /** The escaped body of a string literal. */
  function Escape(s: string): (r: string)
    ensures AllPrintable(r)
  {
    if s == [] then [] else EscapeChar(s[0]) + Escape(s[1..])
  }

  /** A string as a JSON string literal. */
  function Quote(s: string): (r: string)
    ensures AllPrintable(r) && |r| >= 2 && r[0] == '"' && r[|r| - 1] == '"'
  {
    "\"" + Escape(s) + "\""
  }

  /** A character that needs no escape stands for itself. */
  predicate Plain(c: char) {
    Printable(c) && c != '"' && c != '\\'
  }

  predicate AllPlain(s: string) {
    forall i :: 0 <= i < |s| ==> Plain(s[i])
  }

  lemma {:induction false} EscapePlain(s: string)
    requires AllPlain(s)
    ensures Escape(s) == s
    decreases |s|
  {
    if s != [] {
      EscapePlain(s[1..]);
    }
  }

  // ------------------------------------------------------------------ decoding

  function Prepend(c: char, r: Option<string>): Option<string> {
    if r.Some? then Some([c] + r.value) else None
  }

  predicate IsHighSurrogate(n: int) { 0xD800 <= n < 0xDC00 }
  predicate IsLowSurrogate(n: int) { 0xDC00 <= n < 0xE000 }

  /** The body of an RFC 8259 string literal, unescaped; `None` when it is malformed. */
  function Unescape(s: string): Option<string>
    decreases |s|
  {
    if s == [] then Some([])
    else if s[0] == '"' || s[0] < ' ' then None
    else if s[0] != '\\' then Prepend(s[0], Unescape(s[1..]))
    else if |s| < 2 then None
    else if s[1] == 'u' then UnescapeU(s)
    else
      var c := s[1];
      var d := if c == '"' then Some('"') else if c == '\\' then Some('\\') else if c == '/' then Some('/')
               else if c == 'b' then Some('\U{8}') else if c == 'f' then Some('\U{c}')
               else if c == 'n' then Some('\n') else if c == 'r' then Some('\r')
               else if c == 't' then Some('\t') else None;
      if d.Some? then Prepend(d.value, Unescape(s[2..])) else None
  }

  /** A `\u` escape, with a surrogate pair combined into one character. */
  function UnescapeU(s: string): Option<string>
    requires |s| >= 2 && s[0] == '\\' && s[1] == 'u'
    decreases |s|, 0
  {
    if |s| < 6 then None
    else
      var hi := Hex4Value(s[2..6]);
      if hi.None? || IsLowSurrogate(hi.value) then None
      else if !IsHighSurrogate(hi.value) then Prepend(hi.value as char, Unescape(s[6..]))
      else if |s| < 12 || s[6] != '\\' || s[7] != 'u' then None
      else
        var lo := Hex4Value(s[8..12]);
        if lo.None? || !IsLowSurrogate(lo.value) then None
        else
          var code := 0x10000 + (hi.value - 0xD800) * 1024 + (lo.value - 0xDC00);
          Prepend(code as char, Unescape(s[12..]))
  }

  /** An RFC 8259 string literal: quotes around an escaped body. */
  function DecodeString(t: string): Option<string> {
    if |t| >= 2 && t[0] == '"' && t[|t| - 1] == '"' then Unescape(t[1..|t| - 1]) else None
  }

  /** Decoding a `\uXXXX` escape of a character outside the surrogate range. */
  lemma UnescapeBmp(c: char, rest: string)
    requires (c as int) < 0x10000
    ensures Unescape(UEscape(c as int) + rest) == Prepend(c, Unescape(rest))
  {
    var s := UEscape(c as int) + rest;
    Hex4RoundTrip(c as int);
    assert s[2..6] == Hex4(c as int);
    assert s[6..] == rest;
  }

  /** `Unescape` on a text that opens with a well-formed surrogate pair. */
  lemma UnescapePairStep(s: string, hi: int, lo: int)
    requires |s| >= 12 && s[0] == '\\' && s[1] == 'u' && s[6] == '\\' && s[7] == 'u'
    requires Hex4Value(s[2..6]) == Some(hi) && IsHighSurrogate(hi)
    requires Hex4Value(s[8..12]) == Some(lo) && IsLowSurrogate(lo)
    ensures Unescape(s) == Prepend((0x10000 + (hi - 0xD800) * 1024 + (lo - 0xDC00)) as char, Unescape(s[12..]))
  {
  }

  /** A `\\uXXXX` escape: the backslash, `u`, then the four digits. */
  lemma UEscapeParts(n: nat)
    requires n < 0x10000
    ensures UEscape(n)[0] == '\\' && UEscape(n)[1] == 'u' && UEscape(n)[2..] == Hex4(n)
  {
  }

  /** Two `\\u` escapes holding a high surrogate and then a low one decode to the character they combine to. */
  lemma UnescapeJoined(a: string, b: string, rest: string, hi: int, lo: int, c: char)
    requires |a| == 6 && a[0] == '\\' && a[1] == 'u' && Hex4Value(a[2..]) == Some(hi) && IsHighSurrogate(hi)
    requires |b| == 6 && b[0] == '\\' && b[1] == 'u' && Hex4Value(b[2..]) == Some(lo) && IsLowSurrogate(lo)
    requires c as int == 0x10000 + (hi - 0xD800) * 1024 + (lo - 0xDC00)
    ensures Unescape(a + b + rest) == Prepend(c, Unescape(rest))
  {
    var s := a + b + rest;
    assert s[2..6] == a[2..];
    assert s[8..12] == b[2..];
    assert s[6] == b[0] && s[7] == b[1];
    assert s[12..] == rest;
    UnescapePairStep(s, hi, lo);
  }

  /** A character beyond the basic plane escapes as the pair of its surrogates. */
  lemma EscapePairShape(c: char) returns (q: int, r: int)
    requires (c as int) >= 0x10000
    ensures 0 <= q < 1024 && 0 <= r < 1024 && 0x10000 + q * 1024 + r == c as int
    ensures EscapeChar(c) == UEscape(0xD800 + q) + UEscape(0xDC00 + r)
  {
    var v := c as int - 0x10000;
    q, r := v / 1024, v % 1024;
  }

  /** Decoding the surrogate pair of a character beyond the basic plane. */
  lemma UnescapePair(c: char, rest: string)
    requires (c as int) >= 0x10000
    ensures Unescape(EscapeChar(c) + rest) == Prepend(c, Unescape(rest))
  {
    var q, r := EscapePairShape(c);
    UEscapeParts(0xD800 + q);
    UEscapeParts(0xDC00 + r);
    Hex4RoundTrip(0xD800 + q);
    Hex4RoundTrip(0xDC00 + r);
    UnescapeJoined(UEscape(0xD800 + q), UEscape(0xDC00 + r), rest, 0xD800 + q, 0xDC00 + r, c);
  }

  /** Each escaped character decodes back to itself, whatever follows it. */
  lemma UnescapeChar(c: char, rest: string)
    ensures Unescape(EscapeChar(c) + rest) == Prepend(c, Unescape(rest))
  {
    var e := EscapeChar(c);
    if c == '"' || c == '\\' || c == '\n' || c == '\r' || c == '\t' || c == '\U{8}' || c == '\U{c}' {
      assert (e + rest)[2..] == rest;
    } else if Printable(c) {
      assert (e + rest)[1..] == rest;
    } else if (c as int) < 0x10000 {
      UnescapeBmp(c, rest);
    } else {
      UnescapePair(c, rest);
    }
  }

  lemma {:induction false} UnescapeEscape(s: string)
    ensures Unescape(Escape(s)) == Some(s)
    decreases |s|
  {
    if s != [] {
      UnescapeChar(s[0], Escape(s[1..]));
      UnescapeEscape(s[1..]);
      assert [s[0]] + s[1..] == s;
    }
  }

  /** Every quoted string decodes back to the original. */
  lemma DecodeQuote(s: string)
    ensures DecodeString(Quote(s)) == Some(s)
  {
    var q := Quote(s);
    assert q[1..|q| - 1] == Escape(s);
    UnescapeEscape(s);
  }

  // ------------------------------------------------------------------ dumping

  function Spaces(n: nat): (r: string)
    ensures |r| == n && forall i :: 0 <= i < n ==> r[i] == ' '
  {
    seq(n, _ => ' ')
  }

  /** `json.dumps(v, indent=indent)` for a value nested `level` deep. */
  function Dump(v: JValue, indent: nat, level: nat): string
    decreases v, 1
  {
    match v
    case JInt(i) => IntToString(i)
    case JStr(s) => Quote(s)
    case JArr(items) =>
      if items == [] then "[]"
      else "[" + "\n" + Spaces(indent * (level + 1)) + DumpItems(items, indent, level + 1)
           + "\n" + Spaces(indent * level) + "]"
    case JObj(members) =>
      if members == [] then "{}"
      else "{" + "\n" + Spaces(indent * (level + 1)) + DumpMembers(members, indent, level + 1)
           + "\n" + Spaces(indent * level) + "}"
  }

  /** Array items, separated by `,` and a new indented line. */
  function DumpItems(items: seq<JValue>, indent: nat, level: nat): string
    requires items != []
    decreases items, 0
  {
    if |items| == 1 then Dump(items[0], indent, level)
    else Dump(items[0], indent, level) + ",\n" + Spaces(indent * level) + DumpItems(items[1..], indent, level)
  }

  /** Object members `"key": value`, separated like array items. */
  function DumpMembers(members: seq<(string, JValue)>, indent: nat, level: nat): string
    requires members != []
    decreases members, 0
  {
    var m := Member(members[0], indent, level);
    if |members| == 1 then m
    else m + ",\n" + Spaces(indent * level) + DumpMembers(members[1..], indent, level)
  }

  function Member(m: (string, JValue), indent: nat, level: nat): string
    decreases m, 2
  {
    Quote(m.0) + ": " + Dump(m.1, indent, level)
  }

  predicate SpacedAscii(s: string) {
    forall i :: 0 <= i < |s| ==> Printable(s[i]) || s[i] == '\n'
  }

  lemma SpacedConcat(a: string, b: string)
    requires SpacedAscii(a) && SpacedAscii(b)
    ensures SpacedAscii(a + b)
  {
  }

  /** The dumped text is printable ASCII and newlines, so its UTF-8 bytes are its characters. */
  lemma {:induction false} DumpIsAscii(v: JValue, indent: nat, level: nat)
    ensures SpacedAscii(Dump(v, indent, level))
    decreases v, 1
  {
    match v
    case JInt(i) =>
      assert SpacedAscii(IntToString(i)) by {
        IntIsPrintable(i);
      }
    case JStr(s) =>
    case JArr(items) =>
      if items != [] {
        DumpItemsIsAscii(items, indent, level + 1);
      }
    case JObj(members) =>
      if members != [] {
        DumpMembersIsAscii(members, indent, level + 1);
      }
  }

  lemma {:induction false} DumpItemsIsAscii(items: seq<JValue>, indent: nat, level: nat)
    requires items != []
    ensures SpacedAscii(DumpItems(items, indent, level))
    decreases items, 0
  {
    DumpIsAscii(items[0], indent, level);
    if |items| > 1 {
      DumpItemsIsAscii(items[1..], indent, level);
    }
  }

  lemma {:induction false} DumpMembersIsAscii(members: seq<(string, JValue)>, indent: nat, level: nat)
    requires members != []
    ensures SpacedAscii(DumpMembers(members, indent, level))
    decreases members, 0
  {
    MemberIsAscii(members[0], indent, level);
    if |members| > 1 {
      DumpMembersIsAscii(members[1..], indent, level);
    }
  }

  lemma {:induction false} MemberIsAscii(m: (string, JValue), indent: nat, level: nat)
    ensures SpacedAscii(Member(m, indent, level))
    decreases m, 2
  {
    DumpIsAscii(m.1, indent, level);
  }

  // ------------------------------------------------------- what a dump shows

  /** The items' dump shows what the first item's dump shows. */
  lemma ItemsShowFirst(items: seq<JValue>, indent: nat, level: nat, sub: string)
    requires items != [] && Contains(Dump(items[0], indent, level), sub)
    ensures Contains(DumpItems(items, indent, level), sub)
  {
    if |items| > 1 {
      var tail := ",\n" + Spaces(indent * level) + DumpItems(items[1..], indent, level);
      assert DumpItems(items, indent, level) == Dump(items[0], indent, level) + tail;
      ContainsInPrefix(Dump(items[0], indent, level), tail, sub);
    }
  }

  /** The members' dump shows what the first member shows. */
  lemma MembersShowFirst(members: seq<(string, JValue)>, indent: nat, level: nat, sub: string)
    requires members != [] && Contains(Member(members[0], indent, level), sub)
    ensures Contains(DumpMembers(members, indent, level), sub)
  {
    if |members| > 1 {
      var tail := ",\n" + Spaces(indent * level) + DumpMembers(members[1..], indent, level);
      assert DumpMembers(members, indent, level) == Member(members[0], indent, level) + tail;
      ContainsInPrefix(Member(members[0], indent, level), tail, sub);
    }
  }

  /** A dumped array shows what its first item's dump shows. */
  lemma ArrayShowsFirstItem(items: seq<JValue>, indent: nat, level: nat, sub: string)
    requires items != [] && Contains(Dump(items[0], indent, level + 1), sub)
    ensures Contains(Dump(JArr(items), indent, level), sub)
  {
    var all := DumpItems(items, indent, level + 1);
    var pre, post := "[" + "\n" + Spaces(indent * (level + 1)), "\n" + Spaces(indent * level) + "]";
    ItemsShowFirst(items, indent, level + 1, sub);
    ContainsWithin(pre, all, post, sub);
    assert Dump(JArr(items), indent, level) == pre + all + post;
  }

  /** A dumped object shows what its first member shows. */
  lemma ObjectShowsFirstMember(members: seq<(string, JValue)>, indent: nat, level: nat, sub: string)
    requires members != [] && Contains(Member(members[0], indent, level + 1), sub)
    ensures Contains(Dump(JObj(members), indent, level), sub)
  {
    var all := DumpMembers(members, indent, level + 1);
    var pre, post := "{" + "\n" + Spaces(indent * (level + 1)), "\n" + Spaces(indent * level) + "}";
    MembersShowFirst(members, indent, level + 1, sub);
    ContainsWithin(pre, all, post, sub);
    assert Dump(JObj(members), indent, level) == pre + all + post;
  }

  /** A member shows its quoted key. */
  lemma MemberShowsKey(m: (string, JValue), indent: nat, level: nat)
    ensures Contains(Member(m, indent, level), Quote(m.0))
  {
    ContainsInfix([], Quote(m.0), ": " + Dump(m.1, indent, level));
    assert [] + Quote(m.0) + (": " + Dump(m.1, indent, level)) == Member(m, indent, level);
  }

  /** A member shows what its value's dump shows. */
  lemma MemberShowsValue(m: (string, JValue), indent: nat, level: nat, sub: string)
    requires Contains(Dump(m.1, indent, level), sub)
    ensures Contains(Member(m, indent, level), sub)
  {
    ContainsInSuffix(Quote(m.0) + ": ", Dump(m.1, indent, level), sub);
  }

  /** A dumped string that needs no escaping shows the string itself. */
  lemma StringShowsItself(s: string, indent: nat, level: nat)
    requires AllPlain(s)
    ensures Contains(Dump(JStr(s), indent, level), s)
  {
    EscapePlain(s);
    ContainsInfix("\"", s, "\"");
  }

  lemma IntIsPrintable(i: int)
    ensures AllPrintable(IntToString(i))
  {
    var s := IntToString(i);
    if i >= 0 {
      assert forall k :: 0 <= k < |s| ==> IsDigit(s[k]);
    } else {
      assert s == "-" + NatToString(-i);
      assert forall k :: 1 <= k < |s| ==> s[k] == NatToString(-i)[k - 1];
    }
  }
}
