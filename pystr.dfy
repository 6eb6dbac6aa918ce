/**
 * The Python `str` operations the bot relies on, written out so that every
 * other module states its rules in the same terms: `lower()`/`upper()` (on
 * ASCII letters), `strip()`/`rstrip(c)`, `replace`, `in`, `startswith`,
 * `split(c)`, `split()`, `join`, `str(int)` and `int(str)`.
 */
module PyStr {
  import opened Wrappers

  // ---------------------------------------------------------------- characters

  /** Python's `str.isspace()`. */
  predicate IsSpace(c: char) {
    c == ' ' || ('\t' <= c <= '\r') || ('\U{1c}' <= c <= '\U{1f}')
    || c == '\U{85}' || c == '\U{a0}' || c == '\U{1680}'
    || ('\U{2000}' <= c <= '\U{200a}') || c == '\U{2028}' || c == '\U{2029}'
    || c == '\U{202f}' || c == '\U{205f}' || c == '\U{3000}'
  }

  predicate IsUpperAscii(c: char) { 'A' <= c <= 'Z' }

  predicate IsDigit(c: char) { '0' <= c <= '9' }

  function LowerChar(c: char): (r: char)
    ensures !IsUpperAscii(r)
    ensures !IsUpperAscii(c) ==> r == c
  {
    if IsUpperAscii(c) then (c as int + 32) as char else c
  }

  /** `s.lower()`, restricted to the ASCII letters. */
  function Lower(s: string): (r: string)
    ensures |r| == |s|
    ensures forall i :: 0 <= i < |r| ==> r[i] == LowerChar(s[i])
  {
    seq(|s|, i requires 0 <= i < |s| => LowerChar(s[i]))
  }

  predicate IsLowerAscii(c: char) { 'a' <= c <= 'z' }

  function UpperChar(c: char): (r: char)
    ensures !IsLowerAscii(r)
    ensures !IsLowerAscii(c) ==> r == c
  {
    if IsLowerAscii(c) then (c as int - 32) as char else c
  }

  /** `s.upper()`, restricted to the ASCII letters. */
  function Upper(s: string): (r: string)
    ensures |r| == |s|
    ensures forall i :: 0 <= i < |r| ==> r[i] == UpperChar(s[i])
  {
    seq(|s|, i requires 0 <= i < |s| => UpperChar(s[i]))
  }

  predicate NoUpper(s: string) {
    forall i :: 0 <= i < |s| ==> !IsUpperAscii(s[i])
  }

  lemma LowerIdempotent(s: string)
    ensures Lower(Lower(s)) == Lower(s)
    ensures NoUpper(Lower(s))
  {
  }

  // ---------------------------------------------------------- prefixes, search

  predicate StartsWith(s: string, p: string) {
    |p| <= |s| && s[..|p|] == p
  }

  predicate EndsWith(s: string, p: string) {
    |p| <= |s| && s[|s| - |p|..] == p
  }

  /** Python's `sub in s`. */
  predicate Contains(s: string, sub: string)
    decreases |s|
  {
    StartsWith(s, sub) || (|s| > 0 && Contains(s[1..], sub))
  }

  /** If `sub` occurs at position `i` of `s`, then `sub in s`. */
  lemma {:induction false} ContainsAt(s: string, sub: string, i: nat)
    requires i + |sub| <= |s| && s[i..i + |sub|] == sub
    ensures Contains(s, sub)
    decreases i
  {
    if i == 0 {
      assert s[..|sub|] == sub;
    } else {
      assert s[1..][i - 1..i - 1 + |sub|] == s[i..i + |sub|];
      ContainsAt(s[1..], sub, i - 1);
    }
  }

  /** `sub in prefix + sub + suffix`. */
  lemma ContainsInfix(prefix: string, sub: string, suffix: string)
    ensures Contains(prefix + sub + suffix, sub)
  {
    var s := prefix + sub + suffix;
    assert s[|prefix|..|prefix| + |sub|] == sub;
    ContainsAt(s, sub, |prefix|);
  }

  /** A character occurs in `s` exactly when the one-character string is `in s`. */
  lemma {:induction false} ContainsChar(s: string, c: char)
    ensures Contains(s, [c]) <==> c in s
    decreases |s|
  {
    if |s| > 0 {
      ContainsChar(s[1..], c);
      assert s == [s[0]] + s[1..];
    }
  }

  /** A substring of a suffix is a substring of the whole. */
  lemma {:induction false} ContainsInSuffix(a: string, b: string, sub: string)
    requires Contains(b, sub)
    ensures Contains(a + b, sub)
    decreases |a|
  {
    if a != [] {
      ContainsInSuffix(a[1..], b, sub);
      assert (a + b)[1..] == a[1..] + b;
    } else {
      assert a + b == b;
    }
  }

  /** A substring of a prefix is a substring of the whole. */
  lemma {:induction false} ContainsInPrefix(a: string, b: string, sub: string)
    requires Contains(a, sub)
    ensures Contains(a + b, sub)
    decreases |a|
  {
    if StartsWith(a, sub) {
      assert (a + b)[..|sub|] == a[..|sub|];
    } else {
      ContainsInPrefix(a[1..], b, sub);
      assert (a + b)[1..] == a[1..] + b;
    }
  }

  /** A substring of a middle part is a substring of the whole. */
  lemma ContainsWithin(a: string, m: string, b: string, sub: string)
    requires Contains(m, sub)
    ensures Contains(a + m + b, sub)
  {
    ContainsInPrefix(m, b, sub);
    ContainsInSuffix(a, m + b, sub);
    assert a + (m + b) == a + m + b;
  }

  /** `sub` cannot occur in `s` when one of its characters does not occur in `s`. */
  lemma {:induction false} NotContained(s: string, sub: string, k: nat)
    requires k < |sub| && sub[k] !in s
    ensures !Contains(s, sub)
    decreases |s|
  {
    if |sub| <= |s| {
      assert s[..|sub|][k] == s[k] && s[k] in s;
    }
    if |s| > 0 {
      NotContained(s[1..], sub, k);
    }
  }

  /** Index of the first `c` in `s`, or `|s|` when there is none. */
  function Find(s: string, c: char): (i: nat)
    ensures i <= |s|
    ensures i < |s| ==> s[i] == c
    ensures forall j :: 0 <= j < i ==> s[j] != c
    ensures i == |s| <==> c !in s
  {
    if |s| == 0 then 0
    else if s[0] == c then 0
    else 1 + Find(s[1..], c)
  }

  /** `s.count(c)` for a single character. */
  function Count(s: string, c: char): (n: nat)
    ensures n <= |s|
    ensures n == 0 <==> c !in s
  {
    if |s| == 0 then 0
    else (if s[0] == c then 1 else 0) + Count(s[1..], c)
  }

  // ------------------------------------------------------------------ stripping

  function LStrip(s: string): (r: string)
    ensures |r| <= |s| && r == s[|s| - |r|..]
    ensures r == [] || !IsSpace(r[0])
    ensures forall i :: 0 <= i < |s| - |r| ==> IsSpace(s[i])
  {
    if |s| > 0 && IsSpace(s[0]) then LStrip(s[1..]) else s
  }

  function RStrip(s: string): (r: string)
    ensures |r| <= |s| && r == s[..|r|]
    ensures r == [] || !IsSpace(r[|r| - 1])
    ensures forall i :: |r| <= i < |s| ==> IsSpace(s[i])
  {
    if |s| > 0 && IsSpace(s[|s| - 1]) then RStrip(s[..|s| - 1]) else s
  }

  /** `s.strip()`: no leading or trailing whitespace remains. */
  function Strip(s: string): (r: string)
    ensures |r| <= |s|
    ensures r == [] || (!IsSpace(r[0]) && !IsSpace(r[|r| - 1]))
  {
    RStrip(LStrip(s))
  }

  /** A string that has no whitespace at either end is its own `strip()`. */
  lemma StripNoSpace(s: string)
    requires s == [] || (!IsSpace(s[0]) && !IsSpace(s[|s| - 1]))
    ensures Strip(s) == s
  {
  }

  /** `s.rstrip(c)` for a single character. */
  function RStripChar(s: string, c: char): (r: string)
    ensures |r| <= |s| && r == s[..|r|]
    ensures r == [] || r[|r| - 1] != c
    ensures forall i :: |r| <= i < |s| ==> s[i] == c
  {
    if |s| > 0 && s[|s| - 1] == c then RStripChar(s[..|s| - 1], c) else s
  }

  // ------------------------------------------------------------------ replacing

  /** `s.replace(pat, rep)`: leftmost, non-overlapping occurrences. */
  function Replace(s: string, pat: string, rep: string): string
    requires pat != []
    decreases |s|
  {
    if |s| < |pat| then s
    else if s[..|pat|] == pat then rep + Replace(s[|pat|..], pat, rep)
    else [s[0]] + Replace(s[1..], pat, rep)
  }

  /** Deleting occurrences never lengthens a string. */
  lemma {:induction false} ReplaceEmptyShorter(s: string, pat: string)
    requires pat != []
    ensures |Replace(s, pat, "")| <= |s|
    decreases |s|
  {
    if |s| < |pat| {
    } else if s[..|pat|] == pat {
      ReplaceEmptyShorter(s[|pat|..], pat);
    } else {
      ReplaceEmptyShorter(s[1..], pat);
    }
  }

  /** Deleting occurrences keeps every character property that `s` had. */
  lemma {:induction false} ReplaceEmptyKeeps(s: string, pat: string, p: char -> bool)
    requires pat != []
    requires forall i :: 0 <= i < |s| ==> p(s[i])
    ensures forall i :: 0 <= i < |Replace(s, pat, "")| ==> p(Replace(s, pat, "")[i])
    decreases |s|
  {
    if |s| < |pat| {
    } else if s[..|pat|] == pat {
      ReplaceEmptyKeeps(s[|pat|..], pat, p);
    } else {
      ReplaceEmptyKeeps(s[1..], pat, p);
    }
  }

  /** A string in which `pat` does not occur is left as it is. */
  lemma {:induction false} ReplaceAbsent(s: string, pat: string, rep: string)
    requires pat != [] && !Contains(s, pat)
    ensures Replace(s, pat, rep) == s
    decreases |s|
  {
    if |s| >= |pat| {
      assert s[..|pat|] != pat;
      ReplaceAbsent(s[1..], pat, rep);
    }
  }

  // ------------------------------------------------------------------ splitting

  /** `sep` occurs in `s` starting at position `j`. */
  predicate OccursAt(s: string, sep: string, j: nat) {
    j + |sep| <= |s| && s[j..j + |sep|] == sep
  }

  /** Index of the first occurrence of `sep` in `s`, or `|s|` when there is none. */
  function FindSub(s: string, sep: string): (i: nat)
    requires sep != []
    ensures i <= |s|
    ensures i < |s| ==> OccursAt(s, sep, i)
    ensures forall j: nat :: j < i ==> !OccursAt(s, sep, j)
    decreases |s|
  {
    if |s| < |sep| then |s|
    else if s[..|sep|] == sep then 0
    else
      var k := FindSub(s[1..], sep);
      assert forall j: nat :: 1 <= j <= k ==> !OccursAt(s, sep, j) by {
        forall j: nat | 1 <= j <= k
          ensures !OccursAt(s, sep, j)
        {
          assert !OccursAt(s[1..], sep, j - 1);
          if j + |sep| <= |s| {
            var t := s[1..];
            var u, v := s[j..j + |sep|], t[j - 1..j - 1 + |sep|];
            assert forall x :: 0 <= x < |sep| ==> u[x] == v[x];
            assert u == v;
          }
        }
      }
      1 + k
  }

  /** `s.split(sep)` for a non-empty separator. */
  function Split(s: string, sep: string): (parts: seq<string>)
    requires sep != []
    ensures |parts| >= 1
    ensures |sep| == 1 ==> forall k :: 0 <= k < |parts| ==> sep[0] !in parts[k]
    decreases |s|
  {
    var i := FindSub(s, sep);
    assert |sep| == 1 ==> sep[0] !in s[..i] by {
      if |sep| == 1 {
        OneCharPrefixFree(s, sep, i);
      }
    }
    if i == |s| then [s] else [s[..i]] + Split(s[i + |sep|..], sep)
  }

  lemma OneCharPrefixFree(s: string, sep: string, i: nat)
    requires |sep| == 1 && i <= |s|
    requires forall j: nat :: j < i ==> !OccursAt(s, sep, j)
    ensures sep[0] !in s[..i]
  {
    forall j | 0 <= j < i
      ensures s[j] != sep[0]
    {
      assert !OccursAt(s, sep, j);
      assert s[j..j + 1] == [s[j]];
    }
  }

  /** `sep.join(parts)`. */
  function Join(sep: string, parts: seq<string>): string {
    if |parts| == 0 then ""
    else if |parts| == 1 then parts[0]
    else parts[0] + sep + Join(sep, parts[1..])
  }

  /** Splitting the join of separator-free parts gives the parts back. */
  lemma {:induction false} SplitJoin(parts: seq<string>, sep: char)
    requires |parts| >= 1
    requires forall k :: 0 <= k < |parts| ==> sep !in parts[k]
    ensures Split(Join([sep], parts), [sep]) == parts
    decreases |parts|
  {
    var s := Join([sep], parts);
    if |parts| == 1 {
      FindSubAbsent(s, sep);
    } else {
      var rest := Join([sep], parts[1..]);
      assert s == parts[0] + [sep] + rest;
      FindAfterPrefix(parts[0], sep, rest);
      assert s[..|parts[0]|] == parts[0];
      assert s[|parts[0]| + 1..] == rest;
      SplitJoin(parts[1..], sep);
    }
  }

  lemma FindSubAbsent(s: string, c: char)
    requires c !in s
    ensures FindSub(s, [c]) == |s|
  {
    forall j: nat | j < |s|
      ensures !OccursAt(s, [c], j)
    {
      assert s[j..j + 1][0] == s[j];
    }
  }

  lemma FindAfterPrefix(a: string, c: char, b: string)
    requires c !in a
    ensures FindSub(a + [c] + b, [c]) == |a|
  {
    var s := a + [c] + b;
    assert OccursAt(s, [c], |a|);
    forall j: nat | j < |a|
      ensures !OccursAt(s, [c], j)
    {
      assert s[j..j + 1][0] == s[j] == a[j];
    }
  }

  /** The whitespace-free run at the front of `s`. */
  function FindSpace(s: string): (i: nat)
    ensures i <= |s|
    ensures forall j :: 0 <= j < i ==> !IsSpace(s[j])
    ensures i < |s| ==> IsSpace(s[i])
  {
    if |s| == 0 || IsSpace(s[0]) then 0 else 1 + FindSpace(s[1..])
  }

  /** `s.split()`: maximal whitespace-free runs, never an empty token. */
  function SplitWs(s: string): (tokens: seq<string>)
    ensures forall k :: 0 <= k < |tokens| ==> tokens[k] != []
    decreases |s|
  {
    var t := LStrip(s);
    if t == [] then []
    else
      var i := FindSpace(t);
      assert i > 0 by { assert !IsSpace(t[0]); }
      var rest := SplitWs(t[i..]);
      NonEmptyCons(t[..i], rest);
      [t[..i]] + rest
  }

  lemma NonEmptyCons(a: string, rest: seq<string>)
    requires a != [] && forall k :: 0 <= k < |rest| ==> rest[k] != []
    ensures forall k :: 0 <= k < |[a] + rest| ==> ([a] + rest)[k] != []
  {
    forall k | 0 <= k < |[a] + rest| ensures ([a] + rest)[k] != [] {
      if k > 0 { assert ([a] + rest)[k] == rest[k - 1]; }
    }
  }

  // ------------------------------------------------------ integers and text

  function DigitChar(d: nat): (c: char)
    requires d < 10
    ensures IsDigit(c)
  {
    ('0' as int + d) as char
  }

  function DigitValue(c: char): (d: nat)
    requires IsDigit(c)
    ensures d < 10 && DigitChar(d) == c
  {
    c as int - '0' as int
  }

  predicate AllDigits(s: string) {
    forall i :: 0 <= i < |s| ==> IsDigit(s[i])
  }

  /** Decimal value of the digits of `s`; any other character (an underscore) is skipped. */
  function DigitsValue(s: string): nat {
    if s == [] then 0
    else if IsDigit(s[|s| - 1]) then 10 * DigitsValue(s[..|s| - 1]) + DigitValue(s[|s| - 1])
    else DigitsValue(s[..|s| - 1])
  }

  /** Decimal digits of `n`, without leading zeros: `str(n)` for `n >= 0`. */
  function NatToString(n: nat): (s: string)
    ensures s != [] && AllDigits(s)
  {
    if n < 10 then [DigitChar(n)] else NatToString(n / 10) + [DigitChar(n % 10)]
  }

  lemma {:induction false} NatToStringValue(n: nat)
    ensures DigitsValue(NatToString(n)) == n
  {
    if n >= 10 {
      var s := NatToString(n);
      assert s[..|s| - 1] == NatToString(n / 10);
      NatToStringValue(n / 10);
    }
  }

  /** Python's `str(i)` for an `int`. */
  function IntToString(i: int): (s: string)
    ensures s != [] && ':' !in s && !IsSpace(s[0]) && !IsSpace(s[|s| - 1])
  {
    if i < 0 then "-" + NatToString(-i) else NatToString(i)
  }

  /**
   * The body Python's `int()` accepts after the sign: digits, with single
   * underscores allowed between two digits.
   */
  predicate DigitGroups(s: string) {
    |s| > 0 && IsDigit(s[0]) && GroupTail(s[1..])
  }

  /** What may follow a digit: more digits, each possibly after one underscore. */
  predicate GroupTail(s: string)
    decreases |s|
  {
    || s == []
    || (IsDigit(s[0]) && GroupTail(s[1..]))
    || (|s| >= 2 && s[0] == '_' && IsDigit(s[1]) && GroupTail(s[2..]))
  }

  lemma {:induction false} DigitsTail(s: string)
    requires AllDigits(s)
    ensures GroupTail(s)
    decreases |s|
  {
    if s != [] {
      DigitsTail(s[1..]);
    }
  }

  /** A non-empty run of digits is an accepted body. */
  lemma DigitsAreGroups(s: string)
    requires s != [] && AllDigits(s)
    ensures DigitGroups(s)
  {
    DigitsTail(s[1..]);
  }

  /** An accepted body ends in a digit. */
  lemma {:induction false} GroupTailEnds(s: string)
    requires GroupTail(s) && s != []
    ensures IsDigit(s[|s| - 1])
    decreases |s|
  {
    if IsDigit(s[0]) && GroupTail(s[1..]) {
      if s[1..] != [] {
        GroupTailEnds(s[1..]);
      }
    } else {
      if s[2..] != [] {
        GroupTailEnds(s[2..]);
      }
    }
  }

  lemma DigitGroupsEnd(s: string)
    requires DigitGroups(s)
    ensures IsDigit(s[|s| - 1])
  {
    if s[1..] != [] {
      GroupTailEnds(s[1..]);
    }
  }

  /** Python's `int(s)` on a `str`, in base 10 (`None` where Python raises `ValueError`). */
  function ParseInt(s: string): (r: Option<int>)
    ensures r.Some? ==> Strip(s) != [] && IsDigit(Strip(s)[|Strip(s)| - 1])
  {
    var t := Strip(s);
    if |t| > 0 && (t[0] == '-' || t[0] == '+') then
      var body := t[1..];
      if DigitGroups(body) then
        DigitGroupsEnd(body);
        var n: int := DigitsValue(body);
        Some(if t[0] == '-' then -n else n)
      else None
    else if DigitGroups(t) then
      DigitGroupsEnd(t);
      Some(DigitsValue(t))
    else None
  }

  /** `int(str(i)) == i`. */
  lemma IntRoundTrip(i: int)
    ensures ParseInt(IntToString(i)) == Some(i)
  {
    var s := IntToString(i);
    StripNoSpace(s);
    var digits := NatToString(if i < 0 then -i else i);
    NatToStringValue(if i < 0 then -i else i);
    DigitsAreGroups(digits);
    if i < 0 {
      assert s[1..] == digits;
    }
  }
}
