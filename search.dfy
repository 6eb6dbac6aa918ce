/**
 * The web searcher (services/search.py): `search` formats the hits of a
 * quoted DuckDuckGo query, `fetch_page` turns a homepage into clean text
 * lines and truncates it. DuckDuckGo and the page GET (with the HTML parsed
 * down to its text) are inputs.
 */
module WebSearch {
  import opened Wrappers
  import opened PyStr
  import opened Exceptions

  /** One search hit: `title` and `body` are `None` when the hit's dict lacks the key. */
  datatype Hit = Hit(title: Option<string>, body: Option<string>)

  /** The DuckDuckGo text search: the hits for a query and a maximum count, or the text of the exception. */
  type Ddg = (string, int) -> Result<seq<Hit>, string>

  /** The page GET with `raise_for_status` and the HTML reduced to its text (scripts and styles removed). */
  type PageGet = string -> Result<string, Error>

  const NoResultsMessage := "No search results found."
  const SearchErrorPrefix := "Error performing search: "
  const NoTitle := "No Title"
  const NoSnippet := "No Snippet"
  const DefaultMaxChars := 2000

  // ------------------------------------------------------------------ search

  /** The query as sent: wrapped in double quotes. */
  function Quoted(query: string): (q: string)
    ensures |q| == |query| + 2 && q[0] == '"' && q[|q| - 1] == '"'
    ensures q[1..|q| - 1] == query
  {
    "\"" + query + "\""
  }

  /** One hit as shown in the search text. */
  function Render(h: Hit): string {
    "Title: " + h.title.GetOr(NoTitle) + "\nSnippet: " + h.body.GetOr(NoSnippet)
  }

  function Formatted(hits: seq<Hit>): (r: seq<string>)
    ensures |r| == |hits|
    ensures forall k :: 0 <= k < |r| ==> r[k] == Render(hits[k])
  {
    seq(|hits|, k requires 0 <= k < |hits| => Render(hits[k]))
  }

  /** What `search` returns for a given outcome of the DuckDuckGo call. */
  function SearchOutput(outcome: Result<seq<Hit>, string>): string {
    match outcome
    case Err(e) => SearchErrorPrefix + e
    case Ok(hits) => if hits == [] then NoResultsMessage else Join("\n\n", Formatted(hits))
  }

  /** `WebSearcher.search`: one quoted query, then the hits rendered in order; it never raises. */
  method Search(ddg: Ddg, query: string, numResults: int) returns (r: string)
    ensures r == SearchOutput(ddg(Quoted(query), numResults))
  {
    var outcome := ddg(Quoted(query), numResults);
    if outcome.Err? {
      return SearchErrorPrefix + outcome.error;
    }
    var results := outcome.value;
    if results == [] {
      return NoResultsMessage;
    }
    var formatted: seq<string> := [];
    var i := 0;
    while i < |results|
      invariant 0 <= i <= |results|
      invariant |formatted| == i
      invariant forall k :: 0 <= k < i ==> formatted[k] == Render(results[k])
    {
      var title := results[i].title.GetOr(NoTitle);
      var snippet := results[i].body.GetOr(NoSnippet);
      formatted := formatted + ["Title: " + title + "\nSnippet: " + snippet];
      i := i + 1;
    }
    assert formatted == Formatted(results);
    r := Join("\n\n", formatted);
  }

  /** The three forms of the search text: error, no hits, hits. */
  lemma SearchForms(outcome: Result<seq<Hit>, string>)
    ensures outcome.Err? ==> StartsWith(SearchOutput(outcome), SearchErrorPrefix)
    ensures outcome == Ok([]) ==> SearchOutput(outcome) == NoResultsMessage
    ensures outcome.Ok? && outcome.value != [] ==> StartsWith(SearchOutput(outcome), "Title: ")
  {
    if outcome.Ok? && outcome.value != [] {
      var parts := Formatted(outcome.value);
      JoinStartsWith("\n\n", parts, "Title: ");
    }
  }

  /** The join of parts that all start with `p` starts with `p`. */
  lemma JoinStartsWith(sep: string, parts: seq<string>, p: string)
    requires |parts| > 0 && StartsWith(parts[0], p)
    ensures StartsWith(Join(sep, parts), p)
  {
    if |parts| > 1 {
      var j := Join(sep, parts);
      assert j == parts[0] + (sep + Join(sep, parts[1..]));
      assert j[..|p|] == parts[0][..|p|];
    }
  }

  /** Every hit's rendering is part of the search text. */
  lemma SearchShowsEveryHit(hits: seq<Hit>, k: nat)
    requires k < |hits|
    ensures Contains(SearchOutput(Ok(hits)), Render(hits[k]))
  {
    JoinContains("\n\n", Formatted(hits), k);
  }

  lemma {:induction false} JoinContains(sep: string, parts: seq<string>, k: nat)
    requires k < |parts|
    ensures Contains(Join(sep, parts), parts[k])
    decreases k
  {
    if |parts| == 1 {
      ContainsAt(parts[0], parts[0], 0);
    } else {
      var rest := Join(sep, parts[1..]);
      if k == 0 {
        ContainsInfix([], parts[0], sep + rest);
        assert [] + parts[0] + (sep + rest) == Join(sep, parts);
      } else {
        JoinContains(sep, parts[1..], k - 1);
        ContainsInSuffix(parts[0] + sep, rest, parts[k]);
      }
    }
  }

  /** An empty hit list gives the marker the classifier treats as "no results". */
  lemma NoHitsIsMarker()
    ensures SearchOutput(Ok([])) == NoResultsMessage
    ensures Contains(NoResultsMessage, "No search results found")
  {
    ContainsAt(NoResultsMessage, "No search results found", 0);
  }

  // -------------------------------------------------------------- fetch_page

  /** The characters at which Python's `str.splitlines` breaks. */
  predicate IsLineBreak(c: char) {
    c == '\n' || c == '\r' || c == '\U{0b}' || c == '\U{0c}' || c == '\U{1c}' || c == '\U{1d}'
    || c == '\U{1e}' || c == '\U{85}' || c == '\U{2028}' || c == '\U{2029}'
  }

  predicate NoBreak(s: string) {
    forall i :: 0 <= i < |s| ==> !IsLineBreak(s[i])
  }

  /** Index of the first line break, or `|s|`. */
  function LineEnd(s: string): (i: nat)
    ensures i <= |s|
    ensures i < |s| ==> IsLineBreak(s[i])
    ensures forall j :: 0 <= j < i ==> !IsLineBreak(s[j])
  {
    if s == [] || IsLineBreak(s[0]) then 0 else 1 + LineEnd(s[1..])
  }

  /** `s.splitlines()`: `\r\n` counts as one break, and a final break opens no empty line. */
  function SplitLines(s: string): (lines: seq<string>)
    ensures forall k :: 0 <= k < |lines| ==> NoBreak(lines[k])
    decreases |s|
  {
    if s == [] then []
    else
      var i := LineEnd(s);
      if i == |s| then [s]
      else
        var skip := if s[i] == '\r' && i + 1 < |s| && s[i + 1] == '\n' then 2 else 1;
        [s[..i]] + SplitLines(s[i + skip..])
  }

  /** A chunk of page text: non-empty and without white space at either end. */
  predicate IsChunk(s: string) {
    s != [] && !IsSpace(s[0]) && !IsSpace(s[|s| - 1])
  }

  /** `(p.strip() for p in phrases)` keeping only the non-empty ones. */
  function NonEmptyStripped(phrases: seq<string>): (r: seq<string>)
    ensures forall k :: 0 <= k < |r| ==> IsChunk(r[k])
  {
    if phrases == [] then []
    else
      var p := Strip(phrases[0]);
      var rest := NonEmptyStripped(phrases[1..]);
      if p == [] then rest else ChunkCons(p, rest); [p] + rest
  }

  lemma ChunkCons(p: string, rest: seq<string>)
    requires p != [] && !IsSpace(p[0]) && !IsSpace(p[|p| - 1])
    requires forall k :: 0 <= k < |rest| ==> IsChunk(rest[k])
    ensures forall k :: 0 <= k < |[p] + rest| ==> IsChunk(([p] + rest)[k])
  {
    forall k | 0 <= k < |[p] + rest| ensures IsChunk(([p] + rest)[k]) {
      if k > 0 { assert ([p] + rest)[k] == rest[k - 1]; }
    }
  }

  /** The chunks of one line: the line stripped, split on two spaces, each piece stripped, empties dropped. */
  function Pieces(line: string): (ps: seq<string>)
    ensures forall k :: 0 <= k < |ps| ==> IsChunk(ps[k])
  {
    NonEmptyStripped(Split(Strip(line), "  "))
  }

  function Chunks(lines: seq<string>): (cs: seq<string>)
    ensures forall k :: 0 <= k < |cs| ==> IsChunk(cs[k])
  {
    if lines == [] then [] else Pieces(lines[0]) + Chunks(lines[1..])
  }

  predicate AllNoBreak(ss: seq<string>) {
    forall k :: 0 <= k < |ss| ==> NoBreak(ss[k])
  }

  lemma {:induction false} NonEmptyStrippedNoBreak(phrases: seq<string>)
    requires AllNoBreak(phrases)
    ensures AllNoBreak(NonEmptyStripped(phrases))
    decreases |phrases|
  {
    if phrases != [] {
      StripKeepsNoBreak(phrases[0]);
      assert AllNoBreak(phrases[1..]) by {
        forall k | 0 <= k < |phrases[1..]| ensures NoBreak(phrases[1..][k]) {
          assert phrases[1..][k] == phrases[k + 1];
        }
      }
      NonEmptyStrippedNoBreak(phrases[1..]);
    }
  }

  lemma ConcatNoBreak(a: seq<string>, b: seq<string>)
    requires AllNoBreak(a) && AllNoBreak(b)
    ensures AllNoBreak(a + b)
  {
    forall k | 0 <= k < |a + b| ensures NoBreak((a + b)[k]) {
      if k < |a| { assert (a + b)[k] == a[k]; } else { assert (a + b)[k] == b[k - |a|]; }
    }
  }

  lemma PiecesNoBreak(line: string)
    requires NoBreak(line)
    ensures AllNoBreak(Pieces(line))
  {
    StripKeepsNoBreak(line);
    SplitKeepsNoBreak(Strip(line), "  ");
    NonEmptyStrippedNoBreak(Split(Strip(line), "  "));
  }

  lemma {:induction false} ChunksNoBreak(lines: seq<string>)
    requires AllNoBreak(lines)
    ensures AllNoBreak(Chunks(lines))
    decreases |lines|
  {
    if lines != [] {
      PiecesNoBreak(lines[0]);
      assert AllNoBreak(lines[1..]) by {
        forall k | 0 <= k < |lines[1..]| ensures NoBreak(lines[1..][k]) {
          assert lines[1..][k] == lines[k + 1];
        }
      }
      ChunksNoBreak(lines[1..]);
      ConcatNoBreak(Pieces(lines[0]), Chunks(lines[1..]));
    }
  }

  /** The text clean-up of `fetch_page`, before truncation. */
  function Cleanup(text: string): string {
    Join("\n", Chunks(SplitLines(text)))
  }

  /** Python's `s[:n]`, a negative `n` counting from the end. */
  function Head(s: string, n: int): (r: string)
    ensures |r| <= |s| && r == s[..|r|]
    ensures n >= 0 ==> |r| == if n < |s| then n else |s|
  {
    if n >= |s| then s
    else if n >= 0 then s[..n]
    else if |s| + n > 0 then s[..|s| + n]
    else []
  }

  /** `WebSearcher.fetch_page`: the clean text of `https://<domain>`, cut to `max_chars`; `""` on any failure. */
  function FetchPage(get: PageGet, domain: string, maxChars: int): (r: string)
    ensures maxChars >= 0 ==> |r| <= maxChars
    ensures get("https://" + domain).Err? ==> r == ""
    ensures get("https://" + domain).Ok? ==>
      var text := Cleanup(get("https://" + domain).value);
      r <= text && (maxChars >= |text| ==> r == text)
  {
    match get("https://" + domain)
    case Err(_) => ""
    case Ok(text) => Head(Cleanup(text), maxChars)
  }

  lemma StripKeepsNoBreak(s: string)
    ensures NoBreak(s) ==> NoBreak(Strip(s))
  {
    var l := LStrip(s);
    var r := RStrip(l);
    if NoBreak(s) {
      forall i | 0 <= i < |l|
        ensures !IsLineBreak(l[i])
      {
        assert l[i] == s[|s| - |l| + i];
      }
      forall i | 0 <= i < |r|
        ensures !IsLineBreak(r[i])
      {
        assert r[i] == l[i];
      }
    }
  }

  lemma {:induction false} SplitKeepsNoBreak(s: string, sep: string)
    requires sep != []
    ensures NoBreak(s) ==> forall k :: 0 <= k < |Split(s, sep)| ==> NoBreak(Split(s, sep)[k])
    decreases |s|
  {
    var i := FindSub(s, sep);
    if NoBreak(s) && i < |s| {
      var rest := s[i + |sep|..];
      assert forall j :: 0 <= j < |rest| ==> rest[j] == s[i + |sep| + j];
      SplitKeepsNoBreak(rest, sep);
      assert forall j :: 0 <= j < i ==> s[..i][j] == s[j];
    }
  }

  /** After the clean-up, the lines of the text are exactly the chunks. */
  lemma CleanupLines(text: string)
    ensures Cleanup(text) == [] <==> Chunks(SplitLines(text)) == []
    ensures Cleanup(text) != [] ==> Split(Cleanup(text), "\n") == Chunks(SplitLines(text))
  {
    ChunksNoBreak(SplitLines(text));
    JoinLines(Chunks(SplitLines(text)));
  }

  lemma JoinLines(cs: seq<string>)
    requires forall k :: 0 <= k < |cs| ==> IsChunk(cs[k]) && NoBreak(cs[k])
    ensures Join("\n", cs) == [] <==> cs == []
    ensures cs != [] ==> Split(Join("\n", cs), "\n") == cs
  {
    if cs != [] {
      forall k | 0 <= k < |cs|
        ensures '\n' !in cs[k]
      {
        assert NoBreak(cs[k]);
      }
      SplitJoin(cs, '\n');
      JoinNonEmpty("\n", cs);
    }
  }

  /** No line of the cleaned text is empty or has white space at its ends. */
  lemma NoEmptyLine(text: string, k: nat)
    requires Cleanup(text) != [] && k < |Split(Cleanup(text), "\n")|
    ensures Split(Cleanup(text), "\n")[k] != []
    ensures Strip(Split(Cleanup(text), "\n")[k]) == Split(Cleanup(text), "\n")[k]
  {
    CleanupLines(text);
    var line := Split(Cleanup(text), "\n")[k];
    assert IsChunk(line);
    StripNoSpace(line);
  }

  lemma JoinNonEmpty(sep: string, parts: seq<string>)
    requires |parts| > 0 && parts[0] != []
    ensures Join(sep, parts) != []
  {
    if |parts| > 1 {
      assert |Join(sep, parts)| >= |parts[0]|;
    }
  }
}
