/**
 * Keyword-to-domain resolution (services/ai/resolver.py): one `generate`
 * call with `max_tokens=30`, then a fixed clean-up of the answer and a
 * single validity guard.
 */
module Resolver {
  import opened Wrappers
  import opened PyStr
  import opened Exceptions
  import opened AiClient

  const MaxTokens := 30
  const MaxLength := 100

  function Prompt(keyword: string): string {
    "Какой основной домен у сервиса '" + keyword + "'? "
    + "Верни ТОЛЬКО домен без http://, www. и пояснений. "
    + "Если не уверен или это не известный сервис, верни 'UNKNOWN'."
  }

  /** Lowercase, drop every `http://`, then `https://`, then `www.`, then trailing slashes. */
  function Clean(answer: string): (d: string)
    ensures d == [] || d[|d| - 1] != '/'
  {
    var a := Lower(answer);
    var b := Replace(a, "http://", "");
    var c := Replace(b, "https://", "");
    var e := Replace(c, "www.", "");
    RStripChar(e, '/')
  }

  /** No uppercase letter survives the clean-up. */
  lemma CleanIsLowercase(answer: string)
    ensures NoUpper(Clean(answer))
  {
    var a := Lower(answer);
    var b := Replace(a, "http://", "");
    var c := Replace(b, "https://", "");
    var e := Replace(c, "www.", "");
    LowerIdempotent(answer);
    ReplaceEmptyKeeps(a, "http://", c => !IsUpperAscii(c));
    ReplaceEmptyKeeps(b, "https://", c => !IsUpperAscii(c));
    ReplaceEmptyKeeps(c, "www.", c => !IsUpperAscii(c));
  }

  /** The guard: the cleaned answer is refused when it says "unknown", is too long or has a space. */
  predicate Refused(d: string) {
    Contains(d, "unknown") || |d| > MaxLength || ' ' in d
  }

  /** What `resolve_domain_from_keyword` returns or raises, given what `generate` returned or raised. */
  function Resolution(answer: Result<string, Error>, keyword: string): (r: Result<string, Error>)
    ensures r.Ok? ==> answer.Ok? && r.value == Clean(answer.value)
    ensures r.Ok? ==> |r.value| <= MaxLength && ' ' !in r.value && !Contains(r.value, "unknown")
    ensures r.Ok? ==> r.value == [] || r.value[|r.value| - 1] != '/'
    ensures r.Err? ==> r.error.DomainResolutionError?
    ensures answer.Ok? ==> (r.Err? <==> Refused(Clean(answer.value)))
  {
    match answer
    case Err(e) => Err(DomainResolutionError("Ошибка AI: " + e.Text()))
    case Ok(text) =>
      var d := Clean(text);
      if Refused(d) then Err(DomainResolutionError("Не удалось определить домен для '" + keyword + "'"))
      else Ok(d)
  }

  /** `resolve_domain_from_keyword`: one `generate` call, then the clean-up and the guard. */
  method ResolveDomainFromKeyword(client: GeminiClient, post: Post, keyword: string) returns (r: Result<string, Error>)
    requires client.Valid()
    modifies client
    ensures client.Valid()
    ensures r == Resolution(GenerateOutcome(client.apiKeys, client.model, old(client.cursor),
                                            Prompt(keyword), MaxTokens, post).result, keyword)
    ensures client.cursor == if Configured(client.apiKeys) then
      Slot(old(client.cursor), GenerateOutcome(client.apiKeys, client.model, old(client.cursor),
                                               Prompt(keyword), MaxTokens, post).attempts, |client.apiKeys|)
      else old(client.cursor)
  {
    var answer, _ := client.Generate(Prompt(keyword), MaxTokens, post);
    r := Resolution(answer, keyword);
  }

  // -------------------------------------------------------------------- lemmas

  /** A resolved domain is lowercase. */
  lemma ResolvedIsLowercase(answer: Result<string, Error>, keyword: string)
    requires Resolution(answer, keyword).Ok?
    ensures NoUpper(Resolution(answer, keyword).value)
  {
    CleanIsLowercase(answer.value);
  }

  /** A failed `generate` becomes a DomainResolutionError that carries its text. */
  lemma AiFailureIsWrapped(e: Error, keyword: string)
    ensures Resolution(Err(e), keyword) == Err(DomainResolutionError("Ошибка AI: " + e.Text()))
  {
  }

  /** An answer that is already a bare lowercase domain comes back unchanged. */
  lemma CleanKeepsCleanAnswer(answer: string)
    requires NoUpper(answer)
    requires !Contains(answer, "http://") && !Contains(answer, "https://") && !Contains(answer, "www.")
    requires answer == [] || answer[|answer| - 1] != '/'
    ensures Clean(answer) == answer
  {
    assert Lower(answer) == answer;
    ReplaceAbsent(answer, "http://", "");
    ReplaceAbsent(answer, "https://", "");
    ReplaceAbsent(answer, "www.", "");
  }

  /** A string without uppercase letters is its own `lower()`. */
  lemma LowerOfLower(s: string)
    requires NoUpper(s)
    ensures Lower(s) == s
  {
  }

  /** Deleting `pat` from `pat + rest`, where `pat` does not occur in `rest`, leaves `rest`. */
  lemma ReplaceAtFront(pat: string, rest: string)
    requires pat != [] && !Contains(rest, pat)
    ensures Replace(pat + rest, pat, "") == rest
  {
    var s := pat + rest;
    assert s[..|pat|] == pat && s[|pat|..] == rest;
    ReplaceAbsent(rest, pat, "");
  }

  /** `http://` does not occur in `https://` followed by text without an `h`. */
  lemma NoHttpInHttps(rest: string)
    requires 'h' !in rest
    ensures !Contains("https://" + rest, "http://")
  {
    var s := "https://" + rest;
    assert s[..7][4] != "http://"[4];
    assert s[1..] == "ttps://" + rest;
    NotContained(s[1..], "http://", 0);
  }

  lemma NotInConcat(c: char, a: string, b: string)
    requires c !in a && c !in b
    ensures c !in a + b
  {
  }

  /** The clean-up, one stage at a time. */
  lemma CleanStages(answer: string, a: string, b: string, c: string, e: string, d: string)
    requires Lower(answer) == a && Replace(a, "http://", "") == b && Replace(b, "https://", "") == c
    requires Replace(c, "www.", "") == e && RStripChar(e, '/') == d
    ensures Clean(answer) == d
  {
  }

  /** The hosts the URL lemma is about: lowercase, without `h` or `w`, not ending in `/`. */
  predicate PlainHost(host: string) {
    NoUpper(host) && 'h' !in host && 'w' !in host && host != [] && host[|host| - 1] != '/'
  }

  lemma UrlIsLowercase(host: string)
    requires PlainHost(host)
    ensures Lower("https://" + ("www." + (host + "/"))) == "https://" + ("www." + (host + "/"))
  {
    var a := "https://" + ("www." + (host + "/"));
    forall i | 0 <= i < |a|
      ensures !IsUpperAscii(a[i])
    {
      if i >= 12 && i < |a| - 1 {
        assert a[i] == host[i - 12];
      }
    }
    LowerOfLower(a);
  }

  lemma UrlKeepsHttp(host: string)
    requires PlainHost(host)
    ensures Replace("https://" + ("www." + (host + "/")), "http://", "") == "https://" + ("www." + (host + "/"))
  {
    NotInConcat('h', host, "/");
    NotInConcat('h', "www.", host + "/");
    NoHttpInHttps("www." + (host + "/"));
    ReplaceAbsent("https://" + ("www." + (host + "/")), "http://", "");
  }

  lemma UrlLosesHttps(host: string)
    requires PlainHost(host)
    ensures Replace("https://" + ("www." + (host + "/")), "https://", "") == "www." + (host + "/")
  {
    NotInConcat('h', host, "/");
    NotInConcat('h', "www.", host + "/");
    NotContained("www." + (host + "/"), "https://", 0);
    ReplaceAtFront("https://", "www." + (host + "/"));
  }

  lemma UrlLosesWww(host: string)
    requires PlainHost(host)
    ensures Replace("www." + (host + "/"), "www.", "") == host + "/"
  {
    NotInConcat('w', host, "/");
    NotContained(host + "/", "www.", 0);
    ReplaceAtFront("www.", host + "/");
  }

  lemma UrlLosesSlash(host: string)
    requires PlainHost(host)
    ensures RStripChar(host + "/", '/') == host
  {
    assert (host + "/")[..|host|] == host;
  }

  /** A URL `https://www.<host>/` is cleaned to `<host>`. */
  lemma CleanUrl(host: string)
    requires PlainHost(host)
    ensures Clean("https://" + ("www." + (host + "/"))) == host
  {
    UrlIsLowercase(host);
    UrlKeepsHttp(host);
    UrlLosesHttps(host);
    UrlLosesWww(host);
    UrlLosesSlash(host);
    var a := "https://" + ("www." + (host + "/"));
    CleanStages(a, a, a, "www." + (host + "/"), host + "/", host);
  }

  /** A lowercase answer without `h`, `w`, `u` or space, short and not ending in `/`, is returned as it is. */
  lemma BareDomainResolves(d: string, keyword: string)
    requires NoUpper(d) && 'h' !in d && 'w' !in d && 'u' !in d && ' ' !in d
    requires |d| <= MaxLength && (d == [] || d[|d| - 1] != '/')
    ensures Resolution(Ok(d), keyword) == Ok(d)
  {
    NotContained(d, "http://", 0);
    NotContained(d, "https://", 0);
    NotContained(d, "www.", 0);
    NotContained(d, "unknown", 0);
    CleanKeepsCleanAnswer(d);
  }

  const Spotify := "spotify.com"
  const ExampleUrl := "https://www.example.com/"
  const ExampleHost := "example.com"
  const UnknownAnswer := "UNKNOWN"

  /** The answer "spotify.com" resolves to itself. */
  lemma SpotifyResolves(keyword: string)
    ensures Resolution(Ok(Spotify), keyword) == Ok(Spotify)
  {
    Lowercase(Spotify);
    assert 'h' !in Spotify && 'w' !in Spotify && 'u' !in Spotify && ' ' !in Spotify;
    BareDomainResolves(Spotify, keyword);
  }

  /** The answer "https://www.example.com/" is cleaned to "example.com". */
  lemma ExampleUrlCleans()
    ensures Clean(ExampleUrl) == ExampleHost
  {
    Lowercase(ExampleHost);
    assert 'h' !in ExampleHost && 'w' !in ExampleHost;
    assert ExampleUrl == "https://" + ("www." + (ExampleHost + "/"));
    CleanUrl(ExampleHost);
  }

  lemma Lowercase(s: string)
    requires forall i :: 0 <= i < |s| ==> 'a' <= s[i] <= 'z' || s[i] == '.'
    ensures NoUpper(s)
  {
  }

  const UnknownLower := "unknown"

  /** Two answers with the same `lower()` clean alike. */
  lemma CleanSeesOnlyLower(x: string, y: string)
    requires Lower(x) == Lower(y)
    ensures Clean(x) == Clean(y)
  {
  }

  lemma UnknownIsBare()
    ensures NoUpper(UnknownLower)
    ensures !Contains(UnknownLower, "http://") && !Contains(UnknownLower, "https://")
    ensures !Contains(UnknownLower, "www.")
  {
    Lowercase(UnknownLower);
    assert 'h' !in UnknownLower && '.' !in UnknownLower;
    NotContained(UnknownLower, "http://", 0);
    NotContained(UnknownLower, "https://", 0);
    NotContained(UnknownLower, "www.", 3);
  }

  /** "UNKNOWN" cleans to "unknown". */
  lemma UnknownCleans()
    ensures Clean(UnknownAnswer) == UnknownLower
  {
    assert Lower(UnknownAnswer) == UnknownLower;
    UnknownIsBare();
    LowerOfLower(UnknownLower);
    CleanKeepsCleanAnswer(UnknownLower);
    CleanSeesOnlyLower(UnknownAnswer, UnknownLower);
  }

  /** "UNKNOWN" is refused. */
  lemma UnknownIsRefused(keyword: string)
    ensures Resolution(Ok(UnknownAnswer), keyword).Err?
  {
    UnknownCleans();
    assert StartsWith(UnknownLower, "unknown");
  }
}
