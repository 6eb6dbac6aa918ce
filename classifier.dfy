/**
 * Domain classification (services/ai/classifier.py): the context handed to
 * Gemini comes from a web search, an SLD relevance filter, a direct page
 * fetch or a sentinel text, in that order; the answer is then matched
 * case-insensitively against the categories, the caller's spelling winning.
 * The searcher's two calls are inputs: `search` is what `searcher.search`
 * returned or raised, `fetch` what `searcher.fetch_page` would return or
 * raise if it is called.
 */
module Classifier {
  import opened Wrappers
  import opened PyStr
  import opened Exceptions
  import opened AiClient
  import WebSearch

  const NoResults := "No search results found"
  const NoContent := "No content available."
  const Unavailable := "Content unavailable."
  const MaxTokens := 50

  /** The label and text of the context put into the prompt. */
  datatype Context = Context(source: string, text: string)

  /** `domain.split(".")[0].lower()`. */
  function Sld(domain: string): (r: string)
    ensures '.' !in r
  {
    var parts := Split(domain, ".");
    LowerKeeps(parts[0], '.');
    Lower(parts[0])
  }

  /** Lowering creates only lowercase letters, never a character such as `.`. */
  lemma LowerKeeps(s: string, c: char)
    requires c !in s && !('a' <= c <= 'z')
    ensures c !in Lower(s)
  {
    forall i | 0 <= i < |s|
      ensures Lower(s)[i] != c
    {
      assert s[i] != c;
    }
  }

  /** The search text is good enough to use: non-empty and not the "no results" marker. */
  predicate Usable(text: string) {
    text != [] && !Contains(text, NoResults)
  }

  /** What `search_results` holds after the search: an exception leaves it `""`. */
  function SearchText(search: Result<string, Error>): string {
    match search
    case Ok(t) => t
    case Err(_) => ""
  }

  /** The relevance filter: usable search text that does not mention the SLD is dropped. */
  function Filtered(domain: string, text: string): string {
    if Usable(text) && !Contains(Lower(text), Sld(domain)) then "" else text
  }

  /** The page fallback, with its two sentinels. */
  function PageText(fetch: Result<string, Error>): (t: string)
    ensures t != []
  {
    match fetch
    case Ok(page) => if page == [] then NoContent else page
    case Err(_) => Unavailable
  }

  /** The context `classify_domain` settles on. */
  function ChooseContext(domain: string, search: Result<string, Error>, fetch: Result<string, Error>): (c: Context)
    ensures c.text != []
    ensures c.source == "web search" || c.source == "page content"
  {
    var t := Filtered(domain, SearchText(search));
    if Usable(t) then Context("web search", t) else Context("page content", PageText(fetch))
  }

  /**
   * The step-by-step selection of the source: `fetched` tells whether the
   * page fetch is made at all.
   */
  method SelectContext(domain: string, search: Result<string, Error>, fetch: Result<string, Error>)
    returns (c: Context, fetched: bool)
    ensures c == ChooseContext(domain, search, fetch)
    ensures fetched <==> c.source == "page content"
  {
    var source := "web search";
    var results := "";
    if search.Ok? {
      results := search.value;
    }
    if !Usable(results) {
    } else {
      var sld := Sld(domain);
      if !Contains(Lower(results), sld) {
        results := "";
      }
    }
    fetched := false;
    if !Usable(results) {
      source := "page content";
      fetched := true;
      match fetch
      case Ok(page) =>
        results := page;
        if results == [] {
          results := NoContent;
        }
      case Err(_) =>
        results := Unavailable;
    }
    c := Context(source, results);
  }

  /** The prompt sent to Gemini. */
  function Prompt(c: Context, domain: string, categories: seq<string>): string {
    "Context from " + c.source + " for " + domain + ":\n"
    + c.text + "\n\n"
    + "Based on this context and the domain name, which of these categories fits best: ["
    + Join(", ", categories) + "]? "
    + "Answer ONLY with the name of the category from the list, without explanation."
  }

  /** `[c.lower() for c in categories]`. */
  function LowerAll(categories: seq<string>): (r: seq<string>)
    ensures |r| == |categories|
    ensures forall i :: 0 <= i < |r| ==> r[i] == Lower(categories[i])
  {
    seq(|categories|, i requires 0 <= i < |categories| => Lower(categories[i]))
  }

  /** The `for cat in categories` search: the first category whose lowercase is `category`. */
  function FirstMatch(categories: seq<string>, category: string): (r: Option<string>)
    ensures r.Some? ==> r.value in categories && Lower(r.value) == category
    ensures r.None? ==> forall i :: 0 <= i < |categories| ==> Lower(categories[i]) != category
  {
    if categories == [] then None
    else if Lower(categories[0]) == category then Some(categories[0])
    else FirstMatch(categories[1..], category)
  }

  /** The validation of the answer and the return of the caller's spelling. */
  function MatchCategory(answer: string, categories: seq<string>): (r: Result<string, Error>)
    ensures r.Ok? ==> r.value in categories && Lower(r.value) == Lower(answer)
    ensures r.Err? <==> forall i :: 0 <= i < |categories| ==> Lower(categories[i]) != Lower(answer)
    ensures r.Err? ==> r.error == CategoryNotFoundError("AI вернул неизвестную категорию: " + Lower(answer))
  {
    var category := Lower(answer);
    if category !in LowerAll(categories) then
      Err(CategoryNotFoundError("AI вернул неизвестную категорию: " + category))
    else
      match FirstMatch(categories, category)
      case Some(c) => Ok(c)
      case None => Ok(category)
  }

  /** What `classify_domain` returns or raises, given what `generate` returned or raised. */
  function Classification(answer: Result<string, Error>, categories: seq<string>): Result<string, Error> {
    match answer
    case Err(e) => Err(e)
    case Ok(text) => MatchCategory(text, categories)
  }

  /**
   * `classify_domain`: choose the context, call `generate` once with
   * `max_tokens=50`, then match the answer.
   */
  method ClassifyDomain(client: GeminiClient, post: Post, domain: string, categories: seq<string>,
                        search: Result<string, Error>, fetch: Result<string, Error>)
    returns (r: Result<string, Error>)
    requires client.Valid()
    modifies client
    ensures client.Valid()
    ensures r == Classification(
      GenerateOutcome(client.apiKeys, client.model, old(client.cursor),
                      Prompt(ChooseContext(domain, search, fetch), domain, categories), MaxTokens, post).result,
      categories)
    ensures client.cursor == if Configured(client.apiKeys) then
      Slot(old(client.cursor), GenerateOutcome(client.apiKeys, client.model, old(client.cursor),
                                               Prompt(ChooseContext(domain, search, fetch), domain, categories),
                                               MaxTokens, post).attempts, |client.apiKeys|)
      else old(client.cursor)
  {
    var c, _ := SelectContext(domain, search, fetch);
    var prompt := Prompt(c, domain, categories);
    var answer, _ := client.Generate(prompt, MaxTokens, post);
    if answer.Err? {
      return Err(answer.error);
    }
    r := MatchCategory(answer.value, categories);
  }

  // -------------------------------------------------------------------- lemmas

  /** Empty or "no results" search text sends the classifier to the page. */
  lemma NoResultsFallsBack(domain: string, search: Result<string, Error>, fetch: Result<string, Error>)
    requires !Usable(SearchText(search))
    ensures ChooseContext(domain, search, fetch) == Context("page content", PageText(fetch))
  {
  }

  /** Search text that does not mention the SLD is discarded for the page. */
  lemma IrrelevantFallsBack(domain: string, search: Result<string, Error>, fetch: Result<string, Error>)
    requires Usable(SearchText(search)) && !Contains(Lower(SearchText(search)), Sld(domain))
    ensures ChooseContext(domain, search, fetch) == Context("page content", PageText(fetch))
  {
  }

  /** Usable search text that mentions the SLD is used as it is. */
  lemma RelevantIsKept(domain: string, search: Result<string, Error>, fetch: Result<string, Error>)
    requires Usable(SearchText(search)) && Contains(Lower(SearchText(search)), Sld(domain))
    ensures ChooseContext(domain, search, fetch) == Context("web search", SearchText(search))
  {
  }

  /** The page fallback's sentinels: an empty page and a failed fetch. */
  lemma PageSentinels(e: Error)
    ensures PageText(Ok("")) == NoContent
    ensures PageText(Err(e)) == Unavailable
  {
  }

  /** A search without hits gives the "no results" marker, so the page is fetched. */
  lemma NoHitsFetchesPage(domain: string, fetch: Result<string, Error>)
    ensures ChooseContext(domain, Ok(WebSearch.SearchOutput(Ok([]))), fetch)
         == Context("page content", PageText(fetch))
  {
    WebSearch.NoHitsIsMarker();
  }

  /** The first category (in the caller's order) that matches is the one returned. */
  lemma {:induction false} FirstMatchIsFirst(categories: seq<string>, category: string, k: nat)
    requires k < |categories| && Lower(categories[k]) == category
    requires forall j :: 0 <= j < k ==> Lower(categories[j]) != category
    ensures FirstMatch(categories, category) == Some(categories[k])
  {
    if k > 0 {
      assert Lower(categories[0]) != category;
      FirstMatchIsFirst(categories[1..], category, k - 1);
    }
  }

  lemma MatchReturnsFirst(answer: string, categories: seq<string>, k: nat)
    requires k < |categories| && Lower(categories[k]) == Lower(answer)
    requires forall j :: 0 <= j < k ==> Lower(categories[j]) != Lower(answer)
    ensures MatchCategory(answer, categories) == Ok(categories[k])
  {
    FirstMatchIsFirst(categories, Lower(answer), k);
    assert LowerAll(categories)[k] == Lower(answer);
  }

  /** The answer's case does not matter. */
  lemma MatchIgnoresCase(answer: string, categories: seq<string>)
    ensures MatchCategory(Lower(answer), categories) == MatchCategory(answer, categories)
  {
    LowerIdempotent(answer);
  }

  /** "games" among ["games", "social", "streaming"] is "games"; "unknown_category" is refused. */
  lemma CategoryExamples()
    ensures MatchCategory("games", ["games", "social", "streaming"]) == Ok("games")
    ensures MatchCategory("unknown_category", ["games", "social"]).Err?
  {
    var cats := ["games", "social", "streaming"];
    assert Lower("games") == "games";
    MatchReturnsFirst("games", cats, 0);
    var u := Lower("unknown_category");
    assert u[0] == 'u';
    assert Lower("games")[0] == 'g' && Lower("social")[0] == 's';
  }
}
