/**
 * The Gemini client with key rotation (services/ai/client.py). The key cursor
 * is a field that survives between calls; `generate` tries at most one POST
 * per key. The HTTP exchange is a parameter: `post(request, i)` is the reply
 * to the `i`-th POST of the call.
 */
module AiClient {
  import opened Wrappers
  import opened PyStr
  import opened Exceptions

  const BaseUrl := "https://generativelanguage.googleapis.com/v1beta/models"

  /** What `response.json()` holds on a 200. */
  datatype Body =
    | Candidates(text: string)     // non-empty `candidates`; the first one's text
    | NoCandidates                 // `candidates` absent or empty
    | Unexpected(message: string)  // not JSON, or not shaped as expected (the lookup raises)

  datatype Reply =
    | Reply(status: int, body: Body)
    | Transport(message: string)   // `client.post` raised an `httpx.HTTPError`

  datatype PostRequest = PostRequest(url: string, prompt: string, maxTokens: int)

  type Post = (PostRequest, nat) -> Reply

  function RequestUrl(model: string, key: string): string {
    BaseUrl + "/" + model + ":generateContent?key=" + key
  }

  /**
   * The error `raise_for_status` raises for a non-2xx status; its text
   * stands for httpx's message, which also names the reason phrase and the
   * URL, by the status code alone.
   */
  function StatusError(status: int): Error {
    HttpError("HTTP status " + IntToString(status))
  }

  /** The keys `_get_next_key` accepts: not `[]` and not `[""]`. */
  predicate Configured(keys: seq<string>) {
    |keys| > 1 || (|keys| == 1 && keys[0] != "")
  }

  /** One attempt: either the answer (before `.strip()`), or a move to the next key, recording an error or not. */
  datatype Step = Done(text: string) | Next(error: Option<Error>)

  function StepOf(reply: Reply): (s: Step)
    ensures s.Done? <==> reply.Reply? && reply.status == 200 && reply.body.Candidates?
    ensures s.Next? && s.error.None? <==> reply.Reply? && reply.status != 200 && 200 <= reply.status < 300
  {
    match reply
    case Transport(m) => Next(Some(HttpError(m)))
    case Reply(status, body) =>
      if status == 200 then
        match body
        case Candidates(t) => Done(t)
        case NoCandidates => Next(Some(GeminiAPIError("No candidates returned from Gemini")))
        case Unexpected(m) => Next(Some(OtherError(m)))
      else if status == 429 || status == 403 then Next(Some(GeminiAPIError("API returned " + IntToString(status))))
      else if 200 <= status < 300 then Next(None)
      else Next(Some(StatusError(status)))
  }

  /** The cursor after one step, `(c + 1) % n` for `c < n` (TickIsMod), in linear terms. */
  function Tick(c: nat, n: nat): (r: nat)
    ensures n > 0 ==> r < n
  {
    if c + 1 >= n then 0 else c + 1
  }

  lemma TickIsMod(c: nat, n: nat)
    requires c < n
    ensures Tick(c, n) == (c + 1) % n
  {
  }

  /** The cursor `i` steps after `start`. */
  function Slot(start: nat, i: nat, n: nat): (r: nat)
    requires start < n
    ensures r < n
  {
    if i == 0 then start else Tick(Slot(start, i - 1, n), n)
  }

  /** The request of an attempt made with the key under `cursor`. */
  function AttemptRequest(keys: seq<string>, model: string, cursor: nat, prompt: string, maxTokens: int): PostRequest
    requires cursor < |keys|
  {
    PostRequest(RequestUrl(model, keys[cursor]), prompt, maxTokens)
  }

  /**
   * What each of the (at most `|keys|`) attempts of a call from cursor
   * `start` would come to: the `j`-th POST goes out with the key `j` places
   * after `start`.
   */
  function Steps(keys: seq<string>, model: string, start: nat, prompt: string, maxTokens: int, post: Post): (r: seq<Step>)
    requires start == 0 || start < |keys|
    ensures |r| == |keys|
  {
    seq(|keys|, j requires 0 <= j < |keys| =>
      StepOf(post(AttemptRequest(keys, model, Slot(start, j, |keys|), prompt, maxTokens), j)))
  }

  /** The outcome of a `generate` call and the number of POSTs it made. */
  datatype Verdict = Verdict(result: Result<string, Error>, attempts: nat)

  /**
   * The attempts from the `i`-th on, `last` being the most recent error
   * recorded so far; an answer is given as received, before `.strip()`.
   */
  function Run(steps: seq<Step>, i: nat, last: Option<Error>): (v: Verdict)
    requires i <= |steps|
    ensures i <= v.attempts <= |steps|
    ensures v.result.Err? ==> v.attempts == |steps|
    decreases |steps| - i
  {
    if i == |steps| then
      Verdict(Err(last.GetOr(GeminiAPIError("All Gemini API keys failed"))), i)
    else
      match steps[i]
      case Done(text) => Verdict(Ok(text), i + 1)
      case Next(e) => Run(steps, i + 1, if e.Some? then e else last)
  }

  /** What the loop of `generate` does from cursor `start`, an answer given before `.strip()`. */
  function LoopOutcome(keys: seq<string>, model: string, start: nat, prompt: string, maxTokens: int, post: Post): (v: Verdict)
    requires start == 0 || start < |keys|
    ensures v.attempts <= |keys|
    ensures !Configured(keys) ==> v.attempts == 0 && v.result.Err? && v.result.error.GeminiAPIError?
  {
    if |keys| == 0 then Verdict(Err(GeminiAPIError("All Gemini API keys failed")), 0)
    else if !Configured(keys) then Verdict(Err(GeminiAPIError("GEMINI_API_KEY not configured")), 0)
    else Run(Steps(keys, model, start, prompt, maxTokens, post), 0, None)
  }

  /** What `generate` does from cursor `start`: the loop's outcome, an answer stripped. */
  function GenerateOutcome(keys: seq<string>, model: string, start: nat, prompt: string, maxTokens: int, post: Post): (v: Verdict)
    requires start == 0 || start < |keys|
    ensures v.attempts == LoopOutcome(keys, model, start, prompt, maxTokens, post).attempts
    ensures v.result.Err? <==> LoopOutcome(keys, model, start, prompt, maxTokens, post).result.Err?
  {
    var v := LoopOutcome(keys, model, start, prompt, maxTokens, post);
    if v.result.Ok? then Verdict(Ok(Strip(v.result.value)), v.attempts) else v
  }

  class GeminiClient {
    const apiKeys: seq<string>
    const model: string
    var cursor: nat

    ghost predicate Valid()
      reads this
    {
      cursor == 0 || cursor < |apiKeys|
    }

    /** A new client starts at the first key. */
    constructor (apiKeys: seq<string>, model: string)
      ensures Valid()
      ensures this.apiKeys == apiKeys && this.model == model && cursor == 0
    {
      this.apiKeys := apiKeys;
      this.model := model;
      cursor := 0;
    }

    /** `_get_next_key`: the key under the cursor, the cursor moving on cyclically. */
    method GetNextKey() returns (r: Result<string, Error>)
      requires Valid()
      modifies this
      ensures Valid()
      ensures !Configured(apiKeys) ==> r == Err(GeminiAPIError("No GEMINI_API_KEY provided")) && cursor == old(cursor)
      ensures Configured(apiKeys) ==> r == Ok(apiKeys[old(cursor)]) && cursor == Tick(old(cursor), |apiKeys|)
    {
      if apiKeys == [] || apiKeys == [""] {
        return Err(GeminiAPIError("No GEMINI_API_KEY provided"));
      }
      r := Ok(apiKeys[cursor]);
      TickIsMod(cursor, |apiKeys|);
      cursor := (cursor + 1) % |apiKeys|;
    }

    /** `generate`: the loop over the keys, then `.strip()` of the answer. */
    method Generate(prompt: string, maxTokens: int, post: Post) returns (r: Result<string, Error>, attempts: nat)
      requires Valid()
      modifies this
      ensures Valid()
      ensures Verdict(r, attempts) == GenerateOutcome(apiKeys, model, old(cursor), prompt, maxTokens, post)
      ensures cursor == if Configured(apiKeys) then Slot(old(cursor), attempts, |apiKeys|) else old(cursor)
    {
      r, attempts := TryKeys(prompt, maxTokens, post);
      if r.Ok? {
        r := Ok(Strip(r.value));
      }
    }

    /**
     * The `for` loop of `generate`: at most one POST per key, moving the
     * cursor once per attempt; `attempts` is the number of POSTs made.
     */
    method TryKeys(prompt: string, maxTokens: int, post: Post) returns (r: Result<string, Error>, attempts: nat)
      requires Valid()
      modifies this
      ensures Valid()
      ensures Verdict(r, attempts) == LoopOutcome(apiKeys, model, old(cursor), prompt, maxTokens, post)
      ensures cursor == if Configured(apiKeys) then Slot(old(cursor), attempts, |apiKeys|) else old(cursor)
    {
      ghost var start := cursor;
      ghost var steps := Steps(apiKeys, model, start, prompt, maxTokens, post);
      var lastError: Option<Error> := None;
      var i := 0;
      while i < |apiKeys|
        invariant 0 <= i <= |apiKeys|
        invariant !Configured(apiKeys) ==> i == 0 && cursor == start && lastError.None?
        invariant Configured(apiKeys) ==> cursor == Slot(start, i, |apiKeys|)
        invariant Configured(apiKeys) ==> Run(steps, 0, None) == Run(steps, i, lastError)
      {
        ghost var at := cursor;
        var key := GetNextKey();
        if key.Err? {
          return Err(GeminiAPIError("GEMINI_API_KEY not configured")), 0;
        }
        var request := PostRequest(RequestUrl(model, key.value), prompt, maxTokens);
        assert request == AttemptRequest(apiKeys, model, at, prompt, maxTokens);
        // the `try` block of one attempt, which StepOf spells out
        var step := StepOf(post(request, i));
        assert step == steps[i];
        match step
        case Done(text) =>
          return Ok(text), i + 1;
        case Next(e) =>
          if e.Some? {
            lastError := e;
          }
        i := i + 1;
      }
      r, attempts := Err(lastError.GetOr(GeminiAPIError("All Gemini API keys failed"))), i;
    }
  }

  // -------------------------------------------------------------------- lemmas

  /** Within one round the cursor is `(start + k) mod n`, spelled without `%`. */
  lemma {:induction false} SlotWithinRound(start: nat, k: nat, n: nat)
    requires start < n && k <= n
    ensures Slot(start, k, n) == if start + k < n then start + k else start + k - n
  {
    if k > 0 {
      SlotWithinRound(start, k - 1, n);
    }
  }

  /** A call that tries every key leaves the cursor where it found it. */
  lemma FullRoundRestoresCursor(start: nat, n: nat)
    requires start < n
    ensures Slot(start, n, n) == start
  {
    SlotWithinRound(start, n, n);
  }

  /** Within one call no key is used twice: the cursor positions of distinct attempts differ. */
  lemma RoundVisitsDistinctKeys(start: nat, j: nat, k: nat, n: nat)
    requires start < n && j < k < n
    ensures Slot(start, j, n) != Slot(start, k, n)
  {
    SlotWithinRound(start, j, n);
    SlotWithinRound(start, k, n);
  }

  lemma {:induction false} RunAllRejected(steps: seq<Step>, e: Error, i: nat, last: Option<Error>)
    requires i <= |steps|
    requires forall j :: i <= j < |steps| ==> steps[j] == Next(Some(e))
    ensures Run(steps, i, last)
         == Verdict(Err(if i < |steps| then e else last.GetOr(GeminiAPIError("All Gemini API keys failed"))), |steps|)
    decreases |steps| - i
  {
    if i < |steps| {
      RunAllRejected(steps, e, i + 1, Some(e));
    }
  }

  /**
   * When every key is refused with 429 (or 403), all keys are tried once and
   * the error of the last refusal is raised.
   */
  lemma AllKeysRefused(keys: seq<string>, model: string, start: nat, prompt: string, maxTokens: int, post: Post, status: int)
    requires Configured(keys) && start < |keys|
    requires status == 429 || status == 403
    requires forall q, j :: post(q, j).Reply? && post(q, j).status == status
    ensures GenerateOutcome(keys, model, start, prompt, maxTokens, post)
         == Verdict(Err(GeminiAPIError("API returned " + IntToString(status))), |keys|)
  {
    var e := GeminiAPIError("API returned " + IntToString(status));
    var steps := Steps(keys, model, start, prompt, maxTokens, post);
    forall j | 0 <= j < |steps|
      ensures steps[j] == Next(Some(e))
    {
      var q := AttemptRequest(keys, model, Slot(start, j, |keys|), prompt, maxTokens);
      assert post(q, j).Reply? && post(q, j).status == status;
    }
    RunAllRejected(steps, e, 0, None);
  }

  lemma {:induction false} RunNothingRecorded(steps: seq<Step>, i: nat)
    requires i <= |steps|
    requires forall j :: i <= j < |steps| ==> steps[j] == Next(None)
    ensures Run(steps, i, None) == Verdict(Err(GeminiAPIError("All Gemini API keys failed")), |steps|)
    decreases |steps| - i
  {
    if i < |steps| {
      RunNothingRecorded(steps, i + 1);
    }
  }

  /** When no attempt records an error (2xx replies other than 200), the generic error is raised. */
  lemma NothingRecordedFails(keys: seq<string>, model: string, start: nat, prompt: string, maxTokens: int, post: Post)
    requires Configured(keys) && start < |keys|
    requires forall q, j :: post(q, j).Reply? && post(q, j).status != 200 && 200 <= post(q, j).status < 300
    ensures GenerateOutcome(keys, model, start, prompt, maxTokens, post)
         == Verdict(Err(GeminiAPIError("All Gemini API keys failed")), |keys|)
  {
    var steps := Steps(keys, model, start, prompt, maxTokens, post);
    forall j | 0 <= j < |steps|
      ensures steps[j] == Next(None)
    {
      var q := AttemptRequest(keys, model, Slot(start, j, |keys|), prompt, maxTokens);
      assert post(q, j).Reply? && post(q, j).status != 200 && 200 <= post(q, j).status < 300;
    }
    RunNothingRecorded(steps, 0);
  }

  /**
   * When no attempt answers and the last one recorded `e`, it is `e` that is
   * raised, whatever the earlier attempts recorded.
   */
  lemma {:induction false} ExhaustedRaisesLast(steps: seq<Step>, i: nat, last: Option<Error>, e: Error)
    requires i < |steps|
    requires forall j :: i <= j < |steps| ==> steps[j].Next?
    requires steps[|steps| - 1] == Next(Some(e))
    ensures Run(steps, i, last).result == Err(e)
    decreases |steps| - i
  {
    if i < |steps| - 1 {
      var next := if steps[i].error.Some? then steps[i].error else last;
      ExhaustedRaisesLast(steps, i + 1, next, e);
    }
  }

  /** The run ends at the first attempt that answers, with that answer. */
  lemma {:induction false} FirstDoneWins(steps: seq<Step>, i: nat, last: Option<Error>, k: nat)
    requires i <= k < |steps| && steps[k].Done?
    requires forall j :: i <= j < k ==> steps[j].Next?
    ensures Run(steps, i, last) == Verdict(Ok(steps[k].text), k + 1)
    decreases k - i
  {
    if i < k {
      var next := if steps[i].error.Some? then steps[i].error else last;
      FirstDoneWins(steps, i + 1, next, k);
    }
  }

  /** The first reply that carries candidates ends the call: its stripped text, after one POST. */
  lemma FirstAnswerReturns(keys: seq<string>, model: string, start: nat, prompt: string, maxTokens: int, post: Post, text: string)
    requires Configured(keys) && start < |keys|
    requires post(AttemptRequest(keys, model, start, prompt, maxTokens), 0) == Reply(200, Candidates(text))
    ensures GenerateOutcome(keys, model, start, prompt, maxTokens, post) == Verdict(Ok(Strip(text)), 1)
  {
    var steps := Steps(keys, model, start, prompt, maxTokens, post);
    assert Slot(start, 0, |keys|) == start;
    assert StepOf(Reply(200, Candidates(text))) == Done(text);
    assert steps[0] == Done(text);
    FirstDoneWins(steps, 0, None, 0);
  }

  /** Two keys, the first rate-limited and the second answering: exactly two POSTs. */
  lemma RateLimitedThenAnswered(k1: string, k2: string, model: string, prompt: string, maxTokens: int, post: Post, body: Body)
    requires post(PostRequest(RequestUrl(model, k1), prompt, maxTokens), 0) == Reply(429, body)
    requires post(PostRequest(RequestUrl(model, k2), prompt, maxTokens), 1) == Reply(200, Candidates("example.com"))
    ensures GenerateOutcome([k1, k2], model, 0, prompt, maxTokens, post) == Verdict(Ok("example.com"), 2)
  {
    var keys := [k1, k2];
    var steps := Steps(keys, model, 0, prompt, maxTokens, post);
    StripNoSpace("example.com");
    assert Slot(0, 1, 2) == 1;
    assert AttemptRequest(keys, model, 0, prompt, maxTokens) == PostRequest(RequestUrl(model, k1), prompt, maxTokens);
    assert AttemptRequest(keys, model, 1, prompt, maxTokens) == PostRequest(RequestUrl(model, k2), prompt, maxTokens);
    assert steps[0].Next?;
    assert steps[1] == Done("example.com");
    FirstDoneWins(steps, 0, None, 1);
  }
}
