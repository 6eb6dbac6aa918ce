/**
 * The GitHub `workflow_run` webhook (webhooks/github.py): a ladder of early
 * returns (signature, event, payload, status) and then a dispatch on the run's
 * conclusion that drains or trims the build ledger and notifies the users.
 * HMAC-SHA256 is a parameter; the aiohttp request and the Telegram send are
 * values.
 */
module Webhook {
  import opened Wrappers
  import opened Pending
  import opened Builds
  import opened Telegram

  /**
   * The three fields read from `payload["workflow_run"]`; a field that is
   * absent (or JSON `null`) is `None`. An absent `workflow_run` reads as
   * `WorkflowRun(None, None, None)`.
   */
  datatype WorkflowRun = WorkflowRun(status: Option<string>, conclusion: Option<string>, headSha: Option<string>)

  /** The body as `request.json()` sees it: `Unreadable` when that, or a `.get` on it, raises. */
  datatype Payload = Unreadable | Readable(run: WorkflowRun)

  datatype Request = Request(
    signature: Option<string>,   // X-Hub-Signature-256
    body: string,                // raw body, the HMAC message
    event: Option<string>,       // X-GitHub-Event
    payload: Payload)

  datatype Response = Response(status: int, text: string)

  /** The notification one pending build receives: which bot sends it, and the request. */
  datatype Notice = Notice(bot: BotHandle, request: SendMessage)

  /** `hex(HMAC-SHA256(key, message))` (RFC 2104), left uninterpreted. */
  type Hmac = (string, string) -> string

  /** What handling a request amounts to, before the ledger is consulted. */
  datatype Decision =
    | Early(response: Response)         // returned before the conclusion is looked at
    | NotifyAll                         // conclusion "success"
    | NotifyFailed(headSha: Option<string>)  // conclusion "failure"
    | Keep                              // "cancelled" or any other conclusion

  predicate Unsigned(req: Request) {
    req.signature.None? || req.signature.value == ""
  }

  /** The header GitHub sends for `body` under `key`. */
  function ExpectedSignature(hmac: Hmac, key: string, body: string): string {
    "sha256=" + hmac(key, body)
  }

  /** A configured secret is one that is set and non-empty. */
  predicate SignatureChecked(secret: Option<string>) {
    secret.Some? && secret.value != ""
  }

  function Decide(secret: Option<string>, hmac: Hmac, req: Request): Decision {
    if Unsigned(req) then Early(Response(401, "No signature"))
    else if SignatureChecked(secret) && req.signature.value != ExpectedSignature(hmac, secret.value, req.body) then
      Early(Response(401, "Invalid signature"))
    else if req.event != Some("workflow_run") then Early(Response(200, "Ignored event"))
    else
      match req.payload
      case Unreadable => Early(Response(500, "Internal Server Error"))
      case Readable(run) => RunDecision(run)
  }

  /** The part of the ladder that reads the run: its status, then its conclusion. */
  function RunDecision(run: WorkflowRun): Decision {
    if run.status != Some("completed") then Early(Response(200, "Not completed yet"))
    else if run.conclusion == Some("success") then NotifyAll
    else if run.conclusion == Some("failure") then NotifyFailed(run.headSha)
    else Keep
  }

  function ResponseOf(d: Decision): Response {
    if d.Early? then d.response else Response(200, "Processed")
  }

  // ------------------------------------------------------------------ messages

  function SuccessText(domain: string): string {
    "✅ **Сборка завершена успешно!**\nСайт `" + domain + "` добавлен в списки.\n\n"
    + "🔄 **Совет:** Обновите профиль в VPN клиенте, чтобы изменения вступили в силу."
  }

  function FailureText(domain: string): string {
    "❌ **Сборка не удалась!**\nЧто-то пошло не так при добавлении `" + domain + "`."
  }

  /** The Markdown message for `build`, in its topic only when it has a truthy one. */
  function NoticeFor(build: PendingBuild, text: string): (n: Notice)
    ensures n.bot == build.bot && n.request.chatId == build.chatId && n.request.text == text
    ensures n.request.parseMode == Some("Markdown")
    ensures n.request.threadId.Some? <==> IsSet(build.messageThreadId)
  {
    Notice(build.bot, SendMessage(build.chatId, text, Some("Markdown"), ThreadArgument(build.messageThreadId)))
  }

  /** The success notices for `shas`, in that order. */
  function SuccessNotices(shas: seq<string>, builds: map<string, PendingBuild>): (r: seq<Notice>)
    requires forall sha :: sha in shas ==> sha in builds
    ensures |r| == |shas|
    ensures forall k :: 0 <= k < |shas| ==> r[k] == NoticeFor(builds[shas[k]], SuccessText(builds[shas[k]].domain))
  {
    if shas == [] then []
    else
      var last := builds[shas[|shas| - 1]];
      SuccessNotices(shas[..|shas| - 1], builds) + [NoticeFor(last, SuccessText(last.domain))]
  }

  // ------------------------------------------------------------------ handlers

  /** `notify_user_success`: pops first, so the record goes even if the send then fails. */
  method NotifyUserSuccess(store: BuildsStore, sha: string) returns (sent: Option<Notice>)
    requires store.Valid()
    modifies store
    ensures store.Valid()
    ensures store.builds == old(store.builds) - {sha}
    ensures store.order == Remove(old(store.order), sha)
    ensures sent == if sha in old(store.builds)
      then Some(NoticeFor(old(store.builds)[sha], SuccessText(old(store.builds)[sha].domain)))
      else None
  {
    var build := store.Pop(sha);
    if build.None? {
      return None;
    }
    sent := Some(NoticeFor(build.value, SuccessText(build.value.domain)));
  }

  /** `notify_user_failure`: the same protocol with the failure text. */
  method NotifyUserFailure(store: BuildsStore, sha: string) returns (sent: Option<Notice>)
    requires store.Valid()
    modifies store
    ensures store.Valid()
    ensures store.builds == old(store.builds) - {sha}
    ensures store.order == Remove(old(store.order), sha)
    ensures sent == if sha in old(store.builds)
      then Some(NoticeFor(old(store.builds)[sha], FailureText(old(store.builds)[sha].domain)))
      else None
  {
    var build := store.Pop(sha);
    if build.None? {
      return None;
    }
    sent := Some(NoticeFor(build.value, FailureText(build.value.domain)));
  }

  /**
   * The `for sha in to_notify` loop of the success branch: every key present
   * when it starts is popped and notified, in insertion order.
   */
  method NotifyAllSuccess(store: BuildsStore) returns (sent: seq<Notice>)
    requires store.Valid()
    modifies store
    ensures store.Valid()
    ensures store.builds == map[] && store.order == []
    ensures sent == SuccessNotices(old(store.order), old(store.builds))
  {
    var toNotify := store.GetAllShas();
    ghost var before := store.builds;
    sent := [];
    var i := 0;
    while i < |toNotify|
      invariant 0 <= i <= |toNotify|
      invariant store.Valid()
      invariant store.order == toNotify[i..]
      invariant store.builds == before - Elements(toNotify[..i])
      invariant sent == SuccessNotices(toNotify[..i], before)
    {
      var notice := NotifyNext(store, toNotify, i, before);
      SuccessNoticesSnoc(toNotify, i, before);
      sent := sent + [notice];
      i := i + 1;
    }
    assert toNotify[..i] == toNotify;
    assert store.builds.Keys == {};
  }

  /** One turn of the success loop: the next key is still tracked, so it is popped and notified. */
  method NotifyNext(store: BuildsStore, toNotify: seq<string>, i: nat, ghost before: map<string, PendingBuild>)
    returns (notice: Notice)
    requires store.Valid() && i < |toNotify| && Distinct(toNotify)
    requires forall sha :: sha in toNotify ==> sha in before
    requires store.order == toNotify[i..] && store.builds == before - Elements(toNotify[..i])
    modifies store
    ensures store.Valid()
    ensures store.order == toNotify[i + 1..] && store.builds == before - Elements(toNotify[..i + 1])
    ensures notice == NoticeFor(before[toNotify[i]], SuccessText(before[toNotify[i]].domain))
  {
    var sha := toNotify[i];
    DistinctSuffix(toNotify, i);
    RemoveHead(toNotify[i..]);
    DropNext(store.builds, before, toNotify, i);
    var sent := NotifyUserSuccess(store, sha);
    notice := sent.value;
  }

  /** The failure branch looks up `head_sha` and notifies only a tracked one. */
  predicate TracksFailure(d: Decision, builds: map<string, PendingBuild>) {
    d.NotifyFailed? && d.headSha.Some? && d.headSha.value in builds
  }

  /**
   * `handle_workflow_run`, handling one request to completion (the model is
   * sequential: nothing else touches the ledger meanwhile). `sent` lists the
   * notifications attempted, in order.
   */
  method HandleWorkflowRun(store: BuildsStore, secret: Option<string>, hmac: Hmac, req: Request)
    returns (resp: Response, sent: seq<Notice>)
    requires store.Valid()
    modifies store
    ensures store.Valid()
    ensures resp == ResponseOf(Decide(secret, hmac, req))
    ensures var d := Decide(secret, hmac, req);
      d == NotifyAll ==>
        store.builds == map[] && store.order == []
        && sent == SuccessNotices(old(store.order), old(store.builds))
    ensures var d := Decide(secret, hmac, req);
      TracksFailure(d, old(store.builds)) ==>
        store.builds == old(store.builds) - {d.headSha.value}
        && store.order == Remove(old(store.order), d.headSha.value)
        && sent == [NoticeFor(old(store.builds)[d.headSha.value], FailureText(old(store.builds)[d.headSha.value].domain))]
    ensures var d := Decide(secret, hmac, req);
      d != NotifyAll && !TracksFailure(d, old(store.builds)) ==>
        store.builds == old(store.builds) && store.order == old(store.order) && sent == []
  {
    sent := [];
    if req.signature.None? || req.signature.value == "" {
      return Response(401, "No signature"), [];
    }
    if secret.Some? && secret.value != "" {
      var expected := "sha256=" + hmac(secret.value, req.body);
      if req.signature.value != expected {
        return Response(401, "Invalid signature"), [];
      }
    }
    if req.event != Some("workflow_run") {
      return Response(200, "Ignored event"), [];
    }
    if req.payload.Unreadable? {
      return Response(500, "Internal Server Error"), [];
    }
    resp, sent := HandleRun(store, req.payload.run);
  }

  /** The rest of `handle_workflow_run` once the payload is read: the status check and the conclusion dispatch. */
  method HandleRun(store: BuildsStore, run: WorkflowRun) returns (resp: Response, sent: seq<Notice>)
    requires store.Valid()
    modifies store
    ensures store.Valid()
    ensures resp == ResponseOf(RunDecision(run))
    ensures RunDecision(run) == NotifyAll ==>
      store.builds == map[] && store.order == [] && sent == SuccessNotices(old(store.order), old(store.builds))
    ensures var d := RunDecision(run);
      TracksFailure(d, old(store.builds)) ==>
        store.builds == old(store.builds) - {d.headSha.value}
        && store.order == Remove(old(store.order), d.headSha.value)
        && sent == [NoticeFor(old(store.builds)[d.headSha.value], FailureText(old(store.builds)[d.headSha.value].domain))]
    ensures var d := RunDecision(run);
      d != NotifyAll && !TracksFailure(d, old(store.builds)) ==>
        store.builds == old(store.builds) && store.order == old(store.order) && sent == []
  {
    sent := [];
    if run.status != Some("completed") {
      return Response(200, "Not completed yet"), [];
    }
    if run.conclusion == Some("success") {
      sent := NotifyAllSuccess(store);
    } else if run.conclusion == Some("failure") {
      if run.headSha.Some? && run.headSha.value in store.builds {
        var notice := NotifyUserFailure(store, run.headSha.value);
        sent := [notice.value];
      }
    }
    resp := Response(200, "Processed");
  }

  lemma SuccessNoticesSnoc(shas: seq<string>, i: nat, builds: map<string, PendingBuild>)
    requires i < |shas| && forall sha :: sha in shas ==> sha in builds
    ensures SuccessNotices(shas[..i + 1], builds)
      == SuccessNotices(shas[..i], builds) + [NoticeFor(builds[shas[i]], SuccessText(builds[shas[i]].domain))]
  {
    assert shas[..i + 1][..i] == shas[..i];
  }

  function Elements(s: seq<string>): set<string> {
    set k | k in s
  }

  lemma DropNext(m: map<string, PendingBuild>, before: map<string, PendingBuild>, s: seq<string>, i: nat)
    requires i < |s| && m == before - Elements(s[..i])
    ensures m - {s[i]} == before - Elements(s[..i + 1])
  {
    assert s[..i + 1] == s[..i] + [s[i]];
    assert Elements(s[..i + 1]) == Elements(s[..i]) + {s[i]};
  }

  lemma DistinctSuffix(s: seq<string>, i: nat)
    requires Distinct(s) && i < |s|
    ensures Distinct(s[i..])
  {
    assert forall a, b :: 0 <= a < b < |s| - i ==> s[i..][a] == s[i + a] && s[i..][b] == s[i + b];
  }

  // -------------------------------------------------------------------- lemmas

  /** Without a signature header the request is refused, whatever the secret. */
  lemma UnsignedIsRefused(secret: Option<string>, hmac: Hmac, req: Request)
    requires Unsigned(req)
    ensures ResponseOf(Decide(secret, hmac, req)) == Response(401, "No signature")
  {
  }

  /**
   * With a secret configured, only the exact header for the body gets past the
   * signature check: any other header value is refused with 401.
   */
  lemma ForgedIsRefused(secret: Option<string>, hmac: Hmac, req: Request)
    requires SignatureChecked(secret) && !Unsigned(req)
    ensures ResponseOf(Decide(secret, hmac, req)).status == 401
        <==> req.signature.value != ExpectedSignature(hmac, secret.value, req.body)
  {
  }

  /** Without a secret the signature check is skipped: any non-empty header passes it. */
  lemma NoSecretSkipsCheck(hmac: Hmac, req: Request, other: string)
    requires !Unsigned(req)
    ensures Decide(None, hmac, req) == Decide(Some(""), hmac, req)
    ensures Decide(None, hmac, req) == Decide(None, hmac, req.(signature := Some(other + "x")))
  {
  }

  /** Only a signed, completed `workflow_run` request can reach the ledger. */
  lemma LedgerReachedOnlyWhenCompleted(secret: Option<string>, hmac: Hmac, req: Request)
    requires !Decide(secret, hmac, req).Early?
    ensures !Unsigned(req) && req.event == Some("workflow_run")
    ensures req.payload.Readable? && req.payload.run.status == Some("completed")
    ensures SignatureChecked(secret) ==> req.signature.value == ExpectedSignature(hmac, secret.value, req.body)
  {
  }
}
