# iplist-bot, modelled in Dafny

iplist-bot is a Telegram bot that adds domains to the iplist repository. A
user sends a domain, a keyword or `/add <domain> <category>`. The bot resolves
a keyword to a domain with Gemini, classifies the domain into one of the
repository's category folders (Gemini again, fed by a DuckDuckGo search or the
domain's homepage), looks up its A and AAAA records, and writes
`config/<category>/<domain>.json` through the GitHub contents API. The commit
is remembered in an in-memory ledger; when GitHub's CI reports the
`workflow_run` back through a signed webhook, the user who asked is told
whether the build passed. Beside this the bot has a main menu, a personal
dashboard (the "LK") backed by a collector API, and a payment-confirmation
flow between users and admins.

The model has one Dafny module per live `bot.*` source file:

- `Builds` (state/builds.py): class `BuildsStore` over a map and its key order.
- `Pending` (models/pending.py): the ledger's record.
- `Exceptions` (core/exceptions.py): the error taxonomy.
- `Webhook` (webhooks/github.py): early-return ladder, then a notification loop over the ledger.
- `AiClient` (services/ai/client.py): class `GeminiClient` with the rotation cursor; bounded retry loop.
- `Classifier` (services/ai/classifier.py): context fallback chain and category matching.
- `Resolver` (services/ai/resolver.py): answer clean-up and guard.
- `WebSearch` (services/search.py): hit formatting loop and page-text clean-up.
- `Dns` (services/dns.py): nameserver normalisation, issue choice, primary/fallback merge.
- `Schemas`, `Json` (services/github/schemas.py): the site configuration, its `asdict` shape and its `json.dumps` text.
- `GitHub`, `Base64` (services/github/client.py): class `GitHubClient`: category listing, create-or-update of a file.
- `DomainHandlers` (handlers/domain.py): `_clean_domain` and the stage order of the two domain handlers.
- `Config` (core/config.py): class `Settings` and its parsers.
- `AdminPayment` (handlers/admin_payment.py): the admins' confirm/decline callback.
- `Common`, `Telegram` (handlers/common.py): HTML escaping, the shared senders, `send_message` arguments.
- `Lk` (handlers/lk.py): labels, capped lists, keyboard, routing, class `UserData` with the TTL caches.
- `Menu` (handlers/menu.py): the main menu and its dispatch.

`Wrappers` (Option and Result, standing in for `None` and raised exceptions)
and `PyStr` (the Python `str` operations the code uses: `lower`, `strip`,
`rstrip`, `replace`, `in`, `startswith`, `split`, `join`, `str(int)`,
`int(str)`) are shared by all modules.

Every external service is a parameter of the operation that calls it: the
Gemini POST (`post(request, i)` is the reply to the `i`-th POST of one call),
DuckDuckGo and the page fetch, the DNS resolvers, the GitHub GET and PUT, the
collector API, HMAC-SHA256 and the clock. Operations that talk to Telegram
return the record of what they would send.

Behaviours of the code that are easy to miss, which the model follows:

- DNS: a result with no address carries an issue only when some lookup raised;
  two lookups that answer with no records give no address and no issue
  (services/dns.py:85-89).
- DNS: when both resolvers fail, the reported issue is the fallback's own, and
  the primary's only when the fallback has none; it is not the highest
  priority issue across both (services/dns.py:152).
- Gemini: a 200 reply without candidates, and any non-200 2xx reply, move on
  to the next key; a 2xx other than 200 does so without recording an error
  (services/ai/client.py:72-86).
- Gemini: with no keys at all the loop makes no attempt and raises "All Gemini
  API keys failed"; only the single blank key raises "not configured"
  (services/ai/client.py:24-25, 55-62, 96).
- A failed keyword resolution is reported as a generic failure, not as a
  request to clarify (see Findings).

## Model

| member | source | states |
|---|---|---|
| `Builds.Remove` | state/builds.py:18-20 | the key order after a pop keeps exactly the other keys, stays duplicate-free, and is unchanged when the key was absent |
| `Builds.BuildsStore.constructor` | state/builds.py:11-12 | a new ledger is empty |
| `Builds.BuildsStore.Add` | state/builds.py:14-16 | the sha maps to the new build; a new sha goes to the end of the key order, an existing one keeps its place |
| `Builds.BuildsStore.Pop` | state/builds.py:18-20 | returns the build stored under the sha, or nothing when there is none, and removes the sha from the map and the order |
| `Builds.BuildsStore.Get` | state/builds.py:22-24 | returns the stored build exactly when the sha is present, and changes nothing |
| `Builds.BuildsStore.GetAllShas` | state/builds.py:26-28 | returns the shas in insertion order, each once, exactly the keys present |
| `Builds.BuildsStore.Contains` | state/builds.py:30-31 | true exactly when the sha has a pending build |
| `Telegram.ThreadArgument` | webhooks/github.py:83-84 | the `message_thread_id` argument is passed exactly when the topic is set and non-zero, and then equals it |
| `Telegram.SendIfConfigured` | handlers/common.py:33-62 | a message is sent exactly when the chat is set and non-zero, to that chat with the given text and parse mode, in a topic exactly when one is set |
| `Webhook.NoticeFor` | webhooks/github.py:74-86 | the notice goes through the build's bot to its chat, in Markdown, in the build's topic exactly when that is set |
| `Webhook.SuccessNotices` | webhooks/github.py:48-50 | one notice per listed sha, in order, each the success notice for that sha's build and domain |
| `Webhook.NotifyUserSuccess` | webhooks/github.py:67-88 | pops the sha from the ledger; a success notice for the popped build is sent exactly when one was pending |
| `Webhook.NotifyUserFailure` | webhooks/github.py:91-108 | pops the sha from the ledger; a failure notice for the popped build is sent exactly when one was pending |
| `Webhook.NotifyAllSuccess` | webhooks/github.py:46-50 | on success every pending build is notified once, in insertion order, and the ledger is left empty |
| `Webhook.NotifyNext` | webhooks/github.py:49-50 | one pass of the loop pops the next listed sha and returns its notice; the ledger then lacks exactly the shas handled so far |
| `Webhook.HandleWorkflowRun` | webhooks/github.py:16-64 | the response is the one the early-return ladder decides; success drains the ledger and notifies everyone; a failure of a pending head sha pops only it and sends its failure notice; every other request leaves the ledger alone and sends nothing |
| `Webhook.HandleRun` | webhooks/github.py:42-60 | the dispatch on status and conclusion of a readable run, with the same three outcomes for the ledger and the notices |
| `Webhook.SuccessNoticesSnoc` | webhooks/github.py:49-50 | handling one more sha appends exactly its notice to those sent so far |
| `Webhook.UnsignedIsRefused` | webhooks/github.py:19-21 | a request without a signature header gets 401 "No signature", whatever the secret |
| `Webhook.ForgedIsRefused` | webhooks/github.py:25-29 | with a secret set, a signed request is refused with 401 exactly when its signature is not `sha256=` plus the HMAC of the body |
| `Webhook.NoSecretSkipsCheck` | webhooks/github.py:25 | with no secret, or an empty one, the signature's value does not matter |
| `Webhook.LedgerReachedOnlyWhenCompleted` | webhooks/github.py:19-44 | the ledger is touched only for a signed `workflow_run` event whose payload reads and whose status is `completed`, and with a secret only when the signature matches |
| `AiClient.StepOf` | services/ai/client.py:72-94 | one reply ends the loop exactly when it is a 200 with candidates; a non-200 2xx reply moves on without recording an error |
| `AiClient.TickIsMod` | services/ai/client.py:28 | the key cursor advances as `(index + 1) % len(keys)` |
| `AiClient.SlotWithinRound` | services/ai/client.py:28 | after k advances within one round the cursor sits k keys further on, wrapping once |
| `AiClient.FullRoundRestoresCursor` | services/ai/client.py:55-58 | a call that tries every key leaves the cursor where it found it |
| `AiClient.RoundVisitsDistinctKeys` | services/ai/client.py:55-60 | no key is tried twice within one call |
| `AiClient.Run` | services/ai/client.py:58-96 | the number of POSTs never exceeds the number of keys, and an error is raised only after every key was tried |
| `AiClient.LoopOutcome` | services/ai/client.py:55-62 | at most one attempt per key; with no key configured, no POST and a `GeminiAPIError` |
| `AiClient.GenerateOutcome` | services/ai/client.py:31-96 | `generate` makes the same attempts as its loop and fails exactly when the loop fails |
| `AiClient.GeminiClient.constructor` | services/ai/client.py:17-20 | keeps the keys and the model and starts the cursor at 0 |
| `AiClient.GeminiClient.GetNextKey` | services/ai/client.py:22-29 | with no key (or only `""`) it raises "No GEMINI_API_KEY provided" and leaves the cursor; otherwise it returns the key under the cursor and advances it |
| `AiClient.GeminiClient.Generate` | services/ai/client.py:31-96 | the answer and the attempt count are those of the loop from the current cursor, stripped; the cursor moves once per attempt |
| `AiClient.GeminiClient.TryKeys` | services/ai/client.py:55-96 | the `for` loop: one POST per attempt, the cursor moving with each, the outcome that of the loop's reference definition |
| `AiClient.RunAllRejected` | services/ai/client.py:79-84 | when every remaining key is rejected with the same error, the loop runs to the end and raises that error |
| `AiClient.AllKeysRefused` | services/ai/client.py:79-96 | when every key answers 429 (or every key 403), every key is tried and "API returned 429" (or 403) is raised |
| `AiClient.RunNothingRecorded` | services/ai/client.py:86-96 | when every attempt falls through without recording an error, the loop ends with "All Gemini API keys failed" |
| `AiClient.NothingRecordedFails` | services/ai/client.py:86-96 | when every key answers a non-200 2xx status, every key is tried and "All Gemini API keys failed" is raised |
| `AiClient.ExhaustedRaisesLast` | services/ai/client.py:88-96 | when no attempt succeeds, the error raised is the one recorded by the last attempt |
| `AiClient.FirstDoneWins` | services/ai/client.py:72-75 | the first attempt that gets an answer ends the loop with that answer, after exactly that many POSTs |
| `AiClient.FirstAnswerReturns` | services/ai/client.py:72-75 | an answer to the first POST is returned stripped, after one POST |
| `AiClient.RateLimitedThenAnswered` | tests/test_services/test_gemini.py:64-89 | a 429 on the first key and an answer on the second give that answer after two POSTs |
| `Classifier.Sld` | services/ai/classifier.py:47 | the label before the first dot, lower-cased, has no dot |
| `Classifier.PageText` | services/ai/classifier.py:58-64 | the page context is never empty: an empty page reads "No content available.", a failed fetch "Content unavailable." |
| `Classifier.ChooseContext` | services/ai/classifier.py:34-64 | the context is never empty and comes from the web search or the page |
| `Classifier.SelectContext` | services/ai/classifier.py:34-64 | the statement sequence of the context choice computes the reference choice, and fetches the page exactly when the context is the page's |
| `Classifier.LowerAll` | services/ai/classifier.py:84 | the list of lower-cased categories, position by position |
| `Classifier.FirstMatch` | services/ai/classifier.py:89-91 | a match is a listed category whose lower case is the answer; no match means no category lower-cases to it |
| `Classifier.MatchCategory` | services/ai/classifier.py:81-93 | an accepted answer is a listed category equal to the answer up to case; the answer is refused with `CategoryNotFoundError` exactly when no category matches |
| `Classifier.ClassifyDomain` | services/ai/classifier.py:13-93 | the result is one `generate` call with `max_tokens=50` on the prompt built from the chosen context, then the category match; a Gemini error propagates; the client's key cursor ends one step further per POST that call made, and does not move when no key is configured |
| `Classifier.NoResultsFallsBack` | services/ai/classifier.py:43-64 | an empty search, or one reporting no results, sends the classifier to the page |
| `Classifier.IrrelevantFallsBack` | services/ai/classifier.py:46-53 | search text that does not mention the domain's SLD is replaced by the page |
| `Classifier.RelevantIsKept` | services/ai/classifier.py:46-48 | search text that mentions the SLD is the context, as found |
| `Classifier.PageSentinels` | services/ai/classifier.py:60-64 | an empty page and a failed fetch give their two fixed texts |
| `Classifier.NoHitsFetchesPage` | services/search.py:33-35 | a search without hits reports "No search results found", so the classifier reads the page |
| `Classifier.FirstMatchIsFirst` | services/ai/classifier.py:89-91 | the category returned is the first one that matches |
| `Classifier.MatchReturnsFirst` | services/ai/classifier.py:88-91 | with several matching spellings, the first listed wins |
| `Classifier.MatchIgnoresCase` | services/ai/classifier.py:81 | the case of the answer does not change the result |
| `Classifier.CategoryExamples` | tests/test_services/test_gemini.py:112-148 | `games` among the categories is returned; `unknown_category` is refused |
| `Common.PostTo` | handlers/common.py:106-112 | a post is made exactly when the channel is set and non-zero, to that channel with the given body, in the topic exactly when one is set |
| `Common.Mention` | handlers/common.py:37 | `@username` when the user has a non-empty username, the full name otherwise |
| `Common.EscapeHtmlConcat` | handlers/common.py:40-41 | escaping works character by character: the escape of a concatenation is the concatenation of the escapes |
| `Common.EscapeHtmlChar` | handlers/common.py:40-41 | the three chained replacements turn `&`, `<` and `>` into their entities and keep every other character |
| `Common.EscapeHtmlIsEscaped` | handlers/common.py:40-41 | the chained `replace` calls equal the per-character entity escape; `&` goes first, so the entities are not escaped again |
| `Common.EscapedHasNoAngles` | handlers/common.py:40-41 | the per-character escape leaves no `<` or `>` |
| `Common.UnescapeStep` | handlers/common.py:40-41 | the escape of one character, followed by more text, decodes back to that character |
| `Common.EscapedRoundTrip` | handlers/common.py:40-41 | decoding the entities of the per-character escape gives the original text back |
| `Common.EscapeHtmlHasNoAngles` | handlers/common.py:40-44 | the escaped domain and category cannot open or close an HTML tag |
| `Common.EscapeHtmlRoundTrip` | handlers/common.py:40-44 | no information is lost: decoding the entities of `escape_html(text)` gives the text back |
| `Common.SendLogReport` | handlers/common.py:12-64 | the report is sent exactly when the log channel is set, and shows the domain and the category HTML-escaped |
| `Common.LogReportEscapes` | handlers/common.py:40-51 | the domain and category in a sent report contain no `<`, and decode back to what the user added |
| `Common.SendPaymentRequest` | handlers/common.py:67-117 | the request is sent exactly when the admin channel is set, with the confirm and the decline button for the payment and the user |
| `Common.DebugExcerpt` | handlers/common.py:134-137 | a text of at most 200 characters is kept whole; a longer one is cut to its first 200 characters plus `...` |
| `Common.SendDebugLog` | handlers/common.py:120-155 | the debug log is sent exactly when the debug channel is set, with the excerpt of the text and the message type upper-cased |
| `AdminPayment.ResultOverridesAction` | handlers/admin_payment.py:25-39 | a result of `already_paid` or `cancelled` decides the admin line and the user's message whatever the action |
| `AdminPayment.ActionDecides` | handlers/admin_payment.py:30-45 | for any other result the action decides: confirmed or declined |
| `AdminPayment.StatusTextInjective` | handlers/admin_payment.py:25-32 | the four admin lines are pairwise distinct |
| `AdminPayment.NotificationNamesPayment` | handlers/admin_payment.py:35-45 | every user message names the payment as `#<id>` |
| `AdminPayment.EditedText` | handlers/admin_payment.py:52-56 | the admin message is edited exactly when it does not already contain the status line |
| `AdminPayment.EditAppends` | handlers/admin_payment.py:55 | an edit keeps the old text as its start and ends with the status line |
| `AdminPayment.EditIdempotent` | handlers/admin_payment.py:53-55 | after one edit, the same status line causes no second edit |
| `AdminPayment.UpdateAdminMessage` | handlers/admin_payment.py:48-56 | nothing is edited without a message; otherwise the edit is that of its text (an absent text read as empty) |
| `AdminPayment.CallbackParts` | handlers/admin_payment.py:76 | `data.split(":")` yields at least one part, none containing a colon |
| `AdminPayment.ParseCallback` | handlers/admin_payment.py:75-87 | the data is malformed exactly when it has fewer than four parts or its third or fourth part is not an integer |
| `AdminPayment.ButtonDataRoundTrip` | handlers/common.py:93-104 | the callback data of either button parses back to its action, payment id and user id |
| `AdminPayment.NonIntIdIsMalformed` | handlers/admin_payment.py:82-87 | a non-integer payment id makes the data malformed |
| `AdminPayment.NoFinalDigit` | handlers/admin_payment.py:83 | a text (without edge spaces) that does not end in a digit is not an integer |
| `AdminPayment.MissingIdIsMalformed` | handlers/common.py:77 | a payment without an id puts "—" in the button, and the admin's press is then answered as malformed data |
| `AdminPayment.Member` | handlers/admin_payment.py:109-110 | a key found in an object is one of its members, with that value |
| `AdminPayment.MetaResult` | handlers/admin_payment.py:109-110 | a reply that is not an object, or has no `meta`, gives the result `ok`; a `meta` object gives its `result`, `ok` when absent; the `AttributeError` naming the type of a `meta` that is not an object escapes exactly in the remaining case |
| `AdminPayment.MissingResultIsOk` | handlers/admin_payment.py:109-110 | a reply without `meta`, or whose `meta` has no `result`, gives the result `ok` |
| `AdminPayment.RequestFor` | handlers/admin_payment.py:99-103 | the collector is asked to confirm exactly for the confirm action, for the payment and by the admin |
| `AdminPayment.Finish` | handlers/admin_payment.py:109-113 | after the collector answered: the request made is recorded; the user is told exactly when the result is readable, in the user's own chat |
| `AdminPayment.ApiClient` | services/collector.py:21-25 | the collector client is built exactly when both the base URL and the key are set and non-empty; otherwise the `CollectorAPIError` for the URL, then for the key |
| `AdminPayment.Submit` | handlers/admin_payment.py:99-113 | with the client built, the request is always made; a collector error leaves the message unedited and the user untold |
| `AdminPayment.HandleCallback` | handlers/admin_payment.py:70-113 | no query, nothing; malformed data, the "invalid data" alert; an unknown action, a silent answer; no admin, the "unknown admin" alert; a client that cannot be built escapes with no request and no answer; the collector is called exactly for confirm or decline with a known admin and a built client, with that request; the user is told only after that call, in the user's chat |
| `AdminPayment.UnconfiguredClientRaises` | handlers/admin_payment.py:98-107 | with the base URL or the key unset, a confirm or decline makes no request, edits nothing, tells no one, answers nothing, and the collector's configuration error escapes |
| `AdminPayment.ServiceErrorTouchesNothing` | handlers/admin_payment.py:104-107 | a collector error is answered with the "service error" alert, with no edit and no message to the user |
| `AdminPayment.SuccessNotifiesUser` | handlers/admin_payment.py:109-113 | a successful call edits the admin message with the status line, tells the user, and answers "done" |
| `AdminPayment.ButtonReachesCollector` | handlers/common.py:93-104 | either button of a payment request reaches the collector with its own action, the payment id and the admin, and only that payment's user is told |
| `Config.StripStrip` | core/config.py:64 | stripping a key twice changes nothing more |
| `Config.NonBlankClean` | core/config.py:64 | every key kept is non-empty and already stripped |
| `Config.NonBlankEmpty` | core/config.py:64 | no key is kept exactly when every comma-separated piece is blank |
| `Config.NonBlankKeeps` | core/config.py:64 | pieces that are already clean keys are all kept, in order |
| `Config.KeysOf` | core/config.py:64-65 | the key list is never empty |
| `Config.KeysOfShape` | core/config.py:64-65 | the list is `[""]` exactly when every piece is blank, and otherwise the clean non-blank pieces |
| `Config.KeyParts` | core/config.py:64 | the pieces of `split(",")` contain no comma |
| `Config.GeminiApiKeys` | core/config.py:61-65 | `gemini_api_keys` is never empty |
| `Config.GeminiKeysShape` | core/config.py:61-65 | `[""]` exactly when no piece has a non-space character; otherwise each key is non-empty, stripped and comma-free |
| `Config.GeminiKeysRoundTrip` | core/config.py:61-65 | clean keys joined with commas parse back to the same list |
| `Config.NoGeminiKey` | core/config.py:19 | the default empty setting gives `[""]`, the value the client treats as unconfigured |
| `Config.Values` | core/config.py:103-107 | at most one id per token |
| `Config.ParseIntList` | core/config.py:97-108 | the loop computes the reference list; no setting gives no ids |
| `Config.ValuesStep` | core/config.py:103-107 | one more token appends its value exactly when it parses |
| `Config.ValuesFrom` | core/config.py:103-107 | an id is in the list exactly when some token parses to it |
| `Config.ValuesAll` | core/config.py:103-107 | when every token parses, the list is their values in order |
| `Config.IntListFrom` | core/config.py:98-108 | an id is listed exactly when some comma- or space-separated token of the setting parses to it |
| `Config.SplitWsJoin` | core/config.py:101 | words joined by one whitespace character split back into the same words |
| `Config.ReplaceJoin` | core/config.py:101 | replacing the commas of a comma-joined list gives the space-joined list |
| `Config.Texts` | core/config.py:105 | the decimal text of each id, in order |
| `Config.TextsParse` | core/config.py:105 | `int()` of the decimal texts gives the ids back |
| `Config.SpacedIdsRoundTrip` | core/config.py:97-108 | a space-separated list of ids parses back to the same ids |
| `Config.CommaIdsRoundTrip` | core/config.py:97-108 | a comma-separated list of ids parses back to the same ids |
| `Config.ChannelParts` | core/config.py:129 | `raw.split(":")` has at least one part |
| `Config.ParseChannelWithTopic` | core/config.py:123-138 | a topic is never parsed without a channel |
| `Config.BothIds` | core/config.py:129-133 | with a colon, the channel and the topic are both parsed from the first two parts, or neither is |
| `Config.ChannelWithTopicShape` | core/config.py:123-138 | no value or an empty one gives neither id; without a colon only the channel is parsed; with a colon both or neither |
| `Config.ChannelOnlyRoundTrip` | core/config.py:135-136 | a channel id alone parses back to that channel and no topic |
| `Config.ChannelTopicParts` | core/config.py:128-131 | `c:t` followed by more `:`-separated text parses to the ids of `c` and `t` |
| `Config.ChannelTopicRoundTrip` | core/config.py:128-131 | `channel:topic`, with or without further parts, parses back to both ids |
| `Config.NormalizeWebappUrl` | core/config.py:115-121 | the URL is absent exactly when the value is absent or blank, and is otherwise the stripped value |
| `Config.NormalizeIdempotent` | core/config.py:115-121 | normalising a normalised URL changes nothing |
| `Config.Settings.constructor` | core/config.py:140-150 | the raw values are kept, the URL normalised, and each parsed channel and topic pair set from its raw value |
| `Config.Settings.AdminIds` | core/config.py:110-113 | an id is an admin exactly when it is in the parsed admin list |
| `Dns.NormalizeValue` | services/dns.py:38-41 | removing brackets or a port never lengthens an entry |
| `Dns.NormalizeEntry` | services/dns.py:35-42 | an entry is dropped exactly when it is blank |
| `Dns.Normalized` | services/dns.py:32-43 | never more nameservers out than entries in |
| `Dns.NormalizeNameservers` | services/dns.py:32-43 | the loop computes the reference normalisation |
| `Dns.NormalizedCountsEntries` | services/dns.py:34-42 | exactly one nameserver per non-blank entry |
| `Dns.BlankEntriesGiveNothing` | services/dns.py:36-37 | a list of blank entries gives no nameserver |
| `Dns.PortDropped` | services/dns.py:40-41 | `host:port` with a dotted host and one colon becomes the host |
| `Dns.BracketsDropped` | services/dns.py:38-39 | `[addr]`, with anything after the bracket, becomes the address |
| `Dns.NameserverExamples` | services/dns.py:32-43 | `8.8.8.8:53` becomes `8.8.8.8`; `[]` becomes the empty nameserver, which is kept |
| `Dns.ResolveRecord` | services/dns.py:102-125 | a lookup gives its records and no issue when it answers, and no address and an issue when it raises |
| `Dns.FirstPresent` | services/dns.py:97-99 | a candidate returned is one of the two issues |
| `Dns.RankIndex` | services/dns.py:97 | each issue has its place in the priority order |
| `Dns.FirstPresentAt` | services/dns.py:97-99 | the scan returns the issue of highest priority present among the two |
| `Dns.PickIssueSpec` | services/dns.py:91-100 | there is an issue exactly when either family has one; it is one of them, and none of higher priority is present |
| `Dns.PickIssueSymmetric` | services/dns.py:96 | the order of the two families does not matter |
| `Dns.RankInjective` | services/dns.py:97 | no two issues share a priority |
| `Dns.ResolveWithReason` | services/dns.py:80-89 | both families are looked up; an issue is reported only when neither has an address, and then it is the picked issue |
| `Dns.Resolve` | services/dns.py:67-78 | the A and AAAA addresses of the lookup |
| `Dns.ResolveDnsWithReason` | services/dns.py:142-153 | the primary result stands when it has an address or there is no fallback; otherwise the fallback's when it has one; otherwise no address, with the fallback's issue, else the primary's |
| `Dns.Fallback` | services/dns.py:128-134 | a fallback resolver exists exactly when some configured server normalises to an entry |
| `Dns.AddressMeansNoIssue` | services/dns.py:142-153 | a result with an address carries no issue |
| `Dns.EmptyResultExplained` | services/dns.py:142-153 | when neither resolver finds an address and some primary lookup raised, an issue is reported |
| `Dns.FallbackIssueWins` | services/dns.py:152-153 | when both resolvers fail, the fallback's issue is the one reported |
| `DomainHandlers.CleanDomain` | handlers/domain.py:30-38 | the cleaned text never ends in `/` |
| `DomainHandlers.CleanDomainIsLowercase` | handlers/domain.py:33 | the cleaned text has no upper-case letter |
| `DomainHandlers.CleanDomainStages` | handlers/domain.py:32-38 | the clean-up is lower-casing, then removing `https://`, `http://` and `www.`, then stripping trailing slashes, in that order |
| `DomainHandlers.CleanDomainSeesOnlyLower` | handlers/domain.py:33 | two inputs equal up to case clean to the same domain |
| `DomainHandlers.BareHostCleans` | handlers/domain.py:30-38 | a lower-case host with no scheme, `www.` or slash is kept as it is |
| `DomainHandlers.SecureUrlCleans` | handlers/domain.py:30-38 | `https://www.<host>/` cleans to the host |
| `DomainHandlers.PlainUrlCleans` | handlers/domain.py:30-38 | `http://<host>` cleans to the host |
| `DomainHandlers.WwwHostCleans` | handlers/domain.py:30-38 | `www.<host>` cleans to the host |
| `DomainHandlers.MixedCaseUrlCleans` | handlers/domain.py:30-38 | `https://www.<Name>/` cleans to the lower-cased name |
| `DomainHandlers.ExampleInputCleans` | tests/test_handlers.py:43 | `https://www.Example.COM/` cleans to `example.com` |
| `DomainHandlers.SchemeInputCleans` | tests/test_handlers.py:44 | `HTTP://test.org` cleans to `test.org` |
| `DomainHandlers.WwwInputCleans` | tests/test_handlers.py:45 | `www.site.net` cleans to `site.net` |
| `DomainHandlers.PlainInputCleans` | tests/test_handlers.py:46 | `plain.com` is kept |
| `DomainHandlers.MessageThreadId` | handlers/domain.py:41-46 | the topic is recorded exactly for a message posted in a topic, and is then its thread id |
| `DomainHandlers.BuildFor` | handlers/domain.py:95-104 | the pending build records the user, the domain, the chat and the message's topic |
| `DomainHandlers.OrderedAppend` | handlers/domain.py:61-104 | appending a later stage keeps the stages in the handlers' order |
| `DomainHandlers.IpInfo` | handlers/domain.py:107-111 | one line per address family that has addresses, IPv4 first, each joining its addresses with `, ` |
| `DomainHandlers.KeywordFailure` | handlers/domain.py:142-151 | as intended: the resolver's own error asks the user to clarify; any other error is the generic failure |
| `DomainHandlers.ValueErrorNeverCaught` | handlers/domain.py:149-151 | as written, no exception class of the bot derives from `ValueError`, so the clause catches none of them and a failure reaching it gets the generic reply |
| `DomainHandlers.RefusalAsksToClarify` | handlers/domain.py:142-151 | every refusal of the resolver is a clarification as intended, and a generic failure as written |
| `DomainHandlers.FindCategory` | handlers/domain.py:65-69 | the loop returns the first category whose lower case is the input, and nothing exactly when none matches |
| `DomainHandlers.Publish` | handlers/domain.py:78-104 | resolve both families; no address stops before the file is created; otherwise the file is created and, on success, the build is recorded under the returned sha, and nothing else changes in the ledger |
| `DomainHandlers.AddDomainManual` | handlers/domain.py:49-126 | fewer than two arguments, the usage text and no call; else the categories first; an unknown category (or an empty match) stops there; a published domain is the cleaned argument, in the first matching category, recorded in the ledger |
| `DomainHandlers.Route` | handlers/domain.py:153-185 | after the domain is known: categories, then classification, then the shared tail; the stages run in that order and a build is recorded only when a file was created |
| `DomainHandlers.ClassifyAndPublish` | handlers/domain.py:157-185 | the classification decides the category; an error stops the ladder; otherwise the shared tail runs |
| `DomainHandlers.HandleMessage` | handlers/domain.py:129-207 | a blank message does nothing; a dotless one is first resolved by keyword, and a failure there stops the ladder with the generic error reply, never the clarification, since `except ValueError` does not catch it; a published domain is the resolved one, classified and recorded in the ledger |
| `GitHub.DirNames` | services/github/client.py:52 | never more category names than listing entries |
| `GitHub.DirNamesMembers` | services/github/client.py:52 | a name is a category exactly when some entry of the listing is a directory of that name |
| `GitHub.DirNamesConcat` | services/github/client.py:52 | the comprehension works entry by entry, keeping the listing's order |
| `GitHub.FilesOnly` | services/github/client.py:52 | a listing without directories gives no category |
| `GitHub.ListingExample` | services/github/client.py:52 | two folders and a file list as the two folder names, in order |
| `GitHub.FilePath` | services/github/client.py:75 | the file is `config/<category>/<domain>.json` |
| `GitHub.FilePathInjective` | services/github/client.py:75 | distinct category and domain pairs (a category has no slash) name distinct files |
| `GitHub.SpacedIsAscii` | services/github/client.py:78-79 | the JSON text is ASCII, so encoding it as UTF-8 changes nothing |
| `GitHub.Content` | services/github/client.py:78-79 | the content sent is written in the base 64 alphabet |
| `GitHub.ContentDecodes` | services/github/client.py:78-79 | the content decodes to ASCII bytes that spell the configuration's JSON text |
| `GitHub.ShaOf` | services/github/client.py:95-97 | an existing file's `sha` is always sent, as the found value or as `null` |
| `GitHub.GitHubClient.constructor` | services/github/client.py:19-22 | the token, repository and branch are kept |
| `GitHub.GitHubClient.Headers` | services/github/client.py:23-26 | exactly the bearer authorisation and the v3 accept header |
| `GitHub.GitHubClient.GetCategories` | services/github/client.py:28-53 | a successful listing gives its directory names; a failed one raises "Failed to get categories: …" |
| `GitHub.GitHubClient.CreateFile` | services/github/client.py:55-111 | the body holds the encoded content and the branch; an existing file turns the add into an update carrying its sha; the URL and commit sha come from the reply; a failed PUT raises "Failed to create file: …" |
| `Json.Hex4RoundTrip` | services/github/schemas.py:55 | the four hex digits of a `\u` escape read back as its code |
| `Json.EscapeChar` | services/github/schemas.py:55 | with `ensure_ascii`, each character is written as printable ASCII |
| `Json.Escape` | services/github/schemas.py:55 | an escaped string body is printable ASCII |
| `Json.Quote` | services/github/schemas.py:55 | a string literal is printable ASCII between two quotes |
| `Json.EscapePlain` | services/github/schemas.py:55 | a string of printable ASCII without quote or backslash is written as it is |
| `Json.UnescapeBmp` | services/github/schemas.py:55 | a `\uXXXX` escape of a basic-plane character decodes back to it |
| `Json.UnescapePair` | services/github/schemas.py:55 | the surrogate pair written for a character beyond the basic plane decodes back to it |
| `Json.UnescapeChar` | services/github/schemas.py:55 | every character's escape decodes back to that character, whatever follows |
| `Json.UnescapeEscape` | services/github/schemas.py:55 | decoding an escaped body gives the string back |
| `Json.DecodeQuote` | services/github/schemas.py:55 | every string literal `json.dumps` writes decodes back to the string |
| `Json.Spaces` | services/github/schemas.py:55 | the indentation is that many spaces |
| `Json.DumpIsAscii` | services/github/schemas.py:53-55 | the whole text is printable ASCII apart from its newlines |
| `Json.ArrayShowsFirstItem` | services/github/schemas.py:53-55 | the text of a non-empty array contains the text of its first item |
| `Json.ObjectShowsFirstMember` | services/github/schemas.py:53-55 | the text of a non-empty object contains the text of its first member |
| `Json.MemberShowsKey` | services/github/schemas.py:53-55 | a member's text contains its quoted key |
| `Json.MemberShowsValue` | services/github/schemas.py:53-55 | a member's text contains the text of its value |
| `Json.StringShowsItself` | services/github/schemas.py:53-55 | a plain string appears verbatim in its literal |
| `Schemas.Create` | services/github/schemas.py:33-47 | the domain and its `www.` alias, the given servers and addresses, the 3600 s timeout, and empty CIDR lists and external block |
| `Schemas.StrList` | services/github/schemas.py:49-51 | a list of strings becomes an array of as many items |
| `Schemas.ToDict` | services/github/schemas.py:49-51 | `asdict` gives an object of the eight fields |
| `Schemas.ToJson` | services/github/schemas.py:53-55 | the JSON text is printable ASCII apart from its newlines |
| `Schemas.StringsRoundTrip` | services/github/schemas.py:49-51 | a string list read back from its array is the same list |
| `Schemas.SiteKeysDistinct` | services/github/schemas.py:20-31 | the field names of both dataclasses are distinct |
| `Schemas.ExternalRoundTrip` | services/github/schemas.py:9-17 | the external block read back from its dict is the same block |
| `Schemas.DictRoundTrip` | services/github/schemas.py:49-51 | `asdict` loses nothing: the configuration read back from its dict is the same configuration |
| `Schemas.JsonShowsDomainsKey` | services/github/schemas.py:53-55 | the text contains the `"domains"` key |
| `Schemas.JsonShowsFirstDomain` | services/github/schemas.py:53-55 | the text contains the first domain, when it needs no escape |
| `Schemas.JsonMentionsDomain` | services/github/schemas.py:33-55 | the file created for a domain shows the `"domains"` key and the domain |
| `Base64.Char64Value` | services/github/client.py:79 | each 6-bit value's character reads back as that value |
| `Base64.Group3` | services/github/client.py:79 | three bytes become four characters of the alphabet |
| `Base64.Group2` | services/github/client.py:79 | two final bytes become three characters and one `=` |
| `Base64.Group1` | services/github/client.py:79 | one final byte becomes two characters and two `=` |
| `Base64.Encode` | services/github/client.py:79 | the encoding is four characters per started group of three bytes, all in the alphabet |
| `Base64.GroupOfThree` | services/github/client.py:79 | a full group decodes back to its three bytes |
| `Base64.GroupOfTwo` | services/github/client.py:79 | a final group with one `=` decodes back to its two bytes |
| `Base64.GroupOfOne` | services/github/client.py:79 | a final group with two `=` decodes back to its byte |
| `Base64.DecodeEncode` | services/github/client.py:79 | decoding the encoding of any bytes gives the bytes back |
| `Base64.AsciiBytes` | services/github/client.py:79 | the UTF-8 bytes of an ASCII text are its character codes |
| `Base64.AsciiRoundTrip` | services/github/client.py:79 | the ASCII text of those bytes is the text again |
| `Base64.ContentRoundTrip` | services/github/client.py:78-79 | the content of an ASCII JSON text decodes to bytes that spell the text |
| `WebSearch.Quoted` | services/search.py:32 | the query is sent between double quotes, unchanged inside them |
| `WebSearch.Formatted` | services/search.py:37-41 | one `Title:`/`Snippet:` block per hit, in order |
| `WebSearch.Search` | services/search.py:19-46 | the loop computes the reference output of the quoted query's hits, its empty result or its error |
| `WebSearch.SearchForms` | services/search.py:30-46 | an error gives `Error performing search: …`; no hits gives the no-results text; hits give text starting with `Title: ` |
| `WebSearch.SearchShowsEveryHit` | services/search.py:37-43 | every hit's block appears in the output |
| `WebSearch.NoHitsIsMarker` | services/search.py:34-35 | no hits gives the text the classifier recognises as no results |
| `WebSearch.LineEnd` | services/search.py:77 | the first line ends at the first line break |
| `WebSearch.SplitLines` | services/search.py:77 | `splitlines()` gives lines without line breaks |
| `WebSearch.NonEmptyStripped` | services/search.py:78-79 | only non-empty phrases are kept, each stripped |
| `WebSearch.Pieces` | services/search.py:78 | the pieces of a line split on double spaces are non-empty and stripped |
| `WebSearch.Chunks` | services/search.py:77-79 | every chunk kept is non-empty and stripped |
| `WebSearch.ChunksNoBreak` | services/search.py:77-79 | no chunk contains a line break |
| `WebSearch.Head` | services/search.py:81 | `text[:max_chars]` is a prefix of the text, of exactly that length when the text is longer |
| `WebSearch.FetchPage` | services/search.py:48-85 | the result is at most `max_chars` long, empty when the GET fails, and otherwise a prefix of the cleaned text, the whole of it when it fits |
| `WebSearch.CleanupLines` | services/search.py:77-79 | the cleaned text is empty exactly when there is no chunk, and otherwise splits on newlines back into the chunks |
| `WebSearch.JoinLines` | services/search.py:79 | chunks joined with newlines split back into the same chunks |
| `WebSearch.NoEmptyLine` | services/search.py:77-79 | every line of the cleaned text is non-empty and stripped |
| `Resolver.Clean` | services/ai/resolver.py:34-45 | the cleaned answer never ends in `/` |
| `Resolver.CleanIsLowercase` | services/ai/resolver.py:34 | the cleaned answer has no upper-case letter |
| `Resolver.CleanStages` | services/ai/resolver.py:34-45 | lower-casing, then removing `http://`, `https://` and `www.`, then stripping trailing slashes, in that order |
| `Resolver.CleanSeesOnlyLower` | services/ai/resolver.py:34 | two answers equal up to case clean to the same domain |
| `Resolver.CleanKeepsCleanAnswer` | services/ai/resolver.py:40-45 | an answer that is already a bare lower-case domain is kept |
| `Resolver.CleanUrl` | services/ai/resolver.py:40-45 | `https://www.<host>/` cleans to the host |
| `Resolver.Resolution` | services/ai/resolver.py:32-51 | an accepted domain is the cleaned answer of a successful call, at most 100 characters, without a space or `unknown`; any failure is a `DomainResolutionError`; a successful call is refused exactly when the guard rejects its cleaned answer |
| `Resolver.ResolveDomainFromKeyword` | services/ai/resolver.py:12-51 | one `generate` call with `max_tokens=30` on the keyword's prompt, then the clean-up and the guard; the client's key cursor ends one step further per POST that call made, and does not move when no key is configured |
| `Resolver.ResolvedIsLowercase` | services/ai/resolver.py:34-51 | a resolved domain has no upper-case letter |
| `Resolver.AiFailureIsWrapped` | services/ai/resolver.py:35-37 | a failed call becomes `DomainResolutionError("Ошибка AI: …")` |
| `Resolver.BareDomainResolves` | services/ai/resolver.py:39-51 | a short bare lower-case domain is accepted as it is |
| `Resolver.SpotifyResolves` | tests/test_services/test_gemini.py:152-161 | the answer `spotify.com` resolves to `spotify.com` |
| `Resolver.ExampleUrlCleans` | tests/test_services/test_gemini.py:176-185 | the answer `https://www.example.com/` resolves to `example.com` |
| `Resolver.UnknownCleans` | services/ai/resolver.py:34-45 | the answer `UNKNOWN` cleans to `unknown` |
| `Resolver.UnknownIsRefused` | tests/test_services/test_gemini.py:164-173 | the answer `UNKNOWN` is refused with a `DomainResolutionError` |
| `Lk.Or` | handlers/lk.py:71 | a present non-empty value is kept; a missing or empty one gives the default |
| `Lk.SliceTo` | handlers/lk.py:61 | a prefix of the text, of length `k` clamped to the text's length |
| `Lk.Truncate` | handlers/lk.py:58-61 | a text within the limit is kept; a longer one becomes a prefix of it, with trailing spaces stripped, followed by `...`, and fits the limit |
| `Lk.PeriodLabel` | handlers/lk.py:64-71 | a known period gets its Russian name, an unknown non-empty one is shown as it is, a missing or empty one as `—` (`period or "—"`); never empty |
| `Lk.StatusLabel` | handlers/lk.py:183-190 | a known status, looked up in lower case, gets its Russian name; otherwise the raw value or `—`; never empty |
| `Lk.StatusLabelIgnoresCase` | handlers/lk.py:190 | statuses equal up to case get the same label |
| `Lk.MoreLine` | handlers/lk.py:159-160 | the `…и еще` line appears exactly when there are more than 8 items |
| `Lk.Window` | handlers/lk.py:152 | the first `min(n, size)` items |
| `Lk.CappedShape` | handlers/lk.py:151-161 | a header, then one rendered line for each of the first 8 items in order, then `…и еще <rest>` when there are more |
| `Lk.BuildSubscriptionsText` | handlers/lk.py:146-161 | the loop joins exactly the header, the rendered first 8 subscriptions and the overflow line, or gives `Подписок нет.` |
| `Lk.ActiveLoans` | handlers/lk.py:167 | no paused loan is kept |
| `Lk.ActiveLoansMembers` | handlers/lk.py:167 | a loan is active exactly when it is one of the loans and is not paused |
| `Lk.ActiveLoansConcat` | handlers/lk.py:167 | filtering distributes over concatenation, keeping order |
| `Lk.BuildLoansText` | handlers/lk.py:164-180 | the loop joins the header and the lines of the first 8 active loans and the overflow line, or gives `Займов нет.` |
| `Lk.PausedLoanHidden` | handlers/lk.py:166-167 | inserting a paused loan anywhere does not change the loans text |
| `Lk.HistoryRows` | handlers/lk.py:251-259 | no row off the history section or without a page; otherwise one row exactly when there is a previous or a next page, holding the arrow to page - 1 (first) exactly when there is a previous page and the arrow to page + 1 exactly when there is a next one, the page defaulting to 1 |
| `Lk.PaidRows` | handlers/lk.py:263-269 | at most one button row per pending payment |
| `Lk.PaymentRows` | handlers/lk.py:261-269 | at most 5 `Оплатил` rows |
| `Lk.NavKeyboard` | handlers/lk.py:233-271 | the loop builds exactly the base rows, then the history arrows, then one `lk:paid:<id>` row for each of the first 5 pending payments that has an id |
| `Lk.PaidRowsSnoc` | handlers/lk.py:263-269 | one more payment adds its row exactly when it has an id |
| `Lk.PaidRowsFor` | handlers/lk.py:263-269 | there is an `Оплатил #id` row exactly when a payment with that id is listed |
| `Lk.PaidRowsCarryIds` | handlers/lk.py:264-268 | every `Оплатил` row is the row of some listed payment's id |
| `Lk.PaidDataInjective` | handlers/lk.py:268 | different payment ids give different callback data |
| `Lk.RouteLk` | handlers/lk.py:429-446 | a payment request exactly for `lk:paid:` data; a section shown is never empty |
| `Lk.AfterLkTag` | handlers/lk.py:445 | for `lk:` data, the part after the first colon is everything after `lk:` |
| `Lk.SectionDataRoutes` | handlers/lk.py:444-446 | `lk:<name>` opens section `name`, `lk:` alone the summary |
| `Lk.ThreeParts` | handlers/lk.py:434 | joining three parts by `:` |
| `Lk.PrefixWords` | handlers/lk.py:268 | the history and payment prefixes are `lk`, a word and colons, none of the words holding a colon |
| `Lk.SplitThree` | handlers/lk.py:434-438 | three colon-free parts joined by `:` split back into the same three |
| `Lk.HistoryDataRoutes` | handlers/lk.py:255-257 | the data of a history arrow for page `p` opens history page `p` |
| `Lk.PaidDataRoutes` | handlers/lk.py:268 | the data of a payment button routes to the payment request and parses back to its id |
| `Lk.LettersHaveNoColon` | handlers/lk.py:445 | a word of lower-case letters has no colon |
| `Lk.PaymentsButtonRoutes` | handlers/lk.py:242 | the payments button opens the payments section |
| `Lk.SubscriptionsButtonRoutes` | handlers/lk.py:246 | the subscriptions button opens the subscriptions section |
| `Lk.LoansButtonRoutes` | handlers/lk.py:247 | the loans button opens the loans section |
| `Lk.FirstHistoryIsPageOne` | handlers/lk.py:243 | the history button's data is that of page 1 |
| `Lk.FirstHistoryButtonRoutes` | handlers/lk.py:243 | the history button opens history page 1 |
| `Lk.TextFor` | handlers/lk.py:274-290 | the history text exactly for the history section with a history reply |
| `Lk.SectionView` | handlers/lk.py:385-417 | the apology exactly when the payload fetch fails with a collector error; an escaped error otherwise; else the section's text with the navigation keyboard, a failed history page giving an empty page and the base rows only |
| `Lk.ShowView` | handlers/lk.py:393-417 | once the payload is in, the view is `Lk.SectionView` of it and of the page reply |
| `Lk.PaidOutcome` | handlers/lk.py:449-486 | a malformed id is refused with no fetch; a first collector error answers "service down" after one fetch; a request is sent exactly when the id is pending in the first payload or else in the refreshed one, the refresh happening exactly when the first payload lacks it; otherwise "not found" |
| `Lk.UserData.constructor` | handlers/lk.py:306-335 | empty user data: no payload, no time stamp, no transactions, no section, no page |
| `Lk.UserData.CachedPayload` | handlers/lk.py:306-313 | the stored payload exactly when it is a non-empty dict, its time stamp is set and non-zero, and it is at most 60 seconds old |
| `Lk.UserData.StorePayload` | handlers/lk.py:316-318 | the payload and time stamp are replaced, nothing else changes, and a non-empty payload is cached at once |
| `Lk.UserData.CachedTransactions` | handlers/lk.py:321-329 | the page's stored reply exactly when that page is stored and at most 60 seconds old |
| `Lk.UserData.StoreTransactions` | handlers/lk.py:332-335 | only that page's entry changes; the page is cached at once and no other page's cache changes |
| `Lk.UserData.PayloadFetch` | handlers/lk.py:360-370 | a cached payload is used unless a refresh is forced; otherwise the collector's reply |
| `Lk.UserData.PayloadAfter` | handlers/lk.py:366-370 | the payload and its time are replaced by the reply, stamped now, exactly when the collector was asked and answered |
| `Lk.UserData.PageFetch` | handlers/lk.py:345-357 | a cached non-empty page is used unless a refresh is forced; otherwise the collector's reply |
| `Lk.UserData.TransactionsAfter` | handlers/lk.py:350-357 | the page's entry is replaced exactly when the collector was asked and answered; every other page is kept |
| `Lk.UserData.FetchPayload` | handlers/lk.py:360-373 | returns the cached payload unless a refresh is forced, otherwise the collector's reply; the payload and its time change only when a reply was asked for and came back, and nothing else changes |
| `Lk.UserData.FetchTransactions` | handlers/lk.py:338-357 | returns a cached non-empty page unless a refresh is forced, otherwise the collector's reply; only a page asked for and received is stored, and nothing else changes |
| `Lk.UserData.Start` | handlers/lk.py:376-417 | the view is the section view of the payload fetch and, on the history section, the page fetch; the payload cache changes as the fetch does; the transactions cache changes only on the history section after a payload; a shown view records its section, and the page on history |
| `Lk.UserData.PaidAfter` | handlers/lk.py:458-478 | a malformed id leaves the payload alone; a refresh that answers replaces the payload, stamped now |
| `Lk.UserData.RequestPayment` | handlers/lk.py:449-486 | the answer and the number of fetches are the payment outcome of the id, the first fetch and the refresh reply; the payload cache changes as those fetches do; a sent request is for an id pending in the stored payload |
| `Lk.UserData.HandleCallback` | handlers/lk.py:420-446 | nothing happens without a query or route; otherwise the data is routed, and a payment request gives the payment outcome and a section or history page gives the section view, each with the caches as the fetches leave them; a shown section is recorded |
| `Menu.HelpIsNotMenu` | handlers/menu.py:31-47 | the help text and the menu text differ |
| `Menu.ShowMainMenu` | handlers/menu.py:50-61 | the help text exactly for the `help` view, the menu text otherwise, always the main keyboard |
| `Menu.MenuDispatch` | handlers/menu.py:72-94 | `menu:help` shows help, `menu:domain` the domain prompt, a `menu:` section of the dashboard opens it (`lk` opening the summary) and exactly those do; everything else shows the default menu |
| `Menu.AfterMenuTag` | handlers/menu.py:86 | the part after the first colon of `menu:` data is everything after `menu:` |
| `Menu.HandleMenuCallback` | handlers/menu.py:64-70 | nothing without a query; otherwise the dispatch of its data, `""` when it has none |
| `Menu.SectionsAreNotCommands` | handlers/menu.py:72-87 | `help`, `domain` and `main` are not dashboard sections |
| `Menu.SectionButtonOpens` | handlers/menu.py:85-92 | `menu:<section>` opens that section of the dashboard |
| `Menu.KeyboardCommands` | handlers/menu.py:11-28 | every button of the main menu carries `menu:` and a section or command |
| `Menu.MenuButtonsDispatch` | handlers/menu.py:11-92 | no button of the main menu falls through to the default menu |
| `Menu.HomeButtonShowsMenu` | handlers/lk.py:240 | the dashboard's home button gives the default menu |
| `Menu.OpenedSectionsHaveTheirText` | handlers/lk.py:274-290 | every section but `lk` that the menu opens has its own text in the dashboard |
| `Exceptions.Hierarchy` | core/exceptions.py:6-43 | `except BotError` catches exactly the bot's own errors, `except APIError` exactly the Gemini, GitHub and collector errors, and every API error is a bot error |

## Left out

- The legacy flat-layout files (bot.py, config.py, handlers/telegram.py, handlers/webhook.py, services/gemini.py, services/github.py) are not part of this model: the running app imports only the `bot.*` modules.
- services/collector.py (except the configuration check of its constructor, modelled as `AdminPayment.ApiClient`), services/scanner.py, handlers/admin_reminder.py, handlers/ui.py, app.py, webhooks/server.py, core/logging.py and the package `__init__` files are not part of this model: HTTP plumbing, a headless browser, timers, Telegram edit/send plumbing and start-up wiring. `send_or_edit_primary` is therefore not modelled; a view is returned as its text and keyboard.
- Network and library calls (httpx, aiohttp, DuckDuckGo, dnspython, the collector API) are parameters standing for their outcomes; their timeouts, the DNS resolver's `timeout`/`lifetime` settings and `asyncio` scheduling are not modelled.
- The `send_message` calls of the webhook notices, of `_notify_user` and of the log, debug and payment posts are returned as records of what is sent; the source catches and logs their failures, so a failed send changes nothing else the model states.
- The other Telegram Bot API calls, `query.answer`, `query.edit_message_text`, `reply_text` and the status message's `edit_text`, are assumed to succeed. In the source a failure of any of them raises from the handler at that point: in handlers/domain.py the `except Exception` then replies with the generic error, and in handlers/admin_payment.py a failed edit at line 56 escapes before the user is notified and before `query.answer("Готово")`.
- AdminPayment.Finish: states that the user is told and the query answered on the assumption above that the admin message's edit succeeds.
- AdminPayment.SuccessNotifiesUser: states that the user is told and the query answered on the same assumption.
- JSON `null`, booleans and floats are not among the modelled JSON values, so a `meta` of one of them (which Python reports as `'NoneType'`, `'bool'` or `'float'` object) is not modelled.
- HMAC-SHA256 is an uninterpreted parameter and `hmac.compare_digest` is string equality; SHA-256 itself is not modelled.
- Concurrency: the webhook and the domain handlers interleave at `await` points in the source; the model runs each ledger operation to completion, so "the ledger is empty after a success notification" holds only sequentially.
- BeautifulSoup parsing: `fetch_page` is given the page already reduced to its text.
- JSON decoding of replies (`response.json()`) is not modelled: each reply is given as the values the code reads from it; a reply that would raise `KeyError` or a decode error is an `OtherError`.
- Floating point: `_format_amount` and `_format_date` (handlers/lk.py:38-55) and the amount in the payment request are not modelled; amounts and dates reach the model already formatted as strings.
- The dashboard's summary, balance, history and payments texts (handlers/lk.py:74-143, 193-230) are not rendered: `Lk.TextFor` says which of them is chosen. The payload keeps only what the keyboard and the payment request read (the ids of the pending payments); a non-integer id is read as `None`, and a `payments` value that is not a dict as no pending payment.
- The clock is an integer parameter; `time.time()` returns a float in the source.
- The Russian and emoji wording of the posts in handlers/common.py is not modelled: a post is the record of the values it shows and of its buttons. The texts of webhooks/github.py are taken from the source after undoing its mis-encoding.
- `lower()` and `upper()` act on ASCII letters only; Unicode case mapping, normalisation and encodings other than ASCII-compatible UTF-8 are not modelled.
- `int()` accepts only the ASCII digits `0`-`9` (PyStr.IsDigit); Python also accepts other Unicode decimal digits such as `٤٢`.
- The message of an httpx `HTTPStatusError` is abstracted to `HTTP status <code>` (GitHub.FailureText, AiClient.StatusError); httpx's text, "Client error '404 Not Found' for url '…'" and the like, also names the reason phrase and the URL. Only the wording of `GitHubAPIError("Failed to create file: …")` and of the error `generate` raises last depends on it.
- The environment and `.env` loading of `Settings`, and the unused `log_topic_id`, are not modelled: the constructor is given the raw values.
- Logging, and the second `query.answer` call of the payment request (handlers/lk.py:485-486), are not modelled beyond the answer's text.
- `handle_domain_callback`, registered in handlers/__init__.py, is not defined in handlers/domain.py, so it is not modelled.
- Schemas.JsonShowsFirstDomain: proved only for a first domain whose characters need no JSON escape.
- Base64.ContentRoundTrip: proved for ASCII text, which is all `json.dumps` produces with `ensure_ascii=True`.

## Findings

| source | as written | input that shows it | evidently intended | confidence | as-written member | corrected member |
|---|---|---|---|---|---|---|
| handlers/domain.py:149 | `except ValueError` around `resolve_domain_from_keyword`, whose failures are all `DomainResolutionError`, a `BotError` and not a `ValueError`, so the clause never fires and the user gets the generic error reply | any keyword the resolver refuses, e.g. a message `spotify` whose Gemini answer is `UNKNOWN` | catch `DomainResolutionError` and ask the user to name the domain | not executed | `DomainHandlers.ValueErrorNeverCaught` | `DomainHandlers.RefusalAsksToClarify` |
