/**
 * Adding a domain (handlers/domain.py): the `/add <domain> <category>`
 * command and the plain-text message handler. Each stage the handlers call
 * (keyword resolution, the category listing, classification, DNS, the file
 * creation) is a parameter giving that stage's result; the handlers fix the
 * order of the stages, where the ladder stops, and when a pending build is
 * recorded.
 */
module DomainHandlers {
  import opened Wrappers
  import opened PyStr
  import opened Exceptions
  import opened Pending
  import Builds
  import Dns
  import Schemas
  import Classifier
  import Resolver

  // ------------------------------------------------------------ _clean_domain

  /** `_clean_domain`: lowercase, drop every `https://`, then `http://`, then `www.`, then trailing slashes. */
  function CleanDomain(text: string): (d: string)
    ensures d == [] || d[|d| - 1] != '/'
  {
    var a := Lower(text);
    var b := Replace(a, "https://", "");
    var c := Replace(b, "http://", "");
    var e := Replace(c, "www.", "");
    RStripChar(e, '/')
  }

  /** No uppercase letter survives the clean-up. */
  lemma CleanDomainIsLowercase(text: string)
    ensures NoUpper(CleanDomain(text))
  {
    var a := Lower(text);
    var b := Replace(a, "https://", "");
    var c := Replace(b, "http://", "");
    var e := Replace(c, "www.", "");
    LowerIdempotent(text);
    ReplaceEmptyKeeps(a, "https://", c => !IsUpperAscii(c));
    ReplaceEmptyKeeps(b, "http://", c => !IsUpperAscii(c));
    ReplaceEmptyKeeps(c, "www.", c => !IsUpperAscii(c));
  }

  /** The clean-up, one stage at a time. */
  lemma CleanDomainStages(text: string, a: string, b: string, c: string, e: string, d: string)
    requires Lower(text) == a && Replace(a, "https://", "") == b && Replace(b, "http://", "") == c
    requires Replace(c, "www.", "") == e && RStripChar(e, '/') == d
    ensures CleanDomain(text) == d
  {
  }

  /** Two inputs with the same `lower()` clean alike. */
  lemma CleanDomainSeesOnlyLower(x: string, y: string)
    requires Lower(x) == Lower(y)
    ensures CleanDomain(x) == CleanDomain(y)
  {
  }

  /** A bare lowercase host without `h` or `w`, not ending in `/`, is its own clean form. */
  lemma BareHostCleans(host: string)
    requires Resolver.PlainHost(host)
    ensures CleanDomain(host) == host
  {
    NotContained(host, "https://", 0);
    NotContained(host, "http://", 0);
    NotContained(host, "www.", 0);
    Resolver.CleanKeepsCleanAnswer(host);
    Resolver.LowerOfLower(host);
    ReplaceAbsent(host, "https://", "");
    ReplaceAbsent(host, "http://", "");
    ReplaceAbsent(host, "www.", "");
    CleanDomainStages(host, host, host, host, host, host);
  }

  /** `https://www.<host>/` is cleaned to `<host>`. */
  lemma SecureUrlCleans(host: string)
    requires Resolver.PlainHost(host)
    ensures CleanDomain("https://" + ("www." + (host + "/"))) == host
  {
    var a := "https://" + ("www." + (host + "/"));
    Resolver.UrlIsLowercase(host);
    Resolver.UrlLosesHttps(host);
    Resolver.NotInConcat('h', host, "/");
    Resolver.NotInConcat('h', "www.", host + "/");
    NotContained("www." + (host + "/"), "http://", 0);
    ReplaceAbsent("www." + (host + "/"), "http://", "");
    Resolver.UrlLosesWww(host);
    Resolver.UrlLosesSlash(host);
    CleanDomainStages(a, a, "www." + (host + "/"), "www." + (host + "/"), host + "/", host);
  }

  /** `http://<host>` is cleaned to `<host>`. */
  lemma PlainUrlCleans(host: string)
    requires Resolver.PlainHost(host)
    ensures CleanDomain("http://" + host) == host
  {
    var a := "http://" + host;
    assert Lower(a) == a by {
      forall i | 7 <= i < |a| ensures a[i] == host[i - 7] { }
    }
    assert a[..8][4] != "https://"[4];
    assert a[1..] == "ttp://" + host;
    Resolver.NotInConcat('h', "ttp://", host);
    NotContained(a[1..], "https://", 0);
    ReplaceAbsent(a, "https://", "");
    NotContained(host, "http://", 0);
    Resolver.ReplaceAtFront("http://", host);
    NotContained(host, "www.", 0);
    ReplaceAbsent(host, "www.", "");
    StripTrailing(host);
    CleanDomainStages(a, a, a, host, host, host);
  }

  /** `www.<host>` is cleaned to `<host>`. */
  lemma WwwHostCleans(host: string)
    requires Resolver.PlainHost(host)
    ensures CleanDomain("www." + host) == host
  {
    var a := "www." + host;
    assert Lower(a) == a by {
      forall i | 4 <= i < |a| ensures a[i] == host[i - 4] { }
    }
    Resolver.NotInConcat('h', "www.", host);
    NotContained(a, "https://", 0);
    NotContained(a, "http://", 0);
    ReplaceAbsent(a, "https://", "");
    ReplaceAbsent(a, "http://", "");
    NotContained(host, "www.", 0);
    Resolver.ReplaceAtFront("www.", host);
    StripTrailing(host);
    CleanDomainStages(a, a, a, a, host, host);
  }

  lemma StripTrailing(host: string)
    requires host != [] && host[|host| - 1] != '/'
    ensures RStripChar(host, '/') == host
  {
  }

  const ExampleName := "Example.COM"
  const ExampleHost := "example.com"
  /** "https://www.Example.COM/". */
  const ExampleInput := "https://" + ("www." + (ExampleName + "/"))
  const TestHost := "test.org"
  const SiteHost := "site.net"
  const PlainHostName := "plain.com"

  /** An upper-case host in a lower-case URL: only the host changes under `lower()`. */
  lemma SecureUrlLowers(name: string, host: string)
    requires Lower(name) == host
    ensures Lower("https://" + ("www." + (name + "/"))) == "https://" + ("www." + (host + "/"))
  {
    var u, v := "https://" + ("www." + (name + "/")), "https://" + ("www." + (host + "/"));
    assert forall i :: 12 <= i < 12 + |name| ==> u[i] == name[i - 12] && v[i] == host[i - 12];
  }

  /** `https://www.<Name>/` is cleaned to the lower-case host. */
  lemma MixedCaseUrlCleans(name: string, host: string)
    requires Lower(name) == host && Resolver.PlainHost(host)
    ensures CleanDomain("https://" + ("www." + (name + "/"))) == host
  {
    var lowered := "https://" + ("www." + (host + "/"));
    SecureUrlLowers(name, host);
    SecureUrlCleans(host);
    LowerIdempotent(lowered);
    CleanDomainSeesOnlyLower("https://" + ("www." + (name + "/")), lowered);
  }

  lemma ExampleHostIsPlain()
    ensures Lower(ExampleName) == ExampleHost && Resolver.PlainHost(ExampleHost)
  {
    Resolver.Lowercase(ExampleHost);
    assert 'h' !in ExampleHost && 'w' !in ExampleHost;
  }

  /** "https://www.Example.COM/" is cleaned to "example.com". */
  lemma ExampleInputCleans()
    ensures CleanDomain(ExampleInput) == ExampleHost
  {
    ExampleHostIsPlain();
    MixedCaseUrlCleans(ExampleName, ExampleHost);
  }

  /** "HTTP://test.org" is cleaned to "test.org". */
  lemma SchemeInputCleans()
    ensures CleanDomain("HTTP://" + TestHost) == TestHost
  {
    Resolver.Lowercase(TestHost);
    assert 'h' !in TestHost && 'w' !in TestHost;
    PlainUrlCleans(TestHost);
    UpperSchemeLowers(TestHost);
    CleanDomainSeesOnlyLower("HTTP://" + TestHost, "http://" + TestHost);
  }

  lemma UpperSchemeLowers(host: string)
    requires NoUpper(host)
    ensures Lower("HTTP://" + host) == Lower("http://" + host)
  {
  }

  /** "www.site.net" is cleaned to "site.net". */
  lemma WwwInputCleans()
    ensures CleanDomain("www." + SiteHost) == SiteHost
  {
    Resolver.Lowercase(SiteHost);
    assert 'h' !in SiteHost && 'w' !in SiteHost;
    WwwHostCleans(SiteHost);
  }

  /** "plain.com" is its own clean form. */
  lemma PlainInputCleans()
    ensures CleanDomain(PlainHostName) == PlainHostName
  {
    Resolver.Lowercase(PlainHostName);
    assert 'h' !in PlainHostName && 'w' !in PlainHostName;
    BareHostCleans(PlainHostName);
  }

  // --------------------------------------------------- _get_message_thread_id

  /** `update.effective_message`, as far as the handlers look at it. */
  datatype Message = Message(isTopicMessage: bool, messageThreadId: Option<int>)

  /** `_get_message_thread_id`: the thread only of a topic message. */
  function MessageThreadId(msg: Option<Message>): (t: Option<int>)
    ensures t.Some? ==> msg.Some? && msg.value.isTopicMessage && t == msg.value.messageThreadId
    ensures msg.Some? && msg.value.isTopicMessage ==> t == msg.value.messageThreadId
  {
    if msg.Some? && msg.value.isTopicMessage then msg.value.messageThreadId else None
  }

  /** Who asked: the user and chat of the update, the bot, and the message. */
  datatype Sender = Sender(userId: int, chatId: int, bot: BotHandle, message: Option<Message>)

  /** The pending build recorded for a published domain. */
  function BuildFor(sender: Sender, domain: string): (b: PendingBuild)
    ensures b.domain == domain && b.userId == sender.userId && b.chatId == sender.chatId
    ensures b.messageThreadId == MessageThreadId(sender.message)
  {
    PendingBuild(sender.userId, domain, sender.chatId, sender.bot, MessageThreadId(sender.message))
  }

  // ------------------------------------------------------------------ stages

  /** The stage outcomes, as functions of what the handler passes them. */
  type KeywordStage = string -> Result<string, Error>
  type ClassifyStage = (string, seq<string>) -> Result<string, Error>
  type CreateStage = (string, string, Schemas.SiteConfig) -> Result<(string, string), Error>

  /** The stages a run called, in order. */
  datatype Call =
    | ResolveCall(keyword: string)
    | CategoriesCall
    | ClassifyCall(domain: string, categories: seq<string>)
    | DnsCall(domain: string)
    | CreateCall(category: string, domain: string, config: Schemas.SiteConfig)
  {
    function Rank(): nat {
      match this
      case ResolveCall(_) => 0
      case CategoriesCall => 1
      case ClassifyCall(_, _) => 2
      case DnsCall(_) => 3
      case CreateCall(_, _, _) => 4
    }
  }

  /** Each stage is called at most once, and in the handlers' order. */
  predicate Ordered(calls: seq<Call>) {
    forall i, j :: 0 <= i < j < |calls| ==> calls[i].Rank() < calls[j].Rank()
  }

  predicate Publishes(calls: seq<Call>) {
    exists i :: 0 <= i < |calls| && calls[i].CreateCall?
  }

  lemma OrderedAppend(calls: seq<Call>, c: Call)
    requires Ordered(calls) && (calls == [] || calls[|calls| - 1].Rank() < c.Rank())
    ensures Ordered(calls + [c])
  {
    if calls != [] {
      assert forall i :: 0 <= i < |calls| ==> calls[i].Rank() <= calls[|calls| - 1].Rank() by {
        forall i | 0 <= i < |calls| ensures calls[i].Rank() <= calls[|calls| - 1].Rank() {
          if i < |calls| - 1 {
            assert calls[i].Rank() < calls[|calls| - 1].Rank();
          }
        }
      }
    }
  }

  /** How a run ends (the last edit of the status message, or the one reply). */
  datatype Outcome =
    | Silent                                            // blank text: nothing is sent
    | Usage                                             // fewer than two arguments
    | Clarify(reason: string)                           // "❓ {e}\nУточни домен."
    | UnknownCategory(input: string, available: seq<string>)
    | NoAddress(domain: string)
    | Published(domain: string, category: string, ip4: seq<string>, ip6: seq<string>,
                htmlUrl: string, commitSha: string)
    | Failed(error: Error)                              // "❌ Ошибка: {e}"

  /** The address lines of the success message: one per non-empty family. */
  function IpInfo(ip4: seq<string>, ip6: seq<string>): (lines: seq<string>)
    ensures |lines| == (if ip4 != [] then 1 else 0) + (if ip6 != [] then 1 else 0)
    ensures ip4 != [] ==> lines[0] == "IPv4: " + Join(", ", ip4)
    ensures ip6 != [] ==> lines[|lines| - 1] == "IPv6: " + Join(", ", ip6)
  {
    (if ip4 != [] then ["IPv4: " + Join(", ", ip4)] else [])
    + (if ip6 != [] then ["IPv6: " + Join(", ", ip6)] else [])
  }

  // -------------------------------------------------------- the keyword stage

  /** Python's `except C:` clause: it catches exactly the instances of `C`. */
  predicate Catches(clause: string, e: Error) {
    clause in e.Lineage()
  }

  /**
   * A failed keyword resolution as the code handles it: `except ValueError`
   * shows the clarification, anything else reaches the outer
   * `except Exception`.
   */
  function KeywordFailureAsWritten(e: Error): Outcome {
    if Catches("ValueError", e) then Clarify(e.Text()) else Failed(e)
  }

  /** A failed keyword resolution as intended: the resolver's own error asks the user to clarify. */
  function KeywordFailure(e: Error): (o: Outcome)
    ensures e.DomainResolutionError? ==> o == Clarify(e.message)
    ensures !e.DomainResolutionError? ==> o == Failed(e)
  {
    if Catches("DomainResolutionError", e) then Clarify(e.Text()) else Failed(e)
  }

  /**
   * No exception class of the model derives from `ValueError`, so the
   * clarification is never shown as written. This follows from the classes
   * alone (core/exceptions.py); that the resolver raises only
   * `DomainResolutionError` is stated by `RefusalAsksToClarify`.
   */
  lemma ValueErrorNeverCaught(e: Error)
    ensures KeywordFailureAsWritten(e) == Failed(e)
  {
    var classes := e.Lineage();
    assert forall i :: 0 <= i < |classes| ==> classes[i] != "ValueError" by {
      forall i | 0 <= i < |classes| ensures classes[i] != "ValueError" {
        assert classes[i][0] != 'V';
      }
    }
  }

  /** Every failure of `resolve_domain_from_keyword` is a DomainResolutionError: as intended, it asks to clarify. */
  lemma RefusalAsksToClarify(answer: Result<string, Error>, keyword: string)
    requires Resolver.Resolution(answer, keyword).Err?
    ensures KeywordFailure(Resolver.Resolution(answer, keyword).error).Clarify?
    ensures KeywordFailureAsWritten(Resolver.Resolution(answer, keyword).error).Failed?
  {
    ValueErrorNeverCaught(Resolver.Resolution(answer, keyword).error);
  }

  // ------------------------------------------------------------ the handlers

  /** The manual lookup loop: the first category whose `lower()` is the input. */
  method FindCategory(categories: seq<string>, input: string) returns (found: Option<string>)
    ensures found == Classifier.FirstMatch(categories, input)
    ensures found.Some? ==> exists i :: 0 <= i < |categories| && categories[i] == found.value
                                         && Lower(categories[i]) == input
                                         && forall j :: 0 <= j < i ==> Lower(categories[j]) != input
    ensures found.None? <==> forall i :: 0 <= i < |categories| ==> Lower(categories[i]) != input
  {
    var k := 0;
    while k < |categories|
      invariant 0 <= k <= |categories|
      invariant forall j :: 0 <= j < k ==> Lower(categories[j]) != input
      invariant Classifier.FirstMatch(categories, input) == Classifier.FirstMatch(categories[k..], input)
    {
      assert categories[k..][1..] == categories[k + 1..];
      if Lower(categories[k]) == input {
        return Some(categories[k]);
      }
      k := k + 1;
    }
    found := None;
  }

  /**
   * The tail both handlers share: resolve both address families, give up
   * when there is none, else create the file and record the pending build
   * under the returned commit sha.
   */
  method Publish(category: string, domain: string, lookup: Dns.Lookup, create: CreateStage,
                 dnsServers: seq<string>, sender: Sender, store: Builds.BuildsStore, before: seq<Call>)
    returns (outcome: Outcome, calls: seq<Call>)
    requires store.Valid() && Ordered(before) && (before == [] || before[|before| - 1].Rank() < 3)
    modifies store
    ensures store.Valid() && Ordered(calls)
    ensures var ips := Dns.Resolve(lookup, domain);
      var config := Schemas.Create(domain, dnsServers, ips.0, ips.1);
      if ips.0 == [] && ips.1 == [] then
        outcome == NoAddress(domain) && calls == before + [DnsCall(domain)]
      else
        && calls == before + [DnsCall(domain), CreateCall(category, domain, config)]
        && outcome == match create(category, domain, config)
                      case Ok(written) => Published(domain, category, ips.0, ips.1, written.0, written.1)
                      case Err(e) => Failed(e)
    ensures store.builds == if outcome.Published? then old(store.builds)[outcome.commitSha := BuildFor(sender, domain)]
                            else old(store.builds)
    ensures store.order == if outcome.Published? && outcome.commitSha !in old(store.builds)
                           then old(store.order) + [outcome.commitSha] else old(store.order)
  {
    OrderedAppend(before, DnsCall(domain));
    calls := before + [DnsCall(domain)];
    var (ip4, ip6) := Dns.Resolve(lookup, domain);
    if ip4 == [] && ip6 == [] {
      return NoAddress(domain), calls;
    }
    var config := Schemas.Create(domain, dnsServers, ip4, ip6);
    OrderedAppend(calls, CreateCall(category, domain, config));
    calls := calls + [CreateCall(category, domain, config)];
    var created := create(category, domain, config);
    if created.Err? {
      return Failed(created.error), calls;
    }
    store.Add(created.value.1, BuildFor(sender, domain));
    outcome := Published(domain, category, ip4, ip6, created.value.0, created.value.1);
  }

  /** A published outcome, as the shared tail produces it. */
  predicate PublishedBy(outcome: Outcome, category: string, domain: string, lookup: Dns.Lookup,
                        create: CreateStage, dnsServers: seq<string>, calls: seq<Call>)
  {
    && outcome.Published? && outcome.category == category && outcome.domain == domain
    && Dns.Resolve(lookup, domain) == (outcome.ip4, outcome.ip6)
    && (outcome.ip4 != [] || outcome.ip6 != [])
    && |calls| > 0
    && calls[|calls| - 1] == CreateCall(category, domain, Schemas.Create(domain, dnsServers, outcome.ip4, outcome.ip6))
    && create(category, domain, Schemas.Create(domain, dnsServers, outcome.ip4, outcome.ip6))
       == Ok((outcome.htmlUrl, outcome.commitSha))
  }

  /** `add_domain_manual` on `context.args`. */
  method AddDomainManual(args: seq<string>, categories: Result<seq<string>, Error>, lookup: Dns.Lookup,
                         create: CreateStage, dnsServers: seq<string>, sender: Sender, store: Builds.BuildsStore)
    returns (outcome: Outcome, calls: seq<Call>)
    requires store.Valid()
    modifies store
    ensures store.Valid() && Ordered(calls)
    ensures |args| < 2 <==> outcome == Usage
    ensures |args| < 2 ==> calls == []
    ensures |args| >= 2 ==> |calls| > 0 && calls[0] == CategoriesCall
    ensures outcome.UnknownCategory? ==>
      && categories.Ok? && calls == [CategoriesCall] && outcome.input == Lower(args[1])
      && (Classifier.FirstMatch(categories.value, Lower(args[1])) == None
          || Classifier.FirstMatch(categories.value, Lower(args[1])) == Some(""))
    ensures outcome.NoAddress? ==>
      outcome.domain == CleanDomain(args[0]) && Dns.Resolve(lookup, outcome.domain) == ([], [])
      && !Publishes(calls)
    ensures outcome.Published? ==>
      && categories.Ok? && Classifier.FirstMatch(categories.value, Lower(args[1])) == Some(outcome.category)
      && PublishedBy(outcome, outcome.category, CleanDomain(args[0]), lookup, create, dnsServers, calls)
    ensures !outcome.Silent? && !outcome.Clarify?
    ensures store.builds == if outcome.Published? then old(store.builds)[outcome.commitSha := BuildFor(sender, outcome.domain)]
                            else old(store.builds)
    ensures store.order == if outcome.Published? && outcome.commitSha !in old(store.builds)
                           then old(store.order) + [outcome.commitSha] else old(store.order)
  {
    if |args| < 2 {
      return Usage, [];
    }
    var domain := CleanDomain(args[0]);
    var input := Lower(args[1]);
    calls := [CategoriesCall];
    if categories.Err? {
      return Failed(categories.error), calls;
    }
    var matched := FindCategory(categories.value, input);
    if matched.None? || matched.value == "" {
      return UnknownCategory(input, categories.value), calls;
    }
    outcome, calls := Publish(matched.value, domain, lookup, create, dnsServers, sender, store, calls);
  }

  /** The domain a message names: the cleaned text when it has a dot, else the keyword's resolution. */
  function Target(cleaned: string, resolve: KeywordStage): Result<string, Error> {
    if '.' in cleaned then Ok(cleaned) else resolve(cleaned)
  }

  /** The stages after the domain is known: categories, classification, then the shared tail. */
  method Route(domain: string, categories: Result<seq<string>, Error>, classify: ClassifyStage,
               lookup: Dns.Lookup, create: CreateStage, dnsServers: seq<string>,
               sender: Sender, store: Builds.BuildsStore, before: seq<Call>)
    returns (outcome: Outcome, calls: seq<Call>)
    requires store.Valid() && Ordered(before) && (before == [] || (|before| == 1 && before[0].ResolveCall?))
    modifies store
    ensures store.Valid() && Ordered(calls)
    ensures |calls| > |before| && calls[..|before|] == before && calls[|before|] == CategoriesCall
    ensures outcome.Failed? || outcome.NoAddress? || outcome.Published?
    ensures outcome.NoAddress? ==> outcome.domain == domain && Dns.Resolve(lookup, domain) == ([], []) && !Publishes(calls)
    ensures outcome.Published? ==>
      && categories.Ok? && classify(domain, categories.value) == Ok(outcome.category)
      && PublishedBy(outcome, outcome.category, domain, lookup, create, dnsServers, calls)
    ensures store.builds == if outcome.Published? then old(store.builds)[outcome.commitSha := BuildFor(sender, domain)]
                            else old(store.builds)
    ensures store.order == if outcome.Published? && outcome.commitSha !in old(store.builds)
                           then old(store.order) + [outcome.commitSha] else old(store.order)
  {
    OrderedAppend(before, CategoriesCall);
    calls := before + [CategoriesCall];
    if categories.Err? {
      return Failed(categories.error), calls;
    }
    var prefix := calls;
    outcome, calls := ClassifyAndPublish(domain, categories.value, classify, lookup, create, dnsServers, sender, store, calls);
    assert calls[..|before|] == prefix[..|before|];
  }

  /** The classification stage on the fetched categories, then the shared tail. */
  method ClassifyAndPublish(domain: string, categories: seq<string>, classify: ClassifyStage,
                            lookup: Dns.Lookup, create: CreateStage, dnsServers: seq<string>,
                            sender: Sender, store: Builds.BuildsStore, before: seq<Call>)
    returns (outcome: Outcome, calls: seq<Call>)
    requires store.Valid() && Ordered(before) && before != [] && before[|before| - 1] == CategoriesCall
    modifies store
    ensures store.Valid() && Ordered(calls)
    ensures |calls| > |before| && calls[..|before|] == before
    ensures outcome.Failed? || outcome.NoAddress? || outcome.Published?
    ensures outcome.NoAddress? ==> outcome.domain == domain && Dns.Resolve(lookup, domain) == ([], []) && !Publishes(calls)
    ensures outcome.Published? ==>
      classify(domain, categories) == Ok(outcome.category)
      && PublishedBy(outcome, outcome.category, domain, lookup, create, dnsServers, calls)
    ensures store.builds == if outcome.Published? then old(store.builds)[outcome.commitSha := BuildFor(sender, domain)]
                            else old(store.builds)
    ensures store.order == if outcome.Published? && outcome.commitSha !in old(store.builds)
                           then old(store.order) + [outcome.commitSha] else old(store.order)
  {
    OrderedAppend(before, ClassifyCall(domain, categories));
    calls := before + [ClassifyCall(domain, categories)];
    var category := classify(domain, categories);
    if category.Err? {
      return Failed(category.error), calls;
    }
    var prefix := calls;
    outcome, calls := Publish(category.value, domain, lookup, create, dnsServers, sender, store, calls);
    assert calls[..|prefix|] == prefix;
    assert calls[..|before|] == prefix[..|before|];
  }

  /**
   * `handle_message` on the message text, as written: a refused keyword
   * reaches the generic `except Exception` reply, because the
   * `except ValueError` clause never catches the resolver's error.
   */
  method HandleMessage(text: string, resolve: KeywordStage, categories: Result<seq<string>, Error>,
                       classify: ClassifyStage, lookup: Dns.Lookup, create: CreateStage, dnsServers: seq<string>,
                       sender: Sender, store: Builds.BuildsStore)
    returns (outcome: Outcome, calls: seq<Call>)
    requires store.Valid()
    modifies store
    ensures store.Valid() && Ordered(calls)
    ensures Strip(text) == [] <==> outcome == Silent
    ensures Strip(text) == [] ==> calls == []
    ensures Strip(text) != [] ==> calls != []
    ensures (calls != [] && calls[0].ResolveCall?) <==> Strip(text) != [] && '.' !in CleanDomain(Strip(text))
    ensures calls != [] && calls[0].ResolveCall? ==> calls[0] == ResolveCall(CleanDomain(Strip(text)))
    ensures Strip(text) != [] && Target(CleanDomain(Strip(text)), resolve).Err? ==>
      calls == [ResolveCall(CleanDomain(Strip(text)))]
      && outcome == KeywordFailureAsWritten(resolve(CleanDomain(Strip(text))).error)
      && outcome == Failed(resolve(CleanDomain(Strip(text))).error)
    ensures !outcome.Clarify?
    ensures outcome.NoAddress? ==> Dns.Resolve(lookup, outcome.domain) == ([], []) && !Publishes(calls)
    ensures outcome.Published? ==>
      && Target(CleanDomain(Strip(text)), resolve) == Ok(outcome.domain)
      && categories.Ok? && classify(outcome.domain, categories.value) == Ok(outcome.category)
      && PublishedBy(outcome, outcome.category, outcome.domain, lookup, create, dnsServers, calls)
    ensures !outcome.Usage? && !outcome.UnknownCategory?
    ensures store.builds == if outcome.Published? then old(store.builds)[outcome.commitSha := BuildFor(sender, outcome.domain)]
                            else old(store.builds)
    ensures store.order == if outcome.Published? && outcome.commitSha !in old(store.builds)
                           then old(store.order) + [outcome.commitSha] else old(store.order)
  {
    var t := Strip(text);
    if t == [] {
      return Silent, [];
    }
    var cleaned := CleanDomain(t);
    var before := [];
    if '.' !in cleaned {
      before := [ResolveCall(cleaned)];
    }
    var target := Target(cleaned, resolve);
    if target.Err? {
      ValueErrorNeverCaught(target.error);
      return KeywordFailureAsWritten(target.error), before;
    }
    outcome, calls := Route(target.value, categories, classify, lookup, create, dnsServers, sender, store, before);
    assert before != [] ==> calls[0] == before[0];
  }
}
