/**
 * DNS lookups (services/dns.py): nameserver normalisation, the mapping of
 * resolver exceptions to issue labels, the choice of one issue for an
 * A/AAAA pair, and the merge of the primary and fallback resolvers'
 * results. The resolvers themselves are inputs.
 */
module Dns {
  import opened Wrappers
  import opened PyStr

  // ------------------------------------------------------- nameserver entries

  /** A stripped, non-blank entry as an address: `[addr]...` loses its brackets, `host:port` with a dotted host its port. */
  function NormalizeValue(value: string): (r: string)
    requires value != []
    ensures |r| <= |value|
  {
    if value[0] == '[' && ']' in value then value[1..Find(value, ']')]
    else if Count(value, ':') == 1 && '.' in value then value[..Find(value, ':')]
    else value
  }

  /** One `dns_servers` entry as a nameserver address: `None` when it is blank. */
  function NormalizeEntry(entry: string): (r: Option<string>)
    ensures r.None? <==> Strip(entry) == []
    ensures r.Some? ==> |r.value| <= |entry|
  {
    var value := Strip(entry);
    if value == [] then None else Some(NormalizeValue(value))
  }

  /** The list `_normalize_nameservers` builds: blank entries skipped, order kept. */
  function Normalized(entries: seq<string>): (r: seq<string>)
    ensures |r| <= |entries|
  {
    if entries == [] then []
    else
      var last := NormalizeEntry(entries[|entries| - 1]);
      Normalized(entries[..|entries| - 1]) + (if last.Some? then [last.value] else [])
  }

  /** `_normalize_nameservers`, the loop appending one address per non-blank entry. */
  method NormalizeNameservers(nameservers: seq<string>) returns (normalized: seq<string>)
    ensures normalized == Normalized(nameservers)
  {
    normalized := [];
    var i := 0;
    while i < |nameservers|
      invariant 0 <= i <= |nameservers|
      invariant normalized == Normalized(nameservers[..i])
    {
      var entry := nameservers[i];
      assert nameservers[..i + 1][..i] == nameservers[..i];
      var value := Strip(entry);
      if value != [] {
        normalized := normalized + [NormalizeValue(value)];
      }
      i := i + 1;
    }
    assert nameservers[..i] == nameservers;
  }

  /** The number of entries that are not blank after stripping. */
  function NonBlank(entries: seq<string>): nat {
    if entries == [] then 0
    else NonBlank(entries[..|entries| - 1]) + (if Strip(entries[|entries| - 1]) != [] then 1 else 0)
  }

  /** Normalisation keeps exactly one address per non-blank entry. */
  lemma {:induction false} NormalizedCountsEntries(entries: seq<string>)
    ensures |Normalized(entries)| == NonBlank(entries)
    decreases |entries|
  {
    if entries != [] {
      NormalizedCountsEntries(entries[..|entries| - 1]);
    }
  }

  /** Entries that are all blank give no nameserver at all. */
  lemma {:induction false} BlankEntriesGiveNothing(entries: seq<string>)
    requires forall k :: 0 <= k < |entries| ==> Strip(entries[k]) == []
    ensures Normalized(entries) == []
    decreases |entries|
  {
    if entries != [] {
      BlankEntriesGiveNothing(entries[..|entries| - 1]);
    }
  }

  /** `host:port` with a dotted host loses its port. */
  lemma PortDropped(host: string, port: string)
    requires host != [] && !IsSpace(host[0]) && host[0] != '['
    requires ':' !in host && '.' in host && ':' !in port
    requires port == [] || !IsSpace(port[|port| - 1])
    ensures NormalizeEntry(host + (":" + port)) == Some(host)
  {
    var e := host + (":" + port);
    assert e[..|host|] == host && e[|host|] == ':';
    assert e == [] || (!IsSpace(e[0]) && !IsSpace(e[|e| - 1]));
    StripNoSpace(e);
    PortValue(host, port);
  }

  lemma PortValue(host: string, port: string)
    requires host != [] && host[0] != '['
    requires ':' !in host && '.' in host && ':' !in port
    ensures NormalizeValue(host + (":" + port)) == host
  {
    var e := host + (":" + port);
    assert e[..|host|] == host && e[|host|] == ':';
    CountConcat(host, ":" + port, ':');
    CountConcat(":", port, ':');
    FindAfterPrefix(host, ':', port);
    assert '.' in e by {
      var j :| 0 <= j < |host| && host[j] == '.';
      assert e[j] == '.';
    }
  }

  /** A bracketed address `[addr]...` is reduced to `addr`. */
  lemma BracketsDropped(addr: string, rest: string)
    requires ']' !in addr
    requires rest == [] || !IsSpace(rest[|rest| - 1])
    ensures NormalizeEntry("[" + (addr + ("]" + rest))) == Some(addr)
  {
    var e := "[" + (addr + ("]" + rest));
    StripNoSpace(e);
    BracketValue(addr, rest);
  }

  lemma BracketValue(addr: string, rest: string)
    requires ']' !in addr
    ensures NormalizeValue("[" + (addr + ("]" + rest))) == addr
  {
    var e := "[" + (addr + ("]" + rest));
    assert e[1..1 + |addr|] == addr && e[1 + |addr|] == ']';
    assert Find(e, ']') == 1 + |addr| by {
      FindAfterPrefix("[" + addr, ']', rest);
      assert e == ("[" + addr) + [']'] + rest;
      assert ']' !in "[" + addr by {
        assert forall j :: 0 <= j < |addr| ==> ("[" + addr)[j + 1] == addr[j];
      }
      FindIsFindSub(e, ']');
    }
  }

  const GoogleDns := "8.8.8.8"
  const GoogleDnsPort := "53"

  /** "8.8.8.8:53" becomes "8.8.8.8"; "[]" becomes the empty address, which is kept. */
  lemma NameserverExamples()
    ensures NormalizeEntry(GoogleDns + (":" + GoogleDnsPort)) == Some(GoogleDns)
    ensures NormalizeEntry("[]") == Some("")
  {
    assert GoogleDns[1] == '.';
    PortDropped(GoogleDns, GoogleDnsPort);
    BracketsDropped([], []);
    assert "[" + ([] + ("]" + [])) == "[]";
  }

  /** `Find` of a character is `FindSub` of the one-character string. */
  lemma {:induction false} FindIsFindSub(s: string, c: char)
    ensures Find(s, c) == FindSub(s, [c])
    decreases |s|
  {
    if |s| > 0 && s[0] != c {
      FindIsFindSub(s[1..], c);
      assert s[..1] == [s[0]];
    } else if |s| > 0 {
      assert s[..1] == [c];
    }
  }

  lemma {:induction false} CountConcat(a: string, b: string, c: char)
    ensures Count(a + b, c) == Count(a, c) + Count(b, c)
    decreases |a|
  {
    if a == [] {
      assert a + b == b;
    } else {
      CountConcat(a[1..], b, c);
      assert (a + b)[1..] == a[1..] + b;
    }
  }

  // ----------------------------------------------------------- record lookups

  datatype RecordType = A | AAAA

  /** What the resolver's `resolve` call does: answer with records, or raise one of the DNS exceptions. */
  datatype Answer =
    | Records(rdata: seq<string>)
    | NXDOMAIN
    | NoAnswer
    | NoNameservers
    | Timeout
    | OtherDnsException

  /** A resolver, as the outcome of each lookup. */
  type Lookup = (string, RecordType) -> Answer

  /** The `DNSResolutionIssue` labels. */
  datatype Issue = NxDomain | NoAnswerIssue | NoNameserversIssue | TimeoutIssue | ErrorIssue {
    function Label(): string {
      match this
      case NxDomain => "nxdomain"
      case NoAnswerIssue => "no_answer"
      case NoNameserversIssue => "no_nameservers"
      case TimeoutIssue => "timeout"
      case ErrorIssue => "error"
    }
  }

  /** The issues in the order `_pick_issue` prefers them. */
  const Priority: seq<Issue> := [NxDomain, NoNameserversIssue, TimeoutIssue, NoAnswerIssue, ErrorIssue]

  datatype RecordResult = RecordResult(addresses: seq<string>, issue: Option<Issue>)

  /** `_resolve_record`: the records as text, or an empty list and the issue of the exception. */
  function ResolveRecord(lookup: Lookup, domain: string, rtype: RecordType): (r: RecordResult)
    ensures r.issue.Some? ==> r.addresses == []
    ensures r.issue.None? <==> lookup(domain, rtype).Records?
    ensures lookup(domain, rtype).Records? ==> r.addresses == lookup(domain, rtype).rdata
  {
    match lookup(domain, rtype)
    case Records(rdata) => RecordResult(rdata, None)
    case NXDOMAIN => RecordResult([], Some(NxDomain))
    case NoAnswer => RecordResult([], Some(NoAnswerIssue))
    case NoNameservers => RecordResult([], Some(NoNameserversIssue))
    case Timeout => RecordResult([], Some(TimeoutIssue))
    case OtherDnsException => RecordResult([], Some(ErrorIssue))
  }

  /** The first candidate that is one of the two issues. */
  function FirstPresent(candidates: seq<Issue>, issue4: Option<Issue>, issue6: Option<Issue>): (r: Option<Issue>)
    ensures r.Some? ==> r.value in candidates && (r == issue4 || r == issue6)
  {
    if candidates == [] then None
    else if Some(candidates[0]) == issue4 || Some(candidates[0]) == issue6 then Some(candidates[0])
    else FirstPresent(candidates[1..], issue4, issue6)
  }

  /** `_pick_issue`: the highest-priority issue present, falling back to `issue4 or issue6`. */
  function PickIssue(issue4: Option<Issue>, issue6: Option<Issue>): Option<Issue> {
    var first := FirstPresent(Priority, issue4, issue6);
    if first.Some? then first else if issue4.Some? then issue4 else issue6
  }

  /** An issue's place in the priority order. */
  function Rank(i: Issue): nat {
    match i
    case NxDomain => 0
    case NoNameserversIssue => 1
    case TimeoutIssue => 2
    case NoAnswerIssue => 3
    case ErrorIssue => 4
  }

  /** `Rank` is the position in `Priority`. */
  lemma RankIndex(i: Issue)
    ensures Rank(i) < |Priority| && Priority[Rank(i)] == i
  {
  }

  /** Scanning the priority list from `k` finds the present issue of least rank `m`. */
  lemma {:induction false} FirstPresentAt(k: nat, m: nat, issue4: Option<Issue>, issue6: Option<Issue>)
    requires k <= m < |Priority|
    requires Some(Priority[m]) == issue4 || Some(Priority[m]) == issue6
    requires issue4.Some? ==> m <= Rank(issue4.value)
    requires issue6.Some? ==> m <= Rank(issue6.value)
    ensures FirstPresent(Priority[k..], issue4, issue6) == Some(Priority[m])
    decreases m - k
  {
    assert Priority[k..][0] == Priority[k];
    if k < m {
      assert Rank(Priority[k]) == k;
      assert Priority[k..][1..] == Priority[k + 1..];
      FirstPresentAt(k + 1, m, issue4, issue6);
    }
  }

  /** `_pick_issue` returns one of its arguments, the one first in priority; `None` only for two `None`s. */
  lemma PickIssueSpec(issue4: Option<Issue>, issue6: Option<Issue>)
    ensures PickIssue(issue4, issue6).None? <==> issue4.None? && issue6.None?
    ensures PickIssue(issue4, issue6).Some? ==>
      (PickIssue(issue4, issue6) == issue4 || PickIssue(issue4, issue6) == issue6)
    ensures issue4.Some? ==> Rank(PickIssue(issue4, issue6).value) <= Rank(issue4.value)
    ensures issue6.Some? ==> Rank(PickIssue(issue4, issue6).value) <= Rank(issue6.value)
  {
    if issue4.Some? || issue6.Some? {
      var m := if issue4.None? then Rank(issue6.value)
               else if issue6.None? then Rank(issue4.value)
               else if Rank(issue4.value) <= Rank(issue6.value) then Rank(issue4.value)
               else Rank(issue6.value);
      if issue4.Some? { RankIndex(issue4.value); }
      if issue6.Some? { RankIndex(issue6.value); }
      FirstPresentAt(0, m, issue4, issue6);
      assert Priority[0..] == Priority;
      assert Rank(Priority[m]) == m;
    }
  }

  /** `_pick_issue` does not care which record type reported which issue. */
  lemma PickIssueSymmetric(issue4: Option<Issue>, issue6: Option<Issue>)
    ensures PickIssue(issue4, issue6) == PickIssue(issue6, issue4)
  {
    PickIssueSpec(issue4, issue6);
    PickIssueSpec(issue6, issue4);
    if issue4.Some? && issue6.Some? && issue4 != issue6 {
      RankInjective(PickIssue(issue4, issue6).value, PickIssue(issue6, issue4).value);
    }
  }

  lemma RankInjective(i: Issue, j: Issue)
    requires Rank(i) == Rank(j)
    ensures i == j
  {
  }

  // ---------------------------------------------------------------- results

  datatype DnsResult = DnsResult(ip4: seq<string>, ip6: seq<string>, issue: Option<Issue>)

  /** `resolve_with_reason`: A, then AAAA; an issue is given only when both lists are empty. */
  function ResolveWithReason(lookup: Lookup, domain: string): (r: DnsResult)
    ensures r.ip4 == ResolveRecord(lookup, domain, A).addresses
    ensures r.ip6 == ResolveRecord(lookup, domain, AAAA).addresses
    ensures r.issue.Some? ==> r.ip4 == [] && r.ip6 == []
    ensures r.ip4 == [] && r.ip6 == [] ==>
      r.issue == PickIssue(ResolveRecord(lookup, domain, A).issue, ResolveRecord(lookup, domain, AAAA).issue)
  {
    var a := ResolveRecord(lookup, domain, A);
    var aaaa := ResolveRecord(lookup, domain, AAAA);
    var issue := if a.addresses == [] && aaaa.addresses == [] then PickIssue(a.issue, aaaa.issue) else None;
    DnsResult(a.addresses, aaaa.addresses, issue)
  }

  /** `DNSResolver.resolve`: the two lists of `resolve_with_reason`. */
  function Resolve(lookup: Lookup, domain: string): (r: (seq<string>, seq<string>))
    ensures r.0 == ResolveRecord(lookup, domain, A).addresses
    ensures r.1 == ResolveRecord(lookup, domain, AAAA).addresses
  {
    var res := ResolveWithReason(lookup, domain);
    (res.ip4, res.ip6)
  }

  predicate HasAddress(r: DnsResult) {
    r.ip4 != [] || r.ip6 != []
  }

  /**
   * `resolve_dns_with_reason`: the primary result unless it is empty and a
   * fallback resolver exists (one exists when the configured DNS servers
   * normalise to a non-empty list).
   */
  function ResolveDnsWithReason(primary: Lookup, fallback: Option<Lookup>, domain: string): (r: DnsResult)
    ensures HasAddress(ResolveWithReason(primary, domain)) || fallback.None? ==> r == ResolveWithReason(primary, domain)
    ensures !HasAddress(ResolveWithReason(primary, domain)) && fallback.Some? ==>
      var f := ResolveWithReason(fallback.value, domain);
      r == if HasAddress(f) then f
           else DnsResult([], [], if f.issue.Some? then f.issue else ResolveWithReason(primary, domain).issue)
  {
    var p := ResolveWithReason(primary, domain);
    if HasAddress(p) || fallback.None? then p
    else
      var f := ResolveWithReason(fallback.value, domain);
      if HasAddress(f) then f
      else DnsResult([], [], if f.issue.Some? then f.issue else p.issue)
  }

  /** The fallback resolver exists when the configured DNS servers normalise to something. */
  function Fallback(dnsServers: seq<string>, configured: Lookup): (r: Option<Lookup>)
    ensures r.Some? <==> Normalized(dnsServers) != []
  {
    if Normalized(dnsServers) != [] then Some(configured) else None
  }

  /** A result with an address never carries an issue, whichever resolver it came from. */
  lemma AddressMeansNoIssue(primary: Lookup, fallback: Option<Lookup>, domain: string)
    ensures HasAddress(ResolveDnsWithReason(primary, fallback, domain)) ==>
      ResolveDnsWithReason(primary, fallback, domain).issue.None?
  {
  }

  /** When both resolvers come back empty and the primary had a DNS failure, the merged result names an issue. */
  lemma EmptyResultExplained(primary: Lookup, fallback: Lookup, domain: string)
    requires !HasAddress(ResolveWithReason(primary, domain)) && !HasAddress(ResolveWithReason(fallback, domain))
    requires !primary(domain, A).Records? || !primary(domain, AAAA).Records?
    ensures ResolveDnsWithReason(primary, Some(fallback), domain).issue.Some?
  {
    var p := ResolveWithReason(primary, domain);
    PickIssueSpec(ResolveRecord(primary, domain, A).issue, ResolveRecord(primary, domain, AAAA).issue);
  }

  /**
   * The merged issue is the fallback's when it has one, even when the
   * primary's would rank first: the two are not re-prioritised.
   */
  lemma FallbackIssueWins(primary: Lookup, fallback: Lookup, domain: string)
    requires !HasAddress(ResolveWithReason(primary, domain)) && !HasAddress(ResolveWithReason(fallback, domain))
    requires ResolveWithReason(fallback, domain).issue.Some?
    ensures ResolveDnsWithReason(primary, Some(fallback), domain) == DnsResult([], [], ResolveWithReason(fallback, domain).issue)
  {
  }
}
