/**
 * The site configuration published to the iplist repository
 * (services/github/schemas.py): the dataclasses, `SiteConfig.create`, the
 * `asdict` shape and its JSON text.
 */
module Schemas {
  import opened Wrappers
  import opened PyStr
  import opened Json

  const DefaultTimeout := 3600
  const JsonIndent := 4

  /** External resources; every list is empty by default. */
  datatype ExternalConfig = ExternalConfig(
    domains: seq<string> := [],
    ip4: seq<string> := [],
    ip6: seq<string> := [],
    cidr4: seq<string> := [],
    cidr6: seq<string> := [])

  datatype SiteConfig = SiteConfig(
    domains: seq<string>,
    dns: seq<string>,
    ip4: seq<string>,
    ip6: seq<string>,
    timeout: int := DefaultTimeout,
    cidr4: seq<string> := [],
    cidr6: seq<string> := [],
    external: ExternalConfig := ExternalConfig())

  /** `SiteConfig.create`: the domain and its `www.` form; the DNS servers and addresses as given. */
  function Create(domain: string, dnsServers: seq<string>, ip4: seq<string>, ip6: seq<string>): (c: SiteConfig)
    ensures c.domains == [domain, "www." + domain]
    ensures c.dns == dnsServers && c.ip4 == ip4 && c.ip6 == ip6
    ensures c.timeout == 3600 && c.cidr4 == [] && c.cidr6 == []
    ensures c.external == ExternalConfig([], [], [], [], [])
  {
    SiteConfig([domain, "www." + domain], dnsServers, ip4, ip6)
  }

  // ------------------------------------------------------------------ to_dict

  function StrList(xs: seq<string>): (v: JValue)
    ensures v.JArr? && |v.items| == |xs|
  {
    JArr(seq(|xs|, i requires 0 <= i < |xs| => JStr(xs[i])))
  }

  const DomainsKey := "domains"
  const DnsKey := "dns"
  const Ip4Key := "ip4"
  const Ip6Key := "ip6"
  const TimeoutKey := "timeout"
  const Cidr4Key := "cidr4"
  const Cidr6Key := "cidr6"
  const ExternalKey := "external"

  function ExternalDict(e: ExternalConfig): JValue {
    JObj([(DomainsKey, StrList(e.domains)), (Ip4Key, StrList(e.ip4)), (Ip6Key, StrList(e.ip6)),
          (Cidr4Key, StrList(e.cidr4)), (Cidr6Key, StrList(e.cidr6))])
  }

  /** `asdict`: one member per field, in declaration order, `external` nested. */
  function ToDict(c: SiteConfig): (v: JValue)
    ensures v.JObj? && |v.members| == 8
  {
    JObj([(DomainsKey, StrList(c.domains)), (DnsKey, StrList(c.dns)), (Ip4Key, StrList(c.ip4)),
          (Ip6Key, StrList(c.ip6)), (TimeoutKey, JInt(c.timeout)), (Cidr4Key, StrList(c.cidr4)),
          (Cidr6Key, StrList(c.cidr6)), (ExternalKey, ExternalDict(c.external))])
  }

  /** `to_json`: `json.dumps(to_dict(), indent=4)`. */
  function ToJson(c: SiteConfig): (t: string)
    ensures SpacedAscii(t)
  {
    DumpIsAscii(ToDict(c), JsonIndent, 0);
    Dump(ToDict(c), JsonIndent, 0)
  }

  // ---------------------------------------------------------- reading it back

  /** The value of the first member named `key`. */
  function Get(members: seq<(string, JValue)>, key: string): Option<JValue> {
    LookupFrom(members, key, 0)
  }

  /** The value of the first member named `key` at index `i` or later. */
  function LookupFrom(members: seq<(string, JValue)>, key: string, i: nat): Option<JValue>
    decreases |members| - i
  {
    if i >= |members| then None
    else if members[i].0 == key then Some(members[i].1)
    else LookupFrom(members, key, i + 1)
  }

  function AsStrings(items: seq<JValue>): (r: Option<seq<string>>)
    ensures r.Some? ==> |r.value| == |items|
  {
    if items == [] then Some([])
    else if !items[0].JStr? then None
    else
      var rest := AsStrings(items[1..]);
      if rest.None? then None else Some([items[0].s] + rest.value)
  }

  function GetStrings(members: seq<(string, JValue)>, key: string): Option<seq<string>> {
    var v := Get(members, key);
    if v.Some? && v.value.JArr? then AsStrings(v.value.items) else None
  }

  function ExternalOf(v: JValue): Option<ExternalConfig> {
    if !v.JObj? then None
    else
      var ms := v.members;
      var d, i4, i6, c4, c6 := GetStrings(ms, DomainsKey), GetStrings(ms, Ip4Key), GetStrings(ms, Ip6Key),
                               GetStrings(ms, Cidr4Key), GetStrings(ms, Cidr6Key);
      if d.Some? && i4.Some? && i6.Some? && c4.Some? && c6.Some? then
        Some(ExternalConfig(d.value, i4.value, i6.value, c4.value, c6.value))
      else None
  }

  /** The configuration a dict of the `to_dict` shape describes. */
  function FromDict(v: JValue): Option<SiteConfig> {
    if !v.JObj? then None
    else
      var ms := v.members;
      var d, n, i4, i6 := GetStrings(ms, DomainsKey), GetStrings(ms, DnsKey), GetStrings(ms, Ip4Key), GetStrings(ms, Ip6Key);
      var t, c4, c6 := Get(ms, TimeoutKey), GetStrings(ms, Cidr4Key), GetStrings(ms, Cidr6Key);
      var e := Get(ms, ExternalKey);
      if d.Some? && n.Some? && i4.Some? && i6.Some? && t.Some? && t.value.JInt? && c4.Some? && c6.Some?
         && e.Some? && ExternalOf(e.value).Some? then
        Some(SiteConfig(d.value, n.value, i4.value, i6.value, t.value.i, c4.value, c6.value, ExternalOf(e.value).value))
      else None
  }

  lemma {:induction false} StringsRoundTrip(xs: seq<string>)
    ensures AsStrings(StrList(xs).items) == Some(xs)
    decreases |xs|
  {
    if xs != [] {
      StringsRoundTrip(xs[1..]);
      assert StrList(xs).items[1..] == StrList(xs[1..]).items;
      assert [xs[0]] + xs[1..] == xs;
    }
  }

  /** A lookup finds the first member with the key. */
  lemma {:induction false} LookupFinds(members: seq<(string, JValue)>, key: string, i: nat, k: nat)
    requires i <= k < |members| && members[k].0 == key
    requires forall j :: i <= j < k ==> members[j].0 != key
    ensures LookupFrom(members, key, i) == Some(members[k].1)
    decreases k - i
  {
    if i < k {
      LookupFinds(members, key, i + 1, k);
    }
  }

  /** The keys `to_dict` writes, in order. */
  const SiteKeys := [DomainsKey, DnsKey, Ip4Key, Ip6Key, TimeoutKey, Cidr4Key, Cidr6Key, ExternalKey]
  const ExternalKeys := [DomainsKey, Ip4Key, Ip6Key, Cidr4Key, Cidr6Key]

  predicate DistinctKeys(keys: seq<string>) {
    forall i, j :: 0 <= i < j < |keys| ==> keys[i] != keys[j]
  }

  lemma SiteKeysDistinct()
    ensures DistinctKeys(SiteKeys) && DistinctKeys(ExternalKeys)
  {
    assert Ip4Key[2] != Ip6Key[2] && Cidr4Key[4] != Cidr6Key[4];
  }

  /** In members whose keys are distinct, each key's lookup finds its own member. */
  lemma LookupDistinct(members: seq<(string, JValue)>, keys: seq<string>, k: nat)
    requires |keys| == |members| && k < |members| && DistinctKeys(keys)
    requires forall i :: 0 <= i < |members| ==> members[i].0 == keys[i]
    ensures Get(members, keys[k]) == Some(members[k].1)
  {
    LookupFinds(members, keys[k], 0, k);
  }

  lemma ExternalRoundTrip(e: ExternalConfig)
    ensures ExternalOf(ExternalDict(e)) == Some(e)
  {
    var ms := ExternalDict(e).members;
    SiteKeysDistinct();
    LookupDistinct(ms, ExternalKeys, 0);
    LookupDistinct(ms, ExternalKeys, 1);
    LookupDistinct(ms, ExternalKeys, 2);
    LookupDistinct(ms, ExternalKeys, 3);
    LookupDistinct(ms, ExternalKeys, 4);
    StringsRoundTrip(e.domains);
    StringsRoundTrip(e.ip4);
    StringsRoundTrip(e.ip6);
    StringsRoundTrip(e.cidr4);
    StringsRoundTrip(e.cidr6);
  }

  /** The dict holds every field: the configuration can be read back from it. */
  lemma DictRoundTrip(c: SiteConfig)
    ensures FromDict(ToDict(c)) == Some(c)
  {
    var ms := ToDict(c).members;
    SiteKeysDistinct();
    LookupDistinct(ms, SiteKeys, 0);
    LookupDistinct(ms, SiteKeys, 1);
    LookupDistinct(ms, SiteKeys, 2);
    LookupDistinct(ms, SiteKeys, 3);
    LookupDistinct(ms, SiteKeys, 4);
    LookupDistinct(ms, SiteKeys, 5);
    LookupDistinct(ms, SiteKeys, 6);
    LookupDistinct(ms, SiteKeys, 7);
    StringsRoundTrip(c.domains);
    StringsRoundTrip(c.dns);
    StringsRoundTrip(c.ip4);
    StringsRoundTrip(c.ip6);
    StringsRoundTrip(c.cidr4);
    StringsRoundTrip(c.cidr6);
    ExternalRoundTrip(c.external);
  }

  // -------------------------------------------------------------- the JSON text

  /** `"domains"` is its own JSON literal. */
  lemma DomainsKeyQuoted()
    ensures Quote(DomainsKey) == "\"domains\""
  {
    assert AllPlain(DomainsKey) by {
      forall i | 0 <= i < |DomainsKey| ensures Plain(DomainsKey[i]) { }
    }
    EscapePlain(DomainsKey);
    assert Quote(DomainsKey) == "\"" + DomainsKey + "\"";
  }

  /** The JSON text names the `domains` field. */
  lemma JsonShowsDomainsKey(c: SiteConfig)
    ensures Contains(ToJson(c), Quote(DomainsKey))
  {
    var ms := ToDict(c).members;
    MemberShowsKey(ms[0], JsonIndent, 1);
    ObjectShowsFirstMember(ms, JsonIndent, 0, Quote(DomainsKey));
  }

  /** The JSON text shows the first domain when it needs no escaping. */
  lemma JsonShowsFirstDomain(c: SiteConfig)
    requires c.domains != [] && AllPlain(c.domains[0])
    ensures Contains(ToJson(c), c.domains[0])
  {
    var ms := ToDict(c).members;
    var items := StrList(c.domains).items;
    StringShowsItself(c.domains[0], JsonIndent, 2);
    ArrayShowsFirstItem(items, JsonIndent, 1, c.domains[0]);
    MemberShowsValue(ms[0], JsonIndent, 1, c.domains[0]);
    ObjectShowsFirstMember(ms, JsonIndent, 0, c.domains[0]);
  }

  /** `'"domains"' in to_json()`, and the domain itself when it needs no escaping. */
  lemma JsonMentionsDomain(domain: string, dnsServers: seq<string>, ip4: seq<string>, ip6: seq<string>)
    requires AllPlain(domain)
    ensures Contains(ToJson(Create(domain, dnsServers, ip4, ip6)), "\"domains\"")
    ensures Contains(ToJson(Create(domain, dnsServers, ip4, ip6)), domain)
  {
    JsonShowsDomainsKey(Create(domain, dnsServers, ip4, ip6));
    DomainsKeyQuoted();
    JsonShowsFirstDomain(Create(domain, dnsServers, ip4, ip6));
  }
}
