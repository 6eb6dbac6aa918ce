/**
 * The bot's settings (core/config.py): the comma-separated Gemini keys, the
 * admin id list, the `channel_id:topic_id` values of the log, LK-admin and
 * debug channels, and the normalised WebApp URL. The environment and the
 * `.env` file are left out: the raw values are what the constructor is given.
 */
module Config {
  import opened Wrappers
  import opened PyStr

  const DefaultGithubRepo := "ckeiituk/iplist"
  const DefaultGithubBranch := "master"
  const DefaultGeminiModel := "gemma-3-27b-it"
  const DefaultReminderTimezone := "Europe/Moscow"
  const DefaultDnsServers := ["127.0.0.11:53", "77.88.8.88:53", "8.8.8.8:53", "1.1.1.1:53"]

  // ------------------------------------------------------------ small facts

  /** The characters of `s.strip()` are characters of `s`. */
  lemma StripWithin(s: string, c: char)
    requires c !in s
    ensures c !in Strip(s)
  {
    var l := LStrip(s);
    var r := RStrip(l);
    assert Strip(s) == r;
    forall i | 0 <= i < |r|
      ensures r[i] != c
    {
      assert r[i] == l[i] == s[|s| - |l| + i];
    }
  }

  /** `strip()` is idempotent. */
  lemma StripStrip(s: string)
    ensures Strip(Strip(s)) == Strip(s)
  {
    StripNoSpace(Strip(s));
  }

  // --------------------------------------------------------- gemini_api_keys

  /** `[k.strip() for k in parts if k.strip()]`. */
  function NonBlank(parts: seq<string>): (keys: seq<string>)
    ensures |keys| <= |parts|
  {
    if parts == [] then []
    else if Strip(parts[0]) != [] then [Strip(parts[0])] + NonBlank(parts[1..])
    else NonBlank(parts[1..])
  }

  /** Every key is stripped and non-blank. */
  lemma {:induction false} NonBlankClean(parts: seq<string>)
    ensures forall i :: 0 <= i < |NonBlank(parts)| ==> NonBlank(parts)[i] != [] && Strip(NonBlank(parts)[i]) == NonBlank(parts)[i]
    decreases |parts|
  {
    if parts != [] {
      NonBlankClean(parts[1..]);
      var rest := NonBlank(parts[1..]);
      var head := Strip(parts[0]);
      if head != [] {
        StripStrip(parts[0]);
        var keys := [head] + rest;
        assert NonBlank(parts) == keys;
        forall i | 0 <= i < |keys| ensures keys[i] != [] && Strip(keys[i]) == keys[i] {
          if i > 0 {
            assert keys[i] == rest[i - 1];
          }
        }
      }
    }
  }

  /** No key is left exactly when every part is blank. */
  lemma {:induction false} NonBlankEmpty(parts: seq<string>)
    ensures NonBlank(parts) == [] <==> forall i :: 0 <= i < |parts| ==> Strip(parts[i]) == []
    decreases |parts|
  {
    if parts != [] {
      NonBlankEmpty(parts[1..]);
      assert forall i :: 1 <= i < |parts| ==> parts[i] == parts[1..][i - 1];
    }
  }

  /** A key of the list is a stripped part without a comma. */
  lemma NonBlankWithin(parts: seq<string>, c: char)
    requires forall i :: 0 <= i < |parts| ==> c !in parts[i]
    ensures forall i :: 0 <= i < |NonBlank(parts)| ==> c !in NonBlank(parts)[i]
  {
    if parts != [] {
      StripWithin(parts[0], c);
      NonBlankWithin(parts[1..], c);
    }
  }

  /** Parts that are already stripped and non-blank are kept as they are. */
  lemma {:induction false} NonBlankKeeps(parts: seq<string>)
    requires forall i :: 0 <= i < |parts| ==> parts[i] != [] && Strip(parts[i]) == parts[i]
    ensures NonBlank(parts) == parts
    decreases |parts|
  {
    if parts != [] {
      NonBlankKeeps(parts[1..]);
      assert [parts[0]] + parts[1..] == parts;
    }
  }

  /** The keys of some comma-separated parts, or the single empty key when every part is blank. */
  function KeysOf(parts: seq<string>): (keys: seq<string>)
    ensures keys != []
  {
    var keys := NonBlank(parts);
    if keys == [] then [""] else keys
  }

  lemma KeysOfShape(parts: seq<string>)
    ensures KeysOf(parts) == [""] <==> forall i :: 0 <= i < |parts| ==> Strip(parts[i]) == []
    ensures KeysOf(parts) != [""] ==> KeysOf(parts) == NonBlank(parts)
  {
    var keys := NonBlank(parts);
    NonBlankEmpty(parts);
    if keys != [] {
      NonBlankClean(parts);
      assert keys[0] != [];
    }
  }

  /** `gemini_api_key.split(",")`. */
  function KeyParts(raw: string): (parts: seq<string>)
    ensures forall i :: 0 <= i < |parts| ==> ',' !in parts[i]
  {
    Split(raw, ",")
  }

  /** `gemini_api_keys`: the keys of the comma-separated parts. */
  function GeminiApiKeys(raw: string): (keys: seq<string>)
    ensures keys != []
  {
    KeysOf(KeyParts(raw))
  }

  /** The single empty key stands for "only blank parts"; otherwise each key is a clean comma-free part. */
  lemma GeminiKeysShape(raw: string)
    ensures GeminiApiKeys(raw) == [""] <==> forall i :: 0 <= i < |KeyParts(raw)| ==> Strip(KeyParts(raw)[i]) == []
    ensures GeminiApiKeys(raw) != [""] ==> forall i :: 0 <= i < |GeminiApiKeys(raw)| ==>
      GeminiApiKeys(raw)[i] != [] && Strip(GeminiApiKeys(raw)[i]) == GeminiApiKeys(raw)[i] && ',' !in GeminiApiKeys(raw)[i]
  {
    var parts := KeyParts(raw);
    KeysOfShape(parts);
    NonBlankClean(parts);
    NonBlankWithin(parts, ',');
  }

  /** Joining stripped, non-blank keys without commas with "," and parsing gives them back. */
  lemma GeminiKeysRoundTrip(keys: seq<string>)
    requires keys != []
    requires forall i :: 0 <= i < |keys| ==> keys[i] != [] && Strip(keys[i]) == keys[i] && ',' !in keys[i]
    ensures GeminiApiKeys(Join(",", keys)) == keys
  {
    SplitJoin(keys, ',');
    NonBlankKeeps(keys);
  }

  /** An unset key gives the single empty key. */
  lemma NoGeminiKey()
    ensures GeminiApiKeys("") == [""]
  {
    assert FindSub("", ",") == 0;
    assert Split("", ",") == [""];
    assert Strip("") == [];
    assert NonBlank([""]) == [];
  }

  // --------------------------------------------------------- _parse_int_list

  /** The values `parse` gives for the tokens, in token order, skipping a token it refuses. */
  function Values(tokens: seq<string>, parse: string -> Option<int>): (ints: seq<int>)
    ensures |ints| <= |tokens|
  {
    if tokens == [] then []
    else
      var n := parse(tokens[|tokens| - 1]);
      Values(tokens[..|tokens| - 1], parse) + (if n.Some? then [n.value] else [])
  }

  /** Commas count as whitespace: the tokens of `raw.replace(",", " ").split()`. */
  function IdTokens(raw: string): seq<string> {
    SplitWs(Replace(raw, ",", " "))
  }

  /** What `_parse_int_list` returns. */
  function IntList(raw: Option<string>): seq<int> {
    if raw.None? then [] else Values(IdTokens(raw.value), ParseInt)
  }

  /** `_parse_int_list`: the loop over the tokens. */
  method ParseIntList(raw: Option<string>) returns (result: seq<int>)
    ensures result == IntList(raw)
    ensures raw.None? ==> result == []
  {
    if raw.None? {
      return [];
    }
    var tokens := IdTokens(raw.value);
    result := [];
    for k := 0 to |tokens|
      invariant result == Values(tokens[..k], ParseInt)
    {
      ValuesStep(tokens, k, ParseInt);
      var n := ParseInt(tokens[k]);
      if n.Some? {
        result := result + [n.value];
      }
    }
    assert tokens[..|tokens|] == tokens;
  }

  /** One more token adds its value, when `parse` accepts it. */
  lemma ValuesStep(tokens: seq<string>, k: nat, parse: string -> Option<int>)
    requires k < |tokens|
    ensures Values(tokens[..k + 1], parse)
          == Values(tokens[..k], parse) + (if parse(tokens[k]).Some? then [parse(tokens[k]).value] else [])
  {
    assert tokens[..k + 1][..k] == tokens[..k];
  }

  /** An integer of the list is the value of some token. */
  lemma {:induction false} ValuesFrom(tokens: seq<string>, parse: string -> Option<int>, x: int)
    ensures x in Values(tokens, parse) <==> exists i :: 0 <= i < |tokens| && parse(tokens[i]) == Some(x)
    decreases |tokens|
  {
    if tokens != [] {
      var init := tokens[..|tokens| - 1];
      ValuesFrom(init, parse, x);
      if exists i :: 0 <= i < |tokens| && parse(tokens[i]) == Some(x) {
        var i :| 0 <= i < |tokens| && parse(tokens[i]) == Some(x);
        if i < |init| {
          assert init[i] == tokens[i];
        }
      }
      if exists i :: 0 <= i < |init| && parse(init[i]) == Some(x) {
        var i :| 0 <= i < |init| && parse(init[i]) == Some(x);
        assert tokens[i] == init[i];
      }
    }
  }

  /** When every token parses, the list holds each token's value, in order. */
  lemma {:induction false} ValuesAll(tokens: seq<string>, parse: string -> Option<int>)
    requires forall i :: 0 <= i < |tokens| ==> parse(tokens[i]).Some?
    ensures |Values(tokens, parse)| == |tokens|
    ensures forall i :: 0 <= i < |tokens| ==> Values(tokens, parse)[i] == parse(tokens[i]).value
    decreases |tokens|
  {
    if tokens != [] {
      var init := tokens[..|tokens| - 1];
      assert forall i :: 0 <= i < |init| ==> init[i] == tokens[i];
      ValuesAll(init, parse);
    }
  }

  /** An admin id is the value of one of the tokens. */
  lemma IntListFrom(raw: string, x: int)
    ensures x in IntList(Some(raw)) <==> exists i :: 0 <= i < |IdTokens(raw)| && ParseInt(IdTokens(raw)[i]) == Some(x)
  {
    ValuesFrom(IdTokens(raw), ParseInt, x);
  }

  /** The text of an `int` is a sign and digits. */
  lemma IntTextChars(i: int)
    ensures forall k :: 0 <= k < |IntToString(i)| ==> IntToString(i)[k] == '-' || IsDigit(IntToString(i)[k])
  {
  }

  /** A word with no whitespace in it. */
  predicate Word(w: string) {
    w != [] && forall k :: 0 <= k < |w| ==> !IsSpace(w[k])
  }

  /** A text without whitespace has no whitespace to find. */
  lemma {:induction false} FindNoSpace(w: string)
    requires forall k :: 0 <= k < |w| ==> !IsSpace(w[k])
    ensures FindSpace(w) == |w|
    decreases |w|
  {
    if w != [] {
      assert forall k :: 0 <= k < |w[1..]| ==> w[1..][k] == w[k + 1];
      FindNoSpace(w[1..]);
    }
  }

  /** `str.split()` of a single word. */
  lemma SplitWsWord(w: string)
    requires Word(w)
    ensures SplitWs(w) == [w]
  {
    assert LStrip(w) == w;
    FindNoSpace(w);
    assert w[..|w|] == w;
    assert LStrip(w[|w|..]) == [];
  }

  /** `str.split()` of a word, one whitespace character and a text that starts with a word. */
  lemma SplitWsCons(w: string, sp: char, rest: string)
    requires Word(w) && IsSpace(sp) && rest != [] && !IsSpace(rest[0])
    ensures SplitWs(w + [sp] + rest) == [w] + SplitWs(rest)
  {
    var s := w + [sp] + rest;
    assert LStrip(s) == s;
    FindSpaceAfter(w, sp, rest);
    Around(w, sp, rest);
    LStripOne(sp, rest);
  }

  lemma Around(w: string, c: char, rest: string)
    ensures (w + [c] + rest)[..|w|] == w && (w + [c] + rest)[|w|..] == [c] + rest
  {
    assert w + [c] + rest == w + ([c] + rest);
  }

  /** One leading whitespace character before a word is dropped by `lstrip()`. */
  lemma LStripOne(sp: char, rest: string)
    requires IsSpace(sp) && rest != [] && !IsSpace(rest[0])
    ensures LStrip([sp] + rest) == rest
  {
    var t := [sp] + rest;
    assert t[1..] == rest;
  }

  /** The first whitespace after a word is the one that follows it. */
  lemma {:induction false} FindSpaceAfter(w: string, sp: char, rest: string)
    requires (forall k :: 0 <= k < |w| ==> !IsSpace(w[k])) && IsSpace(sp)
    ensures FindSpace(w + [sp] + rest) == |w|
    decreases |w|
  {
    var s := w + [sp] + rest;
    if w == [] {
      assert s[0] == sp;
    } else {
      assert s[1..] == w[1..] + [sp] + rest;
      assert forall k :: 0 <= k < |w[1..]| ==> w[1..][k] == w[k + 1];
      FindSpaceAfter(w[1..], sp, rest);
    }
  }

  /** `str.split()` of words joined by single whitespace characters gives the words. */
  lemma {:induction false} SplitWsJoin(words: seq<string>, sp: char)
    requires IsSpace(sp) && forall i :: 0 <= i < |words| ==> Word(words[i])
    ensures SplitWs(Join([sp], words)) == words
    decreases |words|
  {
    if |words| == 1 {
      SplitWsWord(words[0]);
    } else if |words| > 1 {
      var tail := words[1..];
      assert forall i :: 0 <= i < |tail| ==> Word(tail[i]) by {
        forall i | 0 <= i < |tail| ensures Word(tail[i]) { assert tail[i] == words[i + 1]; }
      }
      SplitWsJoin(tail, sp);
      SplitWsJoinStep(words[0], sp, tail);
      assert [words[0]] + tail == words;
    }
  }

  lemma SplitWsJoinStep(w: string, sp: char, tail: seq<string>)
    requires Word(w) && IsSpace(sp) && tail != [] && Word(tail[0])
    requires SplitWs(Join([sp], tail)) == tail
    ensures SplitWs(Join([sp], [w] + tail)) == [w] + tail
  {
    JoinStart(tail, sp);
    var rest := Join([sp], tail);
    assert ([w] + tail)[1..] == tail;
    assert Join([sp], [w] + tail) == w + [sp] + rest;
    SplitWsCons(w, sp, rest);
  }

  lemma {:induction false} JoinStart(words: seq<string>, sp: char)
    requires words != [] && words[0] != []
    ensures Join([sp], words) != [] && Join([sp], words)[0] == words[0][0]
  {
  }

  /** A character in none of the parts and other than the separator is not in their join. */
  lemma {:induction false} JoinFree(parts: seq<string>, sep: char, c: char)
    requires c != sep && forall i :: 0 <= i < |parts| ==> c !in parts[i]
    ensures c !in Join([sep], parts)
    decreases |parts|
  {
    if |parts| > 1 {
      JoinFree(parts[1..], sep, c);
    }
  }

  /** Replacing a separator in a join of parts free of it joins them with the new one. */
  lemma {:induction false} ReplaceJoin(parts: seq<string>, a: char, b: char)
    requires forall i :: 0 <= i < |parts| ==> a !in parts[i]
    ensures Replace(Join([a], parts), [a], [b]) == Join([b], parts)
    decreases |parts|
  {
    if |parts| == 1 {
      NotContainedChar(parts[0], a);
      ReplaceAbsent(parts[0], [a], [b]);
    } else if |parts| > 1 {
      ReplaceJoin(parts[1..], a, b);
      ReplaceAfter(parts[0], a, b, Join([a], parts[1..]));
    }
  }

  /** A string without `c` does not contain `[c]`. */
  lemma {:induction false} NotContainedChar(s: string, c: char)
    requires c !in s
    ensures !Contains(s, [c])
    decreases |s|
  {
    if s != [] {
      assert s[0] != c && [c][0] == c;
      assert !StartsWith(s, [c]) by {
        if |s| >= 1 {
          assert s[..1] == [s[0]];
        }
      }
      NotContainedChar(s[1..], c);
    }
  }

  /** Replacing passes over a prefix without the pattern character. */
  lemma {:induction false} ReplaceAfter(w: string, a: char, b: char, rest: string)
    requires a !in w
    ensures Replace(w + [a] + rest, [a], [b]) == w + [b] + Replace(rest, [a], [b])
    decreases |w|
  {
    var s := w + [a] + rest;
    if w == [] {
      assert s[..1] == [a] && s[1..] == rest;
    } else {
      assert s[..1] == [w[0]];
      assert s[1..] == w[1..] + [a] + rest;
      ReplaceAfter(w[1..], a, b, rest);
    }
  }

  /** The decimal texts of some integers. */
  function Texts(ids: seq<int>): (ts: seq<string>)
    ensures |ts| == |ids| && forall i :: 0 <= i < |ids| ==> ts[i] == IntToString(ids[i])
  {
    seq(|ids|, i requires 0 <= i < |ids| => IntToString(ids[i]))
  }

  /** The texts of integers are words without a comma. */
  lemma TextsAreWords(ids: seq<int>)
    ensures forall i :: 0 <= i < |ids| ==> Word(Texts(ids)[i]) && ',' !in Texts(ids)[i]
  {
    forall i | 0 <= i < |ids| ensures Word(Texts(ids)[i]) && ',' !in Texts(ids)[i] {
      IntTextChars(ids[i]);
    }
  }

  /** The tokens of the texts of integers are those integers. */
  lemma TextsParse(ids: seq<int>)
    ensures Values(Texts(ids), ParseInt) == ids
  {
    var ts := Texts(ids);
    forall i | 0 <= i < |ts| ensures ParseInt(ts[i]) == Some(ids[i]) {
      IntRoundTrip(ids[i]);
    }
    ValuesAll(ts, ParseInt);
  }

  /** Ids written with spaces between them are read back in order. */
  lemma SpacedIdsRoundTrip(ids: seq<int>)
    requires ids != []
    ensures IntList(Some(Join(" ", Texts(ids)))) == ids
  {
    var ts := Texts(ids);
    var text := Join([' '], ts);
    TextsAreWords(ids);
    JoinFree(ts, ' ', ',');
    NotContainedChar(text, ',');
    ReplaceAbsent(text, [','], [' ']);
    SplitWsJoin(ts, ' ');
    assert IdTokens(text) == ts;
    TextsParse(ids);
  }

  /** Ids written with commas between them are read back in order. */
  lemma CommaIdsRoundTrip(ids: seq<int>)
    requires ids != []
    ensures IntList(Some(Join(",", Texts(ids)))) == ids
  {
    var ts := Texts(ids);
    TextsAreWords(ids);
    ReplaceJoin(ts, ',', ' ');
    SplitWsJoin(ts, ' ');
    assert IdTokens(Join([','], ts)) == ts;
    TextsParse(ids);
  }

  // -------------------------------------------------- _parse_channel_with_topic

  /** `raw.split(":")`. */
  function ChannelParts(raw: string): (parts: seq<string>)
    ensures |parts| >= 1
  {
    Split(raw, ":")
  }

  /**
   * `_parse_channel_with_topic`: `channel:topic` gives both numbers (later
   * parts are ignored), a plain value gives the channel alone, and anything
   * unparsable gives neither.
   */
  function ParseChannelWithTopic(raw: Option<string>): (ids: (Option<int>, Option<int>))
    ensures ids.1.Some? ==> ids.0.Some?
  {
    if raw.None? || raw.value == "" then (None, None)
    else if ':' in raw.value then BothIds(ChannelParts(raw.value))
    else
      var channel := ParseInt(raw.value);
      if channel.Some? then (channel, None) else (None, None)
  }

  /** `int(parts[0]), int(parts[1])`, or neither when one of them is missing or does not parse. */
  function BothIds(parts: seq<string>): (ids: (Option<int>, Option<int>))
    ensures ids.1.Some? <==> ids.0.Some?
    ensures ids.0.Some? ==> |parts| >= 2 && ParseInt(parts[0]) == ids.0 && ParseInt(parts[1]) == ids.1
  {
    if |parts| < 2 then (None, None)
    else
      var channel, topic := ParseInt(parts[0]), ParseInt(parts[1]);
      if channel.Some? && topic.Some? then (channel, topic) else (None, None)
  }

  /** Unset or empty gives neither id; without ':' the value is the channel alone; with ':' both parse or neither is given. */
  lemma ChannelWithTopicShape(raw: Option<string>)
    ensures raw.None? || raw.value == [] ==> ParseChannelWithTopic(raw) == (None, None)
    ensures raw.Some? && ':' !in raw.value ==> ParseChannelWithTopic(raw) == (ParseInt(raw.value), None)
    ensures raw.Some? && ':' in raw.value ==> ParseChannelWithTopic(raw).1.Some? || ParseChannelWithTopic(raw) == (None, None)
  {
  }

  /** A bare channel id is read back, with no topic. */
  lemma ChannelOnlyRoundTrip(channel: int)
    ensures ParseChannelWithTopic(Some(IntToString(channel))) == (Some(channel), None)
  {
    IntTextChars(channel);
    assert ':' !in IntToString(channel);
    IntRoundTrip(channel);
  }

  /** The first part of `a:b…` split at ':' is `a`, the rest is the split of `b…`. */
  lemma SplitAfter(a: string, c: char, b: string)
    requires c !in a
    ensures Split(a + [c] + b, [c]) == [a] + Split(b, [c])
  {
    FindAfterPrefix(a, c, b);
    Around(a, c, b);
    assert (a + [c] + b)[|a| + 1..] == b;
  }

  /** The first two parts of `c:t…` are `c` and `t`. */
  lemma JoinedParts(c: string, t: string, rest: string)
    requires ':' !in c && ':' !in t
    requires rest == [] || rest[0] == ':'
    ensures var parts := ChannelParts(c + [':'] + (t + rest)); |parts| >= 2 && parts[0] == c && parts[1] == t
  {
    SplitAfter(c, ':', t + rest);
    if rest == [] {
      FindSubAbsent(t, ':');
      assert t + rest == t;
    } else {
      assert t + [':'] + rest[1..] == t + rest;
      SplitAfter(t, ':', rest[1..]);
    }
  }

  /** Two texts that parse, joined by ':' with an optional further ':' part, give both ids. */
  lemma ChannelTopicParts(c: string, t: string, rest: string)
    requires ':' !in c && ':' !in t && ParseInt(c).Some? && ParseInt(t).Some?
    requires rest == [] || rest[0] == ':'
    ensures ParseChannelWithTopic(Some(c + [':'] + (t + rest))) == (ParseInt(c), ParseInt(t))
  {
    var s := c + [':'] + (t + rest);
    assert s[|c|] == ':';
    JoinedParts(c, t, rest);
    WithColon(s);
  }

  lemma WithColon(s: string)
    requires ':' in s
    ensures ParseChannelWithTopic(Some(s)) == BothIds(ChannelParts(s))
  {
  }

  /** `channel:topic` is read back, and anything after a further ':' is ignored. */
  lemma ChannelTopicRoundTrip(channel: int, topic: int, rest: string)
    requires rest == [] || rest[0] == ':'
    ensures ParseChannelWithTopic(Some(IntToString(channel) + ":" + IntToString(topic) + rest)) == (Some(channel), Some(topic))
  {
    var c, t := IntToString(channel), IntToString(topic);
    assert c + ":" + t + rest == c + [':'] + (t + rest);
    IntRoundTrip(channel);
    IntRoundTrip(topic);
    ChannelTopicParts(c, t, rest);
  }

  // ------------------------------------------------------ _normalize_webapp_url

  /** `_normalize_webapp_url`: the stripped value, or `None` when it is blank or unset. */
  function NormalizeWebappUrl(value: Option<string>): (url: Option<string>)
    ensures url.None? <==> value.None? || Strip(value.value) == []
    ensures url.Some? ==> url.value == Strip(value.value) && url.value != []
  {
    if value.None? then None
    else
      var cleaned := Strip(value.value);
      if cleaned == [] then None else Some(cleaned)
  }

  /** Normalising twice is normalising once. */
  lemma NormalizeIdempotent(value: Option<string>)
    ensures NormalizeWebappUrl(NormalizeWebappUrl(value)) == NormalizeWebappUrl(value)
  {
    if value.Some? {
      StripStrip(value.value);
    }
  }

  // ---------------------------------------------------------------- Settings

  /** `Settings`, with the fields the validators derive. */
  class Settings {
    var geminiApiKey: string
    var logChannelId: Option<string>
    var lkAdminChannelId: Option<string>
    var debugChannelId: Option<string>
    var adminUserIds: Option<string>
    var siteWebappUrl: Option<string>
    var parsedChannelId: Option<int>
    var parsedTopicId: Option<int>
    var parsedLkAdminChannelId: Option<int>
    var parsedLkAdminTopicId: Option<int>
    var parsedDebugChannelId: Option<int>
    var parsedDebugTopicId: Option<int>

    /** The parsed fields agree with the raw channel values. */
    ghost predicate Parsed()
      reads this
    {
      && (parsedChannelId, parsedTopicId) == ParseChannelWithTopic(logChannelId)
      && (parsedLkAdminChannelId, parsedLkAdminTopicId) == ParseChannelWithTopic(lkAdminChannelId)
      && (parsedDebugChannelId, parsedDebugTopicId) == ParseChannelWithTopic(debugChannelId)
    }

    /**
     * Loading: the URL's field validator runs first; then the model validator
     * (`parse_log_channel_and_topic`) sets each pair of parsed fields from its
     * raw channel value.
     */
    constructor (geminiApiKey: string, logChannelId: Option<string>, lkAdminChannelId: Option<string>,
                 debugChannelId: Option<string>, adminUserIds: Option<string>, siteWebappUrl: Option<string>)
      ensures this.geminiApiKey == geminiApiKey && this.adminUserIds == adminUserIds
      ensures this.logChannelId == logChannelId && this.lkAdminChannelId == lkAdminChannelId
      ensures this.debugChannelId == debugChannelId
      ensures this.siteWebappUrl == NormalizeWebappUrl(siteWebappUrl)
      ensures Parsed()
    {
      this.geminiApiKey := geminiApiKey;
      this.logChannelId := logChannelId;
      this.lkAdminChannelId := lkAdminChannelId;
      this.debugChannelId := debugChannelId;
      this.adminUserIds := adminUserIds;
      this.siteWebappUrl := NormalizeWebappUrl(siteWebappUrl);
      var ids := ParseChannelWithTopic(logChannelId);
      parsedChannelId, parsedTopicId := ids.0, ids.1;
      ids := ParseChannelWithTopic(lkAdminChannelId);
      parsedLkAdminChannelId, parsedLkAdminTopicId := ids.0, ids.1;
      ids := ParseChannelWithTopic(debugChannelId);
      parsedDebugChannelId, parsedDebugTopicId := ids.0, ids.1;
    }

    /** `admin_ids`: the set of the parsed admin ids. */
    method AdminIds() returns (ids: set<int>)
      ensures forall x :: x in ids <==> x in IntList(adminUserIds)
    {
      var list := ParseIntList(adminUserIds);
      ids := set x | x in list;
    }
  }
}
