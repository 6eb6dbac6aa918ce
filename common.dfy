/**
 * The shared senders of the handlers (handlers/common.py): the log report of
 * an added domain, the payment request to the admins with its two buttons,
 * and the debug log. Each one posts only when its chat is configured, and in
 * a topic only when one is set. The Russian and emoji wording of the posts is
 * not part of the model; a post is the record of the values it shows.
 */
module Common {
  import opened Wrappers
  import opened PyStr
  import Telegram

  // --------------------------------------------------------------- where to post

  /** A post to `chatId`, with the `message_thread_id` keyword when `threadId` is set. */
  datatype Post<T> = Post(chatId: int, threadId: Option<int>, body: T)

  /**
   * The `kwargs` a sender builds: nothing when the chat is unset (`if not
   * settings.<chat>: return`), the configured chat otherwise, and the thread
   * only when the topic is truthy.
   */
  function PostTo<T>(chat: Option<int>, topic: Option<int>, body: T): (p: Option<Post<T>>)
    ensures p.Some? <==> Telegram.IsSet(chat)
    ensures p.Some? ==> p.value.chatId == chat.value && p.value.body == body
    ensures p.Some? ==> (p.value.threadId.Some? <==> Telegram.IsSet(topic))
    ensures p.Some? && p.value.threadId.Some? ==> p.value.threadId == topic
  {
    if Telegram.IsSet(chat) then Some(Post(chat.value, Telegram.ThreadArgument(topic), body)) else None
  }

  /** The Telegram user a post is about. */
  datatype User = User(id: int, username: Option<string>, fullName: string)

  /** `f"@{user.username}" if user.username else user.full_name`. */
  function Mention(user: User): (m: string)
    ensures user.username.Some? && user.username.value != [] ==> m == "@" + user.username.value
    ensures !(user.username.Some? && user.username.value != []) ==> m == user.fullName
  {
    if user.username.Some? && user.username.value != [] then "@" + user.username.value else user.fullName
  }

  // ---------------------------------------------------------------- escape_html

  const Amp := "&amp;"
  const Lt := "&lt;"
  const Gt := "&gt;"

  /** `escape_html`: `&` first, then `<` and `>`. */
  function EscapeHtml(text: string): string {
    Replace(Replace(Replace(text, "&", Amp), "<", Lt), ">", Gt)
  }

  /** The entity a single character becomes. */
  function EscapeChar(c: char): string {
    if c == '&' then Amp else if c == '<' then Lt else if c == '>' then Gt else [c]
  }

  /** Character-by-character escaping, the reference for the replace chain. */
  function Escaped(text: string): string
    decreases |text|
  {
    if text == [] then [] else EscapeChar(text[0]) + Escaped(text[1..])
  }

  /** The entities back to the characters they stand for. */
  function Unescape(s: string): string
    decreases |s|
  {
    if s == [] then []
    else if StartsWith(s, Amp) then "&" + Unescape(s[|Amp|..])
    else if StartsWith(s, Lt) then "<" + Unescape(s[|Lt|..])
    else if StartsWith(s, Gt) then ">" + Unescape(s[|Gt|..])
    else [s[0]] + Unescape(s[1..])
  }

  lemma ReplaceCharCons(s: string, c: char, rep: string)
    requires s != []
    ensures Replace(s, [c], rep) == (if s[0] == c then rep else [s[0]]) + Replace(s[1..], [c], rep)
  {
    assert s[..1] == [s[0]];
  }

  /** Replacing a single character works on each part of a concatenation separately. */
  lemma {:induction false} ReplaceCharConcat(a: string, b: string, c: char, rep: string)
    ensures Replace(a + b, [c], rep) == Replace(a, [c], rep) + Replace(b, [c], rep)
    decreases |a|
  {
    if a == [] {
      assert a + b == b;
    } else {
      ReplaceCharCons(a + b, c, rep);
      ReplaceCharCons(a, c, rep);
      assert (a + b)[0] == a[0];
      assert (a + b)[1..] == a[1..] + b;
      ReplaceCharConcat(a[1..], b, c, rep);
    }
  }

  lemma EscapeHtmlConcat(a: string, b: string)
    ensures EscapeHtml(a + b) == EscapeHtml(a) + EscapeHtml(b)
  {
    ReplaceCharConcat(a, b, '&', Amp);
    var a1, b1 := Replace(a, "&", Amp), Replace(b, "&", Amp);
    ReplaceCharConcat(a1, b1, '<', Lt);
    var a2, b2 := Replace(a1, "<", Lt), Replace(b1, "<", Lt);
    ReplaceCharConcat(a2, b2, '>', Gt);
  }

  lemma ReplaceOne(c: char, d: char, rep: string)
    ensures Replace([c], [d], rep) == if c == d then rep else [c]
  {
    ReplaceCharCons([c], d, rep);
    assert [c][1..] == [];
  }

  lemma EntityKept(e: string, c: char, rep: string)
    requires c !in e
    ensures Replace(e, [c], rep) == e
  {
    NotContained(e, [c], 0);
    ReplaceAbsent(e, [c], rep);
  }

  lemma EscapeHtmlChar(c: char)
    ensures EscapeHtml([c]) == EscapeChar(c)
  {
    ReplaceOne(c, '&', Amp);
    if c == '&' {
      EntityKept(Amp, '<', Lt);
      EntityKept(Amp, '>', Gt);
    } else {
      ReplaceOne(c, '<', Lt);
      if c == '<' {
        EntityKept(Lt, '>', Gt);
      } else {
        ReplaceOne(c, '>', Gt);
      }
    }
  }

  /** The replace chain escapes each character on its own. */
  lemma {:induction false} EscapeHtmlIsEscaped(text: string)
    ensures EscapeHtml(text) == Escaped(text)
    decreases |text|
  {
    if text == [] {
      assert Replace([], "&", Amp) == [];
      assert Replace([], "<", Lt) == [];
      assert Replace([], ">", Gt) == [];
    } else {
      assert text == [text[0]] + text[1..];
      EscapeHtmlConcat([text[0]], text[1..]);
      EscapeHtmlChar(text[0]);
      EscapeHtmlIsEscaped(text[1..]);
    }
  }

  lemma {:induction false} EscapedHasNoAngles(text: string)
    ensures '<' !in Escaped(text) && '>' !in Escaped(text)
    decreases |text|
  {
    if text != [] {
      EscapedHasNoAngles(text[1..]);
    }
  }

  lemma UnescapeAmp(rest: string)
    ensures Unescape(Amp + rest) == "&" + Unescape(rest)
  {
    var s := Amp + rest;
    assert s[..|Amp|] == Amp && s[|Amp|..] == rest;
  }

  lemma UnescapeLt(rest: string)
    ensures Unescape(Lt + rest) == "<" + Unescape(rest)
  {
    var s := Lt + rest;
    assert s[1] == 'l' != Amp[1];
    assert !StartsWith(s, Amp);
    assert s[..|Lt|] == Lt && s[|Lt|..] == rest;
  }

  lemma UnescapeGt(rest: string)
    ensures Unescape(Gt + rest) == ">" + Unescape(rest)
  {
    var s := Gt + rest;
    assert s[1] == 'g' != Amp[1] && s[1] != Lt[1];
    assert !StartsWith(s, Amp) && !StartsWith(s, Lt);
    assert s[..|Gt|] == Gt && s[|Gt|..] == rest;
  }

  lemma UnescapePlain(c: char, rest: string)
    requires c != '&'
    ensures Unescape([c] + rest) == [c] + Unescape(rest)
  {
    var s := [c] + rest;
    assert s[0] == c && Amp[0] == '&' && Lt[0] == '&' && Gt[0] == '&';
    assert !StartsWith(s, Amp) && !StartsWith(s, Lt) && !StartsWith(s, Gt);
    assert s[1..] == rest;
  }

  /** Unescaping reads one escaped character back and goes on with the rest. */
  lemma UnescapeStep(c: char, rest: string)
    ensures Unescape(EscapeChar(c) + rest) == [c] + Unescape(rest)
  {
    if c == '&' {
      UnescapeAmp(rest);
    } else if c == '<' {
      UnescapeLt(rest);
    } else if c == '>' {
      UnescapeGt(rest);
    } else {
      UnescapePlain(c, rest);
    }
  }

  lemma {:induction false} EscapedRoundTrip(text: string)
    ensures Unescape(Escaped(text)) == text
    decreases |text|
  {
    if text != [] {
      var rest := Escaped(text[1..]);
      assert Escaped(text) == EscapeChar(text[0]) + rest;
      UnescapeStep(text[0], rest);
      EscapedRoundTrip(text[1..]);
      assert text == [text[0]] + text[1..];
    }
  }

  /** What `escape_html` promises for the HTML post: no tag can start inside an escaped value. */
  lemma EscapeHtmlHasNoAngles(text: string)
    ensures '<' !in EscapeHtml(text) && '>' !in EscapeHtml(text)
  {
    EscapeHtmlIsEscaped(text);
    EscapedHasNoAngles(text);
  }

  /** Escaping `&` first loses nothing: the entities give the text back. */
  lemma EscapeHtmlRoundTrip(text: string)
    ensures Unescape(EscapeHtml(text)) == text
  {
    EscapeHtmlIsEscaped(text);
    EscapedRoundTrip(text);
  }

  // ---------------------------------------------------------- send_log_report

  const HtmlMode := "HTML"

  /**
   * The values the log report shows: who added the domain, the escaped domain
   * and category, and the link to the JSON file, sent with `parse_mode="HTML"`.
   */
  datatype LogReport = LogReport(mention: string, userId: int, domain: string, category: string,
                                 htmlUrl: string, parseMode: string)

  function SendLogReport(channel: Option<int>, topic: Option<int>, user: User, domain: string,
                         category: string, htmlUrl: string): (p: Option<Post<LogReport>>)
    ensures p.Some? <==> Telegram.IsSet(channel)
    ensures p.Some? ==> p.value.body.domain == EscapeHtml(domain) && p.value.body.category == EscapeHtml(category)
  {
    PostTo(channel, topic, LogReport(Mention(user), user.id, EscapeHtml(domain), EscapeHtml(category), htmlUrl, HtmlMode))
  }

  /** The report's domain and category are safe inside `<code>` and read back as given. */
  lemma LogReportEscapes(channel: Option<int>, topic: Option<int>, user: User, domain: string,
                         category: string, htmlUrl: string)
    requires Telegram.IsSet(channel)
    ensures var body := SendLogReport(channel, topic, user, domain, category, htmlUrl).value.body;
      && '<' !in body.domain && '<' !in body.category
      && Unescape(body.domain) == domain && Unescape(body.category) == category
  {
    EscapeHtmlHasNoAngles(domain);
    EscapeHtmlHasNoAngles(category);
    EscapeHtmlRoundTrip(domain);
    EscapeHtmlRoundTrip(category);
  }

  // ------------------------------------------------------- send_payment_request

  const CallbackPrefix := "admin_payment"
  const ConfirmAction := "confirm"
  const DeclineAction := "decline"

  /** `f"admin_payment:{action}:{payment_id}:{user.id}"`. */
  function PaymentCallbackData(action: string, paymentId: int, userId: int): string {
    CallbackPrefix + ":" + action + ":" + IntToString(paymentId) + ":" + IntToString(userId)
  }

  /**
   * The payment request: who asks and which payment, with the confirm and the
   * decline button, in that order.
   */
  datatype PaymentRequest = PaymentRequest(mention: string, userId: int, paymentId: int, buttons: seq<string>)

  function SendPaymentRequest(channel: Option<int>, topic: Option<int>, user: User, paymentId: int)
    : (p: Option<Post<PaymentRequest>>)
    ensures p.Some? <==> Telegram.IsSet(channel)
    ensures p.Some? ==> p.value.body.buttons == [PaymentCallbackData(ConfirmAction, paymentId, user.id),
                                                 PaymentCallbackData(DeclineAction, paymentId, user.id)]
  {
    var buttons := [PaymentCallbackData(ConfirmAction, paymentId, user.id), PaymentCallbackData(DeclineAction, paymentId, user.id)];
    PostTo(channel, topic, PaymentRequest(Mention(user), user.id, paymentId, buttons))
  }

  // ------------------------------------------------------------ send_debug_log

  const DebugLimit := 200
  const Ellipsis := "..."

  /** `message_text[:200]`, with `"..."` added when the text was longer. */
  function DebugExcerpt(text: string): (r: string)
    ensures |text| <= DebugLimit ==> r == text
    ensures |text| > DebugLimit ==> r == text[..DebugLimit] + Ellipsis && |r| == DebugLimit + |Ellipsis|
  {
    if |text| > DebugLimit then text[..DebugLimit] + Ellipsis else text
  }

  const DefaultMessageType := "text"

  /** The debug post: the upper-cased message type, the sender and the excerpt. */
  datatype DebugLog = DebugLog(messageType: string, mention: string, userId: int, excerpt: string)

  function SendDebugLog(channel: Option<int>, topic: Option<int>, user: User, text: string, messageType: string)
    : (p: Option<Post<DebugLog>>)
    ensures p.Some? <==> Telegram.IsSet(channel)
    ensures p.Some? ==> p.value.body.excerpt == DebugExcerpt(text) && p.value.body.messageType == Upper(messageType)
  {
    PostTo(channel, topic, DebugLog(Upper(messageType), Mention(user), user.id, DebugExcerpt(text)))
  }
}
