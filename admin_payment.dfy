/**
 * The admins' answer to a payment request (handlers/admin_payment.py): the
 * callback data of the confirm/decline button is parsed, the collector API is
 * asked to confirm or decline, and the admin message and the user are told
 * the outcome. The collector call is a parameter; what the handler does is
 * returned as the record of its effects.
 */
module AdminPayment {
  import opened Wrappers
  import opened PyStr
  import opened Exceptions
  import opened Json
  import Common

  const Confirm := Common.ConfirmAction
  const Decline := Common.DeclineAction
  const AlreadyPaid := "already_paid"
  const Cancelled := "cancelled"
  const DefaultResult := "ok"

  // ------------------------------------------------------------ result tables

  /** Python's `result == text` for a `meta.result` taken from the JSON reply. */
  predicate Is(result: JValue, text: string) {
    result == JStr(text)
  }

  /** What the reply says happened to the payment, as the two tables read it. */
  datatype Verdict = WasPaid | WasCancelled | Confirmed | Declined

  /** `already_paid` and `cancelled` win over the action; otherwise `confirm` confirms and anything else declines. */
  function VerdictOf(action: string, result: JValue): Verdict {
    if Is(result, AlreadyPaid) then WasPaid
    else if Is(result, Cancelled) then WasCancelled
    else if action == Confirm then Confirmed
    else Declined
  }

  const WasPaidLine := "ℹ️ Уже подтверждено ранее."
  const WasCancelledLine := "ℹ️ Платеж отменен."
  const ConfirmedLine := "✅ Подтверждено админом."
  const DeclinedLine := "❌ Отклонено админом."

  function StatusText(v: Verdict): string {
    match v
    case WasPaid => WasPaidLine
    case WasCancelled => WasCancelledLine
    case Confirmed => ConfirmedLine
    case Declined => DeclinedLine
  }

  /** `_build_admin_status_line`. */
  function StatusLine(action: string, result: JValue): string {
    StatusText(VerdictOf(action, result))
  }

  const WasPaidHead := "Платеж "
  const WasPaidTail := " уже подтвержден."
  const WasCancelledHead := "Платеж "
  const WasCancelledTail := " отменен."
  const ConfirmedHead := "Оплата по платежу "
  const ConfirmedTail := " подтверждена. Спасибо!"
  const DeclinedHead := "Оплата по платежу "
  const DeclinedTail := " отклонена. " + "Если уже оплатил — напиши админу или приложи чек."

  /** The text before `#{payment_id}` in the user message. */
  function NoticeHead(v: Verdict): string {
    match v
    case WasPaid => WasPaidHead
    case WasCancelled => WasCancelledHead
    case Confirmed => ConfirmedHead
    case Declined => DeclinedHead
  }

  /** The text after `#{payment_id}` in the user message. */
  function NoticeTail(v: Verdict): string {
    match v
    case WasPaid => WasPaidTail
    case WasCancelled => WasCancelledTail
    case Confirmed => ConfirmedTail
    case Declined => DeclinedTail
  }

  function NotificationText(v: Verdict, paymentId: int): string {
    NoticeHead(v) + "#" + IntToString(paymentId) + NoticeTail(v)
  }

  /** `_build_user_notification`. */
  function UserNotification(action: string, paymentId: int, result: JValue): string {
    NotificationText(VerdictOf(action, result), paymentId)
  }

  /** A result of `already_paid` or `cancelled` decides both texts whatever the action was. */
  lemma ResultOverridesAction(a1: string, a2: string, paymentId: int, result: JValue)
    requires Is(result, AlreadyPaid) || Is(result, Cancelled)
    ensures StatusLine(a1, result) == StatusLine(a2, result)
    ensures UserNotification(a1, paymentId, result) == UserNotification(a2, paymentId, result)
    ensures StatusLine(a1, result) == (if Is(result, AlreadyPaid) then WasPaidLine else WasCancelledLine)
  {
    assert AlreadyPaid[0] != Cancelled[0];
  }

  /** Any other result, the default `ok` among them, leaves the choice to the action. */
  lemma ActionDecides(action: string, paymentId: int, result: JValue)
    requires !Is(result, AlreadyPaid) && !Is(result, Cancelled)
    ensures StatusLine(action, result) == (if action == Confirm then ConfirmedLine else DeclinedLine)
    ensures action == Confirm ==>
      UserNotification(action, paymentId, result) == ConfirmedHead + "#" + IntToString(paymentId) + ConfirmedTail
  {
  }

  /** The four status lines differ, so the admin message tells the verdicts apart. */
  lemma StatusTextInjective(v: Verdict, w: Verdict)
    requires StatusText(v) == StatusText(w)
    ensures v == w
  {
    assert WasPaidLine[3] != WasCancelledLine[3];
    assert WasPaidLine[0] != ConfirmedLine[0] && WasPaidLine[0] != DeclinedLine[0];
    assert ConfirmedLine[0] != DeclinedLine[0];
  }

  /** Every user message names the payment as `#<id>`. */
  lemma NotificationNamesPayment(v: Verdict, paymentId: int)
    ensures Contains(NotificationText(v, paymentId), "#" + IntToString(paymentId))
  {
    var head, id, tail := NoticeHead(v), "#" + IntToString(paymentId), NoticeTail(v);
    ContainsInfix(head, id, tail);
    assert head + "#" + IntToString(paymentId) + tail == head + id + tail;
  }

  // ------------------------------------------------------ _update_admin_message

  const Gap := "\n\n"

  /**
   * The new text of the admin message, or `None` when no edit is made: the
   * status line already shown is not added again; otherwise it goes after a
   * blank line, or alone in an empty message.
   */
  function EditedText(baseText: string, line: string): (edit: Option<string>)
    ensures edit.None? <==> Contains(baseText, line)
  {
    if Contains(baseText, line) then None
    else if baseText != [] then Some(baseText + Gap + line)
    else Some(line)
  }

  /** An edit keeps the old text in front and ends with the status line. */
  lemma EditAppends(baseText: string, line: string)
    requires EditedText(baseText, line).Some?
    ensures var text := EditedText(baseText, line).value;
      && StartsWith(text, baseText) && EndsWith(text, line) && Contains(text, line)
  {
    var text := EditedText(baseText, line).value;
    if baseText != [] {
      assert text[..|baseText|] == baseText;
      assert text[|text| - |line|..] == line;
      ContainsInfix(baseText + Gap, line, []);
      assert baseText + Gap + line + [] == text;
    } else {
      assert text == line;
      ContainsInfix([], line, []);
      assert [] + line + [] == line;
    }
  }

  /** Pressing the button again changes nothing: the edited text already shows the line. */
  lemma EditIdempotent(baseText: string, line: string)
    requires EditedText(baseText, line).Some?
    ensures EditedText(EditedText(baseText, line).value, line).None?
  {
    EditAppends(baseText, line);
  }

  /** The message a callback query carries: `None` when there is none, then its `text`. */
  type AdminMessage = Option<Option<string>>

  /** `_update_admin_message`: no message, no edit; a message without text counts as empty. */
  function UpdateAdminMessage(message: AdminMessage, line: string): (edit: Option<string>)
    ensures message.None? ==> edit.None?
    ensures message.Some? ==> edit == EditedText(message.value.GetOr(""), line)
  {
    if message.None? then None else EditedText(message.value.GetOr(""), line)
  }

  // ------------------------------------------------------------ the callback data

  /** `data.split(":")`. */
  function CallbackParts(data: string): (parts: seq<string>)
    ensures |parts| >= 1 && forall k :: 0 <= k < |parts| ==> ':' !in parts[k]
  {
    Split(data, ":")
  }

  /** What the data holds: an action with the payment and the user, or nothing usable. */
  datatype Callback = Malformed | Parsed(action: string, paymentId: int, userId: int)

  /**
   * Fewer than four parts, or a payment or user id that `int()` refuses, is
   * malformed; the first part (the `admin_payment` prefix) is not looked at.
   */
  function ParseCallback(data: string): (c: Callback)
    ensures c.Parsed? ==> ':' !in c.action
    ensures c.Malformed? <==> |CallbackParts(data)| < 4
                              || ParseInt(CallbackParts(data)[2]).None? || ParseInt(CallbackParts(data)[3]).None?
  {
    var parts := CallbackParts(data);
    if |parts| < 4 then Malformed
    else
      var paymentId, userId := ParseInt(parts[2]), ParseInt(parts[3]);
      if paymentId.None? || userId.None? then Malformed
      else Parsed(parts[1], paymentId.value, userId.value)
  }

  /** The parts of the button data, joined by `:`. */
  function ButtonParts(action: string, paymentId: int, userId: int): seq<string> {
    [Common.CallbackPrefix, action, IntToString(paymentId), IntToString(userId)]
  }

  /** Four parts joined by `:`, written out. */
  lemma JoinFour(a: string, b: string, c: string, d: string)
    ensures Join(":", [a, b, c, d]) == a + ":" + b + ":" + c + ":" + d
  {
    var parts := [a, b, c, d];
    assert parts[1..] == [b, c, d];
    assert parts[1..][1..] == [c, d];
    assert parts[1..][1..][1..] == [d];
    assert Join(":", [c, d]) == c + ":" + d;
    assert Join(":", [b, c, d]) == b + ":" + (c + ":" + d);
  }

  lemma ButtonIsJoin(action: string, paymentId: int, userId: int)
    ensures Common.PaymentCallbackData(action, paymentId, userId) == Join(":", ButtonParts(action, paymentId, userId))
  {
    JoinFour(Common.CallbackPrefix, action, IntToString(paymentId), IntToString(userId));
  }

  lemma PrefixHasNoColon()
    ensures ':' !in Common.CallbackPrefix
  {
    forall k | 0 <= k < |Common.CallbackPrefix|
      ensures Common.CallbackPrefix[k] != ':'
    {
    }
  }

  /**
   * The data a payment button carries parses back to its action, payment and
   * user, for any action without a `:`.
   */
  lemma ButtonDataRoundTrip(action: string, paymentId: int, userId: int)
    requires ':' !in action
    ensures ParseCallback(Common.PaymentCallbackData(action, paymentId, userId)) == Parsed(action, paymentId, userId)
  {
    var parts := ButtonParts(action, paymentId, userId);
    ButtonIsJoin(action, paymentId, userId);
    PrefixHasNoColon();
    SplitJoin(parts, ':');
    IntRoundTrip(paymentId);
    IntRoundTrip(userId);
  }

  const Missing := "—"

  /** Data whose payment part `int()` refuses is malformed. */
  lemma NonIntIdIsMalformed(action: string, idText: string, userId: int)
    requires ':' !in action && ':' !in idText && ParseInt(idText).None?
    ensures ParseCallback(Common.CallbackPrefix + ":" + action + ":" + idText + ":" + IntToString(userId)).Malformed?
  {
    var parts := [Common.CallbackPrefix, action, idText, IntToString(userId)];
    JoinFour(Common.CallbackPrefix, action, idText, IntToString(userId));
    PrefixHasNoColon();
    SplitJoin(parts, ':');
  }

  /** A text that does not end in a digit once stripped is no integer. */
  lemma NoFinalDigit(s: string)
    requires s != [] && !IsSpace(s[0]) && !IsSpace(s[|s| - 1]) && !IsDigit(s[|s| - 1])
    ensures ParseInt(s).None?
  {
    StripNoSpace(s);
  }

  lemma MissingIsNotInt()
    ensures ':' !in Missing && ParseInt(Missing).None?
  {
    NoFinalDigit(Missing);
  }

  /** A payment request without an id shows `—`, which the handler refuses. */
  lemma MissingIdIsMalformed(action: string, userId: int)
    requires ':' !in action
    ensures ParseCallback(Common.CallbackPrefix + ":" + action + ":" + Missing + ":" + IntToString(userId)).Malformed?
  {
    MissingIsNotInt();
    NonIntIdIsMalformed(action, Missing, userId);
  }

  // ---------------------------------------------------------------- the handler

  /** The collector request the handler makes. */
  datatype Request = ConfirmPayment(paymentId: int, adminId: int) | DeclinePayment(paymentId: int, adminId: int)

  /** The collector's JSON reply to a request, or the exception it raises. */
  type Collector = Request -> Result<JValue, Error>

  const BaseUrlUnset := "SITE_API_BASE_URL is not configured"
  const ApiKeyUnset := "SITE_API_KEY is not configured"

  /**
   * `_get_api_client()`: `CollectorApiClient(settings.site_api_base_url,
   * settings.site_api_key)` refuses an unset or empty base URL, then an unset
   * or empty key, with a `CollectorAPIError`. The client is cached once built,
   * and the settings do not change, so every call has the same outcome.
   */
  function ApiClient(baseUrl: Option<string>, apiKey: Option<string>, collector: Collector): (r: Result<Collector, Error>)
    ensures r.Ok? <==> baseUrl.GetOr("") != [] && apiKey.GetOr("") != []
    ensures r.Ok? ==> r.value == collector
    ensures baseUrl.GetOr("") == [] ==> r == Err(CollectorAPIError(BaseUrlUnset))
    ensures baseUrl.GetOr("") != [] && apiKey.GetOr("") == [] ==> r == Err(CollectorAPIError(ApiKeyUnset))
  {
    if baseUrl.GetOr("") == [] then Err(CollectorAPIError(BaseUrlUnset))
    else if apiKey.GetOr("") == [] then Err(CollectorAPIError(ApiKeyUnset))
    else Ok(collector)
  }

  /** The reply to the callback query: `query.answer(text, show_alert=...)`. */
  datatype Answer = Answer(text: Option<string>, alert: bool)

  /** `context.bot.send_message(chat_id=user_id, text=...)`; a failure of it is only logged. */
  datatype Notice = Notice(chatId: int, text: string)

  /**
   * What one callback does, in order: the collector request, the edit of the
   * admin message, the notice to the user and the answer to the query; or the
   * exception that escapes the handler.
   */
  datatype Effects = Effects(request: Option<Request>, edit: Option<string>, notice: Option<Notice>,
                             answer: Option<Answer>, raised: Option<Error>)

  const NoEffects := Effects(None, None, None, None, None)

  function Answered(text: Option<string>, alert: bool): Effects {
    Effects(None, None, None, Some(Answer(text, alert)), None)
  }

  const InvalidData := "Некорректные данные"
  const UnknownAdmin := "Не удалось определить администратора"
  const ServiceError := "Ошибка сервиса"
  const Done := "Готово"
  const MetaKey := "meta"
  const ResultKey := "result"

  /** The value of `key` in decoded JSON members: the last one, as `json.loads` keeps it. */
  function Member(members: seq<(string, JValue)>, key: string): (v: Option<JValue>)
    ensures v.Some? ==> exists i :: 0 <= i < |members| && members[i] == (key, v.value)
    decreases |members|
  {
    if members == [] then None
    else if members[|members| - 1].0 == key then Some(members[|members| - 1].1)
    else Member(members[..|members| - 1], key)
  }

  /** The name of the Python type `json.loads` gives a JSON value. */
  function TypeName(v: JValue): string {
    match v
    case JInt(_) => "int"
    case JStr(_) => "str"
    case JArr(_) => "list"
    case JObj(_) => "dict"
  }

  /**
   * `meta = response.get("meta", {}) if isinstance(response, dict) else {}` and
   * `meta.get("result", "ok")`; a `meta` that is not a dict has no `get`, and
   * the `AttributeError` naming its type escapes.
   */
  function MetaResult(response: JValue): (r: Result<JValue, Error>)
    ensures !response.JObj? ==> r == Ok(JStr(DefaultResult))
    ensures response.JObj? && Member(response.members, MetaKey).None? ==> r == Ok(JStr(DefaultResult))
    ensures r.Err? <==> response.JObj? && Member(response.members, MetaKey).Some?
                        && !Member(response.members, MetaKey).value.JObj?
    ensures r.Err? ==> r.error == OtherError("'" + TypeName(Member(response.members, MetaKey).value)
                                             + "' object has no attribute 'get'")
    ensures r.Ok? && response.JObj? && Member(response.members, MetaKey).Some? ==>
      var meta := Member(response.members, MetaKey).value.members;
      r.value == if Member(meta, ResultKey).Some? then Member(meta, ResultKey).value else JStr(DefaultResult)
  {
    if !response.JObj? then Ok(JStr(DefaultResult))
    else
      match Member(response.members, MetaKey)
      case None => Ok(JStr(DefaultResult))
      case Some(meta) =>
        if meta.JObj? then Ok(Member(meta.members, ResultKey).GetOr(JStr(DefaultResult)))
        else Err(OtherError("'" + TypeName(meta) + "' object has no attribute 'get'"))
  }

  /** The request for a parsed callback with a known action. */
  function RequestFor(c: Callback, adminId: int): (r: Request)
    requires c.Parsed? && (c.action == Confirm || c.action == Decline)
    ensures r.paymentId == c.paymentId && r.adminId == adminId
    ensures r.ConfirmPayment? <==> c.action == Confirm
  {
    if c.action == Confirm then ConfirmPayment(c.paymentId, adminId) else DeclinePayment(c.paymentId, adminId)
  }

  /** The last steps once the collector has replied: edit, notice, and `Готово`. */
  function Finish(c: Callback, request: Request, response: JValue, message: AdminMessage): (e: Effects)
    requires c.Parsed?
    ensures e.request == Some(request)
    ensures e.notice.Some? ==> e.notice.value.chatId == c.userId
    ensures e.notice.Some? <==> MetaResult(response).Ok?
  {
    match MetaResult(response)
    case Err(err) => Effects(Some(request), None, None, None, Some(err))
    case Ok(result) =>
      Effects(Some(request), UpdateAdminMessage(message, StatusLine(c.action, result)),
              Some(Notice(c.userId, UserNotification(c.action, c.paymentId, result))),
              Some(Answer(Some(Done), false)), None)
  }

  /**
   * `handle_admin_payment_callback` for a callback query with `data` and the
   * admin `message` (`query` itself absent gives no effects), pressed by the
   * user `adminId` (`None` when the update has no user), with `client` the
   * outcome of `_get_api_client()`. The client is built before the `try`, so
   * its error escapes with no request made and the query left unanswered.
   */
  function HandleCallback(query: Option<(Option<string>, AdminMessage)>, adminId: Option<int>,
                          client: Result<Collector, Error>): (e: Effects)
    ensures query.None? ==> e == NoEffects
    ensures query.Some? ==> var c := ParseCallback(query.value.0.GetOr(""));
      && (c.Malformed? ==> e == Answered(Some(InvalidData), true))
      && (c.Parsed? && c.action != Confirm && c.action != Decline ==> e == Answered(None, false))
      && (c.Parsed? && (c.action == Confirm || c.action == Decline) && adminId.None? ==> e == Answered(Some(UnknownAdmin), true))
      && (c.Parsed? && (c.action == Confirm || c.action == Decline) && adminId.Some? && client.Err? ==>
            e == Effects(None, None, None, None, Some(client.error)))
      && (e.request.Some? <==> c.Parsed? && (c.action == Confirm || c.action == Decline) && adminId.Some? && client.Ok?)
      && (e.request.Some? ==> e.request.value == RequestFor(c, adminId.value))
      && (e.notice.Some? ==> c.Parsed? && e.request.Some? && e.notice.value.chatId == c.userId)
  {
    if query.None? then NoEffects
    else
      var c := ParseCallback(query.value.0.GetOr(""));
      if c.Malformed? then Answered(Some(InvalidData), true)
      else if c.action != Confirm && c.action != Decline then Answered(None, false)
      else if adminId.None? then Answered(Some(UnknownAdmin), true)
      else if client.Err? then Effects(None, None, None, None, Some(client.error))
      else
        Submit(c, RequestFor(c, adminId.value), query.value.1, client.value)
  }

  /**
   * The `try` around the collector call, with the client built: a collector
   * error is answered with an alert, any other escapes; a reply is finished.
   */
  function Submit(c: Callback, request: Request, message: AdminMessage, collector: Collector): (e: Effects)
    requires c.Parsed?
    ensures e.request == Some(request)
    ensures e.notice.Some? ==> e.notice.value.chatId == c.userId
    ensures collector(request).Err? ==> e.notice.None? && e.edit.None?
  {
    match collector(request)
    case Err(err) =>
      if err.CollectorAPIError? then Effects(Some(request), None, None, Some(Answer(Some(ServiceError), true)), None)
      else Effects(Some(request), None, None, None, Some(err))
    case Ok(response) => Finish(c, request, response, message)
  }

  /** A collector error is answered with an alert; the admin message and the user are left alone. */
  lemma ServiceErrorTouchesNothing(data: string, message: AdminMessage, adminId: int, collector: Collector)
    requires ParseCallback(data).Parsed?
    requires ParseCallback(data).action == Confirm || ParseCallback(data).action == Decline
    requires collector(RequestFor(ParseCallback(data), adminId)).Err?
    requires collector(RequestFor(ParseCallback(data), adminId)).error.CollectorAPIError?
    ensures var e := HandleCallback(Some((Some(data), message)), Some(adminId), Ok(collector));
      && e.answer == Some(Answer(Some(ServiceError), true)) && e.edit.None? && e.notice.None? && e.raised.None?
  {
  }

  /**
   * A confirmed or declined payment: the user named in the data is told, the
   * admin message shows the status line, and the query is answered `Готово`;
   * a reply without `meta.result` counts as `ok`.
   */
  lemma SuccessNotifiesUser(data: string, message: AdminMessage, adminId: int, collector: Collector)
    requires ParseCallback(data).Parsed?
    requires ParseCallback(data).action == Confirm || ParseCallback(data).action == Decline
    requires collector(RequestFor(ParseCallback(data), adminId)).Ok?
    requires MetaResult(collector(RequestFor(ParseCallback(data), adminId)).value).Ok?
    ensures var c := ParseCallback(data);
      var result := MetaResult(collector(RequestFor(c, adminId)).value).value;
      var e := HandleCallback(Some((Some(data), message)), Some(adminId), Ok(collector));
      && e.notice == Some(Notice(c.userId, UserNotification(c.action, c.paymentId, result)))
      && e.edit == UpdateAdminMessage(message, StatusLine(c.action, result))
      && e.answer == Some(Answer(Some(Done), false)) && e.raised.None?
  {
  }

  /**
   * An unconfigured collector: the confirm or decline button makes no request,
   * leaves the message and the user alone, gets no answer, and the
   * `CollectorAPIError` escapes the handler.
   */
  lemma UnconfiguredClientRaises(data: string, message: AdminMessage, adminId: int,
                                 baseUrl: Option<string>, apiKey: Option<string>, collector: Collector)
    requires ParseCallback(data).Parsed?
    requires ParseCallback(data).action == Confirm || ParseCallback(data).action == Decline
    requires baseUrl.GetOr("") == [] || apiKey.GetOr("") == []
    ensures var e := HandleCallback(Some((Some(data), message)), Some(adminId), ApiClient(baseUrl, apiKey, collector));
      && e.request.None? && e.edit.None? && e.notice.None? && e.answer.None?
      && e.raised == Some(CollectorAPIError(if baseUrl.GetOr("") == [] then BaseUrlUnset else ApiKeyUnset))
  {
  }

  /** A reply without `meta`, or whose `meta` has no `result`, reads as `ok`. */
  lemma MissingResultIsOk(members: seq<(string, JValue)>, meta: seq<(string, JValue)>)
    requires Member(members, MetaKey).None? || (Member(members, MetaKey) == Some(JObj(meta)) && Member(meta, ResultKey).None?)
    ensures MetaResult(JObj(members)) == Ok(JStr(DefaultResult))
  {
  }

  lemma ActionsHaveNoColon()
    ensures ':' !in Confirm && ':' !in Decline && Confirm != Decline
  {
    assert Confirm[0] != Decline[0];
    forall k | 0 <= k < |Confirm| ensures Confirm[k] != ':' { }
    forall k | 0 <= k < |Decline| ensures Decline[k] != ':' { }
  }

  /**
   * The payment buttons of the request post work end to end: pressing one
   * makes the matching collector request for that payment, and on success the
   * user who asked is the one notified.
   */
  lemma ButtonReachesCollector(confirm: bool, paymentId: int, userId: int, message: AdminMessage,
                               adminId: int, collector: Collector)
    ensures var action := if confirm then Confirm else Decline;
      var e := HandleCallback(Some((Some(Common.PaymentCallbackData(action, paymentId, userId)), message)),
                              Some(adminId), Ok(collector));
      && e.request == Some(if confirm then ConfirmPayment(paymentId, adminId) else DeclinePayment(paymentId, adminId))
      && (e.notice.Some? ==> e.notice.value.chatId == userId)
  {
    var action := if confirm then Confirm else Decline;
    ActionsHaveNoColon();
    ButtonDataRoundTrip(action, paymentId, userId);
    var c := ParseCallback(Common.PaymentCallbackData(action, paymentId, userId));
    assert c == Parsed(action, paymentId, userId);
    assert RequestFor(c, adminId) == if confirm then ConfirmPayment(paymentId, adminId) else DeclinePayment(paymentId, adminId);
  }
}
