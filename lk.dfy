/**
 * The user's personal dashboard (handlers/lk.py): the labels and the capped
 * lists of the section texts, the navigation keyboard and the routing of its
 * callback data, the per-user TTL caches of the collector payloads, and the
 * "I have paid" request. The collector replies and the clock are parameters.
 */
module Lk {
  import opened Wrappers
  import opened PyStr
  import opened Exceptions
  import Common

  const CacheTtl := 60
  const MaxItems := 8
  const MaxPendingActions := 5
  const HistoryPageSize := 10

  const Dash := "—"
  const Ellipsis := "..."
  const NewLine := "\n"

  /** `x or default` for an optional text: `None` and `""` give the default. */
  function Or(x: Option<string>, default: string): (r: string)
    ensures x.Some? && x.value != [] ==> r == x.value
    ensures !(x.Some? && x.value != []) ==> r == default
  {
    if x.Some? && x.value != [] then x.value else default
  }

  // ----------------------------------------------------------------- _truncate

  /** Python's `s[:k]`; a negative `k` counts from the end. */
  function SliceTo(s: string, k: int): (r: string)
    ensures |r| <= |s| && r == s[..|r|]
    ensures 0 <= k ==> |r| == if k < |s| then k else |s|
  {
    if k >= 0 then (if k < |s| then s[..k] else s)
    else if |s| + k > 0 then s[..|s| + k]
    else []
  }

  const DefaultLimit := 40

  /**
   * `_truncate(text, limit)`: a text within the limit is kept; a longer one is
   * cut to `limit - 3` characters, stripped on the right, and marked `...`.
   */
  function Truncate(text: string, limit: int): (r: string)
    ensures |text| <= limit ==> r == text
    ensures |text| > limit ==> EndsWith(r, Ellipsis) && StartsWith(text, r[..|r| - |Ellipsis|])
    ensures |text| > limit ==> var kept := r[..|r| - |Ellipsis|]; kept == [] || !IsSpace(kept[|kept| - 1])
    ensures limit >= |Ellipsis| ==> |r| <= limit
  {
    if |text| <= limit then text
    else
      var kept := RStrip(SliceTo(text, limit - |Ellipsis|));
      var r := kept + Ellipsis;
      assert r[..|r| - |Ellipsis|] == kept && r[|r| - |Ellipsis|..] == Ellipsis;
      assert text[..|kept|] == kept;
      r
  }

  // -------------------------------------------------------------------- labels

  const PeriodNames: map<string, string> :=
    map["monthly" := "ежемесячно", "semiannual" := "раз в полгода", "annual" := "ежегодно", "one-time" := "разовый"]

  /** `_period_label`: a known period by its name, any other as given, a missing one as `—`. */
  function PeriodLabel(period: Option<string>): (shown: string)
    ensures shown != []
    ensures period.Some? && period.value in PeriodNames ==> shown == PeriodNames[period.value]
    ensures !(period.Some? && period.value in PeriodNames) ==> shown == Or(period, Dash)
    ensures period.Some? && period.value !in PeriodNames && period.value != [] ==> shown == period.value
    ensures period.None? || period == Some("") ==> shown == Dash
  {
    if period.Some? && period.value in PeriodNames then
      assert forall k | k in PeriodNames :: PeriodNames[k] != [];
      PeriodNames[period.value]
    else Or(period, Dash)
  }

  const StatusNames: map<string, string> :=
    map["pending" := "ожидает", "paid" := "оплачен", "overdue" := "просрочен", "cancelled" := "отменен"]

  /** The key `_status_label` looks up: `(raw or "").lower()`. */
  function StatusKey(raw: Option<string>): string {
    Lower(raw.GetOr(""))
  }

  /** `_status_label`: the lowercased status by its name; any other as given, a missing one as `—`. */
  function StatusLabel(raw: Option<string>): (shown: string)
    ensures shown != []
    ensures StatusKey(raw) in StatusNames ==> shown == StatusNames[StatusKey(raw)]
    ensures StatusKey(raw) !in StatusNames ==> shown == Or(raw, Dash)
  {
    var key := StatusKey(raw);
    if key in StatusNames then
      assert forall k | k in StatusNames :: StatusNames[k] != [];
      StatusNames[key]
    else Or(raw, Dash)
  }

  /** A known status reads the same in any letter case. */
  lemma StatusLabelIgnoresCase(a: string, b: string)
    requires Lower(a) == Lower(b) && Lower(a) in StatusNames
    ensures StatusLabel(Some(a)) == StatusLabel(Some(b))
  {
    assert StatusKey(Some(a)) == Lower(a) && StatusKey(Some(b)) == Lower(b);
  }

  // -------------------------------------------------------------- capped lists

  const MorePrefix := "…и еще "

  /** `f"…и еще {len(items) - _MAX_ITEMS}"` when some items are not shown. */
  function MoreLine(total: nat): (lines: seq<string>)
    ensures |lines| <= 1 && (lines != [] <==> total > MaxItems)
  {
    if total > MaxItems then [MorePrefix + IntToString(total - MaxItems)] else []
  }

  /** `items[:_MAX_ITEMS]`. */
  function Window<T>(items: seq<T>, size: nat): (w: seq<T>)
    ensures |w| == if |items| < size then |items| else size
    ensures w == items[..|w|]
  {
    if |items| < size then items else items[..size]
  }

  /** The header, one line per shown item in order, and the line that counts the hidden ones. */
  function CappedLines<T>(header: string, items: seq<T>, render: T -> string): seq<string> {
    var shown := Window(items, MaxItems);
    [header] + seq(|shown|, i requires 0 <= i < |shown| => render(shown[i])) + MoreLine(|items|)
  }

  /**
   * At most eight items are shown, the first ones in their order; beyond
   * that one more line tells how many were left out.
   */
  lemma CappedShape<T>(header: string, items: seq<T>, render: T -> string)
    ensures var lines := CappedLines(header, items, render);
      && lines[0] == header
      && |lines| <= MaxItems + 2
      && (|items| <= MaxItems ==> |lines| == |items| + 1)
      && (|items| > MaxItems ==>
            |lines| == MaxItems + 2 && lines[MaxItems + 1] == MorePrefix + IntToString(|items| - MaxItems))
      && forall i :: 0 <= i < |items| && i < MaxItems ==> lines[i + 1] == render(items[i])
  {
    var shown := Window(items, MaxItems);
    var body := seq(|shown|, i requires 0 <= i < |shown| => render(shown[i]));
    var lines := [header] + body + MoreLine(|items|);
    forall i | 0 <= i < |items| && i < MaxItems
      ensures lines[i + 1] == render(items[i])
    {
      assert lines[i + 1] == body[i] == render(shown[i]);
    }
  }

  /** One subscription, with its amount and due date already formatted. */
  datatype Subscription = Subscription(name: Option<string>, amount: string, period: Option<string>,
                                       nextDue: string, paused: bool)

  const Bullet := "• "
  const Dashed := " — "
  const Dot := " • "
  const NextDue := " • след. "
  const PausedMark := " (приост.)"
  const NoSubscriptions := "Подписок нет."
  const SubscriptionsHeader := "🔁 Подписки"

  function SubscriptionLine(s: Subscription): string {
    Bullet + Or(s.name, Dash) + Dashed + s.amount + Dot + PeriodLabel(s.period) + NextDue + s.nextDue
    + (if s.paused then PausedMark else "")
  }

  /** The lines of `_build_subscriptions_text`. */
  function SubscriptionsLines(subs: seq<Subscription>): seq<string> {
    if subs == [] then [NoSubscriptions] else CappedLines(SubscriptionsHeader, subs, SubscriptionLine)
  }

  /** `_build_subscriptions_text`: the header, then a line per shown subscription. */
  method BuildSubscriptionsText(subs: seq<Subscription>) returns (text: string)
    ensures text == Join(NewLine, SubscriptionsLines(subs))
  {
    if subs == [] {
      return NoSubscriptions;
    }
    var lines := [SubscriptionsHeader];
    var shown := Window(subs, MaxItems);
    for i := 0 to |shown|
      invariant lines == [SubscriptionsHeader] + seq(i, k requires 0 <= k < i => SubscriptionLine(shown[k]))
    {
      lines := lines + [SubscriptionLine(shown[i])];
    }
    if |subs| > MaxItems {
      lines := lines + [MorePrefix + IntToString(|subs| - MaxItems)];
    }
    assert lines == CappedLines(SubscriptionsHeader, subs, SubscriptionLine);
    text := Join(NewLine, lines);
  }

  /** One loan, with its amount and due date already formatted. */
  datatype Loan = Loan(name: Option<string>, amount: string, nextDue: string, paused: bool)

  /** `[loan for loan in loans if not loan.get("is_paused")]`. */
  function ActiveLoans(loans: seq<Loan>): (active: seq<Loan>)
    ensures |active| <= |loans|
    ensures forall i :: 0 <= i < |active| ==> !active[i].paused
    decreases |loans|
  {
    if loans == [] then [] else (if loans[0].paused then [] else [loans[0]]) + ActiveLoans(loans[1..])
  }

  /** The active loans are exactly the loans that are not paused. */
  lemma {:induction false} ActiveLoansMembers(loans: seq<Loan>, x: Loan)
    ensures x in ActiveLoans(loans) <==> x in loans && !x.paused
    decreases |loans|
  {
    if loans != [] {
      ActiveLoansMembers(loans[1..], x);
      assert loans == [loans[0]] + loans[1..];
    }
  }

  /** Filtering keeps the order: the active loans of a concatenation are those of each part, in turn. */
  lemma {:induction false} ActiveLoansConcat(a: seq<Loan>, b: seq<Loan>)
    ensures ActiveLoans(a + b) == ActiveLoans(a) + ActiveLoans(b)
    decreases |a|
  {
    if a == [] {
      assert a + b == b;
    } else {
      assert (a + b)[0] == a[0] && (a + b)[1..] == a[1..] + b;
      ActiveLoansConcat(a[1..], b);
    }
  }

  const NoLoans := "Займов нет."
  const LoansHeader := "💸 Займы"

  function LoanLine(l: Loan): string {
    Bullet + Or(l.name, Dash) + Dashed + l.amount + Dot + l.nextDue
  }

  /** The lines of `_build_loans_text`: only the active loans are listed and counted. */
  function LoansLines(loans: seq<Loan>): seq<string> {
    var active := ActiveLoans(loans);
    if active == [] then [NoLoans] else CappedLines(LoansHeader, active, LoanLine)
  }

  /** `_build_loans_text`. */
  method BuildLoansText(loans: seq<Loan>) returns (text: string)
    ensures text == Join(NewLine, LoansLines(loans))
  {
    var active := ActiveLoans(loans);
    if active == [] {
      return NoLoans;
    }
    var lines := [LoansHeader];
    var shown := Window(active, MaxItems);
    for i := 0 to |shown|
      invariant lines == [LoansHeader] + seq(i, k requires 0 <= k < i => LoanLine(shown[k]))
    {
      lines := lines + [LoanLine(shown[i])];
    }
    if |active| > MaxItems {
      lines := lines + [MorePrefix + IntToString(|active| - MaxItems)];
    }
    assert lines == CappedLines(LoansHeader, active, LoanLine);
    text := Join(NewLine, lines);
  }

  /** A paused loan changes nothing in the text. */
  lemma PausedLoanHidden(before: seq<Loan>, loan: Loan, after: seq<Loan>)
    requires loan.paused
    ensures LoansLines(before + [loan] + after) == LoansLines(before + after)
  {
    ActiveLoansConcat(before + [loan], after);
    ActiveLoansConcat(before, [loan]);
    ActiveLoansConcat(before, after);
    assert ActiveLoans([loan]) == [] by {
      assert [loan][1..] == [];
    }
    assert ActiveLoans(before + [loan] + after) == ActiveLoans(before + after);
  }

  // ---------------------------------------------------------------- payloads

  /**
   * The LK payload as far as the handlers read it: `{}` (which is falsy), or
   * a dict with the ids of `payments.pending` in order, `None` for an item
   * without an id.
   */
  datatype Payload = EmptyPayload | Dict(pendingIds: seq<Option<int>>)

  /** `(payload.get("payments") or {}).get("pending") or []`, by id. */
  function PendingIds(payload: Payload): seq<Option<int>> {
    if payload.Dict? then payload.pendingIds else []
  }

  /** The transactions page as far as the keyboard reads it. */
  datatype HistoryPayload = EmptyHistory | History(page: Option<int>, hasPrev: bool, hasNext: bool)

  // ------------------------------------------------------------ the keyboard

  datatype Button = Button(text: string, data: string)

  const HomeData := "menu:main"
  const PaymentsData := "lk:payments"
  const FirstHistoryData := "lk:history:1"
  const SubscriptionsData := "lk:subscriptions"
  const LoansData := "lk:loans"

  /** The three rows every section shows. */
  const BaseRows: seq<seq<Button>> := [
    [Button("🏠 Главная", HomeData)],
    [Button("🧾 Платежи", PaymentsData), Button("📊 История", FirstHistoryData)],
    [Button("🔁 Подписки", SubscriptionsData), Button("💸 Займы", LoansData)]]

  const HistorySection := "history"
  const PaymentsSection := "payments"
  const SubscriptionsSection := "subscriptions"
  const LoansSection := "loans"
  const BalanceSection := "balance"
  const HistoryPrefix := "lk:history:"
  const PaidPrefix := "lk:paid:"
  const PrevLabel := "⬅️"
  const NextLabel := "➡️"
  const PaidLabel := "Оплатил #"

  function HistoryData(page: int): string {
    HistoryPrefix + IntToString(page)
  }

  function PaidData(id: int): string {
    PaidPrefix + IntToString(id)
  }

  /**
   * The row with the previous and the next page, on the history section with a
   * payload: the arrow back to page - 1 exactly when there is a previous page,
   * then the arrow on to page + 1 exactly when there is a next one.
   */
  function HistoryRows(section: string, history: HistoryPayload): (rows: seq<seq<Button>>)
    ensures |rows| <= 1
    ensures !(section == HistorySection && history.History?) ==> rows == []
    ensures section == HistorySection && history.History? ==>
      var page := history.page.GetOr(1);
      && (rows != [] <==> history.hasPrev || history.hasNext)
      && (rows != [] ==>
            && |rows[0]| == (if history.hasPrev then 1 else 0) + (if history.hasNext then 1 else 0)
            && (Button(PrevLabel, HistoryData(page - 1)) in rows[0] <==> history.hasPrev)
            && (Button(NextLabel, HistoryData(page + 1)) in rows[0] <==> history.hasNext)
            && (history.hasPrev ==> rows[0][0] == Button(PrevLabel, HistoryData(page - 1))))
  {
    if section == HistorySection && history.History? then
      var page := history.page.GetOr(1);
      var row := (if history.hasPrev then [Button(PrevLabel, HistoryData(page - 1))] else [])
                 + (if history.hasNext then [Button(NextLabel, HistoryData(page + 1))] else []);
      if row != [] then [row] else []
    else []
  }

  /** One button per pending id, skipping the missing ones, in order. */
  function PaidRows(ids: seq<Option<int>>): (rows: seq<seq<Button>>)
    ensures |rows| <= |ids|
    decreases |ids|
  {
    if ids == [] then []
    else
      var last := ids[|ids| - 1];
      PaidRows(ids[..|ids| - 1]) + (if last.Some? then [PaidRow(last.value)] else [])
  }

  /** The payments section offers a button for each of the first five pending payments that have an id. */
  function PaymentRows(section: string, payload: Payload): (rows: seq<seq<Button>>)
    ensures |rows| <= MaxPendingActions
  {
    if section == PaymentsSection then PaidRows(Window(PendingIds(payload), MaxPendingActions)) else []
  }

  function Keyboard(section: string, payload: Payload, history: HistoryPayload): seq<seq<Button>> {
    BaseRows + HistoryRows(section, history) + PaymentRows(section, payload)
  }

  /** `_build_nav_keyboard`. */
  method NavKeyboard(section: string, payload: Payload, history: HistoryPayload) returns (rows: seq<seq<Button>>)
    ensures rows == Keyboard(section, payload, history)
  {
    rows := BaseRows + HistoryRows(section, history);
    if section == PaymentsSection {
      var paid := PendingButtons(Window(PendingIds(payload), MaxPendingActions));
      rows := rows + paid;
    }
  }

  /** The loop of `_build_nav_keyboard` over the pending ids, skipping those without an id. */
  method PendingButtons(pending: seq<Option<int>>) returns (paid: seq<seq<Button>>)
    ensures paid == PaidRows(pending)
  {
    paid := [];
    for i := 0 to |pending|
      invariant paid == PaidRows(pending[..i])
    {
      PaidRowsSnoc(pending, i);
      var id := pending[i];
      if id.None? {
        continue;
      }
      paid := paid + [PaidRow(id.value)];
    }
    assert pending[..|pending|] == pending;
  }

  /**
   * The tail of `lk_start` once the payload is in: on the history section a
   * failed page escapes unless it is a collector error, which shows an empty
   * page; otherwise the section's text with its keyboard.
   */
  method ShowView(section: string, page: int, payload: Payload, pageReply: Result<HistoryPayload, Error>)
    returns (view: View)
    ensures view == SectionView(section, page, Ok(payload), pageReply)
  {
    var history := EmptyHistory;
    if section == HistorySection {
      if pageReply.Err? {
        if !pageReply.error.CollectorAPIError? {
          return Failed(pageReply.error);
        }
        history := History(Some(page), false, false);
      } else {
        history := pageReply.value;
      }
    }
    var keyboard := NavKeyboard(section, payload, history);
    view := Shown(TextFor(section, section == HistorySection), keyboard);
  }

  lemma PaidRowsSnoc(ids: seq<Option<int>>, i: nat)
    requires i < |ids|
    ensures PaidRows(ids[..i + 1]) == PaidRows(ids[..i]) + (if ids[i].Some? then [PaidRow(ids[i].value)] else [])
  {
    assert ids[..i + 1][..i] == ids[..i];
  }

  /** The button of one pending payment. */
  function PaidRow(id: int): seq<Button> {
    [Button(PaidLabel + IntToString(id), PaidData(id))]
  }

  /** A pending payment has a button exactly when its id is among the pending ids. */
  lemma {:induction false} PaidRowsFor(ids: seq<Option<int>>, id: int)
    ensures PaidRow(id) in PaidRows(ids) <==> Some(id) in ids
    decreases |ids|
  {
    if ids != [] {
      var init, last := ids[..|ids| - 1], ids[|ids| - 1];
      PaidRowsFor(init, id);
      assert ids == init + [last];
      if last.Some? {
        PaidDataInjective(id);
        assert PaidRow(last.value) == [Button(PaidLabel + IntToString(last.value), PaidData(last.value))];
        assert PaidRow(id) == PaidRow(last.value) ==> last.value == id by {
          if PaidRow(id) == PaidRow(last.value) {
            assert PaidRow(id)[0].data == PaidRow(last.value)[0].data;
          }
        }
      }
    }
  }

  /** Every paid button belongs to one of the pending ids. */
  lemma {:induction false} PaidRowsCarryIds(ids: seq<Option<int>>)
    ensures forall r :: r in PaidRows(ids) ==> exists j :: 0 <= j < |ids| && ids[j].Some? && r == PaidRow(ids[j].value)
    decreases |ids|
  {
    if ids != [] {
      var init, last := ids[..|ids| - 1], ids[|ids| - 1];
      PaidRowsCarryIds(init);
      forall r | r in PaidRows(ids)
        ensures exists j :: 0 <= j < |ids| && ids[j].Some? && r == PaidRow(ids[j].value)
      {
        if r in PaidRows(init) {
          var j :| 0 <= j < |init| && init[j].Some? && r == PaidRow(init[j].value);
          assert ids[j] == init[j];
        } else {
          assert ids[|ids| - 1] == last;
        }
      }
    }
  }

  /** Two ids with the same text are the same id. */
  lemma PaidDataInjective(id: int)
    ensures forall j: int :: PaidData(j) == PaidData(id) ==> j == id
  {
    forall j: int | PaidData(j) == PaidData(id)
      ensures j == id
    {
      var a, b := IntToString(j), IntToString(id);
      assert PaidData(j)[|PaidPrefix|..] == a && PaidData(id)[|PaidPrefix|..] == b;
      IntRoundTrip(j);
      IntRoundTrip(id);
    }
  }

  // ------------------------------------------------------ handle_lk_callback

  const PaidTag := "lk:paid:"
  const HistoryTag := "lk:history"
  const LkTag := "lk:"
  const SummarySection := "summary"

  /** Where a callback goes: the paid request, a history page, another section, or nowhere. */
  datatype Route = PaymentRequest(data: string) | ShowHistory(page: int) | ShowSection(section: string) | NoRoute

  /** `int(data.split(":")[2])` when there is such a part and it is an integer; otherwise page 1. */
  function HistoryPage(data: string): int {
    var parts := Split(data, ":");
    if |parts| >= 3 && ParseInt(parts[2]).Some? then ParseInt(parts[2]).value else 1
  }

  /** `data.split(":", 1)[1]`: what follows the first `:`. */
  function AfterColon(data: string): string
    requires ':' in data
  {
    data[Find(data, ':') + 1..]
  }

  /** The dispatch of `handle_lk_callback`, after it has answered the query. */
  function RouteLk(data: string): (r: Route)
    ensures r.PaymentRequest? <==> StartsWith(data, PaidTag)
    ensures r.ShowSection? ==> r.section != []
  {
    if StartsWith(data, PaidTag) then PaymentRequest(data)
    else if StartsWith(data, HistoryTag) then ShowHistory(HistoryPage(data))
    else if StartsWith(data, LkTag) then
      assert data[2] == ':';
      var section := AfterColon(data);
      ShowSection(if section == [] then SummarySection else section)
    else NoRoute
  }

  /** After `lk:` the first `:` is the third character. */
  lemma AfterLkTag(data: string)
    requires StartsWith(data, LkTag)
    ensures ':' in data && AfterColon(data) == data[3..]
  {
    assert data[0] == 'l' && data[1] == 'k' && data[2] == ':';
  }

  /** `lk:<name>` for a name without `:` shows that section, `lk:` alone the summary. */
  lemma SectionDataRoutes(name: string)
    requires ':' !in name
    requires !StartsWith(LkTag + name, PaidTag) && !StartsWith(LkTag + name, HistoryTag)
    ensures RouteLk(LkTag + name) == ShowSection(if name == [] then SummarySection else name)
  {
    var data := LkTag + name;
    assert data[..|LkTag|] == LkTag;
    AfterLkTag(data);
    assert data[3..] == name;
  }

  lemma ThreeParts(a: string, b: string, c: string)
    ensures Join(":", [a, b, c]) == a + ":" + b + ":" + c
  {
    var parts := [a, b, c];
    assert parts[1..] == [b, c] && parts[1..][1..] == [c];
    assert Join(":", [b, c]) == b + ":" + c;
  }

  const LkWord := "lk"
  const HistoryWord := "history"
  const PaidWord := "paid"

  lemma PrefixWords()
    ensures HistoryPrefix == LkWord + ":" + HistoryWord + ":" && PaidPrefix == LkWord + ":" + PaidWord + ":"
    ensures ':' !in LkWord && ':' !in HistoryWord && ':' !in PaidWord
  {
    assert LkWord == ['l', 'k'] && PaidWord == ['p', 'a', 'i', 'd'];
    forall k | 0 <= k < |HistoryWord| ensures HistoryWord[k] != ':' { }
  }

  /** `<a>:<b>:<c>` splits into its three parts. */
  lemma SplitThree(a: string, b: string, c: string)
    requires ':' !in a && ':' !in b && ':' !in c
    ensures Split(a + ":" + b + ":" + c, ":") == [a, b, c]
  {
    ThreeParts(a, b, c);
    SplitJoin([a, b, c], ':');
  }

  /** The page buttons route back to the page they name. */
  lemma HistoryDataRoutes(page: int)
    ensures RouteLk(HistoryData(page)) == ShowHistory(page)
  {
    var n := IntToString(page);
    var data := HistoryData(page);
    PrefixWords();
    SplitThree(LkWord, HistoryWord, n);
    assert data == LkWord + ":" + HistoryWord + ":" + n;
    IntRoundTrip(page);
    assert data[3] == 'h' != PaidTag[3];
    assert data[..|HistoryTag|] == HistoryTag;
  }

  /** `int(data.split(":")[-1])`, the payment of a paid request. */
  function PaidId(data: string): Option<int> {
    var parts := Split(data, ":");
    ParseInt(parts[|parts| - 1])
  }

  /** The paid buttons route to the payment request for the id they carry. */
  lemma PaidDataRoutes(id: int)
    ensures RouteLk(PaidData(id)) == PaymentRequest(PaidData(id))
    ensures PaidId(PaidData(id)) == Some(id)
  {
    var n := IntToString(id);
    var data := PaidData(id);
    PrefixWords();
    SplitThree(LkWord, PaidWord, n);
    assert data == LkWord + ":" + PaidWord + ":" + n;
    IntRoundTrip(id);
    assert data[..|PaidTag|] == PaidTag;
  }

  /** A word of letters has no `:`. */
  lemma LettersHaveNoColon(w: string)
    requires forall k :: 0 <= k < |w| ==> 'a' <= w[k] <= 'z'
    ensures ':' !in w
  {
  }

  lemma PaymentsButtonRoutes()
    ensures RouteLk(PaymentsData) == ShowSection(PaymentsSection)
  {
    assert PaymentsData == LkTag + PaymentsSection;
    assert PaymentsData[5] != PaidTag[5] && PaymentsData[3] != HistoryTag[3];
    LettersHaveNoColon(PaymentsSection);
    SectionDataRoutes(PaymentsSection);
  }

  lemma SubscriptionsButtonRoutes()
    ensures RouteLk(SubscriptionsData) == ShowSection(SubscriptionsSection)
  {
    assert SubscriptionsData == LkTag + SubscriptionsSection;
    assert SubscriptionsData[3] != PaidTag[3] && SubscriptionsData[3] != HistoryTag[3];
    LettersHaveNoColon(SubscriptionsSection);
    SectionDataRoutes(SubscriptionsSection);
  }

  lemma LoansButtonRoutes()
    ensures RouteLk(LoansData) == ShowSection(LoansSection)
  {
    assert LoansData == LkTag + LoansSection;
    assert LoansData[3] != PaidTag[3] && LoansData[3] != HistoryTag[3];
    LettersHaveNoColon(LoansSection);
    SectionDataRoutes(LoansSection);
  }

  lemma FirstHistoryIsPageOne()
    ensures FirstHistoryData == HistoryData(1)
  {
    assert DigitChar(1) == '1';
    assert IntToString(1) == ['1'];
  }

  lemma FirstHistoryButtonRoutes()
    ensures RouteLk(FirstHistoryData) == ShowHistory(1)
  {
    FirstHistoryIsPageOne();
    HistoryDataRoutes(1);
  }

  // ---------------------------------------------------------------- the caches

  /** `_select_section_text`: which text a section shows. */
  datatype SectionText = SubscriptionsText | PaymentsText | LoansText | BalanceText | HistoryText | SummaryText

  function TextFor(section: string, hasHistory: bool): (t: SectionText)
    ensures t == HistoryText <==> section == HistorySection && hasHistory
  {
    if section == SubscriptionsSection then SubscriptionsText
    else if section == PaymentsSection then PaymentsText
    else if section == LoansSection then LoansText
    else if section == BalanceSection then BalanceText
    else if section == HistorySection && hasHistory then HistoryText
    else SummaryText
  }

  /** What the dashboard shows, or the apology when the collector is down. */
  datatype View = Unavailable | Failed(error: Error) | Shown(text: SectionText, keyboard: seq<seq<Button>>)

  /** The answer to an "I have paid" press. */
  datatype PaidAnswer =
    | Refused(alert: string)
    | Escaped(error: Error)
    | Sent(request: Option<Common.Post<Common.PaymentRequest>>)

  const BadPayment := "Некорректный платеж"
  const LkDown := "Сервис ЛК недоступен"
  const NotFound := "Платеж не найден или уже закрыт"

  /**
   * What `_handle_payment_request` answers and how many payloads it fetches,
   * for the payment id of the data, the result of the first (cached) fetch
   * and the reply to the forced refresh: a request goes to the admins
   * exactly when the id is pending in the first payload or, failing that,
   * in the refreshed one.
   */
  function PaidOutcome(id: Option<int>, first: Result<Payload, Error>, refresh: Result<Payload, Error>,
                       adminChannel: Option<int>, adminTopic: Option<int>, user: Common.User): (o: (PaidAnswer, nat))
    ensures o.1 <= 2
    ensures id.None? ==> o == (Refused(BadPayment), 0)
    ensures id.Some? ==> o.1 >= 1
    ensures o.0.Sent? <==> (id.Some? && first.Ok? &&
      (Some(id.value) in PendingIds(first.value) || (refresh.Ok? && Some(id.value) in PendingIds(refresh.value))))
    ensures o.0.Sent? ==> o.0 == Sent(Common.SendPaymentRequest(adminChannel, adminTopic, user, id.value))
    ensures id.Some? && first.Ok? && Some(id.value) in PendingIds(first.value) ==> o.1 == 1
    ensures o.1 == 2 <==> id.Some? && first.Ok? && Some(id.value) !in PendingIds(first.value)
    ensures id.Some? && first.Err? ==>
      o.0 == if first.error.CollectorAPIError? then Refused(LkDown) else Escaped(first.error)
    ensures o.1 == 2 && refresh.Err? && !refresh.error.CollectorAPIError? ==> o.0 == Escaped(refresh.error)
    ensures o.0 == Refused(NotFound) <==> o.1 == 2 && !o.0.Sent? && !(refresh.Err? && !refresh.error.CollectorAPIError?)
  {
    if id.None? then (Refused(BadPayment), 0)
    else if first.Err? then (if first.error.CollectorAPIError? then Refused(LkDown) else Escaped(first.error), 1)
    else if Some(id.value) in PendingIds(first.value) then
      (Sent(Common.SendPaymentRequest(adminChannel, adminTopic, user, id.value)), 1)
    else if refresh.Err? && !refresh.error.CollectorAPIError? then (Escaped(refresh.error), 2)
    else if refresh.Ok? && Some(id.value) in PendingIds(refresh.value) then
      (Sent(Common.SendPaymentRequest(adminChannel, adminTopic, user, id.value)), 2)
    else (Refused(NotFound), 2)
  }

  /**
   * What `lk_start` shows for a section, given the payload fetch's result
   * and, on the history section, the page fetch's result: the apology
   * when the collector is down, the section's text with its keyboard
   * otherwise, a failed page fetch showing an empty page.
   */
  function SectionView(section: string, page: int, p: Result<Payload, Error>, h: Result<HistoryPayload, Error>): (v: View)
    ensures v.Unavailable? <==> p.Err? && p.error.CollectorAPIError?
    ensures v.Failed? <==> (p.Err? && !p.error.CollectorAPIError?) ||
                           (p.Ok? && section == HistorySection && h.Err? && !h.error.CollectorAPIError?)
    ensures v.Shown? ==> v.text == TextFor(section, section == HistorySection)
    ensures v.Shown? && section != HistorySection ==> v.keyboard == Keyboard(section, p.value, EmptyHistory)
    ensures v.Shown? && section == HistorySection ==>
      v.keyboard == Keyboard(section, p.value, if h.Ok? then h.value else History(Some(page), false, false))
    ensures v.Shown? && section == HistorySection && h.Err? ==> v.keyboard == BaseRows
  {
    if p.Err? then (if p.error.CollectorAPIError? then Unavailable else Failed(p.error))
    else if section != HistorySection then Shown(TextFor(section, false), Keyboard(section, p.value, EmptyHistory))
    else if h.Err? && !h.error.CollectorAPIError? then Failed(h.error)
    else
      var history := if h.Ok? then h.value else History(Some(page), false, false);
      Shown(HistoryText, Keyboard(section, p.value, history))
  }

  /**
   * `context.user_data` of one user: the cached payload and its time, the
   * cached transaction pages with theirs, and the section last shown.
   */
  class UserData {
    var payload: Option<Payload>
    var payloadTs: Option<int>
    var transactions: map<int, (HistoryPayload, int)>
    var section: Option<string>
    var historyPage: Option<int>

    constructor ()
      ensures payload.None? && payloadTs.None? && transactions == map[] && section.None? && historyPage.None?
    {
      payload := None;
      payloadTs := None;
      transactions := map[];
      section := None;
      historyPage := None;
    }

    /** `_get_cached_payload`: a hit needs a non-empty payload, a non-zero time, and at most 60 s of age. */
    function CachedPayload(now: int): (r: Option<Payload>)
      reads this`payload, this`payloadTs
      ensures r.Some? <==> payload.Some? && payload.value.Dict? && payloadTs.Some? && payloadTs.value != 0
                           && now - payloadTs.value <= CacheTtl
      ensures r.Some? ==> r == payload
    {
      if payload.None? || payload.value.EmptyPayload? || payloadTs.None? || payloadTs.value == 0 then None
      else if now - payloadTs.value > CacheTtl then None
      else payload
    }

    /** `_store_payload`. */
    method StorePayload(p: Payload, now: int)
      modifies this
      ensures payload == Some(p) && payloadTs == Some(now)
      ensures transactions == old(transactions) && section == old(section) && historyPage == old(historyPage)
      ensures p.Dict? && now != 0 ==> CachedPayload(now) == Some(p)
    {
      payload := Some(p);
      payloadTs := Some(now);
    }

    /** `_get_cached_transactions`: the page's entry while it is at most 60 s old. */
    function CachedTransactions(page: int, now: int): (r: Option<HistoryPayload>)
      reads this`transactions
      ensures r.Some? <==> page in transactions && now - transactions[page].1 <= CacheTtl
      ensures r.Some? ==> r.value == transactions[page].0
    {
      if page !in transactions then None
      else if now - transactions[page].1 > CacheTtl then None
      else Some(transactions[page].0)
    }

    /** `_store_transactions`: this page is replaced, every other page is kept. */
    method StoreTransactions(page: int, p: HistoryPayload, now: int)
      modifies this
      ensures transactions == old(transactions)[page := (p, now)]
      ensures payload == old(payload) && payloadTs == old(payloadTs)
      ensures section == old(section) && historyPage == old(historyPage)
      ensures CachedTransactions(page, now) == Some(p)
      ensures forall q :: q != page ==> CachedTransactions(q, now) == old(CachedTransactions(q, now))
    {
      transactions := transactions[page := (p, now)];
    }


    /** What `_fetch_payload` returns: the cached payload unless a refresh is forced, else the collector's reply. */
    function PayloadFetch(now: int, forceRefresh: bool, reply: Result<Payload, Error>): (r: Result<Payload, Error>)
      reads this`payload, this`payloadTs
      ensures !forceRefresh && CachedPayload(now).Some? ==> r == Ok(CachedPayload(now).value)
      ensures forceRefresh || CachedPayload(now).None? ==> r == reply
    {
      if !forceRefresh && CachedPayload(now).Some? then Ok(CachedPayload(now).value) else reply
    }

    /** The payload and its time after `_fetch_payload`: replaced only by a reply that was asked for and came back. */
    function PayloadAfter(now: int, forceRefresh: bool, reply: Result<Payload, Error>): (s: (Option<Payload>, Option<int>))
      reads this`payload, this`payloadTs
      ensures (forceRefresh || CachedPayload(now).None?) && reply.Ok? ==> s == (Some(reply.value), Some(now))
      ensures !((forceRefresh || CachedPayload(now).None?) && reply.Ok?) ==> s == (payload, payloadTs)
    {
      if (forceRefresh || CachedPayload(now).None?) && reply.Ok? then (Some(reply.value), Some(now)) else (payload, payloadTs)
    }

    /** What `_fetch_transactions` returns: a cached non-empty page unless a refresh is forced, else the collector's reply. */
    function PageFetch(page: int, now: int, forceRefresh: bool, reply: Result<HistoryPayload, Error>)
      : (r: Result<HistoryPayload, Error>)
      reads this`transactions
      ensures !forceRefresh && CachedTransactions(page, now).Some? && CachedTransactions(page, now).value.History? ==>
        r == Ok(CachedTransactions(page, now).value)
      ensures forceRefresh || CachedTransactions(page, now).None? || CachedTransactions(page, now).value.EmptyHistory? ==>
        r == reply
    {
      var cached := CachedTransactions(page, now);
      if !forceRefresh && cached.Some? && cached.value.History? then Ok(cached.value) else reply
    }

    /** `_fetch_transactions` asks the collector: a refresh is forced, or the page is not cached or cached empty. */
    predicate PageAsked(page: int, now: int, forceRefresh: bool)
      reads this`transactions
    {
      forceRefresh || CachedTransactions(page, now).None? || CachedTransactions(page, now).value.EmptyHistory?
    }

    /** The transaction cache after `_fetch_transactions`: only a page asked for and received is stored. */
    function TransactionsAfter(page: int, now: int, forceRefresh: bool, reply: Result<HistoryPayload, Error>)
      : (t: map<int, (HistoryPayload, int)>)
      reads this`transactions
      ensures PageAsked(page, now, forceRefresh) && reply.Ok? ==> t == transactions[page := (reply.value, now)]
      ensures !(PageAsked(page, now, forceRefresh) && reply.Ok?) ==> t == transactions
      ensures forall q :: q != page && q in transactions ==> q in t && t[q] == transactions[q]
    {
      if PageAsked(page, now, forceRefresh) && reply.Ok? then transactions[page := (reply.value, now)] else transactions
    }

    /**
     * `_fetch_payload`: the cached payload unless a refresh is forced;
     * otherwise the collector's `reply`, stored when it is a payload.
     */
    method FetchPayload(now: int, forceRefresh: bool, reply: Result<Payload, Error>) returns (r: Result<Payload, Error>)
      modifies this
      ensures r == old(PayloadFetch(now, forceRefresh, reply))
      ensures (payload, payloadTs) == old(PayloadAfter(now, forceRefresh, reply))
      ensures r.Ok? ==> payload == Some(r.value)
      ensures transactions == old(transactions) && section == old(section) && historyPage == old(historyPage)
    {
      if !forceRefresh {
        var cached := CachedPayload(now);
        if cached.Some? {
          return Ok(cached.value);
        }
      }
      r := reply;
      if reply.Ok? {
        StorePayload(reply.value, now);
      }
    }

    /**
     * `_fetch_transactions`: the cached page unless a refresh is forced or
     * the cached page is empty; otherwise the collector's `reply`, stored.
     */
    method FetchTransactions(page: int, now: int, forceRefresh: bool, reply: Result<HistoryPayload, Error>)
      returns (r: Result<HistoryPayload, Error>)
      modifies this
      ensures r == old(PageFetch(page, now, forceRefresh, reply))
      ensures transactions == old(TransactionsAfter(page, now, forceRefresh, reply))
      ensures payload == old(payload) && payloadTs == old(payloadTs)
      ensures section == old(section) && historyPage == old(historyPage)
    {
      if !forceRefresh {
        var cached := CachedTransactions(page, now);
        if cached.Some? && cached.value.History? {
          return Ok(cached.value);
        }
      }
      r := reply;
      if reply.Ok? {
        StoreTransactions(page, reply.value, now);
      }
    }

    /**
     * `lk_start`: the payload (or the apology when the collector fails), the
     * transactions page on the history section (an empty page when the
     * collector fails), the section's text and keyboard, and the section
     * remembered.
     */
    method Start(section: string, page: int, forceRefresh: bool, now: int,
                 payloadReply: Result<Payload, Error>, historyReply: Result<HistoryPayload, Error>)
      returns (view: View)
      modifies this
      ensures view == SectionView(section, page, old(PayloadFetch(now, forceRefresh, payloadReply)),
                                  old(PageFetch(page, now, forceRefresh, historyReply)))
      ensures (payload, payloadTs) == old(PayloadAfter(now, forceRefresh, payloadReply))
      ensures transactions == if old(PayloadFetch(now, forceRefresh, payloadReply)).Ok? && section == HistorySection
                              then old(TransactionsAfter(page, now, forceRefresh, historyReply)) else old(transactions)
      ensures view.Shown? ==> this.section == Some(section)
      ensures view.Shown? && section == HistorySection ==> historyPage == Some(page)
      ensures view.Shown? && section != HistorySection ==> historyPage == old(historyPage)
      ensures !view.Shown? ==> this.section == old(this.section) && historyPage == old(historyPage)
    {
      var fetched := FetchPayload(now, forceRefresh, payloadReply);
      if fetched.Err? {
        if fetched.error.CollectorAPIError? {
          return Unavailable;
        }
        return Failed(fetched.error);
      }
      var pageReply: Result<HistoryPayload, Error> := Ok(EmptyHistory);
      if section == HistorySection {
        pageReply := FetchTransactions(page, now, forceRefresh, historyReply);
      }
      view := ShowView(section, page, fetched.value, pageReply);
      if view.Shown? {
        this.section := Some(section);
        if section == HistorySection {
          historyPage := Some(page);
        }
      }
    }

    /** The payload and its time after `_handle_payment_request`. */
    function PaidAfter(data: string, now: int, firstReply: Result<Payload, Error>, refreshReply: Result<Payload, Error>)
      : (s: (Option<Payload>, Option<int>))
      reads this`payload, this`payloadTs
      ensures PaidId(data).None? ==> s == (payload, payloadTs)
      ensures PaidId(data).Some? && refreshReply.Ok? && PayloadFetch(now, false, firstReply).Ok? &&
              Some(PaidId(data).value) !in PendingIds(PayloadFetch(now, false, firstReply).value)
              ==> s == (Some(refreshReply.value), Some(now))
    {
      var id := PaidId(data);
      var first := PayloadFetch(now, false, firstReply);
      if id.None? then (payload, payloadTs)
      else if first.Ok? && Some(id.value) !in PendingIds(first.value) && refreshReply.Ok? then (Some(refreshReply.value), Some(now))
      else PayloadAfter(now, false, firstReply)
    }

    /**
     * `_handle_payment_request`: the payment id from the data, a search of the
     * pending payments of the (cached) payload, one forced refresh when the id
     * is not there, then the request to the admins.
     */
    method RequestPayment(data: string, now: int, user: Common.User, adminChannel: Option<int>, adminTopic: Option<int>,
                          firstReply: Result<Payload, Error>, refreshReply: Result<Payload, Error>)
      returns (answer: PaidAnswer, fetches: nat)
      modifies this
      ensures (answer, fetches) ==
        PaidOutcome(PaidId(data), old(PayloadFetch(now, false, firstReply)), refreshReply, adminChannel, adminTopic, user)
      ensures (payload, payloadTs) == old(PaidAfter(data, now, firstReply, refreshReply))
      ensures answer.Sent? ==> payload.Some? && Some(PaidId(data).value) in PendingIds(payload.value)
      ensures transactions == old(transactions) && section == old(section) && historyPage == old(historyPage)
    {
      fetches := 0;
      var id := PaidId(data);
      if id.None? {
        return Refused(BadPayment), fetches;
      }
      var first := FetchPayload(now, false, firstReply);
      fetches := 1;
      if first.Err? {
        if first.error.CollectorAPIError? {
          return Refused(LkDown), fetches;
        }
        return Escaped(first.error), fetches;
      }
      var found := Some(id.value) in PendingIds(first.value);
      if !found {
        var second := FetchPayload(now, true, refreshReply);
        fetches := 2;
        if second.Err? {
          if !second.error.CollectorAPIError? {
            return Escaped(second.error), fetches;
          }
        } else {
          found := Some(id.value) in PendingIds(second.value);
        }
        if !found {
          return Refused(NotFound), fetches;
        }
      }
      answer := Sent(Common.SendPaymentRequest(adminChannel, adminTopic, user, id.value));
    }

    /**
     * `handle_lk_callback`: nothing without a query; otherwise the query is
     * answered and its data (`""` when it has none) routed to the paid
     * request, a history page, or a section.
     */
    method HandleCallback(query: Option<Option<string>>, now: int, user: Common.User,
                          adminChannel: Option<int>, adminTopic: Option<int>,
                          payloadReply: Result<Payload, Error>, refreshReply: Result<Payload, Error>,
                          historyReply: Result<HistoryPayload, Error>)
      returns (answered: bool, route: Route, view: Option<View>, paid: Option<PaidAnswer>)
      modifies this
      ensures answered <==> query.Some?
      ensures answered ==> route == RouteLk(query.value.GetOr(""))
      ensures !answered ==> route == NoRoute && view.None? && paid.None? && unchanged(this)
      ensures route.NoRoute? ==> view.None? && paid.None? && unchanged(this)
      ensures route.PaymentRequest? ==> (view.None? && paid ==
        Some(PaidOutcome(PaidId(route.data), old(PayloadFetch(now, false, payloadReply)), refreshReply,
                         adminChannel, adminTopic, user).0))
      ensures route.PaymentRequest? ==>
        (payload, payloadTs) == old(PaidAfter(route.data, now, payloadReply, refreshReply)) &&
        transactions == old(transactions) && section == old(section) && historyPage == old(historyPage)
      ensures route.ShowHistory? ==> (paid.None? && view ==
        Some(SectionView(HistorySection, route.page, old(PayloadFetch(now, false, payloadReply)),
                         old(PageFetch(route.page, now, false, historyReply)))))
      ensures route.ShowSection? ==> (paid.None? && view ==
        Some(SectionView(route.section, 1, old(PayloadFetch(now, false, payloadReply)),
                         old(PageFetch(1, now, false, historyReply)))))
      ensures route.ShowHistory? || route.ShowSection? ==> (payload, payloadTs) == old(PayloadAfter(now, false, payloadReply))
      ensures route.ShowHistory? ==>
        transactions == if old(PayloadFetch(now, false, payloadReply)).Ok?
                        then old(TransactionsAfter(route.page, now, false, historyReply)) else old(transactions)
      ensures route.ShowSection? ==> route.section != HistorySection ==> transactions == old(transactions)
      ensures route.ShowSection? && view.value.Shown? ==> section == Some(route.section)
      ensures route.ShowHistory? && view.value.Shown? ==> section == Some(HistorySection) && historyPage == Some(route.page)
    {
      view, paid := None, None;
      if query.None? {
        return false, NoRoute, view, paid;
      }
      answered := true;
      route := RouteLk(query.value.GetOr(""));
      match route {
        case PaymentRequest(data) =>
          var answer, _ := RequestPayment(data, now, user, adminChannel, adminTopic, payloadReply, refreshReply);
          paid := Some(answer);
        case ShowHistory(page) =>
          var shown := Start(HistorySection, page, false, now, payloadReply, historyReply);
          view := Some(shown);
        case ShowSection(name) =>
          var shown := Start(name, 1, false, now, payloadReply, historyReply);
          view := Some(shown);
        case NoRoute =>
      }
    }
  }
}
