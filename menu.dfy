/**
 * The main menu (handlers/menu.py): its keyboard, the choice between the
 * menu and the help text, and the dispatch of `menu:` callbacks to the help
 * view, the domain prompt, a dashboard section, or the default menu.
 */
module Menu {
  import opened Wrappers
  import opened PyStr
  import Lk

  const MenuTag := "menu:"
  const LkWord := "lk"
  const HelpWord := "help"
  const DomainWord := "domain"
  const MainView := "main"

  /** `_build_menu_text()`. */
  const MenuText := "Привет! Главное меню.\nВыбери раздел ниже, я обновлю сообщение без спама."

  /** `_build_help_text()`. */
  const HelpText := "Команды:\n/lk - Личный кабинет\n/me - Личный кабинет\n/start - Главное меню\n/menu - Главное меню\n/add <домен> <категория> - Ручное добавление домена\n\nМожно просто отправить домен — я уточню действие."

  const DomainPrompt := "Пришли домен сообщением, я уточню действие."

  /** `_build_main_menu_keyboard()`. */
  const MainKeyboard: seq<seq<Lk.Button>> := [
    [Lk.Button("Личный кабинет", MenuTag + LkWord)],
    [Lk.Button("Баланс", MenuTag + Lk.BalanceSection), Lk.Button("История", MenuTag + Lk.HistorySection)],
    [Lk.Button("Подписки", MenuTag + Lk.SubscriptionsSection), Lk.Button("Платежи", MenuTag + Lk.PaymentsSection)],
    [Lk.Button("Займы", MenuTag + Lk.LoansSection), Lk.Button("Добавить домен", MenuTag + DomainWord)],
    [Lk.Button("Помощь", MenuTag + HelpWord)]]

  /** A message with its keyboard. */
  datatype Screen = Screen(text: string, keyboard: seq<seq<Lk.Button>>)

  lemma HelpIsNotMenu()
    ensures HelpText != MenuText
  {
    assert |HelpText| != |MenuText|;
  }

  /** `show_main_menu`: the help text exactly for the `help` view, always the main keyboard. */
  function ShowMainMenu(view: string): (s: Screen)
    ensures s.text == HelpText <==> view == HelpWord
    ensures s.text == MenuText <==> view != HelpWord
    ensures s.keyboard == MainKeyboard
  {
    HelpIsNotMenu();
    Screen(if view == HelpWord then HelpText else MenuText, MainKeyboard)
  }

  /** The dashboard sections a `menu:` button may open. */
  const LkSections: set<string> :=
    {LkWord, Lk.BalanceSection, Lk.HistorySection, Lk.SubscriptionsSection, Lk.PaymentsSection, Lk.LoansSection}

  /** What a menu callback leads to: a screen of the menu, or `lk_start` on a section. */
  datatype Outcome = Show(screen: Screen) | OpenLk(section: string)

  /** `"summary" if section == "lk" else section`. */
  function LkTarget(section: string): string {
    if section == LkWord then Lk.SummarySection else section
  }

  /** The dispatch of `handle_menu_callback`, after it has answered the query. */
  function MenuDispatch(data: string): (o: Outcome)
    ensures data == MenuTag + HelpWord ==> o == Show(ShowMainMenu(HelpWord))
    ensures data == MenuTag + DomainWord ==> o == Show(Screen(DomainPrompt, MainKeyboard))
    ensures o.OpenLk? <==> StartsWith(data, MenuTag) && data[|MenuTag|..] in LkSections
    ensures o.OpenLk? ==> o.section == LkTarget(data[|MenuTag|..])
    ensures o.Show? && o.screen.text != HelpText && o.screen.text != DomainPrompt ==> o == Show(ShowMainMenu(MainView))
  {
    if data == MenuTag + HelpWord then Show(ShowMainMenu(HelpWord))
    else if data == MenuTag + DomainWord then Show(Screen(DomainPrompt, MainKeyboard))
    else if StartsWith(data, MenuTag) && AfterMenuTag(data) in LkSections then OpenLk(LkTarget(AfterMenuTag(data)))
    else Show(ShowMainMenu(MainView))
  }

  /** `data.split(":", 1)[1]` for data that starts with `menu:`. */
  function AfterMenuTag(data: string): (rest: string)
    requires StartsWith(data, MenuTag)
    ensures rest == data[|MenuTag|..]
  {
    assert data[4] == ':' && forall k :: 0 <= k < 4 ==> data[k] != ':';
    data[Find(data, ':') + 1..]
  }

  /** `handle_menu_callback`: nothing without a query, otherwise the dispatch of its data (`""` when it has none). */
  function HandleMenuCallback(query: Option<Option<string>>): (o: Option<Outcome>)
    ensures o.Some? <==> query.Some?
    ensures o.Some? ==> o.value == MenuDispatch(query.value.GetOr(""))
  {
    if query.None? then None else Some(MenuDispatch(query.value.GetOr("")))
  }

  lemma PrefixCancel(p: string, a: string, b: string)
    ensures p + a == p + b ==> a == b
  {
    if p + a == p + b {
      assert (p + a)[|p|..] == a && (p + b)[|p|..] == b;
    }
  }

  lemma SectionsAreNotCommands()
    ensures HelpWord !in LkSections && DomainWord !in LkSections && MainView !in LkSections
  {
    assert HelpWord[0] != LkWord[0] && HelpWord[0] != Lk.BalanceSection[0];
    assert HelpWord[0] != Lk.SubscriptionsSection[0] && HelpWord[0] != Lk.PaymentsSection[0];
    assert HelpWord[0] != Lk.LoansSection[0] && HelpWord[1] != Lk.HistorySection[1];
    assert DomainWord[0] != LkWord[0] && DomainWord[0] != Lk.BalanceSection[0];
    assert DomainWord[0] != Lk.SubscriptionsSection[0] && DomainWord[0] != Lk.PaymentsSection[0];
    assert DomainWord[0] != Lk.LoansSection[0] && DomainWord[0] != Lk.HistorySection[0];
    assert MainView[0] != LkWord[0] && MainView[0] != Lk.BalanceSection[0];
    assert MainView[0] != Lk.SubscriptionsSection[0] && MainView[0] != Lk.PaymentsSection[0];
    assert MainView[0] != Lk.LoansSection[0] && MainView[0] != Lk.HistorySection[0];
  }

  /** A section button of the menu opens its dashboard section, `lk` opening the summary. */
  lemma SectionButtonOpens(section: string)
    requires section in LkSections
    ensures MenuDispatch(MenuTag + section) == OpenLk(LkTarget(section))
  {
    var data := MenuTag + section;
    assert data[|MenuTag|..] == section;
    assert data[..|MenuTag|] == MenuTag;
    SectionsAreNotCommands();
    PrefixCancel(MenuTag, section, HelpWord);
    PrefixCancel(MenuTag, section, DomainWord);
  }

  /** Each button of the main menu carries `menu:` and the section or command it names. */
  lemma KeyboardCommands()
    ensures forall row, b :: row in MainKeyboard && b in row ==>
      b.data == MenuTag + b.data[|MenuTag|..] && b.data[|MenuTag|..] in LkSections + {HelpWord, DomainWord}
  {
    forall row, b | row in MainKeyboard && b in row
      ensures b.data == MenuTag + b.data[|MenuTag|..] && b.data[|MenuTag|..] in LkSections + {HelpWord, DomainWord}
    {
      var s :| s in LkSections + {HelpWord, DomainWord} && b.data == MenuTag + s;
      assert b.data[|MenuTag|..] == s;
    }
  }

  /** Help, the domain prompt, or a dashboard section: anything but the default menu. */
  predicate Reaches(o: Outcome) {
    o.OpenLk? || o == Show(ShowMainMenu(HelpWord)) || o == Show(Screen(DomainPrompt, MainKeyboard))
  }

  lemma CommandDispatch(command: string)
    requires command in LkSections + {HelpWord, DomainWord}
    ensures Reaches(MenuDispatch(MenuTag + command))
  {
    if command in LkSections {
      SectionButtonOpens(command);
    }
  }

  /**
   * No button of the main menu falls through to the default: each opens the
   * help view, the domain prompt, or a dashboard section.
   */
  lemma MenuButtonsDispatch()
    ensures forall row, b :: row in MainKeyboard && b in row ==> Reaches(MenuDispatch(b.data))
  {
    KeyboardCommands();
    forall row, b | row in MainKeyboard && b in row
      ensures Reaches(MenuDispatch(b.data))
    {
      CommandDispatch(b.data[|MenuTag|..]);
    }
  }

  /** The home button of the dashboard (`menu:main`) gives the default menu. */
  lemma HomeButtonShowsMenu()
    ensures MenuDispatch(Lk.HomeData) == Show(ShowMainMenu(MainView))
  {
    var data := Lk.HomeData;
    assert data == MenuTag + MainView;
    assert data[|MenuTag|..] == MainView;
    SectionsAreNotCommands();
    assert MainView != HelpWord && MainView != DomainWord by {
      assert MainView[0] != HelpWord[0] && MainView[0] != DomainWord[0];
    }
    PrefixCancel(MenuTag, MainView, HelpWord);
    PrefixCancel(MenuTag, MainView, DomainWord);
  }

  /** Each section the menu opens is one the dashboard has a text for: none but `lk` falls back to the summary. */
  lemma OpenedSectionsHaveTheirText(section: string)
    requires section in LkSections && section != LkWord
    ensures Lk.TextFor(LkTarget(section), LkTarget(section) == Lk.HistorySection) != Lk.SummaryText
  {
    assert LkTarget(section) == section by {
      assert section != LkWord;
    }
  }
}
