/**
 * The conversation state the handlers share and the dispatcher's choice of
 * handler.  Text messages are offered to the message handlers, and callback
 * queries to the callback handlers, in the order they are registered; the
 * first whose filter accepts the update handles it.
 */
module Dialog {
  import opened Wrappers
  import opened Text
  import opened Ledger
  import Keyboards

  /** The expense type chosen with the "personal" / "family" buttons. */
  datatype Kind = Personal | Family

  function KindOf(data: string): (k: Option<Kind>)
    ensures k == Some(Personal) <==> data == "personal"
    ensures k == Some(Family) <==> data == "family"
  {
    if data == "personal" then Some(Personal) else if data == "family" then Some(Family) else None
  }

  /** The statistics type chosen with personal_stats / family_stats / all_stats. */
  datatype Scope = PersonalStats | FamilyStats | AllStats

  function ScopeOf(data: string): Option<Scope> {
    if data == "personal_stats" then Some(PersonalStats)
    else if data == "family_stats" then Some(FamilyStats)
    else if data == "all_stats" then Some(AllStats)
    else None
  }

  /**
   * A user's entry in user_data: the keys category, amount, expense_type,
   * awaiting_comment and comment; None stands for a missing key or a None value.
   */
  datatype Draft = Draft(
    category: Option<string>,
    amount: Option<real>,
    kind: Option<Kind>,
    awaitingComment: bool,
    comment: Option<string>)

  /** The edit flow's FSM state. */
  datatype EditStep = SelectField | EnterNewValue

  /** A user's FSM context: the state and the data stored with update_data. */
  datatype Session = Session(step: Option<EditStep>, expenseId: Option<string>, field: Option<string>)

  const NoSession: Session := Session(None, None, None)

  /** An update from the messaging endpoint. */
  datatype Event =
    | Message(user: UserId, text: string)
    | Callback(user: UserId, data: string)

  /** The handlers, message ones first, each in registration order. */
  datatype Handler =
    | SendWelcome | CreateFamily | JoinFamily | HandleFamilyId | StartAddExpense
    | HandleAmount | HandleComment | ShowStatsMenu | ShowLastExpenses | HandleNewValue | HandleUnknown
    | HandleCategory | HandleExpenseType | HandleSkipComment | HandleStatsType
    | HandleDeleteExpense | HandleEditExpense | HandleSelectField | Unhandled

  const CreateFamilyButton: string := "Создать семью"
  const JoinFamilyButton: string := "Вступить в семью"
  const AddExpenseButton: string := "Записать расход"
  const StatsButton: string := "Посмотреть статистику"
  const RecentButton: string := "Последние траты"

  /** The Command("start") filter: the first word of the text is /start. */
  predicate IsStartCommand(text: string) {
    FirstWord(text) == "/start"
  }

  /** The filter of handle_comment: the user's entry has awaiting_comment set. */
  predicate AwaitingComment(draft: Option<Draft>) {
    draft.Some? && draft.value.awaitingComment
  }

  /** Which message handler takes a text, in the order of bot.py:207-709. */
  function RouteMessage(text: string, draft: Option<Draft>, step: Option<EditStep>): (h: Handler)
    ensures h != Unhandled
  {
    if IsStartCommand(text) then SendWelcome
    else if text == CreateFamilyButton then CreateFamily
    else if text == JoinFamilyButton then JoinFamily
    else if StartsWith(text, "family-") then HandleFamilyId
    else if text == AddExpenseButton then StartAddExpense
    else if AmountFilter(text) then HandleAmount
    else if AwaitingComment(draft) then HandleComment
    else if text == StatsButton then ShowStatsMenu
    else if text == RecentButton then ShowLastExpenses
    else if step == Some(EnterNewValue) then HandleNewValue
    else HandleUnknown
  }

  /** Which callback handler takes a payload, in the order of bot.py:294-675; none may. */
  function RouteCallback(data: string, step: Option<EditStep>): Handler {
    if data in Keyboards.Categories then HandleCategory
    else if KindOf(data).Some? then HandleExpenseType
    else if data == "skip_comment" then HandleSkipComment
    else if ScopeOf(data).Some? then HandleStatsType
    else if StartsWith(data, "delete_") then HandleDeleteExpense
    else if StartsWith(data, "edit_") && step == Some(SelectField) then HandleEditExpense
    else if step == Some(SelectField) then HandleSelectField
    else Unhandled
  }

  function Route(e: Event, draft: Option<Draft>, step: Option<EditStep>): (h: Handler)
    ensures e.Message? ==> h != Unhandled
  {
    match e
    case Message(_, text) => RouteMessage(text, draft, step)
    case Callback(_, data) => RouteCallback(data, step)
  }

  /** A text whose first character is neither '/' nor whitespace is no /start command. */
  lemma {:induction false} NoStartCommand(text: string)
    requires text != [] && text[0] != '/' && !IsSpace(text[0])
    ensures !IsStartCommand(text)
  {
    assert TrimStart(text) == text;
    assert TakeWord(text) == [text[0]] + TakeWord(text[1..]);
  }

  /** A text whose first character is neither '.' nor a digit fails the amount filter. */
  lemma {:induction false} NoAmount(text: string)
    requires text != [] && text[0] != '.' && !IsDigit(text[0])
    ensures !AmountFilter(text)
  {
    var w := Without(text, '.');
    assert w == [text[0]] + Without(text[1..], '.');
    assert w[0] == text[0];
    assert !AllDigits(w);
  }

  /**
   * While a comment is awaited, pressing "Посмотреть статистику" is taken as
   * the comment: handle_comment is registered before show_stats_menu.
   */
  lemma {:induction false} StatsButtonTakenAsComment(user: UserId, draft: Draft, step: Option<EditStep>)
    requires draft.awaitingComment
    ensures Route(Message(user, StatsButton), Some(draft), step) == HandleComment
  {
    NoStartCommand(StatsButton);
    NoAmount(StatsButton);
    FirstCharDiffers(StatsButton, "family-");
    assert |StatsButton| != |CreateFamilyButton| && |StatsButton| != |JoinFamilyButton|;
    assert |StatsButton| != |AddExpenseButton|;
  }

  lemma {:induction false} WithoutAbsent(s: string, c: char)
    requires forall i :: 0 <= i < |s| ==> s[i] != c
    ensures Without(s, c) == s
  {
    if s != [] {
      WithoutAbsent(s[1..], c);
    }
  }

  /**
   * While a comment is awaited, a comment made of digits is read as a new
   * amount: handle_amount is registered before handle_comment.
   */
  lemma {:induction false} DigitCommentTakenAsAmount(user: UserId, text: string, draft: Draft, step: Option<EditStep>)
    requires draft.awaitingComment && IsDigitText(text)
    ensures Route(Message(user, text), Some(draft), step) == HandleAmount
  {
    assert IsDigit(text[0]);
    NoStartCommand(text);
    FirstCharDiffers(text, "family-");
    assert text != CreateFamilyButton by { assert text[0] != CreateFamilyButton[0]; }
    assert text != JoinFamilyButton by { assert text[0] != JoinFamilyButton[0]; }
    assert text != AddExpenseButton by { assert text[0] != AddExpenseButton[0]; }
    WithoutAbsent(text, '.');
    assert AmountFilter(text);
    assert RouteMessage(text, Some(draft), step) == HandleAmount;
  }

  /**
   * The edit flow cannot start: handle_edit_expense and handle_select_field
   * need the SELECT_FIELD state, which only handle_edit_expense sets, and
   * handle_new_value needs ENTER_NEW_VALUE, which only handle_select_field sets.
   */
  lemma {:induction false} EditHandlersNeedEditState(e: Event, draft: Option<Draft>)
    ensures Route(e, draft, None) != HandleEditExpense
    ensures Route(e, draft, None) != HandleSelectField
    ensures Route(e, draft, None) != HandleNewValue
  {
    match e
    case Message(_, text) =>
      if IsStartCommand(text) || text == CreateFamilyButton || text == JoinFamilyButton
         || StartsWith(text, "family-") || text == AddExpenseButton || AmountFilter(text)
         || AwaitingComment(draft) || text == StatsButton || text == RecentButton {
      } else {
        assert RouteMessage(text, draft, None) == HandleUnknown;
      }
    case Callback(_, data) =>
      if data in Keyboards.Categories || KindOf(data).Some? || data == "skip_comment"
         || ScopeOf(data).Some? || StartsWith(data, "delete_") {
      } else {
        assert RouteCallback(data, None) == Unhandled;
      }
  }

  /** Plain ASCII callback data never matches a category button. */
  lemma {:induction false} NotACategory(data: string)
    requires data != [] && data[0] < '\U{2000}'
    ensures data !in Keyboards.Categories
  {
    Keyboards.CategoriesAreSymbols();
  }

  /** Every category button reaches handle_category. */
  lemma {:induction false} CategoryButtonsReachHandleCategory(user: UserId, c: string, step: Option<EditStep>)
    requires c in Keyboards.Categories
    ensures Route(Callback(user, c), None, step) == HandleCategory
  {
  }

  /** The expense type buttons reach handle_expense_type. */
  lemma {:induction false} TypeButtonsReachHandleExpenseType(user: UserId, data: string, step: Option<EditStep>)
    requires data == "personal" || data == "family"
    ensures Route(Callback(user, data), None, step) == HandleExpenseType
  {
    NotACategory(data);
  }

  /** The skip button reaches handle_skip_comment. */
  lemma {:induction false} SkipButtonReachesHandleSkipComment(user: UserId, step: Option<EditStep>)
    ensures Route(Callback(user, "skip_comment"), None, step) == HandleSkipComment
  {
    NotACategory("skip_comment");
  }

  /** The statistics buttons reach handle_stats_type. */
  lemma {:induction false} StatsButtonsReachHandleStatsType(user: UserId, data: string, step: Option<EditStep>)
    requires data == "personal_stats" || data == "family_stats" || data == "all_stats"
    ensures Route(Callback(user, data), None, step) == HandleStatsType
  {
    NotACategory(data);
    assert |data| > 8;
  }

  /** A delete button reaches handle_delete_expense whatever the id it carries. */
  lemma {:induction false} DeleteButtonReachesDelete(user: UserId, expenseId: string, step: Option<EditStep>)
    ensures Route(Callback(user, Keyboards.DeleteButton(expenseId).callbackData), None, step) == HandleDeleteExpense
  {
    var data := Keyboards.DeleteButton(expenseId).callbackData;
    assert data[0] == 'd';
    NotACategory(data);
    assert data[0] != "personal"[0] && data[0] != "family"[0] && data[0] != "skip_comment"[0];
    assert data[0] != "personal_stats"[0] && data[0] != "family_stats"[0] && data[0] != "all_stats"[0];
  }
}
