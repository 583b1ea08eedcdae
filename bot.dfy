/**
 * The running bot: the spreadsheet, the user_data dictionary of
 * half-entered expenses and the FSM contexts of the edit flow, one method
 * per handler, and the dispatcher that hands each update to the first
 * handler whose filter accepts it.
 */
module Bot {
  import opened Wrappers
  import opened Text
  import opened Sheets
  import opened Ledger
  import opened Families
  import opened Dialog
  import opened Stats
  import opened Recent
  import opened Deletion
  import Keyboards

  /**
   * What the outside world supplies to one update: the clock as
   * "%Y-%m-%d %H:%M:%S", the fresh uuid4 text, the six random characters of
   * a new family id, and whether the store accepts an append_row.
   */
  datatype Env = Env(now: string, expenseId: string, familySuffix: string, appendOk: bool)

  predicate EnvOk(env: Env) {
    IsTimestamp(env.now) && |env.familySuffix| == 6
  }

  /** What a handler answers; Crashed when it raises and answers nothing. */
  datatype Reply =
    | Welcome
    | CreateRefused                   // "... Создание новой семьи невозможно."
    | FamilyCreated(familyId: string)
    | CreateFailed
    | AskFamilyId
    | AlreadyInFamily                 // "Вы уже состоите в семье."
    | FamilyNotFound
    | Joined
    | JoinFailed
    | AskCategory(keyboard: seq<seq<Keyboards.Button>>)
    | AskAmount(chosen: string)
    | AskKind
    | AskComment
    | Saved(category: Option<string>, amount: Option<real>, kind: Kind, comment: string)
    | SaveFailed
    | StatsMenu
    | StatsAnswer(stats: StatsReply)
    | NoExpenses
    | Cards(expenses: seq<Stamped>)
    | Deleted(outcome: DeleteOutcome)
    | AskField
    | AskNewValue
    | Updated
    | UpdateFailed
    | ChooseFromMenu
    | Crashed
    | Ignored                         // no callback handler took the query

  /** get_last_expenses' default limit, as show_last_expenses calls it. */
  const RecentLimit: nat := 5

  /** An entry with none of its keys. */
  const NoDraft: Draft := Draft(None, None, None, false, None)

  /** The cell append_row writes for a value that may be None. */
  function TextCell(v: Option<string>): Cell {
    match v
    case Some(s) => Str(s)
    case None => Blank
  }

  function AmountCell(v: Option<real>): Cell {
    match v
    case Some(x) => Num(x)
    case None => Blank
  }

  /** data.get("comment", "") */
  function CommentOf(d: Draft): string {
    d.comment.GetOr("")
  }

  /** The row process_expense appends to a personal sheet, under the personal header. */
  function PersonalRow(env: Env, d: Draft): (row: Row)
    ensures |row| == |UserHeader| == 7
    ensures row[0] == Str(env.expenseId) && row[1] == Str(env.now)
    ensures row[2] == TextCell(d.category) && row[3] == AmountCell(d.amount)
    ensures row[4] == Blank && row[5] == Str("Личная") && row[6] == Str(CommentOf(d))
  {
    [Str(env.expenseId), Str(env.now), TextCell(d.category), AmountCell(d.amount), Blank, Str("Личная"), Str(CommentOf(d))]
  }

  /**
   * The row process_expense appends to a family sheet: eight cells, so the
   * comment lies beyond the migrated seven-column header.
   */
  function FamilyRow(env: Env, d: Draft, user: UserId): (row: Row)
    ensures |row| == 8
    ensures row[0] == Str(env.expenseId) && row[1] == Str(env.now)
    ensures row[2] == TextCell(d.category) && row[3] == AmountCell(d.amount)
    ensures row[4] == Blank && row[5] == Str("Семейная") && row[6] == Str(user) && row[7] == Str(CommentOf(d))
  {
    [Str(env.expenseId), Str(env.now), TextCell(d.category), AmountCell(d.amount), Blank, Str("Семейная"), Str(user), Str(CommentOf(d))]
  }

  /** The column handle_new_value writes for an edited field, as written. */
  function EditColumn(field: string): (c: Option<nat>)
    ensures c.Some? <==> field == "category" || field == "amount" || field == "comment"
    ensures c.Some? ==> 1 <= c.value <= |UserHeader|
  {
    if field == "category" then Some(2)
    else if field == "amount" then Some(3)
    else if field == "comment" then Some(6)
    else None
  }

  /**
   * Against the personal header, the column map is one off: an edit of the
   * category lands in Дата, of the amount in Категория, of the comment in Тип.
   */
  lemma {:induction false} EditColumnsMisaligned()
    ensures UserHeader[EditColumn("category").value - 1] == Str("Дата")
    ensures UserHeader[EditColumn("amount").value - 1] == Str("Категория")
    ensures UserHeader[EditColumn("comment").value - 1] == Str("Тип")
  {
  }

  /** Every family sheet (title "family-...") listing the user in its user_id column. */
  predicate InFamilySheet(book: Book, user: UserId) {
    exists t :: t in book && StartsWith(t, "family-") && HasMember(book[t], user)
  }

  /** The registry, when it exists, is well formed. */
  predicate RegistryValid(book: Book) {
    FamiliesTitle in book ==> RegistryOk(book[FamiliesTitle])
  }

  lemma {:induction false} KeptRegistryValid(b1: Book, b2: Book)
    requires RegistryValid(b1) && RegistryKept(b1, b2)
    ensures RegistryValid(b2)
  {
    EmptyRegistryOk();
  }

  /** The answer show_last_expenses gives for what get_last_expenses returned. */
  function RecentReply(latest: Option<seq<Stamped>>): Reply {
    match latest
    case None => Crashed
    case Some(xs) => if xs == [] then NoExpenses else Cards(xs)
  }

  /** m1 agrees with m0 on every user but one. */
  ghost predicate SameElsewhere<V>(m0: map<UserId, V>, m1: map<UserId, V>, user: UserId) {
    forall u :: u != user ==> (u in m1 <==> u in m0) && (u in m1 ==> m1[u] == m0[u])
  }

  lemma {:induction false} RemovalKeepsElsewhere<V>(m: map<UserId, V>, user: UserId)
    ensures SameElsewhere(m, m - {user}, user)
  {
  }

  lemma {:induction false} UpdateKeepsElsewhere<V>(m: map<UserId, V>, user: UserId, v: V)
    ensures SameElsewhere(m, m[user := v], user)
  {
  }

  lemma {:induction false} ElsewhereTransitive<V>(m0: map<UserId, V>, m1: map<UserId, V>, m2: map<UserId, V>, user: UserId)
    requires SameElsewhere(m0, m1, user) && SameElsewhere(m1, m2, user)
    ensures SameElsewhere(m0, m2, user)
  {
  }

  /** The bot's state between updates: the spreadsheet, user_data and the FSM contexts. */
  datatype World = World(book: Book, userData: map<UserId, Draft>, sessions: map<UserId, Session>)

  /** user_data.get(user_id, {}) */
  function EntryOf(w: World, user: UserId): Draft {
    if user in w.userData then w.userData[user] else NoDraft
  }

  /** The FSM context of a user; an empty one when none is stored. */
  function SessionOf(w: World, user: UserId): Session {
    if user in w.sessions then w.sessions[user] else NoSession
  }

  /*
   * What each handler does to the state, from w0 to w1, and what it
   * answers.  The methods of ExpenseBot are proved to do exactly this, and
   * the dispatcher is proved to do what the handler it selects does.
   */

  /** send_welcome: the user's sheet is made sure of. */
  predicate Welcomed(w0: World, w1: World, r: Reply, user: UserId) {
    var o := OpenUserSheet(w0.book, user);
    && w1 == w0.(book := o.book) && user in w1.book
    && r == (if o.access == Ready then Welcome else Crashed)
  }

  /** create_family on the registry and the six random characters. */
  predicate FamilyCreation(w0: World, w1: World, r: Reply, user: UserId, env: Env)
    requires EnvOk(env)
  {
    var b := EnsureFamiliesList(w0.book);
    var reg := b[FamiliesTitle];
    var id := FamilyId(env.familySuffix);
    var title := FamilyTitle(id);
    && w1.userData == w0.userData && w1.sessions == w0.sessions
    && (HasMember(reg, user) ==> w1.book == b && r == CreateRefused)
    && (!HasMember(reg, user) && title in b ==> w1.book == b && r == CreateFailed)
    && (!HasMember(reg, user) && title !in b && !env.appendOk ==>
          w1.book == b[title := [FamilySheetHeader]] && r == CreateFailed)
    && (!HasMember(reg, user) && title !in b && env.appendOk ==>
          w1.book == b[title := [FamilySheetHeader]][FamiliesTitle := reg + [MemberRow(id, user, "creator")]]
          && r == FamilyCreated(id))
  }

  /** join_family: nothing changes; the answer says whether a family sheet lists the user. */
  predicate JoinChecked(w0: World, w1: World, r: Reply, user: UserId) {
    && w1 == w0
    && (r == AlreadyInFamily <==> InFamilySheet(w0.book, user))
    && (r == AlreadyInFamily || r == AskFamilyId)
  }

  /** handle_family_id on the registry: the text is the family id. */
  predicate FamilyIdHandled(w0: World, w1: World, r: Reply, user: UserId, text: string, env: Env) {
    var b := EnsureFamiliesList(w0.book);
    var reg := b[FamiliesTitle];
    && w1.userData == w0.userData && w1.sessions == w0.sessions
    && (!HasFamily(reg, text) ==> w1.book == b && r == FamilyNotFound)
    && (HasFamily(reg, text) && HasMember(reg, user) ==> w1.book == b && r == AlreadyInFamily)
    && (HasFamily(reg, text) && !HasMember(reg, user) && !env.appendOk ==> w1.book == b && r == JoinFailed)
    && (HasFamily(reg, text) && !HasMember(reg, user) && env.appendOk ==>
          w1.book == b[FamiliesTitle := reg + [MemberRow(text, user, "member")]] && r == Joined)
  }

  /** handle_amount: the amount is set, or the handler raises and nothing changes. */
  predicate AmountHandled(w0: World, w1: World, r: Reply, user: UserId, text: string) {
    && w1.book == w0.book && w1.sessions == w0.sessions
    && (ParseDecimal(text).None? || user !in w0.userData ==> w1.userData == w0.userData && r == Crashed)
    && (ParseDecimal(text).Some? && user in w0.userData ==>
          w1.userData == w0.userData[user := w0.userData[user].(amount := ParseDecimal(text))] && r == AskKind)
  }

  /**
   * process_expense: the row for the entry's type is appended to the sheet
   * it belongs in and the entry dropped; a missing type, an unreadable
   * sheet or a refused append keeps the entry.  A family entry of a user in
   * no family, or of a family without a sheet, is dropped unwritten.
   */
  predicate Committed(w0: World, w1: World, r: Reply, user: UserId, env: Env) {
    var d := EntryOf(w0, user);
    && w1.sessions == w0.sessions
    && match d.kind
       case None => w1 == w0 && r == SaveFailed
       case Some(Personal) =>
         var o := OpenUserSheet(w0.book, user);
         if o.access != Ready || !env.appendOk then
           w1.book == o.book && w1.userData == w0.userData && r == SaveFailed
         else
           && w1.book == o.book[user := o.book[user] + [PersonalRow(env, d)]]
           && w1.userData == w0.userData - {user}
           && r == Saved(d.category, d.amount, Personal, CommentOf(d))
       case Some(Family) =>
         var b := EnsureFamiliesList(w0.book);
         var saved := w1.userData == w0.userData - {user} && r == Saved(d.category, d.amount, Family, CommentOf(d));
         match FamilyOf(b[FamiliesTitle], user)
         case None => w1.book == b && saved
         case Some(f) =>
           var title := FamilyTitle(f);
           var o := OpenFamilySheet(b, title);
           match o.access
           case Absent => w1.book == o.book && saved
           case Broken => w1.book == o.book && w1.userData == w0.userData && r == SaveFailed
           case Ready =>
             if !env.appendOk then w1.book == o.book && w1.userData == w0.userData && r == SaveFailed
             else w1.book == o.book[title := o.book[title] + [FamilyRow(env, d, user)]] && saved
  }

  /**
   * handle_comment and handle_skip_comment: the comment is set in the
   * user's entry, then process_expense commits it; with no entry the
   * lookup raises and nothing changes.
   */
  predicate Commented(w0: World, w1: World, r: Reply, user: UserId, comment: string, env: Env) {
    if user !in w0.userData then w1 == w0 && r == Crashed
    else Committed(w0.(userData := w0.userData[user := w0.userData[user].(comment := Some(comment))]), w1, r, user, env)
  }

  /** show_last_expenses: the book and the cards of get_last_expenses. */
  predicate RecentShown(w0: World, w1: World, r: Reply, user: UserId) {
    var run := LastExpenses(w0.book, user, RecentLimit);
    w1 == w0.(book := run.0) && r == RecentReply(run.1)
  }

  /**
   * handle_new_value: the FSM context is cleared; the stored id read as a
   * row number and the field through the column map give the cell written.
   */
  predicate NewValueHandled(w0: World, w1: World, r: Reply, user: UserId, text: string) {
    var s := SessionOf(w0, user);
    var o := OpenUserSheet(w0.book, user);
    var row := if s.expenseId.Some? then ParseInt(s.expenseId.value) else None;
    var col := if s.field.Some? then EditColumn(s.field.value) else None;
    && w1.sessions == w0.sessions - {user} && w1.userData == w0.userData
    && if o.access == Ready && row.Some? && row.value >= 1 && col.Some? then
         w1.book == o.book[user := UpdateCell(o.book[user], row.value, col.value, Str(text))] && r == Updated
       else
         w1.book == o.book && r == UpdateFailed
  }

  /** handle_category: the user's entry becomes just the category. */
  predicate CategoryChosen(w0: World, w1: World, r: Reply, user: UserId, category: string) {
    && w1 == w0.(userData := w0.userData[user := Draft(Some(category), None, None, false, None)])
    && r == AskAmount(category)
  }

  /** handle_expense_type: a fresh entry keeping category and amount, awaiting a comment. */
  predicate KindChosen(w0: World, w1: World, r: Reply, user: UserId, kind: Kind) {
    var prev := EntryOf(w0, user);
    && w1 == w0.(userData := w0.userData[user := Draft(prev.category, prev.amount, Some(kind), true, None)])
    && r == AskComment
  }

  /** handle_stats_type: the book and the answer of the scope's statistics for the current month. */
  predicate StatsShown(w0: World, w1: World, r: Reply, user: UserId, scope: Scope, env: Env)
    requires EnvOk(env)
  {
    var run := MonthStats(w0.book, user, scope, MonthOf(env.now));
    w1 == w0.(book := run.book) && r == StatsAnswer(run.reply)
  }

  /** handle_delete_expense: the book and the outcome of the delete probe. */
  predicate DeleteHandled(w0: World, w1: World, r: Reply, user: UserId, data: string) {
    var run := DeleteExpense(w0.book, user, data);
    w1 == w0.(book := run.0) && r == Deleted(run.1)
  }

  /** handle_edit_expense: the id is stored and the field choice (re)entered. */
  predicate EditStarted(w0: World, w1: World, r: Reply, user: UserId, data: string) {
    var s := SessionOf(w0, user);
    && w1.book == w0.book && w1.userData == w0.userData
    && match SecondField(data)
       case None => w1.sessions == w0.sessions && r == Crashed
       case Some(id) => w1.sessions == w0.sessions[user := Session(Some(SelectField), Some(id), s.field)] && r == AskField
  }

  /** handle_select_field: the payload is stored as the field and a new value awaited. */
  predicate FieldChosen(w0: World, w1: World, r: Reply, user: UserId, data: string) {
    var s := SessionOf(w0, user);
    && w1 == w0.(sessions := w0.sessions[user := Session(Some(EnterNewValue), s.expenseId, Some(data))])
    && r == AskNewValue
  }

  /** A handler that only answers. */
  predicate Answered(w0: World, w1: World, r: Reply, answer: Reply) {
    w1 == w0 && r == answer
  }

  /** What the message handler h does with the sender's text. */
  predicate MessageDone(h: Handler, w0: World, w1: World, r: Reply, user: UserId, text: string, env: Env)
    requires EnvOk(env)
  {
    match h
    case SendWelcome => Welcomed(w0, w1, r, user)
    case CreateFamily => FamilyCreation(w0, w1, r, user, env)
    case JoinFamily => JoinChecked(w0, w1, r, user)
    case HandleFamilyId => FamilyIdHandled(w0, w1, r, user, text, env)
    case StartAddExpense => Answered(w0, w1, r, AskCategory(Keyboards.Layout(Keyboards.Categories)))
    case HandleAmount => AmountHandled(w0, w1, r, user, text)
    case HandleComment => Commented(w0, w1, r, user, Strip(text), env)
    case ShowStatsMenu => Answered(w0, w1, r, StatsMenu)
    case ShowLastExpenses => RecentShown(w0, w1, r, user)
    case HandleNewValue => NewValueHandled(w0, w1, r, user, text)
    case _ => Answered(w0, w1, r, ChooseFromMenu)
  }

  /** What the callback handler h does with the sender's payload; Unhandled answers nothing. */
  predicate CallbackDone(h: Handler, w0: World, w1: World, r: Reply, user: UserId, data: string, env: Env)
    requires EnvOk(env)
  {
    match h
    case HandleCategory => CategoryChosen(w0, w1, r, user, data)
    case HandleExpenseType => KindOf(data).Some? && KindChosen(w0, w1, r, user, KindOf(data).value)
    case HandleSkipComment => Commented(w0, w1, r, user, "", env)
    case HandleStatsType => ScopeOf(data).Some? && StatsShown(w0, w1, r, user, ScopeOf(data).value, env)
    case HandleDeleteExpense => DeleteHandled(w0, w1, r, user, data)
    case HandleEditExpense => EditStarted(w0, w1, r, user, data)
    case HandleSelectField => FieldChosen(w0, w1, r, user, data)
    case _ => Answered(w0, w1, r, Ignored)
  }

  /**
   * Whether the sheet a committed entry of the given type belongs in takes
   * its row: the user's own sheet must open and accept the append; a family
   * entry goes through when the user has no family or the family has no
   * sheet (the entry is dropped unwritten), or the sheet opens and accepts it.
   */
  predicate SaveSucceeds(book: Book, user: UserId, kind: Kind, env: Env) {
    match kind
    case Personal => OpenUserSheet(book, user).access == Ready && env.appendOk
    case Family =>
      var b := EnsureFamiliesList(book);
      match FamilyOf(b[FamiliesTitle], user)
      case None => true
      case Some(f) =>
        var a := OpenFamilySheet(b, FamilyTitle(f)).access;
        a == Absent || (a == Ready && env.appendOk)
  }

  /**
   * A comment (typed or skipped) saves the entry exactly when the entry has
   * a type and its sheet takes the row; then the answer echoes the comment
   * and the entry is gone, otherwise the entry stays, now with the comment.
   */
  lemma {:induction false} CommentSavedIff(w0: World, w1: World, r: Reply, user: UserId, c: string, env: Env)
    requires Commented(w0, w1, r, user, c, env)
    ensures r.Saved? <==> user in w0.userData && w0.userData[user].kind.Some?
                          && SaveSucceeds(w0.book, user, w0.userData[user].kind.value, env)
    ensures r.Saved? ==> r.comment == c && user !in w1.userData && r.kind == w0.userData[user].kind.value
    ensures !r.Saved? && user in w0.userData ==>
              user in w1.userData && w1.userData[user] == w0.userData[user].(comment := Some(c))
    ensures w1.sessions == w0.sessions
  {
    if user in w0.userData {
      var d := w0.userData[user].(comment := Some(c));
      var w := w0.(userData := w0.userData[user := d]);
      assert EntryOf(w, user) == d;
      match d.kind
      case None =>
      case Some(Personal) =>
      case Some(Family) =>
        var b := EnsureFamiliesList(w0.book);
        match FamilyOf(b[FamiliesTitle], user)
        case None =>
        case Some(f) =>
          var o := OpenFamilySheet(b, FamilyTitle(f));
          match o.access
          case Absent =>
          case Broken =>
          case Ready =>
    }
  }

  /**
   * A saved comment is in the row appended: column G of the user's sheet, or
   * column H, after the author in column G, of the family sheet; that row
   * closes the sheet and the rows before it are those the sheet had.
   */
  lemma {:induction false} CommentStored(w0: World, w1: World, r: Reply, user: UserId, c: string, env: Env)
    requires Commented(w0, w1, r, user, c, env) && r.Saved?
    ensures user in w0.userData
    ensures r.kind == Personal ==>
              var g := OpenUserSheet(w0.book, user).book[user];
              && user in w1.book && |w1.book[user]| == |g| + 1 && w1.book[user][..|g|] == g
              && w1.book[user][|g|][6] == Str(c)
    ensures r.kind == Family ==>
              var b := EnsureFamiliesList(w0.book);
              var fam := FamilyOf(b[FamiliesTitle], user);
              fam.Some? && OpenFamilySheet(b, FamilyTitle(fam.value)).access == Ready ==>
                var t := FamilyTitle(fam.value);
                var g := OpenFamilySheet(b, t).book[t];
                && t in w1.book && |w1.book[t]| == |g| + 1 && w1.book[t][..|g|] == g
                && w1.book[t][|g|][6] == Str(user) && w1.book[t][|g|][7] == Str(c)
  {
    CommentSavedIff(w0, w1, r, user, c, env);
    var d := w0.userData[user].(comment := Some(c));
    var w := w0.(userData := w0.userData[user := d]);
    assert EntryOf(w, user) == d && CommentOf(d) == c;
    if r.kind == Personal {
      var o := OpenUserSheet(w0.book, user);
      var g := o.book[user];
      assert w1.book[user] == g + [PersonalRow(env, d)];
    } else {
      var b := EnsureFamiliesList(w0.book);
      var fam := FamilyOf(b[FamiliesTitle], user);
      if fam.Some? && OpenFamilySheet(b, FamilyTitle(fam.value)).access == Ready {
        var t := FamilyTitle(fam.value);
        var g := OpenFamilySheet(b, t).book[t];
        assert w1.book[t] == g + [FamilyRow(env, d, user)];
      }
    }
  }

  /** w1 differs from w0 at most in the sender's entry and FSM context. */
  ghost predicate OnlySender(w0: World, w1: World, user: UserId) {
    forall u :: u != user ==> EntryOf(w1, u) == EntryOf(w0, u) && SessionOf(w1, u) == SessionOf(w0, u)
  }

  /** Committing a comment changes user_data only in the sender's entry. */
  lemma {:induction false} CommentedOnlySender(w0: World, w1: World, r: Reply, user: UserId, c: string, env: Env)
    requires Commented(w0, w1, r, user, c, env)
    ensures OnlySender(w0, w1, user)
  {
    CommentSavedIff(w0, w1, r, user, c, env);
    if user in w0.userData {
      assert w1.userData == w0.userData - {user} || w1.userData == w0.userData[user := w1.userData[user]];
    }
  }

  /** Every message handler touches only the sender's entry and FSM context. */
  lemma {:induction false} MessageOnlySender(h: Handler, w0: World, w1: World, r: Reply, user: UserId, text: string, env: Env)
    requires EnvOk(env) && MessageDone(h, w0, w1, r, user, text, env)
    ensures OnlySender(w0, w1, user)
  {
    match h
    case SendWelcome =>
    case CreateFamily =>
    case JoinFamily =>
    case HandleFamilyId =>
    case StartAddExpense =>
    case HandleAmount =>
    case HandleComment => CommentedOnlySender(w0, w1, r, user, Strip(text), env);
    case ShowStatsMenu =>
    case ShowLastExpenses =>
    case HandleNewValue =>
    case _ => assert Answered(w0, w1, r, ChooseFromMenu);
  }

  /**
   * Only handle_amount and handle_comment change user_data, and only
   * handle_new_value changes the FSM storage, clearing the sender's context.
   */
  lemma {:induction false} MessageFrame(h: Handler, w0: World, w1: World, r: Reply, user: UserId, text: string, env: Env)
    requires EnvOk(env) && MessageDone(h, w0, w1, r, user, text, env)
    ensures h != HandleAmount && h != HandleComment ==> w1.userData == w0.userData
    ensures h != HandleNewValue ==> w1.sessions == w0.sessions
    ensures h == HandleNewValue ==> user !in w1.sessions
  {
    match h
    case SendWelcome =>
    case CreateFamily =>
    case JoinFamily =>
    case HandleFamilyId =>
    case StartAddExpense =>
    case HandleAmount =>
    case HandleComment => CommentSavedIff(w0, w1, r, user, Strip(text), env);
    case ShowStatsMenu =>
    case ShowLastExpenses =>
    case HandleNewValue =>
    case _ => assert Answered(w0, w1, r, ChooseFromMenu);
  }

  /** Every callback handler touches only the sender's entry and FSM context. */
  lemma {:induction false} CallbackOnlySender(h: Handler, w0: World, w1: World, r: Reply, user: UserId, data: string, env: Env)
    requires EnvOk(env) && CallbackDone(h, w0, w1, r, user, data, env)
    ensures OnlySender(w0, w1, user)
  {
    match h
    case HandleCategory =>
    case HandleExpenseType =>
    case HandleSkipComment => CommentedOnlySender(w0, w1, r, user, "", env);
    case HandleStatsType =>
    case HandleDeleteExpense =>
    case HandleEditExpense =>
    case HandleSelectField =>
    case _ => assert Answered(w0, w1, r, Ignored);
  }

  /**
   * The dialog steps (category, type, edit, field) and an unhandled
   * callback leave the spreadsheet as it was, and only the edit steps
   * change the FSM storage.
   */
  lemma {:induction false} CallbackFrame(h: Handler, w0: World, w1: World, r: Reply, user: UserId, data: string, env: Env)
    requires EnvOk(env) && CallbackDone(h, w0, w1, r, user, data, env)
    ensures h in {HandleCategory, HandleExpenseType, HandleEditExpense, HandleSelectField} ==> w1.book == w0.book
    ensures h != HandleEditExpense && h != HandleSelectField ==> w1.sessions == w0.sessions
    ensures h == Unhandled ==> w1 == w0 && r == Ignored
  {
    match h
    case HandleCategory =>
    case HandleExpenseType =>
    case HandleSkipComment => CommentSavedIff(w0, w1, r, user, "", env);
    case HandleStatsType =>
    case HandleDeleteExpense =>
    case HandleEditExpense =>
    case HandleSelectField =>
    case _ => assert Answered(w0, w1, r, Ignored);
  }

  class ExpenseBot {
    var book: Book
    var userData: map<UserId, Draft>
    var sessions: map<UserId, Session>

    /** The registry keeps its header, text cells and one row per user. */
    predicate Valid()
      reads this
    {
      RegistryValid(book)
    }

    constructor (initial: Book)
      requires RegistryValid(initial)
      ensures Valid() && book == initial && userData == map[] && sessions == map[]
    {
      book := initial;
      userData := map[];
      sessions := map[];
    }

    /** The state as the handlers see it. */
    function Snapshot(): World
      reads this
    {
      World(book, userData, sessions)
    }

    function DraftOf(user: UserId): Option<Draft>
      reads this
    {
      if user in userData then Some(userData[user]) else None
    }

    function StepOf(user: UserId): Option<EditStep>
      reads this
    {
      if user in sessions then sessions[user].step else None
    }

    /** get_user_sheet on the book: the user's worksheet, created with its header when missing. */
    method OpenUser(user: UserId) returns (access: Access)
      requires Valid()
      modifies this
      ensures Valid() && Opened(book, access) == OpenUserSheet(old(book), user)
      ensures userData == old(userData) && sessions == old(sessions)
    {
      var o := OpenUserSheet(book, user);
      KeptRegistryValid(book, o.book);
      book := o.book;
      access := o.access;
    }

    /** ensure_families_list on the book: the registry, created with its header when missing. */
    method OpenRegistry()
      requires Valid()
      modifies this
      ensures Valid() && book == EnsureFamiliesList(old(book))
      ensures userData == old(userData) && sessions == old(sessions)
    {
      KeptRegistryValid(book, EnsureFamiliesList(book));
      book := EnsureFamiliesList(book);
    }

    /** get_family_sheet on the book: a family's worksheet, never created. */
    method OpenFamily(title: string) returns (access: Access)
      requires Valid() && title != FamiliesTitle
      modifies this
      ensures Valid() && Opened(book, access) == OpenFamilySheet(old(book), title)
      ensures userData == old(userData) && sessions == old(sessions)
    {
      var o := OpenFamilySheet(book, title);
      KeptRegistryValid(book, o.book);
      book := o.book;
      access := o.access;
    }

    /** send_welcome: the user's sheet is created on first contact. */
    method SendWelcome(user: UserId) returns (r: Reply)
      requires Valid()
      modifies this
      ensures Valid() && Welcomed(old(Snapshot()), Snapshot(), r, user)
    {
      var access := OpenUser(user);
      r := if access == Ready then Welcome else Crashed;
    }

    /**
     * create_family: refused for a listed user; otherwise the family sheet
     * is added with its header and the creator's row appended to the registry.
     */
    method CreateFamily(user: UserId, env: Env) returns (r: Reply)
      requires Valid() && EnvOk(env)
      modifies this
      ensures Valid() && FamilyCreation(old(Snapshot()), Snapshot(), r, user, env)
      ensures r == FamilyCreated(FamilyId(env.familySuffix)) ==> HasMember(book[FamiliesTitle], user)
    {
      OpenRegistry();
      var reg := book[FamiliesTitle];
      if CheckCreate(reg, user) == AlreadyListed {
        return CreateRefused;
      }
      var id := FamilyId(env.familySuffix);
      var title := FamilyTitle(id);
      if title in book {
        return CreateFailed;
      }
      book := book[title := [FamilySheetHeader]];
      if !env.appendOk {
        return CreateFailed;
      }
      AppendKeepsOneRowPerUser(reg, id, user, "creator");
      book := book[FamiliesTitle := reg + [MemberRow(id, user, "creator")]];
      r := FamilyCreated(id);
    }

    /** join_family: looks for the user in every family sheet; changes nothing. */
    method JoinFamily(user: UserId) returns (r: Reply)
      ensures r == AlreadyInFamily <==> InFamilySheet(book, user)
      ensures r == AlreadyInFamily || r == AskFamilyId
    {
      var titles := book.Keys;
      while titles != {}
        invariant titles <= book.Keys
        invariant forall t :: t in book && t !in titles && StartsWith(t, "family-") ==> !HasMember(book[t], user)
        decreases titles
      {
        var t :| t in titles;
        if StartsWith(t, "family-") && HasMember(book[t], user) {
          return AlreadyInFamily;
        }
        titles := titles - {t};
      }
      r := AskFamilyId;
    }

    /** handle_family_id: the text is the family id; join under the registry checks. */
    method HandleFamilyId(user: UserId, text: string, env: Env) returns (r: Reply)
      requires Valid()
      modifies this
      ensures Valid() && FamilyIdHandled(old(Snapshot()), Snapshot(), r, user, text, env)
      ensures r == Joined ==> HasMember(book[FamiliesTitle], user)
    {
      OpenRegistry();
      var reg := book[FamiliesTitle];
      match CheckJoin(reg, text, user)
      case UnknownFamily =>
        r := FamilyNotFound;
      case AlreadyMember =>
        r := AlreadyInFamily;
      case MayJoin =>
        if !env.appendOk {
          r := JoinFailed;
        } else {
          AppendKeepsOneRowPerUser(reg, text, user, "member");
          book := book[FamiliesTitle := reg + [MemberRow(text, user, "member")]];
          r := Joined;
        }
    }

    /** start_add_expense: the category keyboard, built two buttons per row. */
    method StartAddExpense() returns (r: Reply)
      ensures r == AskCategory(Keyboards.Layout(Keyboards.Categories))
    {
      var rows := Keyboards.CategoriesKeyboard(Keyboards.Categories);
      r := AskCategory(rows);
    }

    /** handle_category: the user's entry becomes just the category. */
    method HandleCategory(user: UserId, category: string) returns (r: Reply)
      modifies this
      ensures CategoryChosen(old(Snapshot()), Snapshot(), r, user, category)
    {
      userData := userData[user := Draft(Some(category), None, None, false, None)];
      r := AskAmount(category);
    }

    /**
     * handle_amount: float(text) raises on a second dot, and the entry
     * lookup raises for a user with no entry; otherwise the amount is set.
     */
    method HandleAmount(user: UserId, text: string) returns (r: Reply)
      modifies this
      ensures AmountHandled(old(Snapshot()), Snapshot(), r, user, text)
    {
      var amount := ParseDecimal(text);
      if amount.None? || user !in userData {
        return Crashed;
      }
      userData := userData[user := userData[user].(amount := amount)];
      r := AskKind;
    }

    /**
     * handle_expense_type: a fresh entry keeping only category and amount,
     * with the type set and a comment awaited.
     */
    method HandleExpenseType(user: UserId, kind: Kind) returns (r: Reply)
      modifies this
      ensures KindChosen(old(Snapshot()), Snapshot(), r, user, kind)
    {
      var prev := if user in userData then userData[user] else NoDraft;
      userData := userData[user := Draft(prev.category, prev.amount, Some(kind), true, None)];
      r := AskComment;
    }

    /**
     * process_expense: append the row for the entry's type, then drop the
     * entry and report it saved; anything raised keeps the entry.
     */
    method ProcessExpense(user: UserId, env: Env) returns (r: Reply)
      requires Valid()
      modifies this
      ensures Valid() && Committed(old(Snapshot()), Snapshot(), r, user, env)
      ensures SameElsewhere(old(userData), userData, user)
    {
      var d := if user in userData then userData[user] else NoDraft;
      if d.kind.None? {
        return SaveFailed;
      }
      var kind := d.kind.value;
      var ok;
      if kind == Personal {
        ok := CommitPersonal(user, d, env);
      } else {
        ok := CommitFamily(user, d, env);
      }
      if !ok {
        return SaveFailed;
      }
      RemovalKeepsElsewhere(userData, user);
      userData := userData - {user};
      r := Saved(d.category, d.amount, kind, CommentOf(d));
    }

    /** The "Личная" branch of process_expense: get_user_sheet, then append_row. */
    method CommitPersonal(user: UserId, d: Draft, env: Env) returns (ok: bool)
      requires Valid()
      modifies this
      ensures Valid() && userData == old(userData) && sessions == old(sessions)
      ensures var o := OpenUserSheet(old(book), user);
        && ok == (o.access == Ready && env.appendOk)
        && book == if ok then o.book[user := o.book[user] + [PersonalRow(env, d)]] else o.book
    {
      var access := OpenUser(user);
      if access != Ready || !env.appendOk {
        return false;
      }
      TitlesDistinct(user, "");
      book := book[user := book[user] + [PersonalRow(env, d)]];
      ok := true;
    }

    /**
     * The "Семейная" branch of process_expense: the registry's first row
     * naming the user, then append_row on that family's sheet.  No family,
     * or no sheet for it, appends nothing and still counts as saved.
     */
    method CommitFamily(user: UserId, d: Draft, env: Env) returns (ok: bool)
      requires Valid()
      modifies this
      ensures Valid() && userData == old(userData) && sessions == old(sessions)
      ensures var b := EnsureFamiliesList(old(book));
        match FamilyOf(b[FamiliesTitle], user)
        case None => ok && book == b
        case Some(f) =>
          var title := FamilyTitle(f);
          var o := OpenFamilySheet(b, title);
          match o.access
          case Absent => ok && book == o.book
          case Broken => !ok && book == o.book
          case Ready =>
            && ok == env.appendOk
            && book == if ok then o.book[title := o.book[title] + [FamilyRow(env, d, user)]] else o.book
    {
      OpenRegistry();
      var f := FamilyOf(book[FamiliesTitle], user);
      if f.None? {
        return true;
      }
      var title := FamilyTitle(f.value);
      var access := OpenFamily(title);
      if access == Broken || (access == Ready && !env.appendOk) {
        return false;
      }
      if access == Ready {
        book := book[title := book[title] + [FamilyRow(env, d, user)]];
      }
      ok := true;
    }

    /** handle_skip_comment: an empty comment, then the commit; raises without an entry. */
    method HandleSkipComment(user: UserId, env: Env) returns (r: Reply)
      requires Valid()
      modifies this
      ensures Valid() && Commented(old(Snapshot()), Snapshot(), r, user, "", env)
      ensures r.Saved? ==> r.comment == "" && user !in userData
      ensures SameElsewhere(old(userData), userData, user)
    {
      if user !in userData {
        return Crashed;
      }
      ghost var before := userData;
      userData := userData[user := userData[user].(comment := Some(""))];
      UpdateKeepsElsewhere(before, user, userData[user]);
      ghost var edited := userData;
      r := ProcessExpense(user, env);
      ElsewhereTransitive(before, edited, userData, user);
    }

    /** handle_comment: the stripped text is the comment, then the commit. */
    method HandleComment(user: UserId, text: string, env: Env) returns (r: Reply)
      requires Valid()
      modifies this
      ensures Valid() && Commented(old(Snapshot()), Snapshot(), r, user, Strip(text), env)
      ensures r.Saved? ==> r.comment == Strip(text) && user !in userData
      ensures SameElsewhere(old(userData), userData, user)
    {
      if user !in userData {
        return Crashed;
      }
      ghost var before := userData;
      userData := userData[user := userData[user].(comment := Some(Strip(text)))];
      UpdateKeepsElsewhere(before, user, userData[user]);
      ghost var edited := userData;
      r := ProcessExpense(user, env);
      ElsewhereTransitive(before, edited, userData, user);
    }

    /** The month's tally of one sheet: the filter, then the summing loop. */
    static method TallySheet(g: Grid, month: string, personalOnly: bool, start: Tally) returns (t: Option<Tally>)
      ensures t == SheetTally(g, month, personalOnly, start)
    {
      var rows := Selected(g, month, personalOnly);
      if rows.None? {
        return None;
      }
      t := TallyRows(g, rows.value, start);
    }

    /** The personal part of the statistics: get_user_sheet and the month's "Личная" rows. */
    method ReadPersonalTally(user: UserId, month: string) returns (t: Option<Tally>)
      requires Valid()
      modifies this
      ensures Valid() && (book, t) == PersonalTally(old(book), user, month)
      ensures userData == old(userData) && sessions == old(sessions)
    {
      var access := OpenUser(user);
      if access != Ready {
        return None;
      }
      t := TallySheet(book[user], month, true, Empty);
    }

    /** The family part, continuing from start: the registry, then the family's sheet. */
    method ReadFamilyTally(user: UserId, month: string, start: Tally) returns (p: FamilyPart)
      requires Valid()
      modifies this
      ensures Valid() && (book, p) == FamilyTally(old(book), user, month, start)
      ensures userData == old(userData) && sessions == old(sessions)
    {
      OpenRegistry();
      var f := FamilyOf(book[FamiliesTitle], user);
      if f.None? {
        return NoFamily;
      }
      var title := FamilyTitle(f.value);
      var access := OpenFamily(title);
      match access
      case Absent => p := NoSheet;
      case Broken => p := Tallied(None);
      case Ready =>
        var t := TallySheet(book[title], month, false, start);
        p := Tallied(t);
    }

    /** handle_stats_type for the current month. */
    method HandleStatsType(user: UserId, scope: Scope, env: Env) returns (r: Reply)
      requires Valid() && EnvOk(env)
      modifies this
      ensures Valid() && StatsShown(old(Snapshot()), Snapshot(), r, user, scope, env)
    {
      var month := MonthOf(env.now);
      ghost var run := MonthStats(book, user, scope, month);
      match scope
      case PersonalStats =>
        assert run == PersonalRun(book, user, month);
        var t := ReadPersonalTally(user, month);
        r := StatsAnswer(Finish(t));
      case FamilyStats =>
        assert run == FamilyRun(book, user, month);
        var p := ReadFamilyTally(user, month, Empty);
        match p {
          case NoFamily => r := StatsAnswer(NotInFamily);
          case NoSheet => r := StatsAnswer(StatsFailed);
          case Tallied(t) => r := StatsAnswer(Finish(t));
        }
      case AllStats =>
        assert run == AllRun(book, user, month);
        var t := ReadPersonalTally(user, month);
        if t.None? {
          return StatsAnswer(StatsFailed);
        }
        var p := ReadFamilyTally(user, month, t.value);
        r := StatsAnswer(if p.Tallied? then Finish(p.t) else Finish(t));
    }

    /** show_last_expenses: the five newest expenses, or the empty-list answer. */
    method ShowLastExpenses(user: UserId) returns (r: Reply)
      requires Valid()
      modifies this
      ensures Valid() && RecentShown(old(Snapshot()), Snapshot(), r, user)
    {
      var sources := ReadSources(user);
      if sources.None? {
        return Crashed;
      }
      var latest := MergeRecent(sources.value, RecentLimit);
      r := RecentReply(latest);
    }

    /** The sheets get_last_expenses reads: the user's own, then each family's. */
    method ReadSources(user: UserId) returns (sources: Option<seq<Source>>)
      requires Valid()
      modifies this
      ensures Valid() && (book, sources) == RecentSources(old(book), user)
      ensures userData == old(userData) && sessions == old(sessions)
    {
      var s := RecentSources(book, user);
      KeptRegistryValid(book, s.0);
      book := s.0;
      sources := s.1;
    }

    /** The loop over the user's families: the first family sheet showing q loses that row. */
    method ProbeFamilySheets(families: seq<string>, q: string) returns (outcome: DeleteOutcome)
      requires Valid()
      modifies this
      ensures Valid() && (book, outcome) == ProbeFamilies(old(book), families, q)
      ensures userData == old(userData) && sessions == old(sessions)
    {
      ghost var start := book;
      var i := 0;
      while i < |families|
        invariant 0 <= i <= |families|
        invariant ProbeFamilies(book, families[i..], q) == ProbeFamilies(start, families, q)
        invariant RegistryKept(start, book) && userData == old(userData) && sessions == old(sessions)
      {
        assert families[i..][0] == families[i] && families[i..][1..] == families[i + 1..];
        var title := FamilyTitle(families[i]);
        var f := OpenFamilySheet(book, title);
        book := f.book;
        if f.access == Broken {
          KeptRegistryValid(start, book);
          return DeleteFailed;
        }
        if f.access == Ready {
          var hit := FindRow(book[title], q);
          if hit.Some? {
            book := book[title := DeleteRow(book[title], hit.value)];
            KeptRegistryValid(start, book);
            return FamilyDeleted(title);
          }
        }
        i := i + 1;
      }
      KeptRegistryValid(start, book);
      outcome := NotFound;
    }

    /** handle_delete_expense: the personal sheet, then each family sheet in registry order. */
    method HandleDeleteExpense(user: UserId, data: string) returns (r: Reply)
      requires Valid()
      modifies this
      ensures Valid() && DeleteHandled(old(Snapshot()), Snapshot(), r, user, data)
    {
      var field := SecondField(data);
      if field.None? {
        return Deleted(DeleteFailed);
      }
      var q := field.value;
      var access := OpenUser(user);
      if access != Ready {
        return Deleted(DeleteFailed);
      }
      var found := FindRow(book[user], q);
      if found.Some? {
        TitlesDistinct(user, q);
        book := book[user := DeleteRow(book[user], found.value)];
        return Deleted(PersonalDeleted);
      }
      OpenRegistry();
      var outcome := ProbeFamilySheets(FamilyIds(book[FamiliesTitle], user), q);
      r := Deleted(outcome);
    }

    /** handle_edit_expense: remembers the id and (re)enters the field choice. */
    method HandleEditExpense(user: UserId, data: string) returns (r: Reply)
      modifies this
      ensures EditStarted(old(Snapshot()), Snapshot(), r, user, data)
    {
      var s := if user in sessions then sessions[user] else NoSession;
      var id := SecondField(data);
      if id.None? {
        return Crashed;
      }
      sessions := sessions[user := Session(Some(SelectField), id, s.field)];
      r := AskField;
    }

    /** handle_select_field: the payload is the field; a new value is awaited. */
    method HandleSelectField(user: UserId, data: string) returns (r: Reply)
      modifies this
      ensures FieldChosen(old(Snapshot()), Snapshot(), r, user, data)
    {
      var s := if user in sessions then sessions[user] else NoSession;
      sessions := sessions[user := Session(Some(EnterNewValue), s.expenseId, Some(data))];
      r := AskNewValue;
    }

    /**
     * handle_new_value: the stored id read as a row number and the field
     * through the fixed column map; the FSM context is cleared either way.
     */
    method HandleNewValue(user: UserId, text: string) returns (r: Reply)
      requires Valid()
      modifies this
      ensures Valid() && NewValueHandled(old(Snapshot()), Snapshot(), r, user, text)
    {
      var s := if user in sessions then sessions[user] else NoSession;
      sessions := sessions - {user};
      var access := OpenUser(user);
      var row := if s.expenseId.Some? then ParseInt(s.expenseId.value) else None;
      var col := if s.field.Some? then EditColumn(s.field.value) else None;
      if access != Ready || row.None? || row.value < 1 || col.None? {
        return UpdateFailed;
      }
      TitlesDistinct(user, "");
      book := book[user := UpdateCell(book[user], row.value, col.value, Str(text))];
      r := Updated;
    }

    /**
     * One update: the first handler whose filter accepts it runs.  Only the
     * sender's entry and context can change, and with no edit context open
     * none is ever opened.
     */
    method Dispatch(e: Event, env: Env) returns (h: Handler, r: Reply)
      requires Valid() && EnvOk(env)
      modifies this
      ensures Valid()
      ensures h == Route(e, old(DraftOf(e.user)), old(StepOf(e.user)))
      ensures match e
        case Message(user, text) => MessageDone(h, old(Snapshot()), Snapshot(), r, user, text, env)
        case Callback(user, data) => CallbackDone(h, old(Snapshot()), Snapshot(), r, user, data, env)
      ensures SameElsewhere(old(userData), userData, e.user) && SameElsewhere(old(sessions), sessions, e.user)
      ensures old(sessions) == map[] ==> sessions == map[]
    {
      match e
      case Message(user, text) =>
        h, r := OnMessage(user, text, env);
      case Callback(user, data) =>
        h, r := OnCallback(user, data, env);
    }

    /** A text message, through the message handlers in registration order. */
    method OnMessage(user: UserId, text: string, env: Env) returns (h: Handler, r: Reply)
      requires Valid() && EnvOk(env)
      modifies this
      ensures Valid()
      ensures h == RouteMessage(text, old(DraftOf(user)), old(StepOf(user)))
      ensures MessageDone(h, old(Snapshot()), Snapshot(), r, user, text, env)
      ensures SameElsewhere(old(userData), userData, user) && SameElsewhere(old(sessions), sessions, user)
      ensures old(sessions) == map[] ==> sessions == map[]
    {
      h := RouteMessage(text, DraftOf(user), StepOf(user));
      if h.SendWelcome? {
        r := SendWelcome(user);
      } else if h.CreateFamily? {
        r := CreateFamily(user, env);
      } else if h.JoinFamily? {
        r := JoinFamily(user);
      } else if h.HandleFamilyId? {
        r := HandleFamilyId(user, text, env);
      } else if h.StartAddExpense? {
        r := StartAddExpense();
      } else if h.HandleAmount? {
        r := HandleAmount(user, text);
      } else if h.HandleComment? {
        r := HandleComment(user, text, env);
      } else if h.ShowStatsMenu? {
        r := StatsMenu;
      } else if h.ShowLastExpenses? {
        r := ShowLastExpenses(user);
      } else if h.HandleNewValue? {
        r := HandleNewValue(user, text);
        RemovalKeepsElsewhere(old(sessions), user);
      } else {
        r := ChooseFromMenu;
      }
    }

    /** A button press, through the callback handlers in registration order; none may take it. */
    method OnCallback(user: UserId, data: string, env: Env) returns (h: Handler, r: Reply)
      requires Valid() && EnvOk(env)
      modifies this
      ensures Valid()
      ensures h == RouteCallback(data, old(StepOf(user)))
      ensures CallbackDone(h, old(Snapshot()), Snapshot(), r, user, data, env)
      ensures SameElsewhere(old(userData), userData, user) && SameElsewhere(old(sessions), sessions, user)
      ensures old(sessions) == map[] ==> sessions == map[]
    {
      h := RouteCallback(data, StepOf(user));
      if h.HandleCategory? {
        r := HandleCategory(user, data);
      } else if h.HandleExpenseType? {
        r := HandleExpenseType(user, KindOf(data).value);
      } else if h.HandleSkipComment? {
        r := HandleSkipComment(user, env);
      } else if h.HandleStatsType? {
        r := HandleStatsType(user, ScopeOf(data).value, env);
      } else if h.HandleDeleteExpense? {
        r := HandleDeleteExpense(user, data);
      } else if h.HandleEditExpense? {
        r := HandleEditExpense(user, data);
      } else if h.HandleSelectField? {
        r := HandleSelectField(user, data);
      } else {
        r := Ignored;
      }
    }
  }
}
