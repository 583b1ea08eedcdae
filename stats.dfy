/**
 * handle_stats_type: the month's expenses of the personal sheet, the
 * family sheet or both, summed per category and in total.
 */
module Stats {
  import opened Wrappers
  import opened Text
  import opened Sheets
  import opened Ledger
  import opened Families
  import opened Dialog

  /** The stats dict, in insertion order, and the running total. */
  datatype Tally = Tally(sums: seq<(Cell, real)>, total: real)

  const Empty: Tally := Tally([], 0.0)

  /** float() of a Сумма cell: a stored number as it is, text parsed. */
  function Amount(c: Cell): Option<real> {
    match c
    case Num(x) => Some(x)
    case Str(s) => ParseDecimal(s)
  }

  /**
   * Whether data row i passes the month filter; None when reading its date
   * raises (no Дата column, or a number where startswith needs text).
   * Personal rows must also have Тип "Личная".
   */
  function Keep(g: Grid, i: nat, month: string, personalOnly: bool): Option<bool>
    requires 1 <= i < |g|
  {
    match Field(g, i, "Дата")
    case Some(Str(d)) => Some(StartsWith(d, month) && (!personalOnly || Field(g, i, "Тип") == Some(Str("Личная"))))
    case _ => None
  }

  /** The data rows below n that the filter keeps, in sheet order. */
  function SelectedUpTo(g: Grid, month: string, personalOnly: bool, n: nat): (r: Option<seq<nat>>)
    requires 1 <= n <= |g|
    ensures r.Some? ==> forall i :: i in r.value <==> 1 <= i < n && Keep(g, i, month, personalOnly) == Some(true)
    ensures r.Some? ==> forall k :: 0 <= k < |r.value| ==> 1 <= r.value[k] < n
    ensures r.Some? ==> forall a, b :: 0 <= a < b < |r.value| ==> r.value[a] < r.value[b]
    ensures r.None? <==> exists i :: 1 <= i < n && Keep(g, i, month, personalOnly).None?
  {
    if n == 1 then Some([])
    else
      match SelectedUpTo(g, month, personalOnly, n - 1)
      case None => None
      case Some(s) =>
        match Keep(g, n - 1, month, personalOnly)
        case None => None
        case Some(b) => Some(if b then s + [n - 1] else s)
  }

  /** The list comprehension monthly_expenses, as row numbers. */
  function Selected(g: Grid, month: string, personalOnly: bool): (r: Option<seq<nat>>)
    ensures r.Some? ==> RowsOf(g, r.value)
  {
    if |g| == 0 then Some([]) else SelectedUpTo(g, month, personalOnly, |g|)
  }

  predicate RowsOf(g: Grid, rows: seq<nat>) {
    forall k :: 0 <= k < |rows| ==> 1 <= rows[k] < |g|
  }

  function SumOf(sums: seq<(Cell, real)>): real {
    if sums == [] then 0.0 else sums[0].1 + SumOf(sums[1..])
  }

  /** stats.get(k, 0) */
  function SumFor(sums: seq<(Cell, real)>, k: Cell): real {
    if sums == [] then 0.0 else if sums[0].0 == k then sums[0].1 else SumFor(sums[1..], k)
  }

  predicate KeysDistinct(sums: seq<(Cell, real)>) {
    forall a, b :: 0 <= a < b < |sums| ==> sums[a].0 != sums[b].0
  }

  /** stats[k] = stats.get(k, 0) + x on a dict that keeps insertion order. */
  function AddTo(sums: seq<(Cell, real)>, k: Cell, x: real): (r: seq<(Cell, real)>)
    ensures |sums| <= |r| <= |sums| + 1
    ensures forall j :: 0 <= j < |sums| ==> r[j].0 == sums[j].0
    ensures |r| == |sums| + 1 ==> r[|sums|] == (k, x) && forall j :: 0 <= j < |sums| ==> sums[j].0 != k
    ensures SumOf(r) == SumOf(sums) + x
    ensures SumFor(r, k) == SumFor(sums, k) + x
    ensures forall k' :: k' != k ==> SumFor(r, k') == SumFor(sums, k')
  {
    if sums == [] then [(k, x)]
    else if sums[0].0 == k then
      var r := [(k, sums[0].1 + x)] + sums[1..];
      assert r[1..] == sums[1..];
      assert forall j :: 1 <= j < |r| ==> r[j] == sums[j];
      r
    else
      var rest := AddTo(sums[1..], k, x);
      var r := [sums[0]] + rest;
      assert r[1..] == rest;
      assert forall j :: 1 <= j < |r| ==> r[j] == rest[j - 1];
      r
  }

  /** category and float(amount) of data row i; None when either raises. */
  function Entry(g: Grid, i: nat): Option<(Cell, real)>
    requires 1 <= i < |g|
  {
    match Field(g, i, "Категория")
    case None => None
    case Some(category) =>
      match Field(g, i, "Сумма")
      case None => None
      case Some(a) =>
        match Amount(a)
        case None => None
        case Some(x) => Some((category, x))
  }

  /** Adding to a dict never repeats a key. */
  lemma {:induction false} AddToDistinct(sums: seq<(Cell, real)>, k: Cell, x: real)
    requires KeysDistinct(sums)
    ensures KeysDistinct(AddTo(sums, k, x))
  {
    var r := AddTo(sums, k, x);
    forall a, b | 0 <= a < b < |r|
      ensures r[a].0 != r[b].0
    {
      if b == |sums| {
        assert r[b] == (k, x) && r[a].0 == sums[a].0;
      }
    }
  }

  function AddRecord(t: Tally, e: (Cell, real)): Tally {
    Tally(AddTo(t.sums, e.0, e.1), t.total + e.1)
  }

  /** The loop over monthly_expenses, continuing from t; None when a row raises. */
  function Accumulate(g: Grid, rows: seq<nat>, t: Tally): Option<Tally>
    requires RowsOf(g, rows)
  {
    if rows == [] then Some(t)
    else
      match Entry(g, rows[0])
      case None => None
      case Some(e) => Accumulate(g, rows[1..], AddRecord(t, e))
  }

  /** The sum of the amounts of the rows whose category is k. */
  function CategoryAmount(g: Grid, rows: seq<nat>, k: Cell): real
    requires RowsOf(g, rows)
  {
    if rows == [] then 0.0
    else
      var here := match Entry(g, rows[0]) case Some(e) => if e.0 == k then e.1 else 0.0 case None => 0.0;
      here + CategoryAmount(g, rows[1..], k)
  }

  /** The for loop of bot.py:449-453, adding each kept row to stats and total. */
  method TallyRows(g: Grid, rows: seq<nat>, start: Tally) returns (r: Option<Tally>)
    requires RowsOf(g, rows)
    ensures r == Accumulate(g, rows, start)
  {
    var stats := start.sums;
    var total := start.total;
    var i := 0;
    while i < |rows|
      invariant 0 <= i <= |rows|
      invariant Accumulate(g, rows[i..], Tally(stats, total)) == Accumulate(g, rows, start)
    {
      assert rows[i..][1..] == rows[i + 1..];
      match Entry(g, rows[i])
      case None =>
        return None;
      case Some(e) =>
        var category := e.0;
        var amount := e.1;
        stats := AddTo(stats, category, amount);
        total := total + amount;
      i := i + 1;
    }
    assert rows[i..] == [];
    return Some(Tally(stats, total));
  }

  /** The total stays the sum of the per-category sums, and no category appears twice. */
  lemma {:induction false} TallyConsistent(g: Grid, rows: seq<nat>, t: Tally)
    requires RowsOf(g, rows) && Accumulate(g, rows, t).Some?
    requires t.total == SumOf(t.sums) && KeysDistinct(t.sums)
    ensures Accumulate(g, rows, t).value.total == SumOf(Accumulate(g, rows, t).value.sums)
    ensures KeysDistinct(Accumulate(g, rows, t).value.sums)
  {
    if rows != [] {
      var e := Entry(g, rows[0]).value;
      AddToDistinct(t.sums, e.0, e.1);
      TallyConsistent(g, rows[1..], AddRecord(t, e));
    }
  }

  /** Each category's sum grows by exactly the amounts of the rows in that category. */
  lemma {:induction false} TallyPerCategory(g: Grid, rows: seq<nat>, t: Tally, k: Cell)
    requires RowsOf(g, rows) && Accumulate(g, rows, t).Some?
    ensures SumFor(Accumulate(g, rows, t).value.sums, k) == SumFor(t.sums, k) + CategoryAmount(g, rows, k)
  {
    if rows != [] {
      var e := Entry(g, rows[0]).value;
      TallyPerCategory(g, rows[1..], AddRecord(t, e), k);
    }
  }

  /** Categories are only ever added, in the order of their first row. */
  lemma {:induction false} TallyKeepsKeys(g: Grid, rows: seq<nat>, t: Tally)
    requires RowsOf(g, rows) && Accumulate(g, rows, t).Some?
    ensures |t.sums| <= |Accumulate(g, rows, t).value.sums| <= |t.sums| + |rows|
    ensures forall j :: 0 <= j < |t.sums| ==> Accumulate(g, rows, t).value.sums[j].0 == t.sums[j].0
  {
    if rows != [] {
      var e := Entry(g, rows[0]).value;
      TallyKeepsKeys(g, rows[1..], AddRecord(t, e));
    }
  }

  /** Starting from nothing, the stats are empty exactly when no row was kept. */
  lemma {:induction false} EmptyIffNoRows(g: Grid, rows: seq<nat>)
    requires RowsOf(g, rows) && Accumulate(g, rows, Empty).Some?
    ensures Accumulate(g, rows, Empty).value.sums == [] <==> rows == []
  {
    if rows != [] {
      var e := Entry(g, rows[0]).value;
      TallyKeepsKeys(g, rows[1..], AddRecord(Empty, e));
    }
  }

  /** The month's tally of one sheet, continuing from t. */
  function SheetTally(g: Grid, month: string, personalOnly: bool, t: Tally): Option<Tally> {
    match Selected(g, month, personalOnly)
    case None => None
    case Some(rows) => Accumulate(g, rows, t)
  }

  /** What the handler answers. */
  datatype StatsReply =
    | Summary(tally: Tally)   // the per-category lines and the total
    | NoData                  // "Нет данных"
    | NotInFamily             // family_stats for a user in no family
    | StatsFailed             // an exception, or a listed family without a sheet

  datatype StatsRun = StatsRun(book: Book, reply: StatsReply)

  /** "if stats:" chooses between the summary and the no-data message. */
  function Finish(t: Option<Tally>): StatsReply {
    match t
    case None => StatsFailed
    case Some(t) => if t.sums == [] then NoData else Summary(t)
  }

  /** The personal part: get_user_sheet, then the month's "Личная" rows. */
  function PersonalTally(book: Book, user: UserId, month: string): (r: (Book, Option<Tally>))
    ensures RegistryKept(book, r.0)
  {
    var o := OpenUserSheet(book, user);
    if o.access != Ready then (o.book, None)
    else (o.book, SheetTally(o.book[user], month, true, Empty))
  }

  /** What the family lookup came to. */
  datatype FamilyPart =
    | NoFamily                  // no registry row names the user (or its family_id is empty)
    | NoSheet                   // the family's worksheet does not exist
    | Tallied(t: Option<Tally>) // the sheet was read; None when that raised

  /**
   * The family part after t: the registry's first row naming the user, then
   * get_family_sheet("family-" + family_id) and the month's rows of any type.
   */
  function FamilyTally(book: Book, user: UserId, month: string, t: Tally): (r: (Book, FamilyPart))
    ensures RegistryKept(book, r.0)
  {
    var b := EnsureFamiliesList(book);
    match FamilyOf(b[FamiliesTitle], user)
    case None => (b, NoFamily)
    case Some(f) =>
      var o := OpenFamilySheet(b, FamilyTitle(f));
      match o.access
      case Absent => (o.book, NoSheet)
      case Broken => (o.book, Tallied(None))
      case Ready => (o.book, Tallied(SheetTally(o.book[FamilyTitle(f)], month, false, t)))
  }

  function PersonalRun(book: Book, user: UserId, month: string): StatsRun {
    var p := PersonalTally(book, user, month);
    StatsRun(p.0, Finish(p.1))
  }

  function FamilyRun(book: Book, user: UserId, month: string): StatsRun {
    var f := FamilyTally(book, user, month, Empty);
    match f.1
    case NoFamily => StatsRun(f.0, NotInFamily)
    case NoSheet => StatsRun(f.0, StatsFailed)
    case Tallied(t) => StatsRun(f.0, Finish(t))
  }

  /** Personal rows first, then the family's added to the same stats. */
  function AllRun(book: Book, user: UserId, month: string): StatsRun {
    var p := PersonalTally(book, user, month);
    match p.1
    case None => StatsRun(p.0, StatsFailed)
    case Some(mine) =>
      var f := FamilyTally(p.0, user, month, mine);
      match f.1
      case Tallied(t) => StatsRun(f.0, Finish(t))
      case _ => StatsRun(f.0, Finish(Some(mine)))
  }

  /** handle_stats_type for one scope and the current month. */
  function MonthStats(book: Book, user: UserId, scope: Scope, month: string): StatsRun {
    match scope
    case PersonalStats => PersonalRun(book, user, month)
    case FamilyStats => FamilyRun(book, user, month)
    case AllStats => AllRun(book, user, month)
  }

  /** The registry as the handler reads it. */
  function Registry(book: Book): Grid {
    EnsureFamiliesList(book)[FamiliesTitle]
  }

  /** family_stats for a user in no family answers "not in a family" and reads no family sheet. */
  lemma {:induction false} FamilyStatsNeedFamily(book: Book, user: UserId, month: string)
    requires FamilyOf(Registry(book), user).None?
    ensures MonthStats(book, user, FamilyStats, month) == StatsRun(EnsureFamiliesList(book), NotInFamily)
  {
  }

  /** all_stats for a user in no family shows exactly the personal statistics. */
  lemma {:induction false} AllStatsWithoutFamily(book: Book, user: UserId, month: string)
    requires FamilyOf(Registry(book), user).None?
    ensures MonthStats(book, user, AllStats, month).reply == MonthStats(book, user, PersonalStats, month).reply
  {
    var p := PersonalTally(book, user, month);
    TitlesDistinct(user, "");
    assert Registry(p.0) == Registry(book);
  }

  /** A summary has at least one category, no category twice, and the total is their sum. */
  lemma {:induction false} SummaryConsistent(book: Book, user: UserId, scope: Scope, month: string)
    requires MonthStats(book, user, scope, month).reply.Summary?
    ensures var t := MonthStats(book, user, scope, month).reply.tally;
      t.sums != [] && KeysDistinct(t.sums) && t.total == SumOf(t.sums)
  {
    match scope
    case PersonalStats =>
      PersonalRunConsistent(book, user, month);
    case FamilyStats =>
      FamilyRunConsistent(book, user, month);
    case AllStats =>
      AllRunConsistent(book, user, month);
  }

  /** A summary is a consistent tally with at least one category. */
  predicate GoodSummary(r: StatsReply) {
    r.Summary? ==> r.tally.sums != [] && Consistent(r.tally)
  }

  lemma {:induction false} FinishGood(t: Option<Tally>)
    requires t.Some? ==> Consistent(t.value)
    ensures GoodSummary(Finish(t))
  {
  }

  lemma {:induction false} PersonalRunConsistent(book: Book, user: UserId, month: string)
    ensures GoodSummary(PersonalRun(book, user, month).reply)
  {
    PersonalConsistent(book, user, month);
    FinishGood(PersonalTally(book, user, month).1);
  }

  lemma {:induction false} FamilyRunConsistent(book: Book, user: UserId, month: string)
    ensures GoodSummary(FamilyRun(book, user, month).reply)
  {
    var f := FamilyTally(book, user, month, Empty);
    FamilyConsistent(book, user, month, Empty);
    if f.1.Tallied? {
      FinishGood(f.1.t);
    }
  }

  lemma {:induction false} AllRunConsistent(book: Book, user: UserId, month: string)
    ensures GoodSummary(AllRun(book, user, month).reply)
  {
    var p := PersonalTally(book, user, month);
    PersonalConsistent(book, user, month);
    if p.1.Some? {
      var f := FamilyTally(p.0, user, month, p.1.value);
      FamilyConsistent(p.0, user, month, p.1.value);
      if f.1.Tallied? {
        FinishGood(f.1.t);
      } else {
        FinishGood(p.1);
      }
    }
  }

  /** The total is the sum of the per-category sums, and no category appears twice. */
  predicate Consistent(t: Tally) {
    t.total == SumOf(t.sums) && KeysDistinct(t.sums)
  }

  lemma {:induction false} SheetConsistent(g: Grid, month: string, personalOnly: bool, t: Tally)
    requires Consistent(t)
    ensures SheetTally(g, month, personalOnly, t).Some? ==> Consistent(SheetTally(g, month, personalOnly, t).value)
  {
    if SheetTally(g, month, personalOnly, t).Some? {
      TallyConsistent(g, Selected(g, month, personalOnly).value, t);
    }
  }

  lemma {:induction false} PersonalConsistent(book: Book, user: UserId, month: string)
    ensures var p := PersonalTally(book, user, month); p.1.Some? ==> Consistent(p.1.value)
  {
    var o := OpenUserSheet(book, user);
    if o.access == Ready {
      SheetConsistent(o.book[user], month, true, Empty);
    }
  }

  lemma {:induction false} FamilyConsistent(book: Book, user: UserId, month: string, t: Tally)
    requires Consistent(t)
    ensures var f := FamilyTally(book, user, month, t);
      f.1.Tallied? && f.1.t.Some? ==> Consistent(f.1.t.value)
  {
    var b := EnsureFamiliesList(book);
    if FamilyOf(b[FamiliesTitle], user).Some? {
      var title := FamilyTitle(FamilyOf(b[FamiliesTitle], user).value);
      var o := OpenFamilySheet(b, title);
      if o.access == Ready {
        SheetConsistent(o.book[title], month, false, t);
      }
    }
  }

  /**
   * Personal statistics sum, per category, exactly the amounts of the rows
   * the month filter kept.
   */
  lemma {:induction false} PersonalSummaryPerCategory(book: Book, user: UserId, month: string, k: Cell)
    requires MonthStats(book, user, PersonalStats, month).reply.Summary?
    ensures var o := OpenUserSheet(book, user);
      o.access == Ready && Selected(o.book[user], month, true).Some? &&
      SumFor(MonthStats(book, user, PersonalStats, month).reply.tally.sums, k) ==
        CategoryAmount(o.book[user], Selected(o.book[user], month, true).value, k)
  {
    var o := OpenUserSheet(book, user);
    var g := o.book[user];
    var rows := Selected(g, month, true).value;
    TallyPerCategory(g, rows, Empty, k);
  }

  /**
   * What the family sheet adds to category k: the amounts of its rows of
   * the month, of either type, when the registry names a family of the user
   * and its worksheet could be read; nothing otherwise.
   */
  function FamilyAmount(book: Book, user: UserId, month: string, k: Cell): real {
    var b := EnsureFamiliesList(book);
    match FamilyOf(b[FamiliesTitle], user)
    case None => 0.0
    case Some(f) =>
      var title := FamilyTitle(f);
      var o := OpenFamilySheet(b, title);
      if o.access == Ready && Selected(o.book[title], month, false).Some? then
        CategoryAmount(o.book[title], Selected(o.book[title], month, false).value, k)
      else 0.0
  }

  /**
   * Family statistics come from a family the registry names and whose sheet
   * was read, and sum, per category, exactly the amounts of that sheet's
   * rows of the month.
   */
  lemma {:induction false} FamilySummaryPerCategory(book: Book, user: UserId, month: string, k: Cell)
    requires MonthStats(book, user, FamilyStats, month).reply.Summary?
    ensures var b := EnsureFamiliesList(book);
      && FamilyOf(b[FamiliesTitle], user).Some?
      && OpenFamilySheet(b, FamilyTitle(FamilyOf(b[FamiliesTitle], user).value)).access == Ready
      && SumFor(MonthStats(book, user, FamilyStats, month).reply.tally.sums, k) == FamilyAmount(book, user, month, k)
  {
    var b := EnsureFamiliesList(book);
    var title := FamilyTitle(FamilyOf(b[FamiliesTitle], user).value);
    var o := OpenFamilySheet(b, title);
    var rows := Selected(o.book[title], month, false).value;
    TallyPerCategory(o.book[title], rows, Empty, k);
  }

  /**
   * All statistics sum, per category, the personal amounts of the month's
   * "Личная" rows plus what the family sheet adds.
   */
  lemma {:induction false} AllSummaryPerCategory(book: Book, user: UserId, month: string, k: Cell)
    requires MonthStats(book, user, AllStats, month).reply.Summary?
    ensures var o := OpenUserSheet(book, user);
      && o.access == Ready && Selected(o.book[user], month, true).Some?
      && SumFor(MonthStats(book, user, AllStats, month).reply.tally.sums, k) ==
           CategoryAmount(o.book[user], Selected(o.book[user], month, true).value, k)
           + FamilyAmount(o.book, user, month, k)
  {
    var o := OpenUserSheet(book, user);
    var g := o.book[user];
    var rows := Selected(g, month, true).value;
    TallyPerCategory(g, rows, Empty, k);
    var mine := Accumulate(g, rows, Empty).value;
    var b := EnsureFamiliesList(o.book);
    match FamilyOf(b[FamiliesTitle], user)
    case None =>
    case Some(f) =>
      var title := FamilyTitle(f);
      var fo := OpenFamilySheet(b, title);
      if fo.access == Ready {
        var frows := Selected(fo.book[title], month, false).value;
        TallyPerCategory(fo.book[title], frows, mine, k);
      }
  }

  /** Reading statistics adds or removes no row of any worksheet. */
  lemma {:induction false} StatsKeepRows(book: Book, user: UserId, scope: Scope, month: string)
    ensures RowsKept(book, MonthStats(book, user, scope, month).book)
  {
  }
}
