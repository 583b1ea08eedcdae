/**
 * get_last_expenses: the records of the personal sheet and then of each
 * family sheet, the first record of each ID kept, sorted newest first and
 * cut to the limit.
 */
module Recent {
  import opened Wrappers
  import opened Text
  import opened Sheets
  import opened Ledger
  import opened Families
  import opened Dialog

  /** One worksheet that was read, and whether its records count as personal or family. */
  datatype Source = Source(kind: Kind, grid: Grid)

  /**
   * An entry of the expenses list: record["ID"], the type, and where its
   * record lies (the source and the data row), with record["Дата"].
   */
  datatype Expense = Expense(id: Cell, kind: Kind, source: nat, row: nat, date: Option<Cell>)

  /** The entry for data row i of source s. */
  function RecordAt(sources: seq<Source>, s: nat, i: nat): (e: Expense)
    requires s < |sources| && 1 <= i < |sources[s].grid|
    ensures e.source == s && e.row == i && e.kind == sources[s].kind
  {
    var g := sources[s].grid;
    Expense(Field(g, i, "ID").GetOr(Blank), sources[s].kind, s, i, Field(g, i, "Дата"))
  }

  /** The entries of data rows 1 .. n-1 of source s. */
  function SheetRecords(sources: seq<Source>, s: nat, n: nat): (r: seq<Expense>)
    requires s < |sources| && n <= |sources[s].grid|
    ensures |r| == if n == 0 then 0 else n - 1
    ensures forall k :: 0 <= k < |r| ==> r[k] == RecordAt(sources, s, k + 1)
  {
    if n <= 1 then [] else SheetRecords(sources, s, n - 1) + [RecordAt(sources, s, n - 1)]
  }

  /** The entries of every row of sources 0 .. s-1, in reading order. */
  function RecordsBefore(sources: seq<Source>, s: nat): (r: seq<Expense>)
    requires s <= |sources|
    ensures forall k :: 0 <= k < |r| ==> r[k].source < s
  {
    if s == 0 then [] else RecordsBefore(sources, s - 1) + SheetRecords(sources, s - 1, |sources[s - 1].grid|)
  }

  function AllRecords(sources: seq<Source>): seq<Expense> {
    RecordsBefore(sources, |sources|)
  }

  /** The IDs of the entries, as seen_ids holds them. */
  function IdsOf(xs: seq<Expense>): set<Cell> {
    set k | 0 <= k < |xs| :: xs[k].id
  }

  /** The seen_ids filter: an entry is dropped when its ID was seen before. */
  function Dedup(xs: seq<Expense>): (r: seq<Expense>)
    ensures forall k :: 0 <= k < |r| ==> r[k] in xs
    ensures IdsOf(r) == IdsOf(xs)
    ensures forall a, b :: 0 <= a < b < |r| ==> r[a].id != r[b].id
  {
    if xs == [] then []
    else
      var init := xs[..|xs| - 1];
      var d := Dedup(init);
      var x := xs[|xs| - 1];
      assert xs == init + [x];
      assert forall k :: 0 <= k < |init| ==> init[k] == xs[k];
      assert IdsOf(xs) == IdsOf(init) + {x.id} by {
        forall c | c in IdsOf(xs) ensures c in IdsOf(init) + {x.id} {
          var k :| 0 <= k < |xs| && xs[k].id == c;
          if k < |init| { assert init[k].id == c; }
        }
      }
      if x.id in IdsOf(d) then d
      else
        var r := d + [x];
        assert IdsOf(r) == IdsOf(d) + {x.id} by {
          forall c | c in IdsOf(r) ensures c in IdsOf(d) + {x.id} {
            var k :| 0 <= k < |r| && r[k].id == c;
            if k < |d| { assert d[k].id == c; }
          }
          forall c | c in IdsOf(d) ensures c in IdsOf(r) {
            var k :| 0 <= k < |d| && d[k].id == c;
            assert r[k].id == c;
          }
          assert r[|d|].id == x.id;
        }
        forall a, b | 0 <= a < b < |r| ensures r[a].id != r[b].id {
          if b == |d| { assert r[a].id == d[a].id; assert d[a].id in IdsOf(d); }
        }
        r
  }

  /** record["Дата"] parses with "%Y-%m-%d %H:%M:%S". */
  predicate Dated(e: Expense) {
    e.date.Some? && e.date.value.Str? && IsTimestamp(e.date.value.text)
  }

  predicate AllDated(xs: seq<Expense>) {
    forall k :: 0 <= k < |xs| ==> Dated(xs[k])
  }

  /** The sort key: the timestamp's digits read as one number, so later is larger. */
  function Key(e: Expense): nat
    requires Dated(e)
  {
    TimestampKey(e.date.value.text)
  }

  /** An entry with the datetime the sort key parsed from its date. */
  datatype Stamped = Stamped(expense: Expense, key: nat)

  function Stamp(xs: seq<Expense>): (r: seq<Stamped>)
    requires AllDated(xs)
    ensures |r| == |xs| && forall k :: 0 <= k < |r| ==> r[k] == Stamped(xs[k], Key(xs[k]))
  {
    seq(|xs|, k requires 0 <= k < |xs| => Stamped(xs[k], Key(xs[k])))
  }

  predicate SortedDesc(xs: seq<Stamped>) {
    forall a, b :: 0 <= a < b < |xs| ==> xs[a].key >= xs[b].key
  }

  /** A sorted list stays sorted under a head at least as recent as its first entry. */
  lemma {:induction false} ConsSorted(h: Stamped, t: seq<Stamped>)
    requires SortedDesc(t) && (t == [] || h.key >= t[0].key)
    ensures SortedDesc([h] + t)
  {
    var r := [h] + t;
    forall a, b | 0 <= a < b < |r| ensures r[a].key >= r[b].key {
      if a == 0 && b > 1 {
        assert r[b] == t[b - 1];
        assert t[0].key >= t[b - 1].key;
      }
    }
  }

  /** x placed after every entry at least as recent, which keeps the sort stable. */
  function Insert(x: Stamped, s: seq<Stamped>): (r: seq<Stamped>)
    requires SortedDesc(s)
    ensures |r| == |s| + 1
    ensures SortedDesc(r)
    ensures r[0] == x || (s != [] && r[0] == s[0])
    ensures multiset(r) == multiset(s) + multiset{x}
  {
    if s == [] then [x]
    else if s[0].key >= x.key then
      TailSorted(s);
      var rest := Insert(x, s[1..]);
      assert s == [s[0]] + s[1..];
      assert rest[0].key <= s[0].key by {
        if rest[0] != x { assert rest[0] == s[1]; }
      }
      ConsSorted(s[0], rest);
      [s[0]] + rest
    else
      ConsSorted(x, s);
      [x] + s
  }

  /** The tail of a newest-first list is newest first. */
  lemma {:induction false} TailSorted(s: seq<Stamped>)
    requires s != [] && SortedDesc(s)
    ensures SortedDesc(s[1..])
  {
    var t := s[1..];
    forall a, b | 0 <= a < b < |t| ensures t[a].key >= t[b].key {
      assert t[a] == s[a + 1] && t[b] == s[b + 1];
    }
  }

  /** expenses.sort(key=date, reverse=True), stable. */
  function SortDesc(xs: seq<Stamped>): (r: seq<Stamped>)
    ensures SortedDesc(r) && multiset(r) == multiset(xs)
  {
    if xs == [] then []
    else
      var init := xs[..|xs| - 1];
      assert xs == init + [xs[|xs| - 1]];
      Insert(xs[|xs| - 1], SortDesc(init))
  }

  /** The entries whose key is k, in order. */
  function WithKey(xs: seq<Stamped>, k: nat): (r: seq<Stamped>)
    ensures |r| <= |xs|
  {
    if xs == [] then []
    else (if xs[0].key == k then [xs[0]] else []) + WithKey(xs[1..], k)
  }

  lemma {:induction false} WithKeyAppend(a: seq<Stamped>, b: seq<Stamped>, k: nat)
    ensures WithKey(a + b, k) == WithKey(a, k) + WithKey(b, k)
    decreases |a|
  {
    if a == [] {
      assert a + b == b;
    } else {
      assert (a + b)[0] == a[0];
      assert (a + b)[1..] == a[1..] + b;
      WithKeyAppend(a[1..], b, k);
      var h := if a[0].key == k then [a[0]] else [];
      assert WithKey(a + b, k) == h + (WithKey(a[1..], k) + WithKey(b, k));
    }
  }

  lemma {:induction false} NoneWithKey(s: seq<Stamped>, k: nat)
    requires SortedDesc(s) && (s == [] || s[0].key < k)
    ensures WithKey(s, k) == []
    decreases |s|
  {
    if s != [] {
      if |s| > 1 { assert s[1].key <= s[0].key; }
      NoneWithKey(s[1..], k);
    }
  }

  /** Insert puts x after every entry of its own key. */
  lemma {:induction false} InsertAfterTies(x: Stamped, s: seq<Stamped>, k: nat)
    requires SortedDesc(s)
    ensures WithKey(Insert(x, s), k) == WithKey(s + [x], k)
    decreases |s|
  {
    if s == [] {
      assert Insert(x, s) == [x] == s + [x];
    } else if s[0].key >= x.key {
      InsertAfterTies(x, s[1..], k);
      PassTie(x, s, k);
    } else {
      InsertFront(x, s, k);
    }
  }

  /** The step of InsertAfterTies where x goes past the first entry. */
  lemma {:induction false} PassTie(x: Stamped, s: seq<Stamped>, k: nat)
    requires SortedDesc(s) && s != [] && s[0].key >= x.key
    requires WithKey(Insert(x, s[1..]), k) == WithKey(s[1..] + [x], k)
    ensures WithKey(Insert(x, s), k) == WithKey(s + [x], k)
  {
    var rest := Insert(x, s[1..]);
    var r := [s[0]] + rest;
    assert Insert(x, s) == r;
    assert r[0] == s[0] && r[1..] == rest;
    assert (s + [x])[0] == s[0] && (s + [x])[1..] == s[1..] + [x];
  }

  /** The step of InsertAfterTies where x is newer than every entry. */
  lemma {:induction false} InsertFront(x: Stamped, s: seq<Stamped>, k: nat)
    requires SortedDesc(s) && s != [] && s[0].key < x.key
    ensures WithKey(Insert(x, s), k) == WithKey(s + [x], k)
  {
    assert Insert(x, s) == [x] + s;
    WithKeyAppend([x], s, k);
    WithKeyAppend(s, [x], k);
    if k == x.key {
      NoneWithKey(s, k);
    } else {
      assert WithKey([x], k) == [];
    }
  }

  /**
   * The sort is stable: the entries of any one date come out in the order
   * they went in, so the cut to limit keeps the earliest-read of equal dates.
   */
  lemma {:induction false} SortDescStable(xs: seq<Stamped>, k: nat)
    ensures WithKey(SortDesc(xs), k) == WithKey(xs, k)
    decreases |xs|
  {
    if xs != [] {
      var init := xs[..|xs| - 1];
      var last := xs[|xs| - 1];
      assert xs == init + [last];
      SortDescStable(init, k);
      InsertAfterTies(last, SortDesc(init), k);
      WithKeyAppend(SortDesc(init), [last], k);
      WithKeyAppend(init, [last], k);
    }
  }


  /** expenses[:limit] */
  function Take(xs: seq<Stamped>, limit: nat): (r: seq<Stamped>)
    ensures |r| <= limit && |r| <= |xs| && r == xs[..|r|]
    ensures |xs| >= limit ==> |r| == limit
    ensures |xs| <= limit ==> r == xs
  {
    if |xs| <= limit then xs else xs[..limit]
  }

  /**
   * The result of get_last_expenses on the sheets read, each entry with
   * its parsed date; None when a date does not parse.
   */
  function Latest(sources: seq<Source>, limit: nat): Option<seq<Stamped>> {
    var d := Dedup(AllRecords(sources));
    if AllDated(d) then Some(Take(SortDesc(Stamp(d)), limit)) else None
  }

  lemma {:induction false} IdsOfAppend(xs: seq<Expense>, e: Expense)
    ensures IdsOf(xs + [e]) == IdsOf(xs) + {e.id}
  {
    var r := xs + [e];
    forall c | c in IdsOf(r) ensures c in IdsOf(xs) + {e.id} {
      var k :| 0 <= k < |r| && r[k].id == c;
      if k < |xs| { assert xs[k].id == c; }
    }
    forall c | c in IdsOf(xs) ensures c in IdsOf(r) {
      var k :| 0 <= k < |xs| && xs[k].id == c;
      assert r[k].id == c;
    }
    assert r[|xs|].id == e.id;
  }

  /** Dedup of a list grown by one entry. */
  lemma {:induction false} DedupStep(xs: seq<Expense>, e: Expense)
    ensures Dedup(xs + [e]) == if e.id in IdsOf(Dedup(xs)) then Dedup(xs) else Dedup(xs) + [e]
  {
    assert (xs + [e])[..|xs + [e]| - 1] == xs;
  }

  /** The records read before row i, grown by row i. */
  lemma {:induction false} SheetRecordsStep(start: seq<Expense>, sources: seq<Source>, s: nat, i: nat)
    requires s < |sources| && 1 <= i < |sources[s].grid|
    ensures start + SheetRecords(sources, s, i + 1) == start + SheetRecords(sources, s, i) + [RecordAt(sources, s, i)]
  {
    assert SheetRecords(sources, s, i + 1) == SheetRecords(sources, s, i) + [RecordAt(sources, s, i)];
  }

  /** One pass of the inner loop body: the entry is kept exactly when its ID is new. */
  lemma {:induction false} ReadOne(before: seq<Expense>, e: Expense, next: seq<Expense>, expenses: seq<Expense>, seen: set<Cell>)
    requires next == before + [e]
    requires expenses == Dedup(before) && seen == IdsOf(expenses)
    ensures e.id in seen ==> expenses == Dedup(next)
    ensures e.id !in seen ==> expenses + [e] == Dedup(next) && seen + {e.id} == IdsOf(expenses + [e])
  {
    DedupStep(before, e);
    IdsOfAppend(expenses, e);
  }

  /** The inner loop of bot.py:554-561 or 571-578: one sheet's records past seen_ids. */
  method ReadSheet(sources: seq<Source>, s: nat, expenses: seq<Expense>, seen: set<Cell>)
    returns (expenses': seq<Expense>, seen': set<Cell>)
    requires s < |sources|
    requires expenses == Dedup(RecordsBefore(sources, s)) && seen == IdsOf(expenses)
    ensures expenses' == Dedup(RecordsBefore(sources, s + 1)) && seen' == IdsOf(expenses')
  {
    expenses', seen' := expenses, seen;
    var g := sources[s].grid;
    ghost var start := RecordsBefore(sources, s);
    assert RecordsBefore(sources, s + 1) == start + SheetRecords(sources, s, |g|);
    if |g| == 0 {
      assert SheetRecords(sources, s, |g|) == [];
      assert start + SheetRecords(sources, s, |g|) == start;
      return;
    }
    var i := 1;
    ghost var before := start;
    assert start + SheetRecords(sources, s, i) == start;
    while i < |g|
      invariant 1 <= i <= |g|
      invariant before == start + SheetRecords(sources, s, i)
      invariant expenses' == Dedup(before) && seen' == IdsOf(expenses')
    {
      var e := RecordAt(sources, s, i);
      ghost var next := before + [e];
      SheetRecordsStep(start, sources, s, i);
      ReadOne(before, e, next, expenses', seen');
      if e.id !in seen' {
        seen' := seen' + {e.id};
        expenses' := expenses' + [e];
      }
      before := next;
      i := i + 1;
    }
  }

  /** The loops of bot.py:548-585 over the sheets once read: seen_ids, the expenses list, the sort and the cut. */
  method MergeRecent(sources: seq<Source>, limit: nat) returns (r: Option<seq<Stamped>>)
    ensures r == Latest(sources, limit)
  {
    var expenses: seq<Expense> := [];
    var seen: set<Cell> := {};
    var s := 0;
    while s < |sources|
      invariant 0 <= s <= |sources|
      invariant expenses == Dedup(RecordsBefore(sources, s))
      invariant seen == IdsOf(expenses)
    {
      expenses, seen := ReadSheet(sources, s, expenses, seen);
      s := s + 1;
    }
    if !AllDated(expenses) {
      return None;
    }
    var sorted := SortDesc(Stamp(expenses));
    return Some(Take(sorted, limit));
  }

  /** A Dedup entry is the first entry of the input with its ID; j is where it lies. */
  lemma {:induction false} DedupKeepsFirst(xs: seq<Expense>, y: Expense) returns (j: nat)
    requires y in Dedup(xs)
    ensures j < |xs| && xs[j] == y && forall j' :: 0 <= j' < j ==> xs[j'].id != y.id
  {
    var init := xs[..|xs| - 1];
    var x := xs[|xs| - 1];
    assert xs == init + [x];
    DedupStep(init, x);
    if y in Dedup(init) {
      j := DedupKeepsFirst(init, y);
      assert xs[j] == y;
      assert forall j' :: 0 <= j' < j ==> xs[j'] == init[j'];
    } else {
      assert y == x && x.id !in IdsOf(Dedup(init));
      j := |init|;
      forall j' | 0 <= j' < |init| ensures xs[j'].id != y.id {
        assert init[j'].id in IdsOf(init);
      }
    }
  }

  lemma {:induction false} RecordsBeforePrefix(sources: seq<Source>, s: nat, t: nat)
    requires s <= t <= |sources|
    ensures |RecordsBefore(sources, s)| <= |RecordsBefore(sources, t)|
    ensures RecordsBefore(sources, s) == RecordsBefore(sources, t)[..|RecordsBefore(sources, s)|]
  {
    if s < t {
      RecordsBeforePrefix(sources, s, t - 1);
    }
  }

  /** Every entry of the merged list is the record of a row of one of the sheets. */
  lemma {:induction false} AllRecordsFromSources(sources: seq<Source>, e: Expense)
    requires e in AllRecords(sources)
    ensures e.source < |sources| && 1 <= e.row < |sources[e.source].grid|
    ensures e == RecordAt(sources, e.source, e.row)
  {
    RecordsAreRows(sources, |sources|, e);
  }

  lemma {:induction false} RecordsAreRows(sources: seq<Source>, s: nat, e: Expense)
    requires s <= |sources| && e in RecordsBefore(sources, s)
    ensures e.source < s && 1 <= e.row < |sources[e.source].grid|
    ensures e == RecordAt(sources, e.source, e.row)
  {
    var prev := RecordsBefore(sources, s - 1);
    if e !in prev {
      var sheet := SheetRecords(sources, s - 1, |sources[s - 1].grid|);
      assert e in sheet;
    } else {
      RecordsAreRows(sources, s - 1, e);
    }
  }

  /** Every entry of a Latest result is a stamped entry of the deduplicated records. */
  lemma {:induction false} LatestFromDedup(sources: seq<Source>, limit: nat, k: nat)
    requires Latest(sources, limit).Some? && k < |Latest(sources, limit).value|
    ensures var x := Latest(sources, limit).value[k];
      x.expense in Dedup(AllRecords(sources)) && Dated(x.expense) && x.key == Key(x.expense)
  {
    var d := Dedup(AllRecords(sources));
    var st := Stamp(d);
    var sorted := SortDesc(st);
    assert Latest(sources, limit).value[k] == sorted[k];
    assert sorted[k] in multiset(st);
    var j :| 0 <= j < |st| && st[j] == sorted[k];
  }

  /** get_last_expenses returns at most limit entries, newest first. */
  lemma {:induction false} LatestOrdered(sources: seq<Source>, limit: nat)
    requires Latest(sources, limit).Some?
    ensures var r := Latest(sources, limit).value;
      |r| <= limit && forall a, b :: 0 <= a < b < |r| ==> r[a].key >= r[b].key
  {
    var sorted := SortDesc(Stamp(Dedup(AllRecords(sources))));
    var r := Latest(sources, limit).value;
    assert r == sorted[..|r|];
    forall a, b | 0 <= a < b < |r| ensures r[a].key >= r[b].key {
      assert r[a] == sorted[a] && r[b] == sorted[b];
    }
  }

  /** No ID appears twice among the entries returned. */
  lemma {:induction false} LatestDistinct(sources: seq<Source>, limit: nat)
    requires Latest(sources, limit).Some?
    ensures var r := Latest(sources, limit).value;
      forall a, b :: 0 <= a < b < |r| ==> r[a].expense.id != r[b].expense.id
  {
    var d := Dedup(AllRecords(sources));
    var sorted := SortDesc(Stamp(d));
    var r := Latest(sources, limit).value;
    assert r == sorted[..|r|];
    forall a, b | 0 <= a < b < |r| ensures r[a].expense.id != r[b].expense.id {
      DistinctStamps(d, sorted, a, b);
    }
  }

  /** Each entry returned is the record of a row of one of the sheets read, with the date it shows. */
  lemma {:induction false} LatestFromSources(sources: seq<Source>, limit: nat, k: nat)
    requires Latest(sources, limit).Some? && k < |Latest(sources, limit).value|
    ensures var e := Latest(sources, limit).value[k].expense;
      && e.source < |sources| && 1 <= e.row < |sources[e.source].grid|
      && e == RecordAt(sources, e.source, e.row)
      && e.kind == sources[e.source].kind
  {
    LatestFromDedup(sources, limit, k);
    AllRecordsFromSources(sources, Latest(sources, limit).value[k].expense);
  }

  /** Distinct entries of a Dedup list have distinct IDs, whatever order they are put in. */
  lemma {:induction false} DistinctStamps(d: seq<Expense>, sorted: seq<Stamped>, a: nat, b: nat)
    requires forall i, j :: 0 <= i < j < |d| ==> d[i].id != d[j].id
    requires AllDated(d) && multiset(sorted) == multiset(Stamp(d))
    requires a < b < |sorted|
    ensures sorted[a].expense.id != sorted[b].expense.id
  {
    var st := Stamp(d);
    assert sorted[a] in multiset(st) && sorted[b] in multiset(st);
    var i :| 0 <= i < |st| && st[i] == sorted[a];
    var j :| 0 <= j < |st| && st[j] == sorted[b];
    if i == j {
      // the same entry at two places would occur twice in the multiset
      assert multiset(sorted)[sorted[a]] >= 2 by {
        assert sorted == sorted[..a] + [sorted[a]] + sorted[a + 1..];
        assert sorted[b] in sorted[a + 1..];
      }
      StampOnce(d, i);
      assert false;
    }
  }

  /** Each entry of Stamp(d) occurs once, since the IDs are distinct. */
  lemma {:induction false} StampOnce(d: seq<Expense>, i: nat)
    requires forall p, q :: 0 <= p < q < |d| ==> d[p].id != d[q].id
    requires AllDated(d) && i < |d|
    ensures multiset(Stamp(d))[Stamp(d)[i]] == 1
  {
    var st := Stamp(d);
    var x := st[i];
    assert st == st[..i] + [x] + st[i + 1..];
    assert x !in st[..i] by {
      forall p | 0 <= p < i ensures st[p] != x { assert st[p].expense.id == d[p].id; }
    }
    assert x !in st[i + 1..] by {
      forall p | i + 1 <= p < |st| ensures st[p] != x { assert st[p].expense.id == d[p].id; }
    }
  }

  /**
   * When an ID occurs in the first sheet read, the entry kept for it is
   * that sheet's: its rows enter seen_ids before any other row.
   */
  lemma {:induction false} FirstSheetWins(sources: seq<Source>, e: Expense)
    requires |sources| > 0 && e in Dedup(AllRecords(sources))
    requires e.id in IdsOf(SheetRecords(sources, 0, |sources[0].grid|))
    ensures e.source == 0
  {
    var all := AllRecords(sources);
    var first := RecordsBefore(sources, 1);
    assert RecordsBefore(sources, 0) == [];
    assert first == SheetRecords(sources, 0, |sources[0].grid|);
    RecordsBeforePrefix(sources, 1, |sources|);
    var i := DedupKeepsFirst(all, e);
    var j := FirstOccurrenceInPrefix(all, first, e, i);
    assert first[j] == e;
  }

  /** The first entry with a given ID lies in a prefix that holds that ID. */
  lemma {:induction false} FirstOccurrenceInPrefix(all: seq<Expense>, first: seq<Expense>, e: Expense, i: nat) returns (j: nat)
    requires |first| <= |all| && first == all[..|first|] && e.id in IdsOf(first)
    requires i < |all| && all[i] == e && forall j' :: 0 <= j' < i ==> all[j'].id != e.id
    ensures j < |first| && first[j] == e
  {
    var p :| 0 <= p < |first| && first[p].id == e.id;
    assert all[p] == first[p];
    j := i;
    assert first[j] == all[j];
  }

  /** In a list sorted newest first, an entry beyond the first n is no newer than those n. */
  lemma {:induction false} BeyondPrefixNoNewer(sorted: seq<Stamped>, n: nat, x: Stamped)
    requires SortedDesc(sorted) && n <= |sorted| && x in sorted && x !in sorted[..n]
    ensures forall k :: 0 <= k < n ==> sorted[k].key >= x.key
  {
    var m :| 0 <= m < |sorted| && sorted[m] == x;
  }

  /** An entry the sorted prefix leaves out is no newer than any entry in it. */
  lemma {:induction false} NotTakenNoNewer(st: seq<Stamped>, limit: nat, x: Stamped)
    requires x in st && x !in Take(SortDesc(st), limit)
    ensures forall k :: 0 <= k < |Take(SortDesc(st), limit)| ==> Take(SortDesc(st), limit)[k].key >= x.key
  {
    var sorted := SortDesc(st);
    assert x in multiset(st);
    assert x in sorted by { assert multiset(sorted) == multiset(st); }
    BeyondPrefixNoNewer(sorted, |Take(sorted, limit)|, x);
  }

  /** An entry left out is no more recent than any entry returned. */
  lemma {:induction false} LatestAreNewest(sources: seq<Source>, limit: nat, y: Expense)
    requires Latest(sources, limit).Some? && y in Dedup(AllRecords(sources))
    requires forall k :: 0 <= k < |Latest(sources, limit).value| ==> Latest(sources, limit).value[k].expense != y
    ensures Dated(y)
    ensures forall k :: 0 <= k < |Latest(sources, limit).value| ==> Latest(sources, limit).value[k].key >= Key(y)
  {
    var d := Dedup(AllRecords(sources));
    assert AllDated(d);
    var st := Stamp(d);
    var r := Take(SortDesc(st), limit);
    assert Latest(sources, limit).value == r;
    var i :| 0 <= i < |d| && d[i] == y;
    var x := st[i];
    assert x.expense == y && x.key == Key(y);
    assert x !in r by {
      forall k | 0 <= k < |r| ensures r[k] != x { assert r[k].expense != y; }
    }
    NotTakenNoNewer(st, limit, x);
  }

  /**
   * get_family_sheet for each family in turn: a missing sheet is skipped,
   * one whose first row is empty raises.
   */
  function OpenFamilies(book: Book, families: seq<string>): (r: (Book, Option<seq<Source>>))
    ensures RowsKept(book, r.0) && RegistryKept(book, r.0)
    ensures r.1.Some? ==> forall k :: 0 <= k < |r.1.value| ==> r.1.value[k].kind == Family
    ensures r.1.Some? ==> |r.1.value| <= |families|
  {
    if families == [] then (book, Some([]))
    else
      var title := FamilyTitle(families[0]);
      var o := OpenFamilySheet(book, title);
      match o.access
      case Broken => (o.book, None)
      case Absent => OpenFamilies(o.book, families[1..])
      case Ready =>
        var rest := OpenFamilies(o.book, families[1..]);
        (rest.0, if rest.1.None? then None else Some([Source(Family, o.book[title])] + rest.1.value))
  }

  /** The titles of the families whose worksheet exists, in the given order. */
  function PresentTitles(book: Book, families: seq<string>): (r: seq<string>)
    ensures |r| <= |families|
    ensures forall k :: 0 <= k < |r| ==> r[k] in book
    ensures forall k :: 0 <= k < |r| ==> exists i :: 0 <= i < |families| && r[k] == FamilyTitle(families[i])
  {
    if families == [] then []
    else
      var rest := PresentTitles(book, families[1..]);
      assert forall k :: 0 <= k < |rest| ==> exists i :: 0 <= i < |families| && rest[k] == FamilyTitle(families[i]) by {
        forall k | 0 <= k < |rest| ensures exists i :: 0 <= i < |families| && rest[k] == FamilyTitle(families[i]) {
          var i :| 0 <= i < |families[1..]| && rest[k] == FamilyTitle(families[1..][i]);
          assert families[1..][i] == families[i + 1];
        }
      }
      if FamilyTitle(families[0]) in book then [FamilyTitle(families[0])] + rest else rest
  }

  lemma {:induction false} PresentTitlesByKeys(b1: Book, b2: Book, families: seq<string>)
    requires b1.Keys == b2.Keys
    ensures PresentTitles(b1, families) == PresentTitles(b2, families)
    decreases |families|
  {
    if families != [] {
      PresentTitlesByKeys(b1, b2, families[1..]);
    }
  }

  /** A missing family sheet is skipped and adds no title. */
  lemma {:induction false} AbsentSkipped(book: Book, families: seq<string>)
    requires families != [] && OpenFamilySheet(book, FamilyTitle(families[0])).access == Absent
    ensures OpenFamilies(book, families) == OpenFamilies(book, families[1..])
    ensures PresentTitles(book, families) == PresentTitles(book, families[1..])
  {
  }

  /** A usable family sheet comes first, before the sheets of the rest. */
  lemma {:induction false} ReadyListed(book: Book, families: seq<string>)
    requires families != [] && OpenFamilySheet(book, FamilyTitle(families[0])).access == Ready
    ensures var title := FamilyTitle(families[0]);
      var o := OpenFamilySheet(book, title);
      var rest := OpenFamilies(o.book, families[1..]);
      && OpenFamilies(book, families).1 == (if rest.1.None? then None else Some([Source(Family, o.book[title])] + rest.1.value))
      && PresentTitles(book, families) == [title] + PresentTitles(book, families[1..])
  {
  }

  /** After the first lookup the rest of the families are looked up as at the start. */
  lemma {:induction false} LookupStep(book: Book, families: seq<string>)
    requires families != []
    ensures var o := OpenFamilySheet(book, FamilyTitle(families[0]));
      && PresentTitles(o.book, families[1..]) == PresentTitles(book, families[1..])
      && forall i :: 0 <= i < |families| - 1 ==>
           OpenFamilySheet(o.book, FamilyTitle(families[1..][i])).access == OpenFamilySheet(book, FamilyTitle(families[i + 1])).access
  {
    var o := OpenFamilySheet(book, FamilyTitle(families[0]));
    OpenFamilyKeepsView(book, FamilyTitle(families[0]));
    PresentTitlesByKeys(book, o.book, families[1..]);
    forall i | 0 <= i < |families| - 1
      ensures OpenFamilySheet(o.book, FamilyTitle(families[1..][i])).access == OpenFamilySheet(book, FamilyTitle(families[i + 1])).access
    {
      assert families[1..][i] == families[i + 1];
    }
  }

  /** The family sheets can all be read exactly when none of them is unreadable. */
  lemma {:induction false} OpenFamiliesSome(book: Book, families: seq<string>)
    ensures OpenFamilies(book, families).1.Some? <==>
            forall i :: 0 <= i < |families| ==> OpenFamilySheet(book, FamilyTitle(families[i])).access != Broken
    decreases |families|
  {
    if families != [] {
      var title := FamilyTitle(families[0]);
      var o := OpenFamilySheet(book, title);
      var rest := families[1..];
      OpenFamiliesSome(o.book, rest);
      LookupStep(book, families);
      if o.access == Absent {
        AbsentSkipped(book, families);
      } else if o.access == Ready {
        ReadyListed(book, families);
      }
      if OpenFamilies(book, families).1.Some? {
        forall i | 0 <= i < |families| ensures OpenFamilySheet(book, FamilyTitle(families[i])).access != Broken {
          if i > 0 { assert families[i] == rest[i - 1]; }
        }
      }
    }
  }

  /**
   * Read against the book before the loop, the family sources are, in
   * order, the migrated grid of each family sheet that exists.
   */
  lemma {:induction false} OpenFamiliesGrids(book: Book, families: seq<string>)
    requires OpenFamilies(book, families).1.Some?
    ensures var r := OpenFamilies(book, families).1.value;
      var ts := PresentTitles(book, families);
      |r| == |ts| && forall k :: 0 <= k < |ts| ==> r[k].grid == OpenFamilySheet(book, ts[k]).book[ts[k]]
    decreases |families|
  {
    if families != [] {
      var title := FamilyTitle(families[0]);
      var o := OpenFamilySheet(book, title);
      if o.access == Absent {
        AbsentSkipped(book, families);
        OpenFamiliesGrids(book, families[1..]);
      } else {
        assert o.access == Ready;
        ReadyGrids(book, families);
      }
    }
  }

  /** The inductive step of OpenFamiliesGrids for a usable first sheet. */
  lemma {:induction false} ReadyGrids(book: Book, families: seq<string>)
    requires families != [] && OpenFamilySheet(book, FamilyTitle(families[0])).access == Ready
    requires OpenFamilies(book, families).1.Some?
    ensures var r := OpenFamilies(book, families).1.value;
      var ts := PresentTitles(book, families);
      |r| == |ts| && forall k :: 0 <= k < |ts| ==> r[k].grid == OpenFamilySheet(book, ts[k]).book[ts[k]]
    decreases |families|, 0
  {
    var title := FamilyTitle(families[0]);
    var o := OpenFamilySheet(book, title);
    var rest := families[1..];
    var tr := PresentTitles(book, rest);
    ReadyListed(book, families);
    PresentTitlesByKeys(book, o.book, rest);
    OpenFamiliesGrids(o.book, rest);
    SameGrids(book, families);
    var rs := OpenFamilies(o.book, rest).1.value;
    forall k | 0 <= k < |tr| ensures rs[k].grid == OpenFamilySheet(book, tr[k]).book[tr[k]] {
    }
    PrependGrids(book, title, rs, tr);
  }

  /** One more usable sheet in front keeps the sources and the titles in step. */
  lemma {:induction false} PrependGrids(book: Book, title: string, rs: seq<Source>, tr: seq<string>)
    requires OpenFamilySheet(book, title).access == Ready && |rs| == |tr|
    requires forall k :: 0 <= k < |tr| ==> tr[k] in book && rs[k].grid == OpenFamilySheet(book, tr[k]).book[tr[k]]
    ensures var all := [Source(Family, OpenFamilySheet(book, title).book[title])] + rs;
      var ts := [title] + tr;
      |all| == |ts| && forall k :: 0 <= k < |ts| ==> all[k].grid == OpenFamilySheet(book, ts[k]).book[ts[k]]
  {
    var all := [Source(Family, OpenFamilySheet(book, title).book[title])] + rs;
    var ts := [title] + tr;
    forall k | 0 <= k < |ts| ensures all[k].grid == OpenFamilySheet(book, ts[k]).book[ts[k]] {
      if k > 0 {
        assert all[k] == rs[k - 1] && ts[k] == tr[k - 1];
      }
    }
  }

  /** The sheets of the rest of the families read the same after the first lookup. */
  lemma {:induction false} SameGrids(book: Book, families: seq<string>)
    requires families != []
    requires OpenFamilies(book, families).1.Some?
    ensures var o := OpenFamilySheet(book, FamilyTitle(families[0]));
      var tr := PresentTitles(book, families[1..]);
      forall k :: 0 <= k < |tr| ==> OpenFamilySheet(o.book, tr[k]).book[tr[k]] == OpenFamilySheet(book, tr[k]).book[tr[k]]
  {
    var o := OpenFamilySheet(book, FamilyTitle(families[0]));
    var rest := families[1..];
    var tr := PresentTitles(book, rest);
    OpenFamiliesSome(book, families);
    OpenFamilyKeepsView(book, FamilyTitle(families[0]));
    forall k | 0 <= k < |tr| ensures OpenFamilySheet(o.book, tr[k]).book[tr[k]] == OpenFamilySheet(book, tr[k]).book[tr[k]] {
      var i :| 0 <= i < |rest| && tr[k] == FamilyTitle(rest[i]);
      assert rest[i] == families[i + 1];
      assert OpenFamilySheet(book, tr[k]).access == Ready;
    }
  }

  /** The personal sheet first, then the sheets of the user's families. */
  function RecentSources(book: Book, user: UserId): (r: (Book, Option<seq<Source>>))
    ensures RowsKept(book, r.0) && RegistryKept(book, r.0)
    ensures r.1.Some? ==> |r.1.value| > 0 && r.1.value[0].kind == Personal
    ensures r.1.Some? ==> forall k :: 0 < k < |r.1.value| ==> r.1.value[k].kind == Family
    ensures r.1.Some? ==> r.1.value[0] == Source(Personal, OpenUserSheet(book, user).book[user])
  {
    var o := OpenUserSheet(book, user);
    if o.access != Ready then (o.book, None)
    else
      var b := EnsureFamiliesList(o.book);
      var families := Distinct(FamilyIds(b[FamiliesTitle], user));
      var f := OpenFamilies(b, families);
      if f.1.None? then (f.0, None)
      else (f.0, Some([Source(Personal, o.book[user])] + f.1.value))
  }

  /** No sheet of the given families has an empty first row. */
  predicate NoneBroken(b: Book, families: seq<string>) {
    forall i :: 0 <= i < |families| ==> OpenFamilySheet(b, FamilyTitle(families[i])).access != Broken
  }

  /**
   * The sheets get_last_expenses reads can all be read exactly when the
   * user's own sheet and every sheet of the user's families can.
   */
  lemma {:induction false} RecentSourcesSome(book: Book, user: UserId)
    ensures var o := OpenUserSheet(book, user);
      var b := EnsureFamiliesList(o.book);
      var families := Distinct(FamilyIds(b[FamiliesTitle], user));
      RecentSources(book, user).1.Some? <==> o.access == Ready && NoneBroken(b, families)
  {
    var o := OpenUserSheet(book, user);
    var b := EnsureFamiliesList(o.book);
    var families := Distinct(FamilyIds(b[FamiliesTitle], user));
    OpenFamiliesSome(b, families);
    assert OpenFamilies(b, families).1.Some? <==> NoneBroken(b, families);
    if o.access == Ready {
      assert RecentSources(book, user).1.Some? <==> OpenFamilies(b, families).1.Some?;
    } else {
      assert RecentSources(book, user).1.None?;
    }
  }

  /**
   * The sheets get_last_expenses reads are the user's own sheet followed by
   * each existing sheet of the user's families, repeats dropped, in
   * registry order.
   */
  lemma {:induction false} RecentSourcesView(book: Book, user: UserId)
    requires RecentSources(book, user).1.Some?
    ensures var r := RecentSources(book, user).1.value;
      var b := EnsureFamiliesList(OpenUserSheet(book, user).book);
      var ts := PresentTitles(b, Distinct(FamilyIds(b[FamiliesTitle], user)));
      && r[0] == Source(Personal, OpenUserSheet(book, user).book[user])
      && |r| == |ts| + 1
      && forall k :: 0 <= k < |ts| ==> r[k + 1].grid == OpenFamilySheet(b, ts[k]).book[ts[k]]
  {
    var o := OpenUserSheet(book, user);
    var b := EnsureFamiliesList(o.book);
    var families := Distinct(FamilyIds(b[FamiliesTitle], user));
    OpenFamiliesGrids(b, families);
    var fs := OpenFamilies(b, families).1.value;
    assert RecentSources(book, user).1.value == [Source(Personal, o.book[user])] + fs;
    var all := [Source(Personal, o.book[user])] + fs;
    var ts := PresentTitles(b, families);
    forall k | 0 <= k < |ts| ensures all[k + 1].grid == OpenFamilySheet(b, ts[k]).book[ts[k]] {
      ShiftedByOne(Source(Personal, o.book[user]), fs, k);
    }
  }

  /** Putting a source first moves each other source up by one place. */
  lemma {:induction false} ShiftedByOne(p: Source, fs: seq<Source>, k: nat)
    requires k < |fs|
    ensures ([p] + fs)[k + 1] == fs[k]
  {
  }

  /** get_last_expenses(user_id, limit): None when it raises. */
  function LastExpenses(book: Book, user: UserId, limit: nat): (Book, Option<seq<Stamped>>) {
    var s := RecentSources(book, user);
    if s.1.None? then (s.0, None) else (s.0, Latest(s.1.value, limit))
  }

  /** When a record of the user's own sheet shares its ID with a family record, the personal one is shown. */
  lemma {:induction false} PersonalCopyKept(book: Book, user: UserId, limit: nat, k: nat)
    requires LastExpenses(book, user, limit).1.Some? && k < |LastExpenses(book, user, limit).1.value|
    requires var sources := RecentSources(book, user).1.value;
      LastExpenses(book, user, limit).1.value[k].expense.id in IdsOf(SheetRecords(sources, 0, |sources[0].grid|))
    ensures LastExpenses(book, user, limit).1.value[k].expense.kind == Personal
  {
    var sources := RecentSources(book, user).1.value;
    LatestFromDedup(sources, limit, k);
    LatestFromSources(sources, limit, k);
    FirstSheetWins(sources, LastExpenses(book, user, limit).1.value[k].expense);
  }
}
