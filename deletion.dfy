/**
 * handle_delete_expense: the ID carried by the delete button is looked up
 * with find, first in the user's own sheet and then in each sheet of the
 * user's families, and the row of the first match is deleted.
 */
module Deletion {
  import opened Wrappers
  import opened Text
  import opened Sheets
  import opened Ledger
  import opened Families

  /** What the handler reports. */
  datatype DeleteOutcome =
    | PersonalDeleted            // "Личная трата удалена"
    | FamilyDeleted(title: string) // "Семейная трата удалена", from this family sheet
    | NotFound                   // "Трата не найдена"
    | DeleteFailed               // an exception: "Ошибка при удалении"

  /** data.split("_")[1]: the text between the first and the second underscore. */
  function SecondField(data: string): (r: Option<string>)
    ensures r.None? <==> '_' !in data
    ensures r.Some? ==> '_' !in r.value
    ensures r.Some? ==> exists k :: 0 <= k < |data| && data[k] == '_' && '_' !in data[..k]
                                    && StartsWith(data[k + 1..], r.value)
  {
    var k := IndexOf(data, '_');
    if k == |data| then
      None
    else
      var rest := data[k + 1..];
      var f := rest[..IndexOf(rest, '_')];
      assert '_' !in data[..k] by {
        forall i | 0 <= i < k ensures data[..k][i] != '_' { assert data[..k][i] == data[i]; }
      }
      assert '_' !in f by {
        forall i | 0 <= i < |f| ensures f[i] != '_' { assert f[i] == rest[i]; }
      }
      Some(f)
  }

  /** The delete button's ID comes back whole when it has no underscore. */
  lemma {:induction false} DeleteDataCarriesId(id: string)
    requires '_' !in id
    ensures SecondField("delete_" + id) == Some(id)
  {
    var data := "delete_" + id;
    assert IndexOf(data, '_') == 6 by {
      assert data[6] == '_';
      assert forall i :: 0 <= i < 6 ==> data[i] == "delete"[i];
    }
    assert data[7..] == id;
    assert IndexOf(id, '_') == |id|;
    assert id[..|id|] == id;
  }

  /** The family sheets, in turn: a missing one is skipped, an unreadable one raises. */
  function ProbeFamilies(book: Book, families: seq<string>, q: string): (r: (Book, DeleteOutcome))
    ensures r.1 != PersonalDeleted
    ensures r.0.Keys == book.Keys && RegistryKept(book, r.0)
    ensures r.1 == NotFound || r.1 == DeleteFailed ==> RowsKept(book, r.0)
    ensures r.1.FamilyDeleted? ==>
      (r.1.title in book && |r.0[r.1.title]| == |book[r.1.title]| - 1
       && forall t :: t in book && t != r.1.title ==> |r.0[t]| == |book[t]|)
  {
    if families == [] then (book, NotFound)
    else
      var title := FamilyTitle(families[0]);
      var o := OpenFamilySheet(book, title);
      match o.access
      case Absent => ProbeFamilies(o.book, families[1..], q)
      case Broken => (o.book, DeleteFailed)
      case Ready =>
        match FindRow(o.book[title], q)
        case Some(row) => (o.book[title := DeleteRow(o.book[title], row)], FamilyDeleted(title))
        case None => ProbeFamilies(o.book, families[1..], q)
  }

  /** get_family_sheet(title) gives a usable sheet in which find(q) succeeds. */
  ghost predicate Shows(book: Book, title: string, q: string) {
    var o := OpenFamilySheet(book, title);
    o.access == Ready && FindRow(o.book[title], q).Some?
  }

  /** The loop goes on past title: no such sheet, or a usable one without q. */
  ghost predicate Passes(book: Book, title: string, q: string) {
    var o := OpenFamilySheet(book, title);
    o.access == Absent || (o.access == Ready && FindRow(o.book[title], q).None?)
  }

  /** The k-th family's sheet is the first that shows q. */
  ghost predicate FirstHit(book: Book, families: seq<string>, q: string, k: nat) {
    && k < |families| && Shows(book, FamilyTitle(families[k]), q)
    && forall j :: 0 <= j < k ==> Passes(book, FamilyTitle(families[j]), q)
  }

  /** The k-th family's sheet is unreadable and every earlier one was passed. */
  ghost predicate FirstBroken(book: Book, families: seq<string>, q: string, k: nat) {
    && k < |families| && OpenFamilySheet(book, FamilyTitle(families[k])).access == Broken
    && forall j :: 0 <= j < k ==> Passes(book, FamilyTitle(families[j]), q)
  }

  /** Books that look the same through get_family_sheet agree on every probe step. */
  lemma {:induction false} SameViewSameProbe(b1: Book, b2: Book, title: string, q: string)
    requires SameFamilyView(b1, b2)
    ensures Shows(b1, title, q) <==> Shows(b2, title, q)
    ensures Passes(b1, title, q) <==> Passes(b2, title, q)
    ensures OpenFamilySheet(b1, title).access == OpenFamilySheet(b2, title).access
    ensures Shows(b1, title, q) ==> OpenFamilySheet(b1, title).book[title] == OpenFamilySheet(b2, title).book[title]
  {
  }

  /**
   * The sheet after the first family's lookup: the rest of the loop sees
   * the rest of the families as the loop's start did.
   */
  lemma {:induction false} ProbeStep(book: Book, families: seq<string>, q: string)
    requires families != []
    ensures var o := OpenFamilySheet(book, FamilyTitle(families[0]));
      forall j :: 0 <= j < |families| - 1 ==>
        && (Shows(o.book, FamilyTitle(families[1..][j]), q) <==> Shows(book, FamilyTitle(families[j + 1]), q))
        && (Passes(o.book, FamilyTitle(families[1..][j]), q) <==> Passes(book, FamilyTitle(families[j + 1]), q))
        && OpenFamilySheet(o.book, FamilyTitle(families[1..][j])).access == OpenFamilySheet(book, FamilyTitle(families[j + 1])).access
  {
    var o := OpenFamilySheet(book, FamilyTitle(families[0]));
    OpenFamilyKeepsView(book, FamilyTitle(families[0]));
    forall j | 0 <= j < |families| - 1
      ensures Shows(o.book, FamilyTitle(families[1..][j]), q) <==> Shows(book, FamilyTitle(families[j + 1]), q)
      ensures Passes(o.book, FamilyTitle(families[1..][j]), q) <==> Passes(book, FamilyTitle(families[j + 1]), q)
      ensures OpenFamilySheet(o.book, FamilyTitle(families[1..][j])).access == OpenFamilySheet(book, FamilyTitle(families[j + 1])).access
    {
      assert families[1..][j] == families[j + 1];
      SameViewSameProbe(book, o.book, FamilyTitle(families[j + 1]), q);
    }
  }

  /** A passed sheet hands the rest of the families to the next round unchanged. */
  lemma {:induction false} PassedStep(book: Book, families: seq<string>, q: string)
    requires families != [] && Passes(book, FamilyTitle(families[0]), q)
    ensures ProbeFamilies(book, families, q) ==
            ProbeFamilies(OpenFamilySheet(book, FamilyTitle(families[0])).book, families[1..], q)
  {
  }

  /** The first family's sheet shows q: its first row showing q goes. */
  lemma {:induction false} HitFirst(book: Book, families: seq<string>, q: string)
    requires families != [] && Shows(book, FamilyTitle(families[0]), q)
    ensures var title := FamilyTitle(families[0]);
      var o := OpenFamilySheet(book, title);
      ProbeFamilies(book, families, q) ==
        (o.book[title := DeleteRow(o.book[title], FindRow(o.book[title], q).value)], FamilyDeleted(title))
  {
  }

  /**
   * When the k-th family's sheet is the first to show q, that family's
   * delete is reported and its sheet loses exactly the first row showing q.
   */
  lemma {:induction false} FirstHitDeletes(book: Book, families: seq<string>, q: string, k: nat)
    requires FirstHit(book, families, q, k)
    ensures var r := ProbeFamilies(book, families, q);
      var title := FamilyTitle(families[k]);
      var o := OpenFamilySheet(book, title);
      && r.1 == FamilyDeleted(title)
      && r.0[title] == DeleteRow(o.book[title], FindRow(o.book[title], q).value)
    decreases k
  {
    if k == 0 {
      HitFirst(book, families, q);
    } else {
      var title := FamilyTitle(families[0]);
      var o := OpenFamilySheet(book, title);
      var rest := families[1..];
      PassedStep(book, families, q);
      ProbeStep(book, families, q);
      assert FirstHit(o.book, rest, q, k - 1) by {
        forall j | 0 <= j < k - 1 ensures Passes(o.book, FamilyTitle(rest[j]), q) {
          assert Passes(book, FamilyTitle(families[j + 1]), q);
        }
        assert Shows(book, FamilyTitle(families[k]), q);
      }
      FirstHitDeletes(o.book, rest, q, k - 1);
      OpenFamilyKeepsView(book, title);
      assert rest[k - 1] == families[k];
      SameViewSameProbe(book, o.book, FamilyTitle(families[k]), q);
    }
  }

  /** When every family's sheet is passed, nothing is found. */
  lemma {:induction false} AllPassedNotFound(book: Book, families: seq<string>, q: string)
    requires forall i :: 0 <= i < |families| ==> Passes(book, FamilyTitle(families[i]), q)
    ensures ProbeFamilies(book, families, q).1 == NotFound
    decreases |families|
  {
    if families != [] {
      var title := FamilyTitle(families[0]);
      var o := OpenFamilySheet(book, title);
      var rest := families[1..];
      PassedStep(book, families, q);
      ProbeStep(book, families, q);
      forall j | 0 <= j < |rest| ensures Passes(o.book, FamilyTitle(rest[j]), q) {
        assert Passes(book, FamilyTitle(families[j + 1]), q);
      }
      AllPassedNotFound(o.book, rest, q);
    }
  }

  /** The first family's sheet is unreadable: the lookup raises. */
  lemma {:induction false} BrokenFirst(book: Book, families: seq<string>, q: string)
    requires families != [] && OpenFamilySheet(book, FamilyTitle(families[0])).access == Broken
    ensures ProbeFamilies(book, families, q).1 == DeleteFailed
  {
  }

  /** An unreadable sheet reached before any hit makes the handler fail. */
  lemma {:induction false} FirstBrokenFails(book: Book, families: seq<string>, q: string, k: nat)
    requires FirstBroken(book, families, q, k)
    ensures ProbeFamilies(book, families, q).1 == DeleteFailed
    decreases k
  {
    if k == 0 {
      BrokenFirst(book, families, q);
    } else {
      var title := FamilyTitle(families[0]);
      var o := OpenFamilySheet(book, title);
      var rest := families[1..];
      PassedStep(book, families, q);
      ProbeStep(book, families, q);
      assert FirstBroken(o.book, rest, q, k - 1) by {
        forall j | 0 <= j < k - 1 ensures Passes(o.book, FamilyTitle(rest[j]), q) {
          assert Passes(book, FamilyTitle(families[j + 1]), q);
        }
      }
      FirstBrokenFails(o.book, rest, q, k - 1);
    }
  }

  /**
   * Walking the families in order, every sheet is passed, or some sheet is
   * the first to show q, or an unreadable one comes first.
   */
  lemma {:induction false} ClassifyProbe(book: Book, families: seq<string>, q: string) returns (k: nat)
    ensures || (k == |families| && forall i :: 0 <= i < |families| ==> Passes(book, FamilyTitle(families[i]), q))
            || FirstHit(book, families, q, k)
            || FirstBroken(book, families, q, k)
  {
    k := 0;
    while k < |families| && Passes(book, FamilyTitle(families[k]), q)
      invariant k <= |families|
      invariant forall i :: 0 <= i < k ==> Passes(book, FamilyTitle(families[i]), q)
    {
      k := k + 1;
    }
  }

  /**
   * The family half of the probe in both directions, read against the book
   * as it was before the loop: a reported family delete is the first sheet
   * showing q; nothing is found exactly when every sheet is passed; a
   * failure is an unreadable sheet reached before any hit.
   */
  lemma {:induction false} ProbeFamiliesView(book: Book, families: seq<string>, q: string)
    ensures var r := ProbeFamilies(book, families, q);
      r.1.FamilyDeleted? ==> exists k: nat :: FirstHit(book, families, q, k) && r.1.title == FamilyTitle(families[k])
    ensures ProbeFamilies(book, families, q).1 == NotFound <==>
              forall i :: 0 <= i < |families| ==> Passes(book, FamilyTitle(families[i]), q)
    ensures ProbeFamilies(book, families, q).1 == DeleteFailed ==> exists k: nat :: FirstBroken(book, families, q, k)
  {
    var k := ClassifyProbe(book, families, q);
    if FirstHit(book, families, q, k) {
      FirstHitDeletes(book, families, q, k);
      assert !Passes(book, FamilyTitle(families[k]), q);
    } else if FirstBroken(book, families, q, k) {
      FirstBrokenFails(book, families, q, k);
      assert !Passes(book, FamilyTitle(families[k]), q);
    } else {
      AllPassedNotFound(book, families, q);
    }
  }

  /** The whole handler on the callback data. */
  function DeleteExpense(book: Book, user: UserId, data: string): (r: (Book, DeleteOutcome))
    ensures RegistryKept(book, r.0)
  {
    match SecondField(data)
    case None => (book, DeleteFailed)
    case Some(q) =>
      var o := OpenUserSheet(book, user);
      if o.access != Ready then (o.book, DeleteFailed)
      else
        match FindRow(o.book[user], q)
        case Some(row) =>
          TitlesDistinct(user, q);
          (o.book[user := DeleteRow(o.book[user], row)], PersonalDeleted)
        case None =>
          var b := EnsureFamiliesList(o.book);
          ProbeFamilies(b, FamilyIds(b[FamiliesTitle], user), q)
  }

  /**
   * The family half of the handler: when the user's own sheet does not show
   * the ID, the first of the user's family sheets that shows it, in
   * registry order, loses its first matching row; "not found" exactly when
   * no family sheet shows it and none is unreadable.
   */
  lemma {:induction false} FamilyHalf(book: Book, user: UserId, data: string, q: string)
    requires SecondField(data) == Some(q)
    requires OpenUserSheet(book, user).access == Ready
    requires FindRow(OpenUserSheet(book, user).book[user], q).None?
    ensures var b := EnsureFamiliesList(OpenUserSheet(book, user).book);
      var families := FamilyIds(b[FamiliesTitle], user);
      var r := DeleteExpense(book, user, data);
      && (r.1 == NotFound <==> forall i :: 0 <= i < |families| ==> Passes(b, FamilyTitle(families[i]), q))
      && (r.1.FamilyDeleted? ==> exists k: nat :: FirstHit(b, families, q, k) && r.1.title == FamilyTitle(families[k]))
      && (forall k: nat :: FirstHit(b, families, q, k) ==>
            var title := FamilyTitle(families[k]);
            var o := OpenFamilySheet(b, title);
            r.1 == FamilyDeleted(title) && r.0[title] == DeleteRow(o.book[title], FindRow(o.book[title], q).value))
      && (r.1 == DeleteFailed ==> exists k: nat :: FirstBroken(b, families, q, k))
      && r.1 != PersonalDeleted
  {
    var b := EnsureFamiliesList(OpenUserSheet(book, user).book);
    var families := FamilyIds(b[FamiliesTitle], user);
    assert DeleteExpense(book, user, data) == ProbeFamilies(b, families, q);
    ProbeFamiliesView(b, families, q);
    forall k: nat | FirstHit(b, families, q, k)
      ensures var title := FamilyTitle(families[k]);
        var o := OpenFamilySheet(b, title);
        var r := ProbeFamilies(b, families, q);
        r.1 == FamilyDeleted(title) && r.0[title] == DeleteRow(o.book[title], FindRow(o.book[title], q).value)
    {
      FirstHitDeletes(b, families, q, k);
    }
  }

  /**
   * The personal sheet is probed first: when it shows the ID, exactly its
   * first matching row goes and no family sheet is looked at.
   */
  lemma {:induction false} PersonalFirst(book: Book, user: UserId, data: string, q: string)
    requires SecondField(data) == Some(q)
    requires OpenUserSheet(book, user).access == Ready
    requires FindRow(OpenUserSheet(book, user).book[user], q).Some?
    ensures var o := OpenUserSheet(book, user);
      DeleteExpense(book, user, data) ==
        (o.book[user := DeleteRow(o.book[user], FindRow(o.book[user], q).value)], PersonalDeleted)
  {
  }

  /** When nothing is deleted, every worksheet keeps all its rows. */
  lemma {:induction false} NothingDeletedKeepsRows(book: Book, user: UserId, data: string)
    requires DeleteExpense(book, user, data).1 in {NotFound, DeleteFailed}
    ensures RowsKept(book, DeleteExpense(book, user, data).0)
  {
  }

  /** A successful delete removes one row of one worksheet and no other row anywhere. */
  lemma {:induction false} AtMostOneRow(book: Book, user: UserId, data: string)
    requires DeleteExpense(book, user, data).1 in {PersonalDeleted} || DeleteExpense(book, user, data).1.FamilyDeleted?
    ensures var (after, outcome) := DeleteExpense(book, user, data);
      var t := if outcome == PersonalDeleted then user else outcome.title;
      && t in after
      && (t in book ==> |after[t]| == |book[t]| - 1)
      && (forall u :: u in book && u != t ==> u in after && |after[u]| == |book[u]|)
  {
    var q := SecondField(data).value;
    var o := OpenUserSheet(book, user);
    if FindRow(o.book[user], q).None? {
      var b := EnsureFamiliesList(o.book);
      var fams := FamilyIds(b[FamiliesTitle], user);
      var r := ProbeFamilies(b, fams, q);
      var t := r.1.title;
      forall u | u in book && u != t ensures u in r.0 && |r.0[u]| == |book[u]| {
        assert |o.book[u]| == |book[u]|;
        assert |b[u]| == |o.book[u]|;
      }
      if t in book {
        assert |b[t]| == |book[t]|;
      }
    }
  }

  /**
   * Deleting an ID that appears in one data row of the personal sheet and
   * nowhere else in it, then pressing the same button again, finds nothing
   * there: the second press cannot delete another personal row.
   */
  lemma {:induction false} RepeatSkipsPersonal(book: Book, user: UserId, data: string)
    requires DeleteExpense(book, user, data).1 == PersonalDeleted
    requires var o := OpenUserSheet(book, user);
      var g := o.book[user];
      var row := FindRow(g, SecondField(data).value).value;
      row >= 1 && forall j :: 0 <= j < |g| && j != row ==> !RowShows(g, j, SecondField(data).value)
    ensures DeleteExpense(DeleteExpense(book, user, data).0, user, data).1 != PersonalDeleted
  {
    var q := SecondField(data).value;
    var o := OpenUserSheet(book, user);
    var g := o.book[user];
    var row := FindRow(g, q).value;
    var after := DeleteExpense(book, user, data).0;
    var m := DeleteRow(g, row);
    assert after[user] == m;
    DeleteRowShowsNoMore(g, row, q);
    assert m[0] == g[0];
    assert HeaderFirst(m) == HeaderFirst(g);
    var o2 := OpenUserSheet(after, user);
    assert o2 == Opened(after, Ready);
  }
}
