/**
 * The spreadsheet as a map from worksheet title to grid, and the three
 * accessors that may change it while looking a worksheet up:
 * get_user_sheet (create or migrate), get_family_sheet (migrate only) and
 * setup_families_list (create the registry if missing).
 */
module Ledger {
  import opened Wrappers
  import opened Text
  import opened Sheets

  /** A Telegram user id, kept as its decimal text: str(user_id). */
  type UserId = s: string | IsDigitText(s) witness "1"

  type Book = map<string, Grid>

  const FamiliesTitle: string := "families_list"

  /** Header of a personal worksheet (bot.py:190). */
  const UserHeader: Row :=
    [Str("ID"), Str("Дата"), Str("Категория"), Str("Сумма"), Str("Теги"), Str("Тип"), Str("Комментарий")]

  /** Header written when a family worksheet is created (bot.py:233): no ID column. */
  const FamilySheetHeader: Row :=
    [Str("Дата"), Str("Категория"), Str("Сумма"), Str("Теги"), Str("Тип"), Str("user_id")]

  /** Header of the family registry (bot.py:96). */
  const FamiliesHeader: Row := [Str("family_id"), Str("user_id"), Str("role")]

  /** generate_family_id with its six random characters supplied. */
  function FamilyId(suffix: string): (id: string)
    requires |suffix| == 6
    ensures |id| == 13 && StartsWith(id, "family-") && id[7..] == suffix
  {
    "family-" + suffix
  }

  /** The worksheet title every family lookup uses: f"family-{family_id}". */
  function FamilyTitle(familyId: string): (t: string)
    ensures StartsWith(t, "family-") && t[7..] == familyId
    ensures t != FamiliesTitle
  {
    var t := "family-" + familyId;
    assert t[6] == '-' && FamiliesTitle[6] == 'e';
    t
  }

  /**
   * The registry, personal worksheets and family worksheets never share a
   * title; a generated family id yields a doubly prefixed title.
   */
  lemma {:induction false} TitlesDistinct(user: UserId, familyId: string)
    ensures user != FamiliesTitle && user != FamilyTitle(familyId)
    ensures FamilyTitle(familyId) != FamiliesTitle
    ensures !StartsWith(user, "family-") && !StartsWith(FamiliesTitle, "family-")
  {
    assert IsDigit(user[0]);
    assert FamilyTitle(familyId)[6] == '-' && FamiliesTitle[6] == 'e';
  }

  lemma {:induction false} GeneratedTitle(suffix: string)
    requires |suffix| == 6
    ensures |FamilyTitle(FamilyId(suffix))| == 20
    ensures StartsWith(FamilyTitle(FamilyId(suffix)), "family-family-")
  {
  }

  /** What a lookup found: a usable worksheet, no worksheet, or one whose row 1 is empty (the lookup raises). */
  datatype Access = Ready | Absent | Broken

  datatype Opened = Opened(book: Book, access: Access)

  /** b2 differs from b1 at most in the worksheet titled t. */
  ghost predicate SameExcept(b1: Book, b2: Book, t: string) {
    && b2.Keys - {t} == b1.Keys - {t}
    && forall u :: u in b1 && u != t ==> u in b2 && b2[u] == b1[u]
  }

  /** Every worksheet of b1 is still in b2 with as many rows. */
  predicate RowsKept(b1: Book, b2: Book) {
    forall t :: t in b1 ==> t in b2 && |b2[t]| == |b1[t]|
  }

  /**
   * The registry of b1 is in b2 unchanged; a registry b1 lacks is in b2, if
   * at all, as a fresh one holding only its header.
   */
  predicate RegistryKept(b1: Book, b2: Book) {
    && (FamiliesTitle in b1 ==> FamiliesTitle in b2 && b2[FamiliesTitle] == b1[FamiliesTitle])
    && (FamiliesTitle !in b1 && FamiliesTitle in b2 ==> b2[FamiliesTitle] == [FamiliesHeader])
  }

  /** The header check shared by both accessors, on a worksheet that exists. */
  function CheckIdColumn(book: Book, title: string): (r: Opened)
    requires title in book
    ensures r.access != Absent
    ensures r.access == Broken <==> HeaderFirst(book[title]).None?
    ensures r.access == Broken ==> r.book == book
    ensures r.access == Ready ==> title in r.book && HeaderFirst(r.book[title]) == Some(Str("ID"))
    ensures r.book.Keys == book.Keys && SameExcept(book, r.book, title)
    ensures r.book[title] == book[title] || r.book[title] == WithIdColumn(book[title])
    ensures RowsKept(book, r.book)
  {
    match HeaderFirst(book[title])
    case None => Opened(book, Broken)
    case Some(c) =>
      if c == Str("ID") then Opened(book, Ready)
      else
        MigratedHeaderStartsWithId(book[title]);
        Opened(book[title := WithIdColumn(book[title])], Ready)
  }

  /** get_user_sheet(user_id) */
  function OpenUserSheet(book: Book, user: UserId): (r: Opened)
    ensures r.access != Absent
    ensures r.access == Broken <==> user in book && HeaderFirst(book[user]).None?
    ensures r.access == Ready ==> user in r.book && HeaderFirst(r.book[user]) == Some(Str("ID"))
    ensures r.book.Keys == book.Keys + {user} && SameExcept(book, r.book, user)
    ensures RowsKept(book, r.book) && RegistryKept(book, r.book)
  {
    assert IsDigit(user[0]) && user != FamiliesTitle;
    if user !in book then
      assert UserHeader[0] != Blank;
      Opened(book[user := [UserHeader]], Ready)
    else CheckIdColumn(book, user)
  }

  /** get_family_sheet(title) */
  function OpenFamilySheet(book: Book, title: string): (r: Opened)
    ensures r.book.Keys == book.Keys && SameExcept(book, r.book, title)
    ensures r.access == Absent <==> title !in book
    ensures r.access == Ready ==> HeaderFirst(r.book[title]) == Some(Str("ID"))
    ensures RowsKept(book, r.book)
    ensures title != FamiliesTitle ==> RegistryKept(book, r.book)
  {
    if title !in book then Opened(book, Absent)
    else CheckIdColumn(book, title)
  }

  /**
   * b1 and b2 look the same through get_family_sheet: every title is found
   * in both or in neither, and where it is usable it reads as the same grid.
   */
  ghost predicate SameFamilyView(b1: Book, b2: Book) {
    forall t :: OpenFamilySheet(b1, t).access == OpenFamilySheet(b2, t).access
                && (OpenFamilySheet(b1, t).access == Ready ==>
                      OpenFamilySheet(b1, t).book[t] == OpenFamilySheet(b2, t).book[t])
  }

  /**
   * A family lookup changes what no later lookup sees: it touches only its
   * own sheet, and a migrated sheet already starts with ID.
   */
  lemma {:induction false} OpenFamilyKeepsView(book: Book, title: string)
    ensures SameFamilyView(book, OpenFamilySheet(book, title).book)
  {
    var b := OpenFamilySheet(book, title).book;
    forall t
      ensures OpenFamilySheet(book, t).access == OpenFamilySheet(b, t).access
      ensures OpenFamilySheet(book, t).access == Ready ==>
                OpenFamilySheet(book, t).book[t] == OpenFamilySheet(b, t).book[t]
    {
      if t == title && title in book && OpenFamilySheet(book, title).access == Ready {
        assert HeaderFirst(b[t]) == Some(Str("ID"));
        assert OpenFamilySheet(b, t) == Opened(b, Ready);
      } else if t != title && t in book {
        assert b[t] == book[t];
        assert HeaderFirst(b[t]) == HeaderFirst(book[t]);
      }
    }
  }

  /** setup_families_list() */
  function EnsureFamiliesList(book: Book): (b: Book)
    ensures FamiliesTitle in b && b.Keys == book.Keys + {FamiliesTitle}
    ensures SameExcept(book, b, FamiliesTitle)
    ensures FamiliesTitle in book ==> b == book
    ensures RowsKept(book, b) && RegistryKept(book, b)
  {
    if FamiliesTitle in book then book else book[FamiliesTitle := [FamiliesHeader]]
  }

  /** A missing personal worksheet is created with exactly the seven-column header. */
  lemma {:induction false} NewUserSheet(book: Book, user: UserId)
    requires user !in book
    ensures OpenUserSheet(book, user) == Opened(book[user := [UserHeader]], Ready)
    ensures |UserHeader| == 7
  {
  }

  /** A second get_user_sheet after a successful one changes nothing. */
  lemma {:induction false} OpenUserSheetIdempotent(book: Book, user: UserId)
    requires OpenUserSheet(book, user).access == Ready
    ensures OpenUserSheet(OpenUserSheet(book, user).book, user) == OpenUserSheet(book, user)
  {
    var b := OpenUserSheet(book, user).book;
    assert HeaderFirst(b[user]) == Some(Str("ID"));
  }

  /** get_family_sheet never creates a worksheet. */
  lemma {:induction false} FamilySheetNeverCreated(book: Book, title: string)
    ensures OpenFamilySheet(book, title).book.Keys == book.Keys
    ensures title !in book ==> OpenFamilySheet(book, title) == Opened(book, Absent)
  {
  }

  /**
   * A freshly created family worksheet has no ID column; the first lookup
   * adds one, after which its header is the personal one without the
   * comment column but with user_id.
   */
  lemma {:induction false} FamilySheetMigratedOnFirstRead(book: Book, title: string)
    requires title in book && book[title] == [FamilySheetHeader]
    ensures OpenFamilySheet(book, title).access == Ready
    ensures OpenFamilySheet(book, title).book[title] ==
            [[Str("ID"), Str("Дата"), Str("Категория"), Str("Сумма"), Str("Теги"), Str("Тип"), Str("user_id")]]
  {
    assert FamilySheetHeader[0] != Blank;
    assert HeaderFirst(book[title]) == Some(Str("Дата"));
    assert Str("Дата") != Str("ID");
    assert CheckIdColumn(book, title) == Opened(book[title := WithIdColumn(book[title])], Ready);
    assert WithIdColumn(book[title])[0] == [Str("ID")] + FamilySheetHeader;
    assert WithIdColumn(book[title]) == [[Str("ID")] + FamilySheetHeader];
    assert [Str("ID")] + FamilySheetHeader ==
           [Str("ID"), Str("Дата"), Str("Категория"), Str("Сумма"), Str("Теги"), Str("Тип"), Str("user_id")];
  }

  /** Migration keeps the row count and every non-ID field of every record. */
  lemma {:induction false} OpenKeepsRecords(book: Book, title: string, i: nat, key: string)
    requires title in book && 1 <= i < |book[title]| && key != "ID"
    ensures var g := CheckIdColumn(book, title).book[title];
            |g| == |book[title]| && Field(g, i, key) == Field(book[title], i, key)
  {
    var g := CheckIdColumn(book, title).book[title];
    if g != book[title] {
      MigrationKeepsFields(book[title], i, key);
    }
  }
}
