/**
 * One worksheet of the spreadsheet as the bot sees it: a grid of rows whose
 * first row is the header.  The worksheet calls the bot makes become
 * functions on grids: get_all_records (Field), row_values(1)[0]
 * (HeaderFirst), insert_cols of an "ID" column (WithIdColumn), find
 * (FindRow), delete_rows (DeleteRow), update_cell (UpdateCell) and
 * append_row (sequence concatenation).
 */
module Sheets {
  import opened Wrappers

  /** A cell holds text or a number (amounts are appended as numbers). */
  datatype Cell = Str(text: string) | Num(value: real)

  type Row = seq<Cell>

  /** Row 1 of the worksheet is index 0. */
  type Grid = seq<Row>

  const Blank: Cell := Str("")

  /** The cell in column c (0-based) of a row padded with blanks on the right. */
  function CellAt(row: Row, c: nat): Cell {
    if c < |row| then row[c] else Blank
  }

  /** Length of the longest row: the width to which the store pads every row. */
  function Width(g: Grid): (w: nat)
    ensures forall r :: 0 <= r < |g| ==> |g[r]| <= w
    ensures g != [] ==> exists r :: 0 <= r < |g| && |g[r]| == w
    ensures g == [] ==> w == 0
  {
    if g == [] then 0
    else
      var w := Width(g[1..]);
      assert forall r :: 1 <= r < |g| ==> g[r] == g[1..][r - 1];
      if |g[0]| >= w then |g[0]| else w
  }

  /**
   * The column (0-based) that get_all_records files under key: records are
   * built as dict(zip(header, row)), so the last header cell equal to key wins.
   */
  function KeyColumn(header: Row, key: string): (k: Option<nat>)
    ensures k.Some? ==> k.value < |header| && header[k.value] == Str(key)
                        && forall j :: k.value < j < |header| ==> header[j] != Str(key)
    ensures k.None? ==> forall j :: 0 <= j < |header| ==> header[j] != Str(key)
  {
    if header == [] then None
    else if header[|header| - 1] == Str(key) then Some(|header| - 1)
    else KeyColumn(header[..|header| - 1], key)
  }

  /**
   * record[key] / record.get(key) for data row i of get_all_records: None
   * when the header has no such column, the padded cell otherwise.
   */
  function Field(g: Grid, i: nat, key: string): Option<Cell>
    requires 1 <= i < |g|
  {
    match KeyColumn(g[0], key)
    case None => None
    case Some(c) => Some(CellAt(g[i], c))
  }

  predicate IsBlankRow(row: Row) {
    forall c :: 0 <= c < |row| ==> row[c] == Blank
  }

  /**
   * sheet.row_values(1)[0]: None when row 1 is empty, which makes the
   * indexing raise; trailing blanks are trimmed by the store, leading ones are not.
   */
  function HeaderFirst(g: Grid): (r: Option<Cell>)
    ensures r.Some? <==> g != [] && !IsBlankRow(g[0])
    ensures r.Some? ==> |g[0]| > 0 && r.value == g[0][0]
  {
    if g == [] || IsBlankRow(g[0]) then None else Some(g[0][0])
  }

  /**
   * sheet.insert_cols([["ID"]], 1): a new first column whose header cell is
   * "ID" and whose other cells are blank.
   */
  function WithIdColumn(g: Grid): (m: Grid)
    ensures |m| == |g|
  {
    seq(|g|, r requires 0 <= r < |g| => if r == 0 then [Str("ID")] + g[0] else [Blank] + g[r])
  }

  lemma {:induction false} MigratedHeaderStartsWithId(g: Grid)
    requires g != []
    ensures HeaderFirst(WithIdColumn(g)) == Some(Str("ID"))
  {
    assert WithIdColumn(g)[0][0] == Str("ID");
  }

  lemma {:induction false} KeyColumnShifted(header: Row, key: string)
    requires key != "ID"
    ensures KeyColumn([Str("ID")] + header, key) ==
            match KeyColumn(header, key) case None => None case Some(c) => Some(c + 1)
  {
    var h := [Str("ID")] + header;
    if header != [] {
      assert h[|h| - 1] == header[|header| - 1];
      assert h[..|h| - 1] == [Str("ID")] + header[..|header| - 1];
      KeyColumnShifted(header[..|header| - 1], key);
    }
  }

  /** The migration keeps every field of every record apart from the new ID. */
  lemma {:induction false} MigrationKeepsFields(g: Grid, i: nat, key: string)
    requires 1 <= i < |g| && key != "ID"
    ensures Field(WithIdColumn(g), i, key) == Field(g, i, key)
  {
    var m := WithIdColumn(g);
    KeyColumnShifted(g[0], key);
    match KeyColumn(g[0], key)
    case None =>
    case Some(c) =>
      assert CellAt(m[i], c + 1) == CellAt(g[i], c);
  }

  /** Whether a cell's shown value is the text q (numbers never match text here). */
  predicate Shows(c: Cell, q: string) {
    c == Str(q)
  }

  /**
   * Whether find(q) would match a cell of row r: a real cell showing q, or,
   * for the empty query, a padding cell of a row shorter than the widest.
   */
  predicate RowShows(g: Grid, r: nat, q: string)
    requires r < |g|
  {
    (exists c :: 0 <= c < |g[r]| && Shows(g[r][c], q)) || (q == "" && |g[r]| < Width(g))
  }

  function FindFrom(g: Grid, q: string, k: nat): (r: Option<nat>)
    requires k <= |g|
    ensures r.Some? ==> k <= r.value < |g| && RowShows(g, r.value, q)
                        && forall j :: k <= j < r.value ==> !RowShows(g, j, q)
    ensures r.None? ==> forall j :: k <= j < |g| ==> !RowShows(g, j, q)
    decreases |g| - k
  {
    if k == |g| then None
    else if RowShows(g, k, q) then Some(k)
    else FindFrom(g, q, k + 1)
  }

  /**
   * sheet.find(q) reduced to the row the bot uses: the first row, header
   * included, with a cell showing q.
   */
  function FindRow(g: Grid, q: string): (r: Option<nat>)
    ensures r.Some? ==> r.value < |g| && RowShows(g, r.value, q)
                        && forall j :: 0 <= j < r.value ==> !RowShows(g, j, q)
    ensures r.None? ==> forall j :: 0 <= j < |g| ==> !RowShows(g, j, q)
  {
    FindFrom(g, q, 0)
  }

  /** sheet.delete_rows(r + 1): exactly row r goes, the others keep their order. */
  function DeleteRow(g: Grid, r: nat): (m: Grid)
    requires r < |g|
    ensures |m| == |g| - 1
    ensures forall j :: 0 <= j < r ==> m[j] == g[j]
    ensures forall j :: r <= j < |m| ==> m[j] == g[j + 1]
  {
    g[..r] + g[r + 1..]
  }

  /** Deleting a row never makes the grid wider. */
  lemma {:induction false} DeleteRowWidth(g: Grid, r: nat)
    requires r < |g|
    ensures Width(DeleteRow(g, r)) <= Width(g)
  {
    var m := DeleteRow(g, r);
    if m != [] {
      var j :| 0 <= j < |m| && |m[j]| == Width(m);
      if j >= r { assert m[j] == g[j + 1]; }
    }
  }

  /** A row that does not show q before a deletion does not show it after. */
  lemma {:induction false} DeleteRowShowsNoMore(g: Grid, r: nat, q: string)
    requires r < |g|
    requires forall j :: 0 <= j < |g| && j != r ==> !RowShows(g, j, q)
    ensures FindRow(DeleteRow(g, r), q).None?
  {
    var m := DeleteRow(g, r);
    DeleteRowWidth(g, r);
    forall j | 0 <= j < |m| ensures !RowShows(m, j, q) {
      var k := if j < r then j else j + 1;
      assert m[j] == g[k];
      assert !RowShows(g, k, q);
    }
  }

  /** A row padded with blanks up to at least n cells. */
  function PadRow(row: Row, n: nat): (m: Row)
    ensures |m| == if |row| >= n then |row| else n
    ensures forall c :: 0 <= c < |m| ==> m[c] == CellAt(row, c)
  {
    if |row| >= n then row else row + seq(n - |row|, _ => Blank)
  }

  /**
   * sheet.update_cell(row, col, v) with 1-based row and column: the grid
   * grows with empty rows, and the row with blanks, as far as needed.
   */
  function UpdateCell(g: Grid, row: nat, col: nat, v: Cell): (m: Grid)
    requires row >= 1 && col >= 1
    ensures |m| == if |g| >= row then |g| else row
    ensures CellAt(m[row - 1], col - 1) == v
    ensures forall j :: 0 <= j < |m| && j != row - 1 ==> m[j] == (if j < |g| then g[j] else [])
    ensures var before := if row - 1 < |g| then g[row - 1] else [];
            forall c :: 0 <= c != col - 1 ==> CellAt(m[row - 1], c) == CellAt(before, c)
  {
    var grown := if |g| >= row then g else g + seq(row - |g|, _ => []);
    var padded := PadRow(grown[row - 1], col);
    grown[row - 1 := padded[col - 1 := v]]
  }
}
