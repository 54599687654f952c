/** The upload page's preparation of a workbook or CSV export before the build runs: finding
    the header line or row, and trimming the two text columns the build matches exactly. */
module Upload {
  import opened Wrappers
  import opened Text
  import opened Classify

  /** The header texts the CSV scan looks for, lower-cased as the scan compares them. */
  const CSV_HINTS: seq<string> := ["tipo de reporte", "tipo folio", "mes", "periodo"]

  /** The header cell the workbook scan looks for, lower-cased. */
  const ANCHOR_LOWER: string := "tipo de reporte"

  const SCAN_LINES: nat := 60
  const SCAN_ROWS: nat := 40

  /** The columns the workbook scan reads: 1 through 79. */
  const LAST_SCAN_COLUMN: nat := 79

  // ------------------------------------------------------------- lines

  /** The characters Python's str.splitlines breaks at. */
  predicate IsLineBreak(c: char) {
    c == '\n' || c == '\r' || c == '\U{0B}' || c == '\U{0C}' || ('\U{1C}' <= c <= '\U{1E}') ||
    c == '\U{85}' || c == '\U{2028}' || c == '\U{2029}'
  }

  /** The position of the first line break, or |t| when there is none. */
  function LineEnd(t: string): (k: nat)
    ensures k <= |t|
    ensures forall i :: 0 <= i < k ==> !IsLineBreak(t[i])
    ensures k < |t| ==> IsLineBreak(t[k])
  {
    if t == [] || IsLineBreak(t[0]) then 0 else 1 + LineEnd(t[1..])
  }

  /** str.splitlines(): the text cut at every line break, "\r\n" counting as one; a final
      break does not start an empty line. */
  function SplitLines(t: string): (lines: seq<string>)
    ensures forall l :: l in lines ==> forall i :: 0 <= i < |l| ==> !IsLineBreak(l[i])
    ensures |lines| <= |t|
    decreases |t|
  {
    if t == [] then []
    else
      var k := LineEnd(t);
      if k == |t| then [t]
      else
        var skip := if t[k] == '\r' && k + 1 < |t| && t[k + 1] == '\n' then 2 else 1;
        [t[..k]] + SplitLines(t[k + skip..])
  }

  /** Lines joined with a "\n" after each one. */
  function Terminated(lines: seq<string>): string {
    if lines == [] then [] else lines[0] + "\n" + Terminated(lines[1..])
  }

  /** Joining lines with a "\n" after each one and splitting again gives the lines back. */
  lemma {:induction false} SplitTerminated(lines: seq<string>)
    requires forall l :: l in lines ==> forall i :: 0 <= i < |l| ==> !IsLineBreak(l[i])
    ensures SplitLines(Terminated(lines)) == lines
  {
    if lines != [] {
      var l := lines[0];
      var rest := Terminated(lines[1..]);
      var t := Terminated(lines);
      assert t == l + "\n" + rest;
      LineEndOf(l, "\n" + rest);
      assert t[|l|] == '\n';
      assert t[|l| + 1..] == rest;
      assert t[..|l|] == l;
      SplitTerminated(lines[1..]);
    }
  }

  lemma {:induction false} LineEndOf(l: string, rest: string)
    requires forall i :: 0 <= i < |l| ==> !IsLineBreak(l[i])
    requires rest != [] && IsLineBreak(rest[0])
    ensures LineEnd(l + rest) == |l|
  {
    if l != [] {
      assert (l + rest)[1..] == l[1..] + rest;
      LineEndOf(l[1..], rest);
    } else {
      assert l + rest == rest;
    }
  }

  // ------------------------------------------------------------- the CSV scan

  /** A line names all four required headers, in any case. */
  predicate LooksLikeHeader(line: string) {
    var low := Lower(line);
    Contains(low, CSV_HINTS[0]) && Contains(low, CSV_HINTS[1]) && Contains(low, CSV_HINTS[2]) && Contains(low, CSV_HINTS[3])
  }

  /** The first position at or after i that looks like a header, or 0 when none does. */
  function FirstHeader(window: seq<string>, i: nat): (r: nat)
    requires i <= |window|
    ensures (r >= i && r < |window| && LooksLikeHeader(window[r]) && forall j :: i <= j < r ==> !LooksLikeHeader(window[j])) ||
            (r == 0 && forall j :: i <= j < |window| ==> !LooksLikeHeader(window[j]))
    decreases |window| - i
  {
    if i == |window| then 0
    else if LooksLikeHeader(window[i]) then i
    else FirstHeader(window, i + 1)
  }

  function Min(a: nat, b: nat): nat {
    if a <= b then a else b
  }

  /** find_header_row_csv on the lines of the file: the index of the first of the first
      `scanLines` lines that names all four headers, or 0. */
  function HeaderLine(lines: seq<string>, scanLines: nat): (r: nat)
    ensures r < scanLines || r == 0
    ensures (r < |lines| && r < scanLines && LooksLikeHeader(lines[r]) && forall j :: 0 <= j < r ==> !LooksLikeHeader(lines[j])) ||
            (r == 0 && forall j :: 0 <= j < Min(scanLines, |lines|) ==> !LooksLikeHeader(lines[j]))
  {
    var window := lines[..Min(scanLines, |lines|)];
    var r := FirstHeader(window, 0);
    assert forall j :: 0 <= j < |window| ==> window[j] == lines[j];
    r
  }

  /** find_header_row_csv on the decoded text. */
  function FindHeaderRowCsv(text: string, scanLines: nat): nat {
    HeaderLine(SplitLines(text), scanLines)
  }

  /** Lines after the scan window are never read: appending lines to a file of at least
      `scanLines` lines leaves the answer as it was. */
  lemma HeaderLineIgnoresTail(lines: seq<string>, more: seq<string>, scanLines: nat)
    requires |lines| >= scanLines
    ensures HeaderLine(lines + more, scanLines) == HeaderLine(lines, scanLines)
  {
    assert (lines + more)[..scanLines] == lines[..scanLines];
  }

  // ------------------------------------------------------------- the workbook scan

  /** The sheet as the scan sees it: ws.cell(r, c).value, 1-based, None beyond the used area.
      Every non-empty cell is given by its str() text. */
  function CellAt(grid: seq<seq<Option<string>>>, r: nat, c: nat): Option<string> {
    if 1 <= r <= |grid| && 1 <= c <= |grid[r - 1]| then grid[r - 1][c - 1] else None
  }

  /** row_vals after the inner loop has read columns 1 to c - 1: the stripped texts of the
      non-empty cells, in column order. */
  function RowValues(grid: seq<seq<Option<string>>>, r: nat, c: nat): seq<string>
    requires c >= 1
  {
    if c == 1 then []
    else
      var v := CellAt(grid, r, c - 1);
      RowValues(grid, r, c - 1) + (if v.Some? then [Strip(v.value)] else [])
  }

  /** Row r holds the anchor when one of its stripped, lower-cased cells is exactly it. */
  predicate RowHasAnchor(grid: seq<seq<Option<string>>>, r: nat) {
    var vals := RowValues(grid, r, LAST_SCAN_COLUMN + 1);
    exists k :: 0 <= k < |vals| && Lower(vals[k]) == ANCHOR_LOWER
  }

  /** The zero-based header row: row r - 1 for the first row r in from..scanRows holding the
      anchor, or 0 when none does. */
  function AnchorRow(grid: seq<seq<Option<string>>>, from: nat, scanRows: nat): (h: nat)
    requires from >= 1
    ensures h == 0 || (from <= h + 1 <= scanRows && RowHasAnchor(grid, h + 1) &&
      forall r :: from <= r < h + 1 ==> !RowHasAnchor(grid, r))
    ensures h == 0 ==>
      ((forall r :: from <= r <= scanRows ==> !RowHasAnchor(grid, r)) ||
       (from <= 1 <= scanRows && RowHasAnchor(grid, 1)))
    decreases scanRows + 1 - from
  {
    if from > scanRows then 0
    else if RowHasAnchor(grid, from) then from - 1
    else AnchorRow(grid, from + 1, scanRows)
  }

  /** find_header_row_excel over the sheet's cells. */
  method FindHeaderRowExcel(grid: seq<seq<Option<string>>>, scanRows: nat) returns (h: nat)
    ensures h == AnchorRow(grid, 1, scanRows)
    ensures h == 0 || h <= scanRows - 1
  {
    for r := 1 to scanRows + 1
      invariant AnchorRow(grid, 1, scanRows) == AnchorRow(grid, r, scanRows)
    {
      var rowVals: seq<string> := [];
      for c := 1 to LAST_SCAN_COLUMN + 1
        invariant rowVals == RowValues(grid, r, c)
      {
        var v := CellAt(grid, r, c);
        if v.Some? {
          rowVals := rowVals + [Strip(v.value)];
        }
      }
      if exists k :: 0 <= k < |rowVals| && Lower(rowVals[k]) == ANCHOR_LOWER {
        return r - 1;
      }
    }
    return 0;
  }

  // ------------------------------------------------------------- text cleanup

  /** A cell of the uploaded table: missing (NaN), or the text astype(str) turns it into. */
  datatype Cell = Missing | Text(text: string)

  /** astype(str).str.strip(): a missing cell becomes the text "nan". */
  function StripCell(c: Cell): Cell {
    match c
    case Missing => Text("nan")
    case Text(s) => Text(Strip(s))
  }

  function StripColumn(col: seq<Cell>): (r: seq<Cell>)
    ensures |r| == |col| && forall i :: 0 <= i < |col| ==> r[i] == StripCell(col[i])
  {
    seq(|col|, i requires 0 <= i < |col| => StripCell(col[i]))
  }

  const TIPO_FOLIO: string := "Tipo folio"
  const MES: string := "Mes"

  /** The cleanup of the uploaded table: "Tipo folio" and "Mes" are stripped when present;
      nothing else changes. */
  function Cleanup(table: map<string, seq<Cell>>): (t: map<string, seq<Cell>>)
    ensures t.Keys == table.Keys
    ensures forall c :: c in table && c != TIPO_FOLIO && c != MES ==> t[c] == table[c]
    ensures forall c :: c in table && (c == TIPO_FOLIO || c == MES) ==> t[c] == StripColumn(table[c])
  {
    var t1 := if TIPO_FOLIO in table then table[TIPO_FOLIO := StripColumn(table[TIPO_FOLIO])] else table;
    if MES in t1 then t1[MES := StripColumn(t1[MES])] else t1
  }

  lemma StripIdempotent(s: string)
    ensures Strip(Strip(s)) == Strip(s)
  {
    var t := Strip(s);
    if t != [] {
      TrimKeeps(t, PythonSpaces);
    }
  }

  lemma StripCellIdempotent(c: Cell)
    ensures StripCell(StripCell(c)) == StripCell(c)
  {
    match c
    case Missing => TrimKeeps("nan", PythonSpaces);
    case Text(s) => StripIdempotent(s);
  }

  lemma StripColumnIdempotent(col: seq<Cell>)
    ensures StripColumn(StripColumn(col)) == StripColumn(col)
  {
    var once := StripColumn(col);
    forall i | 0 <= i < |col| ensures StripCell(once[i]) == once[i] {
      StripCellIdempotent(col[i]);
    }
  }

  /** Cleaning an already cleaned table changes nothing. */
  lemma CleanupIdempotent(table: map<string, seq<Cell>>)
    ensures Cleanup(Cleanup(table)) == Cleanup(table)
  {
    var t := Cleanup(table);
    var tt := Cleanup(t);
    forall c | c in t ensures tt[c] == t[c] {
      if c == TIPO_FOLIO || c == MES {
        StripColumnIdempotent(table[c]);
      }
    }
  }

  /** After the cleanup no "Tipo folio" cell is missing: a row without one reaches the build
      with the text "nan". */
  lemma CleanupFillsTipoFolio(table: map<string, seq<Cell>>)
    requires TIPO_FOLIO in table
    ensures forall i :: 0 <= i < |Cleanup(table)[TIPO_FOLIO]| ==> Cleanup(table)[TIPO_FOLIO][i].Text?
  {
  }

  /** Such rows are kept by the `clean` view and, since "nan" is no scenario name, they count
      as OTRO. */
  lemma {:induction false} CleanKeepsTextFolios(rows: seq<RawRecord>)
    requires forall i :: 0 <= i < |rows| ==> rows[i].tipoFolio.Some?
    ensures |Clean(rows)| == |rows|
  {
    if rows != [] {
      CleanKeepsTextFolios(rows[1..]);
    }
  }

  lemma NanIsOtro()
    ensures ScenarioOf("nan") == OTRO
  {
    assert SqlTrim("nan") == "nan";
  }
}
