/** Spreadsheet column letters and their resolution onto the input table's own column names.
    The reference workbook names its line items by column letter ('M', 'EC', ...); the input
    table carries the same columns, shifted by a constant number of positions. The shift is
    measured at an anchor header present in both layouts. */
module ColumnResolver {
  import opened Wrappers
  import opened Text

  datatype ColumnError =
    | InvalidColumnLetter(col: string)
      // a character outside A-Z after trimming and upper-casing
    | AnchorMissing(inXlsx: bool, inCsv: bool)
      // the anchor header is absent from one of the two layouts
    | ColumnOutOfRange(letter: string, idxExcel: int, offset: int, idxCsv: int)
      // the shifted position falls outside the input table

  /** The anchor header build.py uses. */
  const ANCHOR: string := "Tipo de reporte"

  predicate IsUpperLetter(c: char) {
    'A' <= c <= 'Z'
  }

  predicate AllLetters(s: string) {
    forall i :: 0 <= i < |s| ==> IsUpperLetter(s[i])
  }

  function LetterValue(c: char): (v: nat)
    requires IsUpperLetter(c)
    ensures 1 <= v <= 26
  {
    c as int - 'A' as int + 1
  }

  /** Bijective base 26: 'A' is 1, 'Z' is 26, 'AA' is 27. */
  function Base26(s: string): nat
    requires AllLetters(s)
  {
    if s == [] then 0 else Base26(s[..|s| - 1]) * 26 + LetterValue(s[|s| - 1])
  }

  /** The letters excel_col_to_0idx actually reads: its argument stripped and upper-cased. */
  function NormalizeLetters(col: string): string {
    Upper(Strip(col))
  }

  /** The specification of excel_col_to_0idx: the zero-based column position of a letter
      address, or the failure it raises. An empty address gives -1, as the loop does. */
  function ColIndex(col: string): Result<int, ColumnError> {
    var s := NormalizeLetters(col);
    if AllLetters(s) then Ok(Base26(s) - 1) else Err(InvalidColumnLetter(s))
  }

  /** excel_col_to_0idx: normalise the address, then read its letters. */
  method ExcelColTo0Idx(col: string) returns (r: Result<int, ColumnError>)
    ensures r == ColIndex(col)
    ensures r.Ok? ==> r.value >= -1
  {
    r := ReadLetters(NormalizeLetters(col));
  }

  /** The loop of excel_col_to_0idx over an already normalised address. */
  method ReadLetters(s: string) returns (r: Result<int, ColumnError>)
    ensures AllLetters(s) ==> r == Ok(Base26(s) - 1)
    ensures !AllLetters(s) ==> r == Err(InvalidColumnLetter(s))
  {
    var n := 0;
    for i := 0 to |s|
      invariant AllLetters(s[..i])
      invariant n == Base26(s[..i])
    {
      if !IsUpperLetter(s[i]) {
        return Err(InvalidColumnLetter(s));
      }
      assert s[..i + 1][..i] == s[..i];
      n := n * 26 + LetterValue(s[i]);
    }
    assert s[..|s|] == s;
    return Ok(n - 1);
  }

  // ------------------------------------------------------------- inverse

  /** The letter address of a positive bijective-base-26 number. */
  function ToBase26(n: nat): (s: string)
    ensures AllLetters(s)
    ensures |s| == 0 <==> n == 0
  {
    if n == 0 then [] else ToBase26((n - 1) / 26) + [('A' as int + (n - 1) % 26) as char]
  }

  /** The letter address of zero-based column position k ('A' for 0, 'AA' for 26). */
  function ColumnLetters(k: nat): string {
    ToBase26(k + 1)
  }

  lemma {:induction false} Base26OfToBase26(n: nat)
    ensures Base26(ToBase26(n)) == n
  {
    if n > 0 {
      var s := ToBase26(n);
      assert s[..|s| - 1] == ToBase26((n - 1) / 26);
      Base26OfToBase26((n - 1) / 26);
    }
  }

  lemma {:induction false} ToBase26OfBase26(s: string)
    requires AllLetters(s)
    ensures ToBase26(Base26(s)) == s
  {
    if s != [] {
      var p, c := s[..|s| - 1], s[|s| - 1];
      assert AllLetters(p);
      DigitSplits(Base26(p), LetterValue(c) - 1);
      LetterOfValue(c);
      ToBase26OfBase26(p);
      assert s == p + [c];
    }
  }

  /** Splitting off the last bijective digit: quotient and remainder by 26. */
  lemma DigitSplits(q: nat, d: nat)
    requires d < 26
    ensures (q * 26 + d) / 26 == q && (q * 26 + d) % 26 == d
  {
  }

  /** The digit value of a capital letter names that letter again. */
  lemma LetterOfValue(c: char)
    requires IsUpperLetter(c)
    ensures ('A' as int + (LetterValue(c) - 1)) as char == c
  {
  }

  /** Trimming and upper-casing leave an address of capital letters as it is. */
  lemma NormalizeLettersIdentity(s: string)
    requires AllLetters(s)
    ensures NormalizeLetters(s) == s
  {
    assert forall i :: 0 <= i < |s| ==> !IsPyWhitespace(s[i]) && UpperChar(s[i]) == s[i];
    NormalizeKeeps(s);
  }

  /** The same for any address of characters that are neither whitespace nor lower case. */
  lemma NormalizeKeeps(s: string)
    requires forall i :: 0 <= i < |s| ==> !IsPyWhitespace(s[i]) && UpperChar(s[i]) == s[i]
    ensures NormalizeLetters(s) == s
  {
    assert Strip(s) == s;
  }

  /** Every column position has a letter address that reads back as that position. */
  lemma ColumnLettersRoundTrip(k: nat)
    ensures ColIndex(ColumnLetters(k)) == Ok(k)
  {
    NormalizeLettersIdentity(ColumnLetters(k));
    Base26OfToBase26(k + 1);
  }

  /** A valid, non-empty letter address is the canonical address of the position it reads as. */
  lemma ColIndexRoundTrip(col: string)
    requires ColIndex(col).Ok? && ColIndex(col).value >= 0
    ensures ColumnLetters(ColIndex(col).value) == NormalizeLetters(col)
  {
    ToBase26OfBase26(NormalizeLetters(col));
  }

  /** Two letter addresses that name the same column are the same after trimming and
      upper-casing: distinct addresses name distinct columns. */
  lemma ColIndexInjective(a: string, b: string)
    requires ColIndex(a).Ok? && ColIndex(b).Ok?
    ensures ColIndex(a).value == ColIndex(b).value ==> NormalizeLetters(a) == NormalizeLetters(b)
  {
    var sa, sb := NormalizeLetters(a), NormalizeLetters(b);
    if ColIndex(a).value == ColIndex(b).value {
      ToBase26OfBase26(sa);
      ToBase26OfBase26(sb);
    }
  }

  /** The worked values of the source's docstring: 'A' is 0, 'Z' is 25, 'AA' is 26. */
  lemma ColIndexExamples()
    ensures ColIndex("A") == Ok(0) && ColIndex("Z") == Ok(25) && ColIndex("AA") == Ok(26)
  {
    NormalizeLettersIdentity("A");
    NormalizeLettersIdentity("Z");
    NormalizeLettersIdentity("AA");
    assert "AA"[..1] == "A";
  }

  /** An empty address reads as -1: the loop never runs. */
  lemma ColIndexOfEmpty()
    ensures ColIndex("") == Ok(-1)
  {
    assert Strip("") == "";
  }

  /** A digit in the address is refused. */
  lemma ColIndexRejectsDigit()
    ensures ColIndex("A1") == Err(InvalidColumnLetter("A1"))
  {
    var s := "A1";
    assert !IsPyWhitespace(s[0]) && UpperChar(s[0]) == s[0];
    assert !IsPyWhitespace(s[1]) && UpperChar(s[1]) == s[1];
    NormalizeKeeps(s);
    assert !IsUpperLetter(s[1]);
  }

  // ------------------------------------------------------------- anchor offset

  /** Python's list.index: the first position of x. */
  function IndexOf(xs: seq<string>, x: string): (i: nat)
    requires x in xs
    ensures i < |xs| && xs[i] == x
    ensures forall j :: 0 <= j < i ==> xs[j] != x
  {
    if xs[0] == x then 0 else 1 + IndexOf(xs[1..], x)
  }

  /** The resolved layout: the shift between the workbook and the input table, and the
      input table's column names. */
  datatype ColumnMap = ColumnMap(offset: int, csvCols: seq<string>)

  /** get_offset_and_csv_cols, given the two header lists the source reads from its files. */
  function AnchorOffset(xlsCols: seq<string>, csvCols: seq<string>, anchor: string): (r: Result<ColumnMap, ColumnError>)
    ensures r.Err? <==> anchor !in xlsCols || anchor !in csvCols
    ensures r.Err? ==> r.error == AnchorMissing(anchor in xlsCols, anchor in csvCols)
    ensures r.Ok? ==> r.value.csvCols == csvCols
    ensures r.Ok? ==>
      var k := IndexOf(csvCols, anchor) + r.value.offset;
      0 <= k < |xlsCols| && xlsCols[k] == anchor && forall j :: 0 <= j < k ==> xlsCols[j] != anchor
  {
    if anchor !in xlsCols || anchor !in csvCols then
      Err(AnchorMissing(anchor in xlsCols, anchor in csvCols))
    else
      Ok(ColumnMap(IndexOf(xlsCols, anchor) - IndexOf(csvCols, anchor), csvCols))
  }

  /** colname_from_excel_letter: the input column the letter address names, after the shift. */
  function ColnameFromLetter(letter: string, cm: ColumnMap): (r: Result<string, ColumnError>)
    ensures r.Ok? <==> ColIndex(letter).Ok? && 0 <= ColIndex(letter).value - cm.offset < |cm.csvCols|
    ensures r.Ok? ==> r.value == cm.csvCols[ColIndex(letter).value - cm.offset]
    ensures ColIndex(letter).Err? ==> r == Err(ColIndex(letter).error)
    ensures ColIndex(letter).Ok? && r.Err? ==> r.error.ColumnOutOfRange?
  {
    match ColIndex(letter)
    case Err(e) => Err(e)
    case Ok(idxExcel) =>
      var idxCsv := idxExcel - cm.offset;
      if idxCsv < 0 || idxCsv >= |cm.csvCols| then
        Err(ColumnOutOfRange(letter, idxExcel, cm.offset, idxCsv))
      else
        Ok(cm.csvCols[idxCsv])
  }

  /** The canonical letters of workbook column k name input column k - offset, when that is a
      column of the input table. */
  lemma ColumnLettersResolve(k: nat, cm: ColumnMap)
    requires 0 <= k - cm.offset < |cm.csvCols|
    ensures ColnameFromLetter(ColumnLetters(k), cm) == Ok(cm.csvCols[k - cm.offset])
  {
    ColumnLettersRoundTrip(k);
  }

  /** The letter at the anchor's workbook position resolves to the anchor itself. */
  lemma AnchorLetterResolves(xlsCols: seq<string>, csvCols: seq<string>, anchor: string)
    requires AnchorOffset(xlsCols, csvCols, anchor).Ok?
    ensures ColnameFromLetter(ColumnLetters(IndexOf(xlsCols, anchor)), AnchorOffset(xlsCols, csvCols, anchor).value) == Ok(anchor)
  {
    var cm := AnchorOffset(xlsCols, csvCols, anchor).value;
    var k: int := IndexOf(xlsCols, anchor);
    var j: int := IndexOf(csvCols, anchor);
    assert cm.offset == k - j;
    ColumnLettersResolve(k, cm);
  }

  /** Every letter resolved on its own, in order. */
  function Resolutions(letters: seq<string>, cm: ColumnMap): seq<Result<string, ColumnError>> {
    seq(|letters|, i requires 0 <= i < |letters| => ColnameFromLetter(letters[i], cm))
  }

  /** The column-name list of sum_letters_sql: each letter resolved in order; the first
      letter that fails raises, as the list comprehension does. */
  function ResolveLetters(letters: seq<string>, cm: ColumnMap): (r: Result<seq<string>, ColumnError>)
    ensures r.Ok? <==> forall i :: 0 <= i < |letters| ==> ColnameFromLetter(letters[i], cm).Ok?
    ensures r.Ok? ==> (|r.value| == |letters| &&
      forall i :: 0 <= i < |letters| ==> Ok(r.value[i]) == ColnameFromLetter(letters[i], cm))
    ensures r.Err? ==> (var k := FirstError(Resolutions(letters, cm));
      k < |letters| && Err(r.error) == ColnameFromLetter(letters[k], cm) &&
      forall j :: 0 <= j < k ==> ColnameFromLetter(letters[j], cm).Ok?)
  {
    var rs := Resolutions(letters, cm);
    assert forall i :: 0 <= i < |letters| ==> rs[i] == ColnameFromLetter(letters[i], cm);
    AllOk(rs)
  }
}
