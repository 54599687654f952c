/** String helpers shared by the pipeline and the dashboards: whitespace trimming the way
    Python's str.strip() and DuckDB's trim() do it, ASCII case mapping, substring search,
    the zero-padded decimals that printf('%0Nd') and f"{n:0Nd}" print, and the code-point
    order Python's sorted() uses on strings. */
module Text {

  // ---------------------------------------------------------------- trimming

  /** The characters Python's str.isspace() accepts, i.e. what str.strip() removes. */
  predicate IsPyWhitespace(c: char) {
    c == ' ' || ('\t' <= c <= '\r') || ('\U{1C}' <= c <= '\U{1F}') || c == '\U{85}' || c == '\U{A0}'
    || c == '\U{1680}' || ('\U{2000}' <= c <= '\U{200A}') || c == '\U{2028}' || c == '\U{2029}'
    || c == '\U{202F}' || c == '\U{205F}' || c == '\U{3000}'
  }

  /** The Unicode space separators (general category Zs), which DuckDB's one-argument trim()
      removes. */
  predicate IsSpaceSeparator(c: char) {
    c == ' ' || c == '\U{A0}' || c == '\U{1680}' || ('\U{2000}' <= c <= '\U{200A}') || c == '\U{202F}'
    || c == '\U{205F}' || c == '\U{3000}'
  }

  /** PythonSpaces: what Python's str.strip() removes; SqlSpaces: what DuckDB's trim() removes. */
  datatype TrimMode = PythonSpaces | SqlSpaces

  predicate IsTrimmed(c: char, mode: TrimMode) {
    match mode
    case PythonSpaces => IsPyWhitespace(c)
    case SqlSpaces => IsSpaceSeparator(c)
  }

  function TrimLeft(s: string, mode: TrimMode): (r: string)
    ensures |r| <= |s|
  {
    if |s| > 0 && IsTrimmed(s[0], mode) then TrimLeft(s[1..], mode) else s
  }

  /** TrimLeft drops a run of trimmed characters from the front and stops at the first kept one. */
  lemma {:induction false} TrimLeftDrops(s: string, mode: TrimMode)
    ensures var r := TrimLeft(s, mode);
      r == s[|s| - |r|..] && (|r| > 0 ==> !IsTrimmed(r[0], mode)) &&
      forall i :: 0 <= i < |s| - |r| ==> IsTrimmed(s[i], mode)
  {
    if |s| > 0 && IsTrimmed(s[0], mode) {
      TrimLeftDrops(s[1..], mode);
      var r := TrimLeft(s, mode);
      assert s[1..][|s| - 1 - |r|..] == s[|s| - |r|..];
      assert forall i :: 1 <= i < |s| - |r| ==> s[i] == s[1..][i - 1];
    }
  }

  function TrimRight(s: string, mode: TrimMode): (r: string)
    ensures |r| <= |s|
  {
    if |s| > 0 && IsTrimmed(s[|s| - 1], mode) then TrimRight(s[..|s| - 1], mode) else s
  }

  /** TrimRight drops a run of trimmed characters from the back and stops at the last kept one. */
  lemma {:induction false} TrimRightDrops(s: string, mode: TrimMode)
    ensures var r := TrimRight(s, mode);
      r == s[..|r|] && (|r| > 0 ==> !IsTrimmed(r[|r| - 1], mode)) &&
      forall i :: |r| <= i < |s| ==> IsTrimmed(s[i], mode)
  {
    if |s| > 0 && IsTrimmed(s[|s| - 1], mode) {
      TrimRightDrops(s[..|s| - 1], mode);
      var r := TrimRight(s, mode);
      assert s[..|s| - 1][..|r|] == s[..|r|];
      assert forall i :: |r| <= i < |s| - 1 ==> s[i] == s[..|s| - 1][i];
    }
  }

  /** Removes the leading and trailing characters of `mode` and nothing else. */
  function Trim(s: string, mode: TrimMode): (r: string)
    ensures |r| <= |s|
    ensures |r| > 0 ==> !IsTrimmed(r[0], mode) && !IsTrimmed(r[|r| - 1], mode)
    ensures r == [] <==> forall i :: 0 <= i < |s| ==> IsTrimmed(s[i], mode)
    ensures (forall i :: 0 <= i < |s| ==> !IsTrimmed(s[i], mode)) ==> r == s
  {
    TrimEnds(s, mode);
    TrimEmpty(s, mode);
    TrimNothing(s, mode);
    TrimRight(TrimLeft(s, mode), mode)
  }

  /** The proof of Trim's contract, one property at a time: the ends that are kept ... */
  lemma TrimEnds(s: string, mode: TrimMode)
    ensures var r := TrimRight(TrimLeft(s, mode), mode);
      |r| > 0 ==> !IsTrimmed(r[0], mode) && !IsTrimmed(r[|r| - 1], mode)
  {
    var left := TrimLeft(s, mode);
    TrimLeftDrops(s, mode);
    TrimRightDrops(left, mode);
  }

  /** ... nothing is left exactly when every character is trimmed ... */
  lemma TrimEmpty(s: string, mode: TrimMode)
    ensures TrimRight(TrimLeft(s, mode), mode) == [] <==> forall i :: 0 <= i < |s| ==> IsTrimmed(s[i], mode)
  {
    var left := TrimLeft(s, mode);
    TrimLeftDrops(s, mode);
    var r := TrimRight(left, mode);
    TrimRightDrops(left, mode);
    var k := |s| - |left|;
    if r == [] {
      assert left == [];
    } else {
      assert !IsTrimmed(s[k], mode);
    }
  }

  /** ... and a string with nothing to trim is kept whole. */
  lemma TrimNothing(s: string, mode: TrimMode)
    ensures (forall i :: 0 <= i < |s| ==> !IsTrimmed(s[i], mode)) ==> TrimRight(TrimLeft(s, mode), mode) == s
  {
    if forall i :: 0 <= i < |s| ==> !IsTrimmed(s[i], mode) {
      var left := TrimLeft(s, mode);
      TrimLeftDrops(s, mode);
      if |s| > 0 {
        assert !IsTrimmed(s[0], mode);
      }
      assert left == s;
      TrimRightDrops(left, mode);
      if |s| > 0 {
        assert !IsTrimmed(left[|left| - 1], mode);
      }
    }
  }

  /** A string whose first and last characters are not trimmed is left as it is. */
  lemma TrimKeeps(s: string, mode: TrimMode)
    requires |s| > 0 && !IsTrimmed(s[0], mode) && !IsTrimmed(s[|s| - 1], mode)
    ensures Trim(s, mode) == s
  {
    TrimLeftDrops(s, mode);
    TrimRightDrops(s, mode);
  }

  /** Python's str.strip(). */
  function Strip(s: string): string {
    Trim(s, PythonSpaces)
  }

  /** DuckDB's trim(). */
  function SqlTrim(s: string): string {
    Trim(s, SqlSpaces)
  }

  // ---------------------------------------------------------------- case

  function LowerChar(c: char): char {
    if 'A' <= c <= 'Z' then (c as int + 32) as char else c
  }

  function UpperChar(c: char): char {
    if 'a' <= c <= 'z' then (c as int - 32) as char else c
  }

  /** lower() restricted to ASCII letters. */
  function Lower(s: string): (r: string)
    ensures |r| == |s| && forall i :: 0 <= i < |s| ==> r[i] == LowerChar(s[i])
  {
    seq(|s|, i requires 0 <= i < |s| => LowerChar(s[i]))
  }

  /** upper() restricted to ASCII letters. */
  function Upper(s: string): (r: string)
    ensures |r| == |s| && forall i :: 0 <= i < |s| ==> r[i] == UpperChar(s[i])
  {
    seq(|s|, i requires 0 <= i < |s| => UpperChar(s[i]))
  }

  /** Python's `pat in s` on strings. */
  predicate Contains(s: string, pat: string) {
    pat <= s || (|s| > 0 && Contains(s[1..], pat))
  }

  // ---------------------------------------------------------------- decimals

  predicate IsDigit(c: char) {
    '0' <= c <= '9'
  }

  predicate AllDigits(s: string) {
    forall i :: 0 <= i < |s| ==> IsDigit(s[i])
  }

  function DigitChar(d: nat): (c: char)
    requires d < 10
    ensures IsDigit(c) && c as int - '0' as int == d
  {
    ('0' as int + d) as char
  }

  function Pow10(k: nat): nat {
    if k == 0 then 1 else 10 * Pow10(k - 1)
  }

  /** The shortest decimal spelling of n. */
  function Decimal(n: nat): (r: string)
    ensures 1 <= |r| && AllDigits(r)
  {
    if n < 10 then [DigitChar(n)] else Decimal(n / 10) + [DigitChar(n % 10)]
  }

  function Zeros(k: nat): (r: string)
    ensures |r| == k && AllDigits(r)
  {
    seq(k, _ => '0')
  }

  /** What printf('%0<width>d', n) and Python's f"{n:0<width>d}" print: the decimal
      digits of |n|, left-padded with zeros to `width` characters in all, after a
      minus sign for a negative n. A width of 0 is plain '%d'. */
  function PadInt(n: int, width: nat): string {
    if n >= 0 then
      var d := Decimal(n);
      (if |d| < width then Zeros(width - |d|) else []) + d
    else
      var d := Decimal(-n);
      "-" + (if |d| + 1 < width then Zeros(width - 1 - |d|) else []) + d
  }

  /** Reads a string of decimal digits back as a number (leading zeros allowed). */
  function ParseDigits(s: string): nat
    requires AllDigits(s)
  {
    if s == [] then 0 else ParseDigits(s[..|s| - 1]) * 10 + (s[|s| - 1] as int - '0' as int)
  }

  lemma {:induction false} ParseDecimal(n: nat)
    ensures ParseDigits(Decimal(n)) == n
  {
    if n >= 10 {
      ParseDecimal(n / 10);
      var d := Decimal(n);
      assert d[..|d| - 1] == Decimal(n / 10);
    }
  }

  lemma {:induction false} ParseZerosPrefix(k: nat, s: string)
    requires AllDigits(s)
    ensures AllDigits(Zeros(k) + s) && ParseDigits(Zeros(k) + s) == ParseDigits(s)
  {
    var z := Zeros(k) + s;
    if s == [] {
      assert z == Zeros(k);
      ParseZeros(k);
    } else {
      ParseZerosPrefix(k, s[..|s| - 1]);
      assert z[..|z| - 1] == Zeros(k) + s[..|s| - 1];
    }
  }

  lemma {:induction false} ParseZeros(k: nat)
    ensures ParseDigits(Zeros(k)) == 0
  {
    if k > 0 {
      ParseZeros(k - 1);
      assert Zeros(k)[..k - 1] == Zeros(k - 1);
    }
  }

  /** A non-negative number printed with any padding reads back as itself. */
  lemma PadIntRoundTrip(n: nat, width: nat)
    ensures AllDigits(PadInt(n, width)) && ParseDigits(PadInt(n, width)) == n
  {
    var d := Decimal(n);
    ParseDecimal(n);
    if |d| < width {
      ParseZerosPrefix(width - |d|, d);
    } else {
      assert PadInt(n, width) == d;
    }
  }

  lemma {:induction false} DecimalLength(n: nat, width: nat)
    requires 1 <= width && n < Pow10(width)
    ensures |Decimal(n)| <= width
  {
    if n >= 10 {
      assert width != 1 by { assert Pow10(1) == 10; }
      DecimalLength(n / 10, width - 1);
    }
  }

  /** Within its width, printf('%0<width>d') prints exactly `width` digits. */
  /** Zero-padded renderings of two naturals agree only when the naturals do. */
  lemma PadIntInjective(a: nat, b: nat, width: nat)
    requires PadInt(a, width) == PadInt(b, width)
    ensures a == b
  {
    PadIntRoundTrip(a, width);
    PadIntRoundTrip(b, width);
  }

  /** Two joins around the same separator, whose first parts have the same length, agree
      part by part. */
  lemma SplitJoin(a: string, b: string, c: string, d: string, sep: string)
    requires |a| == |c| && a + sep + b == c + sep + d
    ensures a == c && b == d
  {
    var l := a + sep + b;
    assert l[..|a|] == a;
    assert (c + sep + d)[..|c|] == c;
    assert l[|a| + |sep|..] == b;
    assert (c + sep + d)[|c| + |sep|..] == d;
  }

  lemma PadIntLength(n: nat, width: nat)
    requires 1 <= width && n < Pow10(width)
    ensures |PadInt(n, width)| == width
  {
    DecimalLength(n, width);
  }

  // ---------------------------------------------------------------- ordering

  /** Python's `a < b` on strings: code-point lexicographic order. */
  predicate LexLess(a: string, b: string) {
    if |a| == 0 then |b| > 0
    else if |b| == 0 then false
    else a[0] < b[0] || (a[0] == b[0] && LexLess(a[1..], b[1..]))
  }

  lemma {:induction false} LexIrreflexive(a: string)
    ensures !LexLess(a, a)
  {
    if |a| > 0 { LexIrreflexive(a[1..]); }
  }

  lemma {:induction false} LexTransitive(a: string, b: string, c: string)
    requires LexLess(a, b) && LexLess(b, c)
    ensures LexLess(a, c)
  {
    if |a| > 0 && |b| > 0 && |c| > 0 && a[0] == b[0] == c[0] {
      LexTransitive(a[1..], b[1..], c[1..]);
    }
  }

  lemma {:induction false} LexTotal(a: string, b: string)
    ensures a == b || LexLess(a, b) || LexLess(b, a)
  {
    if |a| > 0 && |b| > 0 && a[0] == b[0] {
      LexTotal(a[1..], b[1..]);
      if a[1..] == b[1..] {
        assert a == [a[0]] + a[1..] && b == [b[0]] + b[1..];
      }
    }
  }

  predicate StrictlySorted(s: seq<string>) {
    forall i, j :: 0 <= i < j < |s| ==> LexLess(s[i], s[j])
  }

  /** Inserts x into a strictly sorted list unless it is already there. */
  function InsertSorted(x: string, s: seq<string>): (r: seq<string>)
    requires StrictlySorted(s)
    ensures StrictlySorted(r)
    ensures forall y :: y in r <==> y in s || y == x
  {
    if s == [] then [x]
    else if x == s[0] then s
    else if LexLess(x, s[0]) then
      assert forall j :: 0 < j < |s| ==> LexLess(x, s[j]) by {
        forall j | 0 < j < |s| { LexTransitive(x, s[0], s[j]); }
      }
      [x] + s
    else
      var rest := InsertSorted(x, s[1..]);
      assert LexLess(s[0], x) by { LexTotal(x, s[0]); }
      assert forall y :: y in rest ==> LexLess(s[0], y) by {
        forall y | y in rest ensures LexLess(s[0], y) {
          if y != x {
            var j :| 0 <= j < |s[1..]| && s[1..][j] == y;
            assert s[j + 1] == y;
          }
        }
      }
      [s[0]] + rest
  }

  /** Python's sorted(set(xs)) on strings. */
  function SortedUnique(xs: seq<string>): (r: seq<string>)
    ensures StrictlySorted(r)
    ensures forall y :: y in r <==> y in xs
  {
    if xs == [] then [] else InsertSorted(xs[|xs| - 1], SortedUnique(xs[..|xs| - 1]))
  }

  /** A strictly sorted list has no repeated element. */
  lemma SortedDistinct(s: seq<string>)
    requires StrictlySorted(s)
    ensures forall i, j :: 0 <= i < j < |s| ==> s[i] != s[j]
  {
    forall i, j | 0 <= i < j < |s| ensures s[i] != s[j] {
      LexIrreflexive(s[i]);
    }
  }
}
