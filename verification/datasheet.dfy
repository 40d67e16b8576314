/**
 * Sheet2 of the report: the cleaned trial table, the weight-bearing and
 * asymmetry formula columns, cohort colours, the per-limb summary table and
 * the Forelimb/Hindlimb symmetry table. Every address is arithmetic on N,
 * the number of cleaned trials; data rows are 2..N+1.
 */
module DataSheet {
  import opened Formulas
  import opened Grid
  import opened Cleaner
  import opened Wrappers

  const ColB: nat := 2
  const ColArrow: nat := 5
  const ColWeight: nat := 6
  const ColAsym: nat := 7

  const Arrow: string := "→"
  const WeightHeader: string := "Weight bearing [%]"
  const AsymHeader: string := "Asymmetery Index (L to R: SI)"
  const SummaryTitle: string := "Summary"
  const SummaryHeaders: seq<string> :=
    ["", "Maximum force [%BW]", "Force-time integral [%BW*s]", "Contact time/TO [ms]", "Weight bearing [%]"]
  /** Limb codes in cohort order: a data row's role indexes this list. */
  const LimbCodes: seq<string> := ["LF", "LH", "RF", "RH"]
  const SymmetryHeader: string := "Asym Index(L to R: SI)"
  /** The two-character text written when a symmetry row has nothing to average. */
  const EmptyFormulaText: string := "\"\""

  // ----- Rows and cohorts -----

  /** Position of data row r in its cohort of four: 0 LF, 1 LH, 2 RF, 3 RH. */
  function Role(r: nat): nat
    requires r >= 2
  {
    (r - 2) % 4
  }

  /** First row of the cohort holding row r. */
  function CohortStart(r: nat): nat
    requires r >= 2
  {
    r - Role(r)
  }

  /** The 1-based cohort number of row r, which picks its colour. */
  function GroupNumber(r: nat): nat
    requires r >= 2
  {
    (r - 2) / 4 + 1
  }

  /** All four rows of r's cohort exist among the N data rows. */
  predicate InCompleteCohort(n: nat, r: nat)
    requires r >= 2
  {
    CohortStart(r) + 3 <= n + 1
  }

  /** Row r is an LF or LH row whose RF or RH partner two rows below exists. */
  predicate HasAsymmetry(n: nat, r: nat)
    requires r >= 2
  {
    Role(r) < 2 && r + 2 <= n + 1
  }

  /** Rows start, start+4, ... up to the last data row N+1. */
  function StrideRows(start: nat, n: nat): seq<nat>
    decreases n + 2 - start
  {
    if start > n + 1 then [] else [start] + StrideRows(start + 4, n)
  }

  /** The summary table's data column for summary column c: B, C, D and F. */
  function MetricColumn(c: nat): nat
  {
    if c == 5 then ColWeight else c
  }

  // ----- What each writer puts where -----

  function FieldValue(t: Trial, f: Field): Value
  {
    match f
    case DataSource => Text(t.source)
    case MaxForce => Number(t.force)
    case Impulse => Number(t.impulse)
    case ContactTime => Number(t.contact)
  }

  /** Row 1 holds the headers, row r >= 2 trial r-2; column c holds field c-1. */
  function TableCell(t: CleanTable, r: nat, c: nat): Value
    requires 1 <= r <= |t.rows| + 1 && 1 <= c <= |t.fields|
  {
    if r == 1 then Text(Header(t.fields[c - 1])) else FieldValue(t.rows[r - 2], t.fields[c - 1])
  }

  /** The row of the arrow in column E: the middle of the data. */
  function ArrowRow(n: nat): nat
  {
    n / 2 + 2
  }

  /** Columns E, F and G as first laid out: headers, the arrow, and "" everywhere else. */
  function ExtraCell(n: nat, r: nat, c: nat): Value
  {
    if r == 1 then
      (if c == ColArrow then Text(Arrow) else if c == ColWeight then Text(WeightHeader) else Text(AsymHeader))
    else if c == ColArrow && r == ArrowRow(n) then Text(Arrow)
    else Text("")
  }

  /** Cells of columns E..G over rows 1..N+1; column E's header appears only when there is data. */
  predicate IsExtraCell(n: nat, r: nat, c: nat)
  {
    1 <= r <= n + 1 && ColArrow <= c <= ColAsym && (r > 1 || c > ColArrow || n > 0)
  }

  /** SUM over the cohort's four B cells, ROUND(B_r / SUM * 100). */
  function WeightBearingFormula(r: nat): Formula
    requires r >= 2
  {
    WeightBearing(ColB, r, CohortStart(r), CohortStart(r) + 3)
  }

  /** The summary block at rows N+4..N+10, columns A..E; None where nothing is written. */
  function SummaryCell(n: nat, r: nat, c: nat): Option<Value>
  {
    if r == n + 4 && c == 1 then Some(Text(SummaryTitle))
    else if r == n + 6 && 1 <= c <= 5 then Some(Text(SummaryHeaders[c - 1]))
    else if n + 7 <= r <= n + 10 && c == 1 then Some(Text(LimbCodes[r - (n + 7)]))
    else if n + 7 <= r <= n + 10 && 2 <= c <= 5 && StrideRows(2 + (r - (n + 7)), n) != [] then
      Some(Calc(MeanStdev(MetricColumn(c), StrideRows(2 + (r - (n + 7)), n))))
    else None
  }

  /** A symmetry-table value: the mean ± stdev of the G cells at `rows`, or the text "" when there are none. */
  function SymmetryValue(rows: seq<nat>): Value
  {
    if rows != [] then Calc(MeanStdev(ColAsym, rows)) else Text(EmptyFormulaText)
  }

  /** Column A of data rows gets the cohort's bright fill, column F the dim one. */
  function RowFill(r: nat, c: nat): Fill
    requires r >= 2
  {
    if c == 1 then BrightFill(GroupNumber(r)) else DimFill(GroupNumber(r))
  }

  /** The symmetry block at rows N+11..N+13, columns A..B. */
  function SymmetryCell(n: nat, r: nat, c: nat): Option<Value>
  {
    if r == n + 11 && c == 1 then Some(Text(""))
    else if r == n + 11 && c == 2 then Some(Text(SymmetryHeader))
    else if r == n + 12 && c == 1 then Some(Text("Forelimb"))
    else if r == n + 12 && c == 2 then Some(SymmetryValue(StrideRows(2, n)))
    else if r == n + 13 && c == 1 then Some(Text("Hindlimb"))
    else if r == n + 13 && c == 2 then Some(SymmetryValue(StrideRows(3, n)))
    else None
  }

  /** What Sheet2 finally holds at (r, c), cell by cell: a later writer's value wins. */
  function LayoutCell(t: CleanTable, r: nat, c: nat): Option<Value>
  {
    var n := |t.rows|;
    if SymmetryCell(n, r, c).Some? then SymmetryCell(n, r, c)
    else if SummaryCell(n, r, c).Some? then SummaryCell(n, r, c)
    else if c == ColAsym && 2 <= r && HasAsymmetry(n, r) then Some(Calc(Asymmetry(ColB, r, r + 2)))
    else if c == ColWeight && 2 <= r <= n + 1 && InCompleteCohort(n, r) then Some(Calc(WeightBearingFormula(r)))
    else if IsExtraCell(n, r, c) then Some(ExtraCell(n, r, c))
    else if 1 <= r <= n + 1 && 1 <= c <= |t.fields| then Some(TableCell(t, r, c))
    else None
  }

  // ----- Sheet2 as its writers build it, one write after another -----

  /** Row r of the table, columns 1..c-1. */
  function TableRow(t: CleanTable, r: nat, c: nat): map<Addr, Value>
    requires 1 <= r <= |t.rows| + 1 && c <= |t.fields| + 1
    decreases c
  {
    if c <= 1 then map[] else TableRow(t, r, c - 1)[(r, c - 1) := TableCell(t, r, c - 1)]
  }

  /** Rows 1..r-1 of the table. */
  function TableRows(t: CleanTable, r: nat): map<Addr, Value>
    requires 1 <= r <= |t.rows| + 2
    decreases r
  {
    if r == 1 then map[] else TableRows(t, r - 1) + TableRow(t, r - 1, |t.fields| + 1)
  }

  function TableCells(t: CleanTable): map<Addr, Value>
  {
    TableRows(t, |t.rows| + 2)
  }

  /** Column E's two arrows (only when there is data), then the F and G headers. */
  function ExtraHeader(n: nat): map<Addr, Value>
  {
    var arrows: map<Addr, Value> :=
      if n > 0 then map[(ArrowRow(n), ColArrow) := Text(Arrow)][(1, ColArrow) := Text(Arrow)] else map[];
    arrows[(1, ColWeight) := Text(WeightHeader)][(1, ColAsym) := Text(AsymHeader)]
  }

  /** Row r's blanks in E (the arrow row excepted), F and G. */
  function ExtraRow(m: map<Addr, Value>, n: nat, r: nat): map<Addr, Value>
  {
    var e := if r != ArrowRow(n) then m[(r, ColArrow) := Text("")] else m;
    e[(r, ColWeight) := Text("")][(r, ColAsym) := Text("")]
  }

  /** Columns E..G once data rows 2..r-1 are done. */
  function ExtraUpTo(n: nat, r: nat): map<Addr, Value>
    requires r >= 2
    decreases r
  {
    if r == 2 then ExtraHeader(n) else ExtraRow(ExtraUpTo(n, r - 1), n, r - 1)
  }

  function ExtraColumnCells(n: nat): map<Addr, Value>
  {
    ExtraUpTo(n, n + 2)
  }

  /** Column F's formulas for data rows 2..r-1. */
  function WeightBearingUpTo(n: nat, r: nat): map<Addr, Value>
    requires r >= 2
    decreases r
  {
    if r == 2 then map[]
    else if InCompleteCohort(n, r - 1) then WeightBearingUpTo(n, r - 1)[(r - 1, ColWeight) := Calc(WeightBearingFormula(r - 1))]
    else WeightBearingUpTo(n, r - 1)
  }

  function WeightBearingCells(n: nat): map<Addr, Value>
  {
    WeightBearingUpTo(n, n + 2)
  }

  /** Column G's formulas for data rows 2..r-1. */
  function AsymmetryUpTo(n: nat, r: nat): map<Addr, Value>
    requires r >= 2
    decreases r
  {
    if r == 2 then map[]
    else if HasAsymmetry(n, r - 1) then AsymmetryUpTo(n, r - 1)[(r - 1, ColAsym) := Calc(Asymmetry(ColB, r - 1, r + 1))]
    else AsymmetryUpTo(n, r - 1)
  }

  function AsymmetryCells(n: nat): map<Addr, Value>
  {
    AsymmetryUpTo(n, n + 2)
  }

  /** Fills of data rows 2..r-1. */
  function ColoringUpTo(r: nat): map<Addr, Fill>
    requires r >= 2
    decreases r
  {
    if r == 2 then map[] else ColoringUpTo(r - 1)[(r - 1, 1) := RowFill(r - 1, 1)][(r - 1, ColWeight) := RowFill(r - 1, ColWeight)]
  }

  function ColoringFills(n: nat): map<Addr, Fill>
  {
    ColoringUpTo(n + 2)
  }

  /** The "Summary" title at (N+4, 1), then the header row N+6, columns 1..c-1. */
  function SummaryHeaderRow(n: nat, c: nat): map<Addr, Value>
    requires c <= 6
    decreases c
  {
    if c <= 1 then map[(n + 4, 1) := Text(SummaryTitle)] else SummaryHeaderRow(n, c - 1)[(n + 6, c - 1) := Text(SummaryHeaders[c - 2])]
  }

  /** Limb k's row N+7+k: its code, then summary columns 2..c-1 when the limb has rows. */
  function LimbRow(n: nat, k: nat, c: nat): map<Addr, Value>
    requires k < 4 && 2 <= c <= 6
    decreases c
  {
    if c == 2 then map[(n + 7 + k, 1) := Text(LimbCodes[k])]
    else if StrideRows(2 + k, n) != [] then
      LimbRow(n, k, c - 1)[(n + 7 + k, c - 1) := Calc(MeanStdev(MetricColumn(c - 1), StrideRows(2 + k, n)))]
    else LimbRow(n, k, c - 1)
  }

  lemma LimbRowNext(n: nat, k: nat, c: nat)
    requires k < 4 && 2 <= c <= 5
    ensures LimbRow(n, k, c + 1) ==
      if StrideRows(2 + k, n) != [] then LimbRow(n, k, c)[(n + 7 + k, c) := Calc(MeanStdev(MetricColumn(c), StrideRows(2 + k, n)))]
      else LimbRow(n, k, c)
  {
  }

  lemma SummaryHeaderNext(n: nat, c: nat)
    requires 1 <= c <= 5
    ensures SummaryHeaderRow(n, c + 1) == SummaryHeaderRow(n, c)[(n + 6, c) := Text(SummaryHeaders[c - 1])]
  {
  }

  lemma LimbRowFirst(m: map<Addr, Value>, n: nat, k: nat, row: nat)
    requires k < 4 && row == n + 7 + k
    ensures m[(row, 1) := Text(LimbCodes[k])] == m + LimbRow(n, k, 2)
  {
    UpdateAsUnion(m, (row, 1), Text(LimbCodes[k]));
  }

  /** The rows of limbs 0..k-1. */
  function LimbRows(n: nat, k: nat): map<Addr, Value>
    requires k <= 4
    decreases k
  {
    if k == 0 then map[] else LimbRows(n, k - 1) + LimbRow(n, k - 1, 6)
  }

  function SummaryCells(n: nat): map<Addr, Value>
  {
    SummaryHeaderRow(n, 6) + LimbRows(n, 4)
  }

  function SymmetryCells(n: nat): map<Addr, Value>
  {
    map[(n + 11, 1) := Text(""), (n + 11, 2) := Text(SymmetryHeader),
        (n + 12, 1) := Text("Forelimb"), (n + 12, 2) := SymmetryValue(StrideRows(2, n)),
        (n + 13, 1) := Text("Hindlimb"), (n + 13, 2) := SymmetryValue(StrideRows(3, n))]
  }

  /** Everything Sheet2 holds once all writers have run, in the order they run. */
  function Sheet2Layout(t: CleanTable): map<Addr, Value>
  {
    var n := |t.rows|;
    TableCells(t) + ExtraColumnCells(n) + WeightBearingCells(n) + AsymmetryCells(n) + SummaryCells(n) + SymmetryCells(n)
  }

  // ----- Colours -----

  /** The golden-angle hue, in degrees, of cohort g. */
  function Hue(g: nat): (h: nat)
    ensures h < 360
  {
    (g * 137) % 360
  }

  function BrightFill(g: nat): Fill
  {
    Hls(Hue(g), 75, 90)
  }

  function DimFill(g: nat): Fill
  {
    Hls(Hue(g), 75, 50)
  }

  /** set_column_widths: the longest text plus 2, clamped to 10..50. */
  function ColumnWidth(headerLength: nat, dataLength: nat): (w: nat)
    ensures 10 <= w <= 50
    ensures headerLength + 2 <= w || w == 50
    ensures dataLength + 2 <= w || w == 50
    ensures w == 10 || w == 50 || w == headerLength + 2 || w == dataLength + 2
    ensures w == 50 <==> headerLength + 2 >= 50 || dataLength + 2 >= 50
    ensures w == 10 <==> headerLength + 2 <= 10 && dataLength + 2 <= 10
  {
    var longest := if headerLength < dataLength then dataLength else headerLength;
    var width := longest + 2;
    if width < 10 then 10 else if width > 50 then 50 else width
  }

  // ----- What each map holds, cell by cell -----

  lemma {:induction false} TableRowLookup(t: CleanTable, r: nat, c: nat, a: Addr)
    requires 1 <= r <= |t.rows| + 1 && c <= |t.fields| + 1
    ensures a in TableRow(t, r, c) <==> a.0 == r && 1 <= a.1 < c
    ensures a in TableRow(t, r, c) ==> TableRow(t, r, c)[a] == TableCell(t, a.0, a.1)
    decreases c
  {
    if c > 1 {
      TableRowLookup(t, r, c - 1, a);
    }
  }

  lemma {:induction false} TableRowsLookup(t: CleanTable, r: nat, a: Addr)
    requires 1 <= r <= |t.rows| + 2
    ensures a in TableRows(t, r) <==> 1 <= a.0 < r && 1 <= a.1 <= |t.fields|
    ensures a in TableRows(t, r) ==> TableRows(t, r)[a] == TableCell(t, a.0, a.1)
    decreases r
  {
    if r > 1 {
      TableRowsLookup(t, r - 1, a);
      TableRowLookup(t, r - 1, |t.fields| + 1, a);
    }
  }

  /** The table is the header row and one row per trial, one column per field, and nothing else. */
  lemma TableLookup(t: CleanTable, a: Addr)
    ensures a in TableCells(t) <==> 1 <= a.0 <= |t.rows| + 1 && 1 <= a.1 <= |t.fields|
    ensures a in TableCells(t) ==> TableCells(t)[a] == TableCell(t, a.0, a.1)
  {
    TableRowsLookup(t, |t.rows| + 2, a);
  }

  lemma {:induction false} ExtraUpToLookup(n: nat, r: nat, a: Addr)
    requires 2 <= r <= n + 2
    ensures a in ExtraUpTo(n, r) <==> IsExtraCell(n, a.0, a.1) && (a.0 < r || (n > 0 && a == (ArrowRow(n), ColArrow)))
    ensures a in ExtraUpTo(n, r) ==> ExtraUpTo(n, r)[a] == ExtraCell(n, a.0, a.1)
    decreases r
  {
    if r > 2 {
      ExtraUpToLookup(n, r - 1, a);
    }
  }

  /** Columns E..G hold their headers, the arrow mid-column, and "" in every other data row. */
  lemma ExtraLookup(n: nat, a: Addr)
    ensures a in ExtraColumnCells(n) <==> IsExtraCell(n, a.0, a.1)
    ensures a in ExtraColumnCells(n) ==> ExtraColumnCells(n)[a] == ExtraCell(n, a.0, a.1)
  {
    ExtraUpToLookup(n, n + 2, a);
  }

  lemma {:induction false} WeightBearingUpToLookup(n: nat, r: nat, a: Addr)
    requires r >= 2
    ensures a in WeightBearingUpTo(n, r) <==> a.1 == ColWeight && 2 <= a.0 < r && InCompleteCohort(n, a.0)
    ensures a in WeightBearingUpTo(n, r) ==> WeightBearingUpTo(n, r)[a] == Calc(WeightBearingFormula(a.0))
    decreases r
  {
    if r > 2 {
      WeightBearingUpToLookup(n, r - 1, a);
    }
  }

  lemma {:induction false} AsymmetryUpToLookup(n: nat, r: nat, a: Addr)
    requires r >= 2
    ensures a in AsymmetryUpTo(n, r) <==> a.1 == ColAsym && 2 <= a.0 < r && HasAsymmetry(n, a.0)
    ensures a in AsymmetryUpTo(n, r) ==> AsymmetryUpTo(n, r)[a] == Calc(Asymmetry(ColB, a.0, a.0 + 2))
    decreases r
  {
    if r > 2 {
      AsymmetryUpToLookup(n, r - 1, a);
    }
  }

  lemma {:induction false} ColoringUpToLookup(r: nat, a: Addr)
    requires r >= 2
    ensures a in ColoringUpTo(r) <==> 2 <= a.0 < r && (a.1 == 1 || a.1 == ColWeight)
    ensures a in ColoringUpTo(r) ==> ColoringUpTo(r)[a] == RowFill(a.0, a.1)
    decreases r
  {
    if r > 2 {
      ColoringUpToLookup(r - 1, a);
    }
  }

  lemma {:induction false} SummaryHeaderRowLookup(n: nat, c: nat, a: Addr)
    requires c <= 6
    ensures a in SummaryHeaderRow(n, c) <==> a == (n + 4, 1) || (a.0 == n + 6 && 1 <= a.1 < c)
    ensures a in SummaryHeaderRow(n, c) ==> SummaryHeaderRow(n, c)[a] == SummaryCell(n, a.0, a.1).value
    decreases c
  {
    if c > 1 {
      SummaryHeaderRowLookup(n, c - 1, a);
    }
  }

  lemma {:induction false} LimbRowLookup(n: nat, k: nat, c: nat, a: Addr)
    requires k < 4 && 2 <= c <= 6
    ensures a in LimbRow(n, k, c) <==> a.0 == n + 7 + k && 1 <= a.1 < c && SummaryCell(n, a.0, a.1).Some?
    ensures a in LimbRow(n, k, c) ==> LimbRow(n, k, c)[a] == SummaryCell(n, a.0, a.1).value
    decreases c
  {
    if c > 2 {
      LimbRowLookup(n, k, c - 1, a);
    }
  }

  lemma {:induction false} LimbRowsLookup(n: nat, k: nat, a: Addr)
    requires k <= 4
    ensures a in LimbRows(n, k) <==> n + 7 <= a.0 < n + 7 + k && 1 <= a.1 <= 5 && SummaryCell(n, a.0, a.1).Some?
    ensures a in LimbRows(n, k) ==> LimbRows(n, k)[a] == SummaryCell(n, a.0, a.1).value
    decreases k
  {
    if k > 0 {
      LimbRowsLookup(n, k - 1, a);
      LimbRowLookup(n, k - 1, 6, a);
    }
  }

  /** The summary block holds exactly what SummaryCell prescribes. */
  lemma SummaryLookup(n: nat, a: Addr)
    ensures a in SummaryCells(n) <==> n + 4 <= a.0 <= n + 10 && 1 <= a.1 <= 5 && SummaryCell(n, a.0, a.1).Some?
    ensures a in SummaryCells(n) ==> SummaryCells(n)[a] == SummaryCell(n, a.0, a.1).value
  {
    SummaryHeaderRowLookup(n, 6, a);
    LimbRowsLookup(n, 4, a);
  }

  lemma ColoringLookup(n: nat, a: Addr)
    ensures a in ColoringFills(n) <==> 2 <= a.0 <= n + 1 && (a.1 == 1 || a.1 == ColWeight)
    ensures a in ColoringFills(n) ==> ColoringFills(n)[a] == RowFill(a.0, a.1)
  {
    ColoringUpToLookup(n + 2, a);
  }

  // ----- Stride-4 row lists -----

  /** StrideRows(start, N) is start, start+4, ... in increasing order, as many as fit before row N+2. */
  lemma {:induction false} StrideRowsIndex(start: nat, n: nat)
    ensures |StrideRows(start, n)| == if start > n + 1 then 0 else (n + 1 - start) / 4 + 1
    ensures forall i :: 0 <= i < |StrideRows(start, n)| ==> StrideRows(start, n)[i] == start + 4 * i
    decreases n + 2 - start
  {
    if start <= n + 1 {
      StrideRowsIndex(start + 4, n);
      var rest := StrideRows(start + 4, n);
      forall i | 0 <= i < |StrideRows(start, n)|
        ensures StrideRows(start, n)[i] == start + 4 * i
      {
        if i > 0 {
          assert StrideRows(start, n)[i] == rest[i - 1];
        }
      }
    }
  }

  lemma {:induction false} StrideRowsMembers(start: nat, n: nat, x: nat)
    ensures x in StrideRows(start, n) <==> start <= x <= n + 1 && (x - start) % 4 == 0
    decreases n + 2 - start
  {
    if start <= n + 1 {
      StrideRowsMembers(start + 4, n, x);
    }
  }

  /** Limb k's row list is exactly the data rows in role k, and is empty only when N <= k. */
  lemma LimbRowList(n: nat, k: nat, x: nat)
    requires k < 4
    ensures x in StrideRows(2 + k, n) <==> 2 <= x <= n + 1 && Role(x) == k
    ensures StrideRows(2 + k, n) == [] <==> n <= k
  {
    StrideRowsMembers(2 + k, n, x);
    StrideRowsIndex(2 + k, n);
  }

  lemma SymmetryLookup(n: nat, a: Addr)
    ensures a in SymmetryCells(n) <==> SymmetryCell(n, a.0, a.1).Some?
    ensures a in SymmetryCells(n) ==> SymmetryCells(n)[a] == SymmetryCell(n, a.0, a.1).value
  {
  }

  /** Sheet2 as its writers leave it holds exactly what LayoutCell prescribes. */
  lemma Sheet2Lookup(t: CleanTable, a: Addr)
    ensures a in Sheet2Layout(t) <==> LayoutCell(t, a.0, a.1).Some?
    ensures a in Sheet2Layout(t) ==> Sheet2Layout(t)[a] == LayoutCell(t, a.0, a.1).value
  {
    var n := |t.rows|;
    TableLookup(t, a);
    ExtraLookup(n, a);
    WeightBearingUpToLookup(n, n + 2, a);
    AsymmetryUpToLookup(n, n + 2, a);
    SummaryLookup(n, a);
    SymmetryLookup(n, a);
  }

  // ----- Properties of the finished Sheet2 -----

  /** The numbers column `col` of the finished Sheet2 holds, by row. */
  function LayoutNumbers(t: CleanTable, col: nat): Column
  {
    (r: nat) => if LayoutCell(t, r, col).Some? && LayoutCell(t, r, col).value.Number? then LayoutCell(t, r, col).value.x else 0.0
  }

  /** Reading a column of the sheet the writers build gives LayoutNumbers. */
  lemma Sheet2Numbers(t: CleanTable, col: nat, r: nat)
    ensures NumbersIn(Sheet2Layout(t), col)(r) == LayoutNumbers(t, col)(r)
  {
    Sheet2Lookup(t, (r, col));
  }

  /** Columns A..D of rows 1..N+1 keep the cleaned table. */
  lemma Sheet2Table(t: CleanTable, r: nat, c: nat)
    requires 1 <= r <= |t.rows| + 1 && 1 <= c <= |t.fields| && c < ColArrow
    ensures LayoutCell(t, r, c) == Some(TableCell(t, r, c))
  {
  }

  /** Column B of a data row holds that trial's maximum force when the force is the second field. */
  lemma ForceColumn(t: CleanTable, r: nat)
    requires |t.fields| >= 2 && t.fields[1] == MaxForce && 2 <= r <= |t.rows| + 1
    ensures LayoutNumbers(t, ColB)(r) == t.rows[r - 2].force
  {
    Sheet2Table(t, r, ColB);
  }

  /** Column F of a data row: the cohort formula over B{s}:B{s+3} in a complete cohort, "" otherwise. */
  lemma Sheet2WeightBearing(t: CleanTable, r: nat)
    requires 2 <= r <= |t.rows| + 1
    ensures LayoutCell(t, r, ColWeight) ==
      Some(if InCompleteCohort(|t.rows|, r) then Calc(WeightBearing(ColB, r, CohortStart(r), CohortStart(r) + 3)) else Text(""))
  {
  }

  /** The four F cells of the cohort starting at LF row s all sum B{s}:B{s+3}, or all stay "" when it is cut short. */
  lemma Sheet2CohortWeightBearing(t: CleanTable, s: nat, i: nat)
    requires s >= 2 && Role(s) == 0 && i < 4 && s + i <= |t.rows| + 1
    ensures LayoutCell(t, s + i, ColWeight) ==
      Some(if s + 3 <= |t.rows| + 1 then Calc(WeightBearing(ColB, s + i, s, s + 3)) else Text(""))
  {
    CohortOf(s, i);
    Sheet2WeightBearing(t, s + i);
    SameCohortCell(LayoutCell(t, s + i, ColWeight), |t.rows|, s, i, CohortStart(s + i));
  }

  lemma SameCohortCell(v: Option<Value>, n: nat, s: nat, i: nat, start: nat)
    requires start == s
    requires v == Some(if start + 3 <= n + 1 then Calc(WeightBearing(ColB, s + i, start, start + 3)) else Text(""))
    ensures v == Some(if s + 3 <= n + 1 then Calc(WeightBearing(ColB, s + i, s, s + 3)) else Text(""))
  {
  }

  /** A cohort's F formulas evaluate to each trial's share of the cohort's total force, in whole percent. */
  lemma Sheet2WeightBearingValue(t: CleanTable, s: nat, i: nat)
    requires |t.fields| >= 2 && t.fields[1] == MaxForce
    requires s >= 2 && Role(s) == 0 && i < 4 && s + 3 <= |t.rows| + 1
    ensures var total := t.rows[s - 2].force + t.rows[s - 1].force + t.rows[s].force + t.rows[s + 1].force;
      EvalWeightBearing(LayoutNumbers(t, ColB), s + i, s, s + 3) ==
      if total == 0.0 then 0 else Round(t.rows[s - 2 + i].force / total * 100.0)
  {
    var v := LayoutNumbers(t, ColB);
    ForceColumn(t, s);
    ForceColumn(t, s + 1);
    ForceColumn(t, s + 2);
    ForceColumn(t, s + 3);
    ForceColumn(t, s + i);
    assert RangeSum(v, s, s + 3) == v(s) + v(s + 1) + v(s + 2) + v(s + 3) by {
      assert SumFrom(v, s + 3, 1) == v(s + 3) + SumFrom(v, s + 4, 0);
      assert SumFrom(v, s + 2, 2) == v(s + 2) + SumFrom(v, s + 3, 1);
      assert SumFrom(v, s + 1, 3) == v(s + 1) + SumFrom(v, s + 2, 2);
      assert SumFrom(v, s, 4) == v(s) + SumFrom(v, s + 1, 3);
    }
  }

  /** Column G of a data row: the partner formula for an LF or LH row with a partner, "" otherwise. */
  lemma Sheet2Asymmetry(t: CleanTable, r: nat)
    requires 2 <= r <= |t.rows| + 1
    ensures LayoutCell(t, r, ColAsym) ==
      Some(if HasAsymmetry(|t.rows|, r) then Calc(Asymmetry(ColB, r, r + 2)) else Text(""))
    ensures HasAsymmetry(|t.rows|, r) ==> Role(r + 2) == Role(r) + 2 && CohortStart(r + 2) == CohortStart(r)
  {
    if HasAsymmetry(|t.rows|, r) {
      CohortOf(CohortStart(r), Role(r) + 2);
    }
  }

  /**
   * Column G over the cohort starting at LF row s: LF pairs with RF and LH with RH
   * when the partner exists; RF and RH rows stay "". In a cut-short cohort only LF
   * can have a formula, and only when three of its rows exist.
   */
  lemma Sheet2CohortAsymmetry(t: CleanTable, s: nat)
    requires s >= 2 && Role(s) == 0 && s <= |t.rows| + 1
    ensures LayoutCell(t, s, ColAsym) ==
      Some(if s + 2 <= |t.rows| + 1 then Calc(Asymmetry(ColB, s, s + 2)) else Text(""))
    ensures s + 1 <= |t.rows| + 1 ==>
      LayoutCell(t, s + 1, ColAsym) == Some(if s + 3 <= |t.rows| + 1 then Calc(Asymmetry(ColB, s + 1, s + 3)) else Text(""))
    ensures s + 2 <= |t.rows| + 1 ==> LayoutCell(t, s + 2, ColAsym) == Some(Text(""))
    ensures s + 3 <= |t.rows| + 1 ==> LayoutCell(t, s + 3, ColAsym) == Some(Text(""))
  {
    CohortOf(s, 1);
    CohortOf(s, 2);
    CohortOf(s, 3);
  }

  /** Six trials: the second cohort (rows 6, 7) is too short for any G formula. */
  lemma Sheet2AsymmetrySixTrials(t: CleanTable)
    requires |t.rows| == 6
    ensures LayoutCell(t, 2, ColAsym) == Some(Calc(Asymmetry(ColB, 2, 4)))
    ensures LayoutCell(t, 3, ColAsym) == Some(Calc(Asymmetry(ColB, 3, 5)))
    ensures LayoutCell(t, 6, ColAsym) == Some(Text("")) && LayoutCell(t, 7, ColAsym) == Some(Text(""))
  {
    Sheet2CohortAsymmetry(t, 2);
    Sheet2CohortAsymmetry(t, 6);
  }

  /** Seven trials: the second cohort's LF row pairs with row 8; its LH row has no formula. */
  lemma Sheet2AsymmetrySevenTrials(t: CleanTable)
    requires |t.rows| == 7
    ensures LayoutCell(t, 6, ColAsym) == Some(Calc(Asymmetry(ColB, 6, 8)))
    ensures LayoutCell(t, 7, ColAsym) == Some(Text("")) && LayoutCell(t, 8, ColAsym) == Some(Text(""))
  {
    Sheet2CohortAsymmetry(t, 6);
  }

  /** A G formula compares a trial's force with its partner's: |a-b| over their mean, 0 when both are 0. */
  lemma Sheet2AsymmetryValue(t: CleanTable, r: nat)
    requires |t.fields| >= 2 && t.fields[1] == MaxForce
    requires 2 <= r && HasAsymmetry(|t.rows|, r)
    ensures var a := t.rows[r - 2].force; var b := t.rows[r].force;
      EvalAsymmetry(LayoutNumbers(t, ColB), r, r + 2) ==
      if a + b == 0.0 then 0.0 else Abs(a - b) / ((a + b) / 2.0)
  {
    ForceColumn(t, r);
    ForceColumn(t, r + 2);
  }

  /**
   * Limb k's summary row N+7+k: its code in column A and, when the limb has any
   * rows, mean ± stdev over exactly its rows of columns B, C, D and F.
   */
  lemma Sheet2LimbSummary(t: CleanTable, k: nat, c: nat)
    requires k < 4 && 2 <= c <= 5
    ensures LayoutCell(t, |t.rows| + 7 + k, 1) == Some(Text(LimbCodes[k]))
    ensures LayoutCell(t, |t.rows| + 7 + k, c).Some? <==> |t.rows| > k
    ensures |t.rows| > k ==>
      LayoutCell(t, |t.rows| + 7 + k, c) == Some(Calc(MeanStdev(MetricColumn(c), StrideRows(2 + k, |t.rows|))))
  {
    LimbRowList(|t.rows|, k, 0);
  }

  /** The Forelimb and Hindlimb rows N+12, N+13 average column G over the LF and LH rows. */
  lemma Sheet2Symmetry(t: CleanTable)
    ensures LayoutCell(t, |t.rows| + 11, 2) == Some(Text(SymmetryHeader))
    ensures LayoutCell(t, |t.rows| + 12, 1) == Some(Text("Forelimb"))
    ensures LayoutCell(t, |t.rows| + 13, 1) == Some(Text("Hindlimb"))
    ensures LayoutCell(t, |t.rows| + 12, 2) ==
      Some(if |t.rows| == 0 then Text(EmptyFormulaText) else Calc(MeanStdev(ColAsym, StrideRows(2, |t.rows|))))
    ensures LayoutCell(t, |t.rows| + 13, 2) ==
      Some(if |t.rows| <= 1 then Text(EmptyFormulaText) else Calc(MeanStdev(ColAsym, StrideRows(3, |t.rows|))))
    ensures forall x: nat :: x in StrideRows(2, |t.rows|) <==> 2 <= x <= |t.rows| + 1 && Role(x) == 0
    ensures forall x: nat :: x in StrideRows(3, |t.rows|) <==> 2 <= x <= |t.rows| + 1 && Role(x) == 1
  {
    var n := |t.rows|;
    LimbRowList(n, 0, 0);
    LimbRowList(n, 1, 0);
    forall x: nat
      ensures x in StrideRows(2, n) <==> 2 <= x <= n + 1 && Role(x) == 0
      ensures x in StrideRows(3, n) <==> 2 <= x <= n + 1 && Role(x) == 1
    {
      LimbRowList(n, 0, x);
      LimbRowList(n, 1, x);
    }
  }

  // ----- Colours -----

  /** 137 is invertible modulo 360 (137 * 113 = 43 * 360 + 1), so the first 360 cohorts get distinct hues. */
  lemma HueDistinct(g: nat, h: nat)
    requires 1 <= g <= 360 && 1 <= h <= 360
    ensures Hue(g) == Hue(h) <==> g == h
  {
    if Hue(g) == Hue(h) {
      var q := (g * 137) / 360;
      var p := (h * 137) / 360;
      assert g * 137 == 360 * q + Hue(g);
      assert h * 137 == 360 * p + Hue(h);
      MultipleOf360(g - h, q - p);
    }
  }

  /** 113 is the inverse of 137 modulo 360, so 360 dividing 137 * d means it divides d. */
  lemma MultipleOf360(d: int, k: int)
    requires 137 * d == 360 * k
    ensures d == 360 * (113 * k - 43 * d)
  {
    assert 15481 * d == 360 * (113 * k);
  }

  /**
   * Two data rows get the same bright (column A) or the same dim (column F)
   * fill exactly when they lie in the same cohort, for the first 360 cohorts;
   * a bright fill never equals a dim one.
   */
  lemma CohortColours(r: nat, r2: nat)
    requires 2 <= r <= 1441 && 2 <= r2 <= 1441
    ensures BrightFill(GroupNumber(r)) == BrightFill(GroupNumber(r2)) <==> CohortStart(r) == CohortStart(r2)
    ensures DimFill(GroupNumber(r)) == DimFill(GroupNumber(r2)) <==> CohortStart(r) == CohortStart(r2)
    ensures BrightFill(GroupNumber(r)) != DimFill(GroupNumber(r2))
  {
    HueDistinct(GroupNumber(r), GroupNumber(r2));
    var q := (r - 2) / 4;
    var q2 := (r2 - 2) / 4;
    assert r - 2 == 4 * q + Role(r);
    assert r2 - 2 == 4 * q2 + Role(r2);
    assert CohortStart(r) == 4 * q + 2 && CohortStart(r2) == 4 * q2 + 2;
  }


  // ----- The writers -----

  /** Headers in row 1, then each trial's fields from row 2. */
  method WriteTable(ws: Sheet, t: CleanTable)
    modifies ws
    ensures ws.cells == old(ws.cells) + TableCells(t)
    ensures ws.fills == old(ws.fills)
  {
    WriteHeaderRow(ws, t);
    TableRowsNext(t, 1);
    assert ws.cells == old(ws.cells) + TableRows(t, 2);
    var r := 2;
    while r <= |t.rows| + 1
      invariant 2 <= r <= |t.rows| + 2
      invariant ws.cells == old(ws.cells) + TableRows(t, r)
      invariant ws.fills == old(ws.fills)
    {
      WriteDataRow(ws, t, r);
      UnionAssoc(old(ws.cells), TableRows(t, r), TableRow(t, r, |t.fields| + 1));
      TableRowsNext(t, r);
      r := r + 1;
    }
  }

  /** Row 1: the header of every field. */
  method WriteHeaderRow(ws: Sheet, t: CleanTable)
    modifies ws
    ensures ws.cells == old(ws.cells) + TableRow(t, 1, |t.fields| + 1)
    ensures ws.fills == old(ws.fills)
  {
    var c := 1;
    while c <= |t.fields|
      invariant 1 <= c <= |t.fields| + 1
      invariant ws.cells == old(ws.cells) + TableRow(t, 1, c)
      invariant ws.fills == old(ws.fills)
    {
      ws.Put(1, c, Text(Header(t.fields[c - 1])));
      UpdateUnion(old(ws.cells), TableRow(t, 1, c), (1, c), TableCell(t, 1, c));
      c := c + 1;
    }
  }

  /** Row r: the values of trial r-2, field by field. */
  method WriteDataRow(ws: Sheet, t: CleanTable, r: nat)
    requires 2 <= r <= |t.rows| + 1
    modifies ws
    ensures ws.cells == old(ws.cells) + TableRow(t, r, |t.fields| + 1)
    ensures ws.fills == old(ws.fills)
  {
    var c := 1;
    while c <= |t.fields|
      invariant 1 <= c <= |t.fields| + 1
      invariant ws.cells == old(ws.cells) + TableRow(t, r, c)
      invariant ws.fills == old(ws.fills)
    {
      ws.Put(r, c, FieldValue(t.rows[r - 2], t.fields[c - 1]));
      UpdateUnion(old(ws.cells), TableRow(t, r, c), (r, c), TableCell(t, r, c));
      c := c + 1;
    }
  }

  lemma TableRowsNext(t: CleanTable, r: nat)
    requires 1 <= r <= |t.rows| + 1
    ensures TableRows(t, r + 1) == TableRows(t, r) + TableRow(t, r, |t.fields| + 1)
  {
  }

  /** add_additional_columns_to_sheet2 */
  method AddAdditionalColumns(ws: Sheet, n: nat)
    modifies ws
    ensures ws.cells == old(ws.cells) + ExtraColumnCells(n)
    ensures ws.fills == old(ws.fills)
  {
    ghost var built: map<Addr, Value> := map[];
    assert ws.cells == old(ws.cells) + built;
    var arrowRow := ArrowRow(n);
    if n > 0 {
      ws.Put(arrowRow, ColArrow, Text(Arrow));
      UpdateUnion(old(ws.cells), built, (arrowRow, ColArrow), Text(Arrow));
      built := built[(arrowRow, ColArrow) := Text(Arrow)];
      ws.Put(1, ColArrow, Text(Arrow));
      UpdateUnion(old(ws.cells), built, (1, ColArrow), Text(Arrow));
      built := built[(1, ColArrow) := Text(Arrow)];
    }
    ws.Put(1, ColWeight, Text(WeightHeader));
    UpdateUnion(old(ws.cells), built, (1, ColWeight), Text(WeightHeader));
    built := built[(1, ColWeight) := Text(WeightHeader)];
    ws.Put(1, ColAsym, Text(AsymHeader));
    UpdateUnion(old(ws.cells), built, (1, ColAsym), Text(AsymHeader));
    built := built[(1, ColAsym) := Text(AsymHeader)];
    assert built == ExtraUpTo(n, 2);
    var r := 2;
    while r < n + 2
      invariant 2 <= r <= n + 2
      invariant ws.cells == old(ws.cells) + ExtraUpTo(n, r)
      invariant ws.fills == old(ws.fills)
    {
      built := ExtraUpTo(n, r);
      if r != arrowRow {
        ws.Put(r, ColArrow, Text(""));
        UpdateUnion(old(ws.cells), built, (r, ColArrow), Text(""));
        built := built[(r, ColArrow) := Text("")];
      }
      ws.Put(r, ColWeight, Text(""));
      UpdateUnion(old(ws.cells), built, (r, ColWeight), Text(""));
      built := built[(r, ColWeight) := Text("")];
      ws.Put(r, ColAsym, Text(""));
      UpdateUnion(old(ws.cells), built, (r, ColAsym), Text(""));
      built := built[(r, ColAsym) := Text("")];
      assert built == ExtraUpTo(n, r + 1);
      r := r + 1;
    }
  }

  /** Rows past the data add no weight-bearing formula. */
  lemma {:induction false} WeightBearingSettled(n: nat, r: nat)
    requires r >= n + 2
    ensures WeightBearingUpTo(n, r) == WeightBearingCells(n)
    decreases r
  {
    if r > n + 2 {
      WeightBearingSettled(n, r - 1);
    }
  }

  /** The rows start..start+3 of a cohort starting at `start` have roles 0..3 and share its start. */
  /** The rows of the k-th cohort take the four roles in order. */
  lemma GroupRoles(k: nat)
    ensures Role(2 + k * 4) == 0 && Role(3 + k * 4) == 1 && Role(4 + k * 4) == 2 && Role(5 + k * 4) == 3
  {
    assert (2 + k * 4) - 2 == 4 * k;
  }

  lemma CohortOf(start: nat, offset: nat)
    requires start >= 2 && Role(start) == 0 && offset < 4
    ensures Role(start + offset) == offset && CohortStart(start + offset) == start
  {
    var q := (start - 2) / 4;
    assert start - 2 == 4 * q;
    assert start + offset - 2 == 4 * q + offset;
  }

  lemma WeightBearingNext(n: nat, r: nat)
    requires r >= 2 && InCompleteCohort(n, r)
    ensures WeightBearingUpTo(n, r + 1) == WeightBearingUpTo(n, r)[(r, ColWeight) := Calc(WeightBearingFormula(r))]
  {
  }

  /** Each row of a complete cohort adds its formula over the cohort's four rows. */
  lemma WeightBearingStep(n: nat, start: nat, offset: nat)
    requires start >= 2 && Role(start) == 0 && offset < 4 && start + 3 <= n + 1
    ensures WeightBearingUpTo(n, start + offset + 1) ==
      WeightBearingUpTo(n, start + offset)[(start + offset, ColWeight) := Calc(WeightBearing(ColB, start + offset, start, start + 3))]
  {
    var r := start + offset;
    CohortOf(start, offset);
    assert WeightBearingFormula(r) == WeightBearing(ColB, r, start, start + 3);
    WeightBearingNext(n, r);
    SameUpdate(WeightBearingUpTo(n, r), (r, ColWeight), Calc(WeightBearingFormula(r)), Calc(WeightBearing(ColB, r, start, start + 3)));
  }

  /** A cohort that does not fit among the data rows gets no weight-bearing formula. */
  lemma WeightBearingIncomplete(n: nat, start: nat)
    requires start >= 2 && Role(start) == 0 && start + 3 > n + 1
    ensures WeightBearingUpTo(n, start + 4) == WeightBearingUpTo(n, start)
  {
    assert Role(start + 1) == 1 && Role(start + 2) == 2 && Role(start + 3) == 3;
    assert WeightBearingUpTo(n, start + 1) == WeightBearingUpTo(n, start);
    assert WeightBearingUpTo(n, start + 2) == WeightBearingUpTo(n, start + 1);
    assert WeightBearingUpTo(n, start + 3) == WeightBearingUpTo(n, start + 2);
  }

  /** The four formulas of one complete cohort, row by row. */
  method WriteCohortWeightBearing(ws: Sheet, n: nat, start: nat, ghost base: map<Addr, Value>)
    requires start >= 2 && Role(start) == 0 && start + 3 <= n + 1
    requires ws.cells == base + WeightBearingUpTo(n, start)
    modifies ws
    ensures ws.cells == base + WeightBearingUpTo(n, start + 4)
    ensures ws.fills == old(ws.fills)
  {
    var offset := 0;
    while offset < 4
      invariant 0 <= offset <= 4
      invariant ws.cells == base + WeightBearingUpTo(n, start + offset)
      invariant ws.fills == old(ws.fills)
    {
      var r := start + offset;
      if r <= n + 1 {
        WeightBearingStep(n, start, offset);
        ws.Put(r, ColWeight, Calc(WeightBearing(ColB, r, start, start + 3)));
        UpdateUnion(base, WeightBearingUpTo(n, r), (r, ColWeight), Calc(WeightBearing(ColB, r, start, start + 3)));
      }
      offset := offset + 1;
    }
  }

  /** write_weight_bearing_formulae: one formula per row of each complete cohort. */
  method WriteWeightBearing(ws: Sheet, n: nat)
    modifies ws
    ensures ws.cells == old(ws.cells) + WeightBearingCells(n)
    ensures ws.fills == old(ws.fills)
  {
    var start := 2;
    ghost var group := 0;
    while start < n + 2
      invariant start == 2 + group * 4
      invariant ws.cells == old(ws.cells) + WeightBearingUpTo(n, start)
      invariant ws.fills == old(ws.fills)
    {
      GroupRoles(group);
      if start + 3 <= n + 1 {
        WriteCohortWeightBearing(ws, n, start, old(ws.cells));
      } else {
        WeightBearingIncomplete(n, start);
      }
      start := start + 4;
      group := group + 1;
    }
    WeightBearingSettled(n, start);
  }

  /** Rows past the data add no asymmetry formula. */
  lemma {:induction false} AsymmetrySettled(n: nat, r: nat)
    requires r >= n + 2
    ensures AsymmetryUpTo(n, r) == AsymmetryCells(n)
    decreases r
  {
    if r > n + 2 {
      AsymmetrySettled(n, r - 1);
    }
  }

  /** LF against RF and LH against RH in one cohort, each only when the partner row exists. */
  method WriteCohortAsymmetry(ws: Sheet, n: nat, start: nat, ghost base: map<Addr, Value>)
    requires start >= 2 && Role(start) == 0 && Role(start + 1) == 1 && Role(start + 2) == 2 && Role(start + 3) == 3
    requires ws.cells == base + AsymmetryUpTo(n, start)
    modifies ws
    ensures ws.cells == base + AsymmetryUpTo(n, start + 4)
    ensures ws.fills == old(ws.fills)
  {
    var lf, rf := start, start + 2;
    AsymmetryPair(n, lf);
    if rf <= n + 1 {
      ws.Put(lf, ColAsym, Calc(Asymmetry(ColB, lf, rf)));
      UpdateUnion(base, AsymmetryUpTo(n, lf), (lf, ColAsym), Calc(Asymmetry(ColB, lf, rf)));
    }
    var lh, rh := start + 1, start + 3;
    AsymmetryPair(n, lh);
    if rh <= n + 1 {
      ws.Put(lh, ColAsym, Calc(Asymmetry(ColB, lh, rh)));
      UpdateUnion(base, AsymmetryUpTo(n, lh), (lh, ColAsym), Calc(Asymmetry(ColB, lh, rh)));
    }
    AsymmetryNone(n, start + 2);
    AsymmetryNone(n, start + 3);
  }

  /**
   * write_asymmetry_formulae: LF pairs with RF and LH with RH in every
   * complete cohort; then the trailing partial cohort.
   */
  method WriteAsymmetry(ws: Sheet, n: nat)
    modifies ws
    ensures ws.cells == old(ws.cells) + AsymmetryCells(n)
    ensures ws.fills == old(ws.fills)
  {
    var complete := n / 4;
    var remaining := n % 4;
    assert n == complete * 4 + remaining;
    var group := 0;
    while group < complete
      invariant 0 <= group <= complete
      invariant ws.cells == old(ws.cells) + AsymmetryUpTo(n, 2 + group * 4)
      invariant ws.fills == old(ws.fills)
    {
      GroupRoles(group);
      WriteCohortAsymmetry(ws, n, 2 + group * 4, old(ws.cells));
      group := group + 1;
    }
    GroupRoles(complete);
    WriteTrailingAsymmetry(ws, n, 2 + complete * 4, remaining, old(ws.cells));
  }

  /** The trailing partial cohort: at most LF against RF, since RH needs a fourth row. */
  method WriteTrailingAsymmetry(ws: Sheet, n: nat, start: nat, remaining: nat, ghost base: map<Addr, Value>)
    requires start >= 2 && Role(start) == 0 && Role(start + 1) == 1 && Role(start + 2) == 2
    requires remaining < 4 && start + remaining == n + 2
    requires ws.cells == base + AsymmetryUpTo(n, start)
    modifies ws
    ensures ws.cells == base + AsymmetryCells(n)
    ensures ws.fills == old(ws.fills)
  {
    AsymmetryPair(n, start);
    AsymmetryPair(n, start + 1);
    if remaining > 0 {
      if remaining >= 2 {
        var lf, rf := start, start + 2;
        if rf <= n + 1 {
          ws.Put(lf, ColAsym, Calc(Asymmetry(ColB, lf, rf)));
          UpdateUnion(base, AsymmetryUpTo(n, lf), (lf, ColAsym), Calc(Asymmetry(ColB, lf, rf)));
        }
      }
      if remaining >= 3 {
        var lh, rh := start + 1, start + 3;
        if rh <= n + 1 {
          // at most three rows remain, so the RH partner never exists
          assert false;
        }
      }
    }
    assert ws.cells == base + AsymmetryUpTo(n, start + 2);
    AsymmetryNone(n, start + 2);
    AsymmetrySettled(n, start + 3);
  }

  /** An LF or LH row adds its formula exactly when its partner row exists. */
  lemma AsymmetryPair(n: nat, r: nat)
    requires r >= 2 && Role(r) < 2
    ensures AsymmetryUpTo(n, r + 1) ==
      if r + 2 <= n + 1 then AsymmetryUpTo(n, r)[(r, ColAsym) := Calc(Asymmetry(ColB, r, r + 2))] else AsymmetryUpTo(n, r)
  {
  }

  /** An RF or RH row adds no asymmetry formula. */
  lemma AsymmetryNone(n: nat, r: nat)
    requires r >= 2 && Role(r) >= 2
    ensures AsymmetryUpTo(n, r + 1) == AsymmetryUpTo(n, r)
  {
  }

  /** apply_coloring, with its per-group colour cache. */
  method ApplyColoring(ws: Sheet, n: nat)
    modifies ws
    ensures ws.fills == old(ws.fills) + ColoringFills(n)
    ensures ws.cells == old(ws.cells)
  {
    var cache: map<nat, (Fill, Fill)> := map[];
    for r := 2 to n + 2
      invariant forall g :: g in cache ==> cache[g] == (BrightFill(g), DimFill(g))
      invariant ws.fills == old(ws.fills) + ColoringUpTo(r)
      invariant ws.cells == old(ws.cells)
    {
      var group := (r - 2) / 4 + 1;
      if group !in cache {
        cache := cache[group := (BrightFill(group), DimFill(group))];
      }
      ws.Paint(r, 1, cache[group].0);
      UpdateUnion(old(ws.fills), ColoringUpTo(r), (r, 1), RowFill(r, 1));
      ws.Paint(r, ColWeight, cache[group].1);
      UpdateUnion(old(ws.fills), ColoringUpTo(r)[(r, 1) := RowFill(r, 1)], (r, ColWeight), RowFill(r, ColWeight));
    }
  }

  /** The stride-4 row list one summary formula averages over. */
  method CollectStrideRows(start: nat, n: nat) returns (rows: seq<nat>)
    ensures rows == StrideRows(start, n)
  {
    rows := [];
    var r := start;
    while r < n + 2
      invariant start <= r
      invariant rows + StrideRows(r, n) == StrideRows(start, n)
    {
      if r <= n + 1 {
        rows := rows + [r];
      }
      r := r + 4;
    }
  }

  /** One limb's row of the averages table: its code, then a mean and deviation per metric column. */
  method WriteLimbSummary(ws: Sheet, n: nat, k: nat, row: nat)
    requires k < 4 && row == n + 7 + k
    modifies ws
    ensures ws.cells == old(ws.cells) + LimbRow(n, k, 6)
    ensures ws.fills == old(ws.fills)
  {
    ghost var done := ws.cells;
    ws.Put(row, 1, Text(LimbCodes[k]));
    LimbRowFirst(done, n, k, row);
    for c := 2 to 6
      invariant ws.cells == done + LimbRow(n, k, c)
      invariant ws.fills == old(ws.fills)
    {
      var refs := CollectStrideRows(2 + k, n);
      LimbRowNext(n, k, c);
      if refs != [] {
        ws.Put(row, c, Calc(MeanStdev(MetricColumn(c), refs)));
        UpdateUnion(done, LimbRow(n, k, c), (row, c), Calc(MeanStdev(MetricColumn(c), refs)));
      }
    }
  }

  /**
   * add_summary_averages_table. The source repeats one block for the four
   * metric columns B, C, D and F; here that block is the inner loop.
   */
  method AddSummaryAveragesTable(ws: Sheet, n: nat)
    modifies ws
    ensures ws.cells == old(ws.cells) + SummaryCells(n)
    ensures ws.fills == old(ws.fills)
  {
    var gap := n + 4;
    ws.Put(gap, 1, Text(SummaryTitle));
    UpdateAsUnion(old(ws.cells), (gap, 1), Text(SummaryTitle));
    var top := gap + 2;
    for c := 1 to 6
      invariant ws.cells == old(ws.cells) + SummaryHeaderRow(n, c)
      invariant ws.fills == old(ws.fills)
    {
      ws.Put(top, c, Text(SummaryHeaders[c - 1]));
      UpdateUnion(old(ws.cells), SummaryHeaderRow(n, c), (top, c), Text(SummaryHeaders[c - 1]));
      SummaryHeaderNext(n, c);
    }
    ghost var m := old(ws.cells) + SummaryHeaderRow(n, 6);
    var row := top + 1;
    for k := 0 to 4
      invariant row == n + 7 + k
      invariant ws.cells == m + LimbRows(n, k)
      invariant ws.fills == old(ws.fills)
    {
      WriteLimbSummary(ws, n, k, row);
      UnionAssoc(m, LimbRows(n, k), LimbRow(n, k, 6));
      row := row + 1;
    }
    UnionAssoc(old(ws.cells), SummaryHeaderRow(n, 6), LimbRows(n, 4));
  }

  /** add_forelimb_hindlimb_summary */
  method AddForelimbHindlimbSummary(ws: Sheet, n: nat)
    modifies ws
    ensures ws.cells == old(ws.cells) + SymmetryCells(n)
    ensures ws.fills == old(ws.fills)
  {
    ghost var built: map<Addr, Value> := map[];
    assert ws.cells == old(ws.cells) + built;
    var gap := n + 4 + 2 + 4;
    var top := gap + 1;
    ws.Put(top, 1, Text(""));
    UpdateUnion(old(ws.cells), built, (top, 1), Text(""));
    built := built[(top, 1) := Text("")];
    ws.Put(top, 2, Text(SymmetryHeader));
    UpdateUnion(old(ws.cells), built, (top, 2), Text(SymmetryHeader));
    built := built[(top, 2) := Text(SymmetryHeader)];
    var forelimbRow := top + 1;
    ws.Put(forelimbRow, 1, Text("Forelimb"));
    UpdateUnion(old(ws.cells), built, (forelimbRow, 1), Text("Forelimb"));
    built := built[(forelimbRow, 1) := Text("Forelimb")];
    var forelimbRange := CollectStrideRows(2, n);
    var forelimb := if forelimbRange != [] then Calc(MeanStdev(ColAsym, forelimbRange)) else Text(EmptyFormulaText);
    ws.Put(forelimbRow, 2, forelimb);
    UpdateUnion(old(ws.cells), built, (forelimbRow, 2), forelimb);
    built := built[(forelimbRow, 2) := forelimb];
    var hindlimbRow := top + 2;
    ws.Put(hindlimbRow, 1, Text("Hindlimb"));
    UpdateUnion(old(ws.cells), built, (hindlimbRow, 1), Text("Hindlimb"));
    built := built[(hindlimbRow, 1) := Text("Hindlimb")];
    var hindlimbRange := CollectStrideRows(3, n);
    var hindlimb := if hindlimbRange != [] then Calc(MeanStdev(ColAsym, hindlimbRange)) else Text(EmptyFormulaText);
    ws.Put(hindlimbRow, 2, hindlimb);
    UpdateUnion(old(ws.cells), built, (hindlimbRow, 2), hindlimb);
    built := built[(hindlimbRow, 2) := hindlimb];
    assert built == SymmetryCells(n);
  }

  /** process_sheet2_data: clean the raw table, write it, then run every writer in order. */
  method ProcessSheet2(ws: Sheet, raw: RawTable) returns (n: nat)
    modifies ws
    ensures n == |Clean(raw).rows|
    ensures ws.cells == old(ws.cells) + Sheet2Layout(Clean(raw))
    ensures ws.fills == old(ws.fills) + ColoringFills(n)
  {
    var t := Clean(raw);
    n := |t.rows|;
    WriteTable(ws, t);
    AddAdditionalColumns(ws, n);
    WriteWeightBearing(ws, n);
    WriteAsymmetry(ws, n);
    ApplyColoring(ws, n);
    AddSummaryAveragesTable(ws, n);
    AddForelimbHindlimbSummary(ws, n);
    ghost var o := old(ws.cells);
    UnionAssoc(o, TableCells(t), ExtraColumnCells(n));
    UnionAssoc(o, TableCells(t) + ExtraColumnCells(n), WeightBearingCells(n));
    UnionAssoc(o, TableCells(t) + ExtraColumnCells(n) + WeightBearingCells(n), AsymmetryCells(n));
    UnionAssoc(o, TableCells(t) + ExtraColumnCells(n) + WeightBearingCells(n) + AsymmetryCells(n), SummaryCells(n));
    UnionAssoc(o, TableCells(t) + ExtraColumnCells(n) + WeightBearingCells(n) + AsymmetryCells(n) + SummaryCells(n), SymmetryCells(n));
  }
}
