/**
 * process_excel_report: Sheet2 is built first from the raw trials, then
 * Sheet1 is written with references to Sheet2's summary rows at
 * summary_start_row = N + 6 and forelimb_start_row = N + 10, N being the
 * number of cleaned data rows. The lemmas here show the two sheets agree:
 * every reference Sheet1 makes lands on the Sheet2 cell that holds what it
 * claims to show.
 */
module Report {
  import opened Wrappers
  import opened Formulas
  import opened Grid
  import opened Cleaner
  import opened DataSheet
  import opened Age
  import opened Dashboard

  /** summary_start_row: the Sheet2 header row of the per-limb table. */
  function SummaryStartRow(n: nat): nat
  {
    n + 6
  }

  /** forelimb_start_row: two rows above the Forelimb symmetry row. */
  function ForelimbStartRow(n: nat): nat
  {
    n + 10
  }

  /**
   * The workbook: Sheet2 from the raw table, then Sheet1 from the visits row
   * and the manual data. `ok` is false exactly when the dashboard writer
   * would stop with an error (no manual data, or the diagram image missing);
   * Sheet2 is complete either way.
   */
  method ProcessExcelReport(raw: RawTable, visits: Option<VisitRow>, manual: Option<ManualData>,
                            imageLoaded: bool, today: Date) returns (ws1: Sheet, ws2: Sheet, ok: bool)
    requires IsValidDate(today)
    ensures fresh(ws1) && fresh(ws2) && ws1 != ws2
    ensures ws2.cells == Sheet2Layout(Clean(raw)) && ws2.fills == ColoringFills(|Clean(raw).rows|)
    ensures ok <==> HasManual(manual) && imageLoaded
    ensures ok ==>
      ws1.cells == Sheet1Cells(PatientValues(visits, manual, today).value,
                               SummaryStartRow(|Clean(raw).rows|), ForelimbStartRow(|Clean(raw).rows|), today) &&
      ws1.fills == Sheet1Fills()
  {
    ws2 := new Sheet();
    var n := ProcessSheet2(ws2, raw);
    ws1 := new Sheet();
    ok := ProcessSheet1Data(ws1, visits, SummaryStartRow(n), ForelimbStartRow(n), manual, imageLoaded, today);
    EmptyUnion(Sheet2Layout(Clean(raw)));
    EmptyUnion(ColoringFills(n));
    if ok {
      EmptyUnion(Sheet1Cells(PatientValues(visits, manual, today).value, SummaryStartRow(n), ForelimbStartRow(n), today));
      EmptyUnion(Sheet1Fills());
    }
  }

  // ----- Cross-sheet agreement -----

  /** The dashboard and Sheet2 name the limbs with the same codes. */
  lemma LimbCodesAgree(i: nat)
    requires i < |Limbs|
    ensures 1 <= Limbs[i].offset <= 4
    ensures Limbs[i].code == LimbCodes[Limbs[i].offset - 1]
  {
  }

  /** The four limbs take the four summary rows, one each. */
  lemma LimbOffsetsDistinct(i: nat, j: nat)
    requires i < |Limbs| && j < |Limbs|
    ensures Limbs[i].offset == Limbs[j].offset <==> i == j
  {
  }

  /** Row i of the dashboard's limb table: the limb's name, then references to columns B..E of its Sheet2 row. */
  lemma LimbReference(values: seq<string>, n: nat, today: Date, i: nat, c: nat)
    requires |values| == |PatientLabels| && IsValidDate(today)
    requires i < |Limbs| && 2 <= c <= 5
    ensures DashboardCell(values, SummaryStartRow(n), ForelimbStartRow(n), today, TableStart + 2 + i, 1) == Some(Text(Limbs[i].name))
    ensures DashboardCell(values, SummaryStartRow(n), ForelimbStartRow(n), today, TableStart + 2 + i, c) ==
      Some(Calc(Ref(Sheet2, c, SummaryStartRow(n) + Limbs[i].offset)))
  {
  }

  /**
   * The Sheet2 row a limb's references land on holds the limb's code in
   * column A; column c holds the mean ± stdev of metric c over exactly the
   * rows of that limb, and is written exactly when the limb has a row.
   */
  lemma LimbSummaryRow(t: CleanTable, i: nat, c: nat)
    requires i < |Limbs| && 2 <= c <= 5
    ensures var n := |t.rows|;
      var target := SummaryStartRow(n) + Limbs[i].offset;
      var k := Limbs[i].offset - 1;
      LayoutCell(t, target, 1) == Some(Text(Limbs[i].code)) &&
      (LayoutCell(t, target, c).Some? <==> n > k) &&
      (n > k ==> LayoutCell(t, target, c) == Some(Calc(MeanStdev(MetricColumn(c), StrideRows(2 + k, n)))))
  {
    LimbCodesAgree(i);
    Sheet2LimbSummary(t, Limbs[i].offset - 1, c);
  }

  /** The rows a limb's summary averages are exactly the data rows of that limb's position in a cohort. */
  lemma LimbRowsAgree(t: CleanTable, i: nat, x: nat)
    requires i < |Limbs|
    ensures x in StrideRows(2 + Limbs[i].offset - 1, |t.rows|) <==>
      2 <= x <= |t.rows| + 1 && Role(x) == Limbs[i].offset - 1
  {
    LimbRowList(|t.rows|, Limbs[i].offset - 1, x);
  }

  /** Each limb's diagram cell refers to the weight-bearing column E of its summary row. */
  lemma DiagramReference(values: seq<string>, n: nat, today: Date, i: nat)
    requires |values| == |PatientLabels| && IsValidDate(today)
    requires i < |Limbs|
    ensures DashboardCell(values, SummaryStartRow(n), ForelimbStartRow(n), today, Limbs[i].diagramRow, Limbs[i].diagramCol) ==
      Some(Calc(Ref(Sheet2, 5, SummaryStartRow(n) + Limbs[i].offset)))
  {
  }

  /** The two symmetry-index cells of the dashboard refer to column B of Sheet2 rows N+12 and N+13, next to matching labels. */
  lemma SymmetryReferences(values: seq<string>, n: nat, today: Date)
    requires |values| == |PatientLabels| && IsValidDate(today)
    ensures var s := SummaryStartRow(n);
      var f := ForelimbStartRow(n);
      DashboardCell(values, s, f, today, SymmetryStart + 1, 3) == Some(Text("Forelimb")) &&
      DashboardCell(values, s, f, today, SymmetryStart + 1, 4) == Some(Calc(Ref(Sheet2, 2, n + 12))) &&
      DashboardCell(values, s, f, today, SymmetryStart + 2, 3) == Some(Text("Hindlimb")) &&
      DashboardCell(values, s, f, today, SymmetryStart + 2, 4) == Some(Calc(Ref(Sheet2, 2, n + 13)))
  {
  }

  /** The dashboard as written holds, in limb row i and column c, a reference to column c of that limb's summary row. */
  lemma WrittenLimbReference(values: seq<string>, n: nat, today: Date, i: nat, c: nat)
    requires |values| == |PatientLabels| && IsValidDate(today)
    requires i < |Limbs| && 2 <= c <= 5
    ensures var sheet1 := Sheet1Cells(values, SummaryStartRow(n), ForelimbStartRow(n), today);
      (TableStart + 2 + i, c) in sheet1 &&
      sheet1[(TableStart + 2 + i, c)] == Calc(Ref(Sheet2, c, SummaryStartRow(n) + Limbs[i].offset))
  {
    LimbReference(values, n, today, i, c);
    Sheet1Lookup(values, SummaryStartRow(n), ForelimbStartRow(n), today, (TableStart + 2 + i, c));
  }

  lemma WrittenCell(t: CleanTable, a: Addr, v: Value)
    requires LayoutCell(t, a.0, a.1) == Some(v)
    ensures a in Sheet2Layout(t) && Sheet2Layout(t)[a] == v
  {
    Sheet2Lookup(t, a);
  }

  lemma UnwrittenCell(t: CleanTable, a: Addr)
    requires LayoutCell(t, a.0, a.1) == None
    ensures a !in Sheet2Layout(t)
  {
    Sheet2Lookup(t, a);
  }

  /** Sheet2 as written holds limb code k in column A of summary row N+7+k. */
  lemma WrittenLimbCode(t: CleanTable, k: nat)
    requires k < 4
    ensures (|t.rows| + 7 + k, 1) in Sheet2Layout(t)
    ensures Sheet2Layout(t)[(|t.rows| + 7 + k, 1)] == Text(LimbCodes[k])
  {
    Sheet2LimbSummary(t, k, 2);
    WrittenCell(t, (|t.rows| + 7 + k, 1), Text(LimbCodes[k]));
  }

  /** Sheet2 as written holds a value in column c of summary row N+7+k exactly when limb k has a row. */
  lemma WrittenLimbSummary(t: CleanTable, k: nat, c: nat)
    requires k < 4 && 2 <= c <= 5
    ensures (|t.rows| + 7 + k, c) in Sheet2Layout(t) <==> |t.rows| > k
  {
    Sheet2LimbSummary(t, k, c);
    if |t.rows| > k {
      WrittenCell(t, (|t.rows| + 7 + k, c), Calc(MeanStdev(MetricColumn(c), StrideRows(2 + k, |t.rows|))));
    } else {
      UnwrittenCell(t, (|t.rows| + 7 + k, c));
    }
  }

  /** Sheet2 as written: the Forelimb and Hindlimb rows N+12 and N+13 with their symmetry values in column B. */
  lemma WrittenSymmetryRows(t: CleanTable)
    ensures (|t.rows| + 12, 1) in Sheet2Layout(t) && Sheet2Layout(t)[(|t.rows| + 12, 1)] == Text("Forelimb")
    ensures (|t.rows| + 12, 2) in Sheet2Layout(t) && Sheet2Layout(t)[(|t.rows| + 12, 2)] == SymmetryValue(StrideRows(2, |t.rows|))
    ensures (|t.rows| + 13, 1) in Sheet2Layout(t) && Sheet2Layout(t)[(|t.rows| + 13, 1)] == Text("Hindlimb")
    ensures (|t.rows| + 13, 2) in Sheet2Layout(t) && Sheet2Layout(t)[(|t.rows| + 13, 2)] == SymmetryValue(StrideRows(3, |t.rows|))
  {
    var n := |t.rows|;
    Sheet2Symmetry(t);
    WrittenCell(t, (n + 12, 1), Text("Forelimb"));
    WrittenCell(t, (n + 12, 2), SymmetryValue(StrideRows(2, n)));
    WrittenCell(t, (n + 13, 1), Text("Hindlimb"));
    WrittenCell(t, (n + 13, 2), SymmetryValue(StrideRows(3, n)));
  }

  /** The dashboard as written: its two symmetry-index cells refer to column B of Sheet2 rows N+12 and N+13. */
  lemma WrittenSymmetryReferences(values: seq<string>, n: nat, today: Date)
    requires |values| == |PatientLabels| && IsValidDate(today)
    ensures var sheet1 := Sheet1Cells(values, SummaryStartRow(n), ForelimbStartRow(n), today);
      (SymmetryStart + 1, 4) in sheet1 && sheet1[(SymmetryStart + 1, 4)] == Calc(Ref(Sheet2, 2, n + 12)) &&
      (SymmetryStart + 2, 4) in sheet1 && sheet1[(SymmetryStart + 2, 4)] == Calc(Ref(Sheet2, 2, n + 13))
  {
    SymmetryReferences(values, n, today);
    Sheet1Lookup(values, SummaryStartRow(n), ForelimbStartRow(n), today, (SymmetryStart + 1, 4));
    Sheet1Lookup(values, SummaryStartRow(n), ForelimbStartRow(n), today, (SymmetryStart + 2, 4));
  }

  /** The dashboard as written: each limb's diagram cell refers to column E of that limb's summary row. */
  lemma WrittenDiagramReference(values: seq<string>, n: nat, today: Date, i: nat)
    requires |values| == |PatientLabels| && IsValidDate(today)
    requires i < |Limbs|
    ensures var sheet1 := Sheet1Cells(values, SummaryStartRow(n), ForelimbStartRow(n), today);
      (Limbs[i].diagramRow, Limbs[i].diagramCol) in sheet1 &&
      sheet1[(Limbs[i].diagramRow, Limbs[i].diagramCol)] == Calc(Ref(Sheet2, 5, SummaryStartRow(n) + Limbs[i].offset))
  {
    DiagramReference(values, n, today, i);
    Sheet1Lookup(values, SummaryStartRow(n), ForelimbStartRow(n), today, (Limbs[i].diagramRow, Limbs[i].diagramCol));
  }
}
