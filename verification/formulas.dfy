/**
 * The live formulas the report writes, as syntax, and the meaning of the
 * two per-row formulas over exact reals.
 */
module Formulas {

  datatype SheetName = Sheet1 | Sheet2

  /** Cell references are (column, row) with 1-based column numbers: B = 2, G = 7. */
  datatype Formula =
      /** IFERROR(IF(SUM(c<first>:c<last>)=0, 0, ROUND((c<row>/SUM(c<first>:c<last>))*100, 0)), "") */
    | WeightBearing(col: nat, row: nat, first: nat, last: nat)
      /** IFERROR(IF(AVERAGE(c<row>,c<partner>)=0, 0, ABS((c<row>-c<partner>))/AVERAGE(c<row>,c<partner>)), "") */
    | Asymmetry(col: nat, row: nat, partner: nat)
      /** ROUNDDOWN(AVERAGE(refs),2)&"±"&ROUNDDOWN(STDEV(refs),2), refs being c<r> for r in rows */
    | MeanStdev(col: nat, rows: seq<nat>)
      /** =<sheet>!c<row> */
    | Ref(sheet: SheetName, col: nat, row: nat)

  /** The numbers a column holds, by row; a blank cell reads as 0. */
  type Column = nat -> real

  function SumFrom(v: Column, first: nat, count: nat): real
    decreases count
  {
    if count == 0 then 0.0 else v(first) + SumFrom(v, first + 1, count - 1)
  }

  /** SUM over the range c<first>:c<last>; a range given backwards covers the same cells. */
  function RangeSum(v: Column, first: nat, last: nat): real
  {
    if first <= last then SumFrom(v, first, last - first + 1) else SumFrom(v, last, first - last + 1)
  }

  /** ROUND(x, 0): nearest integer, halves away from zero. */
  function Round(x: real): (r: int)
    ensures r as real - x <= 0.5 && x - r as real <= 0.5
    ensures x >= 0.0 ==> x - r as real < 0.5
    ensures x < 0.0 ==> r as real - x < 0.5
  {
    if x >= 0.0 then (x + 0.5).Floor else -((-x + 0.5).Floor)
  }

  function Abs(x: real): (r: real)
    ensures r >= 0.0 && (r == x || r == -x)
  {
    if x < 0.0 then -x else x
  }

  /** The value of WeightBearing(_, row, first, last) when the column holds `v`. */
  function EvalWeightBearing(v: Column, row: nat, first: nat, last: nat): int
  {
    var total := RangeSum(v, first, last);
    if total == 0.0 then 0 else Round(v(row) / total * 100.0)
  }

  /** The value of Asymmetry(_, row, partner) when the column holds `v`. */
  function EvalAsymmetry(v: Column, row: nat, partner: nat): real
  {
    var average := (v(row) + v(partner)) / 2.0;
    if average == 0.0 then 0.0 else Abs(v(row) - v(partner)) / average
  }

  lemma {:induction false} SumFromHolds(v: Column, first: nat, count: nat, row: nat)
    requires first <= row < first + count
    requires forall r :: first <= r < first + count ==> v(r) >= 0.0
    ensures 0.0 <= v(row) <= SumFrom(v, first, count)
    decreases count
  {
    if row > first {
      SumFromHolds(v, first + 1, count - 1, row);
    }
    SumFromNonNegative(v, first + 1, count - 1);
  }

  lemma {:induction false} SumFromNonNegative(v: Column, first: nat, count: nat)
    requires forall r :: first <= r < first + count ==> v(r) >= 0.0
    ensures SumFrom(v, first, count) >= 0.0
    decreases count
  {
    if count > 0 {
      SumFromNonNegative(v, first + 1, count - 1);
    }
  }

  /** With non-negative values a row's weight-bearing share is a whole percentage in 0..100. */
  lemma WeightBearingIsPercentage(v: Column, row: nat, first: nat, last: nat)
    requires first <= row <= last
    requires forall r :: first <= r <= last ==> v(r) >= 0.0
    ensures 0 <= EvalWeightBearing(v, row, first, last) <= 100
  {
    SumFromHolds(v, first, last - first + 1, row);
    var total := RangeSum(v, first, last);
    if total != 0.0 {
      assert v(row) / total <= 1.0;
    }
  }

  /** A cohort of 10, 20, 30, 40 gives exactly 10, 20, 30, 40; an all-zero cohort gives zeros. */
  lemma WeightBearingExamples()
    ensures var v: Column := r => if r == 2 then 10.0 else if r == 3 then 20.0 else if r == 4 then 30.0 else if r == 5 then 40.0 else 0.0;
      EvalWeightBearing(v, 2, 2, 5) == 10 && EvalWeightBearing(v, 3, 2, 5) == 20 &&
      EvalWeightBearing(v, 4, 2, 5) == 30 && EvalWeightBearing(v, 5, 2, 5) == 40
    ensures var z: Column := _ => 0.0;
      EvalWeightBearing(z, 2, 2, 5) == 0 && EvalWeightBearing(z, 5, 2, 5) == 0
  {
    var v: Column := r => if r == 2 then 10.0 else if r == 3 then 20.0 else if r == 4 then 30.0 else if r == 5 then 40.0 else 0.0;
    assert RangeSum(v, 2, 5) == 100.0;
    var z: Column := _ => 0.0;
    assert RangeSum(z, 2, 5) == 0.0;
  }

  /**
   * The asymmetry index does not depend on which of the pair comes first,
   * is zero exactly when the pair is equal (given a non-zero average), and
   * lies in 0..2 for non-negative values.
   */
  lemma AsymmetryProperties(v: Column, row: nat, partner: nat)
    ensures EvalAsymmetry(v, row, partner) == EvalAsymmetry(v, partner, row)
    ensures v(row) + v(partner) != 0.0 ==> (EvalAsymmetry(v, row, partner) == 0.0 <==> v(row) == v(partner))
    ensures v(row) >= 0.0 && v(partner) >= 0.0 ==> 0.0 <= EvalAsymmetry(v, row, partner) <= 2.0
  {
    var a, b := v(row), v(partner);
    assert Abs(a - b) == Abs(b - a);
    if a >= 0.0 && b >= 0.0 && a + b != 0.0 {
      var average := (a + b) / 2.0;
      assert Abs(a - b) <= a + b;
      QuotientAtMostTwo(Abs(a - b), average);
    }
  }

  lemma QuotientAtMostTwo(x: real, y: real)
    requires y > 0.0 && 0.0 <= x <= 2.0 * y
    ensures 0.0 <= x / y <= 2.0
  {
    assert x == (x / y) * y;
  }

  lemma AsymmetryExamples()
    ensures EvalAsymmetry(r => 10.0, 2, 4) == 0.0
    ensures EvalAsymmetry(r => if r == 2 then 10.0 else 30.0, 2, 4) == 1.0
  {
  }
}
