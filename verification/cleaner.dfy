/**
 * The data cleaner (`process_original_excel_data`): it turns the raw
 * FILES_DAT rows into the record list that Sheet2 lays out.
 */
module Cleaner {
  import opened Wrappers
  import opened Strings
  import Labels

  /** One raw spreadsheet value: missing (NaN/None), text, or a number with the text str() gives it. */
  datatype Raw = Blank | Str(s: string) | Num(x: real, shown: string)

  /** A raw row maps column names to values; a name it lacks reads as Blank. */
  type RawRow = map<string, Raw>

  datatype RawTable = RawTable(columns: seq<string>, rows: seq<RawRow>)

  /** The four columns the cleaner keeps, under their short names. */
  datatype Field = DataSource | MaxForce | Impulse | ContactTime

  /** One cleaned trial; a metric whose column is absent holds 0 and is not laid out. */
  datatype Trial = Trial(source: string, force: real, impulse: real, contact: real)

  /** The cleaned table: its columns in layout order and its rows. */
  datatype CleanTable = CleanTable(fields: seq<Field>, rows: seq<Trial>)

  const ShortNameColumn: string := "File short name"
  const RawDataSuffix: string := ".dat"

  /** The order of the column mapping, which is the order of the kept columns. */
  const MappingOrder: seq<Field> := [DataSource, MaxForce, Impulse, ContactTime]

  /** The long input names of the kept columns. */
  const CommentColumn: string := "File comment"
  const MaxForceColumn: string := "Maximum force (normalized to BW) /Total object/ [%BW]"
  const ImpulseColumn: string := "Force-time integral (normalized to BW) /Total object/ [%BW*s]"
  const ContactTimeColumn: string := "Contact time/TO [ms]"

  /** The short names they are renamed to. */
  const SourceHeader: string := "Data Source"
  const ForceHeader: string := "Maximum force [%BW]"
  const ImpulseHeader: string := "Force-time integral [%BW*s]"
  const ContactHeader: string := "Contact time/TO [ms]"

  /** The long input name of each kept column. */
  function SourceColumn(f: Field): string
  {
    match f
    case DataSource => CommentColumn
    case MaxForce => MaxForceColumn
    case Impulse => ImpulseColumn
    case ContactTime => ContactTimeColumn
  }

  /** The short name each kept column is renamed to. */
  function Header(f: Field): string
  {
    match f
    case DataSource => SourceHeader
    case MaxForce => ForceHeader
    case Impulse => ImpulseHeader
    case ContactTime => ContactHeader
  }

  function Cell(columns: seq<string>, row: RawRow, column: string): Raw
  {
    if column in columns && column in row then row[column] else Blank
  }

  /** A row for a raw-data file: its short name is text ending in ".dat". */
  predicate IsRawDataRow(columns: seq<string>, row: RawRow)
  {
    var v := Cell(columns, row, ShortNameColumn);
    v.Str? && EndsWith(v.s, RawDataSuffix)
  }

  function DropRawDataRows(columns: seq<string>, rows: seq<RawRow>): (r: seq<RawRow>)
    ensures forall x :: x in r ==> x in rows && !IsRawDataRow(columns, x)
    ensures forall x :: x in rows && !IsRawDataRow(columns, x) ==> x in r
  {
    if rows == [] then []
    else
      var rest := DropRawDataRows(columns, rows[1..]);
      if IsRawDataRow(columns, rows[0]) then rest else [rows[0]] + rest
  }

  lemma {:induction false} DropRawDataRowsAppend(columns: seq<string>, a: seq<RawRow>, b: seq<RawRow>)
    ensures DropRawDataRows(columns, a + b) == DropRawDataRows(columns, a) + DropRawDataRows(columns, b)
    decreases |a|
  {
    if a == [] {
      assert a + b == b;
    } else {
      assert (a + b)[1..] == a[1..] + b;
      DropRawDataRowsAppend(columns, a[1..], b);
    }
  }

  /** The mapped columns present in the input, in mapping order. */
  function AvailableFields(columns: seq<string>): (r: seq<Field>)
    ensures forall f :: f in r <==> SourceColumn(f) in columns
  {
    (if SourceColumn(DataSource) in columns then [DataSource] else []) +
    (if SourceColumn(MaxForce) in columns then [MaxForce] else []) +
    (if SourceColumn(Impulse) in columns then [Impulse] else []) +
    (if SourceColumn(ContactTime) in columns then [ContactTime] else [])
  }

  /** A kept "Data Source" column stays first; a generated one is appended last. */
  function OutputFields(present: seq<Field>): seq<Field>
  {
    if DataSource in present then present else present + [DataSource]
  }

  predicate HasMetric(fields: seq<Field>)
  {
    exists i :: 0 <= i < |fields| && fields[i] != DataSource
  }

  /** pd.to_numeric on one text value: optional sign and decimal digits with at most one point. */
  function ParseNumber(s: string): Option<real>
  {
    var t := Strip(s);
    if t == [] then None
    else
      var negative := t[0] == '-';
      var body := if t[0] == '-' || t[0] == '+' then t[1..] else t;
      var parts := Split(body, '.');
      if |parts| == 1 && parts[0] != [] && AllDigits(parts[0]) then
        var v := DigitsValue(parts[0]) as real;
        Some(if negative then -v else v)
      else if |parts| == 2 && |parts[0]| + |parts[1]| > 0 && AllDigits(parts[0]) && AllDigits(parts[1]) then
        var v := DigitsValue(parts[0]) as real + DigitsValue(parts[1]) as real / Pow10(|parts[1]|) as real;
        Some(if negative then -v else v)
      else None
  }

  /** Numeric coercion with errors='coerce' followed by fillna(0). */
  function Coerce(v: Raw): real
  {
    match v
    case Blank => 0.0
    case Num(x, _) => x
    case Str(s) => match ParseNumber(s) case Some(x) => x case None => 0.0
  }

  function Metric(columns: seq<string>, present: seq<Field>, row: RawRow, f: Field): real
  {
    if f in present then Coerce(Cell(columns, row, SourceColumn(f))) else 0.0
  }

  /** The label of a "File comment" value: rewritten text, or "Unknown" for a missing one. */
  function LabelOf(v: Raw): string
  {
    match v
    case Blank => "Unknown"
    case Str(s) => Labels.Rewrite(s)
    case Num(_, shown) => Labels.Rewrite(shown)
  }

  /** The label of the `i`-th row left after the raw-data filter. */
  function SourceLabel(columns: seq<string>, present: seq<Field>, row: RawRow, i: nat): string
  {
    if DataSource in present then LabelOf(Cell(columns, row, SourceColumn(DataSource)))
    else "Data_" + NatToString(i + 1)
  }

  function ToTrial(columns: seq<string>, present: seq<Field>, row: RawRow, i: nat): Trial
  {
    Trial(SourceLabel(columns, present, row, i),
          Metric(columns, present, row, MaxForce),
          Metric(columns, present, row, Impulse),
          Metric(columns, present, row, ContactTime))
  }

  function Normalize(columns: seq<string>, present: seq<Field>, kept: seq<RawRow>): (r: seq<Trial>)
    ensures |r| == |kept|
  {
    seq(|kept|, i requires 0 <= i < |kept| => ToTrial(columns, present, kept[i], i))
  }

  predicate IsEmptyTrial(tr: Trial)
  {
    tr.force == 0.0 && tr.impulse == 0.0 && tr.contact == 0.0
  }

  function DropEmptyTrials(trials: seq<Trial>): (r: seq<Trial>)
    ensures forall x :: x in r ==> x in trials && !IsEmptyTrial(x)
    ensures forall x :: x in trials && !IsEmptyTrial(x) ==> x in r
  {
    if trials == [] then []
    else
      var rest := DropEmptyTrials(trials[1..]);
      if IsEmptyTrial(trials[0]) then rest else [trials[0]] + rest
  }

  /** The fixed 4-row cohort used when nothing usable is left. */
  function Placeholder(): CleanTable
  {
    CleanTable(MappingOrder,
      [Trial("LF_1", 0.0, 0.0, 0.0), Trial("LH_1", 0.0, 0.0, 0.0),
       Trial("RF_1", 0.0, 0.0, 0.0), Trial("RH_1", 0.0, 0.0, 0.0)])
  }

  /** The cleaning steps after the raw-data filter, applied to the rows that filter kept. */
  function CleanKept(columns: seq<string>, kept: seq<RawRow>): (r: CleanTable)
    ensures DataSource in r.fields && |r.fields| <= 4
    ensures r.rows == [] ==> r.fields == [DataSource]
    ensures r == Placeholder() || !HasMetric(r.fields) || forall i :: 0 <= i < |r.rows| ==> !IsEmptyTrial(r.rows[i])
  {
    var present := AvailableFields(columns);
    if present == [] then Placeholder()
    else
      var trials := Normalize(columns, present, kept);
      var fields := OutputFields(present);
      if HasMetric(present) then
        var nonEmpty := DropEmptyTrials(trials);
        if nonEmpty == [] then Placeholder() else CleanTable(fields, nonEmpty)
      else
        assert MaxForce !in present && Impulse !in present && ContactTime !in present;
        assert present == [DataSource];
        CleanTable(fields, trials)
  }

  /** The rows left after the raw-data filter, normalised and numbered in that order. */
  function Normalized(t: RawTable): seq<Trial>
  {
    Normalize(t.columns, AvailableFields(t.columns), DropRawDataRows(t.columns, t.rows))
  }

  /**
   * process_original_excel_data. The one error the cleaner meets is that no
   * mapped column exists; it, like an all-zero result, yields the placeholder.
   */
  function Clean(t: RawTable): (r: CleanTable)
    ensures DataSource in r.fields && |r.fields| <= 4
    ensures r.rows == [] ==> r.fields == [DataSource]
    ensures r == Placeholder() || !HasMetric(r.fields) || forall i :: 0 <= i < |r.rows| ==> !IsEmptyTrial(r.rows[i])
  {
    CleanKept(t.columns, DropRawDataRows(t.columns, t.rows))
  }

  /** With the comment and force columns present, the table's second column is the maximum force. */
  lemma CleanForceSecond(t: RawTable)
    requires SourceColumn(DataSource) in t.columns && SourceColumn(MaxForce) in t.columns
    ensures |Clean(t).fields| >= 2 && Clean(t).fields[0] == DataSource && Clean(t).fields[1] == MaxForce
  {
    var present := AvailableFields(t.columns);
    assert present[0] == DataSource && present[1] == MaxForce;
    assert HasMetric(present) by { assert present[1] != DataSource; }
  }

  lemma {:induction false} DropEmptyTrialsNone(trials: seq<Trial>)
    ensures DropEmptyTrials(trials) == [] <==> forall x :: x in trials ==> IsEmptyTrial(x)
    decreases |trials|
  {
    if trials != [] {
      DropEmptyTrialsNone(trials[1..]);
      assert forall x :: x in trials <==> x == trials[0] || x in trials[1..];
    }
  }

  lemma {:induction false} DropEmptyTrialsAll(trials: seq<Trial>)
    requires forall x :: x in trials ==> !IsEmptyTrial(x)
    ensures DropEmptyTrials(trials) == trials
    decreases |trials|
  {
    if trials != [] {
      DropEmptyTrialsAll(trials[1..]);
      assert [trials[0]] + trials[1..] == trials;
    }
  }

  /** Inserting a raw-data row anywhere in the input does not change the cleaned table. */
  lemma CleanIgnoresRawDataRows(t: RawTable, i: nat, row: RawRow)
    requires i <= |t.rows|
    requires IsRawDataRow(t.columns, row)
    ensures Clean(t.(rows := t.rows[..i] + [row] + t.rows[i..])) == Clean(t)
  {
    var a, b := t.rows[..i], t.rows[i..];
    assert a + b == t.rows;
    DropRawDataRowsInsert(t.columns, a, b, row);
    CleanOfKept(t, t.(rows := a + [row] + b));
  }

  /** The raw-data filter removes an inserted raw-data row. */
  lemma DropRawDataRowsInsert(columns: seq<string>, a: seq<RawRow>, b: seq<RawRow>, row: RawRow)
    requires IsRawDataRow(columns, row)
    ensures DropRawDataRows(columns, a + [row] + b) == DropRawDataRows(columns, a + b)
  {
    DropRawDataRowsAppend(columns, a + [row], b);
    DropRawDataRowsAppend(columns, a, [row]);
    DropRawDataRowsAppend(columns, a, b);
    assert DropRawDataRows(columns, [row]) == [];
    assert DropRawDataRows(columns, a) + [] == DropRawDataRows(columns, a);
  }

  /** The cleaned table depends on the input only through its columns and the rows the raw-data filter keeps. */
  lemma CleanOfKept(t: RawTable, t': RawTable)
    requires t'.columns == t.columns
    requires DropRawDataRows(t.columns, t'.rows) == DropRawDataRows(t.columns, t.rows)
    ensures Clean(t') == Clean(t)
  {
  }

  /**
   * The placeholder comes out exactly when no mapped column exists, or when
   * metric columns exist and every trial left after the raw-data filter is all zero.
   */
  lemma CleanPlaceholderExactly(t: RawTable)
    ensures Clean(t) == Placeholder() <==>
      AvailableFields(t.columns) == [] ||
      (HasMetric(AvailableFields(t.columns)) && forall x :: x in Normalized(t) ==> IsEmptyTrial(x))
  {
    var present := AvailableFields(t.columns);
    if present != [] {
      var trials := Normalized(t);
      if HasMetric(present) {
        DropEmptyTrialsNone(trials);
        var kept := DropEmptyTrials(trials);
        if kept != [] {
          assert kept[0] in trials && !IsEmptyTrial(kept[0]);
          assert IsEmptyTrial(Placeholder().rows[0]);
        }
      } else {
        assert MaxForce !in present;
        assert OutputFields(present) != MappingOrder;
      }
    }
  }

  /**
   * Every cleaned row other than the placeholder's comes from an input row
   * that is not a raw-data row: its metrics are that row's coerced values
   * (0 for an absent column), and its label is that row's rewritten comment
   * when the comment column exists.
   */
  lemma CleanRowsFromInput(t: RawTable, j: nat)
    requires Clean(t) != Placeholder() && j < |Clean(t).rows|
    ensures exists k :: (0 <= k < |t.rows| && !IsRawDataRow(t.columns, t.rows[k]) &&
      var x, present, tr := t.rows[k], AvailableFields(t.columns), Clean(t).rows[j];
      tr.force == Metric(t.columns, present, x, MaxForce) &&
      tr.impulse == Metric(t.columns, present, x, Impulse) &&
      tr.contact == Metric(t.columns, present, x, ContactTime) &&
      (DataSource in present ==> tr.source == LabelOf(Cell(t.columns, x, SourceColumn(DataSource)))))
  {
    var present := AvailableFields(t.columns);
    var kept := DropRawDataRows(t.columns, t.rows);
    var trials := Normalized(t);
    var tr := Clean(t).rows[j];
    assert tr in trials;
    var i :| 0 <= i < |trials| && trials[i] == tr;
    assert kept[i] in t.rows;
    var k :| 0 <= k < |t.rows| && t.rows[k] == kept[i];
  }

  /** Without a comment column, and with no all-zero trial, the labels are Data_1, Data_2, ... in order. */
  lemma CleanGeneratedLabels(t: RawTable, j: nat)
    requires AvailableFields(t.columns) != [] && DataSource !in AvailableFields(t.columns)
    requires forall x :: x in Normalized(t) ==> !IsEmptyTrial(x)
    requires Clean(t) != Placeholder() && j < |Clean(t).rows|
    ensures Clean(t).rows[j].source == "Data_" + NatToString(j + 1)
  {
    var present := AvailableFields(t.columns);
    var trials := Normalized(t);
    assert HasMetric(present) by { assert present[0] != DataSource; }
    DropEmptyTrialsAll(trials);
    assert trials != [];
    assert !IsEmptyTrial(trials[0]);
    assert Clean(t) == CleanTable(OutputFields(present), trials);
    assert Clean(t).rows[j] == trials[j];
  }

  // ----- Both filters keep exactly the accepted elements, in order -----

  /** The positions k of s with keep(s[k]), in increasing order. */
  function KeptPositions<T>(s: seq<T>, keep: T -> bool): (p: seq<nat>)
    ensures forall i :: 0 <= i < |p| ==> p[i] < |s|
    decreases |s|
  {
    if s == [] then []
    else
      var front := KeptPositions(s[..|s| - 1], keep);
      if keep(s[|s| - 1]) then front + [|s| - 1] else front
  }

  /** r holds the elements of s that keep accepts, in the order of s, and nothing else. */
  predicate FilteredBy<T(==)>(r: seq<T>, s: seq<T>, keep: T -> bool)
  {
    var p := KeptPositions(s, keep);
    |r| == |p| && forall i :: 0 <= i < |p| ==> r[i] == s[p[i]]
  }

  /** The kept positions strictly increase and are exactly the positions whose element keep accepts. */
  lemma {:induction false} KeptPositionsSpec<T>(s: seq<T>, keep: T -> bool)
    ensures var p := KeptPositions(s, keep);
      (forall i, j :: 0 <= i < j < |p| ==> p[i] < p[j]) &&
      (forall k :: 0 <= k < |s| ==> (k in p <==> keep(s[k])))
    decreases |s|
  {
    if s != [] {
      var front := s[..|s| - 1];
      KeptPositionsSpec(front, keep);
      assert forall k :: 0 <= k < |front| ==> front[k] == s[k];
    }
  }

  /** How many accepted elements come before position k: where the filter puts s[k]. */
  function Rank<T>(s: seq<T>, keep: T -> bool, k: nat): (n: nat)
    requires k <= |s|
    ensures n <= k
  {
    KeptPositionsSpec(s[..k], keep);
    KeptPositionsShort(s[..k], keep);
    |KeptPositions(s[..k], keep)|
  }

  lemma {:induction false} KeptPositionsShort<T>(s: seq<T>, keep: T -> bool)
    ensures |KeptPositions(s, keep)| <= |s|
    decreases |s|
  {
    if s != [] {
      KeptPositionsShort(s[..|s| - 1], keep);
    }
  }

  /** The positions kept in a prefix of s are a prefix of those kept in s. */
  lemma {:induction false} KeptPositionsPrefix<T>(s: seq<T>, keep: T -> bool, k: nat)
    requires k <= |s|
    ensures KeptPositions(s[..k], keep) <= KeptPositions(s, keep)
    decreases |s| - k
  {
    if k < |s| {
      var front := s[..|s| - 1];
      KeptPositionsPrefix(front, keep, k);
      assert front[..k] == s[..k];
    } else {
      assert s[..k] == s;
    }
  }

  /** An accepted position's rank points back at it. */
  lemma RankPosition<T>(s: seq<T>, keep: T -> bool, k: nat)
    requires k < |s| && keep(s[k])
    ensures Rank(s, keep, k) < |KeptPositions(s, keep)| && KeptPositions(s, keep)[Rank(s, keep, k)] == k
  {
    KeptPositionsPrefix(s, keep, k + 1);
    var front := s[..k + 1];
    assert front[..|front| - 1] == s[..k];
  }

  /** Ranks grow along the sequence: an accepted element comes before every later one. */
  lemma RankIncreasing<T>(s: seq<T>, keep: T -> bool, k: nat, k': nat)
    requires k < k' <= |s| && keep(s[k])
    ensures Rank(s, keep, k) < Rank(s, keep, k')
  {
    var front := s[..k'];
    KeptPositionsPrefix(front, keep, k + 1);
    assert front[..k + 1] == s[..k + 1];
    var upTo := s[..k + 1];
    assert upTo[..|upTo| - 1] == s[..k];
  }

  /** A filtered sequence holds each accepted element of s at its rank. */
  lemma FilteredAt<T>(r: seq<T>, s: seq<T>, keep: T -> bool, k: nat)
    requires FilteredBy(r, s, keep) && k < |s| && keep(s[k])
    ensures Rank(s, keep, k) < |r| && r[Rank(s, keep, k)] == s[k]
  {
    RankPosition(s, keep, k);
  }

  /** Appending one element to the input appends it to the filtered sequence exactly when it is accepted. */
  lemma FilterStep<T>(r: seq<T>, s: seq<T>, x: T, keep: T -> bool)
    requires FilteredBy(r, s, keep)
    ensures FilteredBy(r + (if keep(x) then [x] else []), s + [x], keep)
  {
    assert (s + [x])[..|s|] == s;
  }

  /** The raw-data filter's test, as a value. */
  function KeepsRow(columns: seq<string>): RawRow -> bool
  {
    row => !IsRawDataRow(columns, row)
  }

  /** The zero filter's test. */
  predicate IsKeptTrial(tr: Trial)
  {
    !IsEmptyTrial(tr)
  }

  /** The raw-data filter keeps every other row, in input order. */
  lemma {:induction false} DropRawDataRowsFilters(columns: seq<string>, rows: seq<RawRow>)
    ensures FilteredBy(DropRawDataRows(columns, rows), rows, KeepsRow(columns))
    decreases |rows|
  {
    if rows != [] {
      var front, x := rows[..|rows| - 1], rows[|rows| - 1];
      assert front + [x] == rows;
      DropRawDataRowsFilters(columns, front);
      DropRawDataRowsAppend(columns, front, [x]);
      assert DropRawDataRows(columns, [x]) == if KeepsRow(columns)(x) then [x] else [];
      FilterStep(DropRawDataRows(columns, front), front, x, KeepsRow(columns));
    }
  }

  lemma {:induction false} DropEmptyTrialsAppend(a: seq<Trial>, b: seq<Trial>)
    ensures DropEmptyTrials(a + b) == DropEmptyTrials(a) + DropEmptyTrials(b)
    decreases |a|
  {
    if a == [] {
      assert a + b == b;
    } else {
      assert (a + b)[1..] == a[1..] + b;
      DropEmptyTrialsAppend(a[1..], b);
    }
  }

  /** The zero filter keeps every trial with a non-zero metric, in order. */
  lemma {:induction false} DropEmptyTrialsFilters(trials: seq<Trial>)
    ensures FilteredBy(DropEmptyTrials(trials), trials, IsKeptTrial)
    decreases |trials|
  {
    if trials != [] {
      var front, x := trials[..|trials| - 1], trials[|trials| - 1];
      assert front + [x] == trials;
      DropEmptyTrialsFilters(front);
      DropEmptyTrialsAppend(front, [x]);
      assert DropEmptyTrials([x]) == if IsKeptTrial(x) then [x] else [];
      FilterStep(DropEmptyTrials(front), front, x, IsKeptTrial);
    }
  }

  /** The trial input row k becomes: numbered by its place among the rows the raw-data filter keeps. */
  function RowTrial(t: RawTable, k: nat): Trial
    requires k < |t.rows|
  {
    ToTrial(t.columns, AvailableFields(t.columns), t.rows[k], Rank(t.rows, KeepsRow(t.columns), k))
  }

  /** Input row k reaches the cleaned table: it is no raw-data row, and its trial is not all zero when there are metrics. */
  predicate Survives(t: RawTable, k: nat)
  {
    k < |t.rows| && !IsRawDataRow(t.columns, t.rows[k]) &&
    (HasMetric(AvailableFields(t.columns)) ==> !IsEmptyTrial(RowTrial(t, k)))
  }

  /** Where a surviving row lands in the cleaned table. */
  function OutputIndex(t: RawTable, k: nat): nat
    requires k < |t.rows|
  {
    var i := Rank(t.rows, KeepsRow(t.columns), k);
    DropRawDataRowsFilters(t.columns, t.rows);
    KeptPositionsPrefix(t.rows, KeepsRow(t.columns), k);
    if HasMetric(AvailableFields(t.columns)) then Rank(Normalized(t), IsKeptTrial, i) else i
  }

  /**
   * Every input row that survives both filters is in the cleaned table, as
   * the trial of its values; without a comment column its label is "Data_"
   * followed by its place among the rows that are not raw-data rows, counted
   * from 1 before the zero filter drops anything.
   */
  lemma CleanKeepsRow(t: RawTable, k: nat)
    requires Clean(t) != Placeholder() && Survives(t, k)
    ensures OutputIndex(t, k) < |Clean(t).rows| && Clean(t).rows[OutputIndex(t, k)] == RowTrial(t, k)
    ensures DataSource !in AvailableFields(t.columns) ==>
      Clean(t).rows[OutputIndex(t, k)].source == "Data_" + NatToString(Rank(t.rows, KeepsRow(t.columns), k) + 1)
  {
    var present := AvailableFields(t.columns);
    var kept := DropRawDataRows(t.columns, t.rows);
    var trials := Normalized(t);
    var i := Rank(t.rows, KeepsRow(t.columns), k);
    DropRawDataRowsFilters(t.columns, t.rows);
    FilteredAt(kept, t.rows, KeepsRow(t.columns), k);
    assert trials[i] == RowTrial(t, k);
    if HasMetric(present) {
      DropEmptyTrialsFilters(trials);
      FilteredAt(DropEmptyTrials(trials), trials, IsKeptTrial, i);
    }
  }

  /** Surviving rows keep their input order in the cleaned table. */
  lemma CleanKeepsOrder(t: RawTable, k: nat, k': nat)
    requires Survives(t, k) && Survives(t, k') && k < k'
    ensures OutputIndex(t, k) < OutputIndex(t, k')
  {
    var keep := KeepsRow(t.columns);
    var i, i' := Rank(t.rows, keep, k), Rank(t.rows, keep, k');
    RankIncreasing(t.rows, keep, k, k');
    if HasMetric(AvailableFields(t.columns)) {
      var kept := DropRawDataRows(t.columns, t.rows);
      DropRawDataRowsFilters(t.columns, t.rows);
      FilteredAt(kept, t.rows, keep, k);
      FilteredAt(kept, t.rows, keep, k');
      assert Normalized(t)[i] == RowTrial(t, k);
      RankIncreasing(Normalized(t), IsKeptTrial, i, i');
    }
  }
}
