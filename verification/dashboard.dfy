/**
 * Sheet1, the dashboard: title and date, the patient block with its composed
 * "Signalment", a limb diagram and a per-limb summary table that reference
 * Sheet2's summary rows, and the Forelimb/Hindlimb symmetry-index cells.
 * `summaryStart` and `forelimbStart` are the Sheet2 anchor rows the report
 * passes in; the references are written relative to them.
 */
module Dashboard {
  import opened Wrappers
  import opened Strings
  import opened Formulas
  import opened Grid
  import opened Age

  /** Manually entered patient fields by key ("species", "breed", "color", "purdue_id", "primary_dvm"). */
  type ManualData = map<string, string>

  /** The first row of the visits table; a missing field is "". */
  datatype VisitRow = VisitRow(firstName: string, lastName: string, gender: string, id: string,
                               dateOfBirth: string, dateOfVisit: string, bodyMass: string)

  const ReportTitle: string := "PVH gait lab report"
  const PatientInfoRow: nat := 3
  const PatientLabels: seq<string> := ["Name:", "Signalment:", "MR-ID:", "VisitDate:", "BW:", "PrimaryDVM:", "Purdue-ID:"]
  /** The row the limb diagram image is anchored at; the other blocks sit relative to it. */
  const DogImageRow: nat := PatientInfoRow + 9
  const TableStart: nat := DogImageRow + 20
  const SymmetryStart: nat := DogImageRow + 7
  const DashboardHeaders: seq<string> := ["", "%BW", "VI [%BW*s]", "Contact time [ms]", "Weight bearing"]
  const HeaderGrey: string := "D3D3D3"
  const Abbreviations: string := "*BW: body weight, VI: vertical impulse"
  const SymmetryTitle: string := "Symmetry Index (SI)"
  const SymmetryNote: string := "*lower SI means more symmetric"
  /** The keys of the manual data and the labels the signalment puts before each piece. */
  const SpeciesKey: string := "species"
  const BreedKey: string := "breed"
  const ColorKey: string := "color"
  const PrimaryDvmKey: string := "primary_dvm"
  const PurdueIdKey: string := "purdue_id"
  const SpeciesLabel: string := "Species: "
  const BreedLabel: string := "Breed: "
  const ColorLabel: string := "Color: "
  const GenderLabel: string := "Gender: "
  const BirthLabel: string := "DOB: "
  const AgeLabel: string := "Age: "
  /** What joins the signalment pieces. */
  const PartSeparator: string := ", "

  /**
   * A limb as the dashboard shows it: its name, the code Sheet2 uses for it,
   * its colour, its row below `summaryStart`, and its cell on the diagram.
   */
  datatype Limb = Limb(name: string, code: string, colour: string, offset: nat, diagramRow: nat, diagramCol: nat)

  /** Dashboard order: left fore, right fore, left hind, right hind. */
  const Limbs: seq<Limb> := [
    Limb("Lt. Forelimb", "LF", "CCCCFF", 1, DogImageRow + 5, 1),
    Limb("Rt. Forelimb", "RF", "FFCCCC", 3, DogImageRow + 5, 3),
    Limb("Lt. Hindlimb", "LH", "CCFFCC", 2, DogImageRow + 13, 1),
    Limb("Rt. Hindlimb", "RH", "FFD699", 4, DogImageRow + 13, 3)]

  // ----- Patient text -----

  /** dict.get(key, ''). */
  function Get(m: ManualData, key: string): string
  {
    if key in m then m[key] else ""
  }

  /** The manual data counts only when it is given and not empty. */
  predicate HasManual(manual: Option<ManualData>)
  {
    manual.Some? && manual.value != map[]
  }

  function VisitOrBlank(visits: Option<VisitRow>): VisitRow
  {
    if visits.Some? then visits.value else VisitRow("", "", "", "", "", "", "")
  }

  /** `s` with `prefix` in front, as a one-element list, or nothing when `s` is empty. */
  function Labelled(prefix: string, s: string): (r: seq<string>)
    ensures |r| <= 1 && NonBlank(r)
    ensures r != [] <==> s != ""
  {
    if s != "" then
      assert |prefix + s| >= |s| > 0;
      [prefix + s]
    else []
  }

  /** No piece of the list is empty. */
  predicate NonBlank(parts: seq<string>)
  {
    forall i :: 0 <= i < |parts| ==> parts[i] != ""
  }

  lemma NonBlankAppend(a: seq<string>, b: seq<string>)
    requires NonBlank(a) && NonBlank(b)
    ensures NonBlank(a + b)
  {
    forall i | 0 <= i < |a + b|
      ensures (a + b)[i] != ""
    {
      if i >= |a| {
        assert (a + b)[i] == b[i - |a|];
      }
    }
  }

  function AgeText(age: (int, int)): string
  {
    AgeLabel + IntToString(age.0) + "y " + IntToString(age.1) + "m"
  }

  /** The visit date handed to the age calculation: none when the visit date is empty. */
  function VisitForAge(v: VisitRow): Option<string>
  {
    if v.dateOfVisit != "" then Some(v.dateOfVisit) else None
  }

  /** Species, breed and colour from the manual data, each only when not blank. */
  function ManualParts(m: ManualData): (r: seq<string>)
    ensures |r| <= 3 && NonBlank(r)
  {
    var species := Labelled(SpeciesLabel, Strip(Get(m, SpeciesKey)));
    var breed := Labelled(BreedLabel, Strip(Get(m, BreedKey)));
    var color := Labelled(ColorLabel, Strip(Get(m, ColorKey)));
    NonBlankAppend(species, breed);
    NonBlankAppend(species + breed, color);
    species + breed + color
  }

  /** Gender, DOB and age from the visits row; the age only when it can be computed. */
  function VisitParts(v: VisitRow, today: Date): (r: seq<string>)
    requires IsValidDate(today)
    ensures |r| <= 3 && NonBlank(r)
  {
    var age := CalculateAge(v.dateOfBirth, VisitForAge(v), today);
    var gender := Labelled(GenderLabel, v.gender);
    var dob := if v.dateOfBirth != "" then Labelled(BirthLabel, v.dateOfBirth) + (if age.Some? then [AgeText(age.value)] else []) else [];
    assert NonBlank(dob) by {
      if v.dateOfBirth != "" && age.Some? {
        assert |AgeText(age.value)| > 0;
        NonBlankAppend(Labelled(BirthLabel, v.dateOfBirth), [AgeText(age.value)]);
      }
    }
    NonBlankAppend(gender, dob);
    gender + dob
  }

  /** The pieces of the signalment, in order: species, breed, colour, gender, DOB, age. */
  function SignalmentParts(v: VisitRow, manual: Option<ManualData>, today: Date): (r: seq<string>)
    requires IsValidDate(today)
    ensures |r| <= 6 && NonBlank(r)
    ensures !HasManual(manual) ==> r == VisitParts(v, today)
  {
    var manualParts := if HasManual(manual) then ManualParts(manual.value) else [];
    NonBlankAppend(manualParts, VisitParts(v, today));
    manualParts + VisitParts(v, today)
  }

  function Signalment(v: VisitRow, manual: Option<ManualData>, today: Date): string
    requires IsValidDate(today)
  {
    Join(SignalmentParts(v, manual, today), PartSeparator)
  }

  /** First and last name with a space between, stripped. */
  function FullName(v: VisitRow): string
  {
    Strip(v.firstName + " " + v.lastName)
  }

  /** The body mass followed by its unit, or "" when there is none. */
  function BodyWeightText(v: VisitRow): string
  {
    if v.bodyMass != "" then v.bodyMass + " kg" else ""
  }

  /**
   * The seven values beside PatientLabels. None when no manual data is given:
   * the PrimaryDVM and Purdue-ID values then do not exist and the dashboard
   * cannot be written.
   */
  function PatientValues(visits: Option<VisitRow>, manual: Option<ManualData>, today: Date): (r: Option<seq<string>>)
    requires IsValidDate(today)
    ensures r.Some? <==> HasManual(manual)
    ensures r.Some? ==> |r.value| == |PatientLabels|
  {
    if !HasManual(manual) then None
    else
      var v := VisitOrBlank(visits);
      Some([FullName(v),
            Signalment(v, manual, today),
            v.id,
            v.dateOfVisit,
            BodyWeightText(v),
            Strip(Get(manual.value, PrimaryDvmKey)),
            Strip(Get(manual.value, PurdueIdKey))])
  }

  /** n in decimal, left-padded with zeros to at least `width` characters. */
  function ZeroPad(n: nat, width: nat): (r: string)
    ensures AllDigits(r) && |r| >= width && DigitsValue(r) == n
    ensures |r| == if |NatToString(n)| > width then |NatToString(n)| else width
    ensures |r| > width ==> r == NatToString(n)
  {
    var digits := NatToString(n);
    NatToStringValue(n);
    var zeros := seq(if width > |digits| then width - |digits| else 0, _ => '0');
    ZerosValue(zeros);
    DigitsValueAppend(zeros, digits);
    zeros + digits
  }

  lemma {:induction false} ZerosValue(zeros: string)
    requires forall i :: 0 <= i < |zeros| ==> zeros[i] == '0'
    ensures AllDigits(zeros) && DigitsValue(zeros) == 0
    decreases |zeros|
  {
    if zeros != [] {
      ZerosValue(zeros[..|zeros| - 1]);
    }
  }

  /** The title date, day/month/year with two-digit day and month and four-digit year. */
  function DateText(d: Date): string
    requires IsValidDate(d)
  {
    ZeroPad(d.day, 2) + "/" + ZeroPad(d.month, 2) + "/" + ZeroPad(d.year, 4)
  }

  // ----- What each block writes -----

  function TitleCells(today: Date): map<Addr, Value>
    requires IsValidDate(today)
  {
    map[(1, 2) := Text(ReportTitle)][(1, 4) := Text(DateText(today))]
  }

  /** Patient rows 3..3+i-1: label in column A, value in column B. */
  function PatientUpTo(values: seq<string>, i: nat): map<Addr, Value>
    requires |values| == |PatientLabels| && i <= |PatientLabels|
    decreases i
  {
    if i == 0 then map[]
    else PatientUpTo(values, i - 1)[(PatientInfoRow + i - 1, 1) := Text(PatientLabels[i - 1])][(PatientInfoRow + i - 1, 2) := Text(values[i - 1])]
  }

  /** Each limb's diagram cell shows its weight bearing, Sheet2 column E of its summary row. */
  function DiagramCells(summaryStart: nat): map<Addr, Value>
  {
    map[(Limbs[0].diagramRow, Limbs[0].diagramCol) := Calc(Ref(Sheet2, 5, summaryStart + Limbs[0].offset))]
       [(Limbs[1].diagramRow, Limbs[1].diagramCol) := Calc(Ref(Sheet2, 5, summaryStart + Limbs[1].offset))]
       [(Limbs[2].diagramRow, Limbs[2].diagramCol) := Calc(Ref(Sheet2, 5, summaryStart + Limbs[2].offset))]
       [(Limbs[3].diagramRow, Limbs[3].diagramCol) := Calc(Ref(Sheet2, 5, summaryStart + Limbs[3].offset))]
  }

  function DiagramFills(): map<Addr, Fill>
  {
    map[(Limbs[0].diagramRow, Limbs[0].diagramCol) := Rgb(Limbs[0].colour)]
       [(Limbs[1].diagramRow, Limbs[1].diagramCol) := Rgb(Limbs[1].colour)]
       [(Limbs[2].diagramRow, Limbs[2].diagramCol) := Rgb(Limbs[2].colour)]
       [(Limbs[3].diagramRow, Limbs[3].diagramCol) := Rgb(Limbs[3].colour)]
  }

  /** The summary table's header row, columns 1..c-1. */
  function HeaderUpTo(c: nat): map<Addr, Value>
    requires c <= 6
    decreases c
  {
    if c <= 1 then map[] else HeaderUpTo(c - 1)[(TableStart + 1, c - 1) := Text(DashboardHeaders[c - 2])]
  }

  /** Grey fills on the header row's metric columns 2..c-1. */
  function HeaderFillsUpTo(c: nat): map<Addr, Fill>
    decreases c
  {
    if c <= 2 then map[] else HeaderFillsUpTo(c - 1)[(TableStart + 1, c - 1) := Rgb(HeaderGrey)]
  }

  /** Limb i's table row: its label, then references to Sheet2 columns 2..c-1 of its summary row. */
  function LimbLine(summaryStart: nat, i: nat, c: nat): map<Addr, Value>
    requires i < 4 && 2 <= c <= 6
    decreases c
  {
    if c == 2 then map[(TableStart + 2 + i, 1) := Text(Limbs[i].name)]
    else LimbLine(summaryStart, i, c - 1)[(TableStart + 2 + i, c - 1) := Calc(Ref(Sheet2, c - 1, summaryStart + Limbs[i].offset))]
  }

  function LimbLines(summaryStart: nat, i: nat): map<Addr, Value>
    requires i <= 4
    decreases i
  {
    if i == 0 then map[] else LimbLines(summaryStart, i - 1) + LimbLine(summaryStart, i - 1, 6)
  }

  function LimbFillsUpTo(i: nat): map<Addr, Fill>
    requires i <= 4
    decreases i
  {
    if i == 0 then map[] else LimbFillsUpTo(i - 1)[(TableStart + 2 + i - 1, 1) := Rgb(Limbs[i - 1].colour)]
  }

  /** The abbreviation note, then the symmetry-index block referencing Sheet2 column B. */
  function TailCells(forelimbStart: nat): map<Addr, Value>
  {
    map[(TableStart + 6, 4) := Text(Abbreviations)][(SymmetryStart, 3) := Text(SymmetryTitle)]
      [(SymmetryStart + 1, 3) := Text("Forelimb")][(SymmetryStart + 1, 4) := Calc(Ref(Sheet2, 2, forelimbStart + 2))]
      [(SymmetryStart + 2, 3) := Text("Hindlimb")][(SymmetryStart + 2, 4) := Calc(Ref(Sheet2, 2, forelimbStart + 3))]
      [(SymmetryStart + 3, 3) := Text(SymmetryNote)]
  }

  /** Everything Sheet1 holds once it is written, in the order it is written. */
  function Sheet1Cells(values: seq<string>, summaryStart: nat, forelimbStart: nat, today: Date): map<Addr, Value>
    requires |values| == |PatientLabels| && IsValidDate(today)
  {
    TitleCells(today) + PatientUpTo(values, 7) + DiagramCells(summaryStart) + HeaderUpTo(6) +
    LimbLines(summaryStart, 4) + TailCells(forelimbStart)
  }

  function Sheet1Fills(): map<Addr, Fill>
  {
    DiagramFills() + HeaderFillsUpTo(6) + LimbFillsUpTo(4)
  }

  // ----- What Sheet1 holds, cell by cell -----

  function TitleCell(today: Date, r: nat, c: nat): Option<Value>
    requires IsValidDate(today)
  {
    if r == 1 && c == 2 then Some(Text(ReportTitle))
    else if r == 1 && c == 4 then Some(Text(DateText(today)))
    else None
  }

  function PatientCell(values: seq<string>, r: nat, c: nat): Option<Value>
    requires |values| == |PatientLabels|
  {
    if PatientInfoRow <= r < PatientInfoRow + 7 && c == 1 then Some(Text(PatientLabels[r - PatientInfoRow]))
    else if PatientInfoRow <= r < PatientInfoRow + 7 && c == 2 then Some(Text(values[r - PatientInfoRow]))
    else None
  }

  /** The diagram cell of limb i shows Sheet2 column E of that limb's summary row. */
  function DiagramCell(summaryStart: nat, r: nat, c: nat): Option<Value>
  {
    if r == DogImageRow + 5 && c == 1 then Some(Calc(Ref(Sheet2, 5, summaryStart + Limbs[0].offset)))
    else if r == DogImageRow + 5 && c == 3 then Some(Calc(Ref(Sheet2, 5, summaryStart + Limbs[1].offset)))
    else if r == DogImageRow + 13 && c == 1 then Some(Calc(Ref(Sheet2, 5, summaryStart + Limbs[2].offset)))
    else if r == DogImageRow + 13 && c == 3 then Some(Calc(Ref(Sheet2, 5, summaryStart + Limbs[3].offset)))
    else None
  }

  /** Header row, then one row per limb: its name, then Sheet2 columns B..E of its summary row. */
  function TableCell(summaryStart: nat, r: nat, c: nat): Option<Value>
  {
    if r == TableStart + 1 && 1 <= c <= 5 then Some(Text(DashboardHeaders[c - 1]))
    else if TableStart + 2 <= r < TableStart + 6 && c == 1 then Some(Text(Limbs[r - TableStart - 2].name))
    else if TableStart + 2 <= r < TableStart + 6 && 2 <= c <= 5 then
      Some(Calc(Ref(Sheet2, c, summaryStart + Limbs[r - TableStart - 2].offset)))
    else None
  }

  function TailCell(forelimbStart: nat, r: nat, c: nat): Option<Value>
  {
    if r == TableStart + 6 && c == 4 then Some(Text(Abbreviations))
    else if r == SymmetryStart && c == 3 then Some(Text(SymmetryTitle))
    else if r == SymmetryStart + 1 && c == 3 then Some(Text("Forelimb"))
    else if r == SymmetryStart + 1 && c == 4 then Some(Calc(Ref(Sheet2, 2, forelimbStart + 2)))
    else if r == SymmetryStart + 2 && c == 3 then Some(Text("Hindlimb"))
    else if r == SymmetryStart + 2 && c == 4 then Some(Calc(Ref(Sheet2, 2, forelimbStart + 3)))
    else if r == SymmetryStart + 3 && c == 3 then Some(Text(SymmetryNote))
    else None
  }

  /** What Sheet1 holds at (r, c); the blocks never share a cell. */
  function DashboardCell(values: seq<string>, summaryStart: nat, forelimbStart: nat, today: Date, r: nat, c: nat): Option<Value>
    requires |values| == |PatientLabels| && IsValidDate(today)
  {
    if TitleCell(today, r, c).Some? then TitleCell(today, r, c)
    else if PatientCell(values, r, c).Some? then PatientCell(values, r, c)
    else if DiagramCell(summaryStart, r, c).Some? then DiagramCell(summaryStart, r, c)
    else if TableCell(summaryStart, r, c).Some? then TableCell(summaryStart, r, c)
    else TailCell(forelimbStart, r, c)
  }

  // ----- Cell-by-cell lemmas -----

  lemma {:induction false} PatientUpToLookup(values: seq<string>, i: nat, a: Addr)
    requires |values| == |PatientLabels| && i <= |PatientLabels|
    ensures a in PatientUpTo(values, i) <==> PatientInfoRow <= a.0 < PatientInfoRow + i && (a.1 == 1 || a.1 == 2)
    ensures a in PatientUpTo(values, i) ==>
      PatientUpTo(values, i)[a] == Text(if a.1 == 1 then PatientLabels[a.0 - PatientInfoRow] else values[a.0 - PatientInfoRow])
    decreases i
  {
    if i > 0 {
      PatientUpToLookup(values, i - 1, a);
    }
  }

  lemma {:induction false} HeaderUpToLookup(c: nat, a: Addr)
    requires c <= 6
    ensures a in HeaderUpTo(c) <==> a.0 == TableStart + 1 && 1 <= a.1 < c
    ensures a in HeaderUpTo(c) ==> HeaderUpTo(c)[a] == Text(DashboardHeaders[a.1 - 1])
    decreases c
  {
    if c > 1 {
      HeaderUpToLookup(c - 1, a);
    }
  }

  lemma {:induction false} LimbLineLookup(summaryStart: nat, i: nat, c: nat, a: Addr)
    requires i < 4 && 2 <= c <= 6
    ensures a in LimbLine(summaryStart, i, c) <==> a.0 == TableStart + 2 + i && 1 <= a.1 < c
    ensures a in LimbLine(summaryStart, i, c) ==>
      LimbLine(summaryStart, i, c)[a] == if a.1 == 1 then Text(Limbs[i].name) else Calc(Ref(Sheet2, a.1, summaryStart + Limbs[i].offset))
    decreases c
  {
    if c > 2 {
      LimbLineLookup(summaryStart, i, c - 1, a);
    }
  }

  lemma {:induction false} LimbLinesLookup(summaryStart: nat, i: nat, a: Addr)
    requires i <= 4
    ensures a in LimbLines(summaryStart, i) <==> TableStart + 2 <= a.0 < TableStart + 2 + i && 1 <= a.1 <= 5
    ensures a in LimbLines(summaryStart, i) ==>
      LimbLines(summaryStart, i)[a] ==
        if a.1 == 1 then Text(Limbs[a.0 - TableStart - 2].name)
        else Calc(Ref(Sheet2, a.1, summaryStart + Limbs[a.0 - TableStart - 2].offset))
    decreases i
  {
    if i > 0 {
      LimbLinesLookup(summaryStart, i - 1, a);
      LimbLineLookup(summaryStart, i - 1, 6, a);
    }
  }

  lemma TitleLookup(today: Date, a: Addr)
    requires IsValidDate(today)
    ensures a in TitleCells(today) <==> TitleCell(today, a.0, a.1).Some?
    ensures a in TitleCells(today) ==> TitleCells(today)[a] == TitleCell(today, a.0, a.1).value
  {
  }

  lemma PatientLookup(values: seq<string>, a: Addr)
    requires |values| == |PatientLabels|
    ensures a in PatientUpTo(values, 7) <==> PatientCell(values, a.0, a.1).Some?
    ensures a in PatientUpTo(values, 7) ==> PatientUpTo(values, 7)[a] == PatientCell(values, a.0, a.1).value
  {
    PatientUpToLookup(values, 7, a);
  }

  lemma DiagramLookup(summaryStart: nat, a: Addr)
    ensures a in DiagramCells(summaryStart) <==> DiagramCell(summaryStart, a.0, a.1).Some?
    ensures a in DiagramCells(summaryStart) ==> DiagramCells(summaryStart)[a] == DiagramCell(summaryStart, a.0, a.1).value
  {
  }

  lemma TableLookup(summaryStart: nat, a: Addr)
    ensures a in HeaderUpTo(6) + LimbLines(summaryStart, 4) <==> TableCell(summaryStart, a.0, a.1).Some?
    ensures a in HeaderUpTo(6) + LimbLines(summaryStart, 4) ==>
      (HeaderUpTo(6) + LimbLines(summaryStart, 4))[a] == TableCell(summaryStart, a.0, a.1).value
  {
    HeaderUpToLookup(6, a);
    LimbLinesLookup(summaryStart, 4, a);
  }

  lemma TailLookup(forelimbStart: nat, a: Addr)
    ensures a in TailCells(forelimbStart) <==> TailCell(forelimbStart, a.0, a.1).Some?
    ensures a in TailCells(forelimbStart) ==> TailCells(forelimbStart)[a] == TailCell(forelimbStart, a.0, a.1).value
  {
  }

  /** Sheet1 as written holds exactly what DashboardCell prescribes. */
  lemma Sheet1Lookup(values: seq<string>, summaryStart: nat, forelimbStart: nat, today: Date, a: Addr)
    requires |values| == |PatientLabels| && IsValidDate(today)
    ensures a in Sheet1Cells(values, summaryStart, forelimbStart, today) <==>
      DashboardCell(values, summaryStart, forelimbStart, today, a.0, a.1).Some?
    ensures a in Sheet1Cells(values, summaryStart, forelimbStart, today) ==>
      Sheet1Cells(values, summaryStart, forelimbStart, today)[a] == DashboardCell(values, summaryStart, forelimbStart, today, a.0, a.1).value
  {
    var front := TitleCells(today) + PatientUpTo(values, 7) + DiagramCells(summaryStart);
    UnionAssoc(front, HeaderUpTo(6), LimbLines(summaryStart, 4));
    TitleLookup(today, a);
    PatientLookup(values, a);
    DiagramLookup(summaryStart, a);
    TableLookup(summaryStart, a);
    TailLookup(forelimbStart, a);
  }

  // ----- Properties of the patient text -----

  /** Joining non-empty pieces gives "" only for no pieces. */
  lemma {:induction false} JoinEmpty(parts: seq<string>, sep: string)
    requires NonBlank(parts)
    ensures Join(parts, sep) == "" <==> parts == []
    decreases |parts|
  {
    if |parts| > 1 {
      assert |Join(parts, sep)| >= |parts[0]| > 0;
    }
  }

  /** The signalment is "" exactly when there is nothing to show. */
  lemma SignalmentEmpty(v: VisitRow, manual: Option<ManualData>, today: Date)
    requires IsValidDate(today)
    ensures Signalment(v, manual, today) == "" <==> SignalmentParts(v, manual, today) == []
  {
    JoinEmpty(SignalmentParts(v, manual, today), PartSeparator);
  }

  /** A given birth date is followed by the age whenever it can be computed; without one, only the gender can appear. */
  lemma VisitPartsOrder(v: VisitRow, today: Date)
    requires IsValidDate(today)
    ensures var parts := VisitParts(v, today);
      var age := CalculateAge(v.dateOfBirth, VisitForAge(v), today);
      && (v.dateOfBirth == "" ==> |parts| <= 1)
      && (v.dateOfBirth != "" && age.Some? ==>
            |parts| >= 2 && parts[|parts| - 2] == BirthLabel + v.dateOfBirth && parts[|parts| - 1] == AgeText(age.value))
      && (v.dateOfBirth != "" && age.None? ==> |parts| >= 1 && parts[|parts| - 1] == BirthLabel + v.dateOfBirth)
  {
  }

  /** The text a blank visits cell reads as: pandas gives NaN, which is truthy and prints as "nan". */
  const BlankCellText: string := "nan"

  /**
   * A visits row whose cells are all blank is not an empty row: every field
   * shows as "nan", the name is "nan nan", the weight "nan kg", and the
   * birth date, which does not parse, is shown without an age.
   */
  lemma {:induction false} BlankVisitCells(today: Date)
    requires IsValidDate(today)
    ensures var v := VisitRow(BlankCellText, BlankCellText, BlankCellText, BlankCellText, BlankCellText, BlankCellText, BlankCellText);
      && VisitParts(v, today) == [GenderLabel + BlankCellText, BirthLabel + BlankCellText]
      && FullName(v) == BlankCellText + " " + BlankCellText
      && BodyWeightText(v) == BlankCellText + " kg"
  {
    var v := VisitRow(BlankCellText, BlankCellText, BlankCellText, BlankCellText, BlankCellText, BlankCellText, BlankCellText);
    SplitWhole(BlankCellText, '/');
    StripUnchanged(BlankCellText + " " + BlankCellText);
    assert CalculateAge(v.dateOfBirth, VisitForAge(v), today) == None;
  }

  // ----- The writer -----

  /** The patient block: one label and one value per row from row 3. */
  method WritePatientInfo(ws: Sheet, values: seq<string>)
    requires |values| == |PatientLabels|
    modifies ws
    ensures ws.cells == old(ws.cells) + PatientUpTo(values, 7)
    ensures ws.fills == old(ws.fills)
  {
    var i := 0;
    while i < 7
      invariant 0 <= i <= 7
      invariant ws.cells == old(ws.cells) + PatientUpTo(values, i)
      invariant ws.fills == old(ws.fills)
    {
      ws.Put(PatientInfoRow + i, 1, Text(PatientLabels[i]));
      UpdateUnion(old(ws.cells), PatientUpTo(values, i), (PatientInfoRow + i, 1), Text(PatientLabels[i]));
      ws.Put(PatientInfoRow + i, 2, Text(values[i]));
      UpdateUnion(old(ws.cells), PatientUpTo(values, i)[(PatientInfoRow + i, 1) := Text(PatientLabels[i])], (PatientInfoRow + i, 2), Text(values[i]));
      i := i + 1;
    }
  }

  /** The limb diagram's four cells: each limb's colour and a reference to its weight bearing. */
  method WriteDiagram(ws: Sheet, summaryStart: nat)
    modifies ws
    ensures ws.cells == old(ws.cells) + DiagramCells(summaryStart)
    ensures ws.fills == old(ws.fills) + DiagramFills()
  {
    ws.Paint(Limbs[0].diagramRow, Limbs[0].diagramCol, Rgb(Limbs[0].colour));
    ws.Put(Limbs[0].diagramRow, Limbs[0].diagramCol, Calc(Ref(Sheet2, 5, summaryStart + Limbs[0].offset)));
    ws.Paint(Limbs[1].diagramRow, Limbs[1].diagramCol, Rgb(Limbs[1].colour));
    ws.Put(Limbs[1].diagramRow, Limbs[1].diagramCol, Calc(Ref(Sheet2, 5, summaryStart + Limbs[1].offset)));
    ws.Paint(Limbs[2].diagramRow, Limbs[2].diagramCol, Rgb(Limbs[2].colour));
    ws.Put(Limbs[2].diagramRow, Limbs[2].diagramCol, Calc(Ref(Sheet2, 5, summaryStart + Limbs[2].offset)));
    ws.Paint(Limbs[3].diagramRow, Limbs[3].diagramCol, Rgb(Limbs[3].colour));
    ws.Put(Limbs[3].diagramRow, Limbs[3].diagramCol, Calc(Ref(Sheet2, 5, summaryStart + Limbs[3].offset)));
    FourUpdates(old(ws.cells),
      (Limbs[0].diagramRow, Limbs[0].diagramCol), Calc(Ref(Sheet2, 5, summaryStart + Limbs[0].offset)),
      (Limbs[1].diagramRow, Limbs[1].diagramCol), Calc(Ref(Sheet2, 5, summaryStart + Limbs[1].offset)),
      (Limbs[2].diagramRow, Limbs[2].diagramCol), Calc(Ref(Sheet2, 5, summaryStart + Limbs[2].offset)),
      (Limbs[3].diagramRow, Limbs[3].diagramCol), Calc(Ref(Sheet2, 5, summaryStart + Limbs[3].offset)));
    FourUpdates(old(ws.fills),
      (Limbs[0].diagramRow, Limbs[0].diagramCol), Rgb(Limbs[0].colour),
      (Limbs[1].diagramRow, Limbs[1].diagramCol), Rgb(Limbs[1].colour),
      (Limbs[2].diagramRow, Limbs[2].diagramCol), Rgb(Limbs[2].colour),
      (Limbs[3].diagramRow, Limbs[3].diagramCol), Rgb(Limbs[3].colour));
  }

  /** The summary table's header row, with grey fills on its metric columns. */
  method WriteTableHeader(ws: Sheet)
    modifies ws
    ensures ws.cells == old(ws.cells) + HeaderUpTo(6)
    ensures ws.fills == old(ws.fills) + HeaderFillsUpTo(6)
  {
    var c := 1;
    while c <= 5
      invariant 1 <= c <= 6
      invariant ws.cells == old(ws.cells) + HeaderUpTo(c)
      invariant ws.fills == old(ws.fills) + HeaderFillsUpTo(c)
    {
      ws.Put(TableStart + 1, c, Text(DashboardHeaders[c - 1]));
      UpdateUnion(old(ws.cells), HeaderUpTo(c), (TableStart + 1, c), Text(DashboardHeaders[c - 1]));
      if c > 1 {
        ws.Paint(TableStart + 1, c, Rgb(HeaderGrey));
        UpdateUnion(old(ws.fills), HeaderFillsUpTo(c), (TableStart + 1, c), Rgb(HeaderGrey));
      }
      c := c + 1;
    }
  }

  lemma LimbLineNext(summaryStart: nat, i: nat, c: nat)
    requires i < 4 && 2 <= c <= 5
    ensures LimbLine(summaryStart, i, c + 1) ==
      LimbLine(summaryStart, i, c)[(TableStart + 2 + i, c) := Calc(Ref(Sheet2, c, summaryStart + Limbs[i].offset))]
  {
  }

  /** The four limb rows: name and colour in column A, references to Sheet2 in columns B..E. */
  method WriteLimbRows(ws: Sheet, summaryStart: nat)
    modifies ws
    ensures ws.cells == old(ws.cells) + LimbLines(summaryStart, 4)
    ensures ws.fills == old(ws.fills) + LimbFillsUpTo(4)
  {
    var i := 0;
    while i < 4
      invariant 0 <= i <= 4
      invariant ws.cells == old(ws.cells) + LimbLines(summaryStart, i)
      invariant ws.fills == old(ws.fills) + LimbFillsUpTo(i)
    {
      WriteLimbLine(ws, summaryStart, i);
      UnionAssoc(old(ws.cells), LimbLines(summaryStart, i), LimbLine(summaryStart, i, 6));
      UpdateUnion(old(ws.fills), LimbFillsUpTo(i), (TableStart + 2 + i, 1), Rgb(Limbs[i].colour));
      LimbRowsNext(summaryStart, i);
      i := i + 1;
    }
  }

  lemma LimbRowsNext(summaryStart: nat, i: nat)
    requires i < 4
    ensures LimbLines(summaryStart, i + 1) == LimbLines(summaryStart, i) + LimbLine(summaryStart, i, 6)
    ensures LimbFillsUpTo(i + 1) == LimbFillsUpTo(i)[(TableStart + 2 + i, 1) := Rgb(Limbs[i].colour)]
  {
  }

  /** One limb's row: its name on its colour, then its four references. */
  method WriteLimbLine(ws: Sheet, summaryStart: nat, i: nat)
    requires i < 4
    modifies ws
    ensures ws.cells == old(ws.cells) + LimbLine(summaryStart, i, 6)
    ensures ws.fills == old(ws.fills)[(TableStart + 2 + i, 1) := Rgb(Limbs[i].colour)]
  {
    var row := TableStart + 2 + i;
    ws.Put(row, 1, Text(Limbs[i].name));
    UpdateAsUnion(old(ws.cells), (row, 1), Text(Limbs[i].name));
    ws.Paint(row, 1, Rgb(Limbs[i].colour));
    var col := 2;
    while col <= 5
      invariant 2 <= col <= 6
      invariant ws.cells == old(ws.cells) + LimbLine(summaryStart, i, col)
      invariant ws.fills == old(ws.fills)[(row, 1) := Rgb(Limbs[i].colour)]
    {
      var ref := Calc(Ref(Sheet2, col, summaryStart + Limbs[i].offset));
      ws.Put(row, col, ref);
      UpdateUnion(old(ws.cells), LimbLine(summaryStart, i, col), (row, col), ref);
      LimbLineNext(summaryStart, i, col);
      col := col + 1;
    }
  }

  /** Appends the labelled piece when its text is not empty. */
  method AppendLabelled(parts: seq<string>, prefix: string, s: string) returns (r: seq<string>)
    ensures r == parts + Labelled(prefix, s)
    ensures |r| == |parts| + (if s == "" then 0 else 1)
  {
    r := parts;
    if s != "" {
      r := r + [prefix + s];
    }
  }

  /** The signalment pieces, gathered one by one as they are found. */
  method GatherSignalment(v: VisitRow, manual: Option<ManualData>, today: Date) returns (parts: seq<string>)
    requires IsValidDate(today)
    ensures parts == SignalmentParts(v, manual, today)
  {
    parts := [];
    if HasManual(manual) {
      parts := AppendManualParts(parts, manual.value);
    }
    ghost var manualParts := parts;
    assert manualParts == if HasManual(manual) then ManualParts(manual.value) else [];
    parts := AppendVisitParts(parts, v, today);
  }

  /** Species, breed and colour, each appended when not blank. */
  method AppendManualParts(parts0: seq<string>, m: ManualData) returns (parts: seq<string>)
    ensures parts == parts0 + ManualParts(m)
  {
    parts := AppendLabelled(parts0, SpeciesLabel, Strip(Get(m, SpeciesKey)));
    parts := AppendLabelled(parts, BreedLabel, Strip(Get(m, BreedKey)));
    parts := AppendLabelled(parts, ColorLabel, Strip(Get(m, ColorKey)));
    ManualPartsSplit(m);
    Regroup4(parts0, Labelled(SpeciesLabel, Strip(Get(m, SpeciesKey))),
      Labelled(BreedLabel, Strip(Get(m, BreedKey))), Labelled(ColorLabel, Strip(Get(m, ColorKey))));
  }

  /** The gender, then the birth date and the age when there is a birth date. */
  method AppendVisitParts(parts0: seq<string>, v: VisitRow, today: Date) returns (parts: seq<string>)
    requires IsValidDate(today)
    ensures parts == parts0 + VisitParts(v, today)
  {
    parts := AppendLabelled(parts0, GenderLabel, v.gender);
    ghost var tail: seq<string> := [];
    if v.dateOfBirth != "" {
      parts := parts + [BirthLabel + v.dateOfBirth];
      var age := CalculateAge(v.dateOfBirth, VisitForAge(v), today);
      tail := [BirthLabel + v.dateOfBirth];
      if age.Some? {
        parts := parts + [AgeText(age.value)];
        Regroup(parts0 + Labelled(GenderLabel, v.gender), tail, [AgeText(age.value)]);
        tail := tail + [AgeText(age.value)];
      }
    }
    Regroup(parts0, Labelled(GenderLabel, v.gender), tail);
    VisitPartsSplit(v, today, tail);
  }

  lemma ManualPartsSplit(m: ManualData)
    ensures ManualParts(m) == Labelled(SpeciesLabel, Strip(Get(m, SpeciesKey))) +
      Labelled(BreedLabel, Strip(Get(m, BreedKey))) + Labelled(ColorLabel, Strip(Get(m, ColorKey)))
  {
  }

  lemma VisitPartsSplit(v: VisitRow, today: Date, tail: seq<string>)
    requires IsValidDate(today)
    requires var age := CalculateAge(v.dateOfBirth, VisitForAge(v), today);
      tail == if v.dateOfBirth == "" then [] else if age.Some? then [BirthLabel + v.dateOfBirth] + [AgeText(age.value)] else [BirthLabel + v.dateOfBirth]
    ensures VisitParts(v, today) == Labelled(GenderLabel, v.gender) + tail
  {
  }

  /**
   * process_sheet1_data. The title and date come first; without manual data the
   * PrimaryDVM and Purdue-ID values are missing and the writer stops (ok is
   * false); without the diagram image it stops after the patient block.
   */
  method ProcessSheet1Data(ws: Sheet, visits: Option<VisitRow>, summaryStart: nat, forelimbStart: nat,
                           manual: Option<ManualData>, imageLoaded: bool, today: Date) returns (ok: bool)
    requires IsValidDate(today)
    modifies ws
    ensures ok <==> HasManual(manual) && imageLoaded
    ensures !HasManual(manual) ==> ws.cells == old(ws.cells) + TitleCells(today) && ws.fills == old(ws.fills)
    ensures HasManual(manual) && !imageLoaded ==>
      ws.cells == old(ws.cells) + TitleCells(today) + PatientUpTo(PatientValues(visits, manual, today).value, 7) &&
      ws.fills == old(ws.fills)
    ensures ok ==>
      ws.cells == old(ws.cells) + Sheet1Cells(PatientValues(visits, manual, today).value, summaryStart, forelimbStart, today) &&
      ws.fills == old(ws.fills) + Sheet1Fills()
  {
    ws.Put(1, 2, Text(ReportTitle));
    ws.Put(1, 4, Text(DateText(today)));
    TwoUpdates(old(ws.cells), (1, 2), Text(ReportTitle), (1, 4), Text(DateText(today)));
    ghost var titled := ws.cells;
    assert titled == old(ws.cells) + TitleCells(today);
    var v := VisitOrBlank(visits);
    var fullName := FullName(v);
    var bodyWeight := BodyWeightText(v);
    var parts := GatherSignalment(v, manual, today);
    if !HasManual(manual) {
      return false;
    }
    var primaryDvm := Strip(Get(manual.value, PrimaryDvmKey));
    var manualId := Strip(Get(manual.value, PurdueIdKey));
    var values := [fullName, Join(parts, PartSeparator), v.id, v.dateOfVisit, bodyWeight, primaryDvm, manualId];
    assert values == PatientValues(visits, manual, today).value;
    WritePatientInfo(ws, values);
    ghost var front := ws.cells;
    assert front == old(ws.cells) + TitleCells(today) + PatientUpTo(values, 7);
    if !imageLoaded {
      return false;
    }
    WriteDashboardBody(ws, summaryStart, forelimbStart);
    ok := true;
    FrontAndBody(old(ws.cells), TitleCells(today), PatientUpTo(values, 7), DiagramCells(summaryStart), HeaderUpTo(6),
      LimbLines(summaryStart, 4), TailCells(forelimbStart));
  }

  /** What follows the patient block once the diagram image is available. */
  method WriteDashboardBody(ws: Sheet, summaryStart: nat, forelimbStart: nat)
    modifies ws
    ensures ws.cells == old(ws.cells) + (DiagramCells(summaryStart) + HeaderUpTo(6) + LimbLines(summaryStart, 4) + TailCells(forelimbStart))
    ensures ws.fills == old(ws.fills) + Sheet1Fills()
  {
    WriteDiagram(ws, summaryStart);
    WriteTableHeader(ws);
    WriteLimbRows(ws, summaryStart);
    WriteTail(ws, forelimbStart);
    FourParts(old(ws.cells), DiagramCells(summaryStart), HeaderUpTo(6), LimbLines(summaryStart, 4), TailCells(forelimbStart));
    ThreeParts(old(ws.fills), DiagramFills(), HeaderFillsUpTo(6), LimbFillsUpTo(4));
  }

  /** The abbreviations note and the symmetry block referring to Sheet2's forelimb and hindlimb rows. */
  method WriteTail(ws: Sheet, forelimbStart: nat)
    modifies ws
    ensures ws.cells == old(ws.cells) + TailCells(forelimbStart)
    ensures ws.fills == old(ws.fills)
  {
    ws.Put(TableStart + 6, 4, Text(Abbreviations));
    ws.Put(SymmetryStart, 3, Text(SymmetryTitle));
    ws.Put(SymmetryStart + 1, 3, Text("Forelimb"));
    ws.Put(SymmetryStart + 1, 4, Calc(Ref(Sheet2, 2, forelimbStart + 2)));
    ws.Put(SymmetryStart + 2, 3, Text("Hindlimb"));
    ws.Put(SymmetryStart + 2, 4, Calc(Ref(Sheet2, 2, forelimbStart + 3)));
    ws.Put(SymmetryStart + 3, 3, Text(SymmetryNote));
    TailWritten(old(ws.cells), forelimbStart);
  }

  /** The seven tail writes, one after another, add TailCells. */
  lemma TailWritten(m: map<Addr, Value>, forelimbStart: nat)
    ensures m[(TableStart + 6, 4) := Text(Abbreviations)][(SymmetryStart, 3) := Text(SymmetryTitle)]
      [(SymmetryStart + 1, 3) := Text("Forelimb")][(SymmetryStart + 1, 4) := Calc(Ref(Sheet2, 2, forelimbStart + 2))]
      [(SymmetryStart + 2, 3) := Text("Hindlimb")][(SymmetryStart + 2, 4) := Calc(Ref(Sheet2, 2, forelimbStart + 3))]
      [(SymmetryStart + 3, 3) := Text(SymmetryNote)] == m + TailCells(forelimbStart)
  {
  }
}
