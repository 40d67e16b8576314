# Gait report layout engine, in Dafny

This project models the report-layout core of a force-plate gait report generator (`excel_processor.py`).
The generator turns the raw trial rows of a FILES_DAT sheet into a two-sheet workbook.

- **Sheet2** holds the cleaned trials and per-row weight-bearing and asymmetry formulas. It also holds the cohort colours, a per-limb mean ± stdev summary table and a Forelimb/Hindlimb symmetry table.
- **Sheet1** is the dashboard: title and date, the patient block with a composed "Signalment", a limb diagram, a summary table and the symmetry-index cells. Its cells are live references into Sheet2's summary rows.

Modules, one per file:

| module | file | what it holds |
|---|---|---|
| `Wrappers` | wrappers.dfy | `Option` |
| `Strings` | strings.dfy | digits, decimal text, `strip()`, `split()`, `join()` |
| `Labels` | labels.dfy | the trial-label rewrite `([A-Z]+)(\d+)` → `\1_\2`, with a reference definition |
| `Cleaner` | cleaner.dfy | `process_original_excel_data`, as pure functions |
| `Formulas` | formulas.dfy | the formulas the report writes, as a datatype; exact real semantics for weight bearing and asymmetry |
| `Grid` | grid.dfy | the worksheet: a `Sheet` class whose `cells` and `fills` maps are updated in place by `Put` and `Paint`; generic map lemmas |
| `DataSheet` | datasheet.dfy | the Sheet2 writers, the colours and the column-width clamp |
| `Age` | age.dfy | `calculate_age_years_months` |
| `Dashboard` | dashboard.dfy | `process_sheet1_data` |
| `Report` | report.dfy | `process_excel_report` and the cross-sheet agreement lemmas |

Writers and specification:
- Every writer is an imperative method on a `Sheet`. Its loop invariants prove `ws.cells == old(ws.cells) + Spec(...)`, where `Spec` is a map built in the writer's own write order.
- Each sheet also has an independent cell-by-cell reference function, `DataSheet.LayoutCell` and `Dashboard.DashboardCell`. In it, a later writer's value wins.
- The lookup lemmas `Sheet2Lookup` and `Sheet1Lookup` prove that the written maps and the reference functions agree on every address.
- The layout properties are stated on the reference functions.

Rows, columns and offsets:
- Rows and columns are 1-based, as in the spreadsheet. With N cleaned trials, the data rows are 2..N+1.
- A cohort is four consecutive rows in the order LF, LH, RF, RH.
- The report passes Sheet1 the anchors `summary_start_row = N+6` and `forelimb_start_row = N+10`.

Where the comments in the code disagree with the code, the model follows the code:
- **Asymmetry in a trailing partial cohort.** The comment says two rows are enough for an LF formula. The guard at line 559 needs the RF row, so three rows are needed. No LH formula is ever written in a partial cohort.
- **Cleaner with no numeric columns.** When "File comment" is the only mapped column, nothing is dropped and no placeholder is used. The result can then have zero rows.
- **Generated labels.** When "File comment" is absent, the generated "Data Source" column is appended last. Column B of Sheet2 is then not the maximum force, which is why the lemmas about force values require `fields[1] == MaxForce`.
- **Stopping errors in `process_sheet1_data`.** Without manual patient data, `primary_dvm` and `manual_id` are never bound and the code stops at line 175. If the diagram image cannot be loaded, `dog_image_row` is never bound and the code stops at line 205. Both are modelled as the dashboard writer returning `ok == false`, with the cells written up to that point.

## Model

| member | source | states |
|---|---|---|
| Labels.RewriteIsSeparated | excel_processor.py:413-416 | the regex substitution equals the reference definition that inserts "_" at every upper-case-letter/digit boundary and nowhere else |
| Labels.SeparatedNoBoundary | excel_processor.py:413-416 | after the rewrite no upper-case letter is directly followed by a digit |
| Labels.RewriteUnchanged | excel_processor.py:413-416 | a label with no letter-digit boundary is left unchanged |
| Labels.RewriteIdempotent | excel_processor.py:413-416 | rewriting twice is rewriting once |
| Labels.RewriteExampleLF | excel_processor.py:412-416 | "LF1" becomes "LF_1" |
| Labels.RewriteExampleRH | excel_processor.py:412-416 | "RH23" becomes "RH_23" |
| Labels.RewriteExampleUnchanged | excel_processor.py:413-416 | a label without digits is unchanged |
| Cleaner.DropRawDataRows | excel_processor.py:381-383 | a row is kept exactly when it comes from the input and has no short name ending in ".dat" (both directions) |
| Cleaner.DropRawDataRowsFilters | excel_processor.py:381-383 | the kept rows are exactly the non-".dat" input rows, in input order: the i-th kept row is the input row at the i-th strictly increasing kept position |
| Cleaner.DropRawDataRowsAppend | excel_processor.py:381-383 | the ".dat" filter works row by row: filtering a concatenation concatenates the filtered parts |
| Cleaner.AvailableFields | excel_processor.py:393-397 | a mapped column is selected exactly when its long name is among the input columns |
| Cleaner.Normalize | excel_processor.py:406-419 | coercion and labelling keep one trial per kept row |
| Cleaner.DropEmptyTrials | excel_processor.py:421-428 | a trial remains exactly when it comes from the input and has a non-zero metric (both directions) |
| Cleaner.DropEmptyTrialsAppend | excel_processor.py:421-428 | the zero filter works trial by trial: filtering a concatenation concatenates the filtered parts |
| Cleaner.DropEmptyTrialsFilters | excel_processor.py:421-428 | the remaining trials are exactly those with a non-zero metric, in input order, at strictly increasing positions |
| Cleaner.DropEmptyTrialsNone | excel_processor.py:421-433 | the zero filter leaves nothing exactly when every trial is all-zero |
| Cleaner.DropEmptyTrialsAll | excel_processor.py:421-428 | trials that all have data pass the zero filter unchanged |
| Cleaner.CleanKept | excel_processor.py:401-441 | "Data Source" is always a column; zero rows only when it is the only column; otherwise the placeholder, no metric column, or no all-zero row |
| Cleaner.Clean | excel_processor.py:376-452 | the same guarantees for the whole cleaner |
| Cleaner.CleanForceSecond | excel_processor.py:386-404 | with "File comment" and the maximum-force column present, the columns start "Data Source", "Maximum force" |
| Cleaner.CleanIgnoresRawDataRows | excel_processor.py:381-383 | inserting a ".dat" row anywhere in the input does not change the result |
| Cleaner.CleanPlaceholderExactly | excel_processor.py:401-452 | the 4-row placeholder is returned exactly when no mapped column exists, or metrics exist and every row is all-zero |
| Cleaner.CleanRowsFromInput | excel_processor.py:404-419 | every output trial carries the coerced metrics and rewritten label of some non-".dat" input row |
| Cleaner.CleanKeepsRow | excel_processor.py:381-428 | every non-".dat" input row whose metrics are not all zero is in the cleaned table at its output index, as the trial of its values; without "File comment" its label is "Data_" followed by its 1-based place among the non-".dat" rows |
| Cleaner.CleanKeepsOrder | excel_processor.py:381-428 | two surviving input rows appear in the cleaned table in their input order |
| Cleaner.CleanGeneratedLabels | excel_processor.py:417-419 | without "File comment" and with no all-zero trial, the j-th trial is labelled "Data_" followed by j+1 |
| Formulas.Round | excel_processor.py:510 | ROUND(x, 0) is within one half of x, halves away from zero |
| Formulas.Abs | excel_processor.py:538 | ABS is non-negative and equals x or -x |
| Formulas.WeightBearingIsPercentage | excel_processor.py:510 | over non-negative forces a weight-bearing value lies in 0..100 |
| Formulas.WeightBearingExamples | excel_processor.py:510 | forces 10, 20, 30, 40 give 10, 20, 30, 40 %; an all-zero cohort gives 0 |
| Formulas.AsymmetryProperties | excel_processor.py:538 | the index is symmetric in its two rows, is 0 exactly for equal non-cancelling values, and lies in 0..2 for non-negative values |
| Formulas.AsymmetryExamples | excel_processor.py:538 | equal forces give 0; 10 against 30 gives 1 |
| Grid.Sheet.Put | excel_processor.py:511 | writing a cell replaces that one cell's value and leaves every fill unchanged |
| Grid.Sheet.Paint | excel_processor.py:596-605 | filling a cell replaces that one cell's fill and leaves every value unchanged |
| DataSheet.WriteTable | excel_processor.py:340-350 | the headers and each trial's fields are added, and nothing else |
| DataSheet.WriteHeaderRow | excel_processor.py:342-345 | row 1 gets the header of every field, in field order, and nothing else |
| DataSheet.WriteDataRow | excel_processor.py:348-351 | row r gets the value of every field of trial r-2, in field order, and nothing else |
| DataSheet.AddAdditionalColumns | excel_processor.py:454-489 | columns E..G get their headers, the arrow at the middle row, and "" elsewhere on the data rows |
| DataSheet.WriteWeightBearing | excel_processor.py:491-512 | column F gets a weight-bearing formula on exactly the rows of complete cohorts |
| DataSheet.WriteCohortWeightBearing | excel_processor.py:498-512 | each of a complete cohort's four rows gets its share formula over the cohort's own four rows of column B |
| DataSheet.WriteAsymmetry | excel_processor.py:519-571 | column G gets an asymmetry formula on exactly the rows that have a partner two rows down in their cohort |
| DataSheet.WriteCohortAsymmetry | excel_processor.py:530-549 | within one cohort LF is compared with RF and LH with RH, each only when the partner row exists |
| DataSheet.WriteTrailingAsymmetry | excel_processor.py:552-571 | the trailing partial cohort adds at most the LF formula, after which column G holds exactly the asymmetry cells of all data rows |
| DataSheet.ApplyColoring | excel_processor.py:579-605 | each data row gets its cohort's bright fill in column A and dim fill in column F, and no other cell is filled |
| DataSheet.CollectStrideRows | excel_processor.py:646-651 | the loop collects exactly the stride-4 row list that `StrideRowsIndex` and `StrideRowsMembers` describe |
| DataSheet.AddSummaryAveragesTable | excel_processor.py:607-697 | adds the Summary title, the header row and the four limb rows |
| DataSheet.WriteLimbSummary | excel_processor.py:631-697 | one limb's row gets its code and, for each metric column, the mean and deviation over that limb's rows when it has any |
| DataSheet.AddForelimbHindlimbSummary | excel_processor.py:707-762 | adds the header and the Forelimb and Hindlimb rows |
| DataSheet.ProcessSheet2 | excel_processor.py:333-374 | Sheet2 ends up holding the whole layout of the cleaned table, and its fills are the cohort colours |
| DataSheet.Sheet2Lookup | excel_processor.py:333-374 | the written Sheet2 and the cell-by-cell reference `LayoutCell` agree on every address |
| DataSheet.TableLookup | excel_processor.py:340-350 | the table occupies exactly rows 1..N+1 and its columns |
| DataSheet.ExtraLookup | excel_processor.py:454-489 | exactly which E..G cells the extra-columns writer fills, and with what |
| DataSheet.WeightBearingUpToLookup | excel_processor.py:497-512 | a column-F formula is written exactly on the complete-cohort rows, with that row's formula |
| DataSheet.AsymmetryUpToLookup | excel_processor.py:526-571 | a column-G formula is written exactly on the rows that have a partner, pairing each row with the row two below |
| DataSheet.ColoringLookup | excel_processor.py:585-605 | fills sit exactly on columns A and F of rows 2..N+1 |
| DataSheet.SummaryLookup | excel_processor.py:610-697 | exactly which summary cells are written, and with what |
| DataSheet.SymmetryLookup | excel_processor.py:713-761 | exactly which symmetry-table cells are written, and with what |
| DataSheet.StrideRowsIndex | excel_processor.py:647-651 | the stride list has (N+1-start)/4+1 entries, the i-th being start+4i |
| DataSheet.StrideRowsMembers | excel_processor.py:647-651 | a row is in the stride list exactly when it is a data row at a multiple of 4 from the start |
| DataSheet.LimbRowList | excel_processor.py:637-651 | limb k's rows are exactly the data rows in position k of their cohort; the list is empty exactly when N ≤ k |
| DataSheet.Sheet2Numbers | excel_processor.py:340-350 | reading a column of the written sheet reads the reference layout |
| DataSheet.Sheet2Table | excel_processor.py:340-350 | columns A..D of the header and data rows hold the cleaned table |
| DataSheet.ForceColumn | excel_processor.py:340-350 | with maximum force second, column B of data row r holds trial r-2's force |
| DataSheet.Sheet2WeightBearing | excel_processor.py:487-512 | column F of a data row holds WeightBearing over B of its cohort's four rows if the cohort is complete, otherwise "" |
| DataSheet.Sheet2CohortWeightBearing | excel_processor.py:497-512 | the four rows of a cohort starting at s all reference exactly B{s}:B{s+3}, or all keep "" |
| DataSheet.Sheet2WeightBearingValue | excel_processor.py:510 | the value is 0 for a zero total, otherwise round(force / cohort total × 100) |
| DataSheet.Sheet2Asymmetry | excel_processor.py:489-571 | column G holds the asymmetry formula exactly where a partner exists, and the partner is in the same cohort two places on |
| DataSheet.Sheet2CohortAsymmetry | excel_processor.py:530-571 | LF pairs with RF when that row exists, LH with RH only in a complete cohort, and RF and RH keep "" |
| DataSheet.Sheet2AsymmetrySixTrials | excel_processor.py:552-562 | with six trials, the two leftover rows get no formula |
| DataSheet.Sheet2AsymmetrySevenTrials | excel_processor.py:552-571 | with seven trials, the leftover LF row gets a formula and LH does not |
| DataSheet.Sheet2AsymmetryValue | excel_processor.py:538 | the value is 0 for a zero average, otherwise \|a−b\| / ((a+b)/2) of the two forces |
| DataSheet.Sheet2LimbSummary | excel_processor.py:624-697 | row N+7+k holds limb code k; its columns B..E are written exactly when limb k has rows, as mean ± stdev over exactly those rows |
| DataSheet.Sheet2Symmetry | excel_processor.py:710-761 | rows N+12 and N+13 are Forelimb and Hindlimb, averaging column G over the LF and LH rows, or the text "" when there are none |
| DataSheet.Hue | excel_processor.py:784-798 | the hue is below 360 |
| DataSheet.HueDistinct | excel_processor.py:784-798 | group numbers 1..360 get pairwise different hues |
| DataSheet.CohortColours | excel_processor.py:579-605 | for up to 360 cohorts, two rows share a bright or a dim fill exactly when they share a cohort, and bright never equals dim |
| DataSheet.ColumnWidth | excel_processor.py:773-776 | the width is the longest text plus 2, clamped to 10..50; it is 50 exactly when a length plus 2 reaches 50 and 10 exactly when both lengths plus 2 are at most 10 |
| Age.ParseDate | excel_processor.py:814-825 | a parsed date is always a real calendar date |
| Age.AgeBetween | excel_processor.py:845-857 | months lie in 0..11, and 12·years + months is the number of whole months elapsed |
| Age.AgeIsMonthsElapsed | excel_processor.py:845-857 | years and months are the quotient and remainder of the whole months elapsed, divided by 12 |
| Age.CalculateAge | excel_processor.py:801-861 | months lie in 0..11; a date of birth without three "/" parts gives no age |
| Age.TwoDigitYear | excel_processor.py:817-823 | a two-digit year below 50 reads as 20xx, otherwise as 19xx |
| Age.SplitDate | excel_processor.py:814-815 | "M/D/Y" splits into its three parts |
| Age.ParseDigitDate | excel_processor.py:814-825 | three digit texts joined by "/" parse exactly when they name a real date |
| Age.ParseFormatDate | excel_processor.py:814-825 | writing a date with a year of at least 100 as "M/D/Y" and parsing it gives the same date |
| Age.AgeExample | excel_processor.py:845-857 | 4/1/18 to 8/21/25 is 7 years 4 months; a visit the day before the birthday loses a month |
| Age.ImpossibleDate | excel_processor.py:825-861 | a date that does not exist gives no age instead of an error |
| Age.ImpossibleDateExamples | excel_processor.py:825 | 30 February and month 13 are rejected; 29 February exists in 2020 but not in 1900 |
| Dashboard.Labelled | excel_processor.py:138-143 | a labelled piece is present exactly when the value is not empty, and is never empty itself |
| Dashboard.ManualParts | excel_processor.py:128-145 | at most three non-empty pieces from the manual data |
| Dashboard.VisitParts | excel_processor.py:147-168 | at most three non-empty pieces from the visits row |
| Dashboard.SignalmentParts | excel_processor.py:126-168 | at most six non-empty pieces; without manual data, only the visit pieces |
| Dashboard.VisitPartsOrder | excel_processor.py:147-168 | without a birth date at most the gender piece appears; with one, the list ends with the DOB piece, followed by the age exactly when the age can be computed |
| Dashboard.BlankVisitCells | excel_processor.py:90-168 | a visits row of blank (NaN, shown "nan") cells yields "Gender: nan" and "DOB: nan" with no age, the name "nan nan" and the weight "nan kg" |
| Dashboard.JoinEmpty | excel_processor.py:171 | joining non-empty pieces gives "" exactly when there are no pieces |
| Dashboard.SignalmentEmpty | excel_processor.py:171 | the Signalment text is empty exactly when no piece applies |
| Dashboard.PatientValues | excel_processor.py:85-175 | the seven patient values exist exactly when manual data is given |
| Dashboard.ZeroPad | excel_processor.py:77 | the padded date field is all digits and reads back as the number; its length is the width, or the number's own digit count when that is larger, in which case it is the plain decimal |
| Dashboard.AppendLabelled | excel_processor.py:138-143 | a piece is appended exactly when its value is not empty |
| Dashboard.GatherSignalment | excel_processor.py:126-168 | the pieces gathered one by one are exactly the signalment pieces |
| Dashboard.AppendManualParts | excel_processor.py:137-145 | species, breed and colour are appended in that order, each only when not blank |
| Dashboard.AppendVisitParts | excel_processor.py:147-168 | the gender, then the birth date and the age are appended exactly as the visit part of the signalment prescribes |
| Dashboard.WritePatientInfo | excel_processor.py:173-187 | rows 3..9 get the seven labels in column A and values in column B |
| Dashboard.WriteDiagram | excel_processor.py:207-225 | the four diagram cells get their limb colour and a reference to column E of that limb's summary row |
| Dashboard.WriteTableHeader | excel_processor.py:230-238 | the header row is written, with grey fills on columns B..E only |
| Dashboard.WriteLimbRows | excel_processor.py:243-282 | each limb row gets its name and colour in column A, and references to columns B..E of its summary row |
| Dashboard.WriteLimbLine | excel_processor.py:244-251 | one limb's row gets its name on its colour in column A and references to columns B..E of its Sheet2 summary row |
| Dashboard.ProcessSheet1Data | excel_processor.py:58-316 | ok exactly with manual data and the image; otherwise the cells written before the stop; on ok, the whole dashboard |
| Dashboard.WriteDashboardBody | excel_processor.py:207-316 | the diagram, the table header, the limb rows and the tail are added together with their fills |
| Dashboard.WriteTail | excel_processor.py:284-316 | adds exactly the abbreviations note and the symmetry block referencing Sheet2's forelimb and hindlimb rows |
| Dashboard.Sheet1Lookup | excel_processor.py:70-316 | the written dashboard and the cell-by-cell reference `DashboardCell` agree on every address |
| Dashboard.PatientLookup | excel_processor.py:173-187 | the patient block occupies exactly columns A..B of rows 3..9 |
| Dashboard.DiagramLookup | excel_processor.py:207-225 | the diagram occupies exactly its four cells |
| Dashboard.TableLookup | excel_processor.py:230-282 | the summary table occupies exactly columns A..E of its five rows |
| Dashboard.TailLookup | excel_processor.py:284-316 | the abbreviation note and the symmetry block occupy exactly their seven cells |
| Report.ProcessExcelReport | excel_processor.py:24-38 | Sheet2 holds the full layout of the cleaned input; Sheet1 is complete exactly when manual data and the image are present, with its references anchored at N+6 and N+10 |
| Report.LimbCodesAgree | excel_processor.py:243-282 | each dashboard limb refers to the summary row that holds its own code |
| Report.LimbOffsetsDistinct | excel_processor.py:243-282 | the four dashboard limbs refer to four different summary rows |
| Report.LimbReference | excel_processor.py:243-282 | the dashboard's limb row shows the limb name and refers to columns B..E of Sheet2 row N+6+offset |
| Report.LimbSummaryRow | excel_processor.py:618-697 | the referenced Sheet2 row holds the limb's code; column c holds the limb's summary, written exactly when the limb has rows |
| Report.LimbRowsAgree | excel_processor.py:637-651 | the rows a dashboard limb's summary averages are exactly that limb's data rows |
| Report.DiagramReference | excel_processor.py:207-225 | each diagram cell refers to column E, the weight bearing, of its limb's summary row |
| Report.SymmetryReferences | excel_processor.py:302-310 | the two symmetry-index cells, next to "Forelimb" and "Hindlimb", refer to column B of rows N+12 and N+13 |
| Report.WrittenLimbReference | excel_processor.py:243-282 | in the written dashboard, limb row i, column c refers to column c of that limb's summary row |
| Report.WrittenLimbCode | excel_processor.py:631-635 | in the written Sheet2, summary row N+7+k holds code k in column A |
| Report.WrittenLimbSummary | excel_processor.py:653-695 | in the written Sheet2, the summary cell exists exactly when limb k has rows |
| Report.WrittenSymmetryRows | excel_processor.py:725-761 | in the written Sheet2, rows N+12 and N+13 hold Forelimb and Hindlimb and their symmetry values |
| Report.WrittenSymmetryReferences | excel_processor.py:305-310 | in the written dashboard, the symmetry-index cells refer to rows N+12 and N+13 |
| Report.WrittenDiagramReference | excel_processor.py:207-225 | in the written dashboard, each diagram cell refers to column E of its limb's summary row |

## Left out

**Formatting and colour conversion**
- Fonts, alignment, merged cells, row heights and Sheet1's column widths: cosmetics that carry no data.
- The per-column width loop is left out too. Only its clamp is modelled, as `ColumnWidth`.
- HLS to RGB conversion and hex formatting (`colorsys`, floating point). Cohort fills are kept as the integer hue with lightness and saturation in percent.
- CohortColours: distinctness is proved for up to 360 cohorts (rows 2..1441). Beyond that the golden-angle hue repeats.

**Inputs and outside effects**
- The diagram image is a parameter, `imageLoaded`.
- The clock is a parameter, `today`: the title date and the default visit date.
- Saving the workbook, the error-workbook fallback, and re-raising the exception in `process_excel_report` are I/O. They are reflected only as the `ok` result.
- pandas details:
  - Timestamp-typed dates are taken as text.
  - A non-text short-name column, on which `.str` raises, is not modelled.
  - Number parsing covers sign, digits and one decimal point. Exponents, `inf`, `nan` and thousands separators are not covered.
- Digits beyond ASCII and whitespace beyond Latin-1 in `int()`, `strip()` and `to_numeric` are not modelled, and neither are `int()` underscores. Digits are `0`-`9`. Whitespace is what Python strips within Latin-1: space, 0x09-0x0D, 0x1C-0x1F, 0x85 and 0xA0 (`Strings.IsSpace`).

**Evaluation not modelled**
- Formula evaluation of AVERAGE, STDEV and ROUNDDOWN in the summary and symmetry tables is not modelled: `MeanStdev` is kept as syntax over its row list. STDEV needs a square root, and the result is text.
- The spreadsheet's `IFERROR` branch is not modelled: the IF guard already excludes division by zero over numeric cells.
- The `except` fallbacks of the weight-bearing and asymmetry writers are not modelled, because nothing in their bodies can raise for integer N.

**Modelled simplifications**
- A body mass of 0 is falsy in the source. The model takes the visit fields as text, where only "" is empty.
- Missing visits data (`visits_df.empty`) is a `None` visits row, which reads as all fields "".
- A blank cell in the visits sheet reaches the source as pandas NaN, which is truthy and prints as "nan". It is given to `VisitRow` as the text "nan" (`Dashboard.BlankCellText`), not as "". So it shows as "Gender: nan", the name "nan nan", "nan kg", and "DOB: nan" with no age, as `Dashboard.BlankVisitCells` states.
- Manual values that are `None` are not modelled: the manual data is a map from keys to text.
