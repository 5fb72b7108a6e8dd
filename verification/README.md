# Teacher efficiency and consolidated reports, in Dafny

This project models the report logic of a small scheduling back end.
Teachers are booked on shifts. Each booking is a *schedule* row with a start,
an end, a shift group, a shift and a shift type. A billing system records an
*invoice* per shift, and each invoice is eligible or not. The model covers
three parts of that back end:

- **Efficiency report** (`generate_efficiency_report`).
  - The schedules of a shift group in a day range are selected.
  - For every teacher and every day of the range, the report works out:
    - how many half-sessions were scheduled: twice the number of schedules starting that day;
    - how many invoices of those shifts were taught (eligible);
    - how many were no-shows (not eligible);
    - the variance `taught - scheduled - no_shows`.
  - It then sums these per teacher over the range.
  - Finally it writes a CSV:
    - a header naming every day;
    - one row per teacher, in ascending name order, holding a four-number block per day and a closing block of totals;
    - a `total` row holding the per-day totals over all teachers and the grand totals.
- **Consolidated report** (`generate_consolidated_report`).
  - The same selection is sorted by `"{date}-{teacher}-{time}"`, lower-cased.
  - Each schedule is written on a line.
  - The right-hand columns of the first lines then receive one summary per teacher, in name order: how many schedules the teacher has, how many were picked up and how many were dropped.
  - The line after the last summary receives the grand totals.
- **Invoicing parser** (`InvoicingParser::parse_invoicing_file`). It reads the billing export and turns every tab into a comma.

The files:

- `efficiency_report.dfy` restates the Rust loops as recursive folds and proves each one equal to a declarative count or sum.
- `efficiency_csv.dfy` and `consolidated_report.dfy` keep the CSV text structured. Each line is a sequence of fields (`csv.dfy`), so that column alignment and totals can be stated.
- `consolidated_report.dfy` also contains the handler's loops as methods with loop invariants. They are proved equal to the declarative layout.
- `usize_variance.dfy` models the integer types Rust infers for the efficiency variance.
- `schedules.dfy`, `teacher_order.dfy`, `sorting.dfy`, `strings.dfy` and `seqs.dfy` hold what both reports share:
  - the schedule row;
  - the de-duplicated teacher list and its sorted form;
  - a stable insertion sort standing for `sort_by`;
  - Rust's `str` ordering, seen as code-point lexicographic order;
  - counting, summing and de-duplication over sequences.
- Dates are day numbers. Times of day are seconds since midnight.
- The database queries are replaced by their results, which are given as sequences:
  - the selected schedules;
  - the invoice table, filtered by shift where the Rust code queries by shift.
- The panics are modelled as `Failure` results:
  - an `unwrap` on a missing summary;
  - an index past the end of the line vector.

## Model

| member | source | states |
|---|---|---|
| InvoicingParser.TabsToCommas | src/utils/invoicing_parser.rs:21 | The cleaned text has the same length as the input and contains no tab. Every tab became a comma and every other character is unchanged at its position. |
| InvoicingParser.TabsToCommasIdempotent | src/utils/invoicing_parser.rs:21 | Cleaning already-cleaned text changes nothing. |
| InvoicingParser.ParseInvoicingFile | src/utils/invoicing_parser.rs:10-26 | A read error is passed on unchanged, and only a read error makes the parser fail. Otherwise the result has the length of the contents and no tab: each tab became a comma and every other character is unchanged at its position. |
| Strings.ReplaceCharByChar | src/utils/invoicing_parser.rs:21 | `str::replace` with a one-character pattern and a one-character replacement keeps the length. Each replaced character becomes the replacement and every other character stays put. |
| Strings.ReplaceAbsent | src/utils/invoicing_parser.rs:21 | Replacing in a text where the pattern's first character never occurs leaves the text unchanged. |
| Strings.LexLeTotal | src/routes/efficiency/generate_efficiency_report.rs:232 | Any two strings are ordered one way or the other by `str::cmp`. |
| Strings.LexLeTransitive | src/routes/efficiency/generate_efficiency_report.rs:232 | The `str` ordering is transitive. |
| Strings.LexLeAntisymmetric | src/routes/efficiency/generate_efficiency_report.rs:232 | Two strings ordered both ways are equal, so a sorted list of distinct names is strictly ascending. |
| Sorting.SortBy | src/routes/efficiency/generate_consolidated_report.rs:81-96 | The sorted rows are a permutation (same multiset) of the input and are non-decreasing in the sort key. |
| Sorting.SortedDistinctUnique | src/routes/efficiency/generate_efficiency_report.rs:232 | Two ascending duplicate-free lists with the same members are equal. The sorted teacher list is therefore determined by its members. |
| Seqs.DedupFirstAppearance | src/routes/efficiency/generate_efficiency_report.rs:116-120 | The push-if-absent loop keeps names in the order of their first appearance in the input. |
| Seqs.DedupLength | src/routes/efficiency/generate_efficiency_report.rs:116-120 | The de-duplicated list is exactly as long as the input when, and only when, the input has no repetition. |
| Schedules.TeachersSpec | src/routes/efficiency/generate_efficiency_report.rs:111-120 | The teacher list holds every row's teacher, nobody else, and each teacher once. Teachers are listed in order of first appearance. |
| Schedules.TeacherPartition | src/routes/efficiency/generate_consolidated_report.rs:128-163 | Summing a per-teacher count over distinct teachers that cover every row gives the same count taken over all rows. |
| TeacherOrder.SortedTeachers | src/routes/efficiency/generate_efficiency_report.rs:232 | The sorted teacher list is a permutation of the de-duplicated list. It is strictly ascending, names every teacher with a row, and names no one else. |
| TeacherOrder.TeacherOrderIndependent | src/routes/efficiency/generate_consolidated_report.rs:126 | Two row lists with the same members give the same sorted teacher list. Sorting the rows first, as the consolidated report does, does not change which teachers get summaries or their order. |
| EfficiencyReport.TallyInvoicesCounts | src/routes/efficiency/generate_efficiency_report.rs:168-174 | Tallying invoices adds the number of eligible ones to `taught` and the number of ineligible ones to `no_shows`. |
| EfficiencyReport.TallyRowsCounts | src/routes/efficiency/generate_efficiency_report.rs:143-175 | Over a day's schedule rows, `taught` and `no_shows` are the sums, row by row, of the eligible and ineligible invoices of that row's shift. |
| EfficiencyReport.DayEntryScheduled | src/routes/efficiency/generate_efficiency_report.rs:131-138 | A day entry names its teacher and date. Its `scheduled` is twice the number of that teacher's schedules starting that day, so it is even and non-negative. |
| EfficiencyReport.DayEntryTally | src/routes/efficiency/generate_efficiency_report.rs:140-187 | A day entry's `taught` and `no_shows` are sums over that teacher's schedules starting that day. Its variance is the signed `taught - scheduled - no_shows`. |
| EfficiencyReport.DayEntryMatched | src/routes/efficiency/generate_efficiency_report.rs:143-175 | `taught + no_shows` equals the number of invoices joined to that day's schedules by shift. |
| EfficiencyReport.AccumulateTotals | src/routes/efficiency/generate_efficiency_report.rs:189-192 | The running totals equal their start values plus the sums of the entries' four columns. |
| EfficiencyReport.SumVariance | src/routes/efficiency/generate_efficiency_report.rs:177-178 | If every entry obeys the variance identity, so do the sums. |
| EfficiencyReport.ScheduledOverRange | src/routes/efficiency/generate_efficiency_report.rs:130-138 | A teacher's `scheduled`, summed over the days of the range, is twice the number of that teacher's schedules starting inside the range. |
| EfficiencyReport.SummarySpec | src/routes/efficiency/generate_efficiency_report.rs:189-211 | A teacher's summary names the teacher and holds the sums of the day entries. Its `scheduled` is twice the teacher's schedules in the range, and its variance is `taught - scheduled - no_shows`. |
| EfficiencyReport.AllDaysLayout | src/routes/efficiency/generate_efficiency_report.rs:122-199 | Day entries are teacher-major: `|teachers| * days` entries, and the entry at position `i*days + j` is teacher `i` on day `start + j`. |
| EfficiencyReport.TeacherDaysBounds | src/routes/efficiency/generate_efficiency_report.rs:123-130 | Every entry of one teacher's loop names that teacher and a day of the range. |
| EfficiencyReport.AllDaysBounds | src/routes/efficiency/generate_efficiency_report.rs:122-130 | Every day entry names a listed teacher and a day of the range. |
| EfficiencyReport.TeacherEntries | src/routes/efficiency/generate_efficiency_report.rs:239-243 | Filtering all entries by a listed teacher gives exactly that teacher's entries, in day order. |
| EfficiencyReport.OneEntryPerDay | src/routes/efficiency/generate_efficiency_report.rs:130-198 | A teacher has exactly one entry for each day of the range. |
| EfficiencyReport.DayColumn | src/routes/efficiency/generate_efficiency_report.rs:284-288 | Filtering all entries by a day of the range gives one entry per teacher, in teacher order. |
| EfficiencyReport.TeacherDaysDates | src/routes/efficiency/generate_efficiency_report.rs:130-198 | The dates of one teacher's entries are the range `start..=end`, ascending. |
| EfficiencyReport.TableDaysSpec | src/routes/efficiency/generate_efficiency_report.rs:194-196 | `table_days` is the day range when some teacher is listed, and empty when none is. |
| EfficiencyReport.TableDayAt | src/routes/efficiency/generate_efficiency_report.rs:194-196 | The `j`-th header day is `start + j` and lies inside the range. |
| EfficiencyCsv.FindSummary | src/routes/efficiency/generate_efficiency_report.rs:253-258 | When found, the summary is the first of the table's summaries that names the teacher, as `.filter(..).next()` returns. It is missing exactly when no summary names the teacher. |
| EfficiencyCsv.TeacherRowsSpec | src/routes/efficiency/generate_efficiency_report.rs:234-270 | The rows render exactly when every teacher's row renders. There is then one row per teacher, in the given order. |
| EfficiencyCsv.GrandTotalSums | src/routes/efficiency/generate_efficiency_report.rs:301-313 | The grand-total loop adds the component-wise sum of all summaries to its start value. |
| EfficiencyCsv.AccumulateBlocks | src/routes/efficiency/generate_efficiency_report.rs:189-192 | Accumulating a teacher's entries into a summary gives the component-wise sum of their blocks. |
| EfficiencyCsv.AddEntriesSums | src/routes/efficiency/generate_efficiency_report.rs:279-293 | The per-day loop's four running totals end at their start values plus the component-wise sum of the entries' blocks. |
| EfficiencyCsv.RowOf | src/routes/efficiency/generate_efficiency_report.rs:234-267 | A listed teacher's row is the teacher's name, the blocks of the teacher's day entries, and the teacher's summary as the closing block. |
| EfficiencyCsv.RenderSucceeds | src/routes/efficiency/generate_efficiency_report.rs:253-258 | The `unwrap` on the summary lookup never panics: every listed teacher has a summary. |
| EfficiencyCsv.ReportRows | src/routes/efficiency/generate_efficiency_report.rs:232-274 | The report has the table's days as its header and one row per teacher in ascending name order. Each row holds that teacher's day blocks and summary. |
| EfficiencyCsv.HeaderSpec | src/routes/efficiency/generate_efficiency_report.rs:222-237 | The header days are the range, or nothing when nobody is scheduled. Row `i` is the `i`-th teacher by name and has one block per header day. |
| EfficiencyCsv.RowDaysSpec | src/routes/efficiency/generate_efficiency_report.rs:239-251 | In each teacher row, block `j` holds that teacher's entry for day `start + j`. |
| EfficiencyCsv.RowTotalsSpec | src/routes/efficiency/generate_efficiency_report.rs:253-267 | A row's closing block is the sum of its day blocks. Its `scheduled` is twice the teacher's schedules in the range. |
| EfficiencyCsv.DayTotalOf | src/routes/efficiency/generate_efficiency_report.rs:278-298 | The totals for a day of the range are the sum of every teacher's entry for that day. |
| EfficiencyCsv.ColumnPermutation | src/routes/efficiency/generate_efficiency_report.rs:284-293 | A day's totals do not depend on the teacher order. |
| EfficiencyCsv.SummaryPermutation | src/routes/efficiency/generate_efficiency_report.rs:307-313 | The grand totals do not depend on the teacher order. |
| EfficiencyCsv.DayScheduledTotal | src/routes/efficiency/generate_efficiency_report.rs:278-298 | The `scheduled` total of a day is twice the number of schedules starting that day. |
| EfficiencyCsv.RangeScheduledTotal | src/routes/efficiency/generate_efficiency_report.rs:301-313 | The grand `scheduled` total is twice the number of schedules starting in the range. |
| EfficiencyCsv.TotalsHeaderOf | src/routes/efficiency/generate_efficiency_report.rs:276-299 | The last row is labelled `total` and has one day block per header day. |
| EfficiencyCsv.TotalsDaysOf | src/routes/efficiency/generate_efficiency_report.rs:276-299 | The `total` row's `j`-th block sums every teacher's entry for day `start + j`. |
| EfficiencyCsv.TotalsGrandOf | src/routes/efficiency/generate_efficiency_report.rs:301-318 | The `total` row's closing block sums all teacher summaries. |
| EfficiencyCsv.TotalsRowSpec | src/routes/efficiency/generate_efficiency_report.rs:276-299 | Under every header day, the `total` row holds the column sum of the teacher rows above it. |
| EfficiencyCsv.TotalsScheduledSpec | src/routes/efficiency/generate_efficiency_report.rs:278-298 | Under header day `start + j`, the `total` row's `scheduled` is twice the number of schedules starting that day. |
| EfficiencyCsv.GrandTotalSpec | src/routes/efficiency/generate_efficiency_report.rs:301-318 | The grand totals are the column sum of the rows' closing blocks. Their `scheduled` is twice the number of schedules in the range. |
| EfficiencyCsv.LinesAlign | src/routes/efficiency/generate_efficiency_report.rs:222-318 | If every row has one block per header day, every line has `5 * days + 7` fields. |
| EfficiencyCsv.ColumnsAlign | src/routes/efficiency/generate_efficiency_report.rs:222-318 | The generated file is rectangular: header, teacher rows and `total` row all have `5 * days + 7` fields. |
| UsizeVariance.CheckedSub | src/routes/efficiency/generate_efficiency_report.rs:177-178 | A `usize` subtraction under overflow checks succeeds exactly when it does not go below zero. The difference then adds back to the minuend. |
| UsizeVariance.WrappingSub | src/routes/efficiency/generate_efficiency_report.rs:177-178 | Without overflow checks the result is a `usize` congruent to the true difference modulo 2^64. |
| UsizeVariance.AsI32 | src/routes/efficiency/generate_efficiency_report.rs:182-185 | `as i32` gives a value in the `i32` range congruent to its operand modulo 2^32. |
| UsizeVariance.AsI32Exact | src/routes/efficiency/generate_efficiency_report.rs:182-185 | The cast returns the `i32` value congruent to its operand. |
| UsizeVariance.DebugVariancePanics | src/routes/efficiency/generate_efficiency_report.rs:177-185 | With overflow checks the variance panics exactly when `taught < scheduled + no_shows`. Otherwise it is the intended value whenever that fits in `i32`. |
| UsizeVariance.ReleaseVarianceAgrees | src/routes/efficiency/generate_efficiency_report.rs:177-185 | Without overflow checks, the two wrapping subtractions and the cast give the intended signed variance whenever it fits in `i32`. |
| UsizeVariance.UntaughtSessionPanics | src/routes/efficiency/generate_efficiency_report.rs:131-178 | Take one schedule with no invoice. The intended variance is -2, and the checked `0 - 2` panics. |
| ConsolidatedReport.TallyTeacher | src/routes/efficiency/generate_consolidated_report.rs:128-148 | The per-teacher loop counts that teacher's rows, their pickups and their drops. |
| ConsolidatedReport.DetailLines | src/routes/efficiency/generate_consolidated_report.rs:104-119 | The first pass lists the teachers in order of first appearance and writes one line per sorted row, in order. |
| ConsolidatedReport.SummaryLines | src/routes/efficiency/generate_consolidated_report.rs:121-166 | The summary pass puts the `k`-th teacher's summary on line `k` and leaves the other lines alone. It ends with the index at the number of teachers and the totals accumulated over all summaries. |
| ConsolidatedReport.GenerateConsolidatedReport | src/routes/efficiency/generate_consolidated_report.rs:81-183 | The handler's loops produce the declarative report: the layout, or the out-of-bounds failure. |
| ConsolidatedReport.SummaryTeachersSpec | src/routes/efficiency/generate_consolidated_report.rs:104-126 | The summarised teachers are sorted and distinct, name every row's teacher and nobody else. They are the same as for the unsorted rows. |
| ConsolidatedReport.TeacherCount | src/routes/efficiency/generate_consolidated_report.rs:104-126 | There are as many summaries as distinct teachers, never more than rows. There are as many as rows exactly when no two rows share a teacher. |
| ConsolidatedReport.ConsolidatedOutcome | src/routes/efficiency/generate_consolidated_report.rs:168-179 | The report fails exactly when no two rows share a teacher, with index and length both equal to the number of rows. Otherwise it equals the corrected report. |
| ConsolidatedReport.EmptyRangePanics | src/routes/efficiency/generate_consolidated_report.rs:168 | With no schedule in range, the report fails indexing line 0 of 0. |
| ConsolidatedReport.CorrectedShape | src/routes/efficiency/generate_consolidated_report.rs:81-183 | The intended report:<br>- the rows are a permutation of the input, sorted by key;<br>- there is one line per row, plus one when every teacher has a single row;<br>- the summaries are on exactly the first `k` lines;<br>- the grand totals are on exactly line `k`. |
| ConsolidatedReport.TeacherSummary | src/routes/efficiency/generate_consolidated_report.rs:128-159 | The `i`-th summary names the `i`-th teacher with that teacher's schedules, pickups and drops over the input. It has at least one schedule and pickups plus drops do not exceed schedules. |
| ConsolidatedReport.PickupsAndDrops | src/routes/efficiency/generate_consolidated_report.rs:141-147 | No row is counted both as a pickup and as a drop, so pickups plus drops never exceed the rows. |
| ConsolidatedReport.TeacherPickupsAndDrops | src/routes/efficiency/generate_consolidated_report.rs:141-147 | For one teacher, pickups plus drops never exceed that teacher's rows. |
| ConsolidatedReport.GrandTotalsSpec | src/routes/efficiency/generate_consolidated_report.rs:161-177 | The totals line exists and holds the number of rows, the number of pickups and the number of drops. The latter two add up to at most the rows. |
| ConsolidatedReport.GrandTotalsAddUp | src/routes/efficiency/generate_consolidated_report.rs:161-177 | Each grand total is the sum of the same column over the summary lines. |
| ConsolidatedReport.ColumnsUnderHeader | src/routes/efficiency/generate_consolidated_report.rs:99-183 | The file is the header plus one line per line of the report:<br>- a line holding a schedule starts with its teacher, shift, shift type, start and end;<br>- summaries and totals sit under the header's last four columns (`Teacher,Scheduled,Picked Up,Dropped`);<br>- a line without them has nine cells, the last one empty. |

## Left out

- Database access and the HTTP layer are not modelled:
  - the `sqlx` queries, the axum handlers, the query parameters;
  - the 500 responses on database errors;
  - logging, and the `println!` of the invoicing file.
  The selected schedules and the invoice table are given as sequences. The schedule filter is `start >= start of first day`, `end <= end of last day`, same shift group.
- The per-schedule invoice query `WHERE invoices.shift = $1` is modelled as a filter of the invoice table. The report uses only each invoice's `eligible` flag.
- `teachers.name` from a `LEFT JOIN` is assumed present. A schedule without a teacher would fail in the database layer, which is not part of this model.
- Reading the billing file is a parameter: the `Result` of `read_to_string`.
- `percentage_variance` is left out, both per teacher and in total. It is `f32` arithmetic that divides by zero for a teacher with no scheduled session, and appears only as a placeholder field.
- Calendar arithmetic is reduced to day numbers:
  - dates are day numbers and times are seconds since midnight;
  - the `Display` of chrono dates and times is not spelled out: the consolidated sort key takes it as functions, and the CSVs keep dates as structured fields;
  - the efficiency report compares `date.to_string()` with a header day; the model assumes that rendering is injective and compares day numbers.
- `succ_opt().unwrap_or(current_date)` at `NaiveDate::MAX` would loop forever. The model ends the range at its last day.
- Most integer widths are not modelled. This covers the `as i32` casts of counts, the `i32` totals of both reports and the `usize` running totals of a teacher's summary. They are unbounded integers, and only the per-day variance subtraction is modelled at its width, in `UsizeVariance`.
- Strings.Lower: lower-cases ASCII letters only, while Rust's `to_lowercase` is Unicode-aware.
- Sorting.SortBy: states a sorted permutation but not stability. `sort_by` is stable, and the model is an insertion sort that keeps equal keys in input order, but that is not proved. Rows tying on the key (same day, time and teacher name up to letter case) come from the database in no specified order.
- The CSV text itself is kept as structured fields, so these are not modelled:
  - commas or newlines inside a teacher name, shift or shift type (neither report escapes them);
  - the removal of newlines inside such values by `replace("\n", "")` in the consolidated report;
  - the newline bookkeeping of each line.
- `schedules.rs`, `shift_groups.rs`, `upload_and_process.rs`, `router.rs`, `main.rs` and `config.rs` are not part of this model.
- The `id` and `shift_group` of a schedule are carried but unused, as in the reports.

## Findings

| source | as written | input that shows it | evidently intended | confidence | as-written member | corrected member |
|---|---|---|---|---|---|---|
| src/routes/efficiency/generate_efficiency_report.rs:177-178 | `taught`, `scheduled` and `no_shows` are `usize`, so `taught - scheduled` panics under overflow checks whenever fewer invoices were taught than half-sessions scheduled | one schedule on a day with no invoice for its shift: `0 - 2` | the signed variance `taught - scheduled - no_shows`, here -2 (which release builds reach by wrapping and the `as i32` cast) | not executed; only builds with overflow checks panic | UsizeVariance.UntaughtSessionPanics | EfficiencyReport.DayEntryTally |
| src/routes/efficiency/generate_consolidated_report.rs:168-179 | the grand totals go onto `csv_lines[current_teacher]`, and `current_teacher` equals the number of teachers, which is the number of lines when no two schedules share a teacher | no schedule in range (index 0 of 0), or a single schedule (index 1 of 1) | a totals line after the last summary, even when no schedule line is left to append it to | not executed | ConsolidatedReport.EmptyRangePanics | ConsolidatedReport.GrandTotalsSpec |

In the corrected report (`ConsolidatedReport.CorrectedReport`), a line with empty left-hand cells carries the totals when no schedule line is left. When a line is left, it equals the report as written (`ConsolidatedReport.ConsolidatedOutcome`). The efficiency model computes the signed variance directly (`EfficiencyReport.DayEntry`). `UsizeVariance.DebugVariancePanics` and `UsizeVariance.ReleaseVarianceAgrees` relate it to the two `usize` readings of the code.
