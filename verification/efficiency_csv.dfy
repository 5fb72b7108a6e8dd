/** The CSV text `generate_efficiency_report` writes from its table (lines
    214-318 of generate_efficiency_report.rs), kept as structured rows.

    The header names every day of `table_days`; each teacher, in ascending
    name order, gets one row holding a block of four numbers per day and a
    closing block with the teacher's totals; a last row, labelled `total`,
    holds the per-day totals over all teachers and the grand totals. */
module EfficiencyCsv {
  import opened Wrappers
  import opened Seqs
  import opened Strings
  import opened Sorting
  import opened Schedules
  import opened EfficiencyReport
  import opened Csv

  /** The four numbers written after an empty cell: `,,{scheduled},{taught},{no_shows},{variance}`. */
  datatype Block = Block(scheduled: int, taught: int, noShows: int, variance: int)

  /** One line after the header: its label, one block per day, the closing block. */
  datatype Row = Row(name: string, days: seq<Block>, total: Block)

  /** The whole file: the header's days, the teacher rows and the `total` row. */
  datatype Report = Report(header: seq<int>, rows: seq<Row>, totals: Row)

  /** `.next().unwrap()` on a teacher without a summary (line 257). */
  datatype RenderError = MissingSummary(teacher: string)

  function BlockScheduled(b: Block): int { b.scheduled }
  function BlockTaught(b: Block): int { b.taught }
  function BlockNoShows(b: Block): int { b.noShows }
  function BlockVariance(b: Block): int { b.variance }

  /** The component-wise sum of some blocks. */
  function BlockSum(bs: seq<Block>): Block
  {
    Block(Sum(bs, BlockScheduled), Sum(bs, BlockTaught), Sum(bs, BlockNoShows), Sum(bs, BlockVariance))
  }

  function DayBlock(e: EfficiencyDay): Block
  {
    Block(e.scheduled, e.taught, e.noShows, e.variance)
  }

  function SummaryBlock(s: EfficiencySummary): Block
  {
    Block(s.scheduled, s.taught, s.noShows, s.variance)
  }

  function Blocks(days: seq<EfficiencyDay>): seq<Block>
  {
    seq(|days|, j requires 0 <= j < |days| => DayBlock(days[j]))
  }

  /** The `j`-th block of every row. */
  function ColumnOf(rows: seq<Row>, j: nat): seq<Block>
    requires forall i :: 0 <= i < |rows| ==> j < |rows[i].days|
  {
    seq(|rows|, i requires 0 <= i < |rows| => rows[i].days[j])
  }

  /** The block of every summary. */
  function SummaryBlocks(summary: seq<EfficiencySummary>): seq<Block>
  {
    seq(|summary|, i requires 0 <= i < |summary| => SummaryBlock(summary[i]))
  }

  /** The closing block of every row. */
  function RowTotals(rows: seq<Row>): seq<Block>
  {
    seq(|rows|, i requires 0 <= i < |rows| => rows[i].total)
  }

  // ---------------------------------------------------------------------------
  // Rendering, loop by loop

  /** Lines 252-257: the first summary naming `t`; `None` where `.unwrap()`
      would panic. */
  function FindSummary(summary: seq<EfficiencySummary>, t: string): (r: Option<EfficiencySummary>)
    ensures r.Some? ==> r.value in summary && r.value.teacher == t
    ensures r.Some? ==> exists i :: 0 <= i < |summary| && summary[i] == r.value &&
                                    forall k :: 0 <= k < i ==> summary[k].teacher != t
    ensures r.None? <==> forall s :: s in summary ==> s.teacher != t
    decreases |summary|
  {
    if |summary| == 0 then None
    else if summary[0].teacher == t then Some(summary[0])
    else
      var r := FindSummary(summary[1..], t);
      assert r.Some? ==> exists i :: 0 <= i < |summary| && summary[i] == r.value &&
                                    forall k :: 0 <= k < i ==> summary[k].teacher != t by {
        if r.Some? {
          var i :| 0 <= i < |summary[1..]| && summary[1..][i] == r.value &&
                   forall k :: 0 <= k < i ==> summary[1..][k].teacher != t;
          assert summary[i + 1] == r.value;
        }
      }
      assert summary == [summary[0]] + summary[1..];
      r
  }

  /** Lines 234-270: the row of teacher `t`, its day blocks taken from the
      entries naming `t` in table order. */
  function TeacherRow(table: EfficiencyTable, t: string): Result<Row, RenderError>
  {
    match FindSummary(table.summary, t)
    case None => Failure(MissingSummary(t))
    case Some(s) => Success(Row(t, Blocks(Filter(table.days, EntryOf(t))), SummaryBlock(s)))
  }

  /** Lines 234-274: the rows of teachers `ts`, in that order; the first
      missing summary stops the rendering. */
  function TeacherRows(table: EfficiencyTable, ts: seq<string>): Result<seq<Row>, RenderError>
    decreases |ts|
  {
    if |ts| == 0 then Success([])
    else
      match TeacherRow(table, ts[0])
      case Failure(e) => Failure(e)
      case Success(row) =>
        match TeacherRows(table, ts[1..])
        case Failure(e) => Failure(e)
        case Success(rows) => Success([row] + rows)
  }

  /** The rows render exactly when every teacher's row does, one row per
      teacher in the given order. */
  lemma {:induction false} TeacherRowsSpec(table: EfficiencyTable, ts: seq<string>)
    ensures var r := TeacherRows(table, ts);
      && (r.Success? <==> forall t :: t in ts ==> TeacherRow(table, t).Success?)
      && (r.Success? ==> |r.value| == |ts|)
      && (r.Success? ==> forall i :: 0 <= i < |ts| ==> TeacherRow(table, ts[i]) == Success(r.value[i]))
    decreases |ts|
  {
    if |ts| > 0 {
      assert ts == [ts[0]] + ts[1..];
      TeacherRowsSpec(table, ts[1..]);
    }
  }

  /** Lines 279-293: the four running totals, each entry added in turn. */
  function AddEntries(acc: Block, days: seq<EfficiencyDay>): Block
    decreases |days|
  {
    if |days| == 0 then acc
    else
      var e := days[0];
      AddEntries(Block(acc.scheduled + e.scheduled, acc.taught + e.taught,
                       acc.noShows + e.noShows, acc.variance + e.variance), days[1..])
  }

  /** Lines 278-298: the totals of the entries dated `d`. */
  function DayTotal(days: seq<EfficiencyDay>, d: int): Block
  {
    AddEntries(Block(0, 0, 0, 0), Filter(days, EntryOn(d)))
  }

  /** Lines 301-313: the summaries added up. */
  function GrandTotal(acc: Block, summary: seq<EfficiencySummary>): Block
    decreases |summary|
  {
    if |summary| == 0 then acc
    else
      var s := summary[0];
      GrandTotal(Block(acc.scheduled + s.scheduled, acc.taught + s.taught,
                       acc.noShows + s.noShows, acc.variance + s.variance), summary[1..])
  }

  /** Lines 276-318: the `total` row, per-day totals then grand totals. */
  function TotalsRow(table: EfficiencyTable): Row
  {
    var dayTotals := seq(|table.tableDays|, j requires 0 <= j < |table.tableDays| =>
                           DayTotal(table.days, table.tableDays[j]));
    Row("total", dayTotals, GrandTotal(Block(0, 0, 0, 0), table.summary))
  }

  /** Lines 214-318: the table rendered; teachers are sorted by name first. */
  function Render(table: EfficiencyTable): Result<Report, RenderError>
  {
    match TeacherRows(table, SortBy(table.teachers, Id))
    case Failure(e) => Failure(e)
    case Success(rows) => Success(Report(table.tableDays, rows, TotalsRow(table)))
  }

  /** Lines 111-318 without the database and HTTP parts: `ss` are the
      selected schedules, `invoices` the invoice table, `start..=end` the
      requested days. */
  function GenerateEfficiencyReport(ss: seq<Schedule>, invoices: seq<Invoice>, start: int, end: int)
    : Result<Report, RenderError>
  {
    Render(BuildTable(ss, invoices, start, end))
  }

  // ---------------------------------------------------------------------------
  // Fields of the CSV lines

  /** Lines 224-228 for each day: the date and the four column names. */
  function DayHeaders(days: seq<int>): seq<Field>
    decreases |days|
  {
    if |days| == 0 then []
    else [Date(days[0]), Text("scheduled"), Text("taught"), Text("no_shows"), Text("variance")]
         + DayHeaders(days[1..])
  }

  /** Lines 222-228: the header line. */
  function HeaderFields(days: seq<int>): seq<Field>
  {
    [Text("teacher")] + DayHeaders(days)
    + [Text("total"), Text("scheduled"), Text("taught"), Text("no_shows"), Text("variance"),
       Text("percentage_variance")]
  }

  function BlockFields(b: Block): seq<Field>
  {
    [Text(""), Number(b.scheduled), Number(b.taught), Number(b.noShows), Number(b.variance)]
  }

  function BlocksFields(bs: seq<Block>): seq<Field>
    decreases |bs|
  {
    if |bs| == 0 then [] else BlockFields(bs[0]) + BlocksFields(bs[1..])
  }

  /** Lines 237-268 and 276-318: a row's fields; the closing block is
      followed by the percentage. */
  function RowFields(r: Row): seq<Field>
  {
    [Text(r.name)] + BlocksFields(r.days) + BlockFields(r.total) + [Percentage]
  }

  /** Every line of the file, header first. */
  function Lines(rep: Report): seq<seq<Field>>
  {
    [HeaderFields(rep.header)]
    + seq(|rep.rows|, i requires 0 <= i < |rep.rows| => RowFields(rep.rows[i]))
    + [RowFields(rep.totals)]
  }

  // ---------------------------------------------------------------------------
  // Properties of the folds

  /** The grand totals are the block sum of the summaries. */
  lemma {:induction false} GrandTotalSums(acc: Block, summary: seq<EfficiencySummary>)
    ensures var b := BlockSum(SummaryBlocks(summary));
      GrandTotal(acc, summary) == Block(acc.scheduled + b.scheduled, acc.taught + b.taught,
                                        acc.noShows + b.noShows, acc.variance + b.variance)
    decreases |summary|
  {
    if |summary| > 0 {
      var s := summary[0];
      var bs := SummaryBlocks(summary);
      GrandTotalSums(Block(acc.scheduled + s.scheduled, acc.taught + s.taught,
                           acc.noShows + s.noShows, acc.variance + s.variance), summary[1..]);
      assert bs == [SummaryBlock(s)] + SummaryBlocks(summary[1..]);
      SumCons(SummaryBlock(s), SummaryBlocks(summary[1..]), BlockScheduled);
      SumCons(SummaryBlock(s), SummaryBlocks(summary[1..]), BlockTaught);
      SumCons(SummaryBlock(s), SummaryBlocks(summary[1..]), BlockNoShows);
      SumCons(SummaryBlock(s), SummaryBlocks(summary[1..]), BlockVariance);
    }
  }

  /** The per-day loop adds the component-wise sum of the entries' blocks
      to its start value. */
  lemma {:induction false} AddEntriesSums(acc: Block, days: seq<EfficiencyDay>)
    ensures var b := BlockSum(Blocks(days));
      AddEntries(acc, days) == Block(acc.scheduled + b.scheduled, acc.taught + b.taught,
                                     acc.noShows + b.noShows, acc.variance + b.variance)
    decreases |days|
  {
    if |days| > 0 {
      var e := days[0];
      var bs := Blocks(days);
      AddEntriesSums(Block(acc.scheduled + e.scheduled, acc.taught + e.taught,
                           acc.noShows + e.noShows, acc.variance + e.variance), days[1..]);
      assert bs == [DayBlock(e)] + Blocks(days[1..]);
      SumCons(DayBlock(e), Blocks(days[1..]), BlockScheduled);
      SumCons(DayBlock(e), Blocks(days[1..]), BlockTaught);
      SumCons(DayBlock(e), Blocks(days[1..]), BlockNoShows);
      SumCons(DayBlock(e), Blocks(days[1..]), BlockVariance);
    }
  }

  /** Blocks listed once per teacher add up alike whatever the teacher order. */
  lemma PermutedSum(a: seq<string>, b: seq<string>, xs: seq<Block>, ys: seq<Block>,
                    g: string -> Block, f: Block -> int)
    requires multiset(a) == multiset(b)
    requires |xs| == |a| && forall i :: 0 <= i < |a| ==> xs[i] == g(a[i])
    requires |ys| == |b| && forall i :: 0 <= i < |b| ==> ys[i] == g(b[i])
    ensures Sum(xs, f) == Sum(ys, f)
  {
    var h := (t: string) => f(g(t));
    SumMap(xs, a, f, h);
    SumPermutation(a, b, h);
    SumMap(ys, b, f, h);
  }

  lemma PermutedBlockSum(a: seq<string>, b: seq<string>, xs: seq<Block>, ys: seq<Block>, g: string -> Block)
    requires multiset(a) == multiset(b)
    requires |xs| == |a| && forall i :: 0 <= i < |a| ==> xs[i] == g(a[i])
    requires |ys| == |b| && forall i :: 0 <= i < |b| ==> ys[i] == g(b[i])
    ensures BlockSum(xs) == BlockSum(ys)
  {
    PermutedSum(a, b, xs, ys, g, BlockScheduled);
    PermutedSum(a, b, xs, ys, g, BlockTaught);
    PermutedSum(a, b, xs, ys, g, BlockNoShows);
    PermutedSum(a, b, xs, ys, g, BlockVariance);
  }

  /** Adding up day entries and then taking the block is the block sum of
      their blocks. */
  lemma AccumulateBlocks(t: string, days: seq<EfficiencyDay>)
    ensures SummaryBlock(Accumulate(EfficiencySummary(t, 0, 0, 0, 0), days)) == BlockSum(Blocks(days))
  {
    AccumulateTotals(EfficiencySummary(t, 0, 0, 0, 0), days);
    SumMap(days, Blocks(days), ScheduledOf, BlockScheduled);
    SumMap(days, Blocks(days), TaughtOf, BlockTaught);
    SumMap(days, Blocks(days), NoShowsOf, BlockNoShows);
    SumMap(days, Blocks(days), VarianceOf, BlockVariance);
  }

  lemma {:induction false} DayHeadersLength(days: seq<int>)
    ensures |DayHeaders(days)| == 5 * |days|
    decreases |days|
  {
    if |days| > 0 {
      DayHeadersLength(days[1..]);
    }
  }

  lemma {:induction false} BlocksFieldsLength(bs: seq<Block>)
    ensures |BlocksFields(bs)| == 5 * |bs|
    decreases |bs|
  {
    if |bs| > 0 {
      BlocksFieldsLength(bs[1..]);
    }
  }

  // ---------------------------------------------------------------------------
  // Properties of the report

  /** The row a listed teacher gets: the blocks of the teacher's day list
      and the block of the teacher's summary. */
  lemma RowOf(ss: seq<Schedule>, invoices: seq<Invoice>, start: int, end: int, t: string)
    requires t in Teachers(ss)
    ensures var days := TeacherDays(ss, invoices, t, start, end);
      TeacherRow(BuildTable(ss, invoices, start, end), t)
        == Success(Row(t, Blocks(days), SummaryBlock(Summarize(t, days))))
  {
    var ts := Teachers(ss);
    var table := BuildTable(ss, invoices, start, end);
    var days := TeacherDays(ss, invoices, t, start, end);
    TeachersSpec(ss);
    TeacherEntries(ss, invoices, ts, start, end, t);
    forall i | 0 <= i < |ts|
      ensures table.summary[i].teacher == ts[i]
    {
      AccumulateTotals(EfficiencySummary(ts[i], 0, 0, 0, 0), TeacherDays(ss, invoices, ts[i], start, end));
    }
    var k := IndexOf(ts, t);
    assert table.summary[k] == Summarize(t, days);
    var found := FindSummary(table.summary, t);
    assert found.Some?;
    var m :| 0 <= m < |table.summary| && table.summary[m] == found.value;
    assert ts[m] == t;
  }

  /** The report always renders: every teacher has a summary. */
  lemma RenderSucceeds(ss: seq<Schedule>, invoices: seq<Invoice>, start: int, end: int)
    ensures GenerateEfficiencyReport(ss, invoices, start, end).Success?
  {
    var ts := SortBy(Teachers(ss), Id);
    SortByMembers(Teachers(ss), Id);
    forall t | t in ts
      ensures TeacherRow(BuildTable(ss, invoices, start, end), t).Success?
    {
      RowOf(ss, invoices, start, end, t);
    }
    TeacherRowsSpec(BuildTable(ss, invoices, start, end), ts);
  }

  /** Every teacher row, in terms of the teacher's day list. */
  lemma ReportRows(ss: seq<Schedule>, invoices: seq<Invoice>, start: int, end: int)
    ensures var r := GenerateEfficiencyReport(ss, invoices, start, end);
      var ts := SortBy(Teachers(ss), Id);
      && r.Success?
      && r.value.header == BuildTable(ss, invoices, start, end).tableDays
      && |r.value.rows| == |ts|
      && forall i :: 0 <= i < |ts| ==>
           r.value.rows[i] == Row(ts[i], Blocks(TeacherDays(ss, invoices, ts[i], start, end)),
                                  SummaryBlock(Summarize(ts[i], TeacherDays(ss, invoices, ts[i], start, end))))
  {
    var ts := SortBy(Teachers(ss), Id);
    var table := BuildTable(ss, invoices, start, end);
    RenderSucceeds(ss, invoices, start, end);
    SortByMembers(Teachers(ss), Id);
    TeacherRowsSpec(table, ts);
    var rows := TeacherRows(table, ts).value;
    forall i | 0 <= i < |ts|
      ensures rows[i] == Row(ts[i], Blocks(TeacherDays(ss, invoices, ts[i], start, end)),
                             SummaryBlock(Summarize(ts[i], TeacherDays(ss, invoices, ts[i], start, end))))
    {
      RowOf(ss, invoices, start, end, ts[i]);
    }
  }

  /** Lines 222-234: the header lists every day of the range in order (none
      when there is no teacher), and the teacher rows follow the sorted
      teacher list, each with as many day blocks as the header has days. */
  lemma HeaderSpec(ss: seq<Schedule>, invoices: seq<Invoice>, start: int, end: int)
    ensures var r := GenerateEfficiencyReport(ss, invoices, start, end);
      var ts := SortBy(Teachers(ss), Id);
      && r.Success?
      && r.value.header == (if |ts| == 0 then [] else Range(start, end))
      && |r.value.rows| == |ts|
      && forall i :: 0 <= i < |ts| ==>
           r.value.rows[i].name == ts[i] && |r.value.rows[i].days| == |r.value.header|
  {
    var r := GenerateEfficiencyReport(ss, invoices, start, end);
    var ts := SortBy(Teachers(ss), Id);
    ReportRows(ss, invoices, start, end);
    assert r.value.header == (if |ts| == 0 then [] else Range(start, end)) by {
      TableDaysSpec(ss, invoices, start, end);
      SortByMembers(Teachers(ss), Id);
    }
    RowsUnderHeader(ss, invoices, start, end, ts, r.value);
  }

  /** Rows holding each teacher's day blocks have one block per day of a
      header that runs through the range. */
  lemma RowsUnderHeader(ss: seq<Schedule>, invoices: seq<Invoice>, start: int, end: int, ts: seq<string>, rep: Report)
    requires rep.header == (if |ts| == 0 then [] else Range(start, end))
    requires |rep.rows| == |ts|
    requires forall i :: 0 <= i < |ts| ==>
               rep.rows[i] == Row(ts[i], Blocks(TeacherDays(ss, invoices, ts[i], start, end)),
                                  SummaryBlock(Summarize(ts[i], TeacherDays(ss, invoices, ts[i], start, end))))
    ensures forall i :: 0 <= i < |ts| ==> rep.rows[i].name == ts[i] && |rep.rows[i].days| == |rep.header|
  {
  }

  /** Lines 237-250: the `j`-th block of a teacher's row is that teacher's
      entry for the `j`-th day of the range. */
  lemma RowDaysSpec(ss: seq<Schedule>, invoices: seq<Invoice>, start: int, end: int)
    ensures var r := GenerateEfficiencyReport(ss, invoices, start, end);
      var ts := SortBy(Teachers(ss), Id);
      && r.Success?
      && |r.value.rows| == |ts|
      && forall i :: 0 <= i < |ts| ==>
           && |r.value.rows[i].days| == Span(start, end)
           && forall j :: 0 <= j < Span(start, end) ==>
                r.value.rows[i].days[j] == DayBlock(DayEntry(ss, invoices, ts[i], start + j))
  {
    var ts := SortBy(Teachers(ss), Id);
    ReportRows(ss, invoices, start, end);
    var rows := GenerateEfficiencyReport(ss, invoices, start, end).value.rows;
    forall i | 0 <= i < |ts|
      ensures |rows[i].days| == Span(start, end)
      ensures forall j :: 0 <= j < Span(start, end) ==>
                rows[i].days[j] == DayBlock(DayEntry(ss, invoices, ts[i], start + j))
    {
      DayBlocks(ss, invoices, ts[i], start, end);
    }
  }

  /** The blocks of a teacher's day list, day by day. */
  lemma DayBlocks(ss: seq<Schedule>, invoices: seq<Invoice>, t: string, start: int, end: int)
    ensures var bs := Blocks(TeacherDays(ss, invoices, t, start, end));
      && |bs| == Span(start, end)
      && forall j :: 0 <= j < Span(start, end) ==> bs[j] == DayBlock(DayEntry(ss, invoices, t, start + j))
  {
  }

  /** Lines 237-268: each teacher row closes with the sum of its day blocks,
      whose scheduled part is twice the teacher's schedules starting within
      the range. */
  lemma RowTotalsSpec(ss: seq<Schedule>, invoices: seq<Invoice>, start: int, end: int)
    ensures var r := GenerateEfficiencyReport(ss, invoices, start, end);
      var ts := SortBy(Teachers(ss), Id);
      && r.Success?
      && |r.value.rows| == |ts|
      && forall i :: 0 <= i < |ts| ==>
           && r.value.rows[i].total == BlockSum(r.value.rows[i].days)
           && r.value.rows[i].total.scheduled == 2 * Count(ss, ByTeacher(ts[i], StartsBetween(start, end)))
  {
    var ts := SortBy(Teachers(ss), Id);
    ReportRows(ss, invoices, start, end);
    var rows := GenerateEfficiencyReport(ss, invoices, start, end).value.rows;
    forall i | 0 <= i < |ts|
      ensures rows[i].total == BlockSum(rows[i].days)
      ensures rows[i].total.scheduled == 2 * Count(ss, ByTeacher(ts[i], StartsBetween(start, end)))
    {
      AccumulateBlocks(ts[i], TeacherDays(ss, invoices, ts[i], start, end));
      SummarySpec(ss, invoices, ts[i], start, end);
    }
  }

  /** Lines 276-299 for one day of the range: the day's totals are the
      block sum of every teacher's entry for that day. */
  lemma DayTotalOf(ss: seq<Schedule>, invoices: seq<Invoice>, start: int, end: int, d: int)
    requires start <= d <= end
    ensures DayTotal(BuildTable(ss, invoices, start, end).days, d)
         == BlockSum(Blocks(Column(ss, invoices, Teachers(ss), d)))
  {
    DayColumn(ss, invoices, Teachers(ss), start, end, d);
    AddEntriesSums(Block(0, 0, 0, 0), Column(ss, invoices, Teachers(ss), d));
  }

  /** A day's column adds up alike whatever the teacher order. */
  lemma ColumnPermutation(ss: seq<Schedule>, invoices: seq<Invoice>, a: seq<string>, b: seq<string>, d: int)
    requires multiset(a) == multiset(b)
    ensures BlockSum(Blocks(Column(ss, invoices, a, d))) == BlockSum(Blocks(Column(ss, invoices, b, d)))
  {
    PermutedBlockSum(a, b, Blocks(Column(ss, invoices, a, d)), Blocks(Column(ss, invoices, b, d)),
                     (t: string) => DayBlock(DayEntry(ss, invoices, t, d)));
  }

  /** The summaries add up alike whatever the teacher order. */
  lemma SummaryPermutation(ss: seq<Schedule>, invoices: seq<Invoice>, a: seq<string>, b: seq<string>,
                           start: int, end: int)
    requires multiset(a) == multiset(b)
    ensures BlockSum(SummaryBlocks(Summaries(ss, invoices, a, start, end)))
         == BlockSum(SummaryBlocks(Summaries(ss, invoices, b, start, end)))
  {
    PermutedBlockSum(a, b, SummaryBlocks(Summaries(ss, invoices, a, start, end)),
                     SummaryBlocks(Summaries(ss, invoices, b, start, end)),
                     (t: string) => SummaryBlock(Summarize(t, TeacherDays(ss, invoices, t, start, end))));
  }

  /** The scheduled total of one day over all teachers is twice the
      schedules starting that day. */
  lemma DayScheduledTotal(ss: seq<Schedule>, invoices: seq<Invoice>, d: int)
    ensures BlockSum(Blocks(Column(ss, invoices, Teachers(ss), d))).scheduled == 2 * Count(ss, StartsBetween(d, d))
  {
    var ts := Teachers(ss);
    var bs := Blocks(Column(ss, invoices, ts, d));
    var twice := (t: string) => 2 * Count(ss, ByTeacher(t, StartsBetween(d, d)));
    forall i | 0 <= i < |ts|
      ensures BlockScheduled(bs[i]) == twice(ts[i])
    {
      DayEntryScheduled(ss, invoices, ts[i], d);
    }
    SumMap(bs, ts, BlockScheduled, twice);
    SumDouble(ts, twice, PerTeacherCount(ss, StartsBetween(d, d)));
    TeachersSpec(ss);
    TeacherPartition(ss, ts, StartsBetween(d, d));
  }

  /** The scheduled grand total over all teachers is twice the schedules
      starting within the range. */
  lemma RangeScheduledTotal(ss: seq<Schedule>, invoices: seq<Invoice>, start: int, end: int)
    ensures BlockSum(SummaryBlocks(Summaries(ss, invoices, Teachers(ss), start, end))).scheduled
         == 2 * Count(ss, StartsBetween(start, end))
  {
    var ts := Teachers(ss);
    var bs := SummaryBlocks(Summaries(ss, invoices, ts, start, end));
    var twice := (t: string) => 2 * Count(ss, ByTeacher(t, StartsBetween(start, end)));
    forall i | 0 <= i < |ts|
      ensures BlockScheduled(bs[i]) == twice(ts[i])
    {
      SummarySpec(ss, invoices, ts[i], start, end);
    }
    SumMap(bs, ts, BlockScheduled, twice);
    SumDouble(ts, twice, PerTeacherCount(ss, StartsBetween(start, end)));
    TeachersSpec(ss);
    TeacherPartition(ss, ts, StartsBetween(start, end));
  }

  /** A rendered table keeps its days as the header and ends with its
      `total` row. */
  lemma RenderedParts(table: EfficiencyTable)
    requires Render(table).Success?
    ensures Render(table).value.header == table.tableDays
    ensures Render(table).value.totals == TotalsRow(table)
  {
  }

  /** The `total` row is labelled `total` and has one block per day of the
      header, which is the day range (or empty when nobody is scheduled). */
  lemma TotalsHeaderOf(ss: seq<Schedule>, invoices: seq<Invoice>, start: int, end: int)
    ensures var r := GenerateEfficiencyReport(ss, invoices, start, end);
      && r.Success?
      && r.value.header == (if |Teachers(ss)| == 0 then [] else Range(start, end))
      && r.value.totals.name == "total"
      && |r.value.totals.days| == |r.value.header|
  {
    RenderSucceeds(ss, invoices, start, end);
    RenderedParts(BuildTable(ss, invoices, start, end));
    TableDaysSpec(ss, invoices, start, end);
  }

  /** The `total` row: for each day of the header, the block sum of every
      teacher's entry for that day. */
  lemma TotalsDaysOf(ss: seq<Schedule>, invoices: seq<Invoice>, start: int, end: int)
    ensures var r := GenerateEfficiencyReport(ss, invoices, start, end);
      && r.Success?
      && |r.value.totals.days| == |r.value.header|
      && forall j :: 0 <= j < |r.value.header| ==>
           r.value.totals.days[j] == BlockSum(Blocks(Column(ss, invoices, Teachers(ss), start + j)))
  {
    RenderSucceeds(ss, invoices, start, end);
    RenderedParts(BuildTable(ss, invoices, start, end));
    TotalsRowDays(ss, invoices, start, end);
  }

  /** The `total` row's closing block: the block sum of the summaries. */
  lemma TotalsGrandOf(ss: seq<Schedule>, invoices: seq<Invoice>, start: int, end: int)
    ensures var r := GenerateEfficiencyReport(ss, invoices, start, end);
      && r.Success?
      && r.value.totals.total == BlockSum(SummaryBlocks(Summaries(ss, invoices, Teachers(ss), start, end)))
  {
    RenderSucceeds(ss, invoices, start, end);
    RenderedGrand(BuildTable(ss, invoices, start, end));
  }

  /** The grand totals of any rendered table are the block sum of its
      summaries. */
  lemma RenderedGrand(table: EfficiencyTable)
    requires Render(table).Success?
    ensures Render(table).value.totals.total == BlockSum(SummaryBlocks(table.summary))
  {
    RenderedParts(table);
    GrandTotalSums(Block(0, 0, 0, 0), table.summary);
  }

  /** Each day block of the `total` row of the built table adds up every
      teacher's entry for the day it stands under. */
  lemma TotalsRowDays(ss: seq<Schedule>, invoices: seq<Invoice>, start: int, end: int)
    ensures var table := BuildTable(ss, invoices, start, end);
      && |TotalsRow(table).days| == |table.tableDays|
      && forall j :: 0 <= j < |table.tableDays| ==>
           TotalsRow(table).days[j] == BlockSum(Blocks(Column(ss, invoices, Teachers(ss), start + j)))
  {
    var table := BuildTable(ss, invoices, start, end);
    forall j | 0 <= j < |table.tableDays|
      ensures start <= table.tableDays[j] <= end && table.tableDays[j] == start + j
    {
      TableDayAt(ss, invoices, start, end, j);
    }
    forall d | start <= d <= end
      ensures DayTotal(table.days, d) == BlockSum(Blocks(Column(ss, invoices, Teachers(ss), d)))
    {
      DayTotalOf(ss, invoices, start, end, d);
    }
    TotalsRowFromDays(ss, invoices, start, end, table);
  }

  /** A table whose header runs through the days from `start` on, and whose
      entries for each of those days are the day's column, has a `total`
      row adding up each column. */
  lemma TotalsRowFromDays(ss: seq<Schedule>, invoices: seq<Invoice>, start: int, end: int, table: EfficiencyTable)
    requires forall j :: 0 <= j < |table.tableDays| ==> start <= table.tableDays[j] <= end && table.tableDays[j] == start + j
    requires forall d :: start <= d <= end ==>
               DayTotal(table.days, d) == BlockSum(Blocks(Column(ss, invoices, Teachers(ss), d)))
    ensures |TotalsRow(table).days| == |table.tableDays|
    ensures forall j :: 0 <= j < |table.tableDays| ==>
              TotalsRow(table).days[j] == BlockSum(Blocks(Column(ss, invoices, Teachers(ss), start + j)))
  {
    forall j | 0 <= j < |table.tableDays|
      ensures TotalsRow(table).days[j] == BlockSum(Blocks(Column(ss, invoices, Teachers(ss), start + j)))
    {
      TotalsRowAt(table, j);
    }
  }

  /** The `total` row's `j`-th block adds up the entries of the `j`-th day. */
  lemma TotalsRowAt(table: EfficiencyTable, j: nat)
    requires j < |table.tableDays|
    ensures TotalsRow(table).days[j] == DayTotal(table.days, table.tableDays[j])
  {
  }

  /** A `total` row whose day blocks add up the day's entries over one
      teacher order adds up the columns of rows listed in another order of
      the same teachers. */
  lemma ColumnTotals(ss: seq<Schedule>, invoices: seq<Invoice>, start: int, ts0: seq<string>, ts: seq<string>,
                     rep: Report)
    requires multiset(ts0) == multiset(ts)
    requires |rep.rows| == |ts| && |rep.totals.days| == |rep.header|
    requires forall i :: 0 <= i < |ts| ==>
               |rep.rows[i].days| == |rep.header| &&
               forall j :: 0 <= j < |rep.header| ==> rep.rows[i].days[j] == DayBlock(DayEntry(ss, invoices, ts[i], start + j))
    requires forall j :: 0 <= j < |rep.header| ==>
               rep.totals.days[j] == BlockSum(Blocks(Column(ss, invoices, ts0, start + j)))
    ensures forall j :: 0 <= j < |rep.header| ==> rep.totals.days[j] == BlockSum(ColumnOf(rep.rows, j))
  {
    forall j | 0 <= j < |rep.header|
      ensures rep.totals.days[j] == BlockSum(ColumnOf(rep.rows, j))
    {
      ColumnAt(ss, invoices, start, ts, rep.rows, |rep.header|, j);
      ColumnPermutation(ss, invoices, ts0, ts, start + j);
    }
  }

  /** Rows whose blocks are the teachers' entries for the days from
      `start` on have the `j`-th day's column of entries as their `j`-th
      column. */
  lemma ColumnAt(ss: seq<Schedule>, invoices: seq<Invoice>, start: int, ts: seq<string>, rows: seq<Row>,
                 n: nat, j: nat)
    requires j < n && |rows| == |ts|
    requires forall i :: 0 <= i < |ts| ==>
               |rows[i].days| == n &&
               forall j :: 0 <= j < n ==> rows[i].days[j] == DayBlock(DayEntry(ss, invoices, ts[i], start + j))
    ensures ColumnOf(rows, j) == Blocks(Column(ss, invoices, ts, start + j))
  {
  }

  /** Lines 276-299: the `total` row has one block per day of the header,
      each the block sum of that column of the teacher rows. */
  lemma TotalsRowSpec(ss: seq<Schedule>, invoices: seq<Invoice>, start: int, end: int)
    ensures var r := GenerateEfficiencyReport(ss, invoices, start, end);
      && r.Success?
      && r.value.totals.name == "total"
      && |r.value.totals.days| == |r.value.header|
      && (forall i :: 0 <= i < |r.value.rows| ==> |r.value.rows[i].days| == |r.value.header|)
      && forall j :: 0 <= j < |r.value.header| ==> r.value.totals.days[j] == BlockSum(ColumnOf(r.value.rows, j))
  {
    SortByMembers(Teachers(ss), Id);
    HeaderSpec(ss, invoices, start, end);
    RowDaysSpec(ss, invoices, start, end);
    TotalsHeaderOf(ss, invoices, start, end);
    TotalsDaysOf(ss, invoices, start, end);
    ColumnTotals(ss, invoices, start, Teachers(ss), SortBy(Teachers(ss), Id),
                 GenerateEfficiencyReport(ss, invoices, start, end).value);
  }

  /** Day blocks that add up every teacher's entry for their day have a
      scheduled part of twice the schedules starting that day. */
  lemma ScheduledColumns(ss: seq<Schedule>, invoices: seq<Invoice>, start: int, days: seq<Block>)
    requires forall j :: 0 <= j < |days| ==> days[j] == BlockSum(Blocks(Column(ss, invoices, Teachers(ss), start + j)))
    ensures forall j :: 0 <= j < |days| ==> days[j].scheduled == 2 * Count(ss, StartsBetween(start + j, start + j))
  {
    forall j | 0 <= j < |days|
      ensures days[j].scheduled == 2 * Count(ss, StartsBetween(start + j, start + j))
    {
      DayScheduledTotal(ss, invoices, start + j);
    }
  }

  /** Lines 281-288: the scheduled part of the `total` row's `j`-th block is
      twice the schedules starting on the `j`-th day of the range. */
  lemma TotalsScheduledSpec(ss: seq<Schedule>, invoices: seq<Invoice>, start: int, end: int)
    ensures var r := GenerateEfficiencyReport(ss, invoices, start, end);
      && r.Success?
      && |r.value.totals.days| == |r.value.header|
      && forall j :: 0 <= j < |r.value.header| ==>
           r.value.totals.days[j].scheduled == 2 * Count(ss, StartsBetween(start + j, start + j))
  {
    TotalsDaysOf(ss, invoices, start, end);
    ScheduledColumns(ss, invoices, start, GenerateEfficiencyReport(ss, invoices, start, end).value.totals.days);
  }

  /** Grand totals that add up the summaries in one teacher order add up
      the closing blocks of rows listed in another order of the same
      teachers. */
  lemma ClosingTotals(ss: seq<Schedule>, invoices: seq<Invoice>, start: int, end: int,
                      ts0: seq<string>, ts: seq<string>, rep: Report)
    requires multiset(ts0) == multiset(ts)
    requires |rep.rows| == |ts|
    requires forall i :: 0 <= i < |ts| ==>
               rep.rows[i].total == SummaryBlock(Summarize(ts[i], TeacherDays(ss, invoices, ts[i], start, end)))
    requires rep.totals.total == BlockSum(SummaryBlocks(Summaries(ss, invoices, ts0, start, end)))
    ensures rep.totals.total == BlockSum(RowTotals(rep.rows))
  {
    SummaryPermutation(ss, invoices, ts0, ts, start, end);
    assert RowTotals(rep.rows) == SummaryBlocks(Summaries(ss, invoices, ts, start, end));
  }

  /** Lines 301-318: the grand totals are the block sum of the teacher rows'
      closing blocks, the scheduled part twice the schedules starting
      within the range. */
  lemma GrandTotalSpec(ss: seq<Schedule>, invoices: seq<Invoice>, start: int, end: int)
    ensures var r := GenerateEfficiencyReport(ss, invoices, start, end);
      && r.Success?
      && r.value.totals.total == BlockSum(RowTotals(r.value.rows))
      && r.value.totals.total.scheduled == 2 * Count(ss, StartsBetween(start, end))
  {
    SortByMembers(Teachers(ss), Id);
    ReportRows(ss, invoices, start, end);
    TotalsGrandOf(ss, invoices, start, end);
    RangeScheduledTotal(ss, invoices, start, end);
    ClosingTotals(ss, invoices, start, end, Teachers(ss), SortBy(Teachers(ss), Id),
                  GenerateEfficiencyReport(ss, invoices, start, end).value);
  }

  /** Lines 222-318: every line of the file has as many fields as the
      header, five per day plus seven, once each row has one block per
      day of the header. */
  lemma {:induction false} LinesAlign(rep: Report)
    requires forall i :: 0 <= i < |rep.rows| ==> |rep.rows[i].days| == |rep.header|
    requires |rep.totals.days| == |rep.header|
    ensures forall k :: 0 <= k < |Lines(rep)| ==> |Lines(rep)[k]| == 5 * |rep.header| + 7
  {
    var lines := Lines(rep);
    DayHeadersLength(rep.header);
    BlocksFieldsLength(rep.totals.days);
    forall k | 0 <= k < |lines|
      ensures |lines[k]| == 5 * |rep.header| + 7
    {
      if 1 <= k <= |rep.rows| {
        BlocksFieldsLength(rep.rows[k - 1].days);
        assert lines[k] == RowFields(rep.rows[k - 1]);
      }
    }
  }

  /** The efficiency CSV is rectangular. */
  lemma ColumnsAlign(ss: seq<Schedule>, invoices: seq<Invoice>, start: int, end: int)
    ensures var r := GenerateEfficiencyReport(ss, invoices, start, end);
      && r.Success?
      && forall k :: 0 <= k < |Lines(r.value)| ==> |Lines(r.value)[k]| == 5 * |r.value.header| + 7
  {
    HeaderSpec(ss, invoices, start, end);
    TotalsHeaderOf(ss, invoices, start, end);
    LinesAlign(GenerateEfficiencyReport(ss, invoices, start, end).value);
  }
}
