/** The aggregation of `generate_efficiency_report`: for every teacher of the
    selected schedules and every calendar day of the requested range, how many
    half-sessions were scheduled, how many invoices were taught or no-shows,
    and the variance; then per-teacher totals.

    The Rust loops are restated as recursive folds (`TallyInvoices`,
    `TallyRows`, `TeacherDays`, `Accumulate`, `AllDays`) and each is proved
    equal to a declarative count or sum over the inputs. */
module EfficiencyReport {
  import opened Seqs
  import opened Schedules

  /** One row of `invoices`, reduced to the two columns the report reads. */
  datatype Invoice = Invoice(shift: string, eligible: bool)

  /** One teacher on one day (`EfficiencyDay`). */
  datatype EfficiencyDay = EfficiencyDay(
    date: int,
    scheduled: int,
    taught: int,
    noShows: int,
    variance: int,
    teacher: string)

  /** One teacher's totals over the range (`EfficiencySummary` without its
      floating-point `percentage_variance`). */
  datatype EfficiencySummary = EfficiencySummary(
    teacher: string,
    scheduled: int,
    taught: int,
    noShows: int,
    variance: int)

  /** The four vectors the Rust code fills before rendering the CSV. */
  datatype EfficiencyTable = EfficiencyTable(
    teachers: seq<string>,
    days: seq<EfficiencyDay>,
    tableDays: seq<int>,
    summary: seq<EfficiencySummary>)

  // ---------------------------------------------------------------------------
  // Selections

  /** Rows of any teacher whose start day lies in `lo..=hi`. */
  function StartsBetween(lo: int, hi: int): Schedule -> bool
  {
    (s: Schedule) => lo <= s.start.day <= hi
  }

  /** Rows of teacher `t` starting on day `d` (the filter at lines 134-136). */
  function StartsOn(t: string, d: int): Schedule -> bool
  {
    ByTeacher(t, StartsBetween(d, d))
  }

  /** Invoices whose `shift` equals the given value (`WHERE invoices.shift = $1`). */
  function ForShift(shift: string): Invoice -> bool
  {
    (i: Invoice) => i.shift == shift
  }

  function IsEligible(i: Invoice): bool
  {
    i.eligible
  }

  function IsIneligible(i: Invoice): bool
  {
    !i.eligible
  }

  function EligibleFor(shift: string): Invoice -> bool
  {
    (i: Invoice) => i.shift == shift && i.eligible
  }

  function IneligibleFor(shift: string): Invoice -> bool
  {
    (i: Invoice) => i.shift == shift && !i.eligible
  }

  function EntryOf(t: string): EfficiencyDay -> bool
  {
    (e: EfficiencyDay) => e.teacher == t
  }

  function EntryOn(d: int): EfficiencyDay -> bool
  {
    (e: EfficiencyDay) => e.date == d
  }

  function ScheduledOf(e: EfficiencyDay): int { e.scheduled }
  function TaughtOf(e: EfficiencyDay): int { e.taught }
  function NoShowsOf(e: EfficiencyDay): int { e.noShows }
  function VarianceOf(e: EfficiencyDay): int { e.variance }

  // ---------------------------------------------------------------------------
  // The computation, loop by loop

  /** The `taught` / `no_shows` counters of one day. */
  datatype Tally = Tally(taught: int, noShows: int)

  /** Lines 168-174: every invoice fetched for a schedule is taught when
      eligible and a no-show otherwise. */
  function TallyInvoices(acc: Tally, invoices: seq<Invoice>): Tally
    decreases |invoices|
  {
    if |invoices| == 0 then acc
    else
      var next := if invoices[0].eligible then Tally(acc.taught + 1, acc.noShows)
                  else Tally(acc.taught, acc.noShows + 1);
      TallyInvoices(next, invoices[1..])
  }

  /** Lines 143-175: for each of the day's schedule rows, the invoices whose
      `shift` equals the row's `shift` are fetched and tallied. */
  function TallyRows(acc: Tally, rows: seq<Schedule>, invoices: seq<Invoice>): Tally
    decreases |rows|
  {
    if |rows| == 0 then acc
    else TallyRows(TallyInvoices(acc, Filter(invoices, ForShift(rows[0].shift))), rows[1..], invoices)
  }

  /** Lines 131-187: the entry of teacher `t` for day `d`. */
  function DayEntry(ss: seq<Schedule>, invoices: seq<Invoice>, t: string, d: int): EfficiencyDay
  {
    var rows := Filter(ss, StartsOn(t, d));
    var scheduled := |rows| * 2;
    var tally := TallyRows(Tally(0, 0), rows, invoices);
    var initialVariance := tally.taught - scheduled;
    EfficiencyDay(d, scheduled, tally.taught, tally.noShows, initialVariance - tally.noShows, t)
  }

  /** Lines 123-199 for one teacher: the `while current_date <= end_date`
      loop, one entry per day from `start` to `end` inclusive, ascending. */
  function TeacherDays(ss: seq<Schedule>, invoices: seq<Invoice>, t: string, start: int, end: int)
    : seq<EfficiencyDay>
  {
    seq(Span(start, end), j requires 0 <= j < Span(start, end) => DayEntry(ss, invoices, t, start + j))
  }

  /** Lines 189-192: the running totals, added day by day. */
  function Accumulate(acc: EfficiencySummary, days: seq<EfficiencyDay>): EfficiencySummary
    decreases |days|
  {
    if |days| == 0 then acc
    else
      var e := days[0];
      Accumulate(EfficiencySummary(acc.teacher, acc.scheduled + e.scheduled, acc.taught + e.taught,
                                   acc.noShows + e.noShows, acc.variance + e.variance), days[1..])
  }

  /** Lines 125-128 and 204-211: a teacher's summary, totals starting at zero. */
  function Summarize(t: string, days: seq<EfficiencyDay>): EfficiencySummary
  {
    Accumulate(EfficiencySummary(t, 0, 0, 0, 0), days)
  }

  /** Lines 122-212: the day entries of every teacher, teacher after teacher. */
  function AllDays(ss: seq<Schedule>, invoices: seq<Invoice>, ts: seq<string>, start: int, end: int)
    : seq<EfficiencyDay>
    decreases |ts|
  {
    if |ts| == 0 then []
    else TeacherDays(ss, invoices, ts[0], start, end) + AllDays(ss, invoices, ts[1..], start, end)
  }

  /** `table_summary`: one summary per teacher, in teacher order. */
  function Summaries(ss: seq<Schedule>, invoices: seq<Invoice>, ts: seq<string>, start: int, end: int)
    : seq<EfficiencySummary>
  {
    seq(|ts|, i requires 0 <= i < |ts| => Summarize(ts[i], TeacherDays(ss, invoices, ts[i], start, end)))
  }

  /** The entries of teachers `ts` for day `d`, in teacher order. */
  function Column(ss: seq<Schedule>, invoices: seq<Invoice>, ts: seq<string>, d: int): seq<EfficiencyDay>
  {
    seq(|ts|, i requires 0 <= i < |ts| => DayEntry(ss, invoices, ts[i], d))
  }

  /** The date of every entry, in order. */
  function Dates(days: seq<EfficiencyDay>): seq<int>
  {
    seq(|days|, i requires 0 <= i < |days| => days[i].date)
  }

  /** Lines 111-212. `table_days` is filled by pushing each entry's date when
      it is not yet listed (lines 194-196), so it is the de-duplicated list of
      entry dates. */
  function BuildTable(ss: seq<Schedule>, invoices: seq<Invoice>, start: int, end: int): EfficiencyTable
  {
    var ts := Teachers(ss);
    var days := AllDays(ss, invoices, ts, start, end);
    EfficiencyTable(ts, days, Dedup(Dates(days)), Summaries(ss, invoices, ts, start, end))
  }

  // ---------------------------------------------------------------------------
  // Declarative counterparts

  /** Eligible invoices the value join on `shift` attaches to one schedule. */
  function TaughtFor(invoices: seq<Invoice>): Schedule -> int
  {
    (s: Schedule) => Count(invoices, EligibleFor(s.shift))
  }

  /** Ineligible invoices the value join on `shift` attaches to one schedule. */
  function NoShowsFor(invoices: seq<Invoice>): Schedule -> int
  {
    (s: Schedule) => Count(invoices, IneligibleFor(s.shift))
  }

  /** All invoices the value join on `shift` attaches to one schedule. */
  function MatchedFor(invoices: seq<Invoice>): Schedule -> int
  {
    (s: Schedule) => Count(invoices, ForShift(s.shift))
  }

  /** `f` on the rows of teacher `t` starting on day `d`, zero on the others. */
  function OnlyOn(t: string, d: int, f: Schedule -> int): Schedule -> int
  {
    (s: Schedule) => if StartsOn(t, d)(s) then f(s) else 0
  }

  // ---------------------------------------------------------------------------
  // The folds agree with the declarative counts

  lemma {:induction false} TallyInvoicesCounts(acc: Tally, xs: seq<Invoice>)
    ensures TallyInvoices(acc, xs)
         == Tally(acc.taught + Count(xs, IsEligible), acc.noShows + Count(xs, IsIneligible))
    decreases |xs|
  {
    if |xs| > 0 {
      var next := if xs[0].eligible then Tally(acc.taught + 1, acc.noShows)
                  else Tally(acc.taught, acc.noShows + 1);
      TallyInvoicesCounts(next, xs[1..]);
      assert xs == [xs[0]] + xs[1..];
      CountCons(xs[0], xs[1..], IsEligible);
      CountCons(xs[0], xs[1..], IsIneligible);
    }
  }

  lemma {:induction false} TallyRowsCounts(acc: Tally, rows: seq<Schedule>, invoices: seq<Invoice>)
    ensures TallyRows(acc, rows, invoices)
         == Tally(acc.taught + Sum(rows, TaughtFor(invoices)),
                  acc.noShows + Sum(rows, NoShowsFor(invoices)))
    decreases |rows|
  {
    if |rows| > 0 {
      var r := rows[0];
      var matched := Filter(invoices, ForShift(r.shift));
      TallyInvoicesCounts(acc, matched);
      CountFilter(invoices, ForShift(r.shift), IsEligible, EligibleFor(r.shift));
      CountFilter(invoices, ForShift(r.shift), IsIneligible, IneligibleFor(r.shift));
      TallyRowsCounts(TallyInvoices(acc, matched), rows[1..], invoices);
      assert rows == [r] + rows[1..];
      SumCons(r, rows[1..], TaughtFor(invoices));
      SumCons(r, rows[1..], NoShowsFor(invoices));
    }
  }

  /** Each joined invoice is either eligible or not. */
  lemma MatchedSplit(invoices: seq<Invoice>, s: Schedule)
    ensures MatchedFor(invoices)(s) == TaughtFor(invoices)(s) + NoShowsFor(invoices)(s)
  {
    CountSplit(invoices, ForShift(s.shift), EligibleFor(s.shift), IneligibleFor(s.shift));
  }

  /** Lines 131-142 and 187: scheduled is twice the teacher's schedules
      starting that day, so it is even and never negative. */
  lemma DayEntryScheduled(ss: seq<Schedule>, invoices: seq<Invoice>, t: string, d: int)
    ensures var e := DayEntry(ss, invoices, t, d);
      && e.teacher == t && e.date == d
      && e.scheduled == 2 * Count(ss, StartsOn(t, d))
      && e.scheduled >= 0 && e.scheduled % 2 == 0
  {
  }

  /** Lines 143-175: taught and no-shows are the eligible and ineligible
      invoices joined by `shift` to each of the day's schedules, counted once
      per schedule, and the variance is taught minus scheduled minus no-shows. */
  lemma DayEntryTally(ss: seq<Schedule>, invoices: seq<Invoice>, t: string, d: int)
    ensures var e := DayEntry(ss, invoices, t, d);
      && e.taught == Sum(ss, OnlyOn(t, d, TaughtFor(invoices)))
      && e.noShows == Sum(ss, OnlyOn(t, d, NoShowsFor(invoices)))
      && e.variance == e.taught - e.scheduled - e.noShows
  {
    var rows := Filter(ss, StartsOn(t, d));
    TallyRowsCounts(Tally(0, 0), rows, invoices);
    SumFilter(ss, StartsOn(t, d), TaughtFor(invoices), OnlyOn(t, d, TaughtFor(invoices)));
    SumFilter(ss, StartsOn(t, d), NoShowsFor(invoices), OnlyOn(t, d, NoShowsFor(invoices)));
  }

  /** Taught and no-shows together are all the invoices joined to the day's
      schedules: no joined invoice is lost or counted twice. */
  lemma DayEntryMatched(ss: seq<Schedule>, invoices: seq<Invoice>, t: string, d: int)
    ensures var e := DayEntry(ss, invoices, t, d);
      e.taught + e.noShows == Sum(ss, OnlyOn(t, d, MatchedFor(invoices)))
  {
    var taught, noShows, matched := OnlyOn(t, d, TaughtFor(invoices)), OnlyOn(t, d, NoShowsFor(invoices)),
                                     OnlyOn(t, d, MatchedFor(invoices));
    DayEntryTally(ss, invoices, t, d);
    forall s | s in ss
      ensures matched(s) == taught(s) + noShows(s)
    {
      MatchedSplit(invoices, s);
    }
    SumAdd(ss, taught, noShows, matched);
  }

  lemma {:induction false} AccumulateTotals(acc: EfficiencySummary, days: seq<EfficiencyDay>)
    ensures Accumulate(acc, days)
         == EfficiencySummary(acc.teacher,
                              acc.scheduled + Sum(days, ScheduledOf),
                              acc.taught + Sum(days, TaughtOf),
                              acc.noShows + Sum(days, NoShowsOf),
                              acc.variance + Sum(days, VarianceOf))
    decreases |days|
  {
    if |days| > 0 {
      var e := days[0];
      AccumulateTotals(EfficiencySummary(acc.teacher, acc.scheduled + e.scheduled, acc.taught + e.taught,
                                         acc.noShows + e.noShows, acc.variance + e.variance), days[1..]);
      assert days == [e] + days[1..];
      SumCons(e, days[1..], ScheduledOf);
      SumCons(e, days[1..], TaughtOf);
      SumCons(e, days[1..], NoShowsOf);
      SumCons(e, days[1..], VarianceOf);
    }
  }

  /** Day entries that each satisfy the variance identity sum to totals that
      satisfy it. */
  lemma {:induction false} SumVariance(days: seq<EfficiencyDay>)
    requires forall e :: e in days ==> e.variance == e.taught - e.scheduled - e.noShows
    ensures Sum(days, VarianceOf) == Sum(days, TaughtOf) - Sum(days, ScheduledOf) - Sum(days, NoShowsOf)
    decreases |days|
  {
    if |days| > 0 {
      SumVariance(days[..|days| - 1]);
    }
  }

  /** A non-empty day list is its first day followed by the list of the rest. */
  lemma TeacherDaysCons(ss: seq<Schedule>, invoices: seq<Invoice>, t: string, d: int, end: int)
    requires d <= end
    ensures TeacherDays(ss, invoices, t, d, end)
         == [DayEntry(ss, invoices, t, d)] + TeacherDays(ss, invoices, t, d + 1, end)
  {
    var days := TeacherDays(ss, invoices, t, d, end);
    var rest := TeacherDays(ss, invoices, t, d + 1, end);
    assert |days| == 1 + |rest|;
    forall j | 1 <= j < |days|
      ensures days[j] == rest[j - 1]
    {
      assert d + j == (d + 1) + (j - 1);
    }
  }

  /** The scheduled totals of consecutive days add up to twice the teacher's
      schedules starting anywhere in those days. */
  lemma {:induction false} ScheduledOverRange(ss: seq<Schedule>, invoices: seq<Invoice>, t: string, d: int, end: int)
    ensures Sum(TeacherDays(ss, invoices, t, d, end), ScheduledOf)
         == 2 * Count(ss, ByTeacher(t, StartsBetween(d, end)))
    decreases end - d
  {
    if d > end {
      assert TeacherDays(ss, invoices, t, d, end) == [];
      FilterNone(ss, ByTeacher(t, StartsBetween(d, end)));
    } else {
      ScheduledOverRange(ss, invoices, t, d + 1, end);
      DayEntryScheduled(ss, invoices, t, d);
      TeacherDaysCons(ss, invoices, t, d, end);
      SumCons(DayEntry(ss, invoices, t, d), TeacherDays(ss, invoices, t, d + 1, end), ScheduledOf);
      CountSplit(ss, ByTeacher(t, StartsBetween(d, end)), StartsOn(t, d),
                 ByTeacher(t, StartsBetween(d + 1, end)));
    }
  }

  /** Lines 189-192 and 204-211: a teacher's summary carries the sums of the
      teacher's day entries, its scheduled total is twice the teacher's
      schedules starting within the range, and its variance is taught minus
      scheduled minus no-shows. */
  lemma SummarySpec(ss: seq<Schedule>, invoices: seq<Invoice>, t: string, start: int, end: int)
    ensures var days := TeacherDays(ss, invoices, t, start, end);
      var s := Summarize(t, days);
      && s.teacher == t
      && s.scheduled == Sum(days, ScheduledOf)
      && s.taught == Sum(days, TaughtOf)
      && s.noShows == Sum(days, NoShowsOf)
      && s.variance == Sum(days, VarianceOf)
      && s.scheduled == 2 * Count(ss, ByTeacher(t, StartsBetween(start, end)))
      && s.variance == s.taught - s.scheduled - s.noShows
  {
    var days := TeacherDays(ss, invoices, t, start, end);
    AccumulateTotals(EfficiencySummary(t, 0, 0, 0, 0), days);
    forall e | e in days
      ensures e.variance == e.taught - e.scheduled - e.noShows
    {
      var j :| 0 <= j < |days| && days[j] == e;
      DayEntryTally(ss, invoices, t, start + j);
    }
    SumVariance(days);
    ScheduledOverRange(ss, invoices, t, start, end);
  }

  // ---------------------------------------------------------------------------
  // Layout of the day entries

  /** Position of the `j`-th day of teacher number `i` when every teacher has
      `n` entries. */
  function Slot(n: int, i: int, j: int): int
  {
    i * n + j
  }

  /** Lines 122-130, 180-187 and 198: teacher-major, one entry per teacher and
      day of the range, days ascending: `n` entries per teacher, where `n` is
      the number of days in the range, so none when the range is empty. */
  lemma {:induction false} AllDaysLayout(ss: seq<Schedule>, invoices: seq<Invoice>, ts: seq<string>, start: int, end: int)
    ensures var n := Span(start, end);
      var days := AllDays(ss, invoices, ts, start, end);
      && |days| == |ts| * n
      && forall i, j :: 0 <= i < |ts| && 0 <= j < n ==>
           0 <= Slot(n, i, j) < |days| && days[Slot(n, i, j)] == DayEntry(ss, invoices, ts[i], start + j)
    decreases |ts|
  {
    var n := Span(start, end);
    var days := AllDays(ss, invoices, ts, start, end);
    if |ts| > 0 {
      AllDaysLayout(ss, invoices, ts[1..], start, end);
      var first := TeacherDays(ss, invoices, ts[0], start, end);
      var rest := AllDays(ss, invoices, ts[1..], start, end);
      assert |ts| * n == n + (|ts| - 1) * n;
      forall i, j | 0 <= i < |ts| && 0 <= j < n
        ensures 0 <= Slot(n, i, j) < |days| && days[Slot(n, i, j)] == DayEntry(ss, invoices, ts[i], start + j)
      {
        if i == 0 {
          assert days[Slot(n, i, j)] == first[j];
        } else {
          assert Slot(n, i, j) == n + Slot(n, i - 1, j);
          assert (i - 1) * n + j < (|ts| - 1) * n by {
            assert (|ts| - 1) * n - (i - 1) * n == (|ts| - i) * n >= n;
          }
          assert days[Slot(n, i, j)] == rest[Slot(n, i - 1, j)];
          assert ts[1..][i - 1] == ts[i];
        }
      }
    }
  }

  /** Every entry of a teacher's day list names that teacher and a day of the range. */
  lemma TeacherDaysBounds(ss: seq<Schedule>, invoices: seq<Invoice>, t: string, d: int, end: int)
    ensures forall e :: e in TeacherDays(ss, invoices, t, d, end) ==> e.teacher == t && d <= e.date <= end
  {
    var days := TeacherDays(ss, invoices, t, d, end);
    forall e | e in days
      ensures e.teacher == t && d <= e.date <= end
    {
      var j :| 0 <= j < |days| && days[j] == e;
      assert e == DayEntry(ss, invoices, t, d + j);
    }
  }

  /** Every entry names one of the listed teachers and a day of the range. */
  lemma {:induction false} AllDaysBounds(ss: seq<Schedule>, invoices: seq<Invoice>, ts: seq<string>, start: int, end: int)
    ensures forall e :: e in AllDays(ss, invoices, ts, start, end) ==> e.teacher in ts && start <= e.date <= end
    decreases |ts|
  {
    if |ts| > 0 {
      AllDaysBounds(ss, invoices, ts[1..], start, end);
      TeacherDaysBounds(ss, invoices, ts[0], start, end);
      assert forall t :: t in ts[1..] ==> t in ts;
    }
  }

  /** Selecting one listed teacher's entries gives exactly that teacher's day list. */
  lemma {:induction false} TeacherEntries(ss: seq<Schedule>, invoices: seq<Invoice>, ts: seq<string>, start: int, end: int, t: string)
    requires NoDup(ts) && t in ts
    ensures Filter(AllDays(ss, invoices, ts, start, end), EntryOf(t)) == TeacherDays(ss, invoices, t, start, end)
    decreases |ts|
  {
    var first := TeacherDays(ss, invoices, ts[0], start, end);
    var rest := AllDays(ss, invoices, ts[1..], start, end);
    FilterAppend(first, rest, EntryOf(t));
    TeacherDaysBounds(ss, invoices, ts[0], start, end);
    AllDaysBounds(ss, invoices, ts[1..], start, end);
    if ts[0] == t {
      FilterAll(first, EntryOf(t));
      assert t !in ts[1..] by {
        assert forall j :: 0 <= j < |ts| - 1 ==> ts[1..][j] == ts[j + 1] != ts[0];
      }
      FilterNone(rest, EntryOf(t));
    } else {
      FilterNone(first, EntryOf(t));
      assert NoDup(ts[1..]);
      assert t in ts[1..] by {
        assert ts == [ts[0]] + ts[1..];
      }
      TeacherEntries(ss, invoices, ts[1..], start, end, t);
    }
  }

  /** A teacher's day list holds exactly one entry for each day of its range. */
  lemma {:induction false} OneEntryPerDay(ss: seq<Schedule>, invoices: seq<Invoice>, t: string, lo: int, end: int, d: int)
    requires lo <= d <= end
    ensures Filter(TeacherDays(ss, invoices, t, lo, end), EntryOn(d)) == [DayEntry(ss, invoices, t, d)]
    decreases end - lo
  {
    var e := DayEntry(ss, invoices, t, lo);
    var rest := TeacherDays(ss, invoices, t, lo + 1, end);
    TeacherDaysCons(ss, invoices, t, lo, end);
    FilterAppend([e], rest, EntryOn(d));
    assert [e][..0] == [];
    TeacherDaysBounds(ss, invoices, t, lo + 1, end);
    if d == lo {
      FilterNone(rest, EntryOn(d));
    } else {
      OneEntryPerDay(ss, invoices, t, lo + 1, end, d);
    }
  }

  /** Selecting the entries of one day of the range gives one entry per
      teacher, in teacher order. */
  lemma {:induction false} DayColumn(ss: seq<Schedule>, invoices: seq<Invoice>, ts: seq<string>, start: int, end: int, d: int)
    requires start <= d <= end
    ensures Filter(AllDays(ss, invoices, ts, start, end), EntryOn(d)) == Column(ss, invoices, ts, d)
    decreases |ts|
  {
    if |ts| > 0 {
      var first := TeacherDays(ss, invoices, ts[0], start, end);
      var rest := AllDays(ss, invoices, ts[1..], start, end);
      FilterAppend(first, rest, EntryOn(d));
      OneEntryPerDay(ss, invoices, ts[0], start, end, d);
      DayColumn(ss, invoices, ts[1..], start, end, d);
    }
  }

  lemma DatesAppend(a: seq<EfficiencyDay>, b: seq<EfficiencyDay>)
    ensures Dates(a + b) == Dates(a) + Dates(b)
  {
  }

  /** A teacher's day list covers the range's days in order. */
  lemma TeacherDaysDates(ss: seq<Schedule>, invoices: seq<Invoice>, t: string, start: int, end: int)
    ensures Dates(TeacherDays(ss, invoices, t, start, end)) == Range(start, end)
  {
    var days := TeacherDays(ss, invoices, t, start, end);
    assert |Dates(days)| == |Range(start, end)|;
    forall j | 0 <= j < |days|
      ensures Dates(days)[j] == Range(start, end)[j]
    {
      assert days[j] == DayEntry(ss, invoices, t, start + j);
    }
  }

  /** Lines 194-196: `table_days` lists every day of the range once, in
      ascending order, as soon as there is at least one teacher; with no
      teacher the loop never runs and it stays empty. */
  lemma TableDaysSpec(ss: seq<Schedule>, invoices: seq<Invoice>, start: int, end: int)
    ensures BuildTable(ss, invoices, start, end).tableDays
         == if |Teachers(ss)| == 0 then [] else Range(start, end)
  {
    var ts := Teachers(ss);
    if |ts| > 0 {
      var first := TeacherDays(ss, invoices, ts[0], start, end);
      var rest := AllDays(ss, invoices, ts[1..], start, end);
      var range := Range(start, end);
      DatesAppend(first, rest);
      TeacherDaysDates(ss, invoices, ts[0], start, end);
      AllDaysBounds(ss, invoices, ts[1..], start, end);
      forall x | x in Dates(rest)
        ensures x in range
      {
        var k :| 0 <= k < |rest| && Dates(rest)[k] == x;
        assert rest[k] in rest;
        assert range[x - start] == x;
      }
      DedupIgnoresSeen(range, Dates(rest));
      DedupOfNoDup(range);
    }
  }

  /** The `j`-th day of the table is the `j`-th day of the range. */
  lemma TableDayAt(ss: seq<Schedule>, invoices: seq<Invoice>, start: int, end: int, j: nat)
    requires j < |BuildTable(ss, invoices, start, end).tableDays|
    ensures start <= start + j <= end
    ensures BuildTable(ss, invoices, start, end).tableDays[j] == start + j
  {
    TableDaysSpec(ss, invoices, start, end);
  }
}
