/** `generate_consolidated_report` (generate_consolidated_report.rs, lines
    81-183): the schedule rows of a shift group are sorted by day, teacher
    and start time and written one per line; the right-hand columns of the
    first lines then receive one summary per teacher, in ascending name
    order, and the line after the last summary receives the grand totals.

    The lines are kept structured: each holds the schedule row written on
    its left (if any) and what was appended on its right. */
module ConsolidatedReport {
  import opened Wrappers
  import opened Seqs
  import opened Strings
  import opened Sorting
  import opened Schedules
  import opened TeacherOrder
  import opened Csv

  // ---------------------------------------------------------------------------
  // Sorting and classifying the rows

  /** Lines 81-96: the sort key `"{date}-{teacher}-{time}"`, lower-cased.
      `dateText` and `timeText` are chrono's `Display` of the start's date and
      time of day. */
  function SortKey(dateText: int -> string, timeText: int -> string): Schedule -> string
  {
    (s: Schedule) => Lower(dateText(s.start.day) + "-" + s.teacher + "-" + timeText(s.start.second))
  }

  /** `schedules_for_range` after the sort. */
  function SortSchedules(ss: seq<Schedule>, dateText: int -> string, timeText: int -> string): seq<Schedule>
  {
    SortBy(ss, SortKey(dateText, timeText))
  }

  /** Lines 104-126: the teachers of the sorted rows, each once, then sorted. */
  function SummaryTeachers(sorted: seq<Schedule>): seq<string>
  {
    SortBy(Teachers(sorted), Id)
  }

  /** Every row counts towards `scheduled` (line 139). */
  const AnySchedule: Schedule -> bool := s => true

  /** Lines 142-144: the shift types counted as picked up. */
  predicate IsPickup(s: Schedule)
  {
    s.shiftType == "Pickup" || s.shiftType == "Internal Pickup" || s.shiftType == "Dropped & Picked Up"
  }

  /** Line 145: the shift type counted as dropped. */
  predicate IsDrop(s: Schedule)
  {
    s.shiftType == "Dropped"
  }

  /** Rows counted in either column. */
  predicate IsPickupOrDrop(s: Schedule)
  {
    IsPickup(s) || IsDrop(s)
  }

  // ---------------------------------------------------------------------------
  // The lines

  /** What a line carries in its right-hand columns: nothing, a teacher's
      summary (lines 154-157), or the grand totals (lines 172-177). */
  datatype Tail =
    | Blank
    | TeacherTotals(teacher: string, scheduled: int, pickedUp: int, dropped: int)
    | GrandTotals(scheduled: int, pickedUp: int, dropped: int)

  /** One line after the header: the schedule row on its left, if any, and
      its right-hand columns. */
  datatype Line = Line(detail: Option<Schedule>, tail: Tail)

  /** `csv_lines[current_teacher]` with `current_teacher == csv_lines.len()`
      (line 168): the index panics. */
  datatype ReportError = TotalLineOutOfBounds(index: int, length: int)

  /** Lines 128-148 for teacher `t`: the counts over the rows of `t`. */
  function TeacherTally(sorted: seq<Schedule>, t: string): Tail
  {
    TeacherTotals(t, Count(sorted, ByTeacher(t, AnySchedule)), Count(sorted, ByTeacher(t, IsPickup)),
                  Count(sorted, ByTeacher(t, IsDrop)))
  }

  /** The right-hand columns of line `i`: the `i`-th teacher's summary, the
      grand totals (accumulated over the summaries) right after the last
      one, and nothing further down. */
  function TailAt(sorted: seq<Schedule>, ts: seq<string>, i: nat): Tail
  {
    if i < |ts| then TeacherTally(sorted, ts[i])
    else if i == |ts| then
      GrandTotals(Sum(ts, PerTeacherCount(sorted, AnySchedule)), Sum(ts, PerTeacherCount(sorted, IsPickup)),
                  Sum(ts, PerTeacherCount(sorted, IsDrop)))
    else Blank
  }

  /** `m` lines: the sorted rows on the left, the tails on the right. */
  function Layout(sorted: seq<Schedule>, ts: seq<string>, m: nat): seq<Line>
  {
    seq(m, i requires 0 <= i < m => Line(if i < |sorted| then Some(sorted[i]) else None, TailAt(sorted, ts, i)))
  }

  /** The report as written: the grand totals go onto `csv_lines[k]`, `k`
      the number of teachers, which panics when every row has a teacher of
      its own (and when there is no row at all). */
  function Consolidated(ss: seq<Schedule>, dateText: int -> string, timeText: int -> string)
    : Result<seq<Line>, ReportError>
  {
    var sorted := SortSchedules(ss, dateText, timeText);
    var ts := SummaryTeachers(sorted);
    if |ts| < |sorted| then Success(Layout(sorted, ts, |sorted|))
    else Failure(TotalLineOutOfBounds(|ts|, |sorted|))
  }

  /** The report as intended: when no line is left for the grand totals, one
      more line with empty left-hand columns carries them. */
  function CorrectedReport(ss: seq<Schedule>, dateText: int -> string, timeText: int -> string): seq<Line>
  {
    var sorted := SortSchedules(ss, dateText, timeText);
    var ts := SummaryTeachers(sorted);
    Layout(sorted, ts, if |ts| < |sorted| then |sorted| else |ts| + 1)
  }

  // ---------------------------------------------------------------------------
  // The handler's loops

  /** Lines 133-148: one pass over the rows, counting those of teacher `t`. */
  method TallyTeacher(sorted: seq<Schedule>, t: string) returns (scheduled: int, pickedUp: int, dropped: int)
    ensures scheduled == Count(sorted, ByTeacher(t, AnySchedule))
    ensures pickedUp == Count(sorted, ByTeacher(t, IsPickup))
    ensures dropped == Count(sorted, ByTeacher(t, IsDrop))
  {
    scheduled, pickedUp, dropped := 0, 0, 0;
    for m := 0 to |sorted|
      invariant scheduled == Count(sorted[..m], ByTeacher(t, AnySchedule))
      invariant pickedUp == Count(sorted[..m], ByTeacher(t, IsPickup))
      invariant dropped == Count(sorted[..m], ByTeacher(t, IsDrop))
    {
      var s := sorted[m];
      assert sorted[..m + 1][..m] == sorted[..m];
      CountSnoc(sorted[..m + 1], ByTeacher(t, AnySchedule));
      CountSnoc(sorted[..m + 1], ByTeacher(t, IsPickup));
      CountSnoc(sorted[..m + 1], ByTeacher(t, IsDrop));
      assert ByTeacher(t, AnySchedule)(s) == (s.teacher == t);
      if s.teacher == t {
        scheduled := scheduled + 1;
        if s.shiftType == "Pickup" {
          pickedUp := pickedUp + 1;
        } else if s.shiftType == "Internal Pickup" {
          pickedUp := pickedUp + 1;
        } else if s.shiftType == "Dropped & Picked Up" {
          pickedUp := pickedUp + 1;
        } else if s.shiftType == "Dropped" {
          dropped := dropped + 1;
        }
      }
    }
    assert sorted[..|sorted|] == sorted;
  }

  /** Lines 104-119: the teachers in order of first appearance, and one
      line per row with nothing on its right yet. */
  method DetailLines(sorted: seq<Schedule>) returns (lines: seq<Line>, teachers: seq<string>)
    ensures teachers == Teachers(sorted)
    ensures |lines| == |sorted|
    ensures forall k :: 0 <= k < |sorted| ==> lines[k] == Line(Some(sorted[k]), Blank)
  {
    lines, teachers := [], [];
    for i := 0 to |sorted|
      invariant teachers == Dedup(Names(sorted[..i]))
      invariant |lines| == i
      invariant forall k :: 0 <= k < i ==> lines[k] == Line(Some(sorted[k]), Blank)
    {
      assert Names(sorted[..i + 1]) == Names(sorted[..i]) + [sorted[i].teacher];
      if sorted[i].teacher !in teachers {
        teachers := teachers + [sorted[i].teacher];
      }
      lines := lines + [Line(Some(sorted[i]), Blank)];
    }
    assert sorted[..|sorted|] == sorted;
  }

  /** Lines 121-166: the teachers' summaries go onto the first lines, in
      the given order, while the grand totals are accumulated; `current`
      ends at the number of teachers. */
  method SummaryLines(sorted: seq<Schedule>, details: seq<Line>, teachers: seq<string>)
    returns (lines: seq<Line>, current: int, totals: Tail)
    requires |teachers| <= |sorted| == |details|
    requires forall k :: 0 <= k < |sorted| ==> details[k] == Line(Some(sorted[k]), Blank)
    ensures current == |teachers| && |lines| == |sorted|
    ensures forall k :: 0 <= k < |sorted| ==>
              lines[k] == Line(Some(sorted[k]), if k < current then TailAt(sorted, teachers, k) else Blank)
    ensures totals == TailAt(sorted, teachers, |teachers|)
  {
    lines := details;
    current := 0;
    var totalScheduled, totalPickedUp, totalDropped := 0, 0, 0;
    for j := 0 to |teachers|
      invariant current == j
      invariant |lines| == |sorted|
      invariant forall k :: 0 <= k < |sorted| ==>
                  lines[k] == Line(Some(sorted[k]), if k < j then TailAt(sorted, teachers, k) else Blank)
      invariant totalScheduled == Sum(teachers[..j], PerTeacherCount(sorted, AnySchedule))
      invariant totalPickedUp == Sum(teachers[..j], PerTeacherCount(sorted, IsPickup))
      invariant totalDropped == Sum(teachers[..j], PerTeacherCount(sorted, IsDrop))
    {
      assert teachers[..j + 1][..j] == teachers[..j];
      var t := teachers[j];
      var scheduled, pickedUp, dropped := TallyTeacher(sorted, t);
      lines := lines[current := Line(lines[current].detail, TeacherTotals(t, scheduled, pickedUp, dropped))];
      totalScheduled := totalScheduled + scheduled;
      totalPickedUp := totalPickedUp + pickedUp;
      totalDropped := totalDropped + dropped;
      current := current + 1;
    }
    assert teachers[..|teachers|] == teachers;
    totals := GrandTotals(totalScheduled, totalPickedUp, totalDropped);
  }

  /** Lines 81-183: the whole handler after the query. */
  method GenerateConsolidatedReport(ss: seq<Schedule>, dateText: int -> string, timeText: int -> string)
    returns (r: Result<seq<Line>, ReportError>)
    ensures r == Consolidated(ss, dateText, timeText)
  {
    var sorted := SortSchedules(ss, dateText, timeText);
    var details, teachers := DetailLines(sorted);
    teachers := SortBy(teachers, Id);
    assert |teachers| <= |sorted| by {
      SortByMembers(Teachers(sorted), Id);
      assert |Names(sorted)| == |sorted|;
    }
    var lines, current, totals := SummaryLines(sorted, details, teachers);
    if current >= |lines| {
      return Failure(TotalLineOutOfBounds(current, |lines|));
    }
    lines := lines[current := Line(lines[current].detail, totals)];
    TotalsLineLayout(sorted, teachers, lines);
    return Success(lines);
  }

  /** The lines after the summary pass, with the totals on the line after
      the last summary, are the layout. */
  lemma TotalsLineLayout(sorted: seq<Schedule>, ts: seq<string>, lines: seq<Line>)
    requires |ts| < |sorted| == |lines|
    requires lines[|ts|] == Line(Some(sorted[|ts|]), TailAt(sorted, ts, |ts|))
    requires forall k :: 0 <= k < |sorted| && k != |ts| ==>
               lines[k] == Line(Some(sorted[k]), if k < |ts| then TailAt(sorted, ts, k) else Blank)
    ensures lines == Layout(sorted, ts, |sorted|)
  {
  }

  // ---------------------------------------------------------------------------
  // Properties of the report

  /** Lines 104-126: the summaries name every teacher of the rows once, in
      ascending order; the list does not depend on the order of the rows
      (and is the one the efficiency report uses). */
  lemma SummaryTeachersSpec(ss: seq<Schedule>, dateText: int -> string, timeText: int -> string)
    ensures var ts := SummaryTeachers(SortSchedules(ss, dateText, timeText));
      && ts == SortBy(Teachers(ss), Id)
      && SortedBy(ts, Id) && NoDup(ts)
      && (forall s :: s in ss ==> s.teacher in ts)
      && (forall t :: t in ts ==> exists s :: s in ss && s.teacher == t)
  {
    SortByMembers(ss, SortKey(dateText, timeText));
    TeacherOrderIndependent(SortSchedules(ss, dateText, timeText), ss);
    SortedTeachers(ss);
  }

  /** There are as many summaries as distinct teachers: at most one per row,
      and one per row exactly when no two rows share a teacher. */
  lemma TeacherCount(ss: seq<Schedule>, dateText: int -> string, timeText: int -> string)
    ensures |SummaryTeachers(SortSchedules(ss, dateText, timeText))| == |Elements(Names(ss))|
    ensures |SummaryTeachers(SortSchedules(ss, dateText, timeText))| <= |ss|
    ensures |SummaryTeachers(SortSchedules(ss, dateText, timeText))| == |ss| <==> NoDup(Names(ss))
  {
    SummaryTeachersSpec(ss, dateText, timeText);
    SortByMembers(Teachers(ss), Id);
    DedupCardinality(Names(ss));
    DedupLength(Names(ss));
  }

  /** Lines 121-183 as written: the handler panics exactly when no two rows
      share a teacher (in particular when there is no row), and otherwise
      writes the corrected report. */
  lemma ConsolidatedOutcome(ss: seq<Schedule>, dateText: int -> string, timeText: int -> string)
    ensures Consolidated(ss, dateText, timeText).Failure? <==> NoDup(Names(ss))
    ensures Consolidated(ss, dateText, timeText).Failure? ==>
              Consolidated(ss, dateText, timeText).error == TotalLineOutOfBounds(|ss|, |ss|)
    ensures Consolidated(ss, dateText, timeText).Success? ==>
              Consolidated(ss, dateText, timeText).value == CorrectedReport(ss, dateText, timeText)
  {
    TeacherCount(ss, dateText, timeText);
    SortByMembers(ss, SortKey(dateText, timeText));
  }

  /** No rows: the handler indexes an empty `csv_lines`. */
  lemma EmptyRangePanics(dateText: int -> string, timeText: int -> string)
    ensures Consolidated([], dateText, timeText) == Failure(TotalLineOutOfBounds(0, 0))
  {
    assert SortSchedules([], dateText, timeText) == [];
    assert Teachers([]) == [];
  }

  /** Where the tails of a layout sit: teachers' summaries on the first
      `|ts|` lines, the grand totals right below, blank further down; the
      rows on the left as long as there are rows. */
  lemma LayoutShape(sorted: seq<Schedule>, ts: seq<string>, m: nat)
    requires |ts| < m
    ensures var lines := Layout(sorted, ts, m);
      && (forall i :: 0 <= i < m ==> lines[i].detail == if i < |sorted| then Some(sorted[i]) else None)
      && (forall i :: 0 <= i < m ==> (lines[i].tail.TeacherTotals? <==> i < |ts|))
      && (forall i :: 0 <= i < m ==> (lines[i].tail.GrandTotals? <==> i == |ts|))
  {
  }

  /** Lines 106-119 and 150-179: every row is written once, in sort-key
      order, on its own line; a summary sits on each of the first lines, one
      per teacher, the grand totals right below them, and only there; the
      corrected report adds a line for the grand totals exactly when the rows
      leave no room for them. */
  lemma CorrectedShape(ss: seq<Schedule>, dateText: int -> string, timeText: int -> string)
    ensures var lines := CorrectedReport(ss, dateText, timeText);
      var sorted := SortSchedules(ss, dateText, timeText);
      var k := |SummaryTeachers(sorted)|;
      && multiset(sorted) == multiset(ss)
      && SortedBy(sorted, SortKey(dateText, timeText))
      && |lines| == (if NoDup(Names(ss)) then |ss| + 1 else |ss|)
      && k < |lines|
      && (forall i :: 0 <= i < |lines| ==> lines[i].detail == if i < |ss| then Some(sorted[i]) else None)
      && (forall i :: 0 <= i < |lines| ==> (lines[i].tail.TeacherTotals? <==> i < k))
      && (forall i :: 0 <= i < |lines| ==> (lines[i].tail.GrandTotals? <==> i == k))
  {
    var sorted := SortSchedules(ss, dateText, timeText);
    var ts := SummaryTeachers(sorted);
    TeacherCount(ss, dateText, timeText);
    SortByMembers(ss, SortKey(dateText, timeText));
    LayoutShape(sorted, ts, if |ts| < |sorted| then |sorted| else |ts| + 1);
  }

  /** The line of the `i`-th teacher holds that teacher's tally. */
  lemma CorrectedTail(ss: seq<Schedule>, dateText: int -> string, timeText: int -> string, i: nat)
    requires i <= |SummaryTeachers(SortSchedules(ss, dateText, timeText))|
    ensures var sorted := SortSchedules(ss, dateText, timeText);
      i < |CorrectedReport(ss, dateText, timeText)| &&
      CorrectedReport(ss, dateText, timeText)[i].tail == TailAt(sorted, SummaryTeachers(sorted), i)
  {
  }

  /** Lines 128-157: the summary of the `i`-th teacher counts that teacher's
      rows, their pick-ups and their drops, over all rows of the range; a
      summary counts at least one row, and never more pick-ups and drops
      than rows. */
  lemma TeacherSummary(ss: seq<Schedule>, dateText: int -> string, timeText: int -> string, i: nat)
    requires i < |SummaryTeachers(SortSchedules(ss, dateText, timeText))|
    ensures var t := SummaryTeachers(SortSchedules(ss, dateText, timeText))[i];
      var tail := CorrectedReport(ss, dateText, timeText)[i].tail;
      && tail == TeacherTotals(t, Count(ss, ByTeacher(t, AnySchedule)), Count(ss, ByTeacher(t, IsPickup)),
                               Count(ss, ByTeacher(t, IsDrop)))
      && 1 <= tail.scheduled
      && tail.pickedUp + tail.dropped <= tail.scheduled
  {
    var sorted := SortSchedules(ss, dateText, timeText);
    var t := SummaryTeachers(sorted)[i];
    CorrectedTail(ss, dateText, timeText, i);
    var s := RowOfSummary(ss, dateText, timeText, i);
    SortByMembers(ss, SortKey(dateText, timeText));
    TallyOfTeacher(sorted, ss, s, t);
  }

  /** A row of the `i`-th summary's teacher. */
  lemma RowOfSummary(ss: seq<Schedule>, dateText: int -> string, timeText: int -> string, i: nat)
    returns (s: Schedule)
    requires i < |SummaryTeachers(SortSchedules(ss, dateText, timeText))|
    ensures s in ss && s.teacher == SummaryTeachers(SortSchedules(ss, dateText, timeText))[i]
  {
    var ts := SummaryTeachers(SortSchedules(ss, dateText, timeText));
    SummaryTeachersSpec(ss, dateText, timeText);
    assert ts[i] in ts;
    s :| s in ss && s.teacher == ts[i];
  }

  /** A teacher's tally over the sorted rows, counted over the query's rows. */
  lemma TallyOfTeacher(sorted: seq<Schedule>, ss: seq<Schedule>, s: Schedule, t: string)
    requires multiset(sorted) == multiset(ss)
    requires s in ss && s.teacher == t
    ensures var tail := TeacherTally(sorted, t);
      && tail == TeacherTotals(t, Count(ss, ByTeacher(t, AnySchedule)), Count(ss, ByTeacher(t, IsPickup)),
                               Count(ss, ByTeacher(t, IsDrop)))
      && 1 <= tail.scheduled
      && tail.pickedUp + tail.dropped <= tail.scheduled
  {
    CountPermutation(sorted, ss, ByTeacher(t, AnySchedule));
    CountPermutation(sorted, ss, ByTeacher(t, IsPickup));
    CountPermutation(sorted, ss, ByTeacher(t, IsDrop));
    AnyOfTeacher(ss, s, t);
    TeacherPickupsAndDrops(ss, t);
  }

  /** A row of teacher `t` is counted among the rows of `t`. */
  lemma AnyOfTeacher(ss: seq<Schedule>, s: Schedule, t: string)
    requires s in ss && s.teacher == t
    ensures Count(ss, ByTeacher(t, AnySchedule)) >= 1
  {
    CountWitness(ss, s, ByTeacher(t, AnySchedule));
  }

  /** Pick-ups and drops are disjoint, so together they are at most the rows. */
  lemma PickupsAndDrops(ss: seq<Schedule>)
    ensures Count(ss, IsPickup) + Count(ss, IsDrop) <= |ss|
  {
    var pickup: Schedule -> bool := IsPickup;
    var drop: Schedule -> bool := IsDrop;
    var either: Schedule -> bool := IsPickupOrDrop;
    forall s | s in ss
      ensures (either(s) <==> pickup(s) || drop(s)) && !(pickup(s) && drop(s))
    {
    }
    CountSplit(ss, either, pickup, drop);
    CountAll(ss);
    CountMonotone(ss, either, AnySchedule);
  }

  /** The same for the rows of one teacher. */
  lemma TeacherPickupsAndDrops(ss: seq<Schedule>, t: string)
    ensures Count(ss, ByTeacher(t, IsPickup)) + Count(ss, ByTeacher(t, IsDrop))
         <= Count(ss, ByTeacher(t, AnySchedule))
  {
    var pickup := ByTeacher(t, IsPickup);
    var drop := ByTeacher(t, IsDrop);
    var either := ByTeacher(t, IsPickupOrDrop);
    var all := ByTeacher(t, AnySchedule);
    forall s | s in ss
      ensures (either(s) <==> pickup(s) || drop(s)) && !(pickup(s) && drop(s)) && (either(s) ==> all(s))
    {
      var isPickup: Schedule -> bool := IsPickup;
      var isDrop: Schedule -> bool := IsDrop;
      var isEither: Schedule -> bool := IsPickupOrDrop;
      assert isEither(s) == (isPickup(s) || isDrop(s)) && !(isPickup(s) && isDrop(s));
    }
    CountSplit(ss, either, pickup, drop);
    CountMonotone(ss, either, all);
  }

  /** Lines 161-177: the grand totals count every row of the range, every
      pick-up and every drop. */
  lemma GrandTotalsSpec(ss: seq<Schedule>, dateText: int -> string, timeText: int -> string)
    ensures var k := |SummaryTeachers(SortSchedules(ss, dateText, timeText))|;
      k < |CorrectedReport(ss, dateText, timeText)| &&
      CorrectedReport(ss, dateText, timeText)[k].tail == GrandTotals(|ss|, Count(ss, IsPickup), Count(ss, IsDrop))
    ensures Count(ss, IsPickup) + Count(ss, IsDrop) <= |ss|
  {
    var sorted := SortSchedules(ss, dateText, timeText);
    CorrectedTail(ss, dateText, timeText, |SummaryTeachers(sorted)|);
    SummaryTeachersSpec(ss, dateText, timeText);
    SortByMembers(ss, SortKey(dateText, timeText));
    GrandTally(sorted, ss, SummaryTeachers(sorted));
  }

  /** Summing the teachers' tallies over a list naming every row's teacher
      once counts every row, every pick-up and every drop. */
  lemma GrandTally(sorted: seq<Schedule>, ss: seq<Schedule>, ts: seq<string>)
    requires multiset(sorted) == multiset(ss)
    requires NoDup(ts) && forall s :: s in ss ==> s.teacher in ts
    ensures TailAt(sorted, ts, |ts|) == GrandTotals(|ss|, Count(ss, IsPickup), Count(ss, IsDrop))
    ensures Count(ss, IsPickup) + Count(ss, IsDrop) <= |ss|
  {
    assert forall s :: s in sorted ==> s.teacher in ts by {
      forall s | s in sorted
        ensures s.teacher in ts
      {
        assert s in multiset(ss);
      }
    }
    PartitionCount(sorted, ss, ts, AnySchedule);
    PartitionCount(sorted, ss, ts, IsPickup);
    PartitionCount(sorted, ss, ts, IsDrop);
    CountAll(ss);
    PickupsAndDrops(ss);
  }

  /** Summing a per-teacher count over the sorted rows gives the count over
      the query's rows. */
  lemma PartitionCount(sorted: seq<Schedule>, ss: seq<Schedule>, ts: seq<string>, p: Schedule -> bool)
    requires multiset(sorted) == multiset(ss)
    requires NoDup(ts) && forall s :: s in sorted ==> s.teacher in ts
    ensures Sum(ts, PerTeacherCount(sorted, p)) == Count(ss, p)
  {
    TeacherPartition(sorted, ts, p);
    CountPermutation(sorted, ss, p);
  }

  /** Every row counts as scheduled. */
  lemma CountAll(ss: seq<Schedule>)
    ensures Count(ss, AnySchedule) == |ss|
  {
    FilterAll(ss, AnySchedule);
  }

  /** The scheduled, picked-up and dropped counts a tail shows (none when blank). */
  function TailCounts(t: Tail): (int, int, int)
  {
    match t
    case Blank => (0, 0, 0)
    case TeacherTotals(_, scheduled, pickedUp, dropped) => (scheduled, pickedUp, dropped)
    case GrandTotals(scheduled, pickedUp, dropped) => (scheduled, pickedUp, dropped)
  }

  function LineScheduled(l: Line): int { TailCounts(l.tail).0 }
  function LinePickedUp(l: Line): int { TailCounts(l.tail).1 }
  function LineDropped(l: Line): int { TailCounts(l.tail).2 }

  /** In a layout, the grand totals add up the summaries above them. */
  lemma LayoutTotals(sorted: seq<Schedule>, ts: seq<string>, m: nat)
    requires |ts| < m
    ensures var lines := Layout(sorted, ts, m);
      && LineScheduled(lines[|ts|]) == Sum(lines[..|ts|], LineScheduled)
      && LinePickedUp(lines[|ts|]) == Sum(lines[..|ts|], LinePickedUp)
      && LineDropped(lines[|ts|]) == Sum(lines[..|ts|], LineDropped)
  {
    var lines := Layout(sorted, ts, m);
    var summaries := lines[..|ts|];
    forall i | 0 <= i < |ts|
      ensures summaries[i].tail == TeacherTally(sorted, ts[i])
    {
    }
    SumMap(summaries, ts, LineScheduled, PerTeacherCount(sorted, AnySchedule));
    SumMap(summaries, ts, LinePickedUp, PerTeacherCount(sorted, IsPickup));
    SumMap(summaries, ts, LineDropped, PerTeacherCount(sorted, IsDrop));
  }

  /** Lines 161-163: the grand totals are the sums of the teachers'
      summaries. */
  lemma GrandTotalsAddUp(ss: seq<Schedule>, dateText: int -> string, timeText: int -> string)
    ensures var lines := CorrectedReport(ss, dateText, timeText);
      var k := |SummaryTeachers(SortSchedules(ss, dateText, timeText))|;
      && k < |lines|
      && LineScheduled(lines[k]) == Sum(lines[..k], LineScheduled)
      && LinePickedUp(lines[k]) == Sum(lines[..k], LinePickedUp)
      && LineDropped(lines[k]) == Sum(lines[..k], LineDropped)
  {
    var sorted := SortSchedules(ss, dateText, timeText);
    var ts := SummaryTeachers(sorted);
    var m := if |ts| < |sorted| then |sorted| else |ts| + 1;
    assert CorrectedReport(ss, dateText, timeText) == Layout(sorted, ts, m);
    LayoutTotals(sorted, ts, m);
  }

  // ---------------------------------------------------------------------------
  // Fields of the CSV lines

  /** Line 99: the header. */
  const HeaderFields: seq<Field> :=
    [Text("Teacher"), Text("Shift"), Text("Shift Type"), Text("Start Date"), Text("End Date"),
     Text(""), Text(""), Text(""), Text("Teacher"), Text("Scheduled"), Text("Picked Up"), Text("Dropped")]

  /** Lines 111-118 without the final cell: the row's teacher, shift, shift
      type, start and end, then three empty cells. A line without a row has
      eight empty cells. */
  function DetailFields(d: Option<Schedule>): seq<Field>
  {
    match d
    case Some(s) => [Text(s.teacher), Text(s.shift), Text(s.shiftType), DateTime(s.start), DateTime(s.end),
                     Text(""), Text(""), Text("")]
    case None => [Text(""), Text(""), Text(""), Text(""), Text(""), Text(""), Text(""), Text("")]
  }

  /** The cells after them: the last, empty cell of line 112; or, once the
      newline is dropped (lines 152 and 170), the summary or the totals. */
  function TailFields(t: Tail): seq<Field>
  {
    match t
    case Blank => [Text("")]
    case TeacherTotals(teacher, scheduled, pickedUp, dropped) =>
      [Text(teacher), Number(scheduled), Number(pickedUp), Number(dropped)]
    case GrandTotals(scheduled, pickedUp, dropped) =>
      [Text("Total"), Number(scheduled), Number(pickedUp), Number(dropped)]
  }

  function LineFields(l: Line): seq<Field>
  {
    DetailFields(l.detail) + TailFields(l.tail)
  }

  /** Lines 98-100 and 181-183: the header, then every line in order. */
  function FileLines(lines: seq<Line>): seq<seq<Field>>
  {
    [HeaderFields] + seq(|lines|, i requires 0 <= i < |lines| => LineFields(lines[i]))
  }

  /** A line holding a schedule row starts with its teacher, shift, shift
      type, start and end; the summaries and the totals sit under the
      header's last four columns, `Teacher,Scheduled,Picked Up,Dropped`; a
      line without them has nine cells, the last one empty. */
  lemma ColumnsUnderHeader(lines: seq<Line>)
    ensures |FileLines(lines)| == |lines| + 1
    ensures forall i :: 0 <= i < |lines| ==> |FileLines(lines)[i + 1]| == if lines[i].tail.Blank? then 9 else |HeaderFields|
    ensures forall i :: 0 <= i < |lines| ==> FileLines(lines)[i + 1][8..] == TailFields(lines[i].tail)
    ensures forall i :: 0 <= i < |lines| && lines[i].tail.Blank? ==> FileLines(lines)[i + 1][8] == Text("")
    ensures forall i :: 0 <= i < |lines| && lines[i].detail.Some? ==>
              var s := lines[i].detail.value;
              FileLines(lines)[i + 1][..5] == [Text(s.teacher), Text(s.shift), Text(s.shiftType), DateTime(s.start), DateTime(s.end)]
  {
    forall i | 0 <= i < |lines|
      ensures |FileLines(lines)[i + 1]| == if lines[i].tail.Blank? then 9 else |HeaderFields|
      ensures FileLines(lines)[i + 1][8..] == TailFields(lines[i].tail)
      ensures lines[i].detail.Some? ==>
                var s := lines[i].detail.value;
                FileLines(lines)[i + 1][..5] == [Text(s.teacher), Text(s.shift), Text(s.shiftType), DateTime(s.start), DateTime(s.end)]
    {
      LineCells(lines[i]);
    }
  }

  /** One line's cells: the schedule row's five values and three empty cells
      on the left, then its tail. */
  lemma LineCells(l: Line)
    ensures |LineFields(l)| == if l.tail.Blank? then 9 else |HeaderFields|
    ensures LineFields(l)[8..] == TailFields(l.tail)
    ensures l.detail.Some? ==>
              var s := l.detail.value;
              LineFields(l)[..5] == [Text(s.teacher), Text(s.shift), Text(s.shiftType), DateTime(s.start), DateTime(s.end)]
  {
    assert |DetailFields(l.detail)| == 8;
  }
}
