/** The schedule row both reports read from the database (the `Schedule`
    struct, identical in the two report files), and the distinct teacher
    list both build from it. */
module Schedules {
  import opened Seqs

  /** A point in time: a calendar day number and the seconds since midnight. */
  datatype Stamp = Stamp(day: int, second: int)

  /** One row of `schedules` joined with its teacher's name. */
  datatype Schedule = Schedule(
    id: int,
    start: Stamp,
    end: Stamp,
    teacher: string,
    shiftGroup: string,
    shift: string,
    shiftType: string)

  /** The teacher name of every row, in row order. */
  function Names(ss: seq<Schedule>): seq<string>
  {
    seq(|ss|, i requires 0 <= i < |ss| => ss[i].teacher)
  }

  /** `table_teachers`: each teacher once, in order of first appearance. */
  function Teachers(ss: seq<Schedule>): seq<string>
  {
    Dedup(Names(ss))
  }

  /** Rows of teacher `t` that satisfy `p`. */
  function ByTeacher(t: string, p: Schedule -> bool): Schedule -> bool
  {
    (s: Schedule) => s.teacher == t && p(s)
  }

  /** For each teacher name, how many of `ss` are theirs and satisfy `p`. */
  function PerTeacherCount(ss: seq<Schedule>, p: Schedule -> bool): string -> int
  {
    t => Count(ss, ByTeacher(t, p))
  }

  /** Rows whose teacher is listed in `ts` and that satisfy `p`. */
  function InTeachers(ts: seq<string>, p: Schedule -> bool): Schedule -> bool
  {
    (s: Schedule) => s.teacher in ts && p(s)
  }

  /** The teacher list holds every row's teacher exactly once, nothing else,
      in order of first appearance. */
  lemma TeachersSpec(ss: seq<Schedule>)
    ensures NoDup(Teachers(ss))
    ensures forall s :: s in ss ==> s.teacher in Teachers(ss)
    ensures forall t :: t in Teachers(ss) ==> exists s :: s in ss && s.teacher == t
    ensures forall i, j :: 0 <= i < j < |Teachers(ss)| ==>
              IndexOf(Names(ss), Teachers(ss)[i]) < IndexOf(Names(ss), Teachers(ss)[j])
  {
    TeacherMembers(ss);
    DedupFirstAppearance(Names(ss));
  }

  /** The teacher names are exactly the teachers of the rows. */
  lemma TeacherMembers(ss: seq<Schedule>)
    ensures forall s :: s in ss ==> s.teacher in Teachers(ss)
    ensures forall t :: t in Teachers(ss) ==> exists s :: s in ss && s.teacher == t
  {
    var names := Names(ss);
    forall s | s in ss
      ensures s.teacher in names
    {
      var i :| 0 <= i < |ss| && ss[i] == s;
      assert names[i] == s.teacher;
    }
    forall t | t in Teachers(ss)
      ensures exists s :: s in ss && s.teacher == t
    {
      var i :| 0 <= i < |names| && names[i] == t;
      assert ss[i] in ss;
    }
  }

  /** Summing a per-teacher count over a list of distinct names that covers
      every row's teacher gives the count over all rows. */
  lemma TeacherPartition(ss: seq<Schedule>, ts: seq<string>, p: Schedule -> bool)
    requires NoDup(ts)
    requires forall s :: s in ss ==> s.teacher in ts
    ensures Sum(ts, PerTeacherCount(ss, p)) == Count(ss, p)
  {
    PartialPartition(ss, ts, p);
    CountCongruent(ss, InTeachers(ts, p), p);
  }

  lemma {:induction false} PartialPartition(ss: seq<Schedule>, ts: seq<string>, p: Schedule -> bool)
    requires NoDup(ts)
    ensures Sum(ts, PerTeacherCount(ss, p)) == Count(ss, InTeachers(ts, p))
    decreases |ts|
  {
    if |ts| == 0 {
      FilterNone(ss, InTeachers(ts, p));
    } else {
      var ts' := ts[..|ts| - 1];
      var t := ts[|ts| - 1];
      assert ts == ts' + [t];
      assert NoDup(ts');
      assert t !in ts';
      PartialPartition(ss, ts', p);
      CountSplit(ss, InTeachers(ts, p), InTeachers(ts', p), ByTeacher(t, p));
    }
  }
}
