/** The order in which both reports list their teachers: each teacher of the
    rows once, sorted by name (`table_teachers.sort_by(|a, b| a.cmp(b))`,
    line 232 of generate_efficiency_report.rs, and `table_teachers.sort()`,
    line 126 of generate_consolidated_report.rs). */
module TeacherOrder {
  import opened Seqs
  import opened Strings
  import opened Sorting
  import opened Schedules

  /** The sorted teacher list: strictly ascending, naming every teacher
      with a row and no one else. */
  lemma SortedTeachers(ss: seq<Schedule>)
    ensures var ts := SortBy(Teachers(ss), Id);
      && multiset(ts) == multiset(Teachers(ss))
      && NoDup(ts)
      && (forall i, j :: 0 <= i < j < |ts| ==> LexLe(ts[i], ts[j]) && ts[i] != ts[j])
      && (forall s :: s in ss ==> s.teacher in ts)
      && (forall t :: t in ts ==> exists s :: s in ss && s.teacher == t)
  {
    TeacherMembers(ss);
    SortByMembers(Teachers(ss), Id);
    SortByNoDup(Teachers(ss), Id);
  }

  /** The sorted teacher list depends only on which rows there are, not on
      their order. */
  lemma TeacherOrderIndependent(a: seq<Schedule>, b: seq<Schedule>)
    requires forall s :: s in a <==> s in b
    ensures SortBy(Teachers(a), Id) == SortBy(Teachers(b), Id)
  {
    var ta := SortBy(Teachers(a), Id);
    var tb := SortBy(Teachers(b), Id);
    SortedTeachers(a);
    SortedTeachers(b);
    forall x
      ensures x in ta <==> x in tb
    {
      if x in ta {
        var s :| s in a && s.teacher == x;
        assert s in b;
      }
      if x in tb {
        var s :| s in b && s.teacher == x;
        assert s in a;
      }
    }
    SortedDistinctUnique(ta, tb);
  }
}
