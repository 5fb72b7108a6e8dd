/** The integer types behind the efficiency variance (lines 131-192 of
    generate_efficiency_report.rs). `scheduled` is a `count() * 2`, so a
    `usize`; `taught` and `no_shows` start at `0` and are only combined with
    it, so Rust infers `usize` for them and for `taught - scheduled` and
    `initial_variance - no_shows` too. Only the final `as i32` casts turn
    them into signed numbers. Under overflow checks (debug builds) the first
    subtraction panics whenever fewer invoices were taught than sessions
    were scheduled; without them (release builds) it wraps around modulo
    2^64 and the cast recovers the intended value.

    `EfficiencyReport.DayEntry` computes the intended signed value. */
module UsizeVariance {
  import opened Wrappers
  import opened Seqs
  import opened Schedules
  import opened EfficiencyReport

  /** `usize` on a 64-bit target. */
  const UsizeModulus: int := 0x1_0000_0000_0000_0000

  const I32Modulus: int := 0x1_0000_0000
  const I32Min: int := -0x8000_0000
  const I32Max: int := 0x7fff_ffff

  predicate IsUsize(x: int)
  {
    0 <= x < UsizeModulus
  }

  /** `a - b` on `usize` with overflow checks: `None` stands for the panic. */
  function CheckedSub(a: int, b: int): (r: Option<int>)
    requires IsUsize(a) && IsUsize(b)
    ensures r.Some? <==> b <= a
    ensures r.Some? ==> IsUsize(r.value) && r.value + b == a
  {
    if b <= a then Some(a - b) else None
  }

  /** `a - b` on `usize` without overflow checks: the difference modulo 2^64. */
  function WrappingSub(a: int, b: int): (r: int)
    requires IsUsize(a) && IsUsize(b)
    ensures IsUsize(r)
    ensures (r - (a - b)) % UsizeModulus == 0
  {
    (a - b) % UsizeModulus
  }

  /** `x as i32`: keeps the low 32 bits, read in two's complement. */
  function AsI32(x: int): (r: int)
    ensures I32Min <= r <= I32Max
    ensures (r - x) % I32Modulus == 0
  {
    var low := x % I32Modulus;
    if low <= I32Max then low else low - I32Modulus
  }

  /** The cast leaves every value of the `i32` range unchanged. */
  lemma AsI32Exact(x: int, y: int)
    requires I32Min <= y <= I32Max
    requires (x - y) % I32Modulus == 0
    ensures AsI32(x) == y
  {
    var k := (x - y) / I32Modulus;
    assert x == y + k * I32Modulus;
    var low := x % I32Modulus;
    if y >= 0 {
      assert low == y;
    } else {
      assert low == y + I32Modulus;
    }
  }

  /** Lines 177-185 with overflow checks: `None` is the panic. */
  function DebugVariance(taught: int, scheduled: int, noShows: int): Option<int>
    requires IsUsize(taught) && IsUsize(scheduled) && IsUsize(noShows)
  {
    match CheckedSub(taught, scheduled)
    case None => None
    case Some(initial) =>
      match CheckedSub(initial, noShows)
      case None => None
      case Some(variance) => Some(AsI32(variance))
  }

  /** Lines 177-185 without overflow checks. */
  function ReleaseVariance(taught: int, scheduled: int, noShows: int): int
    requires IsUsize(taught) && IsUsize(scheduled) && IsUsize(noShows)
  {
    AsI32(WrappingSub(WrappingSub(taught, scheduled), noShows))
  }

  /** With overflow checks the variance panics exactly when it would be
      negative, and otherwise is the intended value whenever that fits. */
  lemma DebugVariancePanics(taught: int, scheduled: int, noShows: int)
    requires IsUsize(taught) && IsUsize(scheduled) && IsUsize(noShows)
    ensures DebugVariance(taught, scheduled, noShows).None? <==> taught < scheduled + noShows
    ensures var v := taught - scheduled - noShows;
      DebugVariance(taught, scheduled, noShows).Some? && v <= I32Max ==>
        DebugVariance(taught, scheduled, noShows).value == v
  {
    var v := taught - scheduled - noShows;
    if DebugVariance(taught, scheduled, noShows).Some? && v <= I32Max {
      AsI32Exact(v, v);
    }
  }

  /** Without overflow checks the two wrapping subtractions and the cast give
      the intended signed value whenever it lies in the `i32` range. */
  lemma ReleaseVarianceAgrees(taught: int, scheduled: int, noShows: int)
    requires IsUsize(taught) && IsUsize(scheduled) && IsUsize(noShows)
    requires I32Min <= taught - scheduled - noShows <= I32Max
    ensures ReleaseVariance(taught, scheduled, noShows) == taught - scheduled - noShows
  {
    var w := WrappingSub(WrappingSub(taught, scheduled), noShows);
    var v := taught - scheduled - noShows;
    assert (w - v) % UsizeModulus == 0 by {
      var a := WrappingSub(taught, scheduled);
      var ka := (a - (taught - scheduled)) / UsizeModulus;
      var kw := (w - (a - noShows)) / UsizeModulus;
      assert w - v == (ka + kw) * UsizeModulus;
    }
    var k := (w - v) / UsizeModulus;
    assert w - v == (k * 0x1_0000_0000) * I32Modulus;
    AsI32Exact(w, v);
  }

  /** A teacher with one session on a day and no invoice for it: the intended
      variance is -2, and the checked subtraction `0 - 2` panics. */
  lemma UntaughtSessionPanics()
    ensures var s := Schedule(1, Stamp(0, 0), Stamp(0, 3600), "teacher", "group", "shift", "Pickup");
      var e := DayEntry([s], [], "teacher", 0);
      && e.scheduled == 2 && e.taught == 0 && e.noShows == 0 && e.variance == -2
      && DebugVariance(e.taught, e.scheduled, e.noShows) == None
  {
    var s := Schedule(1, Stamp(0, 0), Stamp(0, 3600), "teacher", "group", "shift", "Pickup");
    var rows := Filter([s], StartsOn("teacher", 0));
    assert [s][..0] == [];
    assert rows == [s];
    assert Filter([], ForShift("shift")) == [];
    assert TallyRows(Tally(0, 0), rows, []) == Tally(0, 0);
  }
}
