/** Timestamps on one monotone clock: a second count and a nanosecond count, moved by a
    real number of seconds. Floating point is read as exact real arithmetic. */
module Timestamps {

  const NANOS: int := 1_000_000_000

  datatype Timespec = Timespec(sec: int, nsec: int) {
    predicate Normal() {
      0 <= nsec < NANOS
    }

    function Nanos(): int {
      sec * NANOS + nsec
    }
  }

  type Timestamp = t: Timespec | t.Normal() witness Timespec(0, 0)

  predicate Less(a: Timespec, b: Timespec) {
    a.sec < b.sec || (a.sec == b.sec && a.nsec < b.nsec)
  }

  predicate Greater(a: Timespec, b: Timespec) {
    a.sec > b.sec || (a.sec == b.sec && a.nsec > b.nsec)
  }

  function DiffSecs(a: Timespec, b: Timespec): real {
    (a.sec - b.sec) as real + (a.nsec - b.nsec) as real / (NANOS as real)
  }

  /** C's conversion of a floating value to an integer type: towards zero. */
  function Truncate(x: real): int {
    if x >= 0.0 then x.Floor else -(-x).Floor
  }

  function FromNanos(n: int): (t: Timestamp)
    ensures t.Nanos() == n
  {
    Timespec(n / NANOS, n % NANOS)
  }

  /** The whole-second part that the addition moves first; the rest goes into the nanoseconds. */
  function WholeSecond(t: Timespec, secs: real): int {
    t.sec + Truncate(secs)
  }

  /** The instant `secs` after `t` on the exact line, in nanoseconds. */
  function Exact(t: Timespec, secs: real): real {
    t.Nanos() as real + secs * NANOS as real
  }

  /** The reference result: the exact instant rounded towards the whole second `WholeSecond`. */
  function Rounded(t: Timespec, secs: real): int {
    var base := WholeSecond(t, secs) * NANOS;
    base + Truncate(Exact(t, secs) - base as real)
  }

  /** The timestamp `secs` after `t`. */
  function Later(t: Timespec, secs: real): Timestamp {
    FromNanos(Rounded(t, secs))
  }

  lemma TruncateBounds(x: real)
    ensures x >= 0.0 ==> x - 1.0 < Truncate(x) as real <= x
    ensures x < 0.0 ==> x <= Truncate(x) as real < x + 1.0
    ensures x < 0.0 ==> Truncate(x) <= 0
  {
  }

  lemma TruncateMonotone(x: real, y: real)
    requires x <= y
    ensures Truncate(x) <= Truncate(y)
  {
  }

  /** What the addition leaves for the nanosecond field lies within one second either way. */
  lemma ResidueRange(t: Timestamp, secs: real)
    ensures var residue := Exact(t, secs) - (WholeSecond(t, secs) * NANOS) as real;
            residue == t.nsec as real + (secs - Truncate(secs) as real) * NANOS as real &&
            -(NANOS as real) < residue < (2 * NANOS) as real
  {
    TruncateBounds(secs);
  }

  /** `addSeconds`: adjusts the two fields of a local copy, with a borrow and a carry. */
  method AddSeconds(t: Timestamp, secs: real) returns (r: Timestamp)
    ensures r == Later(t, secs)
  {
    ResidueRange(t, secs);
    var sec, nsec := t.sec, t.nsec;
    sec := sec + Truncate(secs);
    nsec := Truncate(nsec as real + (secs - Truncate(secs) as real) * NANOS as real);
    if nsec < 0 {
      nsec := nsec + NANOS;
      sec := sec - 1;
    }
    if nsec >= NANOS {
      nsec := nsec - NANOS;
      sec := sec + 1;
    }
    r := Timespec(sec, nsec);
    assert r.Nanos() == Rounded(t, secs);
  }

  /** Never off by a nanosecond or more, in either direction. */
  lemma LaterIsWithinANanosecond(t: Timestamp, secs: real)
    ensures -1.0 < Later(t, secs).Nanos() as real - Exact(t, secs) < 1.0
  {
    TruncateBounds(Exact(t, secs) - (WholeSecond(t, secs) * NANOS) as real);
  }

  /** For a delay that is not negative it is the exact sum cut down to whole nanoseconds; for a negative one it is
      the next whole nanosecond towards the second that the delay's own whole seconds lead to. */
  lemma DelaysAreCutDown(t: Timestamp, secs: real)
    ensures secs >= 0.0 ==> Later(t, secs).Nanos() == Exact(t, secs).Floor
    ensures secs < 0.0 ==>
              Later(t, secs).Nanos() == if Exact(t, secs) >= ((t.sec + -(-secs).Floor) * 1_000_000_000) as real
                                        then Exact(t, secs).Floor else -(-Exact(t, secs)).Floor
  {
    ResidueRange(t, secs);
    TruncateBounds(secs);
    TruncateBounds(Exact(t, secs) - (WholeSecond(t, secs) * NANOS) as real);
  }

  /** Rounding changes direction at the whole second, yet never swaps two results. */
  lemma LaterIsMonotone(t1: Timestamp, t2: Timestamp, d1: real, d2: real)
    requires t1.Nanos() <= t2.Nanos() && d1 <= d2
    ensures Later(t1, d1).Nanos() <= Later(t2, d2).Nanos()
  {
    TruncateMonotone(d1, d2);
    var b1, b2 := WholeSecond(t1, d1) * NANOS, WholeSecond(t2, d2) * NANOS;
    var x1, x2 := Exact(t1, d1) - b1 as real, Exact(t2, d2) - b2 as real;
    assert t1.sec <= t2.sec;
    assert b1 <= b2 && b1 as real + x1 <= b2 as real + x2;
    TruncateBounds(x1);
    TruncateBounds(x2);
  }

  /** Timestamps compare as instants, and as the sign of the difference in seconds. */
  lemma LessIsTheOrderOfInstants(a: Timestamp, b: Timestamp)
    ensures Less(a, b) <==> a.Nanos() < b.Nanos()
    ensures Greater(a, b) <==> a.Nanos() > b.Nanos()
    ensures Less(a, b) <==> DiffSecs(a, b) < 0.0
    ensures Greater(a, b) <==> DiffSecs(a, b) > 0.0
    ensures !Less(a, b) && !Greater(a, b) <==> a == b
  {
    assert DiffSecs(a, b) * NANOS as real == (a.Nanos() - b.Nanos()) as real;
  }

  lemma NoDelayIsNow(t: Timestamp)
    ensures Later(t, 0.0) == t
  {
    assert WholeSecond(t, 0.0) == t.sec;
    assert Exact(t, 0.0) == t.Nanos() as real;
    assert Rounded(t, 0.0) == t.Nanos();
    LessIsTheOrderOfInstants(Later(t, 0.0), t);
  }
}
