/** The circular time domain shared by the network units and the line terminator.
    Times are reals; the timer ceiling is the modulus of the circle. */
module Clock {

  /** The timer ceiling, TIMER_MAX in both the ONU and the OLT. */
  const TIMER_MAX: real := 1000000.0

  /** True when `t` lies on the circle [0, TIMER_MAX). */
  predicate OnCircle(t: real) {
    0.0 <= t < TIMER_MAX
  }

  /** Python's float `x % TIMER_MAX`: the remainder takes the sign of the divisor,
      so it is the floor remainder for every real, negative ones included. */
  function ModTimer(x: real): (r: real)
    ensures OnCircle(r)
    ensures ((x - r) / TIMER_MAX).Floor as real == (x - r) / TIMER_MAX
    ensures OnCircle(x) ==> r == x
    ensures 0.0 <= x ==> r <= x
  {
    var q := (x / TIMER_MAX).Floor;
    assert q as real <= x / TIMER_MAX < q as real + 1.0;
    assert q as real * TIMER_MAX <= x < q as real * TIMER_MAX + TIMER_MAX;
    x - q as real * TIMER_MAX
  }

  /** The forward distance on the circle from `from` to `to`: the plain difference when
      `to` is not behind `from`, otherwise the difference taken across the wrap point. */
  function ForwardDelta(from: real, to: real): (d: real)
    ensures to < from ==> d == to - from + TIMER_MAX
    ensures to >= from ==> d == to - from
    ensures OnCircle(from) && OnCircle(to) ==> OnCircle(d)
  {
    if to < from then to + (TIMER_MAX - from) else to - from
  }

  /** The distance is never negative as soon as the start is not past the ceiling and
      the end is not below zero; this is why accumulated waiting time never decreases. */
  lemma ForwardDeltaNonNegative(from: real, to: real)
    requires from <= TIMER_MAX && 0.0 <= to
    ensures ForwardDelta(from, to) >= 0.0
  {
  }

  /** Walking the forward distance from `from` lands on `to`, modulo the ceiling. */
  lemma ForwardDeltaArrives(from: real, to: real)
    requires OnCircle(from) && OnCircle(to)
    ensures ModTimer(from + ForwardDelta(from, to)) == to
  {
  }
}
