/** The optical line terminator: it owns the units and their window durations, picks the
    unit whose event comes next on the circular clock, and scores a run by the reciprocal
    of the total time the units spent waiting. */
module Olt {
  import opened Clock
  import opened Onu

  datatype Result<T, E> = Success(value: T) | Failure(error: E)

  /** The errors the terminator raises: a TypeError from the constructor, and the
      ZeroDivisionError of the fitness when nothing has waited. */
  datatype Error = LengthMismatch | DivisionByZero

  /** A float that may be infinite: the search starts from an infinite time. */
  datatype Bound = Finite(value: real) | Infinity

  /** `delta < bound`, where every real is below infinity. */
  predicate Below(delta: real, bound: Bound) {
    bound.Infinity? || delta < bound.value
  }

  /** Index `k` holds the earliest event seen from `now`: no event is strictly closer,
      and every event before `k` is strictly farther (ties go to the lowest index). */
  predicate IsEarliest(now: real, times: seq<real>, k: int) {
    0 <= k < |times| &&
    (forall j :: 0 <= j < |times| ==> ForwardDelta(now, times[k]) <= ForwardDelta(now, times[j])) &&
    (forall j :: 0 <= j < k ==> ForwardDelta(now, times[k]) < ForwardDelta(now, times[j]))
  }

  /** The earliest event is unique: the tie rule leaves no choice. */
  lemma EarliestIsUnique(now: real, times: seq<real>, k1: int, k2: int)
    requires IsEarliest(now, times, k1) && IsEarliest(now, times, k2)
    ensures k1 == k2
  {
    EarliestComesFirst(now, times, k1, k2);
    EarliestComesFirst(now, times, k2, k1);
  }

  /** No event at a lower index than the earliest one is as close. */
  lemma EarliestComesFirst(now: real, times: seq<real>, k: int, j: int)
    requires IsEarliest(now, times, k) && 0 <= j < |times|
    requires ForwardDelta(now, times[j]) <= ForwardDelta(now, times[k])
    ensures k <= j
  {
  }

  /** On the circle the chosen event is less than one full turn away. */
  lemma EarliestWithinOneTurn(now: real, times: seq<real>, k: int)
    requires IsEarliest(now, times, k)
    requires OnCircle(now) && forall j :: 0 <= j < |times| ==> OnCircle(times[j])
    ensures 0.0 <= ForwardDelta(now, times[k]) < TIMER_MAX
  {
  }

  /** The sum of a sequence of reals, adding from the left as a loop does; terms that
      are all non-negative have a non-negative sum. */
  function Sum(s: seq<real>): (total: real)
    ensures (forall i :: 0 <= i < |s| ==> s[i] >= 0.0) ==> total >= 0.0
  {
    if s == [] then 0.0
    else
      assert forall i :: 0 <= i < |s| - 1 ==> s[..|s| - 1][i] == s[i];
      Sum(s[..|s| - 1]) + s[|s| - 1]
  }

  /** Non-negative terms sum to zero exactly when every term is zero: with non-negative
      waits, the fitness is undefined exactly when no unit has waited at all. */
  lemma {:induction false} SumZeroIffAllZero(s: seq<real>)
    requires forall i :: 0 <= i < |s| ==> s[i] >= 0.0
    ensures Sum(s) == 0.0 <==> forall i :: 0 <= i < |s| ==> s[i] == 0.0
  {
    if s != [] {
      var init := s[..|s| - 1];
      SumZeroIffAllZero(init);
      if Sum(s) == 0.0 {
        forall i | 0 <= i < |s| ensures s[i] == 0.0 {
          if i < |s| - 1 { assert s[i] == init[i]; }
        }
      }
    }
  }

  class OLT {
    var onus: seq<ONU>
    var timeDistribution: seq<real>
    var time: real

    constructor (onus: seq<ONU>, timeDistribution: seq<real>, time: real)
      requires |timeDistribution| == |onus|
      ensures this.onus == onus && this.timeDistribution == timeDistribution
      ensures this.time == time
    {
      this.onus := onus;
      this.timeDistribution := timeDistribution;
      this.time := time;
    }

    /** The next-event times of the units, in unit order. */
    function EventTimes(): seq<real>
      reads this, onus
    {
      seq(|onus|, i reads this, onus requires 0 <= i < |onus| => onus[i].NextEvent().1)
    }

    /** The waits accumulated by the units, in unit order. */
    function Waits(): seq<real>
      reads this, onus
    {
      seq(|onus|, i reads this, onus requires 0 <= i < |onus| => onus[i].waited)
    }

    /** The reciprocal of the total wait of all units; dividing by a zero total is an
        error. */
    method FitnessFunction() returns (r: Result<real, Error>)
      ensures Sum(Waits()) == 0.0 <==> r == Failure(DivisionByZero)
      ensures Sum(Waits()) != 0.0 ==> r == Success(1.0 / Sum(Waits()))
      ensures r.Success? ==> r.value * Sum(Waits()) == 1.0
    {
      ghost var ws := Waits();
      var val := 0.0;
      for i := 0 to |onus|
        invariant val == Sum(ws[..i])
      {
        assert ws[..i + 1][..i] == ws[..i];
        val := val + onus[i].waited;
      }
      assert ws[..|onus|] == ws;
      if val == 0.0 {
        return Failure(DivisionByZero);
      }
      r := Success(1.0 / val);
    }

    /** The unit whose event comes next from the clock, with that event's time and kind.
        Without units the answer is index 0, an infinite time and the idle kind. */
    method GetNextEvent() returns (index: nat, eventTime: Bound, eventType: EventType)
      ensures |onus| == 0 ==> index == 0 && eventTime == Infinity && eventType == IdleEvent
      ensures |onus| > 0 ==> IsEarliest(time, EventTimes(), index)
      ensures |onus| > 0 ==>
                eventTime == Finite(onus[index].NextEvent().1) &&
                eventType == onus[index].NextEvent().0
    {
      ghost var ts := EventTimes();
      index, eventTime, eventType := 0, Infinity, IdleEvent;
      var minDelta := Infinity;
      for i := 0 to |onus|
        invariant i == 0 ==> index == 0 && eventTime == Infinity &&
                             eventType == IdleEvent && minDelta == Infinity
        invariant i > 0 ==> IsEarliest(time, ts[..i], index)
        invariant i > 0 ==> minDelta == Finite(ForwardDelta(time, ts[index]))
        invariant i > 0 ==> eventTime == Finite(ts[index]) &&
                            eventType == onus[index].NextEvent().0
      {
        var event := onus[i].NextEvent();
        var delta: real;
        if event.1 < time {
          delta := event.1 + (TIMER_MAX - time);
        } else {
          delta := event.1 - time;
        }
        if Below(delta, minDelta) {
          minDelta := Finite(delta);
          eventTime := Finite(event.1);
          index := i;
          eventType := event.0;
        }
      }
      assert ts[..|onus|] == ts;
    }
  }

  /** Builds a terminator over `onus` with window durations `timeDistribution` and the
      clock at `time`; the two sequences must have the same length. */
  method Create(onus: seq<ONU>, timeDistribution: seq<real>, time: real)
    returns (r: Result<OLT, Error>)
    ensures r.Failure? <==> |timeDistribution| != |onus|
    ensures r.Failure? ==> r.error == LengthMismatch
    ensures r.Success? ==> fresh(r.value) && r.value.onus == onus &&
                           r.value.timeDistribution == timeDistribution && r.value.time == time
  {
    if |timeDistribution| != |onus| {
      return Failure(LengthMismatch);
    }
    var olt := new OLT(onus, timeDistribution, time);
    r := Success(olt);
  }
}
