/** How often a refused control message is tried again before it is given up.

    The wait after a failed attempt starts at a quarter of a second and doubles
    to two seconds; no attempt starts once the deadline has passed. */
module Retry {

  const FIRST_WAIT := 0.25
  const MAX_WAIT := 2.0
  const CONTROL_DEADLINE := 10.0

  /** The wait after attempt `i`, unless the deadline cuts it short. */
  function Wait(i: nat): (w: real)
    ensures FIRST_WAIT <= w <= MAX_WAIT
    ensures i == 1 ==> w == 0.5
    ensures i == 2 ==> w == 1.0
    ensures i >= 3 ==> w == MAX_WAIT
  {
    if i == 0 then FIRST_WAIT
    else if Wait(i - 1) * 2.0 > MAX_WAIT then MAX_WAIT else Wait(i - 1) * 2.0
  }

  /** The least time from the first attempt to attempt `n`. */
  function Offset(n: nat): real
  {
    if n == 0 then 0.0 else Offset(n - 1) + Wait(n - 1)
  }

  lemma {:induction false} OffsetSteady(n: nat)
    requires n >= 3
    ensures Offset(n) == 1.75 + MAX_WAIT * (n - 3) as real
  {
    if n == 3 {
      assert Wait(0) == 0.25 && Wait(1) == 0.5 && Wait(2) == 1.0;
      assert Offset(1) == 0.25 && Offset(2) == 0.75;
    } else {
      OffsetSteady(n - 1);
    }
  }

  lemma {:induction false} OffsetIncreases(i: nat, j: nat)
    requires i <= j
    ensures Offset(i) <= Offset(j)
    decreases j - i
  {
    if i < j {
      OffsetIncreases(i, j - 1);
    }
  }

  /** The times at which one message is attempted: none before it is queued,
      none at or past its deadline, and each after the wait its predecessor's
      failure costs. */
  ghost predicate Schedule(times: seq<real>, queuedAt: real, deadline: real)
  {
    && (forall i :: 0 <= i < |times| ==> queuedAt <= times[i] < queuedAt + deadline)
    && (forall i :: 0 <= i < |times| - 1 ==> times[i + 1] >= times[i] + Wait(i))
  }

  lemma {:induction false} ScheduleSpreads(times: seq<real>, queuedAt: real, deadline: real, n: nat)
    requires Schedule(times, queuedAt, deadline) && n < |times|
    ensures times[n] >= queuedAt + Offset(n)
  {
    if n > 0 {
      ScheduleSpreads(times, queuedAt, deadline, n - 1);
      assert times[(n - 1) + 1] >= times[n - 1] + Wait(n - 1);
    }
  }

  /** The next attempt keeps the schedule, after its wait and before the end. */
  lemma ScheduleGoesOn(times: seq<real>, queuedAt: real, deadline: real, now: real)
    requires Schedule(times, queuedAt, deadline) && queuedAt <= now < queuedAt + deadline
    requires times != [] ==> now >= times[|times| - 1] + Wait(|times| - 1)
    ensures Schedule(times + [now], queuedAt, deadline)
  {
    hide Wait;
    var longer := times + [now];
    assert forall i :: 0 <= i < |times| ==> longer[i] == times[i];
  }

  /** The tightest schedule: each attempt as soon as its wait is over. */
  lemma TightSchedule(n: nat, queuedAt: real, deadline: real) returns (times: seq<real>)
    requires n > 0 && Offset(n - 1) < deadline
    ensures |times| == n && Schedule(times, queuedAt, deadline)
  {
    times := seq(n, i requires 0 <= i < n => queuedAt + Offset(i));
    forall i | 0 <= i < n ensures queuedAt <= times[i] < queuedAt + deadline {
      OffsetIncreases(0, i);
      OffsetIncreases(i, n - 1);
    }
    forall i | 0 <= i < n - 1 ensures times[i + 1] >= times[i] + Wait(i) {
      assert Offset(i + 1) == Offset(i) + Wait(i);
    }
  }

  /** `n` attempts fit under a deadline exactly when their waits do: no
      schedule makes more, and one makes that many. */
  lemma {:induction false} AttemptsExactly(n: nat, queuedAt: real, deadline: real)
    requires n > 0
    ensures (exists times :: |times| == n && Schedule(times, queuedAt, deadline)) <==> Offset(n - 1) < deadline
  {
    if times :| |times| == n && Schedule(times, queuedAt, deadline) {
      ScheduleSpreads(times, queuedAt, deadline, n - 1);
      assert times[n - 1] < queuedAt + deadline;
    }
    if Offset(n - 1) < deadline {
      var times := TightSchedule(n, queuedAt, deadline);
    }
  }

  /** More attempts than this fit under no schedule. */
  function Bound(deadline: real): (n: nat)
    ensures n >= 3
  {
    if deadline <= 1.75 then 3 else 4 + ((deadline - 1.75) / 2.0).Floor
  }

  lemma BoundSuffices(deadline: real)
    ensures Offset(Bound(deadline)) >= deadline
  {
    OffsetSteady(Bound(deadline));
  }

  /** At most `Bound(deadline)` attempts, whatever the deadline; and under the
      default one, at most eight, which can happen. */
  lemma {:induction false} AttemptsBounded(times: seq<real>, queuedAt: real, deadline: real)
    requires Schedule(times, queuedAt, deadline)
    ensures |times| <= Bound(deadline)
    ensures deadline == CONTROL_DEADLINE ==> |times| <= 8
    ensures exists eight :: |eight| == 8 && Schedule(eight, queuedAt, CONTROL_DEADLINE)
  {
    var n, bound := |times|, Bound(deadline);
    OffsetSteady(7);
    OffsetSteady(8);
    BoundSuffices(deadline);
    hide Schedule, Offset, Bound;
    AttemptsExactly(8, queuedAt, CONTROL_DEADLINE);
    if n > 0 {
      AttemptsExactly(n, queuedAt, deadline);
      OffsetIncreases(if n <= bound then n - 1 else bound, n - 1);
      OffsetIncreases(if n <= 8 then n - 1 else 8, n - 1);
    }
  }
}
