/** A recording played in a loop: the time each row is given, and when it goes out.

    Rows are addressed by an absolute index that never wraps, negative indices
    included; the recording repeats end to start for ever. */
module TimeBases {

  /** The rows' time stamps, in seconds, and the nominal rate. */
  datatype Recording = Recording(time: seq<real>, dataRate: real)

  ghost predicate Playable(rec: Recording)
  {
    rec.time != [] && rec.dataRate != 0.0
  }

  /** One pass, with the last row's own interval. */
  function Duration(rec: Recording): real
    requires Playable(rec)
  {
    rec.time[|rec.time| - 1] - rec.time[0] + 1.0 / rec.dataRate
  }

  function RowAt(rec: Recording, index: int): (row: nat)
    requires rec.time != []
    ensures row < |rec.time|
  {
    index % |rec.time|
  }

  /** The time stamp of an absolute index: whole passes, and the row's offset. */
  function TimeAt(rec: Recording, zero: real, index: int): real
    requires Playable(rec)
  {
    zero + (index / |rec.time|) as real * Duration(rec) + (rec.time[RowAt(rec, index)] - rec.time[0])
  }

  /** The first pass: each row in its turn, as long after `zero` as it is after
      the recording's start. */
  lemma FirstPass(rec: Recording, zero: real, k: nat)
    requires Playable(rec) && k < |rec.time|
    ensures RowAt(rec, k) == k && TimeAt(rec, zero, k) == zero + (rec.time[k] - rec.time[0])
  {
    assert k / |rec.time| == 0 && k % |rec.time| == k;
  }

  // ---------------------------------------------------------------- time never turns back

  lemma MulAtLeast(a: int, n: int)
    requires a >= 1 && n > 0
    ensures a * n >= n
  {
  }

  lemma MulSum(a: int, b: int, n: int)
    ensures (a - b) * n == a * n - b * n
  {
  }

  lemma DivMod(n: int, q: int, r: int)
    requires 0 <= r < n
    ensures (q * n + r) / n == q && (q * n + r) % n == r
  {
    var m := q * n + r;
    var p := m / n;
    assert m == p * n + m % n;
    MulSum(q, p, n);
    MulSum(p, q, n);
    if q > p {
      MulAtLeast(q - p, n);
    } else if q < p {
      MulAtLeast(p - q, n);
    }
  }

  /** From one index to the next: within a pass what the recording says, and
      across a seam, any seam, one sample. */
  lemma StepAt(rec: Recording, zero: real, index: int)
    requires Playable(rec)
    ensures var row := RowAt(rec, index);
            TimeAt(rec, zero, index + 1) - TimeAt(rec, zero, index)
            == if row + 1 < |rec.time| then rec.time[row + 1] - rec.time[row] else 1.0 / rec.dataRate
  {
    var n := |rec.time|;
    var pass, row := index / n, RowAt(rec, index);
    assert index == pass * n + row;
    if row + 1 < n {
      DivMod(n, pass, row + 1);
    } else {
      assert index + 1 == (pass + 1) * n + 0;
      DivMod(n, pass + 1, 0);
      assert (pass + 1) as real * Duration(rec) == pass as real * Duration(rec) + Duration(rec);
    }
  }

  /** What the seam is for: looping keeps the sampling interval, forwards and
      backwards, and a whole pass later every row is exactly a pass later. */
  lemma SeamsKeepTheRate(rec: Recording, zero: real, pass: int, index: int)
    requires Playable(rec)
    ensures TimeAt(rec, zero, pass * |rec.time|) - TimeAt(rec, zero, pass * |rec.time| - 1) == 1.0 / rec.dataRate
    ensures TimeAt(rec, zero, index + |rec.time|) - TimeAt(rec, zero, index) == Duration(rec)
    ensures RowAt(rec, index + |rec.time|) == RowAt(rec, index)
    ensures TimeAt(rec, zero, 0) == zero
  {
    var n := |rec.time|;
    var before := pass * n - 1;
    assert before == (pass - 1) * n + (n - 1);
    DivMod(n, pass - 1, n - 1);
    StepAt(rec, zero, before);
    var q, r := index / n, index % n;
    assert index + n == (q + 1) * n + r;
    DivMod(n, q + 1, r);
    assert (q + 1) as real * Duration(rec) == q as real * Duration(rec) + Duration(rec);
  }

  ghost predicate Increasing(rec: Recording, zero: real)
    requires Playable(rec)
  {
    forall i, j :: i < j ==> TimeAt(rec, zero, i) < TimeAt(rec, zero, j)
  }

  ghost predicate StrictlyAscending(time: seq<real>)
  {
    forall k :: 0 <= k < |time| - 1 ==> time[k] < time[k + 1]
  }

  lemma {:induction false} LaterIsLater(rec: Recording, zero: real, i: int, j: int)
    requires Playable(rec) && rec.dataRate > 0.0 && StrictlyAscending(rec.time) && i < j
    ensures TimeAt(rec, zero, i) < TimeAt(rec, zero, j)
    decreases j - i
  {
    StepAt(rec, zero, j - 1);
    if i < j - 1 {
      LaterIsLater(rec, zero, i, j - 1);
    }
  }

  /** Time increases over all indices exactly when the recording's own stamps
      do, strictly, at a positive rate: stamps in order are not enough. */
  lemma IncreasingExactly(rec: Recording, zero: real)
    requires Playable(rec)
    ensures Increasing(rec, zero) <==> StrictlyAscending(rec.time) && rec.dataRate > 0.0
  {
    var n := |rec.time|;
    if Increasing(rec, zero) {
      forall k | 0 <= k < n - 1 ensures rec.time[k] < rec.time[k + 1] {
        DivMod(n, 0, k);
        StepAt(rec, zero, k);
        assert TimeAt(rec, zero, k) < TimeAt(rec, zero, k + 1);
      }
      DivMod(n, 0, n - 1);
      StepAt(rec, zero, n - 1);
      assert TimeAt(rec, zero, n - 1) < TimeAt(rec, zero, n);
      assert 1.0 / rec.dataRate > 0.0;
    } else if StrictlyAscending(rec.time) && rec.dataRate > 0.0 {
      forall i, j | i < j ensures TimeAt(rec, zero, i) < TimeAt(rec, zero, j) {
        LaterIsLater(rec, zero, i, j);
      }
    }
  }

  // ---------------------------------------------------------------- when rows go out

  /** What a turn of the loop takes: offering the row, and how late the wait
      wakes beyond what was asked. */
  datatype Delay = Delay(busy: real, late: real)

  /** A turn of the loop: when it offered its row, when the next is due, and
      when the loop went round. */
  datatype Turn = Turn(offered: real, due: real, resumed: real)

  function Later(a: real, b: real): real
  {
    if a < b then b else a
  }

  function TurnAfter(offered: real, due: real, interval: real, d: Delay): Turn
  {
    var now := offered + d.busy;
    var next := if now > due + interval + interval then now else due + interval;
    Turn(offered, next, now + Later(0.0, next - now) + d.late)
  }

  function Turns(start: real, interval: real, delays: seq<Delay>): (r: seq<Turn>)
    ensures |r| == |delays|
  {
    if delays == [] then [] else
      var before := Turns(start, interval, delays[..|delays| - 1]);
      var d := delays[|delays| - 1];
      before + [if before == [] then TurnAfter(start, start, interval, d)
                else TurnAfter(before[|before| - 1].resumed, before[|before| - 1].due, interval, d)]
  }

  ghost predicate Real(delays: seq<Delay>)
  {
    forall k :: 0 <= k < |delays| ==> delays[k].busy >= 0.0 && delays[k].late >= 0.0
  }

  /** A turn leaves the loop at most an interval behind, and waits out the rest. */
  ghost predicate Kept(a: Turn, interval: real)
  {
    a.due >= a.offered - interval && a.resumed >= a.due && a.resumed >= a.offered
  }

  /** One turn follows from the one before: never early, and always a full
      interval further on. */
  ghost predicate Follows(a: Turn, b: Turn, interval: real)
  {
    b.offered >= a.due && b.offered >= a.offered && b.due >= a.due + interval
  }

  lemma {:induction false} TurnsFollow(start: real, interval: real, delays: seq<Delay>, k: nat)
    requires interval > 0.0 && Real(delays) && k < |delays|
    ensures Kept(Turns(start, interval, delays)[k], interval)
    ensures k > 0 ==> Follows(Turns(start, interval, delays)[k - 1], Turns(start, interval, delays)[k], interval)
    decreases |delays|, k
  {
    var last := |delays| - 1;
    if k < last {
      TurnsFollow(start, interval, delays[..last], k);
    } else if k > 0 {
      TurnsFollow(start, interval, delays[..last], k - 1);
    }
  }

  /** `m` intervals. */
  function Span(m: int, interval: real): real
  {
    m as real * interval
  }

  lemma SpanMore(m: int, interval: real)
    ensures Span(m + 1, interval) == Span(m, interval) + interval && Span(0, interval) == 0.0
  {
  }

  lemma {:induction false} DueAdvances(start: real, interval: real, delays: seq<Delay>, i: nat, m: nat)
    requires interval > 0.0 && Real(delays) && i + m < |delays|
    ensures Turns(start, interval, delays)[i + m].due >= Turns(start, interval, delays)[i].due + Span(m, interval)
    decreases m
  {
    SpanMore(m - 1, interval);
    hide Turns, Span;
    if m > 0 {
      DueAdvances(start, interval, delays, i, m - 1);
      TurnsFollow(start, interval, delays, i + m);
    }
  }

  /** No burst, however the loop is held up: any n + 1 consecutive rows take at
      least n - 2 intervals. */
  lemma NoBurst(start: real, interval: real, delays: seq<Delay>, i: nat, n: nat)
    requires interval > 0.0 && Real(delays) && n > 0 && i + n < |delays|
    ensures Turns(start, interval, delays)[i + n].offered - Turns(start, interval, delays)[i].offered >= Span(n - 2, interval)
  {
    hide Turns, Span;
    TurnsFollow(start, interval, delays, i);
    DueAdvances(start, interval, delays, i, n - 1);
    TurnsFollow(start, interval, delays, i + n);
    SpanMore(n - 2, interval);
  }

  /** The loop is at most an interval behind the times set at its start. */
  ghost predicate OnTime(start: real, interval: real, delays: seq<Delay>)
  {
    forall k :: 0 <= k < |delays| ==>
      Turns(start, interval, delays)[k].offered + delays[k].busy <= start + Span(k + 2, interval)
  }

  /** No drift: as long as it is never further behind, it keeps to those times. */
  lemma {:induction false} NoDrift(start: real, interval: real, delays: seq<Delay>, k: nat)
    requires OnTime(start, interval, delays) && k < |delays|
    ensures Turns(start, interval, delays)[k].due == start + Span(k + 1, interval)
    decreases |delays|
  {
    hide Span;
    var last := |delays| - 1;
    var front := delays[..last];
    assert OnTime(start, interval, front) by {
      assert forall j :: 0 <= j < last ==> Turns(start, interval, delays)[j] == Turns(start, interval, front)[j] && front[j] == delays[j];
    }
    if k < last {
      NoDrift(start, interval, front, k);
    } else {
      SpanMore(0, interval);
      SpanMore(k, interval);
      SpanMore(k + 1, interval);
      if k > 0 {
        NoDrift(start, interval, front, k - 1);
      }
    }
  }

  // ---------------------------------------------------------------- the player

  datatype Frame = Frame(offeredAt: real, time: real, row: nat)

  class RecordingPlayer {
    const recording: Recording
    const speed: real
    const loop: bool
    const zero: real
    /** The next row to play. */
    var i: int

    constructor (recording: Recording, speed: real, loop: bool, zero: real)
      ensures this.recording == recording && this.speed == speed && this.loop == loop && this.zero == zero && i == 0
    {
      this.recording, this.speed, this.loop, this.zero := recording, speed, loop, zero;
      i := 0;
    }

    /** How many rows there are to play, of `most`. */
    function Remaining(most: nat): nat
      reads this
    {
      if loop || i + most <= |recording.time| then most
      else if i >= |recording.time| then 0 else |recording.time| - i
    }

    /** Plays until it is stopped, here after as many turns as there are
        delays, or until a recording that does not loop ends. Every row goes
        out once, in order, without a gap, on the turns' times. */
    method Run(start: real, delays: seq<Delay>) returns (frames: seq<Frame>)
      requires Playable(recording) && recording.dataRate * speed != 0.0
      modifies this
      ensures i == old(i) + |frames| && |frames| == old(Remaining(|delays|))
      ensures forall k :: 0 <= k < |frames| ==>
        frames[k] == Frame(Turns(start, 1.0 / (recording.dataRate * speed), delays[..|frames|])[k].offered,
                           TimeAt(recording, zero, old(i) + k), RowAt(recording, old(i) + k))
    {
      hide TimeAt;
      var interval := 1.0 / (recording.dataRate * speed);
      var n := |recording.time|;
      var nextTick, clock := start, start;
      frames := [];
      ghost var turns: seq<Turn> := [];
      while |frames| < |delays|
        invariant |turns| == |frames| <= |delays| && i == old(i) + |frames|
        invariant loop || i <= n || frames == []
        invariant turns == Turns(start, interval, delays[..|frames|])
        invariant nextTick == if turns == [] then start else turns[|turns| - 1].due
        invariant clock == if turns == [] then start else turns[|turns| - 1].resumed
        invariant forall k :: 0 <= k < |frames| ==>
          frames[k] == Frame(turns[k].offered, TimeAt(recording, zero, old(i) + k), RowAt(recording, old(i) + k))
      {
        if !loop && i >= n {
          break;
        }
        var delay := delays[|frames|];
        assert delays[..|frames| + 1][..|frames|] == delays[..|frames|];
        turns := turns + [TurnAfter(clock, nextTick, interval, delay)];
        frames := frames + [Frame(clock, TimeAt(recording, zero, i), RowAt(recording, i))];
        i := i + 1;
        nextTick := nextTick + interval;
        var now := clock + delay.busy;
        if now > nextTick + interval {
          nextTick := now;
        }
        clock := now + Later(0.0, nextTick - now) + delay.late;
      }
    }
  }
}
