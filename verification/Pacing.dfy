/** Pacing, between commands and gaps: no frame before its time, and no burst
    after a delay.

    A `Beat` is one frame paced; `Follows` says what pacing keeps from one to
    the next. The rounds of the player's loop make a chain of beats. */
module Pacing {
  import opened Keys
  import opened Playback

  /** A frame's stamp, when the loop looked at it, when it went out, and the
      anchor it was paced by. */
  datatype Beat = Beat(at: real, now: real, shown: real, anchor: (real, real))

  function Interval(spacing: real, speed: Rate): real
  {
    spacing / speed
  }

  ghost predicate Follows(a: Beat, b: Beat, spacing: real, speed: Rate)
  {
    && b.at == a.at + spacing && b.now >= a.shown && b.shown >= b.now
    && b.shown >= DueAt(b.anchor, b.at, speed)
    && b.anchor == if b.now - DueAt(a.anchor, b.at, speed) > Interval(spacing, speed) then (b.at, b.now) else a.anchor
  }

  /** When a beat was due, by the anchor it went by. */
  function DueOf(b: Beat, speed: Rate): real
  {
    DueAt(b.anchor, b.at, speed)
  }

  /** Due times advance by a whole interval at least, and the loop is never
      left more than one behind. */
  lemma DueAdvances(a: Beat, b: Beat, spacing: real, speed: Rate)
    requires Follows(a, b, spacing, speed) && spacing > 0.0
    ensures DueOf(b, speed) >= DueOf(a, speed) + Interval(spacing, speed)
    ensures DueOf(b, speed) >= a.shown - Interval(spacing, speed)
    ensures b.shown >= DueOf(b, speed) && Interval(spacing, speed) > 0.0
  {
    assert (b.at - a.anchor.0) / speed == (a.at - a.anchor.0) / speed + spacing / speed;
    assert DueAt((b.at, b.now), b.at, speed) == b.now;
  }

  ghost predicate Chain(beats: seq<Beat>, spacing: real, speed: Rate)
  {
    forall k :: 0 < k < |beats| ==> Follows(beats[k - 1], beats[k], spacing, speed)
  }

  /** `m` intervals. */
  function Span(m: int, interval: real): real
  {
    m as real * interval
  }

  lemma SpanMore(m: int, interval: real)
    ensures Span(m + 1, interval) == Span(m, interval) + interval && Span(0, interval) == 0.0
  {
  }

  lemma {:induction false} DueSpans(beats: seq<Beat>, spacing: real, speed: Rate, i: nat, m: nat)
    requires Chain(beats, spacing, speed) && spacing > 0.0 && i + m < |beats|
    ensures DueOf(beats[i + m], speed) >= DueOf(beats[i], speed) + Span(m, Interval(spacing, speed))
    decreases m
  {
    SpanMore(m - 1, Interval(spacing, speed));
    if m > 0 {
      DueSpans(beats, spacing, speed, i, m - 1);
      DueAdvances(beats[i + m - 1], beats[i + m], spacing, speed);
    }
  }

  /** Any n + 1 consecutive frames take at least n - 2 intervals, however late
      the loop wakes or looks. */
  lemma ChainSpans(beats: seq<Beat>, spacing: real, speed: Rate, i: nat, n: nat)
    requires Chain(beats, spacing, speed) && spacing > 0.0 && n > 0 && i + n < |beats|
    ensures beats[i + n].shown - beats[i].shown >= Span(n - 2, Interval(spacing, speed))
  {
    hide DueOf, Span, Interval;
    DueAdvances(beats[i], beats[i + 1], spacing, speed);
    DueSpans(beats, spacing, speed, i + 1, n - 1);
    DueAdvances(beats[i + n - 1], beats[i + n], spacing, speed);
    SpanMore(n - 2, Interval(spacing, speed));
  }

  lemma DueMoves(anchor: (real, real), at: real, spacing: real, speed: Rate)
    ensures DueAt(anchor, at + spacing, speed) == DueAt(anchor, at, speed) + Interval(spacing, speed)
    ensures DueAt((at, anchor.1), at, speed) == anchor.1
  {
  }

  /** Whatever anchors come later, no frame goes out before the first one says. */
  lemma {:induction false} NeverEarly(beats: seq<Beat>, spacing: real, speed: Rate, k: nat)
    requires Chain(beats, spacing, speed) && spacing > 0.0 && k < |beats|
    ensures DueOf(beats[k], speed) >= DueAt(beats[0].anchor, beats[k].at, speed)
    ensures k > 0 ==> beats[k].shown >= DueAt(beats[0].anchor, beats[k].at, speed)
  {
    if k > 0 {
      var a, b := beats[k - 1], beats[k];
      NeverEarly(beats, spacing, speed, k - 1);
      DueMoves(beats[0].anchor, a.at, spacing, speed);
      DueAdvances(a, b, spacing, speed);
    }
  }

  // ---------------------------------------------------------------- the player's rounds

  /** A round of the loop: it looks at the clock, and if it waits, when it wakes. */
  datatype Round = Round(now: real, wake: real)

  /** One round: the next frame is read, held and shown. No command comes, and
      the stream goes on, so nothing is opened. */
  function AfterRound(p: Player, r: Round): Player
  {
    Next(Next(Next(p, BeginRead), Receive(Unavailable)), Pace(r.now, Some(r.wake)))
  }

  function AfterRounds(p: Player, rounds: seq<Round>): Player
  {
    if rounds == [] then p else AfterRound(AfterRounds(p, rounds[..|rounds| - 1]), rounds[|rounds| - 1])
  }

  /** Playing steadily: between frames, the clock running since the last one,
      with frames ahead that are evenly spaced, as they say themselves. */
  ghost predicate Steady(p: Player, spacing: real, ahead: nat)
  {
    && Turns(p) && p.track.held.None? && p.track.read.None? && p.anchor.Some?
    && p.interval == Some(spacing) && p.cursor.Some? && spacing > 0.0
    && p.track.shown != [] && |p.track.stream.value.left| >= ahead
    && forall k :: 0 <= k < ahead ==>
         p.track.stream.value.left[k].spacing == Some(spacing)
         && p.track.stream.value.left[k].at == p.cursor.value + Span(k + 1, spacing)
  }

  /** The clock does not turn back, and the wait is long enough. */
  ghost predicate Waits(p: Player, r: Round)
  {
    && p.track.shown != [] && r.now >= p.track.shown[|p.track.shown| - 1].when
    && AfterRound(p, r).track.held.None?
  }

  ghost predicate AllWait(p: Player, rounds: seq<Round>)
  {
    forall k :: 0 <= k < |rounds| ==> Waits(AfterRounds(p, rounds[..k]), rounds[k])
  }

  /** The last beat, as the player remembers it. */
  ghost predicate Remembers(p: Player, b: Beat)
  {
    && p.anchor == Some(b.anchor) && p.cursor == Some(b.at)
    && p.track.shown != [] && p.track.shown[|p.track.shown| - 1].when == b.shown
  }

  /** What a round does: one frame more, paced from the one before. */
  lemma RoundBeats(p: Player, r: Round, a: Beat, spacing: real, ahead: nat) returns (b: Beat)
    requires Steady(p, spacing, ahead) && ahead > 0 && Waits(p, r) && Remembers(p, a)
    ensures var q := AfterRound(p, r);
            && Follows(a, b, spacing, p.speed) && Remembers(q, b) && b.at == p.track.stream.value.left[0].at && Steady(q, spacing, ahead - 1) && q.speed == p.speed
            && q.track.shown == p.track.shown + [Shown(p.track.streams, p.track.stream.value.left[0], b.shown)]
            && q.track.streams == p.track.streams && q.track.stream.value.left == p.track.stream.value.left[1..]
  {
    SpanMore(0, spacing);
    var frame := p.track.stream.value.left[0];
    var held := Holding(p, frame);
    var q := AfterRound(p, r);
    assert q == Paced(held, r.now, Some(r.wake));
    b := Beat(frame.at, r.now, q.track.shown[|q.track.shown| - 1].when, q.anchor.value);
    StillAhead(p.cursor.value, frame.at, p.track.stream.value.left, spacing, ahead);
  }

  lemma StillAhead(cursor: real, at: real, left: seq<Frame>, spacing: real, ahead: nat)
    requires |left| >= ahead > 0 && at == cursor + spacing
    requires forall k :: 0 <= k < ahead ==> left[k].spacing == Some(spacing) && left[k].at == cursor + Span(k + 1, spacing)
    ensures forall k :: 0 <= k < ahead - 1 ==>
      left[1..][k].spacing == Some(spacing) && left[1..][k].at == at + Span(k + 1, spacing)
  {
    forall k | 0 <= k < ahead - 1 ensures left[1..][k].at == at + Span(k + 1, spacing) {
      SpanMore(k + 1, spacing);
      assert left[1..][k] == left[k + 1];
    }
  }

  /** With the frame read and held. */
  lemma Holding(p: Player, frame: Frame) returns (held: Player)
    requires Turns(p) && p.track.held.None? && p.track.read.None?
    requires p.track.stream.value.left != [] && frame == p.track.stream.value.left[0]
    ensures held == Next(Next(p, BeginRead), Receive(Unavailable))
    ensures held == p.(played := true,
                       track := p.track.(held := Some(frame), stream := Some(p.track.stream.value.(left := p.track.stream.value.left[1..]))))
  {
    held := Next(Next(p, BeginRead), Receive(Unavailable));
  }

  /** What `rounds` show: the next frames, in order, each at its beat. */
  ghost predicate Showed(p: Player, q: Player, beats: seq<Beat>)
    requires p.track.stream.Some? && q.track.stream.Some?
  {
    var n := |beats| - 1;
    && 0 <= n <= |p.track.stream.value.left|
    && q.track.streams == p.track.streams && q.track.stream.value.left == p.track.stream.value.left[n..]
    && (forall k :: 0 <= k < n ==> beats[k + 1].at == p.track.stream.value.left[k].at)
    && q.track.shown == p.track.shown
                        + seq(n, k requires 0 <= k < n => Shown(p.track.streams, p.track.stream.value.left[k], beats[k + 1].shown))
  }

  lemma NothingShown(p: Player, first: Beat)
    requires p.track.stream.Some?
    ensures Showed(p, p, [first])
  {
  }

  lemma ShowedOneMore(p: Player, q: Player, r: Player, beats: seq<Beat>, b: Beat)
    requires p.track.stream.Some? && q.track.stream.Some? && r.track.stream.Some?
    requires Showed(p, q, beats) && q.track.stream.value.left != [] && b.at == q.track.stream.value.left[0].at
    requires r.track.streams == q.track.streams && r.track.stream.value.left == q.track.stream.value.left[1..]
    requires r.track.shown == q.track.shown + [Shown(q.track.streams, q.track.stream.value.left[0], b.shown)]
    ensures Showed(p, r, beats + [b])
  {
  }

  /** Steady playing is a chain of beats, one for each frame shown. */
  lemma {:induction false} RoundsBeat(p: Player, rounds: seq<Round>, first: Beat, spacing: real, ahead: nat)
    returns (beats: seq<Beat>)
    requires Steady(p, spacing, ahead) && ahead >= |rounds| && AllWait(p, rounds) && Remembers(p, first)
    ensures |beats| == |rounds| + 1 && beats[0] == first && Chain(beats, spacing, p.speed)
    ensures var q := AfterRounds(p, rounds);
            && Steady(q, spacing, ahead - |rounds|) && Remembers(q, beats[|rounds|]) && q.speed == p.speed
            && Showed(p, q, beats)
  {
    hide Showed, AfterRound, Waits, Follows, Span;
    if rounds == [] {
      beats := [first];
      NothingShown(p, first);
    } else {
      var last := |rounds| - 1;
      assert forall k :: 0 <= k < last ==> rounds[..last][..k] == rounds[..k];
      assert Waits(AfterRounds(p, rounds[..last]), rounds[last]);
      beats := RoundsBeat(p, rounds[..last], first, spacing, ahead);
      var q := AfterRounds(p, rounds[..last]);
      var b := RoundBeats(q, rounds[last], beats[last], spacing, ahead - last);
      ShowedOneMore(p, q, AfterRound(q, rounds[last]), beats, b);
      beats := beats + [b];
    }
  }

  /** Playing at one speed, with nothing in the way: no frame is shown twice or
      skipped, none goes out before it is due, and any n + 1 of them in a row
      take at least n - 2 frame intervals. */
  lemma NoBurst(p: Player, rounds: seq<Round>, first: Beat, spacing: real, i: nat, n: nat)
    requires Steady(p, spacing, |rounds|) && AllWait(p, rounds) && Remembers(p, first)
    requires n > 0 && i + n < |rounds|
    ensures var shown, from := AfterRounds(p, rounds).track.shown, |p.track.shown|;
            && |shown| == from + |rounds| && shown[..from] == p.track.shown
            && (forall k :: 0 <= k < |rounds| ==>
                  var next := p.track.stream.value.left[k];
                  shown[from + k].frame == next && shown[from + k].when >= DueAt(first.anchor, next.at, p.speed))
            && shown[from + i + n].when - shown[from + i].when >= Span(n - 2, Interval(spacing, p.speed))
  {
    hide AfterRounds, AllWait, Chain, Span, Interval, Remembers;
    var beats := RoundsBeat(p, rounds, first, spacing, |rounds|);
    ChainSpans(beats, spacing, p.speed, i + 1, n);
    forall k | 0 < k <= |rounds| ensures beats[k].shown >= DueAt(first.anchor, beats[k].at, p.speed) {
      NeverEarly(beats, spacing, p.speed, k);
    }
  }
}
