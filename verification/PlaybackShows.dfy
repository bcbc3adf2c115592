/** What a player shows, and no less: the frames a start, a step or a seek shows
    at once, and when pacing lets one go. */
module PlaybackShows {
  import opened Keys
  import opened Playback
  import opened PlaybackProofs

  /** What the stream being read has yet to show: all of what it had that was
      not shown. */
  function Remaining(t: Track): seq<Frame>
  {
    if t.stream.None? || t.streams > |t.streamed| || t.streams == 0 || |Of(t.shown, t.streams)| > |t.streamed[t.streams - 1]| then []
    else t.streamed[t.streams - 1][|Of(t.shown, t.streams)|..]
  }

  /** The first `n` of these frames, or all there are, on one stream at one time. */
  function AtOnce(stream: nat, frames: seq<Frame>, n: nat, now: real): seq<Shown>
  {
    if n == 0 || frames == [] then [] else [Shown(stream, frames[0], now)] + AtOnce(stream, frames[1..], n - 1, now)
  }

  function Left(t: Track): seq<Frame>
  {
    if t.stream.None? then [] else Rest(t)
  }

  lemma RemainingIsLeft(t: Track)
    requires Sound(t, None)
    ensures Remaining(t) == Left(t)
  {
    hide Of, Kept, Rest;
    if t.stream.Some? {
      assert Whole(t) == Done(t) + [] + Rest(t) && Done(t) + [] == Done(t);
    }
  }

  // ---------------------------------------------------------------- forward

  /** The read in flight is of the stream, and nothing is held meanwhile. */
  predicate InOrder(t: Track)
  {
    t.stream.Some? ==>
      && (t.read.Some? ==> t.held.None?)
      && (t.read.Some? && !t.read.value.Got? ==> t.stream.value.left == [])
  }

  lemma SoundInOrder(t: Track)
    requires Sound(t, None)
    ensures InOrder(t) && (t.stream.None? ==> t.held.None?)
  {
    hide Of, Kept;
  }

  lemma ReadingTakesNext(t: Track)
    requires InOrder(t) && t.stream.Some? && t.held.None?
    ensures var v := Reading(t);
            && v.shown == t.shown && v.streams == t.streams && v.stream.Some? && v.held.None? && v.read.Some?
            && (if Left(t) == [] then !v.read.value.Got?
                else v.read == Some(Got(Left(t)[0])) && v.stream.value.left == Left(t)[1..])
  {
  }

  lemma FetchTakesNext(p: Player, o: Opening)
    requires InOrder(p.track) && p.track.stream.Some? && p.track.held.None?
    ensures var (q, frame) := Fetch(p, o);
            && q.track.shown == p.track.shown
            && (if Left(p.track) == [] then frame == None
                else frame == Some(Left(p.track)[0]) && InOrder(q.track) && Left(q.track) == Left(p.track)[1..]
                     && q.track.streams == p.track.streams && q.track.stream.Some?)
  {
    ReadingTakesNext(p.track);
    FetchIs(p, o);
    var t := Reading(p.track);
    if t.read.value.Got? { NothingRead(t.(read := None)); }
    hide Fetch, Reading, InOrder, Left;
  }

  lemma FetchIs(p: Player, o: Opening)
    requires p.track.stream.Some?
    ensures var t := Reading(p.track);
            if t.read.value.Got? then Fetch(p, o) == (p.(track := t.(read := None), played := true), Some(t.read.value.frame))
            else Fetch(p, o).1 == None && Fetch(p, o).0.track.shown == t.shown
  {
    OpenShowsNothing(p.(track := Reading(p.track)), None, None, o);
    hide Open, Reading;
  }

  lemma NothingRead(t: Track)
    requires t.stream.Some? && t.held.None? && t.read.None?
    ensures InOrder(t) && Left(t) == t.stream.value.left
  {
    assert [] + [] + t.stream.value.left == t.stream.value.left;
  }

  lemma OpenShowsNothing(p: Player, start: Option<real>, end: Option<real>, o: Opening)
    ensures Open(p, start, end, o).track.shown == p.track.shown
  {
    hide Guarded, ReachesEnd;
  }

  lemma TakeTakesNext(p: Player, o: Opening)
    requires InOrder(p.track) && (p.track.stream.None? ==> p.track.held.None?)
    ensures var (q, frame) := Take(p, o);
            && q.track.shown == p.track.shown
            && (if Left(p.track) == [] then frame == None
                else frame == Some(Left(p.track)[0]) && InOrder(q.track) && Left(q.track) == Left(p.track)[1..]
                     && q.track.streams == p.track.streams && q.track.stream.Some?)
  {
    if p.track.held.None? && p.track.stream.Some? {
      FetchTakesNext(p, o);
      hide Fetch;
    }
  }

  lemma {:induction false} ForwardShows(p: Player, n: nat, o: Opening, now: real)
    requires InOrder(p.track) && (p.track.stream.None? ==> p.track.held.None?)
    ensures Forward(p, n, o, now).track.shown == p.track.shown + AtOnce(p.track.streams, Left(p.track), n, now)
    decreases n
  {
    var left := Left(p.track);
    if n == 0 {
      assert AtOnce(p.track.streams, left, n, now) == [];
    } else {
      TakeTakesNext(p, o);
      var (q, frame) := Take(p, o);
      hide Take, Left, InOrder, Emit;
      if frame.Some? {
        var r := Emit(q, frame.value, now);
        EmitKeepsLeft(q, frame.value, now);
        ForwardShows(r, n - 1, o, now);
        hide Forward;
        OneThenRest(p.track.shown, p.track.streams, left, n, now);
      } else {
        NothingAtOnce(p.track.streams, n, now);
      }
    }
  }

  lemma OneThenRest(shown: seq<Shown>, stream: nat, frames: seq<Frame>, n: nat, now: real)
    requires n > 0 && frames != []
    ensures shown + [Shown(stream, frames[0], now)] + AtOnce(stream, frames[1..], n - 1, now) == shown + AtOnce(stream, frames, n, now)
  {
  }

  lemma EmitKeepsLeft(p: Player, frame: Frame, now: real)
    requires InOrder(p.track) && p.track.stream.Some?
    ensures var q := Emit(p, frame, now);
            && InOrder(q.track) && q.track.stream.Some? && Left(q.track) == Left(p.track) && q.track.streams == p.track.streams
            && q.track.shown == p.track.shown + [Shown(p.track.streams, frame, now)]
  {
  }

  /** A stream just opened has all of what it was given to show. */
  lemma OpenHas(p: Player, start: Option<real>, end: Option<real>, o: Opening)
    ensures var q := Open(p, start, end, o);
            && q.track.stream.Some? == !Fails(start, end, o) && Left(q.track) == Given(start, end, o)
            && InOrder(q.track) && q.track.held.None?
            && q.track.streams == p.track.streams + 1 && q.track.shown == p.track.shown
            && q.paused == (p.paused || Fails(start, end, o))
  {
    hide Guarded, ReachesEnd;
    if !Fails(start, end, o) {
      assert [] + [] + Given(start, end, o) == Given(start, end, o);
    }
  }

  lemma OpenedShows(p: Player, start: Option<real>, end: Option<real>, o: Opening, n: nat, now: real, paused: bool)
    ensures Forward(Open(p, start, end, o).(paused := paused), n, o, now).track.shown ==
            p.track.shown + AtOnce(p.track.streams + 1, Given(start, end, o), n, now)
  {
    OpenHas(p, start, end, o);
    hide Open, Left, InOrder, Fails, Given;
    var q := Open(p, start, end, o).(paused := paused);
    ForwardShows(q, n, o, now);
  }

  lemma NothingAtOnce(stream: nat, n: nat, now: real)
    ensures AtOnce(stream, [], n, now) == []
  {
  }

  // ---------------------------------------------------------------- the theorems

  /** How many frames a command shows at once, and which: a step forward as many
      as it says, of what the stream has yet to show; a step back, and a seek that
      leaves the player paused, the first of the stream it opens; and nothing else
      shows any. */
  function Shows(p: Player, c: Command, o: Opening, now: real): seq<Shown>
  {
    match c
    case Step(n) =>
      if n >= 0 then AtOnce(p.track.streams, Remaining(p.track), n, now)
      else if p.cursor.None? || p.interval.None? || p.coverage.None? then []
      else
        var back := p.cursor.value - p.interval.value * (-n) as real;
        AtOnce(p.track.streams + 1, Given(Some(if back < p.coverage.value.0 then p.coverage.value.0 else back), None, o), 1, now)
    case Seek(at, until, play) =>
      if p.paused && !play then AtOnce(p.track.streams + 1, Given(Some(at), until, o), 1, now) else []
    case _ => []
  }

  lemma CommandsShow(gap: real, events: seq<Event>, c: Command, o: Opening, now: real)
    requires !Refuses(After(gap, events), c)
    ensures var p := After(gap, events);
            Next(p, Apply(c, o, now)).track.shown == p.track.shown + Shows(p, c, o, now)
  {
    AfterSound(gap, events);
    AppliedShows(After(gap, events), c, o, now);
    hide After, Applied, Shows;
  }

  lemma AppliedShows(p: Player, c: Command, o: Opening, now: real)
    requires Sound(p.track, None) && !Refuses(p, c)
    ensures Applied(p, c, o, now).track.shown == p.track.shown + Shows(p, c, o, now)
  {
    RemainingIsLeft(p.track);
    SoundInOrder(p.track);
    hide Sound, Remaining, Left;
    match c
    case Step(n) => StepShows(p, n, o, now);
    case Seek(at, until, play) => SeekShows(p, at, until, play, o, now);
    case Play =>
      OpenShowsNothing(p, if p.track.failed then p.cursor else None, None, o);
      hide Open;
    case _ =>
  }

  lemma StepShows(p: Player, n: int, o: Opening, now: real)
    requires InOrder(p.track) && (p.track.stream.None? ==> p.track.held.None?)
    requires Remaining(p.track) == Left(p.track) && (n < 0 ==> p.coverage.Some?)
    ensures StepBy(p, n, o, now).track.shown == p.track.shown + Shows(p, Step(n), o, now)
  {
    hide Remaining, Left, Open, Forward, Given, InOrder;
    if n >= 0 {
      ForwardShows(p, n, o, now);
    } else if p.cursor.Some? && p.interval.Some? {
      var back := p.cursor.value - p.interval.value * (-n) as real;
      var target := Max(back, p.coverage.value.0);
      var q := Open(p, Some(target), None, o);
      assert q.(paused := q.paused) == q;
      OpenedShows(p, Some(target), None, o, 1, now, q.paused);
    }
  }

  lemma SeekShows(p: Player, at: real, until: Option<real>, play: bool, o: Opening, now: real)
    requires !Refuses(p, Seek(at, until, play))
    ensures Applied(p, Seek(at, until, play), o, now).track.shown == p.track.shown + Shows(p, Seek(at, until, play), o, now)
  {
    OpenHas(p, Some(at), until, o);
    GivenNothing(Some(at), until, o);
    hide Open, Forward, Given, Fails, Refuses, Left;
    var q := Open(p, Some(at), until, o);
    var paused := q.paused && !play;
    OpenedShows(p, Some(at), until, o, 1, now, paused);
    NothingAtOnce(p.track.streams + 1, 1, now);
    hide AtOnce;
  }

  lemma GivenNothing(start: Option<real>, end: Option<real>, o: Opening)
    ensures Fails(start, end, o) ==> Given(start, end, o) == []
  {
  }

  /** A start shows the first frame of the recording, if it has one, and waits;
      no other event shows anything, but pacing. */
  lemma StartShows(gap: real, events: seq<Event>, loop: bool, o: Opening, now: real)
    requires !After(gap, events).running
    ensures var p := After(gap, events);
            var q := Next(p, Start(loop, o, now));
            && q.running && q.paused && q.loop == loop
            && q.track.shown == p.track.shown + AtOnce(p.track.streams + 1, Given(None, None, o), 1, now)
  {
    StartedShows(After(gap, events), loop, o, now);
    hide After, Started, Given, Fails, AtOnce;
  }

  lemma StartedShows(p: Player, loop: bool, o: Opening, now: real)
    ensures var q := Started(p, loop, o, now);
            && q.running && q.paused && q.loop == loop
            && q.track.shown == p.track.shown + AtOnce(p.track.streams + 1, Given(None, None, o), 1, now)
  {
    var blank := Blank(p, loop);
    assert blank.track.shown == p.track.shown && blank.track.streams == p.track.streams && blank.loop == loop;
    OpenHas(blank, None, None, o);
    OpenKeepsLoop(blank, None, None, o);
    hide Blank, Open, Forward, Given, Fails, Left, InOrder;
    var q := Open(blank, None, None, o).(paused := true);
    OpenedShows(blank, None, None, o, 1, now, true);
    ForwardStaysPaused(q, 1, o, now);
    GivenNothing(None, None, o);
    NothingAtOnce(p.track.streams + 1, 1, now);
    hide AtOnce;
  }

  lemma OpenKeepsLoop(p: Player, start: Option<real>, end: Option<real>, o: Opening)
    ensures Open(p, start, end, o).loop == p.loop
  {
    hide Guarded, ReachesEnd;
  }

  lemma {:induction false} ForwardStaysPaused(p: Player, n: nat, o: Opening, now: real)
    requires p.paused
    ensures Forward(p, n, o, now).paused && Forward(p, n, o, now).loop == p.loop
    decreases n
  {
    if n > 0 {
      TakeStaysPaused(p, o);
      var (q, frame) := Take(p, o);
      hide Take;
      if frame.Some? { ForwardStaysPaused(Emit(q, frame.value, now), n - 1, o, now); }
    }
  }

  lemma TakeStaysPaused(p: Player, o: Opening)
    requires p.paused
    ensures Take(p, o).0.paused && Take(p, o).0.loop == p.loop
  {
    if p.track.held.None? && p.track.stream.Some? {
      OpenKeepsLoop(p.(track := Reading(p.track)), None, None, o);
      OpenHas(p.(track := Reading(p.track)), None, None, o);
    }
    hide Open;
  }

  /** A start puts the player where its first frame is, or else where the source
      was opened, and knows nothing of how far apart frames are but what that frame
      says; a stop gives up the stream and what was read of it, and refuses
      everything until the next start. */
  lemma StartsAfresh(p: Player, loop: bool, o: Opening, now: real)
    requires !p.running
    ensures var q, given := Next(p, Start(loop, o, now)), Given(None, None, o);
            && q.anchor == None && q.rangeEnd == None
            && q.coverage == (if o.Covers? then Some((o.start, o.end)) else None)
            && q.interval == (if given == [] then None else given[0].spacing)
            && q.cursor == (if given != [] then Some(given[0].at) else if o.Covers? then Some(o.start) else p.cursor)
  {
    var q := Open(Blank(p, loop), None, None, o).(paused := true);
    OpensExactly(Blank(p, loop), None, None, o);
    OpenHas(Blank(p, loop), None, None, o);
    assert Blank(p, loop).cursor == p.cursor && Blank(p, loop).interval == None;
    FirstShown(q, o, now);
    GivenNothing(None, None, o);
    GivenEnd(o);
    hide Open, Blank, Forward, Given, Left, InOrder, Fails;
  }

  lemma GivenEnd(o: Opening)
    ensures Fails(None, None, o) ==> !o.Covers? || o.end < o.start
  {
  }

  /** The one frame a stream just opened shows. */
  lemma FirstShown(q: Player, o: Opening, now: real)
    requires InOrder(q.track) && q.track.held.None? && !q.played && q.anchor == None
    ensures var r := Forward(q, 1, o, now);
            var left := Left(q.track);
            && r.anchor == None && r.coverage == q.coverage && r.rangeEnd == q.rangeEnd
            && r.interval == (if left == [] || left[0].spacing == None then q.interval else left[0].spacing)
            && r.cursor == (if left == [] then q.cursor else Some(left[0].at))
  {
    TakeTakesNext(q, o);
    TakeKeepsPlace(q, o);
    var (p, frame) := Take(q, o);
    hide Take, Left, InOrder;
    if frame.Some? { assert Forward(Emit(p, frame.value, now), 0, o, now) == Emit(p, frame.value, now); }
  }

  predicate SamePlace(p: Player, q: Player)
  {
    p.anchor == q.anchor && p.coverage == q.coverage && p.rangeEnd == q.rangeEnd && p.interval == q.interval && p.cursor == q.cursor
  }

  lemma TakeKeepsPlace(q: Player, o: Opening)
    requires !q.played
    ensures SamePlace(Take(q, o).0, q)
  {
    if q.track.held.None? && q.track.stream.Some? { FetchKeepsPlace(q, o); }
    hide Fetch;
  }

  lemma FetchKeepsPlace(q: Player, o: Opening)
    requires !q.played && q.track.stream.Some?
    ensures SamePlace(Fetch(q, o).0, q)
  {
    hide Open, Reading, Closed;
  }

  /** A player that is paused, stopped or without a stream stands still. */
  lemma StandsStillWhenPaused(p: Player, o: Opening, now: real, wake: Option<real>)
    requires p.paused || !p.running || p.track.stream == None
    ensures Next(p, BeginRead) == p && Next(p, Receive(o)) == p && Next(p, Pace(now, wake)) == p
  {
  }

  lemma StopsExactly(p: Player, c: Command, o: Opening, now: real)
    ensures var q := Next(p, Stop);
            && q == p.(running := false, track := p.track.(stream := None, read := None, held := None))
            && Next(q, Apply(c, o, now)) == q
  {
  }

  // ---------------------------------------------------------------- what commands do besides

  /** Opening the source: from what was asked, or its own start, whichever is
      later, up to what was asked or its end; a range that ends before the source
      does is remembered, and so is what the source says it covers. */
  lemma OpensExactly(p: Player, start: Option<real>, end: Option<real>, o: Opening)
    ensures var q := Open(p, start, end, o);
            && q.track.streams == p.track.streams + 1 && q.anchor == None && !q.played && q.loop == p.loop && q.speed == p.speed
            && q.interval == p.interval
            && (if o.Covers? then
                  && q.coverage == Some((o.start, o.end))
                  && q.cursor == Some(if start.Some? && start.value > o.start then start.value else o.start)
                  && q.rangeEnd == (if end.Some? && end.value < o.end then end else None)
                else
                  && q.coverage == (if o == HoldsNothing then None else p.coverage)
                  && q.cursor == p.cursor && q.rangeEnd == None)
            && (q.track.failed <==> q.track.stream.None?) && (q.track.ended <==> q.track.stream.None?)
            && (q.track.stream.None? <==>
                  !o.Covers? || (if end.Some? then end.value else o.end) < q.cursor.value)
  {
    if o.Covers? { CoversExactly(Reset(p), start, end, o); }
    hide Cover, Guarded, ReachesEnd;
  }

  lemma CoversExactly(p: Player, start: Option<real>, end: Option<real>, o: Opening)
    requires o.Covers? && p.rangeEnd.None? && p.track.stream.None? && !p.track.failed && !p.track.ended
    ensures var q := Cover(p, start, end, o);
            && q.track.streams == p.track.streams && q.anchor == p.anchor && q.played == p.played
            && q.loop == p.loop && q.speed == p.speed && q.interval == p.interval
            && q.coverage == Some((o.start, o.end))
            && q.cursor == Some(if start.Some? && start.value > o.start then start.value else o.start)
            && q.rangeEnd == (if end.Some? && end.value < o.end then end else None)
            && (q.track.failed <==> q.track.stream.None?) && (q.track.ended <==> q.track.stream.None?)
            && (q.track.stream.None? <==> (if end.Some? then end.value else o.end) < q.cursor.value)
  {
    hide Guarded, ReachesEnd;
  }

  /** When the stream being read is over: a recording that loops, was not opened
      for a part that ends before it does, and showed anything, starts over; any
      other is over, and paused. One that broke has failed besides. */
  lemma EndsExactly(p: Player, o: Opening)
    requires p.track.stream.Some? && p.track.stream.value.left == [] && p.track.held.None? && p.track.read.None?
    ensures var q := Fetch(p, o).0;
            if p.track.stream.value.breaks then
              q.track.stream.None? && q.track.ended && q.track.failed && q.paused && q.track.streams == p.track.streams
            else if p.loop && p.rangeEnd == None && p.played then
              q == Open(p.(track := p.track.(read := Some(End))), None, None, o)
            else
              q.track.stream.None? && q.track.ended && q.track.failed == p.track.failed && q.paused && q.track.streams == p.track.streams
  {
    hide Open;
  }

  /** Exactly when a command is refused. */
  lemma RefusedExactly(p: Player, c: Command, o: Opening, now: real)
    ensures Refuses(p, c) <==>
            || !p.running
            || (p.coverage.None? && (c.Seek? || (c.Step? && c.n < 0)))
            || (c.Seek? && p.coverage.Some? && c.at >= p.coverage.value.1)
            || (c.Seek? && p.coverage.Some? && c.until.Some? && c.until.value <= p.coverage.value.0)
    ensures Refuses(p, c) ==> Next(p, Apply(c, o, now)) == p
    ensures !Refuses(p, c) ==> Next(p, Apply(c, o, now)).anchor == None
    ensures !Refuses(p, c) && c == Pause ==> Next(p, Apply(c, o, now)) == p.(paused := true, anchor := None)
    ensures !Refuses(p, c) && c.Speed? ==> Next(p, Apply(c, o, now)) == p.(speed := c.speed, anchor := None)
    ensures !Refuses(p, c) && c == Play ==>
              var q := Next(p, Apply(c, o, now));
              !q.paused && (p.track.stream.Some? ==> q == p.(paused := false, anchor := None))
  {
    hide Open, Forward;
  }

  // ---------------------------------------------------------------- pacing

  /** Pacing starts over with this frame: after a change, after a gap, or when the
      frame is later than the time to the next. */
  predicate AnchorsAnew(p: Player, frame: Frame, now: real)
  {
    || p.anchor.None?
    || (p.cursor.Some? && frame.at - p.cursor.value > p.gap
        && frame.at - p.cursor.value > if p.interval.Some? then 2.0 * p.interval.value else 0.0)
    || (p.interval.Some? && now - ByAnchor(p, frame) > p.interval.value / p.speed)
  }

  /** As long after the anchor as the recording says, at the player's speed. */
  function ByAnchor(p: Player, frame: Frame): real
    requires p.anchor.Some?
  {
    p.anchor.value.1 + (frame.at - p.anchor.value.0) / p.speed
  }

  /** The held frame goes out now if it is due, or when the wait for it is over;
      a command that comes first leaves it held. It is then where the player is,
      and its header says how far apart frames are. */
  lemma PacedExactly(p: Player, now: real, wake: Option<real>)
    requires Turns(p) && p.track.held.Some?
    ensures var frame := p.track.held.value;
            var anew := AnchorsAnew(p, frame, now);
            var due := if anew then now else ByAnchor(p, frame);
            var q := Next(p, Pace(now, wake));
            var at := if due <= now then Some(now) else if wake.Some? && wake.value >= due then wake else None;
            && q.anchor == (if anew then Some((frame.at, now)) else p.anchor)
            && (if at.None? then
                  q.track == p.track && q.cursor == p.cursor && q.interval == p.interval
                else
                  && q.track == p.track.(held := None, shown := p.track.shown + [Shown(p.track.streams, frame, at.value)])
                  && q.cursor == Some(frame.at) && q.interval == (if frame.spacing.Some? then frame.spacing else p.interval))
  {
    var frame := p.track.held.value;
    AnchoredIs(p, frame, now);
    DueAtAnchor(frame.at, now, p.speed);
    assert !AnchorsAnew(p, frame, now) ==> DueAt(p.anchor.value, frame.at, p.speed) == ByAnchor(p, frame);
    hide Anchored, DueAt, AnchorsAnew, ByAnchor;
  }

  lemma AnchoredIs(p: Player, frame: Frame, now: real)
    ensures Anchored(p, frame, now) == if AnchorsAnew(p, frame, now) then (frame.at, now) else p.anchor.value
  {
  }

  lemma DueAtAnchor(at: real, now: real, speed: Rate)
    ensures DueAt((at, now), at, speed) == now
  {
  }
}
