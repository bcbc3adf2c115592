/** A playable source, as an object: its stream, its commands and its loop,
    each method proved against `Playback`. */
module Playables {
  import opened Keys
  import opened Playback

  /** One pass over one range of a source, guarded. */
  class SourceStream {
    const tape: Tape
    const end: real
    var position: nat

    ghost function Left(): seq<Frame>
      reads this
      requires position <= |tape.records|
    {
      Guarded(tape.records[position..], end)
    }

    ghost function Value(): Stream
      reads this
      requires position <= |tape.records|
    {
      Stream(Left(), tape.breaks && !ReachesEnd(tape.records[position..], end))
    }

    constructor (tape: Tape, end: real)
      ensures this.tape == tape && this.end == end && position == 0
      ensures Value() == Stream(Guarded(tape.records, end), tape.breaks && !ReachesEnd(tape.records, end))
    {
      this.tape, this.end, position := tape, end, 0;
      new;
      assert tape.records[0..] == tape.records;
    }

    /** The next record that may be shown: one without a stamp is passed over,
        and none at or past the end is let through. */
    method Anext() returns (got: Got)
      requires position <= |tape.records|
      modifies this
      ensures position <= |tape.records|
      ensures old(Left()) != [] ==> got == Got(old(Left()[0])) && Value() == Stream(old(Left()[1..]), old(Value().breaks))
      ensures old(Left()) == [] ==> got == (if old(Value().breaks) then Broke else End) && Value() == old(Value())
    {
      while position < |tape.records|
        invariant position <= |tape.records| && Value() == old(Value())
      {
        var record := tape.records[position];
        assert tape.records[position..][1..] == tape.records[position + 1..];
        if record.at.Some? {
          if record.at.value >= end {
            return End;
          }
          position := position + 1;
          return Got(Frame(record.at.value, record.spacing, record.id));
        }
        position := position + 1;
      }
      got := if tape.breaks then Broke else End;
    }
  }

  class Playable {
    const gap: real
    var running: bool
    var loop: bool
    var speed: Rate
    var paused: bool
    var ended: bool
    var failed: bool
    var cursor: Option<real>
    var streams: nat
    var coverage: Option<(real, real)>
    var rangeEnd: Option<real>
    var stream: SourceStream?
    var read: Option<Got>
    var held: Option<Frame>
    var anchor: Option<(real, real)>
    var interval: Option<real>
    var played: bool
    ghost var shown: seq<Shown>
    ghost var streamed: seq<seq<Frame>>

    ghost predicate Valid()
      reads this, stream
    {
      stream != null ==> stream.position <= |stream.tape.records|
    }

    ghost function TrackNow(): Track
      reads this, stream
      requires Valid()
    {
      Track(if stream == null then None else Some(stream.Value()), read, held, ended, failed, streams, shown, streamed)
    }

    ghost function State(): Player
      reads this, stream
      requires Valid()
    {
      Player(TrackNow(), running, loop, gap, speed, paused, cursor, coverage, rangeEnd, anchor, interval, played)
    }

    constructor (gap: real)
      ensures Valid() && State() == Initial(gap)
    {
      this.gap := gap;
      running, loop, speed, paused, ended, failed := false, false, 1.0, true, false, false;
      cursor, streams, coverage, rangeEnd, stream := None, 0, None, None, null;
      read, held, anchor, interval, played := None, None, None, None, false;
      shown, streamed := [], [];
    }

    method Close()
      requires Valid()
      modifies this
      ensures Valid() && stream == null && State() == old(State()).(track := Closed(old(TrackNow())))
    {
      read := None;
      stream := null;
      held := None;
    }

    /** The stream stops: an error is reported, and the status says so. */
    method Failed()
      requires Valid()
      modifies this
      ensures Valid() && stream == old(stream) && State() == Playback.Fail(old(State()))
    {
      failed := true;
      ended, paused := true, true;
    }

    /** The stream is given up, and the next one counted. */
    method Reset()
      requires Valid()
      modifies this
      ensures Valid() && stream == null && State() == Playback.Reset(old(State()))
    {
      Close();
      streams := streams + 1;
      failed, ended := false, false;
      anchor, played, rangeEnd := None, false, None;
    }

    method OpenNothing()
      requires Valid()
      modifies this
      ensures Valid() && stream == old(stream) && State() == Playback.OpenNothing(old(State()))
    {
      hide SourceStream.Value;
      streamed := streamed + [[]];
      Failed();
    }

    method OpenRange(tape: Tape, to: real)
      requires Valid()
      modifies this
      ensures Valid() && fresh(stream) && State() == Playback.OpenRange(old(State()), tape, to)
    {
      hide Guarded, ReachesEnd;
      stream := new SourceStream(tape, to);
      streamed := streamed + [Guarded(tape.records, to)];
    }

    /** The source says what it holds: the stream is of that, from `start` up to
        `end`. */
    method Cover(start: Option<real>, end: Option<real>, o: Opening)
      requires Valid() && o.Covers? && stream == null
      modifies this
      ensures Valid() && (stream != null ==> fresh(stream)) && State() == Playback.Cover(old(State()), start, end, o)
    {
      hide Playback.OpenNothing, Playback.OpenRange, SourceStream.Value;
      coverage := Some((o.start, o.end));
      var from := if start.None? then o.start else Max(start.value, o.start);
      if end.Some? && end.value < o.end {
        rangeEnd := end;
      }
      cursor := Some(from);
      var to := if end.None? then o.end else end.value;
      if to < from {
        OpenNothing();
      } else {
        OpenRange(o.tape, to);
      }
    }

    /** Opens the source at `start` (its own, by default), up to `end`. */
    method Open(start: Option<real>, end: Option<real>, o: Opening)
      requires Valid()
      modifies this
      ensures Valid() && (stream != null ==> fresh(stream)) && State() == Playback.Open(old(State()), start, end, o)
    {
      Reset();
      hide Playback.OpenNothing, Playback.Cover, Playback.Reset, SourceStream.Value;
      if o.Covers? {
        Cover(start, end, o);
      } else {
        if o.HoldsNothing? {
          coverage := None;
        }
        OpenNothing();
      }
    }

    /** The read in flight, started if there is none. */
    method Read()
      requires Valid() && stream != null
      modifies this, stream
      ensures Valid() && stream == old(stream)
      ensures State() == old(State()).(track := Reading(old(TrackNow()))) && read.Some?
    {
      if read.None? {
        var got := stream.Anext();
        read := Some(got);
      }
    }

    /** The stream is over: it starts again, or ends. */
    method AtEnd(o: Opening)
      requires Valid()
      modifies this
      ensures Valid() && (stream != null ==> fresh(stream))
      ensures State() == if old(loop && rangeEnd.None? && played) then Playback.Open(old(State()), None, None, o)
                         else old(State()).(track := Closed(old(TrackNow())).(ended := true), paused := true)
    {
      hide Playback.Open, SourceStream.Value;
      if loop && rangeEnd.None? && played {
        Open(None, None, o);
      } else {
        Close();
        ended, paused := true, true;
      }
    }

    method Broken()
      requires Valid()
      modifies this
      ensures Valid() && stream == null
      ensures State() == Playback.Fail(old(State()).(track := Closed(old(TrackNow()))))
    {
      hide SourceStream.Value;
      Close();
      Failed();
    }

    /** The finished read's frame, or none. */
    method Fetch(o: Opening) returns (frame: Option<Frame>)
      requires Valid() && stream != null
      modifies this, stream
      ensures Valid() && (stream != null && stream != old(stream) ==> fresh(stream))
      ensures State() == Playback.Fetch(old(State()), o).0 && frame == Playback.Fetch(old(State()), o).1
    {
      ghost var before := State();
      hide Reading, Playback.Open, Playback.Fail, SourceStream.Value, Closed;
      Read();
      assert State() == before.(track := Reading(before.track));
      frame := None;
      if read.value.Broke? {
        Broken();
      } else if read.value.End? {
        AtEnd(o);
      } else {
        frame := Some(read.value.frame);
        read := None;
        played := true;
      }
    }

    method Take(o: Opening) returns (frame: Option<Frame>)
      requires Valid()
      modifies this, stream
      ensures Valid() && (stream != null && stream != old(stream) ==> fresh(stream))
      ensures State() == Playback.Take(old(State()), o).0 && frame == Playback.Take(old(State()), o).1
    {
      if held.Some? {
        frame := held;
        held := None;
        return;
      }
      if stream == null {
        return None;
      }
      frame := Fetch(o);
    }

    method Emit(frame: Frame, when: real)
      requires Valid()
      modifies this
      ensures Valid() && stream == old(stream)
      ensures State() == Playback.Emit(old(State()), frame, when)
    {
      if frame.spacing.Some? {
        interval := frame.spacing;
      }
      cursor := Some(frame.at);
      shown := shown + [Shown(streams, frame, when)];
    }

    /** Frames at once, until there are no more. */
    method Forward(n: nat, o: Opening, now: real)
      requires Valid()
      modifies this, stream
      ensures Valid() && (stream != null && stream != old(stream) ==> fresh(stream))
      ensures State() == Playback.Forward(old(State()), n, o, now)
    {
      hide Playback.Take, Playback.Emit, SourceStream.Value;
      var k := 0;
      while k < n
        invariant k <= n && Valid() && (stream != null && stream != old(stream) ==> fresh(stream))
        invariant Playback.Forward(State(), n - k, o, now) == Playback.Forward(old(State()), n, o, now)
      {
        var frame := Take(o);
        if frame.None? {
          return;
        }
        Emit(frame.value, now);
        k := k + 1;
      }
    }

    method Step(n: int, o: Opening, now: real)
      requires Valid() && (n < 0 ==> coverage.Some?)
      modifies this, stream
      ensures Valid() && (stream != null && stream != old(stream) ==> fresh(stream))
      ensures State() == StepBy(old(State()), n, o, now)
    {
      hide Playback.Open, Playback.Forward, SourceStream.Value;
      if n < 0 {
        if cursor.None? || interval.None? {
          return;
        }
        var target := Max(cursor.value - interval.value * (-n) as real, coverage.value.0);
        Open(Some(target), None, o);
        Forward(1, o, now);
      } else {
        Forward(n, o, now);
      }
    }

    method ShowIfPaused(o: Opening, now: real)
      requires Valid()
      modifies this, stream
      ensures Valid() && (stream != null && stream != old(stream) ==> fresh(stream))
      ensures State() == Playback.ShowIfPaused(old(State()), o, now)
    {
      if paused && stream != null {
        Forward(1, o, now);
      }
    }

    method Do(c: Command, o: Opening, now: real)
      requires Valid() && !Refuses(State(), c)
      modifies this, stream
      ensures Valid() && State() == Applied(old(State()), c, o, now)
    {
      match c
      case Play =>
        if stream == null {
          Open(if failed then cursor else None, None, o);
        }
        paused := false;
      case Pause => paused := true;
      case Speed(s) => speed := s;
      case Step(n) => Step(n, o, now);
      case Seek(at, until, play) => this.Seek(at, until, play, o, now);
    }

    method Seek(at: real, until: Option<real>, play: bool, o: Opening, now: real)
      requires Valid() && !Refuses(State(), Command.Seek(at, until, play))
      modifies this, stream
      ensures Valid() && State() == Applied(old(State()), Command.Seek(at, until, play), o, now)
    {
      hide Playback.Open, Playback.Forward, Refuses;
      Open(Some(at), until, o);
      paused := paused && !play;
      ShowIfPaused(o, now);
    }

    /** Applies a command, unless it does not apply now; pacing starts over. */
    method Apply(c: Command, o: Opening, now: real) returns (refused: bool)
      requires Valid()
      modifies this, stream
      ensures Valid() && refused == Refuses(old(State()), c)
      ensures State() == Next(old(State()), Event.Apply(c, o, now))
    {
      hide Next, Applied, Refuses, SourceStream.Value;
      ApplyIs(State(), c, o, now);
      refused := Refusal(c);
      if !refused {
        Do(c, o, now);
        anchor := None;
      }
    }

    static lemma ApplyIs(p: Player, c: Command, o: Opening, now: real)
      ensures Next(p, Event.Apply(c, o, now)) == if Refuses(p, c) then p else Applied(p, c, o, now).(anchor := None)
    {
    }

    method Refusal(c: Command) returns (refused: bool)
      requires Valid()
      ensures refused == Refuses(State(), c)
    {
      if !running {
        return true;
      }
      var needsCoverage := c.Seek? || (c.Step? && c.n < 0);
      if needsCoverage && coverage.None? {
        return true;
      }
      if c.Seek? {
        if c.at >= coverage.value.1 || (c.until.Some? && c.until.value <= coverage.value.0) {
          return true;
        }
      }
      refused := false;
    }

    method Start(loop: bool, o: Opening, now: real)
      requires Valid() && !running
      modifies this, stream
      ensures Valid() && State() == Next(old(State()), Event.Start(loop, o, now))
    {
      hide Next, Playback.Open, Playback.ShowIfPaused, SourceStream.Value, Blank;
      StartIs(State(), loop, o, now);
      Clear(loop);
      OpenPaused(o, now);
      running := true;
    }

    method OpenPaused(o: Opening, now: real)
      requires Valid() && stream == null
      modifies this
      ensures Valid()
      ensures State() == Playback.ShowIfPaused(Playback.Open(old(State()), None, None, o).(paused := true), o, now)
    {
      hide Playback.Open, Playback.ShowIfPaused, SourceStream.Value;
      Open(None, None, o);
      paused := true;
      ShowIfPaused(o, now);
    }

    static lemma StartIs(p: Player, loop: bool, o: Opening, now: real)
      requires !p.running
      ensures Next(p, Event.Start(loop, o, now))
           == Playback.ShowIfPaused(Playback.Open(Blank(p, loop), None, None, o).(paused := true), o, now).(running := true)
    {
    }

    method Clear(loop: bool)
      requires Valid()
      modifies this
      ensures Valid() && stream == null
      ensures State() == Blank(old(State()), loop)
    {
      Close();
      hide SourceStream.Value, Closed;
      this.loop := loop;
      coverage, rangeEnd := None, None;
      anchor, interval, played := None, None, false;
    }

    method Stop()
      requires Valid()
      modifies this
      ensures Valid() && State() == Next(old(State()), Event.Stop)
    {
      running := false;
      Close();
    }

    /** The loop's read is done. */
    method Receive(o: Opening)
      requires Valid() && Turns(State()) && held.None? && read.Some?
      modifies this, stream
      ensures Valid() && State() == Next(old(State()), Event.Receive(o))
    {
      var frame := Fetch(o);
      held := frame;
    }

    /** How far past the cursor a frame lies is a gap. */
    predicate IsGap(frame: Frame)
      reads this
    {
      && cursor.Some?
      && var jump := frame.at - cursor.value;
         var threshold := Max(gap, if interval.Some? then 2.0 * interval.value else 0.0);
         jump > threshold
    }

    /** How long until the frame is due. */
    method Due(frame: Frame, now: real) returns (delay: real)
      requires Valid()
      modifies this`anchor
      ensures Valid() && State() == old(State()).(anchor := Some(Anchored(old(State()), frame, now)))
      ensures delay > 0.0 <==> DueAt(anchor.value, frame.at, speed) > now
      ensures delay > 0.0 ==> delay == DueAt(anchor.value, frame.at, speed) - now
    {
      if anchor.None? || IsGap(frame) {
        anchor := Some((frame.at, now));
        return 0.0;
      }
      delay := anchor.value.1 + (frame.at - anchor.value.0) / speed - now;
      if interval.Some? && -delay > interval.value / speed {
        anchor := Some((frame.at, now));
        return 0.0;
      }
    }

    /** The held frame goes out when it is due; `wake` is when the wait timed
        out, and none when a command ended it. */
    method Pace(now: real, wake: Option<real>)
      requires Valid() && Turns(State()) && held.Some?
      modifies this
      ensures Valid() && State() == Next(old(State()), Event.Pace(now, wake))
    {
      var frame := held.value;
      var delay := Due(frame, now);
      if delay > 0.0 {
        if wake.None? || wake.value < now + delay {
          return;
        }
        Emit(frame, wake.value);
      } else {
        Emit(frame, now);
      }
      held := None;
    }
  }
}
