/** Playing a recording: commands, a read in flight, a frame held back, and
    pacing in real time, all of one task.

    `Next` is one stretch of that task. What the source holds and when things
    happen are inputs. The history says what each stream had to show and what
    was shown of it; `PlayedInOrder` says the second is a prefix of the first. */
module Playback {
  import opened Keys

  /** A record as the source yields it; `spacing` is what its header says is
      between two. */
  datatype Record = Record(at: Option<real>, spacing: Option<real>, id: nat)

  datatype Frame = Frame(at: real, spacing: Option<real>, id: nat)

  /** What the source yields for a range, and whether it then fails. */
  datatype Tape = Tape(records: seq<Record>, breaks: bool)

  /** What a source says when it is opened. */
  datatype Opening = Unavailable | HoldsNothing | Covers(start: real, end: real, tape: Tape)

  // ---------------------------------------------------------------- the guard

  /** What is let through: records with a stamp, up to the first at or past the end. */
  function Guarded(records: seq<Record>, end: real): (r: seq<Frame>)
    ensures forall k :: 0 <= k < |r| ==> r[k].at < end
  {
    if records == [] then []
    else if records[0].at.None? then Guarded(records[1..], end)
    else if records[0].at.value >= end then []
    else [Frame(records[0].at.value, records[0].spacing, records[0].id)] + Guarded(records[1..], end)
  }

  /** Whether reading comes to the end of the range before the source's own. */
  predicate ReachesEnd(records: seq<Record>, end: real)
  {
    records != [] && ((records[0].at.Some? && records[0].at.value >= end) || ReachesEnd(records[1..], end))
  }

  /** Every stamped record before the end, in order. */
  function Within(records: seq<Record>, end: real): (r: seq<Frame>)
  {
    if records == [] then []
    else if records[0].at.None? || records[0].at.value >= end then Within(records[1..], end)
    else [Frame(records[0].at.value, records[0].spacing, records[0].id)] + Within(records[1..], end)
  }

  /** A stamped record before the end comes after one at or past it. */
  predicate TurnsBack(records: seq<Record>, end: real)
  {
    records != [] &&
    if records[0].at.Some? && records[0].at.value >= end then Within(records[1..], end) != []
    else TurnsBack(records[1..], end)
  }

  /** The guard lets the whole range through, exactly when the source does not
      go back into it after leaving it: so from any source in time order. */
  lemma {:induction false} GuardedIsTheRange(records: seq<Record>, end: real)
    ensures Guarded(records, end) == Within(records, end) <==> !TurnsBack(records, end)
    ensures (forall i, j :: 0 <= i < j < |records| && records[i].at.Some? && records[j].at.Some? ==>
               records[i].at.value <= records[j].at.value) ==> !TurnsBack(records, end)
  {
    if records != [] {
      var rest := records[1..];
      GuardedIsTheRange(rest, end);
      assert forall i :: 0 <= i < |rest| ==> rest[i] == records[i + 1];
      if records[0].at.Some? && records[0].at.value >= end {
        NoneBefore(rest, end);
      } else if records[0].at.Some? {
        var head := Frame(records[0].at.value, records[0].spacing, records[0].id);
        assert Guarded(records, end)[1..] == Guarded(rest, end);
        assert Within(records, end)[1..] == Within(rest, end);
      }
    }
  }

  lemma {:induction false} NoneBefore(records: seq<Record>, end: real)
    ensures (forall i :: 0 <= i < |records| && records[i].at.Some? ==> records[i].at.value >= end) ==> Within(records, end) == []
  {
    if records != [] {
      NoneBefore(records[1..], end);
      assert forall i :: 0 <= i < |records| - 1 ==> records[1..][i] == records[i + 1];
    }
  }

  // ---------------------------------------------------------------- the player

  /** A speed: always positive. */
  type Rate = r: real | r > 0.0 witness 1.0

  datatype Command = Play | Pause | Step(n: int) | Seek(at: real, until: Option<real>, play: bool) | Speed(speed: Rate)

  /** A stream being read: what it has yet to yield, and whether it then fails. */
  datatype Stream = Stream(left: seq<Frame>, breaks: bool)

  datatype Got = Got(frame: Frame) | End | Broke

  /** One frame published: on which stream, and when. */
  datatype Shown = Shown(stream: nat, frame: Frame, when: real)

  /** The stream being read, and all that was shown. */
  datatype Track = Track(
    stream: Option<Stream>,
    read: Option<Got>,               // the read in flight
    held: Option<Frame>,             // a frame read, not yet due
    ended: bool,
    failed: bool,
    streams: nat,
    shown: seq<Shown>,               // history: every frame published
    streamed: seq<seq<Frame>>)       // history: what each stream was to show

  datatype Player = Player(
    track: Track,
    running: bool,
    loop: bool,
    gap: real,                       // a jump longer than this is a gap
    speed: Rate,
    paused: bool,
    cursor: Option<real>,
    coverage: Option<(real, real)>,
    rangeEnd: Option<real>,
    anchor: Option<(real, real)>,    // a frame's stamp, and when it was due
    interval: Option<real>,
    played: bool)

  datatype Event =
    | Start(loop: bool, opening: Opening, now: real)
    | Stop
    | Apply(command: Command, opening: Opening, now: real)
    | BeginRead
    | Receive(opening: Opening)
    | Pace(now: real, wake: Option<real>)

  function Max(a: real, b: real): real
  {
    if a < b then b else a
  }

  // ---------------------------------------------------------------- the stream

  function Closed(t: Track): Track
  {
    t.(stream := None, read := None, held := None)
  }

  /** The stream being read is given up, and another takes its place. */
  function Streaming(t: Track, frames: seq<Frame>, breaks: bool): Track
  {
    Track(Some(Stream(frames, breaks)), None, None, false, false, t.streams + 1, t.shown, t.streamed + [frames])
  }

  /** Or none does, for a failure. */
  function NotStreaming(t: Track): Track
  {
    Track(None, None, None, true, true, t.streams + 1, t.shown, t.streamed + [[]])
  }

  /** A read is under way: its result is the stream's next. */
  function Reading(t: Track): (r: Track)
    requires t.stream.Some?
    ensures r.read.Some? && r.stream.Some? && r.held == t.held
  {
    var s := t.stream.value;
    if t.read.Some? then t
    else if s.left == [] then t.(read := Some(if s.breaks then Broke else End))
    else t.(read := Some(Got(s.left[0])), stream := Some(Stream(s.left[1..], s.breaks)))
  }

  function Showing(t: Track, frame: Frame, when: real): Track
  {
    t.(shown := t.shown + [Shown(t.streams, frame, when)])
  }

  // ---------------------------------------------------------------- the player's parts

  function Fail(p: Player): Player
  {
    p.(track := p.track.(failed := true, ended := true), paused := true)
  }

  /** The stream is given up, and the next one counted. */
  function Reset(p: Player): Player
  {
    var t := p.track;
    p.(track := Track(None, None, None, false, false, t.streams + 1, t.shown, t.streamed),
       anchor := None, played := false, rangeEnd := None)
  }

  /** Nothing can be read. */
  function OpenNothing(p: Player): Player
  {
    Fail(p.(track := p.track.(streamed := p.track.streamed + [[]])))
  }

  /** A range is read. */
  function OpenRange(p: Player, tape: Tape, to: real): Player
  {
    var frames := Guarded(tape.records, to);
    p.(track := p.track.(stream := Some(Stream(frames, tape.breaks && !ReachesEnd(tape.records, to))),
                         streamed := p.track.streamed + [frames]))
  }

  /** The source holds something: from where, and how far, it is read. */
  function Cover(p: Player, start: Option<real>, end: Option<real>, o: Opening): Player
    requires o.Covers?
  {
    var from := if start.None? then o.start else Max(start.value, o.start);
    var to := if end.None? then o.end else end.value;
    var q := p.(coverage := Some((o.start, o.end)), cursor := Some(from),
                rangeEnd := if end.Some? && end.value < o.end then end else p.rangeEnd);
    if to < from then OpenNothing(q) else OpenRange(q, o.tape, to)
  }

  /** A new stream: the source opened from `start`, up to `end`. */
  function Open(p: Player, start: Option<real>, end: Option<real>, o: Opening): Player
  {
    match o
    case Unavailable => OpenNothing(Reset(p))
    case HoldsNothing => OpenNothing(Reset(p).(coverage := None))
    case Covers(_, _, _) => Cover(Reset(p), start, end, o)
  }

  /** The finished read's frame, if it has one; at the end the recording starts
      over or ends, and a failure ends it too. */
  function Fetch(p: Player, o: Opening): (r: (Player, Option<Frame>))
    requires p.track.stream.Some?
  {
    var t := Reading(p.track);
    match t.read.value
    case Broke => (Fail(p.(track := Closed(t))), None)
    case Got(frame) => (p.(track := t.(read := None), played := true), Some(frame))
    case End =>
      if p.loop && p.rangeEnd.None? && p.played then (Open(p.(track := t), None, None, o), None)
      else (p.(track := Closed(t).(ended := true), paused := true), None)
  }

  /** The held frame, or the next. */
  function Take(p: Player, o: Opening): (r: (Player, Option<Frame>))
  {
    if p.track.held.Some? then (p.(track := p.track.(held := None)), p.track.held)
    else if p.track.stream.None? then (p, None)
    else Fetch(p, o)
  }

  function Emit(p: Player, frame: Frame, when: real): Player
  {
    p.(interval := if frame.spacing.Some? then frame.spacing else p.interval,
       cursor := Some(frame.at),
       track := Showing(p.track, frame, when))
  }

  /** Up to `n` frames at once, fewer at the end. */
  function Forward(p: Player, n: nat, o: Opening, now: real): Player
    decreases n
  {
    if n == 0 then p
    else
      var (q, frame) := Take(p, o);
      if frame.None? then q else Forward(Emit(q, frame.value, now), n - 1, o, now)
  }

  predicate Refuses(p: Player, c: Command)
  {
    || !p.running
    || ((c.Seek? || (c.Step? && c.n < 0)) && p.coverage.None?)
    || (c.Seek? && (c.at >= p.coverage.value.1 || (c.until.Some? && c.until.value <= p.coverage.value.0)))
  }

  function StepBy(p: Player, n: int, o: Opening, now: real): Player
    requires n < 0 ==> p.coverage.Some?
  {
    if n >= 0 then Forward(p, n, o, now)
    else if p.cursor.None? || p.interval.None? then p
    else
      var back := p.cursor.value - p.interval.value * (-n) as real;
      Forward(Open(p, Some(Max(back, p.coverage.value.0)), None, o), 1, o, now)
  }

  function ShowIfPaused(p: Player, o: Opening, now: real): Player
  {
    if p.paused && p.track.stream.Some? then Forward(p, 1, o, now) else p
  }

  function Applied(p: Player, c: Command, o: Opening, now: real): Player
    requires !Refuses(p, c)
  {
    match c
    case Play =>
      (if p.track.stream.None? then Open(p, if p.track.failed then p.cursor else None, None, o) else p).(paused := false)
    case Pause => p.(paused := true)
    case Speed(speed) => p.(speed := speed)
    case Step(n) => StepBy(p, n, o, now)
    case Seek(at, until, play) =>
      var q := Open(p, Some(at), until, o);
      ShowIfPaused(q.(paused := q.paused && !play), o, now)
  }

  // ---------------------------------------------------------------- pacing

  /** A frame lies so far past the cursor that it is a gap. */
  predicate Gap(p: Player, frame: Frame)
  {
    p.cursor.Some? && frame.at - p.cursor.value > Max(p.gap, if p.interval.Some? then 2.0 * p.interval.value else 0.0)
  }

  /** When the frame is due, as the anchor has it. */
  function DueAt(anchor: (real, real), at: real, speed: Rate): real
  {
    anchor.1 + (at - anchor.0) / speed
  }

  /** The anchor the frame is paced by: itself, now, after a change or a gap,
      or when it is more than a frame late, so that time is dropped. */
  function Anchored(p: Player, frame: Frame, now: real): (real, real)
  {
    if p.anchor.None? || Gap(p, frame) then (frame.at, now)
    else if p.interval.Some? && now - DueAt(p.anchor.value, frame.at, p.speed) > p.interval.value / p.speed then (frame.at, now)
    else p.anchor.value
  }

  // ---------------------------------------------------------------- the player's task

  /** The loop goes round: it reads, or shows the held frame. */
  predicate Turns(p: Player)
  {
    p.running && !p.paused && p.track.stream.Some?
  }

  /** The held frame goes out when it is due, unless a command comes first. */
  function Paced(p: Player, now: real, wake: Option<real>): Player
    requires p.track.held.Some?
  {
    var frame := p.track.held.value;
    var q := p.(anchor := Some(Anchored(p, frame, now)));
    var due := DueAt(q.anchor.value, frame.at, p.speed);
    if due <= now then Emit(q.(track := q.track.(held := None)), frame, now)
    else if wake.Some? && wake.value >= due then Emit(q.(track := q.track.(held := None)), frame, wake.value)
    else q
  }

  /** The player before it opens its source; its speed and its count of streams
      carry over. */
  function Blank(p: Player, loop: bool): Player
  {
    p.(track := Closed(p.track), loop := loop, coverage := None, rangeEnd := None,
       anchor := None, interval := None, played := false)
  }

  /** Opened at its start, paused, the frame there shown. */
  function Started(p: Player, loop: bool, o: Opening, now: real): Player
  {
    ShowIfPaused(Open(Blank(p, loop), None, None, o).(paused := true), o, now).(running := true)
  }

  function Next(p: Player, e: Event): Player
  {
    match e
    case Start(loop, o, now) => if p.running then p else Started(p, loop, o, now)
    case Stop => p.(track := Closed(p.track), running := false)
    case Apply(c, o, now) => if Refuses(p, c) then p else Applied(p, c, o, now).(anchor := None)
    case BeginRead => if Turns(p) && p.track.held.None? then p.(track := Reading(p.track)) else p
    case Receive(o) =>
      if Turns(p) && p.track.held.None? && p.track.read.Some? then
        var (q, frame) := Fetch(p, o);
        q.(track := q.track.(held := frame))
      else p
    case Pace(now, wake) => if Turns(p) && p.track.held.Some? then Paced(p, now, wake) else p
  }

  function Initial(gap: real): Player
  {
    Player(Track(None, None, None, false, false, 0, [], []), false, false, gap, 1.0, true, None, None, None, None, None, false)
  }

  function After(gap: real, events: seq<Event>): Player
  {
    if events == [] then Initial(gap) else Next(After(gap, events[..|events| - 1]), events[|events| - 1])
  }
}
