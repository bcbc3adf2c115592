/** What a player shows of each stream: from its start, in order, nothing twice. */
module PlaybackProofs {
  import opened Keys
  import opened Playback

  /** What was shown of one stream. */
  function Of(shown: seq<Shown>, s: nat): (r: seq<Frame>)
  {
    if shown == [] then [] else
      Of(shown[..|shown| - 1], s) + if shown[|shown| - 1].stream == s then [shown[|shown| - 1].frame] else []
  }

  lemma OfOneMore(shown: seq<Shown>, one: Shown, s: nat)
    ensures Of(shown + [one], s) == Of(shown, s) + if one.stream == s then [one.frame] else []
  {
    assert (shown + [one])[..|shown|] == shown;
  }

  function AsSeq(frame: Option<Frame>): seq<Frame>
  {
    if frame.Some? then [frame.value] else []
  }

  /** What the stream has yet to show: what was read of it, then what is left. */
  function Rest(t: Track): seq<Frame>
    requires t.stream.Some?
  {
    AsSeq(t.held) + (if t.read.Some? && t.read.value.Got? then [t.read.value.frame] else []) + t.stream.value.left
  }

  /** Each stream has shown a prefix of what it had, one stream after another. */
  ghost predicate Kept(shown: seq<Shown>, streamed: seq<seq<Frame>>)
  {
    && (forall i :: 0 <= i < |shown| ==> 0 < shown[i].stream <= |streamed|)
    && (forall i, j :: 0 <= i < j < |shown| ==> shown[i].stream <= shown[j].stream)
    && (forall s :: 0 < s <= |streamed| ==> Of(shown, s) <= streamed[s - 1])
  }

  /** The stream being played has yet to show exactly what it has not shown,
      starting with a frame that left the player's hands and is on its way out. */
  ghost predicate Current(t: Track, done: seq<Frame>, whole: seq<Frame>, out: Option<Frame>)
  {
    if t.stream.Some? then
      && whole == done + AsSeq(out) + Rest(t)
      && (t.read.Some? ==> t.held.None?)
      && (t.read.Some? && !t.read.value.Got? ==> t.stream.value.left == [])
      && !t.ended
    else
      && done + AsSeq(out) <= whole && t.held.None? && t.read.None?
      && (t.ended && !t.failed ==> done + AsSeq(out) == whole)
  }

  /** What the current stream has shown, and what it had. */
  function Done(t: Track): seq<Frame>
  {
    Of(t.shown, t.streams)
  }

  function Whole(t: Track): seq<Frame>
  {
    if t.streamed == [] then [] else t.streamed[|t.streamed| - 1]
  }

  ghost predicate Sound(t: Track, out: Option<Frame>)
  {
    |t.streamed| == t.streams && Kept(t.shown, t.streamed) && Current(t, Done(t), Whole(t), out)
  }

  // ---------------------------------------------------------------- what each part keeps

  /** Giving up a stream: what it showed is still a prefix. */
  lemma ClosedSound(t: Track, ended: bool, failed: bool)
    requires Sound(t, None)
    requires ended && !failed ==> if t.stream.Some? then Rest(t) == [] else t.ended && !t.failed
    ensures Sound(Closed(t).(ended := ended, failed := failed), None)
  {
    hide Kept, Of;
  }

  lemma {:induction false} NothingOfANewStream(shown: seq<Shown>, s: nat)
    requires forall i :: 0 <= i < |shown| ==> shown[i].stream < s
    ensures Of(shown, s) == []
  {
    if shown != [] {
      NothingOfANewStream(shown[..|shown| - 1], s);
    }
  }

  lemma KeptOneMoreStream(shown: seq<Shown>, streamed: seq<seq<Frame>>, frames: seq<Frame>)
    requires Kept(shown, streamed)
    ensures Kept(shown, streamed + [frames]) && Of(shown, |streamed| + 1) == []
  {
    NothingOfANewStream(shown, |streamed| + 1);
    hide Of;
  }

  /** A new stream has shown nothing yet; the one before keeps what it showed. */
  lemma StreamingSound(t: Track, frames: seq<Frame>, breaks: bool)
    requires Sound(t, None)
    ensures Sound(Streaming(t, frames, breaks), None) && Sound(NotStreaming(t), None)
  {
    KeptOneMoreStream(t.shown, t.streamed, frames);
    KeptOneMoreStream(t.shown, t.streamed, []);
    hide Kept, Of;
  }

  lemma ReadingSound(t: Track)
    requires Sound(t, None) && t.stream.Some? && t.held.None?
    ensures Sound(Reading(t), None) && Reading(t).stream.Some? && Reading(t).held.None? && Reading(t).read.Some?
  {
    hide Kept, Of;
    assert Rest(Reading(t)) == Rest(t);
  }

  /** The frame read is on its way out; or there is none, and nothing is left. */
  lemma ReadSound(t: Track)
    requires Sound(t, None) && t.stream.Some? && t.held.None? && t.read.Some?
    ensures t.read.value.Got? ==> Sound(t.(read := None), Some(t.read.value.frame))
    ensures !t.read.value.Got? ==> Rest(t) == []
  {
    hide Kept, Of;
  }

  /** A held frame is on its way out, or one on its way out is held. */
  lemma HeldSound(t: Track, out: Option<Frame>)
    requires t.held.None? && t.read.None? && t.stream.Some?
    ensures Sound(t.(held := out), None) <==> Sound(t, out)
  {
    hide Kept, Of;
  }

  lemma ShownInOrder(shown: seq<Shown>, last: nat, one: Shown)
    requires forall i :: 0 <= i < |shown| ==> 0 < shown[i].stream <= last
    requires forall i, j :: 0 <= i < j < |shown| ==> shown[i].stream <= shown[j].stream
    requires one.stream == last > 0
    ensures forall i :: 0 <= i <= |shown| ==> 0 < (shown + [one])[i].stream <= last
    ensures forall i, j :: 0 <= i < j <= |shown| ==> (shown + [one])[i].stream <= (shown + [one])[j].stream
  {
  }

  lemma KeptOneMoreShown(shown: seq<Shown>, streamed: seq<seq<Frame>>, frame: Frame, when: real)
    requires Kept(shown, streamed) && streamed != []
    requires Of(shown, |streamed|) + [frame] <= streamed[|streamed| - 1]
    ensures var one := Shown(|streamed|, frame, when);
            Kept(shown + [one], streamed) && Of(shown + [one], |streamed|) == Of(shown, |streamed|) + [frame]
  {
    hide Of;
    var one := Shown(|streamed|, frame, when);
    ShownInOrder(shown, |streamed|, one);
    OfOneMore(shown, one, |streamed|);
    forall s | 0 < s <= |streamed| ensures Of(shown + [one], s) <= streamed[s - 1] {
      OfOneMore(shown, one, s);
      assert Of(shown, s) <= streamed[s - 1];
    }
  }

  lemma CurrentShown(t: Track, v: Track, done: seq<Frame>, whole: seq<Frame>, frame: Frame)
    requires Current(t, done, whole, Some(frame))
    requires v == t.(shown := v.shown)
    ensures Current(v, done + [frame], whole, None) && done + [frame] <= whole
  {
    if t.stream.Some? {
      assert Rest(v) == Rest(t);
      hide Rest;
      assert done + [frame] + Rest(t) == whole;
    }
  }

  lemma ShowingSound(t: Track, frame: Frame, when: real)
    requires Sound(t, Some(frame))
    ensures Sound(Showing(t, frame, when), None)
  {
    hide Kept, Of, Current;
    var v := Showing(t, frame, when);
    CurrentShown(t, v, Done(t), Whole(t), frame);
    KeptOneMoreShown(t.shown, t.streamed, frame, when);
    assert Done(v) == Done(t) + [frame];
  }

  // ---------------------------------------------------------------- what the player keeps

  lemma OpenTrack(p: Player, start: Option<real>, end: Option<real>, o: Opening) returns (frames: seq<Frame>, breaks: bool)
    ensures Open(p, start, end, o).track == Streaming(p.track, frames, breaks)
            || Open(p, start, end, o).track == NotStreaming(p.track)
  {
    hide Guarded, ReachesEnd;
    frames, breaks := [], false;
    if o.Covers? {
      var to := if end.None? then o.end else end.value;
      frames, breaks := Guarded(o.tape.records, to), o.tape.breaks && !ReachesEnd(o.tape.records, to);
    }
  }

  lemma OpenSound(p: Player, start: Option<real>, end: Option<real>, o: Opening)
    requires Sound(p.track, None)
    ensures Sound(Open(p, start, end, o).track, None) && Open(p, start, end, o).track.held.None?
  {
    hide Sound, Open;
    var frames, breaks := OpenTrack(p, start, end, o);
    StreamingSound(p.track, frames, breaks);
  }

  lemma FetchSound(p: Player, o: Opening)
    requires Sound(p.track, None) && p.track.stream.Some? && p.track.held.None?
    ensures var (v, out) := Fetch(p, o);
            && Sound(v.track, out) && v.track.held.None?
            && (out.Some? ==> v.track.read.None? && v.track.stream.Some?)
  {
    hide Sound, Open, Reading, Rest;
    var t := Reading(p.track);
    ReadingSound(p.track);
    ReadSound(t);
    if t.read.value.Broke? {
      ClosedSound(t, true, true);
    } else if t.read.value.End? {
      OpenSound(p.(track := t), None, None, o);
      ClosedSound(t, true, t.failed);
    }
  }

  lemma TakeSound(p: Player, o: Opening)
    requires Sound(p.track, None)
    ensures Sound(Take(p, o).0.track, Take(p, o).1)
  {
    if p.track.held.Some? {
      Holding(p.track);
      HeldSound(p.track.(held := None), p.track.held);
    } else if p.track.stream.Some? {
      FetchSound(p, o);
    }
  }

  lemma Holding(t: Track)
    requires Sound(t, None) && t.held.Some?
    ensures t.stream.Some? && t.read.None?
  {
    hide Kept, Of;
  }

  lemma {:induction false} ForwardSound(p: Player, n: nat, o: Opening, now: real)
    requires Sound(p.track, None)
    ensures Sound(Forward(p, n, o, now).track, None)
    decreases n
  {
    hide Sound, Take, Showing;
    if n > 0 {
      TakeSound(p, o);
      var (q, frame) := Take(p, o);
      if frame.Some? {
        ShowingSound(q.track, frame.value, now);
        ForwardSound(Emit(q, frame.value, now), n - 1, o, now);
      }
    }
  }

  lemma AppliedSound(p: Player, c: Command, o: Opening, now: real)
    requires Sound(p.track, None) && !Refuses(p, c)
    ensures Sound(Applied(p, c, o, now).track, None)
  {
    hide Sound, Open, Forward;
    match c
    case Play => OpenSound(p, if p.track.failed then p.cursor else None, None, o);
    case Step(n) =>
      if n >= 0 {
        ForwardSound(p, n, o, now);
      } else if p.cursor.Some? && p.interval.Some? {
        var target := Max(p.cursor.value - p.interval.value * (-n) as real, p.coverage.value.0);
        OpenSound(p, Some(target), None, o);
        ForwardSound(Open(p, Some(target), None, o), 1, o, now);
      }
    case Seek(at, until, play) =>
      OpenSound(p, Some(at), until, o);
      var q := Open(p, Some(at), until, o);
      ForwardSound(q.(paused := q.paused && !play), 1, o, now);
    case _ =>
  }

  lemma StartedSound(p: Player, loop: bool, o: Opening, now: real)
    requires Sound(p.track, None)
    ensures Sound(Started(p, loop, o, now).track, None)
  {
    StillEnded(p.track);
    ClosedSound(p.track, p.track.ended, p.track.failed);
    hide Sound, Open, Forward;
    var blank := Blank(p, loop);
    OpenSound(blank, None, None, o);
    ForwardSound(Open(blank, None, None, o).(paused := true), 1, o, now);
  }

  lemma StillEnded(t: Track)
    requires Sound(t, None)
    ensures t.ended ==> t.stream.None?
  {
    hide Kept, Of;
  }

  lemma PacedSound(p: Player, now: real, wake: Option<real>)
    requires Sound(p.track, None) && p.track.held.Some?
    ensures Sound(Paced(p, now, wake).track, None)
  {
    hide Sound, Showing, Anchored, DueAt;
    var frame, out := p.track.held.value, p.track.(held := None);
    Holding(p.track);
    HeldSound(out, p.track.held);
    ShowingSound(out, frame, now);
    if wake.Some? {
      ShowingSound(out, frame, wake.value);
    }
  }

  lemma ReceivedSound(p: Player, o: Opening)
    requires Sound(p.track, None) && p.track.stream.Some? && p.track.held.None?
    ensures var (v, out) := Fetch(p, o); Sound(v.track.(held := out), None)
  {
    hide Sound, Fetch;
    FetchSound(p, o);
    var (v, out) := Fetch(p, o);
    if out.Some? {
      HeldSound(v.track, out);
    }
  }

  lemma NextSound(p: Player, e: Event)
    requires Sound(p.track, None)
    ensures Sound(Next(p, e).track, None)
  {
    hide Sound, Fetch, Reading, Applied, Paced, Started, Rest;
    match e
    case Start(loop, o, now) => StartedSound(p, loop, o, now);
    case Stop => StillEnded(p.track); ClosedSound(p.track, p.track.ended, p.track.failed);
    case Apply(c, o, now) => if !Refuses(p, c) { AppliedSound(p, c, o, now); }
    case BeginRead => if Turns(p) && p.track.held.None? { ReadingSound(p.track); }
    case Receive(o) =>
      if Turns(p) && p.track.held.None? && p.track.read.Some? { ReceivedSound(p, o); }
    case Pace(now, wake) => if Turns(p) && p.track.held.Some? { PacedSound(p, now, wake); }
  }

  lemma {:induction false} AfterSound(gap: real, events: seq<Event>)
    ensures Sound(After(gap, events).track, None)
  {
    if events != [] {
      hide Next, Sound;
      AfterSound(gap, events[..|events| - 1]);
      NextSound(After(gap, events[..|events| - 1]), events[|events| - 1]);
    }
  }

  // ---------------------------------------------------------------- where each stream comes from

  /** Opening finds nothing to play. */
  predicate Fails(start: Option<real>, end: Option<real>, o: Opening)
  {
    o.Covers? ==> (if end.None? then o.end else end.value) < (if start.None? then o.start else Max(start.value, o.start))
  }

  /** What a stream opened so has to show. */
  function Given(start: Option<real>, end: Option<real>, o: Opening): seq<Frame>
  {
    if Fails(start, end, o) then [] else Guarded(o.tape.records, if end.None? then o.end else end.value)
  }

  /** From where an event opens the source, if it does: where a seek or a step
      back goes, where a failed stream was, and otherwise its start. */
  function OpensFrom(p: Player, e: Event): Option<real>
  {
    if e.Apply? && e.command.Seek? then Some(e.command.at)
    else if e.Apply? && e.command.Play? && p.track.failed then p.cursor
    else if e.Apply? && e.command.Step? && e.command.n < 0 && p.cursor.Some? && p.interval.Some? && p.coverage.Some? then
      Some(Max(p.cursor.value - p.interval.value * (-e.command.n) as real, p.coverage.value.0))
    else None
  }

  /** Up to where: a seek may say. */
  function OpensUntil(e: Event): Option<real>
  {
    if e.Apply? && e.command.Seek? then e.command.until else None
  }

  function OpeningOf(e: Event): Opening
  {
    match e
    case Start(_, o, _) => o
    case Apply(_, o, _) => o
    case Receive(o) => o
    case _ => Unavailable
  }

  function Opened(p: Player, e: Event): seq<Frame>
  {
    Given(OpensFrom(p, e), OpensUntil(e), OpeningOf(e))
  }

  lemma CoverGives(p: Player, start: Option<real>, end: Option<real>, o: Opening)
    requires o.Covers?
    ensures Cover(p, start, end, o).track.streamed == p.track.streamed + [Given(start, end, o)]
    ensures Cover(p, start, end, o).played == p.played
  {
    hide Guarded, ReachesEnd;
  }

  lemma OpenGives(p: Player, start: Option<real>, end: Option<real>, o: Opening)
    ensures Open(p, start, end, o).track.streamed == p.track.streamed + [Given(start, end, o)]
    ensures !Open(p, start, end, o).played
  {
    if o.Covers? { CoverGives(Reset(p), start, end, o); }
    hide Guarded, Cover;
  }

  lemma TakeGives(p: Player, o: Opening)
    ensures var (q, frame) := Take(p, o);
            && (q.track.streamed == p.track.streamed || (p.played && frame.None? && q.track.streamed == p.track.streamed + [Given(None, None, o)]))
  {
    hide Open, Reading, Given;
    if p.track.held.None? && p.track.stream.Some? {
      ReadingGives(p.track);
      OpenGives(p.(track := Reading(p.track)), None, None, o);
    }
  }

  lemma ReadingGives(t: Track)
    requires t.stream.Some?
    ensures Reading(t).streamed == t.streamed
  {
  }

  /** Going forward opens the source at most once: to start over. */
  lemma {:induction false} ForwardGives(p: Player, n: nat, o: Opening, now: real)
    ensures var q := Forward(p, n, o, now);
            q.track.streamed == p.track.streamed || q.track.streamed == p.track.streamed + [Given(None, None, o)]
    ensures n == 1 && !p.played ==> Forward(p, n, o, now).track.streamed == p.track.streamed
    decreases n
  {
    if n > 0 {
      TakeGives(p, o);
      var (q, frame) := Take(p, o);
      hide Take, Given;
      if frame.Some? {
        ForwardGives(Emit(q, frame.value, now), n - 1, o, now);
      }
    }
  }

  /** `v` has the streams of `p`, and perhaps this one more. */
  ghost predicate OneMore(p: Player, v: Player, frames: seq<Frame>)
  {
    v.track.streamed == p.track.streamed || v.track.streamed == p.track.streamed + [frames]
  }

  lemma AppliedGives(p: Player, c: Command, o: Opening, now: real)
    requires !Refuses(p, c)
    ensures OneMore(p, Applied(p, c, o, now), Opened(p, Apply(c, o, now)))
  {
    hide Open, Forward, Given;
    match c
    case Play => OpenGives(p, if p.track.failed then p.cursor else None, None, o);
    case Step(n) =>
      StepGives(p, n, o, now);
      hide StepBy;
    case Seek(at, until, play) => SeekGives(p, at, until, play, o, now);
    case _ =>
  }

  lemma StepGives(p: Player, n: int, o: Opening, now: real)
    requires n < 0 ==> p.coverage.Some?
    ensures OneMore(p, StepBy(p, n, o, now), Opened(p, Apply(Step(n), o, now)))
  {
    hide Open, Forward, Given;
    if n >= 0 {
      ForwardGives(p, n, o, now);
    } else if p.cursor.Some? && p.interval.Some? {
      var target := Max(p.cursor.value - p.interval.value * (-n) as real, p.coverage.value.0);
      OpenGives(p, Some(target), None, o);
      ForwardGives(Open(p, Some(target), None, o), 1, o, now);
    }
  }

  lemma SeekGives(p: Player, at: real, until: Option<real>, play: bool, o: Opening, now: real)
    requires !Refuses(p, Seek(at, until, play))
    ensures OneMore(p, Applied(p, Seek(at, until, play), o, now), Given(Some(at), until, o))
  {
    hide Open, Forward, Given, Refuses;
    OpenGives(p, Some(at), until, o);
    var q := Open(p, Some(at), until, o);
    ForwardGives(q.(paused := q.paused && !play), 1, o, now);
  }

  lemma StartedGives(p: Player, loop: bool, o: Opening, now: real)
    ensures OneMore(p, Started(p, loop, o, now), Given(None, None, o))
  {
    hide Open, Forward, Given;
    OpenGives(Blank(p, loop), None, None, o);
    ForwardGives(Open(Blank(p, loop), None, None, o).(paused := true), 1, o, now);
  }

  lemma NextGives(p: Player, e: Event)
    ensures OneMore(p, Next(p, e), Opened(p, e))
  {
    hide Applied, Started, Given, Fetch, Reading, Anchored, DueAt;
    match e
    case Start(loop, o, now) => StartedGives(p, loop, o, now);
    case Apply(c, o, now) => if !Refuses(p, c) { AppliedGives(p, c, o, now); }
    case BeginRead => if Turns(p) { ReadingGives(p.track); }
    case Receive(o) => if Turns(p) && p.track.held.None? { TakeGives(p, o); }
    case _ =>
  }

  /** `from` says which event opened each stream: a later one each, and each
      stream has exactly what that event's opening gives. */
  ghost predicate Origins(gap: real, events: seq<Event>, streamed: seq<seq<Frame>>, from: seq<nat>)
  {
    && |from| == |streamed|
    && (forall s, u :: 0 <= s < u < |from| ==> from[s] < from[u])
    && (forall s :: 0 <= s < |from| ==>
          from[s] < |events| && streamed[s] == Opened(After(gap, events[..from[s]]), events[from[s]]))
  }

  lemma OriginsOn(gap: real, before: seq<Event>, e: Event, streamed: seq<seq<Frame>>, from: seq<nat>)
    requires Origins(gap, before, streamed, from)
    ensures Origins(gap, before + [e], streamed, from)
    ensures Origins(gap, before + [e], streamed + [Opened(After(gap, before), e)], from + [|before|])
  {
    hide Opened, After;
    var events := before + [e];
    assert events[..|before|] == before;
    forall s | 0 <= s < |from| ensures events[from[s]] == before[from[s]] && events[..from[s]] == before[..from[s]] {
    }
  }

  lemma {:induction false} AfterOrigins(gap: real, events: seq<Event>) returns (from: seq<nat>)
    ensures Origins(gap, events, After(gap, events).track.streamed, from)
  {
    if events == [] {
      NoOrigins(gap);
      return [];
    }
    var before, e := events[..|events| - 1], events[|events| - 1];
    assert events == before + [e];
    AfterLast(gap, before, e);
    hide Next, Opened, Origins, After;
    from := AfterOrigins(gap, before);
    var p := After(gap, before);
    NextGives(p, e);
    OriginsOn(gap, before, e, p.track.streamed, from);
    if Next(p, e).track.streamed != p.track.streamed {
      from := from + [|before|];
    }
  }

  lemma NoOrigins(gap: real)
    ensures Origins(gap, [], After(gap, []).track.streamed, [])
  {
  }

  lemma AfterLast(gap: real, before: seq<Event>, e: Event)
    ensures After(gap, before + [e]) == Next(After(gap, before), e)
  {
    hide Next;
    assert (before + [e])[..|before|] == before;
  }

  // ---------------------------------------------------------------- what a page sees

  /** Whatever is played, paused, stepped, sought or paced: each stream has what
      the guard lets through of the records the source gave to one event, of the
      range that event asked for; what was shown of the stream is a prefix of
      that, in order, none skipped and none twice; streams are shown one after
      another; and a stream that ended, unless it failed, was shown whole. */
  lemma PlayedInOrder(gap: real, events: seq<Event>)
    ensures var t := After(gap, events).track;
            && |t.streamed| == t.streams
            && (exists from :: Origins(gap, events, t.streamed, from))
            && (forall s :: 0 < s <= t.streams ==> Of(t.shown, s) <= t.streamed[s - 1])
            && (forall i, j :: 0 <= i < j < |t.shown| ==> t.shown[i].stream <= t.shown[j].stream)
            && (t.streams > 0 && t.ended && !t.failed ==> Of(t.shown, t.streams) == t.streamed[t.streams - 1])
  {
    hide Next, Of, Origins;
    AfterSound(gap, events);
    var from := AfterOrigins(gap, events);
  }

  // ---------------------------------------------------------------- ended, yet not paused

  lemma OpenEnds(p: Player, start: Option<real>, end: Option<real>, o: Opening)
    ensures var q := Open(p, start, end, o);
            q.track.ended == Fails(start, end, o) && (Fails(start, end, o) ==> q.paused)
            && q.track.stream.None? == Fails(start, end, o)
  {
    hide Guarded, ReachesEnd;
  }

  lemma TakeKeepsPaused(p: Player, o: Opening)
    requires p.track.ended ==> p.paused
    ensures var (q, frame) := Take(p, o);
            (q.track.ended ==> q.paused) && (p.track.stream.None? && p.track.held.None? ==> q == p && frame.None?)
  {
    hide Open, Reading;
    if p.track.held.None? && p.track.stream.Some? {
      OpenEnds(p.(track := Reading(p.track)), None, None, o);
      assert Reading(p.track).ended == p.track.ended by { ReadingKeepsEnded(p.track); }
    }
  }

  lemma ReadingKeepsEnded(t: Track)
    requires t.stream.Some?
    ensures Reading(t).ended == t.ended
  {
  }

  lemma {:induction false} ForwardKeepsPaused(p: Player, n: nat, o: Opening, now: real)
    requires p.track.ended ==> p.paused
    ensures var q := Forward(p, n, o, now);
            (q.track.ended ==> q.paused) && (p.track.stream.None? && p.track.held.None? ==> q == p)
    decreases n
  {
    if n > 0 {
      TakeKeepsPaused(p, o);
      var (q, frame) := Take(p, o);
      hide Take;
      if frame.Some? {
        ForwardKeepsPaused(Emit(q, frame.value, now), n - 1, o, now);
      }
    }
  }

  lemma SeekEnds(p: Player, c: Command, o: Opening, now: real)
    requires c.Seek? && !Refuses(p, c)
    ensures var q := Applied(p, c, o, now);
            q.track.ended && !q.paused <==> c.play && Fails(Some(c.at), c.until, o)
  {
    hide Forward, Open, Refuses;
    OpenEnds(p, Some(c.at), c.until, o);
    var q := Open(p, Some(c.at), c.until, o);
    var r := q.(paused := q.paused && !c.play);
    if r.paused && r.track.stream.Some? {
      ForwardKeepsPaused(r, 1, o, now);
    }
  }

  /** Over, and not paused. */
  predicate Astray(p: Player)
  {
    p.track.ended && !p.paused
  }

  /** An accepted Play with no stream, or Seek that plays, whose opening fails. */
  predicate Breaks(p: Player, e: Event)
  {
    e.Apply? && !Refuses(p, e.command) &&
    (|| (e.command == Play && p.track.stream.None? && Fails(if p.track.failed then p.cursor else None, None, e.opening))
     || (e.command.Seek? && e.command.play && Fails(Some(e.command.at), e.command.until, e.opening)))
  }

  /** Whatever opens the source anew, or pauses, ends it: unless it breaks. */
  predicate Mends(p: Player, e: Event)
  {
    || (e.Start? && !p.running)
    || (e.Apply? && !Refuses(p, e.command) &&
        match e.command
        case Pause => true
        case Play => p.track.stream.None?
        case Seek(_, _, _) => true
        case Step(n) => n < 0 && p.cursor.Some? && p.interval.Some?
        case Speed(_) => false)
  }

  /** Some event broke it, and none since has mended it. */
  predicate BrokenSince(gap: real, events: seq<Event>)
  {
    events != [] &&
    var front, e := events[..|events| - 1], events[|events| - 1];
    Breaks(After(gap, front), e) || (BrokenSince(gap, front) && !Mends(After(gap, front), e))
  }

  /** A player that is over reads nothing. */
  predicate Idle(p: Player)
  {
    p.track.ended ==> p.track.stream.None? && p.track.held.None?
  }

  lemma StepAstray(p: Player, n: int, o: Opening, now: real)
    requires Idle(p) && (n < 0 ==> p.coverage.Some?)
    ensures Astray(StepBy(p, n, o, now)) <==> Astray(p) && !(n < 0 && p.cursor.Some? && p.interval.Some?)
  {
    hide Forward, Open;
    if n >= 0 {
      if p.track.ended {
        StandsStill(p, n, o, now);
      } else {
        ForwardKeepsPaused(p, n, o, now);
      }
    } else if p.cursor.Some? && p.interval.Some? {
      var back := Max(p.cursor.value - p.interval.value * (-n) as real, p.coverage.value.0);
      OpenEnds(p, Some(back), None, o);
      ForwardKeepsPaused(Open(p, Some(back), None, o), 1, o, now);
    }
  }

  lemma StandsStill(p: Player, n: nat, o: Opening, now: real)
    requires p.track.stream.None? && p.track.held.None?
    ensures Forward(p, n, o, now) == p
  {
  }

  lemma ApplyAstray(p: Player, c: Command, o: Opening, now: real)
    requires Idle(p) && !Refuses(p, c)
    ensures var e := Apply(c, o, now);
            Astray(Applied(p, c, o, now)) <==> Breaks(p, e) || (Astray(p) && !Mends(p, e))
  {
    match c
    case Play =>
      OpenEnds(p, if p.track.failed then p.cursor else None, None, o);
      hide Open, Refuses;
    case Step(n) =>
      StepAstray(p, n, o, now);
      hide StepBy;
    case Seek(_, _, _) =>
      SeekEnds(p, c, o, now);
      hide Open, Forward;
    case _ =>
  }

  lemma StartAstray(p: Player, loop: bool, o: Opening, now: real)
    ensures !Astray(Started(p, loop, o, now))
  {
    OpenEnds(Blank(p, loop), None, None, o);
    ForwardKeepsPaused(Open(Blank(p, loop), None, None, o).(paused := true), 1, o, now);
    hide Open, Forward;
  }

  lemma ReceiveAstray(p: Player, o: Opening)
    requires Turns(p) && p.track.held.None? && Idle(p)
    ensures !Astray(Next(p, Receive(o)))
  {
    TakeKeepsPaused(p, o);
    hide Fetch;
  }

  lemma NextAstray(p: Player, e: Event)
    requires Idle(p)
    ensures Astray(Next(p, e)) <==> Breaks(p, e) || (Astray(p) && !Mends(p, e))
  {
    hide Applied, Started, Fetch, Reading, Anchored, DueAt;
    match e
    case Start(loop, o, now) => StartAstray(p, loop, o, now);
    case Apply(c, o, now) => if !Refuses(p, c) { ApplyAstray(p, c, o, now); }
    case BeginRead => if Turns(p) { ReadingKeepsEnded(p.track); }
    case Receive(o) => if Turns(p) && p.track.held.None? { ReceiveAstray(p, o); }
    case _ => hide Refuses;
  }

  lemma SoundIsIdle(p: Player)
    requires Sound(p.track, None)
    ensures Idle(p)
  {
    hide Kept, Of;
  }

  /** In every state reached, a stream is over and yet not paused exactly when a
      Play with no stream, or a Seek that plays, found nothing to open, and
      nothing has paused or opened the source since: the failure clears the pause
      it sets. */
  lemma {:induction false} EndedYetPlaying(gap: real, events: seq<Event>)
    ensures After(gap, events).track.ended && !After(gap, events).paused <==> BrokenSince(gap, events)
  {
    if events != [] {
      var front := events[..|events| - 1];
      EndedYetPlaying(gap, front);
      AfterSound(gap, front);
      SoundIsIdle(After(gap, front));
      hide Next, Breaks, Mends;
      NextAstray(After(gap, front), events[|events| - 1]);
    }
  }

  /** It happens: a recording that is not there, started, and then played. */
  lemma PlayedThoughUnavailable(gap: real)
    ensures var events := [Start(false, Unavailable, 0.0), Apply(Play, Unavailable, 1.0)];
            After(gap, events).track.ended && !After(gap, events).paused
  {
    var e1, e2 := Start(false, Unavailable, 0.0), Apply(Play, Unavailable, 1.0);
    AfterTwo(gap, e1, e2);
    var p := Next(Initial(gap), e1);
    assert p.running && p.track.stream.None?;
  }

  lemma AfterTwo(gap: real, a: Event, b: Event)
    ensures After(gap, [a, b]) == Next(Next(Initial(gap), a), b)
  {
    hide Next;
    assert [a, b][..1] == [a] && [a][..0] == [];
    assert After(gap, [a]) == Next(Initial(gap), a);
  }
}
