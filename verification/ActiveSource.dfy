/** A run's router over its sources: how a stream is told from the one before,
    and how a live feed that drops is reopened. */
module ActiveSources {
  import opened Keys

  // ---------------------------------------------------------------- stream marks

  /** What the mark is made of; each playable source counts its own streams, and
      keeps its count while another is active. */
  datatype Router = Router(activations: nat, opens: nat, playable: Option<string>, streams: map<string, nat>)

  datatype Event =
    | Activate(playable: Option<string>)   // a source is made active; its name, if it is playable
    | PlayerOpens                          // the active source, playable, opens a stream
    | PumpOpens                            // the active source, not playable, is opened

  function StreamsOf(r: Router, name: string): nat
  {
    if name in r.streams then r.streams[name] else 0
  }

  function Mark(r: Router): (nat, nat)
  {
    (r.activations, if r.playable.Some? then StreamsOf(r, r.playable.value) else r.opens)
  }

  function Next(r: Router, e: Event): Router
  {
    match e
    case Activate(playable) => r.(activations := r.activations + 1, playable := playable)
    case PlayerOpens =>
      if r.playable.None? then r
      else r.(streams := r.streams[r.playable.value := StreamsOf(r, r.playable.value) + 1])
    case PumpOpens => if r.playable.Some? then r else r.(opens := r.opens + 1)
  }

  function Initial(): Router
  {
    Router(0, 0, None, map[])
  }

  function After(events: seq<Event>): Router
  {
    if events == [] then Initial() else Next(After(events[..|events| - 1]), events[|events| - 1])
  }

  /** The step starts a stream over. */
  predicate StartsOver(r: Router, e: Event)
  {
    match e
    case Activate(_) => true
    case PlayerOpens => r.playable.Some?
    case PumpOpens => r.playable.None?
  }

  predicate Earlier(a: (nat, nat), b: (nat, nat))
  {
    a.0 < b.0 || (a.0 == b.0 && a.1 < b.1)
  }

  lemma StepMark(r: Router, e: Event)
    ensures if StartsOver(r, e) then Earlier(Mark(r), Mark(Next(r, e))) else Mark(Next(r, e)) == Mark(r)
  {
  }

  /** No stream starts over between the first `i` steps and all of them. */
  ghost predicate Quiet(events: seq<Event>, i: nat)
  {
    forall k :: i <= k < |events| ==> !StartsOver(After(events[..k]), events[k])
  }

  lemma QuietFront(events: seq<Event>, i: nat)
    requires i < |events|
    ensures var last := |events| - 1;
            Quiet(events, i) <==> Quiet(events[..last], i) && !StartsOver(After(events[..last]), events[last])
  {
    hide After, StartsOver;
    var last := |events| - 1;
    var front := events[..last];
    assert forall k :: 0 <= k < last ==> front[..k] == events[..k] && front[k] == events[k];
  }

  /** Two frames carry the same mark exactly when no stream started over between
      them: a mark never comes back, whatever sources were active meanwhile. */
  lemma {:induction false} MarksTellStreamsApart(events: seq<Event>, i: nat)
    requires i <= |events|
    ensures Mark(After(events[..i])) == Mark(After(events)) <==> Quiet(events, i)
    ensures Mark(After(events[..i])) == Mark(After(events)) || Earlier(Mark(After(events[..i])), Mark(After(events)))
    decreases |events|
  {
    if i == |events| {
      assert events[..i] == events;
    } else {
      QuietFront(events, i);
      hide Quiet, Mark, Next, StartsOver;
      var last := |events| - 1;
      var front := events[..last];
      assert front[..i] == events[..i];
      MarksTellStreamsApart(front, i);
      StepMark(After(front), events[last]);
    }
  }

  /** The router's counters as it keeps them. */
  class ActiveSource {
    var activations: nat
    var opens: nat
    var playable: Option<string>
    var streams: map<string, nat>

    ghost function State(): Router
      reads this
    {
      Router(activations, opens, playable, streams)
    }

    constructor ()
      ensures State() == Initial()
    {
      activations, opens, playable, streams := 0, 0, None, map[];
    }

    method StreamMark() returns (mark: (nat, nat))
      ensures mark == Mark(State())
    {
      if playable.Some? {
        mark := (activations, if playable.value in streams then streams[playable.value] else 0);
      } else {
        mark := (activations, opens);
      }
    }

    /** Makes a source active; one that is not playable is then opened, unless
        it is followed or cannot be. */
    method Activate(name: string, isPlayable: bool, canOpen: bool)
      modifies this
      ensures var active := Next(old(State()), Event.Activate(if isPlayable then Some(name) else None));
              State() == if isPlayable then Next(active, PlayerOpens) else if canOpen then Next(active, PumpOpens) else active
    {
      activations := activations + 1;
      if isPlayable {
        playable := Some(name);
        streams := streams[name := (if name in streams then streams[name] else 0) + 1];
      } else {
        playable := None;
        if canOpen {
          opens := opens + 1;
        }
      }
    }
  }

  // ---------------------------------------------------------------- the pump

  const REOPEN := 1.0
  const MAX_REOPEN := 30.0

  /** One opening of a live feed: the frames it gave before it failed or ended,
      how long it ran, and how often reopening failed afterwards. */
  datatype Feed = Feed(frames: nat, lasted: real, refusals: nat)

  datatype Pump = Pump(delay: real, down: bool, reports: nat, waits: seq<real>)

  function Least(a: real, b: real): real
  {
    if a < b then a else b
  }

  /** Waits between openings, each twice the one before, up to a limit. */
  function Waits(delay: real, n: nat): (r: (seq<real>, real))
    ensures |r.0| == n
  {
    if n == 0 then ([], delay) else
      var (before, next) := Waits(delay, n - 1);
      (before + [next], Least(next * 2.0, MAX_REOPEN))
  }

  /** A feed runs and drops. It is reported unless the outage before it goes on;
      a long run makes this a new outage, and the waits start over. */
  function Dropped(p: Pump, f: Feed): Pump
  {
    var down := p.down && f.frames == 0;
    var from := if !down && f.lasted >= MAX_REOPEN then REOPEN else p.delay;
    var (waits, next) := Waits(from, f.refusals + 1);
    Pump(next, true, p.reports + if down then 0 else 1, p.waits + waits)
  }

  function Pumped(feeds: seq<Feed>): Pump
  {
    if feeds == [] then Pump(REOPEN, false, 0, []) else Dropped(Pumped(feeds[..|feeds| - 1]), feeds[|feeds| - 1])
  }

  /** How many feeds came up: gave a frame, or were the first. */
  function Outages(feeds: seq<Feed>): nat
  {
    if feeds == [] then 0
    else Outages(feeds[..|feeds| - 1]) + if feeds[|feeds| - 1].frames > 0 || |feeds| == 1 then 1 else 0
  }

  lemma {:induction false} WaitsAreBounded(delay: real, n: nat)
    requires REOPEN <= delay <= MAX_REOPEN
    ensures REOPEN <= Waits(delay, n).1 <= MAX_REOPEN
    ensures forall k :: 0 <= k < n ==> REOPEN <= Waits(delay, n).0[k] <= MAX_REOPEN
  {
    if n > 0 {
      WaitsAreBounded(delay, n - 1);
    }
  }

  /** An outage is reported once, however long it lasts, and every wait of it is
      between the least and the most. */
  lemma {:induction false} OneReportAnOutage(feeds: seq<Feed>)
    ensures Pumped(feeds).reports == Outages(feeds)
    ensures Pumped(feeds).down == (feeds != [])
    ensures REOPEN <= Pumped(feeds).delay <= MAX_REOPEN
    ensures forall k :: 0 <= k < |Pumped(feeds).waits| ==> REOPEN <= Pumped(feeds).waits[k] <= MAX_REOPEN
  {
    if feeds != [] {
      var before, f := Pumped(feeds[..|feeds| - 1]), feeds[|feeds| - 1];
      OneReportAnOutage(feeds[..|feeds| - 1]);
      var from := if !(before.down && f.frames == 0) && f.lasted >= MAX_REOPEN then REOPEN else before.delay;
      WaitsAreBounded(from, f.refusals + 1);
    }
  }

  lemma {:induction false} WaitsDouble(delay: real, n: nat)
    ensures var (waits, next) := Waits(delay, n);
            && (n == 0 ==> next == delay) && (n > 0 ==> waits[0] == delay && next == Twice(waits[n - 1]))
            && forall k :: 0 < k < n ==> waits[k] == Twice(waits[k - 1])
  {
    if n > 0 {
      WaitsDouble(delay, n - 1);
    }
  }

  /** Twice as long, but never more than half a minute. */
  function Twice(wait: real): real
  {
    if wait >= 15.0 then 30.0 else wait + wait
  }

  /** What one feed that came and dropped adds: a report, unless it gave nothing
      and was not the first, for then the outage goes on; and a wait before each
      opening after it, each twice the one before, the first of them one second
      again if this is a new outage and the feed had run for half a minute. */
  lemma OneFeedMore(feeds: seq<Feed>, f: Feed)
    ensures var p, q := Pumped(feeds), Pumped(feeds + [f]);
            var anew := feeds == [] || f.frames > 0;
            var n := |p.waits|;
            && q.reports == p.reports + (if anew then 1 else 0)
            && |q.waits| == n + f.refusals + 1 && q.waits[..n] == p.waits
            && q.waits[n] == (if n == 0 || (anew && f.lasted >= 30.0) then 1.0 else Twice(p.waits[n - 1]))
            && forall k :: n < k < |q.waits| ==> q.waits[k] == Twice(q.waits[k - 1])
  {
    assert (feeds + [f])[..|feeds|] == feeds;
    OneReportAnOutage(feeds);
    DelayFollows(feeds);
    var p := Pumped(feeds);
    var from := if !(p.down && f.frames == 0) && f.lasted >= MAX_REOPEN then REOPEN else p.delay;
    WaitsDouble(from, f.refusals + 1);
    var waits := Waits(from, f.refusals + 1).0;
    hide Waits;
    assert Pumped(feeds + [f]).waits == p.waits + waits;
    forall k | |p.waits| < k < |p.waits + waits| ensures (p.waits + waits)[k] == Twice((p.waits + waits)[k - 1]) {
      assert waits[k - |p.waits|] == Twice(waits[k - |p.waits| - 1]);
    }
  }

  /** The next wait, unless it starts over, follows from the last. */
  lemma {:induction false} DelayFollows(feeds: seq<Feed>)
    ensures var p := Pumped(feeds);
            if feeds == [] then p.delay == 1.0 && p.waits == []
            else p.waits != [] && p.delay == Twice(p.waits[|p.waits| - 1])
  {
    if feeds != [] {
      var before, f := Pumped(feeds[..|feeds| - 1]), feeds[|feeds| - 1];
      var from := if !(before.down && f.frames == 0) && f.lasted >= MAX_REOPEN then REOPEN else before.delay;
      WaitsDouble(from, f.refusals + 1);
    }
  }

  /** The loop itself, over the feeds as they turn out. */
  method RunPump(feeds: seq<Feed>) returns (reports: nat, waits: seq<real>)
    ensures reports == Pumped(feeds).reports && waits == Pumped(feeds).waits
  {
    var delay, down := REOPEN, false;
    reports, waits := 0, [];
    var i := 0;
    while i < |feeds|
      invariant i <= |feeds| && Pump(delay, down, reports, waits) == Pumped(feeds[..i])
    {
      var feed := feeds[i];
      assert feeds[..i + 1][..i] == feeds[..i];
      if down && feed.frames > 0 {
        down := false;
      }
      if !down {
        reports := reports + 1;
      }
      if !down && feed.lasted >= MAX_REOPEN {
        delay := REOPEN;
      }
      down := true;
      ghost var from, before := delay, waits;
      var refused := 0;
      while refused < feed.refusals + 1
        invariant refused <= feed.refusals + 1
        invariant waits == before + Waits(from, refused).0 && delay == Waits(from, refused).1
      {
        waits := waits + [delay];
        delay := Least(delay * 2.0, MAX_REOPEN);
        refused := refused + 1;
      }
      i := i + 1;
    }
    assert feeds[..i] == feeds;
  }
}
