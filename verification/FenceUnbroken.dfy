/** Exactly where the fence is crossed: an instance answers a command while it
    awaits a reset; a reset fails; or an instance publishes under a later stream
    than one of its settings was computed from, which only a command that itself
    carried something computed from frames can bring about. As long as none of
    the three happens the fence holds for every result nobody asked for; and
    where it does not hold, what let the result through is one of them. */
module FenceUnbroken {
  import opened Keys
  import opened Wire
  import opened Subscriptions
  import opened Hosts
  import opened HostSlots
  import opened Fence
  import Runs

  // ---------------------------------------------------------------- the gaps

  /** The instance's act crosses the fence. */
  predicate Crosses(s: Slot, act: Act)
  {
    match act
    case Answer(_, _) => s.setUp && !s.call.Running? && (AwaitsReset(s) || Older(s.settings, s.key.stream))
    case Finish(outputs, _) => s.alive && s.call.Running? && outputs != [] && Older(s.settings, s.call.key.stream)
    case ResetEnds(ok) => !ok && s.alive && s.call.Taken? && s.call.resetting
    case _ => false
  }

  predicate HostCrosses(h: Host, e: Event)
  {
    e.Instance? && e.id < |h.built| && !h.built[e.id].ended && Crosses(h.built[e.id], e.act)
  }

  /** A step that opens a gap. */
  predicate Gapped(s: System, e: SystemEvent)
  {
    e.HostSteps? && e.h < |s.hosts| && HostCrosses(s.hosts[e.h], e.event)
  }

  predicate EverGapped(p: Runs.Pipeline, events: seq<SystemEvent>)
  {
    events != [] &&
    var front := events[..|events| - 1];
    EverGapped(p, front) || Gapped(Reached(p, front), events[|events| - 1])
  }

  // ---------------------------------------------------------------- no gap, no mark

  ghost predicate SlotTight(s: Slot)
  {
    && !s.unfenced
    && (forall m :: m in s.inputs ==> !m.unfenced)
    && (forall c :: c in s.join ==> !s.join[c].unfenced)
    && (s.call.Idle? || !s.call.input.unfenced)
  }

  ghost predicate HostTight(h: Host)
  {
    AllSlots(h, SlotTight)
  }

  /** Nothing sent, queued or remembered is marked as having crossed the fence. */
  ghost predicate SystemTight(s: System)
  {
    (forall m :: m in s.sent ==> !m.unfenced) && (forall h :: h in s.hosts ==> HostTight(h))
  }

  lemma NewStreamTight(s: Slot, key: StreamKey)
    requires SlotTight(s)
    ensures SlotTight(NewStream(s, key))
  {
  }

  lemma QueueTight(s: Slot, m: Message, limit: nat)
    requires SlotTight(s) && !m.unfenced
    ensures SlotTight(s.(inputs := Offered(s.inputs, limit, m)))
  {
    OfferedHolds(s.inputs, limit, m);
    hide Offered;
  }

  lemma JoinTight(s: Slot, m: Message)
    requires SlotTight(s) && !m.unfenced
    ensures SlotTight(s.(join := s.join[m.cls := m]))
  {
  }

  lemma CommandTight(s: Slot, m: Message)
    requires SlotTight(s)
    ensures SlotTight(s.(commands := s.commands + [m]))
  {
  }

  lemma ReceiveTight(s: Slot, channel: Channel, m: Message, limit: nat)
    requires SlotTight(s) && !m.unfenced
    ensures SlotTight(Receive(s, channel, m, limit))
  {
    NewStreamTight(s, m.key);
    var t := if m.key.stream > s.stream then NewStream(s, m.key) else s;
    CommandTight(s, m);
    QueueTight(t, m, limit);
    JoinTight(t, m);
    hide SlotTight, NewStream, Offered;
  }

  lemma BeginTight(s: Slot, used: set<Class>)
    requires SlotTight(s)
    ensures SlotTight(Serve(s, Begin(used)))
  {
    if s.call.Taken? {
      assert forall m :: m in Bundle(s, s.call.input, used) ==> !m.unfenced;
    }
  }

  lemma ServeTight(s: Slot, act: Act)
    requires SlotTight(s) && !Crosses(s, act)
    ensures SlotTight(Serve(s, act))
  {
    if act.Begin? { BeginTight(s, act.used); }
  }

  lemma PublishedTight(s: Slot, act: Act)
    requires SlotTight(s) && !Crosses(s, act)
    ensures forall m :: m in Published(s, act) ==> !m.unfenced
  {
    hide Older;
  }

  lemma TightContents()
    ensures OfContents(SlotTight)
  {
  }

  lemma NextTight(h: Host, e: Event)
    requires HostTight(h) && (e.Feed? ==> !e.message.unfenced) && !HostCrosses(h, e)
    ensures HostTight(Next(h, e)) && forall m :: m in Emits(h, e) ==> !m.unfenced
  {
    TightContents();
    hide SlotTight, Serve, Published, Receive, Next, OfContents;
    match e
    case Feed(channel, m, now) =>
      forall s | SlotTight(s) ensures SlotTight(Receive(s, channel, m, h.limit)) {
        ReceiveTight(s, channel, m, h.limit);
      }
      NextAll(h, e, SlotTight);
    case Instance(id, act) =>
      if id < |h.built| && !h.built[id].ended {
        assert h.built[id] in h.built;
        hide Crosses;
        ServeTight(h.built[id], act);
        PublishedTight(h.built[id], act);
      }
      NextAll(h, e, SlotTight);
    case _ => NextAll(h, e, SlotTight);
  }

  lemma StepTight(s: System, e: SystemEvent)
    requires SystemTight(s) && !Gapped(s, e)
    ensures SystemTight(Step(s, e))
  {
    hide HostTight, HostCrosses, Next, Emits, Runs.Put, Runs.Hear, Runs.HearFollowed;
    match e
    case HostSteps(h, event) =>
      if h < |s.hosts| && (event.Feed? ==> event.message in s.sent) {
        assert s.hosts[h] in s.hosts;
        NextTight(s.hosts[h], event);
        var g := s.hosts[h := Next(s.hosts[h], event)];
        assert forall x :: x in g ==> x in s.hosts || x == Next(s.hosts[h], event);
      }
    case HostStarts(limit, retrySeconds) => StartTight(limit, retrySeconds);
    case _ =>
  }

  lemma StartTight(limit: nat, retrySeconds: real)
    ensures HostTight(Start(limit, retrySeconds))
  {
  }

  /** A step that opens a gap leaves the mark: on the answer, or on the instance. */
  lemma GapMarks(s: System, e: SystemEvent)
    requires Gapped(s, e)
    ensures !SystemTight(Step(s, e))
  {
    var h, id, act := s.hosts[e.h], e.event.id, e.event.act;
    var slot, v := h.built[id], Step(s, e);
    if act.Answer? {
      var m := Message(act.cls, slot.key, act.requestId, slot.memory + slot.settings, true);
      assert m in Computed(slot, act);
      assert m in v.sent;
    } else if act.Finish? {
      var m := Output(slot, act.outputs[0]);
      assert act.outputs[0] in act.outputs;
      assert m in Computed(slot, act) && m.unfenced;
      assert m in v.sent;
    } else {
      var g := Next(h, e.event);
      assert Serve(slot, act).unfenced;
      assert g.built[id] == Serve(slot, act) && g.built[id] in g.built;
      assert v.hosts[e.h] == g && g in v.hosts;
    }
  }

  /** Nothing was ever marked, from the start. */
  ghost predicate NeverMarked(p: Runs.Pipeline, events: seq<SystemEvent>)
  {
    SystemTight(Reached(p, events)) && (events == [] || NeverMarked(p, events[..|events| - 1]))
  }

  /** The mark is set in a run of the system exactly when one of the gaps opens:
      nothing else lets anything across. */
  lemma {:induction false} MarkedExactlyWhenGapped(p: Runs.Pipeline, events: seq<SystemEvent>)
    ensures NeverMarked(p, events) <==> !EverGapped(p, events)
  {
    hide Step, Gapped, SystemTight;
    if events == [] {
      StartsTight(p);
    } else {
      var front := events[..|events| - 1];
      MarkedExactlyWhenGapped(p, front);
      if NeverMarked(p, front) {
        StepIsTight(Reached(p, front), events[|events| - 1]);
      }
    }
  }

  lemma StartsTight(p: Runs.Pipeline)
    ensures SystemTight(Reached(p, []))
  {
  }

  lemma StepIsTight(s: System, e: SystemEvent)
    requires SystemTight(s)
    ensures SystemTight(Step(s, e)) <==> !Gapped(s, e)
  {
    hide Step, SystemTight, Gapped;
    if Gapped(s, e) {
      GapMarks(s, e);
    } else {
      StepTight(s, e);
    }
  }

  // ---------------------------------------------------------------- the fence, without exception

  /** Once a run's stream number is what it is after `events`, no result it
      stores later without a request id was computed from one of its frames with
      a smaller number, in every run of the system in which no instance answers
      while it awaits a reset, no reset fails, and nothing is published under a
      later stream than a setting came from. */
  lemma FenceHoldsUnbroken(p: Runs.Pipeline, events: seq<SystemEvent>, more: seq<SystemEvent>, e: SystemEvent, r: nat, m: Message)
    requires !EverGapped(p, events + more)
    requires r < |Reached(p, events).runs|
    requires Stores(Reached(p, events + more), e, r, m) && m.requestId == None
    ensures forall o :: o in m.sources ==> o.key.stream >= Reached(p, events).runs[r].stream
  {
    hide Reached, EverGapped;
    var all := events + more;
    MarkedExactlyWhenGapped(p, all);
    assert SystemTight(Reached(p, all));
    FenceHolds(p, events, more, e, r, m);
  }

  // ---------------------------------------------------------------- settings

  /** A command that carries what was computed from frames reaches a host: it
      was sent by a module. */
  predicate Carries(e: SystemEvent)
  {
    e.HostSteps? && e.event.Feed? && e.event.channel == Commands && e.event.message.sources != {}
  }

  predicate EverCarried(events: seq<SystemEvent>)
  {
    exists i :: 0 <= i < |events| && Carries(events[i])
  }

  /** No setting, and no command yet to be handled, comes from a frame. */
  ghost predicate SlotBare(s: Slot)
  {
    s.settings == {} && forall m :: m in s.commands ==> m.sources == {}
  }

  lemma ReceiveBare(s: Slot, channel: Channel, m: Message, limit: nat)
    requires SlotBare(s) && (channel == Commands ==> m.sources == {})
    ensures SlotBare(Receive(s, channel, m, limit))
  {
    hide Offered;
  }

  lemma ServeBare(s: Slot, act: Act)
    requires SlotBare(s)
    ensures SlotBare(Serve(s, act))
  {
    hide Bundle, SourcesOf;
  }

  lemma NextBare(h: Host, e: Event)
    requires AllSlots(h, SlotBare) && (e.Feed? && e.channel == Commands ==> e.message.sources == {})
    ensures AllSlots(Next(h, e), SlotBare)
  {
    BareContents();
    hide SlotBare, Serve, Receive, Next, OfContents;
    if e.Feed? {
      forall s | SlotBare(s) ensures SlotBare(Receive(s, e.channel, e.message, h.limit)) {
        ReceiveBare(s, e.channel, e.message, h.limit);
      }
    } else if e.Instance? && e.id < |h.built| && SlotBare(h.built[e.id]) {
      ServeBare(h.built[e.id], e.act);
    }
    NextAll(h, e, SlotBare);
  }

  lemma BareContents()
    ensures OfContents(SlotBare)
  {
  }

  ghost predicate SystemBare(s: System)
  {
    forall h :: h in s.hosts ==> AllSlots(h, SlotBare)
  }

  lemma StepBare(s: System, e: SystemEvent)
    requires SystemBare(s) && !Carries(e)
    ensures SystemBare(Step(s, e))
  {
    hide AllSlots, Next, Emits, Runs.Put, Runs.Hear, Runs.HearFollowed;
    match e
    case HostSteps(h, event) =>
      if h < |s.hosts| && (event.Feed? ==> event.message in s.sent) {
        assert s.hosts[h] in s.hosts;
        NextBare(s.hosts[h], event);
        var g := s.hosts[h := Next(s.hosts[h], event)];
        assert forall x :: x in g ==> x in s.hosts || x == Next(s.hosts[h], event);
      }
    case HostStarts(limit, retrySeconds) => StartBare(limit, retrySeconds);
    case _ =>
  }

  lemma StartBare(limit: nat, retrySeconds: real)
    ensures AllSlots(Start(limit, retrySeconds), SlotBare)
  {
  }

  /** No setting comes from a frame until some module's command brings one: where
      modules send no commands to modules, the first two gaps are all there are. */
  lemma SettingsComeByCommand(p: Runs.Pipeline, events: seq<SystemEvent>, h: nat, id: nat)
    requires !EverCarried(events)
    requires h < |Reached(p, events).hosts| && id < |Reached(p, events).hosts[h].built|
    ensures Reached(p, events).hosts[h].built[id].settings == {}
  {
    ReachedBare(p, events);
    hide Reached;
    assert Reached(p, events).hosts[h] in Reached(p, events).hosts;
    assert Reached(p, events).hosts[h].built[id] in Reached(p, events).hosts[h].built;
  }

  lemma {:induction false} ReachedBare(p: Runs.Pipeline, events: seq<SystemEvent>)
    requires !EverCarried(events)
    ensures SystemBare(Reached(p, events))
  {
    hide Step, SystemBare, Carries;
    if events == [] {
      StartsBare(p);
    } else {
      var front := events[..|events| - 1];
      assert forall i :: 0 <= i < |front| ==> front[i] == events[i];
      ReachedBare(p, front);
      StepBare(Reached(p, front), events[|events| - 1]);
    }
  }

  lemma StartsBare(p: Runs.Pipeline)
    ensures SystemBare(Reached(p, []))
  {
  }

  // ---------------------------------------------------------------- what can be stale

  /** Computed from a frame of a stream before the one its key names. */
  predicate Stale(m: Message)
  {
    Older(m.sources, m.key.stream)
  }

  /** The guard of what can be stale though computed from inputs only: an answer
      given while a reset is awaited, or anything from an instance whose memory
      crossed the fence before. */
  predicate MayBeStale(s: Slot, act: Act)
  {
    s.unfenced || (act.Answer? && AwaitsReset(s))
  }

  lemma OlderOfBoth(a: set<Origin>, b: set<Origin>, stream: int)
    ensures Older(a + b, stream) <==> Older(a, stream) || Older(b, stream)
  {
    if Older(a, stream) {
      var o :| o in a && o.key.stream < stream;
      assert o in a + b;
    }
    if Older(b, stream) {
      var o :| o in b && o.key.stream < stream;
      assert o in a + b;
    }
  }

  lemma SlotStaleExactly(s: Slot, act: Act, m: Message)
    requires SlotFenced(s) && m in Computed(s, act)
    ensures Stale(m) <==> (MayBeStale(s, act) && Older(s.memory, m.key.stream)) || Older(s.settings, m.key.stream)
  {
    OlderOfBoth(s.memory, s.settings, m.key.stream);
  }

  /** In every reachable state, an answer or an output is stale exactly when that
      guard holds and the instance remembers an older frame, or it has a setting
      computed from one. */
  lemma StaleExactly(p: Runs.Pipeline, events: seq<SystemEvent>, h: nat, id: nat, act: Act, m: Message)
    requires h < |Reached(p, events).hosts| && id < |Reached(p, events).hosts[h].built|
    requires m in Computed(Reached(p, events).hosts[h].built[id], act)
    ensures var s := Reached(p, events).hosts[h].built[id];
            Stale(m) <==> (MayBeStale(s, act) && Older(s.memory, m.key.stream)) || Older(s.settings, m.key.stream)
  {
    ReachedFenced(p, events);
    hide Reached;
    var host := Reached(p, events).hosts[h];
    assert HostFenced(host);
    SlotStaleExactly(host.built[id], act, m);
  }
}
