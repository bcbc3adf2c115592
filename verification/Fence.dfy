/** The fence: a run that has started its stream over never again keeps a
    result computed from the frames before.

    `System` is any number of runs and module hosts meeting only on a transport
    that may hold a message back for any time, deliver it again, or never: what
    was ever sent is a set, and any of it may arrive at any moment. No file of
    the program states the property; it rests on runs stamping, hosts clearing
    and resetting, and runs filtering, together. */
module Fence {
  import opened Keys
  import opened Wire
  import opened Subscriptions
  import opened Hosts
  import Runs

  datatype System = System(
    pipeline: Runs.Pipeline,
    sent: set<Message>,
    runs: seq<Runs.Run>,
    hosts: seq<Host>,
    lastId: int)

  datatype SystemEvent =
    | RunStarts(key: string, shared: bool, clock: int)
    | RunPublishes(r: nat, mark: (int, int), item: Runs.Item)
    | RunDispatches(r: nat, cls: Class, requestId: Option<string>)
    | RunHears(r: nat, m: Message)
    | RunHearsFollowed(r: nat, number: nat, m: Message, frames: Class)
    | HostStarts(limit: nat, retrySeconds: real)
    | HostSteps(h: nat, event: Event)
    | ByHand(m: Message)      // a script publishing under a plain key

  function Initial(p: Runs.Pipeline): System
  {
    System(p, {}, [], [], 0)
  }

  /** Whether a message can arrive at a run's results subscription. */
  predicate Hearable(s: System, r: nat, m: Message)
  {
    r < |s.runs| && m in s.sent && m.cls in s.pipeline.results && m.key.run == s.runs[r].key
  }

  /** Whether it can arrive at the run's live subscription. */
  predicate FollowedHearable(s: System, r: nat, number: nat, m: Message)
  {
    && r < |s.runs| && m in s.sent
    && (s.runs[r].following.Some? && s.runs[r].following.value.number == number ==>
          m.key.run == s.runs[r].following.value.key)
  }

  function Step(s: System, e: SystemEvent): System
  {
    match e
    case RunStarts(key, shared, clock) =>
      var id := NextRunId(s.lastId, clock);
      s.(runs := s.runs + [Runs.NewRun(key, id, shared)], lastId := id)
    case RunPublishes(r, mark, item) =>
      if r >= |s.runs| then s else
        var marked := Runs.Marked(s.runs[r], mark);
        s.(runs := s.runs[r := Runs.Put(s.runs[r], s.pipeline, mark, item)],
           sent := s.sent + if Runs.OnWire(marked, s.pipeline, item) then {Runs.Stamped(marked, item)} else {})
    case RunDispatches(r, cls, requestId) =>
      // A run is handed out once its router has published, under its first stream.
      if r >= |s.runs| || s.runs[r].stream == 0 then s
      else s.(sent := s.sent + {Message(cls, Runs.KeyOf(s.runs[r]), requestId, {}, false)})
    case RunHears(r, m) =>
      if Hearable(s, r, m) then s.(runs := s.runs[r := Runs.Hear(s.runs[r], m)]) else s
    case RunHearsFollowed(r, number, m, frames) =>
      if FollowedHearable(s, r, number, m)
      then s.(runs := s.runs[r := Runs.HearFollowed(s.runs[r], s.pipeline, number, m, frames)]) else s
    case HostStarts(limit, retrySeconds) => s.(hosts := s.hosts + [Start(limit, retrySeconds)])
    case HostSteps(h, event) =>
      if h >= |s.hosts| || (event.Feed? && event.message !in s.sent) then s
      else s.(hosts := s.hosts[h := Next(s.hosts[h], event)], sent := s.sent + Emits(s.hosts[h], event))
    case ByHand(m) => if m.key.runId == 0 && m.sources == {} && !m.unfenced then s.(sent := s.sent + {m}) else s
  }

  function Reached(p: Runs.Pipeline, events: seq<SystemEvent>): System
  {
    if events == [] then Initial(p) else Step(Reached(p, events[..|events| - 1]), events[|events| - 1])
  }

  // ---------------------------------------------------------------- one slot

  /** What an instance remembers is of its own run, and, unless something
      crossed a gap in the fence, of the stream it is to serve next. */
  ghost predicate MemoryFenced(s: Slot)
  {
    && OwnFrames(s.memory, s.run, s.runId)
    && match s.call
       case Idle => !s.resetDue && !s.unfenced ==> NoneBefore(s.memory, s.stream)
       case Taken(k, input, resetting) => !resetting && !s.unfenced ==> NoneBefore(s.memory, k.stream)
       case Running(k, input) =>
         !s.unfenced ==> NoneBefore(s.memory, k.stream)
  }

  /** The call in progress is for an input of its key, of the slot's stream or
      an older one; if older, a reset is due before the next. */
  ghost predicate CallFenced(s: Slot)
  {
    s.call.Idle? ||
    (&& Fenced(s.call.input) && s.call.input.key == s.call.key
     && s.call.key.run == s.run && s.call.key.runId == s.runId && s.call.key.stream <= s.stream
     && (s.call.key.stream < s.stream ==> s.resetDue))
  }

  /** What waits as a command, and what is kept of those taken, is of the run. */
  ghost predicate SettingsFenced(s: Slot)
  {
    && OwnFrames(s.settings, s.run, s.runId)
    && (forall m :: m in s.commands ==> OwnFrames(m.sources, s.run, s.runId))
  }

  ghost predicate SlotFenced(s: Slot)
  {
    && s.key == StreamKey(s.run, s.runId, s.stream) && (s.runId != 0 ==> s.stream >= 1)
    && (forall m :: m in s.inputs ==> Fenced(m) && m.key == s.key)
    && (forall c :: c in s.join ==> Fenced(s.join[c]) && s.join[c].key == s.key)
    && MemoryFenced(s) && CallFenced(s) && SettingsFenced(s)
  }

  lemma NewStreamFenced(s: Slot, key: StreamKey)
    requires SlotFenced(s) && key.run == s.run && key.runId == s.runId && key.stream > s.stream
    requires key.runId != 0 ==> key.stream >= 1
    ensures SlotFenced(NewStream(s, key))
  {
  }

  lemma QueueFenced(s: Slot, m: Message, limit: nat)
    requires SlotFenced(s) && Fenced(m) && m.key == s.key
    ensures SlotFenced(s.(inputs := Offered(s.inputs, limit, m)))
  {
    var q := Offered(s.inputs, limit, m);
    assert forall x :: x in q ==> x in s.inputs || x == m;
  }

  lemma JoinFenced(s: Slot, m: Message)
    requires SlotFenced(s) && Fenced(m) && m.key == s.key
    ensures SlotFenced(s.(join := s.join[m.cls := m]))
  {
  }

  lemma ReceiveFenced(s: Slot, channel: Channel, m: Message, limit: nat)
    requires SlotFenced(s) && Fenced(m) && m.key.run == s.run && m.key.runId == s.runId
    ensures SlotFenced(Receive(s, channel, m, limit))
  {
    if channel != Commands && m.key.stream >= s.stream {
      if m.key.stream > s.stream {
        NewStreamFenced(s, m.key);
      }
      var t := if m.key.stream > s.stream then NewStream(s, m.key) else s;
      if channel == Join {
        JoinFenced(t, m);
      } else {
        QueueFenced(t, m, limit);
      }
    }
  }

  lemma BundleFenced(s: Slot, used: set<Class>)
    requires SlotFenced(s) && !s.call.Idle?
    ensures forall m :: m in Bundle(s, s.call.input, used) ==>
              Fenced(m) && m.key.run == s.run && m.key.runId == s.runId && m.key.stream >= s.call.key.stream
    ensures s.call.input in Bundle(s, s.call.input, used)
  {
  }

  lemma BeginFenced(s: Slot, used: set<Class>)
    requires SlotFenced(s) && s.alive && s.call.Taken? && !s.call.resetting
    ensures SlotFenced(Serve(s, Begin(used)))
  {
    BundleFenced(s, used);
    var bundle := Bundle(s, s.call.input, used);
    var t := Serve(s, Begin(used));
    forall o | o in t.memory
      ensures o.key.run == s.run && o.key.runId == s.runId && s.runId > 0 && o.key.stream >= 1
      ensures !t.unfenced ==> o.key.stream >= s.call.key.stream
    {
      if o !in s.memory {
        var m :| m in bundle && o in m.sources;
      }
    }
  }

  lemma ServeFenced(s: Slot, act: Act)
    requires SlotFenced(s)
    ensures SlotFenced(Serve(s, act))
  {
    match act
    case Begin(used) => if s.alive && s.call.Taken? && !s.call.resetting { BeginFenced(s, used); }
    case _ =>
  }

  lemma PublishedFenced(s: Slot, act: Act)
    requires SlotFenced(s)
    ensures forall m :: m in Published(s, act) ==> Fenced(m)
  {
  }

  // ---------------------------------------------------------------- the system

  ghost predicate HostFenced(h: Host)
  {
    && (forall i :: 0 <= i < |h.built| ==> SlotFenced(h.built[i]))
    && (forall r :: r in h.service ==> h.service[r] < |h.built| && h.built[h.service[r]].run == r)
  }

  ghost predicate SystemFenced(s: System)
  {
    && s.lastId >= 0
    && (forall m :: m in s.sent ==> Fenced(m))
    && (forall i :: 0 <= i < |s.runs| ==> s.runs[i].id > 0)
    && (forall i :: 0 <= i < |s.runs| ==> s.runs[i].mark.Some? ==> s.runs[i].stream >= 1)
    && (forall i :: 0 <= i < |s.hosts| ==> HostFenced(s.hosts[i]))
  }

  lemma RetireFenced(h: Host, id: nat)
    requires HostFenced(h) && id < |h.built|
    ensures HostFenced(Retire(h, id))
  {
    hide SlotFenced;
  }

  lemma BuildFenced(h: Host, key: StreamKey)
    requires HostFenced(h) && (key.runId != 0 ==> key.stream >= 1)
    ensures HostFenced(h.(retryAt := h.retryAt - {key.run}, built := h.built + [NewSlot(key)],
                          service := h.service[key.run := |h.built|]))
  {
    assert SlotFenced(NewSlot(key));
    assert NewSlot(key).run == key.run;
    hide SlotFenced, NewSlot;
  }

  /** The slot found for a key is of the key's run and id. */
  lemma FindFenced(h: Host, key: StreamKey, now: real)
    requires HostFenced(h) && (key.runId != 0 ==> key.stream >= 1)
    ensures var (g, id) := Find(h, key, now);
            && HostFenced(g)
            && (id.Some? && id.value < |g.built| ==> g.built[id.value].run == key.run && g.built[id.value].runId == key.runId)
  {
    hide SlotFenced;
    if key.run in h.service {
      RetireFenced(h, h.service[key.run]);
      BuildFenced(Retire(h, h.service[key.run]), key);
    } else {
      BuildFenced(h, key);
    }
  }

  lemma ReplaceFenced(h: Host, id: nat, s: Slot)
    requires HostFenced(h) && id < |h.built| && SlotFenced(s) && s.run == h.built[id].run
    ensures HostFenced(h.(built := h.built[id := s]))
  {
  }

  lemma DeliverFenced(h: Host, channel: Channel, m: Message, now: real)
    requires HostFenced(h) && Fenced(m)
    ensures HostFenced(Deliver(h, channel, m, now))
  {
    FindFenced(h, m.key, now);
    var (g, id) := Find(h, m.key, now);
    if id.Some? && id.value < |g.built| {
      assert SlotFenced(g.built[id.value]);
      hide SlotFenced, Find, Receive, HostFenced, Fenced;
      ReceiveFenced(g.built[id.value], channel, m, g.limit);
      ReceiveKeepsRun(g.built[id.value], channel, m, g.limit);
      ReplaceFenced(g, id.value, Receive(g.built[id.value], channel, m, g.limit));
    }
  }

  lemma InstanceFenced(h: Host, id: nat, act: Act)
    requires HostFenced(h)
    ensures HostFenced(InstanceStep(h, id, act))
  {
    if id < |h.built| {
      ServeFenced(h.built[id], act);
      ReplaceFenced(h, id, Serve(h.built[id], act));
    }
  }

  /** Starting or ending a drop says nothing about streams. */
  lemma DropFenced(h: Host, id: nat, worker: Worker)
    requires HostFenced(h) && id < |h.built|
    ensures HostFenced(StartDrop(h, id, worker))
  {
    assert SlotFenced(StartDrop(h, id, worker).built[id]);
  }

  lemma EvictFenced(h: Host, run: string, worker: Worker)
    requires HostFenced(h)
    ensures HostFenced(Evict(h, run, worker))
  {
    if run in h.service && h.service[run] < |h.built| {
      DropFenced(h.(service := h.service - {run}), h.service[run], worker);
    }
  }

  lemma TakeRetiredFenced(h: Host, worker: Worker)
    requires HostFenced(h)
    ensures HostFenced(TakeRetired(h, worker))
  {
    if h.retired != [] && h.retired[0] < |h.built| {
      DropFenced(h.(retired := h.retired[1..]), h.retired[0], worker);
    }
  }

  lemma EndDropFenced(h: Host, worker: Worker)
    requires HostFenced(h)
    ensures HostFenced(EndDrop(h, worker))
  {
    if worker in h.busy && h.busy[worker] < |h.built| {
      assert SlotFenced(EndDrop(h, worker).built[h.busy[worker]]);
    }
  }

  lemma NextFenced(h: Host, e: Event)
    requires HostFenced(h) && (e.Feed? ==> Fenced(e.message))
    ensures HostFenced(Next(h, e))
  {
    match e
    case Feed(channel, m, now) => DeliverFenced(h, channel, m, now);
    case Instance(id, act) => InstanceFenced(h, id, act);
    case RunClosed(key) => EvictFenced(h, key.run, ClosedFeed);
    case SweepIdle(run) => EvictFenced(h, run, Sweeper);
    case Reap => TakeRetiredFenced(h, Reaper);
    case DropEnds(worker) => EndDropFenced(h, worker);
    case EvictNext =>
      if h.toEvict != [] {
        EvictFenced(h.(toEvict := h.toEvict[1..]), h.toEvict[0], Server);
      }
    case DrainNext => TakeRetiredFenced(h, Server);
    case _ =>
  }

  lemma EmitsFenced(h: Host, e: Event)
    requires HostFenced(h)
    ensures forall m :: m in Emits(h, e) ==> Fenced(m)
  {
    if e.Instance? && e.id < |h.built| {
      PublishedFenced(h.built[e.id], e.act);
    }
  }

  lemma HostStepFenced(s: System, h: nat, event: Event)
    requires SystemFenced(s) && h < |s.hosts| && (event.Feed? ==> event.message in s.sent)
    ensures SystemFenced(s.(hosts := s.hosts[h := Next(s.hosts[h], event)], sent := s.sent + Emits(s.hosts[h], event)))
  {
    NextFenced(s.hosts[h], event);
    EmitsFenced(s.hosts[h], event);
    hide HostFenced, Next, Emits;
  }

  lemma RunStepFenced(s: System, e: SystemEvent)
    requires SystemFenced(s) && !e.HostSteps? && !e.HostStarts?
    ensures SystemFenced(Step(s, e))
  {
    hide HostFenced, Next, Emits;
  }

  lemma StepFenced(s: System, e: SystemEvent)
    requires SystemFenced(s)
    ensures SystemFenced(Step(s, e))
  {
    hide HostFenced, Next, Emits, Runs.Put, Runs.Hear, Runs.HearFollowed;
    match e
    case HostSteps(h, event) =>
      if h < |s.hosts| && (event.Feed? ==> event.message in s.sent) {
        HostStepFenced(s, h, event);
      }
    case HostStarts(limit, retrySeconds) => NewHostFenced(limit, retrySeconds);
    case _ => RunStepFenced(s, e);
  }

  lemma NewHostFenced(limit: nat, retrySeconds: real)
    ensures HostFenced(Start(limit, retrySeconds))
  {
  }

  lemma {:induction false} ReachedFenced(p: Runs.Pipeline, events: seq<SystemEvent>)
    ensures SystemFenced(Reached(p, events))
  {
    if events != [] {
      ReachedFenced(p, events[..|events| - 1]);
      StepFenced(Reached(p, events[..|events| - 1]), events[|events| - 1]);
    }
  }

  // ---------------------------------------------------------------- time

  /** What later steps never take back: a run stays who it is, its stream
      never falls, and its live subscriptions keep their numbers. */
  ghost predicate Later(a: Runs.Run, b: Runs.Run)
  {
    && a.key == b.key && a.id == b.id && a.shared == b.shared
    && a.stream <= b.stream && a.subscribed <= b.subscribed
    && (b.following.Some? ==>
          b.following.value.number < b.subscribed
          && (a.following == b.following || b.following.value.number >= a.subscribed))
  }

  ghost predicate Numbered(r: Runs.Run)
  {
    r.following.Some? ==> r.following.value.number < r.subscribed
  }

  lemma PutIsLater(a: Runs.Run, p: Runs.Pipeline, mark: (int, int), item: Runs.Item)
    requires Numbered(a)
    ensures Later(a, Runs.Put(a, p, mark, item))
  {
  }

  lemma StepIsLater(s: System, e: SystemEvent, r: nat)
    requires r < |s.runs| && Numbered(s.runs[r])
    ensures r < |Step(s, e).runs| && Later(s.runs[r], Step(s, e).runs[r])
  {
    hide Next, Emits, Runs.Put, Runs.Stamped, Runs.OnWire;
    if e.RunPublishes? {
      PutIsLater(s.runs[r], s.pipeline, e.mark, e.item);
    }
  }

  lemma {:induction false} ReachedNumbered(p: Runs.Pipeline, events: seq<SystemEvent>, r: nat)
    requires r < |Reached(p, events).runs|
    ensures Numbered(Reached(p, events).runs[r])
  {
    var before := Reached(p, events[..|events| - 1]);
    if r < |before.runs| {
      ReachedNumbered(p, events[..|events| - 1], r);
      StepIsLater(before, events[|events| - 1], r);
    }
  }

  lemma {:induction false} ReachedIsLater(p: Runs.Pipeline, events: seq<SystemEvent>, more: seq<SystemEvent>, r: nat)
    requires r < |Reached(p, events).runs|
    ensures r < |Reached(p, events + more).runs|
    ensures Later(Reached(p, events).runs[r], Reached(p, events + more).runs[r])
  {
    if more == [] {
      assert events + more == events;
      ReachedNumbered(p, events, r);
    } else {
      hide Step;
      var front := more[..|more| - 1];
      ReachedIsLater(p, events, front, r);
      assert (events + more)[..|events + more| - 1] == events + front;
      StepIsLater(Reached(p, events + front), more[|more| - 1], r);
    }
  }

  // ---------------------------------------------------------------- the theorems

  /** The event stores `m` in the run's `latest` as one of its own results. */
  ghost predicate Stores(s: System, e: SystemEvent, r: nat, m: Message)
  {
    e == RunHears(r, m) && Hearable(s, r, m) && Runs.Kept(s.runs[r], m)
  }

  /** Whatever a run keeps of its own results was computed from frames of this
      very run: not one of an earlier run of the same key, answers included. */
  lemma OnlyThisRun(p: Runs.Pipeline, events: seq<SystemEvent>, e: SystemEvent, r: nat, m: Message)
    requires Stores(Reached(p, events), e, r, m)
    ensures var run := Reached(p, events).runs[r];
            forall o :: o in m.sources ==> o.key.run == run.key && o.key.runId == run.id
  {
    ReachedFenced(p, events);
  }

  /** The fence, over whole runs of the system: once a run's stream number is
      what it is after `events`, nothing it stores afterwards without having
      been asked was computed from one of its frames with a smaller number. */
  lemma FenceHolds(p: Runs.Pipeline, events: seq<SystemEvent>, more: seq<SystemEvent>, e: SystemEvent, r: nat, m: Message)
    requires r < |Reached(p, events).runs|
    requires Stores(Reached(p, events + more), e, r, m)
    requires m.requestId == None && !m.unfenced
    ensures forall o :: o in m.sources ==> o.key.stream >= Reached(p, events).runs[r].stream
  {
    ReachedIsLater(p, events, more, r);
    ReachedFenced(p, events + more);
  }

  /** A message off a live subscription the run has left is refused, for good:
      numbers of subscriptions are never given twice. */
  lemma LeftoversAreRefused(p: Runs.Pipeline, events: seq<SystemEvent>, more: seq<SystemEvent>, r: nat, number: nat, m: Message, frames: Class)
    requires r < |Reached(p, events).runs|
    requires var run := Reached(p, events).runs[r];
             number < run.subscribed && (run.following.Some? ==> run.following.value.number != number)
    ensures Step(Reached(p, events + more), RunHearsFollowed(r, number, m, frames)) == Reached(p, events + more)
  {
    ReachedIsLater(p, events, more, r);
    RefusedHere(Reached(p, events + more), r, number, m, frames);
  }

  lemma RefusedHere(s: System, r: nat, number: nat, m: Message, frames: Class)
    requires r < |s.runs| && (s.runs[r].following.Some? ==> s.runs[r].following.value.number != number)
    ensures Step(s, RunHearsFollowed(r, number, m, frames)) == s
  {
    assert s.runs[r := s.runs[r]] == s.runs;
  }

  /** What a run takes from the live run it follows was computed from frames of
      that run only. */
  lemma FollowedIsLive(p: Runs.Pipeline, events: seq<SystemEvent>, r: nat, number: nat, m: Message)
    requires var s := Reached(p, events);
             && FollowedHearable(s, r, number, m)
             && s.runs[r].following.Some? && s.runs[r].following.value.number == number
    ensures forall o :: o in m.sources ==> o.key.run == Reached(p, events).runs[r].following.value.key
  {
    ReachedFenced(p, events);
  }

  /** Whoever is followed is a live run. */
  ghost predicate FollowsLive(r: Runs.Run)
  {
    r.following.Some? ==> Runs.LiveKey("") <= r.following.value.key
  }

  lemma StepFollowsLive(s: System, e: SystemEvent, r: nat)
    requires r < |Step(s, e).runs| && (r < |s.runs| ==> FollowsLive(s.runs[r]))
    ensures FollowsLive(Step(s, e).runs[r])
  {
    hide Next, Emits, Runs.Stamped, Runs.OnWire;
  }

  lemma {:induction false} ReachedFollowsLive(p: Runs.Pipeline, events: seq<SystemEvent>, r: nat)
    requires r < |Reached(p, events).runs|
    ensures FollowsLive(Reached(p, events).runs[r])
  {
    if events != [] {
      hide Step;
      var before := Reached(p, events[..|events| - 1]);
      if r < |before.runs| {
        ReachedFollowsLive(p, events[..|events| - 1], r);
      }
      StepFollowsLive(before, events[|events| - 1], r);
    }
  }

  /** So a run whose key is no live run's takes no frame of its own that way, of
      an older stream or any other. */
  lemma FollowedIsNeverOwn(p: Runs.Pipeline, events: seq<SystemEvent>, r: nat, number: nat, m: Message)
    requires var s := Reached(p, events);
             && FollowedHearable(s, r, number, m) && !(Runs.LiveKey("") <= s.runs[r].key)
             && s.runs[r].following.Some? && s.runs[r].following.value.number == number
    ensures forall o :: o in m.sources ==> o.key.run != Reached(p, events).runs[r].key
  {
    hide Reached;
    FollowedIsLive(p, events, r, number, m);
    ReachedFollowsLive(p, events, r);
  }

  /** A switch to or from a live run forgets every result kept so far. */
  lemma SwitchForgets(r: Runs.Run, p: Runs.Pipeline, mark: (int, int), item: Runs.Item)
    requires item.cls == p.status
    requires Runs.Target(r, item.live, item.source) !=
             (if r.following.None? then None else Some(r.following.value.key))
    ensures forall c :: c in Runs.Put(r, p, mark, item).latest && c in p.results ==> c == item.cls
  {
  }

  lemma ReachedOne(p: Runs.Pipeline, events: seq<SystemEvent>, e: SystemEvent)
    ensures Reached(p, events + [e]) == Step(Reached(p, events), e)
  {
    assert (events + [e])[..|events|] == events;
  }
}
