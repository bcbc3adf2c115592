/** A module host: one instance of a module per run, fed off the transport.

    `Host` is a host's state and `Next` its steps, one per stretch of code
    between two suspensions; what the environment decides (which message
    arrives, when a call ends, when a task fails or is cancelled) is in the
    event. Slots are numbered in the order they are built, and a number stands
    for the object: `built` only grows, `service` says which slot a run has. */
module Hosts {
  import opened Keys
  import opened Wire
  import opened Subscriptions

  datatype Channel = Inputs | Join | Commands

  /** Where an instance is in serving its inputs. The key is the slot's when
      the input was taken off the queue. */
  datatype Call =
    | Idle
    | Taken(key: StreamKey, input: Message, resetting: bool)
    | Running(key: StreamKey, input: Message)

  datatype Slot = Slot(
    run: string,
    runId: int,
    key: StreamKey,
    stream: int,
    inputs: seq<Message>,
    join: map<Class, Message>,
    commands: seq<Message>,
    resetDue: bool,
    call: Call,
    memory: set<Origin>,      // what the inputs it remembers were computed from
    settings: set<Origin>,    // what the commands it keeps were computed from
    unfenced: bool,           // a reset failed, or such an input was read, since the last reset
    alive: bool,              // its task has not ended by itself
    setUp: bool,
    dropped: bool,
    drops: nat,
    ended: bool,              // its drop has run to its end
    tearDowns: nat)

  /** Who can be in the middle of dropping a slot: the feed of closed runs, the
      sweep, the reaper, and `serve` itself on its way out. */
  datatype Worker = ClosedFeed | Sweeper | Reaper | Server

  datatype Phase = Serving | Stopping | Evicting | Draining | Returned | Aborted

  datatype Host = Host(
    limit: nat,
    retrySeconds: real,
    built: seq<Slot>,
    service: map<string, nat>,
    retired: seq<nat>,
    retryAt: map<string, real>,
    busy: map<Worker, nat>,
    phase: Phase,
    toEvict: seq<string>)

  datatype Act =
    | SetUp
    | Fail(now: real)
    | Dequeue
    | ResetEnds(ok: bool)
    | Begin(used: set<Class>)
    | Finish(outputs: seq<(Class, Option<string>)>, failed: bool)
    | TakeCommand(kept: bool, reported: bool)
    | Answer(cls: Class, requestId: Option<string>)

  datatype Event =
    | Feed(channel: Channel, message: Message, now: real)
    | RunClosed(key: StreamKey)
    | SweepIdle(run: string)
    | SweepRetries(now: real)
    | Reap
    | DropEnds(worker: Worker)
    | Instance(id: nat, act: Act)
    | Stop
    | FeedsEnded(order: seq<string>)
    | EvictNext
    | ToDrain
    | DrainNext
    | Return
    | Interrupt

  // ---------------------------------------------------------------- one slot

  function NewSlot(key: StreamKey): Slot
  {
    Slot(key.run, key.runId, key, key.stream, [], map[], [], false, Idle, {}, {}, false,
         true, false, false, 0, false, 0)
  }

  /** A slot moves on to another stream of its run: it lets go of everything of
      the old one, and owes its instance a reset. */
  function NewStream(s: Slot, key: StreamKey): Slot
  {
    s.(key := key, stream := key.stream, inputs := [], join := map[], resetDue := true)
  }

  /** A message reaches its slot. */
  function Receive(s: Slot, channel: Channel, m: Message, limit: nat): Slot
  {
    if channel == Commands then s.(commands := s.commands + [m])
    else if m.key.stream < s.stream then s
    else
      var t := if m.key.stream > s.stream then NewStream(s, m.key) else s;
      if channel == Join then t.(join := t.join[m.cls := m])
      else t.(inputs := Offered(t.inputs, limit, m))
  }

  lemma ReceiveKeepsRun(s: Slot, channel: Channel, m: Message, limit: nat)
    ensures Receive(s, channel, m, limit).run == s.run && Receive(s, channel, m, limit).runId == s.runId
  {
    var t := if m.key.stream > s.stream then NewStream(s, m.key) else s;
    assert t.run == s.run && t.runId == s.runId;
    hide NewStream, Offered;
  }

  /** What a call reads: its input, and the join's newest of the classes used. */
  function Bundle(s: Slot, input: Message, used: set<Class>): set<Message>
  {
    {input} + set c | c in used && c in s.join :: s.join[c]
  }

  /** A command is handled between calls. What the instance keeps of it is a
      setting: a reset forgets the inputs, and leaves the settings. */
  predicate TakesCommand(s: Slot)
  {
    s.setUp && !s.call.Running? && s.commands != []
  }

  function Serve(s: Slot, act: Act): Slot
  {
    match act
    case SetUp => if s.alive then s.(setUp := true) else s
    case Dequeue =>
      if s.alive && s.setUp && s.call.Idle? && s.inputs != [] then
        s.(inputs := s.inputs[1..], call := Taken(s.key, s.inputs[0], s.resetDue), resetDue := false)
      else s
    case ResetEnds(ok) =>
      if s.alive && s.call.Taken? && s.call.resetting then
        s.(call := s.call.(resetting := false),
           memory := if ok then {} else s.memory,
           unfenced := !ok)
      else s
    case Begin(used) =>
      if s.alive && s.call.Taken? && !s.call.resetting then
        var bundle := Bundle(s, s.call.input, used);
        s.(call := Running(s.call.key, s.call.input),
           memory := s.memory + SourcesOf(bundle),
           unfenced := s.unfenced || exists m :: m in bundle && m.unfenced)
      else s
    case Finish(_, _) => if s.alive && s.call.Running? then s.(call := Idle) else s
    case TakeCommand(kept, _) =>
      if TakesCommand(s) then
        s.(commands := s.commands[1..], settings := if kept then s.settings + s.commands[0].sources else s.settings)
      else s
    case Answer(_, _) => s
    case Fail(_) => s.(alive := false)
  }

  /** The instance has yet to be reset for the stream it is to serve next. */
  predicate AwaitsReset(s: Slot)
  {
    s.resetDue || (s.call.Taken? && s.call.resetting)
  }

  /** A call's output. */
  function Output(s: Slot, o: (Class, Option<string>)): Message
    requires s.call.Running?
  {
    Message(o.0, s.call.key, o.1, s.memory + s.settings, s.unfenced || Older(s.settings, s.call.key.stream))
  }

  /** What a step of a slot publishes that was computed from what it remembers
      and its settings: a call's outputs under the key its input came with, and
      an answer, between calls, under the slot's key as it is now. An answer
      given while a reset is awaited crosses the fence, and so does anything that
      goes out under a later stream than a setting came from. */
  function Computed(s: Slot, act: Act): set<Message>
  {
    match act
    case Finish(outputs, _) =>
      if s.alive && s.call.Running? then
        set o | o in outputs :: Output(s, o)
      else {}
    case Answer(cls, requestId) =>
      if s.setUp && !s.call.Running? then
        {Message(cls, s.key, requestId, s.memory + s.settings,
                 s.unfenced || AwaitsReset(s) || Older(s.settings, s.key.stream))}
      else {}
    case _ => {}
  }

  function Report(cls: Class, key: StreamKey): Message
  {
    Message(cls, key, None, {}, false)
  }

  /** What it publishes about itself: that it started, that its task failed, and
      that a reset, a call or a command did. */
  function Reported(s: Slot, act: Act): set<Message>
  {
    match act
    case SetUp => if s.alive && !s.setUp then {Report(StartedNotice, s.key)} else {}
    case Fail(_) => if s.alive then {Report(ErrorReport, s.key)} else {}
    case ResetEnds(ok) => if !ok && s.alive && s.call.Taken? && s.call.resetting then {Report(ErrorReport, s.call.key)} else {}
    case TakeCommand(_, reported) =>
      if reported && TakesCommand(s) then {Report(ErrorReport, s.key).(requestId := s.commands[0].requestId)} else {}
    case Finish(_, failed) => if failed && s.alive && s.call.Running? then {Report(ErrorReport, s.call.key)} else {}
    case _ => {}
  }

  function Published(s: Slot, act: Act): set<Message>
  {
    Computed(s, act) + Reported(s, act)
  }

  // ---------------------------------------------------------------- the host

  /** The slot a message is for, built if its run has none or an older run's;
      none for an older run's message, and while the run is left alone. */
  function Find(h: Host, key: StreamKey, now: real): (Host, Option<nat>)
  {
    var held := if key.run in h.service && h.service[key.run] < |h.built| then Some(h.service[key.run]) else None;
    if held.Some? && key.runId == h.built[held.value].runId then (h, held)
    else if held.Some? && key.runId < h.built[held.value].runId then (h, None)
    else
      var g := if held.Some? then Retire(h, held.value) else h;
      if key.run in g.retryAt && now < g.retryAt[key.run] then (g, None)
      else (g.(retryAt := g.retryAt - {key.run},
               built := g.built + [NewSlot(key)],
               service := g.service[key.run := |g.built|]),
            Some(|g.built|))
  }

  /** Out of service now; the reaper drops it. */
  function Retire(h: Host, id: nat): Host
    requires id < |h.built|
  {
    var run := h.built[id].run;
    h.(service := if run in h.service && h.service[run] == id then h.service - {run} else h.service,
       retired := h.retired + [id])
  }

  function Deliver(h: Host, channel: Channel, m: Message, now: real): Host
  {
    var (g, id) := Find(h, m.key, now);
    if id.None? || id.value >= |g.built| then g
    else g.(built := g.built[id.value := Receive(g.built[id.value], channel, m, g.limit)])
  }

  /** `worker` starts dropping a slot. */
  function StartDrop(h: Host, id: nat, worker: Worker): Host
    requires id < |h.built|
  {
    var s := h.built[id];
    h.(built := h.built[id := s.(dropped := true, drops := s.drops + 1)], busy := h.busy[worker := id])
  }

  /** `worker` takes a run's slot out of service and starts dropping it. */
  function Evict(h: Host, run: string, worker: Worker): Host
  {
    if run in h.service && h.service[run] < |h.built| then
      StartDrop(h.(service := h.service - {run}), h.service[run], worker)
    else h
  }

  /** `worker` takes the next retired slot, and drops it unless that is done. */
  function TakeRetired(h: Host, worker: Worker): Host
  {
    if h.retired == [] then h else
      var g := h.(retired := h.retired[1..]);
      if h.retired[0] < |h.built| && !h.built[h.retired[0]].dropped then StartDrop(g, h.retired[0], worker) else g
  }

  /** A drop ends: the tasks are over, and what was set up is torn down. */
  function EndDrop(h: Host, worker: Worker): Host
  {
    if worker in h.busy && h.busy[worker] < |h.built| then
      var id := h.busy[worker];
      var s := h.built[id];
      h.(busy := h.busy - {worker},
         built := h.built[id := s.(alive := false, ended := true, tearDowns := s.tearDowns + if s.setUp then 1 else 0)])
    else h
  }

  function InstanceStep(h: Host, id: nat, act: Act): Host
  {
    if id >= |h.built| || h.built[id].ended then h
    else if act.Fail? then
      if h.built[id].alive then
        var g := h.(built := h.built[id := Serve(h.built[id], act)],
                    retryAt := h.retryAt[h.built[id].run := act.now + h.retrySeconds]);
        Retire(g, id)
      else h
    else h.(built := h.built[id := Serve(h.built[id], act)])
  }

  function Next(h: Host, e: Event): Host
  {
    match e
    case Feed(channel, m, now) => if h.phase == Serving || h.phase == Stopping then Deliver(h, channel, m, now) else h
    case RunClosed(key) =>
      if h.phase == Serving && ClosedFeed !in h.busy && key.run in h.service && h.service[key.run] < |h.built|
         && (key.runId == 0 || key.runId >= h.built[h.service[key.run]].runId)
      then Evict(h, key.run, ClosedFeed) else h
    case SweepIdle(run) => if h.phase == Serving && Sweeper !in h.busy then Evict(h, run, Sweeper) else h
    case SweepRetries(now) =>
      if h.phase == Serving then h.(retryAt := map r | r in h.retryAt && h.retryAt[r] > now :: h.retryAt[r]) else h
    case Reap => if h.phase == Serving && Reaper !in h.busy then TakeRetired(h, Reaper) else h
    case DropEnds(worker) => EndDrop(h, worker)
    case Instance(id, act) => InstanceStep(h, id, act)
    case Stop => if h.phase == Serving then h.(phase := Stopping) else h
    case FeedsEnded(order) =>
      if h.phase == Stopping && h.busy.Keys <= {Server} && (set r | r in order) == h.service.Keys
      then h.(phase := Evicting, toEvict := order) else h
    case EvictNext =>
      if h.phase == Evicting && Server !in h.busy && h.toEvict != []
      then Evict(h.(toEvict := h.toEvict[1..]), h.toEvict[0], Server) else h
    case ToDrain => if h.phase == Evicting && Server !in h.busy && h.toEvict == [] then h.(phase := Draining) else h
    case DrainNext => if h.phase == Draining && Server !in h.busy then TakeRetired(h, Server) else h
    case Return => if h.phase == Draining && Server !in h.busy && h.retired == [] then h.(phase := Returned) else h
    case Interrupt =>
      // Cancelled again: what it waits for just then still runs to its end, and
      // nothing more is evicted or drained.
      if h.phase in {Evicting, Draining} || (h.phase == Stopping && h.busy.Keys <= {Server})
      then h.(phase := Aborted) else h
  }

  function Emits(h: Host, e: Event): set<Message>
  {
    if e.Instance? && e.id < |h.built| && !h.built[e.id].ended then Published(h.built[e.id], e.act) else {}
  }

  function Start(limit: nat, retrySeconds: real): Host
  {
    Host(limit, retrySeconds, [], map[], [], map[], map[], Serving, [])
  }

  function After(h: Host, events: seq<Event>): Host
  {
    if events == [] then h else Next(After(h, events[..|events| - 1]), events[|events| - 1])
  }
}
