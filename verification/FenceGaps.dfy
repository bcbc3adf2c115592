/** Where the fence does not reach: three runs of the system in which a result
    computed from frames before a seek is kept after it, and nobody asked. */
module FenceGaps {
  import opened Keys
  import opened Wire
  import opened Hosts
  import opened Fence
  import Runs

  const FRAMES: Class := Model(0)
  const RESULTS: Class := Model(1)
  const ORDERS: Class := Model(3)      // what one module commands another
  const DEMO := Runs.Pipeline({FRAMES}, {RESULTS}, Model(2))
  const CURSOR := Runs.Item(FRAMES, false, "", true)

  /** The key and the frame of run "a", its id 1, in a stream. */
  function FrameOf(stream: nat): Message
    requires stream > 0
  {
    var key := StreamKey("a", 1, stream);
    Message(FRAMES, key, None, {Origin(key, stream - 1)}, false)
  }

  /** A kept result computed from a frame of a stream before the run's. */
  ghost predicate Stale(s: System, m: Message)
  {
    && Stores(s, RunHears(0, m), 0, m) && m.requestId == None
    && exists o :: o in m.sources && o.key.run == s.runs[0].key && o.key.runId == s.runs[0].id
                   && o.key.stream < s.runs[0].stream
  }

  /** The host's slot, once it is built and set up. */
  function SlotAt(stream: nat): Slot
    requires stream > 0
  {
    NewSlot(StreamKey("a", 1, 1)).(setUp := true, key := StreamKey("a", 1, stream), stream := stream)
  }

  function HostWith(s: Slot): Host
  {
    Start(8, 5.0).(built := [s], service := map["a" := 0])
  }

  /** The system with one run, and one slot in host `h`. */
  ghost predicate At(s: System, h: nat, stream: nat, slot: Slot)
  {
    && s.pipeline == DEMO && |s.runs| == 1 && h < |s.hosts| && s.hosts[h] == HostWith(slot)
    && s.runs[0].key == "a" && s.runs[0].id == 1 && !s.runs[0].shared
    && s.runs[0].stream == stream && s.runs[0].serial == stream && s.runs[0].mark == Some((1, stream))
    && (forall k: nat :: 0 < k <= stream ==> FrameOf(k) in s.sent)
  }

  lemma HostOneAct(slot: Slot, act: Act)
    requires !act.Fail? && !slot.ended
    ensures Next(HostWith(slot), Instance(0, act)) == HostWith(Serve(slot, act))
  {
    assert [slot][0 := Serve(slot, act)] == [Serve(slot, act)];
  }

  lemma HostOneArrival(slot: Slot, channel: Channel, m: Message)
    requires slot.run == "a" == m.key.run && slot.runId == m.key.runId
    ensures Next(HostWith(slot), Feed(channel, m, 0.0)) == HostWith(Receive(slot, channel, m, 8))
  {
    assert [slot][0 := Receive(slot, channel, m, 8)] == [Receive(slot, channel, m, 8)];
  }

  lemma HostFirstArrival(m: Message)
    requires m.key.run == "a"
    ensures Next(Start(8, 5.0), Feed(Inputs, m, 0.0)) == HostWith(Receive(NewSlot(m.key), Inputs, m, 8))
  {
    var h := Start(8, 5.0);
    var s := NewSlot(m.key);
    var service: map<string, nat> := map[];
    assert h.retryAt - {"a"} == map[] && service["a" := 0] == map["a" := 0] && [] + [s] == [s];
    assert Find(h, m.key, 0.0) == (HostWith(s), Some(0));
    HostOneArrival(s, Inputs, m);
  }

  /** From nothing to one frame of the first stream waiting in the instance. */
  lemma FirstFrame() returns (events: seq<SystemEvent>)
    ensures At(Reached(DEMO, events), 0, 1, SlotAt(1).(inputs := [FrameOf(1)]))
  {
    events := [];
    var s0 := Reached(DEMO, events);
    ReachedOne(DEMO, events, HostStarts(8, 5.0));
    events := events + [HostStarts(8, 5.0)];
    ReachedOne(DEMO, events, RunStarts("a", false, 0));
    events := events + [RunStarts("a", false, 0)];
    ReachedOne(DEMO, events, RunPublishes(0, (1, 1), CURSOR));
    events := events + [RunPublishes(0, (1, 1), CURSOR)];
    var s3 := Reached(DEMO, events);
    assert s3.sent == {FrameOf(1)};
    ReachedOne(DEMO, events, HostSteps(0, Feed(Inputs, FrameOf(1), 0.0)));
    events := events + [HostSteps(0, Feed(Inputs, FrameOf(1), 0.0))];
    HostFirstArrival(FrameOf(1));
    assert [] + [FrameOf(1)] == [FrameOf(1)];
    var s4 := Reached(DEMO, events);
    assert s4.hosts[0] == HostWith(SlotAt(1).(inputs := [FrameOf(1)], setUp := false));
    HostOneAct(SlotAt(1).(inputs := [FrameOf(1)], setUp := false), SetUp);
    ReachedOne(DEMO, events, HostSteps(0, Instance(0, SetUp)));
    events := events + [HostSteps(0, Instance(0, SetUp))];
  }

  /** What was sent is never taken back. */
  lemma SentGrows(s: System, e: SystemEvent)
    ensures s.sent <= Step(s, e).sent
  {
    hide Next, Emits, Runs.Put, Runs.Hear, Runs.HearFollowed;
  }

  /** One act of the slot. */
  lemma OneAct(events: seq<SystemEvent>, h: nat, stream: nat, slot: Slot, act: Act) returns (more: seq<SystemEvent>)
    requires At(Reached(DEMO, events), h, stream, slot) && !act.Fail? && !slot.ended
    ensures At(Reached(DEMO, more), h, stream, Serve(slot, act))
    ensures Reached(DEMO, events).sent <= Reached(DEMO, more).sent
    ensures forall m :: m in Published(slot, act) ==> m in Reached(DEMO, more).sent
  {
    var e := HostSteps(h, Instance(0, act));
    ReachedOne(DEMO, events, e);
    more := events + [e];
    SentGrows(Reached(DEMO, events), e);
    HostOneAct(slot, act);
    hide Serve, Published, Next;
  }

  /** The run's next frame is of a new stream. */
  lemma RunSeeks(s: System, h: nat, stream: nat, slot: Slot)
    requires At(s, h, stream, slot)
    ensures var v := Step(s, RunPublishes(0, (1, stream + 1), CURSOR));
            At(v.(runs := s.runs), h, stream, slot) && At(v, h, stream + 1, slot)
  {
    var v := Step(s, RunPublishes(0, (1, stream + 1), CURSOR));
    var marked := Runs.Marked(s.runs[0], (1, stream + 1));
    assert Runs.Stamped(marked, CURSOR) == FrameOf(stream + 1);
    assert v.runs[0] == Runs.Put(s.runs[0], DEMO, (1, stream + 1), CURSOR);
    assert v.sent == s.sent + {FrameOf(stream + 1)};
    hide HostWith, FrameOf;
  }

  /** A message that was sent reaches the slot. */
  lemma OneArrival(events: seq<SystemEvent>, h: nat, stream: nat, slot: Slot, channel: Channel, m: Message)
    returns (more: seq<SystemEvent>)
    requires At(Reached(DEMO, events), h, stream, slot) && slot.run == "a" == m.key.run && slot.runId == 1 == m.key.runId
    requires m in Reached(DEMO, events).sent
    ensures At(Reached(DEMO, more), h, stream, Receive(slot, channel, m, 8))
    ensures Reached(DEMO, events).sent <= Reached(DEMO, more).sent
  {
    var e := HostSteps(h, Feed(channel, m, 0.0));
    ReachedOne(DEMO, events, e);
    more := events + [e];
    SentGrows(Reached(DEMO, events), e);
    HostOneArrival(slot, channel, m);
    hide Receive, HostWith, Next;
  }

  /** A seek, seen by the run. */
  lemma RunSought(events: seq<SystemEvent>, h: nat, stream: nat, slot: Slot) returns (more: seq<SystemEvent>)
    requires At(Reached(DEMO, events), h, stream, slot)
    ensures At(Reached(DEMO, more), h, stream + 1, slot)
    ensures Reached(DEMO, events).sent <= Reached(DEMO, more).sent
  {
    hide At, Step, Reached;
    var e := RunPublishes(0, (1, stream + 1), CURSOR);
    ReachedOne(DEMO, events, e);
    SentGrows(Reached(DEMO, events), e);
    RunSeeks(Reached(DEMO, events), h, stream, slot);
    more := events + [e];
  }

  lemma FrameIsSent(s: System, h: nat, stream: nat, slot: Slot)
    requires At(s, h, stream, slot) && stream > 0
    ensures FrameOf(stream) in s.sent
  {
  }

  /** And by the slot. */
  lemma Seek(events: seq<SystemEvent>, stream: nat, slot: Slot) returns (more: seq<SystemEvent>)
    requires At(Reached(DEMO, events), 0, stream, slot) && slot.run == "a" && slot.runId == 1
    ensures At(Reached(DEMO, more), 0, stream + 1, Receive(slot, Inputs, FrameOf(stream + 1), 8))
  {
    hide At, Receive, Reached;
    more := RunSought(events, 0, stream, slot);
    FrameIsSent(Reached(DEMO, more), 0, stream + 1, slot);
    more := OneArrival(more, 0, stream + 1, slot, Inputs, FrameOf(stream + 1));
  }

  /** One frame processed, then a seek, with the new stream's first frame
      waiting: what the slot remembers is of the old stream. */
  lemma Sought() returns (events: seq<SystemEvent>, slot: Slot)
    ensures At(Reached(DEMO, events), 0, 2, slot)
    ensures slot.run == "a" && slot.runId == 1 && slot.stream == 2 && slot.key == StreamKey("a", 1, 2)
    ensures slot.setUp && slot.alive && !slot.ended && slot.call == Idle && slot.resetDue
    ensures slot.inputs == [FrameOf(2)] && Origin(StreamKey("a", 1, 1), 0) in slot.memory
  {
    hide At, Reached;
    events := FirstFrame();
    slot := SlotAt(1).(inputs := [FrameOf(1)]);
    events := OneAct(events, 0, 1, slot, Dequeue);
    events := OneAct(events, 0, 1, Serve(slot, Dequeue), Begin({}));
    events := OneAct(events, 0, 1, Serve(Serve(slot, Dequeue), Begin({})), Finish([], false));
    ProcessedOne(slot);
    slot := Serve(Serve(Serve(slot, Dequeue), Begin({})), Finish([], false));
    hide Serve, SlotAt;
    events := Seek(events, 1, slot);
    slot := Receive(slot, Inputs, FrameOf(2), 8);
    assert [] + [FrameOf(2)] == [FrameOf(2)];
  }

  lemma ProcessedOne(slot: Slot)
    requires slot == SlotAt(1).(inputs := [FrameOf(1)])
    ensures var t := Serve(Serve(Serve(slot, Dequeue), Begin({})), Finish([], false));
            && t.run == "a" && t.runId == 1 && t.stream == 1 && t.setUp && t.alive && !t.ended && t.call == Idle
            && Origin(StreamKey("a", 1, 1), 0) in t.memory
  {
    var t := Serve(slot, Dequeue);
    assert t.call == Taken(t.key, FrameOf(1), false);
    assert FrameOf(1) in Bundle(t, FrameOf(1), {});
  }

  lemma StaleAt(events: seq<SystemEvent>, h: nat, slot: Slot, m: Message)
    requires At(Reached(DEMO, events), h, 2, slot) && m in Reached(DEMO, events).sent
    requires m.cls == RESULTS && m.key == StreamKey("a", 1, 2) && m.requestId == None
    requires Origin(StreamKey("a", 1, 1), 0) in m.sources
    ensures Stale(Reached(DEMO, events), m)
  {
    hide Reached;
  }

  /** An instance answers a command after the seek, before its reset (which
      waits for the next input), with a message that carries no request id: it
      goes out under the new key, and is kept. */
  lemma AnAnswerSlipsThrough()
    ensures exists events, m :: Stale(Reached(DEMO, events), m)
  {
    hide At, Reached, Stale;
    var events, slot := Sought();
    var act := Answer(RESULTS, None);
    events := OneAct(events, 0, 2, slot, act);
    var m := Message(RESULTS, slot.key, None, slot.memory + slot.settings, true);
    assert m in Published(slot, act);
    StaleAt(events, 0, Serve(slot, act), m);
  }

  lemma ResetFailed(slot: Slot)
    requires slot.setUp && slot.alive && slot.call == Idle && slot.resetDue && slot.inputs == [FrameOf(2)]
    requires slot.key == StreamKey("a", 1, 2) && !slot.ended
    ensures var t := Serve(Serve(Serve(slot, Dequeue), ResetEnds(false)), Begin({}));
            && !t.ended && t.alive && t.call == Running(slot.key, FrameOf(2)) && slot.memory <= t.memory
  {
    var taken := Serve(slot, Dequeue);
    assert taken.call == Taken(slot.key, FrameOf(2), true);
    assert Serve(taken, ResetEnds(false)).call == Taken(slot.key, FrameOf(2), false);
    hide Bundle;
  }

  /** A reset that fails is reported, and the next input is processed by the
      instance as it was: its result goes out under the new key, and is kept. */
  lemma AFailedResetSlipsThrough()
    ensures exists events, m :: Stale(Reached(DEMO, events), m)
  {
    hide At, Reached, Stale;
    var events, slot := Sought();
    ResetFailed(slot);
    events := OneAct(events, 0, 2, slot, Dequeue);
    assert !Serve(slot, Dequeue).ended && !Serve(Serve(slot, Dequeue), ResetEnds(false)).ended;
    hide Serve;
    events := OneAct(events, 0, 2, Serve(slot, Dequeue), ResetEnds(false));
    events := OneAct(events, 0, 2, Serve(Serve(slot, Dequeue), ResetEnds(false)), Begin({}));
    slot := Serve(Serve(Serve(slot, Dequeue), ResetEnds(false)), Begin({}));
    var act := Finish([(RESULTS, None)], false);
    events := OneAct(events, 0, 2, slot, act);
    var m := Output(slot, (RESULTS, None));
    assert (RESULTS, None) in act.outputs;
    assert m in Published(slot, act);
    StaleAt(events, 0, Serve(slot, act), m);
  }

  // ---------------------------------------------------------------- a setting

  /** A module sends another a command computed from the first stream's frame;
      then comes a seek. */
  lemma Commanded() returns (events: seq<SystemEvent>, slot: Slot, order: Message)
    ensures At(Reached(DEMO, events), 0, 2, slot) && order in Reached(DEMO, events).sent
    ensures order.key == StreamKey("a", 1, 1) && Origin(StreamKey("a", 1, 1), 0) in order.sources
  {
    hide At, Reached;
    events := FirstFrame();
    slot := SlotAt(1).(inputs := [FrameOf(1)]);
    events := OneAct(events, 0, 1, slot, Dequeue);
    events := OneAct(events, 0, 1, Serve(slot, Dequeue), Begin({}));
    RunsOne(slot);
    slot := Serve(Serve(slot, Dequeue), Begin({}));
    hide Serve, SlotAt;
    var act := Finish([(ORDERS, None)], false);
    assert (ORDERS, None) in act.outputs;
    order := Output(slot, (ORDERS, None));
    assert order in Published(slot, act);
    events := OneAct(events, 0, 1, slot, act);
    slot := Serve(slot, act);
    events := RunSought(events, 0, 1, slot);
  }

  lemma RunsOne(slot: Slot)
    requires slot == SlotAt(1).(inputs := [FrameOf(1)])
    ensures var t := Serve(Serve(slot, Dequeue), Begin({}));
            && t.alive && !t.ended && t.call == Running(StreamKey("a", 1, 1), FrameOf(1))
            && Origin(StreamKey("a", 1, 1), 0) in t.memory
  {
    var t := Serve(slot, Dequeue);
    assert t.call == Taken(t.key, FrameOf(1), false);
    assert FrameOf(1) in Bundle(t, FrameOf(1), {});
  }

  /** The other module's host first hears of the run when the second stream's
      frame arrives. */
  lemma OtherHost(events: seq<SystemEvent>, slot: Slot) returns (more: seq<SystemEvent>)
    requires At(Reached(DEMO, events), 0, 2, slot)
    ensures At(Reached(DEMO, more), |Reached(DEMO, events).hosts|, 2,
               Receive(NewSlot(StreamKey("a", 1, 2)), Inputs, FrameOf(2), 8))
    ensures Reached(DEMO, events).sent <= Reached(DEMO, more).sent
  {
    var s := Reached(DEMO, events);
    FrameIsSent(s, 0, 2, slot);
    var e1, e2 := HostStarts(8, 5.0), HostSteps(|s.hosts|, Feed(Inputs, FrameOf(2), 0.0));
    ReachedOne(DEMO, events, e1);
    SentGrows(s, e1);
    var t := Reached(DEMO, events + [e1]);
    ReachedOne(DEMO, events + [e1], e2);
    SentGrows(t, e2);
    HostFirstArrival(FrameOf(2));
    more := events + [e1] + [e2];
    hide Reached, Next, HostWith, Receive, NewSlot, FrameOf;
  }

  /** The command arrives after the seek, and is kept as a setting; the next
      result, though of the new stream's frame, is computed from it too. */
  lemma Ordered(order: Message) returns (slot: Slot)
    requires order.key == StreamKey("a", 1, 1)
    ensures var built := Receive(NewSlot(StreamKey("a", 1, 2)), Inputs, FrameOf(2), 8);
            && built.run == "a" && built.runId == 1 && !built.ended
            && slot == Receive(Serve(built, SetUp), Commands, order, 8)
            && Serve(built, SetUp).run == "a" && Serve(built, SetUp).runId == 1
    ensures !slot.ended && TakesCommand(slot) && slot.commands[0] == order && slot.alive
    ensures slot.inputs == [FrameOf(2)] && slot.call == Idle && !slot.resetDue && slot.key == StreamKey("a", 1, 2)
  {
    var built := Receive(NewSlot(StreamKey("a", 1, 2)), Inputs, FrameOf(2), 8);
    assert [] + [FrameOf(2)] == [FrameOf(2)];
    slot := Receive(Serve(built, SetUp), Commands, order, 8);
  }

  lemma Obeyed(slot: Slot)
    requires !slot.ended && TakesCommand(slot) && slot.alive && slot.inputs == [FrameOf(2)]
    requires slot.call == Idle && !slot.resetDue && slot.key == StreamKey("a", 1, 2)
    requires Origin(StreamKey("a", 1, 1), 0) in slot.commands[0].sources
    ensures var taken := Serve(slot, TakeCommand(true, false));
            var t := Serve(Serve(taken, Dequeue), Begin({}));
            && !taken.ended && !Serve(taken, Dequeue).ended && !t.ended && t.alive
            && t.call == Running(StreamKey("a", 1, 2), FrameOf(2))
            && Origin(StreamKey("a", 1, 1), 0) in t.settings
  {
    var taken := Serve(slot, TakeCommand(true, false));
    assert Serve(taken, Dequeue).call == Taken(slot.key, FrameOf(2), false);
    hide Bundle;
  }

  /** A command that one module computed from a frame before the seek reaches
      another after it; no reset failed and none is awaited, and yet the other's
      next result was computed from that frame, and is kept. */
  lemma ASettingSlipsThrough()
    ensures exists events, m :: Stale(Reached(DEMO, events), m)
  {
    hide At, Reached, Stale;
    var events, first, order := Commanded();
    var h := |Reached(DEMO, events).hosts|;
    events := OtherHost(events, first);
    var slot := Ordered(order);
    var built := Receive(NewSlot(StreamKey("a", 1, 2)), Inputs, FrameOf(2), 8);
    Obeyed(slot);
    hide Receive, NewSlot, FrameOf, TakesCommand, Serve;
    events := OneAct(events, h, 2, built, SetUp);
    events := OneArrival(events, h, 2, Serve(built, SetUp), Commands, order);
    var taken := Serve(slot, TakeCommand(true, false));
    events := OneAct(events, h, 2, slot, TakeCommand(true, false));
    events := OneAct(events, h, 2, taken, Dequeue);
    events := OneAct(events, h, 2, Serve(taken, Dequeue), Begin({}));
    slot := Serve(Serve(taken, Dequeue), Begin({}));
    var act := Finish([(RESULTS, None)], false);
    assert (RESULTS, None) in act.outputs;
    events := OneAct(events, h, 2, slot, act);
    var m := Output(slot, (RESULTS, None));
    assert m in Published(slot, act);
    StaleAt(events, h, Serve(slot, act), m);
  }
}
