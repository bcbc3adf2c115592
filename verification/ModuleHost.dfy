/** The module host as an object: each method is one stretch of the host's code
    between two suspensions, proved against the step it is in `Hosts`. */
module ModuleHosts {
  import opened Keys
  import opened Wire
  import opened Subscriptions
  import opened Hosts
  import opened HostLifecycle

  lemma FailIs(h: Host, id: nat, now: real)
    requires id < |h.built| && h.built[id].alive && !h.built[id].ended
    ensures Emits(h, Instance(id, Fail(now))) == {Report(ErrorReport, h.built[id].key)}
    ensures Next(h, Instance(id, Fail(now))) ==
            Retire(h.(built := h.built[id := h.built[id].(alive := false)],
                      retryAt := h.retryAt[h.built[id].run := now + h.retrySeconds]), id)
  {
    hide Retire;
  }

  class ModuleHost {
    const limit: nat
    const retrySeconds: real
    var built: seq<Slot>
    var service: map<string, nat>
    var retired: seq<nat>
    var retryAt: map<string, real>
    var busy: map<Worker, nat>
    var phase: Phase
    var toEvict: seq<string>

    ghost function State(): Host
      reads this
    {
      Host(limit, retrySeconds, built, service, retired, retryAt, busy, phase, toEvict)
    }

    /** What holds of every host, in every interleaving. */
    ghost predicate Valid()
      reads this
    {
      Sound(State())
    }

    /** Every run in service has the slot it names. */
    ghost predicate InRange()
      reads this
    {
      && (forall r :: r in service ==> service[r] < |built| && built[service[r]].run == r)
      && (forall i :: i in retired ==> i < |built|)
      && (forall w :: w in busy ==> busy[w] < |built|)
    }

    constructor (limit: nat, retrySeconds: real)
      ensures Valid() && State() == Start(limit, retrySeconds)
    {
      this.limit, this.retrySeconds := limit, retrySeconds;
      built, service, retired, retryAt := [], map[], [], map[];
      busy, phase, toEvict := map[], Serving, [];
    }

    lemma Ranged()
      requires Valid()
      ensures InRange()
    {
    }

    /** The slot a key's message is for, built on the first message of a run. */
    method SlotFor(key: StreamKey, now: real) returns (id: Option<nat>)
      requires Valid() && phase in {Serving, Stopping}
      modifies `built, `service, `retired, `retryAt
      ensures Valid() && (State(), id) == Find(old(State()), key, now)
      ensures id.Some? ==> id.value < |built| && built[id.value].run == key.run && built[id.value].runId == key.runId
    {
      FindSound(State(), key, now);
      hide Sound;
      Ranged();
      if key.run in service {
        var held := service[key.run];
        if key.runId == built[held].runId {
          return Some(held);
        }
        if key.runId < built[held].runId {
          return None;
        }
        RetireSlot(held);
      }
      if key.run in retryAt && now < retryAt[key.run] {
        return None;
      }
      retryAt := retryAt - {key.run};
      id := Some(|built|);
      service := service[key.run := |built|];
      built := built + [NewSlot(key)];
    }

    /** Out of service now; the reaper drops it. */
    method RetireSlot(id: nat)
      requires InRange() && id < |built|
      modifies `service, `retired
      ensures InRange() && State() == Retire(old(State()), id)
      ensures old(Valid()) && phase != Returned ==> Valid()
    {
      if built[id].run in service && service[built[id].run] == id {
        service := service - {built[id].run};
      }
      retired := retired + [id];
      if old(Valid()) && phase != Returned { RetireSound(old(State()), id); }
    }

    /** One message off a feed, into its slot. */
    method FeedOne(channel: Channel, m: Message, now: real)
      requires Valid() && (phase == Serving || phase == Stopping)
      modifies `built, `service, `retired, `retryAt
      ensures Valid() && State() == Next(old(State()), Feed(channel, m, now))
    {
      NextSound(State(), Feed(channel, m, now));
      hide Sound, Find, Receive;
      Ranged();
      var id := SlotFor(m.key, now);
      Ranged();
      if id.Some? {
        var slot := ReceiveAt(built[id.value], channel, m);
        built := built[id.value := slot];
      }
    }

    /** What a message does to its slot: a command waits its turn whatever its
        stream; an older stream's input is void; a newer one's clears the slot. */
    method ReceiveAt(s: Slot, channel: Channel, m: Message) returns (slot: Slot)
      ensures slot == Receive(s, channel, m, limit) && slot.run == s.run
    {
      slot := s;
      if channel == Commands {
        slot := slot.(commands := slot.commands + [m]);
        return;
      }
      if m.key.stream < slot.stream {
        return;
      }
      if m.key.stream > slot.stream {
        slot := slot.(key := m.key, stream := m.key.stream, inputs := [], join := map[], resetDue := true);
      }
      if channel == Join {
        slot := slot.(join := slot.join[m.cls := m]);
      } else {
        slot := slot.(inputs := Offered(slot.inputs, limit, m));
      }
    }

    /** `worker` starts dropping a slot that is out of service. */
    method StartDropping(id: nat, worker: Worker)
      requires InRange() && id < |built|
      modifies `built, `busy
      ensures InRange() && State() == StartDrop(old(State()), id, worker)
    {
      built := built[id := built[id].(dropped := true, drops := built[id].drops + 1)];
      busy := busy[worker := id];
    }

    /** Takes a run's slot, if it has one, out of service and into a drop. */
    method EvictRun(run: string, worker: Worker)
      requires Valid() && worker !in busy && phase !in {Draining, Returned} && (phase == Evicting ==> worker == Server)
      modifies `built, `service, `busy
      ensures Valid() && State() == Evict(old(State()), run, worker)
    {
      EvictSound(State(), run, worker);
      hide Sound;
      Ranged();
      if run in service {
        var id := service[run];
        service := service - {run};
        StartDropping(id, worker);
      }
    }

    /** A run said it closed: its instance goes, unless it is a newer run's. */
    method ClosedOne(key: StreamKey)
      requires Valid() && phase == Serving && ClosedFeed !in busy
      modifies `built, `service, `busy
      ensures Valid() && State() == Next(old(State()), RunClosed(key))
    {
      NextSound(State(), RunClosed(key));
      hide Sound;
      Ranged();
      if key.run in service {
        if key.runId == 0 || key.runId >= built[service[key.run]].runId {
          EvictRun(key.run, ClosedFeed);
        }
      }
    }

    /** The next retired slot, dropped unless that is under way or done. */
    method ReapOne(worker: Worker)
      requires Valid() && retired != [] && worker !in busy && phase != Returned
      requires phase in {Evicting, Draining} ==> worker == Server
      modifies `built, `retired, `busy
      ensures Valid() && State() == TakeRetired(old(State()), worker)
    {
      TakeRetiredSound(State(), worker);
      hide Sound;
      Ranged();
      var id := retired[0];
      assert id in retired;
      assert forall i :: i in retired[1..] ==> i in retired;
      retired := retired[1..];
      if !built[id].dropped {
        StartDropping(id, worker);
      }
    }

    /** The drop `worker` is in ends: what was set up is torn down. */
    method FinishDropping(worker: Worker)
      requires Valid() && worker in busy
      modifies `built, `busy
      ensures Valid() && State() == EndDrop(old(State()), worker)
    {
      EndDropSound(State(), worker);
      hide Sound;
      Ranged();
      var id := busy[worker];
      busy := busy - {worker};
      var slot := built[id].(alive := false, ended := true);
      if slot.setUp {
        slot := slot.(tearDowns := slot.tearDowns + 1);
      }
      built := built[id := slot];
    }

    /** An instance's task failed: that is reported under the slot's key as it is
        now, the run is left alone for a while, and the instance retired, whatever
        has become of it meanwhile. */
    method FailOne(id: nat, now: real) returns (published: set<Message>)
      requires Valid() && id < |built| && built[id].alive && !built[id].ended
      modifies `built, `service, `retired, `retryAt
      ensures Valid() && State() == Next(old(State()), Instance(id, Fail(now)))
      ensures published == Emits(old(State()), Instance(id, Fail(now)))
    {
      NextSound(State(), Instance(id, Fail(now)));
      hide Sound;
      Ranged();
      published := {Report(ErrorReport, built[id].key)};
      retryAt := retryAt[built[id].run := now + retrySeconds];
      built := built[id := built[id].(alive := false)];
      FailIs(old(State()), id, now);
      hide Retire, Next, Emits;
      RetireSlot(id);
    }

    // -------------------------------------------------------------- an instance's task

    /** The instance is set up, and says that it has started. */
    method SetUpDone(id: nat) returns (published: set<Message>)
      requires Valid() && id < |built| && built[id].alive && !built[id].ended
      modifies `built
      ensures Valid() && State() == Next(old(State()), Instance(id, SetUp))
      ensures published == Emits(old(State()), Instance(id, SetUp))
    {
      NextSound(State(), Instance(id, SetUp));
      hide Sound;
      Ranged();
      published := if built[id].setUp then {} else {Report(StartedNotice, built[id].key)};
      built := built[id := built[id].(setUp := true)];
    }

    /** The next input is taken, under the slot's key as it is now; a reset that
        is due is the instance's next work, and is due no more. */
    method TakeInput(id: nat) returns (reset: bool)
      requires Valid() && id < |built| && built[id].alive && built[id].setUp && !built[id].ended
      requires built[id].call.Idle? && built[id].inputs != []
      modifies `built
      ensures Valid() && State() == Next(old(State()), Instance(id, Dequeue)) && reset == old(built[id].resetDue)
      ensures built[id].call == Taken(old(built[id].key), old(built[id].inputs[0]), reset)
      ensures built[id].inputs == old(built[id].inputs[1..]) && !built[id].resetDue
    {
      NextSound(State(), Instance(id, Dequeue));
      hide Sound;
      Ranged();
      var slot := built[id];
      reset := slot.resetDue;
      slot := slot.(inputs := slot.inputs[1..], call := Taken(slot.key, slot.inputs[0], reset));
      if reset {
        slot := slot.(resetDue := false);
      }
      built := built[id := slot];
    }

    /** The reset is over; one that failed leaves the instance as it was, and is
        reported under the key of the input it was for. */
    method ResetDone(id: nat, ok: bool) returns (published: set<Message>)
      requires Valid() && id < |built| && built[id].alive && !built[id].ended && built[id].call.Taken? && built[id].call.resetting
      modifies `built
      ensures Valid() && State() == Next(old(State()), Instance(id, ResetEnds(ok)))
      ensures published == Emits(old(State()), Instance(id, ResetEnds(ok)))
    {
      NextSound(State(), Instance(id, ResetEnds(ok)));
      hide Sound;
      Ranged();
      var slot := built[id];
      published := if ok then {} else {Report(ErrorReport, slot.call.key)};
      slot := slot.(call := Taken(slot.call.key, slot.call.input, false), unfenced := !ok);
      if ok {
        slot := slot.(memory := {});
      }
      built := built[id := slot];
    }

    /** The next command is handled, between calls: the instance may keep something
        of it, and a refusal or a failure is reported, as its answer. */
    method HandleCommand(id: nat, kept: bool, reported: bool) returns (published: set<Message>)
      requires Valid() && id < |built| && !built[id].ended && TakesCommand(built[id])
      modifies `built
      ensures Valid() && State() == Next(old(State()), Instance(id, TakeCommand(kept, reported)))
      ensures published == Emits(old(State()), Instance(id, TakeCommand(kept, reported)))
    {
      NextSound(State(), Instance(id, TakeCommand(kept, reported)));
      hide Sound;
      Ranged();
      var slot := built[id];
      var command := slot.commands[0];
      slot := slot.(commands := slot.commands[1..]);
      if kept {
        slot := slot.(settings := slot.settings + command.sources);
      }
      published := if reported then {Message(ErrorReport, slot.key, command.requestId, {}, false)} else {};
      built := built[id := slot];
    }

    /** The call is over: its outputs go out under the key its input came with. */
    method FinishCall(id: nat, outputs: seq<(Class, Option<string>)>, failed: bool) returns (published: set<Message>)
      requires Valid() && id < |built| && built[id].alive && !built[id].ended && built[id].call.Running?
      modifies `built
      ensures Valid() && State() == Next(old(State()), Instance(id, Finish(outputs, failed)))
      ensures published == Emits(old(State()), Instance(id, Finish(outputs, failed)))
    {
      NextSound(State(), Instance(id, Finish(outputs, failed)));
      hide Sound;
      Ranged();
      var slot := built[id];
      published := {};
      var i := 0;
      while i < |outputs|
        invariant i <= |outputs|
        invariant published == set o | o in outputs[..i] :: Output(slot, o)
      {
        assert outputs[..i + 1] == outputs[..i] + [outputs[i]];
        published := published + {Output(slot, outputs[i])};
        i := i + 1;
      }
      assert outputs[..i] == outputs;
      if failed {
        published := published + {Report(ErrorReport, slot.call.key)};
      }
      built := built[id := slot.(call := Idle)];
    }

    // -------------------------------------------------------------- the end

    /** `serve` on its way out: the next run in service is evicted. */
    method EvictOnTheWayOut()
      requires Valid() && phase == Evicting && Server !in busy && toEvict != []
      modifies `built, `service, `busy, `toEvict
      ensures Valid() && State() == Next(old(State()), EvictNext)
    {
      NextSound(State(), EvictNext);
      EvictNextIs(State());
      hide Sound, Next, Evict;
      EvictRun(toEvict[0], Server);
      toEvict := toEvict[1..];
    }

    /** And then the next of the retired, which may be dropped already. */
    method DrainOne()
      requires Valid() && phase == Draining && Server !in busy && retired != []
      modifies `built, `retired, `busy
      ensures Valid() && State() == Next(old(State()), DrainNext)
    {
      ReapOne(Server);
    }

    /** Forgets the waits that are over. */
    method SweepWaits(now: real)
      requires Valid() && phase == Serving
      modifies `retryAt
      ensures Valid() && State() == Next(old(State()), SweepRetries(now))
    {
      NextSound(State(), SweepRetries(now));
      hide Sound;
      Ranged();
      var expired := set r | r in retryAt && retryAt[r] <= now;
      while expired != {}
        invariant expired <= retryAt.Keys <= old(retryAt).Keys
        invariant forall r :: r in retryAt ==> retryAt[r] == old(retryAt)[r]
        invariant forall r :: r in expired ==> retryAt[r] <= now
        invariant forall r :: r in old(retryAt) && (r !in retryAt || r in expired) ==> old(retryAt)[r] <= now
        invariant forall r :: r in retryAt && r !in expired ==> retryAt[r] > now
        decreases expired
      {
        var r :| r in expired;
        expired := expired - {r};
        retryAt := retryAt - {r};
      }
      assert retryAt == map r | r in old(retryAt) && old(retryAt)[r] > now :: old(retryAt)[r];
    }
  }
}
