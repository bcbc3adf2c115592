/** Every instance a host builds is dropped exactly once, and torn down exactly
    once if its setup completed, however eviction, replacement, failure and
    shutdown race. */
module HostLifecycle {
  import opened Keys
  import opened Wire
  import opened Hosts
  import Subscriptions

  /** One slot's account: dropped at most once, torn down when the drop has
      ended and only if set up; and undropped only where someone will find it. */
  ghost predicate Accounted(h: Host, id: nat)
    requires id < |h.built|
  {
    var s := h.built[id];
    && s.drops == (if s.dropped then 1 else 0)
    && s.tearDowns == (if s.ended && s.setUp then 1 else 0)
    && (s.ended ==> s.dropped)
    && (!s.dropped ==> InService(h, id) || id in h.retired)
    && (s.dropped && !s.ended ==> exists w :: w in h.busy && h.busy[w] == id)
  }

  ghost predicate InService(h: Host, id: nat)
    requires id < |h.built|
  {
    h.built[id].run in h.service && h.service[h.built[id].run] == id
  }

  ghost predicate ServiceSound(h: Host)
  {
    forall r :: r in h.service ==>
      && h.service[r] < |h.built| && h.built[h.service[r]].run == r
      && !h.built[h.service[r]].dropped && h.service[r] !in h.retired
  }

  ghost predicate BusySound(h: Host)
  {
    && (forall w :: w in h.busy ==>
          h.busy[w] < |h.built| && h.built[h.busy[w]].dropped && !h.built[h.busy[w]].ended)
    && (forall v, w :: v in h.busy && w in h.busy && v != w ==> h.busy[v] != h.busy[w])
  }

  ghost predicate PhaseSound(h: Host)
  {
    && (h.phase == Evicting ==> forall r :: r in h.service ==> r in h.toEvict)
    && (h.phase in {Draining, Returned} ==> h.service == map[])
    && (h.phase in {Evicting, Draining, Returned} ==> h.busy.Keys <= {Server})
    && (h.phase == Returned ==> h.busy == map[] && forall id :: id in h.retired ==> id < |h.built| && h.built[id].dropped)
  }

  ghost predicate Sound(h: Host)
  {
    && (forall id :: 0 <= id < |h.built| ==> Accounted(h, id))
    && (forall id :: id in h.retired ==> id < |h.built|)
    && ServiceSound(h) && BusySound(h) && PhaseSound(h)
  }

  lemma RetireSound(h: Host, id: nat)
    requires Sound(h) && id < |h.built| && h.phase != Returned
    ensures Sound(Retire(h, id))
  {
    var g := Retire(h, id);
    forall i | 0 <= i < |g.built| ensures Accounted(g, i) {
      assert Accounted(h, i);
    }
  }

  /** A slot leaves service, or the retired queue, for a drop; `g` is the host
      with the slot taken out, before the drop has begun. */
  ghost predicate TakenOut(h: Host, g: Host, id: nat)
  {
    && g.built == h.built && g.busy == h.busy && g.phase == h.phase && g.toEvict == h.toEvict
    && (forall r :: r in g.service ==> r in h.service && g.service[r] == h.service[r] && g.service[r] != id)
    && (forall r :: r in h.service && h.service[r] != id ==> r in g.service)
    && (forall i :: i in g.retired ==> i in h.retired)
    && (forall i :: i in h.retired && i != id ==> i in g.retired)
  }

  lemma StartDropAccounts(h: Host, g: Host, id: nat, worker: Worker, i: nat)
    requires id < |h.built| && !h.built[id].dropped && TakenOut(h, g, id) && worker !in h.busy
    requires i < |h.built| && Accounted(h, i) && Accounted(h, id)
    ensures Accounted(StartDrop(g, id, worker), i)
  {
    var f := StartDrop(g, id, worker);
    if i == id {
      assert worker in f.busy && f.busy[worker] == i;
    } else if h.built[i].dropped && !h.built[i].ended {
      var w :| w in h.busy && h.busy[w] == i;
      assert w in f.busy && f.busy[w] == i;
    }
  }

  lemma StartDropBusy(h: Host, g: Host, id: nat, worker: Worker)
    requires id < |h.built| && !h.built[id].dropped && !h.built[id].ended && TakenOut(h, g, id) && worker !in h.busy
    requires ServiceSound(h) && BusySound(h)
    ensures ServiceSound(StartDrop(g, id, worker)) && BusySound(StartDrop(g, id, worker))
  {
  }

  lemma StartDropSound(h: Host, g: Host, id: nat, worker: Worker)
    requires Sound(h) && id < |h.built| && !h.built[id].dropped && TakenOut(h, g, id)
    requires worker !in h.busy && h.phase != Returned
    requires h.phase in {Evicting, Draining} ==> worker == Server
    ensures Sound(StartDrop(g, id, worker))
  {
    assert Accounted(h, id);
    forall i | 0 <= i < |g.built| ensures Accounted(StartDrop(g, id, worker), i) {
      assert Accounted(h, i);
      StartDropAccounts(h, g, id, worker, i);
    }
    StartDropBusy(h, g, id, worker);
    hide Accounted, ServiceSound, BusySound;
  }

  /** Out of service and into a drop, in one step. */
  lemma EvictSound(h: Host, run: string, worker: Worker)
    requires Sound(h) && worker !in h.busy && h.phase !in {Draining, Returned}
    requires h.phase == Evicting ==> worker == Server
    ensures Sound(Evict(h, run, worker))
  {
    if run in h.service {
      StartDropSound(h, h.(service := h.service - {run}), h.service[run], worker);
    }
  }

  lemma TakeRetiredSound(h: Host, worker: Worker)
    requires Sound(h) && worker !in h.busy && h.phase != Returned
    requires h.phase in {Evicting, Draining} ==> worker == Server
    ensures Sound(TakeRetired(h, worker))
  {
    if h.retired != [] {
      var id := h.retired[0];
      var g := h.(retired := h.retired[1..]);
      assert id in h.retired;
      assert forall i :: i in h.retired ==> i == id || i in g.retired;
      assert forall i :: i in g.retired ==> i in h.retired;
      if h.built[id].dropped {
        forall i | 0 <= i < |g.built| ensures Accounted(g, i) {
          assert Accounted(h, i);
        }
      } else {
        StartDropSound(h, g, id, worker);
      }
    }
  }

  lemma EndDropBusy(h: Host, worker: Worker)
    requires Sound(h) && worker in h.busy
    ensures var g := EndDrop(h, worker); ServiceSound(g) && BusySound(g) && PhaseSound(g)
  {
  }

  lemma EndDropSound(h: Host, worker: Worker)
    requires Sound(h)
    ensures Sound(EndDrop(h, worker))
  {
    if worker in h.busy {
      var id := h.busy[worker];
      var g := EndDrop(h, worker);
      EndDropBusy(h, worker);
      hide ServiceSound, BusySound, PhaseSound;
      forall i | 0 <= i < |g.built| ensures Accounted(g, i) {
        assert Accounted(h, i);
        if i != id && h.built[i].dropped && !h.built[i].ended {
          var w :| w in h.busy && h.busy[w] == i;
          assert w in g.busy && g.busy[w] == i;
        }
      }
    }
  }

  lemma InstanceSound(h: Host, id: nat, act: Act)
    requires Sound(h)
    ensures Sound(InstanceStep(h, id, act))
  {
    if id < |h.built| && !h.built[id].ended {
      assert Accounted(h, id);
      assert h.phase != Returned;
      ReplaceSound(h, id, Serve(h.built[id], act));
      if act.Fail? && h.built[id].alive {
        var f := h.(built := h.built[id := Serve(h.built[id], act)]);
        var g := f.(retryAt := h.retryAt[h.built[id].run := act.now + h.retrySeconds]);
        SameLedger(f, g);
        RetireSound(g, id);
      }
    }
  }

  /** The host with a slot more, in service. */
  function WithSlot(h: Host, key: StreamKey): Host
  {
    h.(retryAt := h.retryAt - {key.run}, built := h.built + [NewSlot(key)], service := h.service[key.run := |h.built|])
  }

  lemma WithSlotSound(h: Host, key: StreamKey)
    requires Sound(h) && key.run !in h.service && h.phase in {Serving, Stopping}
    ensures Sound(WithSlot(h, key))
  {
    var f := WithSlot(h, key);
    forall i | 0 <= i < |f.built| ensures Accounted(f, i) {
      if i < |h.built| {
        assert Accounted(h, i);
        assert f.built[i] == h.built[i];
      }
    }
  }

  lemma FindSound(h: Host, key: StreamKey, now: real)
    requires Sound(h) && h.phase in {Serving, Stopping}
    ensures var (g, id) := Find(h, key, now);
            && Sound(g) && g.phase == h.phase
            && (id.Some? ==> id.value < |g.built| && InService(g, id.value) && !g.built[id.value].ended)
  {
    if key.run in h.service {
      var held := h.service[key.run];
      assert held < |h.built| && Accounted(h, held) && InService(h, held);
      RetireSound(h, held);
      if key.runId > h.built[held].runId {
        hide Sound;
        FindNew(h, Retire(h, held), key, now);
      }
    } else {
      hide Sound;
      FindNew(h, h, key, now);
    }
  }

  lemma FindNew(h: Host, g: Host, key: StreamKey, now: real)
    requires Sound(g) && g.phase in {Serving, Stopping} && key.run !in g.service
    requires Find(h, key, now) == if key.run in g.retryAt && now < g.retryAt[key.run] then (g, None)
                                  else (WithSlot(g, key), Some(|g.built|))
    ensures var (f, id) := Find(h, key, now);
            && Sound(f) && f.phase == g.phase
            && (id.Some? ==> id.value < |f.built| && InService(f, id.value) && !f.built[id.value].ended)
  {
    hide Sound, Find;
    WithSlotSound(g, key);
  }

  lemma ReceiveKeepsAccount(s: Slot, channel: Channel, m: Message, limit: nat)
    ensures var t := Receive(s, channel, m, limit);
            && t.run == s.run && t.dropped == s.dropped && t.drops == s.drops && t.ended == s.ended
            && t.tearDowns == s.tearDowns && t.setUp == s.setUp
  {
    var t := if m.key.stream > s.stream then NewStream(s, m.key) else s;
    assert t.run == s.run && t.dropped == s.dropped && t.drops == s.drops && t.ended == s.ended
           && t.tearDowns == s.tearDowns && t.setUp == s.setUp;
    hide NewStream, Subscriptions.Offered;
  }

  lemma DeliverSound(h: Host, channel: Channel, m: Message, now: real)
    requires Sound(h) && h.phase in {Serving, Stopping}
    ensures Sound(Deliver(h, channel, m, now))
  {
    FindSound(h, m.key, now);
    var (g, id) := Find(h, m.key, now);
    if id.Some? {
      ReceiveKeepsAccount(g.built[id.value], channel, m, g.limit);
      hide Sound, Find, Receive, InService;
      ReplaceSound(g, id.value, Receive(g.built[id.value], channel, m, g.limit));
    }
  }

  lemma ReplaceRest(h: Host, g: Host)
    requires ServiceSound(h) && BusySound(h) && PhaseSound(h)
    requires g == h.(built := g.built) && |g.built| == |h.built|
    requires forall i :: 0 <= i < |h.built| ==>
               g.built[i].run == h.built[i].run && g.built[i].dropped == h.built[i].dropped && g.built[i].ended == h.built[i].ended
    ensures ServiceSound(g) && BusySound(g) && PhaseSound(g)
  {
  }

  /** A slot's queues change, its account does not. */
  lemma ReplaceSound(h: Host, id: nat, s: Slot)
    requires Sound(h) && id < |h.built|
    requires var t := h.built[id];
             && s.run == t.run && s.dropped == t.dropped && s.drops == t.drops && s.ended == t.ended
             && s.tearDowns == t.tearDowns && (t.ended ==> s.setUp == t.setUp)
    ensures Sound(h.(built := h.built[id := s]))
  {
    var g := h.(built := h.built[id := s]);
    ReplaceRest(h, g);
    hide ServiceSound, BusySound, PhaseSound;
    forall i | 0 <= i < |g.built| ensures Accounted(g, i) {
      assert Accounted(h, i);
    }
  }

  /** A step of `serve` itself, from one phase to the next, when that is done. */
  lemma PhaseMoves(h: Host, e: Event)
    requires Sound(h) && (e.Stop? || e.FeedsEnded? || e.ToDrain? || e.Return? || e.Interrupt? || e.SweepRetries?)
    ensures Sound(Next(h, e))
  {
    hide Sound, PhaseSound;
    PhaseAfter(h, e);
    PhaseOnly(h, e);
    hide Next;
    SameLedger(h, Next(h, e));
  }

  lemma PhaseOnly(h: Host, e: Event)
    requires e.Stop? || e.FeedsEnded? || e.ToDrain? || e.Return? || e.Interrupt? || e.SweepRetries?
    ensures var g := Next(h, e); g.built == h.built && g.service == h.service && g.retired == h.retired && g.busy == h.busy
  {
  }

  lemma PhaseAfter(h: Host, e: Event)
    requires Sound(h) && (e.Stop? || e.FeedsEnded? || e.ToDrain? || e.Return? || e.Interrupt? || e.SweepRetries?)
    ensures PhaseSound(Next(h, e))
  {
    if e.ToDrain? && Next(h, e) != h {
      assert forall r :: r !in h.service;
      assert h.service == map[];
    }
    if e.FeedsEnded? && Next(h, e) != h {
      assert forall r :: r in e.order <==> r in (set x | x in e.order);
    }
  }

  lemma NextSound(h: Host, e: Event)
    requires Sound(h)
    ensures Sound(Next(h, e))
  {
    hide Sound, Deliver, Evict, TakeRetired, EndDrop, InstanceStep;
    match e
    case Feed(channel, m, now) => if h.phase in {Serving, Stopping} { DeliverSound(h, channel, m, now); }
    case RunClosed(key) => if h.phase == Serving && ClosedFeed !in h.busy { EvictSound(h, key.run, ClosedFeed); }
    case SweepIdle(run) => if h.phase == Serving && Sweeper !in h.busy { EvictSound(h, run, Sweeper); }
    case Reap => if h.phase == Serving && Reaper !in h.busy { TakeRetiredSound(h, Reaper); }
    case DropEnds(worker) => EndDropSound(h, worker);
    case Instance(id, act) => InstanceSound(h, id, act);
    case EvictNext => if h.phase == Evicting && Server !in h.busy && h.toEvict != [] { EvictNextSound(h); }
    case DrainNext => if h.phase == Draining && Server !in h.busy { TakeRetiredSound(h, Server); }
    case _ => PhaseMoves(h, e);
  }

  /** A step that only moves the phase or the retry times. */
  lemma SameLedger(h: Host, g: Host)
    requires Sound(h) && g.built == h.built && g.service == h.service && g.retired == h.retired && g.busy == h.busy
    requires PhaseSound(g)
    ensures Sound(g)
  {
    forall i | 0 <= i < |g.built| ensures Accounted(g, i) {
      assert Accounted(h, i);
    }
  }

  lemma EvictNextIs(h: Host)
    requires h.phase == Evicting && Server !in h.busy && h.toEvict != []
    ensures Next(h, EvictNext) == Evict(h, h.toEvict[0], Server).(toEvict := h.toEvict[1..])
  {
  }

  lemma EvictNextSound(h: Host)
    requires Sound(h) && h.phase == Evicting && Server !in h.busy && h.toEvict != []
    ensures Sound(Next(h, EvictNext))
  {
    assert forall r :: r in h.toEvict ==> r == h.toEvict[0] || r in h.toEvict[1..];
    EvictedPhase(h, Next(h, EvictNext));
    EvictNextIs(h);
    hide Sound, PhaseSound, Next, Evict;
    EvictSound(h, h.toEvict[0], Server);
    SameLedger(Evict(h, h.toEvict[0], Server), Next(h, EvictNext));
  }

  lemma EvictedPhase(h: Host, g: Host)
    requires ServiceSound(h) && PhaseSound(h)
    requires h.phase == Evicting && Server !in h.busy && h.toEvict != [] && g == Next(h, EvictNext)
    requires forall r :: r in h.toEvict ==> r == h.toEvict[0] || r in h.toEvict[1..]
    ensures PhaseSound(g)
  {
    assert h.toEvict[0] in h.service ==> h.service[h.toEvict[0]] < |h.built|;
  }

  lemma {:induction false} AfterSound(h: Host, events: seq<Event>)
    requires Sound(h)
    ensures Sound(After(h, events))
  {
    if events != [] {
      AfterSound(h, events[..|events| - 1]);
      NextSound(After(h, events[..|events| - 1]), events[|events| - 1]);
    }
  }

  /** In every state a host reaches, each slot it ever built is in service,
      retired or dropped; is dropped at most once, and torn down at most once,
      never unless its setup completed. */
  lemma NeverTwice(limit: nat, retrySeconds: real, events: seq<Event>, id: nat)
    requires id < |After(Start(limit, retrySeconds), events).built|
    ensures var h := After(Start(limit, retrySeconds), events);
            var s := h.built[id];
            && (InService(h, id) || id in h.retired || s.dropped)
            && !(InService(h, id) && s.dropped)
            && s.drops == (if s.dropped then 1 else 0)
            && s.tearDowns <= 1 && (s.tearDowns == 1 <==> s.ended && s.setUp)
  {
    AfterSound(Start(limit, retrySeconds), events);
    assert Accounted(After(Start(limit, retrySeconds), events), id);
  }

  /** Once `serve` has returned, every slot it ever built has been dropped
      exactly once, to the end, and torn down exactly when its setup completed. */
  lemma AllDroppedOnReturn(limit: nat, retrySeconds: real, events: seq<Event>)
    requires After(Start(limit, retrySeconds), events).phase == Returned
    ensures var h := After(Start(limit, retrySeconds), events);
            forall s :: s in h.built ==> s.drops == 1 && s.ended && s.tearDowns == (if s.setUp then 1 else 0)
  {
    var h := After(Start(limit, retrySeconds), events);
    AfterSound(Start(limit, retrySeconds), events);
    forall s | s in h.built ensures s.drops == 1 && s.ended && s.tearDowns == (if s.setUp then 1 else 0) {
      var id :| 0 <= id < |h.built| && h.built[id] == s;
      assert Accounted(h, id);
    }
  }

  // ---------------------------------------------------------------- a second cancellation

  ghost predicate AllDropped(h: Host)
  {
    forall s :: s in h.built ==> s.dropped
  }

  /** Nothing is left for anyone to drop. */
  ghost predicate NothingLeft(h: Host)
  {
    h.service == map[] && forall id :: id in h.retired ==> id < |h.built| && h.built[id].dropped
  }

  lemma LeftExactly(h: Host)
    requires Sound(h)
    ensures AllDropped(h) <==> NothingLeft(h)
  {
    if h.service != map[] {
      assert h.service.Keys != {};
      var r :| r in h.service.Keys;
      var s := h.built[h.service[r]];
      assert s in h.built && !s.dropped;
    }
    if id :| id in h.retired && !h.built[id].dropped {
      assert h.built[id] in h.built;
    }
    if NothingLeft(h) {
      forall s | s in h.built ensures s.dropped {
        var id :| 0 <= id < |h.built| && h.built[id] == s;
        assert Accounted(h, id);
      }
    }
  }

  /** Once `serve` was cancelled again, no slot is built and none begins to be
      dropped. */
  lemma {:induction false} AbortedIsFinal(h: Host, events: seq<Event>)
    requires h.phase == Aborted
    ensures var g := After(h, events);
            && g.phase == Aborted && |g.built| == |h.built|
            && forall i :: 0 <= i < |h.built| ==> g.built[i].dropped == h.built[i].dropped
  {
    if events != [] {
      hide Next;
      AbortedIsFinal(h, events[..|events| - 1]);
      AbortedStep(After(h, events[..|events| - 1]), events[|events| - 1]);
    }
  }

  lemma AbortedStep(h: Host, e: Event)
    requires h.phase == Aborted
    ensures var g := Next(h, e);
            && g.phase == Aborted && |g.built| == |h.built|
            && forall i :: 0 <= i < |h.built| ==> g.built[i].dropped == h.built[i].dropped
  {
    if e.Instance? && e.id < |h.built| {
      ServeKeepsDropped(h.built[e.id], e.act);
      hide Serve;
    }
  }

  lemma ServeKeepsDropped(s: Slot, act: Act)
    ensures Serve(s, act).dropped == s.dropped
  {
    hide Bundle, SourcesOf;
  }

  lemma {:induction false} AfterJoin(h: Host, events: seq<Event>, more: seq<Event>)
    ensures After(h, events + more) == After(After(h, events), more)
  {
    if more == [] {
      assert events + more == events;
    } else {
      AfterJoin(h, events, more[..|more| - 1]);
      assert (events + more)[..|events + more| - 1] == events + more[..|more| - 1];
    }
  }

  /** What a second cancellation of `serve` costs is settled the moment it comes:
      whatever happens later, every slot ever built is dropped in the end exactly
      if none is in service then, and all that is retired has been dropped. */
  lemma InterruptCosts(limit: nat, retrySeconds: real, events: seq<Event>, more: seq<Event>)
    requires var h := After(Start(limit, retrySeconds), events);
             h.phase != Aborted && Next(h, Interrupt).phase == Aborted
    ensures var h := After(Start(limit, retrySeconds), events);
            AllDropped(After(Start(limit, retrySeconds), events + [Interrupt] + more)) <==> NothingLeft(h)
  {
    var h0 := Start(limit, retrySeconds);
    var h := After(h0, events);
    AfterSound(h0, events);
    LeftExactly(h);
    assert (events + [Interrupt])[..|events|] == events;
    var g := After(h0, events + [Interrupt]);
    assert g == h.(phase := Aborted);
    AfterJoin(h0, events + [Interrupt], more);
    AbortedIsFinal(g, more);
    hide After, Next, NothingLeft;
    SameDropped(h, After(g, more));
  }

  lemma SameDropped(h: Host, g: Host)
    requires |g.built| == |h.built| && forall i :: 0 <= i < |h.built| ==> g.built[i].dropped == h.built[i].dropped
    ensures AllDropped(g) <==> AllDropped(h)
  {
    if AllDropped(g) {
      forall i | 0 <= i < |h.built| ensures h.built[i].dropped {
        assert g.built[i] in g.built;
      }
    }
    if AllDropped(h) {
      forall i | 0 <= i < |g.built| ensures g.built[i].dropped {
        assert h.built[i] in h.built;
      }
    }
  }

  /** The same of any state after one: the slots left undropped are those still
      in service, and those retired that nobody dropped. */
  lemma AbortedLeavesExactly(limit: nat, retrySeconds: real, events: seq<Event>)
    requires After(Start(limit, retrySeconds), events).phase == Aborted
    ensures var h := After(Start(limit, retrySeconds), events); AllDropped(h) <==> NothingLeft(h)
  {
    AfterSound(Start(limit, retrySeconds), events);
    LeftExactly(After(Start(limit, retrySeconds), events));
  }

  /** The worker is still dropping the slot, or the drop has ended. */
  ghost predicate DropHeld(h: Host, worker: Worker, id: nat)
  {
    && id < |h.built|
    && (h.built[id].ended || (worker in h.busy && h.busy[worker] == id))
  }

  lemma FindKeeps(h: Host, key: StreamKey, now: real)
    ensures var g := Find(h, key, now).0;
            g.busy == h.busy && g.limit == h.limit && |h.built| <= |g.built| && g.built[..|h.built|] == h.built
  {
    hide NewSlot;
  }

  lemma DeliverHolds(h: Host, channel: Channel, m: Message, now: real, worker: Worker, id: nat)
    requires DropHeld(h, worker, id)
    ensures DropHeld(Deliver(h, channel, m, now), worker, id)
  {
    FindKeeps(h, m.key, now);
    hide Find, Receive;
    var (g, to) := Find(h, m.key, now);
    assert g.built[id] == g.built[..|h.built|][id];
    if to.Some? && to.value < |g.built| {
      ReceiveKeepsAccount(g.built[to.value], channel, m, g.limit);
    }
  }

  lemma ServeKeepsEnded(s: Slot, act: Act)
    ensures Serve(s, act).ended == s.ended
  {
    hide Bundle, SourcesOf;
  }

  lemma InstanceHolds(h: Host, i: nat, act: Act, worker: Worker, id: nat)
    requires DropHeld(h, worker, id)
    ensures DropHeld(InstanceStep(h, i, act), worker, id)
  {
    if i < |h.built| { ServeKeepsEnded(h.built[i], act); }
    hide Serve;
  }

  lemma StartDropHolds(h: Host, slot: nat, other: Worker, worker: Worker, id: nat)
    requires DropHeld(h, worker, id) && slot < |h.built| && other !in h.busy
    ensures DropHeld(StartDrop(h, slot, other), worker, id)
  {
  }

  lemma EvictHolds(h: Host, run: string, other: Worker, worker: Worker, id: nat)
    requires DropHeld(h, worker, id) && other !in h.busy
    ensures DropHeld(Evict(h, run, other), worker, id)
  {
    if run in h.service && h.service[run] < |h.built| {
      StartDropHolds(h.(service := h.service - {run}), h.service[run], other, worker, id);
    }
  }

  lemma TakeRetiredHolds(h: Host, other: Worker, worker: Worker, id: nat)
    requires DropHeld(h, worker, id) && other !in h.busy
    ensures DropHeld(TakeRetired(h, other), worker, id)
  {
    if h.retired != [] && h.retired[0] < |h.built| {
      StartDropHolds(h.(retired := h.retired[1..]), h.retired[0], other, worker, id);
    }
  }

  lemma EndDropHolds(h: Host, other: Worker, worker: Worker, id: nat)
    requires BusySound(h) && DropHeld(h, worker, id)
    ensures DropHeld(EndDrop(h, other), worker, id)
  {
  }

  lemma NextHolds(h: Host, e: Event, worker: Worker, id: nat)
    requires BusySound(h) && DropHeld(h, worker, id)
    ensures DropHeld(Next(h, e), worker, id)
  {
    hide BusySound, Deliver, InstanceStep, Evict, TakeRetired, EndDrop;
    match e
    case Feed(channel, m, now) => DeliverHolds(h, channel, m, now, worker, id);
    case Instance(i, act) => InstanceHolds(h, i, act, worker, id);
    case RunClosed(key) => if ClosedFeed !in h.busy { EvictHolds(h, key.run, ClosedFeed, worker, id); }
    case SweepIdle(run) => if Sweeper !in h.busy { EvictHolds(h, run, Sweeper, worker, id); }
    case Reap => if Reaper !in h.busy { TakeRetiredHolds(h, Reaper, worker, id); }
    case DropEnds(other) => EndDropHolds(h, other, worker, id);
    case EvictNext =>
      if Server !in h.busy && h.toEvict != [] {
        EvictHolds(h.(toEvict := h.toEvict[1..]), h.toEvict[0], Server, worker, id);
      }
    case DrainNext => if Server !in h.busy { TakeRetiredHolds(h, Server, worker, id); }
    case _ =>
  }

  lemma {:induction false} AfterHolds(h: Host, events: seq<Event>, worker: Worker, id: nat)
    requires Sound(h) && DropHeld(h, worker, id)
    ensures DropHeld(After(h, events), worker, id)
  {
    if events != [] {
      var front := events[..|events| - 1];
      hide Next, DropHeld;
      AfterHolds(h, front, worker, id);
      AfterSound(h, front);
      NextHolds(After(h, front), events[|events| - 1], worker, id);
    }
  }

  /** A drop in progress is not lost: whatever happens later, the worker is still
      in it, or it has ended; it was the slot's only one, and what was torn down
      then is exactly what was set up. */
  lemma DropInProgressEnds(limit: nat, retrySeconds: real, events: seq<Event>, more: seq<Event>, worker: Worker)
    requires worker in After(Start(limit, retrySeconds), events).busy
    ensures var id := After(Start(limit, retrySeconds), events).busy[worker];
            var g := After(Start(limit, retrySeconds), events + more);
            && DropHeld(g, worker, id)
            && g.built[id].drops == 1
            && g.built[id].tearDowns == (if g.built[id].ended && g.built[id].setUp then 1 else 0)
            && (!g.built[id].ended ==> Next(g, DropEnds(worker)).built[id].ended)
  {
    var h0 := Start(limit, retrySeconds);
    var h := After(h0, events);
    AfterSound(h0, events);
    DropBegun(h, worker);
    var id := h.busy[worker];
    AfterHolds(h, more, worker, id);
    AfterJoin(h0, events, more);
    AfterSound(h0, events + more);
    hide After;
    DropOnce(After(h0, events + more), worker, id);
  }

  lemma DropBegun(h: Host, worker: Worker)
    requires Sound(h) && worker in h.busy
    ensures DropHeld(h, worker, h.busy[worker])
  {
  }

  lemma DropOnce(g: Host, worker: Worker, id: nat)
    requires Sound(g) && DropHeld(g, worker, id)
    ensures g.built[id].drops == 1
    ensures g.built[id].tearDowns == (if g.built[id].ended && g.built[id].setUp then 1 else 0)
    ensures !g.built[id].ended ==> Next(g, DropEnds(worker)).built[id].ended
  {
    assert Accounted(g, id);
  }

  /** `serve` cancelled a second time, while it drops its instances, can leave
      one undropped: here the only one. */
  lemma InterruptedShutdownLeavesOne(m: Message)
    ensures var events := [Feed(Inputs, m, 0.0), Stop, FeedsEnded([m.key.run]), Interrupt];
            var h := After(Start(4, 5.0), events);
            h.phase == Aborted && |h.built| == 1 && !h.built[0].dropped
  {
    var h0 := Start(4, 5.0);
    AfterFour(h0, Feed(Inputs, m, 0.0), Stop, FeedsEnded([m.key.run]), Interrupt);
    FirstArrival(m);
    hide *;
    Interrupted(Next(h0, Feed(Inputs, m, 0.0)), m.key.run);
  }

  lemma Interrupted(h: Host, run: string)
    requires h.phase == Serving && h.busy == map[] && h.service.Keys == {run}
    ensures var g := Next(Next(Next(h, Stop), FeedsEnded([run])), Interrupt); g.phase == Aborted && g.built == h.built
  {
    assert (set r | r in [run]) == {run};
  }

  lemma FirstArrival(m: Message)
    ensures var h := Next(Start(4, 5.0), Feed(Inputs, m, 0.0));
            h.phase == Serving && h.busy == map[] && |h.built| == 1 && !h.built[0].dropped && h.service.Keys == {m.key.run}
  {
    var h, s := Start(4, 5.0), NewSlot(m.key);
    var g := h.(retryAt := h.retryAt - {m.key.run}, built := [] + [s], service := h.service[m.key.run := 0]);
    assert Find(h, m.key, 0.0) == (g, Some(0));
    assert !Receive(s, Inputs, m, 4).dropped;
  }

  lemma AfterFour(h: Host, a: Event, b: Event, c: Event, d: Event)
    ensures After(h, [a, b, c, d]) == Next(Next(Next(Next(h, a), b), c), d)
  {
    assert [a, b, c, d][..3] == [a, b, c];
    assert [a, b, c][..2] == [a, b];
    assert [a, b][..1] == [a];
    assert After(h, [a]) == Next(h, a);
    assert After(h, [a, b]) == Next(After(h, [a]), b);
    assert After(h, [a, b, c]) == Next(After(h, [a, b]), c);
  }
}
