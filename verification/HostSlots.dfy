/** What holds of every slot a host ever built, if it holds of a new one and is
    kept by what arrives and by what the instance does. */
module HostSlots {
  import opened Keys
  import opened Wire
  import opened Hosts

  ghost predicate AllSlots(h: Host, P: Slot -> bool)
  {
    forall s :: s in h.built ==> P(s)
  }

  /** The slot after something was noted of its task or of its drop. */
  ghost predicate Noted(s: Slot, t: Slot)
  {
    t == s.(alive := t.alive, dropped := t.dropped, drops := t.drops, ended := t.ended, tearDowns := t.tearDowns)
  }

  /** It holds of a new slot, and says nothing of tasks and drops. */
  ghost predicate OfContents(P: Slot -> bool)
  {
    && (forall key :: P(NewSlot(key)))
    && (forall s, t :: P(s) && Noted(s, t) ==> P(t))
  }

  /** It is kept by this event, of whichever slot it is. */
  ghost predicate KeptBy(h: Host, e: Event, P: Slot -> bool)
  {
    && (e.Feed? ==> forall s :: P(s) ==> P(Receive(s, e.channel, e.message, h.limit)))
    && (e.Instance? && e.id < |h.built| && !h.built[e.id].ended && P(h.built[e.id]) ==> P(Serve(h.built[e.id], e.act)))
  }

  /** One slot of a host changes, or one is added. */
  lemma PutAll(h: Host, g: Host, s: Slot, P: Slot -> bool)
    requires AllSlots(h, P) && P(s) && forall t :: t in g.built ==> t in h.built || t == s
    ensures AllSlots(g, P)
  {
  }

  lemma DeliverAll(h: Host, channel: Channel, m: Message, now: real, P: Slot -> bool)
    requires AllSlots(h, P) && OfContents(P) && KeptBy(h, Feed(channel, m, now), P)
    ensures AllSlots(Deliver(h, channel, m, now), P)
  {
    var (g, id) := Find(h, m.key, now);
    assert P(NewSlot(m.key));
    assert g.limit == h.limit;
    hide NewSlot, Receive, OfContents;
    PutAll(h, g, NewSlot(m.key), P);
    if id.Some? && id.value < |g.built| {
      assert g.built[id.value] in g.built;
      PutAll(g, Deliver(h, channel, m, now), Receive(g.built[id.value], channel, m, g.limit), P);
    }
  }

  lemma NotedAll(h: Host, g: Host, id: nat, s: Slot, P: Slot -> bool)
    requires AllSlots(h, P) && OfContents(P) && id < |h.built| && g.built == h.built[id := s] && Noted(h.built[id], s)
    ensures AllSlots(g, P)
  {
    assert h.built[id] in h.built;
    PutAll(h, g, s, P);
  }

  lemma EvictAll(h: Host, run: string, worker: Worker, P: Slot -> bool)
    requires AllSlots(h, P) && OfContents(P)
    ensures AllSlots(Evict(h, run, worker), P)
  {
    if run in h.service && h.service[run] < |h.built| {
      var id := h.service[run];
      NotedAll(h, Evict(h, run, worker), id, h.built[id].(dropped := true, drops := h.built[id].drops + 1), P);
    }
  }

  lemma TakeRetiredAll(h: Host, worker: Worker, P: Slot -> bool)
    requires AllSlots(h, P) && OfContents(P)
    ensures AllSlots(TakeRetired(h, worker), P)
  {
    if h.retired != [] && h.retired[0] < |h.built| && !h.built[h.retired[0]].dropped {
      var id := h.retired[0];
      NotedAll(h, TakeRetired(h, worker), id, h.built[id].(dropped := true, drops := h.built[id].drops + 1), P);
    }
  }

  lemma EndDropAll(h: Host, worker: Worker, P: Slot -> bool)
    requires AllSlots(h, P) && OfContents(P)
    ensures AllSlots(EndDrop(h, worker), P)
  {
    if worker in h.busy && h.busy[worker] < |h.built| {
      var id := h.busy[worker];
      NotedAll(h, EndDrop(h, worker), id, EndDrop(h, worker).built[id], P);
    }
  }

  lemma InstanceAll(h: Host, id: nat, act: Act, P: Slot -> bool)
    requires AllSlots(h, P) && KeptBy(h, Instance(id, act), P)
    ensures AllSlots(InstanceStep(h, id, act), P)
  {
    hide Serve;
    if id < |h.built| && !h.built[id].ended {
      assert h.built[id] in h.built;
      PutAll(h, InstanceStep(h, id, act), Serve(h.built[id], act), P);
    }
  }

  lemma SameSlots(h: Host, g: Host, P: Slot -> bool)
    requires AllSlots(h, P) && g.built == h.built
    ensures AllSlots(g, P)
  {
  }

  lemma NextAll(h: Host, e: Event, P: Slot -> bool)
    requires AllSlots(h, P) && OfContents(P) && KeptBy(h, e, P)
    ensures AllSlots(Next(h, e), P)
  {
    hide AllSlots, OfContents, KeptBy, Deliver, Evict, TakeRetired, EndDrop, InstanceStep;
    match e
    case Feed(channel, m, now) => DeliverAll(h, channel, m, now, P);
    case Instance(id, act) => InstanceAll(h, id, act, P);
    case RunClosed(key) => EvictAll(h, key.run, ClosedFeed, P);
    case SweepIdle(run) => EvictAll(h, run, Sweeper, P);
    case Reap => TakeRetiredAll(h, Reaper, P);
    case DrainNext => TakeRetiredAll(h, Server, P);
    case DropEnds(worker) => EndDropAll(h, worker, P);
    case EvictNext =>
      if h.toEvict != [] {
        SameSlots(h, h.(toEvict := h.toEvict[1..]), P);
        EvictAll(h.(toEvict := h.toEvict[1..]), h.toEvict[0], Server, P);
      }
    case _ => SameSlots(h, Next(h, e), P);
  }
}
