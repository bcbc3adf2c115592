/** How an acquire, a release and an idle timer go, step by step, said of the
    runs, locks and counts themselves. */
module RegistryPromises {
  import opened Keys
  import opened Registries

  /** The acquire has the lock, or can have it. */
  predicate HasLock(w: World, t: TaskId)
  {
    t in w.acquires && (w.acquires[t].stage.MakingRoom? || (w.acquires[t].stage.Waiting? && w.acquires[t].lock !in w.holders))
  }

  /** One acquire less counted at the key; with none left and no run, its lock
      and its count are gone. */
  predicate Uncounted(g: Registry, h: Registry, key: string)
  {
    var n := (if key in g.acquiring then g.acquiring[key] else 0) - 1;
    && h.acquiring == (if n > 0 then g.acquiring[key := n] else g.acquiring - {key})
    && h.locks == (if n > 0 || key in h.entries then g.locks else g.locks - {key})
    && h.made == g.made && h.maxRuns == g.maxRuns && h.idleSeconds == g.idleSeconds
  }

  /** An acquire is counted at its key, and waits for the key's lock: the one there
      is, or a new one. */
  lemma BeginsExactly(w: World, key: string)
    ensures var g, v := w.registry, Next(w, Begins(key));
            var lock := if key in g.locks then g.locks[key] else g.made;
            && v == w.(registry := v.registry, tasks := w.tasks + 1, acquires := w.acquires[w.tasks := Acquire(key, lock, Waiting)])
            && v.registry == g.(locks := g.locks[key := lock], made := if key in g.locks then g.made else g.made + 1,
                                acquiring := g.acquiring[key := (if key in g.acquiring then g.acquiring[key] else 0) + 1])
  {
    assert key in w.registry.locks ==> w.registry.locks[key := w.registry.locks[key]] == w.registry.locks;
  }

  /** An acquire that finds a run for its key joins it: a socket more, used now,
      its timer called off; and it is over. */
  lemma JoinsExactly(w: World, t: TaskId, victim: string, now: real)
    requires t in w.acquires && w.acquires[t].stage.Waiting? && w.acquires[t].lock !in w.holders
    requires w.acquires[t].key in w.registry.entries
    ensures var key, v := w.acquires[t].key, Next(w, GetsLock(t, victim, now));
            var e := w.registry.entries[key];
            && v.registry.entries == w.registry.entries[key := Entry(e.run, e.sockets + 1, now, None)]
            && Uncounted(w.registry, v.registry, key) && v.registry.pending == w.registry.pending
            && v.sessions == w.sessions[t := Session(key, e.run)] && v.acquires == w.acquires - {t}
            && v.timers == (if e.timer == None then w.timers else w.timers - {e.timer.value})
            && v.holders == w.holders && v.tasks == w.tasks
  {
    hide SeekRoom;
  }

  /** The run was used no later than any other that nobody watches. */
  ghost predicate LeastUsed(g: Registry, victim: string)
  {
    && victim in g.entries && g.entries[victim].sockets == 0
    && forall k :: k in g.entries && g.entries[k].sockets == 0 ==> g.entries[victim].lastUsed <= g.entries[k].lastUsed
  }

  /** With room, an acquire counts its run and starts it; with none and every run
      watched, it gives up; otherwise the run used longest ago of those nobody
      watches goes first, while the acquire keeps its key's lock. */
  ghost predicate Sought(w: World, v: World, t: TaskId, victim: string)
    requires t in w.acquires
  {
    var a, g := w.acquires[t], w.registry;
    if |g.entries| + g.pending < g.maxRuns then
      v == w.(acquires := w.acquires[t := Acquire(a.key, a.lock, Starting(g.made))], holders := w.holders[a.lock := Acquirer(t)],
              registry := g.(pending := g.pending + 1, made := g.made + 1))
    else if forall k :: k in g.entries ==> g.entries[k].sockets != 0 then
      && v == w.(acquires := w.acquires - {t}, holders := w.holders - {a.lock}, registry := v.registry)
      && v.registry.entries == g.entries && v.registry.pending == g.pending && Uncounted(g, v.registry, a.key)
    else if LeastUsed(g, victim) then
      && v == w.(acquires := w.acquires[t := Acquire(a.key, a.lock, MakingRoom)], holders := w.holders[a.lock := Acquirer(t)],
                 registry := v.registry)
      && v.registry.entries == g.entries - {victim} && v.registry.pending == g.pending
    else v == w
  }

  /** So goes an acquire that finds no run for its key, when it gets the key's
      lock, and again whenever a run that made room has stopped. */
  lemma SeeksExactly(w: World, t: TaskId, victim: string, now: real)
    requires HasLock(w, t) && w.acquires[t].key !in w.registry.entries
    ensures Sought(w, if w.acquires[t].stage.Waiting? then Next(w, GetsLock(t, victim, now)) else Next(w, VictimStopped(t, victim)), t, victim)
  {
    SeeksRoom(w, t, victim);
    hide SeekRoom, Sought;
  }

  lemma EvictTakes(g: Registry, key: string)
    ensures Evict(g, key).entries == g.entries - {key} && Evict(g, key).pending == g.pending
  {
  }

  lemma VictimIsLeastUsed(g: Registry, victim: string)
    ensures IsVictim(g, victim) <==> LeastUsed(g, victim)
  {
  }

  /** Giving up with the lock in hand. */
  lemma AbandonsHolding(w: World, t: TaskId)
    requires t in w.acquires
    ensures var a := w.acquires[t];
            var h := w.(holders := w.holders[a.lock := Acquirer(t)], acquires := w.acquires[t := a.(stage := MakingRoom)]);
            Abandon(h, t) == w.(acquires := w.acquires - {t}, holders := w.holders - {a.lock}, registry := Leave(w.registry, a.key))
  {
    var a := w.acquires[t];
    hide Leave;
    assert w.holders[a.lock := Acquirer(t)] - {a.lock} == w.holders - {a.lock};
    assert w.acquires[t := a.(stage := MakingRoom)] - {t} == w.acquires - {t};
  }

  lemma SeeksRoom(w: World, t: TaskId, victim: string)
    requires t in w.acquires && (w.acquires[t].stage.MakingRoom? || w.acquires[t].stage.Waiting?)
    ensures Sought(w, SeekRoom(w, t, victim), t, victim)
  {
    VictimIsLeastUsed(w.registry, victim);
    AbandonsHolding(w, t);
    LeaveUncounts(w.registry, w.acquires[t].key);
    EvictTakes(w.registry, victim);
    hide Leave, Evict, Uncounted, Abandon, IsVictim, LeastUsed;
  }

  /** A run that started is the key's, watched once, by the acquire that is now
      over; and the lock is free. */
  lemma StartsExactly(w: World, t: TaskId, now: real)
    requires t in w.acquires && w.acquires[t].stage.Starting?
    ensures var a, v := w.acquires[t], Next(w, Started(t, now));
            && v.registry.entries == w.registry.entries[a.key := Entry(a.stage.run, 1, now, None)]
            && v.registry.pending == w.registry.pending - 1 && Uncounted(w.registry, v.registry, a.key)
            && v.sessions == w.sessions[t := Session(a.key, a.stage.run)] && v.acquires == w.acquires - {t}
            && v.holders == w.holders - {a.lock} && v.timers == w.timers
  {
  }

  /** The acquire is over without a run. */
  predicate GaveUp(w: World, v: World, t: TaskId, pending: int)
    requires t in w.acquires
  {
    var a := w.acquires[t];
    && v.acquires == w.acquires - {t} && v.sessions == w.sessions && v.timers == w.timers
    && v.holders == (if a.stage.Waiting? then w.holders else w.holders - {a.lock})
    && v.registry.entries == w.registry.entries && v.registry.pending == pending && Uncounted(w.registry, v.registry, a.key)
  }

  /** One that does not start, or whose acquire is cancelled while it does, is
      stopped before the acquire gives up and its place is free; an acquire
      cancelled elsewhere gives up at once. */
  lemma FailsExactly(w: World, t: TaskId)
    requires t in w.acquires
    ensures var a := w.acquires[t];
            match a.stage
            case Starting(run) =>
              && Next(w, StartFailed(t)) == w.(acquires := w.acquires[t := Acquire(a.key, a.lock, Stopping(run))])
              && Next(w, Cancelled(t)) == w.(acquires := w.acquires[t := Acquire(a.key, a.lock, Stopping(run))])
            case Stopping(_) =>
              && GaveUp(w, Next(w, RunStopped(t)), t, w.registry.pending - 1)
              && GaveUp(w, Next(w, Cancelled(t)), t, w.registry.pending - 1)
            case _ => GaveUp(w, Next(w, Cancelled(t)), t, w.registry.pending)
  {
    hide Leave;
    LeaveUncounts(w.registry, w.acquires[t].key);
    LeaveUncounts(w.registry.(pending := w.registry.pending - 1), w.acquires[t].key);
  }

  lemma LeaveUncounts(g: Registry, key: string)
    ensures Uncounted(g, Leave(g, key), key)
    ensures Leave(g, key).entries == g.entries && Leave(g, key).pending == g.pending
  {
  }

  /** A session that ends has one socket less on its key's run, used now; the last
      sets a timer for the idle time from now, unless one is set. */
  lemma ReleasesExactly(w: World, t: TaskId, now: real)
    requires t in w.sessions && w.sessions[t].key in w.registry.entries
    ensures var key, v := w.sessions[t].key, Next(w, Releases(t, now));
            var e, g := w.registry.entries[key], w.registry;
            var last := e.sockets <= 1;
            var sets := last && e.timer == None;
            && v.sessions == w.sessions - {t} && v.acquires == w.acquires && v.holders == w.holders
            && v.registry.entries == g.entries[key := Entry(e.run, if last then 0 else e.sockets - 1, now,
                                                            if sets then Some(g.made) else e.timer)]
            && v.registry == g.(entries := v.registry.entries, made := if sets then g.made + 1 else g.made)
            && v.timers == (if sets then w.timers[g.made := Asleep(key, now + g.idleSeconds)] else w.timers)
  {
  }

  /** A timer sleeps its time, then waits for its key's lock, if there is one; and
      with it evicts the key's run if nobody watches it, keeping the lock until
      that has stopped. */
  lemma TimersExactly(w: World, m: TaskId, now: real)
    requires m in w.timers
    ensures match w.timers[m]
            case Asleep(key, due) =>
              Next(w, TimerWakes(m, now)) ==
              (if now < due then w
               else w.(timers := if key in w.registry.locks then w.timers[m := Wakeful(key, w.registry.locks[key], now)]
                                 else w.timers - {m}))
            case Wakeful(key, lock, _) =>
              var v := Next(w, TimerGetsLock(m, now));
              if lock in w.holders then v == w
              else if key in w.registry.entries && w.registry.entries[key].sockets == 0 then
                && v.registry.entries == w.registry.entries - {key}
                && v.timers == w.timers[m := Evicting(lock)] && v.holders == w.holders[lock := IdleTimer(m)]
                && v.acquires == w.acquires && v.sessions == w.sessions
              else v == w.(timers := w.timers - {m})
            case Evicting(lock) =>
              Next(w, TimerEnds(m)) == w.(timers := w.timers - {m}, holders := w.holders - {lock})
  {
  }
}
