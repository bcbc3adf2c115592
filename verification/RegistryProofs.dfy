/** What holds of the registry in every interleaving of its coroutines. */
module RegistryProofs {
  import opened Registries

  // ---------------------------------------------------------------- who is where

  function InFlight(w: World, key: string): set<TaskId>
  {
    set t | t in w.acquires && w.acquires[t].key == key
  }

  function Holding(w: World, key: string): set<TaskId>
  {
    set t | t in w.sessions && w.sessions[t].key == key
  }

  function Builders(w: World): set<TaskId>
  {
    set t | t in w.acquires && (w.acquires[t].stage.Starting? || w.acquires[t].stage.Stopping?)
  }

  // ---------------------------------------------------------------- the invariant

  /** Every acquire in flight is counted, and waits for or holds the one lock
      its key has; a run's lock is kept; locks are told apart. */
  ghost predicate LocksSound(w: World)
  {
    var g := w.registry;
    && (forall k :: Acquiring(g, k) == |InFlight(w, k)|)
    && (forall t :: t in w.acquires ==> w.acquires[t].key in g.locks && g.locks[w.acquires[t].key] == w.acquires[t].lock)
    && (forall k :: k in g.entries ==> k in g.locks)
    && (forall k :: k in g.locks ==> g.locks[k] < g.made)
    && (forall j, k :: j in g.locks && k in g.locks && g.locks[j] == g.locks[k] ==> j == k)
  }

  /** An acquire past its wait is the holder of its lock, and its key has no
      run. */
  ghost predicate BuildsSound(w: World)
  {
    && (forall t :: t in w.acquires && !w.acquires[t].stage.Waiting? ==>
          && w.acquires[t].lock in w.holders && w.holders[w.acquires[t].lock] == Acquirer(t)
          && w.acquires[t].key !in w.registry.entries)
    && (forall m :: m in w.timers && w.timers[m].Evicting? ==>
          w.timers[m].lock in w.holders && w.holders[w.timers[m].lock] == IdleTimer(m))
  }

  ghost predicate CapSound(w: World)
  {
    && w.registry.pending == |Builders(w)|
    && |w.registry.entries| + w.registry.pending <= (if w.registry.maxRuns > 0 then w.registry.maxRuns else 0)
  }

  /** Each session's run is its key's entry. */
  ghost predicate SessionsOwn(w: World)
  {
    forall t :: t in w.sessions ==>
      w.sessions[t].key in w.registry.entries && w.registry.entries[w.sessions[t].key].run == w.sessions[t].run
  }

  /** Each entry counts its sessions. */
  ghost predicate SocketsCounted(w: World)
  {
    forall k :: k in w.registry.entries ==> w.registry.entries[k].sockets == |Holding(w, k)|
  }

  ghost predicate TasksNumbered(w: World)
  {
    && (forall t :: t in w.acquires || t in w.sessions ==> t < w.tasks)
    && w.acquires.Keys !! w.sessions.Keys
  }

  ghost predicate SocketsSound(w: World)
  {
    SessionsOwn(w) && SocketsCounted(w) && TasksNumbered(w)
  }

  /** An entry's own timer belongs to its last release. */
  ghost predicate TimersSound(w: World)
  {
    forall k :: k in w.registry.entries && w.registry.entries[k].timer.Some? ==>
      var e := w.registry.entries[k];
      && e.sockets == 0
      && (e.timer.value in w.timers ==>
            match w.timers[e.timer.value]
            case Asleep(key, due) => key == k && due == e.lastUsed + w.registry.idleSeconds
            case Wakeful(key, lock, since) => key == k && since >= e.lastUsed + w.registry.idleSeconds
            case Evicting(_) => true)
  }

  ghost predicate TimersNumbered(w: World)
  {
    && (forall m :: m in w.timers ==> m < w.registry.made)
    && (forall k :: k in w.registry.entries && w.registry.entries[k].timer.Some? ==>
          w.registry.entries[k].timer.value < w.registry.made)
    && (forall j, k :: (j in w.registry.entries && k in w.registry.entries && j != k && w.registry.entries[j].timer.Some?) ==>
          w.registry.entries[j].timer != w.registry.entries[k].timer)
  }

  ghost predicate Sound(w: World)
  {
    LocksSound(w) && BuildsSound(w) && CapSound(w) && SocketsSound(w) && TimersSound(w) && TimersNumbered(w)
  }

  // ---------------------------------------------------------------- steps

  lemma OneLeaves(w: World, v: World, t: TaskId)
    requires t in w.acquires && v.acquires == w.acquires - {t}
    ensures var key := w.acquires[t].key;
            && |InFlight(v, key)| == |InFlight(w, key)| - 1
            && (forall k :: k != key ==> InFlight(v, k) == InFlight(w, k))
            && (forall u :: u in v.acquires && v.acquires[u].key == key ==> |InFlight(v, key)| > 0)
  {
    var key := w.acquires[t].key;
    assert InFlight(v, key) == InFlight(w, key) - {t};
    assert t in InFlight(w, key);
    forall u | u in v.acquires && v.acquires[u].key == key ensures |InFlight(v, key)| > 0 {
      assert u in InFlight(v, key);
    }
  }

  lemma LeaveCounts(w: World, g: Registry, v: World, t: TaskId)
    requires LocksSound(w) && t in w.acquires && v.acquires == w.acquires - {t}
    requires g.acquiring == w.registry.acquiring && v.registry == Leave(g, w.acquires[t].key)
    ensures forall k :: Acquiring(v.registry, k) == |InFlight(v, k)|
  {
    var key := w.acquires[t].key;
    OneLeaves(w, v, t);
    hide InFlight;
    forall k ensures Acquiring(v.registry, k) == |InFlight(v, k)| {
      assert Acquiring(w.registry, k) == |InFlight(w, k)|;
    }
  }

  lemma LeaveLocks(w: World, g: Registry, v: World, t: TaskId)
    requires LocksSound(w) && t in w.acquires && v.acquires == w.acquires - {t}
    requires g.locks == w.registry.locks && g.acquiring == w.registry.acquiring && v.registry == Leave(g, w.acquires[t].key)
    ensures forall u :: u in v.acquires ==>
              v.acquires[u].key in v.registry.locks && v.registry.locks[v.acquires[u].key] == v.acquires[u].lock
  {
    var key := w.acquires[t].key;
    OneLeaves(w, v, t);
    assert Acquiring(w.registry, key) == |InFlight(w, key)|;
    hide InFlight;
    forall u | u in v.acquires
      ensures v.acquires[u].key in v.registry.locks && v.registry.locks[v.acquires[u].key] == v.acquires[u].lock
    {
      assert u in w.acquires && w.acquires[u] == v.acquires[u];
    }
  }

  /** Taking an acquire out of flight takes one off its key's count, and may
      take the key's lock, which nobody else then needs. */
  lemma LeaveSound(w: World, g: Registry, v: World, t: TaskId)
    requires LocksSound(w) && t in w.acquires
    requires v.acquires == w.acquires - {t}
    requires g.acquiring == w.registry.acquiring && g.locks == w.registry.locks && g.made == w.registry.made
    requires forall k :: k in g.entries ==> k in w.registry.entries || k == w.acquires[t].key
    requires v.registry == Leave(g, w.acquires[t].key)
    ensures LocksSound(v)
  {
    LeaveCounts(w, g, v, t);
    LeaveLocks(w, g, v, t);
    var h := v.registry;
    assert h.made == g.made && h.entries == g.entries;
    assert forall k :: k in h.locks ==> k in g.locks && h.locks[k] == g.locks[k];
    assert forall k :: k in g.locks && k in h.entries ==> k in h.locks;
    assert w.acquires[t].key in g.locks;
    hide Leave, InFlight, Acquiring;
  }

  /** Evicting a key's run may take the key's lock, if nobody is acquiring. */
  lemma EvictLocks(w: World, v: World, key: string)
    requires LocksSound(w) && v.registry == Evict(w.registry, key)
    requires v.acquires.Keys == w.acquires.Keys
    requires forall t :: t in w.acquires ==> v.acquires[t].key == w.acquires[t].key && v.acquires[t].lock == w.acquires[t].lock
    ensures LocksSound(v)
  {
    forall k ensures Acquiring(v.registry, k) == |InFlight(v, k)| {
      assert InFlight(v, k) == InFlight(w, k);
    }
    forall u | u in v.acquires ensures v.acquires[u].key in v.registry.locks {
      assert u in InFlight(v, v.acquires[u].key);
    }
  }

  /** A change that leaves locks, counts and acquires' keys alone. */
  lemma SameLocks(w: World, v: World)
    requires LocksSound(w)
    requires v.registry.acquiring == w.registry.acquiring && v.registry.locks == w.registry.locks
    requires v.registry.made >= w.registry.made
    requires forall k :: k in v.registry.entries ==> k in w.registry.entries
    requires v.acquires.Keys == w.acquires.Keys
    requires forall t :: t in w.acquires ==> v.acquires[t].key == w.acquires[t].key && v.acquires[t].lock == w.acquires[t].lock
    ensures LocksSound(v)
  {
    forall k ensures Acquiring(v.registry, k) == |InFlight(v, k)| {
      assert InFlight(v, k) == InFlight(w, k);
    }
  }

  /** Who was past its wait, or evicting, still is, under the same lock, and no
      key gained a run. */
  lemma SameBuilds(w: World, v: World)
    requires BuildsSound(w) && v.holders == w.holders
    requires forall t :: t in v.acquires && !v.acquires[t].stage.Waiting? ==>
               && t in w.acquires && !w.acquires[t].stage.Waiting?
               && v.acquires[t].lock == w.acquires[t].lock && v.acquires[t].key == w.acquires[t].key
    requires forall m :: m in v.timers && v.timers[m].Evicting? ==> m in w.timers && w.timers[m] == v.timers[m]
    requires v.registry.entries.Keys <= w.registry.entries.Keys
    ensures BuildsSound(v)
  {
  }

  lemma SameCap(w: World, v: World)
    requires CapSound(w) && Builders(v) == Builders(w)
    requires v.registry.pending == w.registry.pending && v.registry.maxRuns == w.registry.maxRuns
    requires v.registry.entries.Keys <= w.registry.entries.Keys
    ensures CapSound(v)
  {
    SubsetSmaller(v.registry.entries.Keys, w.registry.entries.Keys);
    assert |v.registry.entries| == |v.registry.entries.Keys| && |w.registry.entries| == |w.registry.entries.Keys|;
  }

  lemma {:induction false} SubsetSmaller<T>(a: set<T>, b: set<T>)
    requires a <= b
    ensures |a| <= |b|
  {
    if a != {} {
      var x :| x in a;
      SubsetSmaller(a - {x}, b - {x});
    }
  }

  lemma SameSockets(w: World, v: World)
    requires SocketsSound(w) && v.sessions == w.sessions && v.tasks >= w.tasks
    requires v.registry.entries.Keys == w.registry.entries.Keys
    requires forall k :: k in w.registry.entries ==>
               v.registry.entries[k].run == w.registry.entries[k].run
               && v.registry.entries[k].sockets == w.registry.entries[k].sockets
    requires forall t :: t in v.acquires ==> t in w.acquires || (t >= w.tasks && t < v.tasks)
    ensures SocketsSound(v)
  {
    assert forall k :: Holding(v, k) == Holding(w, k);
  }

  /** No timer changed, and an entry's timer is as it was, or called off. */
  lemma SameTimers(w: World, v: World)
    requires TimersSound(w) && TimersNumbered(w)
    requires v.registry.made >= w.registry.made && v.registry.idleSeconds == w.registry.idleSeconds
    requires forall m :: m in v.timers ==> m in w.timers && (v.timers[m] == w.timers[m] || v.timers[m].Evicting?)
    requires forall k :: k in v.registry.entries && v.registry.entries[k].timer.Some? ==>
               k in w.registry.entries && v.registry.entries[k] == w.registry.entries[k]
    ensures TimersSound(v) && TimersNumbered(v)
  {
  }

  lemma OneEnters(w: World, v: World, key: string)
    requires w.tasks !in w.acquires
    requires v.acquires.Keys == w.acquires.Keys + {w.tasks} && v.acquires[w.tasks].key == key
    requires forall t :: t in w.acquires ==> v.acquires[t] == w.acquires[t]
    ensures |InFlight(v, key)| == |InFlight(w, key)| + 1
    ensures forall k :: k != key ==> InFlight(v, k) == InFlight(w, k)
  {
    EntersFlight(w, v, key, key);
    forall k | k != key ensures InFlight(v, k) == InFlight(w, k) {
      EntersFlight(w, v, key, k);
    }
  }

  lemma EntersFlight(w: World, v: World, key: string, k: string)
    requires w.tasks !in w.acquires
    requires v.acquires.Keys == w.acquires.Keys + {w.tasks} && v.acquires[w.tasks].key == key
    requires forall t :: t in w.acquires ==> v.acquires[t] == w.acquires[t]
    ensures InFlight(v, k) == (if k == key then InFlight(w, k) + {w.tasks} else InFlight(w, k)) && w.tasks !in InFlight(w, k)
  {
  }

  lemma BeginsLocks(w: World, key: string)
    requires LocksSound(w) && w.tasks !in w.acquires
    ensures LocksSound(Next(w, Begins(key)))
  {
    var v := Next(w, Begins(key));
    OneEnters(w, v, key);
    var g, h := w.registry, v.registry;
    assert Acquiring(h, key) == Acquiring(g, key) + 1;
    assert forall k :: k != key ==> Acquiring(h, k) == Acquiring(g, k);
    assert h.entries == g.entries && key in h.locks && v.acquires[w.tasks] == Acquire(key, h.locks[key], Waiting);
    assert v.acquires == w.acquires[w.tasks := v.acquires[w.tasks]];
    assert if key in g.locks then h.locks == g.locks && h.made == g.made
           else h.locks == g.locks[key := g.made] && h.made == g.made + 1;
    hide Next, InFlight, Acquiring;
  }

  lemma NextTaskIsNew(w: World)
    requires SocketsSound(w)
    ensures w.tasks !in w.acquires
  {
  }

  lemma BeginsSound(w: World, key: string)
    requires Sound(w)
    ensures Sound(Next(w, Begins(key)))
  {
    hide LocksSound, BuildsSound, CapSound, SocketsSound, TimersSound, TimersNumbered;
    var v := Next(w, Begins(key));
    NextTaskIsNew(w);
    BeginsLocks(w, key);
    SameBuilds(w, v);
    assert Builders(v) == Builders(w);
    SameCap(w, v);
    SameSockets(w, v);
    SameTimers(w, v);
  }

  /** Who holds a lock holds it alone. */
  lemma SoleHolder(w: World, t: TaskId)
    requires BuildsSound(w) && t in w.acquires && !w.acquires[t].stage.Waiting?
    ensures forall u :: u in w.acquires && u != t && !w.acquires[u].stage.Waiting? ==> w.acquires[u].lock != w.acquires[t].lock
    ensures forall m :: m in w.timers && w.timers[m].Evicting? ==> w.timers[m].lock != w.acquires[t].lock
  {
  }

  /** Who is past its wait for a key's lock is alone. */
  lemma SoleKey(w: World, t: TaskId)
    requires LocksSound(w) && BuildsSound(w) && t in w.acquires && !w.acquires[t].stage.Waiting?
    ensures forall u :: u in w.acquires && u != t && !w.acquires[u].stage.Waiting? ==> w.acquires[u].key != w.acquires[t].key
  {
    SoleHolder(w, t);
  }

  /** An acquire that held its lock leaves, and lets go of it. */
  lemma LetGo(w: World, v: World, t: TaskId)
    requires LocksSound(w) && BuildsSound(w) && t in w.acquires && !w.acquires[t].stage.Waiting?
    requires v.holders == w.holders - {w.acquires[t].lock} && v.acquires == w.acquires - {t} && v.timers == w.timers
    requires v.registry.entries.Keys <= w.registry.entries.Keys + {w.acquires[t].key}
    ensures BuildsSound(v)
  {
    SoleHolder(w, t);
    SoleKey(w, t);
  }

  /** An acquire that is not building gives up. */
  lemma AbandonSound(w: World, t: TaskId)
    requires Sound(w) && t in w.acquires && (w.acquires[t].stage.Waiting? || w.acquires[t].stage.MakingRoom?)
    ensures Sound(Abandon(w, t))
  {
    hide LocksSound, BuildsSound, CapSound, SocketsSound, TimersSound, TimersNumbered;
    var v := Abandon(w, t);
    LeaveSound(w, w.registry, v, t);
    if w.acquires[t].stage.Waiting? {
      SameBuilds(w, v);
    } else {
      LetGo(w, v, t);
    }
    assert Builders(v) == Builders(w);
    SameCap(w, v);
    SameSockets(w, v);
    SameTimers(w, v);
  }

  /** An acquire that was building gives up, its run stopped. */
  lemma BuildAbandonSound(w: World, t: TaskId)
    requires Sound(w) && t in w.acquires && w.acquires[t].stage.Stopping?
    ensures Sound(Abandon(w.(registry := w.registry.(pending := w.registry.pending - 1)), t))
  {
    hide LocksSound, BuildsSound, SocketsSound, TimersSound, TimersNumbered;
    var g := w.registry.(pending := w.registry.pending - 1);
    var v := Abandon(w.(registry := g), t);
    LeaveSound(w, g, v, t);
    LetGo(w, v, t);
    FewerBuilders(w, v, t);
    SameSockets(w, v);
    SameTimers(w, v);
  }

  lemma FewerBuilders(w: World, v: World, t: TaskId)
    requires CapSound(w) && t in w.acquires && (w.acquires[t].stage.Starting? || w.acquires[t].stage.Stopping?)
    requires v.acquires == w.acquires - {t} && v.registry.pending == w.registry.pending - 1
    requires v.registry.maxRuns == w.registry.maxRuns && |v.registry.entries| <= |w.registry.entries| + 1
    ensures CapSound(v)
  {
    assert t in Builders(w);
    assert Builders(v) == Builders(w) - {t};
  }

  /** Acquires move on; who builds and who waits stays as it is. */
  lemma StagesMove(w: World, v: World)
    requires Sound(w) && v == w.(acquires := v.acquires) && v.acquires.Keys == w.acquires.Keys
    requires forall u :: u in w.acquires ==>
               && v.acquires[u].key == w.acquires[u].key && v.acquires[u].lock == w.acquires[u].lock
               && v.acquires[u].stage.Waiting? == w.acquires[u].stage.Waiting?
               && v.acquires[u].stage.MakingRoom? == w.acquires[u].stage.MakingRoom?
    ensures Sound(v)
  {
    hide LocksSound, BuildsSound, CapSound, SocketsSound, TimersSound, TimersNumbered;
    SameLocks(w, v);
    SameBuilds(w, v);
    assert Builders(v) == Builders(w);
    SameCap(w, v);
    SameSockets(w, v);
    SameTimers(w, v);
  }

  lemma ToStoppingSound(w: World, t: TaskId)
    requires Sound(w)
    ensures Sound(ToStopping(w, t))
  {
    hide Sound;
    StagesMove(w, ToStopping(w, t));
  }

  /** An acquire's world as it holds its key's lock without a run. */
  function Inside(w: World, t: TaskId): World
    requires t in w.acquires
  {
    w.(holders := w.holders[w.acquires[t].lock := Acquirer(t)],
       acquires := w.acquires[t := w.acquires[t].(stage := MakingRoom)])
  }

  lemma InsideBuilds(w: World, t: TaskId)
    requires BuildsSound(w) && t in w.acquires && w.acquires[t].key !in w.registry.entries
    requires w.acquires[t].stage.MakingRoom? || (w.acquires[t].stage.Waiting? && w.acquires[t].lock !in w.holders)
    ensures BuildsSound(Inside(w, t))
  {
  }

  lemma InsideSound(w: World, t: TaskId)
    requires Sound(w) && t in w.acquires && w.acquires[t].key !in w.registry.entries
    requires w.acquires[t].stage.MakingRoom? || (w.acquires[t].stage.Waiting? && w.acquires[t].lock !in w.holders)
    ensures Sound(Inside(w, t))
  {
    hide LocksSound, BuildsSound, CapSound, SocketsSound, TimersSound, TimersNumbered;
    var r := Inside(w, t);
    InsideBuilds(w, t);
    assert r.registry == w.registry && r.sessions == w.sessions && r.timers == w.timers && r.tasks == w.tasks;
    assert r.acquires.Keys == w.acquires.Keys;
    assert forall u :: u in w.acquires ==> r.acquires[u].key == w.acquires[u].key && r.acquires[u].lock == w.acquires[u].lock;
    assert Builders(r) == Builders(w);
    hide Inside, Builders;
    SameLocks(w, r);
    SameCap(w, r);
    SameSockets(w, r);
    SameTimers(w, r);
  }

  /** There is room: the run to come takes it. */
  lemma ReserveSound(w: World, t: TaskId)
    requires Sound(w) && t in w.acquires && w.acquires[t].stage.MakingRoom? && !AtCap(w.registry)
    ensures var (g, run) := Reserve(w.registry);
            Sound(w.(registry := g, acquires := w.acquires[t := w.acquires[t].(stage := Starting(run))]))
  {
    hide LocksSound, BuildsSound, SocketsSound, TimersSound, TimersNumbered;
    var (g, run) := Reserve(w.registry);
    var v := w.(registry := g, acquires := w.acquires[t := w.acquires[t].(stage := Starting(run))]);
    SameLocks(w, v);
    SameBuilds(w, v);
    assert t !in Builders(w);
    assert Builders(v) == Builders(w) + {t};
    SameSockets(w, v);
    SameTimers(w, v);
  }

  /** A run nobody watches goes, from whichever coroutine. */
  lemma EvictSound(w: World, key: string)
    requires Sound(w) && key in w.registry.entries && w.registry.entries[key].sockets == 0
    ensures Sound(w.(registry := Evict(w.registry, key)))
  {
    hide LocksSound, BuildsSound, CapSound, SocketsSound, TimersSound, TimersNumbered;
    var v := w.(registry := Evict(w.registry, key));
    assert v.registry.entries == w.registry.entries - {key};
    assert v.registry.made == w.registry.made && v.registry.idleSeconds == w.registry.idleSeconds;
    assert v.registry.pending == w.registry.pending && v.registry.maxRuns == w.registry.maxRuns;
    EvictLocks(w, v, key);
    hide Evict;
    SameBuilds(w, v);
    assert Builders(v) == Builders(w);
    hide Builders;
    SameCap(w, v);
    EvictedUnwatched(w, v, key);
    SameTimers(w, v);
  }

  /** A run evicted with no sockets has no session, so none loses its run. */
  lemma EvictedUnwatched(w: World, v: World, key: string)
    requires SocketsSound(w) && key in w.registry.entries && w.registry.entries[key].sockets == 0
    requires v.sessions == w.sessions && v.registry.entries == w.registry.entries - {key}
    requires v.acquires.Keys == w.acquires.Keys && v.tasks == w.tasks
    ensures SocketsSound(v)
  {
    assert Holding(w, key) == {};
    forall t | t in v.sessions ensures v.sessions[t].key != key {
      assert v.sessions[t].key == key ==> t in Holding(w, key);
    }
    assert forall k :: Holding(v, k) == Holding(w, k);
  }

  lemma SeekRoomSound(w: World, t: TaskId, victim: string)
    requires Sound(w) && t in w.acquires && w.acquires[t].key !in w.registry.entries
    requires w.acquires[t].stage.MakingRoom? || (w.acquires[t].stage.Waiting? && w.acquires[t].lock !in w.holders)
    ensures Sound(SeekRoom(w, t, victim))
  {
    hide LocksSound, BuildsSound, CapSound, SocketsSound, TimersSound, TimersNumbered;
    InsideSound(w, t);
    var r := Inside(w, t);
    if !AtCap(w.registry) {
      ReserveSound(r, t);
      var run := Reserve(w.registry).1;
      var a := w.acquires[t];
      assert r.acquires[t := r.acquires[t].(stage := Starting(run))] == w.acquires[t := a.(stage := Starting(run))];
    } else if forall k :: k in w.registry.entries ==> w.registry.entries[k].sockets != 0 {
      AbandonSound(r, t);
    } else if IsVictim(w.registry, victim) {
      EvictSound(r, victim);
    }
  }

  lemma OneMoreHolder(w: World, v: World, t: TaskId, key: string, run: RunId)
    requires t !in w.sessions && v.sessions == w.sessions[t := Session(key, run)]
    ensures |Holding(v, key)| == |Holding(w, key)| + 1
    ensures forall k :: k != key ==> Holding(v, k) == Holding(w, k)
  {
    assert Holding(v, key) == Holding(w, key) + {t};
  }

  /** An acquire becomes a session on its key's run. */
  lemma OneMoreSession(w: World, v: World, t: TaskId, key: string, run: RunId)
    requires SocketsSound(w) && t in w.acquires
    requires v.sessions == w.sessions[t := Session(key, run)] && v.acquires == w.acquires - {t} && v.tasks == w.tasks
    requires v.registry.entries.Keys == w.registry.entries.Keys + {key} && v.registry.entries[key].run == run
    requires key in w.registry.entries ==> w.registry.entries[key].run == run
    requires v.registry.entries[key].sockets == 1 + if key in w.registry.entries then w.registry.entries[key].sockets else 0
    requires forall k :: k in w.registry.entries && k != key ==> v.registry.entries[k] == w.registry.entries[k]
    ensures SocketsSound(v)
  {
    hide SessionsOwn, SocketsCounted, Holding;
    OneMoreNumbered(w, v, t);
    OneMoreOwned(w, v, t, key, run);
    OneMoreHolder(w, v, t, key, run);
    OneMoreCounted(w, v, key);
  }

  lemma OneMoreNumbered(w: World, v: World, t: TaskId)
    requires TasksNumbered(w) && t in w.acquires
    requires v.sessions.Keys == w.sessions.Keys + {t} && v.acquires == w.acquires - {t} && v.tasks == w.tasks
    ensures TasksNumbered(v) && t !in w.sessions
  {
  }

  lemma OneMoreOwned(w: World, v: World, t: TaskId, key: string, run: RunId)
    requires SessionsOwn(w) && v.sessions == w.sessions[t := Session(key, run)]
    requires v.registry.entries.Keys == w.registry.entries.Keys + {key} && v.registry.entries[key].run == run
    requires key in w.registry.entries ==> w.registry.entries[key].run == run
    requires forall k :: k in w.registry.entries && k != key ==> v.registry.entries[k] == w.registry.entries[k]
    ensures SessionsOwn(v)
  {
    forall u | u in v.sessions
      ensures v.sessions[u].key in v.registry.entries && v.registry.entries[v.sessions[u].key].run == v.sessions[u].run
    {
      if u != t {
        assert u in w.sessions;
      }
    }
  }

  lemma OneMoreCounted(w: World, v: World, key: string)
    requires SocketsSound(w)
    requires |Holding(v, key)| == |Holding(w, key)| + 1 && forall k :: k != key ==> Holding(v, k) == Holding(w, k)
    requires v.registry.entries.Keys == w.registry.entries.Keys + {key}
    requires v.registry.entries[key].sockets == 1 + if key in w.registry.entries then w.registry.entries[key].sockets else 0
    requires forall k :: k in w.registry.entries && k != key ==> v.registry.entries[k] == w.registry.entries[k]
    ensures SocketsCounted(v)
  {
    if key !in w.registry.entries {
      NoSession(w, key);
    }
    hide Holding, SessionsOwn, TasksNumbered;
  }

  lemma NoSession(w: World, key: string)
    requires SocketsSound(w) && key !in w.registry.entries
    ensures Holding(w, key) == {}
  {
  }

  lemma JoinsSockets(w: World, t: TaskId, victim: string, now: real)
    requires SocketsSound(w) && t in w.acquires && w.acquires[t].stage.Waiting? && w.acquires[t].lock !in w.holders
    requires w.acquires[t].key in w.registry.entries
    ensures SocketsSound(Next(w, GetsLock(t, victim, now)))
  {
    hide SocketsSound;
    var key := w.acquires[t].key;
    OneMoreSession(w, Next(w, GetsLock(t, victim, now)), t, key, w.registry.entries[key].run);
  }

  lemma JoinsSound(w: World, t: TaskId, victim: string, now: real)
    requires Sound(w) && t in w.acquires && w.acquires[t].stage.Waiting? && w.acquires[t].lock !in w.holders
    requires w.acquires[t].key in w.registry.entries
    ensures Sound(Next(w, GetsLock(t, victim, now)))
  {
    hide LocksSound, BuildsSound, CapSound, SocketsSound, TimersSound, TimersNumbered;
    var v := Next(w, GetsLock(t, victim, now));
    var key := w.acquires[t].key;
    LeaveSound(w, Join(w.registry, key, now), v, t);
    assert v.registry.entries.Keys == w.registry.entries.Keys;
    SameBuilds(w, v);
    assert Builders(v) == Builders(w);
    SameCap(w, v);
    JoinsSockets(w, t, victim, now);
    SameTimers(w, v);
  }

  lemma StartedSockets(w: World, t: TaskId, now: real)
    requires SocketsSound(w) && BuildsSound(w) && t in w.acquires && w.acquires[t].stage.Starting?
    ensures SocketsSound(Next(w, Started(t, now)))
  {
    NoRunYet(w, t);
    hide SocketsSound, BuildsSound;
    OneMoreSession(w, Next(w, Started(t, now)), t, w.acquires[t].key, w.acquires[t].stage.run);
  }

  lemma StartedCap(w: World, t: TaskId, now: real)
    requires Sound(w) && t in w.acquires && w.acquires[t].stage.Starting?
    ensures CapSound(Next(w, Started(t, now)))
  {
    hide LocksSound, SocketsSound, TimersSound, TimersNumbered;
    var v := Next(w, Started(t, now));
    var key := w.acquires[t].key;
    assert v.registry.entries.Keys == w.registry.entries.Keys + {key};
    assert |v.registry.entries| == |v.registry.entries.Keys| && |w.registry.entries| == |w.registry.entries.Keys|;
    FewerBuilders(w, v, t);
  }

  lemma StartedSound(w: World, t: TaskId, now: real)
    requires Sound(w) && t in w.acquires && w.acquires[t].stage.Starting?
    ensures Sound(Next(w, Started(t, now)))
  {
    hide LocksSound, BuildsSound, CapSound, SocketsSound, TimersSound, TimersNumbered;
    var v := Next(w, Started(t, now));
    var a := w.acquires[t];
    LeaveSound(w, Insert(w.registry, a.key, a.stage.run, now), v, t);
    LetGo(w, v, t);
    StartedCap(w, t, now);
    StartedSockets(w, t, now);
    SameTimers(w, v);
  }

  /** Whoever releases a run holds the one under its key, which counts it. */
  lemma ReleaseCounts(w: World, t: TaskId)
    requires SocketsSound(w) && t in w.sessions
    ensures w.sessions[t].key in w.registry.entries
    ensures w.registry.entries[w.sessions[t].key].sockets > 0
  {
    assert t in Holding(w, w.sessions[t].key);
  }

  lemma FewerSessions(w: World, v: World, t: TaskId)
    requires SocketsSound(w) && t in w.sessions
    requires v.sessions == w.sessions - {t} && v.acquires == w.acquires && v.tasks == w.tasks
    requires v.registry.entries.Keys == w.registry.entries.Keys
    requires forall k :: k in w.registry.entries ==>
               && v.registry.entries[k].run == w.registry.entries[k].run
               && v.registry.entries[k].sockets == w.registry.entries[k].sockets - if k == w.sessions[t].key then 1 else 0
    ensures SocketsSound(v)
  {
    var key := w.sessions[t].key;
    assert t in Holding(w, key);
    assert Holding(v, key) == Holding(w, key) - {t};
    assert forall k :: k != key ==> Holding(v, k) == Holding(w, k);
  }

  lemma ReleasesSockets(w: World, t: TaskId, now: real)
    requires Sound(w) && t in w.sessions
    ensures SocketsSound(Next(w, Releases(t, now)))
    ensures w.sessions[t].key in w.registry.entries
    ensures w.registry.entries[w.sessions[t].key].sockets > 0
  {
    hide LocksSound, BuildsSound, CapSound, SocketsSound, TimersSound, TimersNumbered;
    ReleaseCounts(w, t);
    FewerSessions(w, Next(w, Releases(t, now)), t);
  }

  lemma ReleasesTimers(w: World, t: TaskId, now: real)
    requires Sound(w) && t in w.sessions
    ensures TimersSound(Next(w, Releases(t, now))) && TimersNumbered(Next(w, Releases(t, now)))
  {
    hide LocksSound, BuildsSound, CapSound, SocketsSound;
    ReleasesSockets(w, t, now);
    var v, key := Next(w, Releases(t, now)), w.sessions[t].key;
    var e := w.registry.entries[key];
    ReleasedTimers(w, v, key, now);
  }

  /** A run's last release sets its timer; another leaves the timers as they are. */
  lemma ReleasedTimers(w: World, v: World, key: string, now: real)
    requires TimersSound(w) && TimersNumbered(w) && key in w.registry.entries && w.registry.entries[key].sockets > 0
    requires v.registry == Release(w.registry, key, now).0
    requires var timer := Release(w.registry, key, now).1;
             v.timers == if timer.Some? then w.timers[timer.value := Asleep(key, now + w.registry.idleSeconds)] else w.timers
    ensures TimersSound(v) && TimersNumbered(v)
  {
    assert w.registry.entries[key].timer.None? by { hide TimersNumbered; }
    ReleasedTimersSound(w, v, key, now);
    ReleasedTimersNumbered(w, v, key, now);
  }

  lemma ReleasedTimersSound(w: World, v: World, key: string, now: real)
    requires TimersSound(w) && TimersNumbered(w) && key in w.registry.entries && w.registry.entries[key].sockets > 0
    requires w.registry.entries[key].timer.None? && v.registry == Release(w.registry, key, now).0
    requires var timer := Release(w.registry, key, now).1;
             v.timers == if timer.Some? then w.timers[timer.value := Asleep(key, now + w.registry.idleSeconds)] else w.timers
    ensures TimersSound(v)
  {
    forall k | k in v.registry.entries && k != key ensures v.registry.entries[k] == w.registry.entries[k] {
    }
    assert v.registry.idleSeconds == w.registry.idleSeconds;
  }

  lemma ReleasedTimersNumbered(w: World, v: World, key: string, now: real)
    requires TimersNumbered(w) && key in w.registry.entries
    requires w.registry.entries[key].timer.None? && v.registry == Release(w.registry, key, now).0
    requires var timer := Release(w.registry, key, now).1;
             v.timers == if timer.Some? then w.timers[timer.value := Asleep(key, now + w.registry.idleSeconds)] else w.timers
    ensures TimersNumbered(v)
  {
  }

  lemma ReleasesSound(w: World, t: TaskId, now: real)
    requires Sound(w) && t in w.sessions
    ensures Sound(Next(w, Releases(t, now)))
  {
    hide LocksSound, BuildsSound, CapSound, SocketsSound, TimersSound, TimersNumbered;
    var v := Next(w, Releases(t, now));
    ReleasesSockets(w, t, now);
    assert v.registry.entries.Keys == w.registry.entries.Keys;
    SameLocks(w, v);
    SameBuilds(w, v);
    assert Builders(v) == Builders(w);
    SameCap(w, v);
    ReleasesTimers(w, t, now);
  }

  /** A timer moves on, holding nothing yet. */
  lemma TimersMove(w: World, v: World)
    requires Sound(w) && TimersSound(v) && TimersNumbered(v)
    requires v == w.(timers := v.timers)
    requires forall m :: m in v.timers && v.timers[m].Evicting? ==> m in w.timers && w.timers[m] == v.timers[m]
    ensures Sound(v)
  {
    hide LocksSound, BuildsSound, CapSound, SocketsSound, TimersSound, TimersNumbered;
    SameLocks(w, v);
    SameBuilds(w, v);
    assert Builders(v) == Builders(w);
    SameCap(w, v);
    SameSockets(w, v);
  }

  lemma TimerWakesSound(w: World, m: TaskId, now: real)
    requires Sound(w)
    ensures Sound(Next(w, TimerWakes(m, now)))
  {
    hide LocksSound, BuildsSound, CapSound, SocketsSound, TimersSound, TimersNumbered;
    TimerWakesTimers(w, m, now);
    TimersMove(w, Next(w, TimerWakes(m, now)));
  }

  lemma TimerWakesTimers(w: World, m: TaskId, now: real)
    requires TimersSound(w) && TimersNumbered(w)
    ensures TimersSound(Next(w, TimerWakes(m, now))) && TimersNumbered(Next(w, TimerWakes(m, now)))
  {
  }

  lemma TimerHoldsBuilds(w: World, m: TaskId)
    requires BuildsSound(w) && m in w.timers && w.timers[m].Wakeful? && w.timers[m].lock !in w.holders
    ensures BuildsSound(w.(timers := w.timers[m := Evicting(w.timers[m].lock)],
                           holders := w.holders[w.timers[m].lock := IdleTimer(m)]))
  {
  }

  /** A timer holds its lock while the run it evicted stops. */
  lemma TimerHolds(w: World, m: TaskId)
    requires Sound(w) && m in w.timers && w.timers[m].Wakeful? && w.timers[m].lock !in w.holders
    ensures Sound(w.(timers := w.timers[m := Evicting(w.timers[m].lock)],
                     holders := w.holders[w.timers[m].lock := IdleTimer(m)]))
  {
    hide LocksSound, BuildsSound, CapSound, SocketsSound, TimersSound, TimersNumbered;
    var v := w.(timers := w.timers[m := Evicting(w.timers[m].lock)],
                holders := w.holders[w.timers[m].lock := IdleTimer(m)]);
    TimerHoldsBuilds(w, m);
    SameLocks(w, v);
    assert Builders(v) == Builders(w);
    SameCap(w, v);
    SameSockets(w, v);
    SameTimers(w, v);
  }

  /** A timer ends, evicting nothing more. */
  lemma TimerGone(w: World, m: TaskId)
    requires Sound(w) && m in w.timers && !w.timers[m].Evicting?
    ensures Sound(w.(timers := w.timers - {m}))
  {
    hide LocksSound, BuildsSound, CapSound, SocketsSound, TimersSound, TimersNumbered;
    var v := w.(timers := w.timers - {m});
    SameLocks(w, v);
    SameBuilds(w, v);
    assert Builders(v) == Builders(w);
    SameCap(w, v);
    SameSockets(w, v);
    SameTimers(w, v);
  }

  lemma TimerGetsLockSound(w: World, m: TaskId, now: real)
    requires Sound(w) && m in w.timers && w.timers[m].Wakeful? && w.timers[m].lock !in w.holders
    ensures Sound(Next(w, TimerGetsLock(m, now)))
  {
    hide LocksSound, BuildsSound, CapSound, SocketsSound, TimersSound, TimersNumbered;
    var key := w.timers[m].key;
    if key in w.registry.entries && w.registry.entries[key].sockets == 0 {
      TimerHolds(w, m);
      EvictSound(w.(timers := w.timers[m := Evicting(w.timers[m].lock)],
                    holders := w.holders[w.timers[m].lock := IdleTimer(m)]), key);
    } else {
      TimerGone(w, m);
    }
  }

  lemma TimerLetsGo(w: World, v: World, m: TaskId)
    requires BuildsSound(w) && m in w.timers && w.timers[m].Evicting?
    requires v == w.(timers := w.timers - {m}, holders := w.holders - {w.timers[m].lock})
    ensures BuildsSound(v)
  {
    assert w.holders[w.timers[m].lock] == IdleTimer(m);
  }

  lemma TimerEndsSound(w: World, m: TaskId)
    requires Sound(w) && m in w.timers && w.timers[m].Evicting?
    ensures Sound(Next(w, TimerEnds(m)))
  {
    hide LocksSound, BuildsSound, CapSound, SocketsSound, TimersSound, TimersNumbered;
    var v := Next(w, TimerEnds(m));
    SameLocks(w, v);
    TimerLetsGo(w, v, m);
    assert Builders(v) == Builders(w);
    SameCap(w, v);
    SameSockets(w, v);
    SameTimers(w, v);
  }

  lemma NoRunYet(w: World, t: TaskId)
    requires BuildsSound(w) && t in w.acquires && !w.acquires[t].stage.Waiting?
    ensures w.acquires[t].key !in w.registry.entries
  {
  }

  lemma NextSound(w: World, e: Event)
    requires Sound(w)
    ensures Sound(Next(w, e))
  {
    hide LocksSound, BuildsSound, CapSound, SocketsSound, TimersSound, TimersNumbered;
    match e
    case Begins(key) => BeginsSound(w, key);
    case GetsLock(t, victim, now) =>
      if t in w.acquires && w.acquires[t].stage.Waiting? && w.acquires[t].lock !in w.holders {
        if w.acquires[t].key in w.registry.entries {
          JoinsSound(w, t, victim, now);
        } else {
          SeekRoomSound(w, t, victim);
        }
      }
    case VictimStopped(t, victim) =>
      if t in w.acquires && w.acquires[t].stage.MakingRoom? {
        NoRunYet(w, t);
        SeekRoomSound(w, t, victim);
      }
    case Started(t, now) => if t in w.acquires && w.acquires[t].stage.Starting? { StartedSound(w, t, now); }
    case StartFailed(t) => ToStoppingSound(w, t);
    case RunStopped(t) => if t in w.acquires && w.acquires[t].stage.Stopping? { BuildAbandonSound(w, t); }
    case Cancelled(t) =>
      if t in w.acquires {
        if w.acquires[t].stage.Starting? {
          ToStoppingSound(w, t);
        } else if w.acquires[t].stage.Stopping? {
          BuildAbandonSound(w, t);
        } else {
          AbandonSound(w, t);
        }
      }
    case Releases(t, now) => if t in w.sessions { ReleasesSound(w, t, now); }
    case TimerWakes(m, now) => TimerWakesSound(w, m, now);
    case TimerGetsLock(m, now) =>
      if m in w.timers && w.timers[m].Wakeful? && w.timers[m].lock !in w.holders { TimerGetsLockSound(w, m, now); }
    case TimerEnds(m) => if m in w.timers && w.timers[m].Evicting? { TimerEndsSound(w, m); }
  }

  lemma {:induction false} AfterSound(maxRuns: int, idleSeconds: real, events: seq<Event>)
    ensures Sound(After(Initial(maxRuns, idleSeconds), events))
  {
    var w := Initial(maxRuns, idleSeconds);
    if events == [] {
      assert Builders(w) == {};
      assert forall k :: InFlight(w, k) == {};
    } else {
      AfterSound(maxRuns, idleSeconds, events[..|events| - 1]);
      NextSound(After(w, events[..|events| - 1]), events[|events| - 1]);
    }
  }

  // ---------------------------------------------------------------- the theorems

  /** Never more runs than the cap, even counting those being built; a cap
      below one admits none. */
  lemma NeverOverTheCap(maxRuns: int, idleSeconds: real, events: seq<Event>)
    ensures var w := After(Initial(maxRuns, idleSeconds), events);
            |w.registry.entries| + |Builders(w)| <= if maxRuns > 0 then maxRuns else 0
  {
    AfterSound(maxRuns, idleSeconds, events);
    AfterKeepsSettings(maxRuns, idleSeconds, events);
  }

  lemma {:induction false} AfterKeepsSettings(maxRuns: int, idleSeconds: real, events: seq<Event>)
    ensures var w := After(Initial(maxRuns, idleSeconds), events);
            w.registry.maxRuns == maxRuns && w.registry.idleSeconds == idleSeconds
  {
    if events != [] {
      AfterKeepsSettings(maxRuns, idleSeconds, events[..|events| - 1]);
      NextKeepsSettings(After(Initial(maxRuns, idleSeconds), events[..|events| - 1]), events[|events| - 1]);
    }
  }

  predicate SameSettings(g: Registry, h: Registry)
  {
    g.maxRuns == h.maxRuns && g.idleSeconds == h.idleSeconds
  }

  lemma SeekRoomKeepsSettings(w: World, t: TaskId, victim: string)
    requires t in w.acquires
    ensures SameSettings(SeekRoom(w, t, victim).registry, w.registry)
  {
  }

  lemma NextKeepsSettings(w: World, e: Event)
    ensures SameSettings(Next(w, e).registry, w.registry)
  {
    match e
    case GetsLock(t, victim, now) => if t in w.acquires { SeekRoomKeepsSettings(w, t, victim); }
    case VictimStopped(t, victim) => if t in w.acquires { SeekRoomKeepsSettings(w, t, victim); }
    case RunStopped(t) =>
    case Cancelled(t) =>
    case Started(t, now) =>
    case _ =>
  }

  /** All acquires in flight for a key use one lock, the key's own, though locks
      are reclaimed; at most one of them is past it, and none is while the key
      has a run. So at most one run per key is ever being built. */
  lemma OneBuildPerKey(maxRuns: int, idleSeconds: real, events: seq<Event>, t: TaskId, u: TaskId)
    requires var w := After(Initial(maxRuns, idleSeconds), events);
             t in w.acquires && u in w.acquires && w.acquires[t].key == w.acquires[u].key
    ensures var w := After(Initial(maxRuns, idleSeconds), events);
            && w.acquires[t].lock == w.acquires[u].lock
            && w.acquires[t].key in w.registry.locks && w.registry.locks[w.acquires[t].key] == w.acquires[t].lock
            && (!w.acquires[t].stage.Waiting? && !w.acquires[u].stage.Waiting? ==> t == u)
            && (!w.acquires[t].stage.Waiting? ==> w.acquires[t].key !in w.registry.entries)
  {
    AfterSound(maxRuns, idleSeconds, events);
  }

  /** A session's run is the one under its key, for as long as it holds it: no
      run with a holder is evicted, its sockets are its sessions, and a release
      acts on the run its session acquired. */
  lemma SessionsKeepTheirRun(maxRuns: int, idleSeconds: real, events: seq<Event>, t: TaskId)
    requires t in After(Initial(maxRuns, idleSeconds), events).sessions
    ensures var w := After(Initial(maxRuns, idleSeconds), events);
            var s := w.sessions[t];
            && s.key in w.registry.entries && w.registry.entries[s.key].run == s.run
            && w.registry.entries[s.key].sockets == |Holding(w, s.key)| > 0
  {
    AfterSound(maxRuns, idleSeconds, events);
    ReleaseCounts(After(Initial(maxRuns, idleSeconds), events), t);
  }

  /** Every lock kept serves a run or somebody acquiring one; every count kept
      counts somebody. */
  ghost predicate Tidy(g: Registry)
  {
    && (forall k :: k in g.locks ==> k in g.entries || k in g.acquiring)
    && (forall k :: k in g.acquiring ==> g.acquiring[k] >= 1)
  }

  lemma LeaveTidy(g: Registry, h: Registry, key: string)
    requires Tidy(g) && key in g.acquiring
    requires h.locks == g.locks && h.acquiring == g.acquiring && g.entries.Keys <= h.entries.Keys
    ensures Tidy(Leave(h, key))
  {
  }

  lemma EvictTidy(g: Registry, key: string)
    requires Tidy(g)
    ensures Tidy(Evict(g, key))
  {
  }

  /** Whoever is in flight is counted. */
  lemma Counted(w: World, t: TaskId)
    requires LocksSound(w) && t in w.acquires
    ensures w.acquires[t].key in w.registry.acquiring
  {
    assert t in InFlight(w, w.acquires[t].key);
    assert Acquiring(w.registry, w.acquires[t].key) > 0;
  }

  lemma SeekRoomTidy(w: World, t: TaskId, victim: string)
    requires Tidy(w.registry) && t in w.acquires && w.acquires[t].key in w.registry.acquiring
    ensures Tidy(SeekRoom(w, t, victim).registry)
  {
    hide Tidy;
    LeaveTidy(w.registry, w.registry, w.acquires[t].key);
    EvictTidy(w.registry, victim);
    SameTidy(w.registry, Reserve(w.registry).0);
  }

  lemma SameTidy(g: Registry, h: Registry)
    requires Tidy(g) && h.locks == g.locks && h.acquiring == g.acquiring && g.entries.Keys <= h.entries.Keys
    ensures Tidy(h)
  {
  }

  lemma EnterTidy(g: Registry, key: string)
    requires Tidy(g)
    ensures Tidy(Enter(g, key).0)
  {
  }

  lemma GetsLockTidy(w: World, t: TaskId, victim: string, now: real)
    requires LocksSound(w) && Tidy(w.registry) && t in w.acquires
    ensures Tidy(Next(w, GetsLock(t, victim, now)).registry)
  {
    hide LocksSound, Tidy;
    Counted(w, t);
    SeekRoomTidy(w, t, victim);
    if w.acquires[t].key in w.registry.entries {
      LeaveTidy(w.registry, Join(w.registry, w.acquires[t].key, now), w.acquires[t].key);
    }
  }

  lemma EndsTidy(w: World, t: TaskId)
    requires LocksSound(w) && Tidy(w.registry) && t in w.acquires
    ensures Tidy(Abandon(w, t).registry)
    ensures Tidy(Abandon(w.(registry := w.registry.(pending := w.registry.pending - 1)), t).registry)
    ensures w.acquires[t].stage.Starting? ==> forall now :: Tidy(Next(w, Started(t, now)).registry)
  {
    hide LocksSound, Tidy;
    Counted(w, t);
    var a := w.acquires[t];
    LeaveTidy(w.registry, w.registry, a.key);
    LeaveTidy(w.registry, w.registry.(pending := w.registry.pending - 1), a.key);
    if a.stage.Starting? {
      forall now ensures Tidy(Next(w, Started(t, now)).registry) {
        LeaveTidy(w.registry, Insert(w.registry, a.key, a.stage.run, now), a.key);
      }
    }
  }

  lemma NextTidy(w: World, e: Event)
    requires LocksSound(w) && Tidy(w.registry)
    ensures Tidy(Next(w, e).registry)
  {
    hide LocksSound, Tidy;
    match e
    case Begins(key) => EnterTidy(w.registry, key);
    case GetsLock(t, victim, now) => if t in w.acquires { GetsLockTidy(w, t, victim, now); }
    case VictimStopped(t, victim) =>
      if t in w.acquires {
        Counted(w, t);
        SeekRoomTidy(w, t, victim);
      }
    case Started(t, now) => if t in w.acquires { EndsTidy(w, t); }
    case RunStopped(t) => if t in w.acquires { EndsTidy(w, t); }
    case Cancelled(t) => if t in w.acquires { EndsTidy(w, t); }
    case TimerGetsLock(m, now) => if m in w.timers && w.timers[m].Wakeful? { EvictTidy(w.registry, w.timers[m].key); }
    case Releases(t, now) => SameTidy(w.registry, Next(w, e).registry);
    case _ => assert Next(w, e).registry == w.registry;
  }

  lemma {:induction false} AfterTidy(maxRuns: int, idleSeconds: real, events: seq<Event>)
    ensures Tidy(After(Initial(maxRuns, idleSeconds), events).registry)
  {
    if events != [] {
      AfterTidy(maxRuns, idleSeconds, events[..|events| - 1]);
      AfterSound(maxRuns, idleSeconds, events[..|events| - 1]);
      NextTidy(After(Initial(maxRuns, idleSeconds), events[..|events| - 1]), events[|events| - 1]);
    }
  }

  /** Nothing is left behind: when nobody is acquiring a key and it has no run,
      it has no lock and no count either. */
  lemma LocksAreReclaimed(maxRuns: int, idleSeconds: real, events: seq<Event>, key: string)
    requires var w := After(Initial(maxRuns, idleSeconds), events);
             InFlight(w, key) == {} && key !in w.registry.entries
    ensures var w := After(Initial(maxRuns, idleSeconds), events);
            key !in w.registry.locks && key !in w.registry.acquiring
  {
    AfterSound(maxRuns, idleSeconds, events);
    AfterTidy(maxRuns, idleSeconds, events);
    assert Acquiring(After(Initial(maxRuns, idleSeconds), events).registry, key) == 0;
  }

  /** An acquire takes a run out only at the cap, only one that nobody watches,
      and of those the one used longest ago; every other run stays as it is. */
  lemma RoomIsMadeByTheLeastUsed(maxRuns: int, idleSeconds: real, events: seq<Event>, e: Event, key: string)
    requires !e.TimerGetsLock?
    requires var w := After(Initial(maxRuns, idleSeconds), events);
             key in w.registry.entries && key !in Next(w, e).registry.entries
    ensures var w := After(Initial(maxRuns, idleSeconds), events);
            var before, left := w.registry.entries, Next(w, e).registry.entries;
            && |before| + |Builders(w)| >= maxRuns
            && before[key].sockets == 0
            && left == before - {key}
            && forall k :: k in left && left[k].sockets == 0 ==> before[key].lastUsed <= left[k].lastUsed
  {
    AfterSound(maxRuns, idleSeconds, events);
    AfterKeepsSettings(maxRuns, idleSeconds, events);
    var w := After(Initial(maxRuns, idleSeconds), events);
    hide After, Sound;
    CapOf(w);
    TakesOut(w, e, key);
  }

  lemma CapOf(w: World)
    requires Sound(w)
    ensures w.registry.pending == |Builders(w)|
  {
  }

  lemma SeekRoomTakesOut(w: World, t: TaskId, victim: string, key: string)
    requires t in w.acquires && key in w.registry.entries && key !in SeekRoom(w, t, victim).registry.entries
    ensures var before, left := w.registry.entries, SeekRoom(w, t, victim).registry.entries;
            && |before| + w.registry.pending >= w.registry.maxRuns
            && before[key].sockets == 0
            && left == before - {key}
            && forall k :: k in left && left[k].sockets == 0 ==> before[key].lastUsed <= left[k].lastUsed
  {
  }

  lemma OthersTakeNothingOut(w: World, e: Event)
    requires !e.TimerGetsLock? && !e.GetsLock? && !e.VictimStopped?
    ensures w.registry.entries.Keys <= Next(w, e).registry.entries.Keys
  {
  }

  lemma TakesOut(w: World, e: Event, key: string)
    requires !e.TimerGetsLock? && key in w.registry.entries && key !in Next(w, e).registry.entries
    ensures var before, left := w.registry.entries, Next(w, e).registry.entries;
            && |before| + w.registry.pending >= w.registry.maxRuns
            && before[key].sockets == 0
            && left == before - {key}
            && forall k :: k in left && left[k].sockets == 0 ==> before[key].lastUsed <= left[k].lastUsed
  {
    if e.GetsLock? || e.VictimStopped? {
      if e.t in w.acquires && key !in SeekRoom(w, e.t, e.victim).registry.entries {
        SeekRoomTakesOut(w, e.t, e.victim, key);
      }
      hide SeekRoom;
    } else {
      OthersTakeNothingOut(w, e);
      hide Next;
    }
  }
}
