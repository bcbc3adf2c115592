/** The registry of runs: one per key, built under a lock of the key's own,
    capped, evicted when idle or to make room.

    `Registry` is the registry's own state, with a function for each stretch of
    its code between two suspensions; `World` adds the coroutines that are in
    the middle of one of its methods, and the sessions that hold a run. Locks
    and runs are objects told apart by number. */
module Registries {
  import opened Keys

  type LockId = nat
  type TaskId = nat
  type RunId = nat

  datatype Entry = Entry(run: RunId, sockets: int, lastUsed: real, timer: Option<TaskId>)

  datatype Registry = Registry(
    maxRuns: int,
    idleSeconds: real,
    entries: map<string, Entry>,
    locks: map<string, LockId>,
    acquiring: map<string, int>,
    pending: int,
    made: nat)            // locks and runs made so far: the next one's number

  // ---------------------------------------------------------------- its own code

  function Acquiring(g: Registry, key: string): int
  {
    if key in g.acquiring then g.acquiring[key] else 0
  }

  /** An acquire begins: it is counted before it waits for the key's lock,
      which is made if there is none. */
  function Enter(g: Registry, key: string): (Registry, LockId)
  {
    var counted := g.(acquiring := g.acquiring[key := Acquiring(g, key) + 1]);
    if key in g.locks then (counted, g.locks[key])
    else (counted.(locks := g.locks[key := g.made], made := g.made + 1), g.made)
  }

  /** Nobody is acquiring the key and it has no run: its lock is reclaimed. */
  function DropLockIfUnused(g: Registry, key: string): Registry
  {
    if Acquiring(g, key) <= 0 then
      g.(acquiring := g.acquiring - {key},
         locks := if key in g.entries then g.locks else g.locks - {key})
    else g
  }

  /** An acquire ends, one way or another. */
  function Leave(g: Registry, key: string): Registry
  {
    DropLockIfUnused(g.(acquiring := g.acquiring[key := Acquiring(g, key) - 1]), key)
  }

  /** One more socket on a run that is there; its idle timer is called off. */
  function Join(g: Registry, key: string, now: real): Registry
    requires key in g.entries
  {
    var e := g.entries[key];
    g.(entries := g.entries[key := e.(sockets := e.sockets + 1, lastUsed := now, timer := None)])
  }

  predicate AtCap(g: Registry)
  {
    |g.entries| + g.pending >= g.maxRuns
  }

  /** The run to evict for room: watched by nobody, and used longest ago. */
  predicate IsVictim(g: Registry, key: string)
  {
    && key in g.entries && g.entries[key].sockets == 0
    && (forall k :: k in g.entries && g.entries[k].sockets == 0 ==> g.entries[key].lastUsed <= g.entries[k].lastUsed)
  }

  function Evict(g: Registry, key: string): Registry
  {
    DropLockIfUnused(g.(entries := g.entries - {key}), key)
  }

  /** Past the capacity check: the run to come is counted. */
  function Reserve(g: Registry): (Registry, RunId)
  {
    (g.(pending := g.pending + 1, made := g.made + 1), g.made)
  }

  function Insert(g: Registry, key: string, run: RunId, now: real): Registry
  {
    g.(entries := g.entries[key := Entry(run, 1, now, None)], pending := g.pending - 1)
  }

  /** A session lets go of its key's run; the last one out sets the timer. */
  function Release(g: Registry, key: string, now: real): (Registry, Option<TaskId>)
  {
    if key !in g.entries then (g, None) else
      var e := g.entries[key];
      var left := if e.sockets - 1 > 0 then e.sockets - 1 else 0;
      if left == 0 && e.timer.None?
      then (g.(entries := g.entries[key := e.(sockets := left, lastUsed := now, timer := Some(g.made))],
               made := g.made + 1), Some(g.made))
      else (g.(entries := g.entries[key := e.(sockets := left, lastUsed := now)]), None)
  }

  // ---------------------------------------------------------------- the coroutines

  /** Where an acquire is suspended: waiting for its key's lock; holding it,
      while a victim stops, while its run starts, or while a run that failed to
      start stops. */
  datatype Stage = Waiting | MakingRoom | Starting(run: RunId) | Stopping(run: RunId)

  datatype Acquire = Acquire(key: string, lock: LockId, stage: Stage)

  /** Where an idle timer is: asleep until its time, waiting for the lock it
      found, or holding it while the run it evicted stops. */
  datatype Timer = Asleep(key: string, due: real) | Wakeful(key: string, lock: LockId, since: real) | Evicting(lock: LockId)

  datatype Holder = Acquirer(t: TaskId) | IdleTimer(m: TaskId)

  datatype Session = Session(key: string, run: RunId)

  datatype World = World(
    registry: Registry,
    acquires: map<TaskId, Acquire>,
    timers: map<TaskId, Timer>,
    sessions: map<TaskId, Session>,
    holders: map<LockId, Holder>,
    tasks: nat)           // acquires begun so far

  datatype Event =
    | Begins(key: string)
    | GetsLock(t: TaskId, victim: string, now: real)
    | VictimStopped(t: TaskId, victim: string)
    | Started(t: TaskId, now: real)
    | StartFailed(t: TaskId)
    | RunStopped(t: TaskId)
    | Cancelled(t: TaskId)
    | Releases(t: TaskId, now: real)
    | TimerWakes(m: TaskId, now: real)
    | TimerGetsLock(m: TaskId, now: real)
    | TimerEnds(m: TaskId)

  /** The acquire ends without its run. */
  function Abandon(w: World, t: TaskId): World
    requires t in w.acquires
  {
    var a := w.acquires[t];
    w.(registry := Leave(w.registry, a.key),
       acquires := w.acquires - {t},
       holders := if a.stage.Waiting? then w.holders else w.holders - {a.lock})
  }

  /** Holding its key's lock, an acquire without a run makes room or begins to
      build: no room and nobody idle is an error. */
  function SeekRoom(w: World, t: TaskId, victim: string): World
    requires t in w.acquires
  {
    var a := w.acquires[t];
    var h := w.(holders := w.holders[a.lock := Acquirer(t)]);
    if !AtCap(w.registry) then
      var (g, run) := Reserve(w.registry);
      h.(registry := g, acquires := w.acquires[t := a.(stage := Starting(run))])
    else if (forall k :: k in w.registry.entries ==> w.registry.entries[k].sockets != 0) then
      Abandon(h.(acquires := w.acquires[t := a.(stage := MakingRoom)]), t)
    else if IsVictim(w.registry, victim) then
      h.(registry := Evict(w.registry, victim), acquires := w.acquires[t := a.(stage := MakingRoom)])
    else w
  }

  function Next(w: World, e: Event): World
  {
    match e
    case Begins(key) =>
      var (g, lock) := Enter(w.registry, key);
      w.(registry := g, acquires := w.acquires[w.tasks := Acquire(key, lock, Waiting)], tasks := w.tasks + 1)
    case GetsLock(t, victim, now) =>
      if t !in w.acquires || !w.acquires[t].stage.Waiting? || w.acquires[t].lock in w.holders then w else
        var key := w.acquires[t].key;
        if key in w.registry.entries then
          var entry := w.registry.entries[key];
          w.(registry := Leave(Join(w.registry, key, now), key),
             acquires := w.acquires - {t},
             timers := if entry.timer.Some? then w.timers - {entry.timer.value} else w.timers,
             sessions := w.sessions[t := Session(key, entry.run)])
        else SeekRoom(w, t, victim)
    case VictimStopped(t, victim) =>
      if t in w.acquires && w.acquires[t].stage.MakingRoom? then SeekRoom(w, t, victim) else w
    case Started(t, now) =>
      if t !in w.acquires || !w.acquires[t].stage.Starting? then w else
        var a := w.acquires[t];
        w.(registry := Leave(Insert(w.registry, a.key, a.stage.run, now), a.key),
           acquires := w.acquires - {t},
           sessions := w.sessions[t := Session(a.key, a.stage.run)],
           holders := w.holders - {a.lock})
    case StartFailed(t) => ToStopping(w, t)
    case RunStopped(t) =>
      if t in w.acquires && w.acquires[t].stage.Stopping?
      then Abandon(w.(registry := w.registry.(pending := w.registry.pending - 1)), t) else w
    case Cancelled(t) =>
      if t !in w.acquires then w
      else if w.acquires[t].stage.Starting? then ToStopping(w, t)
      else if w.acquires[t].stage.Stopping? then Abandon(w.(registry := w.registry.(pending := w.registry.pending - 1)), t)
      else Abandon(w, t)
    case Releases(t, now) =>
      if t !in w.sessions then w else
        var (g, timer) := Release(w.registry, w.sessions[t].key, now);
        w.(registry := g, sessions := w.sessions - {t},
           timers := if timer.Some? then w.timers[timer.value := Asleep(w.sessions[t].key, now + w.registry.idleSeconds)] else w.timers)
    case TimerWakes(m, now) =>
      if m !in w.timers || !w.timers[m].Asleep? || now < w.timers[m].due then w
      else if w.timers[m].key !in w.registry.locks then w.(timers := w.timers - {m})
      else w.(timers := w.timers[m := Wakeful(w.timers[m].key, w.registry.locks[w.timers[m].key], now)])
    case TimerGetsLock(m, now) =>
      if m !in w.timers || !w.timers[m].Wakeful? || w.timers[m].lock in w.holders then w else
        var key := w.timers[m].key;
        if key in w.registry.entries && w.registry.entries[key].sockets == 0 then
          w.(registry := Evict(w.registry, key),
             timers := w.timers[m := Evicting(w.timers[m].lock)],
             holders := w.holders[w.timers[m].lock := IdleTimer(m)])
        else w.(timers := w.timers - {m})
    case TimerEnds(m) =>
      if m in w.timers && w.timers[m].Evicting?
      then w.(timers := w.timers - {m}, holders := w.holders - {w.timers[m].lock}) else w
  }

  /** A run that did not start is stopped before its acquire gives up. */
  function ToStopping(w: World, t: TaskId): World
  {
    if t in w.acquires && w.acquires[t].stage.Starting?
    then w.(acquires := w.acquires[t := w.acquires[t].(stage := Stopping(w.acquires[t].stage.run))]) else w
  }

  function Initial(maxRuns: int, idleSeconds: real): World
  {
    World(Registry(maxRuns, idleSeconds, map[], map[], map[], 0, 0), map[], map[], map[], map[], 0)
  }

  function After(w: World, events: seq<Event>): World
  {
    if events == [] then w else Next(After(w, events[..|events| - 1]), events[|events| - 1])
  }
}
