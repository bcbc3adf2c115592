/** A run can be evicted as idle before it has been idle for as long as the
    registry promises: evicting a run for room leaves its idle timer running,
    and the timer later finds the key's next run. */
module RegistryGap {
  import opened Keys
  import opened Registries
  import opened RegistryTimers

  function Made(entries: map<string, Entry>, locks: map<string, LockId>, acquiring: map<string, int>, pending: int, made: nat): Registry
  {
    Registry(1, 300.0, entries, locks, acquiring, pending, made)
  }

  /** Nothing but timers. */
  function Empty(made: nat, timers: map<TaskId, Timer>, tasks: nat): World
  {
    World(Made(map[], map[], map[], 0, made), map[], timers, map[], map[], tasks)
  }

  /** One acquire of one key, past its wait or not, and no run. */
  function OneAcquire(key: string, lock: LockId, stage: Stage, pending: int, made: nat, timers: map<TaskId, Timer>, t: TaskId): World
  {
    World(Made(map[], map[key := lock], map[key := 1], pending, made), map[t := Acquire(key, lock, stage)], timers, map[],
          if stage.Waiting? then map[] else map[lock := Acquirer(t)], t + 1)
  }

  /** The run of "a" is used by one session. */
  function OneUsed(run: RunId, at: real, lock: LockId, made: nat, timers: map<TaskId, Timer>, t: TaskId): World
  {
    World(Made(map["a" := Entry(run, 1, at, None)], map["a" := lock], map[], 0, made), map[], timers,
          map[t := Session("a", run)], map[], t + 1)
  }

  /** The run of "a" is used by nobody since `at`. */
  function OneIdle(run: RunId, at: real, timer: TaskId, lock: LockId, made: nat, timers: map<TaskId, Timer>, tasks: nat): World
  {
    World(Made(map["a" := Entry(run, 0, at, Some(timer))], map["a" := lock], map[], 0, made), map[], timers, map[], map[], tasks)
  }

  lemma Begun(key: string, made: nat, timers: map<TaskId, Timer>, t: TaskId)
    ensures Next(Empty(made, timers, t), Begins(key)) == OneAcquire(key, made, Waiting, 0, made + 1, timers, t)
  {
  }

  lemma Building(made: nat, timers: map<TaskId, Timer>, t: TaskId, at: real)
    ensures Next(OneAcquire("a", made, Waiting, 0, made + 1, timers, t), GetsLock(t, "", at)) ==
            OneAcquire("a", made, Starting(made + 1), 1, made + 2, timers, t)
  {
    var w := OneAcquire("a", made, Waiting, 0, made + 1, timers, t);
    assert w.acquires[t := Acquire("a", made, Starting(made + 1))] == map[t := Acquire("a", made, Starting(made + 1))];
    assert SeekRoom(w, t, "") == OneAcquire("a", made, Starting(made + 1), 1, made + 2, timers, t);
  }

  lemma Built(made: nat, timers: map<TaskId, Timer>, t: TaskId, at: real)
    ensures Next(OneAcquire("a", made, Starting(made + 1), 1, made + 2, timers, t), Started(t, at)) ==
            OneUsed(made + 1, at, made, made + 2, timers, t)
  {
    var g := Made(map[], map["a" := made], map["a" := 1], 1, made + 2);
    var entries: map<string, Entry> := map[];
    assert entries["a" := Entry(made + 1, 1, at, None)] == map["a" := Entry(made + 1, 1, at, None)];
    var h := Insert(g, "a", made + 1, at);
    assert h.acquiring["a" := 0] - {"a"} == map[];
    assert Leave(h, "a") == Made(map["a" := Entry(made + 1, 1, at, None)], map["a" := made], map[], 0, made + 2);
  }

  lemma LetGo(made: nat, timers: map<TaskId, Timer>, t: TaskId, at: real)
    ensures Next(OneUsed(made + 1, at, made, made + 2, timers, t), Releases(t, at)) ==
            OneIdle(made + 1, at, made + 2, made, made + 3, timers[made + 2 := Asleep("a", at + 300.0)], t + 1)
  {
    var g := OneUsed(made + 1, at, made, made + 2, timers, t).registry;
    var entry := Entry(made + 1, 0, at, Some(made + 2));
    assert g.entries["a" := entry] == map["a" := entry];
  }

  /** A run of "a" is built from nothing, used until `at`, and let go. */
  lemma BuildAndLeave(start: World, events: seq<Event>, at: real, made: nat, timers: map<TaskId, Timer>, t: TaskId) returns (more: seq<Event>)
    requires After(start, events) == Empty(made, timers, t)
    requires Timed(events, 0.0) && Clock(events, 0.0) <= at
    ensures After(start, more) ==
            OneIdle(made + 1, at, made + 2, made, made + 3, timers[made + 2 := Asleep("a", at + 300.0)], t + 1)
    ensures Timed(more, 0.0) && Clock(more, 0.0) == at
  {
    hide Next, Timed, Clock;
    var e1, e2, e3, e4 := Begins("a"), GetsLock(t, "", at), Started(t, at), Releases(t, at);
    AfterOne(start, events, e1);
    AfterOne(start, events + [e1], e2);
    AfterOne(start, events + [e1] + [e2], e3);
    AfterOne(start, events + [e1] + [e2] + [e3], e4);
    ClockOne(events, e1, 0.0);
    ClockOne(events + [e1], e2, 0.0);
    ClockOne(events + [e1] + [e2], e3, 0.0);
    ClockOne(events + [e1] + [e2] + [e3], e4, 0.0);
    more := events + [e1] + [e2] + [e3] + [e4];
    Begun("a", made, timers, t);
    Building(made, timers, t, at);
    Built(made, timers, t, at);
    LetGo(made, timers, t, at);
  }

  /** Another key's acquire begins, with the run of "a" idle. */
  function TwoKeys(run: RunId, at: real, timer: TaskId, lock: LockId, made: nat, timers: map<TaskId, Timer>, t: TaskId): World
  {
    World(Made(map["a" := Entry(run, 0, at, Some(timer))], map["a" := lock, "b" := made], map["b" := 1], 0, made + 1),
          map[t := Acquire("b", made, Waiting)], timers, map[], map[], t + 1)
  }

  lemma Contends(run: RunId, at: real, timer: TaskId, lock: LockId, made: nat, timers: map<TaskId, Timer>, t: TaskId)
    ensures Next(OneIdle(run, at, timer, lock, made, timers, t), Begins("b")) == TwoKeys(run, at, timer, lock, made, timers, t)
  {
    var locks: map<string, LockId> := map["a" := lock];
    assert locks["b" := made] == map["a" := lock, "b" := made];
  }

  lemma Evicts(run: RunId, at: real, timer: TaskId, lock: LockId, made: nat, timers: map<TaskId, Timer>, t: TaskId)
    ensures Next(TwoKeys(run, at, timer, lock, made, timers, t), GetsLock(t, "a", at)) ==
            OneAcquire("b", made, MakingRoom, 0, made + 1, timers, t)
  {
    var w := TwoKeys(run, at, timer, lock, made, timers, t);
    assert "a" in w.registry.entries && w.registry.entries["a"].sockets == 0;
    assert AtCap(w.registry) && IsVictim(w.registry, "a");
    assert w.registry.entries - {"a"} == map[] && w.registry.locks - {"a"} == map["b" := made];
    assert w.registry.acquiring - {"a"} == map["b" := 1];
    assert Evict(w.registry, "a") == Made(map[], map["b" := made], map["b" := 1], 0, made + 1);
    assert w.acquires[t := Acquire("b", made, MakingRoom)] == map[t := Acquire("b", made, MakingRoom)];
  }

  lemma GivesUp(made: nat, timers: map<TaskId, Timer>, t: TaskId)
    ensures Next(OneAcquire("b", made, MakingRoom, 0, made + 1, timers, t), Cancelled(t)) == Empty(made + 1, timers, t + 1)
  {
    var w := OneAcquire("b", made, MakingRoom, 0, made + 1, timers, t);
    assert w.registry.acquiring["b" := 0] - {"b"} == map[] && w.registry.locks - {"b"} == map[];
    assert Leave(w.registry, "b") == Made(map[], map[], map[], 0, made + 1);
    assert w.acquires - {t} == map[] && w.holders - {made} == map[];
  }

  /** Another key's acquire evicts the idle run for room, and is cancelled. */
  lemma EvictedForRoom(start: World, events: seq<Event>, run: RunId, at: real, timer: TaskId, lock: LockId, made: nat, timers: map<TaskId, Timer>, t: TaskId)
    returns (more: seq<Event>)
    requires After(start, events) == OneIdle(run, at, timer, lock, made, timers, t)
    requires Timed(events, 0.0) && Clock(events, 0.0) <= at
    ensures After(start, more) == Empty(made + 1, timers, t + 1)
    ensures Timed(more, 0.0) && Clock(more, 0.0) == at
  {
    hide Next, Timed, Clock;
    var e1, e2, e3 := Begins("b"), GetsLock(t, "a", at), Cancelled(t);
    AfterOne(start, events, e1);
    AfterOne(start, events + [e1], e2);
    AfterOne(start, events + [e1] + [e2], e3);
    ClockOne(events, e1, 0.0);
    ClockOne(events + [e1], e2, 0.0);
    ClockOne(events + [e1] + [e2], e3, 0.0);
    more := events + [e1] + [e2] + [e3];
    Contends(run, at, timer, lock, made, timers, t);
    Evicts(run, at, timer, lock, made, timers, t);
    GivesUp(made, timers, t);
  }

  lemma Fires(run: RunId, at: real, timer: TaskId, lock: LockId, made: nat, timers: map<TaskId, Timer>, t: TaskId, m: TaskId, now: real)
    requires m in timers && timers[m] == Asleep("a", now) && now < at + 300.0
    ensures EvictsEarly(Next(OneIdle(run, at, timer, lock, made, timers, t), TimerWakes(m, now)), "a", m, now)
  {
  }

  const NONE: map<TaskId, Timer> := map[]
  const FIRST: map<TaskId, Timer> := NONE[2 := Asleep("a", 300.0)]
  const BOTH: map<TaskId, Timer> := FIRST[6 := Asleep("a", 599.0)]

  lemma FromNothing()
    ensures After(Initial(1, 300.0), []) == Empty(0, NONE, 0)
  {
  }

  /** Used until 0 s, evicted for room, built again, and used until 299 s. */
  lemma TwiceUsed() returns (events: seq<Event>)
    ensures After(Initial(1, 300.0), events) == OneIdle(5, 299.0, 6, 4, 7, BOTH, 3)
    ensures Timed(events, 0.0) && Clock(events, 0.0) == 299.0
  {
    hide Next, After, Empty, OneIdle;
    FromNothing();
    events := BuildAndLeave(Initial(1, 300.0), [], 0.0, 0, NONE, 0);
    events := EvictedForRoom(Initial(1, 300.0), events, 1, 0.0, 2, 0, 3, FIRST, 1);
    events := BuildAndLeave(Initial(1, 300.0), events, 299.0, 4, FIRST, 2);
  }

  /** The run is let go at 299 s and evicted as idle at 300 s: 299 s early. */
  lemma AStaleTimerEvictsEarly()
    ensures exists events ::
              && Timed(events, 0.0) && Clock(events, 0.0) <= 300.0
              && EvictsEarly(After(Initial(1, 300.0), events), "a", 2, 300.0)
              && After(Initial(1, 300.0), events).registry.entries["a"].lastUsed == 299.0
  {
    var events := TwiceUsed();
    ClockOne(events, TimerWakes(2, 300.0), 0.0);
    AfterOne(Initial(1, 300.0), events, TimerWakes(2, 300.0));
    Fires(5, 299.0, 6, 4, 7, BOTH, 3, 2, 300.0);
    assert After(Initial(1, 300.0), events + [TimerWakes(2, 300.0)]).registry.entries["a"].lastUsed == 299.0;
    hide Next, After, EvictsEarly, Timed, Clock;
    assert EvictsEarly(After(Initial(1, 300.0), events + [TimerWakes(2, 300.0)]), "a", 2, 300.0);
  }
}
