/** When an idle timer evicts a run too early: exactly when it was left behind
    by an earlier run of the key. */
module RegistryTimers {
  import opened Keys
  import opened Registries
  import opened RegistryProofs

  // ---------------------------------------------------------------- the clock

  /** The time at which an event reads the clock, if it does. */
  function Stamp(e: Event): Option<real>
  {
    match e
    case GetsLock(_, _, now) => Some(now)
    case Started(_, now) => Some(now)
    case Releases(_, now) => Some(now)
    case TimerWakes(_, now) => Some(now)
    case TimerGetsLock(_, now) => Some(now)
    case _ => None
  }

  function Later(clock: real, e: Event): real
  {
    if Stamp(e).Some? then Stamp(e).value else clock
  }

  /** What the clock says after these events. */
  function Clock(events: seq<Event>, clock: real): real
  {
    if events == [] then clock else Later(Clock(events[..|events| - 1], clock), events[|events| - 1])
  }

  /** The clock never goes back. */
  predicate Timed(events: seq<Event>, clock: real)
  {
    events != [] ==>
      var before := events[..|events| - 1];
      Timed(before, clock) && Clock(before, clock) <= Clock(events, clock)
  }

  lemma AfterOne(w: World, events: seq<Event>, e: Event)
    ensures After(w, events + [e]) == Next(After(w, events), e)
  {
    assert (events + [e])[..|events|] == events;
  }

  lemma ClockOne(events: seq<Event>, e: Event, clock: real)
    ensures Clock(events + [e], clock) == Later(Clock(events, clock), e)
    ensures Timed(events + [e], clock) <==> Timed(events, clock) && Clock(events, clock) <= Later(Clock(events, clock), e)
  {
    assert (events + [e])[..|events|] == events;
  }

  // ---------------------------------------------------------------- what the clock keeps

  /** Nothing is stamped later than the clock, and no timer asleep is due more
      than `idleSeconds` after the last use of its key's run. */
  ghost predicate Timely(w: World, clock: real)
  {
    var idle := w.registry.idleSeconds;
    && (forall k :: k in w.registry.entries ==> w.registry.entries[k].lastUsed <= clock)
    && (forall m :: m in w.timers && w.timers[m].Asleep? ==> DueInTime(w, m, clock))
    && (forall m :: m in w.timers && w.timers[m].Wakeful? ==> w.timers[m].since <= clock)
  }

  ghost predicate DueInTime(w: World, m: TaskId, clock: real)
    requires m in w.timers && w.timers[m].Asleep?
  {
    var t := w.timers[m];
    && t.due <= clock + w.registry.idleSeconds
    && (t.key in w.registry.entries ==> t.due <= w.registry.entries[t.key].lastUsed + w.registry.idleSeconds)
  }

  /** Who holds a lock is past its wait for it. */
  ghost predicate HoldersSound(w: World)
  {
    && (forall l :: l in w.holders && w.holders[l].Acquirer? ==>
          && w.holders[l].t in w.acquires && w.acquires[w.holders[l].t].lock == l
          && !w.acquires[w.holders[l].t].stage.Waiting?)
    && (forall l :: l in w.holders && w.holders[l].IdleTimer? ==>
          w.holders[l].m in w.timers && w.timers[w.holders[l].m] == Evicting(l))
  }

  /** A timer that woke found its own key's lock, and no other key ever has that
      lock; a timer that is evicting belongs to no run. */
  ghost predicate WakersSound(w: World)
  {
    && (forall m :: m in w.timers && w.timers[m].Wakeful? ==>
          && w.timers[m].lock < w.registry.made
          && (forall j :: j in w.registry.locks && w.registry.locks[j] == w.timers[m].lock ==> j == w.timers[m].key))
    && (forall k :: k in w.registry.entries && w.registry.entries[k].timer.Some? && w.registry.entries[k].timer.value in w.timers ==>
          !w.timers[w.registry.entries[k].timer.value].Evicting?)
  }

  ghost predicate Clocked(w: World, clock: real)
  {
    Sound(w) && Timely(w, clock) && HoldersSound(w) && WakersSound(w)
  }

  /** A timer is as it was, or was set by a use just now, or woke just now; so
      is a run. */
  lemma TimelyKept(w: World, v: World, clock: real, later: real)
    requires Timely(w, clock) && clock <= later && v.registry.idleSeconds == w.registry.idleSeconds
    requires forall k :: k in v.registry.entries ==>
               || (k in w.registry.entries && v.registry.entries[k].lastUsed == w.registry.entries[k].lastUsed)
               || v.registry.entries[k].lastUsed == later
    requires forall m :: m in v.timers && v.timers[m].Asleep? ==>
               || (m in w.timers && v.timers[m] == w.timers[m])
               || (v.timers[m].due == later + w.registry.idleSeconds
                   && (v.timers[m].key in v.registry.entries ==> v.registry.entries[v.timers[m].key].lastUsed == later))
    requires forall m :: m in v.timers && v.timers[m].Wakeful? ==>
               (m in w.timers && v.timers[m] == w.timers[m]) || v.timers[m].since == later
    ensures Timely(v, later)
  {
    forall m | m in v.timers && v.timers[m].Asleep? ensures DueInTime(v, m, later) {
      if m in w.timers && v.timers[m] == w.timers[m] {
        assert DueInTime(w, m, clock);
      }
    }
  }

  /** No timer is set or moves; a run is as it was, or used at `at` and without
      a timer; a lock is as it was, or new. */
  ghost predicate OnlyUses(w: World, v: World, at: real)
  {
    && v.registry.idleSeconds == w.registry.idleSeconds && v.registry.made >= w.registry.made
    && (forall m :: m in v.timers ==> m in w.timers && v.timers[m] == w.timers[m])
    && (forall k :: k in v.registry.entries ==>
          || (k in w.registry.entries && v.registry.entries[k] == w.registry.entries[k])
          || (v.registry.entries[k].lastUsed == at && v.registry.entries[k].timer == None))
    && (forall k :: k in v.registry.locks ==>
          (k in w.registry.locks && v.registry.locks[k] == w.registry.locks[k]) || v.registry.locks[k] == w.registry.made)
  }

  /** What acquiring does, and what a timer does that evicts nothing. */
  predicate Uses(e: Event)
  {
    !e.Releases? && !e.TimerWakes? && !e.TimerGetsLock?
  }

  lemma LeaveKeeps(g: Registry, key: string)
    ensures var h := Leave(g, key);
            && h.idleSeconds == g.idleSeconds && h.made == g.made && h.entries == g.entries
            && forall k :: k in h.locks ==> k in g.locks && h.locks[k] == g.locks[k]
  {
  }

  lemma EvictKeeps(g: Registry, key: string)
    ensures var h := Evict(g, key);
            && h.idleSeconds == g.idleSeconds && h.made == g.made && h.entries == g.entries - {key}
            && forall k :: k in h.locks ==> k in g.locks && h.locks[k] == g.locks[k]
  {
  }

  lemma SeekRoomOnlyUses(w: World, t: TaskId, victim: string, at: real)
    requires t in w.acquires
    ensures OnlyUses(w, SeekRoom(w, t, victim), at)
  {
    LeaveKeeps(w.registry, w.acquires[t].key);
    EvictKeeps(w.registry, victim);
    hide Leave, Evict;
  }

  lemma AbandonOnlyUses(w: World, t: TaskId, at: real)
    requires t in w.acquires
    ensures OnlyUses(w, Abandon(w, t), at)
    ensures OnlyUses(w, Abandon(w.(registry := w.registry.(pending := w.registry.pending - 1)), t), at)
  {
  }

  lemma JoinOnlyUses(w: World, t: TaskId, now: real)
    requires t in w.acquires && w.acquires[t].key in w.registry.entries
    ensures OnlyUses(w, Next(w, GetsLock(t, "", now)), now)
  {
    hide SeekRoom;
  }

  lemma StartedOnlyUses(w: World, t: TaskId, now: real)
    ensures OnlyUses(w, Next(w, Started(t, now)), now)
  {
  }

  lemma GetsLockOnlyUses(w: World, t: TaskId, victim: string, now: real)
    ensures OnlyUses(w, Next(w, GetsLock(t, victim, now)), now)
  {
    if t in w.acquires {
      SeekRoomOnlyUses(w, t, victim, now);
      if w.acquires[t].key in w.registry.entries { JoinOnlyUses(w, t, now); }
    }
    hide SeekRoom, Leave, Join;
  }

  lemma StoppedOnlyUses(w: World, t: TaskId, victim: string, at: real)
    ensures OnlyUses(w, Next(w, VictimStopped(t, victim)), at)
  {
    if t in w.acquires { SeekRoomOnlyUses(w, t, victim, at); }
    hide SeekRoom;
  }

  lemma OnlyUsesItself(w: World, at: real)
    ensures OnlyUses(w, w, at)
  {
  }

  lemma ToStoppingOnlyUses(w: World, t: TaskId, at: real)
    ensures OnlyUses(w, ToStopping(w, t), at)
  {
  }

  lemma EndsOnlyUses(w: World, e: Event, at: real)
    requires e.RunStopped? || e.Cancelled?
    ensures OnlyUses(w, Next(w, e), at)
  {
    OnlyUsesItself(w, at);
    ToStoppingOnlyUses(w, e.t, at);
    if e.t in w.acquires { AbandonOnlyUses(w, e.t, at); }
    hide Abandon, ToStopping, OnlyUses;
  }

  lemma OthersOnlyUse(w: World, e: Event, at: real)
    requires e.Begins? || e.StartFailed? || e.TimerEnds?
    ensures OnlyUses(w, Next(w, e), at)
  {
  }

  lemma NextOnlyUses(w: World, e: Event, clock: real)
    requires Uses(e)
    ensures OnlyUses(w, Next(w, e), Later(clock, e))
  {
    hide Next, OnlyUses;
    match e
    case GetsLock(t, victim, now) => GetsLockOnlyUses(w, t, victim, now);
    case VictimStopped(t, victim) => StoppedOnlyUses(w, t, victim, clock);
    case Started(t, now) => StartedOnlyUses(w, t, now);
    case RunStopped(t) => EndsOnlyUses(w, e, clock);
    case Cancelled(t) => EndsOnlyUses(w, e, clock);
    case _ => OthersOnlyUse(w, e, clock);
  }

  lemma ReleasesTimely(w: World, t: TaskId, now: real, clock: real)
    requires Timely(w, clock) && clock <= now
    ensures Timely(Next(w, Releases(t, now)), now)
  {
    hide Timely;
    TimelyKept(w, Next(w, Releases(t, now)), clock, now);
  }

  lemma WakesTimely(w: World, m: TaskId, now: real, clock: real)
    requires Timely(w, clock) && clock <= now
    ensures Timely(Next(w, TimerWakes(m, now)), now)
  {
    hide Timely;
    TimelyKept(w, Next(w, TimerWakes(m, now)), clock, now);
  }

  lemma EvictsTimely(w: World, m: TaskId, now: real, clock: real)
    requires Timely(w, clock) && clock <= now
    ensures Timely(Next(w, TimerGetsLock(m, now)), now)
  {
    hide Timely;
    if m in w.timers && w.timers[m].Wakeful? { EvictKeeps(w.registry, w.timers[m].key); }
    hide Evict;
    TimelyKept(w, Next(w, TimerGetsLock(m, now)), clock, now);
  }

  lemma NextTimely(w: World, e: Event, clock: real)
    requires Timely(w, clock) && clock <= Later(clock, e)
    ensures Timely(Next(w, e), Later(clock, e))
  {
    hide Timely, Next;
    match e
    case Releases(t, now) => ReleasesTimely(w, t, now, clock);
    case TimerWakes(m, now) => WakesTimely(w, m, now, clock);
    case TimerGetsLock(m, now) => EvictsTimely(w, m, now, clock);
    case _ =>
      NextOnlyUses(w, e, clock);
      TimelyKept(w, Next(w, e), clock, Later(clock, e));
  }

  /** An acquire takes the free lock it waited for, or keeps the one it has, or
      leaves with it. */
  lemma TakesLock(w: World, v: World, t: TaskId)
    requires HoldersSound(w) && t in w.acquires && v.timers == w.timers
    requires w.acquires[t].stage.Waiting? ==> w.acquires[t].lock !in w.holders
    requires || (t in v.acquires && v.acquires == w.acquires[t := v.acquires[t]] && v.acquires[t].lock == w.acquires[t].lock
                 && !v.acquires[t].stage.Waiting? && v.holders == w.holders[w.acquires[t].lock := Acquirer(t)])
             || (v.acquires == w.acquires - {t} && v.holders == w.holders - {w.acquires[t].lock})
    ensures HoldersSound(v)
  {
  }

  lemma SeekRoomHolders(w: World, t: TaskId, victim: string)
    requires HoldersSound(w) && t in w.acquires
    requires w.acquires[t].stage.MakingRoom? || (w.acquires[t].stage.Waiting? && w.acquires[t].lock !in w.holders)
    ensures HoldersSound(SeekRoom(w, t, victim))
  {
    hide HoldersSound, Leave, Evict;
    var v := SeekRoom(w, t, victim);
    if v != w {
      var lock := w.acquires[t].lock;
      assert v.timers == w.timers;
      if t in v.acquires {
        assert v.acquires == w.acquires[t := v.acquires[t]];
      } else {
        assert w.acquires[t := w.acquires[t].(stage := MakingRoom)] - {t} == w.acquires - {t};
        assert w.holders[lock := Acquirer(t)] - {lock} == w.holders - {lock};
      }
      TakesLock(w, v, t);
    }
  }

  /** An acquire that held its lock, or waited for it, leaves. */
  lemma AbandonHolders(w: World, t: TaskId)
    requires HoldersSound(w) && t in w.acquires
    ensures HoldersSound(Abandon(w, t))
    ensures HoldersSound(Abandon(w.(registry := w.registry.(pending := w.registry.pending - 1)), t))
    ensures w.acquires[t].stage.Starting? ==> forall now :: HoldersSound(Next(w, Started(t, now)))
  {
    hide Leave, Insert;
  }

  /** An acquire that joins leaves, and so may a timer that evicts nothing. */
  lemma JoinHolders(w: World, t: TaskId, now: real)
    requires HoldersSound(w) && WakersSound(w) && t in w.acquires && w.acquires[t].stage.Waiting?
    requires w.acquires[t].key in w.registry.entries && w.acquires[t].lock !in w.holders
    ensures forall victim :: HoldersSound(Next(w, GetsLock(t, victim, now)))
  {
    hide Leave, Join, SeekRoom;
  }

  lemma BeginsHolders(w: World, key: string)
    requires HoldersSound(w) && TasksNumbered(w)
    ensures HoldersSound(Next(w, Begins(key)))
  {
    hide Enter;
  }

  lemma ToStoppingHolders(w: World, t: TaskId)
    requires HoldersSound(w)
    ensures HoldersSound(ToStopping(w, t))
  {
  }

  lemma ReleasesHolders(w: World, t: TaskId, now: real)
    requires HoldersSound(w) && TimersNumbered(w)
    ensures HoldersSound(Next(w, Releases(t, now)))
  {
    if t in w.sessions { ReleaseNumber(w, t, now); }
    hide Release;
  }

  lemma TimersHolders(w: World, e: Event)
    requires HoldersSound(w) && (e.TimerWakes? || e.TimerGetsLock? || e.TimerEnds?)
    ensures HoldersSound(Next(w, e))
  {
    hide Evict;
  }

  lemma NextHolders(w: World, e: Event)
    requires HoldersSound(w) && WakersSound(w) && TimersNumbered(w) && TasksNumbered(w)
    ensures HoldersSound(Next(w, e))
  {
    hide HoldersSound, WakersSound, TimersNumbered, TasksNumbered, SeekRoom, Abandon, Leave, ToStopping;
    match e
    case Begins(key) => BeginsHolders(w, key);
    case GetsLock(t, victim, now) =>
      if t in w.acquires && w.acquires[t].stage.Waiting? && w.acquires[t].lock !in w.holders {
        if w.acquires[t].key in w.registry.entries {
          JoinHolders(w, t, now);
        } else {
          SeekRoomHolders(w, t, victim);
        }
      }
    case VictimStopped(t, victim) =>
      if t in w.acquires && w.acquires[t].stage.MakingRoom? { SeekRoomHolders(w, t, victim); }
    case StartFailed(t) => ToStoppingHolders(w, t);
    case Started(t, now) => if t in w.acquires { AbandonHolders(w, t); }
    case RunStopped(t) => if t in w.acquires { AbandonHolders(w, t); }
    case Cancelled(t) =>
      ToStoppingHolders(w, t);
      if t in w.acquires { AbandonHolders(w, t); }
    case Releases(t, now) => ReleasesHolders(w, t, now);
    case _ => TimersHolders(w, e);
  }

  lemma ReleaseNumber(w: World, t: TaskId, now: real)
    requires t in w.sessions
    ensures var r := Release(w.registry, w.sessions[t].key, now); r.1.Some? ==> r.1.value == w.registry.made
  {
  }

  lemma UsesWakers(w: World, v: World, at: real)
    requires WakersSound(w) && OnlyUses(w, v, at)
    ensures WakersSound(v)
  {
  }

  lemma ReleaseWakers(w: World, t: TaskId, now: real)
    requires WakersSound(w) && TimersNumbered(w) && t in w.sessions
    ensures WakersSound(Next(w, Releases(t, now)))
  {
  }

  lemma WakesWakers(w: World, m: TaskId, now: real)
    requires WakersSound(w) && LocksSound(w)
    ensures WakersSound(Next(w, TimerWakes(m, now)))
  {
  }

  lemma EvictingWakers(w: World, m: TaskId, now: real)
    requires WakersSound(w) && TimersSound(w)
    ensures WakersSound(Next(w, TimerGetsLock(m, now)))
  {
  }

  lemma NextWakers(w: World, e: Event)
    requires Sound(w) && WakersSound(w)
    ensures WakersSound(Next(w, e))
  {
    hide LocksSound, BuildsSound, CapSound, SocketsSound, TimersSound, TimersNumbered, WakersSound, Next;
    match e
    case Releases(t, now) => if t in w.sessions { ReleaseWakers(w, t, now); } else { Idles(w, e); }
    case TimerWakes(m, now) => WakesWakers(w, m, now);
    case TimerGetsLock(m, now) => EvictingWakers(w, m, now);
    case _ =>
      NextOnlyUses(w, e, 0.0);
      UsesWakers(w, Next(w, e), Later(0.0, e));
  }

  lemma Idles(w: World, e: Event)
    requires e.Releases? && e.t !in w.sessions
    ensures Next(w, e) == w
  {
  }

  lemma Numbered(w: World)
    requires Sound(w)
    ensures TimersNumbered(w) && TimersSound(w) && TasksNumbered(w)
  {
  }

  lemma NextClocked(w: World, e: Event, clock: real)
    requires Clocked(w, clock) && clock <= Later(clock, e)
    ensures Clocked(Next(w, e), Later(clock, e))
  {
    hide Sound, Timely, HoldersSound, WakersSound, Next;
    NextSound(w, e);
    NextTimely(w, e, clock);
    Numbered(w);
    NextHolders(w, e);
    NextWakers(w, e);
  }

  lemma {:induction false} AfterClocked(w: World, events: seq<Event>, clock: real)
    requires Clocked(w, clock) && Timed(events, clock)
    ensures Clocked(After(w, events), Clock(events, clock)) && clock <= Clock(events, clock)
    ensures After(w, events).registry.idleSeconds == w.registry.idleSeconds
  {
    hide Clocked, Next;
    if events != [] {
      var before, e := events[..|events| - 1], events[|events| - 1];
      AfterClocked(w, before, clock);
      NextClocked(After(w, before), e, Clock(before, clock));
      NextKeepsSettings(After(w, before), e);
    }
  }

  lemma ReachableClocked(maxRuns: int, idleSeconds: real, past: seq<Event>, start: real)
    requires Timed(past, start)
    ensures Clocked(After(Initial(maxRuns, idleSeconds), past), Clock(past, start))
    ensures After(Initial(maxRuns, idleSeconds), past).registry.idleSeconds == idleSeconds
  {
    AfterSound(maxRuns, idleSeconds, []);
    AfterClocked(Initial(maxRuns, idleSeconds), past, start);
  }

  // ---------------------------------------------------------------- evicted too early

  /** The time until which the key's run should be kept, if nobody uses it. */
  function KeepUntil(w: World, key: string): real
    requires key in w.registry.entries
  {
    w.registry.entries[key].lastUsed + w.registry.idleSeconds
  }

  /** A timer that gets its lock at `now` evicts the key's run, before its time. */
  ghost predicate EvictsEarly(w: World, key: string, m: TaskId, now: real)
  {
    && key in w.registry.entries && now < KeepUntil(w, key)
    && key !in Next(w, TimerGetsLock(m, now)).registry.entries
  }

  /** Nobody uses the key's run while these events happen. */
  ghost predicate Untouched(w: World, events: seq<Event>, key: string)
    requires key in w.registry.entries
  {
    events != [] ==>
      && Untouched(w, events[..|events| - 1], key)
      && key in After(w, events).registry.entries && After(w, events).registry.entries[key] == w.registry.entries[key]
  }

  /** These events, and then this eviction, cut the unused run short. */
  ghost predicate CutShort(w: World, clock: real, key: string, events: seq<Event>, m: TaskId, now: real)
    requires key in w.registry.entries
  {
    && Timed(events, clock) && Clock(events, clock) <= now
    && Untouched(w, events, key) && EvictsEarly(After(w, events), key, m, now)
  }

  /** A timer on the key that wakes before the run's time, or woke already. */
  ghost predicate Threat(w: World, key: string, m: TaskId)
    requires key in w.registry.entries
  {
    && m in w.timers
    && match w.timers[m]
       case Asleep(k, due) => k == key && due < KeepUntil(w, key)
       case Wakeful(k, _, _) => k == key
       case Evicting(_) => false
  }

  ghost predicate Threatened(w: World, clock: real, key: string)
    requires key in w.registry.entries
  {
    w.registry.entries[key].sockets == 0 && clock < KeepUntil(w, key) && exists m :: Threat(w, key, m)
  }

  // ---------------------------------------------------------------- no threat arises

  lemma ReleaseTouches(w: World, t: TaskId, now: real)
    requires SocketsSound(w) && t in w.sessions
    ensures var k, v := w.sessions[t].key, Next(w, Releases(t, now));
            k in w.registry.entries && k in v.registry.entries && v.registry.entries[k] != w.registry.entries[k]
  {
    ReleaseCounts(w, t);
  }

  /** A timer that threatens an untouched run threatened it before the step. */
  lemma ThreatIsOld(w: World, e: Event, clock: real, key: string, m: TaskId)
    requires SocketsSound(w) && clock <= Later(clock, e)
    requires key in w.registry.entries && key in Next(w, e).registry.entries
    requires Next(w, e).registry.entries[key] == w.registry.entries[key]
    requires Threat(Next(w, e), key, m) && Later(clock, e) < KeepUntil(w, key)
    ensures Threat(w, key, m)
  {
    hide SocketsSound;
    NextKeepsSettings(w, e);
    if Uses(e) {
      NextOnlyUses(w, e, clock);
      hide Next;
    } else if e.Releases? && e.t in w.sessions {
      ReleaseTouches(w, e.t, e.now);
    }
  }

  lemma {:induction false} ThreatAllAlong(w: World, clock: real, key: string, events: seq<Event>, m: TaskId)
    requires Clocked(w, clock) && key in w.registry.entries
    requires Timed(events, clock) && Untouched(w, events, key)
    requires key in After(w, events).registry.entries
    requires Threat(After(w, events), key, m) && Clock(events, clock) < KeepUntil(w, key)
    ensures Threat(w, key, m)
  {
    hide Clocked, Threat, Next;
    if events != [] {
      var before, e := events[..|events| - 1], events[|events| - 1];
      AfterClocked(w, before, clock);
      ClockedIsSound(After(w, before), Clock(before, clock));
      ThreatIsOld(After(w, before), e, Clock(before, clock), key, m);
      ThreatAllAlong(w, clock, key, before, m);
    }
  }

  lemma ClockedIsSound(w: World, clock: real)
    requires Clocked(w, clock)
    ensures Sound(w)
  {
  }

  /** Only a timer that woke evicts, and only a run nobody uses. */
  lemma EarlyIsThreat(w: World, key: string, m: TaskId, now: real)
    requires EvictsEarly(w, key, m, now)
    ensures Threat(w, key, m) && w.registry.entries[key].sockets == 0
  {
  }

  lemma {:induction false} UntouchedIsSame(w: World, events: seq<Event>, key: string)
    requires key in w.registry.entries && Untouched(w, events, key)
    ensures key in After(w, events).registry.entries && After(w, events).registry.entries[key] == w.registry.entries[key]
  {
  }

  lemma OnlyIfThreatened(w: World, clock: real, key: string, events: seq<Event>, m: TaskId, now: real)
    requires Clocked(w, clock) && key in w.registry.entries && CutShort(w, clock, key, events, m, now)
    ensures Threatened(w, clock, key) && Threat(w, key, m)
  {
    hide Clocked, Threat, Next, After, Clock, Timed, EvictsEarly;
    UntouchedIsSame(w, events, key);
    AfterClocked(w, events, clock);
    EarlyWhen(After(w, events), key, m, now);
    EarlyIsThreat(After(w, events), key, m, now);
    ThreatAllAlong(w, clock, key, events, m);
  }

  lemma EarlyWhen(w: World, key: string, m: TaskId, now: real)
    requires EvictsEarly(w, key, m, now)
    ensures key in w.registry.entries && now < KeepUntil(w, key)
  {
  }

  // ---------------------------------------------------------------- every threat comes true

  /** A lock that a timer of a key with a run waits for is free, or held by
      another timer still evicting an earlier run. */
  lemma WhoHolds(w: World, clock: real, key: string, m: TaskId)
    requires Clocked(w, clock) && key in w.registry.entries
    requires m in w.timers && w.timers[m].Wakeful? && w.timers[m].key == key && w.timers[m].lock in w.holders
    ensures w.holders[w.timers[m].lock].IdleTimer?
    ensures var o := w.holders[w.timers[m].lock].m; o in w.timers && w.timers[o] == Evicting(w.timers[m].lock)
  {
  }

  /** The timer gets its lock as soon as it may, and evicts. */
  lemma GetsItsLock(w: World, clock: real, key: string, before: seq<Event>, m: TaskId)
    returns (events: seq<Event>, now: real)
    requires Clocked(w, clock) && key in w.registry.entries && w.registry.entries[key].sockets == 0
    requires Timed(before, clock) && Untouched(w, before, key)
    requires var v := After(w, before); m in v.timers && v.timers[m].Wakeful? && v.timers[m].key == key
    requires Clock(before, clock) < KeepUntil(w, key)
    ensures CutShort(w, clock, key, events, m, now)
  {
    hide Clocked, After, Clock, Timed;
    UntouchedIsSame(w, before, key);
    AfterClocked(w, before, clock);
    var v := After(w, before);
    events, now := before, Clock(before, clock);
    if v.timers[m].lock in v.holders {
      WhoHolds(v, now, key, m);
      var e := TimerEnds(v.holders[v.timers[m].lock].m);
      AfterOne(w, before, e);
      ClockOne(before, e, clock);
      events := before + [e];
      assert events[..|before|] == before;
    }
  }

  /** A timer asleep that is due in time wakes, to find its key's lock. */
  lemma Awakes(w: World, key: string, m: TaskId, now: real)
    requires Sound(w) && key in w.registry.entries && m in w.timers && w.timers[m].Asleep?
    requires w.timers[m].key == key && w.timers[m].due <= now
    ensures var v := Next(w, TimerWakes(m, now));
            && v.registry == w.registry && m in v.timers && v.timers[m].Wakeful? && v.timers[m].key == key
  {
  }

  /** A timer asleep wakes at its time, or now if that is past. */
  lemma First(w: World, clock: real, key: string, m: TaskId) returns (before: seq<Event>)
    requires Clocked(w, clock) && key in w.registry.entries && clock < KeepUntil(w, key) && Threat(w, key, m)
    ensures Timed(before, clock) && Untouched(w, before, key) && Clock(before, clock) < KeepUntil(w, key)
    ensures var v := After(w, before); m in v.timers && v.timers[m].Wakeful? && v.timers[m].key == key
  {
    hide Clocked, Next;
    ClockedIsSound(w, clock);
    if w.timers[m].Wakeful? { return []; }
    var e := TimerWakes(m, if w.timers[m].due < clock then clock else w.timers[m].due);
    Awakes(w, key, m, e.now);
    before := [e];
    assert before[..0] == [];
    assert After(w, before) == Next(w, e);
  }

  lemma ThenItIs(w: World, clock: real, key: string, m: TaskId) returns (events: seq<Event>, now: real)
    requires Clocked(w, clock) && key in w.registry.entries && Threatened(w, clock, key) && Threat(w, key, m)
    ensures CutShort(w, clock, key, events, m, now)
  {
    hide Clocked, Next, CutShort, Threat, After, Clock, Timed, Untouched;
    var before := First(w, clock, key, m);
    events, now := GetsItsLock(w, clock, key, before, m);
  }

  // ---------------------------------------------------------------- the theorems

  /** Whether a run that nobody uses can be evicted as idle sooner than
      `idleSeconds` after its last use, whatever else happens meanwhile, is
      known beforehand: it can exactly when a timer on its key is due, or woke,
      before that time. Every timer asleep on the key that is not due exactly
      then is due sooner. */
  lemma CutShortExactly(maxRuns: int, idleSeconds: real, past: seq<Event>, start: real, key: string)
    requires Timed(past, start) && key in After(Initial(maxRuns, idleSeconds), past).registry.entries
    ensures var w, clock := After(Initial(maxRuns, idleSeconds), past), Clock(past, start);
            && ((exists events, m, now :: CutShort(w, clock, key, events, m, now)) <==> Threatened(w, clock, key))
            && (forall m :: m in w.timers && w.timers[m].Asleep? && w.timers[m].key == key ==>
                  w.timers[m].due <= w.registry.entries[key].lastUsed + idleSeconds)
  {
    ReachableClocked(maxRuns, idleSeconds, past, start);
    var w, clock := After(Initial(maxRuns, idleSeconds), past), Clock(past, start);
    forall m | m in w.timers && w.timers[m].Asleep? && w.timers[m].key == key
      ensures w.timers[m].due <= w.registry.entries[key].lastUsed + idleSeconds
    {
      assert DueInTime(w, m, clock);
    }
    hide CutShort, Clocked;
    if events, m, now :| CutShort(w, clock, key, events, m, now) {
      OnlyIfThreatened(w, clock, key, events, m, now);
    }
    if Threatened(w, clock, key) {
      var m :| Threat(w, key, m);
      var events, now := ThenItIs(w, clock, key, m);
    }
  }

  /** It is never the run's own timer, set by its last release, that evicts it
      too early. */
  lemma OwnTimerIsPunctual(maxRuns: int, idleSeconds: real, past: seq<Event>, start: real, key: string, m: TaskId, now: real)
    requires Timed(past, start) && Clock(past, start) <= now
    requires var w := After(Initial(maxRuns, idleSeconds), past);
             key in w.registry.entries && key !in Next(w, TimerGetsLock(m, now)).registry.entries
    requires After(Initial(maxRuns, idleSeconds), past).registry.entries[key].timer == Some(m)
    ensures now >= After(Initial(maxRuns, idleSeconds), past).registry.entries[key].lastUsed + idleSeconds
  {
    ReachableClocked(maxRuns, idleSeconds, past, start);
    OwnIsNoThreat(After(Initial(maxRuns, idleSeconds), past), Clock(past, start), key, m, now);
  }

  lemma OwnIsNoThreat(w: World, clock: real, key: string, m: TaskId, now: real)
    requires Clocked(w, clock) && clock <= now
    requires key in w.registry.entries && w.registry.entries[key].timer == Some(m)
    ensures !EvictsEarly(w, key, m, now)
    ensures clock < KeepUntil(w, key) ==> !Threat(w, key, m)
  {
    if EvictsEarly(w, key, m, now) { EarlyIsThreat(w, key, m, now); }
  }

  /** No threat is the run's own timer. */
  lemma ThreatIsAnother(maxRuns: int, idleSeconds: real, past: seq<Event>, start: real, key: string, m: TaskId)
    requires Timed(past, start)
    requires var w := After(Initial(maxRuns, idleSeconds), past);
             key in w.registry.entries && Threatened(w, Clock(past, start), key) && Threat(w, key, m)
    ensures After(Initial(maxRuns, idleSeconds), past).registry.entries[key].timer != Some(m)
  {
    ReachableClocked(maxRuns, idleSeconds, past, start);
    var w, clock := After(Initial(maxRuns, idleSeconds), past), Clock(past, start);
    if w.registry.entries[key].timer == Some(m) { OwnIsNoThreat(w, clock, key, m, clock); }
  }

  // ---------------------------------------------------------------- no run is left behind

  /** Every run that nobody watches has a timer of its own, still to come. */
  ghost predicate IdleTimed(w: World)
  {
    forall k :: k in w.registry.entries && w.registry.entries[k].sockets == 0 ==>
      w.registry.entries[k].timer.Some? && w.registry.entries[k].timer.value in w.timers
  }

  /** A run that nobody watches is as it was, its timer still there. */
  lemma IdleKept(w: World, v: World)
    requires IdleTimed(w)
    requires forall k :: k in v.registry.entries && v.registry.entries[k].sockets == 0 ==>
               && k in w.registry.entries && v.registry.entries[k] == w.registry.entries[k]
               && (w.registry.entries[k].timer.Some? && w.registry.entries[k].timer.value in w.timers ==>
                     w.registry.entries[k].timer.value in v.timers)
    ensures IdleTimed(v)
  {
  }

  lemma SeekRoomIdle(w: World, t: TaskId, victim: string)
    requires t in w.acquires && IdleTimed(w)
    ensures IdleTimed(SeekRoom(w, t, victim))
  {
    SeekRoomTimely(w, t, victim);
    IdleKept(w, SeekRoom(w, t, victim));
  }

  lemma SeekRoomTimely(w: World, t: TaskId, victim: string)
    requires t in w.acquires
    ensures SeekRoom(w, t, victim).timers == w.timers
    ensures forall k :: k in SeekRoom(w, t, victim).registry.entries ==>
              k in w.registry.entries && SeekRoom(w, t, victim).registry.entries[k] == w.registry.entries[k]
  {
  }

  lemma JoinIdle(w: World, t: TaskId, now: real)
    requires IdleTimed(w) && SocketsSound(w) && TimersNumbered(w) && t in w.acquires && w.acquires[t].key in w.registry.entries
    requires w.acquires[t].stage.Waiting? && w.acquires[t].lock !in w.holders
    ensures forall victim :: IdleTimed(Next(w, GetsLock(t, victim, now)))
  {
    hide SeekRoom, TasksNumbered;
    LeaveKeeps(Join(w.registry, w.acquires[t].key, now), w.acquires[t].key);
    hide Leave;
    forall victim ensures IdleTimed(Next(w, GetsLock(t, victim, now))) {
      IdleKept(w, Next(w, GetsLock(t, victim, now)));
    }
  }

  lemma StartedIdle(w: World, t: TaskId, now: real)
    requires IdleTimed(w)
    ensures IdleTimed(Next(w, Started(t, now)))
  {
    if t in w.acquires && w.acquires[t].stage.Starting? {
      LeaveKeeps(Insert(w.registry, w.acquires[t].key, w.acquires[t].stage.run, now), w.acquires[t].key);
    }
    hide Leave;
    IdleKept(w, Next(w, Started(t, now)));
  }

  lemma ReleasesIdle(w: World, t: TaskId, now: real)
    requires IdleTimed(w) && TimersSound(w) && SocketsSound(w)
    ensures IdleTimed(Next(w, Releases(t, now)))
  {
    if t in w.sessions { ReleaseCounts(w, t); }
    hide SocketsSound;
  }

  lemma WakesIdle(w: World, m: TaskId, now: real)
    requires IdleTimed(w) && TimersSound(w) && LocksSound(w)
    ensures IdleTimed(Next(w, TimerWakes(m, now)))
  {
    hide Acquiring, InFlight;
  }

  lemma EvictsIdle(w: World, m: TaskId, now: real)
    requires IdleTimed(w) && TimersSound(w)
    ensures IdleTimed(Next(w, TimerGetsLock(m, now)))
  {
    if m in w.timers && w.timers[m].Wakeful? { EvictKeeps(w.registry, w.timers[m].key); }
    hide Evict;
  }

  lemma EndsIdle(w: World, m: TaskId)
    requires IdleTimed(w) && WakersSound(w)
    ensures IdleTimed(Next(w, TimerEnds(m)))
  {
  }

  /** What is left of the steps sets no timer and touches no run. */
  lemma OthersIdle(w: World, e: Event)
    requires IdleTimed(w) && (e.Begins? || e.StartFailed? || e.RunStopped? || e.Cancelled?)
    ensures IdleTimed(Next(w, e))
  {
    hide IdleTimed;
    OthersLeave(w, e);
    hide Next;
    IdleKept(w, Next(w, e));
  }

  lemma OthersLeave(w: World, e: Event)
    requires e.Begins? || e.StartFailed? || e.RunStopped? || e.Cancelled?
    ensures Next(w, e).timers == w.timers && Next(w, e).registry.entries == w.registry.entries
  {
  }

  lemma NextIdle(w: World, e: Event)
    requires Sound(w) && WakersSound(w) && IdleTimed(w)
    ensures IdleTimed(Next(w, e))
  {
    Numbered(w);
    SocketsOf(w);
    hide Sound, WakersSound, IdleTimed, SeekRoom, LocksSound, SocketsSound, TimersSound, TimersNumbered;
    match e
    case GetsLock(t, victim, now) =>
      if t in w.acquires && w.acquires[t].stage.Waiting? && w.acquires[t].lock !in w.holders {
        if w.acquires[t].key in w.registry.entries {
          JoinIdle(w, t, now);
        } else {
          SeekRoomIdle(w, t, victim);
        }
      }
    case VictimStopped(t, victim) => if t in w.acquires { SeekRoomIdle(w, t, victim); }
    case Started(t, now) => StartedIdle(w, t, now);
    case Releases(t, now) => ReleasesIdle(w, t, now);
    case TimerWakes(m, now) => WakesIdle(w, m, now);
    case TimerGetsLock(m, now) => EvictsIdle(w, m, now);
    case TimerEnds(m) => EndsIdle(w, m);
    case _ =>
      hide Next;
      OthersIdle(w, e);
  }

  lemma SocketsOf(w: World)
    requires Sound(w)
    ensures SocketsSound(w) && LocksSound(w)
  {
  }

  lemma {:induction false} AfterIdle(maxRuns: int, idleSeconds: real, events: seq<Event>)
    ensures WakersSound(After(Initial(maxRuns, idleSeconds), events)) && IdleTimed(After(Initial(maxRuns, idleSeconds), events))
  {
    if events != [] {
      var front := events[..|events| - 1];
      hide Next, WakersSound, IdleTimed;
      AfterIdle(maxRuns, idleSeconds, front);
      AfterSound(maxRuns, idleSeconds, front);
      NextWakers(After(Initial(maxRuns, idleSeconds), front), events[|events| - 1]);
      NextIdle(After(Initial(maxRuns, idleSeconds), front), events[|events| - 1]);
    }
  }

  /** No run that nobody watches is kept for ever: its own timer is asleep until
      exactly `idleSeconds` after its last use, or has woken and waits for its
      key's lock. */
  lemma EveryIdleRunHasItsTimer(maxRuns: int, idleSeconds: real, events: seq<Event>, key: string)
    requires var w := After(Initial(maxRuns, idleSeconds), events);
             key in w.registry.entries && w.registry.entries[key].sockets == 0
    ensures var w := After(Initial(maxRuns, idleSeconds), events);
            var e := w.registry.entries[key];
            && e.timer.Some? && e.timer.value in w.timers
            && match w.timers[e.timer.value]
               case Asleep(k, due) => k == key && due == e.lastUsed + idleSeconds
               case Wakeful(k, _, since) => k == key && since >= e.lastUsed + idleSeconds
               case Evicting(_) => false
  {
    AfterIdle(maxRuns, idleSeconds, events);
    AfterSound(maxRuns, idleSeconds, events);
    AfterKeepsSettings(maxRuns, idleSeconds, events);
    TimerOf(After(Initial(maxRuns, idleSeconds), events), key);
    hide After;
  }

  lemma TimerOf(w: World, key: string)
    requires Sound(w) && WakersSound(w) && IdleTimed(w) && key in w.registry.entries && w.registry.entries[key].sockets == 0
    ensures var e := w.registry.entries[key];
            && e.timer.Some? && e.timer.value in w.timers
            && match w.timers[e.timer.value]
               case Asleep(k, due) => k == key && due == e.lastUsed + w.registry.idleSeconds
               case Wakeful(k, _, since) => k == key && since >= e.lastUsed + w.registry.idleSeconds
               case Evicting(_) => false
  {
  }
}
