/** The registry as an object: each method is one stretch of its code between
    two suspensions, proved against the function of that stretch. */
module PipelineRegistries {
  import opened Keys
  import opened Registries
  import RegistryProofs

  /** What one turn of making room comes to. */
  datatype Turn = Room | Evicted(key: string) | AllInUse

  ghost predicate Locked(g: Registry)
  {
    && (forall k :: k in g.entries ==> k in g.locks)
    && (forall k :: k in g.locks ==> g.locks[k] < g.made)
    && (forall j, k :: j in g.locks && k in g.locks && g.locks[j] == g.locks[k] ==> j == k)
  }

  ghost predicate WithinCap(g: Registry)
  {
    g.pending >= 0 && |g.entries| + g.pending <= if g.maxRuns > 0 then g.maxRuns else 0
  }

  ghost predicate Sound(g: Registry)
  {
    RegistryProofs.Tidy(g) && Locked(g) && WithinCap(g)
  }

  lemma EnterSound(g: Registry, key: string)
    requires Sound(g)
    ensures Sound(Enter(g, key).0)
  {
    RegistryProofs.EnterTidy(g, key);
    hide RegistryProofs.Tidy;
  }

  lemma LeaveSound(g: Registry, key: string)
    requires Sound(g) && key in g.acquiring
    ensures Sound(Leave(g, key))
  {
    RegistryProofs.LeaveTidy(g, g, key);
    hide RegistryProofs.Tidy;
  }

  lemma FreshLock(g: Registry)
    requires Sound(g)
    ensures forall k :: k in g.locks ==> g.locks[k] != g.made
  {
  }

  lemma EnterIs(g: Registry, key: string)
    requires Sound(g)
    ensures var (h, lock) := Enter(g, key);
            && h.acquiring == g.acquiring[key := (if key in g.acquiring then g.acquiring[key] else 0) + 1]
            && h.locks == g.locks[key := lock]
            && (if key in g.locks then lock == g.locks[key] else forall k :: k in g.locks ==> g.locks[k] != lock)
  {
    FreshLock(g);
    assert key in g.locks ==> g.locks[key := g.locks[key]] == g.locks;
    hide Sound;
  }

  lemma LeaveIs(g: Registry, key: string)
    requires key in g.acquiring
    ensures var h := Leave(g, key);
            if g.acquiring[key] > 1 then h.acquiring == g.acquiring[key := g.acquiring[key] - 1] && h.locks == g.locks
            else h.acquiring == g.acquiring - {key} && h.locks == if key in g.entries then g.locks else g.locks - {key}
  {
  }

  lemma ReleaseSound(g: Registry, key: string, now: real)
    requires Sound(g)
    ensures Sound(Release(g, key, now).0)
  {
    var h := Release(g, key, now).0;
    assert h.entries.Keys == g.entries.Keys;
    assert |h.entries| == |h.entries.Keys| && |g.entries| == |g.entries.Keys|;
    RegistryProofs.SameTidy(g, h);
    hide RegistryProofs.Tidy;
  }

  lemma ReleaseIs(g: Registry, key: string, now: real)
    ensures var (h, timer) := Release(g, key, now);
            if key !in g.entries then timer == None && h == g
            else
              var e := g.entries[key];
              && (timer.Some? <==> e.sockets <= 1 && e.timer.None?)
              && h.entries == g.entries[key := Entry(e.run, if e.sockets > 1 then e.sockets - 1 else 0, now,
                                                     if timer.Some? then timer else e.timer)]
  {
  }

  lemma EvictKeepsLocked(g: Registry, key: string)
    requires Locked(g)
    ensures Locked(Evict(g, key))
  {
  }

  lemma EvictKeepsCap(g: Registry, key: string)
    requires WithinCap(g)
    ensures WithinCap(Evict(g, key))
  {
    RegistryProofs.SubsetSmaller(Evict(g, key).entries.Keys, g.entries.Keys);
    assert |Evict(g, key).entries| == |Evict(g, key).entries.Keys| && |g.entries| == |g.entries.Keys|;
  }

  lemma EvictSound(g: Registry, key: string)
    requires Sound(g)
    ensures Sound(Evict(g, key))
  {
    hide Locked, WithinCap, RegistryProofs.Tidy, Evict;
    RegistryProofs.EvictTidy(g, key);
    EvictKeepsLocked(g, key);
    EvictKeepsCap(g, key);
  }

  class PipelineRegistry {
    const maxRuns: int
    const idleSeconds: real
    var entries: map<string, Entry>
    var locks: map<string, LockId>
    var acquiring: map<string, int>
    var pending: int
    var made: nat

    ghost function State(): Registry
      reads this
    {
      Registry(maxRuns, idleSeconds, entries, locks, acquiring, pending, made)
    }

    /** Each run has its key's lock, no two keys share one, every lock and count
        kept serves somebody, and the runs, with those being built, are within
        the cap. */
    ghost predicate Valid()
      reads this
    {
      Sound(State())
    }

    constructor (maxRuns: int, idleSeconds: real)
      ensures Valid() && State() == Initial(maxRuns, idleSeconds).registry
    {
      this.maxRuns, this.idleSeconds := maxRuns, idleSeconds;
      entries, locks, acquiring, pending, made := map[], map[], map[], 0, 0;
    }

    /** The first stretch of `acquire`: counted, then at the key's lock. */
    method BeginAcquire(key: string) returns (lock: LockId)
      requires Valid()
      modifies `acquiring, `locks, `made
      ensures Valid() && (State(), lock) == Enter(old(State()), key)
      ensures acquiring == old(acquiring)[key := (if key in old(acquiring) then old(acquiring[key]) else 0) + 1]
      ensures locks == old(locks)[key := lock]
      ensures key in old(locks) ==> lock == old(locks[key])
      ensures key !in old(locks) ==> forall k :: k in old(locks) ==> old(locks[k]) != lock
    {
      hide Sound;
      ghost var g := State();
      EnterSound(g, key);
      EnterIs(g, key);
      acquiring := acquiring[key := (if key in acquiring then acquiring[key] else 0) + 1];
      if key !in locks {
        locks := locks[key := made];
        made := made + 1;
      }
      lock := locks[key];
      assert (State(), lock) == Enter(g, key);
      hide Enter;
    }

    /** The key's lock goes when nobody is acquiring it and it has no run. */
    method DropLock(key: string)
      modifies `acquiring, `locks
      ensures State() == DropLockIfUnused(old(State()), key)
      ensures locks == if (key !in old(acquiring) || old(acquiring[key]) <= 0) && key !in entries then old(locks) - {key} else old(locks)
    {
      if key !in acquiring || acquiring[key] <= 0 {
        acquiring := acquiring - {key};
        if key !in entries {
          locks := locks - {key};
        }
      }
    }

    /** The last stretch of `acquire`, however it ended. */
    method EndAcquire(key: string)
      requires Valid() && key in acquiring
      modifies `acquiring, `locks
      ensures Valid() && State() == Leave(old(State()), key)
      ensures old(acquiring[key]) > 1 ==> acquiring == old(acquiring)[key := old(acquiring[key]) - 1] && locks == old(locks)
      ensures old(acquiring[key]) == 1 ==>
                acquiring == old(acquiring) - {key} && locks == if key in entries then old(locks) else old(locks) - {key}
    {
      hide Sound, DropLockIfUnused;
      ghost var g := State();
      acquiring := acquiring[key := acquiring[key] - 1];
      assert State() == g.(acquiring := g.acquiring[key := Acquiring(g, key) - 1]);
      DropLock(key);
      assert State() == Leave(g, key);
      LeaveIs(g, key);
      hide Leave;
      LeaveSound(g, key);
    }

    /** The key has a run: one more socket, and its timer is called off. */
    method JoinRun(key: string, now: real) returns (run: RunId, timer: Option<TaskId>)
      requires Valid() && key in entries
      modifies `entries
      ensures Valid() && State() == Join(old(State()), key, now)
      ensures run == old(entries)[key].run && timer == old(entries)[key].timer
      ensures entries == old(entries)[key := Entry(run, old(entries)[key].sockets + 1, now, None)]
    {
      var entry := entries[key];
      run, timer := entry.run, entry.timer;
      entries := entries[key := Entry(entry.run, entry.sockets + 1, now, None)];
      assert entries.Keys == old(entries).Keys;
      RegistryProofs.SameTidy(old(State()), State());
    }

    /** Of the runs nobody watches, the one used longest ago. */
    method LeastRecentlyUsed() returns (victim: Option<string>)
      ensures victim.Some? ==> IsVictim(State(), victim.value)
      ensures victim.Some? ==>
                && victim.value in entries && entries[victim.value].sockets == 0
                && forall k :: k in entries && entries[k].sockets == 0 ==> entries[victim.value].lastUsed <= entries[k].lastUsed
      ensures victim.None? ==> forall k :: k in entries ==> entries[k].sockets != 0
    {
      victim := None;
      var left := entries.Keys;
      while left != {}
        invariant left <= entries.Keys
        invariant victim.None? ==> forall k :: k in entries && k !in left ==> entries[k].sockets != 0
        invariant victim.Some? ==>
                    && victim.value in entries && entries[victim.value].sockets == 0
                    && forall k :: k in entries && k !in left && entries[k].sockets == 0 ==>
                         entries[victim.value].lastUsed <= entries[k].lastUsed
        decreases left
      {
        var k :| k in left;
        left := left - {k};
        if entries[k].sockets == 0 {
          if victim.None? || entries[k].lastUsed < entries[victim.value].lastUsed {
            victim := Some(k);
          }
        }
      }
    }

    /** Takes a run out; stopping it is awaited after. */
    method EvictRun(key: string)
      requires Valid()
      modifies `entries, `acquiring, `locks
      ensures Valid() && State() == Evict(old(State()), key)
      ensures entries == old(entries) - {key}
      ensures key in locks ==> key in acquiring && acquiring[key] > 0
    {
      EvictSound(State(), key);
      hide Sound;
      entries := entries - {key};
      DropLock(key);
    }

    /** One turn of making room, up to the wait for the victim to stop. */
    method MakeRoom() returns (turn: Turn)
      requires Valid()
      modifies `entries, `acquiring, `locks
      ensures Valid()
      ensures turn.Room? <==> !AtCap(old(State()))
      ensures turn.Room? <==> |old(entries)| + old(pending) < maxRuns
      ensures turn.Evicted? ==>
                && turn.key in old(entries) && old(entries[turn.key]).sockets == 0 && entries == old(entries) - {turn.key}
                && forall k :: k in entries && entries[k].sockets == 0 ==> old(entries[turn.key]).lastUsed <= entries[k].lastUsed
      ensures turn.AllInUse? ==> forall k :: k in old(entries) ==> old(entries)[k].sockets != 0
      ensures !turn.Evicted? ==> State() == old(State())
      ensures turn.Evicted? ==> IsVictim(old(State()), turn.key) && State() == Evict(old(State()), turn.key)
    {
      if |entries| + pending < maxRuns {
        return Room;
      }
      var victim := LeastRecentlyUsed();
      if victim.None? {
        return AllInUse;
      }
      EvictRun(victim.value);
      turn := Evicted(victim.value);
    }

    /** Past the capacity check, up to the wait for the run to start. */
    method ReserveRun() returns (run: RunId)
      requires Valid() && !AtCap(State())
      modifies `pending, `made
      ensures Valid() && (State(), run) == Reserve(old(State()))
      ensures pending == old(pending) + 1 && |entries| + pending <= maxRuns
    {
      pending := pending + 1;
      run := made;
      made := made + 1;
    }

    /** The run started: it is the key's, watched once. */
    method InsertRun(key: string, run: RunId, now: real)
      requires Valid() && key in acquiring && key in locks && key !in entries && pending > 0
      modifies `entries, `pending
      ensures Valid() && State() == Insert(old(State()), key, run, now)
      ensures pending == old(pending) - 1 && entries == old(entries)[key := Entry(run, 1, now, None)]
    {
      entries := entries[key := Entry(run, 1, now, None)];
      pending := pending - 1;
    }

    /** A session lets go; the last one out sets the timer. */
    method ReleaseRun(key: string, now: real) returns (timer: Option<TaskId>)
      requires Valid()
      modifies `entries, `made
      ensures Valid() && (State(), timer) == Release(old(State()), key, now)
      ensures key !in old(entries) ==> timer == None && entries == old(entries)
      ensures key in old(entries) ==>
                var e := old(entries)[key];
                && (timer.Some? <==> e.sockets <= 1 && e.timer.None?)
                && entries == old(entries)[key := Entry(e.run, if e.sockets > 1 then e.sockets - 1 else 0, now,
                                                        if timer.Some? then timer else e.timer)]
    {
      hide Sound;
      ReleaseSound(State(), key, now);
      ReleaseIs(State(), key, now);
      timer := None;
      if key !in entries {
        return;
      }
      var entry := entries[key];
      var left := if entry.sockets - 1 > 0 then entry.sockets - 1 else 0;
      entry := entry.(sockets := left, lastUsed := now);
      if left == 0 && entry.timer.None? {
        timer := Some(made);
        made := made + 1;
        entry := entry.(timer := timer);
      }
      entries := entries[key := entry];
    }
  }
}
