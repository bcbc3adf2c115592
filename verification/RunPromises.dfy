/** What a run does with what it hears and publishes, said of the messages
    themselves, in every system reached. */
module RunPromises {
  import opened Keys
  import opened Wire
  import opened Hosts
  import opened Fence
  import Runs

  // ---------------------------------------------------------------- what is kept

  /** A message off the run's own topics is kept if it is this run's, or under a
      plain key, and either answers someone, or is not from a stream before the
      run's. */
  predicate KeepsHeard(r: Runs.Run, m: Message)
  {
    && (m.key.runId == 0 || m.key.runId == r.id)
    && (m.requestId.Some? || m.key.stream <= 0 || m.key.stream >= r.stream)
  }

  lemma HeardExactly(p: Runs.Pipeline, events: seq<SystemEvent>, r: nat, m: Message)
    requires Hearable(Reached(p, events), r, m)
    ensures var s := Reached(p, events);
            var run, v := s.runs[r], Step(s, RunHears(r, m));
            && v == s.(runs := v.runs) && v.runs == s.runs[r := v.runs[r]]
            && v.runs[r] == if KeepsHeard(run, m) then run.(latest := run.latest[m.cls := m]) else run
  {
  }

  /** Nothing else is heard: a run listens to its own key's results only. */
  lemma HearsOnlyResults(s: System, r: nat, m: Message)
    requires r < |s.runs| && (m.cls !in s.pipeline.results || m.key.run != s.runs[r].key || m !in s.sent)
    ensures Step(s, RunHears(r, m)) == s
  {
  }

  /** The stream a run is in once its router's mark is `mark`. */
  function StreamUnder(r: Runs.Run, mark: (int, int)): nat
  {
    if r.mark == Some(mark) then r.stream else r.stream + 1
  }

  /** What a run makes of what its router hands it. */
  function MadeOf(r: Runs.Run, mark: (int, int), item: Runs.Item): Message
  {
    var key := StreamKey(r.key, r.id, StreamUnder(r, mark));
    Message(item.cls, key, None, {Origin(key, r.serial)}, false)
  }

  /** The live run a client's run is to follow under its router's status. */
  function ToFollow(r: Runs.Run, item: Runs.Item): Option<string>
  {
    if item.live && !r.shared then Some("live." + item.source) else None
  }

  function Followed(r: Runs.Run): Option<string>
  {
    if r.following.None? then None else Some(r.following.value.key)
  }

  /** The router's status takes the run from one side of a switch to the other. */
  predicate Switches(p: Runs.Pipeline, r: Runs.Run, item: Runs.Item)
  {
    item.cls == p.status && ToFollow(r, item) != Followed(r)
  }

  /** What this event has the run keep, if anything. */
  function Keeps(s: System, e: SystemEvent, r: nat): Option<Message>
    requires r < |s.runs|
  {
    match e
    case RunHears(i, m) => if i == r && Hearable(s, r, m) && KeepsHeard(s.runs[r], m) then Some(m) else None
    case RunHearsFollowed(i, number, m, _) =>
      if i == r && FollowedHearable(s, r, number, m) && s.runs[r].following.Some?
         && s.runs[r].following.value.number == number && m.cls != s.pipeline.status
      then Some(m) else None
    case RunPublishes(i, mark, item) => if i == r then Some(MadeOf(s.runs[r], mark, item)) else None
    case _ => None
  }

  predicate Forgets(s: System, e: SystemEvent, r: nat, cls: Class)
    requires r < |s.runs|
  {
    e.RunPublishes? && e.r == r && cls in s.pipeline.results && Switches(s.pipeline, s.runs[r], e.item)
  }

  /** The last message of a class that a run was to keep, since it last forgot
      the class. */
  function LastKept(p: Runs.Pipeline, events: seq<SystemEvent>, r: nat, cls: Class): Option<Message>
  {
    if events == [] then None else
      var front, e := events[..|events| - 1], events[|events| - 1];
      var s := Reached(p, front);
      if r >= |s.runs| then None
      else if Keeps(s, e, r).Some? && Keeps(s, e, r).value.cls == cls then Keeps(s, e, r)
      else if Forgets(s, e, r, cls) then None
      else LastKept(p, front, r, cls)
  }

  function InLatest(r: Runs.Run, cls: Class): Option<Message>
  {
    if cls in r.latest then Some(r.latest[cls]) else None
  }

  lemma PutKeeps(r: Runs.Run, p: Runs.Pipeline, mark: (int, int), item: Runs.Item, cls: Class)
    ensures InLatest(Runs.Put(r, p, mark, item), cls) ==
            if item.cls == cls then Some(MadeOf(r, mark, item))
            else if cls in p.results && Switches(p, r, item) then None
            else InLatest(r, cls)
  {
    LiveKeyIs(item.source);
  }

  lemma LiveKeyIs(source: string)
    ensures Runs.LiveKey(source) == "live." + source
  {
  }

  lemma StepKeeps(s: System, e: SystemEvent, r: nat, cls: Class)
    requires r < |s.runs|
    ensures r < |Step(s, e).runs|
    ensures InLatest(Step(s, e).runs[r], cls) ==
            if Keeps(s, e, r).Some? && Keeps(s, e, r).value.cls == cls then Keeps(s, e, r)
            else if Forgets(s, e, r, cls) then None
            else InLatest(s.runs[r], cls)
  {
    hide Next, Emits, Runs.Put, Runs.Stamped, Runs.OnWire, MadeOf, Switches;
    if e.RunPublishes? && e.r == r {
      PutKeeps(s.runs[r], s.pipeline, e.mark, e.item, cls);
      MadeIsOfClass(s.runs[r], e.mark, e.item);
    }
  }

  lemma MadeIsOfClass(r: Runs.Run, mark: (int, int), item: Runs.Item)
    ensures MadeOf(r, mark, item).cls == item.cls
  {
  }

  lemma StepAddsBlank(s: System, e: SystemEvent)
    ensures |Step(s, e).runs| >= |s.runs|
    ensures forall r :: |s.runs| <= r < |Step(s, e).runs| ==> Step(s, e).runs[r].latest == map[]
  {
    hide Next, Emits, Runs.Put, Runs.Stamped, Runs.OnWire;
  }

  /** A run's latest of each class is the last it was to keep: whatever it hears,
      follows and publishes, nothing else gets in, and nothing that should be
      there is missing. */
  lemma {:induction false} LatestIsTheLastKept(p: Runs.Pipeline, events: seq<SystemEvent>, r: nat, cls: Class)
    requires r < |Reached(p, events).runs|
    ensures InLatest(Reached(p, events).runs[r], cls) == LastKept(p, events, r, cls)
  {
    if events != [] {
      var front, e := events[..|events| - 1], events[|events| - 1];
      var s := Reached(p, front);
      StepAddsBlank(s, e);
      hide Step, Keeps, Forgets;
      if r < |s.runs| {
        LatestIsTheLastKept(p, front, r, cls);
        StepKeeps(s, e, r, cls);
      }
    }
  }

  // ---------------------------------------------------------------- what is published

  /** A message a run publishes goes on the wire if a module reads its class, if
      it is an error, or if the run is shared and it is the frame at the cursor or
      a status; under the run's key, in the stream its router's mark says. */
  lemma PublishedExactly(s: System, r: nat, mark: (int, int), item: Runs.Item)
    requires r < |s.runs|
    ensures var run, v := s.runs[r], Step(s, RunPublishes(r, mark, item));
            var m := MadeOf(run, mark, item);
            && v == s.(runs := s.runs[r := v.runs[r]], sent := v.sent)
            && v.sent == (if item.cls in s.pipeline.inputs || item.cls == ErrorReport
                             || (run.shared && (item.atCursor || item.cls == s.pipeline.status))
                          then s.sent + {m} else s.sent)
            && v.runs[r].stream == StreamUnder(run, mark) && v.runs[r].mark == Some(mark)
            && v.runs[r].key == run.key && v.runs[r].id == run.id && v.runs[r].serial == run.serial + 1
            && (item.cls != s.pipeline.status ==> v.runs[r].frame == if item.atCursor then Some(m) else run.frame)
  {
    hide Next, Emits;
  }

  /** A run starts with an id past every one given before, and not below the clock;
      in no stream yet, with nothing kept, and following nobody. */
  lemma StartsExactly(s: System, key: string, shared: bool, clock: int)
    ensures var v := Step(s, RunStarts(key, shared, clock));
            && v == s.(runs := v.runs, lastId := v.lastId) && |v.runs| == |s.runs| + 1 && v.runs[..|s.runs|] == s.runs
            && v.lastId > s.lastId && v.lastId >= clock && (v.lastId == clock || v.lastId == s.lastId + 1)
            && var r := v.runs[|s.runs|];
               && r.key == key && r.shared == shared && r.id == v.lastId && r.stream == 0 && r.mark == None
               && r.latest == map[] && r.frame == None && r.following == None
  {
  }

  /** A command a run dispatches goes out under its key, once its first stream has
      begun, computed from nothing. */
  lemma DispatchedExactly(s: System, r: nat, cls: Class, requestId: Option<string>)
    requires r < |s.runs|
    ensures var run := s.runs[r];
            Step(s, RunDispatches(r, cls, requestId)) ==
            if run.stream == 0 then s
            else s.(sent := s.sent + {Message(cls, StreamKey(run.key, run.id, run.stream), requestId, {}, false)})
  {
  }

  /** A client's run follows the live run of the live source its router is on, and
      no other, from each status on; each time it comes to another it subscribes
      anew, and what it showed of the one before is gone. */
  lemma FollowsExactly(s: System, r: nat, mark: (int, int), item: Runs.Item)
    requires r < |s.runs|
    ensures var run, v := s.runs[r], Step(s, RunPublishes(r, mark, item)).runs[r];
            if !Switches(s.pipeline, run, item) then
              v.following == run.following && v.followedStatus == run.followedStatus && v.subscribed == run.subscribed
            else
              && Followed(v) == ToFollow(run, item) && v.followedStatus == None
              && (v.following.Some? ==> v.following.value.number == run.subscribed && v.subscribed == run.subscribed + 1
                                        && v.frame == None)
  {
    LiveKeyIs(item.source);
  }

  /** Off the live subscription it follows, a run takes the status as the live
      run's own, and anything else as its latest, and a frame as the one shown. */
  lemma FollowedExactly(s: System, r: nat, number: nat, m: Message, frames: Class)
    requires FollowedHearable(s, r, number, m)
    ensures var run, v := s.runs[r], Step(s, RunHearsFollowed(r, number, m, frames)).runs[r];
            if Followed(run) == None || run.following.value.number != number then v == run
            else if m.cls == s.pipeline.status then v == run.(followedStatus := Some(m))
            else v == run.(latest := run.latest[m.cls := m], frame := if m.cls == frames then Some(m) else run.frame)
  {
  }
}
