/** The outbox between its suspensions: what is published while a send waits,
    for the transport or for its next try, and while a close flushes. */
module OutboxSteps {
  import opened Keys
  import opened Retry
  import opened Outboxes

  /** Where the letter taken from the queue is: offered to the transport, or
      waiting for its next try. `times` are the tries so far. */
  datatype Work =
    | Idle
    | Attempting(letter: Letter, times: seq<real>)
    | Sleeping(letter: Letter, times: seq<real>, until: real)

  /** Draining; told to stop; sending what is left until `end`; done. */
  datatype Mode = Running | Stopping | Flushing(end: real) | Closed

  datatype State = State(
    maxsize: nat,
    deadline: real,
    key: string,
    queue: seq<Letter>,
    data: int,
    work: Work,
    mode: Mode,
    clock: real,
    dropped: nat,
    history: seq<Letter>,
    settled: seq<Settled>,
    handedBack: seq<(Letter, bool)>)

  datatype Event =
    | Publishes(message: Message, under: Option<string>, now: real)
    | Rekeys(key: string)
    | Takes(now: real)
    | AttemptEnds(taken: bool, now: real)
    | WaitEnds(now: real)
    | CloseBegins
    | TaskStops(patience: real, now: real)
    | TimesOut(now: real)

  function InFlight(w: Work): Option<Letter>
  {
    if w.Idle? then None else Some(w.letter)
  }

  /** The letter in flight is done with; a flush with nothing left is over. */
  function Settle(s: State, letter: Letter, ending: Ending): State
  {
    s.(work := Idle,
       settled := s.settled + [Settled(letter, ending)],
       handedBack := s.handedBack + if ending.GivenUp? then [(letter, ending.tried)] else [],
       mode := if s.mode.Flushing? && s.queue == [] then Closed else s.mode)
  }

  /** A control letter is tried before its deadline, and given up from then on. */
  function Try(s: State, letter: Letter, times: seq<real>): State
  {
    if s.clock < letter.queuedAt + s.deadline then s.(work := Attempting(letter, times + [s.clock]))
    else Settle(s, letter, GivenUp(times != []))
  }

  function Publish(s: State, message: Message, under: Option<string>): State
  {
    var letter := Letter(message, s.clock, if under.None? then s.key else under.value);
    var full := s.data >= s.maxsize;
    var queue := Queued(s.queue, letter, full);
    var gone := |s.queue| + 1 - |queue|;
    s.(queue := queue, history := s.history + [letter],
       data := s.data - gone + if IsControl(message) then 0 else 1, dropped := s.dropped + gone)
  }

  function Take(s: State): State
    requires s.queue != []
  {
    var letter := s.queue[0];
    var rest := s.(queue := s.queue[1..], data := s.data - if IsControl(letter.message) then 0 else 1);
    if IsControl(letter.message) then Try(rest, letter, []) else rest.(work := Attempting(letter, [s.clock]))
  }

  function EndAttempt(s: State, taken: bool): State
    requires s.work.Attempting? && s.work.times != []
  {
    var letter, times := s.work.letter, s.work.times;
    if taken then Settle(s, letter, Sent)
    else if !IsControl(letter.message) then Settle(s, letter, Lost)
    else
      var left := letter.queuedAt + s.deadline - s.clock;
      var wait := Wait(|times| - 1);
      s.(work := Sleeping(letter, times, s.clock + if wait < left then wait else if left < 0.0 then 0.0 else left))
  }

  function CutOff(s: State): State
  {
    if s.work.Idle? then s else Settle(s, s.work.letter, Cancelled)
  }

  function Tick(s: State, now: real): State
  {
    s.(clock := now)
  }

  /** An event that the state does not allow, or that is earlier than the clock,
      does not happen. */
  function Next(s: State, e: Event): State
  {
    match e
    case Publishes(message, under, now) => if now < s.clock then s else Publish(Tick(s, now), message, under)
    case Rekeys(key) => s.(key := key)
    case Takes(now) =>
      if now < s.clock || !s.work.Idle? || s.queue == [] || s.mode.Stopping? || s.mode.Closed? then s else Take(Tick(s, now))
    case AttemptEnds(taken, now) =>
      if now < s.clock || !s.work.Attempting? || s.work.times == [] || s.mode.Stopping? then s else EndAttempt(Tick(s, now), taken)
    case WaitEnds(now) =>
      if now < s.clock || !s.work.Sleeping? || now < s.work.until || s.mode.Stopping? then s
      else Try(Tick(s, now), s.work.letter, s.work.times)
    case CloseBegins => if s.mode.Running? then s.(mode := Stopping) else s
    case TaskStops(patience, now) =>
      if now < s.clock || !s.mode.Stopping? then s
      else CutOff(Tick(s, now)).(mode := if s.queue == [] then Closed else Flushing(now + patience))
    case TimesOut(now) =>
      if now < s.clock || !s.mode.Flushing? || now < s.mode.end || s.work.Idle? then s
      else CutOff(Tick(s, now)).(mode := Closed)
  }

  function Initial(key: string, maxsize: nat, deadline: real, clock: real): State
  {
    State(maxsize, deadline, key, [], 0, Idle, Running, clock, 0, [], [], [])
  }

  function After(s: State, events: seq<Event>): State
  {
    if events == [] then s else Next(After(s, events[..|events| - 1]), events[|events| - 1])
  }

  // ---------------------------------------------------------------- what every step keeps

  /** What was given up, in order, and whether it was ever tried. */
  function GivenUps(settled: seq<Settled>): seq<(Letter, bool)>
  {
    if settled == [] then [] else
      var last := settled[|settled| - 1];
      GivenUps(settled[..|settled| - 1]) + if last.ending.GivenUp? then [(last.letter, last.ending.tried)] else []
  }

  /** How many sends were cut off. */
  function Cuts(settled: seq<Settled>): nat
  {
    if settled == [] then 0 else
      Cuts(settled[..|settled| - 1]) + if settled[|settled| - 1].ending == Cancelled then 1 else 0
  }

  lemma OneMore(settled: seq<Settled>, s: Settled)
    ensures GivenUps(settled + [s]) == GivenUps(settled) + if s.ending.GivenUp? then [(s.letter, s.ending.tried)] else []
    ensures Cuts(settled + [s]) == Cuts(settled) + if s.ending == Cancelled then 1 else 0
  {
    assert (settled + [s])[..|settled|] == settled;
  }

  /** Everything published was dropped for room, or has settled, or is in
      flight, or is queued, in publish order; and only data was dropped. */
  ghost predicate Conserved(s: State)
  {
    && (exists marks :: Kept(s.history, marks, s.settled, InFlight(s.work), s.queue))
    && |s.settled| + (if s.work.Idle? then 0 else 1) + |s.queue| + s.dropped == |s.history|
  }

  /** The data counter is what it counts, and is bounded. */
  ghost predicate Bounded(s: State)
  {
    s.data == DataIn(s.queue) && s.data <= (if s.maxsize == 0 then 1 else s.maxsize)
  }

  /** Only data is lost; what is given up is handed back, once; a close cuts
      off one send when it begins, and one when its patience ends. */
  ghost predicate WellEnded(s: State)
  {
    && (forall i :: 0 <= i < |s.settled| && s.settled[i].ending == Lost ==> !IsControl(s.settled[i].letter.message))
    && s.handedBack == GivenUps(s.settled)
    && Cuts(s.settled) <= match s.mode case Running => 0 case Stopping => 0 case Flushing(_) => 1 case Closed => 2
  }

  /** Data is tried once; control messages are tried as the schedule says. */
  ghost predicate OnSchedule(s: State)
  {
    && (forall i :: 0 <= i < |s.queue| ==> s.queue[i].queuedAt <= s.clock)
    && match s.work
       case Idle => true
       case Attempting(letter, times) =>
         && times != [] && times[|times| - 1] <= s.clock && letter.queuedAt <= s.clock
         && (if IsControl(letter.message) then Schedule(times, letter.queuedAt, s.deadline) else |times| == 1)
       case Sleeping(letter, times, until) =>
         && IsControl(letter.message) && times != [] && letter.queuedAt <= s.clock
         && Schedule(times, letter.queuedAt, s.deadline)
         && (until < letter.queuedAt + s.deadline ==> until >= times[|times| - 1] + Wait(|times| - 1))
  }

  ghost predicate Sound(s: State)
  {
    Conserved(s) && Bounded(s) && WellEnded(s) && OnSchedule(s)
  }

  // ---------------------------------------------------------------- steps

  lemma SettleSound(s: State, ending: Ending)
    requires Conserved(s) && Bounded(s) && WellEnded(s)
    requires forall i :: 0 <= i < |s.queue| ==> s.queue[i].queuedAt <= s.clock
    requires s.work != Idle && ending != Cancelled
    requires ending == Lost ==> !IsControl(s.work.letter.message)
    ensures Sound(Settle(s, s.work.letter, ending))
  {
    var v := Settle(s, s.work.letter, ending);
    SettleConserves(s, ending);
    SettleEnds(s, ending);
    hide Conserved, DataIn, WellEnded;
  }

  lemma Witness(s: State, marks: seq<bool>)
    requires Kept(s.history, marks, s.settled, InFlight(s.work), s.queue)
    requires |s.settled| + (if s.work.Idle? then 0 else 1) + |s.queue| + s.dropped == |s.history|
    ensures Conserved(s)
  {
  }

  /** Which of what was published was dropped. */
  lemma MarksOf(s: State) returns (marks: seq<bool>)
    requires Conserved(s)
    ensures Kept(s.history, marks, s.settled, InFlight(s.work), s.queue)
  {
    hide Kept;
    marks :| Kept(s.history, marks, s.settled, InFlight(s.work), s.queue);
  }

  lemma SettleConserves(s: State, ending: Ending)
    requires Conserved(s) && s.work != Idle
    ensures Conserved(Settle(s, s.work.letter, ending))
  {
    hide Kept;
    var marks := MarksOf(s);
    SettleKept(s.history, marks, s.settled, s.work.letter, ending, s.queue);
    Witness(Settle(s, s.work.letter, ending), marks);
  }

  lemma SettleEnds(s: State, ending: Ending)
    requires WellEnded(s) && s.work != Idle && (ending == Lost ==> !IsControl(s.work.letter.message))
    ensures ending != Cancelled ==> WellEnded(Settle(s, s.work.letter, ending))
    ensures var v := Settle(s, s.work.letter, ending);
            && v.handedBack == GivenUps(v.settled) && Cuts(v.settled) == Cuts(s.settled) + (if ending == Cancelled then 1 else 0)
            && forall i :: 0 <= i < |v.settled| && v.settled[i].ending == Lost ==> !IsControl(v.settled[i].letter.message)
  {
    OneMore(s.settled, Settled(s.work.letter, ending));
    hide GivenUps, Cuts, IsControl;
  }

  lemma DropsQueued(s: State, i: nat)
    requires Conserved(s) && i < |s.queue| && !IsControl(s.queue[i].message)
    ensures Conserved(s.(queue := s.queue[..i] + s.queue[i + 1..], data := s.data - 1, dropped := s.dropped + 1))
  {
    var marks := MarksOf(s);
    hide Kept, DataIn;
    marks := MarkQueued(s.history, marks, s.settled, InFlight(s.work), s.queue, i);
    Witness(s.(queue := s.queue[..i] + s.queue[i + 1..], data := s.data - 1, dropped := s.dropped + 1), marks);
  }

  /** Making room for data takes one data letter off the queue, if there is one. */
  lemma RoomInQueue(queue: seq<Letter>)
    ensures var left := Without(queue, OldestData(queue));
            if OldestData(queue) < |queue| then |left| == |queue| - 1 && DataIn(left) == DataIn(queue) - 1
            else left == queue && DataIn(queue) == 0
  {
    var i := OldestData(queue);
    if i < |queue| {
      assert !IsControl(queue[i].message);
      hide DataIn, IsControl, OldestData;
      DataInSplit(queue, i);
    } else {
      hide DataIn, IsControl, OldestData;
      NoData(queue);
    }
  }

  lemma RoomConserves(s: State)
    requires Conserved(s)
    ensures var left := Without(s.queue, OldestData(s.queue));
            var gone := |s.queue| - |left|;
            Conserved(s.(queue := left, data := s.data - gone, dropped := s.dropped + gone))
  {
    var i := OldestData(s.queue);
    if i < |s.queue| {
      assert !IsControl(s.queue[i].message);
      hide Conserved, IsControl, OldestData;
      DropsQueued(s, i);
    } else {
      hide Conserved, IsControl, OldestData;
      assert s == s.(queue := s.queue, data := s.data - 0, dropped := s.dropped + 0);
    }
  }

  lemma JoinsQueueWith(s: State, letter: Letter, marks: seq<bool>)
    requires Conserved(s) && Kept(s.history, marks, s.settled, InFlight(s.work), s.queue)
    ensures var v := s.(queue := s.queue + [letter], history := s.history + [letter],
                        data := s.data + if IsControl(letter.message) then 0 else 1);
            Conserved(v)
  {
    hide Kept, DataIn, IsControl, Survivors;
    AppendKept(s.history, marks, s.settled, InFlight(s.work), s.queue, letter);
    var v := s.(queue := s.queue + [letter], history := s.history + [letter],
                data := s.data + if IsControl(letter.message) then 0 else 1);
    assert |v.queue| == |s.queue| + 1 && |v.history| == |s.history| + 1;
    hide Conserved;
    Witness(v, marks + [false]);
  }

  lemma JoinsQueue(s: State, letter: Letter)
    requires Conserved(s) && s.data == DataIn(s.queue)
    ensures var v := s.(queue := s.queue + [letter], history := s.history + [letter],
                        data := s.data + if IsControl(letter.message) then 0 else 1);
            && Conserved(v) && v.data == DataIn(v.queue)
  {
    hide Kept, DataIn, IsControl, Conserved;
    var marks := MarksOf(s);
    JoinsQueueWith(s, letter, marks);
    DataInOneMore(s.queue, letter);
  }

  lemma DataInOneMore(queue: seq<Letter>, letter: Letter)
    ensures DataIn(queue + [letter]) == DataIn(queue) + if IsControl(letter.message) then 0 else 1
  {
    assert (queue + [letter])[..|queue|] == queue;
  }

  lemma PublishConserves(s: State, message: Message, under: Option<string>)
    requires Conserved(s) && Bounded(s)
    ensures Conserved(Publish(s, message, under)) && Bounded(Publish(s, message, under))
  {
    hide Conserved, DataIn, IsControl, Without;
    var letter := Letter(message, s.clock, if under.None? then s.key else under.value);
    if IsControl(message) || s.data < s.maxsize {
      JoinsQueue(s, letter);
    } else {
      var queue := Without(s.queue, OldestData(s.queue));
      RoomInQueue(s.queue);
      RoomConserves(s);
      hide OldestData;
      JoinsQueue(s.(queue := queue, data := s.data - (|s.queue| - |queue|), dropped := s.dropped + (|s.queue| - |queue|)), letter);
    }
  }

  lemma {:induction false} NoData(queue: seq<Letter>)
    requires forall i :: 0 <= i < |queue| ==> IsControl(queue[i].message)
    ensures DataIn(queue) == 0
  {
    if queue != [] {
      NoData(queue[..|queue| - 1]);
    }
  }

  lemma QueuedFrom(queue: seq<Letter>, letter: Letter, full: bool)
    ensures forall i :: 0 <= i < |Queued(queue, letter, full)| ==>
              Queued(queue, letter, full)[i] == letter || Queued(queue, letter, full)[i] in queue
  {
    hide IsControl;
  }

  lemma PublishSound(s: State, message: Message, under: Option<string>)
    requires Sound(s)
    ensures Sound(Publish(s, message, under))
  {
    PublishConserves(s, message, under);
    var v := Publish(s, message, under);
    QueuedFrom(s.queue, v.history[|s.history|], s.data >= s.maxsize);
    hide Conserved, Bounded, DataIn, IsControl, Queued, GivenUps, Cuts;
  }

  /** The letter taken is tried, if it is data or not too old. */
  lemma TakeOnSchedule(s: State)
    requires OnSchedule(s) && s.queue != [] && s.work.Idle?
    ensures forall i :: 0 <= i < |s.queue[1..]| ==> s.queue[1..][i].queuedAt <= s.clock
    ensures !IsControl(s.queue[0].message) || s.clock < s.queue[0].queuedAt + s.deadline ==>
              OnSchedule(s.(queue := s.queue[1..], work := Attempting(s.queue[0], [s.clock])))
  {
    var letter := s.queue[0];
    hide IsControl, Schedule;
    if s.clock < letter.queuedAt + s.deadline { FirstTry(letter.queuedAt, s.deadline, s.clock); }
  }

  /** The letter at the head of the queue, taken to be tried. */
  function Taken(s: State): State
    requires s.queue != []
  {
    s.(queue := s.queue[1..], data := s.data - if IsControl(s.queue[0].message) then 0 else 1,
       work := Attempting(s.queue[0], [s.clock]))
  }

  /** A letter taken off the queue is in flight. */
  lemma TakeConserves(s: State)
    requires Conserved(s) && Bounded(s) && s.queue != [] && s.work.Idle?
    ensures Conserved(Taken(s)) && Bounded(Taken(s))
  {
    hide Kept, DataIn, IsControl;
    var marks := MarksOf(s);
    PopKept(s.history, marks, s.settled, s.queue);
    Witness(Taken(s), marks);
  }

  lemma TakeIs(s: State)
    requires s.queue != []
    ensures var letter := s.queue[0];
            Take(s) == if IsControl(letter.message) && s.clock >= letter.queuedAt + s.deadline
                       then Settle(Taken(s), letter, GivenUp(false)) else Taken(s)
  {
    hide IsControl;
    assert [] + [s.clock] == [s.clock];
  }

  lemma TakenEnds(s: State)
    requires s.queue != [] && WellEnded(s)
    ensures WellEnded(Taken(s))
  {
  }

  lemma TakenOnSchedule(s: State)
    requires s.queue != [] && OnSchedule(s.(queue := s.queue[1..], work := Attempting(s.queue[0], [s.clock])))
    ensures OnSchedule(Taken(s))
  {
    hide IsControl, Schedule;
  }

  lemma TakeSound(s: State)
    requires Sound(s) && s.queue != [] && s.work.Idle?
    ensures Sound(Take(s))
  {
    var letter := s.queue[0];
    TakeIs(s);
    TakeConserves(s);
    TakenEnds(s);
    TakeOnSchedule(s);
    hide Take, Conserved, Bounded, WellEnded, OnSchedule, IsControl;
    if IsControl(letter.message) && s.clock >= letter.queuedAt + s.deadline {
      SettleSound(Taken(s), GivenUp(false));
    } else {
      TakenOnSchedule(s);
    }
  }

  lemma FirstTry(queuedAt: real, deadline: real, now: real)
    requires queuedAt <= now < queuedAt + deadline
    ensures [] + [now] == [now] && Schedule([now], queuedAt, deadline)
  {
  }

  lemma EndAttemptSound(s: State, taken: bool)
    requires Sound(s) && s.work.Attempting? && s.work.times != []
    ensures Sound(EndAttempt(s, taken))
  {
    hide Conserved, Bounded, IsControl, DataIn, GivenUps, Cuts, Schedule;
    if taken {
      SettleSound(s, Sent);
    } else if !IsControl(s.work.letter.message) {
      SettleSound(s, Lost);
    } else {
      SameFlight(s, EndAttempt(s, taken));
    }
  }

  lemma SameFlight(s: State, v: State)
    requires v == s.(work := v.work) && InFlight(v.work) == InFlight(s.work)
    ensures Conserved(v) == Conserved(s) && Bounded(v) == Bounded(s) && WellEnded(v) == WellEnded(s)
  {
  }

  lemma WaitSound(s: State)
    requires Sound(s) && s.work.Sleeping? && s.work.until <= s.clock
    ensures Sound(Try(s, s.work.letter, s.work.times))
  {
    hide Conserved, Bounded, IsControl, DataIn, GivenUps, Cuts, Schedule;
    var letter, times := s.work.letter, s.work.times;
    if s.clock < letter.queuedAt + s.deadline {
      ScheduleGoesOn(times, letter.queuedAt, s.deadline, s.clock);
      SameFlight(s, Try(s, letter, times));
    } else {
      SettleSound(s, GivenUp(true));
    }
  }

  lemma CutOffConserves(s: State, mode: Mode)
    requires Conserved(s) && Bounded(s)
    ensures var v := CutOff(s).(mode := mode); Conserved(v) && Bounded(v)
  {
    hide Kept, DataIn;
    if s.work != Idle { SettleConserves(s, Cancelled); }
    SameBut(CutOff(s), CutOff(s).(mode := mode));
  }

  lemma CutOffEnds(s: State, mode: Mode)
    requires WellEnded(s)
    requires (s.mode.Stopping? && !mode.Running? && !mode.Stopping?) || (s.mode.Flushing? && mode.Closed?)
    ensures WellEnded(CutOff(s).(mode := mode))
  {
    if s.work != Idle { SettleEnds(s, Cancelled); }
    hide IsControl, GivenUps, Cuts;
  }

  lemma CutOffSound(s: State, mode: Mode)
    requires Sound(s)
    requires (s.mode.Stopping? && !mode.Running? && !mode.Stopping?) || (s.mode.Flushing? && mode.Closed?)
    ensures Sound(CutOff(s).(mode := mode))
  {
    hide Conserved, Bounded, WellEnded, IsControl, Schedule;
    CutOffConserves(s, mode);
    CutOffEnds(s, mode);
  }

  lemma SameBut(s: State, v: State)
    requires v == s.(mode := v.mode) && Conserved(s)
    ensures Conserved(v)
  {
  }

  lemma TickSound(s: State, now: real)
    requires Sound(s) && s.clock <= now
    ensures Sound(Tick(s, now))
  {
    hide Kept, DataIn, IsControl, GivenUps, Cuts, Schedule;
    assert exists marks :: Kept(s.history, marks, s.settled, InFlight(s.work), s.queue);
  }

  lemma NextSound(s: State, e: Event)
    requires Sound(s)
    ensures Sound(Next(s, e))
  {
    hide Sound, Publish, Take, EndAttempt, Try, CutOff;
    match e
    case Publishes(message, under, now) => if s.clock <= now { TickSound(s, now); PublishSound(Tick(s, now), message, under); }
    case Rekeys(key) => OtherKey(s, key);
    case Takes(now) =>
      if s.clock <= now && s.work.Idle? && s.queue != [] { TickSound(s, now); TakeSound(Tick(s, now)); }
    case AttemptEnds(taken, now) =>
      if s.clock <= now && s.work.Attempting? && s.work.times != [] { TickSound(s, now); EndAttemptSound(Tick(s, now), taken); }
    case WaitEnds(now) =>
      if s.clock <= now && s.work.Sleeping? && s.work.until <= now { TickSound(s, now); WaitSound(Tick(s, now)); }
    case CloseBegins => if s.mode.Running? { Stops(s); }
    case TaskStops(patience, now) =>
      if s.clock <= now && s.mode.Stopping? {
        TickSound(s, now);
        CutOffSound(Tick(s, now), if s.queue == [] then Closed else Flushing(now + patience));
      }
    case TimesOut(now) => if s.clock <= now && s.mode.Flushing? { TickSound(s, now); CutOffSound(Tick(s, now), Closed); }
  }

  lemma OtherKey(s: State, key: string)
    requires Sound(s)
    ensures Sound(s.(key := key))
  {
    hide Kept, DataIn, IsControl, GivenUps, Cuts, Schedule;
    assert exists marks :: Kept(s.history, marks, s.settled, InFlight(s.work), s.queue);
  }

  lemma Stops(s: State)
    requires Sound(s) && s.mode.Running?
    ensures Sound(s.(mode := Stopping))
  {
    hide Kept, DataIn, IsControl, GivenUps, Cuts, Schedule;
    SameBut(s, s.(mode := Stopping));
  }

  lemma {:induction false} AfterSound(key: string, maxsize: nat, deadline: real, clock: real, events: seq<Event>)
    ensures Sound(After(Initial(key, maxsize, deadline, clock), events))
  {
    var s := Initial(key, maxsize, deadline, clock);
    if events == [] {
      Witness(s, []);
    } else {
      AfterSound(key, maxsize, deadline, clock, events[..|events| - 1]);
      NextSound(After(s, events[..|events| - 1]), events[|events| - 1]);
    }
  }

  lemma {:induction false} AfterSettings(key: string, maxsize: nat, deadline: real, clock: real, events: seq<Event>)
    ensures var s := After(Initial(key, maxsize, deadline, clock), events); s.maxsize == maxsize && s.deadline == deadline
  {
    hide Queued, IsControl, Wait;
    if events != [] {
      AfterSettings(key, maxsize, deadline, clock, events[..|events| - 1]);
    }
  }

  // ---------------------------------------------------------------- the theorems

  /** What may be dropped for room, and is tried once: what is no command, error,
      end of a run or notice of a start, and answers nobody. */
  predicate MayBeLost(kind: Kind)
  {
    kind == Other || kind == Result(None)
  }

  lemma ControlIsTheRest(m: Message)
    ensures IsControl(m) <==> !MayBeLost(m.kind)
  {
  }

  /** How many messages wait that may be lost. */
  function Losable(queue: seq<Letter>): nat
  {
    if queue == [] then 0 else
      Losable(queue[..|queue| - 1]) + if MayBeLost(queue[|queue| - 1].message.kind) then 1 else 0
  }

  lemma {:induction false} LosableIsData(queue: seq<Letter>)
    ensures Losable(queue) == DataIn(queue)
  {
    if queue != [] {
      LosableIsData(queue[..|queue| - 1]);
      ControlIsTheRest(queue[|queue| - 1].message);
    }
  }

  /** Whatever is published, and whenever: every message is dropped for room,
      settled, in flight or queued, once, in publish order; only what may be lost
      is dropped, and of that no more waits than there is room for. */
  lemma PublishedOnceInOrder(key: string, maxsize: nat, deadline: real, clock: real, events: seq<Event>)
    ensures var s := After(Initial(key, maxsize, deadline, clock), events);
            && (exists marks :: Kept(s.history, marks, s.settled, InFlight(s.work), s.queue)
                                && forall i :: 0 <= i < |marks| && marks[i] ==> MayBeLost(s.history[i].message.kind))
            && |s.settled| + |Flying(InFlight(s.work))| + |s.queue| + s.dropped == |s.history|
            && Losable(s.queue) <= (if maxsize == 0 then 1 else maxsize)
            && forall i :: 0 <= i < |s.settled| && s.settled[i].ending == Lost ==> MayBeLost(s.settled[i].letter.message.kind)
  {
    AfterSettings(key, maxsize, deadline, clock, events);
    AfterSound(key, maxsize, deadline, clock, events);
    var s := After(Initial(key, maxsize, deadline, clock), events);
    LosableIsData(s.queue);
    OnlyLosable(s);
    hide After;
  }

  lemma OnlyLosable(s: State)
    requires Sound(s)
    ensures exists marks :: Kept(s.history, marks, s.settled, InFlight(s.work), s.queue)
                            && forall i :: 0 <= i < |marks| && marks[i] ==> MayBeLost(s.history[i].message.kind)
    ensures forall i :: 0 <= i < |s.settled| && s.settled[i].ending == Lost ==> MayBeLost(s.settled[i].letter.message.kind)
  {
    hide Survivors, LettersOf, DataIn, GivenUps, Cuts;
    var marks := MarksOf(s);
    forall i | 0 <= i < |marks| && marks[i] ensures MayBeLost(s.history[i].message.kind) {
      ControlIsTheRest(s.history[i].message);
    }
    forall i | 0 <= i < |s.settled| && s.settled[i].ending == Lost ensures MayBeLost(s.settled[i].letter.message.kind) {
      ControlIsTheRest(s.settled[i].letter.message);
    }
  }

  /** What is published once the outbox has another key goes out under that. */
  lemma PublishedUnderTheNewKey(s: State, key: string, message: Message, now: real)
    requires s.clock <= now
    ensures var v := Next(Next(s, Rekeys(key)), Publishes(message, None, now));
            v.history == s.history + [Letter(message, now, key)]
  {
    hide IsControl, OldestData;
  }

  /** A message is queued under the key given, or the outbox's own as it is then,
      and at the time it is published. */
  lemma PublishedAs(s: State, message: Message, under: Option<string>, now: real)
    requires s.clock <= now
    ensures var v := Next(s, Publishes(message, under, now));
            && v.history == s.history + [Letter(message, now, if under.Some? then under.value else s.key)]
            && v.queue != [] && v.queue[|v.queue| - 1] == v.history[|s.history|]
            && (forall l :: l in v.queue[..|v.queue| - 1] ==> l in s.queue)
  {
    hide IsControl, OldestData;
  }

  /** Where a message that may not be lost is: sent; given up and handed back;
      cut off by a close, which cuts off one send when it begins and one more if
      its patience ends; in flight; or queued. */
  lemma ControlIsAccountedFor(key: string, maxsize: nat, deadline: real, clock: real, events: seq<Event>, i: nat)
    requires var s := After(Initial(key, maxsize, deadline, clock), events);
             i < |s.history| && !MayBeLost(s.history[i].message.kind)
    ensures var s := After(Initial(key, maxsize, deadline, clock), events);
            && (|| (exists k :: 0 <= k < |s.settled| && EndsWell(s, s.settled[k], s.history[i]))
                || InFlight(s.work) == Some(s.history[i])
                || s.history[i] in s.queue)
            && s.handedBack == GivenUps(s.settled)
            && Cuts(s.settled) <= (if s.mode.Running? || s.mode.Stopping? then 0 else if s.mode.Flushing? then 1 else 2)
  {
    AfterSound(key, maxsize, deadline, clock, events);
    ControlIsTheRest(After(Initial(key, maxsize, deadline, clock), events).history[i].message);
    WhereItIs(After(Initial(key, maxsize, deadline, clock), events), i);
  }

  /** Sent, handed back, or cut off by a close. */
  ghost predicate EndsWell(s: State, settled: Settled, letter: Letter)
  {
    && settled.letter == letter
    && match settled.ending
       case Sent => true
       case Lost => false
       case GivenUp(tried) => (letter, tried) in s.handedBack
       case Cancelled => s.mode.Flushing? || s.mode.Closed?
  }

  lemma {:induction false} HandedBack(settled: seq<Settled>, k: nat)
    requires k < |settled| && settled[k].ending.GivenUp?
    ensures (settled[k].letter, settled[k].ending.tried) in GivenUps(settled)
  {
    if k < |settled| - 1 {
      HandedBack(settled[..|settled| - 1], k);
    }
  }

  lemma {:induction false} CutIsCounted(settled: seq<Settled>, k: nat)
    requires k < |settled| && settled[k].ending == Cancelled
    ensures Cuts(settled) > 0
  {
    if k < |settled| - 1 {
      CutIsCounted(settled[..|settled| - 1], k);
    }
  }

  lemma WhereItIs(s: State, i: nat)
    requires Sound(s) && i < |s.history| && IsControl(s.history[i].message)
    ensures || (exists k :: 0 <= k < |s.settled| && EndsWell(s, s.settled[k], s.history[i]))
            || InFlight(s.work) == Some(s.history[i])
            || s.history[i] in s.queue
  {
    var marks := MarksOf(s);
    Survives(s.history, marks, i);
    var letters := LettersOf(s.settled);
    hide DataIn, IsControl, GivenUps, Cuts, Survivors;
    if s.history[i] in letters {
      var k :| 0 <= k < |letters| && letters[k] == s.history[i];
      if s.settled[k].ending.GivenUp? { HandedBack(s.settled, k); }
      if s.settled[k].ending == Cancelled { CutIsCounted(s.settled, k); }
      assert EndsWell(s, s.settled[k], s.history[i]);
    }
  }

  /** The tries of the letter in flight keep the schedule, however long ago it
      was taken, or there is one, if it may be lost; and a step that gives a letter
      up does so at its deadline or later, and hands back that letter alone. */
  lemma TriedOnSchedule(key: string, maxsize: nat, deadline: real, clock: real, events: seq<Event>, e: Event)
    ensures var s := After(Initial(key, maxsize, deadline, clock), events);
            && (s.work.Idle? ||
                if MayBeLost(s.work.letter.message.kind) then |s.work.times| == 1
                else Schedule(s.work.times, s.work.letter.queuedAt, deadline) && |s.work.times| <= Bound(deadline))
            && (Next(s, e).handedBack != s.handedBack ==> GivesUpInTime(s, Next(s, e), deadline))
  {
    AfterSettings(key, maxsize, deadline, clock, events);
    AfterSound(key, maxsize, deadline, clock, events);
    var s := After(Initial(key, maxsize, deadline, clock), events);
    if !s.work.Idle? { ControlIsTheRest(s.work.letter.message); }
    TriedOnce(s);
    hide Sound, Next, Schedule, IsControl, Bound;
    if !s.work.Idle? && IsControl(s.work.letter.message) { SoundSchedule(s); }
    if Next(s, e).handedBack != s.handedBack { HandsBackLate(s, e); }
  }

  lemma TriedOnce(s: State)
    requires Sound(s)
    ensures !s.work.Idle? && !IsControl(s.work.letter.message) ==> |s.work.times| == 1
  {
  }

  /** A refused try of what may not be lost is followed by the next after a wait of
      a quarter of a second, twice as long each time up to two seconds, or when
      the deadline comes, if that is sooner; it is then tried if the deadline has
      not come, and given up if it has. */
  lemma TriedAgainExactly(s: State, now: real)
    requires s.work.Attempting? && s.work.times != [] && !MayBeLost(s.work.letter.message.kind)
    requires s.clock <= now && !s.mode.Stopping?
    ensures var v := Next(s, AttemptEnds(false, now));
            var k, left := |s.work.times|, s.work.letter.queuedAt + s.deadline - now;
            var wait := if k == 1 then 0.25 else if k == 2 then 0.5 else if k == 3 then 1.0 else 2.0;
            && v == s.(clock := now, work := v.work)
            && v.work == Sleeping(s.work.letter, s.work.times, if left < 0.0 then now else if left < wait then now + left else now + wait)
    ensures forall later :: later >= now ==>
              var v := Next(s, AttemptEnds(false, now));
              later >= v.work.until && later < s.work.letter.queuedAt + s.deadline ==>
                Next(v, WaitEnds(later)).work == Attempting(s.work.letter, s.work.times + [later])
  {
    ControlIsTheRest(s.work.letter.message);
    hide IsControl;
  }

  /** What may be lost is lost by one refusal; and what is taken is sent. */
  lemma EndsAtOnce(s: State, taken: bool, now: real)
    requires s.work.Attempting? && s.work.times != [] && s.clock <= now && !s.mode.Stopping?
    ensures taken ==> Next(s, AttemptEnds(taken, now)).settled == s.settled + [Settled(s.work.letter, Sent)]
    ensures !taken && MayBeLost(s.work.letter.message.kind) ==>
              Next(s, AttemptEnds(taken, now)).settled == s.settled + [Settled(s.work.letter, Lost)]
  {
    ControlIsTheRest(s.work.letter.message);
    hide IsControl;
  }

  lemma SoundSchedule(s: State)
    requires Sound(s) && !s.work.Idle? && IsControl(s.work.letter.message)
    ensures Schedule(s.work.times, s.work.letter.queuedAt, s.deadline) && |s.work.times| <= Bound(s.deadline)
  {
    AttemptsBounded(s.work.times, s.work.letter.queuedAt, s.deadline);
  }

  lemma TryHandsBack(s: State, letter: Letter, times: seq<real>)
    ensures var v := Try(s, letter, times);
            && v.clock == s.clock
            && (v.handedBack != s.handedBack ==>
                  v.handedBack == s.handedBack + [(letter, times != [])] && s.clock >= letter.queuedAt + s.deadline)
  {
  }

  lemma HandsBackLate(s: State, e: Event)
    requires Sound(s) && Next(s, e).handedBack != s.handedBack
    ensures GivesUpInTime(s, Next(s, e), s.deadline)
  {
    SleepsOnControl(s);
    hide Sound, IsControl, Publish, Schedule, Wait, Try;
    match e
    case WaitEnds(now) => TryHandsBack(Tick(s, now), s.work.letter, s.work.times);
    case Takes(now) =>
      var rest := s.(clock := now, queue := s.queue[1..], data := s.data - if IsControl(s.queue[0].message) then 0 else 1);
      assert rest == Tick(s, now).(queue := rest.queue, data := rest.data);
      TryHandsBack(rest, s.queue[0], []);
    case _ =>
  }

  lemma SleepsOnControl(s: State)
    requires Sound(s)
    ensures s.work.Sleeping? ==> IsControl(s.work.letter.message)
  {
  }

  ghost predicate GivesUpInTime(s: State, v: State, deadline: real)
  {
    && |v.handedBack| == |s.handedBack| + 1 && v.handedBack[..|s.handedBack|] == s.handedBack
    && var letter := v.handedBack[|s.handedBack|].0;
       && IsControl(letter.message) && v.clock >= letter.queuedAt + deadline
       && (InFlight(s.work) == Some(letter) || (s.work.Idle? && s.queue != [] && s.queue[0] == letter))
  }
}
