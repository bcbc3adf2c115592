/** Which control messages an outbox neither sends nor hands back: exactly those
    that a close cuts off, and those still queued when it is over. */
module OutboxLosses {
  import opened Keys
  import opened Outboxes
  import opened OutboxSteps

  // ---------------------------------------------------------------- counts

  function Controls(letters: seq<Letter>): nat
  {
    if letters == [] then 0 else
      Controls(letters[..|letters| - 1]) + if IsControl(letters[|letters| - 1].message) then 1 else 0
  }

  /** The control messages that were sent, or given up and handed back. */
  function Reported(settled: seq<Settled>): nat
  {
    if settled == [] then 0 else
      var last := settled[|settled| - 1];
      Reported(settled[..|settled| - 1])
      + if IsControl(last.letter.message) && (last.ending == Sent || last.ending.GivenUp?) then 1 else 0
  }

  /** Those whose send was cut off. */
  function CutControls(settled: seq<Settled>): nat
  {
    if settled == [] then 0 else
      var last := settled[|settled| - 1];
      CutControls(settled[..|settled| - 1]) + if IsControl(last.letter.message) && last.ending == Cancelled then 1 else 0
  }

  lemma {:induction false} ControlsJoin(a: seq<Letter>, b: seq<Letter>)
    ensures Controls(a + b) == Controls(a) + Controls(b)
  {
    if b == [] {
      assert a + b == a;
    } else {
      ControlsJoin(a, b[..|b| - 1]);
      assert (a + b)[..|a + b| - 1] == a + b[..|b| - 1];
    }
  }

  lemma ControlsOne(letter: Letter)
    ensures Controls([letter]) == if IsControl(letter.message) then 1 else 0
    ensures Controls([]) == 0
  {
    assert [letter][..0] == [];
  }

  /** Only data is dropped for room, so the control messages all survive. */
  lemma {:induction false} ControlsSurvive(letters: seq<Letter>, dropped: seq<bool>)
    requires |letters| == |dropped|
    requires forall i :: 0 <= i < |letters| && dropped[i] ==> !IsControl(letters[i].message)
    ensures Controls(Survivors(letters, dropped)) == Controls(letters)
  {
    if letters != [] {
      var n := |letters| - 1;
      ControlsSurvive(letters[..n], dropped[..n]);
      SurvivorsLast(letters, dropped);
      ControlsOne(letters[n]);
      ControlsJoin(Survivors(letters[..n], dropped[..n]), if dropped[n] then [] else [letters[n]]);
      hide Survivors;
    }
  }

  lemma {:induction false} SettledControls(settled: seq<Settled>)
    requires forall i :: 0 <= i < |settled| && settled[i].ending == Lost ==> !IsControl(settled[i].letter.message)
    ensures Controls(LettersOf(settled)) == Reported(settled) + CutControls(settled)
  {
    if settled != [] {
      var front := settled[..|settled| - 1];
      SettledControls(front);
      assert LettersOf(settled)[..|front|] == LettersOf(front);
    }
  }

  /** How many control messages are in flight. */
  function FlyingControls(w: Work): nat
  {
    if w.Idle? || !IsControl(w.letter.message) then 0 else 1
  }

  /** Every control message published is counted once. */
  lemma Accounts(s: State)
    requires Sound(s)
    ensures Controls(s.history) == Reported(s.settled) + CutControls(s.settled) + FlyingControls(s.work) + Controls(s.queue)
  {
    var marks := MarksOf(s);
    ControlsSurvive(s.history, marks);
    SettledControls(s.settled);
    var before := LettersOf(s.settled);
    var flying := Flying(InFlight(s.work));
    ControlsJoin(before + flying, s.queue);
    ControlsJoin(before, flying);
    if flying != [] { ControlsOne(flying[0]); }
  }

  // ---------------------------------------------------------------- the close

  /** The event cuts off the send of a control message: the drain stops in it, or
      the patience of the close ends in it. */
  predicate CutsControl(s: State, e: Event)
  {
    && FlyingControls(s.work) == 1
    && match e
       case TaskStops(_, now) => s.clock <= now && s.mode.Stopping?
       case TimesOut(now) => s.clock <= now && s.mode.Flushing? && s.mode.end <= now
       case _ => false
  }

  predicate EverCut(s: State, events: seq<Event>)
  {
    events != [] &&
    var front := events[..|events| - 1];
    EverCut(s, front) || CutsControl(After(s, front), events[|events| - 1])
  }

  lemma OneMoreCut(settled: seq<Settled>, one: Settled)
    ensures CutControls(settled + [one]) ==
            CutControls(settled) + if IsControl(one.letter.message) && one.ending == Cancelled then 1 else 0
  {
    assert (settled + [one])[..|settled|] == settled;
  }

  lemma CutsOne(s: State, e: Event)
    ensures CutControls(Next(s, e).settled) == CutControls(s.settled) + if CutsControl(s, e) then 1 else 0
  {
    SettlesOne(s, e);
    if Next(s, e).settled != s.settled {
      OneMoreCut(s.settled, Next(s, e).settled[|s.settled|]);
    }
    hide Next, CutControls, CutsControl;
  }

  /** A step settles at most one letter, and cancels only the one in flight. */
  lemma SettlesOne(s: State, e: Event)
    ensures var v := Next(s, e);
            if v.settled == s.settled then !CutsControl(s, e)
            else && |v.settled| == |s.settled| + 1 && v.settled == s.settled + [v.settled[|s.settled|]]
                 && (CutsControl(s, e) <==> IsControl(v.settled[|s.settled|].letter.message) && v.settled[|s.settled|].ending == Cancelled)
  {
    hide IsControl, Queued;
  }

  lemma {:induction false} CutExactly(s: State, events: seq<Event>)
    requires CutControls(s.settled) == 0
    ensures CutControls(After(s, events).settled) > 0 <==> EverCut(s, events)
  {
    if events != [] {
      var front := events[..|events| - 1];
      CutExactly(s, front);
      hide Next, CutsControl, CutControls;
      CutsOne(After(s, front), events[|events| - 1]);
    }
  }

  /** All that was published of control messages has been sent or handed back,
      exactly when no close cut one off and none is in flight or queued. */
  lemma AllReportedExactly(key: string, maxsize: nat, deadline: real, clock: real, events: seq<Event>)
    ensures var s0 := Initial(key, maxsize, deadline, clock);
            var s := After(s0, events);
            && Reported(s.settled) <= Controls(s.history)
            && (Reported(s.settled) == Controls(s.history)
                <==> !EverCut(s0, events) && FlyingControls(s.work) == 0 && Controls(s.queue) == 0)
  {
    var s0 := Initial(key, maxsize, deadline, clock);
    AfterSound(key, maxsize, deadline, clock, events);
    CutExactly(s0, events);
    hide After, EverCut, Sound;
    Accounts(After(s0, events));
  }

  /** Once it is closed nothing more is sent or handed back, and what is queued
      stays there. */
  lemma {:induction false} ClosedIsFinal(s: State, events: seq<Event>)
    requires s.mode.Closed? && s.work.Idle?
    ensures var v := After(s, events);
            && v.mode.Closed? && v.work.Idle? && v.settled == s.settled && v.handedBack == s.handedBack
            && Controls(v.queue) >= Controls(s.queue)
  {
    if events != [] {
      ClosedIsFinal(s, events[..|events| - 1]);
      ClosedStep(After(s, events[..|events| - 1]), events[|events| - 1]);
    }
  }

  lemma ClosedStep(s: State, e: Event)
    requires s.mode.Closed? && s.work.Idle?
    ensures var v := Next(s, e);
            && v.mode.Closed? && v.work.Idle? && v.settled == s.settled && v.handedBack == s.handedBack
            && Controls(v.queue) >= Controls(s.queue)
  {
    if e.Publishes? && s.clock <= e.now {
      var letter := Letter(e.message, e.now, if e.under.None? then s.key else e.under.value);
      QueuedControls(s.queue, letter, s.data >= s.maxsize);
      hide Queued, Controls;
    } else {
      hide Queued, Controls, Take, Try, EndAttempt;
    }
  }

  lemma QueuedControls(queue: seq<Letter>, letter: Letter, full: bool)
    ensures Controls(Queued(queue, letter, full)) == Controls(queue) + Controls([letter])
  {
    hide Controls, Without;
    ControlsJoin(queue, [letter]);
    ControlsJoin(Without(queue, OldestData(queue)), [letter]);
    WithoutOldest(queue);
  }

  lemma WithoutOldest(queue: seq<Letter>)
    ensures Controls(Without(queue, OldestData(queue))) == Controls(queue)
  {
    var i := OldestData(queue);
    if i < |queue| {
      assert !IsControl(queue[i].message);
      hide Controls, IsControl, OldestData, FirstData;
      WithoutData(queue[..i], queue[i], queue[i + 1..]);
      assert queue == queue[..i] + [queue[i]] + queue[i + 1..];
    }
  }

  lemma WithoutData(a: seq<Letter>, letter: Letter, b: seq<Letter>)
    requires !IsControl(letter.message)
    ensures Controls(a + [letter] + b) == Controls(a + b)
  {
    ControlsOne(letter);
    hide Controls, IsControl;
    ControlsJoin(a + [letter], b);
    ControlsJoin(a, [letter]);
    ControlsJoin(a, b);
  }

  /** It happens: a command in flight when the close begins is neither sent nor
      handed back. */
  lemma ACloseLosesACommand(m: Message)
    requires m.kind.Command?
    ensures var events := [Publishes(m, None, 0.0), Takes(0.0), CloseBegins, TaskStops(2.0, 0.0)];
            var s := After(Initial("a", 64, 10.0, 0.0), events);
            && s.mode.Closed? && s.queue == [] && |s.history| == 1 && s.history[0].message == m
            && s.settled == [Settled(s.history[0], Cancelled)] && s.handedBack == []
  {
    var s0, letter := Initial("a", 64, 10.0, 0.0), Letter(m, 0.0, "a");
    var s1 := s0.(queue := [letter], history := [letter]);
    var s2 := s1.(queue := [], work := Attempting(letter, [0.0]));
    First(m);
    assert [] + [0.0] == [0.0];
    assert Next(s1, Takes(0.0)) == s2;
    hide Queued, Publish, Take, IsControl;
    AfterFour(s0, Publishes(m, None, 0.0), Takes(0.0), CloseBegins, TaskStops(2.0, 0.0));
  }

  lemma First(m: Message)
    requires m.kind.Command?
    ensures var letter := Letter(m, 0.0, "a");
            Next(Initial("a", 64, 10.0, 0.0), Publishes(m, None, 0.0)) ==
            Initial("a", 64, 10.0, 0.0).(queue := [letter], history := [letter])
  {
    assert Queued([], Letter(m, 0.0, "a"), false) == [Letter(m, 0.0, "a")];
    hide Queued;
  }

  lemma AfterFour(s: State, a: Event, b: Event, c: Event, d: Event)
    ensures After(s, [a, b, c, d]) == Next(Next(Next(Next(s, a), b), c), d)
  {
    hide Next;
    assert [a, b, c, d][..3] == [a, b, c] && [a, b, c][..2] == [a, b] && [a, b][..1] == [a];
    assert After(s, [a]) == Next(s, a);
    assert After(s, [a, b]) == Next(After(s, [a]), b);
    assert After(s, [a, b, c]) == Next(After(s, [a, b]), c);
  }
}
