/** A command inbox that reads ahead: commands apply one at a time in the order
    they came, and a preempting one stops what is in progress and supersedes
    what waits.

    Two coroutines share the inbox: one reads, one applies. `Next` is a stretch
    of either between two suspensions; `CommandInbox` is the inbox as an object,
    its methods proved against it. */
module Inboxes {
  import opened Keys

  /** A command, numbered as it is read; when it was issued, if it says. */
  datatype Command = Command(number: nat, preempts: bool, issuedAt: Option<real>)

  /** How an attempt to apply a command ends: the receiver handled it, with an
      answer or none, and the answer went out or not; it refused; it raised; or
      the attempt was cancelled. */
  datatype End = Handled(answered: bool, answerFailed: bool) | RefusedBy | Raised | WasCancelled

  datatype Stage = Created | Handling | Finished(end: End)

  datatype Attempt = Attempt(command: Command, stage: Stage, cancelAsked: bool)

  /** What became of a command. `Vanished` is an attempt cancelled by nobody
      the inbox knows of. */
  datatype Outcome = Applied | Refused | Failed | Late | Superseded(cause: nat) | Vanished

  datatype Inbox = Inbox(
    deadline: real,
    waiting: seq<Command>,
    applying: Option<Attempt>,
    preemptedBy: Option<Command>,
    readerDone: bool,
    returned: bool,
    read: seq<Command>,              // history: everything read
    started: seq<Command>,           // everything taken to be applied
    outcomes: seq<(nat, Outcome)>,
    reports: seq<nat>)               // whom each error report answers

  datatype Event =
    | Read(preempts: bool, issuedAt: Option<real>)
    | ReaderEnds
    | Take
    | Begins(now: real)
    | Ends(end: End)
    | NeverRan
    | Resume
    | Returns

  /** Too old to apply. */
  predicate TooOld(c: Command, now: real, deadline: real)
  {
    c.issuedAt.Some? && now - c.issuedAt.value > deadline
  }

  function Settle(b: Inbox, c: Command, o: Outcome, reported: bool): Inbox
  {
    b.(outcomes := b.outcomes + [(c.number, o)], reports := b.reports + if reported then [c.number] else [])
  }

  /** Everything waiting is superseded, the oldest first. */
  function SupersedeAll(b: Inbox, cause: Command): Inbox
    decreases |b.waiting|
  {
    if b.waiting == [] then b
    else SupersedeAll(Settle(b.(waiting := b.waiting[1..]), b.waiting[0], Superseded(cause.number), true), cause)
  }

  /** The command in progress, if any, is asked to stop. */
  function Interrupt(b: Inbox, cause: Command): Inbox
  {
    if b.applying.None? then b
    else
      var attempt := b.applying.value;
      b.(preemptedBy := Some(cause),
         applying := Some(attempt.(cancelAsked := attempt.cancelAsked || !attempt.stage.Finished?)))
  }

  function Enqueue(b: Inbox, c: Command): Inbox
  {
    b.(waiting := b.waiting + [c], read := b.read + [c])
  }

  /** A command is read: a preempting one clears the way first. */
  function ReadOne(b: Inbox, c: Command): Inbox
  {
    Enqueue(if c.preempts then Interrupt(SupersedeAll(b, c), c) else b, c)
  }

  function Conclude(b: Inbox, end: End): Inbox
    requires b.applying.Some?
  {
    b.(applying := Some(b.applying.value.(stage := Finished(end))))
  }

  /** The receiver is done with a command, as the attempt reports it. */
  function AttemptEnds(b: Inbox, end: End): Inbox
    requires b.applying.Some?
  {
    var c := b.applying.value.command;
    match end
    case Handled(answered, answerFailed) => Conclude(Settle(b, c, Applied, answered && answerFailed), end)
    case RefusedBy => Conclude(Settle(b, c, Refused, true), end)
    case Raised => Conclude(Settle(b, c, Failed, true), end)
    case WasCancelled => Conclude(b, end)
  }

  function Next(b: Inbox, e: Event): Inbox
  {
    match e
    case Read(preempts, issuedAt) => if b.readerDone then b else ReadOne(b, Command(|b.read|, preempts, issuedAt))
    case ReaderEnds => b.(readerDone := true)
    case Take =>
      if b.applying.Some? || b.waiting == [] || b.returned then b
      else b.(waiting := b.waiting[1..], applying := Some(Attempt(b.waiting[0], Created, false)), started := b.started + [b.waiting[0]])
    case Begins(now) =>
      if b.applying.None? || !b.applying.value.stage.Created? || b.applying.value.cancelAsked then b
      else if TooOld(b.applying.value.command, now, b.deadline)
      then Conclude(Settle(b, b.applying.value.command, Late, true), Handled(false, false))
      else b.(applying := Some(b.applying.value.(stage := Handling)))
    case Ends(end) =>
      if b.applying.None? || !b.applying.value.stage.Handling? then b else AttemptEnds(b, end)
    case NeverRan =>
      if b.applying.None? || !b.applying.value.stage.Created? || !b.applying.value.cancelAsked then b
      else Conclude(b, WasCancelled)
    case Resume =>
      if b.applying.None? || !b.applying.value.stage.Finished? then b
      else
        var c := b.applying.value.command;
        var done := if b.applying.value.stage.end != WasCancelled then b
                    else if b.preemptedBy.Some? then Settle(b, c, Superseded(b.preemptedBy.value.number), true)
                    else Settle(b, c, Vanished, false);
        done.(applying := None, preemptedBy := None)
    case Returns => if b.readerDone && b.waiting == [] && b.applying.None? then b.(returned := true) else b
  }

  function Initial(deadline: real): Inbox
  {
    Inbox(deadline, [], None, None, false, false, [], [], [], [])
  }

  function After(deadline: real, events: seq<Event>): Inbox
  {
    if events == [] then Initial(deadline) else Next(After(deadline, events[..|events| - 1]), events[|events| - 1])
  }

  lemma OneMore(deadline: real, events: seq<Event>, e: Event)
    ensures After(deadline, events + [e]) == Next(After(deadline, events), e)
  {
    assert (events + [e])[..|events|] == events;
  }

  lemma Then(deadline: real, before: seq<Event>, e: Event) returns (events: seq<Event>)
    ensures events == before + [e]
    ensures After(deadline, events) == Next(After(deadline, before), e)
  {
    OneMore(deadline, before, e);
    events := before + [e];
  }

  // ---------------------------------------------------------------- accounts

  function OutcomesOf(outcomes: seq<(nat, Outcome)>, n: nat): (r: seq<Outcome>)
  {
    if outcomes == [] then [] else
      var last := outcomes[|outcomes| - 1];
      OutcomesOf(outcomes[..|outcomes| - 1], n) + if last.0 == n then [last.1] else []
  }

  function ReportsOf(reports: seq<nat>, n: nat): nat
  {
    if reports == [] then 0 else
      ReportsOf(reports[..|reports| - 1], n) + if reports[|reports| - 1] == n then 1 else 0
  }

  lemma OneMoreOutcome(outcomes: seq<(nat, Outcome)>, c: nat, o: Outcome, n: nat)
    ensures OutcomesOf(outcomes + [(c, o)], n) == OutcomesOf(outcomes, n) + if c == n then [o] else []
  {
    assert (outcomes + [(c, o)])[..|outcomes|] == outcomes;
  }

  lemma OneMoreReport(reports: seq<nat>, c: nat, n: nat)
    ensures ReportsOf(reports + [c], n) == ReportsOf(reports, n) + if c == n then 1 else 0
  {
    assert (reports + [c])[..|reports|] == reports;
  }

  /** The first command still waiting, by number. */
  function Front(b: Inbox): int
  {
    |b.read| - |b.waiting|
  }

  /** Whether the attempt at a command has yet to settle it. */
  predicate Unsettled(b: Inbox, n: nat)
  {
    b.applying.Some? && b.applying.value.command.number == n
    && (b.applying.value.stage.Finished? ==> b.applying.value.stage.end == WasCancelled)
  }

  /** A command that was read and not applied, for a reason the inbox knows. */
  predicate Rejected(o: Outcome)
  {
    o in {Refused, Failed, Late} || o.Superseded?
  }

  /** A settled command has one outcome, and one report if that is not that it
      was applied (a failure to send an answer may be reported) or vanished; an
      unsettled one has neither. */
  ghost predicate AccountOf(b: Inbox, n: nat)
  {
    var os, rs := OutcomesOf(b.outcomes, n), ReportsOf(b.reports, n);
    if n < Front(b) && !Unsettled(b, n) then
      && |os| == 1 && rs <= 1
      && (os[0] == Vanished ==> rs == 0)
      && (Rejected(os[0]) ==> rs == 1)
    else os == [] && rs == 0
  }

  ghost predicate Sound(b: Inbox)
  {
    && 0 <= Front(b) && b.waiting == b.read[Front(b)..]
    && (forall i :: 0 <= i < |b.read| ==> b.read[i].number == i)
    && (forall i :: Front(b) < i < |b.read| ==> !b.read[i].preempts)
    && (b.applying.Some? ==>
          && b.applying.value.command.number < Front(b)
          && b.started != [] && b.started[|b.started| - 1] == b.applying.value.command)
    && (forall i :: 0 <= i < |b.started| ==> b.started[i].number < Front(b))
    && (forall i, j :: 0 <= i < j < |b.started| ==> b.started[i].number < b.started[j].number)
    && (b.returned ==> b.readerDone && b.waiting == [] && b.applying.None?)
    && (forall n: nat :: AccountOf(b, n))
  }

  lemma SettleAccounts(b: Inbox, c: Command, o: Outcome, reported: bool)
    ensures var v := Settle(b, c, o, reported);
            forall n: nat ::
              && OutcomesOf(v.outcomes, n) == OutcomesOf(b.outcomes, n) + (if c.number == n then [o] else [])
              && ReportsOf(v.reports, n) == ReportsOf(b.reports, n) + (if reported && c.number == n then 1 else 0)
  {
    forall n: nat
      ensures OutcomesOf(Settle(b, c, o, reported).outcomes, n) == OutcomesOf(b.outcomes, n) + (if c.number == n then [o] else [])
      ensures ReportsOf(Settle(b, c, o, reported).reports, n) == ReportsOf(b.reports, n) + (if reported && c.number == n then 1 else 0)
    {
      OneMoreOutcome(b.outcomes, c.number, o, n);
      OneMoreReport(b.reports, c.number, n);
      assert b.reports + [] == b.reports;
    }
  }

  lemma {:induction false} SupersedeAllSound(b: Inbox, cause: Command)
    requires Sound(b) && !b.returned
    ensures var v := SupersedeAll(b, cause);
            && Sound(v) && v.waiting == [] && v.read == b.read && v.applying == b.applying
            && v.started == b.started && v.preemptedBy == b.preemptedBy && v.deadline == b.deadline
            && v.readerDone == b.readerDone && !v.returned
    decreases |b.waiting|
  {
    hide OutcomesOf, ReportsOf;
    if b.waiting != [] {
      var c := b.waiting[0];
      var v := Settle(b.(waiting := b.waiting[1..]), c, Superseded(cause.number), true);
      SettleAccounts(b, c, Superseded(cause.number), true);
      assert c == b.read[Front(b)];
      forall n: nat ensures AccountOf(v, n) {
        assert AccountOf(b, n);
      }
      SupersedeAllSound(v, cause);
    }
  }

  /** A step that settles nothing and starts nothing. */
  lemma QuietSound(b: Inbox, v: Inbox)
    requires Sound(b)
    requires v.waiting == b.waiting && v.read == b.read && v.started == b.started
    requires v.outcomes == b.outcomes && v.reports == b.reports
    requires v.returned ==> v.readerDone && v.waiting == [] && v.applying.None?
    requires b.applying.None? ==> v.applying.None?
    requires b.applying.Some? ==> v.applying.Some? && v.applying.value.command == b.applying.value.command
    requires forall n: nat :: Unsettled(v, n) <==> Unsettled(b, n)
    ensures Sound(v)
  {
    hide OutcomesOf, ReportsOf;
    forall n: nat ensures AccountOf(v, n) {
      assert AccountOf(b, n);
    }
  }

  lemma EnqueueSound(b: Inbox, c: Command)
    requires Sound(b) && !b.returned
    requires c.number == |b.read| && (c.preempts ==> b.waiting == [])
    ensures Sound(Enqueue(b, c))
  {
    hide OutcomesOf, ReportsOf;
    var v := Enqueue(b, c);
    forall n: nat ensures AccountOf(v, n) {
      assert AccountOf(b, n);
    }
  }

  lemma ReadSound(b: Inbox, c: Command)
    requires Sound(b) && !b.returned && c.number == |b.read|
    ensures Sound(ReadOne(b, c))
  {
    hide Sound;
    if c.preempts {
      SupersedeAllSound(b, c);
      QuietSound(SupersedeAll(b, c), Interrupt(SupersedeAll(b, c), c));
      EnqueueSound(Interrupt(SupersedeAll(b, c), c), c);
    } else {
      EnqueueSound(b, c);
    }
  }

  lemma TakeSound(b: Inbox)
    requires Sound(b)
    ensures Sound(Next(b, Take))
  {
    hide OutcomesOf, ReportsOf;
    var v := Next(b, Take);
    forall n: nat ensures AccountOf(v, n) {
      assert AccountOf(b, n);
    }
  }

  /** The attempt in progress settles its command, one way or another. */
  lemma AttemptSettles(b: Inbox, o: Outcome, reported: bool, end: End)
    requires Sound(b) && b.applying.Some? && Unsettled(b, b.applying.value.command.number) && end != WasCancelled
    requires o == Applied || (o in {Refused, Failed, Late} && reported)
    ensures Sound(Conclude(Settle(b, b.applying.value.command, o, reported), end))
  {
    hide OutcomesOf, ReportsOf;
    var c := b.applying.value.command;
    var v := Conclude(Settle(b, c, o, reported), end);
    SettleAccounts(b, c, o, reported);
    forall n: nat ensures AccountOf(v, n) {
      assert AccountOf(b, n);
    }
  }

  lemma ResumeSound(b: Inbox)
    requires Sound(b)
    ensures Sound(Next(b, Resume))
  {
    hide OutcomesOf, ReportsOf;
    var v := Next(b, Resume);
    if v != b {
      var c := b.applying.value.command;
      SettleAccounts(b, c, if b.preemptedBy.Some? then Superseded(b.preemptedBy.value.number) else Vanished, b.preemptedBy.Some?);
      forall n: nat ensures AccountOf(v, n) {
        assert AccountOf(b, n);
      }
    }
  }

  lemma AtRest(b: Inbox)
    requires Sound(b) && b.returned
    ensures b.readerDone && b.waiting == [] && b.applying.None?
  {
  }

  lemma NextSound(b: Inbox, e: Event)
    requires Sound(b)
    ensures Sound(Next(b, e))
  {
    hide Sound;
    if b.returned {
      AtRest(b);
    }
    match e
    case Read(preempts, issuedAt) => if !b.readerDone { ReadSound(b, Command(|b.read|, preempts, issuedAt)); }
    case Take => TakeSound(b);
    case Resume => ResumeSound(b);
    case Begins(now) =>
      if Next(b, e) != b {
        if TooOld(b.applying.value.command, now, b.deadline) {
          AttemptSettles(b, Late, true, Handled(false, false));
        } else {
          QuietSound(b, Next(b, e));
        }
      }
    case Ends(end) =>
      if b.applying.Some? && b.applying.value.stage.Handling? {
        match end
        case Handled(answered, answerFailed) => AttemptSettles(b, Applied, answered && answerFailed, end);
        case RefusedBy => AttemptSettles(b, Refused, true, end);
        case Raised => AttemptSettles(b, Failed, true, end);
        case WasCancelled => QuietSound(b, Next(b, e));
      }
    case _ => QuietSound(b, Next(b, e));
  }

  lemma {:induction false} AfterSound(deadline: real, events: seq<Event>)
    ensures Sound(After(deadline, events))
  {
    if events == [] {
      forall n: nat ensures AccountOf(Initial(deadline), n) {
      }
    } else {
      AfterSound(deadline, events[..|events| - 1]);
      NextSound(After(deadline, events[..|events| - 1]), events[|events| - 1]);
    }
  }

  // ---------------------------------------------------------------- what the inbox promises

  /** When the inbox returns, every command it read has exactly one outcome,
      and was reported once if it was not applied: none waiting when the reader
      ended is lost. Commands started in the order they came. */
  lemma EveryCommandIsSettled(deadline: real, events: seq<Event>)
    ensures var b := After(deadline, events);
            && (b.returned ==> forall n :: 0 <= n < |b.read| ==>
                  && |OutcomesOf(b.outcomes, n)| == 1 && ReportsOf(b.reports, n) <= 1
                  && (Rejected(OutcomesOf(b.outcomes, n)[0]) ==> ReportsOf(b.reports, n) == 1))
            && (forall i, j :: 0 <= i < j < |b.started| ==> b.started[i].number < b.started[j].number)
  {
    hide After;
    AfterSound(deadline, events);
    var b := After(deadline, events);
    if b.returned {
      forall n | 0 <= n < |b.read|
        ensures |OutcomesOf(b.outcomes, n)| == 1 && ReportsOf(b.reports, n) <= 1
        ensures Rejected(OutcomesOf(b.outcomes, n)[0]) ==> ReportsOf(b.reports, n) == 1
      {
        assert AccountOf(b, n);
      }
    }
  }

  /** At any time, before it returns too, no command has two outcomes or two
      reports. */
  lemma NeverSettledTwice(deadline: real, events: seq<Event>, n: nat)
    ensures var b := After(deadline, events);
            |OutcomesOf(b.outcomes, n)| <= 1 && ReportsOf(b.reports, n) <= 1
  {
    AfterSound(deadline, events);
    assert AccountOf(After(deadline, events), n);
  }

  /** No command read before a preempting one starts after it was read: what
      starts next came no earlier than every preempting command read so far. */
  lemma NothingOvertaken(deadline: real, events: seq<Event>, p: Command)
    requires p in After(deadline, events).read && p.preempts
    ensures var b, v := After(deadline, events), After(deadline, events + [Take]);
            v.started == b.started || (|v.started| == |b.started| + 1 && p.number <= v.started[|b.started|].number)
  {
    AfterSound(deadline, events);
    OneMore(deadline, events, Take);
  }

  /** The inbox goes on from an attempt that was cancelled, with nobody to
      name as the cause. */
  predicate Abandons(b: Inbox, e: Event)
  {
    && e == Resume && b.applying.Some? && b.applying.value.stage == Finished(WasCancelled)
    && b.preemptedBy.None?
  }

  /** A receiver that raises a cancellation nobody asked for. */
  predicate CancelsItself(b: Inbox, e: Event)
  {
    e == Ends(WasCancelled) && b.applying.Some? && b.applying.value.stage.Handling? && !b.applying.value.cancelAsked
  }

  predicate Vanishes(outcomes: seq<(nat, Outcome)>)
  {
    exists i :: 0 <= i < |outcomes| && outcomes[i].1 == Vanished
  }

  lemma {:induction false} SupersedingNeverVanishes(b: Inbox, cause: Command)
    ensures Vanishes(SupersedeAll(b, cause).outcomes) <==> Vanishes(b.outcomes)
    decreases |b.waiting|
  {
    if b.waiting != [] {
      var v := Settle(b.(waiting := b.waiting[1..]), b.waiting[0], Superseded(cause.number), true);
      SupersedingNeverVanishes(v, cause);
      SettlingVanishes(b, v, Superseded(cause.number));
    }
  }

  lemma SettlingVanishes(b: Inbox, v: Inbox, o: Outcome)
    requires exists n :: v.outcomes == b.outcomes + [(n, o)]
    ensures Vanishes(v.outcomes) <==> Vanishes(b.outcomes) || o == Vanished
  {
    if Vanishes(b.outcomes) {
      var i :| 0 <= i < |b.outcomes| && b.outcomes[i].1 == Vanished;
      assert v.outcomes[i].1 == Vanished;
    }
    assert v.outcomes[|b.outcomes|].1 == o;
  }

  lemma ReadingNeverVanishes(b: Inbox, c: Command)
    ensures Vanishes(ReadOne(b, c).outcomes) <==> Vanishes(b.outcomes)
  {
    hide SupersedeAll, Vanishes;
    SupersedingNeverVanishes(b, c);
  }

  lemma StepVanishes(b: Inbox, e: Event)
    ensures Vanishes(Next(b, e).outcomes) <==> Vanishes(b.outcomes) || Abandons(b, e)
  {
    hide ReadOne, Vanishes;
    if e.Read? {
      ReadingNeverVanishes(b, Command(|b.read|, e.preempts, e.issuedAt));
    } else {
      var v := Next(b, e);
      if v.outcomes != b.outcomes {
        SettlingVanishes(b, v, v.outcomes[|b.outcomes|].1);
      }
    }
  }

  predicate EverAbandons(deadline: real, events: seq<Event>)
  {
    events != [] &&
    var front := events[..|events| - 1];
    EverAbandons(deadline, front) || Abandons(After(deadline, front), events[|events| - 1])
  }

  /** A command goes without an outcome anyone can see exactly when the inbox
      resumes from an attempt cancelled with no preempting command behind it. */
  lemma {:induction false} VanishesExactlyWhenAbandoned(deadline: real, events: seq<Event>)
    ensures Vanishes(After(deadline, events).outcomes) <==> EverAbandons(deadline, events)
  {
    if events != [] {
      hide Next, Vanishes, Abandons;
      var front := events[..|events| - 1];
      VanishesExactlyWhenAbandoned(deadline, front);
      StepVanishes(After(deadline, front), events[|events| - 1]);
    }
  }

  predicate EverCancelsItself(deadline: real, events: seq<Event>)
  {
    events != [] &&
    var front := events[..|events| - 1];
    EverCancelsItself(deadline, front) || CancelsItself(After(deadline, front), events[|events| - 1])
  }

  /** An attempt is asked to stop only by a preempting command, and ends
      cancelled only if asked, as long as receivers do not cancel themselves. */
  predicate Causes(b: Inbox)
  {
    b.applying.Some? ==>
      && (b.applying.value.cancelAsked ==> b.preemptedBy.Some?)
      && (b.applying.value.stage == Finished(WasCancelled) ==> b.preemptedBy.Some?)
  }

  lemma {:induction false} SupersedingKeepsAttempt(b: Inbox, cause: Command)
    ensures SupersedeAll(b, cause).applying == b.applying && SupersedeAll(b, cause).preemptedBy == b.preemptedBy
    decreases |b.waiting|
  {
    if b.waiting != [] {
      SupersedingKeepsAttempt(Settle(b.(waiting := b.waiting[1..]), b.waiting[0], Superseded(cause.number), true), cause);
    }
  }

  lemma StepCauses(b: Inbox, e: Event)
    requires Causes(b) && !CancelsItself(b, e)
    ensures Causes(Next(b, e))
  {
    if e.Read? {
      SupersedingKeepsAttempt(b, Command(|b.read|, e.preempts, e.issuedAt));
    }
  }

  /** So a receiver that is cancelled only when the inbox cancels it never
      makes a command vanish. */
  lemma {:induction false} NothingVanishes(deadline: real, events: seq<Event>)
    requires !EverCancelsItself(deadline, events)
    ensures Causes(After(deadline, events)) && !Vanishes(After(deadline, events).outcomes)
  {
    if events != [] {
      hide Next, Vanishes, CancelsItself;
      var front := events[..|events| - 1];
      NothingVanishes(deadline, front);
      StepVanishes(After(deadline, front), events[|events| - 1]);
      StepCauses(After(deadline, front), events[|events| - 1]);
    }
  }

  /** A receiver whose own work is cancelled under it loses its command: no
      outcome is reported, though the inbox went on and returned. */
  lemma ACommandVanishes(deadline: real) returns (events: seq<Event>)
    ensures events == [Read(false, None), Take, Begins(0.0), Ends(WasCancelled), Resume, ReaderEnds, Returns]
    ensures var b := After(deadline, events);
            b.returned && b.outcomes == [(0, Vanished)] && b.reports == []
  {
    events := [];
    assert After(deadline, events) == Initial(deadline);
    hide After, SupersedeAll;
    events := Then(deadline, events, Read(false, None));
    events := Then(deadline, events, Take);
    events := Then(deadline, events, Begins(0.0));
    events := Then(deadline, events, Ends(WasCancelled));
    events := Then(deadline, events, Resume);
    events := Then(deadline, events, ReaderEnds);
    events := Then(deadline, events, Returns);
  }

  // ---------------------------------------------------------------- the inbox

  class CommandInbox {
    const deadline: real
    var waiting: seq<Command>
    var applying: Option<Attempt>
    var preemptedBy: Option<Command>
    var readerDone: bool
    var returned: bool
    var reports: seq<nat>
    ghost var read: seq<Command>
    ghost var started: seq<Command>
    ghost var outcomes: seq<(nat, Outcome)>

    ghost function State(): Inbox
      reads this
    {
      Inbox(deadline, waiting, applying, preemptedBy, readerDone, returned, read, started, outcomes, reports)
    }

    constructor (deadline: real)
      ensures State() == Initial(deadline)
    {
      this.deadline := deadline;
      waiting, applying, preemptedBy, readerDone, returned := [], None, None, false, false;
      reports, read, started, outcomes := [], [], [], [];
    }

    /** A command is reported, and why is in its outcome. */
    method Report(c: Command, ghost o: Outcome)
      modifies this`reports, this`outcomes
      ensures State() == Settle(old(State()), c, o, true)
    {
      reports := reports + [c.number];
      outcomes := outcomes + [(c.number, o)];
    }

    /** The reader has a command. */
    method Receive(c: Command)
      requires !readerDone && c.number == |read|
      modifies this
      ensures State() == Next(old(State()), Read(c.preempts, c.issuedAt))
    {
      if c.preempts {
        ghost var cleared := SupersedeAll(State(), c);
        while waiting != []
          invariant SupersedeAll(State(), c) == cleared
          decreases |waiting|
        {
          var oldest := waiting[0];
          waiting := waiting[1..];
          Report(oldest, Superseded(c.number));
        }
        assert State() == cleared;
        if applying.Some? {
          preemptedBy := Some(c);
          if !applying.value.stage.Finished? {
            applying := Some(applying.value.(cancelAsked := true));
          }
        }
      }
      waiting := waiting + [c];
      read := read + [c];
    }

    /** The applier takes the oldest waiting command, and starts on it. */
    method StartNext()
      requires waiting != [] && applying.None? && !returned
      modifies this
      ensures State() == Next(old(State()), Take)
    {
      started := started + [waiting[0]];
      applying := Some(Attempt(waiting[0], Created, false));
      waiting := waiting[1..];
    }

    /** The attempt's first stretch: a command too old is reported instead. */
    method Begin(now: real)
      requires applying.Some? && applying.value.stage.Created? && !applying.value.cancelAsked
      modifies this
      ensures State() == Next(old(State()), Begins(now))
      ensures var c := old(applying.value.command);
              if c.issuedAt.Some? && now - c.issuedAt.value > deadline then
                reports == old(reports) + [c.number] && outcomes == old(outcomes) + [(c.number, Late)] && applying.value.stage.Finished?
              else
                reports == old(reports) && outcomes == old(outcomes) && applying.value.stage == Handling
    {
      var c := applying.value.command;
      var age := if c.issuedAt.None? then None else Some(now - c.issuedAt.value);
      if age.Some? && age.value > deadline {
        Report(c, Late);
        applying := Some(applying.value.(stage := Finished(Handled(false, false))));
      } else {
        applying := Some(applying.value.(stage := Handling));
      }
    }

    /** The receiver is done, or gave up. */
    method Finish(end: End)
      requires applying.Some? && applying.value.stage.Handling?
      modifies this
      ensures State() == Next(old(State()), Ends(end))
    {
      var c := applying.value.command;
      if end.RefusedBy? {
        Report(c, Refused);
      } else if end.Raised? {
        Report(c, Failed);
      } else if end.Handled? {
        if end.answered && end.answerFailed {
          Report(c, Applied);
        } else {
          outcomes := outcomes + [(c.number, Applied)];
          assert reports == reports + [];
        }
      }
      applying := Some(applying.value.(stage := Finished(end)));
    }

    /** The applier wakes from the attempt, and reports one that was preempted. */
    method Continue()
      requires applying.Some? && applying.value.stage.Finished?
      modifies this
      ensures State() == Next(old(State()), Resume)
    {
      var c := applying.value.command;
      if applying.value.stage.end.WasCancelled? {
        if preemptedBy.Some? {
          Report(c, Superseded(preemptedBy.value.number));
        } else {
          outcomes := outcomes + [(c.number, Vanished)];
          assert reports == reports + [];
        }
      }
      applying, preemptedBy := None, None;
    }

    /** With nothing waiting, the inbox returns once its reader has ended. */
    method Idle() returns (ended: bool)
      requires waiting == [] && applying.None?
      modifies this`returned
      ensures ended == readerDone
      ensures State() == Next(old(State()), Returns)
    {
      if readerDone {
        returned := true;
      }
      ended := readerDone;
    }
  }
}
