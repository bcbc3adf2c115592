/** Which outcome a command has, and whether it is reported: said of when it was
    issued, when its attempt began, how that ended, and what came meanwhile. */
module InboxOutcomes {
  import opened Keys
  import opened Inboxes

  /** The attempt in progress is at this command. */
  predicate AtWork(b: Inbox, n: nat)
  {
    b.applying.Some? && b.applying.value.command.number == n
  }

  /** The command was issued more than `deadline` before `now`. */
  predicate IssuedTooLongAgo(c: Command, now: real, deadline: real)
  {
    c.issuedAt.Some? && now > c.issuedAt.value + deadline
  }

  /** The step gives command `n` the outcome `o`. */
  predicate Gives(b: Inbox, deadline: real, e: Event, n: nat, o: Outcome)
  {
    match e
    case Read(preempts, _) =>
      // A preempting command supersedes what waits, in its own name.
      !b.readerDone && preempts && o == Superseded(|b.read|) && exists c :: c in b.waiting && c.number == n
    case Begins(now) =>
      AtWork(b, n) && b.applying.value.stage == Created && !b.applying.value.cancelAsked
      && IssuedTooLongAgo(b.applying.value.command, now, deadline) && o == Late
    case Ends(end) =>
      AtWork(b, n) && b.applying.value.stage == Handling
      && ((end.Handled? && o == Applied) || (end == RefusedBy && o == Refused) || (end == Raised && o == Failed))
    case Resume =>
      AtWork(b, n) && b.applying.value.stage == Finished(WasCancelled)
      && o == if b.preemptedBy.Some? then Superseded(b.preemptedBy.value.number) else Vanished
    case _ => false
  }

  /** The step reports command `n`. */
  predicate Reports(b: Inbox, deadline: real, e: Event, n: nat)
  {
    match e
    case Read(preempts, _) => !b.readerDone && preempts && exists c :: c in b.waiting && c.number == n
    case Begins(now) => Gives(b, deadline, e, n, Late)
    case Ends(end) => AtWork(b, n) && b.applying.value.stage == Handling && (end == RefusedBy || end == Raised || end == Handled(true, true))
    case Resume => AtWork(b, n) && b.applying.value.stage == Finished(WasCancelled) && b.preemptedBy.Some?
    case _ => false
  }

  predicate EverGives(deadline: real, events: seq<Event>, n: nat, o: Outcome)
  {
    exists i :: 0 <= i < |events| && Gives(After(deadline, events[..i]), deadline, events[i], n, o)
  }

  predicate EverReports(deadline: real, events: seq<Event>, n: nat)
  {
    exists i :: 0 <= i < |events| && Reports(After(deadline, events[..i]), deadline, events[i], n)
  }

  // ---------------------------------------------------------------- one step

  lemma SettleGives(b: Inbox, c: Command, o: Outcome, reported: bool, n: nat)
    ensures var v := Settle(b, c, o, reported);
            && OutcomesOf(v.outcomes, n) == OutcomesOf(b.outcomes, n) + (if c.number == n then [o] else [])
            && ReportsOf(v.reports, n) == ReportsOf(b.reports, n) + (if reported && c.number == n then 1 else 0)
  {
    SettleAccounts(b, c, o, reported);
  }

  lemma {:induction false} SupersedingGives(b: Inbox, cause: Command, n: nat, o: Outcome)
    ensures var v := SupersedeAll(b, cause);
            && (o in OutcomesOf(v.outcomes, n) <==>
                  o in OutcomesOf(b.outcomes, n) || (o == Superseded(cause.number) && exists c :: c in b.waiting && c.number == n))
            && ReportsOf(v.reports, n) >= ReportsOf(b.reports, n)
            && (ReportsOf(v.reports, n) > ReportsOf(b.reports, n) <==> exists c :: c in b.waiting && c.number == n)
            && v.deadline == b.deadline
    decreases |b.waiting|
  {
    if b.waiting != [] {
      var first := b.waiting[0];
      var rest := b.(waiting := b.waiting[1..]);
      var v := Settle(rest, first, Superseded(cause.number), true);
      SettleGives(rest, first, Superseded(cause.number), true, n);
      assert forall c :: c in b.waiting <==> c == first || c in b.waiting[1..];
      hide OutcomesOf, ReportsOf;
      SupersedingGives(v, cause, n, o);
    }
  }

  lemma ReadGives(b: Inbox, preempts: bool, issuedAt: Option<real>, n: nat, o: Outcome)
    requires !b.readerDone
    ensures var c := Command(|b.read|, preempts, issuedAt);
            var v := ReadOne(b, c);
            && (o in OutcomesOf(v.outcomes, n) <==>
                  o in OutcomesOf(b.outcomes, n)
                  || (preempts && o == Superseded(|b.read|) && exists c :: c in b.waiting && c.number == n))
            && ReportsOf(v.reports, n) >= ReportsOf(b.reports, n)
            && (ReportsOf(v.reports, n) > ReportsOf(b.reports, n) <==> preempts && exists c :: c in b.waiting && c.number == n)
            && v.deadline == b.deadline
  {
    SupersedingGives(b, Command(|b.read|, preempts, issuedAt), n, o);
    hide OutcomesOf, ReportsOf, SupersedeAll;
  }

  /** The step gives its outcome and its report, and no other. */
  ghost predicate GivesIt(b: Inbox, e: Event, n: nat, o: Outcome)
  {
    var v := Next(b, e);
    && (o in OutcomesOf(v.outcomes, n) <==> o in OutcomesOf(b.outcomes, n) || Gives(b, b.deadline, e, n, o))
    && ReportsOf(v.reports, n) >= ReportsOf(b.reports, n)
    && (ReportsOf(v.reports, n) > ReportsOf(b.reports, n) <==> Reports(b, b.deadline, e, n))
    && v.deadline == b.deadline
  }

  lemma SettledGives(b: Inbox, v: Inbox, c: nat, outcome: Outcome, reported: bool, n: nat, o: Outcome)
    requires v.outcomes == b.outcomes + [(c, outcome)] && v.reports == b.reports + if reported then [c] else []
    ensures o in OutcomesOf(v.outcomes, n) <==> o in OutcomesOf(b.outcomes, n) || (c == n && o == outcome)
    ensures ReportsOf(v.reports, n) == ReportsOf(b.reports, n) + if reported && c == n then 1 else 0
  {
    OneMoreOutcome(b.outcomes, c, outcome, n);
    OneMoreReport(b.reports, c, n);
    assert b.reports + [] == b.reports;
    hide OutcomesOf, ReportsOf;
  }

  lemma BeginsGives(b: Inbox, now: real, n: nat, o: Outcome)
    ensures GivesIt(b, Begins(now), n, o)
  {
    hide OutcomesOf, ReportsOf;
    var v := Next(b, Begins(now));
    if v.outcomes != b.outcomes {
      SettledGives(b, v, b.applying.value.command.number, Late, true, n, o);
    }
  }

  lemma EndsGives(b: Inbox, end: End, n: nat, o: Outcome)
    ensures GivesIt(b, Ends(end), n, o)
  {
    hide OutcomesOf, ReportsOf;
    var v := Next(b, Ends(end));
    if v.outcomes != b.outcomes {
      var outcome := if end.Handled? then Applied else if end == RefusedBy then Refused else Failed;
      SettledGives(b, v, b.applying.value.command.number, outcome, end == Handled(true, true) || !end.Handled?, n, o);
    }
  }

  lemma ResumeGives(b: Inbox, n: nat, o: Outcome)
    ensures GivesIt(b, Resume, n, o)
  {
    hide OutcomesOf, ReportsOf;
    var v := Next(b, Resume);
    if v.outcomes != b.outcomes {
      var outcome := if b.preemptedBy.Some? then Superseded(b.preemptedBy.value.number) else Vanished;
      SettledGives(b, v, b.applying.value.command.number, outcome, b.preemptedBy.Some?, n, o);
    }
  }

  lemma StepGives(b: Inbox, e: Event, n: nat, o: Outcome)
    ensures GivesIt(b, e, n, o)
  {
    match e
    case Begins(now) => BeginsGives(b, now, n, o);
    case Ends(end) => EndsGives(b, end, n, o);
    case Resume => ResumeGives(b, n, o);
    case Read(preempts, issuedAt) =>
      if !b.readerDone { ReadGives(b, preempts, issuedAt, n, o); }
      hide ReadOne, OutcomesOf, ReportsOf;
    case _ => hide OutcomesOf, ReportsOf;
  }

  // ---------------------------------------------------------------- over whole runs

  lemma EverOneMore(deadline: real, front: seq<Event>, e: Event, n: nat, o: Outcome)
    ensures EverGives(deadline, front + [e], n, o) <==>
            EverGives(deadline, front, n, o) || Gives(After(deadline, front), deadline, e, n, o)
    ensures EverReports(deadline, front + [e], n) <==>
            EverReports(deadline, front, n) || Reports(After(deadline, front), deadline, e, n)
  {
    hide After, Gives, Reports;
    var events := front + [e];
    assert events[..|front|] == front && events[|front|] == e;
    assert forall i :: 0 <= i < |front| ==> events[..i] == front[..i] && events[i] == front[i];
    if EverGives(deadline, front, n, o) {
      var i :| 0 <= i < |front| && Gives(After(deadline, front[..i]), deadline, front[i], n, o);
      assert Gives(After(deadline, events[..i]), deadline, events[i], n, o);
    }
    if Gives(After(deadline, front), deadline, e, n, o) {
      assert Gives(After(deadline, events[..|front|]), deadline, events[|front|], n, o);
    }
    if EverReports(deadline, front, n) {
      var i :| 0 <= i < |front| && Reports(After(deadline, front[..i]), deadline, front[i], n);
      assert Reports(After(deadline, events[..i]), deadline, events[i], n);
    }
    if Reports(After(deadline, front), deadline, e, n) {
      assert Reports(After(deadline, events[..|front|]), deadline, events[|front|], n);
    }
  }

  lemma {:induction false} OutcomesAre(deadline: real, events: seq<Event>, n: nat, o: Outcome)
    ensures var b := After(deadline, events);
            && b.deadline == deadline
            && (o in OutcomesOf(b.outcomes, n) <==> EverGives(deadline, events, n, o))
            && (ReportsOf(b.reports, n) > 0 <==> EverReports(deadline, events, n))
  {
    if events != [] {
      var front, e := events[..|events| - 1], events[|events| - 1];
      assert events == front + [e];
      OutcomesAre(deadline, front, n, o);
      hide Next, Gives, Reports, EverGives, EverReports, OutcomesOf, ReportsOf;
      StepGives(After(deadline, front), e, n, o);
      EverOneMore(deadline, front, e, n, o);
    }
  }

  /** A command is late exactly when its attempt began more than the deadline
      after it was issued, and it says when that was; applied, refused or failed
      exactly when its receiver handled it, refused it or raised; superseded
      exactly when a preempting command came while it waited, or had come by the
      time its cancelled attempt is looked at; and it vanishes exactly when such
      an attempt has no such cause. It is reported exactly when it did not apply
      for a reason the inbox knows, or its answer could not be sent. */
  lemma OutcomesExactly(deadline: real, events: seq<Event>, n: nat, o: Outcome)
    ensures var b := After(deadline, events);
            && (OutcomesOf(b.outcomes, n) == [o] <==> EverGives(deadline, events, n, o))
            && (ReportsOf(b.reports, n) == 1 <==> EverReports(deadline, events, n))
  {
    OutcomesAre(deadline, events, n, o);
    NeverSettledTwice(deadline, events, n);
    hide After, EverGives, EverReports, OutcomesOf, ReportsOf;
  }

  /** An attempt that begins and is not too late reaches the receiver, and nothing
      else does. */
  lemma BegunExactly(deadline: real, events: seq<Event>, now: real)
    requires var b := After(deadline, events);
             b.applying.Some? && b.applying.value.stage == Created && !b.applying.value.cancelAsked
    ensures var b, v := After(deadline, events), Next(After(deadline, events), Begins(now));
            && v.applying.Some? && v.applying.value.command == b.applying.value.command
            && (v.applying.value.stage == Handling <==> !IssuedTooLongAgo(b.applying.value.command, now, deadline))
            && (v.applying.value.stage != Handling ==> v.applying.value.stage == Finished(Handled(false, false)))
  {
    OutcomesAre(deadline, events, 0, Vanished);
  }

  /** A preempting command stops what is in progress: the attempt is asked to
      stop, if it has not finished, and the cause is remembered. */
  lemma PreemptsExactly(deadline: real, events: seq<Event>, preempts: bool, issuedAt: Option<real>)
    requires !After(deadline, events).readerDone
    ensures var b, v := After(deadline, events), Next(After(deadline, events), Read(preempts, issuedAt));
            var c := Command(|b.read|, preempts, issuedAt);
            && v.read == b.read + [c]
            && v.waiting == (if preempts then [] else b.waiting) + [c]
            && v.preemptedBy == (if preempts && b.applying.Some? then Some(c) else b.preemptedBy)
            && v.applying == (if preempts && b.applying.Some? && !b.applying.value.stage.Finished?
                              then Some(b.applying.value.(cancelAsked := true)) else b.applying)
  {
    AfterSound(deadline, events);
    var b := After(deadline, events);
    hide After;
    if preempts {
      SupersedingKeepsAttempt(b, Command(|b.read|, preempts, issuedAt));
      SupersedesAll(b, Command(|b.read|, preempts, issuedAt));
    }
    hide SupersedeAll, Sound;
  }

  lemma {:induction false} SupersedesAll(b: Inbox, cause: Command)
    ensures SupersedeAll(b, cause).waiting == [] && SupersedeAll(b, cause).read == b.read
    decreases |b.waiting|
  {
    if b.waiting != [] {
      SupersedesAll(Settle(b.(waiting := b.waiting[1..]), b.waiting[0], Superseded(cause.number), true), cause);
    }
  }

  /** An attempt ends as its receiver does, or cancelled, if it was asked to stop
      before it began; the inbox goes on from it with nothing in progress and no
      cause remembered. */
  lemma AttemptsEnd(b: Inbox, end: End)
    requires b.applying.Some?
    ensures var a := b.applying.value;
            && (a.stage == Handling ==> Next(b, Ends(end)).applying == Some(a.(stage := Finished(end))))
            && (a.stage != Handling ==> Next(b, Ends(end)) == b)
            && Next(b, NeverRan) == (if a.stage == Created && a.cancelAsked
                                     then b.(applying := Some(a.(stage := Finished(WasCancelled)))) else b)
            && (if a.stage.Finished? then Next(b, Resume).applying == None && Next(b, Resume).preemptedBy == None
                else Next(b, Resume) == b)
  {
  }

  /** The applier takes the oldest that waits, when it is at no other, until the
      inbox has returned; which it does once nothing waits and no more can come. */
  lemma TakesTheOldest(deadline: real, events: seq<Event>)
    ensures var b := After(deadline, events);
            && Next(b, Take) == (if b.applying.None? && b.waiting != [] && !b.returned
                                 then b.(waiting := b.waiting[1..], started := b.started + [b.waiting[0]],
                                         applying := Some(Attempt(b.waiting[0], Created, false)))
                                 else b)
            && (Next(b, Returns).returned <==> b.returned || (b.readerDone && b.waiting == [] && b.applying.None?))
  {
  }
}
