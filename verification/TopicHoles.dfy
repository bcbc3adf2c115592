/** A control topic is heard without a hole exactly as long as nothing is missed;
    and what is missed is missed for good.

    `TopicOffsets` keeps what was missed and what had lapsed beside what was
    heard. Here the three are told apart: every record of the range read that
    decodes is in exactly one of them. */
module TopicHoles {
  import opened Keys
  import opened TopicOffsets

  /** Heard, missed, lapsed and undecodable offsets are apart; what was missed or
      lapsed lies behind; what was jumped lies between there and where the
      consumer is. */
  ghost predicate Apart(t: Topic)
  {
    && (forall o :: o in t.missed ==> o !in t.heard && o !in t.undecodable && o !in t.lapsed)
    && (forall o :: o in t.lapsed ==> o !in t.heard && o !in t.undecodable && o < t.start)
    && (forall o :: o in t.missed || o in t.lapsed ==>
          t.first.Some? && t.resumeAt.Some? && t.first.value <= o < t.resumeAt.value)
    && (t.held && t.resumeAt.Some? ==>
          forall o :: o in t.jumped ==> t.resumeAt.value <= o < t.position && o !in t.undecodable)
  }

  /** And nothing of the range is in none of them. */
  ghost predicate Covered(t: Topic)
  {
    t.first.Some? && t.resumeAt.Some? ==>
      forall o :: t.first.value <= o < t.resumeAt.value ==>
        o in t.heard || o in t.undecodable || o in t.missed || o in t.lapsed
  }

  /** Reading on to `to`, all the records there given or missed. */
  lemma ReadsApart(t: Topic, to: int, given: seq<int>, rest: set<int>, v: Topic)
    requires t.control && Sound(t) && Apart(t) && Covered(t)
    requires t.held && t.start <= t.position <= to <= t.end
    requires forall o :: o in given || o in rest ==> t.position <= o < to && o !in t.undecodable
    requires forall o :: o in given ==> o !in rest
    requires forall o :: t.position <= o < to && o !in t.undecodable ==> o in given || o in rest
    requires v.heard == t.heard + given && v.undecodable == t.undecodable && v.start == t.start && v.first == t.first
    requires v.missed == t.missed + t.jumped + rest && v.lapsed == t.lapsed + Lapsing(t) && v.jumped == {}
    requires v.resumeAt == Some(to)
    ensures Apart(v) && Covered(v)
  {
    hide Ascending, Accounted;
    forall o | o in v.missed ensures o !in v.heard && o !in v.lapsed && t.first.value <= o < to {
      assert o in t.missed || o in t.jumped || o in rest;
    }
    forall o | o in v.lapsed ensures o !in v.heard && o < v.start && t.first.value <= o < to {
      assert o in t.lapsed || o in Lapsing(t);
    }
    forall o | t.first.value <= o < to ensures o in v.heard || o in v.undecodable || o in v.missed || o in v.lapsed {
      if t.resumeAt.value <= o < t.position && o !in t.jumped && o !in t.undecodable {
        assert o in Lapsing(t);
      }
    }
  }

  lemma FetchedApart(t: Topic, count: nat)
    requires t.control && Sound(t) && Apart(t) && Covered(t) && CanFetch(t, count)
    ensures Apart(Fetched(t, count)) && Covered(Fetched(t, count))
  {
    var v := Fetched(t, count);
    assert t.resumeAt.Some?;
    assert t.missed + t.jumped + {} == t.missed + t.jumped;
    var given := Decodable(t.position, t.position + count, t.undecodable);
    hide Decodable, Sound, Apart, Covered, Lapsing;
    ReadsApart(t, t.position + count, given, {}, v);
  }

  lemma FetchedInPartApart(t: Topic, count: nat, delivered: nat)
    requires t.control && Sound(t) && Apart(t) && Covered(t) && CanFetch(t, count)
    ensures Apart(FetchedInPart(t, count, delivered)) && Covered(FetchedInPart(t, count, delivered))
  {
    hide Apart, Covered, FetchedInPart, Lapsing, Decodable, Cut, Unheard, Accounted, HeardBelow, Ascending;
    InPartIs(t, count, delivered);
    hide Sound;
    var all := Decodable(t.position, t.position + count, t.undecodable);
    InPartApart(t, t.position + count, all, Cut(all, delivered), FetchedInPart(t, count, delivered));
  }

  lemma InPartIs(t: Topic, count: nat, delivered: nat)
    requires t.resumeAt.Some?
    ensures var v, to := FetchedInPart(t, count, delivered), t.position + count;
            var all := Decodable(t.position, to, t.undecodable);
            var given := Cut(all, delivered);
            && v.heard == t.heard + given && v.missed == t.missed + t.jumped + Unheard(all, given)
            && v.lapsed == t.lapsed + Lapsing(t) && v.jumped == {} && v.resumeAt == Some(to)
            && v.first == t.first && v.start == t.start && v.undecodable == t.undecodable
  {
    hide Decodable, Cut, Unheard, Lapsing;
  }

  lemma InPartApart(t: Topic, to: int, all: seq<int>, given: seq<int>, v: Topic)
    requires t.control && Sound(t) && Apart(t) && Covered(t)
    requires t.held && t.start <= t.position <= to <= t.end
    requires all == Decodable(t.position, to, t.undecodable) && given <= all
    requires v.heard == t.heard + given && v.undecodable == t.undecodable && v.start == t.start && v.first == t.first
    requires v.missed == t.missed + t.jumped + Unheard(all, given) && v.lapsed == t.lapsed + Lapsing(t) && v.jumped == {}
    requires v.resumeAt == Some(to)
    ensures Apart(v) && Covered(v)
  {
    assert forall o :: o in given ==> o in all;
    hide Sound, Apart, Covered, Lapsing, Decodable;
    ReadsApart(t, to, given, Unheard(all, given), v);
  }

  /** A step that reads nothing. */
  lemma QuietApart(t: Topic, e: Event)
    requires t.control && Sound(t) && Apart(t) && Covered(t) && !e.Fetch? && !e.FetchCutShort?
    ensures Apart(Next(t, e)) && Covered(Next(t, e))
  {
    hide Ascending, Accounted, HeardBelow;
  }

  lemma NextApart(t: Topic, e: Event)
    requires t.control && Sound(t) && Apart(t) && Covered(t)
    ensures Apart(Next(t, e)) && Covered(Next(t, e))
  {
    hide Sound, Apart, Covered, Fetched, FetchedInPart;
    match e
    case Fetch(count) => if CanFetch(t, count) { FetchedApart(t, count); }
    case FetchCutShort(count, delivered) => if CanFetch(t, count) { FetchedInPartApart(t, count, delivered); }
    case _ => QuietApart(t, e);
  }

  lemma {:induction false} AfterApart(t: Topic, events: seq<Event>)
    requires t.control && Sound(t) && Apart(t) && Covered(t)
    ensures Apart(After(t, events)) && Covered(After(t, events))
  {
    if events != [] {
      hide Sound, Apart, Covered, Next;
      AfterApart(t, events[..|events| - 1]);
      AfterSound(t, events[..|events| - 1]);
      NextApart(After(t, events[..|events| - 1]), events[|events| - 1]);
    }
  }

  lemma InitialApart(undecodable: set<int>, start: int, end: int)
    requires start <= end
    ensures var t := Initial(true, undecodable, start, end); Sound(t) && Apart(t) && Covered(t)
  {
  }

  /** The range a control topic was read over has a hole: a record that decodes,
      was not heard, and had not expired when it was passed. */
  ghost predicate HasHole(t: Topic)
  {
    t.first.Some? && t.resumeAt.Some? &&
    exists o :: t.first.value <= o < t.resumeAt.value && o !in t.heard && o !in t.undecodable && o !in t.lapsed
  }

  /** What counts as lapsed had expired at that very step: the broker no longer
      held it when the consumer passed it for good. */
  lemma LapsedHadExpired(t: Topic, e: Event)
    requires Sound(t)
    ensures forall o :: o in Next(t, e).lapsed && o !in t.lapsed ==> o < t.start
  {
    hide Decodable, Cut, Unheard, Ascending, Accounted;
  }

  /** What is heard of a control topic has a hole exactly when some step cost a
      record: a fetch that went on from beyond records still there, or one that
      was cut short. */
  lemma HoleExactlyWhenCostly(undecodable: set<int>, start: int, end: int, events: seq<Event>)
    requires start <= end
    ensures HasHole(After(Initial(true, undecodable, start, end), events))
            <==> EverCosts(Initial(true, undecodable, start, end), events)
  {
    var t0 := Initial(true, undecodable, start, end);
    InitialApart(undecodable, start, end);
    AfterApart(t0, events);
    MissedExactlyWhenCostly(t0, events);
    hide After, EverCosts, Sound;
    MissedIsTheHole(After(t0, events));
  }

  lemma MissedIsTheHole(t: Topic)
    requires Apart(t) && Covered(t)
    ensures HasHole(t) <==> t.missed != {}
  {
    if t.missed != {} {
      var o := SomeOf(t.missed);
    }
  }

  lemma SomeOf<T>(s: set<T>) returns (o: T)
    requires s != {}
    ensures o in s
  {
    o :| o in s;
  }

  lemma {:induction false} AfterJoin(t: Topic, events: seq<Event>, more: seq<Event>)
    ensures After(t, events + more) == After(After(t, events), more)
  {
    if more == [] {
      assert events + more == events;
    } else {
      AfterJoin(t, events, more[..|more| - 1]);
      assert (events + more)[..|events + more| - 1] == events + more[..|more| - 1];
    }
  }

  lemma {:induction false} MissedStays(t: Topic, events: seq<Event>)
    ensures t.missed <= After(t, events).missed
  {
    if events != [] {
      MissedStays(t, events[..|events| - 1]);
      hide Decodable, Cut, Unheard, Range, Lapsing;
    }
  }

  /** A record missed is never heard, whatever the consumer does later. */
  lemma MissedIsNeverHeard(undecodable: set<int>, start: int, end: int, events: seq<Event>, more: seq<Event>, o: int)
    requires start <= end && o in After(Initial(true, undecodable, start, end), events).missed
    ensures var t := After(Initial(true, undecodable, start, end), events + more);
            o !in t.heard && o !in t.undecodable && t.resumeAt.Some? && o < t.resumeAt.value
  {
    var t0 := Initial(true, undecodable, start, end);
    AfterJoin(t0, events, more);
    MissedStays(After(t0, events), more);
    InitialApart(undecodable, start, end);
    AfterApart(t0, events + more);
    hide After, Sound, Covered;
    assert Apart(After(t0, events + more));
  }
}
