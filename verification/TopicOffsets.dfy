/** What a consumer hears of one topic, over fetches, failures and reopenings.

    A topic is a log with offsets: the broker appends at its end and expires
    from its start. A control topic (commands, errors, the end of a run) is
    resumed where it was; a data topic is read from its end again. `Next` is one
    step of the broker or of the consumer; offsets stand for records. */
module TopicOffsets {
  import opened Keys

  datatype Topic = Topic(
    control: bool,
    undecodable: set<int>,           // which records do not decode
    start: int, end: int,            // what the broker holds: start <= offset < end
    held: bool,                      // the open consumer is assigned it
    position: int,                   // and will read this offset next
    asking: Option<int>,             // where the broker said it starts, while assigning
    resumeAt: Option<int>,           // a control topic: the next offset to read
    first: Option<int>,              // history: where reading began
    heard: seq<int>,                 // history: offsets delivered
    jumped: set<int>,                // offsets the consumer went past while they were there
    missed: set<int>,                // history: those, once passed for good, and those of a delivery cut short
    lapsed: set<int>)                // history: offsets passed for good that had expired by then

  datatype Event =
    | Append
    | Expire(to: int)
    | Ask
    | Seek
    | SeekToEnd
    | Fetch(count: nat)
    | FetchCutShort(count: nat, delivered: nat)
    | OutOfRange
    | Fail

  /** Offsets from `lo` up to `hi` whose records decode, in order. */
  function Decodable(lo: int, hi: int, undecodable: set<int>): (r: seq<int>)
    ensures forall k :: 0 <= k < |r| ==> lo <= r[k] < hi && r[k] !in undecodable
    ensures forall i, j :: 0 <= i < j < |r| ==> r[i] < r[j]
    ensures forall o :: lo <= o < hi && o !in undecodable ==> o in r
    decreases hi - lo
  {
    if hi <= lo then [] else
      Decodable(lo, hi - 1, undecodable) + if hi - 1 in undecodable then [] else [hi - 1]
  }

  /** Where a resumed topic is read from: where it was, if the broker still
      reaches there, or from the broker's start. */
  function ResumeFrom(offset: int, start: int, end: int): int
  {
    if start <= offset <= end then offset else start
  }

  function Range(lo: int, hi: int): (r: set<int>)
    ensures forall o :: o in r <==> lo <= o < hi
    decreases hi - lo
  {
    if hi <= lo then {} else Range(lo, hi - 1) + {hi - 1}
  }

  /** What a resumed topic leaves behind, reading on, that is no longer there. */
  function Lapsing(t: Topic): set<int>
  {
    if t.resumeAt.None? then {} else Range(t.resumeAt.value, t.position) - t.jumped - t.undecodable
  }

  /** One fetch of `count` records, all of whose decodable ones are delivered. */
  function Fetched(t: Topic, count: nat): Topic
  {
    var to := t.position + count;
    t.(position := to,
       heard := t.heard + Decodable(t.position, to, t.undecodable),
       resumeAt := if t.resumeAt.Some? then Some(to) else None,
       missed := t.missed + t.jumped, lapsed := t.lapsed + Lapsing(t), jumped := {})
  }

  function Cut(all: seq<int>, n: nat): (r: seq<int>)
    ensures r <= all && (r == all <==> n >= |all|)
  {
    if n < |all| then all[..n] else all
  }

  function Unheard(all: seq<int>, given: seq<int>): set<int>
  {
    set o | o in all && o !in given
  }

  /** Or only the first few of them: the consumer failed, and starts over. */
  function FetchedInPart(t: Topic, count: nat, delivered: nat): Topic
  {
    var to := t.position + count;
    var all := Decodable(t.position, to, t.undecodable);
    t.(position := to, held := false,
       heard := t.heard + Cut(all, delivered),
       resumeAt := if t.resumeAt.Some? then Some(to) else None,
       missed := t.missed + t.jumped + Unheard(all, Cut(all, delivered)), lapsed := t.lapsed + Lapsing(t), jumped := {})
  }

  predicate CanFetch(t: Topic, count: nat)
  {
    t.held && count > 0 && t.start <= t.position && t.position + count <= t.end
  }

  function Next(t: Topic, e: Event): Topic
  {
    match e
    case Append => t.(end := t.end + 1)
    case Expire(to) => if t.start <= to <= t.end then t.(start := to) else t
    case Ask => if t.held || t.resumeAt.None? then t else t.(asking := Some(t.start))
    case Seek =>
      if t.held || t.asking.None? || t.resumeAt.None? then t
      else t.(held := true, position := ResumeFrom(t.resumeAt.value, t.asking.value, t.end), asking := None, jumped := {})
    case SeekToEnd =>
      if t.held || t.resumeAt.Some? then t
      else t.(held := true, position := t.end, jumped := {},
              resumeAt := if t.control then Some(t.end) else None,
              first := if t.first.None? then Some(t.end) else t.first)
    case Fetch(count) => if CanFetch(t, count) then Fetched(t, count) else t
    case FetchCutShort(count, delivered) => if CanFetch(t, count) then FetchedInPart(t, count, delivered) else t
    case OutOfRange =>
      if t.held && t.position < t.start then t.(position := t.end, jumped := t.jumped + Range(t.start, t.end) - t.undecodable) else t
    case Fail => t.(held := false, asking := None)
  }

  function Initial(control: bool, undecodable: set<int>, start: int, end: int): Topic
  {
    Topic(control, undecodable, start, end, false, 0, None, None, None, [], {}, {}, {})
  }

  function After(t: Topic, events: seq<Event>): Topic
  {
    if events == [] then t else Next(After(t, events[..|events| - 1]), events[|events| - 1])
  }

  // ---------------------------------------------------------------- what is kept

  ghost predicate Ascending(r: seq<int>)
  {
    forall i, j :: 0 <= i < j < |r| ==> r[i] < r[j]
  }

  /** Every offset heard is below where the topic is read next. */
  ghost predicate HeardBelow(t: Topic, bound: int)
  {
    forall o :: o in t.heard ==> o < bound && o !in t.undecodable
  }

  /** Every offset of the range read is accounted for. */
  ghost predicate Accounted(t: Topic, from: int, to: int)
  {
    forall o :: from <= o < to ==> o in t.heard || o in t.undecodable || o in t.missed || o < t.start
  }

  /** A control topic being resumed: what it resumes from, and what is behind. */
  ghost predicate Resumable(t: Topic)
  {
    t.resumeAt.Some? ==>
      && t.control && t.first.Some? && t.first.value <= t.resumeAt.value <= t.end
      && HeardBelow(t, t.resumeAt.value) && Accounted(t, t.first.value, t.resumeAt.value)
      && (forall o :: o in t.heard ==> t.first.value <= o)
  }

  /** Held, and reading on from there: between, nothing is left to hear but what
      was jumped. */
  ghost predicate Reading(t: Topic)
  {
    t.held ==>
      && t.position <= t.end && HeardBelow(t, t.position)
      && (t.resumeAt.Some? ==>
            && t.resumeAt.value <= t.position
            && forall o :: t.resumeAt.value <= o < t.position ==> o in t.jumped || o in t.undecodable || o < t.start)
  }

  ghost predicate Sound(t: Topic)
  {
    && t.start <= t.end && Ascending(t.heard) && HeardBelow(t, t.end)
    && Resumable(t) && Reading(t)
    && (t.control ==> (t.held ==> t.resumeAt.Some?) && (t.resumeAt.None? ==> t.heard == [] && t.first.None?))
    && (t.asking.Some? ==> t.asking.value <= t.start && t.resumeAt.Some?)
  }

  lemma AscendingJoin(a: seq<int>, b: seq<int>)
    requires Ascending(a) && Ascending(b)
    requires forall x, y :: x in a && y in b ==> x < y
    ensures Ascending(a + b)
  {
    forall i, j | 0 <= i < j < |a + b| ensures (a + b)[i] < (a + b)[j] {
      if i < |a| && j >= |a| {
        assert a[i] in a && b[j - |a|] in b;
      }
    }
  }

  /** What reading on to `to` gives, and what it then leaves to account for. */
  lemma Reads(t: Topic, to: int, given: seq<int>, v: Topic)
    requires Sound(t) && t.held && t.start <= t.position <= to <= t.end
    requires Ascending(given) && forall o :: o in given ==> t.position <= o < to && o !in t.undecodable
    requires v.heard == t.heard + given && v.undecodable == t.undecodable && v.start == t.start
    requires t.missed + t.jumped <= v.missed
    requires forall o :: t.position <= o < to && o !in t.undecodable ==> o in given || o in v.missed
    ensures Ascending(v.heard) && HeardBelow(v, to)
    ensures t.resumeAt.Some? ==> Accounted(v, t.first.value, to)
  {
    AscendingJoin(t.heard, given);
    if t.resumeAt.Some? {
      hide Ascending, HeardBelow;
      forall o | t.first.value <= o < to ensures o in v.heard || o in v.undecodable || o in v.missed || o < v.start {
      }
    }
  }

  lemma HeardBelowMore(t: Topic, low: int, high: int)
    requires HeardBelow(t, low) && low <= high
    ensures HeardBelow(t, high)
  {
  }

  lemma ReadSound(t: Topic, to: int, v: Topic)
    requires Sound(t) && t.held && t.position <= to <= t.end
    requires v == t.(position := to, held := v.held, heard := v.heard, missed := v.missed, lapsed := v.lapsed, jumped := {},
                     resumeAt := if t.resumeAt.Some? then Some(to) else None)
    requires v.held ==> t.held
    requires Ascending(v.heard) && HeardBelow(v, to) && (t.resumeAt.Some? ==> Accounted(v, t.first.value, to))
    requires forall o :: o in v.heard ==> o in t.heard || o >= t.position
    ensures Sound(v)
  {
    HeardBelowMore(v, to, t.end);
    hide Ascending, Accounted, HeardBelow;
  }

  lemma FetchedSound(t: Topic, count: nat)
    requires Sound(t) && CanFetch(t, count)
    ensures Sound(Fetched(t, count))
  {
    var given := Decodable(t.position, t.position + count, t.undecodable);
    hide Sound, Decodable;
    Reads(t, t.position + count, given, Fetched(t, count));
    ReadSound(t, t.position + count, Fetched(t, count));
  }

  lemma FetchedInPartSound(t: Topic, count: nat, delivered: nat)
    requires Sound(t) && CanFetch(t, count)
    ensures Sound(FetchedInPart(t, count, delivered))
  {
    hide Sound, Decodable, Cut, Unheard;
    var all := Decodable(t.position, t.position + count, t.undecodable);
    var given := Cut(all, delivered);
    CutAccounts(all, delivered);
    Reads(t, t.position + count, given, FetchedInPart(t, count, delivered));
    ReadSound(t, t.position + count, FetchedInPart(t, count, delivered));
  }

  lemma CutAccounts(all: seq<int>, n: nat)
    requires Ascending(all)
    ensures Ascending(Cut(all, n)) && forall o :: o in all <==> o in Cut(all, n) || o in Unheard(all, Cut(all, n))
  {
    var given := Cut(all, n);
    assert forall o :: o in given ==> o in all;
  }

  lemma NextSound(t: Topic, e: Event)
    requires Sound(t)
    ensures Sound(Next(t, e))
  {
    hide Decodable, Fetched, FetchedInPart, Range;
    match e
    case Fetch(count) => if CanFetch(t, count) { FetchedSound(t, count); }
    case FetchCutShort(count, delivered) => if CanFetch(t, count) { FetchedInPartSound(t, count, delivered); }
    case _ =>
  }

  lemma {:induction false} AfterSound(t: Topic, events: seq<Event>)
    requires Sound(t)
    ensures Sound(After(t, events)) && After(t, events).control == t.control
  {
    if events != [] {
      hide Sound;
      AfterSound(t, events[..|events| - 1]);
      NextSound(After(t, events[..|events| - 1]), events[|events| - 1]);
    }
  }

  // ---------------------------------------------------------------- what a subscriber hears

  /** Nothing twice and nothing out of order, on any topic; and on a control
      topic one contiguous range: every record of it that decodes was heard, had
      expired, or was missed. */
  lemma HeardOnceInOrder(control: bool, undecodable: set<int>, start: int, end: int, events: seq<Event>)
    requires start <= end
    ensures var t := After(Initial(control, undecodable, start, end), events);
            && Ascending(t.heard)
            && (control && t.first.Some? ==>
                  && t.resumeAt.Some?
                  && (forall o :: o in t.heard ==> t.first.value <= o < t.resumeAt.value && o !in t.undecodable)
                  && (forall o :: t.first.value <= o < t.resumeAt.value ==>
                        o in t.heard || o in t.undecodable || o in t.missed || o < t.start))
  {
    AfterSound(Initial(control, undecodable, start, end), events);
  }

  /** A step that costs a record for good: a fetch that goes on from beyond
      records it jumped, or one that is cut short. */
  predicate Costs(t: Topic, e: Event)
  {
    match e
    case Fetch(count) => CanFetch(t, count) && t.jumped != {}
    case FetchCutShort(count, delivered) =>
      CanFetch(t, count)
      && (t.jumped != {} || delivered < |Decodable(t.position, t.position + count, t.undecodable)|)
    case _ => false
  }

  predicate EverCosts(t: Topic, events: seq<Event>)
  {
    events != [] &&
    (EverCosts(t, events[..|events| - 1]) || Costs(After(t, events[..|events| - 1]), events[|events| - 1]))
  }

  lemma CutShort(all: seq<int>, n: nat)
    requires Ascending(all)
    ensures Unheard(all, Cut(all, n)) != {} <==> n < |all|
  {
    if n < |all| {
      assert forall i :: 0 <= i < n ==> all[i] < all[n];
      assert all[n] in Unheard(all, Cut(all, n));
    }
  }

  lemma UnionNonempty(a: set<int>, b: set<int>, c: set<int>)
    ensures a + b != {} <==> a != {} || b != {}
    ensures a + b + c != {} <==> a != {} || b != {} || c != {}
  {
  }

  lemma StepMisses(t: Topic, e: Event)
    ensures Next(t, e).missed != {} <==> t.missed != {} || Costs(t, e)
  {
    hide Decodable, Range, Cut, Unheard;
    UnionNonempty(t.missed, t.jumped, {});
    if e.FetchCutShort? {
      var all := Decodable(t.position, t.position + e.count, t.undecodable);
      CutShort(all, e.delivered);
      UnionNonempty(t.missed, t.jumped, Unheard(all, Cut(all, e.delivered)));
    }
  }

  /** A topic that is resumed goes on where it was, if the broker still reaches
      there when it says where it starts, and otherwise from where that is. */
  lemma SeeksExactly(t: Topic)
    requires !t.held && t.asking.Some? && t.resumeAt.Some?
    ensures var v, offset, start := Next(t, Seek), t.resumeAt.value, t.asking.value;
            && v == t.(held := true, asking := None, jumped := {}, position := v.position)
            && v.position == (if offset < start || offset > t.end then start else offset)
  {
  }

  /** Something is missed exactly when some step cost it. */
  lemma {:induction false} MissedExactlyWhenCostly(t: Topic, events: seq<Event>)
    requires t.missed == {}
    ensures After(t, events).missed != {} <==> EverCosts(t, events)
  {
    if events != [] {
      hide Next, Costs;
      MissedExactlyWhenCostly(t, events[..|events| - 1]);
      StepMisses(After(t, events[..|events| - 1]), events[|events| - 1]);
    }
  }

  /** A consumer whose place has expired while the broker still holds records,
      or whose delivery is cut short. */
  predicate Unlucky(t: Topic, e: Event)
  {
    || (e == OutOfRange && t.held && t.position < t.start && Range(t.start, t.end) - t.undecodable != {})
    || (e.FetchCutShort? && CanFetch(t, e.count)
        && e.delivered < |Decodable(t.position, t.position + e.count, t.undecodable)|)
  }

  predicate EverUnlucky(t: Topic, events: seq<Event>)
  {
    events != [] &&
    (EverUnlucky(t, events[..|events| - 1]) || Unlucky(After(t, events[..|events| - 1]), events[|events| - 1]))
  }

  lemma LuckyMisses(t: Topic, e: Event)
    requires t.missed == {} && t.jumped == {} && !Unlucky(t, e)
    ensures Next(t, e).missed == {} && Next(t, e).jumped == {}
  {
    StepMisses(t, e);
    hide Decodable, Range;
  }

  /** As long as neither happens, reopening and resuming costs nothing: every
      record of the range that decodes was heard, or had expired. */
  lemma {:induction false} NothingMissed(t: Topic, events: seq<Event>)
    requires t.missed == {} && t.jumped == {} && !EverUnlucky(t, events)
    ensures After(t, events).missed == {} && After(t, events).jumped == {}
  {
    if events != [] {
      hide Next, Unlucky;
      var front := events[..|events| - 1];
      NothingMissed(t, front);
      LuckyMisses(After(t, front), events[|events| - 1]);
    }
  }

  /** A record written after a place was taken expires, and one more is held. */
  const OVERTAKEN := Topic(true, {}, 1, 2, true, 0, None, Some(0), Some(0), [], {}, {}, {})

  lemma Overtaken() returns (events: seq<Event>)
    ensures events == [SeekToEnd, Append, Append, Expire(1)] && After(Initial(true, {}, 0, 0), events) == OVERTAKEN
  {
    var t := Initial(true, {}, 0, 0);
    events := [];
    assert After(t, events) == t;
    hide After, Fetched, FetchedInPart;
    events := Then(t, events, SeekToEnd);
    events := Then(t, events, Append);
    events := Then(t, events, Append);
    events := Then(t, events, Expire(1));
  }

  lemma GoesOnBeyond()
    ensures var v := Next(Next(Next(OVERTAKEN, OutOfRange), Append), Fetch(1));
            v.heard == [2] && v.missed == {1} && v.start == 1 && v.resumeAt == Some(3)
  {
    var beyond := OVERTAKEN.(position := 2, jumped := {1});
    assert {} + Range(1, 2) - {} == {1};
    assert Next(OVERTAKEN, OutOfRange) == beyond;
    hide Lapsing, FetchedInPart, Range;
    var more := beyond.(end := 3);
    assert Next(beyond, Append) == more && Next(more, Fetch(1)) == Fetched(more, 1);
    hide Next;
    assert Decodable(2, 3, {}) == Decodable(2, 2, {}) + [2] == [2];
  }

  /** A place that expires is not resumed from the broker's start but from its
      end: the records between, still held, are passed over for good. */
  lemma AnExpiredPlaceMissesRecords() returns (events: seq<Event>)
    ensures events == [SeekToEnd, Append, Append, Expire(1), OutOfRange, Append, Fetch(1)]
    ensures var t := After(Initial(true, {}, 0, 0), events);
            t.heard == [2] && t.missed == {1} && t.start == 1 && t.resumeAt == Some(3)
  {
    events := Overtaken();
    GoesOnBeyond();
    hide After, Next;
    var t := Initial(true, {}, 0, 0);
    events := Then(t, events, OutOfRange);
    events := Then(t, events, Append);
    events := Then(t, events, Fetch(1));
  }

  lemma Then(t: Topic, before: seq<Event>, e: Event) returns (events: seq<Event>)
    ensures events == before + [e] && After(t, events) == Next(After(t, before), e)
  {
    events := before + [e];
    assert events[..|before|] == before;
  }
}
