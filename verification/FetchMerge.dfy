/** What becomes of a fetch that holds records of several topics: a merge of the
    topics by the time of sending, in which no topic is ever reordered.

    A record that does not decode is left out. A command that carries no issue
    time has no place in the order, and asking for it ends the delivery; so does
    a record whose key is no text, when its turn comes. The lemmas say what is
    delivered, in what order, and what can be lost. */
module FetchMerge {
  import opened Keys

  datatype Message = Data | Command(issuedAt: Option<real>)

  /** A record as fetched; `message` is none if it does not decode, and `keyed`
      says whether its key does. */
  datatype Record = Record(topic: string, offset: int, timestamp: Option<int>, message: Option<Message>, keyed: bool)

  /** An empty record: what a queue holds at the least. */
  const BLANK := Record("", 0, None, None, true)

  /** When a record was sent, in ms, and a command's issue time. */
  type Key = (int, real)

  predicate Before(a: Key, b: Key)
  {
    a.0 < b.0 || (a.0 == b.0 && a.1 < b.1)
  }

  /** A record's place, if it has one. */
  function SentOrder(r: Record): Option<Key>
  {
    var sent := if r.timestamp.Some? && r.timestamp.value >= 0 then r.timestamp.value else 0;
    if r.message.Some? && r.message.value.Command? then
      if r.message.value.issuedAt.None? then None else Some((sent, r.message.value.issuedAt.value))
    else Some((sent, 0.0))
  }

  predicate Placed(r: Record)
  {
    SentOrder(r).Some?
  }

  function PlaceOf(r: Record): Key
    requires Placed(r)
  {
    SentOrder(r).value
  }

  /** What decodes, in order. */
  function Decoded(records: seq<Record>): (r: seq<Record>)
    ensures forall k :: 0 <= k < |r| ==> r[k] in records && r[k].message.Some?
  {
    if records == [] then [] else
      var last := records[|records| - 1];
      Decoded(records[..|records| - 1]) + if last.message.Some? then [last] else []
  }

  // ---------------------------------------------------------------- the merge

  type Queue = q: seq<Record> | q != [] witness [BLANK]

  predicate HeadsPlaced(live: seq<Queue>)
  {
    forall q: Queue :: q in live ==> Placed(q[0])
  }

  function HeadKey(q: Queue): Key
    requires Placed(q[0])
  {
    PlaceOf(q[0])
  }

  /** The first queue whose head comes before no other's. */
  function Least(live: seq<Queue>): (i: nat)
    requires live != [] && HeadsPlaced(live)
    ensures i < |live|
    ensures forall q: Queue :: q in live ==> !Before(HeadKey(q), HeadKey(live[i]))
  {
    if |live| == 1 then 0 else
      var front := live[..|live| - 1];
      assert live == front + [live[|live| - 1]];
      var i := Least(front);
      if Before(HeadKey(live[|live| - 1]), HeadKey(live[i])) then |live| - 1 else i
  }

  function Size(live: seq<Queue>): (n: nat)
    ensures n >= |live|
  {
    if live == [] then 0 else Size(live[..|live| - 1]) + |live[|live| - 1]|
  }

  lemma {:induction false} SizeJoin(a: seq<Queue>, b: seq<Queue>)
    ensures Size(a + b) == Size(a) + Size(b)
  {
    if b == [] {
      assert a + b == a;
    } else {
      SizeJoin(a, b[..|b| - 1]);
      assert (a + b)[..|a + b| - 1] == a + b[..|b| - 1];
    }
  }

  /** The queue without its head, if that leaves anything. */
  function Behead(q: Queue): seq<Queue>
  {
    if |q| == 1 then [] else [q[1..]]
  }

  /** What is left once the head of one queue has gone out. */
  function Left(live: seq<Queue>, i: nat): (r: seq<Queue>)
    requires i < |live|
    ensures Size(r) < Size(live)
  {
    LeftIsLess(live, i);
    live[..i] + Behead(live[i]) + live[i + 1..]
  }

  lemma Around<T>(s: seq<T>, i: nat)
    requires i < |s|
    ensures s == s[..i] + [s[i]] + s[i + 1..]
  {
  }

  lemma LeftIsLess(live: seq<Queue>, i: nat)
    requires i < |live|
    ensures Size(live[..i] + Behead(live[i]) + live[i + 1..]) < Size(live)
  {
    hide Size, Behead;
    Around(live, i);
    LessAround(live[..i], live[i], live[i + 1..]);
  }

  lemma LessAround(a: seq<Queue>, q: Queue, c: seq<Queue>)
    ensures Size(a + Behead(q) + c) < Size(a + [q] + c)
  {
    hide Size;
    SizeAround(a, [q], c);
    SizeAround(a, Behead(q), c);
    SizeOne(q);
    if |q| > 1 {
      SizeOne(q[1..]);
    } else {
      SizeNone();
    }
  }

  lemma SizeNone()
    ensures Size([]) == 0
  {
  }

  lemma SizeOne(q: Queue)
    ensures Size([q]) == |q|
  {
    assert [q][..0] == [];
  }

  lemma SizeAround(a: seq<Queue>, b: seq<Queue>, c: seq<Queue>)
    ensures Size(a + b + c) == Size(a) + Size(b) + Size(c)
  {
    SizeJoin(a + b, c);
    SizeJoin(a, b);
  }

  lemma LeftQueues(live: seq<Queue>, i: nat)
    requires i < |live|
    ensures forall q: Queue :: q in Left(live, i) ==> q in live || (|live[i]| > 1 && q == live[i][1..])
    ensures forall k :: 0 <= k < |live| && k != i ==> live[k] in Left(live, i)
    ensures |live[i]| > 1 ==> live[i][1..] in Left(live, i)
  {
    var a, b, c := live[..i], Behead(live[i]), live[i + 1..];
    assert forall q: Queue :: q in Left(live, i) <==> q in a || q in b || q in c;
    forall k | 0 <= k < |live| && k != i ensures live[k] in Left(live, i) {
      if k < i {
        assert live[k] == a[k];
      } else {
        assert live[k] == c[k - i - 1];
      }
    }
  }

  /** What a merge gave out, and whether it was cut short by a record with no place. */
  datatype Merging = Merging(given: seq<Record>, raised: bool)

  /** Merging queues: the least head next, whose successor is asked for its
      place; the last queue left goes out as it is. */
  function Merge(live: seq<Queue>): Merging
    requires HeadsPlaced(live)
    decreases Size(live)
  {
    if live == [] then Merging([], false)
    else if |live| == 1 then Merging(live[0], false)
    else
      var i := Least(live);
      if |live[i]| > 1 && !Placed(live[i][1]) then Merging([live[i][0]], true)
      else
        LeftQueues(live, i);
        var m := Merge(Left(live, i));
        Merging([live[i][0]] + m.given, m.raised)
  }

  /** A fetch: the places of all heads are asked for before anything goes out. */
  function MergeAll(live: seq<Queue>): Merging
  {
    if HeadsPlaced(live) then Merge(live) else Merging([], true)
  }

  /** The records before the first whose key is no text. */
  function Keyed(records: seq<Record>): (n: nat)
    ensures n <= |records|
    ensures forall k :: 0 <= k < n ==> records[k].keyed
    ensures n < |records| ==> !records[n].keyed
  {
    if records == [] || !records[0].keyed then 0 else 1 + Keyed(records[1..])
  }

  /** What goes out of a merge: its records one by one, until a key does not
      decode. */
  function Outgoing(m: Merging): Merging
  {
    var n := Keyed(m.given);
    if n < |m.given| then Merging(m.given[..n], true) else m
  }

  lemma OutgoingNext(head: Record, m: Merging)
    ensures Outgoing(Merging([head] + m.given, m.raised)) ==
            if head.keyed then Merging([head] + Outgoing(m).given, Outgoing(m).raised) else Merging([], true)
  {
    assert ([head] + m.given)[1..] == m.given;
  }

  /** What is delivered of a fetch. */
  function Delivery(live: seq<Queue>): Merging
  {
    Outgoing(MergeAll(live))
  }

  // ---------------------------------------------------------------- each topic whole, in its own order

  function Of(records: seq<Record>, topic: string): seq<Record>
  {
    if records == [] then [] else
      (if records[0].topic == topic then [records[0]] else []) + Of(records[1..], topic)
  }

  lemma {:induction false} OfOwn(records: seq<Record>, topic: string)
    ensures (forall k :: 0 <= k < |records| ==> records[k].topic == topic) ==> Of(records, topic) == records
    ensures (forall k :: 0 <= k < |records| ==> records[k].topic != topic) ==> Of(records, topic) == []
  {
    if records != [] {
      OfOwn(records[1..], topic);
    }
  }

  /** One queue for each topic. */
  ghost predicate ByTopic(live: seq<Queue>)
  {
    && (forall i, k :: 0 <= i < |live| && 0 <= k < |live[i]| ==> live[i][k].topic == live[i][0].topic)
    && (forall i, j :: 0 <= i < j < |live| ==> live[i][0].topic != live[j][0].topic)
  }

  lemma OfFirst(first: Record, rest: seq<Record>, topic: string)
    ensures Of([first] + rest, topic) == (if first.topic == topic then [first] else []) + Of(rest, topic)
  {
    assert ([first] + rest)[1..] == rest;
  }

  lemma {:induction false} OfAppend(a: seq<Record>, b: seq<Record>, topic: string)
    ensures Of(a + b, topic) == Of(a, topic) + Of(b, topic)
  {
    if a == [] {
      assert a + b == b;
    } else {
      OfFirst(a[0], a[1..], topic);
      OfFirst(a[0], a[1..] + b, topic);
      hide Of;
      OfAppend(a[1..], b, topic);
      assert a == [a[0]] + a[1..] && a + b == [a[0]] + (a[1..] + b);
    }
  }

  /** Everything queued. */
  function Flat(live: seq<Queue>): seq<Record>
  {
    if live == [] then [] else Flat(live[..|live| - 1]) + live[|live| - 1]
  }

  lemma {:induction false} FlatJoin(a: seq<Queue>, b: seq<Queue>)
    ensures Flat(a + b) == Flat(a) + Flat(b)
  {
    if b == [] {
      assert a + b == a;
    } else {
      FlatJoin(a, b[..|b| - 1]);
      assert (a + b)[..|a + b| - 1] == a + b[..|b| - 1];
    }
  }

  lemma {:induction false} OfFlat(live: seq<Queue>, topic: string)
    requires forall i, k :: 0 <= i < |live| && 0 <= k < |live[i]| ==> live[i][k].topic != topic
    ensures Of(Flat(live), topic) == []
  {
    if live != [] {
      OfFlat(live[..|live| - 1], topic);
      OfAppend(Flat(live[..|live| - 1]), live[|live| - 1], topic);
      OfOwn(live[|live| - 1], topic);
    }
  }

  lemma FlatSmall(q: Queue)
    ensures Flat([q]) == q && Flat([]) == []
  {
    assert [q][..0] == [];
  }

  /** One queue among the rest. */
  lemma FlatAt(a: seq<Queue>, q: Queue, b: seq<Queue>, topic: string)
    ensures Of(Flat(a + [q] + b), topic) == Of(Flat(a), topic) + Of(q, topic) + Of(Flat(b), topic)
  {
    FlatJoin(a + [q], b);
    FlatJoin(a, [q]);
    FlatSmall(q);
    OfAppend(Flat(a) + q, Flat(b), topic);
    OfAppend(Flat(a), q, topic);
  }

  /** The head of a queue is the first of its topic. */
  lemma HeadTaken(live: seq<Queue>, i: nat, topic: string)
    requires ByTopic(live) && i < |live|
    ensures Of(Flat(live), topic) == Of([live[i][0]], topic) + Of(Flat(Left(live, i)), topic)
  {
    if live[i][0].topic == topic {
      NoneBeforeIt(live, i);
    }
    hide Flat, Of, ByTopic, Behead;
    Around(live, i);
    HeadTakenFrom(live[..i], live[i], live[i + 1..], topic);
  }

  lemma HeadTakenFrom(a: seq<Queue>, q: Queue, b: seq<Queue>, topic: string)
    requires q[0].topic == topic ==> Of(Flat(a), topic) == []
    ensures Of(Flat(a + [q] + b), topic) == Of([q[0]], topic) + Of(Flat(a + Behead(q) + b), topic)
  {
    hide Flat, Of, Behead;
    FlatAt(a, q, b, topic);
    NotOf(q[0], topic);
    assert q == [q[0]] + q[1..];
    OfAppend([q[0]], q[1..], topic);
    FlatBeheaded(a, q, b, topic);
  }

  lemma NoneBeforeIt(live: seq<Queue>, i: nat)
    requires ByTopic(live) && i < |live|
    ensures Of(Flat(live[..i]), live[i][0].topic) == []
  {
    OfFlat(live[..i], live[i][0].topic);
  }

  lemma FlatShorter(a: seq<Queue>, q: Queue, b: seq<Queue>, topic: string)
    requires |q| > 1
    ensures Of(Flat(a + [q[1..]] + b), topic) == Of(Flat(a), topic) + Of(q[1..], topic) + Of(Flat(b), topic)
  {
    hide Flat, Of;
    FlatAt(a, q[1..], b, topic);
  }

  lemma FlatWithout(a: seq<Queue>, b: seq<Queue>, topic: string)
    ensures Of(Flat(a + b), topic) == Of(Flat(a), topic) + Of(Flat(b), topic)
  {
    hide Flat, Of;
    FlatJoin(a, b);
    OfAppend(Flat(a), Flat(b), topic);
  }

  lemma OfNothing(topic: string)
    ensures Of([], topic) == []
  {
  }

  lemma FlatBeheaded(a: seq<Queue>, q: Queue, b: seq<Queue>, topic: string)
    ensures Of(Flat(a + Behead(q) + b), topic) == Of(Flat(a), topic) + Of(q[1..], topic) + Of(Flat(b), topic)
  {
    hide Flat, Of;
    if |q| > 1 {
      FlatShorter(a, q, b, topic);
    } else {
      FlatWithout(a, b, topic);
      OfNothing(topic);
      assert a + [] == a && q[1..] == [];
    }
  }

  lemma NotOf(r: Record, topic: string)
    ensures Of([r], topic) == if r.topic == topic then [r] else []
  {
    assert [r][1..] == [];
  }

  lemma ByTopicShorter(live: seq<Queue>, i: nat)
    requires ByTopic(live) && i < |live| && |live[i]| > 1
    ensures ByTopic(live[i := live[i][1..]])
  {
  }

  lemma ByTopicWithout(live: seq<Queue>, i: nat)
    requires ByTopic(live) && i < |live|
    ensures ByTopic(live[..i] + live[i + 1..])
  {
    var r := live[..i] + live[i + 1..];
    assert forall k :: 0 <= k < |r| ==> r[k] == live[if k < i then k else k + 1];
  }

  lemma ByTopicLeft(live: seq<Queue>, i: nat)
    requires ByTopic(live) && i < |live|
    ensures ByTopic(Left(live, i))
  {
    hide ByTopic, Left;
    LeftAt(live, i);
    if |live[i]| == 1 {
      ByTopicWithout(live, i);
    } else {
      ByTopicShorter(live, i);
    }
  }

  lemma LeftAt(live: seq<Queue>, i: nat)
    requires i < |live|
    ensures |live[i]| == 1 ==> Left(live, i) == live[..i] + live[i + 1..]
    ensures |live[i]| > 1 ==> Left(live, i) == live[i := live[i][1..]]
  {
    assert live[..i] + [] == live[..i];
  }

  /** What is merged of each topic is what came in, in its own order: all of it,
      or the start of it if the merge was cut short. */
  lemma {:induction false} EachMergedInOrder(live: seq<Queue>, topic: string)
    requires HeadsPlaced(live) && ByTopic(live)
    ensures Of(Merge(live).given, topic) <= Of(Flat(live), topic)
    ensures !Merge(live).raised ==> Of(Merge(live).given, topic) == Of(Flat(live), topic)
    decreases Size(live)
  {
    hide ByTopic, Flat, Of, Least, Left;
    if |live| == 1 {
      assert live == [live[0]];
      FlatSmall(live[0]);
    } else if live == [] {
      FlatSmall([BLANK]);
    } else {
      var i := Least(live);
      HeadTaken(live, i, topic);
      if !(|live[i]| > 1 && !Placed(live[i][1])) {
        LeftQueues(live, i);
        ByTopicLeft(live, i);
        EachMergedInOrder(Left(live, i), topic);
        OfAppend([live[i][0]], Merge(Left(live, i)).given, topic);
      }
    }
  }

  lemma {:induction false} OfStart(records: seq<Record>, n: nat, topic: string)
    requires n <= |records|
    ensures Of(records[..n], topic) <= Of(records, topic)
  {
    OfAppend(records[..n], records[n..], topic);
    assert records == records[..n] + records[n..];
  }

  /** What goes out of each topic is what came in, in its own order: all of it,
      or the start of it if the delivery was cut short. */
  lemma EachInItsOrder(live: seq<Queue>, topic: string)
    requires ByTopic(live)
    ensures Of(Delivery(live).given, topic) <= Of(Flat(live), topic)
    ensures !Delivery(live).raised ==> Of(Delivery(live).given, topic) == Of(Flat(live), topic)
  {
    if HeadsPlaced(live) {
      EachMergedInOrder(live, topic);
      OfStart(Merge(live).given, Keyed(Merge(live).given), topic);
    }
    hide ByTopic, Flat, Merge;
  }

  // ---------------------------------------------------------------- by when they were sent

  ghost predicate Sorted(records: seq<Record>)
  {
    && (forall r :: r in records ==> Placed(r))
    && (forall i, j :: 0 <= i < j < |records| && Placed(records[i]) && Placed(records[j]) ==>
          !Before(PlaceOf(records[j]), PlaceOf(records[i])))
  }

  ghost predicate NoneBefore(records: seq<Record>, key: Key)
  {
    forall r :: r in records ==> Placed(r) && !Before(PlaceOf(r), key)
  }

  ghost predicate QueuesSorted(live: seq<Queue>, low: Key)
  {
    forall q: Queue :: q in live ==> Sorted(q) && NoneBefore(q, low)
  }

  lemma SortedTail(q: Queue, low: Key)
    requires Sorted(q) && NoneBefore(q, low)
    ensures Placed(q[0]) && NoneBefore(q, HeadKey(q))
    ensures |q| > 1 ==> Sorted(q[1..])
  {
  }

  lemma SortedFrom(q: Queue, key: Key)
    requires Sorted(q) && Placed(q[0]) && !Before(HeadKey(q), key)
    ensures NoneBefore(q, key)
  {
  }

  lemma SortedAfter(head: Record, key: Key, low: Key, rest: seq<Record>)
    requires Placed(head) && PlaceOf(head) == key && !Before(key, low) && Sorted(rest) && NoneBefore(rest, key)
    ensures Sorted([head] + rest) && NoneBefore([head] + rest, low)
  {
  }

  lemma {:induction false} SortedMerge(live: seq<Queue>, low: Key)
    requires QueuesSorted(live, low)
    ensures HeadsPlaced(live) && !Merge(live).raised
    ensures Sorted(Merge(live).given) && NoneBefore(Merge(live).given, low)
    decreases Size(live)
  {
    assert HeadsPlaced(live);
    hide Sorted, NoneBefore, Left;
    if |live| > 1 {
      var i := Least(live);
      var key := HeadKey(live[i]);
      LeftQueues(live, i);
      SortedTail(live[i], low);
      forall q: Queue | q in Left(live, i) ensures Sorted(q) && NoneBefore(q, key) {
        if q in live {
          SortedFrom(q, key);
        } else {
          TailAfter(live[i]);
        }
      }
      KeyNotBefore(live[i], low);
      SortedMerge(Left(live, i), key);
      SortedAfter(live[i][0], key, low, Merge(Left(live, i)).given);
      if |live[i]| > 1 {
        TailAfter(live[i]);
      }
    } else if live == [] {
      NothingSorted(low);
    }
  }

  /** When a record was sent, in ms; at 0 if that is not known. */
  function Sent(r: Record): int
  {
    if r.timestamp.None? || r.timestamp.value < 0 then 0 else r.timestamp.value
  }

  /** When a command was issued; data is not. */
  function Issued(r: Record): real
    requires SaysWhen(r)
  {
    if r.message.Some? && r.message.value.Command? then r.message.value.issuedAt.value else 0.0
  }

  /** A command says when it was issued. */
  predicate SaysWhen(r: Record)
  {
    r.message.Some? && r.message.value.Command? ==> r.message.value.issuedAt.Some?
  }

  /** Sending times never fall, and within one ms neither do issue times. */
  ghost predicate AscendsInTime(records: seq<Record>)
  {
    && (forall i :: 0 <= i < |records| ==> SaysWhen(records[i]))
    && (forall i, j :: 0 <= i < j < |records| ==> Sent(records[i]) <= Sent(records[j]))
    && (forall i, j :: 0 <= i < j < |records| && Sent(records[i]) == Sent(records[j]) ==>
          Issued(records[i]) <= Issued(records[j]))
  }

  lemma AscendsIsSorted(records: seq<Record>)
    ensures AscendsInTime(records) <==> Sorted(records)
  {
    hide Before;
    forall i | 0 <= i < |records| ensures records[i] in records && (SaysWhen(records[i]) <==> Placed(records[i])) {
    }
    forall i, j | 0 <= i < j < |records| && SaysWhen(records[i]) && SaysWhen(records[j])
      ensures Before(PlaceOf(records[j]), PlaceOf(records[i])) <==>
              Sent(records[j]) < Sent(records[i]) || (Sent(records[j]) == Sent(records[i]) && Issued(records[j]) < Issued(records[i]))
    {
      PlacesAreTimes(records[i], records[j]);
    }
  }

  lemma PlacesAreTimes(a: Record, b: Record)
    requires SaysWhen(a) && SaysWhen(b)
    ensures Placed(a) && Placed(b) && PlaceOf(a) == (Sent(a), Issued(a))
    ensures Before(PlaceOf(b), PlaceOf(a)) <==> Sent(b) < Sent(a) || (Sent(b) == Sent(a) && Issued(b) < Issued(a))
  {
  }

  /** When every topic's records ascend in time, so does the whole delivery; and
      nothing ends it but a key. */
  lemma SortedTopicsMergeSorted(live: seq<Queue>)
    requires forall q: Queue :: q in live ==> AscendsInTime(q)
    ensures AscendsInTime(Delivery(live).given)
    ensures !Delivery(live).raised <==> AllKeyed(live)
  {
    forall q: Queue | q in live ensures Sorted(q) && NoneBefore(q, (-1, 0.0)) {
      AscendsIsSorted(q);
      NoneBeforeTime(q);
    }
    hide Sorted, NoneBefore, AscendsInTime, Merge;
    SortedMerge(live, (-1, 0.0));
    RaisesExactly(live);
    AscendsIsSorted(Delivery(live).given);
    SortedStart(Merge(live).given, Keyed(Merge(live).given));
  }

  lemma SortedStart(records: seq<Record>, n: nat)
    requires Sorted(records) && n <= |records|
    ensures Sorted(records[..n])
  {
  }

  /** Nothing is sent before time 0. */
  lemma NoneBeforeTime(q: Queue)
    requires AscendsInTime(q)
    ensures NoneBefore(q, (-1, 0.0))
  {
    forall r | r in q ensures Placed(r) && !Before(PlaceOf(r), (-1, 0.0)) {
      var k :| 0 <= k < |q| && q[k] == r;
      PlacesAreTimes(r, r);
    }
  }

  lemma NothingSorted(low: Key)
    ensures Sorted([]) && NoneBefore([], low)
  {
  }

  lemma KeyNotBefore(q: Queue, low: Key)
    requires NoneBefore(q, low)
    ensures Placed(q[0]) && !Before(HeadKey(q), low)
  {
  }

  lemma TailAfter(q: Queue)
    requires Sorted(q) && |q| > 1
    ensures Placed(q[0]) && Placed(q[1]) && NoneBefore(q[1..], HeadKey(q)) && Sorted(q[1..])
  {
  }

  // ---------------------------------------------------------------- what is lost

  predicate QueuePlaced(q: Queue)
  {
    forall r :: r in q ==> Placed(r)
  }

  /** Every record has its place. */
  predicate AllPlaced(live: seq<Queue>)
  {
    forall q: Queue :: q in live ==> QueuePlaced(q)
  }

  lemma {:induction false} PlacedAreDelivered(live: seq<Queue>)
    requires AllPlaced(live)
    ensures HeadsPlaced(live) && !Merge(live).raised
    decreases Size(live)
  {
    if |live| > 1 {
      var i := Least(live);
      LeftQueues(live, i);
      assert QueuePlaced(live[i]);
      hide Left;
      PlacedAreDelivered(Left(live, i));
    }
  }

  /** A record sent after everything that has a place here. */
  ghost predicate SentAfter(live: seq<Queue>, late: Record)
  {
    Placed(late) &&
    forall q: Queue, r :: q in live && r in q && Placed(r) ==> Before(PlaceOf(r), PlaceOf(late))
  }

  lemma LeftBefore(live: seq<Queue>, late: Queue, j: nat)
    requires j < |live|
    ensures Left(live + [late], j) == Left(live, j) + [late]
  {
    assert (live + [late])[j + 1..] == live[j + 1..] + [late];
  }

  lemma UnplacedStays(live: seq<Queue>, j: nat)
    requires j < |live| && Placed(live[j][0]) && !AllPlaced(live)
    ensures !AllPlaced(Left(live, j))
  {
    LeftQueues(live, j);
    hide Left;
    var q: Queue :| q in live && !QueuePlaced(q);
    var i :| 0 <= i < |live| && live[i] == q;
    if i == j {
      var rest: Queue := live[j][1..];
      assert !QueuePlaced(rest);
    }
  }

  /** While one topic waits for its turn at the end, every other record is asked
      for its place. */
  lemma {:induction false} UnplacedAreAsked(live: seq<Queue>, late: Record)
    requires !AllPlaced(live) && SentAfter(live, late)
    ensures MergeAll(live + [[late]]).raised
    decreases Size(live)
  {
    var all: seq<Queue> := live + [[late]];
    if HeadsPlaced(all) {
      var j := Least(all);
      LateIsLast(live, late, j);
      if !(|live[j]| > 1 && !Placed(live[j][1])) {
        UnplacedStays(live, j);
        LeftBefore(live, [late], j);
        LeftQueues(live, j);
        LeftQueues(all, j);
        StillAfter(live, late, j);
        hide Left, SentAfter, AllPlaced;
        UnplacedAreAsked(Left(live, j), late);
      }
    }
  }

  lemma StillAfter(live: seq<Queue>, late: Record, j: nat)
    requires j < |live| && SentAfter(live, late)
    ensures SentAfter(Left(live, j), late)
  {
    LeftQueues(live, j);
    hide Left, SentOrder, Placed, PlaceOf;
    forall q: Queue, r | q in Left(live, j) && r in q && Placed(r) ensures Before(PlaceOf(r), PlaceOf(late)) {
      if q !in live {
        assert r in live[j] && live[j] in live;
      }
    }
  }

  lemma LateIsLast(live: seq<Queue>, late: Record, j: nat)
    requires live != [] && SentAfter(live, late) && HeadsPlaced(live + [[late]]) && j == Least(live + [[late]])
    ensures j < |live|
  {
    hide Least, SentOrder, PlaceOf, Placed, HeadsPlaced;
    var last: Queue, first := [late], live[0];
    assert (live + [last])[|live|] == last && (live + [last])[0] == first;
    assert first in live && first[0] in first;
    HeadPlaced(live + [last], first);
    HeadPlaced(live + [last], last);
    assert Before(HeadKey(first), HeadKey(last));
  }

  lemma HeadPlaced(live: seq<Queue>, q: Queue)
    requires HeadsPlaced(live) && q in live
    ensures Placed(q[0])
  {
  }

  /** Every record's key decodes. */
  predicate AllKeyed(live: seq<Queue>)
  {
    forall q: Queue, r :: q in live && r in q ==> r.keyed
  }

  /** What is merged was queued. */
  lemma {:induction false} MergedWasQueued(live: seq<Queue>, r: Record)
    requires HeadsPlaced(live) && r in Merge(live).given
    ensures exists q: Queue :: q in live && r in q
    decreases Size(live)
  {
    if |live| == 1 {
      assert r in live[0] && live[0] in live;
    } else {
      var i := Least(live);
      LeftQueues(live, i);
      hide Left, Least;
      if r == live[i][0] {
        assert r in live[i] && live[i] in live;
      } else {
        MergedWasQueued(Left(live, i), r);
        var q: Queue :| q in Left(live, i) && r in q;
        assert q in live || (r in live[i] && live[i] in live);
      }
    }
  }

  /** And a merge not cut short gives all that was queued. */
  lemma {:induction false} QueuedIsMerged(live: seq<Queue>, q: Queue, r: Record)
    requires HeadsPlaced(live) && !Merge(live).raised && q in live && r in q
    ensures r in Merge(live).given
    decreases Size(live)
  {
    if |live| > 1 {
      var i := Least(live);
      LeftQueues(live, i);
      hide Left, Least;
      var k :| 0 <= k < |live| && live[k] == q;
      if k != i {
        QueuedIsMerged(Left(live, i), q, r);
      } else if r != q[0] {
        assert r in q[1..];
        QueuedIsMerged(Left(live, i), q[1..], r);
      }
    }
  }

  /** A delivery is cut short by its merge, or by a key. */
  lemma RaisesExactly(live: seq<Queue>)
    ensures !Delivery(live).raised <==> !MergeAll(live).raised && AllKeyed(live)
  {
    if HeadsPlaced(live) && !Merge(live).raised {
      var given := Merge(live).given;
      var n := Keyed(given);
      if n < |given| {
        MergedWasQueued(live, given[n]);
      } else {
        forall q: Queue, r | q in live && r in q ensures r.keyed {
          QueuedIsMerged(live, q, r);
        }
      }
    }
    hide Merge;
  }

  /** A fetch is delivered whole, whatever topics are fetched with it, exactly
      when every command in it says when it was issued, and every key decodes. */
  lemma WholeExactlyWhenPlaced(live: seq<Queue>)
    ensures AllPlaced(live) && AllKeyed(live) <==>
            forall others: seq<Queue> :: AllPlaced(others) && AllKeyed(others) ==> !Delivery(live + others).raised
  {
    hide Delivery;
    if AllPlaced(live) && AllKeyed(live) {
      forall others: seq<Queue> | AllPlaced(others) && AllKeyed(others) ensures !Delivery(live + others).raised {
        PlacedAreDelivered(live + others);
        RaisesExactly(live + others);
      }
    } else if AllPlaced(live) {
      RaisesExactly(live);
      assert live + [] == live && AllPlaced([]) && AllKeyed([]);
    } else {
      var late := Latest(live);
      UnplacedAreAsked(live, late);
      var others: seq<Queue> := [[late]];
      assert QueuePlaced(others[0]);
      assert AllPlaced(others) && AllKeyed(others);
      RaisesExactly(live + others);
    }
  }

  lemma {:induction false} Latest(live: seq<Queue>) returns (late: Record)
    ensures SentAfter(live, late) && late.keyed
  {
    var most := 0;
    for i := 0 to |live|
      invariant forall k, r :: 0 <= k < i && r in live[k] && Placed(r) ==> PlaceOf(r).0 <= most
    {
      for j := 0 to |live[i]|
        invariant forall k, r :: 0 <= k < i && r in live[k] && Placed(r) ==> PlaceOf(r).0 <= most
        invariant forall k :: 0 <= k < j && Placed(live[i][k]) ==> PlaceOf(live[i][k]).0 <= most
      {
        if Placed(live[i][j]) && PlaceOf(live[i][j]).0 > most {
          most := PlaceOf(live[i][j]).0;
        }
      }
    }
    late := Record("", 0, Some(most + 1), Some(Data), true);
  }

  // ---------------------------------------------------------------- when a fetch is cut short

  /** Of two heads the first goes out before the second: it was sent earlier, or
      its topic comes first. */
  predicate GoesFirst(a: Key, i: nat, b: Key, k: nat)
  {
    Before(a, b) || (a == b && i < k)
  }

  lemma {:induction false} LeastGoesFirst(live: seq<Queue>)
    requires live != [] && HeadsPlaced(live)
    ensures var i := Least(live);
            forall k :: 0 <= k < |live| && k != i ==> GoesFirst(HeadKey(live[i]), i, HeadKey(live[k]), k)
  {
    if |live| > 1 {
      var front := live[..|live| - 1];
      assert live == front + [live[|live| - 1]];
      LeastGoesFirst(front);
      hide SentOrder;
      assert forall k :: 0 <= k < |front| ==> live[k] == front[k];
    }
  }

  /** A queue other than the one at `m` has nothing that comes after `key`. */
  ghost predicate DoneBefore(q: Queue, k: nat, key: Key, m: nat)
  {
    forall r :: r in q ==> Placed(r) && GoesFirst(PlaceOf(r), k, key, m)
  }

  /** The record at `h` in the queue at `m`, which all before it in the queue and
      itself have their places, goes out after everything in all other queues. */
  ghost predicate Outlasts(live: seq<Queue>, m: nat, h: nat)
  {
    && m < |live| && h < |live[m]|
    && (forall j :: 0 <= j <= h ==> Placed(live[m][j]))
    && (forall k :: 0 <= k < |live| && k != m ==> DoneBefore(live[k], k, PlaceOf(live[m][h]), m))
  }

  /** Where a queue stands once the one at `i` has lost its head. */
  function Shift(live: seq<Queue>, i: nat, k: nat): nat
    requires i < |live|
  {
    if |live[i]| == 1 && k > i then k - 1 else k
  }

  lemma ShiftAt(live: seq<Queue>, i: nat, k: nat)
    requires i < |live| && k < |live| && k != i
    ensures Shift(live, i, k) < |Left(live, i)| && Left(live, i)[Shift(live, i, k)] == live[k]
  {
    LeftAt(live, i);
    hide Left;
  }

  /** Each queue left was there before, or is the rest of the one that lost its
      head. */
  lemma ShiftFrom(live: seq<Queue>, i: nat, n: nat) returns (k: nat)
    requires i < |live| && n < |Left(live, i)|
    ensures k < |live| && Shift(live, i, k) == n
    ensures if k == i then |live[i]| > 1 && Left(live, i)[n] == live[i][1..] else Left(live, i)[n] == live[k]
  {
    LeftAt(live, i);
    hide Left;
    k := if |live[i]| == 1 && n >= i then n + 1 else n;
  }

  lemma ShiftGoesFirst(live: seq<Queue>, i: nat, a: Key, k: nat, b: Key, m: nat)
    requires i < |live| && k != m && (|live[i]| == 1 ==> k != i && m != i)
    ensures GoesFirst(a, k, b, m) <==> GoesFirst(a, Shift(live, i, k), b, Shift(live, i, m))
  {
  }

  /** The next head out is not what outlasts the others, and has a successor
      with a place, or none. */
  lemma OutlastsNext(live: seq<Queue>, m: nat, h: nat)
    requires HeadsPlaced(live) && |live| > 1 && Outlasts(live, m, h)
    ensures var i := Least(live);
            && (|live[i]| > 1 ==> Placed(live[i][1]))
            && (i == m ==> h > 0)
  {
    var i := Least(live);
    LeastGoesFirst(live);
    hide Least, SentOrder, HeadsPlaced;
    var other := if m == 0 then 1 else 0;
    assert DoneBefore(live[other], other, PlaceOf(live[m][h]), m) && live[other][0] in live[other];
    if i != m {
      assert DoneBefore(live[i], i, PlaceOf(live[m][h]), m);
    } else {
      assert GoesFirst(HeadKey(live[i]), i, HeadKey(live[other]), other);
    }
  }

  /** The record that outlasts the other topics still does so after a step. */
  lemma OutlastsOn(live: seq<Queue>, i: nat, m: nat, h: nat)
    requires i < |live| && Outlasts(live, m, h) && (i == m ==> h > 0)
    ensures Outlasts(Left(live, i), Shift(live, i, m), if i == m then h - 1 else h)
  {
    var left, n, g := Left(live, i), Shift(live, i, m), if i == m then h - 1 else h;
    var key := PlaceOf(live[m][h]);
    hide SentOrder;
    if i == m {
      LeftAt(live, i);
    } else {
      ShiftAt(live, i, m);
    }
    assert n < |left| && g < |left[n]| && left[n][g] == live[m][h];
    hide Left;
    forall k | 0 <= k < |left| && k != n ensures DoneBefore(left[k], k, key, n) {
      var was := ShiftFrom(live, i, k);
      hide DoneBefore;
      DoneStill(live, i, was, m, key);
    }
  }

  /** What a queue had to go out before `key`, it still has after a step. */
  lemma DoneStill(live: seq<Queue>, i: nat, k: nat, m: nat, key: Key)
    requires i < |live| && k < |live| && m < |live| && k != m && Shift(live, i, k) < |Left(live, i)|
    requires |live[i]| == 1 ==> k != i && m != i
    requires if k == i then Left(live, i)[Shift(live, i, k)] == live[i][1..] else Left(live, i)[Shift(live, i, k)] == live[k]
    requires DoneBefore(live[k], k, key, m)
    ensures DoneBefore(Left(live, i)[Shift(live, i, k)], Shift(live, i, k), key, Shift(live, i, m))
  {
    var q := Left(live, i)[Shift(live, i, k)];
    hide Left;
    forall r | r in q ensures Placed(r) && GoesFirst(PlaceOf(r), Shift(live, i, k), key, Shift(live, i, m)) {
      assert r in live[k];
      ShiftGoesFirst(live, i, PlaceOf(r), k, key, m);
    }
  }

  lemma {:induction false} OutlastingIsWhole(live: seq<Queue>, m: nat, h: nat)
    requires HeadsPlaced(live) && Outlasts(live, m, h)
    ensures !Merge(live).raised
    decreases Size(live)
  {
    if |live| > 1 {
      var i := Least(live);
      OutlastsNext(live, m, h);
      OutlastsOn(live, i, m, h);
      LeftQueues(live, i);
      hide Outlasts, Left, Least;
      OutlastingIsWhole(Left(live, i), Shift(live, i, m), if i == m then h - 1 else h);
    }
  }

  /** What a queue had to go out before `key` after a step, it had before it,
      but for the head that went out. */
  lemma DoneEarlier(live: seq<Queue>, i: nat, k: nat, m: nat, key: Key)
    requires i < |live| && k < |live| && m < |live| && k != m && k != i && (|live[i]| == 1 ==> m != i)
    requires Shift(live, i, k) < |Left(live, i)| && Left(live, i)[Shift(live, i, k)] == live[k]
    requires DoneBefore(Left(live, i)[Shift(live, i, k)], Shift(live, i, k), key, Shift(live, i, m))
    ensures DoneBefore(live[k], k, key, m)
  {
    hide Left;
    forall r | r in live[k] ensures Placed(r) && GoesFirst(PlaceOf(r), k, key, m) {
      ShiftGoesFirst(live, i, PlaceOf(r), k, key, m);
    }
  }

  /** What goes out before a key goes out before every later one. */
  lemma DoneBeforeLater(q: Queue, k: nat, key: Key, m: nat, later: Key)
    requires DoneBefore(q, k, key, m) && (key == later || Before(key, later))
    ensures DoneBefore(q, k, later, m)
  {
  }

  /** Everything but the head that goes out next is done before the key at
      `g`, in what is left. */
  lemma RestDone(live: seq<Queue>, i: nat, m: nat, g: nat)
    requires i < |live| && m < |live| && (i == m ==> |live[i]| > 1)
    requires Outlasts(Left(live, i), Shift(live, i, m), g)
    requires Left(live, i)[Shift(live, i, m)] == if i == m then live[i][1..] else live[m]
    ensures var key := PlaceOf(Left(live, i)[Shift(live, i, m)][g]);
            && (forall k :: 0 <= k < |live| && k != i && k != m ==> DoneBefore(live[k], k, key, m))
            && (i != m && |live[i]| > 1 ==> DoneBefore(live[i][1..], i, key, m))
  {
    var key := PlaceOf(Left(live, i)[Shift(live, i, m)][g]);
    forall k | 0 <= k < |live| && k != i && k != m ensures DoneBefore(live[k], k, key, m) {
      ShiftAt(live, i, k);
      DoneEarlier(live, i, k, m, key);
    }
    if i != m && |live[i]| > 1 {
      LeftAt(live, i);
      assert Left(live, i)[i] == live[i][1..] && Shift(live, i, m) == m;
    }
  }

  /** The topic whose head went out has the record that outlasts the others. */
  lemma FromOwn(live: seq<Queue>, m: nat, g: nat)
    requires m < |live| && Placed(live[m][0]) && |live[m]| > 1
    requires Outlasts(Left(live, m), m, g) && Left(live, m)[m] == live[m][1..]
    ensures Outlasts(live, m, g + 1)
  {
    RestDone(live, m, m, g);
    hide Left, SentOrder, DoneBefore;
    assert live[m][1..][g] == live[m][g + 1];
    assert forall j :: 0 < j <= g + 1 ==> live[m][j] == live[m][1..][j - 1];
  }

  /** Another topic has it: that record, or else the topic's head, outlasts the
      head that went out too. */
  lemma FromOther(live: seq<Queue>, i: nat, m: nat, g: nat) returns (h: nat)
    requires i < |live| && m < |live| && i != m && Placed(live[i][0]) && Placed(live[m][0])
    requires GoesFirst(HeadKey(live[i]), i, HeadKey(live[m]), m)
    requires Outlasts(Left(live, i), Shift(live, i, m), g) && Left(live, i)[Shift(live, i, m)] == live[m]
    ensures Outlasts(live, m, h)
  {
    RestDone(live, i, m, g);
    assert forall j :: 0 <= j <= g ==> Placed(live[m][j]);
    hide Outlasts, Left, SentOrder, DoneBefore;
    var key := PlaceOf(live[m][g]);
    h := if GoesFirst(HeadKey(live[i]), i, key, m) then g else 0;
    var at := PlaceOf(live[m][h]);
    Later(HeadKey(live[i]), i, key, HeadKey(live[m]), m);
    hide GoesFirst, Before;
    forall k | 0 <= k < |live| && k != m ensures DoneBefore(live[k], k, at, m) {
      if k != i {
        DoneBeforeLater(live[k], k, key, m, at);
      } else {
        if |live[i]| > 1 { DoneBeforeLater(live[i][1..], i, key, m, at); }
        HeadDone(live[i], i, at, m);
      }
    }
    OutlastsIf(live, m, h);
  }

  /** What does not come after the next head out comes before the others. */
  lemma Later(next: Key, i: nat, key: Key, first: Key, m: nat)
    requires i != m && GoesFirst(next, i, first, m)
    ensures !GoesFirst(next, i, key, m) ==> key == first || Before(key, first)
  {
  }

  lemma OutlastsIf(live: seq<Queue>, m: nat, h: nat)
    requires m < |live| && h < |live[m]| && forall j :: 0 <= j <= h ==> Placed(live[m][j])
    requires forall k :: 0 <= k < |live| && k != m ==> DoneBefore(live[k], k, PlaceOf(live[m][h]), m)
    ensures Outlasts(live, m, h)
  {
  }

  lemma HeadDone(q: Queue, k: nat, key: Key, m: nat)
    requires Placed(q[0]) && GoesFirst(HeadKey(q), k, key, m)
    requires |q| > 1 ==> DoneBefore(q[1..], k, key, m)
    ensures DoneBefore(q, k, key, m)
  {
    forall r | r in q ensures Placed(r) && GoesFirst(PlaceOf(r), k, key, m) {
      if r != q[0] { assert r in q[1..]; }
    }
  }

  lemma WholeStep(live: seq<Queue>)
    requires |live| > 1 && HeadsPlaced(live) && !Merge(live).raised
    ensures var left := Left(live, Least(live)); left != [] && HeadsPlaced(left) && !Merge(left).raised
  {
    var i := Least(live);
    LeftQueues(live, i);
    var other := if i == 0 then 1 else 0;
    assert live[other] in Left(live, i);
  }

  lemma {:induction false} WholeIsOutlasting(live: seq<Queue>) returns (m: nat, h: nat)
    requires live != [] && HeadsPlaced(live) && !Merge(live).raised
    ensures Outlasts(live, m, h)
    decreases Size(live)
  {
    if |live| == 1 {
      m, h := 0, 0;
    } else {
      var i := Least(live);
      WholeStep(live);
      LeastGoesFirst(live);
      hide Outlasts, Left, Merge;
      var n, g := WholeIsOutlasting(Left(live, i));
      OutlasterPlaced(Left(live, i), n, g);
      m := ShiftFrom(live, i, n);
      if m == i {
        h := g + 1;
        FromOwn(live, m, g);
      } else {
        h := FromOther(live, i, m, g);
      }
    }
  }

  lemma OutlasterPlaced(live: seq<Queue>, m: nat, h: nat)
    requires Outlasts(live, m, h)
    ensures m < |live| && h < |live[m]| && Placed(live[m][h])
  {
  }

  lemma OutlastsIn(live: seq<Queue>, m: nat, h: nat)
    requires Outlasts(live, m, h)
    ensures m < |live| && HeadsPlaced(live)
  {
    forall q: Queue | q in live ensures Placed(q[0]) {
      var k :| 0 <= k < |live| && live[k] == q;
      if k != m { assert DoneBefore(live[k], k, PlaceOf(live[m][h]), m); }
    }
  }

  lemma MergedExactly(live: seq<Queue>)
    ensures !MergeAll(live).raised <==> live == [] || exists m, h :: Outlasts(live, m, h)
  {
    if live != [] && !MergeAll(live).raised {
      var m, h := WholeIsOutlasting(live);
    }
    if m, h :| Outlasts(live, m, h) {
      OutlastsIn(live, m, h);
      OutlastingIsWhole(live, m, h);
    }
  }

  /** Exactly when a fetch goes out whole: every key decodes, and some topic has
      a record, with its place and all before it in the topic with theirs, that
      goes out after everything in all other topics, all of which has its place.
      What that topic holds after the record is never asked for its place. */
  lemma WholeExactlyWhenOutlasting(live: seq<Queue>)
    ensures !Delivery(live).raised <==> AllKeyed(live) && (live == [] || exists m, h :: Outlasts(live, m, h))
  {
    RaisesExactly(live);
    MergedExactly(live);
  }
}
