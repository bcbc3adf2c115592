/** The consuming half of the Kafka transport, as an object: what it resumes
    from, what it assigns, and what it delivers of a fetch. */
module KafkaTransports {
  import opened Keys
  import opened FetchMerge
  import TopicOffsets

  /** One topic's part of a fetch. */
  datatype Batch = Batch(topic: string, records: seq<Record>)

  /** What is merged: of each known topic, what decodes, if anything does. */
  function Queues(known: set<string>, batches: seq<Batch>): (live: seq<Queue>)
  {
    if batches == [] then [] else
      var last := batches[|batches| - 1];
      Queues(known, batches[..|batches| - 1])
      + if last.topic in known && Decoded(last.records) != [] then [Decoded(last.records)] else []
  }

  /** Where topics are resumed after a fetch: a topic that is, and of which
      anything came, decodable or not, goes on after the last of it. */
  function Resumed(resumeAt: map<string, int>, known: set<string>, batches: seq<Batch>): (r: map<string, int>)
    ensures r.Keys == resumeAt.Keys
  {
    if batches == [] then resumeAt else
      var last := batches[|batches| - 1];
      var before := Resumed(resumeAt, known, batches[..|batches| - 1]);
      if last.topic in known && last.records != [] && last.topic in before
      then before[last.topic := last.records[|last.records| - 1].offset + 1] else before
  }

  /** A fetch as the broker gives it: a batch for each topic, of its records. */
  ghost predicate Proper(batches: seq<Batch>)
  {
    && (forall i, k :: 0 <= i < |batches| && 0 <= k < |batches[i].records| ==>
          batches[i].records[k].topic == batches[i].topic)
    && (forall i, j :: 0 <= i < j < |batches| ==> batches[i].topic != batches[j].topic)
  }

  lemma {:induction false} QueuesByTopic(known: set<string>, batches: seq<Batch>)
    requires Proper(batches)
    ensures ByTopic(Queues(known, batches))
    ensures forall q: Queue :: q in Queues(known, batches) ==> exists i :: 0 <= i < |batches| && q[0].topic == batches[i].topic
  {
    if batches != [] {
      var front, last := batches[..|batches| - 1], batches[|batches| - 1];
      QueuesByTopic(known, front);
      var live := Queues(known, front);
      forall q: Queue | q in live ensures q[0].topic != last.topic && exists i :: 0 <= i < |batches| && q[0].topic == batches[i].topic {
        var i :| 0 <= i < |front| && q[0].topic == front[i].topic;
        assert front[i] == batches[i];
      }
      forall k | 0 <= k < |Decoded(last.records)| ensures Decoded(last.records)[k].topic == last.topic {
        var j :| 0 <= j < |last.records| && last.records[j] == Decoded(last.records)[k];
      }
    }
  }

  /** The decodable records of one topic in a fetch, in order. */
  function Wanted(known: set<string>, batches: seq<Batch>, topic: string): seq<Record>
  {
    if batches == [] then [] else
      var last := batches[|batches| - 1];
      Wanted(known, batches[..|batches| - 1], topic)
      + if last.topic in known && last.topic == topic then Decoded(last.records) else []
  }

  lemma {:induction false} DecodedOf(records: seq<Record>, topic: string, other: string)
    requires forall k :: 0 <= k < |records| ==> records[k].topic == topic
    ensures Of(Decoded(records), other) == if topic == other then Decoded(records) else []
  {
    forall k | 0 <= k < |Decoded(records)| ensures Decoded(records)[k].topic == topic {
      var j :| 0 <= j < |records| && records[j] == Decoded(records)[k];
    }
    OfOwn(Decoded(records), other);
  }

  lemma {:induction false} QueuesHold(known: set<string>, batches: seq<Batch>, topic: string)
    requires Proper(batches)
    ensures Of(Flat(Queues(known, batches)), topic) == Wanted(known, batches, topic)
  {
    if batches == [] {
      FlatSmall([BLANK]);
    } else {
      hide Of, Flat, Decoded;
      var front, last := batches[..|batches| - 1], batches[|batches| - 1];
      QueuesHold(known, front, topic);
      DecodedOf(last.records, last.topic, topic);
      if last.topic in known && Decoded(last.records) != [] {
        FlatJoin(Queues(known, front), [Decoded(last.records)]);
        FlatSmall(Decoded(last.records));
        OfAppend(Flat(Queues(known, front)), Decoded(last.records), topic);
      } else {
        assert Queues(known, front) + [] == Queues(known, front);
        assert Wanted(known, front, topic) + [] == Wanted(known, front, topic);
      }
    }
  }

  /** A merge that gives one record and ends there. */
  lemma OutgoingOne(head: Record)
    ensures Outgoing(Merging([head], true)) == Merging(if head.keyed then [head] else [], true)
  {
    assert [head][1..] == [];
  }

  lemma OutgoingNone()
    ensures forall raised :: Outgoing(Merging([], raised)) == Merging([], raised)
  {
  }

  class KafkaConsumer {
    /** Topics with a model, and those of them that are control topics. */
    var models: set<string>
    var control: set<string>
    var resumeAt: map<string, int>
    var unassigned: set<string>
    /** What the open consumer holds: each topic's next offset. */
    var positions: map<string, int>
    var ready: set<string>
    var delivered: seq<Record>

    constructor ()
      ensures models == {} && control == {} && resumeAt == map[] && unassigned == {} && positions == map[] && ready == {}
      ensures delivered == []
    {
      models, control, resumeAt, unassigned, positions, ready, delivered := {}, {}, map[], {}, map[], {}, [];
    }

    /** Delivers one fetch. Every place is put on record before anything goes
        out, so a delivery that fails is not read again. */
    method Decode(batches: seq<Batch>) returns (raised: bool)
      modifies `resumeAt, `delivered
      ensures resumeAt == Resumed(old(resumeAt), models, batches)
      ensures delivered == old(delivered) + Delivery(Queues(models, batches)).given
      ensures raised == Delivery(Queues(models, batches)).raised
    {
      hide Decoded, Outgoing, Merge, SentOrder;
      var live: seq<Queue> := [];
      var i := 0;
      while i < |batches|
        invariant i <= |batches| && live == Queues(models, batches[..i])
        invariant resumeAt == Resumed(old(resumeAt), models, batches[..i]) && delivered == old(delivered)
      {
        var batch := batches[i];
        assert batches[..i + 1][..i] == batches[..i];
        i := i + 1;
        if batch.topic in models {
          var received := Received(batch.records);
          if received != [] {
            live := live + [received];
          }
          if batch.records != [] && batch.topic in resumeAt {
            resumeAt := resumeAt[batch.topic := batch.records[|batch.records| - 1].offset + 1];
          }
        }
      }
      assert batches[..i] == batches;
      OutgoingNone();
      if !HeadsPlaced(live) {
        return true;
      }
      raised := Deliver(live);
    }

    /** The records of one topic that decode. */
    method Received(records: seq<Record>) returns (received: seq<Record>)
      ensures received == Decoded(records)
    {
      received := [];
      var i := 0;
      while i < |records|
        invariant i <= |records| && received == Decoded(records[..i])
      {
        assert records[..i + 1][..i] == records[..i];
        if records[i].message.Some? {
          received := received + [records[i]];
        }
        i := i + 1;
      }
      assert records[..i] == records;
    }

    /** Delivers queues by their heads, the least first, until a key does not
        decode or a place is missing. */
    method Deliver(queues: seq<Queue>) returns (raised: bool)
      requires HeadsPlaced(queues)
      modifies `delivered
      ensures delivered == old(delivered) + Outgoing(Merge(queues)).given && raised == Outgoing(Merge(queues)).raised
    {
      hide Least, Left, SentOrder, Outgoing;
      ghost var whole := Outgoing(Merge(queues));
      var live := queues;
      while |live| > 1
        invariant HeadsPlaced(live)
        invariant delivered + Outgoing(Merge(live)).given == old(delivered) + whole.given
        invariant Outgoing(Merge(live)).raised == whole.raised
        decreases Size(live)
      {
        var i := Least(live);
        var head := live[i][0];
        if |live[i]| > 1 && !Placed(live[i][1]) {
          OutgoingOne(head);
          raised := DeliverOne(head);
          return true;
        }
        LeftQueues(live, i);
        OutgoingNext(head, Merge(Left(live, i)));
        var failed := DeliverOne(head);
        if failed {
          return true;
        }
        live := Left(live, i);
      }
      if |live| == 1 {
        raised := DeliverLast(live[0]);
      } else {
        OutgoingNone();
        raised := false;
      }
    }

    /** A record goes out under its key, if that decodes. */
    method DeliverOne(record: Record) returns (failed: bool)
      modifies `delivered
      ensures failed == !record.keyed && delivered == old(delivered) + if record.keyed then [record] else []
    {
      if !record.keyed {
        return true;
      }
      delivered := delivered + [record];
      failed := false;
    }

    /** The last queue left, as it is. */
    method DeliverLast(queue: seq<Record>) returns (raised: bool)
      modifies `delivered
      ensures delivered == old(delivered) + Outgoing(Merging(queue, false)).given
      ensures raised == Outgoing(Merging(queue, false)).raised
    {
      var i := 0;
      while i < |queue|
        invariant i <= |queue| && i <= Keyed(queue) && delivered == old(delivered) + queue[..i]
      {
        var failed := DeliverOne(queue[i]);
        if failed {
          return true;
        }
        assert queue[..i + 1] == queue[..i] + [queue[i]];
        i := i + 1;
      }
      assert queue[..i] == queue;
      raised := false;
    }

    /** A fresh consumer holds nothing: every topic listened to is to be assigned. */
    method Opened()
      modifies `unassigned, `positions
      ensures unassigned == old(unassigned) + ready && positions == map[]
    {
      unassigned := unassigned + ready;
      positions := map[];
    }

    /** Adds the topics listened to: those held keep their place, a topic that
        is resumed goes on where it was, and any other is read from its end,
        which is where a control topic is resumed from then on. `starts` and
        `ends` are what the broker answers. */
    method Assign(starts: map<string, int>, ends: map<string, int>)
      requires unassigned <= starts.Keys && unassigned <= ends.Keys
      modifies `unassigned, `positions, `resumeAt
      ensures unassigned == {} && positions.Keys == old(positions.Keys) + old(unassigned)
      ensures forall t :: t in old(positions) ==> positions[t] == old(positions[t])
      ensures forall t :: t in old(unassigned) && t !in old(positions) ==>
                positions[t] == if t in old(resumeAt) then TopicOffsets.ResumeFrom(old(resumeAt[t]), starts[t], ends[t]) else ends[t]
      ensures forall t :: t in resumeAt <==> t in old(resumeAt) || (t in old(unassigned) && t !in old(positions) && t in control)
      ensures forall t :: t in resumeAt ==> resumeAt[t] == if t in old(resumeAt) then old(resumeAt[t]) else ends[t]
    {
      var added := unassigned;
      unassigned := {};
      var left := added;
      while left != {}
        invariant left <= added && unassigned == {}
        invariant positions.Keys == old(positions.Keys) + (added - left)
        invariant forall t :: t in old(positions) ==> positions[t] == old(positions[t])
        invariant forall t :: t in added - left && t !in old(positions) ==>
          positions[t] == if t in old(resumeAt) then TopicOffsets.ResumeFrom(old(resumeAt[t]), starts[t], ends[t]) else ends[t]
        invariant forall t :: t in resumeAt <==> t in old(resumeAt) || (t in added - left && t !in old(positions) && t in control)
        invariant forall t :: t in resumeAt ==> resumeAt[t] == if t in old(resumeAt) then old(resumeAt[t]) else ends[t]
        decreases left
      {
        var topic :| topic in left;
        left := left - {topic};
        if topic !in positions {
          if topic in resumeAt {
            var offset := resumeAt[topic];
            positions := positions[topic := if starts[topic] <= offset <= ends[topic] then offset else starts[topic]];
          } else {
            positions := positions[topic := ends[topic]];
            if topic in control {
              resumeAt := resumeAt[topic := ends[topic]];
            }
          }
        }
      }
    }
  }

  // ---------------------------------------------------------------- what a fetch promises

  /** A fetch delivers, of each topic, what decodes, once, in the topic's own
      order: all of it, or the start of it if a command had no issue time or a key
      did not decode. */
  lemma FetchKeepsEachTopic(known: set<string>, batches: seq<Batch>, topic: string)
    requires Proper(batches)
    ensures var m := Delivery(Queues(known, batches));
            && Of(m.given, topic) <= Wanted(known, batches, topic)
            && (!m.raised ==> Of(m.given, topic) == Wanted(known, batches, topic))
  {
    QueuesByTopic(known, batches);
    QueuesHold(known, batches, topic);
    EachInItsOrder(Queues(known, batches), topic);
  }

  /** After a fetch a topic that is resumed goes on after the last of its records,
      whether those decoded or were delivered or not; a topic of which nothing
      came, or which is not resumed, or not known, stays as it was. */
  lemma {:induction false} ResumesAfterTheLast(resumeAt: map<string, int>, known: set<string>, batches: seq<Batch>, topic: string)
    requires Proper(batches)
    ensures var r := Resumed(resumeAt, known, batches);
            && (topic in r <==> topic in resumeAt)
            && forall i :: 0 <= i < |batches| && batches[i].topic == topic && topic in r ==>
                 r[topic] == if topic in known && batches[i].records != []
                             then batches[i].records[|batches[i].records| - 1].offset + 1 else resumeAt[topic]
    ensures topic in resumeAt && (forall i :: 0 <= i < |batches| ==> batches[i].topic != topic) ==>
              Resumed(resumeAt, known, batches)[topic] == resumeAt[topic]
  {
    if batches != [] {
      var front := batches[..|batches| - 1];
      ResumesAfterTheLast(resumeAt, known, front, topic);
      assert forall i :: 0 <= i < |front| ==> front[i] == batches[i];
    }
  }

  /** One command without an issue time, first of its topic, loses the fetch:
      nothing of either topic is delivered, and neither is read again. */
  lemma OneCommandLosesAFetch()
    ensures var lost := Record("play", 7, Some(100), Some(Command(None)), true);
            var good := Record("pause", 4, Some(90), Some(Command(Some(0.1))), true);
            var batches := [Batch("pause", [good]), Batch("play", [lost])];
            && Delivery(Queues({"play", "pause"}, batches)).given == []
            && Resumed(map["play" := 7, "pause" := 4], {"play", "pause"}, batches) == map["play" := 8, "pause" := 5]
  {
    var lost := Record("play", 7, Some(100), Some(Command(None)), true);
    var good := Record("pause", 4, Some(90), Some(Command(Some(0.1))), true);
    var batches := [Batch("pause", [good]), Batch("play", [lost])];
    var known := {"play", "pause"};
    assert batches[..1] == [batches[0]] && batches[..1][..0] == [];
    DecodedOne(lost);
    DecodedOne(good);
    hide Decoded;
    var unplaced: Queue, placed: Queue := [lost], [good];
    assert Queues(known, batches[..1][..0]) == [];
    assert Queues(known, batches[..1]) == [placed];
    assert Queues(known, batches) == [placed, unplaced];
    assert [placed, unplaced][1] == unplaced && !Placed(unplaced[0]);
  }

  /** A record whose message decodes, but whose key does not, is not delivered,
      though it is all there is to deliver; nor is it read again. */
  lemma OneKeyLosesAFetch()
    ensures var lost := Record("play", 7, Some(100), Some(Data), false);
            var batches := [Batch("play", [lost])];
            && Delivery(Queues({"play"}, batches)) == Merging([], true)
            && Resumed(map["play" := 7], {"play"}, batches) == map["play" := 8]
  {
    var lost := Record("play", 7, Some(100), Some(Data), false);
    var batches := [Batch("play", [lost])];
    DecodedOne(lost);
    var only: Queue := [lost];
    assert batches[..0] == [] && Queues({"play"}, batches) == [only];
    assert Merge([only]) == Merging(only, false);
  }

  lemma DecodedOne(r: Record)
    requires r.message.Some?
    ensures Decoded([r]) == [r]
  {
    assert [r][..0] == [] && Decoded([]) == [];
  }
}
