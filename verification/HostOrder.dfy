/** One instance, over its whole life: its inputs are processed stream by
    stream, with a reset between streams, and each call's outputs go out under
    the key its input came with. */
module HostOrder {
  import opened Keys
  import opened Wire
  import opened Subscriptions
  import opened Hosts

  /** What can happen to a slot, and what is logged of it. */
  datatype Happening = Arrives(channel: Channel, message: Message) | Acts(act: Act)

  datatype Entry = Processed(stream: int, input: Message) | WasReset

  /** A message reaches a slot only under its run and run id. */
  predicate ForSlot(s: Slot, x: Happening)
  {
    x.Arrives? ==> x.message.key.run == s.run && x.message.key.runId == s.runId
  }

  function Happens(s: Slot, x: Happening, limit: nat): Slot
  {
    match x
    case Arrives(channel, m) => Receive(s, channel, m, limit)
    case Acts(act) => Serve(s, act)
  }

  function Logged(s: Slot, x: Happening): seq<Entry>
  {
    if x.Acts? && x.act.Begin? && s.alive && s.call.Taken? && !s.call.resetting then [Processed(s.call.key.stream, s.call.input)]
    else if x.Acts? && x.act.ResetEnds? && s.alive && s.call.Taken? && s.call.resetting then [WasReset]
    else []
  }

  /** A slot's life: from its building, with what is not for it left out. */
  function Life(key: StreamKey, limit: nat, xs: seq<Happening>): (Slot, seq<Entry>)
  {
    if xs == [] then (NewSlot(key), []) else
      var (s, log) := Life(key, limit, xs[..|xs| - 1]);
      var x := xs[|xs| - 1];
      if ForSlot(s, x) then (Happens(s, x, limit), log + Logged(s, x)) else (s, log)
  }

  // ---------------------------------------------------------------- invariant

  ghost predicate Keyed(s: Slot)
  {
    && s.key == StreamKey(s.run, s.runId, s.stream)
    && (forall m :: m in s.inputs ==> m.key == s.key)
    && (!s.call.Idle? ==> s.call.input.key == s.call.key && s.call.key.stream <= s.stream
                          && s.call.key.run == s.run && s.call.key.runId == s.runId)
    && (!s.call.Idle? && s.call.key.stream < s.stream ==> s.resetDue)
  }

  /** The stream the next entry is to be processed in. */
  function Current(s: Slot): int
  {
    if s.call.Idle? then s.stream else s.call.key.stream
  }

  predicate ResetPending(s: Slot)
  {
    if s.call.Idle? then s.resetDue else s.call.Taken? && s.call.resetting
  }

  ghost predicate NoResetFrom(log: seq<Entry>, i: nat)
  {
    forall j :: i < j < |log| ==> log[j] != WasReset
  }

  ghost predicate Ordered(s: Slot, log: seq<Entry>)
  {
    && (forall i :: 0 <= i < |log| && log[i].Processed? ==> log[i].stream <= Current(s) && log[i].stream == log[i].input.key.stream)
    && (!ResetPending(s) ==> forall i :: 0 <= i < |log| && log[i].Processed? && NoResetFrom(log, i) ==> log[i].stream == Current(s))
    && (forall i, j :: 0 <= i < j < |log| && log[i].Processed? && log[j].Processed? ==> log[i].stream <= log[j].stream)
    && (forall i, j :: 0 <= i < j < |log| && log[i].Processed? && log[j].Processed? && log[i].stream < log[j].stream ==>
          exists k :: i < k < j && log[k] == WasReset)
  }

  /** What an arrival can do to a slot. */
  lemma ArrivalMoves(s: Slot, channel: Channel, m: Message, limit: nat)
    requires m.key.run == s.run && m.key.runId == s.runId && s.key == StreamKey(s.run, s.runId, s.stream)
    ensures var t := Receive(s, channel, m, limit);
            && t.call == s.call && t.run == s.run && t.runId == s.runId
            && t.key == StreamKey(t.run, t.runId, t.stream) && t.stream >= s.stream
            && (if t.stream > s.stream then t.resetDue else t.resetDue == s.resetDue)
            && ((t.inputs == s.inputs && t.stream == s.stream)
                || (t.inputs == [] && t.stream == m.key.stream)
                || (t.inputs == Offered(if m.key.stream > s.stream then [] else s.inputs, limit, m) && t.stream == m.key.stream))
  {
    if channel == Commands || m.key.stream < s.stream {
      ArrivalIgnored(s, channel, m, limit);
    } else {
      ArrivalTaken(s, channel, m, limit);
    }
    hide Receive;
  }

  lemma ArrivalIgnored(s: Slot, channel: Channel, m: Message, limit: nat)
    requires channel == Commands || m.key.stream < s.stream
    ensures var t := Receive(s, channel, m, limit); t == s.(commands := t.commands)
  {
    hide Offered, NewStream;
  }

  lemma ArrivalTaken(s: Slot, channel: Channel, m: Message, limit: nat)
    requires channel != Commands && m.key.stream >= s.stream
    ensures var t := Receive(s, channel, m, limit);
            var u := if m.key.stream > s.stream then NewStream(s, m.key) else s;
            && t == u.(join := t.join, inputs := t.inputs)
            && t.inputs == (if channel == Join then u.inputs else Offered(u.inputs, limit, m))
            && u.call == s.call && u.run == s.run && u.runId == s.runId && u.stream == m.key.stream
            && u.key == (if m.key.stream > s.stream then m.key else s.key)
            && u.inputs == (if m.key.stream > s.stream then [] else s.inputs)
            && u.resetDue == (m.key.stream > s.stream || s.resetDue)
  {
    hide Offered;
  }

  lemma ActKeyed(s: Slot, act: Act)
    requires Keyed(s)
    ensures Keyed(Serve(s, act))
  {
  }

  lemma HappensKeyed(s: Slot, x: Happening, limit: nat)
    requires Keyed(s) && ForSlot(s, x)
    ensures Keyed(Happens(s, x, limit))
  {
    match x
    case Arrives(channel, m) =>
      ArrivalMoves(s, channel, m, limit);
      OfferedHolds(if m.key.stream > s.stream then [] else s.inputs, limit, m);
    case Acts(act) => ActKeyed(s, act);
  }

  lemma QuietOrdered(s: Slot, log: seq<Entry>, t: Slot)
    requires Ordered(s, log) && Current(s) <= Current(t)
    requires ResetPending(t) || (!ResetPending(s) && Current(s) == Current(t))
    ensures Ordered(t, log)
  {
  }

  lemma ResetBetween(log: seq<Entry>, i: nat) returns (k: nat)
    requires i < |log| && !NoResetFrom(log, i)
    ensures i < k < |log| && log[k] == WasReset
  {
    k :| i < k < |log| && log[k] == WasReset;
  }

  /** What was processed since the last reset was of the entry's stream. */
  lemma ProcessedLast(s: Slot, log: seq<Entry>, e: Entry)
    requires Ordered(s, log) && e.Processed? && e.stream == Current(s) && !ResetPending(s)
    ensures forall i :: 0 <= i < |log| && log[i].Processed? && NoResetFrom(log + [e], i) ==> log[i].stream == e.stream
    ensures forall i :: 0 <= i < |log| && log[i].Processed? && log[i].stream < e.stream ==> !NoResetFrom(log, i)
  {
    forall i | 0 <= i < |log| && log[i].Processed? && NoResetFrom(log + [e], i) ensures log[i].stream == e.stream {
      assert forall j :: i < j < |log| ==> (log + [e])[j] == log[j];
      assert NoResetFrom(log, i);
    }
  }

  lemma ProcessedOrdered(s: Slot, log: seq<Entry>, e: Entry, t: Slot)
    requires Ordered(s, log) && e.Processed? && e.stream == Current(s) == Current(t) && !ResetPending(s)
    requires e.stream == e.input.key.stream
    ensures Ordered(t, log + [e])
  {
    var l := log + [e];
    assert forall i :: 0 <= i < |log| ==> l[i] == log[i];
    ProcessedLast(s, log, e);
    hide NoResetFrom;
    forall i | 0 <= i < |log| && l[i].Processed? && l[i].stream < e.stream
      ensures exists k :: i < k < |log| && l[k] == WasReset
    {
      var k := ResetBetween(log, i);
      assert l[k] == WasReset;
    }
    forall i, j | 0 <= i < j < |log| && l[i].Processed? && l[j].Processed? && l[i].stream < l[j].stream
      ensures exists k :: i < k < j && l[k] == WasReset
    {
      var k :| i < k < j && log[k] == WasReset;
      assert l[k] == WasReset;
    }
  }

  lemma ResetOrdered(s: Slot, log: seq<Entry>, t: Slot)
    requires Ordered(s, log) && Current(s) == Current(t)
    ensures Ordered(t, log + [WasReset])
  {
    var l := log + [WasReset];
    forall i | 0 <= i < |log| ensures !NoResetFrom(l, i) {
      assert l[|log|] == WasReset;
    }
    forall i, j | 0 <= i < j < |log| && l[i].Processed? && l[j].Processed? && l[i].stream < l[j].stream
      ensures exists k :: i < k < j && l[k] == WasReset
    {
      var k :| i < k < j && log[k] == WasReset;
      assert l[k] == WasReset;
    }
  }

  lemma ActOrdered(s: Slot, log: seq<Entry>, act: Act)
    requires Keyed(s) && Ordered(s, log)
    ensures Ordered(Serve(s, act), log + Logged(s, Acts(act)))
  {
    var t := Serve(s, act);
    var entries := Logged(s, Acts(act));
    if entries == [] {
      assert log + entries == log;
      QuietOrdered(s, log, t);
    } else if entries[0].Processed? {
      ProcessedOrdered(s, log, entries[0], t);
    } else {
      ResetOrdered(s, log, t);
    }
  }

  lemma HappensOrdered(s: Slot, log: seq<Entry>, x: Happening, limit: nat)
    requires Keyed(s) && Ordered(s, log) && ForSlot(s, x)
    ensures Ordered(Happens(s, x, limit), log + Logged(s, x))
  {
    match x
    case Arrives(channel, m) =>
      ArrivalMoves(s, channel, m, limit);
      QuietOrdered(s, log, Receive(s, channel, m, limit));
      assert log + [] == log;
    case Acts(act) => ActOrdered(s, log, act);
  }

  lemma {:induction false} LifeOrdered(key: StreamKey, limit: nat, xs: seq<Happening>)
    ensures var (s, log) := Life(key, limit, xs); Keyed(s) && Ordered(s, log)
  {
    if xs != [] {
      var x := xs[|xs| - 1];
      LifeOrdered(key, limit, xs[..|xs| - 1]);
      var (s, log) := Life(key, limit, xs[..|xs| - 1]);
      if ForSlot(s, x) {
        HappensKeyed(s, x, limit);
        HappensOrdered(s, log, x, limit);
      }
    }
  }

  /** Over any life of an instance: streams never go back, and between two
      inputs of different streams lies a reset. */
  lemma StreamByStream(key: StreamKey, limit: nat, xs: seq<Happening>, i: nat, j: nat)
    requires var log := Life(key, limit, xs).1; i < j < |log| && log[i].Processed? && log[j].Processed?
    ensures var log := Life(key, limit, xs).1;
            && log[i].stream == log[i].input.key.stream
            && log[i].stream <= log[j].stream
            && (log[i].stream < log[j].stream ==> exists k :: i < k < j && log[k] == WasReset)
  {
    LifeOrdered(key, limit, xs);
  }

  /** A call's outputs go out under its input's key, even when the stream has
      moved on during the call. */
  lemma OutputsUnderTheInputsKey(key: StreamKey, limit: nat, xs: seq<Happening>, outputs: seq<(Class, Option<string>)>, failed: bool,
                                 m: Message)
    requires m in Published(Life(key, limit, xs).0, Finish(outputs, failed))
    ensures var s := Life(key, limit, xs).0;
            m.key == s.call.input.key && m.key.run == key.run && m.key.runId == key.runId
  {
    LifeOrdered(key, limit, xs);
    LifeKeepsRun(key, limit, xs);
  }

  lemma {:induction false} LifeKeepsRun(key: StreamKey, limit: nat, xs: seq<Happening>)
    ensures var s := Life(key, limit, xs).0; s.run == key.run && s.runId == key.runId
  {
    if xs != [] {
      LifeKeepsRun(key, limit, xs[..|xs| - 1]);
      HappensKeepsRun(Life(key, limit, xs[..|xs| - 1]).0, xs[|xs| - 1], limit);
    }
  }

  lemma ServeKeepsRun(s: Slot, act: Act)
    ensures Serve(s, act).run == s.run && Serve(s, act).runId == s.runId
  {
    hide Bundle, SourcesOf;
    match act
    case Dequeue =>
    case ResetEnds(ok) =>
    case Begin(used) =>
    case _ =>
  }

  lemma HappensKeepsRun(s: Slot, x: Happening, limit: nat)
    ensures Happens(s, x, limit).run == s.run && Happens(s, x, limit).runId == s.runId
  {
    hide Receive, Serve;
    match x
    case Arrives(channel, m) => ReceiveKeepsRun(s, channel, m, limit);
    case Acts(act) => ServeKeepsRun(s, act);
  }
}
