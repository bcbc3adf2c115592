/** One instance, over its whole life: which of the inputs that arrived it
    processes, and in what order. */
module HostInputs {
  import opened Keys
  import opened Wire
  import opened Subscriptions
  import opened Hosts
  import opened HostOrder

  // ---------------------------------------------------------------- what arrived

  predicate IsFor(key: StreamKey, m: Message)
  {
    m.key.run == key.run && m.key.runId == key.runId
  }

  /** The newest stream an input of the run came under, queued or observed. */
  function NewestStream(key: StreamKey, xs: seq<Happening>): int
  {
    if xs == [] then key.stream else
      var before, x := NewestStream(key, xs[..|xs| - 1]), xs[|xs| - 1];
      if x.Arrives? && x.channel != Commands && IsFor(key, x.message) && x.message.key.stream > before
      then x.message.key.stream else before
  }

  /** The inputs that arrived to be queued, none of them from before the newest
      stream there was then. */
  function Arrived(key: StreamKey, xs: seq<Happening>): seq<Message>
  {
    if xs == [] then [] else
      var front, x := xs[..|xs| - 1], xs[|xs| - 1];
      Arrived(key, front)
      + if x.Arrives? && x.channel == Inputs && IsFor(key, x.message) && x.message.key.stream >= NewestStream(key, front)
        then [x.message] else []
  }

  /** The stream never starts over. */
  predicate OneStream(key: StreamKey, xs: seq<Happening>)
  {
    NewestStream(key, xs) == key.stream
  }

  /** The inputs processed, in order. */
  function InputsOf(log: seq<Entry>): seq<Message>
  {
    if log == [] then [] else
      var last := log[|log| - 1];
      InputsOf(log[..|log| - 1]) + if last.Processed? then [last.input] else []
  }

  /** `done` is some of the first `n` that arrived, in that order, each once. */
  ghost predicate Picks(at: seq<nat>, done: seq<Message>, arrived: seq<Message>, n: nat)
  {
    && n <= |arrived| && |at| == |done|
    && (forall i :: 0 <= i < |at| ==> at[i] < n && arrived[at[i]] == done[i])
    && (forall i, j :: 0 <= i < j < |at| ==> at[i] < at[j])
  }

  // ---------------------------------------------------------------- what every step keeps

  /** Taken off the queue and not yet processed. */
  function InHand(s: Slot): seq<Message>
  {
    if s.call.Taken? then [s.call.input] else []
  }

  /** What waits is the last that arrived; what was taken before is from the
      rest of it, and all of it if nothing is ever given up for room or for a
      newer stream. */
  ghost predicate InLine(s: Slot, done: seq<Message>, arrived: seq<Message>, at: seq<nat>, whole: bool)
  {
    && |s.inputs| <= |arrived| && s.inputs == arrived[|arrived| - |s.inputs|..]
    && Picks(at, done + InHand(s), arrived, |arrived| - |s.inputs|)
    && (whole ==> done + InHand(s) == arrived[..|arrived| - |s.inputs|])
  }

  lemma InputsOfOne(log: seq<Entry>, more: seq<Entry>)
    requires |more| <= 1
    ensures InputsOf(log + more) == InputsOf(log) + if more != [] && more[0].Processed? then [more[0].input] else []
  {
    if more == [] {
      assert log + more == log;
    } else {
      assert (log + more)[..|log|] == log;
    }
  }

  lemma PicksLonger(at: seq<nat>, done: seq<Message>, arrived: seq<Message>, n: nat, more: seq<Message>, k: nat)
    requires Picks(at, done, arrived, n) && n <= k <= |arrived + more|
    ensures Picks(at, done, arrived + more, k)
  {
  }

  lemma PicksNext(at: seq<nat>, done: seq<Message>, arrived: seq<Message>, n: nat)
    requires Picks(at, done, arrived, n) && n < |arrived|
    ensures Picks(at + [n], done + [arrived[n]], arrived, n + 1)
  {
  }

  /** What one arrival does to the queue. */
  lemma ArrivalQueues(s: Slot, channel: Channel, m: Message, limit: nat)
    ensures var t := Receive(s, channel, m, limit);
            && t.call == s.call
            && t.stream == (if channel != Commands && m.key.stream > s.stream then m.key.stream else s.stream)
            && t.inputs == (if channel == Commands || m.key.stream < s.stream then s.inputs
                            else (if m.key.stream > s.stream then []
                                  else if channel == Inputs && limit > 0 && |s.inputs| >= limit then s.inputs[1..] else s.inputs)
                                 + if channel == Inputs then [m] else [])
  {
    var t := if m.key.stream > s.stream then NewStream(s, m.key) else s;
    assert t.call == s.call && t.inputs == if m.key.stream > s.stream then [] else s.inputs;
    assert t.stream == if m.key.stream > s.stream then m.key.stream else s.stream;
    hide NewStream;
  }

  /** The end of what was queued stays, with what arrived, if anything, behind it. */
  lemma ArrivalInLine(s: Slot, t: Slot, done: seq<Message>, arrived: seq<Message>, more: seq<Message>, at: seq<nat>,
                      whole: bool, k: nat)
    requires InLine(s, done, arrived, at, whole) && t.call == s.call && k <= |s.inputs|
    requires t.inputs == s.inputs[k..] + more && (whole ==> k == 0)
    ensures InLine(t, done, arrived + more, at, whole)
  {
    var n := |arrived| - |s.inputs|;
    assert |arrived + more| - |t.inputs| == n + k;
    PicksLonger(at, done + InHand(s), arrived, n, more, n + k);
    assert (arrived + more)[n + k..] == s.inputs[k..] + more;
    assert (arrived + more)[..n] == arrived[..n];
  }

  lemma ArrivesInLine(s: Slot, channel: Channel, m: Message, limit: nat, done: seq<Message>, arrived: seq<Message>, at: seq<nat>,
                      whole: bool)
    requires InLine(s, done, arrived, at, whole)
    requires whole ==> limit == 0 && (channel == Commands || m.key.stream <= s.stream)
    ensures var more := if channel == Inputs && m.key.stream >= s.stream then [m] else [];
            InLine(Receive(s, channel, m, limit), done, arrived + more, at, whole)
  {
    ArrivalQueues(s, channel, m, limit);
    hide Receive, InLine;
    var t := Receive(s, channel, m, limit);
    var more := if channel == Inputs && m.key.stream >= s.stream then [m] else [];
    var k := if channel == Commands || m.key.stream < s.stream then 0
             else if m.key.stream > s.stream then |s.inputs|
             else if channel == Inputs && limit > 0 && |s.inputs| >= limit then 1 else 0;
    assert s.inputs[0..] == s.inputs && s.inputs[|s.inputs|..] == [] && s.inputs + [] == s.inputs;
    ArrivalInLine(s, t, done, arrived, more, at, whole, k);
  }

  /** What one act does to the queue. */
  lemma ActQueues(s: Slot, act: Act)
    ensures var t := Serve(s, act);
            if act.Dequeue? && t != s then
              s.inputs != [] && t.inputs == s.inputs[1..] && InHand(s) == [] && InHand(t) == [s.inputs[0]]
              && Logged(s, Acts(act)) == []
            else
              t.inputs == s.inputs && InputsOf(Logged(s, Acts(act))) + InHand(t) == InHand(s)
    ensures |Logged(s, Acts(act))| <= 1 && Serve(s, act).stream == s.stream
  {
    hide Bundle, SourcesOf;
    var l := Logged(s, Acts(act));
    assert l != [] ==> l[..0] == [];
  }

  /** The first in line is taken. */
  lemma TakenInLine(s: Slot, t: Slot, done: seq<Message>, arrived: seq<Message>, at: seq<nat>, whole: bool)
    returns (more: seq<nat>)
    requires InLine(s, done, arrived, at, whole)
    requires s.inputs != [] && t.inputs == s.inputs[1..] && InHand(s) == [] && InHand(t) == [s.inputs[0]]
    ensures InLine(t, done, arrived, more, whole)
  {
    var n := |arrived| - |s.inputs|;
    more := at + [n];
    hide InHand;
    assert done + [] == done;
    PicksNext(at, done, arrived, n);
    assert arrived[n] == s.inputs[0] && t.inputs == arrived[n + 1..];
    assert arrived[..n + 1] == arrived[..n] + [arrived[n]];
  }

  /** Nobody moves up in line. */
  lemma SameInLine(s: Slot, t: Slot, done: seq<Message>, more: seq<Message>, arrived: seq<Message>, at: seq<nat>, whole: bool)
    requires InLine(s, done, arrived, at, whole) && t.inputs == s.inputs && more + InHand(t) == done + InHand(s)
    ensures InLine(t, more, arrived, at, whole)
  {
    hide InHand, Picks;
  }

  lemma Regroup<T>(a: seq<T>, b: seq<T>, c: seq<T>)
    ensures a + b + c == a + (b + c)
  {
  }

  lemma InputsJoin(log: seq<Entry>, l: seq<Entry>)
    requires |l| <= 1
    ensures InputsOf(log + l) == InputsOf(log) + InputsOf(l)
  {
    InputsOfOne(log, l);
    InputsOfOne([], l);
    assert [] + l == l;
  }

  lemma ActsInLine(s: Slot, act: Act, log: seq<Entry>, arrived: seq<Message>, at: seq<nat>, whole: bool) returns (more: seq<nat>)
    requires InLine(s, InputsOf(log), arrived, at, whole)
    ensures InLine(Serve(s, act), InputsOf(log + Logged(s, Acts(act))), arrived, more, whole)
  {
    ActQueues(s, act);
    var t, l := Serve(s, act), Logged(s, Acts(act));
    hide Serve, Logged, InputsOf, InLine, InHand;
    more := at;
    if act.Dequeue? && t != s {
      assert log + l == log;
      more := TakenInLine(s, t, InputsOf(log), arrived, at, whole);
    } else {
      InputsJoin(log, l);
      Regroup(InputsOf(log), InputsOf(l), InHand(t));
      SameInLine(s, t, InputsOf(log), InputsOf(log + l), arrived, at, whole);
    }
  }

  lemma {:induction false} LifeStream(key: StreamKey, limit: nat, xs: seq<Happening>)
    ensures Life(key, limit, xs).0.stream == NewestStream(key, xs)
  {
    if xs != [] {
      var front, x := xs[..|xs| - 1], xs[|xs| - 1];
      LifeStream(key, limit, front);
      LifeKeepsRun(key, limit, front);
      var s := Life(key, limit, front).0;
      match x
      case Arrives(channel, m) => ArrivalQueues(s, channel, m, limit);
      case Acts(act) => ActQueues(s, act);
      hide Receive, Serve, Logged;
    }
  }

  lemma {:induction false} StreamsRise(key: StreamKey, xs: seq<Happening>)
    ensures NewestStream(key, xs) >= key.stream
  {
    if xs != [] {
      StreamsRise(key, xs[..|xs| - 1]);
    }
  }

  lemma LifeLast(key: StreamKey, limit: nat, front: seq<Happening>, x: Happening)
    ensures var (s, log) := Life(key, limit, front);
            Life(key, limit, front + [x]) == if ForSlot(s, x) then (Happens(s, x, limit), log + Logged(s, x)) else (s, log)
    ensures Arrived(key, front + [x]) == Arrived(key, front)
            + if x.Arrives? && x.channel == Inputs && IsFor(key, x.message) && x.message.key.stream >= NewestStream(key, front)
              then [x.message] else []
  {
    assert (front + [x])[..|front|] == front;
    hide Happens, Logged;
  }

  lemma {:induction false} LifeInLine(key: StreamKey, limit: nat, xs: seq<Happening>) returns (at: seq<nat>)
    ensures var (s, log) := Life(key, limit, xs);
            InLine(s, InputsOf(log), Arrived(key, xs), at, limit == 0 && OneStream(key, xs))
  {
    if xs == [] {
      return [];
    }
    var front, x := xs[..|xs| - 1], xs[|xs| - 1];
    assert xs == front + [x];
    LifeLast(key, limit, front, x);
    LifeStream(key, limit, front);
    LifeKeepsRun(key, limit, front);
    StreamsRise(key, front);
    at := LifeInLine(key, limit, front);
    var (s, log) := Life(key, limit, front);
    var arrived := Arrived(key, front);
    var whole := limit == 0 && OneStream(key, xs);
    assert whole ==> OneStream(key, front);
    hide Life, Arrived, InputsOf, Receive, Serve, Logged;
    Weaker(s, InputsOf(log), arrived, at, limit == 0 && OneStream(key, front), whole);
    hide InLine;
    match x
    case Arrives(channel, m) =>
      if IsFor(key, m) {
        ArrivesInLine(s, channel, m, limit, InputsOf(log), arrived, at, whole);
        assert Logged(s, x) == [] by { NothingLogged(s, x); }
        assert log + [] == log;
      } else {
        assert arrived + [] == arrived;
      }
    case Acts(act) =>
      at := ActsInLine(s, act, log, arrived, at, whole);
      assert arrived + [] == arrived;
  }

  lemma NothingLogged(s: Slot, x: Happening)
    requires x.Arrives?
    ensures Logged(s, x) == []
  {
  }

  lemma Weaker(s: Slot, done: seq<Message>, arrived: seq<Message>, at: seq<nat>, whole: bool, less: bool)
    requires InLine(s, done, arrived, at, whole) && (less ==> whole)
    ensures InLine(s, done, arrived, at, less)
  {
  }

  // ---------------------------------------------------------------- the theorem

  /** Over any life of an instance: what it has processed is some of the inputs
      that arrived, in the order they arrived, none of them twice; what waits is
      the last of them. With no limit, and as long as the stream does not start
      over, none is passed over: the first that arrived are processed first. */
  lemma FirstComeFirstServed(key: StreamKey, limit: nat, xs: seq<Happening>)
    ensures var (s, log) := Life(key, limit, xs);
            var arrived, done := Arrived(key, xs), InputsOf(log);
            && (exists at :: Picks(at, done, arrived, |arrived|))
            && |s.inputs| <= |arrived| && s.inputs == arrived[|arrived| - |s.inputs|..]
            && (limit == 0 && OneStream(key, xs) ==> done <= arrived)
  {
    var at := LifeInLine(key, limit, xs);
    var (s, log) := Life(key, limit, xs);
    var arrived, done := Arrived(key, xs), InputsOf(log);
    hide Life, Arrived, InputsOf, OneStream;
    var all := done + InHand(s);
    assert Picks(at[..|done|], done, arrived, |arrived|) by {
      assert forall i :: 0 <= i < |done| ==> all[i] == done[i];
    }
  }
}
