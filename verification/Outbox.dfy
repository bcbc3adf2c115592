/** The queue a publisher fills without waiting, and a task drains onto the
    transport: data may be dropped for room, control messages may not.

    The outbox keeps a history beside its queue: what was published, in order,
    under which key, what was dropped for room, and what became of the rest. */
module Outboxes {
  import opened Keys
  import opened Retry

  datatype Kind =
    | Command | Error | RunClosed | InstanceStarted
    | Result(requestId: Option<string>)
    | Other

  datatype Message = Message(kind: Kind, body: nat)

  /** What changes something, reports it, or was asked for. */
  predicate IsControl(m: Message)
  {
    m.kind.Command? || m.kind.Error? || m.kind.RunClosed? || m.kind.InstanceStarted?
    || (m.kind.Result? && m.kind.requestId.Some?)
  }

  datatype Letter = Letter(message: Message, queuedAt: real, key: string)

  /** How a letter that left the queue ended. A refused data message is `Lost`;
      a control message is sent, or given up and handed back, `tried` or not. */
  datatype Ending = Sent | Lost | GivenUp(tried: bool) | Cancelled

  datatype Settled = Settled(letter: Letter, ending: Ending)

  // ---------------------------------------------------------------- history

  function DataIn(q: seq<Letter>): (n: nat)
    ensures n <= |q|
  {
    if q == [] then 0 else DataIn(q[..|q| - 1]) + if IsControl(q[|q| - 1].message) then 0 else 1
  }

  lemma {:induction false} DataInAppend(a: seq<Letter>, b: seq<Letter>)
    ensures DataIn(a + b) == DataIn(a) + DataIn(b)
  {
    if b == [] {
      assert a + b == a;
    } else {
      DataInAppend(a, b[..|b| - 1]);
      assert (a + b)[..|a + b| - 1] == a + b[..|b| - 1];
    }
  }

  /** The letters not marked as dropped, in order. */
  function Survivors(letters: seq<Letter>, dropped: seq<bool>): (s: seq<Letter>)
    requires |letters| == |dropped|
    ensures |s| <= |letters|
  {
    if letters == [] then [] else
      var n := |letters| - 1;
      Survivors(letters[..n], dropped[..n]) + if dropped[n] then [] else [letters[n]]
  }

  /** Where the survivor at `p` stands among all the letters. */
  function Origin(letters: seq<Letter>, dropped: seq<bool>, p: nat): (i: nat)
    requires |letters| == |dropped| && p < |Survivors(letters, dropped)|
    ensures i < |letters| && !dropped[i] && letters[i] == Survivors(letters, dropped)[p]
  {
    var n := |letters| - 1;
    if !dropped[n] && p == |Survivors(letters, dropped)| - 1 then n
    else Origin(letters[..n], dropped[..n], p)
  }

  lemma SurvivorsLast(letters: seq<Letter>, dropped: seq<bool>)
    requires |letters| == |dropped| && letters != []
    ensures var n := |letters| - 1;
            Survivors(letters, dropped) == Survivors(letters[..n], dropped[..n]) + if dropped[n] then [] else [letters[n]]
  {
  }

  /** Dropping one survivor takes it out and leaves the others as they were. */
  lemma {:induction false} DropOneSurvivor(letters: seq<Letter>, dropped: seq<bool>, p: nat)
    requires |letters| == |dropped| && p < |Survivors(letters, dropped)|
    ensures var s := Survivors(letters, dropped);
            Survivors(letters, dropped[Origin(letters, dropped, p) := true]) == s[..p] + s[p + 1..]
  {
    var n := |letters| - 1;
    var i := Origin(letters, dropped, p);
    var marked := dropped[i := true];
    SurvivorsLast(letters, dropped);
    SurvivorsLast(letters, marked);
    var s, front := Survivors(letters, dropped), Survivors(letters[..n], dropped[..n]);
    if !dropped[n] && p == |s| - 1 {
      assert i == n && marked[..n] == dropped[..n];
    } else {
      assert i == Origin(letters[..n], dropped[..n], p);
      hide Survivors, Origin;
      DropOneSurvivor(letters[..n], dropped[..n], p);
      assert marked[..n] == dropped[..n][i := true];
      CutFront(front, s[|front|..], p);
    }
  }

  lemma CutFront<T>(front: seq<T>, last: seq<T>, p: nat)
    requires p < |front|
    ensures (front + last)[..p] + (front + last)[p + 1..] == front[..p] + front[p + 1..] + last
  {
  }

  lemma SurvivorsAppend(letters: seq<Letter>, dropped: seq<bool>, l: Letter)
    requires |letters| == |dropped|
    ensures Survivors(letters + [l], dropped + [false]) == Survivors(letters, dropped) + [l]
  {
    assert (letters + [l])[..|letters|] == letters && (dropped + [false])[..|letters|] == dropped;
  }

  lemma DataInLast(q: seq<Letter>)
    requires q != []
    ensures DataIn(q) == DataIn(q[..|q| - 1]) + if IsControl(q[|q| - 1].message) then 0 else 1
  {
  }

  lemma DataInSplit(q: seq<Letter>, i: nat)
    requires i < |q|
    ensures DataIn(q) == DataIn(q[..i] + q[i + 1..]) + if IsControl(q[i].message) then 0 else 1
    ensures DataIn(q[..i + 1]) == DataIn(q[..i]) + if IsControl(q[i].message) then 0 else 1
  {
    hide DataIn, IsControl;
    var upTo, rest := q[..i + 1], q[i + 1..];
    assert upTo[..|upTo| - 1] == q[..i] && upTo[|upTo| - 1] == q[i];
    DataInLast(upTo);
    assert q == upTo + rest;
    DataInAppend(upTo, rest);
    DataInAppend(q[..i], rest);
  }

  /** Every letter not marked is among the survivors. */
  lemma {:induction false} Survives(letters: seq<Letter>, dropped: seq<bool>, i: nat)
    requires |letters| == |dropped| && i < |letters| && !dropped[i]
    ensures letters[i] in Survivors(letters, dropped)
  {
    var n := |letters| - 1;
    if i < n {
      Survives(letters[..n], dropped[..n], i);
    }
  }

  function LettersOf(settled: seq<Settled>): (s: seq<Letter>)
    ensures |s| == |settled| && forall i :: 0 <= i < |s| ==> s[i] == settled[i].letter
  {
    seq(|settled|, i requires 0 <= i < |settled| => settled[i].letter)
  }

  lemma SettleOne(settled: seq<Settled>, letter: Letter, ending: Ending)
    ensures LettersOf(settled + [Settled(letter, ending)]) == LettersOf(settled) + [letter]
  {
  }

  function Flying(l: Option<Letter>): seq<Letter>
  {
    if l.None? then [] else [l.value]
  }

  /** What was published and not dropped for room has settled, is in flight, or
      is queued, in publish order; only data is dropped. */
  ghost predicate Kept(history: seq<Letter>, marks: seq<bool>, settled: seq<Settled>, inFlight: Option<Letter>, queue: seq<Letter>)
  {
    && |history| == |marks|
    && LettersOf(settled) + Flying(inFlight) + queue == Survivors(history, marks)
    && (forall i :: 0 <= i < |marks| && marks[i] ==> !IsControl(history[i].message))
  }

  lemma AppendKept(history: seq<Letter>, marks: seq<bool>, settled: seq<Settled>, inFlight: Option<Letter>, queue: seq<Letter>,
                   letter: Letter)
    requires Kept(history, marks, settled, inFlight, queue)
    ensures Kept(history + [letter], marks + [false], settled, inFlight, queue + [letter])
    ensures DataIn(queue + [letter]) == DataIn(queue) + if IsControl(letter.message) then 0 else 1
  {
    SurvivorsAppend(history, marks, letter);
    assert (queue + [letter])[..|queue|] == queue;
    hide Survivors, LettersOf, IsControl;
    var before := LettersOf(settled) + Flying(inFlight);
    assert before + (queue + [letter]) == (before + queue) + [letter];
    assert forall i :: 0 <= i < |marks + [false]| && (marks + [false])[i] ==> i < |marks| && marks[i];
  }

  lemma PopKept(history: seq<Letter>, marks: seq<bool>, settled: seq<Settled>, queue: seq<Letter>)
    requires Kept(history, marks, settled, None, queue) && queue != []
    ensures Kept(history, marks, settled, Some(queue[0]), queue[1..])
    ensures DataIn(queue) == DataIn(queue[1..]) + if IsControl(queue[0].message) then 0 else 1
  {
    assert queue == [queue[0]] + queue[1..];
    DataInAppend([queue[0]], queue[1..]);
    assert [queue[0]][..0] == [];
    assert DataIn([queue[0]]) == DataIn([]) + if IsControl(queue[0].message) then 0 else 1;
    hide Survivors, LettersOf, DataIn, IsControl;
    assert LettersOf(settled) + [] + queue == LettersOf(settled) + [queue[0]] + queue[1..];
  }

  lemma SettleKept(history: seq<Letter>, marks: seq<bool>, settled: seq<Settled>, letter: Letter, ending: Ending, queue: seq<Letter>)
    requires Kept(history, marks, settled, Some(letter), queue)
    ensures Kept(history, marks, settled + [Settled(letter, ending)], None, queue)
  {
    SettleOne(settled, letter, ending);
    hide Survivors, LettersOf, IsControl;
    assert LettersOf(settled) + [letter] + queue == LettersOf(settled) + [letter] + [] + queue;
  }

  lemma AllSettled(history: seq<Letter>, marks: seq<bool>, settled: seq<Settled>)
    requires Kept(history, marks, settled, None, [])
    ensures |history| == |marks| && LettersOf(settled) == Survivors(history, marks)
  {
  }

  /** The marks that say the queued letter at `i` was dropped. */
  ghost function MarkQueued(history: seq<Letter>, marks: seq<bool>, settled: seq<Settled>, inFlight: Option<Letter>,
                            queue: seq<Letter>, i: nat): (m: seq<bool>)
    requires Kept(history, marks, settled, inFlight, queue) && i < |queue| && !IsControl(queue[i].message)
    ensures Kept(history, m, settled, inFlight, queue[..i] + queue[i + 1..])
  {
    var before := LettersOf(settled) + Flying(inFlight);
    var p := |before| + i;
    assert (before + queue)[p] == queue[i];
    DropOneSurvivor(history, marks, p);
    assert (before + queue)[..p] + (before + queue)[p + 1..] == before + (queue[..i] + queue[i + 1..]);
    marks[Origin(history, marks, p) := true]
  }

  /** The queued message at `i` is data, and all before it are control messages. */
  predicate FirstData(queue: seq<Letter>, i: nat)
  {
    i < |queue| && !IsControl(queue[i].message) && forall j :: 0 <= j < i ==> IsControl(queue[j].message)
  }

  /** Where the data that has waited longest stands; past the end if no data waits. */
  function OldestData(queue: seq<Letter>): (i: nat)
    ensures i <= |queue|
    ensures forall j :: 0 <= j < i ==> IsControl(queue[j].message)
    ensures i < |queue| ==> FirstData(queue, i)
  {
    if queue == [] || !IsControl(queue[0].message) then 0 else 1 + OldestData(queue[1..])
  }

  lemma OldestIs(queue: seq<Letter>, i: nat)
    requires i < |queue| && !IsControl(queue[i].message) && forall j :: 0 <= j < i ==> IsControl(queue[j].message)
    ensures FirstData(queue, i) && OldestData(queue) == i
  {
    hide IsControl;
  }

  function Without(queue: seq<Letter>, i: nat): seq<Letter>
  {
    if i < |queue| then queue[..i] + queue[i + 1..] else queue
  }

  /** The queue once a letter has joined it: data that finds no room displaces
      the data that has waited longest. */
  function Queued(queue: seq<Letter>, letter: Letter, full: bool): seq<Letter>
  {
    (if full && !IsControl(letter.message) then Without(queue, OldestData(queue)) else queue) + [letter]
  }

  // ---------------------------------------------------------------- the world

  /** The transport and the clock, as an outbox meets them: an attempt takes
      some time and may fail; a sleep lasts at least as long as asked. */
  class World {
    var now: real

    constructor () {
      now := 0.0;
    }

    method Attempt() returns (taken: bool)
      modifies this
      ensures now >= old(now)
    {
      var passed: real := *;
      now := now + if passed < 0.0 then 0.0 else passed;
      taken := *;
    }

    method Sleep(duration: real)
      requires duration >= 0.0
      modifies this
      ensures now >= old(now) + duration
    {
      var over: real := *;
      now := now + duration + if over < 0.0 then 0.0 else over;
    }
  }

  // ---------------------------------------------------------------- the outbox

  class Outbox {
    const maxsize: nat
    const deadline: real
    var key: string
    var queue: seq<Letter>
    var data: nat
    var inFlight: Option<Letter>
    var published: nat
    var failed: nat
    var dropped: nat
    var undelivered: nat
    /** Everything published, in order, and which of it was dropped for room. */
    ghost var history: seq<Letter>
    ghost var marks: seq<bool>
    /** What was sent, lost or given up, in order. */
    ghost var settled: seq<Settled>
    /** What was handed back as undelivered, and whether it was ever tried. */
    var handedBack: seq<(Letter, bool)>
    ghost var closing: bool

    /** What was published and not dropped for room has settled, is in flight,
        or is queued, in publish order; only data is dropped. */
    ghost predicate Conserved()
      reads this
    {
      Kept(history, marks, settled, inFlight, queue)
    }

    /** Only data is lost, what is given up is handed back, and only a close
        cancels. */
    ghost predicate WellEnded()
      reads this
    {
      && (forall s :: s in settled && s.ending == Lost ==> !IsControl(s.letter.message))
      && (forall s :: s in settled && s.ending.GivenUp? ==> (s.letter, s.ending.tried) in handedBack)
      && (forall s :: s in settled && s.ending == Cancelled ==> closing)
      && undelivered == |handedBack|
    }

    /** The data counter is what it counts, and is bounded. */
    ghost predicate Bounded()
      reads this
    {
      data == DataIn(queue) && data <= (if maxsize == 0 then 1 else maxsize)
    }

    ghost predicate Valid()
      reads this
    {
      Conserved() && WellEnded() && Bounded()
    }

    constructor (key: string, maxsize: nat, deadline: real)
      ensures Valid() && this.key == key && this.maxsize == maxsize && this.deadline == deadline
      ensures history == [] && queue == [] && inFlight == None && !closing
    {
      this.key, this.maxsize, this.deadline := key, maxsize, deadline;
      queue, data, inFlight := [], 0, None;
      published, failed, dropped, undelivered := 0, 0, 0, 0;
      history, marks, settled, handedBack, closing := [], [], [], [], false;
    }

    /** Makes room: the oldest queued data message goes, never a control one. */
    method DropOldestData() returns (i: nat)
      requires Valid()
      modifies `queue, `data, `dropped, `marks
      ensures Valid()
      ensures old(data) == 0 ==> queue == old(queue) && data == 0 && marks == old(marks) && dropped == old(dropped)
      ensures old(data) > 0 ==>
                && i < |old(queue)| && !IsControl(old(queue)[i].message)
                && (forall j :: 0 <= j < i ==> IsControl(old(queue)[j].message))
                && queue == old(queue)[..i] + old(queue)[i + 1..]
                && data == old(data) - 1 && dropped == old(dropped) + 1
    {
      hide Kept, DataIn, IsControl;
      NoData();
      i := 0;
      while i < |queue|
        invariant 0 <= i <= |queue|
        invariant queue == old(queue) && data == old(data) && marks == old(marks) && dropped == old(dropped)
        invariant forall j :: 0 <= j < i ==> IsControl(queue[j].message)
        invariant DataIn(queue[..i]) == 0
      {
        DataInSplit(queue, i);
        if !IsControl(queue[i].message) {
          RemoveData(i);
          return;
        }
        i := i + 1;
      }
      assert queue[..i] == queue;
    }

    static lemma NoData()
      ensures DataIn([]) == 0
    {
    }

    /** The queued data message at `i` is dropped. */
    method RemoveData(i: nat)
      requires Valid() && i < |queue| && !IsControl(queue[i].message)
      modifies `queue, `data, `dropped, `marks
      ensures Valid() && queue == old(queue)[..i] + old(queue)[i + 1..]
      ensures data == old(data) - 1 && dropped == old(dropped) + 1
    {
      DataInSplit(queue, i);
      marks := MarkQueued(history, marks, settled, inFlight, queue, i);
      hide Kept;
      queue := queue[..i] + queue[i + 1..];
      data := data - 1;
      dropped := dropped + 1;
    }

    /** A letter joins the queue's end, room or not. */
    method Append(letter: Letter)
      requires Valid() && (IsControl(letter.message) || data < maxsize || data == 0)
      modifies `queue, `data, `history, `marks
      ensures Valid() && queue == old(queue) + [letter] && history == old(history) + [letter]
      ensures marks == old(marks) + [false]
      ensures data == old(data) + if IsControl(letter.message) then 0 else 1
    {
      hide Kept, DataIn;
      AppendKept(history, marks, settled, inFlight, queue, letter);
      queue := queue + [letter];
      data := data + if IsControl(letter.message) then 0 else 1;
      history := history + [letter];
      marks := marks + [false];
    }

    /** A message is taken on at once, addressed there and then. Data beyond the
        limit displaces the data that has waited longest, and no other message. */
    method Publish(message: Message, now: real, under: Option<string>)
      requires Valid()
      modifies `queue, `data, `dropped, `history, `marks
      ensures Valid()
      ensures var letter := Letter(message, now, if under.None? then key else under.value);
              && history == old(history) + [letter]
              && queue != [] && queue[|queue| - 1] == letter
      ensures queue == Queued(old(queue), history[|old(history)|], old(data) >= maxsize)
      ensures IsControl(message) || old(data) < maxsize ==> queue[..|queue| - 1] == old(queue) && dropped == old(dropped)
      ensures !IsControl(message) && old(data) >= maxsize && old(data) > 0 ==>
                && dropped == old(dropped) + 1 && data == old(data)
                && FirstData(old(queue), OldestData(old(queue)))
    {
      hide Conserved, WellEnded, Kept, DataIn;
      if !IsControl(message) && data >= maxsize {
        if data == 0 { NoneQueued(); }
        var i := DropOldestData();
        if old(data) > 0 { OldestIs(old(queue), i); }
        hide FirstData, OldestData;
      }
      Append(Letter(message, now, if under.None? then key else under.value));
    }

    lemma NoneQueued()
      requires Bounded() && data == 0
      ensures OldestData(queue) == |queue|
    {
      if OldestData(queue) < |queue| { DataInSplit(queue, OldestData(queue)); }
    }

    /** The next letter leaves the queue to be sent. */
    method Pop() returns (letter: Letter)
      requires Valid() && queue != [] && inFlight == None
      modifies `queue, `data, `inFlight
      ensures Valid() && letter == old(queue)[0]
      ensures queue == old(queue)[1..] && inFlight == Some(letter)
    {
      hide Kept, DataIn;
      PopKept(history, marks, settled, queue);
      letter := queue[0];
      queue := queue[1..];
      data := data - if IsControl(letter.message) then 0 else 1;
      inFlight := Some(letter);
    }

    /** One try at the transport, counted. */
    method Attempt(world: World) returns (taken: bool)
      modifies `published, `failed, world
      ensures world.now >= old(world.now)
      ensures published == old(published) + (if taken then 1 else 0)
      ensures failed == old(failed) + (if taken then 0 else 1)
    {
      taken := world.Attempt();
      if taken {
        published := published + 1;
      } else {
        failed := failed + 1;
      }
    }

    /** The letter in flight is done with, one way or another. */
    method Settle(ending: Ending)
      requires Valid() && inFlight.Some?
      requires ending == Lost ==> !IsControl(inFlight.value.message)
      requires ending == Cancelled ==> closing
      modifies `inFlight, `settled, `handedBack, `undelivered
      ensures Valid() && inFlight == None
      ensures settled == old(settled) + [Settled(old(inFlight).value, ending)]
      ensures handedBack == old(handedBack) + if ending.GivenUp? then [(old(inFlight).value, ending.tried)] else []
    {
      if ending.GivenUp? {
        undelivered := undelivered + 1;
        handedBack := handedBack + [(inFlight.value, ending.tried)];
      }
      SettleKept(history, marks, settled, inFlight.value, ending, queue);
      hide Kept;
      settled := settled + [Settled(inFlight.value, ending)];
      inFlight := None;
    }

    static lemma NothingTried(queuedAt: real, deadline: real)
      ensures Schedule([], queuedAt, deadline)
    {
    }

    /** Tries a control message again and again, with growing waits, until it
        is taken or its deadline passes. The times tried keep the schedule. */
    method TryUntilDeadline(queuedAt: real, world: World) returns (ending: Ending, times: seq<real>)
      requires queuedAt <= world.now
      modifies `published, `failed, world
      ensures world.now >= old(world.now)
      ensures Schedule(times, queuedAt, deadline)
      ensures ending == Sent || ending == GivenUp(times != [])
      ensures ending.GivenUp? ==> world.now >= queuedAt + deadline
      ensures published == old(published) + (if ending == Sent then 1 else 0)
      ensures failed == old(failed) + |times| - (if ending == Sent then 1 else 0)
    {
      hide Schedule;
      times, ending := [], GivenUp(false);
      NothingTried(queuedAt, deadline);
      var giveUpAt, wait := queuedAt + deadline, FIRST_WAIT;
      while world.now < giveUpAt
        invariant Schedule(times, queuedAt, deadline)
        invariant wait == Wait(|times|)
        invariant times != [] && world.now < giveUpAt ==> world.now >= times[|times| - 1] + Wait(|times| - 1)
        invariant queuedAt <= world.now && old(world.now) <= world.now
        invariant ending == GivenUp(times != [])
        invariant published == old(published) && failed == old(failed) + |times|
        decreases Bound(deadline) - |times|
      {
        ScheduleGoesOn(times, queuedAt, deadline, world.now);
        times := times + [world.now];
        AttemptsBounded(times, queuedAt, deadline);
        var taken := Attempt(world);
        if taken {
          ending := Sent;
          return;
        }
        ending := GivenUp(true);
        var left := giveUpAt - world.now;
        world.Sleep(if wait < left then wait else if left < 0.0 then 0.0 else left);
        wait := if wait * 2.0 > MAX_WAIT then MAX_WAIT else wait * 2.0;
      }
    }

    /** Sends the letter in flight: data once, control until it is taken or
        given up, in boundedly many tries, the first none before it was queued
        and the last none at its deadline or past it. */
    method Send(world: World) returns (ending: Ending, times: seq<real>)
      requires Valid() && inFlight.Some? && inFlight.value.queuedAt <= world.now
      modifies `published, `failed, `undelivered, `handedBack, `inFlight, `settled, world
      ensures Valid() && inFlight == None && world.now >= old(world.now)
      ensures settled == old(settled) + [Settled(old(inFlight).value, ending)]
      ensures !IsControl(old(inFlight).value.message) ==> |times| == 1 && (ending == Sent || ending == Lost)
      ensures IsControl(old(inFlight).value.message) ==>
                && Schedule(times, old(inFlight).value.queuedAt, deadline)
                && |times| <= Bound(deadline)
                && (ending == Sent || ending == GivenUp(times != []))
                && (ending.GivenUp? ==> world.now >= old(inFlight).value.queuedAt + deadline)
      ensures published == old(published) + (if ending == Sent then 1 else 0)
      ensures failed == old(failed) + |times| - (if ending == Sent then 1 else 0)
      ensures handedBack == old(handedBack) + if ending.GivenUp? then [(old(inFlight).value, ending.tried)] else []
    {
      if !IsControl(inFlight.value.message) {
        times := [world.now];
        var taken := Attempt(world);
        ending := if taken then Sent else Lost;
      } else {
        ending, times := TryUntilDeadline(inFlight.value.queuedAt, world);
        AttemptsBounded(times, inFlight.value.queuedAt, deadline);
      }
      Settle(ending);
    }

    /** Sends the next queued letter while closing; `end` may come first, which
        cancels the send. */
    method FlushOne(world: World, end: real)
      requires Valid() && closing && queue != [] && inFlight == None && queue[0].queuedAt <= world.now
      modifies `queue, `data, `published, `failed, `undelivered, `handedBack, `inFlight, `settled, world
      ensures Valid() && inFlight == None && world.now >= old(world.now)
      ensures queue == old(queue)[1..]
      ensures old(settled) <= settled
    {
      var letter := Pop();
      var cut: bool := *;
      if cut {
        Settle(Cancelled);
        world.Sleep(if end > world.now then end - world.now else 0.0);
      } else {
        var ending, times := Send(world);
      }
    }

    lemma NothingUnsettled()
      requires Valid() && inFlight == None
      ensures |history| == |marks|
      ensures queue == [] ==> LettersOf(settled) == Survivors(history, marks)
    {
      if queue == [] { AllSettled(history, marks, settled); }
    }

    /** The draining task stops, and with it the send it is in. */
    method StopTask()
      requires Valid()
      modifies `closing, `inFlight, `settled, `handedBack, `undelivered
      ensures Valid() && inFlight == None && closing
      ensures settled == old(settled) + (if old(inFlight).None? then [] else [Settled(old(inFlight).value, Cancelled)])
    {
      hide Kept, DataIn, IsControl;
      closing := true;
      if inFlight.Some? {
        Settle(Cancelled);
      }
    }

    /** Stops the draining task, which cancels the send it is in, then sends
        what is queued until that is done or `patience` has run out; running
        out cancels one more send. */
    method Close(world: World, patience: real) returns (drained: bool)
      requires Valid() && (forall l :: l in queue ==> l.queuedAt <= world.now)
      modifies this, world
      ensures Valid() && inFlight == None && history == old(history) && marks == old(marks)
      ensures drained <==> queue == []
      ensures old(settled) + (if old(inFlight).None? then [] else [Settled(old(inFlight).value, Cancelled)]) <= settled
      ensures drained ==> LettersOf(settled) == Survivors(history, marks)
    {
      hide Valid, LettersOf, Survivors;
      StopTask();
      var end := world.now + patience;
      ghost var start := settled;
      while queue != [] && world.now < end
        invariant Valid() && inFlight == None
        invariant closing && history == old(history) && marks == old(marks)
        invariant start <= settled
        invariant forall l :: l in queue ==> l.queuedAt <= world.now
        decreases |queue|
      {
        FlushOne(world, end);
      }
      drained := queue == [];
      NothingUnsettled();
    }

    /** Where any published control message is, until a close: sent, or given
        up and handed back; in flight; or queued. Never dropped for room. */
    lemma ControlIsAccountedFor(i: nat)
      requires Valid() && !closing && i < |history| && IsControl(history[i].message)
      ensures || (exists k :: 0 <= k < |settled| && settled[k] == Settled(history[i], Sent))
              || (exists tried :: (history[i], tried) in handedBack)
              || inFlight == Some(history[i])
              || history[i] in queue
    {
      Survives(history, marks, i);
      var letters := LettersOf(settled);
      if history[i] in letters {
        var k :| 0 <= k < |letters| && letters[k] == history[i];
        assert settled[k] in settled && settled[k] == Settled(history[i], settled[k].ending);
      }
    }
  }
}
