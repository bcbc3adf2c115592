/** What a module host does with what reaches it, said of its slots and of the
    messages themselves. */
module HostPromises {
  import opened Keys
  import opened Wire
  import opened Subscriptions
  import opened Hosts

  // ---------------------------------------------------------------- which slot

  /** A slot as it is built: under this key, with nothing in it. */
  predicate Fresh(s: Slot, key: StreamKey)
  {
    && s.run == key.run && s.runId == key.runId && s.key == key && s.stream == key.stream
    && s.inputs == [] && s.join == map[] && s.commands == [] && s.memory == {} && s.settings == {}
    && s.call == Idle && !s.resetDue && !s.unfenced
    && s.alive && !s.setUp && !s.dropped && s.drops == 0 && !s.ended && s.tearDowns == 0
  }

  /** The slot of this id is out of service, and the next but the others to be
      dropped. */
  predicate TakenOut(h: Host, g: Host, run: string, id: nat)
  {
    g == h.(service := h.service - {run}, retired := h.retired + [id])
  }

  /** A message of the run in service goes to its slot, and one of an older run
      nowhere. One of a newer run, or of a run not in service, goes to a slot just
      built, the older run's having been retired; unless the run is left alone
      until later. */
  lemma FindsExactly(h: Host, key: StreamKey, now: real)
    requires key.run in h.service ==> h.service[key.run] < |h.built| && h.built[h.service[key.run]].run == key.run
    ensures var (g, id) := Find(h, key, now);
            if key.run in h.service && h.built[h.service[key.run]].runId == key.runId then
              g == h && id == Some(h.service[key.run])
            else if key.run in h.service && h.built[h.service[key.run]].runId > key.runId then
              g == h && id == None
            else exists f: Host ::
              && (if key.run in h.service then TakenOut(h, f, key.run, h.service[key.run]) else f == h)
              && if key.run in h.retryAt && h.retryAt[key.run] > now then g == f && id == None
                 else
                   && id == Some(|h.built|) && |g.built| == |h.built| + 1 && g.built[..|h.built|] == h.built
                   && Fresh(g.built[|h.built|], key)
                   && g == f.(built := g.built, service := f.service[key.run := |h.built|], retryAt := h.retryAt - {key.run})
  {
    var f := if key.run in h.service then h.(service := h.service - {key.run}, retired := h.retired + [h.service[key.run]]) else h;
    assert if key.run in h.service then TakenOut(h, f, key.run, h.service[key.run]) else f == h;
  }

  /** Until its feeds have ended, a stopping host still hands each message to its
      slot; after that none. */
  lemma FeedsExactly(h: Host, channel: Channel, m: Message, now: real)
    ensures var g := Next(h, Feed(channel, m, now));
            if h.phase == Serving || h.phase == Stopping then
              var (f, id) := Find(h, m.key, now);
              if id == None then g == f
              else id.value < |f.built| ==> g == f.(built := f.built[id.value := Receive(f.built[id.value], channel, m, f.limit)])
            else g == h
  {
    hide Find, Receive;
  }

  // ---------------------------------------------------------------- what is kept of it

  /** A command joins the end of those that wait, whatever its stream. An input is
      dropped if it is of a stream before the slot's; if it is of a later one, the
      slot moves on to that, giving up what was queued and joined, with a reset
      due; then a joined input takes the place of the last of its class, and any
      other joins the end of the queue, for which a full queue gives up its
      oldest. */
  lemma ReceivesExactly(s: Slot, channel: Channel, m: Message, limit: nat)
    ensures var t := Receive(s, channel, m, limit);
            if channel == Commands then t == s.(commands := s.commands + [m])
            else if m.key.stream < s.stream then t == s
            else
              var later := m.key.stream > s.stream;
              var inputs := if later then [] else s.inputs;
              && t.stream == m.key.stream && t.key == (if later then m.key else s.key) && t.resetDue == (later || s.resetDue)
              && t.join == (if later then map[] else s.join) + (if channel == Join then map[m.cls := m] else map[])
              && t.inputs == (if channel == Join then inputs
                              else (if limit > 0 && |inputs| >= limit then inputs[1..] else inputs) + [m])
              && t == s.(stream := t.stream, key := t.key, resetDue := t.resetDue, join := t.join, inputs := t.inputs)
  {
    var j: map<Class, Message> := if m.key.stream > s.stream then map[] else s.join;
    assert j + map[] == j && j[m.cls := m] == j + map[m.cls := m];
  }

  // ---------------------------------------------------------------- what the instance does

  /** An instance that is set up, and at nothing else, takes its oldest input, and
      the reset that is due with it. */
  lemma TakesExactly(s: Slot)
    ensures var t := Serve(s, Dequeue);
            if s.alive && s.setUp && s.call == Idle && s.inputs != [] then
              t == s.(call := Taken(s.key, s.inputs[0], s.resetDue), inputs := s.inputs[1..], resetDue := false)
            else t == s
  {
  }

  /** A reset that succeeds leaves the settings and nothing else of what came
      before; one that fails leaves everything, and marks what comes of it. */
  lemma ResetsExactly(s: Slot, ok: bool)
    requires s.alive && s.call.Taken? && s.call.resetting
    ensures Serve(s, ResetEnds(ok)) ==
            s.(call := Taken(s.call.key, s.call.input, false), memory := if ok then {} else s.memory, unfenced := !ok)
  {
  }

  /** A call reads its input and, of the classes it uses, the newest joined; what
      it remembers then was computed from those too. */
  lemma BeginsExactly(s: Slot, used: set<Class>)
    requires s.alive && s.call.Taken? && !s.call.resetting
    ensures var t := Serve(s, Begin(used));
            && t == s.(call := Running(s.call.key, s.call.input), memory := t.memory, unfenced := t.unfenced)
            && (forall o :: o in t.memory <==>
                  || o in s.memory || o in s.call.input.sources
                  || exists c :: c in used && c in s.join && o in s.join[c].sources)
            && (t.unfenced <==> s.unfenced || s.call.input.unfenced || exists c :: c in used && c in s.join && s.join[c].unfenced)
  {
    var bundle := Bundle(s, s.call.input, used);
    assert s.call.input in bundle;
    assert forall c :: c in used && c in s.join ==> s.join[c] in bundle;
    assert forall m :: m in bundle ==> m == s.call.input || exists c :: c in used && c in s.join && m == s.join[c];
  }

  /** The oldest command is handled between calls; what is kept of it is a setting. */
  lemma HandlesExactly(s: Slot, kept: bool, reported: bool)
    ensures var t := Serve(s, TakeCommand(kept, reported));
            if s.setUp && !s.call.Running? && s.commands != [] then
              t == s.(commands := s.commands[1..], settings := if kept then s.settings + s.commands[0].sources else s.settings)
            else t == s
  {
  }

  /** What an instance publishes, and under which key: each output of a call under
      the key its input came with, an answer under the slot's own; that it has
      started, once it is set up; and an error if its task, a reset, a call or a
      command fails, the last as the command's answer. */
  lemma PublishesExactly(s: Slot, act: Act)
    requires s.alive
    ensures var out := Published(s, act);
            match act
            case SetUp => out == if s.setUp then {} else {Message(StartedNotice, s.key, None, {}, false)}
            case Fail(_) => out == {Message(ErrorReport, s.key, None, {}, false)}
            case ResetEnds(ok) =>
              out == if !ok && s.call.Taken? && s.call.resetting then {Message(ErrorReport, s.call.key, None, {}, false)} else {}
            case Finish(outputs, failed) => s.call.Running? ==> FinishedWith(s, outputs, failed, out)
            case Answer(cls, requestId) =>
              forall m :: m in out <==>
                && s.setUp && !s.call.Running?
                && m == Message(cls, s.key, requestId, s.memory + s.settings, m.unfenced)
                && (m.unfenced <==> s.unfenced || s.resetDue || (s.call.Taken? && s.call.resetting) || Older(s.settings, s.key.stream))
            case TakeCommand(_, reported) =>
              out == if reported && s.setUp && !s.call.Running? && s.commands != []
                     then {Message(ErrorReport, s.key, s.commands[0].requestId, {}, false)} else {}
            case _ => out == {}
  {
    if act.Finish? && s.call.Running? {
      FinishesWith(s, act.outputs, act.failed);
      hide Output, FinishedWith, Published;
    } else {
      hide Output, FinishedWith;
    }
  }

  /** Each output of the call is among what goes out, and nothing else is but an
      error if the call failed; all of it under the key of the call's input. */
  ghost predicate FinishedWith(s: Slot, outputs: seq<(Class, Option<string>)>, failed: bool, out: set<Message>)
    requires s.call.Running?
  {
    && (forall m :: m in out ==> m.key == s.call.key)
    && (forall o :: o in outputs ==> exists m :: m in out && m.cls == o.0 && m.requestId == o.1 && m.sources == s.memory + s.settings)
    && (failed ==> Message(ErrorReport, s.call.key, None, {}, false) in out)
    && |out| <= |outputs| + if failed then 1 else 0
  }

  lemma FinishesWith(s: Slot, outputs: seq<(Class, Option<string>)>, failed: bool)
    requires s.alive && s.call.Running?
    ensures FinishedWith(s, outputs, failed, Published(s, Finish(outputs, failed)))
  {
    var computed := set o | o in outputs :: Output(s, o);
    var out := Published(s, Finish(outputs, failed));
    assert out == computed + if failed then {Report(ErrorReport, s.call.key)} else {};
    forall o | o in outputs ensures Output(s, o) in out {
      assert Output(s, o) in computed;
    }
    AtMost(s, outputs);
  }

  lemma {:induction false} AtMost(s: Slot, outputs: seq<(Class, Option<string>)>)
    requires s.call.Running?
    ensures |set o | o in outputs :: Output(s, o)| <= |outputs|
  {
    if outputs != [] {
      var n := |outputs| - 1;
      AtMost(s, outputs[..n]);
      assert (set o | o in outputs :: Output(s, o)) == (set o | o in outputs[..n] :: Output(s, o)) + {Output(s, outputs[n])};
    }
  }

  // ---------------------------------------------------------------- who leaves

  /** A run that says it closed is taken out of service and into a drop, under a
      plain key whichever it is, and otherwise unless it is a newer one. */
  lemma ClosesExactly(h: Host, key: StreamKey)
    requires key.run in h.service ==> h.service[key.run] < |h.built|
    ensures var g := Next(h, RunClosed(key));
            if h.phase == Serving && ClosedFeed !in h.busy && key.run in h.service
               && (key.runId == 0 || h.built[h.service[key.run]].runId <= key.runId)
            then DroppedBy(h.(service := h.service - {key.run}), g, h.service[key.run], ClosedFeed)
            else g == h
  {
  }

  /** `worker` has begun to drop the slot. */
  predicate DroppedBy(h: Host, g: Host, id: nat, worker: Worker)
    requires id < |h.built|
  {
    g == h.(built := h.built[id := h.built[id].(dropped := true, drops := h.built[id].drops + 1)], busy := h.busy[worker := id])
  }

  /** So is one that was idle for too long, and at the end each in service. */
  lemma SweepsExactly(h: Host, run: string)
    requires run in h.service ==> h.service[run] < |h.built|
    ensures var g := Next(h, SweepIdle(run));
            if h.phase == Serving && Sweeper !in h.busy && run in h.service
            then DroppedBy(h.(service := h.service - {run}), g, h.service[run], Sweeper)
            else g == h
  {
  }

  /** What was retired first is dropped first, unless that was done. */
  lemma ReapsExactly(h: Host)
    requires h.retired != [] ==> h.retired[0] < |h.built|
    ensures var g := Next(h, Reap);
            if h.phase == Serving && Reaper !in h.busy && h.retired != [] then
              var rest := h.(retired := h.retired[1..]);
              if h.built[h.retired[0]].dropped then g == rest else DroppedBy(rest, g, h.retired[0], Reaper)
            else g == h
  {
  }

  /** An instance whose task fails is retired, and its run left alone for a while;
      what took its place stays in service. */
  lemma FailsExactly(h: Host, id: nat, now: real)
    requires id < |h.built| && h.built[id].alive && !h.built[id].ended
    ensures var run, g := h.built[id].run, Next(h, Instance(id, Fail(now)));
            && g == h.(built := h.built[id := h.built[id].(alive := false)], retryAt := g.retryAt, service := g.service,
                       retired := h.retired + [id])
            && g.retryAt == h.retryAt[run := now + h.retrySeconds]
            && g.service == (if run in h.service && h.service[run] == id then h.service - {run} else h.service)
  {
  }

  /** A wait that is over is forgotten, and no other. */
  lemma ForgetsExactly(h: Host, now: real)
    requires h.phase == Serving
    ensures var g := Next(h, SweepRetries(now));
            && g == h.(retryAt := g.retryAt)
            && (forall r :: r in g.retryAt <==> r in h.retryAt && h.retryAt[r] > now)
            && (forall r :: r in g.retryAt ==> g.retryAt[r] == h.retryAt[r])
  {
  }

  // ---------------------------------------------------------------- the end

  /** A drop ends with the instance's tasks over, and torn down if it was set up. */
  lemma DropEndsExactly(h: Host, worker: Worker)
    requires worker in h.busy && h.busy[worker] < |h.built|
    ensures var id, g := h.busy[worker], Next(h, DropEnds(worker));
            var s := h.built[id];
            && g == h.(busy := h.busy - {worker}, built := h.built[id := g.built[id]])
            && g.built[id] == s.(alive := false, ended := true, tearDowns := if s.setUp then s.tearDowns + 1 else s.tearDowns)
  {
  }

  /** `serve` on its way out never stops short, unless it is cancelled again: once
      the feeds and sweeps have ended it evicts what was in service, one run after
      another, then drops what is retired, the oldest first, and returns. */
  lemma ShutdownGoesOn(h: Host, order: seq<string>)
    ensures h.phase == Serving ==> Next(h, Stop) == h.(phase := Stopping)
    ensures h.phase == Stopping && h.busy == map[] && (forall r :: r in order <==> r in h.service) ==>
              Next(h, FeedsEnded(order)) == h.(phase := Evicting, toEvict := order)
    ensures h.phase == Evicting && Server !in h.busy && h.toEvict == [] ==> Next(h, ToDrain) == h.(phase := Draining)
    ensures h.phase == Draining && Server !in h.busy && h.retired != [] ==>
              var g := Next(h, DrainNext);
              g.phase == Draining && g.retired == h.retired[1..]
              && (h.retired[0] < |h.built| && !h.built[h.retired[0]].dropped ==>
                    Server in g.busy && g.busy[Server] == h.retired[0])
    ensures h.phase == Draining && Server !in h.busy && h.retired == [] ==> Next(h, Return) == h.(phase := Returned)
  {
    if h.phase == Stopping && h.busy == map[] && forall r :: r in order <==> r in h.service {
      assert (set r | r in order) == h.service.Keys;
    }
  }

  /** Each eviction on the way takes the next run out of service and into a drop. */
  lemma EvictsNextExactly(h: Host)
    requires h.phase == Evicting && Server !in h.busy && h.toEvict != []
    ensures var g, run := Next(h, EvictNext), h.toEvict[0];
            && g.phase == Evicting && g.toEvict == h.toEvict[1..] && g.retired == h.retired
            && (run in h.service && h.service[run] < |h.built| ==>
                  g.service == h.service - {run} && Server in g.busy && g.busy[Server] == h.service[run])
  {
  }

  /** Cancelled again, it stops where it is: while it evicts or drains, or as soon
      as its feeds have ended. */
  lemma InterruptsExactly(h: Host)
    ensures Next(h, Interrupt) ==
            if h.phase == Evicting || h.phase == Draining
               || (h.phase == Stopping && ClosedFeed !in h.busy && Sweeper !in h.busy && Reaper !in h.busy)
            then h.(phase := Aborted) else h
  {
    if ClosedFeed !in h.busy && Sweeper !in h.busy && Reaper !in h.busy {
      forall w | w in h.busy.Keys ensures w in {Server} {
        match w
        case Server =>
        case _ =>
      }
    }
  }
}
