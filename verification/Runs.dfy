/** A run: what it publishes, and what it keeps of what it hears.

    `Run` is a run's state, the functions its steps; `PipelineRun` is the run as
    an object, its methods proved against the functions. What a source or the
    router decides is in the arguments. */
module Runs {
  import opened Keys
  import opened Wire

  /** The pipeline's classes, as a run needs them: what modules read, what they
      publish, and which class is the player's status. */
  datatype Pipeline = Pipeline(inputs: set<Class>, results: set<Class>, status: Class)

  /** A subscription to a shared live run: which one, told apart by number. */
  datatype Following = Following(number: nat, key: string)

  datatype Run = Run(
    key: string,
    id: int,
    shared: bool,
    stream: nat,
    mark: Option<(int, int)>,
    latest: map<Class, Message>,
    frame: Option<Message>,
    following: Option<Following>,
    followedStatus: Option<Message>,
    subscribed: nat,          // live subscriptions opened
    serial: nat,              // messages published
    outbox: seq<Message>)

  /** What the router hands the run: a message of some class; for a status,
      whether it is of a live source and of which; and whether it is the frame
      at the cursor. */
  datatype Item = Item(cls: Class, live: bool, source: string, atCursor: bool)

  function LiveKey(source: string): string
  {
    "live." + source
  }

  function KeyOf(r: Run): StreamKey
  {
    StreamKey(r.key, r.id, r.stream)
  }

  function NewRun(key: string, id: int, shared: bool): Run
  {
    Run(key, id, shared, 0, None, map[], None, None, None, 0, 0, [])
  }

  /** The stream number goes up when the router's mark has changed. */
  function Marked(r: Run, mark: (int, int)): Run
  {
    if r.mark == Some(mark) then r else r.(mark := Some(mark), stream := r.stream + 1)
  }

  function Unfollow(r: Run): Run
  {
    r.(following := None, followedStatus := None)
  }

  /** The live run to follow under a status, if any. */
  function Target(r: Run, live: bool, source: string): Option<string>
  {
    if live && !r.shared then Some(LiveKey(source)) else None
  }

  function Follow(r: Run, p: Pipeline, live: bool, source: string): Run
  {
    var target := Target(r, live, source);
    var now := if r.following.None? then None else Some(r.following.value.key);
    if now == target then r
    else
      var u := Unfollow(r);
      var v := u.(latest := u.latest - p.results);
      if target.None? then v
      else v.(frame := None, following := Some(Following(v.subscribed, target.value)), subscribed := v.subscribed + 1)
  }

  /** The message published: under the run's key as it is after the mark. */
  function Stamped(r: Run, item: Item): Message
  {
    Message(item.cls, KeyOf(r), None, {Origin(KeyOf(r), r.serial)}, false)
  }

  function OnWire(r: Run, p: Pipeline, item: Item): bool
  {
    (r.shared && (item.atCursor || item.cls == p.status)) || item.cls in p.inputs || item.cls == ErrorReport
  }

  /** A message published, kept, and if it is for the modules or for those who
      follow, put on the wire. */
  function Send(a: Run, p: Pipeline, item: Item): Run
  {
    var m := Stamped(a, item);
    var b := if item.cls == p.status then Follow(a, p, item.live, item.source)
             else if item.atCursor then a.(frame := Some(m)) else a;
    b.(latest := b.latest[item.cls := m],
       serial := b.serial + 1,
       outbox := if OnWire(a, p, item) then b.outbox + [m] else b.outbox)
  }

  function Put(r: Run, p: Pipeline, mark: (int, int), item: Item): Run
  {
    Send(Marked(r, mark), p, item)
  }

  /** Whether a key is this run's, or a plain one. */
  predicate Ours(r: Run, key: StreamKey)
  {
    key.runId == 0 || key.runId == r.id
  }

  /** Whether a result is kept: ours, and not from before the stream started
      over, unless it answers a command. */
  predicate Kept(r: Run, m: Message)
  {
    Ours(r, m.key) && !(0 < m.key.stream < r.stream && m.requestId.None?)
  }

  function Hear(r: Run, m: Message): Run
  {
    if Kept(r, m) then r.(latest := r.latest[m.cls := m]) else r
  }

  /** A message off a live subscription, which may no longer be the one. */
  function HearFollowed(r: Run, p: Pipeline, number: nat, m: Message, frames: Class): Run
  {
    if r.following.None? || r.following.value.number != number then r
    else if m.cls == p.status then r.(followedStatus := Some(m))
    else
      r.(frame := if m.cls == frames then Some(m) else r.frame, latest := r.latest[m.cls := m])
  }

  /** The run as an object. */
  class PipelineRun {
    const key: string
    const runId: int
    const shared: bool
    const pipeline: Pipeline
    var stream: nat
    var mark: Option<(int, int)>
    var latest: map<Class, Message>
    var frame: Option<Message>
    var following: Option<Following>
    var followedStatus: Option<Message>
    var subscribed: nat
    var serial: nat
    var outbox: seq<Message>
    var outboxKey: StreamKey

    ghost function State(): Run
      reads this
    {
      Run(key, runId, shared, stream, mark, latest, frame, following, followedStatus, subscribed, serial, outbox)
    }

    /** The outbox publishes under the run's key as it is. */
    ghost predicate Valid()
      reads this
    {
      outboxKey == KeyOf(State())
    }

    constructor (key: string, runId: int, shared: bool, pipeline: Pipeline)
      ensures Valid() && State() == NewRun(key, runId, shared) && this.pipeline == pipeline
    {
      this.key, this.runId, this.shared, this.pipeline := key, runId, shared, pipeline;
      stream, mark, latest, frame := 0, None, map[], None;
      following, followedStatus, subscribed := None, None, 0;
      serial, outbox, outboxKey := 0, [], StreamKey(key, runId, 0);
    }

    method Publish(routerMark: (int, int), item: Item)
      requires Valid()
      modifies this
      ensures Valid() && State() == Put(old(State()), pipeline, routerMark, item)
    {
      hide Marked, Send;
      MarkStream(routerMark);
      SendOne(item);
    }

    method SendOne(item: Item)
      requires Valid()
      modifies this
      ensures Valid() && State() == Send(old(State()), pipeline, item)
    {
      hide Follow;
      var message := Message(item.cls, outboxKey, None, {Origin(outboxKey, serial)}, false);
      assert message == Stamped(State(), item);
      hide Stamped;
      var fromShared := shared && (item.atCursor || item.cls == pipeline.status);
      if item.cls == pipeline.status {
        FollowStatus(item.live, item.source);
      } else if item.atCursor {
        frame := Some(message);
      }
      serial := serial + 1;
      Remember(message);
      if fromShared || item.cls in pipeline.inputs || item.cls == ErrorReport {
        outbox := outbox + [message];
      }
    }

    /** A changed mark is a new stream: everything from now on goes out under it. */
    method MarkStream(routerMark: (int, int))
      requires Valid()
      modifies `mark, `stream, `outboxKey
      ensures Valid() && State() == Marked(old(State()), routerMark)
    {
      if mark != Some(routerMark) {
        mark := Some(routerMark);
        stream := stream + 1;
        outboxKey := StreamKey(key, runId, stream);
      }
    }

    method Remember(message: Message)
      modifies `latest
      ensures latest == old(latest)[message.cls := message]
    {
      latest := latest[message.cls := message];
    }

    method FollowStatus(live: bool, source: string)
      modifies `following, `followedStatus, `latest, `frame, `subscribed
      ensures State() == Follow(old(State()), pipeline, live, source)
    {
      var target := if live && !shared then Some(LiveKey(source)) else None;
      var now := if following.None? then None else Some(following.value.key);
      if now == target {
        return;
      }
      StopFollowing();
      latest := latest - pipeline.results;
      if target.None? {
        return;
      }
      frame := None;
      following := Some(Following(subscribed, target.value));
      subscribed := subscribed + 1;
    }

    method StopFollowing()
      modifies `following, `followedStatus
      ensures State() == Unfollow(old(State()))
    {
      if following.Some? {
        following := None;
      }
      followedStatus := None;
    }

    method Receive(m: Message)
      modifies `latest
      ensures State() == Hear(old(State()), m)
      ensures latest == if (m.key.runId == 0 || m.key.runId == runId) && (m.requestId.Some? || m.key.stream <= 0 || m.key.stream >= stream)
                        then old(latest)[m.cls := m] else old(latest)
    {
      if !(m.key.runId == 0 || m.key.runId == runId) {
        return;
      }
      if 0 < m.key.stream < stream && m.requestId.None? {
        return;
      }
      Remember(m);
    }

    method ReceiveFollowed(number: nat, m: Message, frames: Class)
      modifies `followedStatus, `frame, `latest
      ensures State() == HearFollowed(old(State()), pipeline, number, m, frames)
    {
      if following.None? || following.value.number != number {
        return;
      }
      if m.cls == pipeline.status {
        followedStatus := Some(m);
        return;
      }
      if m.cls == frames {
        frame := Some(m);
      }
      Remember(m);
    }
  }
}
