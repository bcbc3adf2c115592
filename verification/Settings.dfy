/** Settings survive: however often a module's instance is dropped, fails and
    is built again, once things are quiet it has the settings last sent.

    A run remembers the last command of each sticky class it sent a module, and
    sends them again to an instance that says it has started. Nothing is
    acknowledged; the argument is about what is on its way. */
module Settings {
  import opened Keys

  type Class = nat

  /** A command as it travels; two with one setting differ only in when they
      were stamped. */
  datatype Command = Command(cls: Class, setting: nat, stamp: int)

  /** Which classes are sticky, and which module takes a class. */
  datatype Directory = Directory(sticky: set<Class>, receiver: map<Class, string>)

  datatype Refusal = NotNow | NoReceiver | NotPerViewer

  // ---------------------------------------------------------------- order within a class

  function Of(cs: seq<Command>, cls: Class): (r: seq<Command>)
  {
    if cs == [] then [] else
      Of(cs[..|cs| - 1], cls) + if cs[|cs| - 1].cls == cls then [cs[|cs| - 1]] else []
  }

  lemma {:induction false} OfAppend(a: seq<Command>, b: seq<Command>, cls: Class)
    ensures Of(a + b, cls) == Of(a, cls) + Of(b, cls)
  {
    if b == [] {
      assert a + b == a;
    } else {
      OfAppend(a, b[..|b| - 1], cls);
      assert (a + b)[..|a + b| - 1] == a + b[..|b| - 1];
    }
  }

  lemma OfHead(cs: seq<Command>, cls: Class)
    requires cs != []
    ensures Of(cs, cls) == (if cs[0].cls == cls then [cs[0]] else []) + Of(cs[1..], cls)
  {
    assert cs == [cs[0]] + cs[1..];
    OfAppend([cs[0]], cs[1..], cls);
    assert [cs[0]][..0] == [];
    assert Of([cs[0]], cls) == Of([], cls) + if cs[0].cls == cls then [cs[0]] else [];
  }

  // ---------------------------------------------------------------- the run's side

  /** The sending half of a run: what it remembers and what it hands its
      outbox. While it follows a live run, the modules that read the stream are
      not its own to set. */
  class Sender {
    const directory: Directory
    const player: set<Class>                // the commands the run's own player takes
    const readers: set<string>              // the modules that read the stream
    var following: bool
    var remembered: map<Class, nat>
    var outbox: seq<Command>

    constructor (directory: Directory, player: set<Class>, readers: set<string>)
      ensures this.directory == directory && this.player == player && this.readers == readers
      ensures !following && remembered == map[] && outbox == []
    {
      this.directory, this.player, this.readers := directory, player, readers;
      following, remembered, outbox := false, map[], [];
    }

    /** Sends a command, or says why not; a refused one leaves no trace. `applies`
        is whether the player would take it as things are: asked of its own
        commands only, which are not remembered. */
    method Dispatch(c: Command, applies: bool) returns (refusal: Option<Refusal>)
      modifies `remembered, `outbox
      ensures refusal == Some(NotNow) <==> c.cls in player && !applies
      ensures refusal == Some(NoReceiver) <==> c.cls !in player && c.cls !in directory.receiver
      ensures refusal == Some(NotPerViewer) <==>
                c.cls !in player && c.cls in directory.receiver && following && directory.receiver[c.cls] in readers
      ensures refusal.Some? ==> remembered == old(remembered) && outbox == old(outbox)
      ensures refusal.None? ==>
                && outbox == old(outbox) + [c]
                && remembered == if c.cls in directory.sticky - player then old(remembered)[c.cls := c.setting] else old(remembered)
    {
      if c.cls in player {
        if !applies {
          return Some(NotNow);
        }
      } else {
        if c.cls !in directory.receiver {
          return Some(NoReceiver);
        }
        if following && directory.receiver[c.cls] in readers {
          return Some(NotPerViewer);
        }
        if c.cls in directory.sticky {
          remembered := remembered[c.cls := c.setting];
        }
      }
      outbox := outbox + [c];
      refusal := None;
    }

    /** An instance of a module started: every remembered setting of that
        module is sent again, once, stamped now, and nothing else is. */
    method Resend(moduleName: string, now: int)
      modifies `outbox
      ensures old(outbox) <= outbox
      ensures forall cls :: Of(outbox[|old(outbox)|..], cls) == Resent(directory, remembered, moduleName, now, cls)
      ensures forall c :: c in outbox[|old(outbox)|..] <==>
                && c.stamp == now && c.cls in remembered && c.setting == remembered[c.cls]
                && c.cls in directory.receiver && directory.receiver[c.cls] == moduleName
    {
      var left := remembered.Keys;
      ghost var sent: seq<Command> := [];
      OfNone();
      assert SentSoFar(directory, remembered, moduleName, now, left, sent);
      while left != {}
        invariant left <= remembered.Keys
        invariant outbox == old(outbox) + sent
        invariant SentSoFar(directory, remembered, moduleName, now, left, sent)
        decreases left
      {
        var cls :| cls in left;
        SentMore(directory, remembered, moduleName, now, left, sent, cls);
        hide SentSoFar, Of;
        left := left - {cls};
        if cls in directory.receiver && directory.receiver[cls] == moduleName {
          var copy := Command(cls, remembered[cls], now);
          Appended(old(outbox), sent, copy);
          outbox := outbox + [copy];
          sent := sent + [copy];
        }
      }
      assert outbox[|old(outbox)|..] == sent;
      SentAgain(directory, remembered, moduleName, now, sent);
    }
  }

  lemma {:induction false} IsOfItsClass(cs: seq<Command>, c: Command)
    ensures c in cs <==> c in Of(cs, c.cls)
  {
    if cs != [] {
      IsOfItsClass(cs[..|cs| - 1], c);
      assert cs == cs[..|cs| - 1] + [cs[|cs| - 1]];
    }
  }

  /** What is sent again is each remembered setting of the module, as it was, but
      stamped now: an old stamp would have it refused as late. */
  lemma SentAgain(d: Directory, remembered: map<Class, nat>, moduleName: string, now: int, sent: seq<Command>)
    requires forall cls :: Of(sent, cls) == Resent(d, remembered, moduleName, now, cls)
    ensures forall c :: c in sent <==>
              && c.stamp == now && c.cls in remembered && c.setting == remembered[c.cls]
              && c.cls in d.receiver && d.receiver[c.cls] == moduleName
  {
    forall c ensures c in sent <==> c in Resent(d, remembered, moduleName, now, c.cls) {
      IsOfItsClass(sent, c);
    }
  }

  /** What was sent again is that of the classes no longer `left`. */
  ghost predicate SentSoFar(d: Directory, remembered: map<Class, nat>, moduleName: string, now: int, left: set<Class>, sent: seq<Command>)
  {
    forall cls :: Of(sent, cls) == if cls in left then [] else Resent(d, remembered, moduleName, now, cls)
  }

  lemma SentMore(d: Directory, remembered: map<Class, nat>, moduleName: string, now: int, left: set<Class>, sent: seq<Command>, cls: Class)
    requires SentSoFar(d, remembered, moduleName, now, left, sent) && cls in left && left <= remembered.Keys
    ensures var copies := Resent(d, remembered, moduleName, now, cls);
            && SentSoFar(d, remembered, moduleName, now, left - {cls}, sent + copies)
            && (copies == [] ==> SentSoFar(d, remembered, moduleName, now, left - {cls}, sent))
  {
    var copies := Resent(d, remembered, moduleName, now, cls);
    if copies == [] {
      assert sent + copies == sent;
    } else {
      OfAppendOne(sent, copies[0]);
    }
    hide Of;
  }

  lemma Appended(before: seq<Command>, sent: seq<Command>, copy: Command)
    ensures before + sent + [copy] == before + (sent + [copy])
  {
  }

  lemma OfNone()
    ensures forall cls :: Of([], cls) == []
  {
  }

  lemma OfAppendOne(cs: seq<Command>, c: Command)
    ensures forall cls :: Of(cs + [c], cls) == Of(cs, cls) + if c.cls == cls then [c] else []
  {
    assert (cs + [c])[..|cs|] == cs;
  }

  /** What one class is sent again when a module's instance starts. */
  function Resent(d: Directory, remembered: map<Class, nat>, moduleName: string, now: int, cls: Class): seq<Command>
  {
    if cls in remembered && cls in d.receiver && d.receiver[cls] == moduleName
    then [Command(cls, remembered[cls], now)] else []
  }

  // ---------------------------------------------------------------- run, transport and host

  /** An instance: what it was sent and has not yet taken, the last it took of
      each class, and whether it is set up. */
  datatype Instance = Instance(queue: seq<Command>, taken: map<Class, Command>, setUp: bool)

  /** A run, one module's host, and what is between them: the run's outbox, a
      topic per class, and the announcements of started instances. */
  datatype World = World(
    directory: Directory,
    moduleName: string,
    remembered: map<Class, nat>,
    outbox: seq<Command>,
    topics: map<Class, seq<Command>>,
    announced: nat,
    instance: Option<Instance>,
    leftAlone: bool)

  datatype Event =
    | Dispatched(c: Command)
    | Sent                          // the outbox's next command reaches its topic
    | Delivered(cls: Class)         // a topic's next command reaches the host
    | Woken                         // another message of the run reaches the host
    | SetUp
    | Heard(resent: seq<Command>, now: int)   // the run hears an announcement
    | Took                          // the instance takes its next command
    | Failed
    | Dropped
    | WaitOver

  function Topic(w: World, cls: Class): seq<Command>
  {
    if cls in w.topics then w.topics[cls] else []
  }

  /** The host's instance, built if it has none and may build one. */
  function Built(w: World): World
  {
    if w.instance.None? && !w.leftAlone then w.(instance := Some(Instance([], map[], false))) else w
  }

  ghost function Step(w: World, e: Event): World
  {
    match e
    case Dispatched(c) =>
      if c.cls !in w.directory.receiver then w
      else w.(outbox := w.outbox + [c],
              remembered := if c.cls in w.directory.sticky then w.remembered[c.cls := c.setting] else w.remembered)
    case Sent =>
      if w.outbox == [] then w
      else w.(outbox := w.outbox[1..],
              topics := w.topics[w.outbox[0].cls := Topic(w, w.outbox[0].cls) + [w.outbox[0]]])
    case Delivered(cls) =>
      if Topic(w, cls) == [] || cls !in w.directory.receiver || w.directory.receiver[cls] != w.moduleName then w
      else
        var v := Built(w.(topics := w.topics[cls := Topic(w, cls)[1..]]));
        if v.instance.None? then v
        else v.(instance := Some(v.instance.value.(queue := v.instance.value.queue + [Topic(w, cls)[0]])))
    case Woken => Built(w)
    case SetUp =>
      if w.instance.Some? && !w.instance.value.setUp
      then w.(instance := Some(w.instance.value.(setUp := true)), announced := w.announced + 1) else w
    case Heard(resent, now) =>
      if w.announced > 0 && forall cls :: Of(resent, cls) == Resent(w.directory, w.remembered, w.moduleName, now, cls)
      then w.(announced := w.announced - 1, outbox := w.outbox + resent) else w
    case Took =>
      if w.instance.Some? && w.instance.value.setUp && w.instance.value.queue != [] then
        var i := w.instance.value;
        w.(instance := Some(i.(queue := i.queue[1..], taken := i.taken[i.queue[0].cls := i.queue[0]])))
      else w
    case Failed => if w.instance.Some? then w.(instance := None, leftAlone := true) else w
    case Dropped => w.(instance := None)
    case WaitOver => w.(leftAlone := false)
  }

  function Initial(d: Directory, moduleName: string): World
  {
    World(d, moduleName, map[], [], map[], 0, None, false)
  }

  ghost function After(d: Directory, moduleName: string, events: seq<Event>): World
  {
    if events == [] then Initial(d, moduleName)
    else Step(After(d, moduleName, events[..|events| - 1]), events[|events| - 1])
  }

  /** What of a class is on its way to the host, in order. */
  function OnTheWay(w: World, cls: Class): seq<Command>
  {
    Topic(w, cls) + Of(w.outbox, cls)
  }

  /** The last setting of a class an instance was sent. */
  function LastSent(i: Instance, cls: Class): Option<nat>
  {
    var q := Of(i.queue, cls);
    if q != [] then Some(q[|q| - 1].setting)
    else if cls in i.taken then Some(i.taken[cls].setting) else None
  }

  /** The module's sticky classes that the run has sent. */
  predicate Due(w: World, cls: Class)
  {
    cls in w.remembered && cls in w.directory.receiver && w.directory.receiver[cls] == w.moduleName
  }

  /** Whatever is on its way of a class ends with the setting last sent; and if
      nothing is, then an instance that runs and whose announcement was heard
      was sent that setting last. */
  ghost predicate Converges(w: World, cls: Class)
    requires cls in w.remembered
  {
    var way := OnTheWay(w, cls);
    && (way != [] ==> way[|way| - 1].setting == w.remembered[cls])
    && (way == [] && w.announced == 0 && w.instance.Some? && w.instance.value.setUp ==>
          LastSent(w.instance.value, cls) == Some(w.remembered[cls]))
  }

  ghost predicate Filed(w: World)
  {
    && w.remembered.Keys <= w.directory.sticky
    && (forall cls :: cls in w.topics ==> forall c :: c in w.topics[cls] ==> c.cls == cls)
  }

  ghost predicate Converging(w: World)
  {
    Filed(w) && forall cls :: Due(w, cls) ==> Converges(w, cls)
  }

  lemma DispatchedConverging(w: World, c: Command)
    requires Converging(w)
    ensures Converging(Step(w, Dispatched(c)))
  {
    var v := Step(w, Dispatched(c));
    OfAppendOne(w.outbox, c);
    forall cls | Due(v, cls) ensures Converges(v, cls) {
      assert OnTheWay(v, cls) == OnTheWay(w, cls) + if v != w && c.cls == cls then [c] else [];
      assert c.cls != cls ==> Due(w, cls);
    }
  }

  lemma SentWay(w: World, cls: Class)
    requires w.outbox != []
    ensures OnTheWay(Step(w, Sent), cls) == OnTheWay(w, cls)
  {
    OfHead(w.outbox, cls);
  }

  lemma SentConverging(w: World)
    requires Converging(w) && w.outbox != []
    ensures Converging(Step(w, Sent))
  {
    var v := Step(w, Sent);
    forall cls | Due(v, cls) ensures Converges(v, cls) {
      SentWay(w, cls);
      assert Due(w, cls);
    }
  }

  lemma QueuedIsLast(i: Instance, c: Command, cls: Class)
    ensures LastSent(i.(queue := i.queue + [c]), cls) == if c.cls == cls then Some(c.setting) else LastSent(i, cls)
  {
    OfAppendOne(i.queue, c);
  }

  lemma DeliveredWay(w: World, cls: Class, k: Class)
    requires Step(w, Delivered(cls)) != w
    ensures OnTheWay(w, k) == (if k == cls then [Topic(w, cls)[0]] else []) + OnTheWay(Step(w, Delivered(cls)), k)
  {
    var topic := Topic(w, cls);
    assert Topic(Step(w, Delivered(cls)), cls) == topic[1..];
    assert topic == [topic[0]] + topic[1..];
  }

  lemma DeliveredInstance(w: World, cls: Class)
    requires Step(w, Delivered(cls)) != w
    ensures var v := Step(w, Delivered(cls));
            && v.announced == w.announced && v.remembered == w.remembered
            && (w.instance.Some? ==>
                  v.instance == Some(w.instance.value.(queue := w.instance.value.queue + [Topic(w, cls)[0]])))
            && (w.instance.None? && v.instance.Some? ==> !v.instance.value.setUp)
  {
  }

  /** A command leaves its topic for the host, which may build nothing. */
  lemma DeliveredConverges(w: World, cls: Class, k: Class)
    requires Converging(w) && Due(w, k) && Step(w, Delivered(cls)) != w
    ensures Converges(Step(w, Delivered(cls)), k)
  {
    assert Topic(w, cls)[0] in w.topics[cls];
    DeliveredWay(w, cls, k);
    DeliveredInstance(w, cls);
    if w.instance.Some? {
      QueuedIsLast(w.instance.value, Topic(w, cls)[0], k);
    }
  }

  lemma DeliveredConverging(w: World, cls: Class)
    requires Converging(w)
    ensures Converging(Step(w, Delivered(cls)))
  {
    var v := Step(w, Delivered(cls));
    if v != w {
      forall k | Due(v, k) ensures Converges(v, k) {
        DeliveredConverges(w, cls, k);
      }
      assert v.topics == w.topics[cls := Topic(w, cls)[1..]];
      assert forall c :: c in Topic(w, cls)[1..] ==> c in w.topics[cls];
    }
  }

  lemma HeardConverging(w: World, resent: seq<Command>, now: int)
    requires Converging(w)
    ensures Converging(Step(w, Heard(resent, now)))
  {
    var v := Step(w, Heard(resent, now));
    if v != w {
      forall cls | Due(v, cls) ensures Converges(v, cls) {
        OfAppend(w.outbox, resent, cls);
        assert OnTheWay(v, cls) == OnTheWay(w, cls) + [Command(cls, w.remembered[cls], now)];
      }
    }
  }

  lemma TookConverging(w: World)
    requires Converging(w)
    ensures Converging(Step(w, Took))
  {
    var v := Step(w, Took);
    if v != w {
      var i := w.instance.value;
      forall cls | Due(v, cls) ensures Converges(v, cls) {
        OfHead(i.queue, cls);
        assert LastSent(v.instance.value, cls) == LastSent(i, cls);
        assert OnTheWay(v, cls) == OnTheWay(w, cls) && Due(w, cls);
      }
    }
  }

  /** A step of the host alone: nothing on the way moves, and an instance is
      new, gone, announced, or as it was. */
  lemma QuietStep(w: World, v: World)
    requires Converging(w)
    requires v.directory == w.directory && v.moduleName == w.moduleName && v.remembered == w.remembered
    requires v.outbox == w.outbox && v.topics == w.topics
    requires v.instance.None? || !v.instance.value.setUp || v.announced > 0
             || (v.announced == w.announced && v.instance == w.instance)
    ensures Converging(v)
  {
    forall cls | Due(v, cls) ensures Converges(v, cls) {
      assert OnTheWay(v, cls) == OnTheWay(w, cls) && Due(w, cls);
    }
  }

  lemma StepConverging(w: World, e: Event)
    requires Converging(w)
    ensures Converging(Step(w, e))
  {
    match e
    case Dispatched(c) => DispatchedConverging(w, c);
    case Sent => if w.outbox != [] { SentConverging(w); }
    case Delivered(cls) => DeliveredConverging(w, cls);
    case Heard(resent, now) => HeardConverging(w, resent, now);
    case Took => TookConverging(w);
    case _ => QuietStep(w, Step(w, e));
  }

  lemma {:induction false} AfterConverging(d: Directory, moduleName: string, events: seq<Event>)
    ensures Converging(After(d, moduleName, events))
  {
    if events != [] {
      AfterConverging(d, moduleName, events[..|events| - 1]);
      StepConverging(After(d, moduleName, events[..|events| - 1]), events[|events| - 1]);
    }
  }

  /** What becomes of instances: one that fails is gone, and its run left alone
      until the wait is over; one that is dropped is gone; and the next message
      builds one anew, with nothing taken and nothing to take. */
  lemma InstancesComeAndGo(w: World)
    ensures w.instance.Some? ==> Step(w, Failed) == w.(instance := None, leftAlone := true)
    ensures Step(w, Dropped) == w.(instance := None) && Step(w, WaitOver) == w.(leftAlone := false)
    ensures w.instance.None? && !w.leftAlone ==> Step(w, Woken) == w.(instance := Some(Instance([], map[], false)))
    ensures w.instance.Some? || w.leftAlone ==> Step(w, Woken) == w
  {
  }

  /** How commands travel: the outbox's oldest to the end of its class's topic; a
      topic's oldest to the end of what the instance has to take, one being built
      for it if there is none, or to nobody, if the run is left alone; and the
      instance, once set up, takes the oldest of those. */
  lemma CommandsTravel(w: World, cls: Class)
    ensures w.outbox != [] ==>
              var c := w.outbox[0];
              Step(w, Sent) == w.(outbox := w.outbox[1..], topics := w.topics[c.cls := Topic(w, c.cls) + [c]])
    ensures Topic(w, cls) != [] && cls in w.directory.receiver && w.directory.receiver[cls] == w.moduleName ==>
              var v, c := Step(w, Delivered(cls)), Topic(w, cls)[0];
              && v == w.(topics := w.topics[cls := Topic(w, cls)[1..]], instance := v.instance)
              && (w.instance.Some? ==> v.instance == Some(w.instance.value.(queue := w.instance.value.queue + [c])))
              && (w.instance.None? && !w.leftAlone ==> v.instance == Some(Instance([c], map[], false)))
              && (w.instance.None? && w.leftAlone ==> v.instance == None)
    ensures w.instance.Some? && w.instance.value.setUp && w.instance.value.queue != [] ==>
              var i := w.instance.value;
              Step(w, Took) == w.(instance := Some(Instance(i.queue[1..], i.taken[i.queue[0].cls := i.queue[0]], true)))
  {
    var topic := Topic(w, cls);
    if topic != [] {
      assert [] + [topic[0]] == [topic[0]];
    }
  }

  /** Nothing is on its way, and no instance is being set up or has commands
      to take. */
  ghost predicate Quiet(w: World)
  {
    && w.outbox == [] && w.announced == 0
    && (forall cls :: cls in w.topics && cls in w.directory.receiver && w.directory.receiver[cls] == w.moduleName ==>
          w.topics[cls] == [])
    && (w.instance.Some? ==> w.instance.value.setUp && w.instance.value.queue == [])
  }

  /** The setting the run was last asked to send of a class, if the class is
      sticky and a module takes it. */
  function LastAsked(d: Directory, events: seq<Event>, cls: Class): Option<nat>
  {
    if events == [] then None else
      var last := events[|events| - 1];
      if last.Dispatched? && last.c.cls == cls && cls in d.sticky && cls in d.receiver then Some(last.c.setting)
      else LastAsked(d, events[..|events| - 1], cls)
  }

  lemma {:induction false} RememberedIsLastAsked(d: Directory, moduleName: string, events: seq<Event>, cls: Class)
    ensures var w := After(d, moduleName, events);
            && w.directory == d && w.moduleName == moduleName
            && LastAsked(d, events, cls) == if cls in w.remembered then Some(w.remembered[cls]) else None
  {
    if events != [] {
      RememberedIsLastAsked(d, moduleName, events[..|events| - 1], cls);
    }
  }

  /** In every quiet state, whatever happened before, an instance in service has
      last taken, of every sticky class its module takes, the setting the run was
      last asked to send. */
  lemma SettingsConverge(d: Directory, moduleName: string, events: seq<Event>, cls: Class)
    requires var w := After(d, moduleName, events); Quiet(w) && w.instance.Some?
    requires LastAsked(d, events, cls).Some? && cls in d.receiver && d.receiver[cls] == moduleName
    ensures var w := After(d, moduleName, events);
            && cls in w.instance.value.taken
            && w.instance.value.taken[cls].setting == LastAsked(d, events, cls).value
  {
    RememberedIsLastAsked(d, moduleName, events, cls);
    AfterConverging(d, moduleName, events);
    var w := After(d, moduleName, events);
    hide After, LastAsked, Converging, Quiet;
    QuietConverged(w, cls);
  }

  lemma QuietConverged(w: World, cls: Class)
    requires Converging(w) && Quiet(w) && w.instance.Some? && Due(w, cls)
    ensures cls in w.instance.value.taken && w.instance.value.taken[cls].setting == w.remembered[cls]
  {
    assert OnTheWay(w, cls) == [];
    assert Converges(w, cls);
  }
}
