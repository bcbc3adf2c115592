/** What travels on the transport, with what it was computed from.

    `sources` and `unfenced` are not part of a message; they record, for the
    proofs, which frames a message was computed from, and whether it was
    computed across a point where the stream's fence does not reach. */
module Wire {
  import opened Keys

  /** A message's class: the pipeline's own, an error report, or the notice that
      an instance has started. */
  datatype Class = Model(id: nat) | ErrorReport | StartedNotice

  /** A frame a run published: the key it went out under, and which it was. */
  datatype Origin = Origin(key: StreamKey, serial: nat)

  datatype Message = Message(
    cls: Class,
    key: StreamKey,
    requestId: Option<string>,
    sources: set<Origin>,
    unfenced: bool)

  /** Everything was computed from frames of the key's own run, and, unless
      it crossed a gap in the fence, from none older than the key's stream. */
  ghost predicate Fenced(m: Message)
  {
    && OwnFrames(m.sources, m.key.run, m.key.runId)
    && (!m.unfenced ==> NoneBefore(m.sources, m.key.stream))
    && (m.key.runId != 0 ==> m.key.stream >= 1)
  }

  ghost predicate OwnFrames(sources: set<Origin>, run: string, runId: int)
  {
    forall o :: o in sources ==> o.key.run == run && o.key.runId == runId && runId > 0 && o.key.stream >= 1
  }

  ghost predicate NoneBefore(sources: set<Origin>, stream: int)
  {
    forall o :: o in sources ==> o.key.stream >= stream
  }

  /** Some of it is of a stream before this one. */
  predicate Older(sources: set<Origin>, stream: int)
  {
    exists o :: o in sources && o.key.stream < stream
  }

  /** Everything a set of messages was computed from. */
  function SourcesOf(bundle: set<Message>): (s: set<Origin>)
    ensures forall o :: o in s <==> exists m :: m in bundle && o in m.sources
  {
    set m, o | m in bundle && o in m.sources :: o
  }
}
