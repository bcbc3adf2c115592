# The p-SWAMP run protocol, modelled and proved

`pswamp_core` runs one pipeline per viewer over a keyed publish/subscribe transport. A run numbers its
stream; module hosts, in other processes, keep one instance of a module per run; players, outboxes,
consumers, inboxes and a registry of runs sit between. Messages may be late, reordered across topics,
repeated or lost. This project models that protocol in Dafny, together with two self-contained
algorithms of the web application, and proves what the parts promise together.

How it is laid out:

- A module of functions gives each part's state and its steps (`Hosts`, `Runs`, `Registries`,
  `Inboxes`, `Playback`, `TopicOffsets`, `FetchMerge`, ...). One step is the code between two
  suspensions of the event loop. What the environment decides - arrivals, failures, clock readings,
  cancellations, what a source holds - is in the event. A main result is about every sequence of events.
- A class beside it is the part as the program has it: fields updated in place, loops where the
  program loops (`ModuleHost`, `PipelineRun`, `PipelineRegistry`, `CommandInbox`, `KafkaConsumer`,
  `Playable`, `Outbox`, `Subscription`, ...). Each of its methods is proved against the step it is, and
  keeps what is proved of every step.
- The modules named `...Promises`, and `HostInputs`, `InboxOutcomes` and `PlaybackShows`, say what single steps and
  whole runs do in terms of the messages, times and counts themselves, without the functions that compute it.
- Histories (what was offered, dropped, shown, settled, computed from which frames) are kept beside the
  state and used in statements only.

| file | about |
|---|---|
| `Keys.dfy` | transport keys and run ids |
| `Subscription.dfy`, `Retry.dfy`, `Outbox.dfy`, `OutboxSteps.dfy`, `OutboxLosses.dfy` | queues, the retry schedule, the publisher's queue and its sends, step by step; what a close loses |
| `Wire.dfy`, `Hosts.dfy`, `HostSlots.dfy`, `HostOrder.dfy`, `HostInputs.dfy`, `HostPromises.dfy`, `HostLifecycle.dfy`, `ModuleHost.dfy` | module hosts |
| `Runs.dfy`, `RunPromises.dfy`, `Fence.dfy`, `FenceUnbroken.dfy`, `FenceGaps.dfy` | runs, and the fence between streams across the whole system |
| `Settings.dfy` | sticky settings, sent again to rebuilt instances |
| `Registry.dfy`, `RegistryProofs.dfy`, `RegistryPromises.dfy`, `RegistryTimers.dfy`, `RegistryGap.dfy`, `PipelineRegistry.dfy` | the registry of runs, under every interleaving; when an idle timer is too early |
| `Inbox.dfy`, `InboxOutcomes.dfy` | the preempting command inbox, and which outcome a command has |
| `FetchMerge.dfy`, `TopicOffsets.dfy`, `TopicHoles.dfy`, `KafkaTransport.dfy` | the Kafka consumer |
| `Playback.dfy`, `PlaybackProofs.dfy`, `PlaybackShows.dfy`, `Pacing.dfy`, `Playable.dfy`, `ActiveSource.dfy` | playback and the router over sources |
| `Simplify.dfy`, `TimeBase.dfy` | Douglas-Peucker with a stack; the looped time base of a recording |

Where the code does less than it says, the model keeps the code, a lemma gives a run in which it falls
short, and another says exactly when it does not:

- A result computed before a seek can be kept after it, in three ways: an instance answers a command while
  a reset is due or under way, with a message that carries no request id; its reset fails; or it keeps a
  setting from another module's command that was itself computed before the seek. Otherwise the fence holds.
- A command whose receiver cancels itself vanishes from the inbox without an outcome anyone sees.
- A held Kafka position that expires goes on from the topic's end, past records still there. The module
  documentation speaks only of a topic that was lost and made again, which is read from its start.
- A control message in flight when its outbox closes, or when the close runs out of time, is neither sent
  nor handed back, and neither is one still queued then.
- One command without an issue time at the head of its topic loses a whole fetch, and elsewhere the rest of one,
  unless a record before it in its topic goes out after everything in the other topics. A record whose key does
  not decode ends the delivery at itself.
- A run can be evicted as idle right after use, by the timer of an earlier run of its key: exactly when
  such a timer is due, or woke, before the run's time.
- Play, or a seek that plays, clears `paused` although the source could not be opened.
- A second cancellation of a host during shutdown leaves undropped what is in service or retired just then.
- A run name with `#` in it does not survive printing and parsing.
- A recording's stamps must ascend strictly, not only ascend, for its time never to stand still.

## Model

| member | source | states |
|---|---|---|
| Keys.RoundTrip | core/src/pswamp_core/keys.py:38-55 | a key whose run has no `#` parses back to itself from its text, for every run id and stream, negative ones too |
| Keys.RoundTripExactly | core/src/pswamp_core/keys.py:38-55 | exactly which keys survive printing and parsing: no `#` in the run, or a bare run that does not itself read as a numbered key |
| Keys.RunTestsAgree | core/src/pswamp_core/transport/__init__.py:92-95 | on printed keys the subscription's prefix match, the cut at `#` and the parse name the same run: 42 never hears 421 |
| Keys.CutAndParseDiffer | core/src/pswamp_core/keys.py:58-60 | on any text, the cut and the parse give different runs exactly when there is a `#` with no integers after it |
| Keys.ShortKeysRead | core/src/pswamp_core/keys.py:38-46 | a key whose generation names no stream is of stream 0; one whose generation is no number is a plain key, all of it |
| Keys.NumbersRead | core/src/pswamp_core/keys.py:45 | which odd spellings of a number are read, and which are not: signs, outer blanks, underscores |
| Keys.TextReadsBack | core/src/pswamp_core/keys.py:45 | the integer printed into a key is the one the parse's conversion reads, sign included |
| Keys.IdsIncrease | core/src/pswamp_core/keys.py:66-76 | run ids strictly increase within a process however the clock moves, and each is the clock's reading or one more than the last |
| Keys.RunIds.Next | core/src/pswamp_core/keys.py:66-76 | the counter's next id is past the last one and not below the clock |
| Subscriptions.KeepsTheNewest | core/src/pswamp_core/subscription.py:67-83 | a bounded queue holds the newest items of everything offered, a whole number of them; an unbounded one holds all |
| Subscriptions.Subscription.Offer | core/src/pswamp_core/subscription.py:67-73 | an open queue accepts the item, giving up its oldest when full; a closed one accepts nothing |
| Subscriptions.Subscription.DropOne | core/src/pswamp_core/subscription.py:75-83 | the oldest leaves and is counted as dropped; an empty queue loses nothing |
| Subscriptions.Subscription.Clear | core/src/pswamp_core/subscription.py:85-97 | everything queued is voided and told, none of it counted as dropped; a closed queue keeps its end |
| Subscriptions.Subscription.Get | core/src/pswamp_core/subscription.py:99-105 | items are read in the order accepted, each once; the end of a closed queue can be read again and again |
| Subscriptions.Subscription.GetNowait | core/src/pswamp_core/subscription.py:107-116 | none exactly when nothing is queued; otherwise the oldest, once |
| Subscriptions.Subscription.Close | core/src/pswamp_core/subscription.py:124-132 | what is queued can still be read, nothing more gets in, and a full queue gives up one item for its end |
| Retry.AttemptsExactly | core/src/pswamp_core/transport/__init__.py:320-334 | n attempts fit under a deadline exactly when the waits before the last of them are shorter than it |
| Retry.AttemptsBounded | core/src/pswamp_core/transport/__init__.py:215-223 | a bound on attempts for any deadline; under the default one at most eight, and eight can happen |
| Outboxes.Outbox.Publish | core/src/pswamp_core/transport/__init__.py:275-283 | the message joins the end under the key as it is now; control is never refused; data at the limit costs the data that has waited longest, everything before which is control, and no other message |
| Outboxes.Outbox.DropOldestData | core/src/pswamp_core/transport/__init__.py:299-306 | the first data message goes, every message before it being control; none if there is no data |
| Outboxes.Outbox.Append | core/src/pswamp_core/transport/__init__.py:281-282 | the letter is last in queue and history, and the data counter is what it counts |
| Outboxes.Outbox.Pop | core/src/pswamp_core/transport/__init__.py:308-311 | letters leave in publish order, with the data counter exact |
| Outboxes.Outbox.TryUntilDeadline | core/src/pswamp_core/transport/__init__.py:325-334 | attempts keep the doubling schedule, none starts at or past the deadline; it ends sent, or given up after the deadline and told whether it was tried |
| Outboxes.Outbox.Send | core/src/pswamp_core/transport/__init__.py:320-334 | one letter's send from start to end: data is tried once and lost if refused; control ends sent, or given up and handed back, in boundedly many tries |
| Outboxes.Outbox.Attempt | core/src/pswamp_core/transport/__init__.py:336-347 | each try is counted as published or as failed |
| Outboxes.Outbox.Settle | core/src/pswamp_core/transport/__init__.py:349-359 | a letter in flight ends in exactly one way, in order; what is given up is handed back |
| Outboxes.Outbox.Close | core/src/pswamp_core/transport/__init__.py:289-297 | with nothing published meanwhile: the send in flight is cancelled; what follows is sent in order until done or time is up; drained means everything not dropped was settled in publish order |
| Outboxes.Outbox.ControlIsAccountedFor | core/src/pswamp_core/transport/__init__.py:231-247 | until a close, every control message ever published is queued, in flight, sent, or handed back; never dropped for room |
| OutboxSteps.PublishedOnceInOrder | core/src/pswamp_core/transport/__init__.py:275-334 | over every sequence of publishes, tries, waits and a close, whatever is published while a send is suspended: each message is dropped for room, settled, in flight or queued, once, in publish order; only what is no command, error, end of a run, notice of a start or answer is dropped or lost, and of that no more waits than the limit |
| OutboxSteps.ControlIsAccountedFor | core/src/pswamp_core/transport/__init__.py:231-247 | over the same: a control message is sent, handed back, cut off by a close, in flight or queued; what is given up is handed back once, in order; a close cuts off at most two sends, and none is cut off before one |
| OutboxSteps.TriedOnSchedule | core/src/pswamp_core/transport/__init__.py:320-334 | over the same: the tries of the letter in flight keep the schedule and its bound, and a step that gives a letter up does so at its deadline or later and hands back that letter alone |
| OutboxSteps.TriedAgainExactly | core/src/pswamp_core/transport/__init__.py:325-334 | a refused control message is tried again after a quarter, a half, one, then two seconds at a time, or at its deadline if that is sooner, and then given up |
| OutboxSteps.EndsAtOnce | core/src/pswamp_core/transport/__init__.py:320-324 | what the transport takes is sent; a refused data message is lost at once |
| OutboxSteps.PublishedAs | core/src/pswamp_core/transport/__init__.py:275-283 | a message is queued last, under the key given or the outbox's own as it is then, at the time it is published |
| OutboxLosses.AllReportedExactly | core/src/pswamp_core/transport/__init__.py:240-247 | the outbox's promise, sent or handed back, holds of every control message published so far exactly when no close cut one off in flight and none is in flight or queued |
| OutboxLosses.ClosedIsFinal | core/src/pswamp_core/transport/__init__.py:289-297 | and once it is closed it is never made good: nothing more is sent or handed back |
| OutboxLosses.ACloseLosesACommand | core/src/pswamp_core/transport/__init__.py:289-297 | a run of the outbox in which a command in flight when the close begins is neither sent nor handed back |
| HostOrder.StreamByStream | core/src/pswamp_core/host.py:112-127 | over any life of an instance its inputs' streams never go back, and between two of different streams lies a reset |
| HostOrder.OutputsUnderTheInputsKey | core/src/pswamp_core/host.py:115-125 | a call's outputs carry the key its input arrived with, even if the stream moved on during the call |
| HostInputs.FirstComeFirstServed | core/src/pswamp_core/host.py:99-117 | over any life of an instance: what it processed is some of the inputs that arrived, in arrival order, none twice, and what waits is the last of them; with no limit and one stream it is the first of them, none passed over |
| HostPromises.FindsExactly | core/src/pswamp_core/host.py:330-346 | which slot a message goes to: the run's own; none for an older run's; a fresh one, the older run's retired, for a newer run's, unless the run is left alone until later |
| HostPromises.ReceivesExactly | core/src/pswamp_core/host.py:309-319 | what a slot does with a command, an input or a joined input, by the streams of both |
| HostPromises.BeginsExactly | core/src/pswamp_core/modules.py:302-310 | a call reads its input and the newest joined of the classes it uses, and remembers what those were computed from |
| HostPromises.PublishesExactly | core/src/pswamp_core/host.py:122-137 | what an instance publishes at each act, and under which key |
| HostPromises.ClosesExactly | core/src/pswamp_core/host.py:321-328 | a run that says it closed goes unless it is a newer one, and under a plain key whichever it is |
| HostPromises.FailsExactly | core/src/pswamp_core/host.py:360-371 | an instance whose task fails is retired and its run left alone for the retry time; what took its place stays |
| HostPromises.ReapsExactly | core/src/pswamp_core/host.py:386-393 | what was retired first is dropped first, unless that was done |
| HostPromises.DropEndsExactly | core/src/pswamp_core/host.py:411-429 | a drop ends with the tasks over, torn down if it was set up |
| HostPromises.ShutdownGoesOn | core/src/pswamp_core/host.py:288-297 | shutdown never stops short: each phase has its next step, up to the return |
| HostPromises.InterruptsExactly | core/src/pswamp_core/host.py:290-297 | when a second cancellation stops it |
| HostLifecycle.NeverTwice | core/src/pswamp_core/host.py:405-429 | every slot ever built is in service, retired or dropped, is dropped at most once, and torn down only if set up |
| HostLifecycle.AllDroppedOnReturn | core/src/pswamp_core/host.py:288-297 | when `serve` has returned, each slot ever built was dropped exactly once, to the end, and torn down exactly if its setup completed |
| HostLifecycle.InterruptedShutdownLeavesOne | core/src/pswamp_core/host.py:290-297 | a run of a host in which a second cancellation during shutdown leaves an instance undropped |
| HostLifecycle.InterruptCosts | core/src/pswamp_core/host.py:288-297 | what a second cancellation costs is settled when it comes: whatever follows, every slot ever built is dropped exactly if then none is in service and all that is retired has been dropped |
| HostLifecycle.AbortedLeavesExactly | core/src/pswamp_core/host.py:288-297 | the same of any state after one: all is dropped exactly if nothing is in service and nothing retired is undropped |
| HostLifecycle.AbortedIsFinal | core/src/pswamp_core/host.py:288-297 | after it no slot is built and none begins to be dropped |
| HostLifecycle.DropInProgressEnds | core/src/pswamp_core/host.py:411-429 | whatever happens after a drop has begun, its worker is still in it or it has ended; it is the slot's only drop, and what was torn down is exactly what was set up |
| ModuleHosts.ModuleHost.SlotFor | core/src/pswamp_core/host.py:330-346 | the slot found is of the message's run and id; an older run's slot is retired for a newer one, an older message gets none, nor one while the run is left alone |
| ModuleHosts.ModuleHost.RetireSlot | core/src/pswamp_core/host.py:348-352 | out of service only if it is the slot in service; queued to be dropped |
| ModuleHosts.ModuleHost.FeedOne | core/src/pswamp_core/host.py:299-319 | one message's whole effect on the host, as in the step the fence and lifecycle proofs are about |
| ModuleHosts.ModuleHost.ReceiveAt | core/src/pswamp_core/host.py:309-319 | a command waits whatever its stream; an older stream's input is void; a newer one's clears queue and join and makes a reset due |
| ModuleHosts.ModuleHost.ClosedOne | core/src/pswamp_core/host.py:321-328 | a closed run's slot is evicted unless it is a newer run's; a plain key closes whatever runs |
| ModuleHosts.ModuleHost.EvictRun | core/src/pswamp_core/host.py:405-409 | a run's slot leaves service and its drop begins in one step |
| ModuleHosts.ModuleHost.ReapOne | core/src/pswamp_core/host.py:386-393 | the next retired slot is dropped unless that is done or under way |
| ModuleHosts.ModuleHost.FinishDropping | core/src/pswamp_core/host.py:411-429 | the end of a drop: tasks over, torn down only if set up |
| ModuleHosts.ModuleHost.FailOne | core/src/pswamp_core/host.py:360-371 | a failed instance is reported under its key, its run left alone for a while and the instance retired, even if already replaced |
| ModuleHosts.ModuleHost.SweepWaits | core/src/pswamp_core/host.py:402-403 | waits that are over are forgotten, and only those |
| ModuleHosts.ModuleHost.SetUpDone | core/src/pswamp_core/host.py:378-384 | setup completing is what makes a later teardown due, and is announced under the slot's key |
| ModuleHosts.ModuleHost.TakeInput | core/src/pswamp_core/host.py:112-117 | the next input is taken with the slot's key of that moment; a due reset is taken with it, once |
| ModuleHosts.ModuleHost.ResetDone | core/src/pswamp_core/host.py:118-121 | a reset clears what the instance remembers of its inputs and leaves its settings; a failed one is reported and leaves both |
| ModuleHosts.ModuleHost.HandleCommand | core/src/pswamp_core/host.py:149-177 | the next command is handled between calls; what is kept of it is a setting, and a refusal or failure is reported as its answer |
| ModuleHosts.ModuleHost.FinishCall | core/src/pswamp_core/host.py:122-125 | what a call publishes: each output, under the input's key |
| ModuleHosts.ModuleHost.EvictOnTheWayOut | core/src/pswamp_core/host.py:292-293 | shutdown evicts the runs still in service one by one |
| ModuleHosts.ModuleHost.DrainOne | core/src/pswamp_core/host.py:294-297 | shutdown then drops what is retired and not dropped |
| Fence.FenceHolds | core/src/pswamp_core/pipeline.py:505-512 | over a transport that delays, reorders, repeats and loses: after a run's stream number is s, nothing it stores unasked was computed from its frames with a smaller number, unless it carries the mark of a gap |
| FenceUnbroken.MarkedExactlyWhenGapped | core/src/pswamp_core/host.py:112-127 | a run of the system ever sets that mark exactly when some instance answers a command while a reset is due or under way, or a reset fails, or an instance publishes under a later stream than a setting of its came from |
| FenceUnbroken.FenceHoldsUnbroken | core/src/pswamp_core/pipeline.py:505-512 | so the fence holds without exception over every run of the system in which none of the three happens, however many commands are handled and answered otherwise |
| FenceUnbroken.SettingsComeByCommand | core/src/pswamp_core/pipeline.py:148-156 | no setting comes from a frame until a command that itself was computed from frames reaches a host: where modules send modules no commands, the first two gaps are all there are |
| FenceUnbroken.StaleExactly | core/src/pswamp_core/host.py:116-127 | in every reachable state, an answer or output is stale exactly when the instance has a setting from an older frame, or remembers one and either answers while a reset is awaited or crossed a gap before |
| FenceGaps.AnAnswerSlipsThrough | core/src/pswamp_core/host.py:168-177 | a run of the system in which an instance's answer without a request id, given after a seek and before its reset, is kept though stale |
| FenceGaps.AFailedResetSlipsThrough | core/src/pswamp_core/host.py:116-121 | a run of the system in which a reset fails and a result of the old stream's frames is kept under the new one |
| FenceGaps.ASettingSlipsThrough | core/src/pswamp_core/host.py:309-311 | a run of the system in which one module's command, computed from a frame before a seek, reaches another after it, and the other's next result is kept though stale: no reset failed, none was awaited |
| Fence.OnlyThisRun | core/src/pswamp_core/pipeline.py:500-503 | whatever a run keeps of its own results was computed from frames of this very run, answers included; never of an earlier run of the key |
| Fence.LeftoversAreRefused | core/src/pswamp_core/pipeline.py:527-530 | a message off a live subscription the run has left is refused for ever after, however many switches follow |
| Fence.FollowedIsLive | core/src/pswamp_core/pipeline.py:371-389 | what a run takes from the live run it follows was computed from that live run's frames |
| Fence.FollowedIsNeverOwn | core/src/pswamp_core/pipeline.py:371-389 | a run whose key is no live run's takes no frame of its own, old or new, through the run it follows |
| Fence.SwitchForgets | core/src/pswamp_core/pipeline.py:378-381 | a switch to or from a live run forgets every result kept so far |
| RunPromises.HeardExactly | core/src/pswamp_core/pipeline.py:500-512 | a result heard is kept exactly if it is this run's or under a plain key, and answers someone or is not of an earlier stream; otherwise nothing changes |
| RunPromises.LatestIsTheLastKept | core/src/pswamp_core/pipeline.py:214-230 | over every run of the system: a run's latest of each class is the last it was to keep, heard, followed or published, since it last forgot the class at a switch |
| RunPromises.PublishedExactly | core/src/pswamp_core/pipeline.py:325-345 | what a run publishes goes on the wire exactly if a module reads it, it is an error, or the run is shared and it is the frame at the cursor or a status; under the stream the router's mark says |
| RunPromises.FollowsExactly | core/src/pswamp_core/pipeline.py:371-395 | a client's run follows the live run of the live source its router is on, and no other, from each status on |
| RunPromises.FollowedExactly | core/src/pswamp_core/pipeline.py:527-538 | what is taken off the live subscription, and where it goes |
| RunPromises.StartsExactly | core/src/pswamp_core/pipeline.py:286-290 | a run starts with an id past every other's, in no stream, with nothing kept, following nobody |
| Runs.PipelineRun.Publish | core/src/pswamp_core/pipeline.py:325-341 | a changed mark moves the stream before anything is stamped, and the message goes out under the key of that moment, to the wire only if it should |
| Runs.PipelineRun.MarkStream | core/src/pswamp_core/pipeline.py:329-333 | the stream number goes up exactly when the mark changed, and the outbox's key with it |
| Runs.PipelineRun.FollowStatus | core/src/pswamp_core/pipeline.py:371-395 | following changes exactly when the status's live source does; a client's run follows, a shared one never |
| Runs.PipelineRun.Receive | core/src/pswamp_core/pipeline.py:505-512 | an earlier run's or an earlier stream's result is not kept, unless someone asked for it |
| Runs.PipelineRun.ReceiveFollowed | core/src/pswamp_core/pipeline.py:527-538 | only the subscription being followed is listened to; the live status is kept apart |
| Settings.SettingsConverge | core/src/pswamp_core/pipeline.py:514-525 | in every quiet state with nothing lost, an instance in service last took, of every sticky class its module takes, the setting the run was last asked to send, however often instances failed and were rebuilt |
| Settings.Sender.Dispatch | core/src/pswamp_core/pipeline.py:432-445 | a player's command that does not apply, one nothing takes, or one not per viewer, is refused and leaves no trace; any other is sent, and remembered if sticky and a module's |
| Settings.Sender.Resend | core/src/pswamp_core/pipeline.py:514-525 | an announced instance is sent exactly the remembered settings of its module, each once, stamped now |
| Settings.CommandsTravel | core/src/pswamp_core/host.py:299-319 | how a command gets from the outbox to its topic and to the instance, always the oldest first, and where it is lost |
| Settings.InstancesComeAndGo | core/src/pswamp_core/host.py:360-371 | a failed instance is gone and its run left alone; the next message after the wait builds one with nothing taken |
| RegistryProofs.NeverOverTheCap | core/src/pswamp_core/pipeline.py:688-695 | in every interleaving, live runs plus builds in progress never exceed the cap; a cap below one admits none |
| RegistryProofs.OneBuildPerKey | core/src/pswamp_core/pipeline.py:637-667 | acquires in flight for a key all use one lock although locks are reclaimed, at most one is past it, and none while the key has a run |
| RegistryProofs.SessionsKeepTheirRun | core/src/pswamp_core/pipeline.py:628-676 | a session's run stays under its key as long as it is held: never evicted, its sockets counted exactly, so a release acts on the run acquired |
| RegistryProofs.LocksAreReclaimed | core/src/pswamp_core/pipeline.py:717-721 | a key nobody is acquiring and that has no run has no lock and no count left |
| RegistryProofs.RoomIsMadeByTheLeastUsed | core/src/pswamp_core/pipeline.py:688-695 | in every interleaving: an acquire takes a run out only at the cap, only an unwatched one, and every other unwatched run was used no earlier; all else stays |
| RegistryPromises.JoinsExactly | core/src/pswamp_core/pipeline.py:640-648 | an acquire that finds a run joins it: a socket more, used now, its timer called off |
| RegistryPromises.SeeksExactly | core/src/pswamp_core/pipeline.py:649-651 | one that finds none starts its run if there is room, gives up if every run is watched, and otherwise waits for the least recently used to stop |
| RegistryPromises.StartsExactly | core/src/pswamp_core/pipeline.py:659-664 | a run that started is the key's, watched once, and the lock is free |
| RegistryPromises.FailsExactly | core/src/pswamp_core/pipeline.py:652-667 | one that does not start, or is cancelled meanwhile, is stopped first; then the acquire gives up its place, count and lock |
| RegistryPromises.ReleasesExactly | core/src/pswamp_core/pipeline.py:669-676 | a session's end, and the timer the last one sets |
| RegistryPromises.TimersExactly | core/src/pswamp_core/pipeline.py:697-715 | an idle timer sleeps its time, waits for the key's lock, and evicts a run nobody watches then |
| RegistryTimers.CutShortExactly | core/src/pswamp_core/pipeline.py:697-715 | whether a run that nobody uses can be evicted as idle before its idle time is over, by whatever happens, is known beforehand: exactly when a timer on its key is due, or woke, before then; no timer on the key is ever due later |
| RegistryTimers.OwnTimerIsPunctual | core/src/pswamp_core/pipeline.py:697-708 | the idle timer set by a run's own last release evicts it no sooner than the idle time after its last use |
| RegistryTimers.ThreatIsAnother | core/src/pswamp_core/pipeline.py:669-676 | so a timer that threatens a run early is never the run's own |
| RegistryTimers.EveryIdleRunHasItsTimer | core/src/pswamp_core/pipeline.py:669-676 | in every interleaving a run nobody watches has a timer of its own, asleep until exactly the idle time after its last use, or awake and waiting for its key's lock |
| RegistryGap.AStaleTimerEvictsEarly | core/src/pswamp_core/pipeline.py:697-715 | a run of the registry in which a run is evicted as idle one second after its last use: capacity eviction left an older timer running |
| PipelineRegistries.PipelineRegistry.BeginAcquire | core/src/pswamp_core/pipeline.py:637-640 | an acquire is counted before it waits, at the lock its key has or is given |
| PipelineRegistries.PipelineRegistry.EndAcquire | core/src/pswamp_core/pipeline.py:665-667 | an acquire is uncounted however it ends, and its key's lock reclaimed if nobody needs it |
| PipelineRegistries.PipelineRegistry.DropLock | core/src/pswamp_core/pipeline.py:717-721 | a lock goes only with nobody acquiring and no run |
| PipelineRegistries.PipelineRegistry.JoinRun | core/src/pswamp_core/pipeline.py:641-648 | a run that is there gains a socket, and its idle timer is called off |
| PipelineRegistries.PipelineRegistry.LeastRecentlyUsed | core/src/pswamp_core/pipeline.py:692-695 | a run nobody watches and used no later than any other such; none exactly when all are watched |
| PipelineRegistries.PipelineRegistry.MakeRoom | core/src/pswamp_core/pipeline.py:688-695 | room, or the least recently used idle run evicted, or all in use; with room exactly below the cap |
| PipelineRegistries.PipelineRegistry.EvictRun | core/src/pswamp_core/pipeline.py:710-715 | the run is out, and its lock with it if nobody acquires the key |
| PipelineRegistries.PipelineRegistry.ReserveRun | core/src/pswamp_core/pipeline.py:650 | a build takes its place under the cap before it starts |
| PipelineRegistries.PipelineRegistry.InsertRun | core/src/pswamp_core/pipeline.py:659-662 | the started run is the key's, watched once, and no longer pending |
| PipelineRegistries.PipelineRegistry.ReleaseRun | core/src/pswamp_core/pipeline.py:669-676 | a socket less, never below none; the last one out sets a timer unless one is set |
| Inboxes.EveryCommandIsSettled | core/src/pswamp_core/command_routing.py:129-176 | once the inbox returns, every command read has exactly one outcome and at most one report, exactly one if rejected; commands started in the order they came |
| Inboxes.NeverSettledTwice | core/src/pswamp_core/command_routing.py:178-211 | at every moment no command has two outcomes or two reports |
| Inboxes.NothingOvertaken | core/src/pswamp_core/command_routing.py:138-144 | what starts next came no earlier than any preempting command read so far |
| InboxOutcomes.OutcomesExactly | core/src/pswamp_core/command_routing.py:178-211 | over every run: a command is late exactly if it says when it was issued and its attempt began more than the deadline after; applied, refused or failed exactly as its receiver ended; superseded, by which command, or vanished, exactly as its attempt was cancelled; and reported exactly when not applied for a reason known, or its answer could not be sent |
| InboxOutcomes.BegunExactly | core/src/pswamp_core/command_routing.py:178-192 | an attempt that begins reaches its receiver exactly if it is not too late |
| InboxOutcomes.PreemptsExactly | core/src/pswamp_core/command_routing.py:135-147 | a preempting command takes the place of all that waits, and asks what is in progress to stop |
| InboxOutcomes.AttemptsEnd | core/src/pswamp_core/command_routing.py:157-170 | how an attempt ends, and that the inbox goes on with nothing in progress and no cause remembered |
| InboxOutcomes.TakesTheOldest | core/src/pswamp_core/command_routing.py:150-159 | one at a time, the oldest first; it returns exactly when nothing waits and no more can come |
| Inboxes.VanishesExactlyWhenAbandoned | core/src/pswamp_core/command_routing.py:160-169 | a command is left without an outcome anyone sees exactly when its attempt was cancelled with no preempting command behind it |
| Inboxes.NothingVanishes | core/src/pswamp_core/command_routing.py:160-169 | so never, as long as receivers do not cancel themselves |
| Inboxes.ACommandVanishes | core/src/pswamp_core/command_routing.py:162-169 | a run of the inbox in which a receiver's own cancellation makes a command vanish, unreported, and the inbox goes on |
| Inboxes.CommandInbox.Receive | core/src/pswamp_core/command_routing.py:135-147 | a preempting command supersedes all that waits, oldest first, and asks the one in progress to stop, before it queues |
| Inboxes.CommandInbox.StartNext | core/src/pswamp_core/command_routing.py:157-159 | the oldest waiting command is taken, one at a time |
| Inboxes.CommandInbox.Begin | core/src/pswamp_core/command_routing.py:181-190 | a command too old is reported instead of applied |
| Inboxes.CommandInbox.Finish | core/src/pswamp_core/command_routing.py:191-211 | how an attempt ends, and what is reported of it |
| Inboxes.CommandInbox.Continue | core/src/pswamp_core/command_routing.py:160-169 | a cancelled attempt is reported as superseded by the command that preempted it |
| Inboxes.CommandInbox.Idle | core/src/pswamp_core/command_routing.py:152-156 | with nothing waiting the inbox returns exactly when its reader has ended |
| Inboxes.CommandInbox.Report | core/src/pswamp_core/command_routing.py:213-216 | one report, for that command |
| FetchMerge.EachInItsOrder | core/src/pswamp_core/transport/kafka.py:308-310 | what goes out of each topic is what came in, in its own order, whatever the timestamps: all of it, or a start of it if cut short |
| FetchMerge.SortedTopicsMergeSorted | core/src/pswamp_core/transport/kafka.py:308-317 | when every topic's records ascend by the time they were sent, and commands within a millisecond by when they were issued, so does the whole delivery; only a key that does not decode ends it early |
| FetchMerge.WholeExactlyWhenPlaced | core/src/pswamp_core/transport/kafka.py:308-317 | a fetch is delivered whole, whatever is fetched with it, exactly when every command in it carries its issue time and every record's key decodes |
| FetchMerge.WholeExactlyWhenOutlasting | core/src/pswamp_core/transport/kafka.py:306-317 | one given fetch is delivered whole exactly when every key decodes and some topic has a record, placed like all before it in the topic, that goes out after everything in all other topics, all of which is placed |
| KafkaTransports.FetchKeepsEachTopic | core/src/pswamp_core/transport/kafka.py:283-310 | a fetch delivers of each topic its decodable records once, in order; all of them unless cut short by a missing issue time or a key |
| KafkaTransports.OneCommandLosesAFetch | core/src/pswamp_core/transport/kafka.py:306-310 | a fetch in which one command without an issue time loses every record, and none is read again |
| KafkaTransports.OneKeyLosesAFetch | core/src/pswamp_core/transport/kafka.py:308-310 | a fetch of one record whose message decodes and whose key does not delivers nothing, and is not read again |
| KafkaTransports.ResumesAfterTheLast | core/src/pswamp_core/transport/kafka.py:305-306 | after a fetch a resumed topic goes on after the last of its records, decoded and delivered or not; any other stays where it was |
| TopicOffsets.SeeksExactly | core/src/pswamp_core/transport/kafka.py:252-256 | a resumed topic goes on where it was, if the broker still reaches there, and otherwise from the broker's start |
| KafkaTransports.KafkaConsumer.Decode | core/src/pswamp_core/transport/kafka.py:283-310 | the delivery of a fetch is the merge of what decodes, up to the first key that does not; places are put on record for every resumed topic, cut short or not |
| KafkaTransports.KafkaConsumer.Deliver | core/src/pswamp_core/transport/kafka.py:308-310 | the delivery loop gives out exactly the merge, up to the first key that does not decode |
| KafkaTransports.KafkaConsumer.Received | core/src/pswamp_core/transport/kafka.py:295-304 | what does not decode is left out, the rest kept in order |
| KafkaTransports.KafkaConsumer.Assign | core/src/pswamp_core/transport/kafka.py:233-264 | held topics keep their place, resumed ones go on where they were or from the broker's start, others start at the end; a control topic's end is put on record |
| KafkaTransports.KafkaConsumer.Opened | core/src/pswamp_core/transport/kafka.py:203-212 | a fresh consumer holds nothing, and every topic listened to is to be assigned |
| TopicOffsets.HeardOnceInOrder | core/src/pswamp_core/transport/kafka.py:197-264 | over fetches, failures, reopenings and expiry: no topic repeats or reorders an offset, and a control topic is heard over one contiguous range, every decodable record of it heard, expired or missed |
| TopicOffsets.MissedExactlyWhenCostly | core/src/pswamp_core/transport/kafka.py:203-210 | some record is put down as missed exactly when some step costs one: going on from beyond records still held, or a delivery cut short |
| TopicHoles.HoleExactlyWhenCostly | core/src/pswamp_core/transport/kafka.py:203-210 | the range heard of a control topic has a hole, a decodable record not heard and not expired when passed, exactly when some step costs a record |
| TopicHoles.MissedIsNeverHeard | core/src/pswamp_core/transport/kafka.py:197-212 | a record once missed is never heard, whatever the consumer does later, and lies behind it |
| TopicHoles.LapsedHadExpired | core/src/pswamp_core/transport/kafka.py:203-210 | a record counts as expired only if the broker no longer held it when the consumer passed it |
| TopicOffsets.NothingMissed | core/src/pswamp_core/transport/kafka.py:250-255 | so nothing is missed as long as no held place expires while records are there, and no delivery is cut short |
| TopicOffsets.AnExpiredPlaceMissesRecords | core/src/pswamp_core/transport/kafka.py:203-209 | a run in which a held place expires and the consumer goes on from the end, past a record still there |
| PlaybackProofs.PlayedInOrder | core/src/pswamp_core/playable.py:281-309 | under any interleaving of commands, reads and pacing, each stream has exactly what the guard lets through of the records that one event's opening gave, up to where that event asked, a later event for each stream; what was shown of it is a prefix of that, none skipped or repeated; a stream that ended without failing was shown whole |
| PlaybackShows.CommandsShow | core/src/pswamp_core/playable.py:248-277 | over every run: a step shows the next frames of the stream, as many as it says or there are; a step back, and a seek left paused, the first of the stream it opens; no other command shows any |
| PlaybackShows.StartShows | core/src/pswamp_core/playable.py:185-205 | a start shows the recording's first frame, if there is one, and waits |
| PlaybackShows.StartsAfresh | core/src/pswamp_core/playable.py:185-205 | where a start puts the player, and what it forgets |
| PlaybackShows.OpensExactly | core/src/pswamp_core/playable.py:328-349 | from where to where the source is read, and what is remembered of it; a failure leaves no stream |
| PlaybackShows.EndsExactly | core/src/pswamp_core/playable.py:367-388 | when the stream is over the recording starts over, or is over and paused, and has failed if the source broke |
| PlaybackShows.RefusedExactly | core/src/pswamp_core/playable.py:221-235 | exactly when a command is refused, and that it then changes nothing; what a pause, a play and a speed do |
| PlaybackShows.PacedExactly | core/src/pswamp_core/playable.py:298-309 | the held frame goes out at the time its anchor says, at the player's speed; at once after a change, a gap, or more than a frame's delay; and not while a command comes first |
| PlaybackShows.StandsStillWhenPaused | core/src/pswamp_core/playable.py:298-300 | a player that is paused, stopped or without a stream reads and shows nothing |
| Playback.GuardedIsTheRange | core/src/pswamp_core/sources.py:388-400 | the guard lets exactly the range through if and only if the source never turns back into it; so always for one in time order |
| PlaybackProofs.EndedYetPlaying | core/src/pswamp_core/playable.py:248-271 | in every state reached, a stream is over and yet not paused exactly when a Play without a stream, or a Seek that plays, found nothing to open, and nothing has paused or opened the source since |
| PlaybackProofs.PlayedThoughUnavailable | core/src/pswamp_core/playable.py:248-254 | a run that reaches such a state: a recording that cannot be opened, started and then played |
| Playables.SourceStream.Anext | core/src/pswamp_core/sources.py:388-400 | the next stamped record before the end, passing over unstamped ones; then the end, or the source's failure |
| Playables.Playable.Open | core/src/pswamp_core/playable.py:328-349 | a new stream, counted, from the later of what was asked and what there is; a failure leaves the player ended and paused |
| Playables.Playable.Cover | core/src/pswamp_core/playable.py:339-347 | the range read, and whether it ends before the recording does |
| Playables.Playable.Close | core/src/pswamp_core/playable.py:351-359 | the stream, the read in flight and the held frame are given up together |
| Playables.Playable.Read | core/src/pswamp_core/playable.py:361-365 | one read in flight at a time, whose result is the stream's next |
| Playables.Playable.Fetch | core/src/pswamp_core/playable.py:367-388 | a frame, or at the end a loop or an end, or a failure; never more than one new stream |
| Playables.Playable.Take | core/src/pswamp_core/playable.py:390-397 | the held frame first, then the next |
| Playables.Playable.Forward | core/src/pswamp_core/playable.py:273-277 | frames at once until there are no more |
| Playables.Playable.Step | core/src/pswamp_core/playable.py:266-277 | a step back is a new stream at a whole number of frame intervals back, not before the start |
| Playables.Playable.Apply | core/src/pswamp_core/playable.py:248-264 | a command that does not apply changes nothing; any other is applied whole and pacing starts over |
| Playables.Playable.Refusal | core/src/pswamp_core/playable.py:221-235 | exactly when a command is refused |
| Playables.Playable.Start | core/src/pswamp_core/playable.py:171-205 | opened at its start, paused, its first frame shown; speed and stream count carry over |
| Playables.Playable.Receive | core/src/pswamp_core/playable.py:298-304 | the finished read's frame is held until it is due |
| Playables.Playable.Due | core/src/pswamp_core/playable.py:408-422 | time until the frame is due by its anchor; at once, from a new anchor, after a change or a gap or more than a frame late |
| Playables.Playable.Emit | core/src/pswamp_core/playable.py:424-432 | the frame shown is the one at the cursor, on the stream of that moment |
| Playables.Playable.Pace | core/src/pswamp_core/playable.py:305-309 | the held frame goes out when due, or stays held when a command comes first |
| Pacing.NoBurst | core/src/pswamp_core/playable.py:408-422 | between commands and gaps: frames go out in order, none before the schedule of its anchor, and any n+1 in a row take at least n-2 frame intervals, whatever the delays |
| ActiveSources.MarksTellStreamsApart | core/src/pswamp_core/active_source.py:117-122 | two frames carry the same stream mark exactly when no stream started over between them: marks never come back, whatever sources were active meanwhile |
| ActiveSources.ActiveSource.StreamMark | core/src/pswamp_core/active_source.py:117-122 | the mark of the moment |
| ActiveSources.ActiveSource.Activate | core/src/pswamp_core/active_source.py:192-215 | making a source active, and opening it, both start a stream over |
| ActiveSources.OneReportAnOutage | core/src/pswamp_core/active_source.py:229-285 | an outage is reported once however long it lasts, and every wait of it is from one to thirty seconds |
| ActiveSources.OneFeedMore | core/src/pswamp_core/active_source.py:229-270 | what each feed that drops adds: a report if it had come back, and waits each twice the one before up to half a minute, from one second again after a feed that ran for half a minute |
| ActiveSources.RunPump | core/src/pswamp_core/active_source.py:234-270 | the reopening loop's reports and waits: doubling, reset only after a long run |
| Outlines.Simplify | app/server-python/tools/build_n44_grid_geometry.py:82-106 | the stack loop keeps the points of the recursive form, in order, ends included; fewer than three points stay; at most 2n-3 pops |
| Outlines.NothingFarIsDropped | app/server-python/tools/build_n44_grid_geometry.py:97-105 | every dropped point is within the tolerance of the line through its two neighbouring kept points |
| Outlines.NothingIsKeptInVain | app/server-python/tools/build_n44_grid_geometry.py:101-105 | every kept inner point is too far from the line through two other kept points, and farthest of all between |
| Outlines.ExceedsMeansFar | app/server-python/tools/build_n44_grid_geometry.py:94-102 | the comparison made is about distance: within tolerance exactly when some point of the line is that near |
| Outlines.PathAscends | app/server-python/tools/build_n44_grid_geometry.py:103-106 | kept points keep their order, each once |
| TimeBases.IncreasingExactly | app/server-python/src/pswamp_web/recorded_io.py:354-367 | time increases over all indices, negative ones too, exactly when the recording's stamps strictly ascend and its rate is positive |
| TimeBases.SeamsKeepTheRate | app/server-python/src/pswamp_web/recorded_io.py:118-123 | the step across every loop seam, forwards and backwards, is exactly one sampling interval, and a pass later every row is a pass later |
| TimeBases.StepAt | app/server-python/src/pswamp_web/recorded_io.py:364-367 | the step from any index to the next: the recording's own, or one interval at a seam |
| TimeBases.FirstPass | app/server-python/src/pswamp_web/recorded_io.py:360-367 | the first pass gives each row the time it has after the recording's start |
| TimeBases.NoBurst | app/server-python/src/pswamp_web/recorded_io.py:424-433 | however the playing thread is held up, any n+1 rows in a row take at least n-2 intervals |
| TimeBases.NoDrift | app/server-python/src/pswamp_web/recorded_io.py:424-433 | a loop never more than an interval behind keeps to the times set at its start |
| TimeBases.RecordingPlayer.Run | app/server-python/src/pswamp_web/recorded_io.py:408-435 | rows go out once each, in order, without a gap, at the times above, until stopped or at the end of a recording that does not loop |

## Left out

- Objects are told apart by number, not by reference: slots, locks, idle timers, subscriptions and runs. Aliasing between them is not captured; that a number names one object only is part of each invariant.
- ModuleHosts.ModuleHost.FeedOne: a slot is a value in the host's list of slots built, replaced as a whole, where the program updates the slot object in place.
- Fence.FenceHolds: results marked as computed across a gap are excepted; the mark is the model's own bookkeeping, and FenceUnbroken.MarkedExactlyWhenGapped says exactly when it is set.
- Fence.FollowedIsLive: stale results of the live run itself are not fenced by stream number, as in the program; only where they come from is stated.
- HostLifecycle.AllDroppedOnReturn: holds for `serve` as it returns; a second cancellation during its shutdown is a separate step, after which it does not return and InterruptCosts holds instead.
- Fence.OnlyThisRun: a command that a viewer sends counts as computed from nothing, whatever the viewer saw; so does what a module reads of its sources by itself.
- ModuleHosts.ModuleHost.ResetDone: a reset that succeeds forgets all that came from inputs, as it is documented to; what a command leaves behind counts as kept, even where the module's own reset clears it.
- HostOrder.StreamByStream: resets and inputs are in the order the instance's task makes them; that a call and a command's answer never overlap inside the module is not modelled.
- Settings.SettingsConverge: for one module and one run, with nothing lost or expired on the way; a lost announcement or command is outside it.
- RegistryProofs.NeverOverTheCap: up to shutdown; `stop_all`, which clears all locks at once, is not a step.
- Inboxes.EveryCommandIsSettled: the inbox's own task is not cancelled; stopping it leaves what waits unreported, as in the program.
- Inboxes.CommandInbox.Finish: what the receiver does, and whether publishing an answer fails, is an input.
- Outboxes.Outbox.Send: from start to end, with nothing published meanwhile; OutboxSteps has the same between its suspensions.
- Outboxes.Outbox.Close: a loop over whole sends, any one of which the timeout may cancel; OutboxSteps has what is published meanwhile.
- OutboxSteps.ControlIsAccountedFor: one close; what is published after it stays queued, as in the program.
- RegistryTimers.CutShortExactly: a clock that never goes back, as the program's monotonic clock; a timer's sleep starts when it is set.
- Outboxes.Outbox.Publish: with a limit of zero one data message is still queued, as in the program, so the bound on data is one there.
- KafkaTransports.KafkaConsumer.Assign: one partition a topic; the broker's answers are taken together, and a failure halfway is the consumer's failure, which reopens it.
- TopicOffsets.HeardOnceInOrder: a topic is not deleted and made again while it is read, and offsets stand for records.
- TopicOffsets.MissedExactlyWhenCostly: for a control topic; a data topic is read from its end after a reopening by design, and that is not counted as missed.
- Keys.RoundTrip: integers are unbounded and digits are ASCII; other digits and the length limit the conversion has for very long numbers are not modelled.
- Playables.Playable.Pace: a wait does not end before the time asked for; the event loop's clock resolution is not modelled.
- Playables.Playable.Open: a recording's coverage has an end, and enrichers keep a record's stamp.
- Playables.Playable.Emit: the error events and status messages it publishes, and how gap reports are held back, are not modelled.
- Pacing.NoBurst: for evenly spaced frames whose header says the spacing; without headers the player never drops time, and there is no such bound.
- Outlines.Simplify: over the real numbers, distances compared by their squares; rounding and not-a-number are not modelled.
- TimeBases.IncreasingExactly: over the real numbers; rounding is not modelled.
- TimeBases.RecordingPlayer.Run: stopped after a given number of turns; subscribers' queues and threads are not modelled.
- ActiveSources.RunPump: a script of how each opening of the feed turned out; the frames themselves pass through.
- ActiveSources.ActiveSource.Activate: when and whether the source opens is an input; a playable's own streams are in Playback.
- Message contents, JSON and validation: a message is its class, key, request id and origin; undecodable records are a flag.
- When a host's slot was last seen, and so when the idle sweep evicts it: the sweep may evict any slot at any time.
- A join's maximum age, and bundles of a call that suspends between dequeuing and feeding: any choice of the newest of each class is allowed.
- Reporting to people: logs, the keep-up monitor, the error tray, and what `on_undelivered` does with a message.
- `InMemoryTransport`, topic creation, the check for lost topics and reconnect delays: easy beside what is here.
- The web hub's registry of viewers: the same protocol as the registry of runs.
- Routes, sockets, the desktop and web clients, numeric analysis and stores: no part of the protocol.
