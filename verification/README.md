# eventfold-es: the actor protocol and the log consumers

A Dafny model of the two stateful cores of eventfold-es, an event-sourcing
client over an append-only store, with proofs of what they promise over whole
runs.

* **The aggregate actor.** An actor caches `(state, stream_version)`, decides a
  command on the cache, appends with an expected version and, on a conflict,
  re-reads and decides again. Nothing makes it the only actor of its instance,
  so consistency has to come from the protocol. `Actor.dfy` has the program's own
  loops as methods; `ActorSystem.dfy` has any number of actors, injectors and
  foreign clients on one stream, with requests and replies in flight, as a
  transition system. The main result is serializability.
* **The global-log consumers.** Projections and process managers fold the log
  behind a cursor, advanced by pull passes and by one shared live loop.
  `Consumer.dfy` has the runners and the reference (one pass over a prefix of the
  log). `LiveSystem.dfy` has the live loop's interleavings with pull passes, ticks,
  shutdown, crashes and lost or older files as a transition system, `LiveLoss.dfy`
  what may be lost over many process lives, and `LiveLoop.dfy` the loop of
  `run_live_loop` itself as methods over a script (`LiveScript.dfy`) of what the
  network and the clock do. `PullSystem.dfy` and `PullPass.dfy` do the same for
  `run_process_managers`, alone or beside a live loop of the same store, and
  `PullWitness.dfy` has the runs in which that loses something. The two method models carry the state of their
  transition system as a ghost field (`LiveRefinement.dfy`, `PullRefinement.dfy`),
  so what is proved of all runs holds of them. The main results are exactly-once
  folding, bounded dispatch lag and loss, sound notifications and crash safety,
  each with its exact condition where the code does not meet it.

`Codec.dfy` and `Aggregate.dfy` carry the event codec and the meaning of a stream.
`Environment.dfy` is the world outside: checkpoint files, dispatchers and dead-letter
logs answer as they like, and keep a ledger of what they were asked and answered.
`dafny verify dfyconfig.toml` checks the whole project.

## What is assumed

* `append` succeeds only if the expected version matches, and extends the stream
  contiguously; a transport error may or may not have appended, and in
  `ActorSystem` the request may still land much later. A read returns a contiguous
  piece of the tail, or fails. A subscription from `p` yields the log from the
  first position at or above `p` and may end, fail or say CaughtUp anywhere. Other
  writers may append between any two steps.
* `handle`, `apply` and `react` are total functions of their arguments.
* JSON and UUID text are printers and parsers with `parse(print(v)) == v`
  (`Codec.Wire.Lawful`), and serde gives back an event from the envelope the codec
  keeps (`Aggregates.Faithful`). `Aggregates.EventRoundTrip` says that this is
  exactly what an event needs to be replayed as itself.
* Stream versions and global positions stay clear of the largest `u64`, so adding
  one does not wrap; the live loop's sentinel `u64::MAX` is modelled.
* A file is replaced atomically or not at all; a missing or corrupt file reads as
  none. One process at a time uses a checkpoint directory.

## Where the code departs from its documentation

The model follows the code.

* `LiveConfig::reconnect_base_delay` (src/live.rs:55-61) says a CaughtUp resets
  the backoff. The code resets it only when a stream ends cleanly, and then
  whenever CaughtUp was ever seen, in this session or an earlier one
  (src/live.rs:330-338). A stream that caught up resets it exactly when it also
  ends cleanly: `LiveScripts.CaughtUpResetsExactlyWhen`, `LiveScripts.ResetExactlyWhen`.
* src/process_manager.rs:11-13 says a crash in the middle of dispatch causes
  reprocessing. In live mode a tick or a shutdown may save in the middle of
  dispatch, and the envelopes of the event in flight are then lost:
  `LiveSystem.ShutdownLosesEnvelopes`. The promise holds at a given moment exactly
  when nothing of the process manager waits or its file is not past the event in
  flight (`LiveSystem.ReprocessesExactlyWhen`), and a save keeps it exactly when no
  envelope waits (`LiveSystem.SaveIsSafeExactlyWhen`). At most one event is lost for
  every process that ended while envelopes waited, and all the envelopes of every
  other event are attempted: `LiveLosses.LossesAreBounded`.
* The repository's README.md:201 says `run_process_managers` stays fully functional while live mode is
  active. A pass moves the cursors before it dispatches (src/store.rs:351-361), and a
  tick of the live loop in between saves them; likewise a pass saves the cursor of a
  process manager whose envelopes the live loop still holds. A crash then loses those
  envelopes with nothing else having failed: `PullWitness.TickLosesEnvelopes`,
  `PullWitness.PassLosesLiveEnvelopes`. A save is safe exactly when nothing unhandled
  of its process manager waits (`PullSystem.SavingIsExact`); `PullSystem.SafeIsExact`
  has the exact condition of every step, and `PullSystem.CrashSafe` is proved for all
  runs in which every step meets it.
* In pull mode a failed pass drops what it collected while the cursors in memory
  have moved, and the next pass on the same runners saves those cursors. Carrying
  on is safe exactly when what the failing step dropped had been handled before
  (`PullSystem.ResumeIsExact`, `PullSystem.FailureSettles`); a failed save drops
  nothing, and otherwise the next pass can lose it without any failure
  (`PullWitness.ResumingUnsettledLoses`).
* An actor that has seen no event saves its snapshot with version 0
  (`stream_version.unwrap_or(0)`, src/actor.rs:391). The instance's first event can
  then never be written through such an actor (`ActorWitness.NeverStarts`), or a foreign
  first event is never read, and from any such save on
  (`ActorWitness.UnseasonedSaveIsEarly`) commands can be decided without it:
  `ActorWitness.DecidesOnStaleState`. A saved snapshot is right exactly when its
  actor had seen an event or the first event changes nothing
  (`Streams.SavedSnapshotIsGood`, `ActorSystem.SeasonedIsExact`), and serializability
  is proved for all runs in which that holds of every save. At-most-once needs no
  such condition.
* `CommandContext::metadata` is documented as forwarded to the event metadata
  (src/command.rs:33-34); the encoder drops it (src/event.rs:132-138):
  `Codec.ContextMetadataIsDropped`.
* The codec writes `"data": null` and a missing `"data"` alike, so an event whose
  type insists on a null `data` is stored and never replayed:
  `Aggregates.NullDataIsLost`.

## Model

| member | source | states |
|---|---|---|
| `ActorSystem.Serializable` | src/actor.rs:449-528 | In every interleaving of actors, respawns, injectors, retries and late or lost requests, with every saved snapshot right, the stream's fold is what executing the landed commands and injections one at a time in append order gives, the blocks tile the stream, and each command's block is `handle` on the fold of the whole prefix before it. |
| `ActorSystem.AtMostOnce` | src/actor.rs:464-528 | In every run of the code, early snapshots included, a call has at most one block, now and later, and only of the command it received; success means exactly one, with the events the caller was given; every other answer but a lost one means none, and an answer never changes. |
| `ActorSystem.RequestsAreBounded` | src/actor.rs:29-527 | In every run a call puts at most three append requests on the channel, giving up takes exactly three, and a refusal or an answer without events at most two. |
| `ActorSystem.AnswersHaveCauses` | src/actor.rs:464-527 | In every run every answer has its cause: success the reply to a landed request with those events, giving up the re-read after a third refusal, a lost call a request or a read that failed, anything else the decision on the cache. |
| `ActorSystem.ReadsMoveViews` | src/actor.rs:506-517 | A re-read of n events moves the view on by n, or to the end of the stream, and a new actor starts n events after its snapshot; the state is the fold of that view. So a full read is current. |
| `ActorSystem.LandsExactlyWhenCurrent` | src/actor.rs:486-490 | A request sent on a view lands exactly when the view is still the whole stream, and is refused otherwise. |
| `ActorSystem.RespectsRealTime` | src/actor.rs:464-528 | Real-time order, in every run: a call answered with success before another was received has the earlier block, whichever actors served the two. |
| `ActorSystem.RefusalsAreOfPrefix` | src/actor.rs:465-475 | A refusal, or an answer without events, is what the command decides on the prefix its actor has seen; the server is not asked, so that prefix may be out of date. |
| `ActorSystem.SeasonedIsExact` | src/actor.rs:386-419 | A saving exit keeps the snapshots right exactly when the actor had seen an event or the first event changes nothing. |
| `ActorSystem.ViewsAreMonotone` | src/actor.rs:318-422 | While an actor lives its state is, at every moment, the fold of the prefix of the stream it has seen, and that prefix never shrinks, also over conflicts, short reads, injections and undecodable events. |
| `ActorSystem.VersionsAreMonotone` | src/actor.rs:318-422 | In every run of the code, early snapshots and lossy event types included, the version a living actor has seen never goes back. |
| `ActorSystem.Reachable` | src/actor.rs:318-528 | The inductive invariant behind serializability: stream, requests and replies in flight, caches and snapshots agree in every reachable system. |
| `ActorSystem.ReachableCalls` | src/actor.rs:464-528 | In every run, calls, packets and answers are consistent and no two blocks belong to one call. |
| `ActorSystem.ReachableCaches` | src/actor.rs:318-528 | In every run, a waiting request expects the version its actor holds, an actor that holds none has the initial state, and what it landed ends after all it had seen. |
| `ActorSystem.ReachableTrace` | src/actor.rs:464-528 | In every run, what a call sent, landed and was told is its own command, with its own events, within its own number of requests. |
| `ActorSystem.LandKeepsTrace` | src/client.rs:220-242 | A landing block is the command its call received, with the events its caller will be told. |
| `ActorSystem.LandKeepsStream` | src/client.rs:220-242 | When the server takes a request the tiling, the justification of every block and the equality with the sequential run survive. |
| `ActorSystem.LandingIsJustified` | src/actor.rs:486-490 | An expected version that matches on landing means the command was decided on exactly the stream it lands on, however late it lands. |
| `ActorSystem.HearLanding` | src/actor.rs:491-499 | Folding in the decided events and taking the server's last version leaves the cache at the prefix that ends with its own block. |
| `ActorSystem.DecideKeeps` | src/actor.rs:464-490 | Deciding on the cache sends a request that is sound for the prefix the cache has seen. |
| `ActorSystem.RereadKeeps` | src/actor.rs:506-517 | A conflict re-read, even one that returns part of the tail, keeps every cache at a prefix. |
| `ActorSystem.SpawnKeeps` | src/actor.rs:568-604 | Spawning from any snapshot ever saved, a second actor of the same id included, keeps the invariant. |
| `ActorSystem.ExitKeeps` | src/actor.rs:386-419 | What an actor that has seen an event saves on exit is a prefix and its fold. |
| `ActorSystem.StepKeepsCalls` | src/actor.rs:464-528 | Calls, packets and answers stay consistent over every step: no two actors share a call, and an answer is what happened. |
| `ActorSystem.StepKeepsLedger` | src/actor.rs:464-528 | No two blocks ever belong to one call, and a landed call has a block. |
| `ActorSystem.StepAdvances` | src/actor.rs:318-422 | No step of any actor moves any actor's view of the stream back. |
| `ActorWitness.NeverStarts` | src/actor.rs:386-394 | From the reachable state left by an actor that exited without an event, no Execute through actors started from its snapshot ever writes the first event or succeeds. |
| `ActorWitness.AbandonedIsReachable` | src/actor.rs:386-394 | That state is reached by the code's own steps. |
| `ActorWitness.SkipsFirstEvent` | src/actor.rs:590-604 | An actor started from that snapshot on a stream with one event believes it has seen the event and holds the initial state. |
| `ActorWitness.DecidesOnStaleState` | src/actor.rs:464-490 | From any reachable state with such a snapshot and a stream that is no longer empty: whenever event 0 matters to a command, an actor started from it can pass the version check and land a block that is not what the command decides on the prefix before it. |
| `ActorWitness.UnseasonedSaveIsEarly` | src/actor.rs:386-394 | In every reachable state, an actor that saves before it has seen an event saves the initial state as version 0. |
| `ActorWitness.RefusesOnStaleState` | src/actor.rs:465-475 | A run with no snapshots at all in which a command is refused on the initial state although the stream already has an event. |
| `Actors.Actor.Execute` | src/actor.rs:449-528 | Every answer says what happened: exactly one block decided on the whole stream before it, none, or at most one after a transport error. Giving up is answered exactly after three refusals, a transport error exactly when a request or a read got no answer; there is one re-read for every refusal, and at most three requests. When an honest server answers everything and nobody else appends, the answer is the decision on the whole stream if the cache had anything to ask, and giving up is impossible. |
| `Actors.Actor.Send` | src/actor.rs:486-523 | One append: on success the cache is the whole stream's fold and the decision is its last block; on a conflict nothing of ours landed, the cache is as before and behind; a transport error is an unanswered request, and at most one block landed. |
| `Actors.Actor.Attempt` | src/actor.rs:465-523 | One decision and its append, with every early return: domain error, no events, an event that cannot be serialized; no request is made in those cases, and one in all others. |
| `Actors.Actor.Try` | src/actor.rs:465-523 | An attempt and what follows a conflict: it goes on only after a re-read, on an honest server with a current cache, and ends in a transport error only when something got no answer. |
| `Actors.Actor.EncodeAll` | src/actor.rs:477-483 | All events encoded in order, or none if one does not serialize. |
| `Actors.Actor.OwnBlockLanded` | src/actor.rs:491-499 | A block that landed right after what the actor had seen is the decision on the whole stream before it, and applying the events as decided equals replaying them as recorded. |
| `Actors.Actor.ApplyDecided` | src/actor.rs:493-496 | The fold over the decided events leaves the cache at the end of the stream. |
| `Actors.Actor.Absorb` | src/actor.rs:512-517 | Folding in a piece of the tail is applying the events of it that decode, in order, to the state there was; the version is that of the last event, decodable or not. |
| `Actors.Actor.CatchUp` | src/actor.rs:506-517 | Exactly one read, from right after what the cache has seen; the cache takes exactly what it returned, keeps still when it failed, is never moved back, and is complete on an honest server. |
| `Actors.Actor.InjectEvent` | src/actor.rs:359-384 | An accepted injection is exactly one append of that event and one re-read, after which the cache is current unless the read failed; a refused or unanswered one changes nothing in the cache. |
| `Actors.Actor.Serve` | src/actor.rs:333-384 | One message: the reply is right about what the cache has seen, and comes with exactly the requests, reads and appends it stands for. |
| `Actors.Actor.Run` | src/actor.rs:318-422 | Over a whole mailbox, up to a shutdown: each reply is right about a prefix of the stream (a successful command is that prefix's last block, decided on all before it; a refused one was refused on it; a state is its fold) and is paid for by its own requests to the server (three refusals, an unanswered request, one landed append); the prefixes never shrink; and every exit saves the snapshot of the final cache, once. |
| `Actors.Spawn` | src/actor.rs:568-621 | The state is the snapshot's, with the decodable events of one read after it applied; starting fails exactly when the file or the read does; from a good snapshot, or none, the new actor is at a prefix, and on an honest server it equals a replay from the first event. |
| `Actors.Server.Append` | src/client.rs:220-242 | The environment: an accepted append passed its version check where it landed and is contiguous; a refused one left nothing; an unreachable one may have done either. |
| `Actors.Server.Read` | src/client.rs:260-285 | The environment: a contiguous piece of the tail, all of it on an honest server. |
| `Actors.SnapshotFile.Save` | src/snapshot.rs:63-80 | The file holds the new snapshot, or a failed save left the old one. |
| `Actors.SnapshotFile.Load` | src/snapshot.rs:98-120 | What is in the file, none for a missing or corrupt one, or an I/O error. |
| `Streams.RecoveryEqualsReplay` | src/actor.rs:590-604 | From any good snapshot, however old, a full read of the tail gives the state and version of a replay from the first event. |
| `Streams.SavedSnapshotIsGood` | src/actor.rs:425-443 | A saved snapshot is right exactly when its actor had seen an event, or the first event happens to change nothing. |
| `Streams.UnseenSnapshotSkipsFirstEvent` | src/actor.rs:386-394 | From the snapshot of an actor that saw nothing, any stream is replayed without event 0; the snapshot is right exactly when that event changes nothing, and then so is what is recovered. |
| `Streams.ReadKeepsPrefix` | src/actor.rs:512-517 | Reading any contiguous piece of the tail moves a cached pair to a longer prefix by exactly that piece. |
| `Streams.GrowthKeepsPrefix` | src/actor.rs:456-528 | A cached pair stays the fold of its prefix however the stream grows. |
| `Aggregates.EventRoundTrip` | src/actor.rs:279-300 | A recorded event is replayed as the event that was written exactly when serde accepts the envelope the codec keeps of it. |
| `Aggregates.StateIsFold` | src/actor.rs:599-604 | The state of a stream is the aggregate's own `apply` over the events that decode, in order, from its default: the others are skipped. |
| `Aggregates.ReplayOne` | src/actor.rs:279-300 | One record changes nothing unless it decodes, and then is applied. |
| `Aggregates.BlockRoundTrip` | src/actor.rs:477-499 | A block that an Execute wrote decodes to its events, in order. |
| `Aggregates.BlockIsSeen` | src/event.rs:169-210 | Projections and process managers skip no event an Execute wrote, exactly when both names are non-empty. |
| `Aggregates.NullDataIsLost` | src/actor.rs:291-299 | A concrete event type whose null `data` is written and never replayed. |
| `Aggregates.ReplayConcat` | src/actor.rs:599-604 | Replaying two pieces one after the other equals replaying them at once. |
| `Aggregates.ReplayDecoded` | src/actor.rs:493-495 | Replaying records equals applying the events they decode to. |
| `Codec.EnvelopeRoundTrip` | src/actor.rs:279-300 | Encode, wire, record, decode keeps the type and a non-null `data`; the envelope is unchanged exactly when it had no third field and no null `data`. |
| `Codec.StoredRoundTrip` | src/event.rs:169-210 | The consumers' decoder recovers id, stream, identity, type, payload, version, position and, under their own keys, the identity and the three context fields of an event this client wrote, exactly when both names are non-empty. |
| `Codec.ForeignEvents` | src/event.rs:169-210 | Exactly which events of other clients the consumers do not skip (JSON metadata with both names as non-empty strings, both UUIDs readable, an empty or JSON payload), and what they see of them. |
| `Codec.ForeignEnvelopes` | src/actor.rs:279-300 | Exactly which events of other clients reach the actor's deserializer, and the envelope it is given. |
| `Codec.ContextMetadataIsDropped` | src/event.rs:132-138 | Contexts that differ only in `metadata` are encoded alike, and what the consumers decode has only the keys of the identity and of the three other context fields. |
| `Consumers.Runner.constructor` | src/projection.rs:162-172 | A runner starts from its file, or at the beginning; from a correct file it is correct for every log that file belongs to. |
| `Consumers.Runner.ApplyEvent` | src/process_manager.rs:318-347 | One delivery: nothing below the cursor, otherwise the cursor moves right past the event; an event that does not decode leaves the state and emits nothing, one that does is handed to `react` with the state there was. |
| `Consumers.Runner.ProcessStream` | src/process_manager.rs:252-285 | A subscription is drained up to CaughtUp, its end or a failure; it fails exactly when a failure comes before any CaughtUp, which drops the envelopes but not how far the runner got. |
| `Consumers.Runner.CatchUp` | src/process_manager.rs:232-240 | However the stream ends, the runner is at one pass over a longer prefix, and the envelopes are those of exactly the events in between. |
| `Consumers.Runner.CatchUpAndSave` | src/projection.rs:199-209 | A projection's file is saved after every clean pass and only then, and is always one pass over some prefix. |
| `Consumers.PassIsReactAll` | src/process_manager.rs:318-347 | One pass over the log, state and envelopes, is the consumer's own `react` over the events that decode, in order, and nothing else. |
| `Consumers.FailsExactlyWhen` | src/process_manager.rs:261-282 | A stream fails exactly when a failure comes before any CaughtUp. |
| `Consumers.YieldConcat` | src/process_manager.rs:261-282 | Up to CaughtUp or a failure every event of a stream counts, in order; after it nothing does. |
| `Consumers.DrainedIsPassed` | src/process_manager.rs:261-282 | Draining a stream passes every event that comes before CaughtUp or a failure. |
| `Consumers.AdvanceFollowsPass` | src/projection.rs:260-284 | One delivery without a gap: a replayed event changes nothing, the next one is passed exactly once. |
| `Consumers.BatchFollowsPass` | src/process_manager.rs:252-285 | A batch that starts at or below the cursor leads to one pass over the longer of the two prefixes, and emits what lies between. |
| `Consumers.BatchingIndependence` | src/process_manager.rs:252-347 | However the log is cut into batches and single events, with overlap and redelivery, checkpoint and concatenated envelopes are those of one pass. |
| `Consumers.RebuildEquivalence` | src/projection.rs:111-130 | From any two correct checkpoints (an older one, none at all) and any deliveries, the same cursor means the same state. |
| `Consumers.CorrectGrows` | src/projection.rs:260-284 | A correct checkpoint stays correct as the log grows. |
| `LiveSystem.LiveExactlyOnce` | src/live.rs:386-409 | At every instant of every run, with deliveries, pull passes, ticks, shutdowns, crashes and lost or older files, each runner, each file and each checkpoint ever saved is one pass over the decodable events below its cursor, and the loop is never ahead of a runner. |
| `LiveSystem.BoundedLag` | src/live.rs:397-463 | For a process manager no pull pass touched, attempts plus queue are its envelopes since the start, once each and in order, and its file is past at most one event with unattempted envelopes, the one in flight. |
| `LiveSystem.ReprocessesExactlyWhen` | src/live.rs:314-327 | At any moment of a live run such a file is past attempted events only exactly when nothing of the process manager waits or the file is not past the event in flight. |
| `LiveSystem.SaveIsSafeExactlyWhen` | src/live.rs:191-217 | A save in a live run leaves a file past attempted events only exactly when no envelope of its process manager waits. |
| `LiveLosses.LossesAreBounded` | src/live.rs:314-327 | Over any number of process lives, with crashes anywhere and files lost or put back, every event some checkpoint is past is lost, done, or in flight. At most one is lost for every process that ended while envelopes of the process manager waited, and the attempts contain the envelopes of all that is done, counted with multiplicities. |
| `LiveLosses.StepLoses` | src/live.rs:314-327 | No step loses anything but the end of a process in the middle of a dispatch, and that only the event in flight. |
| `LiveLosses.ServedIsAttempted` | src/live.rs:397-463 | Of the events a live run has passed, all but the one in flight have their envelopes among its attempts, with multiplicities. |
| `LiveSystem.AttemptsAreSettled` | src/live.rs:411-463 | As long as dead letters can be written, every attempt was dispatched or dead-lettered. |
| `LiveSystem.NotificationSound` | src/live.rs:465-468 | When a position is announced every runner has passed every event up to it, all envelopes of runners not pulled were attempted, and it is above every earlier announcement of the process. |
| `LiveSystem.ScanIsBelowAll` | src/live.rs:223-242 | The minimum found by locking runners one at a time while others move them is at or below every cursor when the subscription starts. |
| `LiveSystem.Reachable` | src/live.rs:268-364 | The folds and the cursor invariant hold in every reachable state, in the middle of a fan-out too. |
| `LiveSystem.FanOutOne` | src/live.rs:386-409 | Delivery to one runner moves it past the event once and queues exactly what it then emits. |
| `LiveSystem.StepKeepsCursor` | src/live.rs:287-290 | No step lets the loop get ahead of any runner. |
| `LiveSystem.StepKeepsConserved` | src/live.rs:397-463 | Every step keeps attempts plus queue equal to what was emitted, and the queue to the event in flight. |
| `LiveSystem.StepKeepsDisk` | src/live.rs:191-217 | No file is ever ahead of the memory it was saved from. |
| `LiveSystem.StepKeepsSent` | src/live.rs:465-468 | Every announced position stays below every runner and below whatever is delivered next, across reconnects. |
| `LiveSystem.ShutdownLosesEnvelopes` | src/live.rs:314-327 | A run in which a shutdown in the middle of dispatch saves the cursor, and the next process starts past an event whose envelopes were never attempted. |
| `LiveSystem.NoRunnersRepeatPositions` | src/live.rs:240-241 | Without runners the scan falls back to 0 and a reconnect announces the same position again. |
| `LiveLoops.LiveLoop.Run` | src/live.rs:268-364 | Over any script of sessions: the loop returns exactly in the first session with a shutdown (before connecting, in a backoff sleep, or while a stream is open and before it failed), with every runner saved and every file equal to memory if the disk works; the delay is the closed form of the failures since the last reset; runners, envelopes and announcements are those of the sessions in order; no subscription asked for more than a runner needed; and on a server that keeps its contract the loop ends in a reachable state of the transition system, files and outcomes included. |
| `LiveLoops.LiveLoop.Turn` | src/live.rs:280-364 | One turn of the outer loop: a refused subscription returns only on a shutdown and otherwise doubles the delay; a connection saves every runner, doubles the delay if the stream failed and resets it if it ended cleanly after a CaughtUp; what it handed, attempted and announced; and that it is a run of the transition system. |
| `LiveLoops.LiveLoop.Connect` | src/live.rs:287-309 | The subscription asks for the least cursor, no more than any runner needs; every runner is handed what the stream delivered, and every envelope and announcement is accounted for. |
| `LiveLoops.LiveLoop.ProcessStream` | src/live.rs:369-482 | A stream with ticks and shutdown in between: how it ends, what every runner was handed, which envelopes were attempted and which positions announced, also when a shutdown cuts an event in half. |
| `LiveLoops.LiveLoop.Attend` | src/live.rs:306-351 | A connection and what follows its end: every runner is saved, and then the loop returns, waits or reconnects at once. |
| `LiveLoops.LiveLoop.React` | src/live.rs:313-327 | One thing that happens while a stream is open: a tick saves every runner, a shutdown saves and stops, an event goes all the way, a failure ends the stream. |
| `LiveLoops.LiveLoop.Interrupt` | src/live.rs:322-325 | An event that a shutdown cuts at any point of fan-out or dispatch: which runners took it, which envelopes were attempted, and that everything is saved. |
| `LiveLoops.LiveLoop.Guaranteed` | src/live.rs:268-364 | At every valid point of the loop: runners and files are one pass over the log, attempts plus queue are what was emitted, no file is past more than the event in flight, announcements increase. |
| `LiveLoops.LiveLoop.Process` | src/live.rs:386-468 | One event: every runner first, then every envelope in runner order, then the announcement. |
| `LiveLoops.LiveLoop.DispatchAll` | src/live.rs:411-463 | Every envelope is attempted in order, with ticks anywhere in between. |
| `LiveLoops.LiveLoop.Settle` | src/live.rs:411-463 | One attempt is one dispatch; a dead letter is written when it was refused and only then; neither works at worst. |
| `LiveLoops.LiveLoop.FanOut` | src/live.rs:386-409 | The first runners, and only those, advance, and their envelopes are collected in order. |
| `LiveLoops.LiveLoop.MinGlobalPosition` | src/live.rs:223-242 | The least cursor, attained by a runner, or 0 when there is none below the sentinel. |
| `LiveLoops.LiveLoop.SaveAllCheckpoints` | src/live.rs:191-217 | Every runner is saved once, in order; a file is replaced exactly when its save worked, and a failed save does not stop the others. |
| `LiveScripts.AfterIsAdvanceAll` | src/live.rs:379-478 | What the stream loop does to one runner is folding in the events it was handed, and its cursor never falls. |
| `LiveScripts.EndsExactlyWhen` | src/live.rs:369-482 | How a stream ends and whether it caught up: by the first happening that can end it, and by a CaughtUp before that. |
| `LiveScripts.StreamConcat` | src/live.rs:369-482 | A stream is worth what its pieces are, in order, up to the happening that ends it: events handed, envelopes attempted, positions announced. |
| `LiveScripts.StreamOne` | src/live.rs:375-468 | What one happening is worth: an event goes to every runner and is announced; one cut by a shutdown goes to the first runners, and has its first envelopes attempted if that was all of them. |
| `LiveScripts.CollectedByRunner` | src/live.rs:397-409 | The envelopes collected of one event are, read back by runner, what that runner emitted. |
| `LiveScripts.ReturnsExactlyWhen` | src/live.rs:280-351 | A turn ends the loop exactly when it has a shutdown that comes before any failure, or in the sleep after one. |
| `LiveScripts.FailuresOneMore` | src/live.rs:304-351 | Every turn but a cleanly ended stream adds one failure; a cleanly ended one forgets them all once CaughtUp was ever seen, and none before. |
| `LiveScripts.RefusalsInARow` | src/live.rs:291-305 | After n refused subscriptions in a row there are n failures more, whatever came before. |
| `LiveScripts.DoublingIsCapped` | src/live.rs:304 | Doubling and capping step by step is the closed form `min(base * 2^k, max)`. |
| `LiveScripts.DelayIsBounded` | src/live.rs:274-304 | The delay never exceeds the configured maximum exactly when the base delay does not. |
| `LiveScripts.DelayGrows` | src/live.rs:304 | From the base on, one more failure never shortens the delay. |
| `LiveScripts.ResetExactlyWhen` | src/live.rs:330-351 | The backoff is at its start exactly after a clean end with CaughtUp ever seen, or with nothing failed before it. |
| `LiveScripts.CaughtUpResetsExactlyWhen` | src/live.rs:55-61 | A stream that catches up resets the backoff exactly when it goes on to end cleanly; if it fails, it counts as one more failure. |
| `PullPass.ProcessManagers.RunPass` | src/store.rs:350-411 | It fails exactly when a stream, a dead letter or a save did. On success each envelope the catch-ups returned was tried exactly once, in order; the report counts what the dispatchers accepted and what was refused and written to its own dead-letter log. On an error what was handled is a prefix of that; without a live loop beside it no file changes before all were handled, and with one a file holds only what its runner had or has in memory; and the pass is a run of the transition system. |
| `PullPass.ProcessManagers.Collect` | src/store.rs:351-361 | The runners up to the first failing stream go one pass further, the others stay; a failed stream drops all that was collected. |
| `PullPass.ProcessManagers.Guaranteed` | src/store.rs:350-411 | At every valid point at which every save so far was safe (always, without a live loop beside the passes), each file is one pass over its prefix and every envelope of that prefix was handled. |
| `PullPass.ProcessManagers.MaybeTick` | src/live.rs:191-217 | A tick of a live loop beside the pass replaces files by what their runners have in memory, whatever the pass has still to dispatch, and moves nothing else. |
| `PullPass.ProcessManagers.HandleWork` | src/store.rs:363-399 | The work list is handled exactly, process manager by process manager, or up to the envelope that could not even be dead-lettered; the counters are what was accepted and what was dead-lettered. |
| `PullPass.ProcessManagers.HandleAll` | src/store.rs:365-398 | One process manager's envelopes, each tried once and in order, all or up to one whose dead letter failed, counted as accepted or dead-lettered. |
| `PullPass.ProcessManagers.Handle` | src/store.rs:367-397 | One envelope is tried once: accepted it counts as dispatched; refused it goes to its own process manager's log and no other, and counts as dead-lettered; if that fails too, it is an error. |
| `PullPass.ProcessManagers.SaveAll` | src/store.rs:401-408 | Every file is saved in order, up to the first save that fails, which ends the pass with the rest untouched. |
| `PullPass.ListedByRunner` | src/store.rs:351-361 | The work list read back by process manager is that process manager's envelopes in log order. |
| `PullSystem.CrashSafe` | src/store.rs:350-411 | With crashes at any point, a live loop beside the passes, and every step meeting the condition of `PullSystem.SafeIsExact`, no file is past an event with an envelope neither dispatched nor dead-lettered. |
| `PullSystem.FilesAreCorrect` | src/store.rs:401-408 | On every run, whatever is saved when, with or without a reload after a failure, each file is one pass over the log below its cursor. |
| `PullSystem.ResumeIsExact` | src/store.rs:350-361 | Carrying on after a failed pass keeps the invariant exactly when every envelope the runners have passed was handled, or the live loop still has it. |
| `PullSystem.FailureSettles` | src/store.rs:357-408 | A failing step leaves nothing unhandled exactly when all that it drops had been handled before, or the live loop still has it; a failed save always does. |
| `PullSystem.SafeIsExact` | src/store.rs:350-411 | Every step, of a pass or of the live loop beside it, keeps the invariant (files past handled events only, memory past handled or waiting ones) exactly when it meets its condition: carrying on needs a settled failure, a save a process manager of which nothing waits, and what the live loop gives up must be handled or waiting elsewhere. All other steps always keep it. |
| `PullSystem.SavingIsExact` | src/live.rs:207-216 | A save of one runner, by a pass, a tick or another pass, is safe exactly when every envelope of it that waits was handled. |
| `PullSystem.SettleIsExact` | src/live.rs:421-460 | Going on after a dead letter that could not be written is safe exactly when that envelope was handled before or waits once more. |
| `PullSystem.HaltIsExact` | src/live.rs:322-325 | A live loop that stops in the middle of a dispatch is safe exactly when what it drops was handled or the pass has it. |
| `PullWitness.ResumingLosesEnvelopes` | src/store.rs:357 | Without the reload: a failed pass, then a successful one with nothing to do that saves a cursor past envelopes nobody handled. |
| `PullWitness.ResumingUnsettledLoses` | src/store.rs:350-411 | From any failed pass that left something unhandled, carrying on can save a file past it with no failure, no crash and no tick. |
| `PullWitness.TickLoses` | src/live.rs:319-321 | From every reachable state in which an unhandled envelope of a process manager waits, one tick puts its file past an envelope nobody handled. |
| `PullWitness.TickLosesEnvelopes` | src/store.rs:351-363 | A tick between the collecting and the dispatching of a pass, and a crash: the next process starts past an event nobody handled, although nothing failed. |
| `PullWitness.PassLosesLiveEnvelopes` | src/store.rs:401-408 | A pass with nothing to do succeeds while the live loop still holds envelopes; its save loses them in a crash. |

## Left out

- gRPC, TLS, bearer tokens and connection setup (src/client.rs, src/auth.rs): plumbing; only the contract of `append`, `read_stream` and `subscribe_all` is modelled.
- The event store server itself: its own deduplication and storage are not part of this model.
- JSON, UTF-8 and UUID internals, and the hash that turns a type and an instance id into a stream id: abstract printers and parsers; one stream stands for one instance.
- File names, directories, the temporary file behind an atomic replace, and the JSON-lines format and timestamps of dead letters.
- Tokio channels, mutex fairness and real time: an actor takes one message per step, ticks and timeouts come at any moment. A lock held across two steps of the live loop is not modelled; interleavings are at least as many as the program's.
- The handle cache of `AggregateStore::get`, type erasure and builders: the cache only decides how many actors there are, and the model allows any number.
- Two overlapping pull passes as passes: `PullSystem` runs one at a time; the save of a second one is `Tick` there, and its dispatch is that of the live loop. An envelope is handled or not without the target aggregate's own outcome.
- `inject_event` as a method: it is one `Any` append by a client that is no actor (`ActorSystem.Posts`), optionally followed by a pull pass.
- LiveLoops.LiveLoop: keeps its runners as values in a sequence, as does `PullPass.ProcessManagers`; that two owners could share one runner object is covered by the interleavings of `LiveSystem` instead.
- Actors.Actor.Run: is proved against the server's contract, and is not shown to be a run of `ActorSystem`, whose actors take the same steps.
- LiveLosses.LossesAreBounded: is about a process manager that no pull pass moves; for the others `PullSystem.CrashSafe` says when nothing is lost.
- LiveSystem.BoundedLag: says nothing about a process manager that a pull pass moved during the live run. A live loop and a pass on one process manager are the subject of `PullSystem`, where the file is safe only under the conditions of `PullSystem.SafeIsExact`.
- PullPass.ProcessManagers: has the ticks of a live loop beside a pass before every runner, envelope and save, but not its deliveries, which are in `PullSystem` (`React`, `Settle`, `Halt`); ticks within one runner's catch-up wait for its lock.
- LiveSystem.NotificationSound: positions announced are compared within one process; a new process starts a new channel.
- Actors.Actor.Execute: in class `Server` a request that lands after its sender gave up counts as an append by others; `ActorSystem` keeps it as the sender's.
