# Worker-backed playback, data-platform source and friends, in Dafny

This project models the core of Foxglove Studio's (robin-shaun/studio) playback pipeline and
some components around it, and proves properties of the model.

- **Playback worker** (`WorkerPlayback`, `WorkerIterablePlayerWorker`). This is the state machine
  that reads an iterable source in a worker. Its states are preinit, start-play, idle,
  seek-backfill, play and reset-playback-iterator, with one pending "next state" and a runner that
  runs one state at a time.
  - Each state and each command is a specification function over the worker's fields
    (`WorkerFields`).
  - The `Worker` class has the same fields and carries one method per operation. Each method is
    proved to change the fields exactly as its function says.
  - Commands from the player that arrive while a state is suspended are an explicit input: an
    `Arrival` at the state's k-th iterator read, or the commands of an idle or play round.
- **Player** (`WorkerIterablePlayer`). The application-side player folds every partial snapshot
  from the worker into its full state with `??`.
- **Snapshot diff and merge** (`PlaybackState`). The flat `PlaybackState` snapshot, the worker's
  diff against the previous snapshot, and the player's merge. The main result is that after any run
  of emissions the player holds every defined value of the last snapshot.
- **Data-platform source** (`DataPlatform`):
  - initialisation against the coverage and topic lists;
  - the per-topic parsed-channel cache;
  - the requests of the message iterator, either one request or five-second windows that skip
    coverage gaps;
  - the backfill request.
- **Data-source state builder** (`DataSourceState`). The incremental builder that an extension data
  source receives, including the all-frames collection loop.
- **CBOR typed-array tags** (`CborTypedArrayTags`). The rosbridge client's tag handler for the
  little-endian typed-array tags of RFC 8746, and the 64-bit word decoders.
- **Rosbridge client** (`RosbridgeClient`). Service-call id generation, the table of waiting
  requests, and the transport event handlers.
- **Grid renderable** (`FoxgloveGrid`). Normalisation of `foxglove.Grid` messages, the first
  message of a topic, the data-length check and its keyed error, the texture fill loop on an
  `array<byte>`, and the settings update with the material's transparency flags.
- **Global-variables table** (`GlobalVariablesTable`). The in-place key rename, with JavaScript
  property order modelled. Also the changed-variable highlight, unlinking, and the linked/unlinked
  partition.

Modelling conventions:
- Times are whole nanoseconds. `clampTime` is `RosTime.ClampTime`.
- JavaScript `===` is equality of `JsValues.Val`: objects are known only by an identity number, and
  new objects take fresh numbers from a counter.
- Wall-clock readings, the tick's range, parser results and the platform's answers are parameters.
- The backfill batch is whatever the source returns. The worker does not check that there is at
  most one message per topic.
- The data-source state's `currentTime` is cleared when the same time object arrives twice. As a
  result it alternates between the time and `undefined` (`DataSourceState.CurrentTimeAlternates`).
- The worker's diff compares each property with `===`, so objects compare by identity, and the
  model does the same.

## Model

| member | source | states |
|---|---|---|
| RosTime.ClampTime | packages/studio-base/src/players/IterablePlayer/WorkerIterablePlayerWorker.worker.ts:504 | inside [start, end] when start <= end; a time inside is kept; a time before start gives start; a time at or after start and past end gives end |
| PlaybackState.KeysPartition | packages/studio-base/src/players/IterablePlayer/WorkerIterablePlayerWorker.worker.ts:71-98 | every snapshot property is exactly one of: a top-level property, or an active-data property |
| PlaybackState.PresenceVal | packages/studio-base/src/players/IterablePlayer/WorkerIterablePlayerWorker.worker.ts:72 | a presence is sent as a string constant |
| PlaybackState.PresenceValInjective | packages/studio-base/src/players/IterablePlayer/WorkerIterablePlayerWorker.worker.ts:72 | distinct presences are sent as distinct values |
| PlaybackState.ChangedSpec | packages/studio-base/src/players/IterablePlayer/WorkerIterablePlayerWorker.worker.ts:483-494 | a key is in the diff iff the snapshot carries it and its value is not `===` the previous one; the diff carries the new value |
| PlaybackState.MergeKeepsAbsent | packages/studio-base/src/players/IterablePlayer/WorkerIterablePlayer.ts:167-208 | a property the partial state leaves undefined or null keeps its previous value |
| PlaybackState.DiffMergeRoundTrip | packages/studio-base/src/players/IterablePlayer/WorkerIterablePlayer.ts:162-212 | when the merged state agrees with the previous snapshot, merging the diff to the next snapshot makes it agree with that one |
| PlaybackState.ReplayAgrees | packages/studio-base/src/players/IterablePlayer/WorkerIterablePlayerWorker.worker.ts:483-499 | after any run of diffs the merged state holds every defined value of the last snapshot |
| PlaybackState.ReplayNeverClears | packages/studio-base/src/players/IterablePlayer/WorkerIterablePlayer.ts:167-208 | once a property is defined, no later diff makes it undefined |
| WorkerPlayback.Requested | packages/studio-base/src/players/IterablePlayer/WorkerIterablePlayerWorker.worker.ts:337-354 | `_setState`: the state is pending and the abort controller dropped; the iterator survives iff the new state is idle or play; the current state, running flag and emissions are kept |
| WorkerPlayback.RequestedFrame | packages/studio-base/src/players/IterablePlayer/WorkerIterablePlayerWorker.worker.ts:337-354 | requesting a state changes nothing but the pending state, the abort flag and the iterator |
| WorkerPlayback.WithError | packages/studio-base/src/players/IterablePlayer/WorkerIterablePlayerWorker.worker.ts:406-414 | error flagged, playing stopped, the error problem stored under `global-error`, every other problem kept |
| WorkerPlayback.SnapshotKeysSpec | packages/studio-base/src/players/IterablePlayer/WorkerIterablePlayerWorker.worker.ts:456-481 | a property is in the snapshot key list iff it is one the worker sends in a snapshot |
| WorkerPlayback.Snapshot | packages/studio-base/src/players/IterablePlayer/WorkerIterablePlayerWorker.worker.ts:451-481 | the snapshot has exactly the snapshot keys |
| WorkerPlayback.ErrorPayload | packages/studio-base/src/players/IterablePlayer/WorkerIterablePlayerWorker.worker.ts:433-449 | the error payload has exactly the top-level keys, with presence ERROR |
| WorkerPlayback.EmitSpec | packages/studio-base/src/players/IterablePlayer/WorkerIterablePlayerWorker.worker.ts:422-500 | no listener, or error payload already sent: no change; otherwise exactly one emission: with an error flagged it is the error payload, marked sent; otherwise the diff against the previous snapshot with the pending batch, after which the pending messages start over; playback fields untouched |
| WorkerPlayback.SeekPlayback | packages/studio-base/src/players/IterablePlayer/WorkerIterablePlayerWorker.worker.ts:502-520 | target is the clamped time; no change when it equals the in-flight seek target or the current time; otherwise the target is recorded, play-until dropped and seek-backfill requested, with playing and current time kept |
| WorkerPlayback.PausePlayback | packages/studio-base/src/players/IterablePlayer/WorkerIterablePlayerWorker.worker.ts:262-273 | not playing: no change; otherwise playing stops and play-until is dropped; idle is requested only from play; outside play the pending state and iterator are kept |
| WorkerPlayback.StartPlayback | packages/studio-base/src/players/IterablePlayer/WorkerIterablePlayerWorker.worker.ts:283-301 | already playing or a play-until set: no change; a play-until at or before the current time fails; on success playing starts, the until is clamped, and play is requested only from idle with nothing but idle pending |
| WorkerPlayback.SetSubscriptions | packages/studio-base/src/players/IterablePlayer/WorkerIterablePlayerWorker.worker.ts:303-334 | stores the subscriptions; unchanged topic sets change nothing else; otherwise the new sets get a new reference and, when paused at a known time in idle, seek-backfill or play, a seek-backfill to the current time is requested |
| WorkerPlayback.SetPlaybackSpeed | packages/studio-base/src/players/IterablePlayer/WorkerIterablePlayerWorker.worker.ts:275-281 | stores the speed; keeps the pending state, the iterator and everything `Kept` names |
| WorkerPlayback.Apply | packages/studio-base/src/players/IterablePlayer/WorkerIterablePlayer.ts:84-111 | a forwarded command (start, play-until, pause, seek, subscriptions; the player forwards no speed) never clears a pending state, keeps the iterator while nothing is pending, keeps source, problems, presence, carried message and error flag, and emits nothing after the error payload (`Kept`) |
| WorkerPlayback.ApplyAll | packages/studio-base/src/players/IterablePlayer/WorkerIterablePlayer.ts:84-111 | a run of commands keeps the same guarantees (`Kept`) |
| WorkerPlayback.Scan | packages/studio-base/src/players/IterablePlayer/WorkerIterablePlayerWorker.worker.ts:613-638 | reference reading: every message taken is at or before the end; a carried message is past it |
| WorkerPlayback.FirstPast | packages/studio-base/src/players/IterablePlayer/WorkerIterablePlayerWorker.worker.ts:631-635 | the index of the first message past the end; every earlier message is at or before it |
| WorkerPlayback.ScanProblems | packages/studio-base/src/players/IterablePlayer/WorkerIterablePlayerWorker.worker.ts:619-626 | every problem result before the first message past the end is stored under its connection, the last of a connection winning; other keys keep their values |
| WorkerPlayback.ScanIsPrefix | packages/studio-base/src/players/IterablePlayer/WorkerIterablePlayerWorker.worker.ts:613-638 | a scan takes exactly the messages before the first one past the end, and carries that one |
| WorkerPlayback.TickStep | packages/studio-base/src/players/IterablePlayer/WorkerIterablePlayerWorker.worker.ts:613-638 | one pass of the tick read keeps the steady fields and a set current time; a continuing pass consumes a result |
| WorkerPlayback.TickRead | packages/studio-base/src/players/IterablePlayer/WorkerIterablePlayerWorker.worker.ts:613-638 | the read loop keeps the steady fields and a set current time |
| WorkerPlayback.TickReadScan | packages/studio-base/src/players/IterablePlayer/WorkerIterablePlayerWorker.worker.ts:613-638 | a tick read that passes with no state pending took exactly the reference scan of the unread results, carries its message past the end (or the one carried before), and stored the problems as `ScanProblems` of the unread results |
| WorkerPlayback.TickReadUninterrupted | packages/studio-base/src/players/IterablePlayer/WorkerIterablePlayerWorker.worker.ts:613-638 | with no command arriving before the results run out, the read passes with no state pending and leaves emissions, error, playing and play-until as they were |
| WorkerPlayback.StartStep | packages/studio-base/src/players/IterablePlayer/WorkerIterablePlayerWorker.worker.ts:705-728 | one pass of the start-play read keeps the steady fields; a continuing pass consumes a result |
| WorkerPlayback.StartRead | packages/studio-base/src/players/IterablePlayer/WorkerIterablePlayerWorker.worker.ts:705-728 | the start-play read keeps the steady fields and a set current time |
| WorkerPlayback.StartReadScan | packages/studio-base/src/players/IterablePlayer/WorkerIterablePlayerWorker.worker.ts:705-728 | a start-play read that passes without bailing out and with no state pending took exactly the reference scan up to the stop time, and stored the problems as `ScanProblems` of the unread results |
| WorkerPlayback.StartReadUninterrupted | packages/studio-base/src/players/IterablePlayer/WorkerIterablePlayerWorker.worker.ts:705-728 | with no command arriving before the results run out, the start-play read passes without bailing out and changes only the iterator position, problems and carried message |
| WorkerPlayback.CommitTick | packages/studio-base/src/players/IterablePlayer/WorkerIterablePlayerWorker.worker.ts:653-662 | the current time is the tick end; the batch is the one emission when emitting is possible; playback pauses once play-until is reached; the carried message and the problems are kept |
| WorkerPlayback.Tick | packages/studio-base/src/players/IterablePlayer/WorkerIterablePlayerWorker.worker.ts:547-663 | not playing: no change; playing without a current time: fails; keeps the steady fields and a set current time |
| WorkerPlayback.TickTo | packages/studio-base/src/players/IterablePlayer/WorkerIterablePlayerWorker.worker.ts:583-601 | keeps the steady fields and a set current time |
| WorkerPlayback.TickBatch | packages/studio-base/src/players/IterablePlayer/WorkerIterablePlayerWorker.worker.ts:603-662 | keeps the steady fields and a set current time |
| WorkerPlayback.TickCommitted | packages/studio-base/src/players/IterablePlayer/WorkerIterablePlayerWorker.worker.ts:547-663 | a tick with no command arriving commits: the current time is the tick end, and the one emission is the carried message (unless past the end) followed by the reference scan of the rest; the first message past the end is carried; the problems are `ScanProblems` of the rest |
| WorkerPlayback.StateStartPlay | packages/studio-base/src/players/IterablePlayer/WorkerIterablePlayerWorker.worker.ts:668-738 | fails without an initialized source or with an iterator already open; keeps the steady fields and a set current time (what it commits: `StartPlayCommitted`) |
| WorkerPlayback.StartPlayFrom | packages/studio-base/src/players/IterablePlayer/WorkerIterablePlayerWorker.worker.ts:673-738 | keeps the steady fields and a set current time (what it commits: `StartPlayCommitted`) |
| WorkerPlayback.StartPlayRead | packages/studio-base/src/players/IterablePlayer/WorkerIterablePlayerWorker.worker.ts:704-738 | keeps the steady fields and a set current time (what it commits: `StartPlayCommitted`) |
| WorkerPlayback.CommitStart | packages/studio-base/src/players/IterablePlayer/WorkerIterablePlayerWorker.worker.ts:733-737 | the current time is the stop time, the player is present, idle is requested; the batch is the one emission when emitting is possible; the iterator, carried message and problems are kept |
| WorkerPlayback.StartPlayCommitted | packages/studio-base/src/players/IterablePlayer/WorkerIterablePlayerWorker.worker.ts:668-738 | an initialized worker with no command arriving commits start-play: the current time is the clamped start plus the seek-on-start offset, present, idle requested, the iterator over all topics from the start, one emission whose batch is the reference scan, its carried message, and the problems `ScanProblems` of the opening results |
| WorkerPlayback.IdleRounds | packages/studio-base/src/players/IterablePlayer/WorkerIterablePlayerWorker.worker.ts:824-838 | the idle rounds keep the steady fields, a set current time, the presence, the source and the problems; with no round the playing flag is kept |
| WorkerPlayback.StateIdle | packages/studio-base/src/players/IterablePlayer/WorkerIterablePlayerWorker.worker.ts:804-839 | fails without a source; otherwise fails iff an abort controller is held; keeps the steady fields; with a source the player is present and the entry emission (not playing, present) goes out first; with an abort controller held nothing follows that emission, and without rounds the worker stays paused |
| WorkerPlayback.StateSeekBackfill | packages/studio-base/src/players/IterablePlayer/WorkerIterablePlayerWorker.worker.ts:742-802 | fails without a source; no target: no change; otherwise no carried message and no abort controller remain, and the target is cleared unless another seek is pending; when a command during the backfill requested a state, the current time, iterator, emissions, playing flag and that state are the commands' own; otherwise the backfill is committed: the current time is the target, the seek emit time is now, the iterator reopens over all topics 1 ns after the target, play or idle is requested by the playing flag, and the backfill is the one emission when emitting is possible |
| WorkerPlayback.Backfilled | packages/studio-base/src/players/IterablePlayer/WorkerIterablePlayerWorker.worker.ts:781-787 | the current time is the target, the seek emit time is now, the iterator reopens over all topics 1 ns after the target, play or idle is requested by the playing flag, and the backfill is the one emission when emitting is possible |
| WorkerPlayback.ResetIterator | packages/studio-base/src/players/IterablePlayer/WorkerIterablePlayerWorker.worker.ts:522-542 | fails without a source or a current time; otherwise only the iterator changes: it reopens over all topics 1 ns after the current time |
| WorkerPlayback.StateReset | packages/studio-base/src/players/IterablePlayer/WorkerIterablePlayerWorker.worker.ts:841-848 | fails without a current time or a source; otherwise the iterator reopens 1 ns after the current time and play or idle is requested by the playing flag |
| WorkerPlayback.PlayStep | packages/studio-base/src/players/IterablePlayer/WorkerIterablePlayerWorker.worker.ts:866-902 | one play round keeps the steady fields and a set current time; a failed tick ends the loop with the error flagged and playing stopped; a state pending after the tick ends it with the tick's fields; a replaced topic set ends it with an iterator reset requested, the carried message dropped, the iterator closed and the tick's time and emissions; the loop goes on only after a passing tick with nothing pending and the same topic set |
| WorkerPlayback.PlayLoop | packages/studio-base/src/players/IterablePlayer/WorkerIterablePlayerWorker.worker.ts:866-902 | the play loop keeps the steady fields and a set current time (rounds: `PlayStep`; topic change: `PlayLoopTopicsReplaced`) |
| WorkerPlayback.PlayLoopAtEnd | packages/studio-base/src/players/IterablePlayer/WorkerIterablePlayerWorker.worker.ts:867-870 | a playing worker at or past the end, with nothing pending, only requests idle |
| WorkerPlayback.PlayLoopTopicsReplaced | packages/studio-base/src/players/IterablePlayer/WorkerIterablePlayerWorker.worker.ts:874-889 | a passing first tick with nothing pending that finds the topic set replaced ends the loop with an iterator reset requested, the carried message dropped and the iterator closed |
| WorkerPlayback.StatePlay | packages/studio-base/src/players/IterablePlayer/WorkerIterablePlayerWorker.worker.ts:850-907 | fails without a source, or without a current time; keeps the steady fields (topic change: `StatePlayTopicsReplaced`) |
| WorkerPlayback.StatePlayTopicsReplaced | packages/studio-base/src/players/IterablePlayer/WorkerIterablePlayerWorker.worker.ts:850-889 | in the play state the same topic change passes with an iterator reset requested, the carried message dropped and the iterator closed |
| WorkerPlayback.RunPass | packages/studio-base/src/players/IterablePlayer/WorkerIterablePlayerWorker.worker.ts:374-393 | the state switch keeps the steady fields and a set current time |
| WorkerPlayback.RunStep | packages/studio-base/src/players/IterablePlayer/WorkerIterablePlayerWorker.worker.ts:368-400 | stops with nothing run iff nothing is pending or input ran out; otherwise the pending state becomes current and runs once; an error stops the loop with the error flagged; the running flag is kept |
| WorkerPlayback.RunLoopSpec | packages/studio-base/src/players/IterablePlayer/WorkerIterablePlayerWorker.worker.ts:361-404 | at most one state per input; the first state run is the pending one and the last is current; nothing run, nothing changed; the running flag is kept; the loop ends with nothing pending unless input ran out or an error occurred |
| WorkerPlayback.RunState | packages/studio-base/src/players/IterablePlayer/WorkerIterablePlayerWorker.worker.ts:361-404 | a run already active changes nothing; otherwise the running flag is released at the end |
| WorkerPlayback.DedupTopics | packages/studio-base/src/players/IterablePlayer/WorkerIterablePlayerWorker.worker.ts:221-237 | kept names together with the seen ones are the input names with the seen ones; no kept name was seen; each input topic is kept or yields a duplicate problem |
| WorkerPlayback.DedupTopicsUnseen | packages/studio-base/src/players/IterablePlayer/WorkerIterablePlayerWorker.worker.ts:224-235 | no kept topic has a name already seen |
| WorkerPlayback.DedupTopicsDistinct | packages/studio-base/src/players/IterablePlayer/WorkerIterablePlayerWorker.worker.ts:221-237 | kept topics have pairwise distinct names |
| WorkerPlayback.DedupTopicsFirst | packages/studio-base/src/players/IterablePlayer/WorkerIterablePlayerWorker.worker.ts:224-235 | each kept topic is the first input topic of its name |
| WorkerPlayback.InitProblems | packages/studio-base/src/players/IterablePlayer/WorkerIterablePlayerWorker.worker.ts:240-244 | problem j is stored under `init-problem-j`; other keys are kept |
| WorkerPlayback.Loaded | packages/studio-base/src/players/IterablePlayer/WorkerIterablePlayerWorker.worker.ts:214-219 | initialized; range, topics, profile and name from the source's result; the start is a new object; the id is kept |
| WorkerPlayback.Initialize | packages/studio-base/src/players/IterablePlayer/WorkerIterablePlayerWorker.worker.ts:187-260 | unknown source type fails with the no-source message; otherwise the range, profile and name are the result's, the current time is the start, topics are de-duplicated, the problems are `InitProblems` of the result's problems followed by the duplicate-topic warnings, the player is present, and start-play is requested unless an error was raised |
| WorkerPlayback.ErrorEmittedOnce | packages/studio-base/src/players/IterablePlayer/WorkerIterablePlayerWorker.worker.ts:427-429 | once the error payload went out, no command emits anything more |
| WorkerPlayback.ErrorPayloadLast | packages/studio-base/src/players/IterablePlayer/WorkerIterablePlayerWorker.worker.ts:433-449 | an emission with an error flagged appends exactly the error payload, and no later command emits anything |
| WorkerIterablePlayerWorker.Worker.constructor | packages/studio-base/src/players/IterablePlayer/WorkerIterablePlayerWorker.worker.ts:108-179 | preinit, initializing presence, paused at speed 1, no listener, no source, no subscriptions, nothing emitted |
| WorkerIterablePlayerWorker.Worker.RegisterListener | packages/studio-base/src/players/IterablePlayer/WorkerIterablePlayerWorker.worker.ts:181-185 | the listener is set; nothing else changes |
| WorkerIterablePlayerWorker.Worker.SetState | packages/studio-base/src/players/IterablePlayer/WorkerIterablePlayerWorker.worker.ts:337-354 | the fields become `Requested` of the old fields |
| WorkerIterablePlayerWorker.Worker.SetError | packages/studio-base/src/players/IterablePlayer/WorkerIterablePlayerWorker.worker.ts:406-414 | the fields become `WithError` of the old fields |
| WorkerIterablePlayerWorker.Worker.PausePlayback | packages/studio-base/src/players/IterablePlayer/WorkerIterablePlayerWorker.worker.ts:262-273 | the fields become `PausePlayback` of the old fields |
| WorkerIterablePlayerWorker.Worker.SeekPlayback | packages/studio-base/src/players/IterablePlayer/WorkerIterablePlayerWorker.worker.ts:502-520 | the fields become `SeekPlayback` of the old fields |
| WorkerIterablePlayerWorker.Worker.EmitStateImpl | packages/studio-base/src/players/IterablePlayer/WorkerIterablePlayerWorker.worker.ts:422-500 | the fields become `Emit` of the old fields (see `EmitSpec`) |
| WorkerIterablePlayerWorker.Worker.EmitErrorPayload | packages/studio-base/src/players/IterablePlayer/WorkerIterablePlayerWorker.worker.ts:433-449 | the error branch: the error payload is sent and marked emitted |
| WorkerIterablePlayerWorker.Worker.EmitChanges | packages/studio-base/src/players/IterablePlayer/WorkerIterablePlayerWorker.worker.ts:451-499 | the snapshot branch: the fields become `EmitDiff` of a new snapshot |
| WorkerIterablePlayerWorker.Worker.SetPlaybackSpeed | packages/studio-base/src/players/IterablePlayer/WorkerIterablePlayerWorker.worker.ts:275-281 | the fields become `SetPlaybackSpeed` of the old fields |
| WorkerIterablePlayerWorker.Worker.StartPlay | packages/studio-base/src/players/IterablePlayer/WorkerIterablePlayerWorker.worker.ts:283-301 | fields and outcome are `StartPlayback` of the old fields |
| WorkerIterablePlayerWorker.Worker.SetSubscriptions | packages/studio-base/src/players/IterablePlayer/WorkerIterablePlayerWorker.worker.ts:303-334 | the fields become `SetSubscriptions` of the old fields |
| WorkerIterablePlayerWorker.Worker.ApplyCommands | packages/studio-base/src/players/IterablePlayer/WorkerIterablePlayer.ts:84-111 | the fields become `ApplyAll` of the old fields |
| WorkerIterablePlayerWorker.Worker.CommitTick | packages/studio-base/src/players/IterablePlayer/WorkerIterablePlayerWorker.worker.ts:653-662 | the fields become `CommitTick` of the old fields |
| WorkerIterablePlayerWorker.Worker.StageBatch | packages/studio-base/src/players/IterablePlayer/WorkerIterablePlayerWorker.worker.ts:656 | the pending messages become a new array holding the batch |
| WorkerIterablePlayerWorker.Worker.TickReads | packages/studio-base/src/players/IterablePlayer/WorkerIterablePlayerWorker.worker.ts:613-638 | the loop's fields and batch are `TickRead` of the starting ones, so batch, carried message and problems are those of the reference scan (`TickReadScan`) |
| WorkerIterablePlayerWorker.Worker.ReadNext | packages/studio-base/src/players/IterablePlayer/WorkerIterablePlayerWorker.worker.ts:618 | the iterator moves past one result, and a command arriving at this read is applied |
| WorkerIterablePlayerWorker.Worker.TickReadStep | packages/studio-base/src/players/IterablePlayer/WorkerIterablePlayerWorker.worker.ts:614-637 | one pass agrees with `TickStep` |
| WorkerIterablePlayerWorker.Worker.Tick | packages/studio-base/src/players/IterablePlayer/WorkerIterablePlayerWorker.worker.ts:547-663 | fields and outcome are `Tick` of the old fields |
| WorkerIterablePlayerWorker.Worker.TickTo | packages/studio-base/src/players/IterablePlayer/WorkerIterablePlayerWorker.worker.ts:583-601 | fields and outcome are `TickTo` of the old fields |
| WorkerIterablePlayerWorker.Worker.TickBatch | packages/studio-base/src/players/IterablePlayer/WorkerIterablePlayerWorker.worker.ts:603-662 | fields and outcome are `TickBatch` of the old fields |
| WorkerIterablePlayerWorker.Worker.StartReads | packages/studio-base/src/players/IterablePlayer/WorkerIterablePlayerWorker.worker.ts:705-728 | the loop's fields and batch are `StartRead` of the starting ones |
| WorkerIterablePlayerWorker.Worker.StartReadStep | packages/studio-base/src/players/IterablePlayer/WorkerIterablePlayerWorker.worker.ts:706-727 | one pass agrees with `StartStep` |
| WorkerIterablePlayerWorker.Worker.StateStartPlay | packages/studio-base/src/players/IterablePlayer/WorkerIterablePlayerWorker.worker.ts:668-738 | fields and outcome are `StateStartPlay` of the old fields, whose commit `StartPlayCommitted` states |
| WorkerIterablePlayerWorker.Worker.StartPlayFrom | packages/studio-base/src/players/IterablePlayer/WorkerIterablePlayerWorker.worker.ts:686-738 | fields and outcome are `StartPlayFrom` of the old fields (commit: `StartPlayCommitted`) |
| WorkerIterablePlayerWorker.Worker.StartPlayRead | packages/studio-base/src/players/IterablePlayer/WorkerIterablePlayerWorker.worker.ts:704-738 | fields and outcome are `StartPlayRead` of the opened fields (commit: `StartPlayCommitted`) |
| WorkerIterablePlayerWorker.Worker.OpenFromStart | packages/studio-base/src/players/IterablePlayer/WorkerIterablePlayerWorker.worker.ts:686-693 | the iterator opens at the start over all topics; the carried message is dropped; the pending messages start over |
| WorkerIterablePlayerWorker.Worker.CommitStart | packages/studio-base/src/players/IterablePlayer/WorkerIterablePlayerWorker.worker.ts:733-737 | the fields become `CommitStart` of the old fields |
| WorkerIterablePlayerWorker.Worker.Initialize | packages/studio-base/src/players/IterablePlayer/WorkerIterablePlayerWorker.worker.ts:187-260 | fields and outcome are `Initialize` of the old fields: range, profile, name, de-duplicated topics, `InitProblems` and presence present |
| WorkerIterablePlayerWorker.Worker.LoadSource | packages/studio-base/src/players/IterablePlayer/WorkerIterablePlayerWorker.worker.ts:214-219 | the source fields become `Loaded`, and the current time is a new object at the start |
| WorkerIterablePlayerWorker.Worker.AddInitProblems | packages/studio-base/src/players/IterablePlayer/WorkerIterablePlayerWorker.worker.ts:240-244 | the problems become `InitProblems` of the old ones |
| WorkerIterablePlayerWorker.Worker.StateIdle | packages/studio-base/src/players/IterablePlayer/WorkerIterablePlayerWorker.worker.ts:804-839 | fields and outcome are `StateIdle` of the old fields: present, with the not-playing entry emission first |
| WorkerIterablePlayerWorker.Worker.IdleLoop | packages/studio-base/src/players/IterablePlayer/WorkerIterablePlayerWorker.worker.ts:824-838 | the fields become `IdleRounds` of the old fields |
| WorkerIterablePlayerWorker.Worker.RefreshProgress | packages/studio-base/src/players/IterablePlayer/WorkerIterablePlayerWorker.worker.ts:825-828 | the progress becomes a new object |
| WorkerIterablePlayerWorker.Worker.ResetPlaybackIterator | packages/studio-base/src/players/IterablePlayer/WorkerIterablePlayerWorker.worker.ts:522-542 | fields and outcome are `ResetIterator` of the old fields |
| WorkerIterablePlayerWorker.Worker.StateReset | packages/studio-base/src/players/IterablePlayer/WorkerIterablePlayerWorker.worker.ts:841-848 | fields and outcome are `StateReset` of the old fields |
| WorkerIterablePlayerWorker.Worker.StateSeekBackfill | packages/studio-base/src/players/IterablePlayer/WorkerIterablePlayerWorker.worker.ts:742-802 | fields and outcome are `StateSeekBackfill` of the old fields |
| WorkerIterablePlayerWorker.Worker.Backfill | packages/studio-base/src/players/IterablePlayer/WorkerIterablePlayerWorker.worker.ts:781-787 | the fields become `Backfilled` of the old fields |
| WorkerIterablePlayerWorker.Worker.StatePlay | packages/studio-base/src/players/IterablePlayer/WorkerIterablePlayerWorker.worker.ts:850-907 | fields and outcome are `StatePlay` of the old fields |
| WorkerIterablePlayerWorker.Worker.PlayRounds | packages/studio-base/src/players/IterablePlayer/WorkerIterablePlayerWorker.worker.ts:866-902 | the fields become `PlayLoop` of the old fields, so a replaced topic set ends the loop with an iterator reset requested (`PlayLoopTopicsReplaced`) |
| WorkerIterablePlayerWorker.Worker.PlayPass | packages/studio-base/src/players/IterablePlayer/WorkerIterablePlayerWorker.worker.ts:866-902 | one pass keeps the loop invariant: `PlayLoop` of the new fields over the rest equals that of the old over all |
| WorkerIterablePlayerWorker.Worker.PlayOneRound | packages/studio-base/src/players/IterablePlayer/WorkerIterablePlayerWorker.worker.ts:867-901 | one round agrees with `PlayStep`: error, pending state or replaced topic set stop the loop as `PlayStep` states |
| WorkerIterablePlayerWorker.Worker.RunPass | packages/studio-base/src/players/IterablePlayer/WorkerIterablePlayerWorker.worker.ts:374-393 | fields and outcome are `RunPass` of the old fields |
| WorkerIterablePlayerWorker.Worker.RunState | packages/studio-base/src/players/IterablePlayer/WorkerIterablePlayerWorker.worker.ts:361-404 | fields and states run are `RunState` of the old fields |
| WorkerIterablePlayerWorker.Worker.RunStates | packages/studio-base/src/players/IterablePlayer/WorkerIterablePlayerWorker.worker.ts:368-396 | fields and states run are `RunLoop` of the old fields |
| WorkerIterablePlayerWorker.Worker.RunOne | packages/studio-base/src/players/IterablePlayer/WorkerIterablePlayerWorker.worker.ts:368-396 | one pass keeps the loop invariant of `RunLoop` |
| WorkerIterablePlayerWorker.Worker.RunPending | packages/studio-base/src/players/IterablePlayer/WorkerIterablePlayerWorker.worker.ts:369-393 | one pass agrees with `RunStep`: a stop, or exactly one state run |
| WorkerIterablePlayerWorker.UniqueTopics | packages/studio-base/src/players/IterablePlayer/WorkerIterablePlayerWorker.worker.ts:223-235 | the loop returns `DedupTopics` of the topics |
| WorkerIterablePlayerWorker.DiffSnapshot | packages/studio-base/src/players/IterablePlayer/WorkerIterablePlayerWorker.worker.ts:483-494 | the loop over the snapshot keys returns exactly the changed properties |
| WorkerIterablePlayer.DefaultActiveData | packages/studio-base/src/players/IterablePlayer/WorkerIterablePlayer.ts:177-189 | active-data keys only; not playing, speed 1, zero seek time and bytes received; its objects are new |
| WorkerIterablePlayer.Player.constructor | packages/studio-base/src/players/IterablePlayer/WorkerIterablePlayer.ts:58-74 | not present, empty player id, no profile or name, distinct progress and capabilities objects, no active data, nothing delivered |
| WorkerIterablePlayer.Player.SetListener | packages/studio-base/src/players/IterablePlayer/WorkerIterablePlayer.ts:76-82 | a second call fails with the setListener message; the listener is registered and the state is unchanged |
| WorkerIterablePlayer.Player.EmitStateImpl | packages/studio-base/src/players/IterablePlayer/WorkerIterablePlayer.ts:162-212 | no listener: nothing changes; otherwise both levels merge the partial state with `??`, active data starts from the defaults the first time, and the merged state is delivered |
| WorkerIterablePlayer.Player.SetParameter | packages/studio-base/src/players/IterablePlayer/WorkerIterablePlayer.ts:117-119 | always fails with the parameter message |
| WorkerIterablePlayer.Player.Publish | packages/studio-base/src/players/IterablePlayer/WorkerIterablePlayer.ts:121-123 | always fails with the publish message |
| WorkerIterablePlayer.Player.CallService | packages/studio-base/src/players/IterablePlayer/WorkerIterablePlayer.ts:125-127 | always fails with the service message |
| WorkerIterablePlayer.Player.SetPlaybackSpeed | packages/studio-base/src/players/IterablePlayer/WorkerIterablePlayer.ts:99-101 | changes nothing: the speed never reaches the worker |
| WorkerIterablePlayer.Player.SetPublishers | packages/studio-base/src/players/IterablePlayer/WorkerIterablePlayer.ts:113-115 | changes nothing |
| WorkerIterablePlayer.Player.SetGlobalVariables | packages/studio-base/src/players/IterablePlayer/WorkerIterablePlayer.ts:133-135 | changes nothing |
| WorkerIterablePlayer.ActiveDataDefined | packages/studio-base/src/players/IterablePlayer/WorkerIterablePlayer.ts:191-208 | a defined active-data property stays defined through a merge |
| WorkerIterablePlayer.DefaultActiveDataDefined | packages/studio-base/src/players/IterablePlayer/WorkerIterablePlayer.ts:177-189 | every default value is defined |
| WorkerIterablePlayer.PlayerTracksWorker | packages/studio-base/src/players/IterablePlayer/WorkerIterablePlayer.ts:162-212 | after any run of worker snapshots, the player's top level and active data hold every defined value of the last one |
| DataSourceState.SubscribedEvents | packages/studio-base/src/components/DataExtensionAdapter/dataSourceState.ts:138-143 | never longer than the events (membership: `SubscribedEventsSpec`) |
| DataSourceState.SubscribedEventsSpec | packages/studio-base/src/components/DataExtensionAdapter/dataSourceState.ts:138-143 | an event is kept iff it is an input event on a subscribed topic |
| DataSourceState.BlockFramesSpec | packages/studio-base/src/components/DataExtensionAdapter/dataSourceState.ts:137-144 | an event is in a block's frames iff it is a subscribed event of one of its arrays |
| DataSourceState.AllFramesSpec | packages/studio-base/src/components/DataExtensionAdapter/dataSourceState.ts:131-145 | all frames hold exactly the subscribed events of the defined blocks |
| DataSourceState.TopicsStep | packages/studio-base/src/components/DataExtensionAdapter/dataSourceState.ts:70-73 | the subscribed-topics reference is remembered; the state object is untouched |
| DataSourceState.DidSeekStep | packages/studio-base/src/components/DataExtensionAdapter/dataSourceState.ts:83-90 | only didSeek can change; not watched: no change |
| DataSourceState.CurrentFrameStep | packages/studio-base/src/components/DataExtensionAdapter/dataSourceState.ts:92-101 | only currentFrame can change; not watched: no change |
| DataSourceState.ParametersStep | packages/studio-base/src/components/DataExtensionAdapter/dataSourceState.ts:103-109 | only parameters can change; not watched: no change |
| DataSourceState.VariablesStep | packages/studio-base/src/components/DataExtensionAdapter/dataSourceState.ts:111-117 | only variables can change; not watched: no change |
| DataSourceState.TopicsFieldStep | packages/studio-base/src/components/DataExtensionAdapter/dataSourceState.ts:119-124 | only topics can change; not watched: no change |
| DataSourceState.AllFramesStep | packages/studio-base/src/components/DataExtensionAdapter/dataSourceState.ts:126-148 | only allFrames can change; not watched: no change |
| DataSourceState.CurrentTimeStep | packages/studio-base/src/components/DataExtensionAdapter/dataSourceState.ts:150-162 | only currentTime can change; not watched: no change |
| DataSourceState.AppSettingsStep | packages/studio-base/src/components/DataExtensionAdapter/dataSourceState.ts:181-186 | only appSettings can change; not watched: no change |
| DataSourceState.UnwatchedUnchanged | packages/studio-base/src/components/DataExtensionAdapter/dataSourceState.ts:54-193 | a call leaves every unwatched field of the state as it was |
| DataSourceState.CurrentTimeNeverNull | packages/studio-base/src/components/DataExtensionAdapter/dataSourceState.ts:150-162 | the stored current time is never null |
| DataSourceState.NoUpdateNoChange | packages/studio-base/src/components/DataExtensionAdapter/dataSourceState.ts:188-192 | a call that returns undefined changed no field of the state |
| DataSourceState.NothingWatchedNoUpdate | packages/studio-base/src/components/DataExtensionAdapter/dataSourceState.ts:188-190 | watching nothing, a call returns undefined |
| DataSourceState.DidSeekSpec | packages/studio-base/src/components/DataExtensionAdapter/dataSourceState.ts:83-90 | didSeek holds iff the last seek time differs from the one seen on the previous call, which is then remembered |
| DataSourceState.CurrentFrameSpec | packages/studio-base/src/components/DataExtensionAdapter/dataSourceState.ts:92-101 | the frame is replaced, and counts as an update, when the old or the new frame is non-empty; otherwise it is kept |
| DataSourceState.ReferenceFieldsSpec | packages/studio-base/src/components/DataExtensionAdapter/dataSourceState.ts:103-186 | parameters, topics and app settings take the input's reference; a new reference counts as an update |
| DataSourceState.VariablesSpec | packages/studio-base/src/components/DataExtensionAdapter/dataSourceState.ts:111-117 | a new globals object rebuilds the variables from its entries; the same object keeps them; the object is remembered |
| DataSourceState.AllFramesRecomputed | packages/studio-base/src/components/DataExtensionAdapter/dataSourceState.ts:66-148 | with blocks present and new blocks or a new subscribed-topics reference, all frames are recomputed as exactly the subscribed events, and count as an update |
| DataSourceState.AllFramesKept | packages/studio-base/src/components/DataExtensionAdapter/dataSourceState.ts:126-148 | same blocks and topics: all frames are kept |
| DataSourceState.CurrentTimeSpec | packages/studio-base/src/components/DataExtensionAdapter/dataSourceState.ts:150-162 | a defined time equal to the stored one clears it, a different one is stored, both as updates; no time clears it |
| DataSourceState.CurrentTimeAlternates | packages/studio-base/src/components/DataExtensionAdapter/dataSourceState.ts:150-162 | repeated calls with one time alternate between it and undefined, each reporting an update |
| DataSourceState.DataSourceStateBuilder.constructor | packages/studio-base/src/components/DataExtensionAdapter/dataSourceState.ts:46-52 | the empty globals as last globals; no previous seek time, blocks or topics; an empty state object |
| DataSourceState.DataSourceStateBuilder.BuildDataSourceState | packages/studio-base/src/components/DataExtensionAdapter/dataSourceState.ts:54-193 | the fields become `Build` of the old ones; the state object is returned iff a watched field was updated |
| DataSourceState.DataSourceStateBuilder.UpdateDidSeek | packages/studio-base/src/components/DataExtensionAdapter/dataSourceState.ts:83-90 | agrees with `DidSeekStep` |
| DataSourceState.DataSourceStateBuilder.UpdateCurrentFrame | packages/studio-base/src/components/DataExtensionAdapter/dataSourceState.ts:92-101 | agrees with `CurrentFrameStep` |
| DataSourceState.DataSourceStateBuilder.UpdateParameters | packages/studio-base/src/components/DataExtensionAdapter/dataSourceState.ts:103-109 | agrees with `ParametersStep` |
| DataSourceState.DataSourceStateBuilder.UpdateVariables | packages/studio-base/src/components/DataExtensionAdapter/dataSourceState.ts:111-117 | agrees with `VariablesStep` |
| DataSourceState.DataSourceStateBuilder.UpdateTopics | packages/studio-base/src/components/DataExtensionAdapter/dataSourceState.ts:119-124 | agrees with `TopicsFieldStep` |
| DataSourceState.DataSourceStateBuilder.UpdateAllFrames | packages/studio-base/src/components/DataExtensionAdapter/dataSourceState.ts:126-148 | agrees with `AllFramesStep` |
| DataSourceState.DataSourceStateBuilder.UpdateCurrentTime | packages/studio-base/src/components/DataExtensionAdapter/dataSourceState.ts:150-162 | agrees with `CurrentTimeStep` |
| DataSourceState.DataSourceStateBuilder.UpdateAppSettings | packages/studio-base/src/components/DataExtensionAdapter/dataSourceState.ts:181-186 | agrees with `AppSettingsStep` |
| DataSourceState.CollectFrames | packages/studio-base/src/components/DataExtensionAdapter/dataSourceState.ts:131-145 | the nested loops return every subscribed event of every defined block, in order |
| DataPlatform.SourceOf | packages/studio-base/src/players/IterablePlayer/foxglove-data-platform/DataPlatformIterableSource.ts:242 | the device when its id is truthy, else the import |
| DataPlatform.EarliestStart | packages/studio-base/src/players/IterablePlayer/foxglove-data-platform/DataPlatformIterableSource.ts:115 | a region of the coverage whose start no region undercuts |
| DataPlatform.LatestEnd | packages/studio-base/src/players/IterablePlayer/foxglove-data-platform/DataPlatformIterableSource.ts:116 | a region of the coverage whose end no region exceeds |
| DataPlatform.TopicStep | packages/studio-base/src/players/IterablePlayer/foxglove-data-platform/DataPlatformIterableSource.ts:144-187 | missing schema: only the missing-schema error problem; cached channel: no new topic; a topic is added only for a parsed channel, which is appended to its cache; other topics' caches are kept |
| DataPlatform.NamesOf | packages/studio-base/src/players/IterablePlayer/foxglove-data-platform/DataPlatformIterableSource.ts:189 | name i is the name of topic i |
| DataPlatform.InitializeSource | packages/studio-base/src/players/IterablePlayer/foxglove-data-platform/DataPlatformIterableSource.ts:86-201 | no topics or coverage: not initialized and no change, with the no-data error exactly for a device with a set range; otherwise initialized, the known topic names are the names of the result's topics, and the stored range is the result's |
| DataPlatform.FirstWindow | packages/studio-base/src/players/IterablePlayer/foxglove-data-platform/DataPlatformIterableSource.ts:258-259 | the first window ends by the stream end, and lies in order inside the range unless it already reaches the end |
| DataPlatform.IteratorRequests | packages/studio-base/src/players/IterablePlayer/foxglove-data-platform/DataPlatformIterableSource.ts:203-310 | requests only for topics of which one is known, with an initialised range and a source; each asks for the given topics, without replay |
| DataPlatform.MatchingTopics | packages/studio-base/src/players/IterablePlayer/foxglove-data-platform/DataPlatformIterableSource.ts:221-223 | zero iff no requested topic is known |
| DataPlatform.RequestsOf | packages/studio-base/src/players/IterablePlayer/foxglove-data-platform/DataPlatformIterableSource.ts:258-309 | request i covers window i for the given source and topics |
| DataPlatform.BackfillRequest | packages/studio-base/src/players/IterablePlayer/foxglove-data-platform/DataPlatformIterableSource.ts:312-345 | none for empty topics or no ids; otherwise the instant `time` with last-per-channel replay over 30 minutes |
| DataPlatform.CoverageAdjustForward | packages/studio-base/src/players/IterablePlayer/foxglove-data-platform/DataPlatformIterableSource.ts:284-305 | the coverage scan never moves a time back, and moves it only to a region's start |
| DataPlatform.CoverageAdjustInside | packages/studio-base/src/players/IterablePlayer/foxglove-data-platform/DataPlatformIterableSource.ts:292-295 | a time inside the first region that decides is left alone |
| DataPlatform.NextWindowStreamable | packages/studio-base/src/players/IterablePlayer/foxglove-data-platform/DataPlatformIterableSource.ts:278-308 | after a window short of the stream end, the next starts past it and is streamable |
| DataPlatform.WindowsBounded | packages/studio-base/src/players/IterablePlayer/foxglove-data-platform/DataPlatformIterableSource.ts:258-309 | from a window inside the stream range, every later window is inside it |
| DataPlatform.WindowsAscending | packages/studio-base/src/players/IterablePlayer/foxglove-data-platform/DataPlatformIterableSource.ts:278-308 | the first window is the given one, and each ends before the next starts |
| DataPlatform.WindowsReachEnd | packages/studio-base/src/players/IterablePlayer/foxglove-data-platform/DataPlatformIterableSource.ts:258-309 | the last window ends at the stream end and no earlier one does; later windows span at most five seconds |
| DataPlatform.PartialWindowsSpec | packages/studio-base/src/players/IterablePlayer/foxglove-data-platform/DataPlatformIterableSource.ts:258-309 | non-empty; starts at the stream start; ends at the stream end; every window inside the range; ascending and disjoint |
| DataPlatform.InvertedRangeOneWindow | packages/studio-base/src/players/IterablePlayer/foxglove-data-platform/DataPlatformIterableSource.ts:258-279 | a start after the end gives one inverted window |
| DataPlatform.IteratorRequestsSpec | packages/studio-base/src/players/IterablePlayer/foxglove-data-platform/DataPlatformIterableSource.ts:203-310 | every request is for the source; full consumption makes one request over the clamped range; partial windows start at the start, end at the clamped end, are inside it and ascend |
| DataPlatform.InitializeRange | packages/studio-base/src/players/IterablePlayer/foxglove-data-platform/DataPlatformIterableSource.ts:131-138 | with topics and coverage: the coverage is stored and the range lies inside it; a bound already inside is kept; a missing start or one before the earliest coverage start becomes that start, and a missing end or one after the latest coverage end becomes that end; the init result reports that range |
| DataPlatform.TopicStepKeeps | packages/studio-base/src/players/IterablePlayer/foxglove-data-platform/DataPlatformIterableSource.ts:151-174 | one turn keeps the cache free of repeated channels, with every accepted topic cached |
| DataPlatform.TopicsLoopKeeps | packages/studio-base/src/players/IterablePlayer/foxglove-data-platform/DataPlatformIterableSource.ts:144-187 | the whole loop keeps the same two invariants |
| DataPlatform.InitializeKeepsCache | packages/studio-base/src/players/IterablePlayer/foxglove-data-platform/DataPlatformIterableSource.ts:140-189 | after initialize the cache has no repeats, and every known topic name has cached channels |
| DataPlatform.CachedTopicNotRepeated | packages/studio-base/src/players/IterablePlayer/foxglove-data-platform/DataPlatformIterableSource.ts:146-164 | a topic with a cached channel or without schema adds no topic and no datatype |
| DataPlatform.AddDatatypesLastWins | packages/studio-base/src/players/IterablePlayer/foxglove-data-platform/DataPlatformIterableSource.ts:176-178 | a name is defined iff it was or a pair names it; it takes the definition of its last pair, or keeps the old one without a pair |
| DataPlatform.FlattenMembers | packages/studio-base/src/players/IterablePlayer/foxglove-data-platform/DataPlatformIterableSource.ts:328-344 | a message is returned iff some block holds it |
| DataPlatform.DataPlatformIterableSource.constructor | packages/studio-base/src/players/IterablePlayer/foxglove-data-platform/DataPlatformIterableSource.ts:78-84 | the options' range and ids; no known topics, cached channels or coverage |
| DataPlatform.DataPlatformIterableSource.Initialize | packages/studio-base/src/players/IterablePlayer/foxglove-data-platform/DataPlatformIterableSource.ts:86-201 | fields and outcome are `InitializeSource` of the old fields |
| DataPlatform.DataPlatformIterableSource.AddTopic | packages/studio-base/src/players/IterablePlayer/foxglove-data-platform/DataPlatformIterableSource.ts:145-186 | one turn agrees with `TopicStep`; range, coverage and known names untouched |
| DataPlatform.DataPlatformIterableSource.MessageIterator | packages/studio-base/src/players/IterablePlayer/foxglove-data-platform/DataPlatformIterableSource.ts:203-310 | the requests are `IteratorRequests` of the fields |
| DataPlatform.DataPlatformIterableSource.StreamWindows | packages/studio-base/src/players/IterablePlayer/foxglove-data-platform/DataPlatformIterableSource.ts:258-309 | the window loop returns `PartialWindows` |
| DataPlatform.DataPlatformIterableSource.AdjustToCoverage | packages/studio-base/src/players/IterablePlayer/foxglove-data-platform/DataPlatformIterableSource.ts:284-305 | the loop with breaks returns `CoverageAdjust` |
| DataPlatform.DataPlatformIterableSource.GetBackfillMessages | packages/studio-base/src/players/IterablePlayer/foxglove-data-platform/DataPlatformIterableSource.ts:312-345 | the request is `BackfillRequest`; the messages are the blocks concatenated, none without a request |
| DataPlatform.FindChannel | packages/studio-base/src/players/IterablePlayer/foxglove-data-platform/DataPlatformIterableSource.ts:156-164 | found iff a cached channel matches |
| DataPlatform.SetDatatypes | packages/studio-base/src/players/IterablePlayer/foxglove-data-platform/DataPlatformIterableSource.ts:176-178 | the loop returns `AddDatatypes` |
| DataPlatform.CountMatching | packages/studio-base/src/players/IterablePlayer/foxglove-data-platform/DataPlatformIterableSource.ts:221-223 | the reduce returns `MatchingTopics` |
| CborTypedArrayTags.ByteView.Bytes | packages/rosbridge-client/src/cborTypedArrayTags.ts:72-74 | the copied buffer slice: `byteLength` bytes from `byteOffset` |
| CborTypedArrayTags.EncodeLE | packages/rosbridge-client/src/cborTypedArrayTags.ts:71-76 | n bytes (the inverse of the little-endian read: `DecodeEncodeLE`, `EncodeDecodeLE`) |
| CborTypedArrayTags.DecodeEncodeLE | packages/rosbridge-client/src/cborTypedArrayTags.ts:71-76 | reading back an encoded value gives the value |
| CborTypedArrayTags.EncodeDecodeLE | packages/rosbridge-client/src/cborTypedArrayTags.ts:71-76 | encoding a read value gives the bytes back |
| CborTypedArrayTags.NativeArray | packages/rosbridge-client/src/cborTypedArrayTags.ts:71-76 | succeeds iff the length is a multiple of the element size; integer element i is the little-endian value of its bytes, signed for signed types |
| CborTypedArrayTags.Int64ElementValue | packages/rosbridge-client/src/cborTypedArrayTags.ts:30-35 | low word plus 2^32 times high word is the 8-byte little-endian value, two's complement when signed |
| CborTypedArrayTags.Int64Words | packages/rosbridge-client/src/cborTypedArrayTags.ts:55-61 | one element per 8 bytes, the 64-bit value of those bytes |
| CborTypedArrayTags.PrecisionWarning.constructor | packages/rosbridge-client/src/cborTypedArrayTags.ts:7 | no warning given yet |
| CborTypedArrayTags.PrecisionWarning.Warn | packages/rosbridge-client/src/cborTypedArrayTags.ts:8-13 | the warning is given; the count goes up only the first time, so it never exceeds one |
| CborTypedArrayTags.DecodeInt64LE | packages/rosbridge-client/src/cborTypedArrayTags.ts:44-64 | warns, and returns the 64-bit decoding of the viewed bytes |
| CborTypedArrayTags.Int64ArrayValues | packages/rosbridge-client/src/cborTypedArrayTags.ts:19-64 | the decoded array has one element per 8 bytes, each the 64-bit value |
| CborTypedArrayTags.TypedArrayTag | packages/rosbridge-client/src/cborTypedArrayTags.ts:107-116 | a native tag gives the typed array of its element type over the viewed bytes; tag 71 the unsigned and tag 79 the signed 64-bit decoding; any other tag returns the data unchanged |
| CborTypedArrayTags.TypedArrayTagInt64 | packages/rosbridge-client/src/cborTypedArrayTags.ts:107-116 | tags 71 and 79 succeed iff the byte length is a multiple of 8; then one value per 8 bytes, little-endian unsigned for 71 and two's complement for 79 |
| CborTypedArrayTags.CborTypedArrayTagger | packages/rosbridge-client/src/cborTypedArrayTags.ts:107-116 | returns `TypedArrayTag`; the warning is set exactly for tags 71 and 79, and is untouched for the others |
| CborTypedArrayTags.NativeTagTypes | packages/rosbridge-client/src/cborTypedArrayTags.ts:83-92 | tags 64, 69, 70, 72, 77, 78 are the integer typed arrays; only those and the float tags 85, 86 are native |
| CborTypedArrayTags.TagIsLocal | packages/rosbridge-client/src/cborTypedArrayTags.ts:71-76 | the result depends only on the viewed bytes, not on the rest of the buffer |
| CborTypedArrayTags.Int64ArrayRange | packages/rosbridge-client/src/cborTypedArrayTags.ts:30-35 | tag 71 values are unsigned 64-bit, tag 79 values signed 64-bit |
| CborTypedArrayTags.EncodeUint64LE | packages/rosbridge-client/src/cborTypedArrayTags.ts:19-38 | 8 bytes per value |
| CborTypedArrayTags.Uint64RoundTrip | packages/rosbridge-client/src/cborTypedArrayTags.ts:19-38 | decoding the little-endian encoding of unsigned 64-bit values gives them back |
| CborTypedArrayTags.Uint64Reencode | packages/rosbridge-client/src/cborTypedArrayTags.ts:19-38 | re-encoding the decoded values gives the bytes back |
| RosbridgeClient.NatToString | packages/rosbridge-client/src/RosbridgeClient.ts:425 | a non-empty string of decimal digits, at least two for n >= 10 |
| RosbridgeClient.NatToStringInjective | packages/rosbridge-client/src/RosbridgeClient.ts:425 | different counters give different numerals |
| RosbridgeClient.SplitAtLastColon | packages/rosbridge-client/src/RosbridgeClient.ts:425 | `p:d` with a colon-free `d` determines `p` and `d` |
| RosbridgeClient.CallIdInjective | packages/rosbridge-client/src/RosbridgeClient.ts:425 | a call id determines its service name and counter |
| RosbridgeClient.RejectAllSpec | packages/rosbridge-client/src/RosbridgeClient.ts:107-115 | after close, exactly the pending and settled ids are settled; earlier settlements stay; the rest are rejected with "connection closed" |
| RosbridgeClient.RejectOneMore | packages/rosbridge-client/src/RosbridgeClient.ts:110-112 | rejecting one more id extends the rejections |
| RosbridgeClient.RosbridgeClient.constructor | packages/rosbridge-client/src/RosbridgeClient.ts:87-97 | counter 0, no waiting requests, nothing sent or emitted |
| RosbridgeClient.RosbridgeClient.CallServiceRequest | packages/rosbridge-client/src/RosbridgeClient.ts:424-441 | the counter goes up by one; the new id was never used; it waits; the call is sent |
| RosbridgeClient.RosbridgeClient.Settle | packages/rosbridge-client/src/RosbridgeClient.ts:129-133 | a promise settles once: a settled id keeps its settlement; nothing else changes |
| RosbridgeClient.RosbridgeClient.OnMessage | packages/rosbridge-client/src/RosbridgeClient.ts:117-145 | a response removes its id from the waiting table; a waiting id is resolved on result and rejected otherwise; an unknown id only warns; publish emits a message; other ops change nothing |
| RosbridgeClient.RosbridgeClient.OnClose | packages/rosbridge-client/src/RosbridgeClient.ts:107-115 | every waiting request is rejected with connection closed (earlier settlements stay), the table is kept, and close is emitted |
| RosbridgeClient.RosbridgeClient.OnOpen | packages/rosbridge-client/src/RosbridgeClient.ts:99-101 | emits open; nothing else changes |
| RosbridgeClient.RosbridgeClient.OnError | packages/rosbridge-client/src/RosbridgeClient.ts:103-105 | emits the error; nothing else changes |
| RosbridgeClient.RosbridgeClient.SubscribeTopic | packages/rosbridge-client/src/RosbridgeClient.ts:169-193 | sends one subscribe message; nothing else changes |
| RosbridgeClient.RosbridgeClient.CloseClient | packages/rosbridge-client/src/RosbridgeClient.ts:165-167 | the transport is closed; nothing else changes |
| RosbridgeClient.SubscribeMessage | packages/rosbridge-client/src/RosbridgeClient.ts:176-185 | compression defaults to "none"; throttle rate and queue length are 0 |
| RosbridgeClient.ResponseSettlesOnlyItsCall | packages/rosbridge-client/src/RosbridgeClient.ts:122-134 | two calls get different ids; a response to the first resolves it while the second still waits |
| FoxgloveGrid.NormalizeField | packages/studio-base/src/panels/ThreeDeeRender/renderables/FoxgloveGrid.ts:400-408 | a missing name, offset or type defaults to "", 0 or 0 |
| FoxgloveGrid.NormalizeGrid | packages/studio-base/src/panels/ThreeDeeRender/renderables/FoxgloveGrid.ts:417-432 | missing strides and column count become 0, cell size 1 by 1, frame "", no fields; present ones are kept; field i is field i normalized; the data is kept |
| FoxgloveGrid.NormalizeComplete | packages/studio-base/src/panels/ThreeDeeRender/renderables/FoxgloveGrid.ts:417-432 | normalizing a complete message changes nothing |
| FoxgloveGrid.Rows | packages/studio-base/src/panels/ThreeDeeRender/renderables/FoxgloveGrid.ts:248-253 | defined iff the row stride is not 0; rows times row stride is the data length |
| FoxgloveGrid.SizeMatchesIff | packages/studio-base/src/panels/ThreeDeeRender/renderables/FoxgloveGrid.ts:206-212 | the length check passes iff the row stride is non-zero and is one row of cells, or there is no data |
| FoxgloveGrid.ToUint8Clamp | packages/studio-base/src/panels/ThreeDeeRender/renderables/FoxgloveGrid.ts:338-341 | clamps to [0, 255], within half a unit of the value |
| FoxgloveGrid.PixelEndpoints | packages/studio-base/src/panels/ThreeDeeRender/renderables/FoxgloveGrid.ts:321-342 | value 0 paints the min colour; 100 paints four zero bytes |
| FoxgloveGrid.NumCellsSpec | packages/studio-base/src/panels/ThreeDeeRender/renderables/FoxgloveGrid.ts:319 | cell m is visited iff its first byte is inside the data |
| FoxgloveGrid.TextureAfter | packages/studio-base/src/panels/ThreeDeeRender/renderables/FoxgloveGrid.ts:302-348 | the texture keeps its length |
| FoxgloveGrid.TextureAfterPixel | packages/studio-base/src/panels/ThreeDeeRender/renderables/FoxgloveGrid.ts:317-345 | byte j is untouched when its cell is past the data or its value exceeds 100; 100 gives 0; 0 gives the min colour channel |
| FoxgloveGrid.UpdateTexture | packages/studio-base/src/panels/ThreeDeeRender/renderables/FoxgloveGrid.ts:302-348 | the fill loop leaves the array equal to `TextureAfter` of its old contents |
| FoxgloveGrid.RegenerateAsWrittenKeepsWrongTexture | packages/studio-base/src/panels/ThreeDeeRender/renderables/FoxgloveGrid.ts:214-223 | a valid 2 x 2 grid of cell size 2 after a 4 x 4 texture: the as-written check keeps the texture, the corrected one remakes it |
| FoxgloveGrid.UnitCellsAgree | packages/studio-base/src/panels/ThreeDeeRender/renderables/FoxgloveGrid.ts:214-217 | with cells of size 1 the as-written and the corrected texture checks give the same answer for every texture size |
| FoxgloveGrid.RegenerateAsWrittenRemakesOwnTexture | packages/studio-base/src/panels/ThreeDeeRender/renderables/FoxgloveGrid.ts:214-223 | for a grid with rows, columns and a cell width other than 1, the as-written check remakes the texture made for that very grid, and the corrected check keeps it |
| FoxgloveGrid.GridRenderable.constructor | packages/studio-base/src/panels/ThreeDeeRender/renderables/FoxgloveGrid.ts:146-183 | for any grid with a non-zero row stride: a zeroed texture whose width is the column count and height the row count; the material is transparent iff the settings' alphas are, and writes depth iff it is not; no errors; the settings are stored |
| FoxgloveGrid.GridRenderable.Update | packages/studio-base/src/panels/ThreeDeeRender/renderables/FoxgloveGrid.ts:195-229 | a size mismatch only records the error under `INVALID_FOXGLOVE_GRID`; otherwise size and scale follow the grid, the texture is new iff the corrected check says the cell counts changed, and its bytes are the fill of the zeroed or old texture; settings and material flags are kept |
| FoxgloveGrid.GridRenderable.ApplySettings | packages/studio-base/src/panels/ThreeDeeRender/renderables/FoxgloveGrid.ts:112-144 | the settings are stored; the material flags flip exactly when the transparency changed, transparent iff the new alphas are; the grid is then re-rendered: a mismatch records the error, otherwise the texture keeps its size and is refilled |
| FoxgloveGrid.FillTexture | packages/studio-base/src/panels/ThreeDeeRender/renderables/FoxgloveGrid.ts:214-226 | a zeroed texture of the grid's size when regenerating, otherwise the old array; its bytes are the fill of its previous contents |
| FoxgloveGrid.HandleFirstGrid | packages/studio-base/src/panels/ThreeDeeRender/renderables/FoxgloveGrid.ts:146-192 | the first grid of a topic creates the renderable and renders it: a size mismatch records the error and keeps the zeroed texture; the settings and material flags are those of the settings |
| FoxgloveGrid.Zeros | packages/studio-base/src/panels/ThreeDeeRender/renderables/FoxgloveGrid.ts:264 | n zero bytes |
| FoxgloveGrid.ColorFieldOffset | packages/studio-base/src/panels/ThreeDeeRender/renderables/FoxgloveGrid.ts:307-309 | the offset of the first field with that name; 0 when no field has it |
| GlobalVariablesTable.ChangeGlobalKeyInPlace | packages/studio-base/src/components/GlobalVariablesTable/index.tsx:77-90 | renaming the key at idx keeps every other property, value and position, and puts the new key there with the old value, when the keys stay in enumeration order |
| GlobalVariablesTable.ChangeGlobalKeyToArrayIndex | packages/studio-base/src/components/GlobalVariablesTable/index.tsx:77-90 | an array-index new key moves to the front: renaming b of {a, b} to "7" gives key order 7, a |
| GlobalVariablesTable.ChangeGlobalKeyRenames | packages/studio-base/src/components/GlobalVariablesTable/index.tsx:77-90 | for any new key not among the other keys, array index or not: removing the new key from the result gives the object without the renamed entry, and the new key holds the old key's value |
| GlobalVariablesTable.Union | packages/studio-base/src/components/GlobalVariablesTable/index.tsx:252-254 | distinct values; exactly those of either input |
| GlobalVariablesTable.Dedup | packages/studio-base/src/components/GlobalVariablesTable/index.tsx:252-254 | distinct; exactly the input values not in `seen` |
| GlobalVariablesTable.ChangedVariables | packages/studio-base/src/components/GlobalVariablesTable/index.tsx:252-258 | a name is highlighted iff it is a key of either object and its values differ |
| GlobalVariablesTable.FilterChangedSpec | packages/studio-base/src/components/GlobalVariablesTable/index.tsx:255-258 | the filter keeps exactly the names whose values differ |
| GlobalVariablesTable.Unlink | packages/studio-base/src/components/GlobalVariablesTable/index.tsx:107-117 | keeps exactly the links other than the name at the path, never more |
| GlobalVariablesTable.UnlinkIdempotent | packages/studio-base/src/components/GlobalVariablesTable/index.tsx:107-117 | unlinking twice equals unlinking once |
| GlobalVariablesTable.UnlinkAndDelete | packages/studio-base/src/components/GlobalVariablesTable/index.tsx:119-125 | keeps exactly the links of other names, and the update sets the name to undefined |
| GlobalVariablesTable.DropName | packages/studio-base/src/components/GlobalVariablesTable/index.tsx:120-122 | keeps exactly the links of other names |
| GlobalVariablesTable.Partition | packages/studio-base/src/components/GlobalVariablesTable/index.tsx:233-235 | linked names are those with links, unlinked those without; together a permutation of the names |
| GlobalVariablesTable.PartitionKeepsOrder | packages/studio-base/src/components/GlobalVariablesTable/index.tsx:233-235 | both halves keep the names in their original order |
| GlobalVariablesTable.RenameUnlinkedRowDropsLinkedVariable | packages/studio-base/src/components/GlobalVariablesTable/index.tsx:282-297 | as written, with {a: 1, b: 2} and only b linked, renaming a's row to c gives {a: 1, c: 1}: b is lost and a stays |
| GlobalVariablesTable.RenameUnlinkedRowFixedInPlace | packages/studio-base/src/components/GlobalVariablesTable/index.tsx:282-297 | the corrected rename replaces exactly the edited name, keeping its value, position and every other variable |

## Left out

- Timers are not modelled: the debounce of `_queueEmitState`, the 100 ms start delay, the buffering-presence timeouts of tick and start-play, and the seek-acknowledgement timeout. An emission happens at once; the buffering presence and the acknowledgement emission are not modelled.
- Wall-clock readings are inputs: `performance.now()`, the smoothing of `rangeMillis` and the 300 ms cap. A tick receives its range in nanoseconds; `Date.now()` values are parameters.
- Commands from the player interleave only at the awaits the model names: iterator reads, the backfill await, and the rounds of idle and play. Other interleavings are not modelled.
- The backfill's failure path, and the catch of `initialize`, are not modelled. Among them is the abort of a backfill by a later state.
- The Comlink RPC between player and worker is not modelled. The player's `startPlayback`, `playUntil`, `pausePlayback`, `seekPlayback` and `setSubscriptions` forward to the worker; the worker's own operations model them. `_stateInitialize` and `close` (thread termination) are left out.
- Iterator `return()` and `stopProducer` are not modelled; a dropped iterator is simply gone.
- Floating point is left out. This covers the tick range arithmetic, playback speed (stored as a real), `previewTime` of the data-source state (`toSec(startTime) + hoverValue`, not modelled), the sRGB-to-linear colour conversion of the grid, and IEEE 754 element values of CBOR tags 85 and 86 (those give their bytes).
- CborTypedArrayTags.Int64Words: values are exact integers; the JavaScript number rounding above 2^53, which the warning is about, is not modelled.
- Console output is dropped: the rosbridge client's `console.log` of every message and subscription, the worker's `log.debug`/`log.error`, and the data platform's logging. Only two warnings are kept, as counters: the rosbridge client's warning for a response with an unknown id, and the 64-bit precision warning of the CBOR tags.
- `_setState` also starts the runner (`void this._runState()`). In the model a command only makes the state pending, and the runner runs when `RunState` is applied. `RunState` with a run already active changes nothing, as in the source.
- The player's `setPlaybackSpeed` forwards nothing to the worker, so no speed command reaches the worker in the model either. The worker's own `setPlaybackSpeed` is modelled.
- WorkerIterablePlayer.Player.EmitStateImpl: the source hands the listener the same `_playerState` object on every emission, mutated in place, and its `activeData` is the same object after the first emission. Every reference a listener kept therefore shows the latest contents. The model's `delivered` keeps a value copy of each emitted state, and does not model this sharing.
- `totalBytesReceived` is never updated by the worker and stays 0.
- `clampTime` returns one of its arguments; whether it is the same object is not tracked. The model gives the tick end and stop time objects new identities.
- Class fields are grouped into records (`WorkerFields`, `SourceFields`, `BuilderFields`) where a specification function needs them all.
- A start-play read with no iterator is a failure in the model; the source cannot reach it, since the iterator was just opened.
- A NaN seek time is not modelled: times are natural numbers.
- DataSourceState: the caller's globals, blocks and topic arrays are taken to have identities distinct from the state object the builder owns.
- DataPlatform: RFC 3339 strings are already parsed into times, so the "Invalid coverage response" error and the skip of unparsable regions in the window loop are not modelled.
- DataPlatform.EarliestStart: `minBy` compares RFC 3339 strings; the model compares the parsed times.
- DataPlatform.LatestEnd: `maxBy` compares RFC 3339 strings; the model compares the parsed times. The two orders agree only for strings in one offset and precision.
- DataPlatform: the console API, `streamMessages` and `parseChannel` are inputs. A stream is recorded as the request it makes, and the messages it yields are not modelled (except the backfill blocks).
- DataPlatform: the no-data error is a structured outcome rather than the message text formatted with `formatTimeRaw`. `captureException` and logging are left out.
- DataPlatform: `topicStats` and `publishersByTopic` are always empty maps and are not modelled; neither is the abort signal.
- RosbridgeClient: the rosapi getters are left out. Each calls `callService` with a constant service name and type and picks a field of the result. Also left out: `on`/`off` listener registration, the no-op `advertise`/`publish`, and the JSON encoding of outgoing messages.
- FoxgloveGrid: the three.js scene (mesh, materials, picking), the settings tree and the per-topic field names are left out. So are pose, frame and timestamp.
- FoxgloveGrid.GridRenderable.constructor: requires a non-zero row stride. With a zero row stride the source's row count is the data length divided by 0: with data and a non-zero column count the pixel count is Infinity and the texture allocation throws a RangeError; otherwise it is NaN and the texture is empty. Neither case is modelled. The length check for a later grid with a zero row stride is modelled (`SizeMatches`).
- FoxgloveGrid.HandleFirstGrid: requires a non-zero row stride, since it builds the renderable with the constructor above; the zero-stride first message is not modelled.
- FoxgloveGrid.GridRenderable.Update: uses the corrected texture check. For a grid whose cell width or height is not 1, the source's check is true on every message (`FoxgloveGrid.RegenerateAsWrittenRemakesOwnTexture`), so the source fills a fresh zeroed texture each time, and a cell whose value is above 100 ends as four zero bytes. The model keeps the old texture, and such a cell keeps its previous colour. With cells of size 1 the two agree (`FoxgloveGrid.UnitCellsAgree`).
- FoxgloveGrid.GridRenderable.ApplySettings: the re-render uses the corrected texture check, as in `Update`. For cells not of size 1 the source reallocates a zeroed texture on every settings change; the model keeps the texture (`texture == old(texture)`), so cells above 100 keep their previous colour.
- FoxgloveGrid: the invalid-grid error is stored under its `INVALID_FOXGLOVE_GRID` key for the renderable's topic, but its text leaves out the data length, column count, row count and cell stride that the source writes into it.
- CborTypedArrayTags: a length that is not a multiple of the element size is an `Err` whose text is a fixed `RangeError` message. The JavaScript engine's own RangeError text is not reproduced.
- GlobalVariablesTable: the React rendering, the animation timers and the JSON value editors are left out. Only the data operations are modelled.

## Findings

| source | as written | input that shows it | evidently intended | confidence | as-written member | corrected member |
|---|---|---|---|---|---|---|
| packages/studio-base/src/components/GlobalVariablesTable/index.tsx:289-296 | the key input of the idx-th unlinked row renames the key at position `linked.length + idx` of `Object.keys(globalVariables)` | variables {a: 1, b: 2} with only b linked; renaming row a to c gives {a: 1, c: 1} | rename the key at the position of the row's own name | high (proved on the model; not executed) | GlobalVariablesTable.RenameUnlinkedRowDropsLinkedVariable | GlobalVariablesTable.RenameUnlinkedRowFixedInPlace |
| packages/studio-base/src/panels/ThreeDeeRender/renderables/FoxgloveGrid.ts:214-223 | the texture is remade only when `cell_size * cols` or `cell_size * rows` differs from the texture's width or height, which are cols and rows | a 4 x 4 grid of cell size 1, then a 2 x 2 grid of cell size 2 (the texture is kept at the wrong size); conversely, any grid of cell size 0.5 on its own texture (the texture is remade, zeroed, on every message and every settings change, so cells above 100 lose their colour; `FoxgloveGrid.RegenerateAsWrittenRemakesOwnTexture`) | remake the texture when the cell counts differ | high (proved on the model; not executed) | FoxgloveGrid.RegenerateAsWrittenKeepsWrongTexture | FoxgloveGrid.GridRenderable.Update |
