# AsyncGetEvents: the Zulip Android event-queue loop

This project models the long-poll engine of the Zulip (formerly Humbug) Android
client, the thread `AsyncGetEvents`. The engine registers an event queue with the
server (`POST v1/register`). It then polls that queue over and over
(`GET v1/events` with `queue_id` and `last_event_id`) and moves the cursor to the
last event it received. Each failure is classified: a dead queue makes it
register again, a timeout makes it poll again at once, other errors cost one
backoff step, and an abort or an unknown error ends the loop. Each batch of
events goes through `processEvents`. Message events are collected in order,
stored and announced in one go, and pointer events move the pointer at once.

Files:

- `wire.dfy` (module `Wire`): what the engine exchanges with the server, the
  database and the UI. A server reply is already classified: it is either a
  parsed body or the exception (`Failure`) the transport or the JSON parser would
  throw. Database and UI calls are recorded as a log of `Effect`s.
- `text.dfy` (module `Text`): Java's `String.contains`, used to recognise a dead
  queue, and `"" + n`, used to send the cursor. Both are proved against
  independent definitions: an occurrence index for `contains`, and a parser that
  reads the decimal string back.
- `dispatch.dfy` (module `Dispatch`): the meaning of `processEvents`. It is a walk
  over the batch (`ScanFrom`), proved equal to reference definitions (messages in
  batch order, the last pointer event, the first malformed event).
- `engine.dfy` (module `Engine`): one pass of the `while (true)` loop as a
  function, `Step`, of the state (`Snapshot`) and the server's answers for that
  pass (`Round`). It also defines a run, `RunFrom`, over a sequence of rounds.
- `engine_props.dfy` (module `LoopProperties`): the retry rules, the cursor and
  failure counter, and the one-shot latch, proved about `Step` and `RunFrom`.
- `client.dfy` (module `Client`): the imperative model. `App` holds the session
  fields the engine mutates (queue id, cursor, pointer, max message id).
  `HttpRequest` holds the reusable request's property map and a record of the
  calls it executed. `AsyncGetEvents` holds `failures` and
  `registeredOrGotEventsThisRun`. Every method is proved to change the state
  exactly as `Engine` says.

Where the code is surprising, the model follows it:

- `register()` raises the latch `registeredOrGotEventsThisRun` at line 68. So the
  first poll after a registration does not send `dont_block`. It does not fire
  `onReadyToDisplay(false)` either; `processRegister` fires `onReadyToDisplay(true)`
  instead. See `LoopProperties.RegisterThenPollBlocks`.
- `onReadyToDisplay(true)` (line 186) is not one-shot. Every registration whose
  reply is complete fires it, so a run that registers again after a dead queue
  fires it a second time. See `LoopProperties.ReregistrationSignalsReadyAgain`.
- A registration whose streams or people do not parse rolls back the transaction
  at lines 151-179. The failed transaction (an `SQLException`, caught at line 191)
  skips the adapter refreshes and
  `onReadyToDisplay(true)`. The latch is already up, so the poll does not fire
  `onReadyToDisplay(false)` either, and no later poll of that run does. See
  `LoopProperties.RosterlessRegistrationNeverSignals`.
- A malformed event mid-batch makes `processEvents` drop every message of the
  batch (lines 221-223), but `run()` still moves the cursor to the batch's last id
  (line 98). Those messages are never asked for again. See
  `LoopProperties.MalformedEventSkipsBatch`.
- The latch is raised as soon as the registration reply parses, before
  `queue_id` is read. A reply without `queue_id` therefore raises the latch and
  then backs off. See `LoopProperties.MissingQueueIdRaisesLatchAndBacksOff`.
- `failures` is reset only on a non-empty batch (line 100). A registration does
  not reset it, and neither does an empty batch.
- Properties are not cleared between `register()` and the poll. The poll that
  follows a registration therefore also carries `apply_markdown=false`.
- Queue id and cursor are not stored as one step. A registration reply with
  `queue_id` but without `last_event_id` stores the queue id and then backs off.
  The next pass polls that queue with the old cursor. See
  `LoopProperties.QueueStoredWithoutCursor`.
- If the last event of a batch has no readable `id`, the batch has already been
  dispatched. The cursor does not move and a failure is counted, so the next
  poll can deliver the same events again. See
  `LoopProperties.UnreadableLastIdKeepsCursor`.
- A 400 whose message is null throws a NullPointerException inside the catch
  clause. The outer handler catches it and `run()` ends.

## Model

| member | source | states |
|---|---|---|
| `Text.Contains` | src/com/humbughq/mobile/AsyncGetEvents.java:115-116 | `msg.contains(sub)` is true exactly when `sub` occurs in `msg` at some index |
| `Text.DecimalRoundTrip` | src/com/humbughq/mobile/AsyncGetEvents.java:84-85 | the `last_event_id` property `"" + lastEventId` reads back as exactly the stored cursor, negative values included |
| `Dispatch.FirstMalformed` | src/com/humbughq/mobile/AsyncGetEvents.java:200-212 | the index at which `processEvents` throws is the first malformed event: all events before it are well formed |
| `Dispatch.ScanFromMeaning` | src/com/humbughq/mobile/AsyncGetEvents.java:199-212 | the loop of `processEvents` stops exactly at the first malformed event; up to there it collects the message events in batch order and leaves the pointer at the last pointer event |
| `Dispatch.ProcessEventsMeaning` | src/com/humbughq/mobile/AsyncGetEvents.java:196-237 | on a batch without a malformed event that holds messages, the messages are stored once, the range moves to the last message's id and the UI gets the whole ordered list once; with no message, or after a malformed event, nothing is stored or announced; the walk is cut short iff some event is malformed |
| `Dispatch.MalformedEventDiscardsMessages` | src/com/humbughq/mobile/AsyncGetEvents.java:208-223 | a JSONException mid-batch drops every collected message but keeps the pointer updates made before it |
| `Text.Decimal` | src/com/humbughq/mobile/AsyncGetEvents.java:84-85 | `"" + n` is non-empty, starts with `-` exactly when `n` is negative, and is digits otherwise (its inverse is `Text.DecimalRoundTrip`) |
| `Dispatch.ScanFrom` | src/com/humbughq/mobile/AsyncGetEvents.java:199-212 | the walk only appends to the collected messages, at most one per event, and is never cut short on a batch without a malformed event |
| `Dispatch.DispatchEffects` | src/com/humbughq/mobile/AsyncGetEvents.java:214-237 | something is stored exactly when the walk ran to the end and collected a message; then the store comes first and the announcement of the same list last, and no sleep or ready signal is among them |
| `Engine.ProcessRegisterOp` | src/com/humbughq/mobile/AsyncGetEvents.java:143-194 | only the pointer and max message id change; a missing `pointer` changes nothing and records nothing; with `pointer` present it is stored, and a missing `max_message_id` stops it there; with both present the max message id is stored and the effects are the trim alone when the roster does not parse, else the trim, the roster, the people and stream refreshes and `onReadyToDisplay(true)`, in that order |
| `Engine.PollOp` | src/com/humbughq/mobile/AsyncGetEvents.java:83-111 | exactly one `GET v1/events` with the properties built; the queue id is kept; a failed request changes nothing and rethrows its failure; a completed poll leaves the latch up; a poll that throws keeps the cursor and `failures` |
| `Engine.Classify` | src/com/humbughq/mobile/AsyncGetEvents.java:112-140 | the loop ends exactly on an aborting IOException, an unlisted exception or a 400 with a null message; it retries at once exactly on a socket timeout; it re-registers only on a 400 with a message |
| `Engine.BackoffOp` | src/com/humbughq/mobile/AsyncGetEvents.java:52-61 | `failures` grows by one, nothing else changes, and one sleep for the new count is recorded |
| `Engine.Handle` | src/com/humbughq/mobile/AsyncGetEvents.java:112-140 | a catch clause changes only the queue id (cleared on a dead queue) and `failures` (one more on a backoff, which records the one sleep); it stops exactly on a terminating exception |
| `Engine.Step` | src/com/humbughq/mobile/AsyncGetEvents.java:77-137 | a pass makes one or two requests, the first a registration exactly when there is no queue id; it never lowers the latch; a pass that ends the loop keeps a queue id it had |
| `Engine.RunFrom` | src/com/humbughq/mobile/AsyncGetEvents.java:75-141 | the loop only appends to the requests and effects already recorded, sends at least one request when there is a round, and never lowers the latch |
| `Engine.RegisterOp` | src/com/humbughq/mobile/AsyncGetEvents.java:63-73 | `register()` that returns without throwing has stored a queue id |
| `Engine.RegisterPhase` | src/com/humbughq/mobile/AsyncGetEvents.java:79-82 | when the start of a pass throws nothing, a queue id is set, so the poll always has one |
| `LoopProperties.NonEmptyBatchAdvancesCursor` | src/com/humbughq/mobile/AsyncGetEvents.java:92-101 | after a non-empty batch, `lastEventId` is the id of the batch's last event, `failures` is 0, the queue id is kept, the latch is up and the pointer is where `processEvents` left it |
| `LoopProperties.EmptyBatchKeepsState` | src/com/humbughq/mobile/AsyncGetEvents.java:92-111 | an empty batch leaves the cursor, `failures` and the queue id unchanged; it only raises the latch, firing `onReadyToDisplay(false)` if the latch was down |
| `LoopProperties.PollCarriesQueueAndCursor` | src/com/humbughq/mobile/AsyncGetEvents.java:80-88 | every poll carries a queue id and a cursor: the stored ones, or those the registration of the same pass stored together; `dont_block` is sent exactly while the latch is down, and never right after a registration |
| `LoopProperties.RegisterOnlyWithoutQueue` | src/com/humbughq/mobile/AsyncGetEvents.java:79-90 | a pass makes one or two requests; it registers exactly when there is no queue id, and the registration comes first; with a queue id it only polls |
| `LoopProperties.RegisterThenPollBlocks` | src/com/humbughq/mobile/AsyncGetEvents.java:63-90 | a fresh registration followed by an empty poll: the poll carries `apply_markdown`, `queue_id` and `last_event_id` but no `dont_block`; the state holds the registered queue id, cursor, pointer and max message id; the effects are the trim, the roster, the two adapter refreshes and `onReadyToDisplay(true)`, and no `onReadyToDisplay(false)` |
| `LoopProperties.QueueDeadClearsQueue` | src/com/humbughq/mobile/AsyncGetEvents.java:113-120 | a 400 whose message contains "Bad event queue id" or "too old" clears the queue id and changes nothing else: no failure counted, no sleep |
| `LoopProperties.NoQueueRegistersFirst` | src/com/humbughq/mobile/AsyncGetEvents.java:79-82 | without a queue id, the first request of a pass is a registration with `apply_markdown=false` |
| `LoopProperties.QueueDeadThenRegister` | src/com/humbughq/mobile/AsyncGetEvents.java:80-81 | after a dead-queue 400 the very next request is a registration, and the dead-queue pass itself has no effect (no sleep) |
| `LoopProperties.RunOfTwo` | src/com/humbughq/mobile/AsyncGetEvents.java:77-137 | two passes of the loop in a row record the requests and effects of both, in order |
| `LoopProperties.RetryableFailureCountsOne` | src/com/humbughq/mobile/AsyncGetEvents.java:123-135 | any other HTTP error (a 400 without those phrases included), a non-aborting IOException and a JSONException each add exactly one to `failures`, sleep once, change nothing else and keep looping |
| `LoopProperties.TimeoutChangesNothing` | src/com/humbughq/mobile/AsyncGetEvents.java:124-126 | a SocketTimeoutException changes no state, has no effect, and the loop goes on |
| `LoopProperties.FatalFailureStops` | src/com/humbughq/mobile/AsyncGetEvents.java:127-140 | an IOException while aborting, an unlisted exception and a 400 with a null message end `run()` without changing state |
| `LoopProperties.RegisterFailureSkipsPoll` | src/com/humbughq/mobile/AsyncGetEvents.java:80-82 | a failed registration issues no poll and is handled by the same catch clauses as a failed poll |
| `LoopProperties.StopEndsRun` | src/com/humbughq/mobile/AsyncGetEvents.java:128-140 | once a pass ends the loop, the run makes no further request and has no further effect |
| `LoopProperties.RunConsumesRounds` | src/com/humbughq/mobile/AsyncGetEvents.java:77-137 | the loop uses one round of answers per pass, and uses all of them unless a pass ends it |
| `LoopProperties.FailuresChangeOnlyByBackoffOrBatch` | src/com/humbughq/mobile/AsyncGetEvents.java:93-101 | `failures` changes only by one backoff step, which ends the pass with its sleep, or back to 0 on a non-empty batch |
| `LoopProperties.LatchOneShotInPass` | src/com/humbughq/mobile/AsyncGetEvents.java:63-111 | no pass lowers the latch; it is raised only by a parsed registration or a completed poll; `onReadyToDisplay(false)` fires at most once per pass, only while the latch is down, and raises it |
| `LoopProperties.ReadyAtMostOncePerRun` | src/com/humbughq/mobile/AsyncGetEvents.java:103-111 | over any run the latch never goes down, `onReadyToDisplay(false)` fires at most once, never when the latch was already up, and earlier effects are kept |
| `LoopProperties.StartSignalsReadyAtMostOnce` | src/com/humbughq/mobile/AsyncGetEvents.java:40-43 | a run begun by `start()`, which lowers the latch, fires `onReadyToDisplay(false)` at most once |
| `LoopProperties.ReregistrationSignalsReadyAgain` | src/com/humbughq/mobile/AsyncGetEvents.java:181-187 | a complete registration, a dead-queue 400, then a second complete registration: the run's effects are both registrations' effects, so `onReadyToDisplay(true)` fires twice, and the second queue id is kept |
| `LoopProperties.RosterlessRegistrationNeverSignals` | src/com/humbughq/mobile/AsyncGetEvents.java:151-191 | a registration whose roster does not parse, then an empty poll: only the trim is recorded, the latch is up, and no later poll of the run fires `onReadyToDisplay(false)` |
| `LoopProperties.MalformedEventSkipsBatch` | src/com/humbughq/mobile/AsyncGetEvents.java:92-224 | a batch with a malformed event stores and announces nothing, yet the cursor moves to its last id and `failures` is reset |
| `LoopProperties.MessageThenMalformed` | src/com/humbughq/mobile/AsyncGetEvents.java:92-224 | the batch [message (id 1), malformed (id 2)] leaves the cursor at 2 with no effect at all |
| `LoopProperties.MissingQueueIdRaisesLatchAndBacksOff` | src/com/humbughq/mobile/AsyncGetEvents.java:63-69 | a registration reply without `queue_id` raises the latch, sends no poll, counts one failure and sleeps once; nothing else changes |
| `LoopProperties.QueueStoredWithoutCursor` | src/com/humbughq/mobile/AsyncGetEvents.java:63-70 | a reply with `queue_id` but no `last_event_id` stores the queue id, raises the latch and backs off; the next pass polls that queue with exactly the old cursor |
| `LoopProperties.UnreadableLastIdKeepsCursor` | src/com/humbughq/mobile/AsyncGetEvents.java:93-98 | a batch whose last event has no readable id is dispatched and moves the pointer, but the cursor stays and one failure with its sleep is counted |
| `LoopProperties.PointerThenMessage` | src/com/humbughq/mobile/AsyncGetEvents.java:196-229 | the batch [pointer 11 (id 43), message (id 44)] sets the pointer to 11 and the cursor to 44, and stores and announces the one message once |
| `Client.HttpRequest.ClearProperties` | src/com/humbughq/mobile/AsyncGetEvents.java:79 | the request's properties are emptied; nothing is sent |
| `Client.HttpRequest.SetProperty` | src/com/humbughq/mobile/AsyncGetEvents.java:83-88 | one property is set and the others are kept |
| `Client.HttpRequest.Execute` | src/com/humbughq/mobile/AsyncGetEvents.java:89-90 | one request is recorded with the current properties, and the server's reply is returned |
| `Client.AsyncGetEvents.constructor` | src/com/humbughq/mobile/AsyncGetEvents.java:33-38 | a new engine has a fresh empty request, zero failures and the latch down |
| `Client.AsyncGetEvents.Start` | src/com/humbughq/mobile/AsyncGetEvents.java:40-43 | `start()` lowers the latch and then runs the loop: the new state, requests and effects are those of `RunFrom` from the lowered latch |
| `Client.AsyncGetEvents.Backoff` | src/com/humbughq/mobile/AsyncGetEvents.java:52-61 | `failures` grows by one and a sleep for the new count is recorded; nothing else changes |
| `Client.AsyncGetEvents.Register` | src/com/humbughq/mobile/AsyncGetEvents.java:63-73 | the state, properties, requests, effects and thrown exception are those of `Engine.RegisterOp` |
| `Client.AsyncGetEvents.ProcessRegister` | src/com/humbughq/mobile/AsyncGetEvents.java:143-194 | pointer, max message id and effects are those of `Engine.ProcessRegisterOp`: a missing field stops it early, and a roster that does not parse stores nothing and skips `onReadyToDisplay(true)` |
| `Client.AsyncGetEvents.Poll` | src/com/humbughq/mobile/AsyncGetEvents.java:83-111 | the state, properties, requests, effects and thrown exception are those of `Engine.PollOp` |
| `Client.AsyncGetEvents.ProcessEvents` | src/com/humbughq/mobile/AsyncGetEvents.java:196-224 | the loop leaves the pointer where `Dispatch.ScanFrom` does and records `Dispatch.DispatchEffects`; nothing else changes (see `Dispatch.ProcessEventsMeaning`) |
| `Client.AsyncGetEvents.ProcessMessages` | src/com/humbughq/mobile/AsyncGetEvents.java:226-237 | the range moves to the last message's id, then the UI gets the whole list once; no state changes |
| `Client.AsyncGetEvents.Catch` | src/com/humbughq/mobile/AsyncGetEvents.java:112-140 | the catch clauses change state, record effects and continue or stop exactly as `Engine.Handle` |
| `Client.AsyncGetEvents.BeginPass` | src/com/humbughq/mobile/AsyncGetEvents.java:79-82 | the properties are cleared and the engine registers only without a queue id: state, properties, requests, effects and exception are those of `Engine.RegisterPhase` |
| `Client.AsyncGetEvents.PollUnlessThrown` | src/com/humbughq/mobile/AsyncGetEvents.java:83-111 | the poll runs only when nothing was thrown earlier in the pass; the pass so far then continues exactly as `Engine.PollPhase` |
| `Client.AsyncGetEvents.EndPass` | src/com/humbughq/mobile/AsyncGetEvents.java:112-137 | a pass that threw is handled by the catch clauses, one that did not continues; state, requests, effects and next are those of `Engine.Finish` |
| `Client.AsyncGetEvents.Iterate` | src/com/humbughq/mobile/AsyncGetEvents.java:77-137 | one pass changes state, records requests and effects, and continues or stops exactly as `Engine.Step` |
| `Client.AsyncGetEvents.Run` | src/com/humbughq/mobile/AsyncGetEvents.java:75-141 | the loop over the answers ends in the state, requests, effects, rounds used and stop flag of `Engine.RunFrom` |

## Left out

- The sleep length `exp(failures / 2) * 1000` ms and `SystemClock.sleep` are floating point and timing. A backoff is recorded as `Sleep(failures)` with the new count.
- The HTTP transport (`HTTPRequest.execute`, its encoding of properties) and JSON parsing are not modelled. A reply arrives as an `Ok` body, where each field that may be missing is an `Option`, or as the `Failure` it would raise. `HTTPRequest` is not part of this model, so whether it can raise a 400 with a null message is not known. That case is modelled as Java would run it.
- `abort()` and its race with the running thread are concurrency. An abort appears only as the `aborting` flag of an IOException.
- Starting the thread (`super.start()`) is not modelled; `Start` runs the loop directly.
- Client.AsyncGetEvents.Run: the source loops forever. The model loops over a finite sequence of the server's answers, one per pass, and also returns when they run out.
- The database work of `processRegister` is not modelled: `Message.trim`, the ORMLite transaction and the `Stream`/`Person` DAOs. It is recorded as the effects `TrimMessages(5000)` and `StoreRoster`. A roster that does not parse is modelled as a rolled-back transaction. SQL failures of the trim itself are not modelled.
- `Message.createMessages` and `MessageRange.updateNewMessagesRange` are recorded as effects only. Any exception they might throw is not modelled.
- Refreshing the people and stream adapters and `onReadyToDisplay`/`onNewMessages` are UI work. They are recorded as effects, in call order. The hand-off to the UI thread by `runOnUiThread` is not modelled: each effect is recorded when it is posted.
- `ZLog`/`Log` logging and `printStackTrace` are not modelled.
- Runtime exceptions thrown by collaborators (database, UI) are not modelled. The one exception is the NullPointerException from a null 400 message. `Unexpected` stands for any other exception a request can raise.
- Integers (`failures`, ids, pointer) are unbounded. Java's 32-bit `int` would only wrap after 2^31 failures or ids, so this is not modelled.
- Publication of the app's fields to other threads is not modelled. The model mutates them in place, as the source does.
