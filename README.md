# Kurento signalling servers: session bookkeeping

This project models the bookkeeping inside four Node.js signalling servers of
the Kurento tutorials. Browsers connect to them over WebSocket. The servers
create media objects in a Kurento media server and keep track of which browser
session owns which of those objects.

- `kurento-one2many-call/app.js` runs one broadcast per room. It keeps a
  `presenters` array and a `viewers` array, and it supports recording.
- `kurento-one2many-call/serverRoom.js` is an earlier room variant. Its `stop`
  never removes a presenter, and its viewer records carry no socket.
- `kurento-one2many-call/serverRefactor.js` has a single `presenter` slot. It
  claims that slot before its first await. Viewers are stored in a JavaScript
  array at the numeric index of their session id, and the array's `length`
  grows to one past that id.
- `kurento-hello-world/serverRefactor.js` is a loopback server with a recorder.
  It keeps a `sessions` object keyed by the express session id.

All four servers share the same building blocks:

- **Candidate queue.** ICE candidates that arrive before a session's endpoint
  exists wait in a per-session `candidatesQueue`. They are drained into the
  endpoint, front first, once it exists.
- **No cached client.** The Kurento client is looked up before each
  negotiation, but no server ever stores it.
- **Error constants.** A constant rejected after an engine failure first has
  its `message` overwritten with the engine's error object. A guard check
  rejects its constant unchanged. Some engine failures reject the engine's
  error object itself, with no constant.
- **One class per server.** A `Server` class holds the module-level variables.
  Each handler is a method, and its `modifies` clause names exactly the fields
  it writes.
- **Engine façade.** A `MediaEngine` object stands for the engine. It records
  every release, close, candidate hand-over and message sent in a ghost log.
- **Split handlers.** Each asynchronous `start*` handler is cut at its real
  engine awaits: a first step, then one continuation method per await. Each
  step returns a `Progress` value: Pending with the next await, Fulfilled,
  Failed with the rejection reason, or Hung when an exception escapes inside
  an engine callback and the promise never settles. The `.then`/`.catch` of
  the dispatcher is a `Settle*` method. Because of this split, a proof can run
  a `stop`, a candidate or another session's step between two awaits.
- **Specification functions.** `stop` in every server is proved against a
  pure function of the state (`StopCascade`, `StopSession`). The lemmas about
  releases, messages, idempotence and the client's lifetime are proved about
  that function.

The modules are:

- `Engine` (handles, faults, messages, the façade);
- `Lookup` (`findIndex`, `splice`);
- `Candidates` (the queue and its drain loop);
- `SessionIds` (`nextUniqueId`'s decimal text);
- `One2ManyErrors` (the error table of `kurento-one2many-call/errors.js` and
  how a constant is filled in);
- one module per server, with a `…Properties` module of lemmas beside it and a
  `…Scenarios` module of concrete runs. The hello-world server keeps its runs
  in `HelloWorldProperties`.

Where a message text is built by concatenation, the model spells it out. A
`Fault` becomes `name + ": " + message` when it is concatenated to a string,
as an `Error` object is in JavaScript.

## Model

| member | source | states |
|---|---|---|
| `Lookup.FindIndex` | kurento-one2many-call/app.js:221-239 | returns the first position satisfying the predicate, or -1 exactly when none does |
| `Lookup.RemoveAt` | kurento-one2many-call/app.js:260-266 | `splice(i, 1)` shortens by one, keeps the elements before `i` and shifts those after it down by one |
| `Lookup.RemoveAtKeepsOthers` | kurento-one2many-call/app.js:260-266 | an element survives the splice iff it sat at some position other than `i` |
| `Candidates.Enqueued` | kurento-one2many-call/app.js:296-302 | queueing appends the candidate to that session's queue (creating it) and leaves the other sessions' queues alone |
| `Candidates.Cleared` | kurento-one2many-call/app.js:217-219 | `clearCandidatesQueue` removes exactly that session's key |
| `Candidates.Drained` | kurento-one2many-call/app.js:452-458 | after the drain loop the session waits for no candidate; the other queues are unchanged |
| `Candidates.Deliveries` | kurento-one2many-call/app.js:454-457 | the hand-overs are the queued candidates, one `addIceCandidate` each, in queue order |
| `Candidates.EnqueuedAllAppends` | kurento-one2many-call/app.js:296-302 | successive queueings append in arrival order and touch no other session |
| `Candidates.DrainAfterQueueingIsFifo` | kurento-one2many-call/app.js:452-458 | candidates queued after a clear reach the endpoint exactly in arrival order, and the queue is empty afterwards |
| `Candidates.CandidateBuffer.Enqueue` | kurento-one2many-call/app.js:297-301 | the queueing branch of `onIceCandidate` on the shared queue object |
| `Candidates.CandidateBuffer.Clear` | kurento-one2many-call/app.js:217-219 | deletes the session's queue if present |
| `Candidates.CandidateBuffer.DrainInto` | kurento-one2many-call/app.js:454-457 | the `while … shift()` loop hands every waiting candidate to the endpoint front first and leaves `[]` behind (loop invariants) |
| `SessionIds.DecimalString` | kurento-one2many-call/app.js:88-91 | the id text is non-empty and ends in the counter's last digit |
| `SessionIds.DecimalStringInjective` | kurento-one2many-call/app.js:88-91 | distinct counter values give distinct ids, so no two connections share an id |
| `One2ManyErrors.TemplatedRejectionText` | kurento-one2many-call/app.js:471-484 | a constant whose `message` was overwritten with the engine error is sent as its own name, then the engine error's name and message, so the text starts with the constant's name and ends with the engine's message |
| `One2ManyErrors.RawRejectionText` | kurento-one2many-call/app.js:383-392 | `reject(error)` is sent as the engine error's own text, which never equals the text of a constant filled in with that error |
| `One2ManyErrors.NoMediaServerGrown` | kurento-one2many-call/app.js:311-317 | each failed connection appends the address and the error to `NO_MEDIA_SERVER`'s message, keeping what was there |
| `One2ManyErrors.GrowthAccumulates` | kurento-one2many-call/app.js:311-317 | the shared message is never reset: after n failures it still starts with the old text and has grown by more than n addresses |
| `One2ManyApp.Search` | kurento-one2many-call/app.js:221-239 | `isPresenter`/`isViewer` hold iff the id occurs in that array, and each index is the first occurrence, or -1 |
| `One2ManyApp.RoomIndex` | kurento-one2many-call/app.js:501-505 | the first presenter registered for the room, or -1 iff none is |
| `One2ManyApp.CloseIfIdle` | kurento-one2many-call/app.js:271-279 | with both arrays empty a cached client is closed (the log gains exactly that `close`) and forgotten, and without one the log is unchanged; otherwise nothing changes |
| `One2ManyApp.StopNotices` | kurento-one2many-call/app.js:246-255 | the notification loop sends at most one message per viewer; `StopNoticesReachRoom` states which viewers get one |
| `One2ManyApp.DropPresenter` | kurento-one2many-call/app.js:244-262 | the presenter branch empties `viewers`, splices out the presenter and only appends to the log |
| `One2ManyApp.DropViewer` | kurento-one2many-call/app.js:264-267 | the viewer branch releases that viewer's endpoint and splices out its entry, nothing else |
| `One2ManyApp.StopCascade` | kurento-one2many-call/app.js:241-283 | `stop` throws iff the session is both presenter and viewer (and then keeps the queue); otherwise the queue is gone; an emptied server forgets its client; the log only grows |
| `One2ManyApp.StopBranches` | kurento-one2many-call/app.js:241-267 | the presenter and viewer branches throw iff the session is both presenter and viewer, leaving no viewer; they never touch the queues or the client and only append to the log |
| `One2ManyApp.IceRoute` | kurento-one2many-call/app.js:285-303 | a candidate is queued iff the session is in neither array; otherwise it goes to the first presenter entry's endpoint, else the first viewer entry's |
| `One2ManyApp.Server.constructor` | kurento-one2many-call/app.js:61-65 | the server starts with a zero counter, empty arrays, no queues and no client |
| `One2ManyApp.Server.NextUniqueId` | kurento-one2many-call/app.js:88-91 | increments the counter and returns its decimal text |
| `One2ManyApp.Server.DropPresenterAt` | kurento-one2many-call/app.js:244-262 | the notification loop, the release and the `shift` loop produce exactly `DropPresenter`'s state |
| `One2ManyApp.Server.DropViewerAt` | kurento-one2many-call/app.js:264-267 | produces exactly `DropViewer`'s state |
| `One2ManyApp.Server.CloseClientIfIdle` | kurento-one2many-call/app.js:271-279 | produces exactly `CloseIfIdle`'s state |
| `One2ManyApp.Server.Stop` | kurento-one2many-call/app.js:241-283 | the new state and the throw are those of `StopCascade` |
| `One2ManyApp.Server.StopBranchesOf` | kurento-one2many-call/app.js:241-267 | the new registry and log, and the throw, are those of `StopBranches` |
| `One2ManyApp.Server.OnIceCandidate` | kurento-one2many-call/app.js:285-303 | hands the candidate to the endpoint `IceRoute` picks, or queues it, and changes nothing else |
| `One2ManyApp.Registered` | kurento-one2many-call/app.js:556-575 | the presenter object pushed once negotiation reaches its endpoint: the draft's object number, id, room and socket, the new pipeline and endpoint, no recorder and not recording |
| `One2ManyApp.Server.StartPresenter` | kurento-one2many-call/app.js:549-563 | clears the queue; a missing room rejects with `ROOM_NOT_PROVIDED` and an occupied room with `PRESENTER_EXISTS`, before anything is built |
| `One2ManyApp.Server.PresenterClientReady` | kurento-one2many-call/app.js:305-323 | a new client is passed on but not stored; a failure grows `NO_MEDIA_SERVER`'s message and rejects with it |
| `One2ManyApp.Server.PresenterPipelineReady` | kurento-one2many-call/app.js:325-338 | a failure writes to the missing `KURENTO_CLIENT_CREATE` inside the callback, so the handler never settles |
| `One2ManyApp.Server.PresenterEndpointReady` | kurento-one2many-call/app.js:566-575 | a failure releases the pipeline and rejects with the raw error; a success drains the queue into the endpoint and only then pushes the presenter |
| `One2ManyApp.Server.PresenterAnswerReady` | kurento-one2many-call/app.js:471-484 | resolves with the SDP answer or rejects with `PROCESS_OFFER` carrying the engine error |
| `One2ManyApp.Server.PresenterGathered` | kurento-one2many-call/app.js:486-499 | a success marks the socket as a presenter's and resolves; a failure rejects with `GATHER_CANDIDATES` |
| `One2ManyApp.Server.SettlePresenter` | kurento-one2many-call/app.js:122-140 | an answer is accepted; a rejection runs `stop` and then sends the optional-chained text unless `stop` threw |
| `One2ManyApp.Server.StartViewer` | kurento-one2many-call/app.js:584-599 | clears the queue; a room without presenter rejects with `PRESENTER_NOT_FOUND`; otherwise the endpoint is created on that presenter's pipeline |
| `One2ManyApp.Server.ViewerEndpointReady` | kurento-one2many-call/app.js:596-600 | a failure releases the presenter's pipeline; a success drains the queue and looks the presenter up again |
| `One2ManyApp.Server.PresenterToViewerConnected` | kurento-one2many-call/app.js:507-547 | rejects with `CONNECT_TO_PRESENTER` on failure, and with `PRESENTER_NOT_FOUND` when the room lost its presenter meanwhile |
| `One2ManyApp.Server.ViewerToPresenterConnected` | kurento-one2many-call/app.js:528-547 | rejects with `CONNECT_TO_PRESENTER` on failure |
| `One2ManyApp.Server.ViewerAnswerReady` | kurento-one2many-call/app.js:471-484 | resolves with the SDP answer or rejects with `PROCESS_OFFER` |
| `One2ManyApp.Server.ViewerGathered` | kurento-one2many-call/app.js:605-612 | only a successful gather appends the viewer and marks the socket |
| `One2ManyApp.Server.SettleViewer` | kurento-one2many-call/app.js:142-160 | a rejection runs `stop`; the text is sent only when `stop` did not throw and the reason is an object |
| `One2ManyApp.Server.StartRecording` | kurento-one2many-call/app.js:615-627 | the room, socket and role checks run in order (the last two reject with constants missing from the table); otherwise the room's presenter is targeted |
| `One2ManyApp.Server.RecorderReady` | kurento-one2many-call/app.js:340-370 | a failure releases the pipeline with `CREATE_MEDIA_ELEMENTS`; a success stores the recorder on the object read before the await |
| `One2ManyApp.Server.RecorderConnected` | kurento-one2many-call/app.js:399-408 | a failure releases the pipeline with `CONNECT_MEDIA_ELEMENTS` |
| `One2ManyApp.Server.RecordingStarted` | kurento-one2many-call/app.js:410-419 | a failure releases the pipeline with `RECORD_MEDIA_ELEMENT`; a success marks the presenter as recording |
| `One2ManyApp.Server.SettleRecord` | kurento-one2many-call/app.js:166-180 | acceptance or the rejection text; an `undefined` reason sends nothing |
| `One2ManyApp.Server.StopRecording` | kurento-one2many-call/app.js:637-653 | the same checks, then a presenter not recording or without recorder is refused with a missing constant |
| `One2ManyApp.Server.RecorderDisconnected` | kurento-one2many-call/app.js:425-435 | a failure writes to the missing `DISCONNECT_MEDIA_ELEMENTS` in the callback and hangs before releasing |
| `One2ManyApp.Server.RecorderStopped` | kurento-one2many-call/app.js:653-657 | clears the recorder at the index read before the await; past the end this throws a TypeError; `isRecording` stays true |
| `One2ManyApp.Server.SettleStopRecord` | kurento-one2many-call/app.js:182-196 | acceptance or the rejection text; an `undefined` reason sends nothing |
| `One2ManyApp.Server.RejectUnknown` | kurento-one2many-call/app.js:202-207 | an unknown message id is answered with an `error` naming `[object Object]` |
| `One2ManyAppProperties.StopNoticesReachRoom` | kurento-one2many-call/app.js:246-255 | the loop sends `stopCommunication` with the room to exactly the viewers of that room |
| `One2ManyAppProperties.CloseIfIdleAddsClose` | kurento-one2many-call/app.js:271-279 | the end of `stop` adds at most one `close` |
| `One2ManyAppProperties.NoReleases` | kurento-one2many-call/app.js:241-283 | a log segment with no release contributes none |
| `One2ManyAppProperties.PresenterStopPath` | kurento-one2many-call/app.js:241-262 | a presenter that is not a viewer takes the presenter branch and does not throw |
| `One2ManyAppProperties.ViewerStopPath` | kurento-one2many-call/app.js:264-267 | a viewer that is not a presenter takes the viewer branch and does not throw |
| `One2ManyAppProperties.PresenterStopLog` | kurento-one2many-call/app.js:244-279 | the presenter branch logs the room notices, the release, then at most a close |
| `One2ManyAppProperties.PresenterStopReleases` | kurento-one2many-call/app.js:244-262 | the presenter branch releases exactly that presenter's pipeline |
| `One2ManyAppProperties.PresenterStopSends` | kurento-one2many-call/app.js:246-255 | the presenter branch sends exactly the room notices |
| `One2ManyAppProperties.StopOfPresenter` | kurento-one2many-call/app.js:241-283 | `stop` of a presenter releases only its pipeline, drops every viewer of every room and removes exactly its entry |
| `One2ManyAppProperties.StopOfPresenterNotifiesRoom` | kurento-one2many-call/app.js:246-255 | a message goes out iff it is the room's `stopCommunication` to a viewer of that room |
| `One2ManyAppProperties.StopOfViewer` | kurento-one2many-call/app.js:264-267 | `stop` of a viewer releases only its endpoint, removes only its entry and sends nothing |
| `One2ManyAppProperties.StopOfUnknown` | kurento-one2many-call/app.js:269-279 | `stop` of an unregistered session only drops its queue (and may close an idle client) |
| `One2ManyAppProperties.StopForgetsSession` | kurento-one2many-call/app.js:241-283 | after `stop`, a session registered once is in neither array |
| `One2ManyAppProperties.StopTwiceReleasesNothing` | kurento-one2many-call/app.js:241-283 | a second `stop` of such a session changes no entry and releases or sends nothing |
| `One2ManyAppProperties.StopTwiceOfDoublePresenter` | kurento-one2many-call/app.js:549-563 | a session presenting two rooms holds two entries, and a second `stop` releases the second pipeline |
| `One2ManyAppProperties.RecordingReachesItsPresenter` | kurento-one2many-call/app.js:623-633 | the recorder and the recording mark land on exactly the entry that is the object read before the awaits, wherever it now sits, when no other entry is that object |
| `One2ManyAppProperties.RecordingOfRemovedPresenter` | kurento-one2many-call/app.js:627-633 | when no entry is that object any more, both writes leave the array unchanged |
| `One2ManyAppProperties.RecordingAfterPresenterStopped` | kurento-one2many-call/app.js:623-633 | a presenter stopped during the awaits has been spliced out, so the recorder and the mark reach no registered presenter |
| `One2ManyAppScenarios.PresentAlpha` | kurento-one2many-call/app.js:549-582 | a successful presenter run leaves one registered presenter and one acceptance |
| `One2ManyAppScenarios.ReachEndpoint` | kurento-one2many-call/app.js:566-575 | once client, pipeline and endpoint are created, exactly the finished presenter is appended and its empty queue drained, with nothing logged |
| `One2ManyAppScenarios.Present` | kurento-one2many-call/app.js:549-582 | a presenter of a free room, with every engine call succeeding, is appended as the last presenter, its socket becomes a presenter's and exactly one acceptance is sent |
| `One2ManyAppScenarios.AlphaLeaves` | kurento-one2many-call/app.js:241-283 | a lone presenter's `stop` empties both arrays, clears its queue and releases only its pipeline |
| `One2ManyAppScenarios.StartBroadcast` | kurento-one2many-call/app.js:584-613 | a successful viewer run appends the viewer and accepts it |
| `One2ManyAppScenarios.Watch` | kurento-one2many-call/app.js:584-613 | a viewer of an occupied room, with every engine call succeeding, is appended with its socket and accepted, the presenters unchanged |
| `One2ManyAppScenarios.Record` | kurento-one2many-call/app.js:615-635 | a presenter's `record` stores the recorder on the room's presenter object, marks it recording and is accepted |
| `One2ManyAppScenarios.StopRecord` | kurento-one2many-call/app.js:637-658 | `stopRecord` clears the recorder but leaves `isRecording` set, and is accepted |
| `One2ManyAppScenarios.PresenterLeavesBroadcast` | kurento-one2many-call/app.js:241-283 | the presenter's `stop` notifies the viewer, releases the pipeline, empties both arrays and never releases the viewer's endpoint |
| `One2ManyAppScenarios.ViewerWithoutPresenter` | kurento-one2many-call/app.js:584-588 | a viewer of an empty room is refused with `PRESENTER_NOT_FOUND` |
| `One2ManyAppScenarios.RecordThenStopTwice` | kurento-one2many-call/app.js:637-658 | a second `stopRecord` is refused with a missing constant, its catch throws and no answer is sent |
| `One2ManyAppScenarios.TwoPresentersRace` | kurento-one2many-call/app.js:549-575 | two presenters of one room both pass the room check before either is pushed |
| `One2ManyAppScenarios.PresenterLeavesDuringViewerNegotiation` | kurento-one2many-call/app.js:507-526 | the viewer is refused after the presenter left, and its new endpoint is never released |
| `One2ManyRoom.Search` | kurento-one2many-call/serverRoom.js:170-198 | `isPresenter`/`isViewer` hold iff the id occurs, with first-occurrence indices, or -1 |
| `One2ManyRoom.RoomIndex` | kurento-one2many-call/serverRoom.js:428-432 | the first presenter of the room, or -1 iff none |
| `One2ManyRoom.CloseIfIdle` | kurento-one2many-call/serverRoom.js:226-233 | with both arrays empty a cached client is closed (the log gains exactly that `close`) and forgotten, and without one the log is unchanged; otherwise nothing changes |
| `One2ManyRoom.StopNotices` | kurento-one2many-call/serverRoom.js:204-211 | the notification loop sends at most one message per viewer; `StopNoticesReachSockets` states which viewers get one |
| `One2ManyRoom.DropViewersOf` | kurento-one2many-call/serverRoom.js:203-217 | the presenter branch empties `viewers` but keeps every presenter entry |
| `One2ManyRoom.DropViewer` | kurento-one2many-call/serverRoom.js:219-222 | releases the viewer's endpoint and splices out its entry |
| `One2ManyRoom.StopCascade` | kurento-one2many-call/serverRoom.js:200-237 | `presenters` never changes; `stop` throws iff the session is both presenter and viewer; with any presenter the client is kept |
| `One2ManyRoom.IceRoute` | kurento-one2many-call/serverRoom.js:239-257 | queued iff the session is in neither array, else the first presenter entry's endpoint, else the first viewer entry's |
| `One2ManyRoom.Server.constructor` | kurento-one2many-call/serverRoom.js:48-52 | a zero counter, empty arrays, no queues, no client |
| `One2ManyRoom.Server.NextUniqueId` | kurento-one2many-call/serverRoom.js:75-78 | increments the counter and returns its decimal text |
| `One2ManyRoom.Server.DropViewersOfAt` | kurento-one2many-call/serverRoom.js:203-217 | the notification and `shift` loops produce exactly `DropViewersOf`'s state |
| `One2ManyRoom.Server.DropViewerAt` | kurento-one2many-call/serverRoom.js:219-222 | produces exactly `DropViewer`'s state |
| `One2ManyRoom.Server.CloseClientIfIdle` | kurento-one2many-call/serverRoom.js:226-233 | produces exactly `CloseIfIdle`'s state |
| `One2ManyRoom.Server.Stop` | kurento-one2many-call/serverRoom.js:200-237 | the new state and the throw are those of `StopCascade`, and `presenters` is not in its frame |
| `One2ManyRoom.Server.OnIceCandidate` | kurento-one2many-call/serverRoom.js:239-257 | hands the candidate to `IceRoute`'s endpoint or queues it |
| `One2ManyRoom.Server.StartPresenter` | kurento-one2many-call/serverRoom.js:476-493 | a missing room rejects with the missing `ROOM_NOT_FOUND`; a session that already presents is stopped and refused with `PRESENTER_EXISTS`, or with the TypeError its `stop` throws |
| `One2ManyRoom.Server.PresenterClientReady` | kurento-one2many-call/serverRoom.js:259-277 | the client is not stored; a failure grows `NO_MEDIA_SERVER`'s message |
| `One2ManyRoom.Server.PresenterPipelineReady` | kurento-one2many-call/serverRoom.js:279-292 | a failure writes to the missing `KURENTO_CLIENT_CREATE` and hangs |
| `One2ManyRoom.Server.PresenterEndpointReady` | kurento-one2many-call/serverRoom.js:500-502 | a failure releases the pipeline and rejects with the raw error; a success drains the queue into the endpoint |
| `One2ManyRoom.Server.RecorderReady` | kurento-one2many-call/serverRoom.js:323-334 | a failure releases the pipeline with `CREATE_MEDIA_ELEMENTS` |
| `One2ManyRoom.Server.RecorderConnected` | kurento-one2many-call/serverRoom.js:355-362 | a failure releases the pipeline with `CONNECT_MEDIA_ELEMENTS` |
| `One2ManyRoom.Server.RecordingStarted` | kurento-one2many-call/serverRoom.js:364-373 | a failure releases the pipeline with `RECORD_MEDIA_ELEMENT`; only a success pushes the presenter |
| `One2ManyRoom.Server.PresenterAnswerReady` | kurento-one2many-call/serverRoom.js:398-411 | resolves with the answer or rejects with `PROCESS_OFFER` |
| `One2ManyRoom.Server.PresenterGathered` | kurento-one2many-call/serverRoom.js:413-426 | resolves or rejects with `GATHER_CANDIDATES` |
| `One2ManyRoom.Server.SettlePresenter` | kurento-one2many-call/serverRoom.js:103-121 | a rejection runs `stop` and sends the optional-chained text unless `stop` threw |
| `One2ManyRoom.Server.StartViewer` | kurento-one2many-call/serverRoom.js:516-524 | clears the queue; a room without presenter is refused |
| `One2ManyRoom.Server.ViewerEndpointReady` | kurento-one2many-call/serverRoom.js:531-536 | a failure releases the presenter's pipeline; a success drains the queue and looks the presenter up again |
| `One2ManyRoom.Server.PresenterToViewerConnected` | kurento-one2many-call/serverRoom.js:434-474 | `CONNECT_TO_PRESENTER` on failure, `PRESENTER_NOT_FOUND` if the room lost its presenter |
| `One2ManyRoom.Server.ViewerToPresenterConnected` | kurento-one2many-call/serverRoom.js:455-474 | `CONNECT_TO_PRESENTER` on failure |
| `One2ManyRoom.Server.ViewerAnswerReady` | kurento-one2many-call/serverRoom.js:398-411 | resolves with the answer or rejects with `PROCESS_OFFER` |
| `One2ManyRoom.Server.ViewerGathered` | kurento-one2many-call/serverRoom.js:537-545 | only a successful gather appends the viewer, without a socket |
| `One2ManyRoom.Server.SettleViewer` | kurento-one2many-call/serverRoom.js:123-141 | a rejection runs `stop`; the text goes out only if `stop` did not throw and the reason is an object |
| `One2ManyRoom.Server.RejectUnknown` | kurento-one2many-call/serverRoom.js:151-156 | an unknown message id is answered with an `error` |
| `One2ManyRoomProperties.StopNoticesReachSockets` | kurento-one2many-call/serverRoom.js:204-211 | the loop sends a bare `stopCommunication` to exactly the viewers that hold a socket, whatever their room |
| `One2ManyRoomProperties.NoReleases` | kurento-one2many-call/serverRoom.js:200-237 | a log segment with no release contributes none |
| `One2ManyRoomProperties.CloseIfIdleAddsClose` | kurento-one2many-call/serverRoom.js:226-233 | the end of `stop` adds at most one `close` |
| `One2ManyRoomProperties.PresenterStopPath` | kurento-one2many-call/serverRoom.js:200-217 | a presenter that is not a viewer takes the presenter branch without throwing |
| `One2ManyRoomProperties.ViewerStopPath` | kurento-one2many-call/serverRoom.js:219-222 | a viewer that is not a presenter takes the viewer branch without throwing |
| `One2ManyRoomProperties.PresenterStopLog` | kurento-one2many-call/serverRoom.js:203-233 | the presenter branch logs the notices, the release, then at most a close |
| `One2ManyRoomProperties.PresenterStopReleases` | kurento-one2many-call/serverRoom.js:203-217 | the presenter branch releases exactly the presenter's pipeline |
| `One2ManyRoomProperties.StopOfPresenter` | kurento-one2many-call/serverRoom.js:200-237 | `stop` of a presenter keeps its entry and the client, drops every viewer, releases only its pipeline and messages only socket-holding viewers |
| `One2ManyRoomProperties.StopOfPresenterTellsNoViewer` | kurento-one2many-call/serverRoom.js:533-543 | the viewers `startViewer` registers have no socket, so a presenter's `stop` sends nothing |
| `One2ManyRoomProperties.StopTwiceReleasesPipelineTwice` | kurento-one2many-call/serverRoom.js:200-217 | since the entry survives, a second `stop` releases the same pipeline again |
| `One2ManyRoomProperties.StopOfViewer` | kurento-one2many-call/serverRoom.js:219-222 | `stop` of a viewer releases only its endpoint, removes only its entry and sends nothing |
| `One2ManyRoomProperties.StopOfPresenterAndViewer` | kurento-one2many-call/serverRoom.js:200-222 | a session in both arrays makes `stop` throw after dropping every viewer; the next `stop` does not throw |
| `One2ManyRoomProperties.StopsKeepPresentersAndClient` | kurento-one2many-call/serverRoom.js:200-237 | once a presenter exists, no sequence of `stop`s empties `presenters` or closes the client |
| `One2ManyRoomScenarios.Present` | kurento-one2many-call/serverRoom.js:476-514 | a successful presenter run appends exactly that presenter and accepts it |
| `One2ManyRoomScenarios.Open` | kurento-one2many-call/serverRoom.js:476-502 | up to the endpoint, a presenter run registers nothing and sends nothing; only its queue is gone |
| `One2ManyRoomScenarios.PresentAlpha` | kurento-one2many-call/serverRoom.js:476-514 | the first connection of a fresh server gets id "1" and becomes the room's only presenter |
| `One2ManyRoomScenarios.Watch` | kurento-one2many-call/serverRoom.js:516-546 | a successful viewer run appends the viewer without socket, on the room's first presenter's pipeline |
| `One2ManyRoomScenarios.PresenterLeavesSilently` | kurento-one2many-call/serverRoom.js:200-237 | the presenter's `stop` drops the viewer without telling it, releases the pipeline and keeps the presenter entry |
| `One2ManyRoomScenarios.PresenterAsksTwice` | kurento-one2many-call/serverRoom.js:481-486 | a second `presenter` message releases the same pipeline twice and is refused with `PRESENTER_EXISTS` |
| `One2ManyRoomScenarios.SecondPresenterOfRoom` | kurento-one2many-call/serverRoom.js:476-514 | a second presenter of an occupied room is accepted, and viewers attach to the first |
| `One2ManyRoomScenarios.PresenterWithoutRoom` | kurento-one2many-call/serverRoom.js:479-479 | a missing room is answered `undefined: undefined` |
| `One2ManyRefactor.CloseIfIdle` | kurento-one2many-call/serverRefactor.js:181-188 | with `viewers.length < 1` and no presenter a cached client is closed (the log gains exactly that `close`) and forgotten, and without one the log is unchanged; otherwise nothing changes |
| `One2ManyRefactor.StopCascade` | kurento-one2many-call/serverRefactor.js:160-189 | throws iff the session holds the slot with a `null` pipeline, changing nothing; the presenter's stop empties slot, viewers and `length`; any other stop deletes the viewer entry but keeps `length` and, with `length > 0`, the client |
| `One2ManyRefactor.Server.constructor` | kurento-one2many-call/serverRefactor.js:45-49 | no presenter, an empty viewer array of length 0, no queues, no client |
| `One2ManyRefactor.Server.NextUniqueId` | kurento-one2many-call/serverRefactor.js:67-70 | returns the incremented counter |
| `One2ManyRefactor.Server.Stop` | kurento-one2many-call/serverRefactor.js:160-189 | the new state and the throw are those of `StopCascade` |
| `One2ManyRefactor.Server.StopThenReject` | kurento-one2many-call/serverRefactor.js:319-333 | a failed callback runs `stop`, then rejects, or hangs if `stop` threw |
| `One2ManyRefactor.Server.OnIceCandidate` | kurento-one2many-call/serverRefactor.js:191-209 | hands the candidate to `IceRoute`'s endpoint or queues it |
| `One2ManyRefactor.Server.StartPresenter` | kurento-one2many-call/serverRefactor.js:383-395 | with the slot taken, the caller is stopped and refused with `PRESENTER_EXISTS` or the TypeError `stop` throws; otherwise the slot is claimed before any await |
| `One2ManyRefactor.Server.PresenterClientReady` | kurento-one2many-call/serverRefactor.js:250-268 | the client is not stored; a failure grows `NO_MEDIA_SERVER`'s message and keeps the claimed slot |
| `One2ManyRefactor.Server.PresenterPipelineReady` | kurento-one2many-call/serverRefactor.js:397-405 | a failure rejects with the raw error and keeps the slot; an emptied slot is stopped and refused with `PRESENTER_NOT_FOUND`; else the pipeline goes into the current slot |
| `One2ManyRefactor.Server.PresenterEndpointReady` | kurento-one2many-call/serverRefactor.js:407-411 | a failure runs `stop` and rejects with the raw error; a success is written into the slot, or throws on an emptied one, and the queue is drained |
| `One2ManyRefactor.Server.PresenterAnswerReady` | kurento-one2many-call/serverRefactor.js:319-333 | a failure runs `stop` and rejects with `PROCESS_OFFER` |
| `One2ManyRefactor.Server.PresenterGathered` | kurento-one2many-call/serverRefactor.js:335-349 | a failure runs `stop` and rejects with `GATHER_CANDIDATES` |
| `One2ManyRefactor.Server.SettlePresenter` | kurento-one2many-call/serverRefactor.js:95-111 | accepted, or the rejection text; no `stop` here |
| `One2ManyRefactor.Server.StartViewer` | kurento-one2many-call/serverRefactor.js:418-430 | no presenter refuses with `PRESENTER_NOT_FOUND`; a slot without pipeline throws a TypeError |
| `One2ManyRefactor.Server.ViewerEndpointReady` | kurento-one2many-call/serverRefactor.js:430-439 | a failure runs `stop`; an emptied slot runs `stop` and refuses without releasing the new endpoint; a presenter without endpoint throws on `connect` |
| `One2ManyRefactor.Server.PresenterToViewerConnected` | kurento-one2many-call/serverRefactor.js:351-365 | a failure runs `stop` and rejects with `CONNECT_TO_PRESENTER`; an emptied slot throws on the reverse connect |
| `One2ManyRefactor.Server.ViewerToPresenterConnected` | kurento-one2many-call/serverRefactor.js:367-381 | a failure runs `stop` and rejects with `CONNECT_TO_PRESENTER` |
| `One2ManyRefactor.Server.ViewerAnswerReady` | kurento-one2many-call/serverRefactor.js:319-333 | a failure runs `stop` and rejects with `PROCESS_OFFER` |
| `One2ManyRefactor.Server.ViewerGathered` | kurento-one2many-call/serverRefactor.js:445-449 | a success stores the viewer at its id and stretches `length` past it |
| `One2ManyRefactor.Server.SettleViewer` | kurento-one2many-call/serverRefactor.js:113-129 | accepted, or the rejection text; no `stop` here |
| `One2ManyRefactor.Server.RejectUnknown` | kurento-one2many-call/serverRefactor.js:139-144 | an unknown message id is answered with an `error` |
| `One2ManyRefactorProperties.CloseAddsAtMostClose` | kurento-one2many-call/serverRefactor.js:181-188 | the end of `stop` adds at most one `close` |
| `One2ManyRefactorProperties.StopOfPresenter` | kurento-one2many-call/serverRefactor.js:161-172 | the presenter's stop releases only its pipeline, empties everything and forgets the client |
| `One2ManyRefactorProperties.StopOfViewer` | kurento-one2many-call/serverRefactor.js:174-177 | a stored viewer's stop releases only its endpoint, deletes its entry, keeps `length` above 0 and keeps the client |
| `One2ManyRefactorProperties.StopOfUnknown` | kurento-one2many-call/serverRefactor.js:179-188 | any other session loses only its queue (and an idle server its client) |
| `One2ManyRefactorProperties.StopSendsNothing` | kurento-one2many-call/serverRefactor.js:162-169 | `stop` never sends a message, because stored viewers have no socket |
| `One2ManyRefactorProperties.StopKeepsLengthCovering` | kurento-one2many-call/serverRefactor.js:160-189 | `stop` keeps every stored viewer below `length` |
| `One2ManyRefactorProperties.StoringKeepsLengthCovering` | kurento-one2many-call/serverRefactor.js:447-447 | storing at an index keeps every stored viewer below the stretched `length` |
| `One2ManyRefactorProperties.ViewerStopsKeepClient` | kurento-one2many-call/serverRefactor.js:174-188 | once a viewer was stored, no sequence of non-presenter stops brings `length` to 0 or closes the client |
| `One2ManyRefactorProperties.StopOfUnfinishedPresenterThrows` | kurento-one2many-call/serverRefactor.js:170-170 | a slot whose pipeline is `null` makes its own `stop` throw every time and change nothing |
| `One2ManyRefactorProperties.CandidateAfterStopIsQueued` | kurento-one2many-call/serverRefactor.js:160-209 | a candidate arriving after its session's `stop` (one that did not throw) is queued, whatever role the session had |
| `One2ManyRefactorProperties.StoredViewerReceivesCandidates` | kurento-one2many-call/serverRefactor.js:191-209 | once a viewer is stored at its id, its candidates reach its own endpoint unless that session holds the slot with an endpoint set |
| `One2ManyRefactorScenarios.Present` | kurento-one2many-call/serverRefactor.js:383-416 | a successful presenter run fills the slot and accepts |
| `One2ManyRefactorScenarios.ReachEndpoint` | kurento-one2many-call/serverRefactor.js:397-411 | a claimed slot receives the new pipeline and endpoint, the viewers and the log unchanged |
| `One2ManyRefactorScenarios.ViewerUpToEndpoint` | kurento-one2many-call/serverRefactor.js:418-439 | a viewer run up to its endpoint changes no registry entry |
| `One2ManyRefactorScenarios.Broadcast` | kurento-one2many-call/serverRefactor.js:418-450 | viewer 2 is stored at index 2, so `length` is 3 |
| `One2ManyRefactorScenarios.SlotLeaksAfterEngineFailure` | kurento-one2many-call/serverRefactor.js:386-397 | after a failed engine connection the slot stays claimed, later presenters are refused and the first session's `stop` throws |
| `One2ManyRefactorScenarios.FirstRefused` | kurento-one2many-call/serverRefactor.js:386-397 | an unreachable engine refuses the first presenter with `NO_MEDIA_SERVER` while the slot stays claimed |
| `One2ManyRefactorScenarios.ViewerAsksToPresent` | kurento-one2many-call/serverRefactor.js:386-389 | a viewer asking to present is stopped (its endpoint released) and refused, with `length` unchanged |
| `One2ManyRefactorScenarios.PresenterLeavesDuringViewerNegotiation` | kurento-one2many-call/serverRefactor.js:430-435 | the re-check refuses the viewer and its new endpoint is never released |
| `One2ManyRefactorScenarios.ViewerStoredAfterPresenterLeft` | kurento-one2many-call/serverRefactor.js:445-449 | a viewer finishing after the presenter left is still stored and accepted |
| `HelloWorld.HandlerText` | kurento-hello-world/serverRefactor.js:394-437 | a rejection named in the switch is sent as `name: message`, as the one-to-many servers' optional chain would; any other error object gives its bare message; `undefined` gives `unknown error`; a filled-in constant of the switch carries its name and then the engine error's text |
| `HelloWorld.SwitchCoversTableButNoPipeline` | kurento-hello-world/serverRefactor.js:400-435 | every table entry but `NO_PIPELINE` is prefixed with its name |
| `HelloWorld.MissingMessageIsUnknown` | kurento-hello-world/serverRefactor.js:397-397 | a value without message is reported as `unknown error` |
| `HelloWorld.StopSession` | kurento-hello-world/serverRefactor.js:340-348 | only a registered session releases its pipeline and loses its entry and queue; otherwise nothing changes |
| `HelloWorld.Server.constructor` | kurento-hello-world/serverRefactor.js:44-46 | no sessions, no queues, no client |
| `HelloWorld.Server.Stop` | kurento-hello-world/serverRefactor.js:340-348 | produces exactly `StopSession`'s state for the session's key |
| `HelloWorld.Server.OnIceCandidate` | kurento-hello-world/serverRefactor.js:350-365 | a registered session's endpoint gets the candidate; otherwise it is queued |
| `HelloWorld.Server.Start` | kurento-hello-world/serverRefactor.js:367-370 | a falsy session id is refused with `NO_SESSION_ID` |
| `HelloWorld.Server.ClientReady` | kurento-hello-world/serverRefactor.js:181-196 | the client is not stored; a failure grows `NO_MEDIA_SERVER`'s message |
| `HelloWorld.Server.PipelineReady` | kurento-hello-world/serverRefactor.js:198-211 | a failure rejects with `KURENTO_CLIENT_CREATE` |
| `HelloWorld.Server.ElementsReady` | kurento-hello-world/serverRefactor.js:227-248 | a failure releases the pipeline with `CREATE_MEDIA_ELEMENT`; a success drains the queue into the WebRTC endpoint |
| `HelloWorld.Server.LoopbackConnected` | kurento-hello-world/serverRefactor.js:286-308 | a failure rejects with `CONNECT_MEDIA_ELEMENTS` and releases nothing |
| `HelloWorld.Server.RecorderConnected` | kurento-hello-world/serverRefactor.js:252-264 | a failure releases the pipeline and sends the engine error at once, then rejects |
| `HelloWorld.Server.RecordingStarted` | kurento-hello-world/serverRefactor.js:266-281 | a failure releases the pipeline and sends the engine error at once, then rejects |
| `HelloWorld.Server.AnswerReady` | kurento-hello-world/serverRefactor.js:310-323 | a failure rejects with `PROCESS_OFFER` and releases nothing |
| `HelloWorld.Server.Gathered` | kurento-hello-world/serverRefactor.js:384-391 | a success registers the session, overwriting any earlier entry of that id |
| `HelloWorld.Server.HandleError` | kurento-hello-world/serverRefactor.js:394-438 | sends `ErrorText` through an existing socket, and nothing without one |
| `HelloWorld.Server.Settle` | kurento-hello-world/serverRefactor.js:145-157 | sends the answer, or the handler's text for the rejection |
| `HelloWorld.Server.RejectUnknown` | kurento-hello-world/serverRefactor.js:166-171 | an unknown message id is answered with an `error` |
| `HelloWorldProperties.StopIsIdempotent` | kurento-hello-world/serverRefactor.js:340-348 | a second `stop` changes nothing |
| `HelloWorldProperties.RepeatedStopReleasesOnce` | kurento-hello-world/serverRefactor.js:340-348 | however often a session is stopped, its pipeline is released once, and only if registered |
| `HelloWorldProperties.OverwrittenPipelineLeaks` | kurento-hello-world/serverRefactor.js:386-389 | after a re-registration, `stop` releases only the newer pipeline |
| `HelloWorldProperties.StartWithoutSessionId` | kurento-hello-world/serverRefactor.js:367-368 | a start before the session id is known is refused and registers nothing |
| `HelloWorldProperties.StartSession` | kurento-hello-world/serverRefactor.js:367-392 | a successful run registers the session and delivers its queued candidates before the answer |
| `HelloWorldProperties.EarlyCandidatesDelivered` | kurento-hello-world/serverRefactor.js:374-379 | candidates sent before `start` reach the new endpoint in arrival order |
| `HelloWorldProperties.RestartLeaksFirstPipeline` | kurento-hello-world/serverRefactor.js:386-389 | starting twice then stopping never releases the first pipeline |
| `HelloWorldProperties.RecorderConnectFails` | kurento-hello-world/serverRefactor.js:252-264 | a failing recorder connect releases the pipeline, sends the engine error and then the prefixed text, and registers nothing |

## Left out

- HTTPS, express, the WebSocket server and the express session middleware are not modelled. The session id a connection gets is a parameter.
- JSON parsing and serialization of messages are not modelled. Messages are tagged values. An `error` message whose `message` field is an engine error object is kept as that object, not as its JSON text.
- The contents of SDP offers, answers and ICE candidates are not modelled, nor the conversion `getComplexType('IceCandidate')`. These values are passed through unread.
- The engine's `IceCandidateFound`/`OnIceCandidate` listeners and the `iceCandidate` messages they send are not modelled. They are event-driven I/O outside the handlers.
- The recorder's file URI and media profile are not modelled. They depend on the clock and do not affect bookkeeping.
- The `connect` calls between endpoints are not logged. Only their outcome is modelled, through the continuation methods.
- Console logging is not modelled.
- An exception thrown inside an engine callback, or out of a `ws` event handler, crashes the Node process in the source. The model stops at that point: the handler is `Hung`, or `Stop` reports `threw`.
- `One2ManyApp.Server.SettlePresenter`: when the `stop(sessionId)` inside the dispatcher's `.catch` callback throws, the method sends nothing and returns with `stop`'s state. The unhandled rejection that follows, which ends the process in current Node versions, is not modelled, and no result reports the throw.
- `One2ManyApp.Server.SettleViewer`: when the `stop(sessionId)` inside the dispatcher's `.catch` callback throws, the method sends nothing and returns with `stop`'s state. The unhandled rejection that follows, which ends the process in current Node versions, is not modelled, and no result reports the throw.
- `One2ManyRoom.Server.SettlePresenter`: when the `stop(sessionId)` inside the dispatcher's `.catch` callback throws, the method sends nothing and returns with `stop`'s state. The unhandled rejection that follows, which ends the process in current Node versions, is not modelled, and no result reports the throw.
- `One2ManyRoom.Server.SettleViewer`: when the `stop(sessionId)` inside the dispatcher's `.catch` callback throws, the method sends nothing and returns with `stop`'s state. The unhandled rejection that follows, which ends the process in current Node versions, is not modelled, and no result reports the throw.
- `One2ManyApp.Server.SettleViewer`: reading `error.name` of an `undefined` reason throws inside the `.catch` callback. The method models this as sending nothing. The unhandled rejection that follows is not modelled.
- `One2ManyApp.Server.SettleRecord`: reading `error.name` of an `undefined` reason throws inside the `.catch` callback. The method models this as sending nothing. The unhandled rejection that follows is not modelled.
- `One2ManyApp.Server.SettleStopRecord`: reading `error.name` of an `undefined` reason throws inside the `.catch` callback. The method models this as sending nothing. The unhandled rejection that follows is not modelled.
- `One2ManyRoom.Server.SettleViewer`: reading `error.name` of an `undefined` reason throws inside the `.catch` callback. The method models this as sending nothing. The unhandled rejection that follows is not modelled.
- `Engine.Fault.Text`: the text of an engine error is always `name: message`. JavaScript's `Error.prototype.toString` drops the separator when the message is empty, and gives the message alone when the name is empty; the model does not distinguish these cases, as no property here depends on the separator.
- Interleaving is modelled only at real awaits, as separate method calls. Microtask order between already-resolved promises is not modelled.
- `ws.room = message.room` in app.js is not modelled. It is written but never read.
- `One2ManyRefactor.Server.Stop`: the notification loop over `viewers` is not modelled step by step. Stored viewer objects have no `ws`, so the loop sends nothing. `One2ManyRefactorProperties.StopSendsNothing` states this.
- `One2ManyRefactor.Server.NextUniqueId`: the id is the counter itself, not its decimal text. `SessionIds.DecimalStringInjective` shows the two are interchangeable, and the text indexes the `viewers` array as that number.
- `HelloWorld.ErrorText`: an unprefixed error whose `message` is an engine error object would be sent as that object. The model shows it as the object's text. No rejection in this server reaches that case with an object message.
- The process-wide `NO_MEDIA_SERVER` message grows on every failed connection. The model carries it as a field of each server rather than as a value shared by several servers in one process.
