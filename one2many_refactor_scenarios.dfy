/**
 * Runs of the kurento-one2many-call/serverRefactor.js server from a fresh
 * start, with the engine's answers chosen, and what each run leaves behind.
 */
module One2ManyRefactorScenarios {
  import opened Engine
  import opened One2ManyRefactor
  import One2ManyErrors
  import opened Candidates

  const PresenterSocket := Socket(1)
  const ViewerSocket := Socket(2)

  const PresenterAccepted := Sent(PresenterSocket, PresenterResponse(Accepted(Sdp("answer-p"))))
  const ViewerAccepted := Sent(ViewerSocket, ViewerResponse(Accepted(Sdp("answer-v"))))

  /** The slot of session 1 once its pipeline and endpoint exist. */
  const FullSlot := Slot(1, Some(Pipeline(1)), Some(Endpoint(1)))

  const ExistsText := PresenterExists.name + ": " + PresenterExists.message
  const NotFoundText := PresenterNotFound.name + ": " + PresenterNotFound.message

  /** The engine's answer when no media server can be reached. */
  const Unreachable := Fault("Error", "connect ECONNREFUSED")

  /** The `presenterResponse` text after the first failed connection to the engine. */
  const NoMediaServerRejection :=
    "NO_MEDIA_SERVER" + ": " + One2ManyErrors.NoMediaServerGrown(NoMediaServerText, DefaultWsUri, Unreachable)

  /**
   * A claimed presenter slot is filled: the client, the pipeline and the
   * endpoint are created, and the (empty) queue is drained into the endpoint.
   */
  method ReachEndpoint(server: Server, d: PresenterDraft, pipeline: Pipeline, endpoint: Endpoint)
    requires server.engine != server.buffer as object
    requires server.presenter == Some(Slot(d.id, None, None))
    requires Waiting(server.buffer.queues, d.id) == []
    modifies server`presenter, server`viewers, server`viewersLength, server`kurentoClient
    modifies server`noMediaServerMessage, server.buffer, server.engine
    ensures server.presenter == Some(Slot(d.id, Some(pipeline), Some(endpoint)))
    ensures server.viewers == old(server.viewers) && server.viewersLength == old(server.viewersLength)
    ensures server.kurentoClient == old(server.kurentoClient)
    ensures server.buffer.queues == Drained(old(server.buffer.queues), d.id)
    ensures server.engine.log == old(server.engine.log)
  {
    var p := server.PresenterClientReady(d, Success(Client(1)));
    p := server.PresenterPipelineReady(d, Success(pipeline));
    p := server.PresenterEndpointReady(d, Success(endpoint));
  }

  /** Session 1 connects and presents on a fresh server; every engine call succeeds. */
  method Present() returns (server: Server)
    ensures fresh(server) && fresh(server.engine) && fresh(server.buffer)
    ensures server.engine != server.buffer as object
    ensures server.idCounter == 1
    ensures server.presenter == Some(FullSlot) && server.viewers == map[] && server.viewersLength == 0
    ensures server.kurentoClient == None && server.buffer.queues == map[]
    ensures server.engine.log == [PresenterAccepted]
  {
    server := new Server(DefaultWsUri);
    var id := server.NextUniqueId();
    var d := PresenterDraft(1, PresenterSocket, Sdp("offer-p"));
    var p := server.StartPresenter(id, PresenterSocket, Sdp("offer-p"));
    assert p == Pending(PresenterClient(d));
    ReachEndpoint(server, d, Pipeline(1), Endpoint(1));
    assert server.buffer.queues == map[];
    p := server.PresenterAnswerReady(d, Endpoint(1), Success(Sdp("answer-p")));
    p := server.PresenterGathered(d, Sdp("answer-p"), Success(()));
    server.SettlePresenter(PresenterSocket, p);
  }

  /** Session 2 starts watching and its endpoint is created; the run stops before the connects. */
  method ViewerUpToEndpoint(server: Server) returns (v: Progress<ViewerAwait, Sdp>)
    requires server.engine != server.buffer as object
    requires server.presenter == Some(FullSlot) && server.idCounter == 1 && 2 !in server.viewers
    modifies server, server.engine, server.buffer
    ensures server.idCounter == 2
    ensures server.presenter == old(server.presenter) && server.viewers == old(server.viewers)
    ensures server.viewersLength == old(server.viewersLength) && server.kurentoClient == old(server.kurentoClient)
    ensures server.engine.log == old(server.engine.log)
    ensures v == Pending(PresenterToViewer(ViewerDraft(2, ViewerSocket, Sdp("offer-v")), Endpoint(2)))
  {
    var id := server.NextUniqueId();
    v := server.StartViewer(id, ViewerSocket, Sdp("offer-v"));
    v := server.ViewerEndpointReady(v.task.draft, Success(Endpoint(2)));
  }

  /** Session 2 watches the broadcast of session 1; every engine call succeeds. */
  method Broadcast() returns (server: Server)
    ensures fresh(server) && fresh(server.engine) && fresh(server.buffer)
    ensures server.engine != server.buffer as object
    ensures server.presenter == Some(FullSlot)
    ensures server.viewers == map[2 := Viewer(2, Endpoint(2))] && server.viewersLength == 3
    ensures server.kurentoClient == None
    ensures server.engine.log == [PresenterAccepted, ViewerAccepted]
  {
    server := Present();
    var v := ViewerUpToEndpoint(server);
    v := server.PresenterToViewerConnected(v.task.draft, v.task.endpoint, Success(()));
    v := server.ViewerToPresenterConnected(v.task.draft, v.task.endpoint, Success(()));
    v := server.ViewerAnswerReady(v.task.draft, v.task.endpoint, Success(Sdp("answer-v")));
    v := server.ViewerGathered(v.task.draft, v.task.endpoint, v.task.sdpAnswer, Success(()));
    server.SettleViewer(ViewerSocket, v);
  }

  /**
   * On a fresh server, session 1 asks to present and the engine cannot be
   * reached: the request is refused with `NO_MEDIA_SERVER`, the slot stays claimed.
   */
  method FirstRefused(server: Server)
    requires server.engine != server.buffer as object
    requires server.presenter == None && server.kurentoClient == None && server.engine.log == []
    requires server.noMediaServerMessage == NoMediaServerText && server.wsUri == DefaultWsUri
    modifies server`presenter, server`viewers, server`viewersLength, server`kurentoClient
    modifies server`noMediaServerMessage, server.buffer, server.engine
    ensures server.presenter == Some(Slot(1, None, None))
    ensures server.viewers == old(server.viewers) && server.viewersLength == old(server.viewersLength)
    ensures server.kurentoClient == None
    ensures server.engine.log == [Sent(Socket(1), PresenterResponse(Rejected(NoMediaServerRejection)))]
  {
    var d := PresenterDraft(1, Socket(1), Sdp("offer-1"));
    var p := server.StartPresenter(1, Socket(1), Sdp("offer-1"));
    assert p == Pending(PresenterClient(d));
    p := server.PresenterClientReady(d, Failure(Unreachable));
    server.SettlePresenter(Socket(1), p);
  }

  /**
   * The engine cannot be reached: the first presenter is refused, but its
   * claim on the slot stays, so every later presenter is refused with
   * `PRESENTER_EXISTS`, and the first session's own `stop` throws.
   */
  method SlotLeaksAfterEngineFailure() returns (server: Server, second: Progress<PresenterAwait, Sdp>, threw: bool)
    ensures server.presenter == Some(Slot(1, None, None))
    ensures second == Failed(PresenterExists)
    ensures threw
    ensures server.engine.log == [
      Sent(Socket(1), PresenterResponse(Rejected(NoMediaServerRejection))),
      Sent(Socket(2), PresenterResponse(Rejected(ExistsText)))]
  {
    server := new Server(DefaultWsUri);
    var first := server.NextUniqueId();
    var other := server.NextUniqueId();
    FirstRefused(server);
    second := server.StartPresenter(other, Socket(2), Sdp("offer-2"));
    server.SettlePresenter(Socket(2), second);
    threw := server.Stop(first);
  }

  /**
   * A stored viewer asks to present: the duplicate check stops the viewer's
   * own session, releasing its endpoint and deleting its entry, but
   * `viewers.length` stays 3.
   */
  method ViewerAsksToPresent() returns (server: Server, p: Progress<PresenterAwait, Sdp>)
    ensures p == Failed(PresenterExists)
    ensures server.presenter == Some(FullSlot)
    ensures server.viewers == map[] && server.viewersLength == 3
    ensures server.engine.log == [
      PresenterAccepted, ViewerAccepted, EndpointReleased(Endpoint(2)),
      Sent(ViewerSocket, PresenterResponse(Rejected(ExistsText)))]
  {
    server := Broadcast();
    p := server.StartPresenter(2, ViewerSocket, Sdp("offer-2"));
    server.SettlePresenter(ViewerSocket, p);
  }

  /**
   * The presenter leaves while a viewer's endpoint is being created: the
   * re-check refuses the viewer, and the new endpoint is never released.
   */
  method PresenterLeavesDuringViewerNegotiation() returns (server: Server, v: Progress<ViewerAwait, Sdp>)
    ensures v == Failed(PresenterNotFound)
    ensures server.presenter == None && server.viewers == map[]
    ensures server.engine.log == [
      PresenterAccepted, Released(Pipeline(1)), Sent(ViewerSocket, ViewerResponse(Rejected(NotFoundText)))]
  {
    server := Present();
    var id := server.NextUniqueId();
    v := server.StartViewer(id, ViewerSocket, Sdp("offer-v"));
    var threw := server.Stop(1);
    v := server.ViewerEndpointReady(v.task.draft, Success(Endpoint(2)));
    server.SettleViewer(ViewerSocket, v);
  }

  /**
   * The presenter leaves while a viewer is gathering candidates: the viewer
   * is still stored and accepted, with no presenter, and `viewers.length`
   * stretches to 3 again.
   */
  method ViewerStoredAfterPresenterLeft() returns (server: Server)
    ensures server.presenter == None
    ensures server.viewers == map[2 := Viewer(2, Endpoint(2))] && server.viewersLength == 3
    ensures server.engine.log == [PresenterAccepted, Released(Pipeline(1)), ViewerAccepted]
  {
    server := Present();
    var v := ViewerUpToEndpoint(server);
    v := server.PresenterToViewerConnected(v.task.draft, v.task.endpoint, Success(()));
    v := server.ViewerToPresenterConnected(v.task.draft, v.task.endpoint, Success(()));
    v := server.ViewerAnswerReady(v.task.draft, v.task.endpoint, Success(Sdp("answer-v")));
    var threw := server.Stop(1);
    v := server.ViewerGathered(v.task.draft, v.task.endpoint, v.task.sdpAnswer, Success(()));
    server.SettleViewer(ViewerSocket, v);
  }
}
