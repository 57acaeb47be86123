/**
 * Runs of the kurento-one2many-call/app.js server from a fresh start, with the
 * engine's answers chosen, and what each run leaves behind.  The first methods
 * run one whole handler, with every engine call succeeding, on any server that
 * meets their preconditions; the runs below are built from them.
 */
module One2ManyAppScenarios {
  import opened Engine
  import opened One2ManyApp
  import opened One2ManyErrors
  import Candidates

  const PresenterSocket := Socket(1)
  const ViewerSocket := Socket(2)

  /** The log after a presenter and a viewer of room "alpha" have both been accepted. */
  const BroadcastLog := [
    Sent(PresenterSocket, PresenterResponse(Accepted(Sdp("answer-p")))),
    Sent(ViewerSocket, ViewerResponse(Accepted(Sdp("answer-v"))))]

  /** The rejection text of `PRESENTER_NOT_FOUND` in a `viewerResponse`. */
  const NotFoundText := PresenterNotFound.name + ": " + PresenterNotFound.message

  /** The registry entry of session "1" presenting room "alpha". */
  const AlphaPresenter := Presenter(0, "1", Pipeline(1), Endpoint(1), None, false, "alpha", PresenterSocket)

  /**
   * A presenter draft's first three awaits succeed: the client, the pipeline
   * and the endpoint are created, and the presenter is registered with the
   * endpoint its (empty) queue was drained into.
   */
  method ReachEndpoint(server: Server, d: PresenterDraft, client: Client, pipeline: Pipeline, endpoint: Endpoint)
    requires server.engine != server.buffer as object
    requires Candidates.Waiting(server.buffer.queues, d.id) == []
    modifies server`presenters, server`noMediaServerMessage, server.buffer, server.engine
    ensures server.presenters == old(server.presenters) + [Registered(d, pipeline, endpoint)]
    ensures server.noMediaServerMessage == old(server.noMediaServerMessage)
    ensures server.buffer.queues == Candidates.Drained(old(server.buffer.queues), d.id)
    ensures server.engine.log == old(server.engine.log)
  {
    var p := server.PresenterClientReady(d, Success(client));
    p := server.PresenterPipelineReady(d, Success(pipeline));
    p := server.PresenterEndpointReady(d, pipeline, Success(endpoint));
  }

  /**
   * Session `id` presents `room`, which has no presenter yet, and every engine
   * call succeeds: exactly that presenter is appended, its socket becomes a
   * presenter's, and the only message is the acceptance.
   */
  method Present(server: Server, id: SessionId, ws: Socket, room: string, pipeline: Pipeline, endpoint: Endpoint, answer: Sdp)
    requires server.engine != server.buffer as object
    requires room != "" && RoomIndex(server.presenters, room) == -1 && server.kurentoClient.None?
    modifies server`presenters, server`viewers, server`kurentoClient, server`roles, server`objects
    modifies server`noMediaServerMessage, server.buffer, server.engine
    ensures server.presenters == old(server.presenters) + [Presenter(old(server.objects), id, pipeline, endpoint, None, false, room, ws)]
    ensures server.viewers == old(server.viewers) && server.kurentoClient == None
    ensures server.roles == old(server.roles)[ws := PresenterRole] && server.objects == old(server.objects) + 1
    ensures server.buffer.queues.Keys == old(server.buffer.queues).Keys - {id}
    ensures server.engine.log == old(server.engine.log) + [Sent(ws, PresenterResponse(Accepted(answer)))]
  {
    var d := PresenterDraft(server.objects, id, ws, Sdp("offer"), room);
    var p := server.StartPresenter(id, ws, Sdp("offer"), room);
    assert p == Pending(PresenterClient(d));
    ReachEndpoint(server, d, Client(1), pipeline, endpoint);
    p := server.PresenterAnswerReady(d, endpoint, Success(answer));
    p := server.PresenterGathered(d, answer, Success(()));
    server.SettlePresenter(id, ws, p);
  }

  /**
   * Session `id` watches `room`, which has a presenter, and every engine call
   * succeeds: exactly that viewer is appended and accepted.
   */
  method Watch(server: Server, id: SessionId, ws: Socket, room: string, endpoint: Endpoint, answer: Sdp)
    requires server.engine != server.buffer as object
    requires RoomIndex(server.presenters, room) != -1
    modifies server`presenters, server`viewers, server`kurentoClient, server`roles, server.buffer, server.engine
    ensures server.presenters == old(server.presenters) && server.kurentoClient == old(server.kurentoClient)
    ensures server.viewers == old(server.viewers) + [Viewer(id, endpoint, room, ws)]
    ensures server.roles == old(server.roles)[ws := ViewerRole]
    ensures server.buffer.queues.Keys == old(server.buffer.queues).Keys - {id}
    ensures server.engine.log == old(server.engine.log) + [Sent(ws, ViewerResponse(Accepted(answer)))]
  {
    var d := ViewerDraft(id, ws, Sdp("offer"), room);
    var pipeline := server.presenters[RoomIndex(server.presenters, room)].pipeline;
    var v := server.StartViewer(id, ws, Sdp("offer"), room);
    assert v == Pending(ViewerEndpoint(d, pipeline));
    assert Candidates.Waiting(server.buffer.queues, id) == [];
    v := server.ViewerEndpointReady(d, pipeline, Success(endpoint));
    v := server.PresenterToViewerConnected(d, endpoint, Success(()));
    v := server.ViewerToPresenterConnected(d, endpoint, Success(()));
    v := server.ViewerAnswerReady(d, endpoint, Success(answer));
    v := server.ViewerGathered(d, endpoint, answer, Success(()));
    assert v == Fulfilled(answer);
    server.SettleViewer(id, ws, v);
  }

  /**
   * The presenter socket `ws` of `room` records and every engine call
   * succeeds: the room's presenter object gets the recorder and is marked as
   * recording, and the request is accepted.
   */
  method Record(server: Server, ws: Socket, room: string, recorder: Endpoint)
    requires room != "" && ws in server.roles && server.roles[ws] == PresenterRole
    requires RoomIndex(server.presenters, room) != -1
    modifies server`presenters, server.engine
    ensures var obj := old(server.presenters)[RoomIndex(old(server.presenters), room)].obj;
      server.presenters == MarkedRecording(WithRecorder(old(server.presenters), obj, recorder), obj)
    ensures server.engine.log == old(server.engine.log) + [Sent(ws, RecordResponse(RecordAccepted))]
  {
    var r := server.StartRecording(Some(ws), room);
    r := server.RecorderReady(r.task.target, Success(recorder));
    r := server.RecorderConnected(r.task.target, r.task.recorder, Success(()));
    r := server.RecordingStarted(r.task.target, Success(()));
    server.SettleRecord(ws, r);
  }

  /**
   * The presenter socket `ws` of a recording `room` stops recording and every
   * engine call succeeds: the recorder is cleared, `isRecording` is not, and
   * the request is accepted.
   */
  method StopRecord(server: Server, ws: Socket, room: string)
    requires room != "" && ws in server.roles && server.roles[ws] == PresenterRole
    requires RoomIndex(server.presenters, room) != -1
    requires var i := RoomIndex(server.presenters, room);
      server.presenters[i].isRecording && server.presenters[i].recorderEndpoint.Some?
    modifies server`presenters, server.engine
    ensures var i := RoomIndex(old(server.presenters), room);
      server.presenters == old(server.presenters)[i := old(server.presenters)[i].(recorderEndpoint := None)]
    ensures server.engine.log == old(server.engine.log) + [Sent(ws, StopRecordResponse(RecordAccepted))]
  {
    var s := server.StopRecording(Some(ws), room);
    s := server.RecorderDisconnected(s.task.target, Success(()));
    s := server.RecorderStopped(s.task.target, Success(()));
    server.SettleStopRecord(ws, s);
  }

  /** The presenter of room "alpha", alone on the server, sends `stop`: only its pipeline is released. */
  method AlphaLeaves(server: Server)
    requires server.engine != server.buffer as object
    requires server.presenters == [AlphaPresenter] && server.viewers == [] && server.kurentoClient == None
    modifies server`presenters, server`viewers, server`kurentoClient, server.buffer, server.engine
    ensures server.presenters == [] && server.viewers == [] && server.kurentoClient == None
    ensures server.buffer.queues == Candidates.Cleared(old(server.buffer.queues), "1")
    ensures server.engine.log == old(server.engine.log) + [Released(Pipeline(1))]
  {
    var threw := server.Stop("1");
  }

  /** Session "1" connects and presents room "alpha" on a fresh server; every engine call succeeds. */
  method PresentAlpha() returns (server: Server)
    ensures fresh(server) && fresh(server.engine) && fresh(server.buffer)
    ensures server.engine != server.buffer as object
    ensures server.idCounter == 1
    ensures server.presenters == [AlphaPresenter] && server.viewers == []
    ensures server.roles == map[PresenterSocket := PresenterRole]
    ensures server.kurentoClient == None && server.buffer.queues == map[]
    ensures server.engine.log == [Sent(PresenterSocket, PresenterResponse(Accepted(Sdp("answer-p"))))]
  {
    server := new Server(DefaultWsUri);
    var presenterId := server.NextUniqueId();
    assert presenterId == "1";
    Present(server, presenterId, PresenterSocket, "alpha", Pipeline(1), Endpoint(1), Sdp("answer-p"));
  }

  /**
   * Sessions "1" (presenter) and "2" (viewer) connect; "1" presents room
   * "alpha" and "2" watches it, and every engine call succeeds.
   */
  method StartBroadcast() returns (server: Server)
    ensures fresh(server) && fresh(server.engine) && fresh(server.buffer)
    ensures server.engine != server.buffer as object
    ensures server.presenters == [AlphaPresenter]
    ensures server.viewers == [Viewer("2", Endpoint(2), "alpha", ViewerSocket)]
    ensures server.roles == map[PresenterSocket := PresenterRole, ViewerSocket := ViewerRole]
    ensures server.kurentoClient == None && server.buffer.queues == map[]
    ensures server.engine.log == BroadcastLog
  {
    server := PresentAlpha();
    var viewerId := server.NextUniqueId();
    assert viewerId == "2";
    Watch(server, viewerId, ViewerSocket, "alpha", Endpoint(2), Sdp("answer-v"));
  }

  /**
   * The presenter of a running broadcast sends `stop`: the viewer is told the
   * room is closing, the pipeline is released, both arrays end empty, and the
   * viewer's own endpoint is never released on its own.
   */
  method PresenterLeavesBroadcast() returns (server: Server)
    ensures server.presenters == [] && server.viewers == []
    ensures server.engine.log == BroadcastLog + [Sent(ViewerSocket, StopCommunication(Some("alpha"))), Released(Pipeline(1))]
    ensures EndpointReleased(Endpoint(2)) !in server.engine.log
  {
    server := StartBroadcast();
    var threw := server.Stop("1");
  }

  /** A viewer asks for room "beta" on a fresh server and is refused; nothing is registered. */
  method ViewerWithoutPresenter() returns (server: Server)
    ensures server.presenters == [] && server.viewers == []
    ensures server.engine.log == [Sent(ViewerSocket, ViewerResponse(Rejected(NotFoundText)))]
  {
    server := new Server(DefaultWsUri);
    var viewerId := server.NextUniqueId();
    var v := server.StartViewer(viewerId, ViewerSocket, Sdp("offer-v"), "beta");
    server.SettleViewer(viewerId, ViewerSocket, v);
  }

  /**
   * The presenter of a broadcast records, stops recording, and stops again:
   * the first two are accepted, the third is refused with a constant missing
   * from the error table, so its catch handler throws and no answer is sent.
   * `isRecording` is still true at the end.
   */
  method RecordThenStopTwice() returns (server: Server, second: Progress<StopRecordAwait, ()>)
    ensures second == Failed(Undefined)
    ensures server.engine.log == BroadcastLog + [
      Sent(PresenterSocket, RecordResponse(RecordAccepted)),
      Sent(PresenterSocket, StopRecordResponse(RecordAccepted))]
    ensures |server.presenters| == 1 && server.presenters[0].isRecording && server.presenters[0].recorderEndpoint == None
  {
    server := StartBroadcast();
    Record(server, PresenterSocket, "alpha", Endpoint(3));
    assert server.presenters == [AlphaPresenter.(recorderEndpoint := Some(Endpoint(3)), isRecording := true)];
    StopRecord(server, PresenterSocket, "alpha");
    assert server.presenters == [AlphaPresenter.(isRecording := true)];
    second := server.StopRecording(Some(PresenterSocket), "alpha");
    server.SettleStopRecord(PresenterSocket, second);
  }

  /**
   * Two sessions ask to present room "alpha" before either has an endpoint:
   * both pass the room check, and both are registered for the same room.
   */
  method TwoPresentersRace() returns (server: Server)
    ensures |server.presenters| == 2
    ensures server.presenters[0].room == "alpha" && server.presenters[1].room == "alpha"
    ensures server.presenters[0].id == "1" && server.presenters[1].id == "2"
  {
    server := new Server(DefaultWsUri);
    var first := server.NextUniqueId();
    var second := server.NextUniqueId();
    assert first == "1" && second == "2";
    var da := PresenterDraft(0, "1", Socket(1), Sdp("offer-a"), "alpha");
    var db := PresenterDraft(1, "2", Socket(2), Sdp("offer-b"), "alpha");
    var a := server.StartPresenter(first, Socket(1), Sdp("offer-a"), "alpha");
    assert a == Pending(PresenterClient(da));
    var b := server.StartPresenter(second, Socket(2), Sdp("offer-b"), "alpha");
    assert b == Pending(PresenterClient(db));
    ReachEndpoint(server, da, Client(1), Pipeline(1), Endpoint(1));
    ReachEndpoint(server, db, Client(2), Pipeline(2), Endpoint(2));
  }

  /**
   * The presenter leaves while a viewer's endpoint is being created: the
   * re-lookup after creation finds no presenter, the viewer is refused, and the
   * new endpoint is never released on its own.
   */
  method PresenterLeavesDuringViewerNegotiation() returns (server: Server, v: Progress<ViewerAwait, Sdp>)
    ensures v == Failed(PresenterNotFound)
    ensures server.presenters == [] && server.viewers == []
    ensures server.engine.log == [
      Sent(PresenterSocket, PresenterResponse(Accepted(Sdp("answer-p")))),
      Released(Pipeline(1)),
      Sent(ViewerSocket, ViewerResponse(Rejected(NotFoundText)))]
  {
    server := PresentAlpha();
    var viewerId := server.NextUniqueId();
    v := server.StartViewer(viewerId, ViewerSocket, Sdp("offer-v"), "alpha");
    assert v == Pending(ViewerEndpoint(ViewerDraft("2", ViewerSocket, Sdp("offer-v"), "alpha"), Pipeline(1)));
    AlphaLeaves(server);
    v := server.ViewerEndpointReady(ViewerDraft("2", ViewerSocket, Sdp("offer-v"), "alpha"), Pipeline(1), Success(Endpoint(2)));
    server.SettleViewer(viewerId, ViewerSocket, v);
  }
}
