/**
 * Runs of the kurento-one2many-call/serverRoom.js server from a fresh start,
 * with the engine's answers chosen, and what each run leaves behind.
 */
module One2ManyRoomScenarios {
  import opened Engine
  import opened One2ManyRoom
  import opened One2ManyErrors
  import Candidates

  const PresenterSocket := Socket(1)
  const ViewerSocket := Socket(2)

  const PresenterAccepted := Sent(PresenterSocket, PresenterResponse(Accepted(Sdp("answer-p"))))

  /** The registry entry of session "1" presenting room "alpha". */
  const AlphaPresenter := Presenter("1", Pipeline(1), Endpoint(1), "alpha")

  /** The rejection text of `PRESENTER_EXISTS` in a `presenterResponse`. */
  const ExistsText := PresenterExists.name + ": " + PresenterExists.message

  /**
   * Session `id` asks to present `room` and its client, pipeline and endpoint
   * are created: its queue is drained and nothing is registered yet.
   */
  method Open(server: Server, d: PresenterDraft, pipeline: Pipeline, endpoint: Endpoint)
    requires server.engine != server.buffer as object
    requires d.room != "" && !HasPresenterId(server.presenters, d.id)
    modifies server`viewers, server`kurentoClient, server`noMediaServerMessage, server.engine, server.buffer
    ensures server.viewers == old(server.viewers) && server.kurentoClient == old(server.kurentoClient)
    ensures server.buffer.queues == old(server.buffer.queues) - {d.id}
    ensures server.engine.log == old(server.engine.log)
  {
    var p := server.StartPresenter(d.id, d.ws, d.sdpOffer, d.room);
    if server.kurentoClient.None? {
      assert p == Pending(PresenterClient(d));
      p := server.PresenterClientReady(d, Success(Client(1)));
    }
    ghost var cleared := server.buffer.queues;
    assert cleared == old(server.buffer.queues) - {d.id};
    p := server.PresenterEndpointReady(d, pipeline, Success(endpoint));
    assert server.buffer.queues == cleared;
  }

  /** Session `id` presents `room` on `server`, with every engine call succeeding and handing out the given objects. */
  method Present(server: Server, id: SessionId, ws: Socket, room: string, pipeline: Pipeline, endpoint: Endpoint)
    requires server.engine != server.buffer as object
    requires room != "" && !HasPresenterId(server.presenters, id)
    modifies server, server.engine, server.buffer
    ensures server.presenters == old(server.presenters) + [Presenter(id, pipeline, endpoint, room)]
    ensures server.viewers == old(server.viewers) && server.kurentoClient == old(server.kurentoClient)
    ensures server.idCounter == old(server.idCounter)
    ensures server.buffer.queues == old(server.buffer.queues) - {id}
    ensures server.engine.log == old(server.engine.log) + [Sent(ws, PresenterResponse(Accepted(Sdp("answer-p"))))]
  {
    var d := PresenterDraft(id, ws, Sdp("offer-p"), room);
    Open(server, d, pipeline, endpoint);
    var p := server.RecorderReady(d, pipeline, endpoint, Success(Endpoint(100)));
    p := server.RecorderConnected(d, pipeline, endpoint, Endpoint(100), Success(()));
    p := server.RecordingStarted(d, pipeline, endpoint, Success(()));
    p := server.PresenterAnswerReady(d, endpoint, Success(Sdp("answer-p")));
    p := server.PresenterGathered(Sdp("answer-p"), Success(()));
    assert p == Fulfilled(Sdp("answer-p"));
    server.SettlePresenter(id, ws, p);
  }

  /** Session "1" presents room "alpha" on a fresh server. */
  method PresentAlpha() returns (server: Server)
    ensures fresh(server) && fresh(server.engine) && fresh(server.buffer)
    ensures server.engine != server.buffer as object
    ensures server.idCounter == 1
    ensures server.presenters == [AlphaPresenter] && server.viewers == []
    ensures server.kurentoClient == None && server.buffer.queues == map[]
    ensures server.engine.log == [PresenterAccepted]
  {
    server := new Server(DefaultWsUri);
    var id := server.NextUniqueId();
    assert id == "1";
    Present(server, id, PresenterSocket, "alpha", Pipeline(1), Endpoint(1));
  }

  /** Session "2" watches room "alpha" of `server`, with every engine call succeeding. */
  method Watch(server: Server) returns (pipeline: Pipeline)
    requires server.engine != server.buffer as object
    requires RoomIndex(server.presenters, "alpha") != -1
    requires !HasViewerId(server.viewers, "2") && !HasPresenterId(server.presenters, "2")
    modifies server`viewers, server`kurentoClient, server.engine, server.buffer
    ensures server.kurentoClient == old(server.kurentoClient)
    ensures pipeline == server.presenters[RoomIndex(server.presenters, "alpha")].pipeline
    ensures server.viewers == old(server.viewers) + [Viewer("2", Endpoint(2), "alpha", None)]
    ensures server.buffer.queues == old(server.buffer.queues) - {"2"}
    ensures server.engine.log == old(server.engine.log) + [Sent(ViewerSocket, ViewerResponse(Accepted(Sdp("answer-v"))))]
  {
    var d := ViewerDraft("2", ViewerSocket, Sdp("offer-v"), "alpha");
    pipeline := server.presenters[RoomIndex(server.presenters, "alpha")].pipeline;
    var v := server.StartViewer("2", ViewerSocket, Sdp("offer-v"), "alpha");
    assert v == Pending(ViewerEndpoint(d, pipeline));
    assert Candidates.Waiting(server.buffer.queues, "2") == [];
    v := server.ViewerEndpointReady(d, pipeline, Success(Endpoint(2)));
    v := server.PresenterToViewerConnected(d, Endpoint(2), Success(()));
    v := server.ViewerToPresenterConnected(d, Endpoint(2), Success(()));
    v := server.ViewerAnswerReady(d, Endpoint(2), Success(Sdp("answer-v")));
    v := server.ViewerGathered(d, Endpoint(2), Sdp("answer-v"), Success(()));
    assert v == Fulfilled(Sdp("answer-v"));
    server.SettleViewer("2", ViewerSocket, v);
  }

  /**
   * The presenter of a running broadcast sends `stop`: the viewer entry is
   * dropped without any message reaching the viewer, the pipeline is released,
   * and the presenter entry stays.
   */
  method PresenterLeavesSilently() returns (server: Server)
    ensures server.presenters == [AlphaPresenter] && server.viewers == []
    ensures server.engine.log == [
      PresenterAccepted,
      Sent(ViewerSocket, ViewerResponse(Accepted(Sdp("answer-v")))),
      Released(Pipeline(1))]
  {
    server := PresentAlpha();
    var pipeline := Watch(server);
    var threw := server.Stop("1");
  }

  /**
   * The presenter of room "alpha" sends `presenter` again: the duplicate check
   * runs `stop`, the rejection's catch runs `stop` once more, so the same
   * pipeline is released twice, and the presenter entry stays.
   */
  method PresenterAsksTwice() returns (server: Server, p: Progress<PresenterAwait, Sdp>)
    ensures p == Failed(PresenterExists)
    ensures server.presenters == [AlphaPresenter]
    ensures server.engine.log == [
      PresenterAccepted, Released(Pipeline(1)), Released(Pipeline(1)),
      Sent(PresenterSocket, PresenterResponse(Rejected(ExistsText)))]
  {
    server := PresentAlpha();
    assert server.presenters[0].id == "1";
    p := server.StartPresenter("1", PresenterSocket, Sdp("offer-p"), "alpha");
    server.SettlePresenter("1", PresenterSocket, p);
  }

  /**
   * A second session presents the room that already has a presenter: it is
   * accepted, and a viewer of the room is attached to the first presenter.
   */
  method SecondPresenterOfRoom() returns (server: Server, watched: Pipeline)
    ensures |server.presenters| == 2
    ensures server.presenters[0].room == "alpha" && server.presenters[1].room == "alpha"
    ensures server.presenters[1].id == "3"
    ensures watched == Pipeline(1)
  {
    server := PresentAlpha();
    Present(server, "3", Socket(3), "alpha", Pipeline(3), Endpoint(3));
    watched := Watch(server);
  }

  /** A presenter without a room is refused with the text of an error missing from the table. */
  method PresenterWithoutRoom() returns (server: Server)
    ensures server.presenters == []
    ensures server.engine.log == [Sent(PresenterSocket, PresenterResponse(Rejected("undefined: undefined")))]
  {
    server := new Server(DefaultWsUri);
    var p := server.StartPresenter("1", PresenterSocket, Sdp("offer-p"), "");
    server.SettlePresenter("1", PresenterSocket, p);
  }
}
