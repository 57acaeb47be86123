/**
 * The room-keyed server variant kurento-one2many-call/serverRoom.js: the same
 * `presenters`/`viewers` arrays as app.js, but `stop` never takes a presenter
 * out of its array, the duplicate check is by session and not by room, every
 * presenter records from the start, and viewer records carry no socket.
 */
module One2ManyRoom {
  import opened Engine
  import opened Lookup
  import opened Candidates
  import opened One2ManyErrors
  import SessionIds

  type SessionId = string

  /** `argv.ws_uri` when no command line option overrides it. */
  const DefaultWsUri := "ws://localhost:8888/kurento"

  datatype Presenter = Presenter(id: SessionId, pipeline: Pipeline, webRtcEndpoint: Endpoint, room: string)

  /** A viewer record; `startViewer` builds it without a `ws` field, so `ws` is `None` for every viewer it registers. */
  datatype Viewer = Viewer(id: SessionId, webRtcEndpoint: Endpoint, room: string, ws: Option<Socket>)

  datatype SearchResult = SearchResult(isPresenter: bool, isViewer: bool, presenterIndex: int, viewerIndex: int)

  predicate FirstPresenterWithId(presenters: seq<Presenter>, id: SessionId, i: int)
  {
    0 <= i < |presenters| && presenters[i].id == id && forall j :: 0 <= j < i ==> presenters[j].id != id
  }

  predicate FirstViewerWithId(viewers: seq<Viewer>, id: SessionId, i: int)
  {
    0 <= i < |viewers| && viewers[i].id == id && forall j :: 0 <= j < i ==> viewers[j].id != id
  }

  predicate HasPresenterId(presenters: seq<Presenter>, id: SessionId)
  {
    exists i :: 0 <= i < |presenters| && presenters[i].id == id
  }

  predicate HasViewerId(viewers: seq<Viewer>, id: SessionId)
  {
    exists i :: 0 <= i < |viewers| && viewers[i].id == id
  }

  /** `search(sessionId)` with lodash's `find`/`findIndex`. */
  function Search(presenters: seq<Presenter>, viewers: seq<Viewer>, id: SessionId): (r: SearchResult)
    ensures r.isPresenter <==> HasPresenterId(presenters, id)
    ensures r.isViewer <==> HasViewerId(viewers, id)
    ensures r.isPresenter ==> FirstPresenterWithId(presenters, id, r.presenterIndex)
    ensures r.isViewer ==> FirstViewerWithId(viewers, id, r.viewerIndex)
    ensures !r.isPresenter ==> r.presenterIndex == -1
    ensures !r.isViewer ==> r.viewerIndex == -1
  {
    var pi := FindIndex(presenters, (o: Presenter) => o.id == id);
    var vi := FindIndex(viewers, (o: Viewer) => o.id == id);
    SearchResult(pi != -1, vi != -1, pi, vi)
  }

  /** `getPresenterIndex(room)`: the first presenter registered for `room`, or -1. */
  function RoomIndex(presenters: seq<Presenter>, room: string): (i: int)
    ensures -1 <= i < |presenters|
    ensures 0 <= i ==> presenters[i].room == room && forall j :: 0 <= j < i ==> presenters[j].room != room
    ensures i == -1 <==> forall j :: 0 <= j < |presenters| ==> presenters[j].room != room
  {
    FindIndex(presenters, (o: Presenter) => o.room == room)
  }

  datatype RoomState = RoomState(
    presenters: seq<Presenter>, viewers: seq<Viewer>, queues: Queues<SessionId>,
    kurentoClient: Option<Client>, log: seq<Effect>)

  datatype StopResult = StopResult(state: RoomState, threw: bool)

  /** The bare `stopCommunication` messages of `stop`'s loop: one per viewer that has a socket, in array order. */
  function StopNotices(viewers: seq<Viewer>): (notices: seq<Effect>)
    ensures |notices| <= |viewers|
  {
    if viewers == [] then []
    else
      var last := viewers[|viewers| - 1];
      StopNotices(viewers[..|viewers| - 1])
        + (if last.ws.Some? then [Sent(last.ws.value, StopCommunication(None))] else [])
  }

  predicate Extends(log: seq<Effect>, before: seq<Effect>)
  {
    |before| <= |log| && log[..|before|] == before
  }

  /** The end of `stop`: with both arrays empty, close the cached client (if any) and forget it. */
  function CloseIfIdle(s: RoomState): (r: RoomState)
    ensures r.presenters == s.presenters && r.viewers == s.viewers && r.queues == s.queues
    ensures Extends(r.log, s.log)
    ensures s.presenters == [] && s.viewers == [] ==> r.kurentoClient == None
    ensures s.presenters == [] && s.viewers == [] && s.kurentoClient.Some? ==>
      r.log == s.log + [ClientClosed(s.kurentoClient.value)]
    ensures s.presenters == [] && s.viewers == [] && s.kurentoClient.None? ==> r.log == s.log
    ensures !(s.presenters == [] && s.viewers == []) ==> r == s
  {
    if |s.viewers| == 0 && |s.presenters| == 0 then
      s.(kurentoClient := None,
         log := s.log + (if s.kurentoClient.Some? then [ClientClosed(s.kurentoClient.value)] else []))
    else s
  }

  /**
   * The presenter branch of `stop`: the socket-holding viewers are told, the
   * pipeline of the presenter at `i` is released and every viewer entry is
   * dropped; the presenter entry itself stays.
   */
  function DropViewersOf(s: RoomState, i: nat): (r: RoomState)
    requires i < |s.presenters|
    ensures r.presenters == s.presenters && r.viewers == []
    ensures r.queues == s.queues && r.kurentoClient == s.kurentoClient
    ensures Extends(r.log, s.log)
  {
    s.(log := s.log + StopNotices(s.viewers) + [Released(s.presenters[i].pipeline)], viewers := [])
  }

  /** The viewer branch of `stop`. */
  function DropViewer(s: RoomState, i: nat): (r: RoomState)
    requires i < |s.viewers|
    ensures r.presenters == s.presenters && r.viewers == RemoveAt(s.viewers, i)
    ensures r.queues == s.queues && r.kurentoClient == s.kurentoClient
    ensures r.log == s.log + [EndpointReleased(s.viewers[i].webRtcEndpoint)]
  {
    s.(log := s.log + [EndpointReleased(s.viewers[i].webRtcEndpoint)], viewers := RemoveAt(s.viewers, i))
  }

  function WithoutQueue(s: RoomState, id: SessionId): RoomState
  {
    s.(queues := Cleared(s.queues, id))
  }

  /**
   * `stop(sessionId)`.  No branch removes a presenter, so `presenters` never
   * changes, and the client is reset only while no presenter was ever
   * registered.  A session that is both presenter and viewer throws in the
   * viewer branch, as in app.js.
   */
  function StopCascade(s: RoomState, id: SessionId): (r: StopResult)
    ensures r.state.presenters == s.presenters
    ensures r.threw <==> HasPresenterId(s.presenters, id) && HasViewerId(s.viewers, id)
    ensures r.threw ==> r.state.queues == s.queues && r.state.viewers == []
    ensures !r.threw ==> r.state.queues.Keys == s.queues.Keys - {id} && Waiting(r.state.queues, id) == []
    ensures s.presenters != [] ==> r.state.kurentoClient == s.kurentoClient
    ensures Extends(r.state.log, s.log)
  {
    var found := Search(s.presenters, s.viewers, id);
    var afterPresenter := if found.isPresenter then DropViewersOf(s, found.presenterIndex) else s;
    if found.isViewer && found.viewerIndex >= |afterPresenter.viewers| then
      StopResult(afterPresenter, true)
    else
      var afterViewer := if found.isViewer then DropViewer(afterPresenter, found.viewerIndex) else afterPresenter;
      StopResult(CloseIfIdle(WithoutQueue(afterViewer, id)), false)
  }

  datatype Route = ToEndpoint(endpoint: Endpoint) | ToQueue

  /** `onIceCandidate`'s choice: the first presenter entry's endpoint, else the first viewer entry's, else the queue. */
  function IceRoute(presenters: seq<Presenter>, viewers: seq<Viewer>, id: SessionId): (r: Route)
    ensures r.ToQueue? <==> !HasPresenterId(presenters, id) && !HasViewerId(viewers, id)
    ensures r.ToEndpoint? && HasPresenterId(presenters, id) ==>
      exists i :: FirstPresenterWithId(presenters, id, i) && presenters[i].webRtcEndpoint == r.endpoint
    ensures r.ToEndpoint? && !HasPresenterId(presenters, id) ==>
      exists i :: FirstViewerWithId(viewers, id, i) && viewers[i].webRtcEndpoint == r.endpoint
  {
    var found := Search(presenters, viewers, id);
    if found.isPresenter then ToEndpoint(presenters[found.presenterIndex].webRtcEndpoint)
    else if found.isViewer then ToEndpoint(viewers[found.viewerIndex].webRtcEndpoint)
    else ToQueue
  }

  /** The TypeError `stop` throws when it reads the endpoint of a viewer entry that is gone. */
  const ReadEndpointError := Error("TypeError", "Cannot read properties of undefined (reading 'webRtcEndpoint')")

  datatype PresenterDraft = PresenterDraft(id: SessionId, ws: Socket, sdpOffer: Sdp, room: string)

  /** The engine call `startPresenter` is waiting for. */
  datatype PresenterAwait =
    | PresenterClient(draft: PresenterDraft)
    | PresenterPipeline(draft: PresenterDraft, client: Client)
    | PresenterEndpoint(draft: PresenterDraft, pipeline: Pipeline)
    | RecorderCreation(draft: PresenterDraft, pipeline: Pipeline, endpoint: Endpoint)
    | RecorderConnection(draft: PresenterDraft, pipeline: Pipeline, endpoint: Endpoint, recorder: Endpoint)
    | RecorderRecord(draft: PresenterDraft, pipeline: Pipeline, endpoint: Endpoint, recorder: Endpoint)
    | PresenterAnswer(draft: PresenterDraft, endpoint: Endpoint)
    | PresenterGather(draft: PresenterDraft, endpoint: Endpoint, sdpAnswer: Sdp)

  datatype ViewerDraft = ViewerDraft(id: SessionId, ws: Socket, sdpOffer: Sdp, room: string)

  /** The engine call `startViewer` is waiting for. */
  datatype ViewerAwait =
    | ViewerEndpoint(draft: ViewerDraft, pipeline: Pipeline)
    | PresenterToViewer(draft: ViewerDraft, endpoint: Endpoint, presenterEndpoint: Endpoint)
    | ViewerToPresenter(draft: ViewerDraft, endpoint: Endpoint, presenterEndpoint: Endpoint)
    | ViewerAnswer(draft: ViewerDraft, endpoint: Endpoint)
    | ViewerGather(draft: ViewerDraft, endpoint: Endpoint, sdpAnswer: Sdp)

  class Server {
    const engine: MediaEngine
    const buffer: CandidateBuffer<SessionId>
    const wsUri: string
    var idCounter: nat
    var presenters: seq<Presenter>
    var viewers: seq<Viewer>
    var kurentoClient: Option<Client>
    var noMediaServerMessage: string

    ghost function Snapshot(): RoomState
      reads this, engine, buffer
    {
      RoomState(presenters, viewers, buffer.queues, kurentoClient, engine.log)
    }

    constructor (wsUri: string)
      ensures this.wsUri == wsUri && fresh(engine) && fresh(buffer) && engine != buffer as object
      ensures idCounter == 0 && presenters == [] && viewers == [] && kurentoClient == None
      ensures noMediaServerMessage == NoMediaServerText
      ensures engine.log == [] && buffer.queues == map[]
    {
      this.wsUri := wsUri;
      engine := new MediaEngine();
      buffer := new CandidateBuffer();
      idCounter := 0;
      presenters := [];
      viewers := [];
      kurentoClient := None;
      noMediaServerMessage := NoMediaServerText;
    }

    /** `nextUniqueId()`: the counter's next value, as text; a connection's session id. */
    method NextUniqueId() returns (id: SessionId)
      modifies this`idCounter
      ensures idCounter == old(idCounter) + 1
      ensures id == SessionIds.DecimalString(idCounter)
    {
      idCounter := idCounter + 1;
      id := SessionIds.DecimalString(idCounter);
    }

    /** `stop`'s presenter branch on the presenter at `i`. */
    method DropViewersOfAt(i: nat)
      requires i < |presenters|
      modifies this`viewers, engine
      ensures Snapshot() == DropViewersOf(old(Snapshot()), i)
    {
      for k := 0 to |viewers|
        modifies engine
        invariant engine.log == old(engine.log) + StopNotices(viewers[..k])
      {
        var viewer := viewers[k];
        if viewer.ws.Some? {
          engine.Send(viewer.ws.value, StopCommunication(None));
        }
        assert viewers[..k + 1][..k] == viewers[..k];
      }
      assert viewers[..|viewers|] == viewers;
      engine.Release(presenters[i].pipeline);
      while |viewers| > 0
        modifies this`viewers
        decreases |viewers|
      {
        viewers := viewers[1..];
      }
    }

    /** `stop`'s viewer branch on the viewer at `i`. */
    method DropViewerAt(i: nat)
      requires i < |viewers|
      modifies this`viewers, engine
      ensures Snapshot() == DropViewer(old(Snapshot()), i)
    {
      engine.ReleaseEndpoint(viewers[i].webRtcEndpoint);
      viewers := RemoveAt(viewers, i);
    }

    /** The end of `stop`. */
    method CloseClientIfIdle()
      modifies this`kurentoClient, engine
      ensures Snapshot() == CloseIfIdle(old(Snapshot()))
    {
      if |viewers| == 0 && |presenters| == 0 {
        if kurentoClient.Some? {
          engine.Close(kurentoClient.value);
        }
        kurentoClient := None;
      }
    }

    /** `stop(sessionId)`; it never writes `presenters`. */
    method Stop(sessionId: SessionId) returns (threw: bool)
      requires engine != buffer as object
      modifies this`viewers, this`kurentoClient, buffer, engine
      ensures Snapshot() == StopCascade(old(Snapshot()), sessionId).state
      ensures threw == StopCascade(old(Snapshot()), sessionId).threw
    {
      ghost var before := Snapshot();
      var found := Search(presenters, viewers, sessionId);
      assert found == Search(before.presenters, before.viewers, sessionId);
      if found.isPresenter {
        DropViewersOfAt(found.presenterIndex);
      }
      ghost var afterPresenter := Snapshot();
      assert afterPresenter == if found.isPresenter then DropViewersOf(before, found.presenterIndex) else before;
      if found.isViewer {
        if found.viewerIndex >= |viewers| {
          return true;
        }
        DropViewerAt(found.viewerIndex);
      }
      ghost var afterViewer := Snapshot();
      assert afterViewer == if found.isViewer then DropViewer(afterPresenter, found.viewerIndex) else afterPresenter;
      buffer.Clear(sessionId);
      assert Snapshot() == WithoutQueue(afterViewer, sessionId);
      CloseClientIfIdle();
      threw := false;
    }

    /** `onIceCandidate(sessionId, candidate)`. */
    method OnIceCandidate(sessionId: SessionId, candidate: Candidate)
      requires engine != buffer as object
      modifies buffer, engine
      ensures IceRoute(presenters, viewers, sessionId).ToEndpoint? ==>
        && engine.log == old(engine.log) + [CandidateAdded(IceRoute(presenters, viewers, sessionId).endpoint, candidate)]
        && buffer.queues == old(buffer.queues)
      ensures IceRoute(presenters, viewers, sessionId).ToQueue? ==>
        && buffer.queues == Enqueued(old(buffer.queues), sessionId, candidate)
        && engine.log == old(engine.log)
    {
      var found := Search(presenters, viewers, sessionId);
      if found.isPresenter {
        engine.AddIceCandidate(presenters[found.presenterIndex].webRtcEndpoint, candidate);
      } else if found.isViewer {
        engine.AddIceCandidate(viewers[found.viewerIndex].webRtcEndpoint, candidate);
      } else {
        buffer.Enqueue(sessionId, candidate);
      }
    }

    /**
     * `startPresenter` up to its first await.  The queue is deleted; an empty
     * room is refused with the missing `ROOM_NOT_FOUND`; a session that already
     * presents is stopped and refused with `PRESENTER_EXISTS` (or with the
     * TypeError that `stop` throws).  Another session's room is not checked.
     */
    method StartPresenter(sessionId: SessionId, ws: Socket, sdpOffer: Sdp, room: string) returns (p: Progress<PresenterAwait, Sdp>)
      requires engine != buffer as object
      modifies this`viewers, this`kurentoClient, buffer, engine
      ensures room == "" ==> p == Failed(Undefined) && Snapshot() == WithoutQueue(old(Snapshot()), sessionId)
      ensures room != "" && HasPresenterId(presenters, sessionId) ==>
        var st := StopCascade(WithoutQueue(old(Snapshot()), sessionId), sessionId);
        && Snapshot() == st.state
        && p == if st.threw then Failed(ReadEndpointError) else Failed(PresenterExists)
      ensures room != "" && !HasPresenterId(presenters, sessionId) ==>
        && Snapshot() == WithoutQueue(old(Snapshot()), sessionId)
        && var d := PresenterDraft(sessionId, ws, sdpOffer, room);
           p == if kurentoClient.Some? then Pending(PresenterPipeline(d, kurentoClient.value))
                else Pending(PresenterClient(d))
    {
      buffer.Clear(sessionId);
      if room == "" {
        return Failed(Undefined);
      }
      var found := Search(presenters, viewers, sessionId);
      if found.presenterIndex != -1 {
        var threw := Stop(sessionId);
        return if threw then Failed(ReadEndpointError) else Failed(PresenterExists);
      }
      var d := PresenterDraft(sessionId, ws, sdpOffer, room);
      if kurentoClient.Some? {
        p := Pending(PresenterPipeline(d, kurentoClient.value));
      } else {
        p := Pending(PresenterClient(d));
      }
    }

    /** `getKurentoCLient` answered: the client is not stored; a failure extends `NO_MEDIA_SERVER`'s message. */
    method PresenterClientReady(d: PresenterDraft, r: Outcome<Client>) returns (p: Progress<PresenterAwait, Sdp>)
      modifies this`noMediaServerMessage
      ensures r.Success? ==> p == Pending(PresenterPipeline(d, r.value)) && noMediaServerMessage == old(noMediaServerMessage)
      ensures r.Failure? ==>
        && noMediaServerMessage == NoMediaServerGrown(old(noMediaServerMessage), wsUri, r.fault)
        && p == Failed(Error("NO_MEDIA_SERVER", noMediaServerMessage))
    {
      match r
      case Success(client) =>
        p := Pending(PresenterPipeline(d, client));
      case Failure(f) =>
        noMediaServerMessage := NoMediaServerGrown(noMediaServerMessage, wsUri, f);
        p := Failed(Error("NO_MEDIA_SERVER", noMediaServerMessage));
    }

    /** `kurentoClientCreate` answered; the missing `KURENTO_CLIENT_CREATE` makes a failure throw in the callback. */
    method PresenterPipelineReady(d: PresenterDraft, r: Outcome<Pipeline>) returns (p: Progress<PresenterAwait, Sdp>)
      ensures r.Success? ==> p == Pending(PresenterEndpoint(d, r.value))
      ensures r.Failure? ==> p == Hung
    {
      p := if r.Success? then Pending(PresenterEndpoint(d, r.value)) else Hung;
    }

    /** The presenter's endpoint answered: a failure releases the pipeline; a success drains the queue into it. */
    method PresenterEndpointReady(d: PresenterDraft, pipeline: Pipeline, r: Outcome<Endpoint>) returns (p: Progress<PresenterAwait, Sdp>)
      requires engine != buffer as object
      modifies buffer, engine
      ensures r.Failure? ==>
        && p == Failed(Raw(r.fault))
        && engine.log == old(engine.log) + [Released(pipeline)] && buffer.queues == old(buffer.queues)
      ensures r.Success? ==>
        && p == Pending(RecorderCreation(d, pipeline, r.value))
        && engine.log == old(engine.log) + Deliveries(r.value, Waiting(old(buffer.queues), d.id))
        && buffer.queues == Drained(old(buffer.queues), d.id)
    {
      match r
      case Failure(f) =>
        engine.Release(pipeline);
        p := Failed(Raw(f));
      case Success(endpoint) =>
        buffer.DrainInto(d.id, endpoint, engine);
        p := Pending(RecorderCreation(d, pipeline, endpoint));
    }

    /** The recorder answered: a failure releases the pipeline. */
    method RecorderReady(d: PresenterDraft, pipeline: Pipeline, endpoint: Endpoint, r: Outcome<Endpoint>) returns (p: Progress<PresenterAwait, Sdp>)
      modifies engine
      ensures r.Failure? ==>
        p == Failed(Templated("CREATE_MEDIA_ELEMENTS", r.fault)) && engine.log == old(engine.log) + [Released(pipeline)]
      ensures r.Success? ==> p == Pending(RecorderConnection(d, pipeline, endpoint, r.value)) && engine.log == old(engine.log)
    {
      if r.Failure? {
        engine.Release(pipeline);
        p := Failed(Templated("CREATE_MEDIA_ELEMENTS", r.fault));
      } else {
        p := Pending(RecorderConnection(d, pipeline, endpoint, r.value));
      }
    }

    /** The endpoint's `connect(recorder)` answered: a failure releases the pipeline. */
    method RecorderConnected(d: PresenterDraft, pipeline: Pipeline, endpoint: Endpoint, recorder: Endpoint, r: Outcome<()>)
      returns (p: Progress<PresenterAwait, Sdp>)
      modifies engine
      ensures r.Failure? ==>
        p == Failed(Templated("CONNECT_MEDIA_ELEMENTS", r.fault)) && engine.log == old(engine.log) + [Released(pipeline)]
      ensures r.Success? ==> p == Pending(RecorderRecord(d, pipeline, endpoint, recorder)) && engine.log == old(engine.log)
    {
      if r.Failure? {
        engine.Release(pipeline);
        p := Failed(Templated("CONNECT_MEDIA_ELEMENTS", r.fault));
      } else {
        p := Pending(RecorderRecord(d, pipeline, endpoint, recorder));
      }
    }

    /**
     * `recorder.record()` answered: a failure releases the pipeline; on success,
     * and only then, the presenter is pushed, before its offer is processed.
     */
    method RecordingStarted(d: PresenterDraft, pipeline: Pipeline, endpoint: Endpoint, r: Outcome<()>) returns (p: Progress<PresenterAwait, Sdp>)
      modifies this`presenters, engine
      ensures r.Failure? ==>
        && p == Failed(Templated("RECORD_MEDIA_ELEMENT", r.fault))
        && engine.log == old(engine.log) + [Released(pipeline)] && presenters == old(presenters)
      ensures r.Success? ==>
        && p == Pending(PresenterAnswer(d, endpoint))
        && presenters == old(presenters) + [Presenter(d.id, pipeline, endpoint, d.room)]
        && engine.log == old(engine.log)
    {
      if r.Failure? {
        engine.Release(pipeline);
        p := Failed(Templated("RECORD_MEDIA_ELEMENT", r.fault));
      } else {
        presenters := presenters + [Presenter(d.id, pipeline, endpoint, d.room)];
        p := Pending(PresenterAnswer(d, endpoint));
      }
    }

    /** `processOffer` answered for the presenter. */
    method PresenterAnswerReady(d: PresenterDraft, endpoint: Endpoint, r: Outcome<Sdp>) returns (p: Progress<PresenterAwait, Sdp>)
      ensures r.Success? ==> p == Pending(PresenterGather(d, endpoint, r.value))
      ensures r.Failure? ==> p == Failed(Templated("PROCESS_OFFER", r.fault))
    {
      p := if r.Success? then Pending(PresenterGather(d, endpoint, r.value)) else Failed(Templated("PROCESS_OFFER", r.fault));
    }

    /** `gatherCandidates` answered for the presenter. */
    method PresenterGathered(sdpAnswer: Sdp, r: Outcome<()>) returns (p: Progress<PresenterAwait, Sdp>)
      ensures r.Success? ==> p == Fulfilled(sdpAnswer)
      ensures r.Failure? ==> p == Failed(Templated("GATHER_CANDIDATES", r.fault))
    {
      p := if r.Success? then Fulfilled(sdpAnswer) else Failed(Templated("GATHER_CANDIDATES", r.fault));
    }

    /** The `presenter` case's `.then`/`.catch`: a rejection runs `stop`, then sends the optional-chained text unless `stop` threw. */
    method SettlePresenter(sessionId: SessionId, ws: Socket, p: Progress<PresenterAwait, Sdp>)
      requires !p.Pending?
      requires engine != buffer as object
      modifies this`viewers, this`kurentoClient, buffer, engine
      ensures p.Fulfilled? ==>
        Snapshot() == old(Snapshot()).(log := old(engine.log) + [Sent(ws, PresenterResponse(Accepted(p.value)))])
      ensures p.Failed? ==>
        var st := StopCascade(old(Snapshot()), sessionId);
        Snapshot() == if st.threw then st.state
                      else st.state.(log := st.state.log + [Sent(ws, PresenterResponse(Rejected(OptionalChainText(p.reason))))])
      ensures p.Hung? ==> Snapshot() == old(Snapshot())
    {
      match p
      case Fulfilled(sdpAnswer) =>
        engine.Send(ws, PresenterResponse(Accepted(sdpAnswer)));
      case Failed(reason) =>
        var threw := Stop(sessionId);
        if !threw {
          engine.Send(ws, PresenterResponse(Rejected(OptionalChainText(reason))));
        }
      case Hung =>
    }

    /** `startViewer` up to its first await. */
    method StartViewer(sessionId: SessionId, ws: Socket, sdpOffer: Sdp, room: string) returns (p: Progress<ViewerAwait, Sdp>)
      modifies buffer
      ensures buffer.queues == Cleared(old(buffer.queues), sessionId)
      ensures RoomIndex(presenters, room) == -1 ==> p == Failed(PresenterNotFound)
      ensures RoomIndex(presenters, room) != -1 ==>
        p == Pending(ViewerEndpoint(ViewerDraft(sessionId, ws, sdpOffer, room), presenters[RoomIndex(presenters, room)].pipeline))
    {
      buffer.Clear(sessionId);
      var index := RoomIndex(presenters, room);
      if index == -1 {
        return Failed(PresenterNotFound);
      }
      p := Pending(ViewerEndpoint(ViewerDraft(sessionId, ws, sdpOffer, room), presenters[index].pipeline));
    }

    /** The viewer's endpoint answered: a failure releases the presenter's pipeline it was created on. */
    method ViewerEndpointReady(d: ViewerDraft, pipeline: Pipeline, r: Outcome<Endpoint>) returns (p: Progress<ViewerAwait, Sdp>)
      requires engine != buffer as object
      modifies buffer, engine
      ensures r.Failure? ==>
        && p == Failed(Raw(r.fault))
        && engine.log == old(engine.log) + [Released(pipeline)] && buffer.queues == old(buffer.queues)
      ensures r.Success? ==>
        && engine.log == old(engine.log) + Deliveries(r.value, Waiting(old(buffer.queues), d.id))
        && buffer.queues == Drained(old(buffer.queues), d.id)
        && (RoomIndex(presenters, d.room) == -1 ==> p == Failed(PresenterNotFound))
        && (RoomIndex(presenters, d.room) != -1 ==>
              p == Pending(PresenterToViewer(d, r.value, presenters[RoomIndex(presenters, d.room)].webRtcEndpoint)))
    {
      match r
      case Failure(f) =>
        engine.Release(pipeline);
        p := Failed(Raw(f));
      case Success(endpoint) =>
        buffer.DrainInto(d.id, endpoint, engine);
        var index := RoomIndex(presenters, d.room);
        if index == -1 {
          p := Failed(PresenterNotFound);
        } else {
          p := Pending(PresenterToViewer(d, endpoint, presenters[index].webRtcEndpoint));
        }
    }

    /** `connectPresenterToViewer` answered; the presenter is looked up again for the reverse connect. */
    method PresenterToViewerConnected(d: ViewerDraft, endpoint: Endpoint, r: Outcome<()>) returns (p: Progress<ViewerAwait, Sdp>)
      ensures r.Failure? ==> p == Failed(Templated("CONNECT_TO_PRESENTER", r.fault))
      ensures r.Success? && RoomIndex(presenters, d.room) == -1 ==> p == Failed(PresenterNotFound)
      ensures r.Success? && RoomIndex(presenters, d.room) != -1 ==>
        p == Pending(ViewerToPresenter(d, endpoint, presenters[RoomIndex(presenters, d.room)].webRtcEndpoint))
    {
      if r.Failure? {
        return Failed(Templated("CONNECT_TO_PRESENTER", r.fault));
      }
      var index := RoomIndex(presenters, d.room);
      if index == -1 {
        p := Failed(PresenterNotFound);
      } else {
        p := Pending(ViewerToPresenter(d, endpoint, presenters[index].webRtcEndpoint));
      }
    }

    /** `connectViewerToPresenter` answered. */
    method ViewerToPresenterConnected(d: ViewerDraft, endpoint: Endpoint, r: Outcome<()>) returns (p: Progress<ViewerAwait, Sdp>)
      ensures r.Failure? ==> p == Failed(Templated("CONNECT_TO_PRESENTER", r.fault))
      ensures r.Success? ==> p == Pending(ViewerAnswer(d, endpoint))
    {
      p := if r.Failure? then Failed(Templated("CONNECT_TO_PRESENTER", r.fault)) else Pending(ViewerAnswer(d, endpoint));
    }

    /** `processOffer` answered for the viewer. */
    method ViewerAnswerReady(d: ViewerDraft, endpoint: Endpoint, r: Outcome<Sdp>) returns (p: Progress<ViewerAwait, Sdp>)
      ensures r.Success? ==> p == Pending(ViewerGather(d, endpoint, r.value))
      ensures r.Failure? ==> p == Failed(Templated("PROCESS_OFFER", r.fault))
    {
      p := if r.Success? then Pending(ViewerGather(d, endpoint, r.value)) else Failed(Templated("PROCESS_OFFER", r.fault));
    }

    /** `gatherCandidates` answered for the viewer: only now is the viewer appended, without a socket. */
    method ViewerGathered(d: ViewerDraft, endpoint: Endpoint, sdpAnswer: Sdp, r: Outcome<()>) returns (p: Progress<ViewerAwait, Sdp>)
      modifies this`viewers
      ensures r.Success? ==> p == Fulfilled(sdpAnswer) && viewers == old(viewers) + [Viewer(d.id, endpoint, d.room, None)]
      ensures r.Failure? ==> p == Failed(Templated("GATHER_CANDIDATES", r.fault)) && viewers == old(viewers)
    {
      if r.Failure? {
        return Failed(Templated("GATHER_CANDIDATES", r.fault));
      }
      viewers := viewers + [Viewer(d.id, endpoint, d.room, None)];
      p := Fulfilled(sdpAnswer);
    }

    /** The `viewer` case's `.then`/`.catch`: `stop`, then `error.name`, which throws on `undefined`. */
    method SettleViewer(sessionId: SessionId, ws: Socket, p: Progress<ViewerAwait, Sdp>)
      requires !p.Pending?
      requires engine != buffer as object
      modifies this`viewers, this`kurentoClient, buffer, engine
      ensures p.Fulfilled? ==>
        Snapshot() == old(Snapshot()).(log := old(engine.log) + [Sent(ws, ViewerResponse(Accepted(p.value)))])
      ensures p.Failed? ==>
        var st := StopCascade(old(Snapshot()), sessionId);
        Snapshot() == if st.threw || p.reason.Undefined? then st.state
                      else st.state.(log := st.state.log + [Sent(ws, ViewerResponse(Rejected(p.reason.name + ": " + p.reason.message)))])
      ensures p.Hung? ==> Snapshot() == old(Snapshot())
    {
      match p
      case Fulfilled(sdpAnswer) =>
        engine.Send(ws, ViewerResponse(Accepted(sdpAnswer)));
      case Failed(reason) =>
        var threw := Stop(sessionId);
        if !threw && reason.Error? {
          engine.Send(ws, ViewerResponse(Rejected(reason.name + ": " + reason.message)));
        }
      case Hung =>
    }

    /** The `default` case. */
    method RejectUnknown(ws: Socket)
      modifies engine
      ensures engine.log == old(engine.log) + [Sent(ws, ErrorEvent("Invalid message [object Object]"))]
    {
      engine.Send(ws, ErrorEvent("Invalid message [object Object]"));
    }
  }
}
