/**
 * The room-keyed one-to-many server (kurento-one2many-call/app.js): a
 * `presenters` array and a `viewers` array of session records, the shared
 * candidate queues and the media-engine client, changed in place by the
 * message handlers.  Every `start*` handler is cut at its engine awaits into a
 * first step and one continuation per await, so that other messages (a `stop`,
 * a candidate, another session's steps) can be run in between.
 */
module One2ManyApp {
  import opened Engine
  import opened Lookup
  import opened Candidates
  import opened One2ManyErrors
  import SessionIds

  /** The decimal text `nextUniqueId` hands out. */
  type SessionId = string

  /** `argv.ws_uri` when no command line option overrides it. */
  const DefaultWsUri := "ws://siruntu.irhams.xyz:8888/kurento"

  /**
   * A registered presenter.  `obj` is the identity of the JavaScript object, so
   * that a write through a reference taken before an await reaches exactly the
   * object it names, wherever (and whether) it still sits in the array.
   */
  datatype Presenter = Presenter(
    obj: nat, id: SessionId, pipeline: Pipeline, webRtcEndpoint: Endpoint,
    recorderEndpoint: Option<Endpoint>, isRecording: bool, room: string, ws: Socket)

  datatype Viewer = Viewer(id: SessionId, webRtcEndpoint: Endpoint, room: string, ws: Socket)

  /** `ws.role`, set once a negotiation has succeeded. */
  datatype Role = PresenterRole | ViewerRole

  /** The object `search` returns. */
  datatype SearchResult = SearchResult(isPresenter: bool, isViewer: bool, presenterIndex: int, viewerIndex: int)

  /** Whether `i` is the first presenter position holding `id`. */
  predicate FirstPresenterWithId(presenters: seq<Presenter>, id: SessionId, i: int)
  {
    0 <= i < |presenters| && presenters[i].id == id && forall j :: 0 <= j < i ==> presenters[j].id != id
  }

  predicate FirstViewerWithId(viewers: seq<Viewer>, id: SessionId, i: int)
  {
    0 <= i < |viewers| && viewers[i].id == id && forall j :: 0 <= j < i ==> viewers[j].id != id
  }

  predicate HasPresenterId(presenters: seq<Presenter>, id: SessionId)
  {
    exists i :: 0 <= i < |presenters| && presenters[i].id == id
  }

  predicate HasViewerId(viewers: seq<Viewer>, id: SessionId)
  {
    exists i :: 0 <= i < |viewers| && viewers[i].id == id
  }

  /** `search(sessionId)`: whether and where the session occurs in each array. */
  function Search(presenters: seq<Presenter>, viewers: seq<Viewer>, id: SessionId): (r: SearchResult)
    ensures r.isPresenter <==> HasPresenterId(presenters, id)
    ensures r.isViewer <==> HasViewerId(viewers, id)
    ensures r.isPresenter ==> FirstPresenterWithId(presenters, id, r.presenterIndex)
    ensures r.isViewer ==> FirstViewerWithId(viewers, id, r.viewerIndex)
    ensures !r.isPresenter ==> r.presenterIndex == -1
    ensures !r.isViewer ==> r.viewerIndex == -1
  {
    var pi := FindIndex(presenters, (o: Presenter) => o.id == id);
    var vi := FindIndex(viewers, (o: Viewer) => o.id == id);
    SearchResult(pi != -1, vi != -1, pi, vi)
  }

  /** `getPresenterIndex(room)`: the first presenter registered for `room`, or -1. */
  function RoomIndex(presenters: seq<Presenter>, room: string): (i: int)
    ensures -1 <= i < |presenters|
    ensures 0 <= i ==> presenters[i].room == room && forall j :: 0 <= j < i ==> presenters[j].room != room
    ensures i == -1 <==> forall j :: 0 <= j < |presenters| ==> presenters[j].room != room
  {
    FindIndex(presenters, (o: Presenter) => o.room == room)
  }

  /** The registry, the candidate queues, the cached client and the engine log at one moment. */
  datatype AppState = AppState(
    presenters: seq<Presenter>, viewers: seq<Viewer>, queues: Queues<SessionId>,
    kurentoClient: Option<Client>, log: seq<Effect>)

  /** The state `stop` leaves, and whether it threw part-way. */
  datatype StopResult = StopResult(state: AppState, threw: bool)

  /** The `stopCommunication{room}` messages `stop`'s loop sends: one per viewer of `room`, in array order. */
  function StopNotices(viewers: seq<Viewer>, room: string): (notices: seq<Effect>)
    ensures |notices| <= |viewers|
  {
    if viewers == [] then []
    else
      var last := viewers[|viewers| - 1];
      StopNotices(viewers[..|viewers| - 1], room)
        + (if last.room == room then [Sent(last.ws, StopCommunication(Some(room)))] else [])
  }

  /** The end of `stop`: with both arrays empty, close the cached client (if any) and forget it. */
  function CloseIfIdle(s: AppState): (r: AppState)
    ensures r.presenters == s.presenters && r.viewers == s.viewers && r.queues == s.queues
    ensures Extends(r.log, s.log)
    ensures s.presenters == [] && s.viewers == [] ==> r.kurentoClient == None
    ensures s.presenters == [] && s.viewers == [] && s.kurentoClient.Some? ==>
      r.log == s.log + [ClientClosed(s.kurentoClient.value)]
    ensures s.presenters == [] && s.viewers == [] && s.kurentoClient.None? ==> r.log == s.log
    ensures !(s.presenters == [] && s.viewers == []) ==> r == s
  {
    if |s.viewers| == 0 && |s.presenters| == 0 then
      s.(kurentoClient := None,
         log := s.log + (if s.kurentoClient.Some? then [ClientClosed(s.kurentoClient.value)] else []))
    else s
  }

  /** Whether `log` is `before` followed by further effects. */
  predicate Extends(log: seq<Effect>, before: seq<Effect>)
  {
    |before| <= |log| && log[..|before|] == before
  }

  /**
   * The presenter branch of `stop`: every viewer of the presenter's room is
   * told, the pipeline is released, the whole `viewers` array is emptied and
   * the presenter at `i` is spliced out.
   */
  function DropPresenter(s: AppState, i: nat): (r: AppState)
    requires i < |s.presenters|
    ensures r.presenters == RemoveAt(s.presenters, i) && r.viewers == []
    ensures r.queues == s.queues && r.kurentoClient == s.kurentoClient
    ensures Extends(r.log, s.log)
  {
    var p := s.presenters[i];
    s.(log := s.log + StopNotices(s.viewers, p.room) + [Released(p.pipeline)],
       viewers := [],
       presenters := RemoveAt(s.presenters, i))
  }

  /** The viewer branch of `stop`: the viewer's endpoint is released and its entry spliced out. */
  function DropViewer(s: AppState, i: nat): (r: AppState)
    requires i < |s.viewers|
    ensures r.presenters == s.presenters && r.viewers == RemoveAt(s.viewers, i)
    ensures r.queues == s.queues && r.kurentoClient == s.kurentoClient
    ensures r.log == s.log + [EndpointReleased(s.viewers[i].webRtcEndpoint)]
  {
    s.(log := s.log + [EndpointReleased(s.viewers[i].webRtcEndpoint)], viewers := RemoveAt(s.viewers, i))
  }

  /** `clearCandidatesQueue(sessionId)` on a state. */
  function WithoutQueue(s: AppState, id: SessionId): AppState
  {
    s.(queues := Cleared(s.queues, id))
  }

  /**
   * The two branches of `stop(sessionId)`: the presenter branch, then the
   * viewer branch.  A session that is both reaches the viewer branch with
   * `viewers` already empty, and reading `viewers[viewerIndex].webRtcEndpoint`
   * throws.
   */
  function StopBranches(s: AppState, id: SessionId): (r: StopResult)
    ensures r.threw <==> HasPresenterId(s.presenters, id) && HasViewerId(s.viewers, id)
    ensures r.threw ==> r.state.viewers == []
    ensures r.state.queues == s.queues && r.state.kurentoClient == s.kurentoClient
    ensures Extends(r.state.log, s.log)
  {
    var found := Search(s.presenters, s.viewers, id);
    var afterPresenter := if found.isPresenter then DropPresenter(s, found.presenterIndex) else s;
    if found.isViewer && found.viewerIndex >= |afterPresenter.viewers| then
      StopResult(afterPresenter, true)
    else
      StopResult(if found.isViewer then DropViewer(afterPresenter, found.viewerIndex) else afterPresenter, false)
  }

  /**
   * `stop(sessionId)`: the two branches, then the queue and the idle client.
   * When a branch throws, the queue is not cleared.
   */
  function StopCascade(s: AppState, id: SessionId): (r: StopResult)
    ensures r.threw <==> HasPresenterId(s.presenters, id) && HasViewerId(s.viewers, id)
    ensures r.threw ==> r.state.queues == s.queues && r.state.viewers == []
    ensures !r.threw ==> r.state.queues.Keys == s.queues.Keys - {id} && Waiting(r.state.queues, id) == []
    ensures !r.threw && r.state.presenters == [] && r.state.viewers == [] ==> r.state.kurentoClient == None
    ensures Extends(r.state.log, s.log)
  {
    var branches := StopBranches(s, id);
    if branches.threw then branches
    else StopResult(CloseIfIdle(WithoutQueue(branches.state, id)), false)
  }

  /** Where `onIceCandidate` sends a candidate. */
  datatype Route = ToEndpoint(endpoint: Endpoint) | ToQueue

  /**
   * `onIceCandidate`'s choice: the endpoint of the first presenter entry of the
   * session, else of its first viewer entry, else its queue.
   */
  function IceRoute(presenters: seq<Presenter>, viewers: seq<Viewer>, id: SessionId): (r: Route)
    ensures r.ToQueue? <==> !HasPresenterId(presenters, id) && !HasViewerId(viewers, id)
    ensures r.ToEndpoint? && HasPresenterId(presenters, id) ==>
      exists i :: FirstPresenterWithId(presenters, id, i) && presenters[i].webRtcEndpoint == r.endpoint
    ensures r.ToEndpoint? && !HasPresenterId(presenters, id) ==>
      exists i :: FirstViewerWithId(viewers, id, i) && viewers[i].webRtcEndpoint == r.endpoint
  {
    var found := Search(presenters, viewers, id);
    if found.isPresenter then ToEndpoint(presenters[found.presenterIndex].webRtcEndpoint)
    else if found.isViewer then ToEndpoint(viewers[found.viewerIndex].webRtcEndpoint)
    else ToQueue
  }

  /** The presenter object `startPresenter` builds before its first await. */
  datatype PresenterDraft = PresenterDraft(obj: nat, id: SessionId, ws: Socket, sdpOffer: Sdp, room: string)

  /** The registry entry a draft becomes once its pipeline and endpoint exist. */
  function Registered(d: PresenterDraft, pipeline: Pipeline, endpoint: Endpoint): (p: Presenter)
    ensures p.obj == d.obj && p.id == d.id && p.room == d.room && p.ws == d.ws
    ensures p.pipeline == pipeline && p.webRtcEndpoint == endpoint
    ensures p.recorderEndpoint == None && !p.isRecording
  {
    Presenter(d.obj, d.id, pipeline, endpoint, None, false, d.room, d.ws)
  }

  /** The engine call `startPresenter` is waiting for. */
  datatype PresenterAwait =
    | PresenterClient(draft: PresenterDraft)
    | PresenterPipeline(draft: PresenterDraft, client: Client)
    | PresenterEndpoint(draft: PresenterDraft, pipeline: Pipeline)
    | PresenterAnswer(draft: PresenterDraft, endpoint: Endpoint)
    | PresenterGather(draft: PresenterDraft, endpoint: Endpoint, sdpAnswer: Sdp)

  /** The viewer object `startViewer` builds before its first await. */
  datatype ViewerDraft = ViewerDraft(id: SessionId, ws: Socket, sdpOffer: Sdp, room: string)

  /** The engine call `startViewer` is waiting for. */
  datatype ViewerAwait =
    | ViewerEndpoint(draft: ViewerDraft, pipeline: Pipeline)
    | PresenterToViewer(draft: ViewerDraft, endpoint: Endpoint, presenterEndpoint: Endpoint)
    | ViewerToPresenter(draft: ViewerDraft, endpoint: Endpoint, presenterEndpoint: Endpoint)
    | ViewerAnswer(draft: ViewerDraft, endpoint: Endpoint)
    | ViewerGather(draft: ViewerDraft, endpoint: Endpoint, sdpAnswer: Sdp)

  /** What `startRecording` read from the presenter before its first await. */
  datatype RecordingTarget = RecordingTarget(obj: nat, pipeline: Pipeline, webRtcEndpoint: Endpoint)

  /** The engine call `startRecording` is waiting for. */
  datatype RecordAwait =
    | RecorderCreation(target: RecordingTarget)
    | RecorderConnection(target: RecordingTarget, recorder: Endpoint)
    | RecorderRecord(target: RecordingTarget, recorder: Endpoint)

  /** What `stopRecording` read before its await, including the array position it writes to afterwards. */
  datatype StopRecordingTarget = StopRecordingTarget(index: nat, pipeline: Pipeline, webRtcEndpoint: Endpoint, recorder: Endpoint)

  /** The engine call `stopRecording` is waiting for. */
  datatype StopRecordAwait =
    | RecorderDisconnection(target: StopRecordingTarget)
    | RecorderStop(target: StopRecordingTarget)

  /** `presenter.recorderEndpoint = recorder` through the reference to object `obj`. */
  function WithRecorder(presenters: seq<Presenter>, obj: nat, recorder: Endpoint): seq<Presenter>
  {
    seq(|presenters|, i requires 0 <= i < |presenters| =>
      if presenters[i].obj == obj then presenters[i].(recorderEndpoint := Some(recorder)) else presenters[i])
  }

  /** `presenter.isRecording = true` through the reference to object `obj`. */
  function MarkedRecording(presenters: seq<Presenter>, obj: nat): seq<Presenter>
  {
    seq(|presenters|, i requires 0 <= i < |presenters| =>
      if presenters[i].obj == obj then presenters[i].(isRecording := true) else presenters[i])
  }

  /** The TypeError an assignment to a field of `presenters[i]` raises when `i` is past the end. */
  const RecorderWriteError := Error("TypeError", "Cannot set properties of undefined (setting 'recorderEndpoint')")

  /** The server process: its module-level state and its handlers. */
  class Server {
    const engine: MediaEngine
    const buffer: CandidateBuffer<SessionId>
    /** `argv.ws_uri` */
    const wsUri: string
    var idCounter: nat
    var presenters: seq<Presenter>
    var viewers: seq<Viewer>
    var kurentoClient: Option<Client>
    /** `ws.role` of every socket that has one. */
    var roles: map<Socket, Role>
    /** `errors.NO_MEDIA_SERVER.message`, which each failed engine connection extends. */
    var noMediaServerMessage: string
    /** How many presenter objects have been built, for their identities. */
    var objects: nat

    ghost function Snapshot(): AppState
      reads this, engine, buffer
    {
      AppState(presenters, viewers, buffer.queues, kurentoClient, engine.log)
    }

    constructor (wsUri: string)
      ensures this.wsUri == wsUri && fresh(engine) && fresh(buffer) && engine != buffer as object
      ensures idCounter == 0 && presenters == [] && viewers == [] && kurentoClient == None
      ensures roles == map[] && noMediaServerMessage == NoMediaServerText && objects == 0
      ensures engine.log == [] && buffer.queues == map[]
    {
      this.wsUri := wsUri;
      engine := new MediaEngine();
      buffer := new CandidateBuffer();
      idCounter := 0;
      presenters := [];
      viewers := [];
      kurentoClient := None;
      roles := map[];
      noMediaServerMessage := NoMediaServerText;
      objects := 0;
    }

    /** `nextUniqueId()`: the counter's next value, as text. */
    method NextUniqueId() returns (id: SessionId)
      modifies this`idCounter
      ensures idCounter == old(idCounter) + 1
      ensures id == SessionIds.DecimalString(idCounter)
    {
      idCounter := idCounter + 1;
      id := SessionIds.DecimalString(idCounter);
    }

    /** `stop`'s presenter branch on the presenter at `i`. */
    method DropPresenterAt(i: nat)
      requires i < |presenters|
      modifies this`presenters, this`viewers, engine
      ensures Snapshot() == DropPresenter(old(Snapshot()), i)
    {
      var presenter := presenters[i];
      for k := 0 to |viewers|
        modifies engine
        invariant engine.log == old(engine.log) + StopNotices(viewers[..k], presenter.room)
      {
        var viewer := viewers[k];
        if viewer.room == presenter.room {
          engine.Send(viewer.ws, StopCommunication(Some(presenter.room)));
        }
        assert viewers[..k + 1][..k] == viewers[..k];
      }
      assert viewers[..|viewers|] == viewers;
      engine.Release(presenter.pipeline);
      while |viewers| > 0
        modifies this`viewers
        decreases |viewers|
      {
        viewers := viewers[1..];
      }
      presenters := RemoveAt(presenters, i);
    }

    /** `stop`'s viewer branch on the viewer at `i`. */
    method DropViewerAt(i: nat)
      requires i < |viewers|
      modifies this`viewers, engine
      ensures Snapshot() == DropViewer(old(Snapshot()), i)
    {
      engine.ReleaseEndpoint(viewers[i].webRtcEndpoint);
      viewers := RemoveAt(viewers, i);
    }

    /** The end of `stop`: an idle server closes and forgets its client. */
    method CloseClientIfIdle()
      modifies this`kurentoClient, engine
      ensures Snapshot() == CloseIfIdle(old(Snapshot()))
    {
      if |viewers| == 0 && |presenters| == 0 {
        if kurentoClient.Some? {
          engine.Close(kurentoClient.value);
        }
        kurentoClient := None;
      }
    }

    /** `stop`'s presenter and viewer branches. */
    method StopBranchesOf(sessionId: SessionId) returns (threw: bool)
      modifies this`presenters, this`viewers, engine
      ensures Snapshot() == StopBranches(old(Snapshot()), sessionId).state
      ensures threw == StopBranches(old(Snapshot()), sessionId).threw
    {
      ghost var before := Snapshot();
      var found := Search(presenters, viewers, sessionId);
      assert found == Search(before.presenters, before.viewers, sessionId);
      if found.isPresenter {
        DropPresenterAt(found.presenterIndex);
      }
      ghost var afterPresenter := Snapshot();
      assert afterPresenter == if found.isPresenter then DropPresenter(before, found.presenterIndex) else before;
      if found.isViewer {
        if found.viewerIndex >= |viewers| {
          return true;
        }
        DropViewerAt(found.viewerIndex);
        assert Snapshot() == DropViewer(afterPresenter, found.viewerIndex);
      }
      threw := false;
    }

    /** `stop(sessionId)`, run for a `stop` message and when the socket closes or fails. */
    method Stop(sessionId: SessionId) returns (threw: bool)
      requires engine != buffer as object
      modifies this`presenters, this`viewers, this`kurentoClient, buffer, engine
      ensures Snapshot() == StopCascade(old(Snapshot()), sessionId).state
      ensures threw == StopCascade(old(Snapshot()), sessionId).threw
    {
      threw := StopBranchesOf(sessionId);
      if threw {
        return;
      }
      buffer.Clear(sessionId);
      CloseClientIfIdle();
    }

    /** `onIceCandidate(sessionId, candidate)`: forward to the session's endpoint, or queue. */
    method OnIceCandidate(sessionId: SessionId, candidate: Candidate)
      requires engine != buffer as object
      modifies buffer, engine
      ensures IceRoute(presenters, viewers, sessionId).ToEndpoint? ==>
        && engine.log == old(engine.log) + [CandidateAdded(IceRoute(presenters, viewers, sessionId).endpoint, candidate)]
        && buffer.queues == old(buffer.queues)
      ensures IceRoute(presenters, viewers, sessionId).ToQueue? ==>
        && buffer.queues == Enqueued(old(buffer.queues), sessionId, candidate)
        && engine.log == old(engine.log)
    {
      var found := Search(presenters, viewers, sessionId);
      if found.isPresenter {
        engine.AddIceCandidate(presenters[found.presenterIndex].webRtcEndpoint, candidate);
      } else if found.isViewer {
        engine.AddIceCandidate(viewers[found.viewerIndex].webRtcEndpoint, candidate);
      } else {
        buffer.Enqueue(sessionId, candidate);
      }
    }

    /**
     * `startPresenter` up to its first await: the caller's queue is deleted,
     * then an empty room or a room that already has a presenter is refused
     * with the registry untouched.
     */
    method StartPresenter(sessionId: SessionId, ws: Socket, sdpOffer: Sdp, room: string)
      returns (p: Progress<PresenterAwait, Sdp>)
      modifies buffer, this`objects
      ensures buffer.queues == Cleared(old(buffer.queues), sessionId)
      ensures room == "" ==> p == Failed(RoomNotProvided) && objects == old(objects)
      ensures room != "" && RoomIndex(presenters, room) != -1 ==>
        p == Failed(PresenterExists) && objects == old(objects)
      ensures room != "" && RoomIndex(presenters, room) == -1 ==>
        && objects == old(objects) + 1
        && var d := PresenterDraft(old(objects), sessionId, ws, sdpOffer, room);
           p == if kurentoClient.Some? then Pending(PresenterPipeline(d, kurentoClient.value))
                else Pending(PresenterClient(d))
    {
      buffer.Clear(sessionId);
      if room == "" {
        return Failed(RoomNotProvided);
      }
      if RoomIndex(presenters, room) != -1 {
        return Failed(PresenterExists);
      }
      var d := PresenterDraft(objects, sessionId, ws, sdpOffer, room);
      objects := objects + 1;
      if kurentoClient.Some? {
        p := Pending(PresenterPipeline(d, kurentoClient.value));
      } else {
        p := Pending(PresenterClient(d));
      }
    }

    /**
     * `getKurentoCLient` answered: the new client goes straight on to pipeline
     * creation and is not stored; a failure extends `NO_MEDIA_SERVER`'s message
     * and rejects with it.
     */
    method PresenterClientReady(d: PresenterDraft, r: Outcome<Client>) returns (p: Progress<PresenterAwait, Sdp>)
      modifies this`noMediaServerMessage
      ensures r.Success? ==> p == Pending(PresenterPipeline(d, r.value)) && noMediaServerMessage == old(noMediaServerMessage)
      ensures r.Failure? ==>
        && noMediaServerMessage == NoMediaServerGrown(old(noMediaServerMessage), wsUri, r.fault)
        && p == Failed(Error("NO_MEDIA_SERVER", noMediaServerMessage))
    {
      match r
      case Success(client) =>
        p := Pending(PresenterPipeline(d, client));
      case Failure(f) =>
        noMediaServerMessage := NoMediaServerGrown(noMediaServerMessage, wsUri, f);
        p := Failed(Error("NO_MEDIA_SERVER", noMediaServerMessage));
    }

    /**
     * `kurentoClientCreate` answered.  `errors.KURENTO_CLIENT_CREATE` does not
     * exist, so a failure throws inside the engine callback and the handler
     * never settles.
     */
    method PresenterPipelineReady(d: PresenterDraft, r: Outcome<Pipeline>) returns (p: Progress<PresenterAwait, Sdp>)
      ensures r.Success? ==> p == Pending(PresenterEndpoint(d, r.value))
      ensures r.Failure? ==> p == Hung
    {
      p := if r.Success? then Pending(PresenterEndpoint(d, r.value)) else Hung;
    }

    /**
     * `createMediaElements` answered.  On failure the pipeline is released and
     * the engine's own error rejects the call.  On success the queued candidates
     * are handed to the endpoint, and only then is the presenter pushed.
     */
    method PresenterEndpointReady(d: PresenterDraft, pipeline: Pipeline, r: Outcome<Endpoint>)
      returns (p: Progress<PresenterAwait, Sdp>)
      requires engine != buffer as object
      modifies this`presenters, buffer, engine
      ensures r.Failure? ==>
        && p == Failed(Raw(r.fault))
        && engine.log == old(engine.log) + [Released(pipeline)]
        && presenters == old(presenters) && buffer.queues == old(buffer.queues)
      ensures r.Success? ==>
        && p == Pending(PresenterAnswer(d, r.value))
        && engine.log == old(engine.log) + Deliveries(r.value, Waiting(old(buffer.queues), d.id))
        && buffer.queues == Drained(old(buffer.queues), d.id)
        && presenters == old(presenters) + [Registered(d, pipeline, r.value)]
    {
      match r
      case Failure(f) =>
        engine.Release(pipeline);
        p := Failed(Raw(f));
      case Success(endpoint) =>
        buffer.DrainInto(d.id, endpoint, engine);
        presenters := presenters + [Registered(d, pipeline, endpoint)];
        p := Pending(PresenterAnswer(d, endpoint));
    }

    /** `processOffer` answered for the presenter. */
    method PresenterAnswerReady(d: PresenterDraft, endpoint: Endpoint, r: Outcome<Sdp>) returns (p: Progress<PresenterAwait, Sdp>)
      ensures r.Success? ==> p == Pending(PresenterGather(d, endpoint, r.value))
      ensures r.Failure? ==> p == Failed(Templated("PROCESS_OFFER", r.fault))
    {
      p := if r.Success? then Pending(PresenterGather(d, endpoint, r.value)) else Failed(Templated("PROCESS_OFFER", r.fault));
    }

    /** `gatherCandidates` answered for the presenter: success marks the socket as a presenter's and resolves with the answer. */
    method PresenterGathered(d: PresenterDraft, sdpAnswer: Sdp, r: Outcome<()>) returns (p: Progress<PresenterAwait, Sdp>)
      modifies this`roles
      ensures r.Success? ==> p == Fulfilled(sdpAnswer) && roles == old(roles)[d.ws := PresenterRole]
      ensures r.Failure? ==> p == Failed(Templated("GATHER_CANDIDATES", r.fault)) && roles == old(roles)
    {
      if r.Success? {
        roles := roles[d.ws := PresenterRole];
        p := Fulfilled(sdpAnswer);
      } else {
        p := Failed(Templated("GATHER_CANDIDATES", r.fault));
      }
    }

    /**
     * The `presenter` case's `.then`/`.catch`: an answer is sent as accepted; a
     * rejection first runs `stop` and then sends the optional-chained text, unless
     * `stop` threw, in which case nothing is sent.
     */
    method SettlePresenter(sessionId: SessionId, ws: Socket, p: Progress<PresenterAwait, Sdp>)
      requires !p.Pending?
      requires engine != buffer as object
      modifies this`presenters, this`viewers, this`kurentoClient, buffer, engine
      ensures p.Fulfilled? ==>
        Snapshot() == old(Snapshot()).(log := old(engine.log) + [Sent(ws, PresenterResponse(Accepted(p.value)))])
      ensures p.Failed? ==>
        var st := StopCascade(old(Snapshot()), sessionId);
        Snapshot() == if st.threw then st.state
                      else st.state.(log := st.state.log + [Sent(ws, PresenterResponse(Rejected(OptionalChainText(p.reason))))])
      ensures p.Hung? ==> Snapshot() == old(Snapshot())
    {
      match p
      case Fulfilled(sdpAnswer) =>
        engine.Send(ws, PresenterResponse(Accepted(sdpAnswer)));
      case Failed(reason) =>
        var threw := Stop(sessionId);
        if !threw {
          engine.Send(ws, PresenterResponse(Rejected(OptionalChainText(reason))));
        }
      case Hung =>
    }

    /** `startViewer` up to its first await: the caller's queue is deleted, then a room without presenter is refused. */
    method StartViewer(sessionId: SessionId, ws: Socket, sdpOffer: Sdp, room: string) returns (p: Progress<ViewerAwait, Sdp>)
      modifies buffer
      ensures buffer.queues == Cleared(old(buffer.queues), sessionId)
      ensures RoomIndex(presenters, room) == -1 ==> p == Failed(PresenterNotFound)
      ensures RoomIndex(presenters, room) != -1 ==>
        p == Pending(ViewerEndpoint(ViewerDraft(sessionId, ws, sdpOffer, room), presenters[RoomIndex(presenters, room)].pipeline))
    {
      buffer.Clear(sessionId);
      var index := RoomIndex(presenters, room);
      if index == -1 {
        return Failed(PresenterNotFound);
      }
      p := Pending(ViewerEndpoint(ViewerDraft(sessionId, ws, sdpOffer, room), presenters[index].pipeline));
    }

    /**
     * The viewer's `createMediaElements` answered.  A failure releases the
     * presenter's pipeline it was created on.  On success the queue is drained
     * and the presenter is looked up again for the first connect.
     */
    method ViewerEndpointReady(d: ViewerDraft, pipeline: Pipeline, r: Outcome<Endpoint>) returns (p: Progress<ViewerAwait, Sdp>)
      requires engine != buffer as object
      modifies buffer, engine
      ensures r.Failure? ==>
        && p == Failed(Raw(r.fault))
        && engine.log == old(engine.log) + [Released(pipeline)] && buffer.queues == old(buffer.queues)
      ensures r.Success? ==>
        && engine.log == old(engine.log) + Deliveries(r.value, Waiting(old(buffer.queues), d.id))
        && buffer.queues == Drained(old(buffer.queues), d.id)
        && (RoomIndex(presenters, d.room) == -1 ==> p == Failed(PresenterNotFound))
        && (RoomIndex(presenters, d.room) != -1 ==>
              p == Pending(PresenterToViewer(d, r.value, presenters[RoomIndex(presenters, d.room)].webRtcEndpoint)))
    {
      match r
      case Failure(f) =>
        engine.Release(pipeline);
        p := Failed(Raw(f));
      case Success(endpoint) =>
        buffer.DrainInto(d.id, endpoint, engine);
        var index := RoomIndex(presenters, d.room);
        if index == -1 {
          p := Failed(PresenterNotFound);
        } else {
          p := Pending(PresenterToViewer(d, endpoint, presenters[index].webRtcEndpoint));
        }
    }

    /** `connectPresenterToViewer` answered; the presenter is looked up again for the reverse connect. */
    method PresenterToViewerConnected(d: ViewerDraft, endpoint: Endpoint, r: Outcome<()>) returns (p: Progress<ViewerAwait, Sdp>)
      ensures r.Failure? ==> p == Failed(Templated("CONNECT_TO_PRESENTER", r.fault))
      ensures r.Success? && RoomIndex(presenters, d.room) == -1 ==> p == Failed(PresenterNotFound)
      ensures r.Success? && RoomIndex(presenters, d.room) != -1 ==>
        p == Pending(ViewerToPresenter(d, endpoint, presenters[RoomIndex(presenters, d.room)].webRtcEndpoint))
    {
      if r.Failure? {
        return Failed(Templated("CONNECT_TO_PRESENTER", r.fault));
      }
      var index := RoomIndex(presenters, d.room);
      if index == -1 {
        p := Failed(PresenterNotFound);
      } else {
        p := Pending(ViewerToPresenter(d, endpoint, presenters[index].webRtcEndpoint));
      }
    }

    /** `connectViewerToPresenter` answered. */
    method ViewerToPresenterConnected(d: ViewerDraft, endpoint: Endpoint, r: Outcome<()>) returns (p: Progress<ViewerAwait, Sdp>)
      ensures r.Failure? ==> p == Failed(Templated("CONNECT_TO_PRESENTER", r.fault))
      ensures r.Success? ==> p == Pending(ViewerAnswer(d, endpoint))
    {
      p := if r.Failure? then Failed(Templated("CONNECT_TO_PRESENTER", r.fault)) else Pending(ViewerAnswer(d, endpoint));
    }

    /** `processOffer` answered for the viewer. */
    method ViewerAnswerReady(d: ViewerDraft, endpoint: Endpoint, r: Outcome<Sdp>) returns (p: Progress<ViewerAwait, Sdp>)
      ensures r.Success? ==> p == Pending(ViewerGather(d, endpoint, r.value))
      ensures r.Failure? ==> p == Failed(Templated("PROCESS_OFFER", r.fault))
    {
      p := if r.Success? then Pending(ViewerGather(d, endpoint, r.value)) else Failed(Templated("PROCESS_OFFER", r.fault));
    }

    /** `gatherCandidates` answered for the viewer: only now is the viewer appended and the socket marked. */
    method ViewerGathered(d: ViewerDraft, endpoint: Endpoint, sdpAnswer: Sdp, r: Outcome<()>) returns (p: Progress<ViewerAwait, Sdp>)
      modifies this`viewers, this`roles
      ensures r.Success? ==>
        && p == Fulfilled(sdpAnswer)
        && viewers == old(viewers) + [Viewer(d.id, endpoint, d.room, d.ws)]
        && roles == old(roles)[d.ws := ViewerRole]
      ensures r.Failure? ==>
        p == Failed(Templated("GATHER_CANDIDATES", r.fault)) && viewers == old(viewers) && roles == old(roles)
    {
      if r.Failure? {
        return Failed(Templated("GATHER_CANDIDATES", r.fault));
      }
      viewers := viewers + [Viewer(d.id, endpoint, d.room, d.ws)];
      roles := roles[d.ws := ViewerRole];
      p := Fulfilled(sdpAnswer);
    }

    /**
     * The `viewer` case's `.then`/`.catch`.  A rejection runs `stop` and then
     * reads `error.name`: an `undefined` reason, or a `stop` that threw, sends nothing.
     */
    method SettleViewer(sessionId: SessionId, ws: Socket, p: Progress<ViewerAwait, Sdp>)
      requires !p.Pending?
      requires engine != buffer as object
      modifies this`presenters, this`viewers, this`kurentoClient, buffer, engine
      ensures p.Fulfilled? ==>
        Snapshot() == old(Snapshot()).(log := old(engine.log) + [Sent(ws, ViewerResponse(Accepted(p.value)))])
      ensures p.Failed? ==>
        var st := StopCascade(old(Snapshot()), sessionId);
        Snapshot() == if st.threw || p.reason.Undefined? then st.state
                      else st.state.(log := st.state.log + [Sent(ws, ViewerResponse(Rejected(p.reason.name + ": " + p.reason.message)))])
      ensures p.Hung? ==> Snapshot() == old(Snapshot())
    {
      match p
      case Fulfilled(sdpAnswer) =>
        engine.Send(ws, ViewerResponse(Accepted(sdpAnswer)));
      case Failed(reason) =>
        var threw := Stop(sessionId);
        if !threw && reason.Error? {
          engine.Send(ws, ViewerResponse(Rejected(reason.name + ": " + reason.message)));
        }
      case Hung =>
    }

    /**
     * `startRecording` up to its first await.  The checks run in the source's
     * order; the socket and role checks reject with constants missing from the
     * error table.  `isRecording` is not consulted.
     */
    method StartRecording(ws: Option<Socket>, room: string) returns (p: Progress<RecordAwait, ()>)
      ensures room == "" ==> p == Failed(RoomNotProvided)
      ensures room != "" && ws.None? ==> p == Failed(Undefined)
      ensures room != "" && ws.Some? && (ws.value !in roles || roles[ws.value] != PresenterRole) ==> p == Failed(Undefined)
      ensures room != "" && ws.Some? && ws.value in roles && roles[ws.value] == PresenterRole ==>
        var i := RoomIndex(presenters, room);
        && (i == -1 ==> p == Failed(PresenterNotFound))
        && (i != -1 ==> p == Pending(RecorderCreation(RecordingTarget(presenters[i].obj, presenters[i].pipeline, presenters[i].webRtcEndpoint))))
    {
      if room == "" {
        return Failed(RoomNotProvided);
      }
      if ws.None? {
        return Failed(Undefined);
      }
      if ws.value !in roles || roles[ws.value] != PresenterRole {
        return Failed(Undefined);
      }
      var i := RoomIndex(presenters, room);
      if i == -1 {
        return Failed(PresenterNotFound);
      }
      var presenter := presenters[i];
      p := Pending(RecorderCreation(RecordingTarget(presenter.obj, presenter.pipeline, presenter.webRtcEndpoint)));
    }

    /**
     * The recorder's `createMediaElements` answered.  A failure releases the
     * pipeline; a success is stored on the presenter object read before the
     * await, whether or not it is still registered (the element check after it
     * always passes).
     */
    method RecorderReady(t: RecordingTarget, r: Outcome<Endpoint>) returns (p: Progress<RecordAwait, ()>)
      modifies this`presenters, engine
      ensures r.Failure? ==>
        && p == Failed(Templated("CREATE_MEDIA_ELEMENTS", r.fault))
        && engine.log == old(engine.log) + [Released(t.pipeline)] && presenters == old(presenters)
      ensures r.Success? ==>
        && p == Pending(RecorderConnection(t, r.value))
        && presenters == WithRecorder(old(presenters), t.obj, r.value) && engine.log == old(engine.log)
    {
      match r
      case Failure(f) =>
        engine.Release(t.pipeline);
        p := Failed(Templated("CREATE_MEDIA_ELEMENTS", f));
      case Success(recorder) =>
        presenters := WithRecorder(presenters, t.obj, recorder);
        p := Pending(RecorderConnection(t, recorder));
    }

    /** The presenter endpoint's `connect(recorder)` answered; a failure releases the pipeline. */
    method RecorderConnected(t: RecordingTarget, recorder: Endpoint, r: Outcome<()>) returns (p: Progress<RecordAwait, ()>)
      modifies engine
      ensures r.Failure? ==>
        p == Failed(Templated("CONNECT_MEDIA_ELEMENTS", r.fault)) && engine.log == old(engine.log) + [Released(t.pipeline)]
      ensures r.Success? ==> p == Pending(RecorderRecord(t, recorder)) && engine.log == old(engine.log)
    {
      if r.Failure? {
        engine.Release(t.pipeline);
        p := Failed(Templated("CONNECT_MEDIA_ELEMENTS", r.fault));
      } else {
        p := Pending(RecorderRecord(t, recorder));
      }
    }

    /** `recorder.record()` answered: only now is the presenter object marked as recording. */
    method RecordingStarted(t: RecordingTarget, r: Outcome<()>) returns (p: Progress<RecordAwait, ()>)
      modifies this`presenters, engine
      ensures r.Failure? ==>
        && p == Failed(Templated("RECORD_MEDIA_ELEMENT", r.fault))
        && engine.log == old(engine.log) + [Released(t.pipeline)] && presenters == old(presenters)
      ensures r.Success? ==>
        p == Fulfilled(()) && presenters == MarkedRecording(old(presenters), t.obj) && engine.log == old(engine.log)
    {
      if r.Failure? {
        engine.Release(t.pipeline);
        p := Failed(Templated("RECORD_MEDIA_ELEMENT", r.fault));
      } else {
        presenters := MarkedRecording(presenters, t.obj);
        p := Fulfilled(());
      }
    }

    /** The `record` case's `.then`/`.catch`; reading `error.name` of `undefined` throws and nothing is sent. */
    method SettleRecord(ws: Socket, p: Progress<RecordAwait, ()>)
      requires !p.Pending?
      modifies engine
      ensures p.Fulfilled? ==> engine.log == old(engine.log) + [Sent(ws, RecordResponse(RecordAccepted))]
      ensures p.Failed? && p.reason.Error? ==>
        engine.log == old(engine.log) + [Sent(ws, RecordResponse(RecordRejected(p.reason.name + ": " + p.reason.message)))]
      ensures p.Hung? || (p.Failed? && p.reason.Undefined?) ==> engine.log == old(engine.log)
    {
      match p
      case Fulfilled(_) =>
        engine.Send(ws, RecordResponse(RecordAccepted));
      case Failed(reason) =>
        if reason.Error? {
          engine.Send(ws, RecordResponse(RecordRejected(reason.name + ": " + reason.message)));
        }
      case Hung =>
    }

    /**
     * `stopRecording` up to its await.  A presenter that is not recording, or
     * whose recorder is gone, is refused with a missing constant.
     */
    method StopRecording(ws: Option<Socket>, room: string) returns (p: Progress<StopRecordAwait, ()>)
      ensures room == "" ==> p == Failed(RoomNotProvided)
      ensures room != "" && ws.None? ==> p == Failed(Undefined)
      ensures room != "" && ws.Some? && (ws.value !in roles || roles[ws.value] != PresenterRole) ==> p == Failed(Undefined)
      ensures room != "" && ws.Some? && ws.value in roles && roles[ws.value] == PresenterRole ==>
        var i := RoomIndex(presenters, room);
        && (i == -1 ==> p == Failed(PresenterNotFound))
        && (i != -1 && (!presenters[i].isRecording || presenters[i].recorderEndpoint.None?) ==> p == Failed(Undefined))
        && (i != -1 && presenters[i].isRecording && presenters[i].recorderEndpoint.Some? ==>
              p == Pending(RecorderDisconnection(StopRecordingTarget(
                     i, presenters[i].pipeline, presenters[i].webRtcEndpoint, presenters[i].recorderEndpoint.value))))
    {
      if room == "" {
        return Failed(RoomNotProvided);
      }
      if ws.None? {
        return Failed(Undefined);
      }
      if ws.value !in roles || roles[ws.value] != PresenterRole {
        return Failed(Undefined);
      }
      var i := RoomIndex(presenters, room);
      if i == -1 {
        return Failed(PresenterNotFound);
      }
      var presenter := presenters[i];
      if !presenter.isRecording || presenter.recorderEndpoint.None? {
        return Failed(Undefined);
      }
      p := Pending(RecorderDisconnection(StopRecordingTarget(
             i, presenter.pipeline, presenter.webRtcEndpoint, presenter.recorderEndpoint.value)));
    }

    /**
     * `disconnect` answered.  `errors.DISCONNECT_MEDIA_ELEMENTS` does not exist,
     * so a failure throws inside the engine callback before anything is released.
     */
    method RecorderDisconnected(t: StopRecordingTarget, r: Outcome<()>) returns (p: Progress<StopRecordAwait, ()>)
      ensures r.Success? ==> p == Pending(RecorderStop(t))
      ensures r.Failure? ==> p == Hung
    {
      p := if r.Success? then Pending(RecorderStop(t)) else Hung;
    }

    /**
     * `recorder.stop()` answered (a failure hangs as above).  The recorder is
     * cleared at the array position read before the awaits, whichever presenter
     * sits there now; past the end the assignment throws a TypeError.
     * `isRecording` stays true.
     */
    method RecorderStopped(t: StopRecordingTarget, r: Outcome<()>) returns (p: Progress<StopRecordAwait, ()>)
      modifies this`presenters
      ensures r.Failure? ==> p == Hung && presenters == old(presenters)
      ensures r.Success? && t.index < |old(presenters)| ==>
        && p == Fulfilled(())
        && presenters == old(presenters)[t.index := old(presenters)[t.index].(recorderEndpoint := None)]
      ensures r.Success? && t.index >= |old(presenters)| ==> p == Failed(RecorderWriteError) && presenters == old(presenters)
    {
      if r.Failure? {
        return Hung;
      }
      if t.index < |presenters| {
        presenters := presenters[t.index := presenters[t.index].(recorderEndpoint := None)];
        p := Fulfilled(());
      } else {
        p := Failed(RecorderWriteError);
      }
    }

    /** The `stopRecord` case's `.then`/`.catch`. */
    method SettleStopRecord(ws: Socket, p: Progress<StopRecordAwait, ()>)
      requires !p.Pending?
      modifies engine
      ensures p.Fulfilled? ==> engine.log == old(engine.log) + [Sent(ws, StopRecordResponse(RecordAccepted))]
      ensures p.Failed? && p.reason.Error? ==>
        engine.log == old(engine.log) + [Sent(ws, StopRecordResponse(RecordRejected(p.reason.name + ": " + p.reason.message)))]
      ensures p.Hung? || (p.Failed? && p.reason.Undefined?) ==> engine.log == old(engine.log)
    {
      match p
      case Fulfilled(_) =>
        engine.Send(ws, StopRecordResponse(RecordAccepted));
      case Failed(reason) =>
        if reason.Error? {
          engine.Send(ws, StopRecordResponse(RecordRejected(reason.name + ": " + reason.message)));
        }
      case Hung =>
    }

    /** The `default` case: an unknown message id is answered with an `error` event naming the parsed object. */
    method RejectUnknown(ws: Socket)
      modifies engine
      ensures engine.log == old(engine.log) + [Sent(ws, ErrorEvent("Invalid message [object Object]"))]
    {
      engine.Send(ws, ErrorEvent("Invalid message [object Object]"));
    }
  }
}
