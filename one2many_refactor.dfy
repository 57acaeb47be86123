/**
 * The single-presenter server variant kurento-one2many-call/serverRefactor.js:
 * one `presenter` slot claimed before any await, and a JavaScript array
 * `viewers` written at the numeric index of a session id, so that its `length`
 * is one more than the largest id ever stored and `delete` never shrinks it.
 *
 * Session ids are the counter values `nextUniqueId` turns into decimal text;
 * as `SessionIds.DecimalStringInjective` shows, comparing the texts is
 * comparing the numbers, so the model keys everything by the number.
 */
module One2ManyRefactor {
  import opened Engine
  import opened Candidates
  import One2ManyErrors

  type SessionId = nat

  const DefaultWsUri := "ws://localhost:8888/kurento"

  /** This file's own error table; only the names are read for the entries whose message is overwritten. */
  const NoMediaServerText := "Could not find media server at address "
  const PresenterExists := Error("PRESENTER_EXISTS", "Another user is currently acting as presenter. Try again later...")
  const PresenterNotFound := Error("PRESENTER_NOT_FOUND", "No active presenter. Try again later...")

  /** The TypeErrors that a `null` presenter slot, pipeline or endpoint provokes. */
  const ReleaseOnNull := Error("TypeError", "Cannot read properties of null (reading 'release')")
  const CreateOnNull := Error("TypeError", "Cannot read properties of null (reading 'create')")
  const SetEndpointOnNull := Error("TypeError", "Cannot set properties of null (setting 'webRtcEndpoint')")
  const ConnectOnNull := Error("TypeError", "Cannot read properties of null (reading 'connect')")
  const ReadEndpointOfNull := Error("TypeError", "Cannot read properties of null (reading 'webRtcEndpoint')")

  /** The `presenter` object: claimed with `null` pipeline and endpoint, filled in as they are created. */
  datatype Slot = Slot(id: SessionId, pipeline: Option<Pipeline>, webRtcEndpoint: Option<Endpoint>)

  /** A stored viewer object; it has no `ws` field. */
  datatype Viewer = Viewer(id: SessionId, webRtcEndpoint: Endpoint)

  datatype RefactorState = RefactorState(
    presenter: Option<Slot>, viewers: map<SessionId, Viewer>, viewersLength: nat,
    queues: Queues<SessionId>, kurentoClient: Option<Client>, log: seq<Effect>)

  datatype StopResult = StopResult(state: RefactorState, threw: bool)

  predicate Extends(log: seq<Effect>, before: seq<Effect>)
  {
    |before| <= |log| && log[..|before|] == before
  }

  /** Whether `id` holds the presenter slot. */
  predicate Presents(s: RefactorState, id: SessionId)
  {
    s.presenter.Some? && s.presenter.value.id == id
  }

  /** The end of `stop`: with `viewers.length < 1` and no presenter, close the cached client (if any) and forget it. */
  function CloseIfIdle(s: RefactorState): (r: RefactorState)
    ensures r.presenter == s.presenter && r.viewers == s.viewers && r.viewersLength == s.viewersLength
    ensures r.queues == s.queues
    ensures Extends(r.log, s.log)
    ensures s.viewersLength == 0 && s.presenter.None? ==> r.kurentoClient == None
    ensures s.viewersLength == 0 && s.presenter.None? && s.kurentoClient.Some? ==>
      r.log == s.log + [ClientClosed(s.kurentoClient.value)]
    ensures s.viewersLength == 0 && s.presenter.None? && s.kurentoClient.None? ==> r.log == s.log
    ensures !(s.viewersLength == 0 && s.presenter.None?) ==> r == s
  {
    if s.viewersLength < 1 && s.presenter.None? then
      s.(kurentoClient := None,
         log := s.log + (if s.kurentoClient.Some? then [ClientClosed(s.kurentoClient.value)] else []))
    else s
  }

  function WithoutQueue(s: RefactorState, id: SessionId): RefactorState
  {
    s.(queues := Cleared(s.queues, id))
  }

  /**
   * `stop(sessionId)`.  The presenter's own session releases the pipeline and
   * empties the slot and the viewer array, unless the pipeline is still
   * `null`, when `release` throws before anything changed.  Any other session
   * releases and deletes its stored viewer, if any.  The notification loop
   * sends nothing: no viewer object has a `ws`.
   */
  function StopCascade(s: RefactorState, id: SessionId): (r: StopResult)
    ensures r.threw <==> Presents(s, id) && s.presenter.value.pipeline.None?
    ensures r.threw ==> r.state == s
    ensures !r.threw ==> r.state.queues == Cleared(s.queues, id)
    ensures Presents(s, id) && !r.threw ==>
      r.state.presenter == None && r.state.viewers == map[] && r.state.viewersLength == 0 && r.state.kurentoClient == None
    ensures !Presents(s, id) ==>
      && r.state.presenter == s.presenter && r.state.viewers == s.viewers - {id}
      && r.state.viewersLength == s.viewersLength
    ensures !Presents(s, id) && s.viewersLength > 0 ==> r.state.kurentoClient == s.kurentoClient
    ensures Extends(r.state.log, s.log)
  {
    if Presents(s, id) then
      if s.presenter.value.pipeline.None? then StopResult(s, true)
      else
        var released := s.(log := s.log + [Released(s.presenter.value.pipeline.value)],
                           presenter := None, viewers := map[], viewersLength := 0);
        StopResult(CloseIfIdle(WithoutQueue(released, id)), false)
    else if id in s.viewers then
      var released := s.(log := s.log + [EndpointReleased(s.viewers[id].webRtcEndpoint)], viewers := s.viewers - {id});
      StopResult(CloseIfIdle(WithoutQueue(released, id)), false)
    else
      StopResult(CloseIfIdle(WithoutQueue(s, id)), false)
  }

  datatype Route = ToEndpoint(endpoint: Endpoint) | ToQueue

  /**
   * `onIceCandidate`'s choice: the presenter's endpoint once it is set, else the
   * stored viewer's endpoint, else the queue.
   */
  function IceRoute(presenter: Option<Slot>, viewers: map<SessionId, Viewer>, id: SessionId): Route
  {
    if presenter.Some? && presenter.value.id == id && presenter.value.webRtcEndpoint.Some? then
      ToEndpoint(presenter.value.webRtcEndpoint.value)
    else if id in viewers then ToEndpoint(viewers[id].webRtcEndpoint)
    else ToQueue
  }

  datatype PresenterDraft = PresenterDraft(id: SessionId, ws: Socket, sdpOffer: Sdp)

  /** The engine call `startPresenterPromise` is waiting for. */
  datatype PresenterAwait =
    | PresenterClient(draft: PresenterDraft)
    | PresenterPipeline(draft: PresenterDraft, client: Client)
    | PresenterEndpoint(draft: PresenterDraft, pipeline: Pipeline)
    | PresenterAnswer(draft: PresenterDraft, endpoint: Endpoint)
    | PresenterGather(draft: PresenterDraft, endpoint: Endpoint, sdpAnswer: Sdp)

  datatype ViewerDraft = ViewerDraft(id: SessionId, ws: Socket, sdpOffer: Sdp)

  /** The engine call `startViewerPromise` is waiting for. */
  datatype ViewerAwait =
    | ViewerEndpoint(draft: ViewerDraft, pipeline: Pipeline)
    | PresenterToViewer(draft: ViewerDraft, endpoint: Endpoint)
    | ViewerToPresenter(draft: ViewerDraft, endpoint: Endpoint)
    | ViewerAnswer(draft: ViewerDraft, endpoint: Endpoint)
    | ViewerGather(draft: ViewerDraft, endpoint: Endpoint, sdpAnswer: Sdp)

  class Server {
    const engine: MediaEngine
    const buffer: CandidateBuffer<SessionId>
    const wsUri: string
    var idCounter: nat
    var presenter: Option<Slot>
    var viewers: map<SessionId, Viewer>
    /** `viewers.length` */
    var viewersLength: nat
    var kurentoClient: Option<Client>
    var noMediaServerMessage: string

    ghost function Snapshot(): RefactorState
      reads this, engine, buffer
    {
      RefactorState(presenter, viewers, viewersLength, buffer.queues, kurentoClient, engine.log)
    }

    constructor (wsUri: string)
      ensures this.wsUri == wsUri && fresh(engine) && fresh(buffer) && engine != buffer as object
      ensures idCounter == 0 && presenter == None && viewers == map[] && viewersLength == 0 && kurentoClient == None
      ensures noMediaServerMessage == NoMediaServerText
      ensures engine.log == [] && buffer.queues == map[]
    {
      this.wsUri := wsUri;
      engine := new MediaEngine();
      buffer := new CandidateBuffer();
      idCounter := 0;
      presenter := None;
      viewers := map[];
      viewersLength := 0;
      kurentoClient := None;
      noMediaServerMessage := NoMediaServerText;
    }

    /** `nextUniqueId`: the counter after its increment. */
    method NextUniqueId() returns (id: SessionId)
      modifies this`idCounter
      ensures id == idCounter == old(idCounter) + 1
    {
      idCounter := idCounter + 1;
      id := idCounter;
    }

    /** `stop(sessionId)`; `threw` says that `release` was called on a `null` pipeline. */
    method Stop(sessionId: SessionId) returns (threw: bool)
      requires engine != buffer as object
      modifies this`presenter, this`viewers, this`viewersLength, this`kurentoClient, buffer, engine
      ensures Snapshot() == StopCascade(old(Snapshot()), sessionId).state
      ensures threw == StopCascade(old(Snapshot()), sessionId).threw
    {
      if presenter.Some? && presenter.value.id == sessionId {
        if presenter.value.pipeline.None? {
          return true;
        }
        engine.Release(presenter.value.pipeline.value);
        presenter := None;
        viewers := map[];
        viewersLength := 0;
      } else if sessionId in viewers {
        engine.ReleaseEndpoint(viewers[sessionId].webRtcEndpoint);
        viewers := viewers - {sessionId};
      }
      buffer.Clear(sessionId);
      if viewersLength < 1 && presenter.None? {
        if kurentoClient.Some? {
          engine.Close(kurentoClient.value);
        }
        kurentoClient := None;
      }
      threw := false;
    }

    /**
     * A failed engine callback that calls `stop(sessionId)` and then rejects
     * with `reason`; if `stop` throws, the callback dies and the promise never
     * settles.
     */
    method StopThenReject<T, V>(sessionId: SessionId, reason: Reason) returns (p: Progress<T, V>)
      requires engine != buffer as object
      modifies this`presenter, this`viewers, this`viewersLength, this`kurentoClient, buffer, engine
      ensures Snapshot() == StopCascade(old(Snapshot()), sessionId).state
      ensures p == if StopCascade(old(Snapshot()), sessionId).threw then Hung else Failed(reason)
    {
      var threw := Stop(sessionId);
      p := if threw then Hung else Failed(reason);
    }

    /** `onIceCandidate(sessionId, candidate)`. */
    method OnIceCandidate(sessionId: SessionId, candidate: Candidate)
      requires engine != buffer as object
      modifies buffer, engine
      ensures IceRoute(presenter, viewers, sessionId).ToEndpoint? ==>
        && engine.log == old(engine.log) + [CandidateAdded(IceRoute(presenter, viewers, sessionId).endpoint, candidate)]
        && buffer.queues == old(buffer.queues)
      ensures IceRoute(presenter, viewers, sessionId).ToQueue? ==>
        && buffer.queues == Enqueued(old(buffer.queues), sessionId, candidate)
        && engine.log == old(engine.log)
    {
      if presenter.Some? && presenter.value.id == sessionId && presenter.value.webRtcEndpoint.Some? {
        engine.AddIceCandidate(presenter.value.webRtcEndpoint.value, candidate);
      } else if sessionId in viewers {
        engine.AddIceCandidate(viewers[sessionId].webRtcEndpoint, candidate);
      } else {
        buffer.Enqueue(sessionId, candidate);
      }
    }

    /**
     * `startPresenterPromise` up to its first await.  With the slot taken, the
     * caller's own session is stopped and the call rejects with
     * `PRESENTER_EXISTS` (or with the TypeError `stop` throws); otherwise the
     * slot is claimed for the caller before anything is created.
     */
    method StartPresenter(sessionId: SessionId, ws: Socket, sdpOffer: Sdp) returns (p: Progress<PresenterAwait, Sdp>)
      requires engine != buffer as object
      modifies this`presenter, this`viewers, this`viewersLength, this`kurentoClient, buffer, engine
      ensures old(presenter).Some? ==>
        var st := StopCascade(WithoutQueue(old(Snapshot()), sessionId), sessionId);
        && Snapshot() == st.state
        && p == if st.threw then Failed(ReleaseOnNull) else Failed(PresenterExists)
      ensures old(presenter).None? ==>
        && Snapshot() == WithoutQueue(old(Snapshot()), sessionId).(presenter := Some(Slot(sessionId, None, None)))
        && var d := PresenterDraft(sessionId, ws, sdpOffer);
           p == if kurentoClient.Some? then Pending(PresenterPipeline(d, kurentoClient.value)) else Pending(PresenterClient(d))
    {
      buffer.Clear(sessionId);
      if presenter.Some? {
        var threw := Stop(sessionId);
        return if threw then Failed(ReleaseOnNull) else Failed(PresenterExists);
      }
      presenter := Some(Slot(sessionId, None, None));
      var d := PresenterDraft(sessionId, ws, sdpOffer);
      if kurentoClient.Some? {
        p := Pending(PresenterPipeline(d, kurentoClient.value));
      } else {
        p := Pending(PresenterClient(d));
      }
    }

    /** `getKurentoCLientPromise` answered: the client is not stored; a failure extends `NO_MEDIA_SERVER`'s message and keeps the slot. */
    method PresenterClientReady(d: PresenterDraft, r: Outcome<Client>) returns (p: Progress<PresenterAwait, Sdp>)
      modifies this`noMediaServerMessage
      ensures r.Success? ==> p == Pending(PresenterPipeline(d, r.value)) && noMediaServerMessage == old(noMediaServerMessage)
      ensures r.Failure? ==>
        && noMediaServerMessage == One2ManyErrors.NoMediaServerGrown(old(noMediaServerMessage), wsUri, r.fault)
        && p == Failed(Error("NO_MEDIA_SERVER", noMediaServerMessage))
    {
      match r
      case Success(client) =>
        p := Pending(PresenterPipeline(d, client));
      case Failure(f) =>
        noMediaServerMessage := One2ManyErrors.NoMediaServerGrown(noMediaServerMessage, wsUri, f);
        p := Failed(Error("NO_MEDIA_SERVER", noMediaServerMessage));
    }

    /**
     * `kurentoClientCreate` answered.  A failure rejects with the engine's
     * error and keeps the slot.  A new pipeline is written into whatever slot
     * is current; with the slot empty, `stop` runs and the call rejects with
     * `PRESENTER_NOT_FOUND`, the new pipeline unreleased.
     */
    method PresenterPipelineReady(d: PresenterDraft, r: Outcome<Pipeline>) returns (p: Progress<PresenterAwait, Sdp>)
      requires engine != buffer as object
      modifies this`presenter, this`viewers, this`viewersLength, this`kurentoClient, buffer, engine
      ensures r.Failure? ==> p == Failed(One2ManyErrors.Raw(r.fault)) && Snapshot() == old(Snapshot())
      ensures r.Success? && old(presenter).None? ==>
        Snapshot() == StopCascade(old(Snapshot()), d.id).state && p == Failed(PresenterNotFound)
      ensures r.Success? && old(presenter).Some? ==>
        && Snapshot() == old(Snapshot()).(presenter := Some(old(presenter).value.(pipeline := Some(r.value))))
        && p == Pending(PresenterEndpoint(d, r.value))
    {
      if r.Failure? {
        return Failed(One2ManyErrors.Raw(r.fault));
      }
      if presenter.None? {
        var threw := Stop(d.id);
        return Failed(PresenterNotFound);
      }
      presenter := Some(presenter.value.(pipeline := Some(r.value)));
      p := Pending(PresenterEndpoint(d, r.value));
    }

    /**
     * The presenter's endpoint answered.  A failure stops the session and
     * rejects with the engine's error, releasing nothing else.  A success is
     * written into the current slot, which must exist, and the queue is
     * drained into the endpoint.
     */
    method PresenterEndpointReady(d: PresenterDraft, r: Outcome<Endpoint>) returns (p: Progress<PresenterAwait, Sdp>)
      requires engine != buffer as object
      modifies this`presenter, this`viewers, this`viewersLength, this`kurentoClient, buffer, engine
      ensures r.Failure? ==>
        && Snapshot() == StopCascade(old(Snapshot()), d.id).state
        && p == if StopCascade(old(Snapshot()), d.id).threw then Hung else Failed(One2ManyErrors.Raw(r.fault))
      ensures r.Success? && old(presenter).None? ==> p == Failed(SetEndpointOnNull) && Snapshot() == old(Snapshot())
      ensures r.Success? && old(presenter).Some? ==>
        && p == Pending(PresenterAnswer(d, r.value))
        && Snapshot() == old(Snapshot()).(
             presenter := Some(old(presenter).value.(webRtcEndpoint := Some(r.value))),
             queues := Drained(old(buffer.queues), d.id),
             log := old(engine.log) + Deliveries(r.value, Waiting(old(buffer.queues), d.id)))
    {
      match r
      case Failure(f) =>
        p := StopThenReject(d.id, One2ManyErrors.Raw(f));
      case Success(endpoint) =>
        if presenter.None? {
          return Failed(SetEndpointOnNull);
        }
        presenter := Some(presenter.value.(webRtcEndpoint := Some(endpoint)));
        buffer.DrainInto(d.id, endpoint, engine);
        p := Pending(PresenterAnswer(d, endpoint));
    }

    /** `processOfferPromise` answered for the presenter. */
    method PresenterAnswerReady(d: PresenterDraft, endpoint: Endpoint, r: Outcome<Sdp>) returns (p: Progress<PresenterAwait, Sdp>)
      requires engine != buffer as object
      modifies this`presenter, this`viewers, this`viewersLength, this`kurentoClient, buffer, engine
      ensures r.Success? ==> p == Pending(PresenterGather(d, endpoint, r.value)) && Snapshot() == old(Snapshot())
      ensures r.Failure? ==>
        && Snapshot() == StopCascade(old(Snapshot()), d.id).state
        && p == if StopCascade(old(Snapshot()), d.id).threw then Hung else Failed(One2ManyErrors.Templated("PROCESS_OFFER", r.fault))
    {
      if r.Failure? {
        p := StopThenReject(d.id, One2ManyErrors.Templated("PROCESS_OFFER", r.fault));
      } else {
        p := Pending(PresenterGather(d, endpoint, r.value));
      }
    }

    /** `gatherCandidatesPromise` answered for the presenter. */
    method PresenterGathered(d: PresenterDraft, sdpAnswer: Sdp, r: Outcome<()>) returns (p: Progress<PresenterAwait, Sdp>)
      requires engine != buffer as object
      modifies this`presenter, this`viewers, this`viewersLength, this`kurentoClient, buffer, engine
      ensures r.Success? ==> p == Fulfilled(sdpAnswer) && Snapshot() == old(Snapshot())
      ensures r.Failure? ==>
        && Snapshot() == StopCascade(old(Snapshot()), d.id).state
        && p == if StopCascade(old(Snapshot()), d.id).threw then Hung else Failed(One2ManyErrors.Templated("GATHER_CANDIDATES", r.fault))
    {
      if r.Failure? {
        p := StopThenReject(d.id, One2ManyErrors.Templated("GATHER_CANDIDATES", r.fault));
      } else {
        p := Fulfilled(sdpAnswer);
      }
    }

    /** The `presenter` case's `.then`/`.catch`: no `stop`, only the response. */
    method SettlePresenter(ws: Socket, p: Progress<PresenterAwait, Sdp>)
      requires !p.Pending?
      modifies engine
      ensures p.Fulfilled? ==> engine.log == old(engine.log) + [Sent(ws, PresenterResponse(Accepted(p.value)))]
      ensures p.Failed? && p.reason.Error? ==>
        engine.log == old(engine.log) + [Sent(ws, PresenterResponse(Rejected(p.reason.name + ": " + p.reason.message)))]
      ensures p.Hung? || (p.Failed? && p.reason.Undefined?) ==> engine.log == old(engine.log)
    {
      match p
      case Fulfilled(sdpAnswer) =>
        engine.Send(ws, PresenterResponse(Accepted(sdpAnswer)));
      case Failed(reason) =>
        if reason.Error? {
          engine.Send(ws, PresenterResponse(Rejected(reason.name + ": " + reason.message)));
        }
      case Hung =>
    }

    /** `startViewerPromise` up to its first await: an empty slot, or a slot still without a pipeline, refuses. */
    method StartViewer(sessionId: SessionId, ws: Socket, sdpOffer: Sdp) returns (p: Progress<ViewerAwait, Sdp>)
      modifies buffer
      ensures buffer.queues == Cleared(old(buffer.queues), sessionId)
      ensures presenter.None? ==> p == Failed(PresenterNotFound)
      ensures presenter.Some? && presenter.value.pipeline.None? ==> p == Failed(CreateOnNull)
      ensures presenter.Some? && presenter.value.pipeline.Some? ==>
        p == Pending(ViewerEndpoint(ViewerDraft(sessionId, ws, sdpOffer), presenter.value.pipeline.value))
    {
      buffer.Clear(sessionId);
      if presenter.None? {
        return Failed(PresenterNotFound);
      }
      if presenter.value.pipeline.None? {
        return Failed(CreateOnNull);
      }
      p := Pending(ViewerEndpoint(ViewerDraft(sessionId, ws, sdpOffer), presenter.value.pipeline.value));
    }

    /**
     * The viewer's endpoint answered.  A failure stops the session and rejects
     * with the engine's error.  If the slot emptied meanwhile, `stop` runs and
     * the call rejects with `PRESENTER_NOT_FOUND`, the new endpoint
     * unreleased; otherwise the queue is drained into the endpoint and the
     * presenter's endpoint, which must be set, is connected to it.
     */
    method ViewerEndpointReady(d: ViewerDraft, r: Outcome<Endpoint>) returns (p: Progress<ViewerAwait, Sdp>)
      requires engine != buffer as object
      modifies this`presenter, this`viewers, this`viewersLength, this`kurentoClient, buffer, engine
      ensures r.Failure? ==>
        && Snapshot() == StopCascade(old(Snapshot()), d.id).state
        && p == if StopCascade(old(Snapshot()), d.id).threw then Hung else Failed(One2ManyErrors.Raw(r.fault))
      ensures r.Success? && old(presenter).None? ==>
        Snapshot() == StopCascade(old(Snapshot()), d.id).state && p == Failed(PresenterNotFound)
      ensures r.Success? && old(presenter).Some? ==>
        && Snapshot() == old(Snapshot()).(
             queues := Drained(old(buffer.queues), d.id),
             log := old(engine.log) + Deliveries(r.value, Waiting(old(buffer.queues), d.id)))
        && p == if old(presenter).value.webRtcEndpoint.None? then Failed(ConnectOnNull) else Pending(PresenterToViewer(d, r.value))
    {
      match r
      case Failure(f) =>
        p := StopThenReject(d.id, One2ManyErrors.Raw(f));
      case Success(endpoint) =>
        if presenter.None? {
          var threw := Stop(d.id);
          return Failed(PresenterNotFound);
        }
        buffer.DrainInto(d.id, endpoint, engine);
        if presenter.value.webRtcEndpoint.None? {
          p := Failed(ConnectOnNull);
        } else {
          p := Pending(PresenterToViewer(d, endpoint));
        }
    }

    /** `connectPresenterToViewer` answered; the reverse connect reads the current slot, which must exist. */
    method PresenterToViewerConnected(d: ViewerDraft, endpoint: Endpoint, r: Outcome<()>) returns (p: Progress<ViewerAwait, Sdp>)
      requires engine != buffer as object
      modifies this`presenter, this`viewers, this`viewersLength, this`kurentoClient, buffer, engine
      ensures r.Failure? ==>
        && Snapshot() == StopCascade(old(Snapshot()), d.id).state
        && p == if StopCascade(old(Snapshot()), d.id).threw then Hung else Failed(One2ManyErrors.Templated("CONNECT_TO_PRESENTER", r.fault))
      ensures r.Success? ==>
        && Snapshot() == old(Snapshot())
        && p == if presenter.None? then Failed(ReadEndpointOfNull) else Pending(ViewerToPresenter(d, endpoint))
    {
      if r.Failure? {
        p := StopThenReject(d.id, One2ManyErrors.Templated("CONNECT_TO_PRESENTER", r.fault));
      } else if presenter.None? {
        p := Failed(ReadEndpointOfNull);
      } else {
        p := Pending(ViewerToPresenter(d, endpoint));
      }
    }

    /** `connectViewerToPresenter` answered. */
    method ViewerToPresenterConnected(d: ViewerDraft, endpoint: Endpoint, r: Outcome<()>) returns (p: Progress<ViewerAwait, Sdp>)
      requires engine != buffer as object
      modifies this`presenter, this`viewers, this`viewersLength, this`kurentoClient, buffer, engine
      ensures r.Success? ==> p == Pending(ViewerAnswer(d, endpoint)) && Snapshot() == old(Snapshot())
      ensures r.Failure? ==>
        && Snapshot() == StopCascade(old(Snapshot()), d.id).state
        && p == if StopCascade(old(Snapshot()), d.id).threw then Hung else Failed(One2ManyErrors.Templated("CONNECT_TO_PRESENTER", r.fault))
    {
      if r.Failure? {
        p := StopThenReject(d.id, One2ManyErrors.Templated("CONNECT_TO_PRESENTER", r.fault));
      } else {
        p := Pending(ViewerAnswer(d, endpoint));
      }
    }

    /** `processOfferPromise` answered for the viewer. */
    method ViewerAnswerReady(d: ViewerDraft, endpoint: Endpoint, r: Outcome<Sdp>) returns (p: Progress<ViewerAwait, Sdp>)
      requires engine != buffer as object
      modifies this`presenter, this`viewers, this`viewersLength, this`kurentoClient, buffer, engine
      ensures r.Success? ==> p == Pending(ViewerGather(d, endpoint, r.value)) && Snapshot() == old(Snapshot())
      ensures r.Failure? ==>
        && Snapshot() == StopCascade(old(Snapshot()), d.id).state
        && p == if StopCascade(old(Snapshot()), d.id).threw then Hung else Failed(One2ManyErrors.Templated("PROCESS_OFFER", r.fault))
    {
      if r.Failure? {
        p := StopThenReject(d.id, One2ManyErrors.Templated("PROCESS_OFFER", r.fault));
      } else {
        p := Pending(ViewerGather(d, endpoint, r.value));
      }
    }

    /**
     * `gatherCandidatesPromise` answered for the viewer: only now is the viewer
     * stored at its id, which stretches `viewers.length` past that id.
     */
    method ViewerGathered(d: ViewerDraft, endpoint: Endpoint, sdpAnswer: Sdp, r: Outcome<()>) returns (p: Progress<ViewerAwait, Sdp>)
      requires engine != buffer as object
      modifies this`presenter, this`viewers, this`viewersLength, this`kurentoClient, buffer, engine
      ensures r.Success? ==>
        && p == Fulfilled(sdpAnswer)
        && Snapshot() == old(Snapshot()).(
             viewers := old(viewers)[d.id := Viewer(d.id, endpoint)],
             viewersLength := if old(viewersLength) <= d.id then d.id + 1 else old(viewersLength))
      ensures r.Failure? ==>
        && Snapshot() == StopCascade(old(Snapshot()), d.id).state
        && p == if StopCascade(old(Snapshot()), d.id).threw then Hung else Failed(One2ManyErrors.Templated("GATHER_CANDIDATES", r.fault))
    {
      if r.Failure? {
        p := StopThenReject(d.id, One2ManyErrors.Templated("GATHER_CANDIDATES", r.fault));
      } else {
        viewers := viewers[d.id := Viewer(d.id, endpoint)];
        if viewersLength <= d.id {
          viewersLength := d.id + 1;
        }
        p := Fulfilled(sdpAnswer);
      }
    }

    /** The `viewer` case's `.then`/`.catch`: no `stop`, only the response. */
    method SettleViewer(ws: Socket, p: Progress<ViewerAwait, Sdp>)
      requires !p.Pending?
      modifies engine
      ensures p.Fulfilled? ==> engine.log == old(engine.log) + [Sent(ws, ViewerResponse(Accepted(p.value)))]
      ensures p.Failed? && p.reason.Error? ==>
        engine.log == old(engine.log) + [Sent(ws, ViewerResponse(Rejected(p.reason.name + ": " + p.reason.message)))]
      ensures p.Hung? || (p.Failed? && p.reason.Undefined?) ==> engine.log == old(engine.log)
    {
      match p
      case Fulfilled(sdpAnswer) =>
        engine.Send(ws, ViewerResponse(Accepted(sdpAnswer)));
      case Failed(reason) =>
        if reason.Error? {
          engine.Send(ws, ViewerResponse(Rejected(reason.name + ": " + reason.message)));
        }
      case Hung =>
    }

    /** The `default` case. */
    method RejectUnknown(ws: Socket)
      modifies engine
      ensures engine.log == old(engine.log) + [Sent(ws, ErrorEvent("Invalid message [object Object]"))]
    {
      engine.Send(ws, ErrorEvent("Invalid message [object Object]"));
    }
  }
}
