/**
 * The loopback-and-record server kurento-hello-world/serverRefactor.js: one
 * pipeline per browser session, kept in the `sessions` map once negotiation
 * has finished, a `candidatesQueue` map for candidates that arrive earlier, and
 * `errorHandler`, which turns a rejection into an `error` message.
 */
module HelloWorld {
  import opened Engine
  import opened Candidates
  import One2ManyErrors

  /**
   * The session id of a connection: the express session's id, or `null`
   * before it is known.  Used as an object key, `null` becomes "null".
   */
  type SessionRef = Option<string>

  function Key(id: SessionRef): string
  {
    if id.Some? then id.value else "null"
  }

  /** `!sessionId` */
  predicate Falsy(id: SessionRef)
  {
    id.None? || id.value == ""
  }

  const DefaultWsUri := "ws://localhost:8888/kurento"

  /** This file's own error table. */
  const NoMediaServerText := "Could not find media server at address "
  const NoSessionId := Error("NO_SESSION_ID", "Cannot use undefined sessionId")

  /** The names of the table's entries. */
  const TableNames: set<string> := {
    "NO_MEDIA_SERVER", "NO_SESSION_ID", "NO_PIPELINE", "KURENTO_CLIENT_CREATE", "CREATE_MEDIA_ELEMENT",
    "CONNECT_MEDIA_ELEMENTS", "RECORD_MEDIA_ELEMENT", "PROCESS_OFFER", "GATHER_CANDIDATES"}

  /** The names `errorHandler`'s switch has a case for. */
  const PrefixedNames: set<string> := {
    "NO_MEDIA_SERVER", "NO_SESSION_ID", "KURENTO_CLIENT_CREATE", "CREATE_MEDIA_ELEMENT",
    "CONNECT_MEDIA_ELEMENTS", "PROCESS_OFFER", "GATHER_CANDIDATES", "RECORD_MEDIA_ELEMENT"}

  /** What `errorHandler` may be given: `null`/`undefined`, or an object whose fields may be missing. */
  datatype ErrValue = Nullish | Obj(name: Option<string>, message: Option<string>)

  /** A rejection reason as `errorHandler` sees it. */
  function AsErrValue(r: Reason): ErrValue
  {
    match r
    case Error(name, message) => Obj(Some(name), Some(message))
    case Undefined => Nullish
  }

  /** `err?.message ?? 'unknown error'` */
  function Body(err: ErrValue): string
  {
    if err.Obj? && err.message.Some? then err.message.value else "unknown error"
  }

  /** Whether `err?.name` matches a case of the switch. */
  predicate HasPrefixedName(err: ErrValue)
  {
    err.Obj? && err.name.Some? && err.name.value in PrefixedNames
  }

  /** The text of the `error` message `errorHandler` builds. */
  function ErrorText(err: ErrValue): string
  {
    if HasPrefixedName(err) then err.name.value + ": " + Body(err) else Body(err)
  }

  /**
   * The switch covers every entry of the table but `NO_PIPELINE`: an error
   * from the table is prefixed with its name exactly when it is not that one.
   */
  lemma SwitchCoversTableButNoPipeline(name: string, message: string)
    requires name in TableNames
    ensures ErrorText(Obj(Some(name), Some(message))) == if name == "NO_PIPELINE" then message else name + ": " + message
  {
    assert name != "NO_PIPELINE" ==> name in PrefixedNames;
  }

  /** A value with no `message` is reported as "unknown error", prefixed only by a known name. */
  lemma MissingMessageIsUnknown(err: ErrValue)
    requires err.Nullish? || err.message.None?
    ensures ErrorText(err) == if HasPrefixedName(err) then err.name.value + ": unknown error" else "unknown error"
  {
  }

  /**
   * What `errorHandler` sends for each rejection this server makes: a reason
   * named in the switch reads exactly as the one-to-many servers' optional
   * chain would render it, any other error object gives its bare message, and
   * `undefined` gives "unknown error".  In particular a filled-in constant of
   * the switch carries its name and then the engine error's text.
   */
  lemma HandlerText(r: Reason)
    ensures r.Error? && r.name in PrefixedNames ==> ErrorText(AsErrValue(r)) == OptionalChainText(r)
    ensures r.Error? && r.name !in PrefixedNames ==> ErrorText(AsErrValue(r)) == r.message
    ensures r.Undefined? ==> ErrorText(AsErrValue(r)) == "unknown error"
    ensures forall name, f :: name in PrefixedNames ==>
      ErrorText(AsErrValue(One2ManyErrors.Templated(name, f))) == name + ": " + f.Text()
  {
    forall name, f | name in PrefixedNames
      ensures ErrorText(AsErrValue(One2ManyErrors.Templated(name, f))) == name + ": " + f.Text()
    {
      var e := AsErrValue(One2ManyErrors.Templated(name, f));
      assert e == Obj(Some(name), Some(f.Text()));
      assert HasPrefixedName(e);
    }
  }

  /** A registered session. */
  datatype Session = Session(pipeline: Pipeline, webRtcEndpoint: Endpoint)

  datatype HelloState = HelloState(sessions: map<string, Session>, queues: Queues<string>, log: seq<Effect>)

  /** `stop(sessionId)`: only a registered session is torn down, queue included. */
  function StopSession(s: HelloState, key: string): (r: HelloState)
    ensures key !in s.sessions ==> r == s
    ensures key in s.sessions ==>
      && r.sessions == s.sessions - {key}
      && r.queues == Cleared(s.queues, key)
      && r.log == s.log + [Released(s.sessions[key].pipeline)]
  {
    if key in s.sessions then
      HelloState(s.sessions - {key}, s.queues - {key}, s.log + [Released(s.sessions[key].pipeline)])
    else s
  }

  datatype StartDraft = StartDraft(id: string, ws: Socket, sdpOffer: Sdp)

  /** The engine call `startPromise` is waiting for. */
  datatype StartAwait =
    | StartClient(draft: StartDraft)
    | StartPipeline(draft: StartDraft, client: Client)
    | StartElements(draft: StartDraft, pipeline: Pipeline)
    | LoopbackConnect(draft: StartDraft, pipeline: Pipeline, endpoint: Endpoint, recorder: Endpoint)
    | RecorderConnect(draft: StartDraft, pipeline: Pipeline, endpoint: Endpoint, recorder: Endpoint)
    | RecorderRecord(draft: StartDraft, pipeline: Pipeline, endpoint: Endpoint, recorder: Endpoint)
    | StartAnswer(draft: StartDraft, pipeline: Pipeline, endpoint: Endpoint)
    | StartGather(draft: StartDraft, pipeline: Pipeline, endpoint: Endpoint, sdpAnswer: Sdp)

  class Server {
    const engine: MediaEngine
    const buffer: CandidateBuffer<string>
    const wsUri: string
    var sessions: map<string, Session>
    var kurentoClient: Option<Client>
    var noMediaServerMessage: string

    ghost function Snapshot(): HelloState
      reads this, engine, buffer
    {
      HelloState(sessions, buffer.queues, engine.log)
    }

    constructor (wsUri: string)
      ensures this.wsUri == wsUri && fresh(engine) && fresh(buffer) && engine != buffer as object
      ensures sessions == map[] && kurentoClient == None && noMediaServerMessage == NoMediaServerText
      ensures engine.log == [] && buffer.queues == map[]
    {
      this.wsUri := wsUri;
      engine := new MediaEngine();
      buffer := new CandidateBuffer();
      sessions := map[];
      kurentoClient := None;
      noMediaServerMessage := NoMediaServerText;
    }

    /** `stop(sessionId)` */
    method Stop(sessionId: SessionRef)
      requires engine != buffer as object
      modifies this`sessions, buffer, engine
      ensures Snapshot() == StopSession(old(Snapshot()), Key(sessionId))
    {
      var key := Key(sessionId);
      if key in sessions {
        engine.Release(sessions[key].pipeline);
        sessions := sessions - {key};
        buffer.Clear(key);
      }
    }

    /** `onIceCandidate(sessionId, candidate)`: to the registered session's endpoint, else to the queue. */
    method OnIceCandidate(sessionId: SessionRef, candidate: Candidate)
      requires engine != buffer as object
      modifies buffer, engine
      ensures Key(sessionId) in sessions ==>
        && engine.log == old(engine.log) + [CandidateAdded(sessions[Key(sessionId)].webRtcEndpoint, candidate)]
        && buffer.queues == old(buffer.queues)
      ensures Key(sessionId) !in sessions ==>
        && buffer.queues == Enqueued(old(buffer.queues), Key(sessionId), candidate)
        && engine.log == old(engine.log)
    {
      var key := Key(sessionId);
      if key in sessions {
        engine.AddIceCandidate(sessions[key].webRtcEndpoint, candidate);
      } else {
        buffer.Enqueue(key, candidate);
      }
    }

    /** `startPromise` up to its first await: a falsy id is refused with `NO_SESSION_ID`. */
    method Start(sessionId: SessionRef, ws: Socket, sdpOffer: Sdp) returns (p: Progress<StartAwait, Sdp>)
      ensures Falsy(sessionId) ==> p == Failed(NoSessionId)
      ensures !Falsy(sessionId) ==>
        var d := StartDraft(sessionId.value, ws, sdpOffer);
        p == if kurentoClient.Some? then Pending(StartPipeline(d, kurentoClient.value)) else Pending(StartClient(d))
    {
      if sessionId.None? || sessionId.value == "" {
        return Failed(NoSessionId);
      }
      var d := StartDraft(sessionId.value, ws, sdpOffer);
      if kurentoClient.Some? {
        p := Pending(StartPipeline(d, kurentoClient.value));
      } else {
        p := Pending(StartClient(d));
      }
    }

    /** `getKurentoCLientPromise` answered: the client is not stored; a failure extends `NO_MEDIA_SERVER`'s message. */
    method ClientReady(d: StartDraft, r: Outcome<Client>) returns (p: Progress<StartAwait, Sdp>)
      modifies this`noMediaServerMessage
      ensures r.Success? ==> p == Pending(StartPipeline(d, r.value)) && noMediaServerMessage == old(noMediaServerMessage)
      ensures r.Failure? ==>
        && noMediaServerMessage == One2ManyErrors.NoMediaServerGrown(old(noMediaServerMessage), wsUri, r.fault)
        && p == Failed(Error("NO_MEDIA_SERVER", noMediaServerMessage))
    {
      match r
      case Success(client) =>
        p := Pending(StartPipeline(d, client));
      case Failure(f) =>
        noMediaServerMessage := One2ManyErrors.NoMediaServerGrown(noMediaServerMessage, wsUri, f);
        p := Failed(Error("NO_MEDIA_SERVER", noMediaServerMessage));
    }

    /** `kurentoClientCreatePromise` answered. */
    method PipelineReady(d: StartDraft, r: Outcome<Pipeline>) returns (p: Progress<StartAwait, Sdp>)
      ensures r.Success? ==> p == Pending(StartElements(d, r.value))
      ensures r.Failure? ==> p == Failed(One2ManyErrors.Templated("KURENTO_CLIENT_CREATE", r.fault))
    {
      p := if r.Success? then Pending(StartElements(d, r.value))
           else Failed(One2ManyErrors.Templated("KURENTO_CLIENT_CREATE", r.fault));
    }

    /**
     * `createMediaElementsPromise` answered, all or nothing: both endpoints,
     * after which the queue is drained into the WebRTC endpoint, or a released
     * pipeline and `CREATE_MEDIA_ELEMENT`.
     */
    method ElementsReady(d: StartDraft, pipeline: Pipeline, r: Outcome<(Endpoint, Endpoint)>) returns (p: Progress<StartAwait, Sdp>)
      requires engine != buffer as object
      modifies buffer, engine
      ensures r.Failure? ==>
        && p == Failed(One2ManyErrors.Templated("CREATE_MEDIA_ELEMENT", r.fault))
        && engine.log == old(engine.log) + [Released(pipeline)] && buffer.queues == old(buffer.queues)
      ensures r.Success? ==>
        && p == Pending(LoopbackConnect(d, pipeline, r.value.0, r.value.1))
        && engine.log == old(engine.log) + Deliveries(r.value.0, Waiting(old(buffer.queues), d.id))
        && buffer.queues == Drained(old(buffer.queues), d.id)
    {
      match r
      case Failure(f) =>
        engine.Release(pipeline);
        p := Failed(One2ManyErrors.Templated("CREATE_MEDIA_ELEMENT", f));
      case Success(elements) =>
        buffer.DrainInto(d.id, elements.0, engine);
        p := Pending(LoopbackConnect(d, pipeline, elements.0, elements.1));
    }

    /** The endpoint's connection to itself answered: a failure releases nothing. */
    method LoopbackConnected(d: StartDraft, pipeline: Pipeline, endpoint: Endpoint, recorder: Endpoint, r: Outcome<()>)
      returns (p: Progress<StartAwait, Sdp>)
      ensures r.Success? ==> p == Pending(RecorderConnect(d, pipeline, endpoint, recorder))
      ensures r.Failure? ==> p == Failed(One2ManyErrors.Templated("CONNECT_MEDIA_ELEMENTS", r.fault))
    {
      p := if r.Success? then Pending(RecorderConnect(d, pipeline, endpoint, recorder))
           else Failed(One2ManyErrors.Templated("CONNECT_MEDIA_ELEMENTS", r.fault));
    }

    /** The endpoint's connection to the recorder answered: a failure releases the pipeline and tells the browser at once. */
    method RecorderConnected(d: StartDraft, pipeline: Pipeline, endpoint: Endpoint, recorder: Endpoint, r: Outcome<()>)
      returns (p: Progress<StartAwait, Sdp>)
      modifies engine
      ensures r.Success? ==> p == Pending(RecorderRecord(d, pipeline, endpoint, recorder)) && engine.log == old(engine.log)
      ensures r.Failure? ==>
        && p == Failed(One2ManyErrors.Templated("CONNECT_MEDIA_ELEMENTS", r.fault))
        && engine.log == old(engine.log) + [Released(pipeline), Sent(d.ws, EngineErrorEvent(r.fault))]
    {
      if r.Failure? {
        engine.Release(pipeline);
        engine.Send(d.ws, EngineErrorEvent(r.fault));
        p := Failed(One2ManyErrors.Templated("CONNECT_MEDIA_ELEMENTS", r.fault));
      } else {
        p := Pending(RecorderRecord(d, pipeline, endpoint, recorder));
      }
    }

    /** `recorderEndpoint.record()` answered: a failure releases the pipeline and tells the browser at once. */
    method RecordingStarted(d: StartDraft, pipeline: Pipeline, endpoint: Endpoint, r: Outcome<()>) returns (p: Progress<StartAwait, Sdp>)
      modifies engine
      ensures r.Success? ==> p == Pending(StartAnswer(d, pipeline, endpoint)) && engine.log == old(engine.log)
      ensures r.Failure? ==>
        && p == Failed(One2ManyErrors.Templated("RECORD_MEDIA_ELEMENT", r.fault))
        && engine.log == old(engine.log) + [Released(pipeline), Sent(d.ws, EngineErrorEvent(r.fault))]
    {
      if r.Failure? {
        engine.Release(pipeline);
        engine.Send(d.ws, EngineErrorEvent(r.fault));
        p := Failed(One2ManyErrors.Templated("RECORD_MEDIA_ELEMENT", r.fault));
      } else {
        p := Pending(StartAnswer(d, pipeline, endpoint));
      }
    }

    /** `processOfferPromise` answered: a failure releases nothing. */
    method AnswerReady(d: StartDraft, pipeline: Pipeline, endpoint: Endpoint, r: Outcome<Sdp>) returns (p: Progress<StartAwait, Sdp>)
      ensures r.Success? ==> p == Pending(StartGather(d, pipeline, endpoint, r.value))
      ensures r.Failure? ==> p == Failed(One2ManyErrors.Templated("PROCESS_OFFER", r.fault))
    {
      p := if r.Success? then Pending(StartGather(d, pipeline, endpoint, r.value))
           else Failed(One2ManyErrors.Templated("PROCESS_OFFER", r.fault));
    }

    /**
     * `gatherCandidatesPromise` answered: a failure releases nothing; a
     * success registers the session, overwriting (and not releasing) any
     * earlier entry of the same id.
     */
    method Gathered(d: StartDraft, pipeline: Pipeline, endpoint: Endpoint, sdpAnswer: Sdp, r: Outcome<()>)
      returns (p: Progress<StartAwait, Sdp>)
      modifies this`sessions
      ensures r.Success? ==> p == Fulfilled(sdpAnswer) && sessions == old(sessions)[d.id := Session(pipeline, endpoint)]
      ensures r.Failure? ==> p == Failed(One2ManyErrors.Templated("GATHER_CANDIDATES", r.fault)) && sessions == old(sessions)
    {
      if r.Failure? {
        return Failed(One2ManyErrors.Templated("GATHER_CANDIDATES", r.fault));
      }
      sessions := sessions[d.id := Session(pipeline, endpoint)];
      p := Fulfilled(sdpAnswer);
    }

    /** `errorHandler(err, ws)`: the message goes out only through a socket that exists. */
    method HandleError(err: ErrValue, ws: Option<Socket>)
      modifies engine
      ensures ws.Some? ==> engine.log == old(engine.log) + [Sent(ws.value, ErrorEvent(ErrorText(err)))]
      ensures ws.None? ==> engine.log == old(engine.log)
    {
      var text := Body(err);
      if err.Obj? && err.name.Some? && err.name.value in PrefixedNames {
        text := err.name.value + ": " + text;
      }
      if ws.Some? {
        engine.Send(ws.value, ErrorEvent(text));
      }
    }

    /** The `start` case's `.then`/`.catch`. */
    method Settle(ws: Socket, p: Progress<StartAwait, Sdp>)
      requires !p.Pending?
      modifies engine
      ensures p.Fulfilled? ==> engine.log == old(engine.log) + [Sent(ws, StartResponse(p.value))]
      ensures p.Failed? ==> engine.log == old(engine.log) + [Sent(ws, ErrorEvent(ErrorText(AsErrValue(p.reason))))]
      ensures p.Hung? ==> engine.log == old(engine.log)
    {
      match p
      case Fulfilled(sdpAnswer) =>
        engine.Send(ws, StartResponse(sdpAnswer));
      case Failed(reason) =>
        HandleError(AsErrValue(reason), Some(ws));
      case Hung =>
    }

    /** The `default` case. */
    method RejectUnknown(ws: Socket)
      modifies engine
      ensures engine.log == old(engine.log) + [Sent(ws, ErrorEvent("Invalid message [object Object]"))]
    {
      engine.Send(ws, ErrorEvent("Invalid message [object Object]"));
    }
  }
}
