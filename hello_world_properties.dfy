/**
 * What `stop` and registration in kurento-hello-world/serverRefactor.js do
 * across calls, and runs of the server with the engine's answers chosen.
 */
module HelloWorldProperties {
  import opened Engine
  import opened Candidates
  import opened HelloWorld

  /** `stop` is idempotent: the second call finds nothing and changes nothing. */
  lemma StopIsIdempotent(s: HelloState, key: string)
    ensures StopSession(StopSession(s, key), key) == StopSession(s, key)
  {
  }

  /** The state after `n` calls of `stop` for the same session. */
  function StopTimes(s: HelloState, key: string, n: nat): HelloState
    decreases n
  {
    if n == 0 then s else StopTimes(StopSession(s, key), key, n - 1)
  }

  /** However often a session is stopped, its pipeline is released once, and only if it was registered. */
  lemma {:induction false} RepeatedStopReleasesOnce(s: HelloState, key: string, n: nat)
    requires n >= 1
    ensures var r := StopTimes(s, key, n);
      && key !in r.sessions
      && r.log == s.log + (if key in s.sessions then [Released(s.sessions[key].pipeline)] else [])
    decreases n
  {
    if n > 1 {
      var once := StopSession(s, key);
      RepeatedStopReleasesOnce(once, key, n - 1);
      assert once.log + [] == once.log;
    }
  }

  /**
   * A second successful `start` of the same session replaces its entry; a
   * later `stop` releases only the newer pipeline, so the older one is never
   * released.
   */
  lemma OverwrittenPipelineLeaks(s: HelloState, key: string, newer: Session)
    requires key in s.sessions && s.sessions[key].pipeline != newer.pipeline
    ensures var t := s.(sessions := s.sessions[key := newer]);
      var r := StopSession(t, key);
      && |t.log| <= |r.log|
      && r.log[|t.log|..] == [Released(newer.pipeline)]
      && Released(s.sessions[key].pipeline) !in r.log[|t.log|..]
  {
    var t := s.(sessions := s.sessions[key := newer]);
    assert StopSession(t, key).log[|t.log|..] == [Released(newer.pipeline)];
  }

  const SessionSocket := Socket(1)

  /** A start message on a connection whose session id is not known yet is refused; nothing is created. */
  method StartWithoutSessionId() returns (server: Server)
    ensures server.sessions == map[]
    ensures server.engine.log == [Sent(SessionSocket, ErrorEvent(NoSessionId.name + ": " + NoSessionId.message))]
  {
    server := new Server(DefaultWsUri);
    var p := server.Start(None, SessionSocket, Sdp("offer"));
    server.Settle(SessionSocket, p);
  }

  /**
   * Session "s" starts on `server` and every engine call succeeds; the
   * candidates queued for it reach the endpoint in arrival order.
   */
  method StartSession(server: Server, pipeline: Pipeline, endpoint: Endpoint)
    requires server.engine != server.buffer as object
    modifies server`sessions, server`noMediaServerMessage, server.engine, server.buffer
    ensures server.sessions == old(server.sessions)["s" := Session(pipeline, endpoint)]
    ensures server.buffer.queues == Drained(old(server.buffer.queues), "s")
    ensures server.engine.log == old(server.engine.log)
      + Deliveries(endpoint, Waiting(old(server.buffer.queues), "s"))
      + [Sent(SessionSocket, StartResponse(Sdp("answer")))]
  {
    var p := server.Start(Some("s"), SessionSocket, Sdp("offer"));
    if p.task.StartClient? {
      p := server.ClientReady(p.task.draft, Success(Client(1)));
    }
    p := server.PipelineReady(p.task.draft, Success(pipeline));
    p := server.ElementsReady(p.task.draft, p.task.pipeline, Success((endpoint, Endpoint(100))));
    p := server.LoopbackConnected(p.task.draft, p.task.pipeline, p.task.endpoint, p.task.recorder, Success(()));
    p := server.RecorderConnected(p.task.draft, p.task.pipeline, p.task.endpoint, p.task.recorder, Success(()));
    p := server.RecordingStarted(p.task.draft, p.task.pipeline, p.task.endpoint, Success(()));
    p := server.AnswerReady(p.task.draft, p.task.pipeline, p.task.endpoint, Success(Sdp("answer")));
    p := server.Gathered(p.task.draft, p.task.pipeline, p.task.endpoint, p.task.sdpAnswer, Success(()));
    server.Settle(SessionSocket, p);
  }

  /**
   * Two candidates arrive before the session starts; they are queued, then
   * handed to the new endpoint in arrival order before the answer is sent.
   */
  method EarlyCandidatesDelivered() returns (server: Server)
    ensures server.sessions == map["s" := Session(Pipeline(1), Endpoint(1))]
    ensures server.engine.log == [
      CandidateAdded(Endpoint(1), Candidate(1)), CandidateAdded(Endpoint(1), Candidate(2)),
      Sent(SessionSocket, StartResponse(Sdp("answer")))]
  {
    server := new Server(DefaultWsUri);
    server.OnIceCandidate(Some("s"), Candidate(1));
    server.OnIceCandidate(Some("s"), Candidate(2));
    assert Waiting(server.buffer.queues, "s") == [Candidate(1), Candidate(2)];
    StartSession(server, Pipeline(1), Endpoint(1));
  }

  /**
   * The session starts twice and then stops: the second registration replaces
   * the first, and `stop` releases only the second pipeline.
   */
  method RestartLeaksFirstPipeline() returns (server: Server)
    ensures server.sessions == map[]
    ensures Released(Pipeline(2)) in server.engine.log
    ensures Released(Pipeline(1)) !in server.engine.log
  {
    server := new Server(DefaultWsUri);
    StartSession(server, Pipeline(1), Endpoint(1));
    StartSession(server, Pipeline(2), Endpoint(2));
    server.Stop(Some("s"));
  }

  /** The engine's error when the recorder cannot be connected. */
  const ConnectFault := Fault("Error", "connect failed")

  /**
   * Connecting the recorder fails: the pipeline is released, the browser is
   * sent the engine's error object at once and then the handler's prefixed
   * text, and the session is never registered.
   */
  method RecorderConnectFails() returns (server: Server)
    ensures server.sessions == map[]
    ensures server.engine.log == [
      Released(Pipeline(1)),
      Sent(SessionSocket, EngineErrorEvent(ConnectFault)),
      Sent(SessionSocket, ErrorEvent("CONNECT_MEDIA_ELEMENTS" + ": " + ConnectFault.Text()))]
  {
    server := new Server(DefaultWsUri);
    var p := server.Start(Some("s"), SessionSocket, Sdp("offer"));
    p := server.ClientReady(p.task.draft, Success(Client(1)));
    p := server.PipelineReady(p.task.draft, Success(Pipeline(1)));
    p := server.ElementsReady(p.task.draft, p.task.pipeline, Success((Endpoint(1), Endpoint(2))));
    p := server.LoopbackConnected(p.task.draft, p.task.pipeline, p.task.endpoint, p.task.recorder, Success(()));
    p := server.RecorderConnected(p.task.draft, p.task.pipeline, p.task.endpoint, p.task.recorder, Failure(ConnectFault));
    server.Settle(SessionSocket, p);
  }
}
