/**
 * The media engine as the signalling servers see it: opaque handles, the error
 * values its callbacks report, the wire messages the servers send, and a façade
 * object that records every release, close, candidate hand-over and send in a
 * ghost log, so that "released exactly once" or "nothing was sent" can be stated.
 */
module Engine {

  datatype Option<+T> = None | Some(value: T)

  /** Opaque handles of objects that live in the media server. */
  datatype Client = Client(ref: nat)
  datatype Pipeline = Pipeline(ref: nat)
  datatype Endpoint = Endpoint(ref: nat)

  /** An ICE candidate after the client library converted it; its content is not modelled. */
  datatype Candidate = Candidate(ref: nat)

  /** An SDP offer or answer, passed through unread. */
  datatype Sdp = Sdp(text: string)

  /** The browser connection (`ws`) a handler was given. */
  datatype Socket = Socket(ref: nat)

  /** The error object an engine callback reports. */
  datatype Fault = Fault(name: string, message: string)
  {
    /** The text string concatenation makes of the error object. */
    function Text(): string
    {
      name + ": " + message
    }
  }

  /** What an engine callback delivers: a value, or an error. */
  datatype Outcome<+T> = Success(value: T) | Failure(fault: Fault)

  /**
   * The value a promise is rejected with: an object with a `name` and a
   * `message` (an error constant, a raw engine error or a TypeError), or
   * `undefined` when the code rejects with an error constant that does not exist.
   */
  datatype Reason = Error(name: string, message: string) | Undefined

  /**
   * Where an asynchronous handler stands: waiting at an await for the engine
   * (the task says which), resolved, rejected, or never going to settle
   * (an exception escaped inside an engine callback).
   */
  datatype Progress<+T, +V> = Pending(task: T) | Fulfilled(value: V) | Failed(reason: Reason) | Hung

  /** `error?.name + ': ' + error?.message` */
  function OptionalChainText(r: Reason): string
  {
    match r
    case Error(name, message) => name + ": " + message
    case Undefined => "undefined: undefined"
  }

  /** Payload of a `presenterResponse`/`viewerResponse`. */
  datatype Answer = Accepted(sdpAnswer: Sdp) | Rejected(message: string)

  /** Payload of a `recordResponse`/`stopRecordResponse`. */
  datatype Verdict = RecordAccepted | RecordRejected(message: string)

  /** Outbound wire messages, as tagged values instead of JSON text. */
  datatype Message =
    | PresenterResponse(answer: Answer)
    | ViewerResponse(answer: Answer)
    | RecordResponse(verdict: Verdict)
    | StopRecordResponse(verdict: Verdict)
    | StopCommunication(room: Option<string>)
    | StartResponse(sdpAnswer: Sdp)
    | ErrorEvent(message: string)
    /** An `error` message whose `message` field is the engine's error object itself. */
    | EngineErrorEvent(fault: Fault)

  /** The observable effects on the engine and on the browsers. */
  datatype Effect =
    | Released(pipeline: Pipeline)
    | EndpointReleased(endpoint: Endpoint)
    | CandidateAdded(endpoint: Endpoint, candidate: Candidate)
    | ClientClosed(client: Client)
    | Sent(socket: Socket, message: Message)

  /** The effects that free engine resources. */
  predicate IsRelease(e: Effect)
  {
    e.Released? || e.EndpointReleased?
  }

  /** The releases among `effects`, in order. */
  function Releases(effects: seq<Effect>): (r: seq<Effect>)
    ensures |r| <= |effects|
    ensures forall e :: e in r <==> e in effects && IsRelease(e)
  {
    if effects == [] then []
    else
      var last := effects[|effects| - 1];
      Releases(effects[..|effects| - 1]) + (if IsRelease(last) then [last] else [])
  }

  /** Filtering for releases distributes over concatenation of logs. */
  lemma {:induction false} ReleasesDistribute(a: seq<Effect>, b: seq<Effect>)
    ensures Releases(a + b) == Releases(a) + Releases(b)
    decreases |b|
  {
    if b == [] {
      assert a + b == a;
    } else {
      var front, last := b[..|b| - 1], b[|b| - 1];
      var tail := if IsRelease(last) then [last] else [];
      assert (a + b)[..|a + b| - 1] == a + front;
      assert (a + b)[|a + b| - 1] == last;
      ReleasesDistribute(a, front);
      calc {
        Releases(a + b);
        Releases(a + front) + tail;
        Releases(a) + Releases(front) + tail;
        Releases(a) + Releases(b);
      }
    }
  }

  /** The façade: each call appends its effect to the log. */
  class MediaEngine {
    ghost var log: seq<Effect>

    constructor ()
      ensures log == []
    {
      log := [];
    }

    /** `pipeline.release()` */
    method Release(p: Pipeline)
      modifies this
      ensures log == old(log) + [Released(p)]
    {
      log := log + [Released(p)];
    }

    /** `webRtcEndpoint.release()` */
    method ReleaseEndpoint(e: Endpoint)
      modifies this
      ensures log == old(log) + [EndpointReleased(e)]
    {
      log := log + [EndpointReleased(e)];
    }

    /** `webRtcEndpoint.addIceCandidate(candidate)` */
    method AddIceCandidate(e: Endpoint, c: Candidate)
      modifies this
      ensures log == old(log) + [CandidateAdded(e, c)]
    {
      log := log + [CandidateAdded(e, c)];
    }

    /** `kurentoClient.close()` */
    method Close(c: Client)
      modifies this
      ensures log == old(log) + [ClientClosed(c)]
    {
      log := log + [ClientClosed(c)];
    }

    /** `ws.send(JSON.stringify(message))` */
    method Send(ws: Socket, m: Message)
      modifies this
      ensures log == old(log) + [Sent(ws, m)]
    {
      log := log + [Sent(ws, m)];
    }
  }
}
