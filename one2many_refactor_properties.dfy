/**
 * What `stop` in kurento-one2many-call/serverRefactor.js does to the presenter
 * slot, the viewer array and its `length`, stated over the `StopCascade`
 * specification its `Server.Stop` method is proved against.
 */
module One2ManyRefactorProperties {
  import opened Engine
  import opened Candidates
  import opened One2ManyRefactor

  function Added(after: RefactorState, before: RefactorState): seq<Effect>
    requires |before.log| <= |after.log|
  {
    after.log[|before.log|..]
  }

  predicate NothingSent(effects: seq<Effect>)
  {
    forall e :: e in effects ==> !e.Sent?
  }

  /** Every stored viewer sits below `viewers.length`, as JavaScript arrays guarantee. */
  predicate LengthCovers(s: RefactorState)
  {
    forall k :: k in s.viewers ==> k < s.viewersLength
  }

  /** What the end of `stop` adds to the log: at most a `close` of the client. */
  lemma CloseAddsAtMostClose(s: RefactorState)
    ensures var r := CloseIfIdle(s);
      r.log == s.log || r.log == s.log + [ClientClosed(s.kurentoClient.value)]
  {
  }

  /**
   * `stop` of the presenter once its pipeline exists: the pipeline is the one
   * resource released, the slot and every viewer entry are emptied, `length`
   * drops to 0, and the client is forgotten.
   */
  lemma StopOfPresenter(s: RefactorState, id: SessionId)
    requires Presents(s, id) && s.presenter.value.pipeline.Some?
    ensures var r := StopCascade(s, id);
      && !r.threw
      && r.state.presenter == None && r.state.viewers == map[] && r.state.viewersLength == 0
      && r.state.kurentoClient == None
      && Added(r.state, s) == [Released(s.presenter.value.pipeline.value)]
           + (if s.kurentoClient.Some? then [ClientClosed(s.kurentoClient.value)] else [])
  {
    var r := StopCascade(s, id);
    var released := s.(log := s.log + [Released(s.presenter.value.pipeline.value)],
                       presenter := None, viewers := map[], viewersLength := 0);
    assert r.state == CloseIfIdle(WithoutQueue(released, id));
  }

  /**
   * `stop` of a stored viewer that does not hold the slot: its endpoint is the
   * one resource released and its entry is deleted, but `length` stays, so the
   * client is kept.
   */
  lemma StopOfViewer(s: RefactorState, id: SessionId)
    requires !Presents(s, id) && id in s.viewers
    requires LengthCovers(s)
    ensures var r := StopCascade(s, id);
      && !r.threw
      && r.state.presenter == s.presenter
      && r.state.viewers == s.viewers - {id}
      && r.state.viewersLength == s.viewersLength > 0
      && r.state.kurentoClient == s.kurentoClient
      && Added(r.state, s) == [EndpointReleased(s.viewers[id].webRtcEndpoint)]
  {
  }

  /**
   * `stop` of a session that neither holds the slot nor is stored, such as a
   * viewer whose negotiation failed: only its queue goes (and an idle server
   * closes its client).
   */
  lemma StopOfUnknown(s: RefactorState, id: SessionId)
    requires !Presents(s, id) && id !in s.viewers
    ensures var r := StopCascade(s, id);
      && !r.threw
      && r.state.presenter == s.presenter && r.state.viewers == s.viewers
      && r.state.queues == Cleared(s.queues, id)
      && (r.state.log == s.log || r.state.log == s.log + [ClientClosed(s.kurentoClient.value)])
  {
    CloseAddsAtMostClose(WithoutQueue(s, id));
  }

  /** `stop` never sends anything: the notification loop finds no viewer with a socket. */
  lemma StopSendsNothing(s: RefactorState, id: SessionId)
    ensures var r := StopCascade(s, id);
      |s.log| <= |r.state.log| && NothingSent(Added(r.state, s))
  {
    var r := StopCascade(s, id);
    if Presents(s, id) && s.presenter.value.pipeline.Some? {
      StopOfPresenter(s, id);
    } else if !Presents(s, id) && id in s.viewers {
      var released := s.(log := s.log + [EndpointReleased(s.viewers[id].webRtcEndpoint)], viewers := s.viewers - {id});
      CloseAddsAtMostClose(WithoutQueue(released, id));
    } else if !Presents(s, id) {
      StopOfUnknown(s, id);
    }
  }

  /** `stop` keeps every stored viewer below `length`. */
  lemma StopKeepsLengthCovering(s: RefactorState, id: SessionId)
    requires LengthCovers(s)
    ensures LengthCovers(StopCascade(s, id).state)
  {
  }

  /** Storing a viewer at its id keeps every stored viewer below the stretched `length`. */
  lemma StoringKeepsLengthCovering(s: RefactorState, v: Viewer)
    requires LengthCovers(s)
    ensures LengthCovers(s.(viewers := s.viewers[v.id := v],
                            viewersLength := if s.viewersLength <= v.id then v.id + 1 else s.viewersLength))
  {
  }

  /** The state after `stop` is applied for each session of `ids` in turn. */
  function StopAll(s: RefactorState, ids: seq<SessionId>): RefactorState
    decreases |ids|
  {
    if ids == [] then s else StopAll(StopCascade(s, ids[0]).state, ids[1..])
  }

  /**
   * Once a viewer has been stored, stopping sessions other than the presenter
   * never brings `length` back to 0, so the client is never closed, however
   * many viewers leave.
   */
  lemma {:induction false} ViewerStopsKeepClient(s: RefactorState, ids: seq<SessionId>)
    requires s.viewersLength > 0
    requires forall i :: 0 <= i < |ids| ==> !Presents(s, ids[i])
    ensures StopAll(s, ids).presenter == s.presenter
    ensures StopAll(s, ids).viewersLength == s.viewersLength
    ensures StopAll(s, ids).kurentoClient == s.kurentoClient
    decreases |ids|
  {
    if ids != [] {
      var r := StopCascade(s, ids[0]).state;
      assert forall i :: 0 <= i < |ids[1..]| ==> !Presents(r, ids[1..][i]) by {
        forall i | 0 <= i < |ids[1..]|
          ensures !Presents(r, ids[1..][i])
        {
          assert ids[1..][i] == ids[i + 1];
        }
      }
      ViewerStopsKeepClient(r, ids[1..]);
    }
  }

  /** A claimed slot whose pipeline is still `null` makes its own `stop` throw, every time, and change nothing. */
  lemma StopOfUnfinishedPresenterThrows(s: RefactorState, id: SessionId)
    requires Presents(s, id) && s.presenter.value.pipeline.None?
    ensures StopCascade(s, id) == StopResult(s, true)
    ensures StopAll(s, [id, id]) == s
  {
    assert [id, id][1..] == [id];
    assert [id][1..] == [];
    assert StopAll(s, [id, id]) == StopAll(s, [id]) == StopAll(s, []);
  }

  /**
   * A candidate that arrives for a session after its `stop` is queued again:
   * whether the session held the slot, a viewer entry or neither, `stop` leaves
   * no endpoint for `onIceCandidate` to hand it to.
   */
  lemma CandidateAfterStopIsQueued(s: RefactorState, id: SessionId)
    ensures var r := StopCascade(s, id);
      !r.threw ==> IceRoute(r.state.presenter, r.state.viewers, id) == ToQueue
  {
  }

  /**
   * Once a viewer is stored at its id, its candidates reach its own endpoint,
   * unless the same session holds the slot with an endpoint set.
   */
  lemma StoredViewerReceivesCandidates(s: RefactorState, v: Viewer)
    requires !(Presents(s, v.id) && s.presenter.value.webRtcEndpoint.Some?)
    ensures IceRoute(s.presenter, s.viewers[v.id := v], v.id) == ToEndpoint(v.webRtcEndpoint)
  {
  }
}
