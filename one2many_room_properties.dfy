/**
 * What `stop` in kurento-one2many-call/serverRoom.js does, stated over the
 * `StopCascade` specification its `Server.Stop` method is proved against.
 * Unlike app.js, the presenter entry survives its own `stop`.
 */
module One2ManyRoomProperties {
  import opened Engine
  import opened Lookup
  import opened Candidates
  import opened One2ManyRoom

  /** The effects a step added to the log. */
  function Added(after: RoomState, before: RoomState): seq<Effect>
    requires |before.log| <= |after.log|
  {
    after.log[|before.log|..]
  }

  predicate NothingSent(effects: seq<Effect>)
  {
    forall e :: e in effects ==> !e.Sent?
  }

  predicate NothingReleased(effects: seq<Effect>)
  {
    forall e :: e in effects ==> !IsRelease(e)
  }

  /** Whether no viewer entry carries a socket, as every entry `startViewer` pushes. */
  predicate Socketless(viewers: seq<Viewer>)
  {
    forall v :: v in viewers ==> v.ws.None?
  }

  /** `stop`'s loop sends a bare `stopCommunication` to exactly the viewers that have a socket, whatever their room. */
  lemma {:induction false} StopNoticesReachSockets(viewers: seq<Viewer>)
    ensures forall e :: e in StopNotices(viewers) <==>
      exists v :: v in viewers && v.ws.Some? && e == Sent(v.ws.value, StopCommunication(None))
    decreases |viewers|
  {
    if viewers != [] {
      var front, last := viewers[..|viewers| - 1], viewers[|viewers| - 1];
      StopNoticesReachSockets(front);
      assert viewers == front + [last];
      forall e | exists v :: v in viewers && v.ws.Some? && e == Sent(v.ws.value, StopCommunication(None))
        ensures e in StopNotices(viewers)
      {
        var v :| v in viewers && v.ws.Some? && e == Sent(v.ws.value, StopCommunication(None));
        if v != last {
          assert v in front;
        }
      }
    }
  }

  lemma NoReleases(effects: seq<Effect>)
    requires NothingReleased(effects)
    ensures Releases(effects) == []
  {
    if Releases(effects) != [] {
      assert Releases(effects)[0] in Releases(effects);
    }
  }

  lemma CloseIfIdleAddsClose(s: RoomState)
    ensures var r := CloseIfIdle(s);
      |s.log| <= |r.log| && NothingSent(Added(r, s)) && NothingReleased(Added(r, s))
  {
    var r := CloseIfIdle(s);
    assert Added(r, s) == [] || Added(r, s) == [ClientClosed(s.kurentoClient.value)];
  }

  /** The path `stop` takes for a presenter that is not also a viewer. */
  lemma PresenterStopPath(s: RoomState, id: SessionId, i: nat)
    requires FirstPresenterWithId(s.presenters, id, i)
    requires !HasViewerId(s.viewers, id)
    ensures StopCascade(s, id) == StopResult(CloseIfIdle(WithoutQueue(DropViewersOf(s, i), id)), false)
  {
    var found := Search(s.presenters, s.viewers, id);
    assert found.presenterIndex == i by {
      var k := found.presenterIndex;
      assert !(k < i) && !(i < k);
    }
  }

  /** The path `stop` takes for a viewer that is not also a presenter. */
  lemma ViewerStopPath(s: RoomState, id: SessionId, i: nat)
    requires !HasPresenterId(s.presenters, id)
    requires FirstViewerWithId(s.viewers, id, i)
    ensures StopCascade(s, id) == StopResult(CloseIfIdle(WithoutQueue(DropViewer(s, i), id)), false)
  {
    var found := Search(s.presenters, s.viewers, id);
    assert found.viewerIndex == i by {
      var k := found.viewerIndex;
      assert !(k < i) && !(i < k);
    }
  }

  /** The log of the presenter branch: the notices, the release, then what the end of `stop` adds. */
  lemma PresenterStopLog(s: RoomState, id: SessionId, i: nat)
    requires i < |s.presenters|
    ensures var cleared := WithoutQueue(DropViewersOf(s, i), id);
      var r := CloseIfIdle(cleared);
      && |s.log| <= |cleared.log| <= |r.log|
      && Added(r, s) == StopNotices(s.viewers) + [Released(s.presenters[i].pipeline)] + Added(r, cleared)
      && NothingSent(Added(r, cleared)) && NothingReleased(Added(r, cleared))
  {
    var cleared := WithoutQueue(DropViewersOf(s, i), id);
    var r := CloseIfIdle(cleared);
    CloseIfIdleAddsClose(cleared);
    assert cleared.log == s.log + (StopNotices(s.viewers) + [Released(s.presenters[i].pipeline)]);
    assert r.log == cleared.log + Added(r, cleared);
  }

  /** The presenter branch releases exactly the presenter's pipeline. */
  lemma PresenterStopReleases(s: RoomState, id: SessionId, i: nat)
    requires i < |s.presenters|
    ensures var r := CloseIfIdle(WithoutQueue(DropViewersOf(s, i), id));
      |s.log| <= |r.log| && Releases(Added(r, s)) == [Released(s.presenters[i].pipeline)]
  {
    PresenterStopLog(s, id, i);
    var cleared := WithoutQueue(DropViewersOf(s, i), id);
    var r := CloseIfIdle(cleared);
    var notices := StopNotices(s.viewers);
    var release := [Released(s.presenters[i].pipeline)];
    StopNoticesReachSockets(s.viewers);
    assert NothingReleased(notices);
    NoReleases(notices);
    NoReleases(Added(r, cleared));
    ReleasesDistribute(notices, release);
    ReleasesDistribute(notices + release, Added(r, cleared));
    assert Releases(release) == release by {
      assert release[..0] == [];
    }
  }

  /**
   * `stop` of a presenter that is not also a viewer: its pipeline is released,
   * every viewer entry of every room is dropped, the presenter entry itself
   * stays, and the messages sent are exactly the bare notices to viewers that
   * hold a socket.
   */
  lemma StopOfPresenter(s: RoomState, id: SessionId, i: nat)
    requires FirstPresenterWithId(s.presenters, id, i)
    requires !HasViewerId(s.viewers, id)
    ensures var r := StopCascade(s, id);
      && !r.threw
      && r.state.presenters == s.presenters
      && r.state.viewers == []
      && r.state.kurentoClient == s.kurentoClient
      && Releases(Added(r.state, s)) == [Released(s.presenters[i].pipeline)]
      && (forall e :: e in Added(r.state, s) && e.Sent? <==>
            exists v :: v in s.viewers && v.ws.Some? && e == Sent(v.ws.value, StopCommunication(None)))
  {
    PresenterStopPath(s, id, i);
    PresenterStopReleases(s, id, i);
    PresenterStopLog(s, id, i);
    StopNoticesReachSockets(s.viewers);
  }

  /** The viewers `startViewer` registers have no socket, so a presenter's `stop` tells none of them. */
  lemma StopOfPresenterTellsNoViewer(s: RoomState, id: SessionId, i: nat)
    requires FirstPresenterWithId(s.presenters, id, i)
    requires !HasViewerId(s.viewers, id)
    requires Socketless(s.viewers)
    ensures var r := StopCascade(s, id);
      |s.log| <= |r.state.log| && NothingSent(Added(r.state, s))
  {
    StopOfPresenter(s, id, i);
  }

  /**
   * Because the presenter entry survives, a second `stop` of the same session
   * takes the same branch again and releases the same pipeline a second time.
   */
  lemma StopTwiceReleasesPipelineTwice(s: RoomState, id: SessionId, i: nat)
    requires FirstPresenterWithId(s.presenters, id, i)
    requires !HasViewerId(s.viewers, id)
    ensures var r1 := StopCascade(s, id);
      var r2 := StopCascade(r1.state, id);
      && !r2.threw
      && r2.state.presenters == s.presenters
      && Releases(Added(r1.state, s)) == [Released(s.presenters[i].pipeline)]
      && Releases(Added(r2.state, r1.state)) == [Released(s.presenters[i].pipeline)]
  {
    StopOfPresenter(s, id, i);
    var r1 := StopCascade(s, id);
    assert !HasViewerId(r1.state.viewers, id);
    StopOfPresenter(r1.state, id, i);
  }

  /** `stop` of a viewer that is not also a presenter releases only its endpoint, removes only its entry and sends nothing. */
  lemma StopOfViewer(s: RoomState, id: SessionId, i: nat)
    requires !HasPresenterId(s.presenters, id)
    requires FirstViewerWithId(s.viewers, id, i)
    ensures var r := StopCascade(s, id);
      && !r.threw
      && r.state.viewers == RemoveAt(s.viewers, i)
      && Releases(Added(r.state, s)) == [EndpointReleased(s.viewers[i].webRtcEndpoint)]
      && NothingSent(Added(r.state, s))
  {
    ViewerStopPath(s, id, i);
    var cleared := WithoutQueue(DropViewer(s, i), id);
    var r := CloseIfIdle(cleared);
    CloseIfIdleAddsClose(cleared);
    var closing := Added(r, cleared);
    var released := EndpointReleased(s.viewers[i].webRtcEndpoint);
    assert Added(r, s) == [released] + closing;
    NoReleases(closing);
    ReleasesDistribute([released], closing);
    assert Releases([released]) == [released] by {
      assert [released][..0] == [];
    }
  }

  /** A session both presenting and viewing makes `stop` throw after dropping every viewer; the next `stop` does not throw. */
  lemma StopOfPresenterAndViewer(s: RoomState, id: SessionId)
    requires HasPresenterId(s.presenters, id) && HasViewerId(s.viewers, id)
    ensures var r1 := StopCascade(s, id);
      var r2 := StopCascade(r1.state, id);
      && r1.threw && r1.state.viewers == [] && r1.state.queues == s.queues
      && !r2.threw && r2.state.queues.Keys == s.queues.Keys - {id}
  {
  }

  /** The state after `stop` is applied for each session of `ids` in turn. */
  function StopAll(s: RoomState, ids: seq<SessionId>): RoomState
    decreases |ids|
  {
    if ids == [] then s else StopAll(StopCascade(s, ids[0]).state, ids[1..])
  }

  /**
   * Once a presenter has been registered, no sequence of `stop`s empties
   * `presenters` again, so the client is never closed or forgotten.
   */
  lemma {:induction false} StopsKeepPresentersAndClient(s: RoomState, ids: seq<SessionId>)
    requires s.presenters != []
    ensures StopAll(s, ids).presenters == s.presenters
    ensures StopAll(s, ids).kurentoClient == s.kurentoClient
    decreases |ids|
  {
    if ids != [] {
      StopsKeepPresentersAndClient(StopCascade(s, ids[0]).state, ids[1..]);
    }
  }
}
