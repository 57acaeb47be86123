/**
 * What `stop` in kurento-one2many-call/app.js does to the registry and to the
 * engine, stated over the `StopCascade` specification the `Server.Stop` method
 * is proved against.
 */
module One2ManyAppProperties {
  import opened Engine
  import opened Lookup
  import opened Candidates
  import opened One2ManyApp

  /** The effects a step added to the log. */
  function Added(after: AppState, before: AppState): seq<Effect>
    requires |before.log| <= |after.log|
  {
    after.log[|before.log|..]
  }

  /** Whether no effect in `effects` is a message to a browser. */
  predicate NothingSent(effects: seq<Effect>)
  {
    forall e :: e in effects ==> !e.Sent?
  }

  /** Whether no effect in `effects` frees an engine resource. */
  predicate NothingReleased(effects: seq<Effect>)
  {
    forall e :: e in effects ==> !IsRelease(e)
  }

  /** `stop`'s notification loop reaches exactly the viewers of the room, each with the room's name. */
  lemma {:induction false} StopNoticesReachRoom(viewers: seq<Viewer>, room: string)
    ensures forall e :: e in StopNotices(viewers, room) <==>
      exists v :: v in viewers && v.room == room && e == Sent(v.ws, StopCommunication(Some(room)))
    decreases |viewers|
  {
    if viewers != [] {
      var front, last := viewers[..|viewers| - 1], viewers[|viewers| - 1];
      StopNoticesReachRoom(front, room);
      assert viewers == front + [last];
      forall e | exists v :: v in viewers && v.room == room && e == Sent(v.ws, StopCommunication(Some(room)))
        ensures e in StopNotices(viewers, room)
      {
        var v :| v in viewers && v.room == room && e == Sent(v.ws, StopCommunication(Some(room)));
        if v != last {
          assert v in front;
        }
      }
    }
  }

  /** The closing step adds at most a `close` of the client. */
  lemma CloseIfIdleAddsClose(s: AppState)
    ensures var r := CloseIfIdle(s);
      |s.log| <= |r.log| && NothingSent(Added(r, s)) && NothingReleased(Added(r, s))
  {
    var r := CloseIfIdle(s);
    assert Added(r, s) == [] || Added(r, s) == [ClientClosed(s.kurentoClient.value)];
  }

  /** With no release among `effects`, filtering for releases leaves nothing. */
  lemma NoReleases(effects: seq<Effect>)
    requires NothingReleased(effects)
    ensures Releases(effects) == []
  {
    if Releases(effects) != [] {
      assert Releases(effects)[0] in Releases(effects);
    }
  }

  /** The path `stop` takes for a presenter that is not also a viewer. */
  lemma PresenterStopPath(s: AppState, id: SessionId, i: nat)
    requires FirstPresenterWithId(s.presenters, id, i)
    requires !HasViewerId(s.viewers, id)
    ensures StopCascade(s, id) == StopResult(CloseIfIdle(WithoutQueue(DropPresenter(s, i), id)), false)
  {
    var found := Search(s.presenters, s.viewers, id);
    assert found.presenterIndex == i by {
      var k := found.presenterIndex;
      assert !(k < i) && !(i < k);
    }
  }

  /** The path `stop` takes for a viewer that is not also a presenter. */
  lemma ViewerStopPath(s: AppState, id: SessionId, i: nat)
    requires !HasPresenterId(s.presenters, id)
    requires FirstViewerWithId(s.viewers, id, i)
    ensures StopCascade(s, id) == StopResult(CloseIfIdle(WithoutQueue(DropViewer(s, i), id)), false)
  {
    var found := Search(s.presenters, s.viewers, id);
    assert found.viewerIndex == i by {
      var k := found.viewerIndex;
      assert !(k < i) && !(i < k);
    }
  }

  /** The log of the presenter branch of `stop`: the notices, the release, then what the end of `stop` adds. */
  lemma PresenterStopLog(s: AppState, id: SessionId, i: nat)
    requires i < |s.presenters|
    ensures var cleared := WithoutQueue(DropPresenter(s, i), id);
      var r := CloseIfIdle(cleared);
      && |s.log| <= |cleared.log| <= |r.log|
      && Added(r, s) == StopNotices(s.viewers, s.presenters[i].room) + [Released(s.presenters[i].pipeline)] + Added(r, cleared)
      && NothingSent(Added(r, cleared)) && NothingReleased(Added(r, cleared))
  {
    var cleared := WithoutQueue(DropPresenter(s, i), id);
    var r := CloseIfIdle(cleared);
    CloseIfIdleAddsClose(cleared);
    var middle := StopNotices(s.viewers, s.presenters[i].room) + [Released(s.presenters[i].pipeline)];
    assert cleared.log == s.log + middle;
    assert r.log == cleared.log + Added(r, cleared);
  }

  /** The presenter branch of `stop` releases exactly the presenter's pipeline. */
  lemma PresenterStopReleases(s: AppState, id: SessionId, i: nat)
    requires i < |s.presenters|
    ensures var r := CloseIfIdle(WithoutQueue(DropPresenter(s, i), id));
      |s.log| <= |r.log| && Releases(Added(r, s)) == [Released(s.presenters[i].pipeline)]
  {
    PresenterStopLog(s, id, i);
    var cleared := WithoutQueue(DropPresenter(s, i), id);
    var r := CloseIfIdle(cleared);
    var notices := StopNotices(s.viewers, s.presenters[i].room);
    var release := [Released(s.presenters[i].pipeline)];
    StopNoticesReachRoom(s.viewers, s.presenters[i].room);
    assert NothingReleased(notices);
    NoReleases(notices);
    NoReleases(Added(r, cleared));
    ReleasesDistribute(notices, release);
    ReleasesDistribute(notices + release, Added(r, cleared));
    assert Releases(release) == release by {
      assert release[..0] == [];
    }
  }

  /** The presenter branch of `stop` sends exactly the room notices. */
  lemma PresenterStopSends(s: AppState, id: SessionId, i: nat)
    requires i < |s.presenters|
    ensures var r := CloseIfIdle(WithoutQueue(DropPresenter(s, i), id));
      && |s.log| <= |r.log|
      && forall e :: e in Added(r, s) && e.Sent? <==> e in StopNotices(s.viewers, s.presenters[i].room)
  {
    PresenterStopLog(s, id, i);
    StopNoticesReachRoom(s.viewers, s.presenters[i].room);
  }

  /**
   * `stop` of a presenter that is not also a viewer: its pipeline is the one
   * resource released, every viewer entry of every room is dropped, and exactly
   * that presenter entry is removed.
   */
  lemma StopOfPresenter(s: AppState, id: SessionId, i: nat)
    requires FirstPresenterWithId(s.presenters, id, i)
    requires !HasViewerId(s.viewers, id)
    ensures var r := StopCascade(s, id);
      && !r.threw
      && r.state.presenters == RemoveAt(s.presenters, i)
      && r.state.viewers == []
      && Releases(Added(r.state, s)) == [Released(s.presenters[i].pipeline)]
  {
    PresenterStopPath(s, id, i);
    PresenterStopReleases(s, id, i);
  }

  /**
   * The messages `stop` of a presenter sends: `stopCommunication` with the
   * room's name to every viewer of that room, and nothing to anyone else.
   */
  lemma StopOfPresenterNotifiesRoom(s: AppState, id: SessionId, i: nat)
    requires FirstPresenterWithId(s.presenters, id, i)
    requires !HasViewerId(s.viewers, id)
    ensures var r := StopCascade(s, id);
      var room := s.presenters[i].room;
      && |s.log| <= |r.state.log|
      && (forall v :: v in s.viewers && v.room == room ==> Sent(v.ws, StopCommunication(Some(room))) in Added(r.state, s))
      && (forall e :: e in Added(r.state, s) && e.Sent? ==>
            exists v :: v in s.viewers && v.room == room && e == Sent(v.ws, StopCommunication(Some(room))))
  {
    PresenterStopPath(s, id, i);
    PresenterStopSends(s, id, i);
    StopNoticesReachRoom(s.viewers, s.presenters[i].room);
  }

  /** `stop` of a viewer that is not also a presenter releases only its endpoint, removes only its entry and sends nothing. */
  lemma StopOfViewer(s: AppState, id: SessionId, i: nat)
    requires !HasPresenterId(s.presenters, id)
    requires FirstViewerWithId(s.viewers, id, i)
    ensures var r := StopCascade(s, id);
      && !r.threw
      && r.state.presenters == s.presenters
      && r.state.viewers == RemoveAt(s.viewers, i)
      && Releases(Added(r.state, s)) == [EndpointReleased(s.viewers[i].webRtcEndpoint)]
      && NothingSent(Added(r.state, s))
  {
    ViewerStopPath(s, id, i);
    var cleared := WithoutQueue(DropViewer(s, i), id);
    var r := CloseIfIdle(cleared);
    CloseIfIdleAddsClose(cleared);
    var closing := Added(r, cleared);
    var released := EndpointReleased(s.viewers[i].webRtcEndpoint);
    assert Added(r, s) == [released] + closing;
    NoReleases(closing);
    ReleasesDistribute([released], closing);
    assert Releases([released]) == [released] by {
      assert [released][..0] == [];
    }
  }

  /**
   * `stop` of a session in neither array deletes its queue and releases and
   * sends nothing (an idle server may close its client).
   */
  lemma StopOfUnknown(s: AppState, id: SessionId)
    requires !HasPresenterId(s.presenters, id) && !HasViewerId(s.viewers, id)
    ensures var r := StopCascade(s, id);
      && !r.threw
      && r.state.presenters == s.presenters && r.state.viewers == s.viewers
      && r.state.queues == Cleared(s.queues, id)
      && Releases(Added(r.state, s)) == []
      && NothingSent(Added(r.state, s))
  {
    var cleared := WithoutQueue(s, id);
    var r := StopCascade(s, id);
    CloseIfIdleAddsClose(cleared);
    assert Added(r.state, s) == Added(r.state, cleared);
    NoReleases(Added(r.state, s));
  }

  /** Whether `id` occupies at most one presenter entry, at most one viewer entry, and not both. */
  predicate OccursOnce(s: AppState, id: SessionId)
  {
    && (forall i, j :: 0 <= i < j < |s.presenters| && s.presenters[i].id == id ==> s.presenters[j].id != id)
    && (forall i, j :: 0 <= i < j < |s.viewers| && s.viewers[i].id == id ==> s.viewers[j].id != id)
    && !(HasPresenterId(s.presenters, id) && HasViewerId(s.viewers, id))
  }

  /** Removing the only presenter entry of `id` leaves none. */
  lemma RemovingOnlyPresenter(presenters: seq<Presenter>, id: SessionId, i: nat)
    requires FirstPresenterWithId(presenters, id, i)
    requires forall a, b :: 0 <= a < b < |presenters| && presenters[a].id == id ==> presenters[b].id != id
    ensures !HasPresenterId(RemoveAt(presenters, i), id)
  {
    var rest := RemoveAt(presenters, i);
    forall k | 0 <= k < |rest|
      ensures rest[k].id != id
    {
      if k < i {
        assert rest[k] == presenters[k];
      } else {
        assert rest[k] == presenters[k + 1];
      }
    }
  }

  /** Removing the only viewer entry of `id` leaves none. */
  lemma RemovingOnlyViewer(viewers: seq<Viewer>, id: SessionId, i: nat)
    requires FirstViewerWithId(viewers, id, i)
    requires forall a, b :: 0 <= a < b < |viewers| && viewers[a].id == id ==> viewers[b].id != id
    ensures !HasViewerId(RemoveAt(viewers, i), id)
  {
    var rest := RemoveAt(viewers, i);
    forall k | 0 <= k < |rest|
      ensures rest[k].id != id
    {
      if k < i {
        assert rest[k] == viewers[k];
      } else {
        assert rest[k] == viewers[k + 1];
      }
    }
  }

  /** After one `stop`, a session registered once is in neither array. */
  lemma StopForgetsSession(s: AppState, id: SessionId)
    requires OccursOnce(s, id)
    ensures var r := StopCascade(s, id);
      !HasPresenterId(r.state.presenters, id) && !HasViewerId(r.state.viewers, id)
  {
    var found := Search(s.presenters, s.viewers, id);
    if found.isPresenter {
      StopOfPresenter(s, id, found.presenterIndex);
      RemovingOnlyPresenter(s.presenters, id, found.presenterIndex);
    } else if found.isViewer {
      StopOfViewer(s, id, found.viewerIndex);
      RemovingOnlyViewer(s.viewers, id, found.viewerIndex);
    } else {
      StopOfUnknown(s, id);
    }
  }

  /**
   * Idempotence of `stop`: for a session registered once, a second `stop`
   * changes no registry entry and releases and sends nothing.
   */
  lemma StopTwiceReleasesNothing(s: AppState, id: SessionId)
    requires OccursOnce(s, id)
    ensures var r1 := StopCascade(s, id);
      var r2 := StopCascade(r1.state, id);
      && !r2.threw
      && r2.state.presenters == r1.state.presenters && r2.state.viewers == r1.state.viewers
      && Releases(Added(r2.state, r1.state)) == []
      && NothingSent(Added(r2.state, r1.state))
  {
    StopForgetsSession(s, id);
    StopOfUnknown(StopCascade(s, id).state, id);
  }

  /** Once the first presenter entry with `id` is removed, its second one is the first. */
  lemma SecondBecomesFirst(presenters: seq<Presenter>, id: SessionId, i: nat, j: nat)
    requires FirstPresenterWithId(presenters, id, i)
    requires i < j < |presenters| && presenters[j].id == id
    requires forall k :: i < k < j ==> presenters[k].id != id
    ensures FirstPresenterWithId(RemoveAt(presenters, i), id, j - 1)
    ensures RemoveAt(presenters, i)[j - 1] == presenters[j]
  {
    var rest := RemoveAt(presenters, i);
    forall k | 0 <= k < j - 1
      ensures rest[k].id != id
    {
      if k < i {
        assert rest[k] == presenters[k];
      } else {
        assert rest[k] == presenters[k + 1];
      }
    }
  }

  /**
   * Nothing stops a session presenting in two rooms: it then holds two
   * presenter entries, and a second `stop` releases the second pipeline.
   */
  lemma StopTwiceOfDoublePresenter(s: AppState, id: SessionId, i: nat, j: nat)
    requires FirstPresenterWithId(s.presenters, id, i)
    requires i < j < |s.presenters| && s.presenters[j].id == id
    requires forall k :: i < k < j ==> s.presenters[k].id != id
    requires !HasViewerId(s.viewers, id)
    ensures var r1 := StopCascade(s, id);
      var r2 := StopCascade(r1.state, id);
      Releases(Added(r2.state, r1.state)) == [Released(s.presenters[j].pipeline)]
  {
    StopOfPresenter(s, id, i);
    var t := StopCascade(s, id).state;
    assert t.presenters == RemoveAt(s.presenters, i) && t.viewers == [];
    SecondBecomesFirst(s.presenters, id, i, j);
    assert FirstPresenterWithId(t.presenters, id, j - 1) && t.presenters[j - 1] == s.presenters[j];
    assert !HasViewerId(t.viewers, id);
    StopOfPresenter(t, id, j - 1);
  }

  /**
   * `presenter.recorderEndpoint = recorder` after the await, and
   * `presenter.isRecording = true` after the next one, reach exactly the entry
   * that is the object read before the awaits, wherever the array has moved it,
   * when no other entry is that object.
   */
  lemma RecordingReachesItsPresenter(presenters: seq<Presenter>, j: nat, recorder: Endpoint)
    requires j < |presenters|
    requires forall i :: 0 <= i < |presenters| && i != j ==> presenters[i].obj != presenters[j].obj
    ensures WithRecorder(presenters, presenters[j].obj, recorder)
      == presenters[j := presenters[j].(recorderEndpoint := Some(recorder))]
    ensures MarkedRecording(WithRecorder(presenters, presenters[j].obj, recorder), presenters[j].obj)
      == presenters[j := presenters[j].(recorderEndpoint := Some(recorder), isRecording := true)]
  {
    var obj := presenters[j].obj;
    var written := WithRecorder(presenters, obj, recorder);
    assert written == presenters[j := presenters[j].(recorderEndpoint := Some(recorder))];
    assert MarkedRecording(written, obj)
      == presenters[j := presenters[j].(recorderEndpoint := Some(recorder), isRecording := true)];
  }

  /** When no entry is the object any more, both writes leave the array as it is. */
  lemma RecordingOfRemovedPresenter(presenters: seq<Presenter>, obj: nat, recorder: Endpoint)
    requires forall i :: 0 <= i < |presenters| ==> presenters[i].obj != obj
    ensures WithRecorder(presenters, obj, recorder) == presenters
    ensures MarkedRecording(presenters, obj) == presenters
  {
    assert WithRecorder(presenters, obj, recorder) == presenters;
    assert MarkedRecording(presenters, obj) == presenters;
  }

  /**
   * A presenter whose session is stopped while `startRecording` awaits the
   * recorder: `stop` splices its object out of the array, so the recorder and
   * the recording mark written afterwards land on no registered presenter.
   */
  lemma RecordingAfterPresenterStopped(s: AppState, id: SessionId, i: nat, recorder: Endpoint)
    requires FirstPresenterWithId(s.presenters, id, i)
    requires !HasViewerId(s.viewers, id)
    requires forall k :: 0 <= k < |s.presenters| && k != i ==> s.presenters[k].obj != s.presenters[i].obj
    ensures var after := StopCascade(s, id).state.presenters;
      && WithRecorder(after, s.presenters[i].obj, recorder) == after
      && MarkedRecording(after, s.presenters[i].obj) == after
  {
    StopOfPresenter(s, id, i);
    var after := StopCascade(s, id).state.presenters;
    assert after == RemoveAt(s.presenters, i);
    forall k | 0 <= k < |after|
      ensures after[k].obj != s.presenters[i].obj
    {
      if k < i {
        assert after[k] == s.presenters[k];
      } else {
        assert after[k] == s.presenters[k + 1];
      }
    }
    RecordingOfRemovedPresenter(after, s.presenters[i].obj, recorder);
  }
}
