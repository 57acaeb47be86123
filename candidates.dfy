/**
 * The per-session queue of ICE candidates that arrive before the session's
 * endpoint exists (`candidatesQueue`), shared by all four servers.
 */
module Candidates {
  import opened Engine

  type Queues<K> = map<K, seq<Candidate>>

  /** The candidates waiting for `k`; an absent key waits for none. */
  function Waiting<K>(q: Queues<K>, k: K): seq<Candidate>
  {
    if k in q then q[k] else []
  }

  /** `if (!q[k]) q[k] = []; q[k].push(c)`: `c` goes to the end of `k`'s queue, creating it if absent. */
  function Enqueued<K>(q: Queues<K>, k: K, c: Candidate): (r: Queues<K>)
    ensures r.Keys == q.Keys + {k}
    ensures Waiting(r, k) == Waiting(q, k) + [c]
    ensures forall j :: j in q && j != k ==> r[j] == q[j]
  {
    q[k := Waiting(q, k) + [c]]
  }

  /** `if (q[k]) delete q[k]`: the key is gone afterwards. */
  function Cleared<K>(q: Queues<K>, k: K): (r: Queues<K>)
    ensures r.Keys == q.Keys - {k}
    ensures Waiting(r, k) == []
    ensures forall j :: j in r ==> r[j] == q[j]
  {
    q - {k}
  }

  /** The queue after the drain loop: a present key stays, holding `[]`; an absent key stays absent. */
  function Drained<K>(q: Queues<K>, k: K): (r: Queues<K>)
    ensures r.Keys == q.Keys
    ensures Waiting(r, k) == []
    ensures forall j :: j in q && j != k ==> r[j] == q[j]
  {
    if k in q then q[k := []] else q
  }

  /** The `addIceCandidate` calls that hand `cs` to `endpoint`, in order. */
  function Deliveries(endpoint: Endpoint, cs: seq<Candidate>): (d: seq<Effect>)
    ensures |d| == |cs|
    ensures forall i :: 0 <= i < |cs| ==> d[i] == CandidateAdded(endpoint, cs[i])
  {
    seq(|cs|, i requires 0 <= i < |cs| => CandidateAdded(endpoint, cs[i]))
  }

  /** `n` calls of `onIceCandidate` that all take the queueing branch. */
  function EnqueuedAll<K>(q: Queues<K>, k: K, cs: seq<Candidate>): Queues<K>
    decreases |cs|
  {
    if cs == [] then q else EnqueuedAll(Enqueued(q, k, cs[0]), k, cs[1..])
  }

  /** Queueing appends in arrival order and touches no other session. */
  lemma {:induction false} EnqueuedAllAppends<K>(q: Queues<K>, k: K, cs: seq<Candidate>)
    ensures Waiting(EnqueuedAll(q, k, cs), k) == Waiting(q, k) + cs
    ensures forall j :: j != k ==> Waiting(EnqueuedAll(q, k, cs), j) == Waiting(q, j)
    decreases |cs|
  {
    if cs != [] {
      var q1 := Enqueued(q, k, cs[0]);
      EnqueuedAllAppends(q1, k, cs[1..]);
      assert Waiting(q1, k) + cs[1..] == Waiting(q, k) + cs;
      forall j | j != k
        ensures Waiting(EnqueuedAll(q, k, cs), j) == Waiting(q, j)
      {
        assert Waiting(q1, j) == Waiting(q, j);
      }
    }
  }

  /**
   * FIFO: candidates queued after the queue was cleared are handed over by the
   * drain exactly in arrival order, and the queue is empty afterwards.
   */
  lemma DrainAfterQueueingIsFifo<K>(q: Queues<K>, k: K, cs: seq<Candidate>, endpoint: Endpoint)
    ensures var queued := EnqueuedAll(Cleared(q, k), k, cs);
      && Deliveries(endpoint, Waiting(queued, k)) == Deliveries(endpoint, cs)
      && Waiting(Drained(queued, k), k) == []
  {
    EnqueuedAllAppends(Cleared(q, k), k, cs);
  }

  class CandidateBuffer<K(==)> {
    var queues: Queues<K>

    constructor ()
      ensures queues == map[]
    {
      queues := map[];
    }

    /** The queueing branch of `onIceCandidate`. */
    method Enqueue(k: K, c: Candidate)
      modifies this
      ensures queues == Enqueued(old(queues), k, c)
    {
      if k !in queues {
        queues := queues[k := []];
      }
      queues := queues[k := queues[k] + [c]];
    }

    /** `clearCandidatesQueue`. */
    method Clear(k: K)
      modifies this
      ensures queues == Cleared(old(queues), k)
    {
      if k in queues {
        queues := queues - {k};
      }
    }

    /**
     * `while (q[k]?.length) endpoint.addIceCandidate(q[k].shift())`: hands the
     * waiting candidates to the endpoint front first and leaves the key holding `[]`.
     */
    method DrainInto(k: K, endpoint: Endpoint, engine: MediaEngine)
      modifies this, engine
      ensures queues == Drained(old(queues), k)
      ensures engine.log == old(engine.log) + Deliveries(endpoint, Waiting(old(queues), k))
    {
      ghost var waiting := Waiting(queues, k);
      ghost var handed := 0;
      while k in queues && |queues[k]| > 0
        invariant queues.Keys == old(queues).Keys
        invariant forall j :: j in queues && j != k ==> queues[j] == old(queues)[j]
        invariant 0 <= handed <= |waiting|
        invariant Waiting(queues, k) == waiting[handed..]
        invariant engine.log == old(engine.log) + Deliveries(endpoint, waiting[..handed])
        decreases |Waiting(queues, k)|
      {
        var c := queues[k][0];
        queues := queues[k := queues[k][1..]];
        engine.AddIceCandidate(endpoint, c);
        assert waiting[..handed + 1] == waiting[..handed] + [c];
        handed := handed + 1;
      }
      assert waiting[..handed] == waiting;
    }
  }
}
