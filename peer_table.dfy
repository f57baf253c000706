/**
 * The peer-connection registry and the ICE-candidate buffer, as pure values: the sessions
 * keyed by remote peer id, the candidates held for peers whose remote description is not
 * set yet, and the negotiation steps that change them.
 */
module PeerTable {
  import opened Wrappers
  import opened Signaling

  /**
   * One RTCPeerConnection, abstracted: the local session number that identifies it, its local
   * and remote descriptions, and the remote ICE candidates applied to it, in order.
   */
  datatype PeerSession = PeerSession(
    id: nat,
    localDescription: Option<Sdp>,
    remoteDescription: Option<Sdp>,
    applied: seq<Candidate>)
  {
    predicate HasRemoteDescription() {
      remoteDescription.Some?
    }
  }

  /** The two maps the client keeps: live sessions and buffered candidates, by peer id. */
  datatype Table = Table(sessions: map<PeerId, PeerSession>, pending: map<PeerId, seq<Candidate>>)

  /**
   * The buffering invariant: a queue is never kept empty, and no peer whose remote
   * description is set still has candidates waiting.
   */
  ghost predicate WellBuffered(t: Table) {
    && (forall p :: p in t.pending ==> t.pending[p] != [])
    && (forall p :: p in t.sessions && t.sessions[p].HasRemoteDescription() ==> p !in t.pending)
  }

  /** The candidates held for `peer`; an absent entry reads as an empty queue. */
  function PendingFor(t: Table, peer: PeerId): (cs: seq<Candidate>)
    ensures cs == [] <==> peer !in t.pending || t.pending[peer] == []
  {
    if peer in t.pending then t.pending[peer] else []
  }

  function NewSession(id: nat): (s: PeerSession)
    ensures !s.HasRemoteDescription() && s.localDescription == None && s.applied == [] && s.id == id
  {
    PeerSession(id, None, None, [])
  }

  /**
   * A fresh session for `userId` holding its own offer as local description. It replaces any
   * session already registered for that peer; buffered candidates stay where they are.
   */
  function WithOffer(t: Table, userId: PeerId, id: nat): (r: Table)
    ensures WellBuffered(t) ==> WellBuffered(r)
    ensures r.pending == t.pending
    ensures r.sessions.Keys == t.sessions.Keys + {userId}
    ensures r.sessions[userId] == NewSession(id).(localDescription := Some(Sdp(OfferSdp, id)))
    ensures forall p :: p in t.sessions && p != userId ==> r.sessions[p] == t.sessions[p]
  {
    t.(sessions := t.sessions[userId := NewSession(id).(localDescription := Some(Sdp(OfferSdp, id)))])
  }

  /**
   * Setting the remote description of `from`'s session: every candidate held for `from` is
   * applied after those already applied, in arrival order, and the queue is removed.
   */
  function ApplyRemote(t: Table, from: PeerId, sdp: Sdp): (r: Table)
    requires from in t.sessions
    ensures WellBuffered(t) ==> WellBuffered(r)
    ensures r.sessions.Keys == t.sessions.Keys
    ensures r.sessions[from].remoteDescription == Some(sdp)
    ensures r.sessions[from].applied == t.sessions[from].applied + PendingFor(t, from)
    ensures r.sessions[from].id == t.sessions[from].id
    ensures r.sessions[from].localDescription == t.sessions[from].localDescription
    ensures r.pending.Keys == t.pending.Keys - {from}
    ensures forall p :: p in t.sessions && p != from ==> r.sessions[p] == t.sessions[p]
    ensures forall p :: p in r.pending ==> r.pending[p] == t.pending[p]
  {
    var s := t.sessions[from];
    Table(
      t.sessions[from := s.(remoteDescription := Some(sdp), applied := s.applied + PendingFor(t, from))],
      t.pending - {from})
  }

  /**
   * An incoming offer: reuse the session registered for `from` or create one numbered
   * `freshId`, set the offer as remote description (draining the queue), then set the
   * session's own answer as local description.
   */
  function AcceptOffer(t: Table, from: PeerId, offer: Sdp, freshId: nat): (r: Table)
    ensures WellBuffered(t) ==> WellBuffered(r)
    ensures r.sessions.Keys == t.sessions.Keys + {from}
    ensures r.sessions[from].id == if from in t.sessions then t.sessions[from].id else freshId
    ensures r.sessions[from].remoteDescription == Some(offer)
    ensures r.sessions[from].localDescription == Some(Sdp(AnswerSdp, r.sessions[from].id))
    ensures r.sessions[from].applied ==
      (if from in t.sessions then t.sessions[from].applied else []) + PendingFor(t, from)
    ensures r.pending.Keys == t.pending.Keys - {from}
    ensures forall p :: p in t.sessions && p != from ==> r.sessions[p] == t.sessions[p]
    ensures forall p :: p in r.pending ==> r.pending[p] == t.pending[p]
  {
    var s := if from in t.sessions then t.sessions[from] else NewSession(freshId);
    var t1 := t.(sessions := t.sessions[from := s]);
    var t2 := ApplyRemote(t1, from, offer);
    t2.(sessions := t2.sessions[from := t2.sessions[from].(localDescription := Some(Sdp(AnswerSdp, s.id)))])
  }

  /** An incoming answer: applied to `from`'s session if there is one, ignored otherwise. */
  function AcceptAnswer(t: Table, from: PeerId, answer: Sdp): (r: Table)
    ensures WellBuffered(t) ==> WellBuffered(r)
    ensures from !in t.sessions ==> r == t
    ensures from in t.sessions ==> r == ApplyRemote(t, from, answer)
  {
    if from in t.sessions then ApplyRemote(t, from, answer) else t
  }

  /**
   * An incoming ICE candidate: applied at once when `from` has a session with a remote
   * description, otherwise appended to the end of `from`'s queue (created if absent). Either
   * way no other peer's session or queue changes.
   */
  function AcceptCandidate(t: Table, from: PeerId, c: Candidate): (r: Table)
    ensures WellBuffered(t) ==> WellBuffered(r)
    ensures r.sessions.Keys == t.sessions.Keys
    ensures forall p :: p in t.sessions && p != from ==> r.sessions[p] == t.sessions[p]
    ensures forall p :: p != from ==> PendingFor(r, p) == PendingFor(t, p) && (p in r.pending <==> p in t.pending)
    ensures from in t.sessions && t.sessions[from].HasRemoteDescription() ==>
      r.pending == t.pending && r.sessions[from] == t.sessions[from].(applied := t.sessions[from].applied + [c])
    ensures !(from in t.sessions && t.sessions[from].HasRemoteDescription()) ==>
      r.sessions == t.sessions && from in r.pending && r.pending[from] == PendingFor(t, from) + [c]
  {
    if from in t.sessions && t.sessions[from].HasRemoteDescription() then
      var s := t.sessions[from];
      t.(sessions := t.sessions[from := s.(applied := s.applied + [c])])
    else
      t.(pending := t.pending[from := PendingFor(t, from) + [c]])
  }

  /** A peer leaving: its session goes; its queue, if any, stays. */
  function RemovePeer(t: Table, userId: PeerId): (r: Table)
    ensures WellBuffered(t) ==> WellBuffered(r)
    ensures r.sessions.Keys == t.sessions.Keys - {userId} && r.pending == t.pending
    ensures forall p :: p in t.sessions && p != userId ==> p in r.sessions && r.sessions[p] == t.sessions[p]
  {
    t.(sessions := t.sessions - {userId})
  }

  /** The end-of-call sweep: every session goes; the candidate queues stay. */
  function ClearSessions(t: Table): (r: Table)
    ensures WellBuffered(t) ==> WellBuffered(r)
    ensures r.sessions == map[] && r.pending == t.pending
  {
    t.(sessions := map[])
  }

  /** Delivering a stream of candidates from one peer, oldest first. */
  function DeliverAll(t: Table, from: PeerId, cs: seq<Candidate>): Table
    decreases |cs|
  {
    if cs == [] then t else DeliverAll(AcceptCandidate(t, from, cs[0]), from, cs[1..])
  }

  /**
   * Before `from` has a remote description, candidates queue up behind those already held,
   * in arrival order; sessions and every other queue are untouched.
   */
  lemma {:induction false} EarlyCandidatesQueue(t: Table, from: PeerId, cs: seq<Candidate>)
    requires !(from in t.sessions && t.sessions[from].HasRemoteDescription())
    ensures DeliverAll(t, from, cs).sessions == t.sessions
    ensures PendingFor(DeliverAll(t, from, cs), from) == PendingFor(t, from) + cs
    ensures forall p :: p != from ==> PendingFor(DeliverAll(t, from, cs), p) == PendingFor(t, p)
    decreases |cs|
  {
    if cs != [] {
      var t1 := AcceptCandidate(t, from, cs[0]);
      EarlyCandidatesQueue(t1, from, cs[1..]);
      assert PendingFor(t1, from) + cs[1..] == PendingFor(t, from) + cs;
    }
  }

  /**
   * Once `from` has a remote description, candidates are applied at once, in arrival order,
   * and the queues are untouched.
   */
  lemma {:induction false} LateCandidatesApply(t: Table, from: PeerId, cs: seq<Candidate>)
    requires from in t.sessions && t.sessions[from].HasRemoteDescription()
    ensures DeliverAll(t, from, cs).pending == t.pending
    ensures DeliverAll(t, from, cs).sessions == t.sessions[from := t.sessions[from].(applied := t.sessions[from].applied + cs)]
    decreases |cs|
  {
    if cs == [] {
      assert t.sessions[from].(applied := t.sessions[from].applied + cs) == t.sessions[from];
    } else {
      var s := t.sessions[from];
      var t1 := AcceptCandidate(t, from, cs[0]);
      LateCandidatesApply(t1, from, cs[1..]);
      assert s.applied + [cs[0]] + cs[1..] == s.applied + cs;
      assert t1.sessions == t.sessions[from := s.(applied := s.applied + [cs[0]])];
    }
  }

  /**
   * The buffering guarantee for the answering side: candidates already held for `from`
   * (a queue left over from an earlier call included), those `early` that arrive before the
   * offer and those `late` that arrive after it end up applied in exactly the order they
   * arrived, and no queue is left for that peer.
   */
  lemma OfferedSessionAppliesInArrivalOrder(t: Table, from: PeerId, early: seq<Candidate>, offer: Sdp, freshId: nat, late: seq<Candidate>)
    requires from !in t.sessions
    ensures
      var r := DeliverAll(AcceptOffer(DeliverAll(t, from, early), from, offer, freshId), from, late);
      from in r.sessions && r.sessions[from].applied == PendingFor(t, from) + early + late && from !in r.pending
  {
    var t1 := DeliverAll(t, from, early);
    EarlyCandidatesQueue(t, from, early);
    assert from !in t1.sessions && PendingFor(t1, from) == PendingFor(t, from) + early;
    var t2 := AcceptOffer(t1, from, offer, freshId);
    assert t2.sessions[from].HasRemoteDescription() && t2.sessions[from].applied == PendingFor(t, from) + early;
    LateCandidatesApply(t2, from, late);
  }

  /**
   * The buffering guarantee for the offering side: a session that has sent its offer gets
   * the candidates that arrive before the answer and after it applied in arrival order,
   * after any it already had, and no queue is left for that peer.
   */
  lemma AnsweredSessionAppliesInArrivalOrder(t: Table, from: PeerId, early: seq<Candidate>, answer: Sdp, late: seq<Candidate>)
    requires from in t.sessions && !t.sessions[from].HasRemoteDescription()
    ensures
      var r := DeliverAll(AcceptAnswer(DeliverAll(t, from, early), from, answer), from, late);
      from in r.sessions && from !in r.pending
      && r.sessions[from].applied == t.sessions[from].applied + PendingFor(t, from) + early + late
  {
    var t2 := AcceptAnswer(DeliverAll(t, from, early), from, answer);
    EarlyCandidatesThenAnswer(t, from, early, answer);
    LateCandidatesApply(t2, from, late);
    var r := DeliverAll(t2, from, late);
    var a, q := t.sessions[from].applied, PendingFor(t, from);
    assert r.sessions[from].applied == a + (q + early) + late;
    assert a + (q + early) + late == a + q + early + late;
  }

  /** The first half of the offering side's guarantee: the answer drains everything queued so far. */
  lemma EarlyCandidatesThenAnswer(t: Table, from: PeerId, early: seq<Candidate>, answer: Sdp)
    requires from in t.sessions && !t.sessions[from].HasRemoteDescription()
    ensures
      var r := AcceptAnswer(DeliverAll(t, from, early), from, answer);
      from in r.sessions && from !in r.pending && r.sessions[from].HasRemoteDescription()
      && r.sessions[from].applied == t.sessions[from].applied + (PendingFor(t, from) + early)
  {
    EarlyCandidatesQueue(t, from, early);
  }

  /**
   * Queues outlive the call: a candidate `c` a peer sent before the local side ended the
   * call is still held afterwards, and is applied to the next session that peer offers.
   */
  lemma StaleCandidateSurvivesEndOfCall(t: Table, from: PeerId, c: Candidate, offer: Sdp, freshId: nat)
    requires from !in t.pending
    ensures
      var r := AcceptOffer(ClearSessions(AcceptCandidate(ClearSessions(t), from, c)), from, offer, freshId);
      r.sessions[from].applied == [c]
  {
  }

  /**
   * The peers `createOffer` is called for, in order: each gets a fresh session holding its
   * own offer, numbered consecutively from `firstId`.
   */
  function OfferAll(t: Table, users: seq<PeerId>, firstId: nat): (r: Table)
    ensures WellBuffered(t) ==> WellBuffered(r)
    ensures r.pending == t.pending
    decreases |users|
  {
    if users == [] then t
    else
      var n := |users| - 1;
      WithOffer(OfferAll(t, users[..n], firstId), users[n], firstId + n)
  }

  /**
   * After `OfferAll`, every listed peer holds a fresh offering session numbered within the
   * range handed out, and every other peer keeps the session it had.
   */
  lemma {:induction false} OfferAllSessions(t: Table, users: seq<PeerId>, firstId: nat)
    ensures forall p :: p in OfferAll(t, users, firstId).sessions <==> p in t.sessions || p in users
    ensures forall p :: p in t.sessions && p !in users ==> OfferAll(t, users, firstId).sessions[p] == t.sessions[p]
    ensures forall p :: p in users ==>
      var s := OfferAll(t, users, firstId).sessions[p];
      firstId <= s.id < firstId + |users| && !s.HasRemoteDescription()
      && s.applied == [] && s.localDescription == Some(Sdp(OfferSdp, s.id))
    decreases |users|
  {
    if users != [] {
      var n := |users| - 1;
      OfferAllSessions(t, users[..n], firstId);
      assert forall p :: p in users <==> p in users[..n] || p == users[n];
    }
  }

  /**
   * The session `OfferAll` leaves for a listed user carries the number of that user's
   * offer message (`OfferMessages`), provided the user is not listed again later.
   */
  lemma {:induction false} OfferAllNumbers(t: Table, users: seq<PeerId>, firstId: nat)
    ensures forall i :: 0 <= i < |users| && users[i] !in users[i + 1..] ==>
      users[i] in OfferAll(t, users, firstId).sessions && OfferAll(t, users, firstId).sessions[users[i]].id == firstId + i
    decreases |users|
  {
    if users != [] {
      var n := |users| - 1;
      var prefix := users[..n];
      OfferAllNumbers(t, prefix, firstId);
      forall i | 0 <= i < |users| && users[i] !in users[i + 1..]
        ensures users[i] in OfferAll(t, users, firstId).sessions && OfferAll(t, users, firstId).sessions[users[i]].id == firstId + i
      {
        if i < n {
          assert users[i + 1..][n - (i + 1)] == users[n];
          assert prefix[i] == users[i] && prefix[i + 1..] == users[i + 1..n];
        }
      }
    }
  }

  /**
   * Each listed user (not listed again later) ends up with a session whose local description
   * is exactly the offer sent to that user.
   */
  lemma OfferAllHoldsSentOffer(t: Table, users: seq<PeerId>, firstId: nat)
    ensures forall i :: 0 <= i < |users| && users[i] !in users[i + 1..] ==>
      users[i] in OfferAll(t, users, firstId).sessions
      && OfferAll(t, users, firstId).sessions[users[i]].localDescription == Some(OfferMessages(users, firstId)[i].offer)
  {
    OfferAllNumbers(t, users, firstId);
    OfferAllSessions(t, users, firstId);
  }

  /** Offering to one more peer at the end of the list is one more `WithOffer` step. */
  lemma OfferAllStep(t: Table, users: seq<PeerId>, u: PeerId, firstId: nat)
    ensures OfferAll(t, users + [u], firstId) == WithOffer(OfferAll(t, users, firstId), u, firstId + |users|)
    ensures OfferMessages(users + [u], firstId) == OfferMessages(users, firstId) + [OfferMsg(u, Sdp(OfferSdp, firstId + |users|))]
  {
    assert (users + [u])[..|users|] == users;
  }

  /** One more turn of the offering loop, stated on the tables and message logs before and after it. */
  lemma OfferAllTurn(t0: Table, n0: nat, s0: seq<Outbound>, done: seq<PeerId>, u: PeerId,
                     before: Table, after: Table, sentBefore: seq<Outbound>, sentAfter: seq<Outbound>)
    requires before == OfferAll(t0, done, n0) && after == WithOffer(before, u, n0 + |done|)
    requires sentBefore == s0 + OfferMessages(done, n0)
    requires sentAfter == sentBefore + [OfferMsg(u, Sdp(OfferSdp, n0 + |done|))]
    ensures after == OfferAll(t0, done + [u], n0)
    ensures sentAfter == s0 + OfferMessages(done + [u], n0)
  {
    OfferAllStep(t0, done, u, n0);
  }

  /** The `offer` messages `OfferAll` emits: one per listed peer, in list order. */
  function OfferMessages(users: seq<PeerId>, firstId: nat): (out: seq<Outbound>)
    ensures |out| == |users|
    ensures forall i :: 0 <= i < |users| ==> out[i] == OfferMsg(users[i], Sdp(OfferSdp, firstId + i))
    decreases |users|
  {
    if users == [] then []
    else
      var n := |users| - 1;
      OfferMessages(users[..n], firstId) + [OfferMsg(users[n], Sdp(OfferSdp, firstId + n))]
  }
}
