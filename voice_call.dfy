/**
 * The call client's event handlers, as one object whose fields the handlers update in place:
 * the alert state, the peer-connection and pending-candidate maps, and logs of what the
 * client emits on the socket, which sessions it closes and which browser effects it raises.
 * Every handler runs as one atomic step.
 */
module VoiceCallClient {
  import opened Wrappers
  import opened Signaling
  import opened FraudAlerts
  import opened PeerTable

  /** An entry of the `existing-users` list: a bare socket id, or a record carrying one. */
  datatype UserEntry = UserIdString(id: PeerId) | UserRecord(socketId: PeerId)

  function UserIdOf(u: UserEntry): PeerId {
    match u
    case UserIdString(id) => id
    case UserRecord(socketId) => socketId
  }

  /** The ids the `existing-users` loop visits, one per entry and in list order. */
  function UserIds(users: seq<UserEntry>): (ids: seq<PeerId>)
    ensures |ids| == |users|
    ensures forall i :: 0 <= i < |users| && users[i].UserIdString? ==> ids[i] == users[i].id
    ensures forall i :: 0 <= i < |users| && users[i].UserRecord? ==> ids[i] == users[i].socketId
  {
    seq(|users|, i requires 0 <= i < |users| => UserIdOf(users[i]))
  }

  /** The local session numbers of the sessions in a registry. */
  function SessionIds(sessions: map<PeerId, PeerSession>): set<nat> {
    set p | p in sessions :: sessions[p].id
  }

  /** The local session numbers of the sessions registered for the peers in `keys`. */
  function IdsOf(sessions: map<PeerId, PeerSession>, keys: set<PeerId>): set<nat> {
    set p | p in sessions && p in keys :: sessions[p].id
  }

  lemma IdsOfAdd(sessions: map<PeerId, PeerSession>, keys: set<PeerId>, k: PeerId)
    requires k in sessions
    ensures IdsOf(sessions, keys + {k}) == IdsOf(sessions, keys) + {sessions[k].id}
  {
    forall n | n in IdsOf(sessions, keys + {k})
      ensures n in IdsOf(sessions, keys) + {sessions[k].id}
    {
      var p :| p in sessions && p in keys + {k} && sessions[p].id == n;
      if p != k {
        assert n in IdsOf(sessions, keys);
      }
    }
  }

  lemma IdsOfAll(sessions: map<PeerId, PeerSession>)
    ensures IdsOf(sessions, sessions.Keys) == SessionIds(sessions)
  {
  }

  /**
   * Session numbering: every registered session has a number below the next one to hand
   * out, not among the closed ones, and recorded in `owners` as handed to that very peer,
   * so no two registered sessions share a number.
   */
  ghost predicate NumberedSessions(sessions: map<PeerId, PeerSession>, next: nat, closed: set<nat>, owners: map<nat, PeerId>) {
    && (forall p :: p in sessions ==>
          sessions[p].id < next && sessions[p].id !in closed
          && sessions[p].id in owners && owners[sessions[p].id] == p)
    && (forall n :: n in closed ==> n < next)
  }

  /** Numbered sessions are told apart by their numbers. */
  lemma NumberedSessionsDistinct(sessions: map<PeerId, PeerSession>, next: nat, closed: set<nat>, owners: map<nat, PeerId>)
    requires NumberedSessions(sessions, next, closed, owners)
    ensures forall p, q :: p in sessions && q in sessions && p != q ==> sessions[p].id != sessions[q].id
  {
  }

  lemma NumberedSessionsKept(m: map<PeerId, PeerSession>, m': map<PeerId, PeerSession>, next: nat, closed: set<nat>, owners: map<nat, PeerId>)
    requires NumberedSessions(m, next, closed, owners)
    requires m'.Keys == m.Keys && forall p :: p in m ==> m'[p].id == m[p].id
    ensures NumberedSessions(m', next, closed, owners)
  {
  }

  class VoiceCall {
    /** The socket's id; None until the socket has connected. */
    var socketId: Option<PeerId>
    var roomId: string
    /** Whether `localStreamRef` holds a stream. */
    var hasLocalStream: bool
    var socketOpen: bool

    var currentScamAlert: Option<ScamAlert>
    var scamHistory: seq<ScamAlert>
    var alertCount: int
    var showScamAlert: bool
    var showDangerBanner: bool

    var peerConnections: map<PeerId, PeerSession>
    var pendingCandidates: map<PeerId, seq<Candidate>>
    /** The number the next RTCPeerConnection gets. */
    var nextSessionId: nat

    /** Messages emitted on the socket, oldest first. */
    var sent: seq<Outbound>
    /** Browser side effects raised, oldest first. */
    var effects: seq<Effect>
    /** The sessions closed so far. */
    var closed: set<nat>
    /** The peer each session number was handed to. */
    ghost var owners: map<nat, PeerId>

    function Alerts(): AlertState
      reads this`currentScamAlert, this`scamHistory, this`alertCount, this`showScamAlert, this`showDangerBanner
    {
      AlertState(currentScamAlert, scamHistory, alertCount, showScamAlert, showDangerBanner)
    }

    function Peers(): Table
      reads this`peerConnections, this`pendingCandidates
    {
      Table(peerConnections, pendingCandidates)
    }

    /**
     * The object invariant: the alert state and candidate buffer are consistent, and every
     * registered session is open and has its own number, below the next one to hand out.
     */
    ghost predicate Valid()
      reads this`currentScamAlert, this`scamHistory, this`alertCount, this`showScamAlert, this`showDangerBanner
      reads this`peerConnections, this`pendingCandidates, this`nextSessionId, this`closed, this`owners
    {
      && Consistent(Alerts())
      && PeersValid()
    }

    /** The peer half of the invariant: the buffer is well kept and sessions are numbered. */
    ghost predicate PeersValid()
      reads this`peerConnections, this`pendingCandidates, this`nextSessionId, this`closed, this`owners
    {
      WellBuffered(Peers()) && NumberedSessions(peerConnections, nextSessionId, closed, owners)
    }

    /**
     * The component with its socket created (`id` is the socket's id, `None` before it has
     * connected), a room id entered and, when `localStream` holds, the microphone stream that
     * `startCall` obtains; no alert, no session and no queued candidate yet.
     */
    constructor (id: Option<PeerId>, room: string, localStream: bool)
      ensures Valid()
      ensures socketId == id && roomId == room && hasLocalStream == localStream && socketOpen
      ensures Alerts() == Cleared
      ensures peerConnections == map[] && pendingCandidates == map[] && nextSessionId == 0
      ensures sent == [] && effects == [] && closed == {}
    {
      socketId, roomId, hasLocalStream, socketOpen := id, room, localStream, true;
      currentScamAlert, scamHistory, alertCount, showScamAlert, showDangerBanner := None, [], 0, false, false;
      peerConnections, pendingCandidates, nextSessionId := map[], map[], 0;
      sent, effects, closed := [], [], {};
      owners := map[];
    }

    /** The page's condition for rendering the danger banner; given the invariant it is the banner flag. */
    predicate BannerShown()
      requires Valid()
      reads this
      ensures BannerShown() <==> showDangerBanner
    {
      showDangerBanner && currentScamAlert.Some? && ShownByPage(currentScamAlert.value)
    }

    /** The page's condition for rendering the alert modal; given the invariant it is the modal flag. */
    predicate ModalShown()
      requires Valid()
      reads this
      ensures ModalShown() <==> showScamAlert
    {
      showScamAlert && currentScamAlert.Some? && ShownByPage(currentScamAlert.value)
    }

    // ----- fraud alerts -----

    /** The `fraud-score` handler. */
    method ReceiveFraudScore(data: FraudScore)
      requires Valid()
      modifies this`currentScamAlert, this`scamHistory, this`alertCount, this`showScamAlert, this`showDangerBanner, this`effects
      ensures Valid()
      ensures Alerts() == FraudAlerts.OnFraudScore(old(Alerts()), data, socketId)
      ensures Admits(data, socketId) ==>
        && currentScamAlert == Some(MakeAlert(data, socketId))
        && scamHistory == [MakeAlert(data, socketId)] + old(scamHistory)
        && alertCount == old(alertCount) + 1
        && showScamAlert && showDangerBanner
        && effects == old(effects) + [AlarmRaised(data.speaker, data.fraudScore)]
      ensures !Admits(data, socketId) ==> Alerts() == old(Alerts()) && effects == old(effects)
    {
      var isAboutSomeoneElse := socketId != Some(data.speaker);
      if isAboutSomeoneElse && data.riskLevel == HIGH && data.fraudScore > ALARM_THRESHOLD {
        var alert := MakeAlert(data, socketId);
        currentScamAlert := Some(alert);
        scamHistory := [alert] + scamHistory;
        showScamAlert := true;
        alertCount := alertCount + 1;
        showDangerBanner := true;
        effects := effects + [AlarmRaised(data.speaker, data.fraudScore)];
      }
    }

    /** Asks the analyzer to forget the conversation of the current alert's speaker. */
    method ResetConversationForSuspiciousUser()
      requires Valid()
      modifies this`sent
      ensures Valid()
      ensures sent == old(sent) + ResetRequest(Alerts(), roomId)
    {
      if currentScamAlert.None? {
        return;
      }
      sent := sent + [ResetConversation(roomId, currentScamAlert.value.speaker)];
    }

    /** Dismissing the alert clears the whole alert state and, if there was an alert, resets its speaker's conversation. */
    method DismissScamAlert()
      requires Valid()
      modifies this`currentScamAlert, this`scamHistory, this`alertCount, this`showScamAlert, this`showDangerBanner, this`effects, this`sent
      ensures Valid()
      ensures Alerts() == Cleared
      ensures sent == old(sent) + ResetRequest(old(Alerts()), roomId)
      ensures effects == old(effects) + [TitleAndFaviconRestored]
    {
      if currentScamAlert.Some? {
        ResetConversationForSuspiciousUser();
      }
      showScamAlert := false;
      showDangerBanner := false;
      currentScamAlert := None;
      alertCount := 0;
      scamHistory := [];
      effects := effects + [TitleAndFaviconRestored];
    }

    /** Closing the banner hides it and nothing else. */
    method DismissDangerBanner()
      requires Valid()
      modifies this`showDangerBanner
      ensures Valid()
      ensures Alerts() == HideBanner(old(Alerts()))
    {
      showDangerBanner := false;
    }

    // ----- peer connections -----

    /** A new session for `userId`, replacing (without closing) any session already registered for it. */
    method CreatePeerConnection(userId: PeerId) returns (id: nat)
      requires Valid()
      modifies this`peerConnections, this`nextSessionId, this`owners
      ensures Valid()
      ensures id == old(nextSessionId) && nextSessionId == id + 1
      ensures peerConnections == old(peerConnections)[userId := NewSession(id)]
    {
      id := nextSessionId;
      peerConnections := peerConnections[userId := NewSession(id)];
      nextSessionId := nextSessionId + 1;
      owners := owners[id := userId];
    }

    /** `pc.addIceCandidate` on `from`'s session. */
    method AddIceCandidate(from: PeerId, c: Candidate)
      requires from in peerConnections
      modifies this`peerConnections
      ensures peerConnections == old(peerConnections)[from := old(peerConnections)[from].(applied := old(peerConnections)[from].applied + [c])]
    {
      var pc := peerConnections[from];
      peerConnections := peerConnections[from := pc.(applied := pc.applied + [c])];
    }

    /** Applies the candidates held for `from` in arrival order, then deletes the queue. */
    method DrainPending(from: PeerId)
      requires from in peerConnections
      modifies this`peerConnections, this`pendingCandidates
      ensures peerConnections == old(peerConnections)[from := old(peerConnections)[from].(applied := old(peerConnections)[from].applied + PendingFor(old(Peers()), from))]
      ensures pendingCandidates == old(pendingCandidates) - {from}
    {
      ghost var m0 := peerConnections;
      ghost var s0 := peerConnections[from];
      var pending := PendingFor(Peers(), from);
      assert s0.applied + pending[..0] == s0.applied;
      assert m0[from := s0.(applied := s0.applied + pending[..0])] == m0;
      for i := 0 to |pending|
        invariant pendingCandidates == old(pendingCandidates)
        invariant peerConnections == m0[from := s0.(applied := s0.applied + pending[..i])]
      {
        assert s0.applied + pending[..i] + [pending[i]] == s0.applied + pending[..i + 1];
        AddIceCandidate(from, pending[i]);
      }
      assert pending[..|pending|] == pending;
      pendingCandidates := pendingCandidates - {from};
    }

    /** Opens a session to `userId` and sends it an offer; nothing happens without a local stream. */
    method CreateOffer(userId: PeerId)
      requires Valid()
      modifies this`peerConnections, this`nextSessionId, this`owners, this`sent
      ensures Valid()
      ensures !hasLocalStream ==> Peers() == old(Peers()) && nextSessionId == old(nextSessionId) && sent == old(sent)
      ensures hasLocalStream ==>
        && Peers() == WithOffer(old(Peers()), userId, old(nextSessionId))
        && nextSessionId == old(nextSessionId) + 1
        && sent == old(sent) + [OfferMsg(userId, Sdp(OfferSdp, old(nextSessionId)))]
    {
      if !hasLocalStream {
        return;
      }
      var id := CreatePeerConnection(userId);
      var offer := Sdp(OfferSdp, id);
      SetLocalDescription(userId, offer);
      sent := sent + [OfferMsg(userId, offer)];
    }

    /** `pc.setLocalDescription` on `userId`'s session. */
    method SetLocalDescription(userId: PeerId, sdp: Sdp)
      requires Valid() && userId in peerConnections
      modifies this`peerConnections
      ensures Valid()
      ensures peerConnections == old(peerConnections)[userId := old(peerConnections)[userId].(localDescription := Some(sdp))]
    {
      ghost var m1 := peerConnections;
      peerConnections := peerConnections[userId := peerConnections[userId].(localDescription := Some(sdp))];
      NumberedSessionsKept(m1, peerConnections, nextSessionId, closed, owners);
    }

    /**
     * An incoming offer: reuse or create `from`'s session, set the offer as its remote
     * description, drain the queue, answer. Nothing happens without a local stream.
     */
    method HandleOffer(offer: Sdp, from: PeerId)
      requires Valid()
      modifies this`peerConnections, this`pendingCandidates, this`nextSessionId, this`owners, this`sent
      ensures Valid()
      ensures !hasLocalStream ==> Peers() == old(Peers()) && nextSessionId == old(nextSessionId) && sent == old(sent)
      ensures hasLocalStream ==>
        && Peers() == AcceptOffer(old(Peers()), from, offer, old(nextSessionId))
        && nextSessionId == old(nextSessionId) + (if from in old(peerConnections) then 0 else 1)
        && sent == old(sent) + [AnswerMsg(from, Sdp(AnswerSdp, peerConnections[from].id))]
    {
      if !hasLocalStream {
        return;
      }
      ghost var t0 := Peers();
      ghost var n0 := nextSessionId;
      var id := PeerConnectionFor(from);
      ghost var s := if from in t0.sessions then t0.sessions[from] else NewSession(n0);
      assert Peers() == t0.(sessions := t0.sessions[from := s]) && s.id == id;
      AnswerOffer(from, offer, id);
    }

    /** Sets the offer as remote description of `from`'s session numbered `id`, drains the queue, and answers. */
    method AnswerOffer(from: PeerId, offer: Sdp, id: nat)
      requires from in peerConnections && peerConnections[from].id == id
      modifies this`peerConnections, this`pendingCandidates, this`sent
      ensures
        var t2 := ApplyRemote(old(Peers()), from, offer);
        Peers() == t2.(sessions := t2.sessions[from := t2.sessions[from].(localDescription := Some(Sdp(AnswerSdp, id)))])
      ensures NumberedSessions(old(peerConnections), nextSessionId, closed, owners) ==> NumberedSessions(peerConnections, nextSessionId, closed, owners)
      ensures sent == old(sent) + [AnswerMsg(from, Sdp(AnswerSdp, id))]
    {
      ghost var m1 := peerConnections;
      SetRemoteDescription(from, offer);
      ghost var t2 := Peers();
      var answer := Sdp(AnswerSdp, id);
      peerConnections := peerConnections[from := peerConnections[from].(localDescription := Some(answer))];
      assert Peers() == t2.(sessions := t2.sessions[from := t2.sessions[from].(localDescription := Some(answer))]);
      if NumberedSessions(m1, nextSessionId, closed, owners) {
        NumberedSessionsKept(m1, peerConnections, nextSessionId, closed, owners);
      }
      sent := sent + [AnswerMsg(from, answer)];
    }

    /** The session registered for `from`, created if there is none (`get(from)`, else `createPeerConnection`). */
    method PeerConnectionFor(from: PeerId) returns (id: nat)
      requires Valid()
      modifies this`peerConnections, this`nextSessionId, this`owners
      ensures Valid()
      ensures from in old(peerConnections) ==>
        id == old(peerConnections)[from].id && peerConnections == old(peerConnections) && nextSessionId == old(nextSessionId)
      ensures from !in old(peerConnections) ==>
        id == old(nextSessionId) && peerConnections == old(peerConnections)[from := NewSession(id)] && nextSessionId == id + 1
    {
      if from in peerConnections {
        id := peerConnections[from].id;
      } else {
        id := CreatePeerConnection(from);
      }
    }

    /** An incoming answer: set as remote description of `from`'s session, then drain; ignored for an unknown peer. */
    method HandleAnswer(answer: Sdp, from: PeerId)
      requires Valid()
      modifies this`peerConnections, this`pendingCandidates
      ensures Valid()
      ensures Peers() == AcceptAnswer(old(Peers()), from, answer)
    {
      if from in peerConnections {
        ghost var m0 := peerConnections;
        SetRemoteDescription(from, answer);
        NumberedSessionsKept(m0, peerConnections, nextSessionId, closed, owners);
      }
    }

    /** `pc.setRemoteDescription` on `from`'s session, followed by the drain of its queue. */
    method SetRemoteDescription(from: PeerId, sdp: Sdp)
      requires from in peerConnections
      modifies this`peerConnections, this`pendingCandidates
      ensures Peers() == ApplyRemote(old(Peers()), from, sdp)
    {
      peerConnections := peerConnections[from := peerConnections[from].(remoteDescription := Some(sdp))];
      DrainPending(from);
    }

    /** An incoming ICE candidate: applied at once if possible, queued otherwise. */
    method HandleIceCandidate(c: Candidate, from: PeerId)
      requires Valid()
      modifies this`peerConnections, this`pendingCandidates
      ensures Valid()
      ensures Peers() == AcceptCandidate(old(Peers()), from, c)
    {
      if from in peerConnections && peerConnections[from].HasRemoteDescription() {
        AddIceCandidate(from, c);
      } else {
        if from !in pendingCandidates {
          pendingCandidates := pendingCandidates[from := []];
        }
        pendingCandidates := pendingCandidates[from := pendingCandidates[from] + [c]];
      }
    }

    /** A session's `onicecandidate` callback: forwards a gathered candidate to the peer; the end-of-gathering event sends nothing. */
    method OnLocalIceCandidate(userId: PeerId, candidate: Option<Candidate>)
      requires Valid()
      modifies this`sent
      ensures Valid()
      ensures sent == old(sent) + if candidate.Some? then [IceCandidateMsg(userId, candidate.value)] else []
    {
      if candidate.Some? {
        sent := sent + [IceCandidateMsg(userId, candidate.value)];
      }
    }

    /** The `existing-users` handler: one `createOffer` per listed user, in list order. */
    method ReceiveExistingUsers(users: seq<UserEntry>)
      requires Valid()
      modifies this`peerConnections, this`nextSessionId, this`owners, this`sent
      ensures Valid()
      ensures !hasLocalStream ==> Peers() == old(Peers()) && nextSessionId == old(nextSessionId) && sent == old(sent)
      ensures hasLocalStream ==>
        && Peers() == OfferAll(old(Peers()), UserIds(users), old(nextSessionId))
        && nextSessionId == old(nextSessionId) + |users|
        && sent == old(sent) + OfferMessages(UserIds(users), old(nextSessionId))
    {
      ghost var ids := UserIds(users);
      ghost var t0, n0, s0 := Peers(), nextSessionId, sent;
      for i := 0 to |users|
        invariant Valid()
        invariant OffersSoFar(t0, n0, s0, ids[..i])
      {
        var userId := UserIdOf(users[i]);
        assert ids[..i + 1] == ids[..i] + [userId];
        OfferInTurn(t0, n0, s0, ids[..i], userId);
      }
      assert ids[..|users|] == ids;
    }

    /** The state after the `existing-users` loop has offered to the users in `done`. */
    ghost predicate OffersSoFar(t0: Table, n0: nat, s0: seq<Outbound>, done: seq<PeerId>)
      reads this
    {
      && (!hasLocalStream ==> Peers() == t0 && nextSessionId == n0 && sent == s0)
      && (hasLocalStream ==>
        && Peers() == OfferAll(t0, done, n0)
        && nextSessionId == n0 + |done|
        && sent == s0 + OfferMessages(done, n0))
    }

    /** One turn of the `existing-users` loop: the offer to the next listed user. */
    method OfferInTurn(ghost t0: Table, ghost n0: nat, ghost s0: seq<Outbound>, ghost done: seq<PeerId>, userId: PeerId)
      requires Valid() && OffersSoFar(t0, n0, s0, done)
      modifies this`peerConnections, this`nextSessionId, this`owners, this`sent
      ensures Valid() && OffersSoFar(t0, n0, s0, done + [userId])
    {
      ghost var before, sentBefore := Peers(), sent;
      CreateOffer(userId);
      if hasLocalStream {
        OfferAllTurn(t0, n0, s0, done, userId, before, Peers(), sentBefore, sent);
      }
    }

    /** The `user-left` handler: closes and forgets that peer's session; its candidate queue stays. */
    method ReceiveUserLeft(userId: PeerId)
      requires Valid()
      modifies this`peerConnections, this`closed
      ensures Valid()
      ensures Peers() == RemovePeer(old(Peers()), userId)
      ensures closed == old(closed) + if userId in old(peerConnections) then {old(peerConnections)[userId].id} else {}
    {
      if userId in peerConnections {
        closed := closed + {peerConnections[userId].id};
        peerConnections := peerConnections - {userId};
      }
    }

    /** Closes every registered session, then empties the registry. */
    method CloseAll()
      requires Valid()
      modifies this`peerConnections, this`closed
      ensures Valid()
      ensures Peers() == ClearSessions(old(Peers()))
      ensures closed == old(closed) + SessionIds(old(peerConnections))
    {
      var open := peerConnections.Keys;
      ghost var done: set<PeerId> := {};
      while open != {}
        invariant open + done == peerConnections.Keys && open !! done
        invariant peerConnections == old(peerConnections)
        invariant closed == old(closed) + IdsOf(peerConnections, done)
        invariant forall n :: n in closed ==> n < nextSessionId
        decreases open
      {
        var p :| p in open;
        IdsOfAdd(peerConnections, done, p);
        closed := closed + {peerConnections[p].id};
        open := open - {p};
        done := done + {p};
      }
      IdsOfAll(peerConnections);
      peerConnections := map[];
    }

    /** Ending the call: every session is closed and forgotten and the alert state is cleared. */
    method EndCall()
      requires Valid()
      modifies this`peerConnections, this`closed, this`currentScamAlert, this`scamHistory, this`alertCount,
        this`showScamAlert, this`showDangerBanner, this`effects
      ensures Valid()
      ensures Peers() == ClearSessions(old(Peers()))
      ensures closed == old(closed) + SessionIds(old(peerConnections))
      ensures Alerts() == Cleared
      ensures effects == old(effects) + [TitleRestored]
    {
      CloseAll();
      effects := effects + [TitleRestored];
      currentScamAlert := None;
      showScamAlert := false;
      showDangerBanner := false;
      alertCount := 0;
      scamHistory := [];
    }

    /** Unmount: the socket is disconnected and every session is closed; the alert state is left alone. */
    method Cleanup()
      requires Valid()
      modifies this`socketOpen, this`peerConnections, this`closed, this`effects
      ensures Valid()
      ensures !socketOpen
      ensures Peers() == ClearSessions(old(Peers()))
      ensures closed == old(closed) + SessionIds(old(peerConnections))
      ensures effects == old(effects) + [TitleRestored]
    {
      socketOpen := false;
      CloseAll();
      effects := effects + [TitleRestored];
    }
  }
}
