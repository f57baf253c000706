# VoiceCall: fraud-alert gating and peer negotiation, in Dafny

This project models the sequential core of the `VoiceCall` client component of a
fraud-protected voice-call application. The component is one React page, `src/app/page.tsx`.
A room's participants talk over WebRTC, brokered by a socket.io signaling server. An analyzer
on the server scores each utterance and broadcasts a `fraud-score` verdict to the room. The
component turns some of these verdicts into alarms. The model covers three parts of it.

- **Fraud-alert controller** (`fraud_alerts.dfy`, and the alert methods of
  `VoiceCallClient.VoiceCall`).
  - A verdict becomes the current alert only when three conditions hold: it concerns another
    speaker, its tier is `"HIGH"`, and its score is strictly above 85.
  - When that happens, the alert is put first in the history, the count goes up, and both the
    modal flag and the banner flag are set.
  - Dismissing the alert clears all of that. If an alert was current, dismissing also asks
    the server to reset that speaker's conversation.
  - `getFraudRecommendation` maps the tier to one of three fixed strings.
- **Peer registry with ICE-candidate buffering** (`peer_table.dfy`, and the peer methods of
  the class).
  - The registry maps each peer to a session: a number, a local description, a remote
    description and the candidates applied so far.
  - A candidate that arrives before its session has a remote description waits in that peer's
    queue.
  - Setting the remote description (through `handleOffer` or `handleAnswer`) applies the queue
    in arrival order and deletes it.
- **Call lifecycle** (the class).
  - `existing-users` sends one offer per listed user, in list order.
  - `user-left` closes one session.
  - `endCall` and `cleanup` close every session.

The class `VoiceCall` stands for the component instance:

- its React state and refs become fields;
- the socket messages that the modelled handlers emit (`offer`, `answer`, `ice-candidate`,
  `reset-conversation`) are kept in the log `sent`;
- outward browser effects are kept in the log `effects`: the raising of the alarm, and the
  restoring of the page title (on dismissal, with the favicon);
- the set `closed` records which session numbers have had `pc.close()` called.

Each method's `ensures` ties the new state to a pure function of the old state:
`FraudAlerts.OnFraudScore`, `PeerTable.AcceptCandidate`, `PeerTable.OfferAll` and so on. The
properties of those functions are stated as lemmas.

Each handler runs as one atomic step. Session descriptions are abstract: `Sdp(kind, session)`
records only which local session produced a description.

Some behaviour one might expect of such a client is absent from the code; the model follows the code:

- **Cooldown.** No cooldown applies after a dismissal. A new admissible verdict from the
  speaker who was just dismissed raises the alarm again at once (`NoCooldownAfterDismissal`).
- **Threshold.** The threshold is the constant 85. The comparison is strict.
- **Pending queues at teardown.** `user-left`, `endCall` and `cleanup` close sessions but do
  not touch the pending-candidate map. A queue left over from the last call is applied to the
  next session that peer opens (`StaleCandidateSurvivesEndOfCall`).
- **Glare.** Two peers may send each other an offer at the same time. That collision is not
  detected: `handleOffer` reuses the existing session for `from`. `createOffer` replaces any
  session registered for the peer without closing it.
- **`endCall` is partial.** It does not disconnect the socket, and it keeps the local-stream
  reference after stopping its tracks. Only unmount (`cleanup`) disconnects.

## Model

| member | source | states |
|---|---|---|
| FraudAlerts.Recommendation | src/app/page.tsx:741-749 | the end-call advice exactly for tier HIGH, the caution advice exactly for MEDIUM, the "normal" advice exactly for every other tier |
| FraudAlerts.RecommendationIgnoresPatterns | src/app/page.tsx:741-749 | the advice does not depend on the matched patterns and is always one of the three fixed strings |
| FraudAlerts.MakeAlert | src/app/page.tsx:173-187 | the alert names the verdict's speaker and score; `isAboutMe` holds iff the speaker is the local id; an admitted verdict yields an alert the page renders, with the end-call advice |
| FraudAlerts.Classify | src/app/page.tsx:159-228 | the branch the handler takes: alarm iff admitted, own-message iff the speaker is the local id, below-threshold iff another speaker's HIGH verdict scores at most 85, no branch iff another speaker's tier is none of the three |
| FraudAlerts.ThresholdIsStrict | src/app/page.tsx:169 | another speaker's HIGH verdict at 85 is refused and at 86 admitted |
| FraudAlerts.OnFraudScore | src/app/page.tsx:169-193 | keeps the alert-state invariant (the count is the history's length, the current alert heads the history, every alert is renderable, a raised flag has a current alert); the state is unchanged iff the verdict is not admitted |
| FraudAlerts.HideBanner | src/app/page.tsx:778-780 | the banner is down, everything else is as before, and the invariant is kept |
| FraudAlerts.ResetRequest | src/app/page.tsx:783-795 | at most one message; one iff an alert is current; it is a conversation reset for this room naming the current alert's speaker |
| FraudAlerts.ClearedIsConsistent | src/app/page.tsx:46-50 | the initial and dismissed alert state satisfies the invariant |
| FraudAlerts.ProcessScoresHistory | src/app/page.tsx:189-193 | over a stream of verdicts the history gains exactly the admitted alerts, newest first, the count grows by their number, the current alert is the newest one and both flags are up; a stream admitting nothing changes nothing |
| FraudAlerts.NewestFirstAdmitted | src/app/page.tsx:169-190 | every alert a stream produces was made from a verdict in it that passed the admission rule |
| FraudAlerts.OwnVerdictsAreInert | src/app/page.tsx:160-169 | verdicts about the local participant never change the alert state, whatever their tier and score |
| FraudAlerts.NoCooldownAfterDismissal | src/app/page.tsx:751-757 | from the cleared state a dismissal leaves, any admissible verdict (the dismissed speaker's included) is at once the current and only alert, with count 1 and both flags up |
| PeerTable.PendingFor | src/app/page.tsx:582 | a peer's queue reads as empty exactly when it has no entry or an empty one |
| PeerTable.WithOffer | src/app/page.tsx:557-565 | the peer gets a fresh session holding its own offer; other sessions and all queues are unchanged; buffering stays well kept |
| PeerTable.ApplyRemote | src/app/page.tsx:579-586 | the remote description is set, the queue is appended to the applied candidates in arrival order, the entry is deleted, and other peers' sessions and queues are unchanged |
| PeerTable.AcceptOffer | src/app/page.tsx:571-595 | an existing session is reused with its number, otherwise a new one is numbered; afterwards it has the offer as remote description, its own answer as local description, and the former queue applied |
| PeerTable.AcceptAnswer | src/app/page.tsx:597-612 | an answer from an unknown peer changes nothing; otherwise it is `ApplyRemote` |
| PeerTable.AcceptCandidate | src/app/page.tsx:614-628 | applied at once when the session has a remote description, with the queues unchanged; otherwise appended to the end of that peer's queue (created if absent), with the sessions unchanged; other peers are untouched either way |
| PeerTable.RemovePeer | src/app/page.tsx:293-300 | the registered peers are the former ones minus that peer, the others keep their sessions, and the queues stay |
| PeerTable.ClearSessions | src/app/page.tsx:650-651 | every session goes; the queues stay |
| PeerTable.EarlyCandidatesQueue | src/app/page.tsx:619-623 | before a remote description, a stream of candidates queues up behind those held, in order, and nothing else changes |
| PeerTable.LateCandidatesApply | src/app/page.tsx:616-618 | after a remote description, a stream of candidates is applied in order and the queues are untouched |
| PeerTable.OfferedSessionAppliesInArrivalOrder | src/app/page.tsx:571-628 | answering side, for a peer without a session: the candidates already held (a queue left from an earlier call included), then those arriving before and after the offer, are applied exactly in arrival order, and no queue is left |
| PeerTable.EarlyCandidatesThenAnswer | src/app/page.tsx:597-612 | offering side: the answer applies everything queued so far, after what was already applied |
| PeerTable.AnsweredSessionAppliesInArrivalOrder | src/app/page.tsx:597-628 | offering side: candidates that arrive before and after the answer are applied in arrival order after those already applied, and no queue is left |
| PeerTable.StaleCandidateSurvivesEndOfCall | src/app/page.tsx:643-651 | a candidate queued before the end of the call is applied to the next session opened by that peer's offer |
| PeerTable.OfferAll | src/app/page.tsx:257-265 | offering to a list keeps buffering well kept and leaves the queues unchanged |
| PeerTable.OfferAllSessions | src/app/page.tsx:257-265 | after offering to a list, exactly the listed peers and the former ones have sessions; the unlisted ones are unchanged; each listed one holds a fresh offering session numbered within the range handed out |
| PeerTable.OfferAllNumbers | src/app/page.tsx:260-263 | a listed user not listed again later gets the session numbered for its turn, `firstId + i` |
| PeerTable.OfferAllHoldsSentOffer | src/app/page.tsx:561-565 | a listed user not listed again later ends with a session whose local description is exactly the offer sent to it |
| PeerTable.OfferAllStep | src/app/page.tsx:260-263 | offering to one more user at the end of the list is one more `WithOffer`, and one more `offer` message at the end |
| PeerTable.OfferAllTurn | src/app/page.tsx:260-263 | one turn of the loop takes the registry and the message log from the prefix's values to the longer prefix's |
| PeerTable.OfferMessages | src/app/page.tsx:565 | one `offer` per listed user, in list order, each carrying the consecutive session number |
| VoiceCallClient.NumberedSessionsDistinct | src/app/page.tsx:553 | no two registered sessions share a number |
| VoiceCallClient.VoiceCall.constructor | src/app/page.tsx:46-57 | the component with its socket created, possibly connected, and possibly holding the stream `startCall` obtains: cleared alert state, empty registry and queues, nothing sent |
| VoiceCallClient.VoiceCall.BannerShown | src/app/page.tsx:809 | under the invariant, the banner's render condition is the banner flag |
| VoiceCallClient.VoiceCall.ModalShown | src/app/page.tsx:891 | under the invariant, the modal's render condition is the modal flag |
| VoiceCallClient.VoiceCall.ReceiveFraudScore | src/app/page.tsx:140-234 | the alert state becomes `OnFraudScore` of the old one; on admission the alert is current and first in the history, the count is one more, both flags are up, and the alarm is raised; otherwise nothing changes |
| VoiceCallClient.VoiceCall.ResetConversationForSuspiciousUser | src/app/page.tsx:783-795 | sends `ResetRequest` of the alert state and nothing else |
| VoiceCallClient.VoiceCall.DismissScamAlert | src/app/page.tsx:751-776 | the alert state is cleared, the page title and favicon are restored, and the reset request for the dismissed alert (if any) is sent |
| VoiceCallClient.VoiceCall.DismissDangerBanner | src/app/page.tsx:778-780 | the alert state becomes `HideBanner` of the old one |
| VoiceCallClient.VoiceCall.CreatePeerConnection | src/app/page.tsx:519-555 | registers a fresh session under the next number, replacing any previous one for that peer |
| VoiceCallClient.VoiceCall.AddIceCandidate | src/app/page.tsx:617 | appends the candidate to that session's applied list |
| VoiceCallClient.VoiceCall.DrainPending | src/app/page.tsx:582-585 | applies the peer's queue in order, then deletes its entry |
| VoiceCallClient.VoiceCall.CreateOffer | src/app/page.tsx:557-569 | without a local stream nothing changes; otherwise the registry becomes `WithOffer` of the old one and exactly one `offer` to that user is sent |
| VoiceCallClient.VoiceCall.SetLocalDescription | src/app/page.tsx:563 | sets that session's local description |
| VoiceCallClient.VoiceCall.HandleOffer | src/app/page.tsx:571-595 | without a local stream nothing changes; otherwise the registry becomes `AcceptOffer` of the old one, a number is used only for a new session, and exactly one `answer` to `from` is sent |
| VoiceCallClient.VoiceCall.AnswerOffer | src/app/page.tsx:579-591 | sets the offer, drains the queue, sets the answer, and sends it to `from` |
| VoiceCallClient.VoiceCall.PeerConnectionFor | src/app/page.tsx:575-578 | returns the existing session's number with nothing changed, or registers a new session |
| VoiceCallClient.VoiceCall.HandleAnswer | src/app/page.tsx:597-612 | the registry becomes `AcceptAnswer` of the old one |
| VoiceCallClient.VoiceCall.SetRemoteDescription | src/app/page.tsx:601-607 | the registry becomes `ApplyRemote` of the old one |
| VoiceCallClient.VoiceCall.HandleIceCandidate | src/app/page.tsx:614-628 | the registry becomes `AcceptCandidate` of the old one |
| VoiceCallClient.VoiceCall.OnLocalIceCandidate | src/app/page.tsx:523-530 | a gathered candidate is forwarded to that peer; the end-of-gathering event sends nothing |
| VoiceCallClient.VoiceCall.ReceiveExistingUsers | src/app/page.tsx:257-265 | without a local stream nothing changes; otherwise the registry becomes `OfferAll` over the listed ids, one number per user is used, and the `offer` messages go out in list order |
| VoiceCallClient.VoiceCall.OfferInTurn | src/app/page.tsx:260-263 | one turn of the `existing-users` loop |
| VoiceCallClient.VoiceCall.ReceiveUserLeft | src/app/page.tsx:293-300 | the registry becomes `RemovePeer` of the old one, and that peer's session, if any, is closed |
| VoiceCallClient.VoiceCall.CloseAll | src/app/page.tsx:650-651 | closes every registered session and empties the registry; the queues stay |
| VoiceCallClient.VoiceCall.EndCall | src/app/page.tsx:643-673 | every session is closed and the registry is emptied; the alert state is cleared and the page title restored; the queues and the local-stream reference stay |
| VoiceCallClient.VoiceCall.Cleanup | src/app/page.tsx:307-318 | the socket is disconnected, every session is closed and the page title restored; the alert state stays |

## Left out

- PCM framing (`convertFloat32ToInt16`, `startAudioStreaming`, `stopAudioStreaming`): this is floating-point audio processing on the Web Audio graph. Its `audio-stream` emits are socket messages that `sent` does not record, and so is `startCall`'s `join-room`; no other part of it touches the state modelled here.
- The alarm's side effects (the alert sound, vibration, the page title, the favicon flashing, browser notifications): each is a browser call. Raising the alarm is recorded only as `AlarmRaised` in `effects`, and putting the title (and on dismissal the favicon) back as `TitleRestored`/`TitleAndFaviconRestored`.
- Once raised, the alarm is never stopped by the source: `alertAudioRef` is never assigned, so its `pause()` calls in `dismissScamAlert`, `endCall` and `cleanup` never run; the oscillator plays until its own scheduled stop, the favicon interval keeps flashing, and vibration is not cancelled. The model accordingly records no stopping effect.
- Microphone permission, device enumeration, `testMicrophone` and `startCall`: these are browser I/O. The local stream is a constructor parameter (`hasLocalStream`), so the model starts either before `startCall` (no stream) or after it.
- The room id and the socket id are fixed for the object's lifetime (`roomId`, `socketId` are set by the constructor only). In the component the room input stays editable between calls, and `endCall` leaves the socket in the old room, so alerts from that room can still arrive; dismissing one then sends the reset under the newly typed room id. The model cannot express that change of room, nor a socket id obtained or changed after construction (a reconnection).
- socket.io connection setup, reconnection and the `connect`/`disconnect` status handlers: these are library calls. The socket is taken to exist for the component's whole lifetime, so every emit goes to `sent`.
- The `conversation-reset-notification`, `reset-conversation-success`/`-error`, `user-joined` and `transcript` handlers: they only log or show a browser `alert`.
- SDP generation and real WebRTC objects: descriptions are abstract `Sdp` values. `ontrack` and `oniceconnectionstatechange` only touch the audio element and a status string. Adding the local tracks to a new session is not modelled.
- Failures of `setRemoteDescription`, `createAnswer` or `addIceCandidate`: the `try`/`catch` blocks only log. The model's operations always succeed. If the source throws partway through a drain, it can leave part of a queue applied; the model has no such partial states.
- Async interleaving: the 500 ms `setTimeout` before the `existing-users` loop, and the interleaving of `await` continuations with other events, are left out. Each handler is one atomic step.
- Non-finite scores: `fraudScore` is a `real`, so NaN and ±Infinity cannot occur (in the source NaN is never admitted and `Infinity` is admitted by the `> 85` test). Every finite JavaScript number is modelled exactly, since the only operation on the score is the comparison with 85.
- React state not involved in alerts or peers (`isInCall`, `isRecording`, `isMuted`, `transcripts`, `connectionStatus`, `userRole`, `isProtected`, the devices and permission status): `endCall`'s resets of these are not modelled.
- The JSX and the presentation components: the only parts kept are the render conditions of the banner and the modal (`BannerShown`, `ModalShown`).
- React's deferred state updates: the model applies each handler's writes at once. For the handlers modelled this gives the same state. The `fraud-score` handler writes the history and the count through updater functions and the other fields as whole values, so nothing of its own is overwritten. `dismissScamAlert` decides on the reset request from the alert that was current before its own writes, and the model does the same.
