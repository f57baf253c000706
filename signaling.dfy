/**
 * The vocabulary shared by the call client's components: peer ids, ICE candidates and
 * session descriptions (both opaque), the messages the client emits on the signaling
 * socket, and the browser side effects it raises.
 */
module Signaling {

  /** A socket id of a participant, as assigned by the signaling server. */
  type PeerId = string

  /** An ICE candidate, kept opaque: the client only stores, forwards and applies it. */
  type Candidate = string

  datatype SdpKind = OfferSdp | AnswerSdp

  /**
   * A session description. Its text is generated by the browser and is not modelled; a
   * description is identified by its kind and the local session that generated it.
   */
  datatype Sdp = Sdp(kind: SdpKind, session: nat)

  /** Messages the client emits on the signaling socket. */
  datatype Outbound =
    | OfferMsg(to: PeerId, offer: Sdp)
    | AnswerMsg(to: PeerId, answer: Sdp)
    | IceCandidateMsg(to: PeerId, candidate: Candidate)
    | ResetConversation(roomId: string, targetUserId: PeerId)

  /**
   * Browser side effects, abstracted. AlarmRaised stands for the whole alarm bundle (alert
   * sound, vibration pattern, page title, favicon flashing, desktop notification). None of
   * it is ever stopped: the only thing put back is the page title (TitleRestored), on
   * dismissal together with the favicon when it shows the alert icon
   * (TitleAndFaviconRestored).
   */
  datatype Effect =
    | AlarmRaised(speaker: PeerId, fraudScore: real)
    | TitleRestored
    | TitleAndFaviconRestored
}
