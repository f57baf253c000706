/**
 * The fraud-alert controller of the call client, as pure logic: the risk verdicts the
 * analyzer broadcasts, the admission rule that turns a verdict into the current alert, the
 * recommended action, and the alert state (current alert, history, count, modal and banner
 * flags) with the transitions the client applies to it.
 */
module FraudAlerts {
  import opened Wrappers
  import opened Signaling

  const HIGH := "HIGH"
  const MEDIUM := "MEDIUM"
  const LOW := "LOW"

  /** A verdict raises the alarm only when its score is strictly above this value. */
  const ALARM_THRESHOLD: real := 85.0

  const END_CALL_ADVICE := "\U{1F6A8} HIGH RISK DETECTED - END THIS CALL IMMEDIATELY! This appears to be a scam. Hang up and verify through official channels."
  const CAUTION_ADVICE := "\U{26A0}\U{FE0F} Be extremely cautious. Do not share personal information, money, or account details. Verify the caller's identity independently."
  const NORMAL_ADVICE := "\U{2139}\U{FE0F} Conversation appears normal. Continue monitoring."

  datatype Confidence = Confidence(final: real, base: real, kbBoost: real, explanation: string)

  /** The payload of a `fraud-score` event: one analyzer verdict about one utterance. */
  datatype FraudScore = FraudScore(
    speaker: PeerId,
    message: string,
    summary: string,
    fraudScore: real,
    riskLevel: string,
    redFlags: seq<string>,
    reasoning: string,
    matchedPatterns: seq<string>,
    kbEnhanced: bool,
    kbMatches: int,
    confidence: Confidence,
    timestamp: string)

  /** An alert built from an admitted verdict. */
  datatype ScamAlert = ScamAlert(
    speaker: PeerId,
    callerMessage: string,
    summary: string,
    scamProbability: real,
    riskLevel: string,
    concerns: seq<string>,
    reasoning: string,
    recommendedAction: string,
    timestamp: string,
    kbEnhanced: bool,
    kbMatches: int,
    confidence: string,
    isAboutMe: bool)

  /**
   * The advice shown with an alert. It depends on the tier alone, and every tier other
   * than HIGH and MEDIUM (LOW included) gets the "normal" advice.
   */
  function Recommendation(riskLevel: string, patterns: seq<string>): (r: string)
    ensures r == END_CALL_ADVICE <==> riskLevel == HIGH
    ensures r == CAUTION_ADVICE <==> riskLevel == MEDIUM
    ensures r == NORMAL_ADVICE <==> riskLevel != HIGH && riskLevel != MEDIUM
  {
    if riskLevel == HIGH then END_CALL_ADVICE
    else if riskLevel == MEDIUM then CAUTION_ADVICE
    else NORMAL_ADVICE
  }

  /** The list of matched patterns never influences the advice. */
  lemma RecommendationIgnoresPatterns(riskLevel: string, p: seq<string>, q: seq<string>)
    ensures Recommendation(riskLevel, p) == Recommendation(riskLevel, q)
    ensures Recommendation(riskLevel, p) in {END_CALL_ADVICE, CAUTION_ADVICE, NORMAL_ADVICE}
  {
  }

  /**
   * The verdict concerns somebody else: its speaker differs from the local socket id. While
   * the socket has no id yet (`myId == None`) every verdict concerns somebody else.
   */
  predicate IsAboutSomeoneElse(data: FraudScore, myId: Option<PeerId>) {
    myId != Some(data.speaker)
  }

  /** The admission rule: another speaker, tier HIGH, and a score strictly above the threshold. */
  predicate Admits(data: FraudScore, myId: Option<PeerId>) {
    IsAboutSomeoneElse(data, myId) && data.riskLevel == HIGH && data.fraudScore > ALARM_THRESHOLD
  }

  /**
   * The condition under which the page renders the danger banner and the alert modal for an
   * alert (besides the banner or modal flag being set).
   */
  predicate ShownByPage(a: ScamAlert) {
    !a.isAboutMe && a.riskLevel == HIGH && a.scamProbability > ALARM_THRESHOLD
  }

  function MakeAlert(data: FraudScore, myId: Option<PeerId>): (a: ScamAlert)
    ensures a.speaker == data.speaker && a.scamProbability == data.fraudScore
    ensures a.isAboutMe <==> !IsAboutSomeoneElse(data, myId)
    ensures Admits(data, myId) ==> ShownByPage(a) && a.recommendedAction == END_CALL_ADVICE
  {
    ScamAlert(
      data.speaker, data.message, data.summary, data.fraudScore, data.riskLevel,
      data.redFlags, data.reasoning, Recommendation(data.riskLevel, data.matchedPatterns),
      data.timestamp, data.kbEnhanced, data.kbMatches, data.confidence.explanation,
      !IsAboutSomeoneElse(data, myId))
  }

  /** Which branch of the `fraud-score` handler a verdict takes. Only Alarm changes state. */
  datatype Branch = Alarm | HighBelowThreshold | LowOrMediumRisk | OwnMessage | NoBranch

  function Classify(data: FraudScore, myId: Option<PeerId>): (b: Branch)
    ensures b == Alarm <==> Admits(data, myId)
    ensures b == OwnMessage <==> !IsAboutSomeoneElse(data, myId)
    ensures b == HighBelowThreshold <==>
      IsAboutSomeoneElse(data, myId) && data.riskLevel == HIGH && data.fraudScore <= ALARM_THRESHOLD
    ensures b == NoBranch <==>
      IsAboutSomeoneElse(data, myId) && data.riskLevel !in {HIGH, MEDIUM, LOW}
  {
    var other := IsAboutSomeoneElse(data, myId);
    if other && data.riskLevel == HIGH && data.fraudScore > ALARM_THRESHOLD then Alarm
    else if other && data.riskLevel == HIGH && data.fraudScore <= ALARM_THRESHOLD then HighBelowThreshold
    else if other && (data.riskLevel == MEDIUM || data.riskLevel == LOW) then LowOrMediumRisk
    else if !other then OwnMessage
    else NoBranch
  }

  /** The threshold is strict: a HIGH verdict from another speaker at 85 is refused, at 86 admitted. */
  lemma ThresholdIsStrict(data: FraudScore, myId: Option<PeerId>)
    requires IsAboutSomeoneElse(data, myId) && data.riskLevel == HIGH
    ensures !Admits(data.(fraudScore := 85.0), myId)
    ensures Admits(data.(fraudScore := 86.0), myId)
  {
  }

  /** The alert part of the client's state. */
  datatype AlertState = AlertState(
    current: Option<ScamAlert>,
    history: seq<ScamAlert>,
    alertCount: int,
    showScamAlert: bool,
    showDangerBanner: bool)

  /** The state at mount time, after a dismissal and after the call ends. */
  const Cleared := AlertState(None, [], 0, false, false)

  /**
   * What the handlers keep true of the alert state: the count is the length of the history,
   * the current alert is the newest one in the history, every alert in the history passed
   * the page's render condition, and a raised modal or banner always has a current alert.
   */
  ghost predicate Consistent(st: AlertState) {
    && st.alertCount == |st.history|
    && (st.current.Some? ==> st.history != [] && st.history[0] == st.current.value)
    && (forall i :: 0 <= i < |st.history| ==> ShownByPage(st.history[i]))
    && (st.showScamAlert || st.showDangerBanner ==> st.current.Some?)
  }

  /** The effect of one `fraud-score` event on the alert state. */
  function OnFraudScore(st: AlertState, data: FraudScore, myId: Option<PeerId>): (r: AlertState)
    ensures Consistent(st) ==> Consistent(r)
    ensures !Admits(data, myId) <==> r == st
  {
    if Admits(data, myId) then
      var alert := MakeAlert(data, myId);
      AlertState(Some(alert), [alert] + st.history, st.alertCount + 1, true, true)
    else
      st
  }

  /** Closing the banner alone keeps the alert, its history and the modal. */
  function HideBanner(st: AlertState): (r: AlertState)
    ensures Consistent(st) ==> Consistent(r)
    ensures !r.showDangerBanner
    ensures r.(showDangerBanner := st.showDangerBanner) == st
  {
    st.(showDangerBanner := false)
  }

  /**
   * The conversation-reset request that dismissing the alert emits: one message naming the
   * speaker of the current alert, or nothing when there is no current alert.
   */
  function ResetRequest(st: AlertState, roomId: string): (out: seq<Outbound>)
    ensures |out| <= 1
    ensures out != [] <==> st.current.Some?
    ensures forall m :: m in out ==> m.ResetConversation? && m.roomId == roomId && m.targetUserId == st.current.value.speaker
  {
    if st.current.Some? then [ResetConversation(roomId, st.current.value.speaker)] else []
  }

  lemma ClearedIsConsistent()
    ensures Consistent(Cleared)
  {
  }

  /** The state after a stream of `fraud-score` events, oldest first. */
  function ProcessScores(st: AlertState, events: seq<FraudScore>, myId: Option<PeerId>): AlertState
  {
    if events == [] then st
    else OnFraudScore(ProcessScores(st, events[..|events| - 1], myId), events[|events| - 1], myId)
  }

  /** The alerts a stream of events produces, newest first. */
  function NewestFirst(events: seq<FraudScore>, myId: Option<PeerId>): seq<ScamAlert>
  {
    if events == [] then []
    else
      var last := events[|events| - 1];
      (if Admits(last, myId) then [MakeAlert(last, myId)] else []) + NewestFirst(events[..|events| - 1], myId)
  }

  /**
   * Over a stream of events the history gains exactly the admitted alerts, newest at the
   * front, the count grows by their number, and the current alert is the newest of them;
   * a stream that admits nothing leaves the state exactly as it was.
   */
  lemma {:induction false} ProcessScoresHistory(st: AlertState, events: seq<FraudScore>, myId: Option<PeerId>)
    ensures ProcessScores(st, events, myId).history == NewestFirst(events, myId) + st.history
    ensures ProcessScores(st, events, myId).alertCount == st.alertCount + |NewestFirst(events, myId)|
    ensures NewestFirst(events, myId) == [] ==> ProcessScores(st, events, myId) == st
    ensures NewestFirst(events, myId) != [] ==>
      var r := ProcessScores(st, events, myId);
      r.current == Some(NewestFirst(events, myId)[0]) && r.showScamAlert && r.showDangerBanner
  {
    if events != [] {
      var prefix := events[..|events| - 1];
      ProcessScoresHistory(st, prefix, myId);
    }
  }

  /** Every alert a stream produces comes from a verdict that passed the admission rule. */
  lemma {:induction false} NewestFirstAdmitted(events: seq<FraudScore>, myId: Option<PeerId>)
    ensures forall a :: a in NewestFirst(events, myId) ==>
      exists i :: 0 <= i < |events| && Admits(events[i], myId) && a == MakeAlert(events[i], myId)
  {
    if events != [] {
      var n := |events| - 1;
      var prefix := events[..n];
      NewestFirstAdmitted(prefix, myId);
      forall a | a in NewestFirst(events, myId)
        ensures exists i :: 0 <= i < |events| && Admits(events[i], myId) && a == MakeAlert(events[i], myId)
      {
        if a in NewestFirst(prefix, myId) {
          var i :| 0 <= i < |prefix| && Admits(prefix[i], myId) && a == MakeAlert(prefix[i], myId);
          assert events[i] == prefix[i];
        } else {
          assert Admits(events[n], myId) && a == MakeAlert(events[n], myId);
        }
      }
    }
  }

  /** Verdicts about the local participant never change the alert state, however many arrive. */
  lemma {:induction false} OwnVerdictsAreInert(st: AlertState, events: seq<FraudScore>, me: PeerId)
    requires forall i :: 0 <= i < |events| ==> events[i].speaker == me
    ensures ProcessScores(st, events, Some(me)) == st
  {
    if events != [] {
      OwnVerdictsAreInert(st, events[..|events| - 1], me);
    }
  }

  /**
   * There is no cooldown: dismissing leaves the state `Cleared` (see `DismissScamAlert`), and
   * from there any admissible verdict, from the speaker just dismissed or anyone else, raises
   * the alarm again at once as the only alert.
   */
  lemma NoCooldownAfterDismissal(data: FraudScore, myId: Option<PeerId>)
    requires Admits(data, myId)
    ensures
      var r := OnFraudScore(Cleared, data, myId);
      r.current == Some(MakeAlert(data, myId)) && r.history == [MakeAlert(data, myId)]
      && r.alertCount == 1 && r.showScamAlert && r.showDangerBanner
  {
  }
}
