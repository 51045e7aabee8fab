/**
 * The ID-card versus live-face verification state machine of MainActivity, as values.
 *
 * A Session holds every field the activity's handlers read or write: the two
 * readiness flags, the reader flag, the two stored features, the per-track-id
 * request status map, one pending-post count per delayed callback (read timeout,
 * restart, sound prompt), and the observable outputs (issued extraction requests,
 * comparisons run by the engine, the screen, the sounds played).
 * Each handler is a function from the session before to the session after; the
 * class in main_activity.dfy is proved to update its fields exactly as these say.
 */
module VerificationSpec {
  import opened Wrappers

  /** ErrorInfo.MOK, the engine's and the image utilities' success code. */
  const MOK: int := 0
  /** The tag under which the ID-card image is submitted for extraction. */
  const ID_CARD_TAG: int := -2
  /** A comparison succeeds when its score is strictly above this. */
  const THRESHOLD: real := 0.82
  /** The name of the simulated ID card. */
  const SAMPLE_NAME: string := "张三"

  /** RequestFeatureStatus values the activity stores; "no entry" is the third state. */
  datatype Status = Searching | Failed

  /** An extracted face feature; opaque to the activity. */
  datatype Feature = Feature(data: seq<bv8>)

  /** The prompt image of the tip view. */
  datatype Prompt = PutIdCard | LookCamera
  /** The text under a comparison result: the card's name, or the retry hint. */
  datatype ResultText = CardName(name: string) | RetryHint
  /** What the screen shows: a prompt, or the result panel of the last comparison. */
  datatype Screen = Tip(prompt: Prompt) | Outcome(success: bool, text: ResultText)
  datatype Sound = LookScreen | CompareSuccess | CompareFail

  /** One call of the engine's compareFaceFeature, with the score it returned. */
  datatype Comparison = Comparison(reference: Option<Feature>, live: Option<Feature>, score: real)

  /** A preview frame (absent when the camera delivered null) and what detectFaces
      reported for it: its return code and the track ids of the faces, first face first. */
  datatype Frame = Frame(present: bool, detectCode: int, trackIds: seq<int>)

  /** The arguments of one onFaceFeatureInfoGet callback. */
  datatype FeatureResult = FeatureResult(feature: Option<Feature>, requestId: int, errorCode: int)

  /** What the image utilities and the image-mode engine report for the ID-card bitmap:
      whether conversion to BGR24 succeeded, detectFaces' code and the number of faces. */
  datatype CardScan = CardScan(converted: bool, detectCode: int, faceCount: nat)

  datatype Session = Session(
    idCardReady: bool,
    currentReady: bool,
    isRead: bool,
    idFeature: Option<Feature>,
    liveFeature: Option<Feature>,
    status: map<int, Status>,
    readPosts: nat,
    restartPosts: nat,
    soundPosts: nat,
    requests: seq<int>,
    comparisons: seq<Comparison>,
    screen: Screen,
    sounds: seq<Sound>,
    name: string,
    hasBitmap: bool)

  /** The activity as constructed: nothing ready, the reader flag raised, no name
      (null in the source, shown as the empty text) and no bitmap. */
  function Initial(): Session {
    Session(false, false, true, None, None, map[], 0, 0, 0, [], [], Tip(PutIdCard), [], "", false)
  }

  /** The dedup guard of onPreview: a track id may be requested when it has no entry
      or its last extraction failed. */
  predicate ShouldRequest(s: Session, t: int) {
    t !in s.status || s.status[t] == Failed
  }

  /** A frame triggers a live extraction request. */
  predicate RequestDue(s: Session, f: Frame) {
    f.present && f.detectCode == MOK && |f.trackIds| > 0
    && s.idCardReady && ShouldRequest(s, f.trackIds[0])
  }

  /** onPreview: mark the first face SEARCHING and request its feature, tagged with its
      track id, when the guard allows it. */
  function PreviewStep(s: Session, f: Frame): Session {
    if RequestDue(s, f) then
      var t := f.trackIds[0];
      s.(status := s.status[t := Searching], requests := s.requests + [t])
    else
      s
  }

  /** compare: nothing without the ID card; the look-at-camera prompt without the live
      side; otherwise one engine comparison, the result panel and the reset. */
  function CompareStep(s: Session, score: real): Session {
    if !s.idCardReady then
      s
    else if !s.currentReady then
      s.(screen := Tip(LookCamera), soundPosts := s.soundPosts + 1)
    else
      s.(soundPosts := 0,
         comparisons := s.comparisons + [Comparison(s.idFeature, s.liveFeature, score)],
         sounds := s.sounds + [ResultSound(score)],
         screen := ResultScreen(score, s.name),
         idCardReady := false,
         currentReady := false,
         isRead := true,
         readPosts := 0,
         restartPosts := s.restartPosts + 1)
  }

  /** The sound played for a comparison scoring `score`. */
  function ResultSound(score: real): Sound {
    if score > THRESHOLD then CompareSuccess else CompareFail
  }

  /** The result panel for a comparison scoring `score` on the card named `name`. */
  function ResultScreen(score: real, name: string): Screen {
    if score > THRESHOLD then Outcome(true, CardName(name)) else Outcome(false, RetryHint)
  }

  /** onFaceFeatureInfoGet followed by the compare it schedules; `score` is what the
      engine's comparison returns if compare reaches it. */
  function FeatureStep(s: Session, r: FeatureResult, score: real): Session {
    if r.errorCode != MOK then
      s.(status := s.status[r.requestId := Failed])
    else if r.requestId == ID_CARD_TAG then
      CompareStep(s.(idCardReady := true, idFeature := r.feature,
                     restartPosts := 0, readPosts := s.readPosts + 1), score)
    else
      CompareStep(s.(liveFeature := r.feature, currentReady := true), score)
  }

  /** inputIdCard: submit the ID-card image under ID_CARD_TAG when there is a bitmap,
      it converts and the engine finds a face in it. */
  function InputIdCardStep(s: Session, scan: CardScan): Session {
    if s.hasBitmap && scan.converted && scan.detectCode == MOK && scan.faceCount > 0 then
      s.(requests := s.requests + [ID_CARD_TAG])
    else
      s
  }

  /** onClickIdCard: take the sample name, keep the decoded bitmap (or none), then
      inputIdCard. */
  function ClickIdCardStep(s: Session, decoded: bool, scan: CardScan): Session {
    InputIdCardStep(s.(name := SAMPLE_NAME, hasBitmap := decoded), scan)
  }

  /** readRunnable fires: reader flag up, ID card no longer ready, idle prompt. */
  function ReadTimeoutStep(s: Session): Session
    requires s.readPosts > 0
  {
    s.(readPosts := s.readPosts - 1, isRead := true, idCardReady := false, screen := Tip(PutIdCard))
  }

  /** restartRunnable fires: idle prompt. */
  function RestartStep(s: Session): Session
    requires s.restartPosts > 0
  {
    s.(restartPosts := s.restartPosts - 1, screen := Tip(PutIdCard))
  }

  /** soundRunnable fires: the look-at-screen sound plays. */
  function SoundStep(s: Session): Session
    requires s.soundPosts > 0
  {
    s.(soundPosts := s.soundPosts - 1, sounds := s.sounds + [LookScreen])
  }

  /** Everything that can happen to the activity, one event at a time. A timer event
      runs one of its pending posts; with none pending it is not an event at all. */
  datatype Event =
    | PreviewFrame(frame: Frame)
    | FeatureReady(result: FeatureResult, score: real)
    | IdCardClicked(decoded: bool, scan: CardScan)
    // A direct call of inputIdCard on the bitmap already held, as the card reader's
    // thread would make it; the reader's own `isRead = false` is not part of it.
    | IdCardInput(scan: CardScan)
    | ReadTimerFires
    | RestartTimerFires
    | SoundTimerFires

  function Step(s: Session, e: Event): Session {
    match e
    case PreviewFrame(f) => PreviewStep(s, f)
    case FeatureReady(r, score) => FeatureStep(s, r, score)
    case IdCardClicked(decoded, scan) => ClickIdCardStep(s, decoded, scan)
    case IdCardInput(scan) => InputIdCardStep(s, scan)
    case ReadTimerFires => if s.readPosts > 0 then ReadTimeoutStep(s) else s
    case RestartTimerFires => if s.restartPosts > 0 then RestartStep(s) else s
    case SoundTimerFires => if s.soundPosts > 0 then SoundStep(s) else s
  }

  function Run(s: Session, es: seq<Event>): Session
    decreases |es|
  {
    if es == [] then s else Run(Step(s, es[0]), es[1..])
  }

  // ---------------------------------------------------------------------------
  // One handler at a time
  // ---------------------------------------------------------------------------

  /** A frame issues exactly one request, tagged with the first face's track id, exactly
      when detection succeeded with a face, the ID card is ready and that id has no
      entry or a FAILED one; the id is then SEARCHING. Otherwise nothing changes. */
  lemma PreviewRequestGuard(s: Session, f: Frame)
    ensures var s' := PreviewStep(s, f);
      && (RequestDue(s, f) <==> |s'.requests| == |s.requests| + 1)
      && (RequestDue(s, f) ==>
            && s'.requests == s.requests + [f.trackIds[0]]
            && s'.status == s.status[f.trackIds[0] := Searching]
            && s'.(requests := s.requests, status := s.status) == s)
      && (!RequestDue(s, f) ==> s' == s)
  {
  }

  /** A SEARCHING first face is never requested again, and stays SEARCHING. */
  lemma PreviewSkipsSearching(s: Session, f: Frame)
    requires |f.trackIds| > 0 && f.trackIds[0] in s.status && s.status[f.trackIds[0]] == Searching
    ensures PreviewStep(s, f) == s
  {
  }

  /** A failed extraction marks its tag FAILED and changes nothing else, for the
      ID-card tag as for a track id. */
  lemma FailedExtractionOnlyMarks(s: Session, r: FeatureResult, score: real)
    requires r.errorCode != MOK
    ensures var s' := FeatureStep(s, r, score);
      && s'.status == s.status[r.requestId := Failed]
      && s'.(status := s.status) == s
  {
  }

  /** A successful ID-card extraction stores the reference, cancels pending restarts,
      adds one read-timeout post to those already pending and then compares: with no
      live feature it prompts, otherwise it compares the new reference once. */
  lemma ReferenceExtracted(s: Session, r: FeatureResult, score: real)
    requires r.errorCode == MOK && r.requestId == ID_CARD_TAG
    ensures var s' := FeatureStep(s, r, score);
      && s'.status == s.status
      && s'.requests == s.requests
      && s'.idFeature == r.feature
      && (!s.currentReady ==>
            s' == s.(idCardReady := true, idFeature := r.feature, restartPosts := 0,
                     readPosts := s.readPosts + 1, screen := Tip(LookCamera),
                     soundPosts := s.soundPosts + 1))
      && (s.currentReady ==>
            s' == s.(idFeature := r.feature,
                     comparisons := s.comparisons + [Comparison(r.feature, s.liveFeature, score)],
                     sounds := s.sounds + [ResultSound(score)],
                     screen := ResultScreen(score, s.name),
                     soundPosts := 0, idCardReady := false, currentReady := false, isRead := true,
                     readPosts := 0, restartPosts := 1))
  {
  }

  /** A successful live extraction stores the feature and marks the live side ready even
      without the ID card, leaves the status map alone (the track id stays SEARCHING),
      and compares once exactly when the ID card is ready. */
  lemma LiveExtracted(s: Session, r: FeatureResult, score: real)
    requires r.errorCode == MOK && r.requestId != ID_CARD_TAG
    ensures var s' := FeatureStep(s, r, score);
      && s'.status == s.status
      && s'.requests == s.requests
      && s'.liveFeature == r.feature
      && (!s.idCardReady ==> s' == s.(liveFeature := r.feature, currentReady := true))
      && (s.idCardReady ==>
            && s'.comparisons == s.comparisons + [Comparison(s.idFeature, r.feature, score)]
            && !s'.idCardReady && !s'.currentReady)
  {
  }

  /** compare calls the engine exactly when both sides are ready. Without the ID card it
      does nothing; with it but without the live side it prompts and posts one sound. */
  lemma CompareOnlyWhenBothReady(s: Session, score: real)
    ensures var s' := CompareStep(s, score);
      && (|s'.comparisons| == |s.comparisons| + 1 <==> s.idCardReady && s.currentReady)
      && (!(s.idCardReady && s.currentReady) ==> s'.comparisons == s.comparisons)
      && (!s.idCardReady ==> s' == s)
      && (s.idCardReady && !s.currentReady ==>
            s' == s.(screen := Tip(LookCamera), soundPosts := s.soundPosts + 1))
  {
  }

  /** With both sides ready, compare passes the two stored features to the engine once,
      succeeds exactly when the score is above 0.82 (showing the card's name), and then
      resets: both flags down, reader flag up, sound and read timers cancelled, one
      restart posted. The status map and the stored features are kept. */
  lemma CompareDecides(s: Session, score: real)
    requires s.idCardReady && s.currentReady
    ensures var s' := CompareStep(s, score);
      && s'.comparisons == s.comparisons + [Comparison(s.idFeature, s.liveFeature, score)]
      && (s'.screen.Outcome? && (s'.screen.success <==> score > 0.82))
      && (score > 0.82 ==> s'.screen.text == CardName(s.name) && s'.sounds == s.sounds + [CompareSuccess])
      && (score <= 0.82 ==> s'.screen.text == RetryHint && s'.sounds == s.sounds + [CompareFail])
      && !s'.idCardReady && !s'.currentReady && s'.isRead
      && s'.soundPosts == 0 && s'.readPosts == 0 && s'.restartPosts == s.restartPosts + 1
      && s'.status == s.status && s'.idFeature == s.idFeature && s'.liveFeature == s.liveFeature
  {
  }

  /** The read timeout lowers the ID-card flag, raises the reader flag and shows the idle
      prompt; both stored features, the live flag and the status map are untouched. */
  lemma ReadTimeoutResets(s: Session)
    requires s.readPosts > 0
    ensures var s' := ReadTimeoutStep(s);
      && s'.isRead && !s'.idCardReady && s'.screen == Tip(PutIdCard)
      && s'.idFeature == s.idFeature && s'.liveFeature == s.liveFeature
      && s'.currentReady == s.currentReady && s'.status == s.status
      && s'.readPosts == s.readPosts - 1
  {
  }

  // ---------------------------------------------------------------------------
  // Whole runs
  // ---------------------------------------------------------------------------

  /** One event only appends to the request and comparison logs and only adds status
      entries. */
  lemma StepExtends(s: Session, e: Event)
    ensures s.requests <= Step(s, e).requests
    ensures s.comparisons <= Step(s, e).comparisons
    ensures s.status.Keys <= Step(s, e).status.Keys
  {
    match e
    case PreviewFrame(f) =>
    case FeatureReady(r, score) =>
    case IdCardClicked(decoded, scan) =>
    case IdCardInput(scan) =>
    case ReadTimerFires =>
    case RestartTimerFires =>
    case SoundTimerFires =>
  }

  /** Requests and comparisons are only ever appended. */
  lemma {:induction false} RunExtendsRequests(s: Session, es: seq<Event>)
    ensures s.requests <= Run(s, es).requests
    ensures s.comparisons <= Run(s, es).comparisons
    decreases |es|
  {
    if es != [] {
      StepExtends(s, es[0]);
      RunExtendsRequests(Step(s, es[0]), es[1..]);
    }
  }

  /** The status map is never cleared: every track id once recorded keeps an entry. */
  lemma {:induction false} StatusNeverCleared(s: Session, es: seq<Event>)
    ensures s.status.Keys <= Run(s, es).status.Keys
    decreases |es|
  {
    if es != [] {
      StepExtends(s, es[0]);
      StatusNeverCleared(Step(s, es[0]), es[1..]);
    }
  }

  /** An event that makes `t` eligible again: a failed extraction for tag `t`. */
  predicate FailsFor(e: Event, t: int) {
    e.FeatureReady? && e.result.errorCode != MOK && e.result.requestId == t
  }

  /** One event that is not a failed extraction for `t` keeps `t` SEARCHING and issues
      no request for it. */
  lemma StepKeepsSearching(s: Session, e: Event, t: int)
    requires t != ID_CARD_TAG
    requires t in s.status && s.status[t] == Searching
    requires !FailsFor(e, t)
    ensures var s' := Step(s, e);
      && s.requests <= s'.requests
      && t in s'.status && s'.status[t] == Searching
      && forall i :: |s.requests| <= i < |s'.requests| ==> s'.requests[i] != t
  {
    StepExtends(s, e);
  }

  /** A SEARCHING track id is never requested again, however many events follow, until an
      extraction for it fails; a successful live extraction leaves it SEARCHING. */
  lemma {:induction false} SearchingNeverReRequested(s: Session, es: seq<Event>, t: int)
    requires t != ID_CARD_TAG
    requires t in s.status && s.status[t] == Searching
    requires forall i :: 0 <= i < |es| ==> !FailsFor(es[i], t)
    ensures var s' := Run(s, es);
      && s.requests <= s'.requests
      && t in s'.status && s'.status[t] == Searching
      && forall i :: |s.requests| <= i < |s'.requests| ==> s'.requests[i] != t
    decreases |es|
  {
    if es != [] {
      var s1 := Step(s, es[0]);
      StepKeepsSearching(s, es[0], t);
      SearchingNeverReRequested(s1, es[1..], t);
    }
  }

  /** The invariant the handlers keep between events: the machine never rests with both
      sides ready (a comparison always consumes them), and every live extraction request
      ever issued has an entry in the status map. */
  ghost predicate Settled(s: Session) {
    && !(s.idCardReady && s.currentReady)
    && forall i :: 0 <= i < |s.requests| && s.requests[i] != ID_CARD_TAG ==> s.requests[i] in s.status
  }

  lemma InitialSettled()
    ensures Settled(Initial())
  {
  }

  lemma StepKeepsSettled(s: Session, e: Event)
    requires Settled(s)
    ensures Settled(Step(s, e))
  {
    StepExtends(s, e);
  }

  lemma {:induction false} RunKeepsSettled(s: Session, es: seq<Event>)
    requires Settled(s)
    ensures Settled(Run(s, es))
    decreases |es|
  {
    if es != [] {
      StepKeepsSettled(s, es[0]);
      RunKeepsSettled(Step(s, es[0]), es[1..]);
    }
  }

  // ---------------------------------------------------------------------------
  // Scenarios
  // ---------------------------------------------------------------------------

  /** The ID card is clicked and extracted, a face with track id 7 appears and is
      extracted, the engine scores 0.90: success with the card's name; the restart timer
      then brings back the idle prompt. */
  lemma SuccessScenario(reference: Feature, live: Feature)
    ensures var s := Run(Initial(), [
        IdCardClicked(true, CardScan(true, MOK, 1)),
        FeatureReady(FeatureResult(Some(reference), ID_CARD_TAG, MOK), 0.0),
        PreviewFrame(Frame(true, MOK, [7])),
        FeatureReady(FeatureResult(Some(live), 7, MOK), 0.90)]);
      && s.screen == Outcome(true, CardName(SAMPLE_NAME))
      && s.requests == [ID_CARD_TAG, 7]
      && s.comparisons == [Comparison(Some(reference), Some(live), 0.90)]
      && s.restartPosts == 1 && s.readPosts == 0
      && s.status == map[7 := Searching]
      && Step(s, RestartTimerFires).screen == Tip(PutIdCard)
  {
    var s0 := Initial();
    var s1 := Step(s0, IdCardClicked(true, CardScan(true, MOK, 1)));
    assert s1.requests == [ID_CARD_TAG] && s1.name == SAMPLE_NAME;
    var s2 := Step(s1, FeatureReady(FeatureResult(Some(reference), ID_CARD_TAG, MOK), 0.0));
    assert s2.idCardReady && !s2.currentReady && s2.readPosts == 1;
    var s3 := Step(s2, PreviewFrame(Frame(true, MOK, [7])));
    assert s3.requests == [ID_CARD_TAG, 7];
    var s4 := Step(s3, FeatureReady(FeatureResult(Some(live), 7, MOK), 0.90));
    assert s4.screen == Outcome(true, CardName(SAMPLE_NAME));
    var es := [
        IdCardClicked(true, CardScan(true, MOK, 1)),
        FeatureReady(FeatureResult(Some(reference), ID_CARD_TAG, MOK), 0.0),
        PreviewFrame(Frame(true, MOK, [7])),
        FeatureReady(FeatureResult(Some(live), 7, MOK), 0.90)];
    assert Run(s0, es) == Run(s1, es[1..]);
    assert Run(s1, es[1..]) == Run(s2, es[2..]);
    assert Run(s2, es[2..]) == Run(s3, es[3..]);
    assert Run(s3, es[3..]) == Run(s4, []);
  }

  /** The ID card is extracted but no face ever comes: the read timeout brings back the
      idle prompt and lowers the ID-card flag, so later frames request nothing. The
      stored reference feature itself is kept. */
  lemma TimeoutScenario(reference: Feature, f: Frame)
    ensures var s := Run(Initial(), [
        IdCardClicked(true, CardScan(true, MOK, 1)),
        FeatureReady(FeatureResult(Some(reference), ID_CARD_TAG, MOK), 0.0),
        ReadTimerFires]);
      && s.screen == Tip(PutIdCard) && !s.idCardReady && s.isRead
      && s.idFeature == Some(reference)
      && PreviewStep(s, f) == s
  {
    var s0 := Initial();
    var s1 := Step(s0, IdCardClicked(true, CardScan(true, MOK, 1)));
    var s2 := Step(s1, FeatureReady(FeatureResult(Some(reference), ID_CARD_TAG, MOK), 0.0));
    assert s2.readPosts == 1;
    var s3 := Step(s2, ReadTimerFires);
    var es := [
        IdCardClicked(true, CardScan(true, MOK, 1)),
        FeatureReady(FeatureResult(Some(reference), ID_CARD_TAG, MOK), 0.0),
        ReadTimerFires];
    assert Run(s0, es) == Run(s1, es[1..]);
    assert Run(s1, es[1..]) == Run(s2, es[2..]);
    assert Run(s2, es[2..]) == Run(s3, []);
  }

  /** With the ID card ready, a failed extraction for track id 3 makes the next frame
      whose first face is 3 request it again. */
  lemma RetryAfterFailure(s: Session, feature: Option<Feature>, code: int, score: real, more: seq<int>)
    requires s.idCardReady && code != MOK
    ensures var s1 := FeatureStep(s, FeatureResult(feature, 3, code), score);
      var s2 := PreviewStep(s1, Frame(true, MOK, [3] + more));
      && s1.status[3] == Failed
      && s2.requests == s.requests + [3]
      && s2.status[3] == Searching
  {
  }
}
