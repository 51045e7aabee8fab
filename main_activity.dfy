/**
 * MainActivity's verification handlers as a class over the activity's own fields.
 *
 * The face engine is an oracle: each handler receives what the engine returned
 * (detection result, extraction callback, comparison score) as parameters, and the
 * requests the activity issues to it are appended to `requests`, the comparisons it
 * runs to `comparisons`. Each Handler's postDelayed adds one pending post to a
 * counter and removeCallbacks sets it to zero; firing a timer runs one pending post.
 * Every method is proved to leave the object in the state the matching function of
 * VerificationSpec computes from the old state.
 */
module IdCardVerification {
  import opened Wrappers
  import opened VerificationSpec

  class MainActivity {
    var isIdCardReady: bool
    var isCurrentReady: bool
    var isRead: bool
    var idFaceFeature: Option<Feature>
    var faceFeature: Option<Feature>
    var requestFeatureStatusMap: map<int, Status>
    var readPosts: nat
    var restartPosts: nat
    var soundPosts: nat
    var requests: seq<int>
    var comparisons: seq<Comparison>
    var screen: Screen
    var sounds: seq<Sound>
    var name: string
    var hasBitmap: bool

    /** The fields, as one session value. */
    ghost function State(): Session
      reads this
    {
      Session(isIdCardReady, isCurrentReady, isRead, idFaceFeature, faceFeature,
              requestFeatureStatusMap, readPosts, restartPosts, soundPosts,
              requests, comparisons, screen, sounds, name, hasBitmap)
    }

    constructor ()
      ensures State() == Initial()
    {
      isIdCardReady := false;
      isCurrentReady := false;
      isRead := true;
      idFaceFeature := None;
      faceFeature := None;
      requestFeatureStatusMap := map[];
      readPosts, restartPosts, soundPosts := 0, 0, 0;
      requests := [];
      comparisons := [];
      screen := Tip(PutIdCard);
      sounds := [];
      name := "";
      hasBitmap := false;
    }

    /** onPreview: detection on the frame, then the dedup guard on the first face. */
    method OnPreview(frame: Frame)
      modifies this
      ensures State() == PreviewStep(old(State()), frame)
      ensures RequestDue(old(State()), frame) ==> requests == old(requests) + [frame.trackIds[0]]
      ensures !RequestDue(old(State()), frame) ==> requests == old(requests)
    {
      if !frame.present {
        return;
      }
      if frame.detectCode == MOK && |frame.trackIds| > 0 {
        var trackId := frame.trackIds[0];
        if isIdCardReady {
          if trackId !in requestFeatureStatusMap || requestFeatureStatusMap[trackId] == Failed {
            requestFeatureStatusMap := requestFeatureStatusMap[trackId := Searching];
            requests := requests + [trackId];
          }
        }
      }
    }

    /** compare: both sides must be ready before the engine is asked for a score. */
    method Compare(score: real)
      modifies this
      ensures State() == CompareStep(old(State()), score)
    {
      if !isIdCardReady {
        return;
      }
      if !isCurrentReady {
        screen := Tip(LookCamera);
        soundPosts := soundPosts + 1;
        return;
      }
      ShowResult(score);
    }

    /** The second half of compare: one engine comparison, the result panel, the reset. */
    method ShowResult(score: real)
      requires isIdCardReady && isCurrentReady
      modifies this
      ensures State() == CompareStep(old(State()), score)
    {
      soundPosts := 0;
      comparisons := comparisons + [Comparison(idFaceFeature, faceFeature, score)];
      sounds := sounds + [ResultSound(score)];
      screen := ResultScreen(score, name);
      EndSession();
    }

    /** The reset at the end of compare: both sides no longer ready, the reader flag up,
        the read timeout cancelled and one restart posted. */
    method EndSession()
      modifies this
      ensures State() == old(State()).(idCardReady := false, currentReady := false, isRead := true,
                                      readPosts := 0, restartPosts := old(restartPosts) + 1)
    {
      isIdCardReady, isCurrentReady, isRead := false, false, true;
      readPosts := 0;
      restartPosts := restartPosts + 1;
    }

    /** onFaceFeatureInfoGet, routed on tag ID_CARD_TAG for the ID card and on the track
        id otherwise, followed by the compare it schedules on the UI thread. */
    method OnFaceFeatureInfoGet(result: FeatureResult, score: real)
      modifies this
      ensures State() == FeatureStep(old(State()), result, score)
    {
      if result.errorCode != MOK {
        requestFeatureStatusMap := requestFeatureStatusMap[result.requestId := Failed];
        return;
      }
      if result.requestId == ID_CARD_TAG {
        OnIdCardFeature(result.feature, score);
      } else {
        OnLiveFeature(result.feature, score);
      }
    }

    /** The ID-card branch: store the reference feature, cancel the restart, post the
        read timeout, then compare. */
    method OnIdCardFeature(feature: Option<Feature>, score: real)
      modifies this
      ensures State() == CompareStep(old(State()).(idCardReady := true, idFeature := feature, restartPosts := 0,
                                                   readPosts := old(readPosts) + 1), score)
    {
      isIdCardReady := true;
      idFaceFeature := feature;
      restartPosts := 0;
      readPosts := readPosts + 1;
      Compare(score);
    }

    /** The live-face branch: store the live feature, then compare. */
    method OnLiveFeature(feature: Option<Feature>, score: real)
      modifies this
      ensures State() == CompareStep(old(State()).(liveFeature := feature, currentReady := true), score)
    {
      faceFeature := feature;
      isCurrentReady := true;
      Compare(score);
    }

    /** inputIdCard: submit the ID-card image for extraction under ID_CARD_TAG. */
    method InputIdCard(scan: CardScan)
      modifies this
      ensures State() == InputIdCardStep(old(State()), scan)
    {
      if !hasBitmap {
        return;
      }
      if scan.converted {
        if scan.detectCode == MOK && scan.faceCount > 0 {
          requests := requests + [ID_CARD_TAG];
        }
      }
    }

    /** onClickIdCard: the simulated card input. */
    method OnClickIdCard(decoded: bool, scan: CardScan)
      modifies this
      ensures State() == ClickIdCardStep(old(State()), decoded, scan)
    {
      name := SAMPLE_NAME;
      hasBitmap := decoded;
      InputIdCard(scan);
    }

    /** readRunnable runs one pending post. */
    method FireReadTimeout()
      requires readPosts > 0
      modifies this
      ensures State() == ReadTimeoutStep(old(State()))
    {
      readPosts := readPosts - 1;
      isRead := true;
      isIdCardReady := false;
      screen := Tip(PutIdCard);
    }

    /** restartRunnable runs one pending post. */
    method FireRestart()
      requires restartPosts > 0
      modifies this
      ensures State() == RestartStep(old(State()))
    {
      restartPosts := restartPosts - 1;
      screen := Tip(PutIdCard);
    }

    /** soundRunnable runs one pending post. */
    method FireSound()
      requires soundPosts > 0
      modifies this
      ensures State() == SoundStep(old(State()))
    {
      soundPosts := soundPosts - 1;
      sounds := sounds + [LookScreen];
    }
  }
}
