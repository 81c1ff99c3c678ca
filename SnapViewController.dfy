/**
 * The capture gate: the delegate handlers of the snap screen
 * (EmotionPhoto/Snap/SnapViewController/SnapViewController.swift).
 *
 * Every callback is a discrete event applied in order. Face detection and the
 * classifier run synchronously inside `detectFaceOn`, so a frame's delegate
 * calls, and the classifier completions inside them, arrive in face order.
 * The two `DispatchQueue.main.async` blocks are queued on `mainQueue` and run
 * later, first in first out, by the event `RunNextMainBlock`; the end of the
 * flash animation is the event `FlashFinished`.
 *
 * `SnapState` and the `On...` functions are the transition model; the class
 * `SnapViewController` holds the same fields and its methods are proved to
 * follow that model.
 */
module Snap {
  import Wrappers
  import opened EmotionClassification
  import opened FaceDetection

  /** What the CoreML request reports for a face image (an opaque capability). */
  type Inference = CGImage -> Wrappers.Option<seq<ClassificationObservation>>

  /** A block waiting on the main queue. */
  datatype MainBlock =
    | CaptureBlock(image: CGImage)  // the capture block of `didFinishDetectingFacesOnImage`
    | StatusBlock                   // the block that rebuilds the emoticon label

  /** The controller's fields, plus the main queue and the flash animations still running. */
  datatype SnapState = SnapState(
    picturesTaken: int,
    hasHappyFacesOnLoop: bool,
    isTakingPicture: bool,
    pictures: seq<CGImage>,
    emotions: seq<Emotion>,
    emoticonText: string,
    mainQueue: seq<MainBlock>,
    flashesInFlight: nat)

  /** The state invariant: one picture per capture, and a capture in progress has a flash running. */
  predicate Inv(s: SnapState)
  {
    && s.picturesTaken == |s.pictures|
    && (s.isTakingPicture ==> s.flashesInFlight > 0)
  }

  /** The state when the screen is created. */
  function Initial(): (s: SnapState)
    ensures Inv(s)
  {
    SnapState(0, false, false, [], [], "", [], 0)
  }

  // ---------------------------------------------------------------------------
  // The status string
  // ---------------------------------------------------------------------------

  /** The emoticon label: each emotion's glyph followed by a space, in order. */
  function StatusText(emotions: seq<Emotion>): string
  {
    if emotions == [] then "" else Emoticon(emotions[0]) + " " + StatusText(emotions[1..])
  }

  /** Appending one emotion appends its glyph and a space (the shape of the loop that builds the label). */
  lemma {:induction false} StatusTextSnoc(emotions: seq<Emotion>, e: Emotion)
    ensures StatusText(emotions + [e]) == StatusText(emotions) + Emoticon(e) + " "
  {
    if emotions == [] {
      assert emotions + [e] == [e];
    } else {
      assert (emotions + [e])[1..] == emotions[1..] + [e];
      StatusTextSnoc(emotions[1..], e);
    }
  }

  /** The label holds exactly one space per emotion. */
  lemma {:induction false} StatusTextSpaces(emotions: seq<Emotion>)
    ensures multiset(StatusText(emotions))[' '] == |emotions|
  {
    if emotions != [] {
      StatusTextSpaces(emotions[1..]);
      var e := emotions[0];
      assert StatusText(emotions) == Emoticon(e) + " " + StatusText(emotions[1..]);
      assert multiset(Emoticon(e))[' '] == 0 by {
        if e != None { assert Emoticon(e) == [Emoticon(e)[0]]; }
      }
    }
  }

  /** A non-empty list gives a label that ends with a space. */
  lemma StatusTextEndsWithSpace(emotions: seq<Emotion>)
    requires emotions != []
    ensures |StatusText(emotions)| > 0 && StatusText(emotions)[|StatusText(emotions)| - 1] == ' '
  {
    var n := |emotions| - 1;
    assert emotions == emotions[..n] + [emotions[n]];
    StatusTextSnoc(emotions[..n], emotions[n]);
  }

  /** Prepends `e` to a parsed list. */
  function ConsParsed(e: Emotion, rest: Wrappers.Option<seq<Emotion>>): Wrappers.Option<seq<Emotion>>
  {
    if rest.Some? then Wrappers.Some([e] + rest.value) else Wrappers.None
  }

  /** Reads a label back into the emotions it shows: a lone space is `.none`, a glyph and a space its case. */
  function ParseStatusText(text: string): Wrappers.Option<seq<Emotion>>
  {
    if text == [] then Wrappers.Some([])
    else if text[0] == ' ' then ConsParsed(None, ParseStatusText(text[1..]))
    else if |text| >= 2 && text[1] == ' ' && EmotionOfGlyph(text[0]).Some? then
      ConsParsed(EmotionOfGlyph(text[0]).value, ParseStatusText(text[2..]))
    else Wrappers.None
  }

  /** The label loses nothing: it determines the emotion list, `.none` entries and order included. */
  lemma {:induction false} StatusTextRoundTrip(emotions: seq<Emotion>)
    ensures ParseStatusText(StatusText(emotions)) == Wrappers.Some(emotions)
  {
    if emotions != [] {
      var e, text := emotions[0], StatusText(emotions);
      StatusTextRoundTrip(emotions[1..]);
      if e == None {
        assert text == [' '] + StatusText(emotions[1..]);
        assert text[1..] == StatusText(emotions[1..]);
        assert [e] + emotions[1..] == emotions;
      } else {
        assert text == [Emoticon(e)[0], ' '] + StatusText(emotions[1..]);
        assert text[2..] == StatusText(emotions[1..]);
        assert EmotionOfGlyph(Emoticon(e)[0]) == Wrappers.Some(e);
        assert [e] + emotions[1..] == emotions;
      }
    }
  }

  // ---------------------------------------------------------------------------
  // Transitions
  // ---------------------------------------------------------------------------

  /** `didStartDetectingFaces`. */
  function OnStart(s: SnapState): SnapState
  {
    s.(hasHappyFacesOnLoop := true, emotions := [])
  }

  /** The classifier completion of `classifyImage`. */
  function OnClassified(s: SnapState, e: Emotion): SnapState
  {
    s.(emotions := s.emotions + [e],
       hasHappyFacesOnLoop := if e == Happy then s.hasHappyFacesOnLoop else false)
  }

  /** The completions of one classification, in the order they are invoked. */
  function OnCompletions(s: SnapState, completions: seq<Emotion>): SnapState
    decreases completions
  {
    if completions == [] then s else OnCompletions(OnClassified(s, completions[0]), completions[1..])
  }

  /** `didDetectFaceWithResult`: classify a cropped face, or clear the flag on `.error`. */
  function OnFaceResult(s: SnapState, result: FaceDetectionResult, classifier: EmotionClassifier,
                        infer: Inference): SnapState
  {
    match result
    case Success(faceImage) => OnCompletions(s, classifier.Classify(infer(faceImage)))
    case Error => s.(hasHappyFacesOnLoop := false)
  }

  /** `didFinishDetectingFacesOnImage`: queue the capture block if the flag is set, and always the status block. */
  function OnFinish(s: SnapState, image: CGImage): SnapState
  {
    if s.hasHappyFacesOnLoop then
      s.(mainQueue := s.mainQueue + [CaptureBlock(image), StatusBlock])
    else
      s.(hasHappyFacesOnLoop := false, mainQueue := s.mainQueue + [StatusBlock])
  }

  /** One delegate call from the detector. */
  function OnEvent(s: SnapState, event: DetectorEvent, classifier: EmotionClassifier, infer: Inference): SnapState
  {
    match event
    case DidStartDetectingFaces => OnStart(s)
    case DidDetectFace(result) => OnFaceResult(s, result, classifier, infer)
    case DidFinishDetectingFaces(image, _) => OnFinish(s, image)
  }

  /** A frame's delegate calls, in order. */
  function OnEvents(s: SnapState, events: seq<DetectorEvent>, classifier: EmotionClassifier,
                    infer: Inference): SnapState
    decreases events
  {
    if events == [] then s else OnEvents(OnEvent(s, events[0], classifier, infer), events[1..], classifier, infer)
  }

  /** The main queue runs its first block: the capture (`takePicture`) or the label update. */
  function OnMainBlock(s: SnapState): SnapState
    requires s.mainQueue != []
  {
    var rest := s.mainQueue[1..];
    match s.mainQueue[0]
    case CaptureBlock(image) =>
      s.(picturesTaken := s.picturesTaken + 1,
         isTakingPicture := true,
         pictures := s.pictures + [image],
         flashesInFlight := s.flashesInFlight + 1,
         hasHappyFacesOnLoop := false,
         mainQueue := rest)
    case StatusBlock =>
      s.(emoticonText := StatusText(s.emotions), mainQueue := rest)
  }

  /** The flash animation's finish action. */
  function OnFlashFinished(s: SnapState): SnapState
    requires s.flashesInFlight > 0
  {
    s.(isTakingPicture := false, flashesInFlight := s.flashesInFlight - 1)
  }

  /** The main queue runs until it is empty. */
  function Drain(s: SnapState): (r: SnapState)
    ensures r.mainQueue == []
    decreases |s.mainQueue|
  {
    if s.mainQueue == [] then s else Drain(OnMainBlock(s))
  }

  // ---------------------------------------------------------------------------
  // What arrives during a frame
  // ---------------------------------------------------------------------------

  /** The classifier completions a frame's delegate calls produce, in arrival order. */
  function Arrivals(events: seq<DetectorEvent>, classifier: EmotionClassifier, infer: Inference): seq<Emotion>
  {
    if events == [] then [] else EventArrivals(events[0], classifier, infer) + Arrivals(events[1..], classifier, infer)
  }

  /** The classifier completions one delegate call produces. */
  function EventArrivals(event: DetectorEvent, classifier: EmotionClassifier, infer: Inference): seq<Emotion>
  {
    match event
    case DidDetectFace(Success(faceImage)) => classifier.Classify(infer(faceImage))
    case _ => []
  }

  /** No face result among the events is `.error`. */
  predicate FaceErrorFree(events: seq<DetectorEvent>)
  {
    forall i :: 0 <= i < |events| ==> events[i] != DidDetectFace(Error)
  }

  predicate AllHappy(emotions: seq<Emotion>)
  {
    forall i :: 0 <= i < |emotions| ==> emotions[i] == Happy
  }

  /** A face result that lets the capture through: cropped, and every label it produced is `.happy`. */
  predicate FaceLetsCaptureThrough(result: FaceDetectionResult, classifier: EmotionClassifier, infer: Inference)
  {
    result.Success? && AllHappy(classifier.Classify(infer(result.faceImage)))
  }

  // ---------------------------------------------------------------------------
  // Properties of the transitions
  // ---------------------------------------------------------------------------

  /** Completions append to `emotions` in order; only a label other than `.happy` clears the flag. */
  lemma {:induction false} OnCompletionsEffect(s: SnapState, completions: seq<Emotion>)
    ensures OnCompletions(s, completions)
            == s.(emotions := s.emotions + completions,
                  hasHappyFacesOnLoop := s.hasHappyFacesOnLoop && AllHappy(completions))
    decreases completions
  {
    if completions != [] {
      var s1 := OnClassified(s, completions[0]);
      OnCompletionsEffect(s1, completions[1..]);
      assert s.emotions + completions == s1.emotions + completions[1..];
      assert AllHappy(completions) == (completions[0] == Happy && AllHappy(completions[1..]));
    }
  }

  /** Delivering `a + b` is delivering `a`, then `b`. */
  lemma {:induction false} OnEventsAppend(s: SnapState, a: seq<DetectorEvent>, b: seq<DetectorEvent>,
                                          classifier: EmotionClassifier, infer: Inference)
    ensures OnEvents(s, a + b, classifier, infer) == OnEvents(OnEvents(s, a, classifier, infer), b, classifier, infer)
    decreases a
  {
    if a != [] {
      assert (a + b)[1..] == a[1..] + b;
      OnEventsAppend(OnEvent(s, a[0], classifier, infer), a[1..], b, classifier, infer);
    } else {
      assert a + b == b;
    }
  }

  /** The completions of `a + b` are those of `a`, then those of `b`. */
  lemma {:induction false} ArrivalsAppend(a: seq<DetectorEvent>, b: seq<DetectorEvent>,
                                          classifier: EmotionClassifier, infer: Inference)
    ensures Arrivals(a + b, classifier, infer) == Arrivals(a, classifier, infer) + Arrivals(b, classifier, infer)
  {
    if a != [] {
      assert (a + b)[1..] == a[1..] + b;
      ArrivalsAppend(a[1..], b, classifier, infer);
    } else {
      assert a + b == b;
    }
  }

  /**
   * A run of face results: every completion is appended to `emotions` in
   * arrival order and nothing is removed; the flag survives exactly when no
   * result was `.error` and every completion was `.happy`; nothing else changes.
   */
  lemma {:induction false} FaceResultsEffect(s: SnapState, events: seq<DetectorEvent>,
                                             classifier: EmotionClassifier, infer: Inference)
    requires forall i :: 0 <= i < |events| ==> events[i].DidDetectFace?
    ensures var arrived := Arrivals(events, classifier, infer);
            OnEvents(s, events, classifier, infer)
            == s.(emotions := s.emotions + arrived,
                  hasHappyFacesOnLoop := s.hasHappyFacesOnLoop && FaceErrorFree(events) && AllHappy(arrived))
    decreases events
  {
    if events != [] {
      var rest := events[1..];
      var first := EventArrivals(events[0], classifier, infer);
      var later := Arrivals(rest, classifier, infer);
      FaceResultStep(s, events[0], classifier, infer);
      FaceResultsEffect(OnEvent(s, events[0], classifier, infer), rest, classifier, infer);
      AllHappyAppend(first, later);
      FaceErrorFreeCons(events);
      assert s.emotions + first + later == s.emotions + (first + later);
    }
  }

  /** One face result: its completions are appended, and the flag survives iff it is no `.error` and they are all `.happy`. */
  lemma FaceResultStep(s: SnapState, event: DetectorEvent, classifier: EmotionClassifier, infer: Inference)
    requires event.DidDetectFace?
    ensures var arrived := EventArrivals(event, classifier, infer);
            OnEvent(s, event, classifier, infer)
            == s.(emotions := s.emotions + arrived,
                  hasHappyFacesOnLoop := s.hasHappyFacesOnLoop && event != DidDetectFace(Error) && AllHappy(arrived))
  {
    if event.result.Success? {
      OnCompletionsEffect(s, EventArrivals(event, classifier, infer));
    }
  }

  lemma AllHappyAppend(a: seq<Emotion>, b: seq<Emotion>)
    ensures AllHappy(a + b) == (AllHappy(a) && AllHappy(b))
  {
    assert forall i :: 0 <= i < |a| ==> (a + b)[i] == a[i];
    assert forall i :: 0 <= i < |b| ==> (a + b)[|a| + i] == b[i];
  }

  lemma FaceErrorFreeCons(events: seq<DetectorEvent>)
    requires events != []
    ensures FaceErrorFree(events) == (events[0] != DidDetectFace(Error) && FaceErrorFree(events[1..]))
  {
    assert forall i :: 0 <= i < |events| - 1 ==> events[i + 1] == events[1..][i];
  }

  /** The gate condition, face by face: it holds iff every face was cropped and all its labels were `.happy`. */
  lemma {:induction false} GateFaceByFace(events: seq<DetectorEvent>, classifier: EmotionClassifier,
                                          infer: Inference)
    requires forall i :: 0 <= i < |events| ==> events[i].DidDetectFace?
    ensures FaceErrorFree(events) && AllHappy(Arrivals(events, classifier, infer))
            <==> forall i :: 0 <= i < |events| ==> FaceLetsCaptureThrough(events[i].result, classifier, infer)
  {
    if events != [] {
      var rest := events[1..];
      GateFaceByFace(rest, classifier, infer);
      AllHappyAppend(EventArrivals(events[0], classifier, infer), Arrivals(rest, classifier, infer));
      FaceErrorFreeCons(events);
      assert (forall i :: 0 <= i < |events| ==> FaceLetsCaptureThrough(events[i].result, classifier, infer))
             == (FaceLetsCaptureThrough(events[0].result, classifier, infer)
                 && forall i :: 0 <= i < |rest| ==> FaceLetsCaptureThrough(rest[i].result, classifier, infer)) by {
        assert forall i :: 0 <= i < |rest| ==> events[i + 1] == rest[i];
      }
    }
  }

  /** Every transition keeps the state invariant. */
  lemma TransitionsKeepInv(s: SnapState, event: DetectorEvent, classifier: EmotionClassifier, infer: Inference)
    requires Inv(s)
    ensures Inv(OnEvent(s, event, classifier, infer))
    ensures s.mainQueue != [] ==> Inv(OnMainBlock(s))
    ensures s.flashesInFlight > 0 ==> Inv(OnFlashFinished(s))
  {
    if event.DidDetectFace? && event.result.Success? {
      OnCompletionsEffect(s, classifier.Classify(infer(event.result.faceImage)));
    }
  }

  /** Delivering a frame's events keeps the invariant. */
  lemma {:induction false} OnEventsKeepsInv(s: SnapState, events: seq<DetectorEvent>,
                                            classifier: EmotionClassifier, infer: Inference)
    requires Inv(s)
    ensures Inv(OnEvents(s, events, classifier, infer))
    decreases events
  {
    if events != [] {
      TransitionsKeepInv(s, events[0], classifier, infer);
      OnEventsKeepsInv(OnEvent(s, events[0], classifier, infer), events[1..], classifier, infer);
    }
  }

  /** Only the flash's finish action ends a capture: no other transition clears `isTakingPicture`. */
  lemma TakingPictureEndsOnlyWithFlash(s: SnapState, event: DetectorEvent, classifier: EmotionClassifier,
                                       infer: Inference)
    requires s.isTakingPicture
    ensures OnEvent(s, event, classifier, infer).isTakingPicture
    ensures s.mainQueue != [] ==> OnMainBlock(s).isTakingPicture
  {
    if event.DidDetectFace? && event.result.Success? {
      OnCompletionsEffect(s, classifier.Classify(infer(event.result.faceImage)));
    }
  }

  /**
   * `didFinishDetectingFacesOnImage` followed by the main queue: a picture is
   * taken iff the flag was set. Taking it adds one to `picturesTaken`, appends
   * exactly that image to `pictures` and sets `isTakingPicture`; the flag is
   * false afterwards either way, and the label shows `emotions`.
   */
  lemma FinishThenDrain(s: SnapState, image: CGImage)
    requires Inv(s) && s.mainQueue == []
    ensures var d := Drain(OnFinish(s, image));
            && d.picturesTaken == s.picturesTaken + (if s.hasHappyFacesOnLoop then 1 else 0)
            && d.pictures == s.pictures + (if s.hasHappyFacesOnLoop then [image] else [])
            && d.isTakingPicture == (s.isTakingPicture || s.hasHappyFacesOnLoop)
            && d.flashesInFlight == s.flashesInFlight + (if s.hasHappyFacesOnLoop then 1 else 0)
            && !d.hasHappyFacesOnLoop
            && d.emotions == s.emotions
            && d.emoticonText == StatusText(s.emotions)
            && d.mainQueue == []
            && Inv(d)
  {
    var f := OnFinish(s, image);
    if s.hasHappyFacesOnLoop {
      var f1 := OnMainBlock(f);
      assert f1.mainQueue == [StatusBlock];
      var f2 := OnMainBlock(f1);
      assert f2.mainQueue == [];
      assert Drain(f) == Drain(f1) == Drain(f2) == f2;
    } else {
      var f1 := OnMainBlock(f);
      assert f1.mainQueue == [];
      assert Drain(f) == Drain(f1) == f1;
    }
  }

  /** A frame with no faces: the flag is cleared and nothing is queued. */
  lemma NoFacesFrame(s: SnapState, frame: Frame, crop: Cropper, classifier: EmotionClassifier, infer: Inference)
    requires frame.faceObservations.None? || frame.faceObservations.value == []
    ensures OnEvents(s, DetectionTrace(frame, crop), classifier, infer) == s.(hasHappyFacesOnLoop := false)
  {
    NoFacesTrace(frame, crop);
    var t := DetectionTrace(frame, crop);
    assert OnEvents(s, t, classifier, infer) == OnEvents(s.(hasHappyFacesOnLoop := false), [], classifier, infer);
  }

  /** Faces found but the image could not be converted: the session opens and never finishes, so nothing is queued. */
  lemma ConversionFailedFrame(s: SnapState, frame: Frame, crop: Cropper, classifier: EmotionClassifier,
                              infer: Inference)
    requires frame.faceObservations.Some? && frame.faceObservations.value != [] && frame.cgImage.None?
    ensures OnEvents(s, DetectionTrace(frame, crop), classifier, infer) == s.(hasHappyFacesOnLoop := true, emotions := [])
  {
    ConversionFailedTrace(frame, crop);
    var t := DetectionTrace(frame, crop);
    assert OnEvents(s, t, classifier, infer) == OnEvents(OnStart(s), [], classifier, infer);
  }

  /**
   * A sampled frame with faces and a converted image, delivered to a state
   * with an empty main queue, then the main queue run: a picture of the frame
   * is taken iff no face result was `.error` and every classification that
   * arrived was `.happy` (vacuously so when none arrived); `emotions` and the
   * label hold exactly the classifications that arrived, in arrival order.
   */
  lemma {:induction false} FrameGate(s: SnapState, frame: Frame, crop: Cropper, classifier: EmotionClassifier,
                                     infer: Inference)
    requires Inv(s) && s.mainQueue == []
    requires frame.faceObservations.Some? && frame.faceObservations.value != [] && frame.cgImage.Some?
    ensures var t := DetectionTrace(frame, crop);
            var arrived := Arrivals(t, classifier, infer);
            var gate := FaceErrorFree(t) && AllHappy(arrived);
            var image := frame.cgImage.value;
            var d := Drain(OnEvents(s, t, classifier, infer));
            && d.picturesTaken == s.picturesTaken + (if gate then 1 else 0)
            && d.pictures == s.pictures + (if gate then [image] else [])
            && d.isTakingPicture == (s.isTakingPicture || gate)
            && !d.hasHappyFacesOnLoop
            && d.emotions == arrived
            && d.emoticonText == StatusText(arrived)
            && Inv(d)
  {
    var t := DetectionTrace(frame, crop);
    var image, faces := frame.cgImage.value, frame.faceObservations.value;
    var middle := FaceEvents(image, faces, crop);
    var finish := DidFinishDetectingFaces(image, |faces|);
    SessionTraceParts(frame, crop, classifier, infer);
    var arrivedMiddle := Arrivals(middle, classifier, infer);

    OnEventsAppend(s, [DidStartDetectingFaces] + middle, [finish], classifier, infer);
    OnEventsAppend(s, [DidStartDetectingFaces], middle, classifier, infer);
    assert OnEvents(s, [DidStartDetectingFaces], classifier, infer) == OnStart(s);
    FaceResultsEffect(OnStart(s), middle, classifier, infer);
    var beforeFinish := OnEvents(s, [DidStartDetectingFaces] + middle, classifier, infer);
    var gate := FaceErrorFree(middle) && AllHappy(arrivedMiddle);
    assert beforeFinish == s.(emotions := arrivedMiddle, hasHappyFacesOnLoop := gate);
    assert OnEvents(beforeFinish, [finish], classifier, infer) == OnFinish(beforeFinish, image);

    FinishThenDrain(beforeFinish, image);
  }

  /**
   * The same gate stated face by face: the frame is captured iff every face's
   * crop succeeded and every label the classifier reported for it was `.happy`.
   */
  lemma FrameGateFaceByFace(frame: Frame, crop: Cropper, classifier: EmotionClassifier, infer: Inference)
    requires frame.faceObservations.Some? && frame.faceObservations.value != [] && frame.cgImage.Some?
    ensures var t := DetectionTrace(frame, crop);
            var image, faces := frame.cgImage.value, frame.faceObservations.value;
            FaceErrorFree(t) && AllHappy(Arrivals(t, classifier, infer))
            <==> forall i :: 0 <= i < |faces| ==>
                   FaceLetsCaptureThrough(FaceResult(image, faces[i], crop), classifier, infer)
  {
    var image, faces := frame.cgImage.value, frame.faceObservations.value;
    var middle := FaceEvents(image, faces, crop);
    SessionTraceParts(frame, crop, classifier, infer);
    GateFaceByFace(middle, classifier, infer);
    assert forall i :: 0 <= i < |faces| ==> middle[i].result == FaceResult(image, faces[i], crop);
  }

  /** A session's trace is start, the face results, finish; only the face results carry errors and completions. */
  lemma SessionTraceParts(frame: Frame, crop: Cropper, classifier: EmotionClassifier, infer: Inference)
    requires frame.faceObservations.Some? && frame.faceObservations.value != [] && frame.cgImage.Some?
    ensures var t := DetectionTrace(frame, crop);
            var image, faces := frame.cgImage.value, frame.faceObservations.value;
            var middle := FaceEvents(image, faces, crop);
            && t == [DidStartDetectingFaces] + middle + [DidFinishDetectingFaces(image, |faces|)]
            && |middle| == |faces|
            && (forall i :: 0 <= i < |faces| ==> middle[i] == DidDetectFace(FaceResult(image, faces[i], crop)))
            && Arrivals(t, classifier, infer) == Arrivals(middle, classifier, infer)
            && FaceErrorFree(t) == FaceErrorFree(middle)
  {
    var t := DetectionTrace(frame, crop);
    var image, faces := frame.cgImage.value, frame.faceObservations.value;
    var middle := FaceEvents(image, faces, crop);
    var finish := DidFinishDetectingFaces(image, |faces|);
    FaceEventsAt(image, faces, crop);
    ArrivalsAppend([DidStartDetectingFaces] + middle, [finish], classifier, infer);
    ArrivalsAppend([DidStartDetectingFaces], middle, classifier, infer);
    assert Arrivals([finish], classifier, infer) == [];
    assert Arrivals([DidStartDetectingFaces], classifier, infer) == [];
    assert forall i :: 0 <= i < |middle| ==> t[i + 1] == middle[i];
  }

  /**
   * Without a CoreML model no completion ever arrives, so the gate only looks
   * at the crops: every face that crops lets the capture through.
   */
  lemma NoModelGateIgnoresEmotions(result: FaceDetectionResult, classifier: EmotionClassifier, infer: Inference)
    requires !classifier.modelLoaded
    ensures FaceLetsCaptureThrough(result, classifier, infer) <==> result.Success?
  {
  }

  // ---------------------------------------------------------------------------
  // The controller
  // ---------------------------------------------------------------------------

  /**
   * The controller. Each handler method is proved to follow a transition above:
   * `DidStartDetectingFaces` follows `OnStart`, `DidDetectFaceWithResult`
   * `OnFaceResult`, `DidFinishDetectingFacesOnImage` `OnFinish`,
   * `ClassifyImage` `OnCompletions`, `ClassificationCompleted` `OnClassified`,
   * `HandleDetectorEvent` `OnEvent`, `DidReceiveImageOutput` `OnEvents`,
   * `RunNextMainBlock` `OnMainBlock` and `FlashFinished` `OnFlashFinished`.
   */
  class SnapViewController {
    var picturesTaken: int
    var hasHappyFacesOnLoop: bool
    var isTakingPicture: bool
    var pictures: seq<CGImage>
    var emotions: seq<Emotion>
    var emoticonText: string            // `emoticonLabel.text`
    var mainQueue: seq<MainBlock>       // blocks dispatched to the main queue, not yet run
    var flashesInFlight: nat            // flash animations whose finish action has not run
    const faceDetector: FaceDetector
    const emotionClassifier: EmotionClassifier

    function Model(): SnapState
      reads this
    {
      SnapState(picturesTaken, hasHappyFacesOnLoop, isTakingPicture, pictures, emotions, emoticonText,
                mainQueue, flashesInFlight)
    }

    ghost predicate Valid()
      reads this, faceDetector
    {
      faceDetector.Valid() && Inv(Model())
    }

    /** The screen with its detector and its classifier, whose model loaded iff `modelLoaded`. */
    constructor (modelLoaded: bool)
      ensures Valid() && Model() == Initial()
      ensures fresh(faceDetector) && faceDetector.currentInterval == 0
      ensures emotionClassifier == EmotionClassifier(modelLoaded)
    {
      picturesTaken, hasHappyFacesOnLoop, isTakingPicture := 0, false, false;
      pictures, emotions, emoticonText, mainQueue, flashesInFlight := [], [], "", [], 0;
      faceDetector := new FaceDetector();
      emotionClassifier := EmotionClassifier(modelLoaded);
    }

    /**
     * `didReceiveImageOutput`: the frame goes to the detector only while no
     * picture is being taken; the detector's delegate calls are then handled
     * in the order it makes them.
     */
    method DidReceiveImageOutput(frame: Frame, crop: Cropper, infer: Inference)
      returns (delivered: seq<DetectorEvent>)
      requires Valid()
      modifies this, faceDetector
      ensures Valid()
      ensures old(isTakingPicture) ==>
                delivered == [] && Model() == old(Model())
                && faceDetector.currentInterval == old(faceDetector.currentInterval)
      ensures !old(isTakingPicture) ==>
                && faceDetector.currentInterval == NextInterval(old(faceDetector.currentInterval))
                && delivered == (if Samples(old(faceDetector.currentInterval)) then DetectionTrace(frame, crop) else [])
                && Model() == OnEvents(old(Model()), delivered, emotionClassifier, infer)
    {
      delivered := [];
      if !isTakingPicture {
        delivered := faceDetector.DetectFaceOn(frame, crop);
        var i := 0;
        while i < |delivered|
          invariant 0 <= i <= |delivered|
          invariant faceDetector.Valid() && Inv(Model())
          invariant faceDetector.currentInterval == NextInterval(old(faceDetector.currentInterval))
          invariant Model() == OnEvents(old(Model()), delivered[..i], emotionClassifier, infer)
        {
          OnEventsAppend(old(Model()), delivered[..i], [delivered[i]], emotionClassifier, infer);
          assert delivered[..i + 1] == delivered[..i] + [delivered[i]];
          TransitionsKeepInv(Model(), delivered[i], emotionClassifier, infer);
          HandleDetectorEvent(delivered[i], infer);
          i := i + 1;
        }
        assert delivered[..i] == delivered;
      }
    }

    /** Dispatches one `FaceDetectorDelegate` call to its handler. */
    method HandleDetectorEvent(event: DetectorEvent, infer: Inference)
      modifies this
      ensures Model() == OnEvent(old(Model()), event, emotionClassifier, infer)
    {
      match event {
        case DidStartDetectingFaces => DidStartDetectingFaces();
        case DidDetectFace(result) => DidDetectFaceWithResult(result, infer);
        case DidFinishDetectingFaces(image, count) => DidFinishDetectingFacesOnImage(image, count);
      }
    }

    /** `didStartDetectingFaces`: set the flag and forget the previous frame's emotions. */
    method DidStartDetectingFaces()
      modifies this
      ensures Model() == old(Model()).(hasHappyFacesOnLoop := true, emotions := [])
    {
      hasHappyFacesOnLoop := true;
      emotions := [];
    }

    /** `didDetectFaceWithResult`: classify a cropped face; an `.error` result clears the flag. */
    method DidDetectFaceWithResult(faceResult: FaceDetectionResult, infer: Inference)
      modifies this
      ensures Model() == OnFaceResult(old(Model()), faceResult, emotionClassifier, infer)
    {
      match faceResult {
        case Success(faceImage) => ClassifyImage(faceImage, infer);
        case Error => hasHappyFacesOnLoop := false;
      }
    }

    /**
     * `didFinishDetectingFacesOnImage`: with the flag set, queue the capture
     * block (which clears the flag when it runs); otherwise clear the flag.
     * The label block is queued either way.
     */
    method DidFinishDetectingFacesOnImage(image: CGImage, observationsCount: nat)
      modifies this
      ensures old(hasHappyFacesOnLoop) ==>
                Model() == old(Model()).(mainQueue := old(mainQueue) + [CaptureBlock(image), StatusBlock])
      ensures !old(hasHappyFacesOnLoop) ==>
                Model() == old(Model()).(hasHappyFacesOnLoop := false, mainQueue := old(mainQueue) + [StatusBlock])
    {
      if hasHappyFacesOnLoop {
        mainQueue := mainQueue + [CaptureBlock(image)];
      } else {
        hasHappyFacesOnLoop := false;
      }
      mainQueue := mainQueue + [StatusBlock];
    }

    /** `classifyImage`: run the classifier; its completion, when invoked, is `ClassificationCompleted`. */
    method ClassifyImage(faceImage: CGImage, infer: Inference)
      modifies this
      ensures Model() == OnCompletions(old(Model()), emotionClassifier.Classify(infer(faceImage)))
    {
      var completions := emotionClassifier.Classify(infer(faceImage));
      if completions != [] {
        ClassificationCompleted(completions[0]);
        assert completions[1..] == [];
      }
    }

    /** The classifier completion: record the label; anything but `.happy` clears the flag. */
    method ClassificationCompleted(emotion: Emotion)
      modifies this
      ensures Model() == old(Model()).(emotions := old(emotions) + [emotion],
                                        hasHappyFacesOnLoop := old(hasHappyFacesOnLoop) && emotion == Happy)
    {
      emotions := emotions + [emotion];
      if emotion != Happy {
        hasHappyFacesOnLoop := false;
      }
    }

    /** The main queue runs its first block. */
    method RunNextMainBlock()
      requires Valid() && mainQueue != []
      modifies this
      ensures Valid()
      ensures Model() == OnMainBlock(old(Model()))
    {
      var block := mainQueue[0];
      mainQueue := mainQueue[1..];
      match block {
        case CaptureBlock(image) =>
          picturesTaken := picturesTaken + 1;
          TakePicture(image);
          hasHappyFacesOnLoop := false;
        case StatusBlock =>
          var text := EmoticonString(emotions);
          emoticonText := text;
      }
    }

    /** `takePicture`: mark the capture, keep the image, and start the flash. */
    method TakePicture(cgImage: CGImage)
      modifies this
      ensures Model() == old(Model()).(isTakingPicture := true, pictures := old(pictures) + [cgImage],
                                       flashesInFlight := old(flashesInFlight) + 1)
    {
      isTakingPicture := true;
      pictures := pictures + [cgImage];
      flashesInFlight := flashesInFlight + 1;
    }

    /** The flash animation's finish action: the capture is over. */
    method FlashFinished()
      requires Valid() && flashesInFlight > 0
      modifies this
      ensures Valid()
      ensures Model() == OnFlashFinished(old(Model()))
    {
      isTakingPicture := false;
      flashesInFlight := flashesInFlight - 1;
    }

    /** The label text: each emotion's glyph, then a space. */
    static method EmoticonString(emotions: seq<Emotion>) returns (text: string)
      ensures text == StatusText(emotions)
    {
      text := "";
      var i := 0;
      while i < |emotions|
        invariant 0 <= i <= |emotions|
        invariant text == StatusText(emotions[..i])
      {
        StatusTextSnoc(emotions[..i], emotions[i]);
        assert emotions[..i + 1] == emotions[..i] + [emotions[i]];
        text := text + Emoticon(emotions[i]);
        text := text + " ";
        i := i + 1;
      }
      assert emotions[..i] == emotions;
    }
  }
}
