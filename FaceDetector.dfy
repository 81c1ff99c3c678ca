/**
 * The frame sampler and face-event emitter
 * (EmotionPhoto/Utils/FaceDetector/FaceDetector.swift).
 *
 * Vision's face-rectangle request, the CIImage-to-CGImage conversion and
 * `CGImage.cropping(to:)` are opaque capabilities. What the first two give for
 * one camera frame is recorded in a `Frame`; cropping is a function parameter.
 * The geometry is exact real arithmetic, not CGFloat.
 * The delegate calls the detector makes are returned as a trace of
 * `DetectorEvent`s, in the order the source makes them.
 */
module FaceDetection {
  import opened Wrappers

  /** A CGImage: an opaque identity and its pixel size. */
  datatype CGImage = CGImage(handle: nat, width: nat, height: nat)

  /** A face observation's `boundingBox`: normalized to the image, origin at the bottom left. */
  datatype NormalizedRect = NormalizedRect(x: real, y: real, width: real, height: real)

  /** A pixel rectangle, origin at the top left. */
  datatype Rect = Rect(x: real, y: real, width: real, height: real)

  /** `cgImage.cropping(to:)`: the cropped image, or `None` when cropping fails. */
  type Cropper = (CGImage, Rect) -> Option<CGImage>

  /** What the opaque capabilities give for one camera frame. */
  datatype Frame = Frame(
    faceObservations: Option<seq<NormalizedRect>>,  // `request.results as? [VNFaceObservation]`
    cgImage: Option<CGImage>)                        // `convertCIImageToCGImage`

  datatype FaceDetectionResult = Success(faceImage: CGImage) | Error

  /** The three `FaceDetectorDelegate` calls. */
  datatype DetectorEvent =
    | DidStartDetectingFaces
    | DidDetectFace(result: FaceDetectionResult)
    | DidFinishDetectingFaces(image: CGImage, observationsCount: nat)

  // ---------------------------------------------------------------------------
  // Crop rectangle
  // ---------------------------------------------------------------------------

  /** The pixel crop rectangle of a face box: scale to the image and flip the vertical axis. */
  function CroppingRect(box: NormalizedRect, imageWidth: nat, imageHeight: nat): (r: Rect)
    ensures r.y + r.height == (1.0 - box.y) * imageHeight as real
  {
    var width := box.width * imageWidth as real;
    var height := box.height * imageHeight as real;
    var x := box.x * imageWidth as real;
    var y := (1.0 - box.y) * imageHeight as real - height;
    Rect(x, y, width, height)
  }

  /** The normalized, bottom-left-origin box that a pixel rectangle covers (the inverse transform). */
  function NormalizedOf(r: Rect, imageWidth: nat, imageHeight: nat): (box: NormalizedRect)
    requires imageWidth > 0 && imageHeight > 0
  {
    NormalizedRect(r.x / imageWidth as real, 1.0 - (r.y + r.height) / imageHeight as real,
                   r.width / imageWidth as real, r.height / imageHeight as real)
  }

  /** On a non-empty image the transform loses nothing: inverting it gives the face box back. */
  lemma CroppingRectRoundTrip(box: NormalizedRect, imageWidth: nat, imageHeight: nat)
    requires imageWidth > 0 && imageHeight > 0
    ensures NormalizedOf(CroppingRect(box, imageWidth, imageHeight), imageWidth, imageHeight) == box
  {
    var w, h := imageWidth as real, imageHeight as real;
    var r := CroppingRect(box, imageWidth, imageHeight);
    assert r.x / w == box.x;
    assert r.width / w == box.width;
    assert r.height / h == box.height;
    var flipped := 1.0 - box.y;
    assert r.y + r.height == flipped * h;
    assert (flipped * h) / h == flipped;
  }

  /** A box inside the unit square gives a rectangle inside the image. */
  lemma CroppingRectWithinImage(box: NormalizedRect, imageWidth: nat, imageHeight: nat)
    requires 0.0 <= box.x && 0.0 <= box.y && 0.0 <= box.width && 0.0 <= box.height
    requires box.x + box.width <= 1.0 && box.y + box.height <= 1.0
    ensures var r := CroppingRect(box, imageWidth, imageHeight);
            && 0.0 <= r.x && r.x + r.width <= imageWidth as real
            && 0.0 <= r.y && r.y + r.height <= imageHeight as real
            && 0.0 <= r.width && 0.0 <= r.height
  {
    var w, h := imageWidth as real, imageHeight as real;
    var r := CroppingRect(box, imageWidth, imageHeight);
    ScaleBounds(box.x, box.width, w);
    ScaleBounds(1.0 - box.y - box.height, box.height, h);
    assert r.y == (1.0 - box.y - box.height) * h;
  }

  /** For 0 <= a, 0 <= b and a + b <= 1, scaling by a non-negative k keeps both parts within [0, k]. */
  lemma ScaleBounds(a: real, b: real, k: real)
    requires 0.0 <= a && 0.0 <= b && a + b <= 1.0 && 0.0 <= k
    ensures 0.0 <= a * k && 0.0 <= b * k && a * k + b * k <= k
  {
    assert a * k + b * k == (a + b) * k;
    assert (a + b) * k <= 1.0 * k;
  }

  /** The worked example: box (0.25, 0.3, 0.2, 0.25) over a 400 x 300 image. */
  lemma CroppingRectExample()
    ensures CroppingRect(NormalizedRect(0.25, 0.3, 0.2, 0.25), 400, 300) == Rect(100.0, 135.0, 80.0, 75.0)
  {
  }

  // ---------------------------------------------------------------------------
  // The face request's completion handler
  // ---------------------------------------------------------------------------

  /** The result delivered for one face: the crop of its rectangle, or `.error`. */
  function FaceResult(image: CGImage, face: NormalizedRect, crop: Cropper): FaceDetectionResult
  {
    match crop(image, CroppingRect(face, image.width, image.height))
    case Some(faceImage) => Success(faceImage)
    case None => Error
  }

  /** The per-face results, in observation order. */
  function FaceEvents(image: CGImage, faces: seq<NormalizedRect>, crop: Cropper): seq<DetectorEvent>
  {
    if faces == [] then []
    else [DidDetectFace(FaceResult(image, faces[0], crop))] + FaceEvents(image, faces[1..], crop)
  }

  /** The delegate calls made by the request's completion handler for a frame. */
  function DetectionTrace(frame: Frame, crop: Cropper): seq<DetectorEvent>
  {
    if frame.faceObservations.None? || |frame.faceObservations.value| == 0 then
      [DidDetectFace(Error)]
    else if frame.cgImage.None? then
      [DidStartDetectingFaces]
    else
      var image, faces := frame.cgImage.value, frame.faceObservations.value;
      [DidStartDetectingFaces] + FaceEvents(image, faces, crop)
      + [DidFinishDetectingFaces(image, |faces|)]
  }

  /** Appending one face appends its one result. */
  lemma {:induction false} FaceEventsSnoc(image: CGImage, faces: seq<NormalizedRect>, face: NormalizedRect,
                                          crop: Cropper)
    ensures FaceEvents(image, faces + [face], crop)
            == FaceEvents(image, faces, crop) + [DidDetectFace(FaceResult(image, face, crop))]
  {
    if faces == [] {
      assert faces + [face] == [face];
    } else {
      assert (faces + [face])[1..] == faces[1..] + [face];
      FaceEventsSnoc(image, faces[1..], face, crop);
    }
  }

  /** Exactly one result per face, the i-th for the i-th face. */
  lemma {:induction false} FaceEventsAt(image: CGImage, faces: seq<NormalizedRect>, crop: Cropper)
    ensures |FaceEvents(image, faces, crop)| == |faces|
    ensures forall i :: 0 <= i < |faces| ==>
              FaceEvents(image, faces, crop)[i] == DidDetectFace(FaceResult(image, faces[i], crop))
  {
    if faces != [] {
      FaceEventsAt(image, faces[1..], crop);
    }
  }

  /** Zero faces (or unreadable results): one `.error` result, no start and no finish. */
  lemma NoFacesTrace(frame: Frame, crop: Cropper)
    requires frame.faceObservations.None? || frame.faceObservations.value == []
    ensures DetectionTrace(frame, crop) == [DidDetectFace(Error)]
  {
  }

  /** Faces found but the image conversion failed: start only, no results and no finish. */
  lemma ConversionFailedTrace(frame: Frame, crop: Cropper)
    requires frame.faceObservations.Some? && frame.faceObservations.value != []
    requires frame.cgImage.None?
    ensures DetectionTrace(frame, crop) == [DidStartDetectingFaces]
  {
  }

  /**
   * n > 0 faces and a converted image: start, then exactly n results in
   * observation order (`.success` with the crop when cropping succeeds,
   * `.error` otherwise), then finish with `observationsCount == n`.
   */
  lemma {:induction false} DetectedFacesTrace(frame: Frame, crop: Cropper)
    requires frame.faceObservations.Some? && frame.faceObservations.value != []
    requires frame.cgImage.Some?
    ensures var t, image, faces := DetectionTrace(frame, crop), frame.cgImage.value, frame.faceObservations.value;
            && |t| == |faces| + 2
            && t[0] == DidStartDetectingFaces
            && t[|t| - 1] == DidFinishDetectingFaces(image, |faces|)
            && forall i :: 0 <= i < |faces| ==>
                 t[i + 1] == DidDetectFace(
                   match crop(image, CroppingRect(faces[i], image.width, image.height))
                   case Some(faceImage) => Success(faceImage)
                   case None => Error)
  {
    FaceEventsAt(frame.cgImage.value, frame.faceObservations.value, crop);
  }

  // ---------------------------------------------------------------------------
  // The sampler
  // ---------------------------------------------------------------------------

  /** `maxInterval`. */
  const MaxInterval: int := 10

  /** A call with the counter at `c` runs the face request. */
  predicate Samples(c: int)
  {
    c == MaxInterval
  }

  /** The counter after one call: reset after a sampled call, incremented otherwise. */
  function NextInterval(c: int): (next: int)
    ensures 0 <= c <= MaxInterval ==> 0 <= next <= MaxInterval
    ensures Samples(c) <==> next == 0 && 0 <= c
  {
    if Samples(c) then 0 else c + 1
  }

  /** The counter after `k` calls starting from `c`. */
  function IntervalAfter(c: int, k: nat): int
    decreases k
  {
    if k == 0 then c else IntervalAfter(NextInterval(c), k - 1)
  }

  /** How many of `k` calls starting from `c` run the face request. */
  function SampledCalls(c: int, k: nat): nat
    decreases k
  {
    if k == 0 then 0 else (if Samples(c) then 1 else 0) + SampledCalls(NextInterval(c), k - 1)
  }

  /** From 0, the counter after k calls is k mod 11, so call k (counting from 0) samples iff k mod 11 == 10. */
  lemma {:induction false} IntervalAfterFromZero(k: nat)
    ensures IntervalAfter(0, k) == k % (MaxInterval + 1)
    ensures Samples(IntervalAfter(0, k)) <==> k % (MaxInterval + 1) == MaxInterval
  {
    if k > 0 {
      IntervalAfterFromZero(k - 1);
      IntervalAfterStep(0, k - 1);
    }
  }

  /** One more call after k calls. */
  lemma {:induction false} IntervalAfterStep(c: int, k: nat)
    ensures IntervalAfter(c, k + 1) == NextInterval(IntervalAfter(c, k))
    decreases k
  {
    if k > 0 {
      IntervalAfterStep(NextInterval(c), k - 1);
    }
  }

  /** With the counter in range, any 11 consecutive calls sample exactly once. */
  lemma {:induction false} ElevenCallsSampleOnce(c: int)
    requires 0 <= c <= MaxInterval
    ensures SampledCalls(c, MaxInterval + 1) == 1
  {
    SampledCallsSplit(c, MaxInterval - c, c + 1);
    NotSampledRun(c, MaxInterval - c);
    IntervalAfterRun(c, MaxInterval - c);
    NotSampledRun(0, c);
    assert SampledCalls(MaxInterval, c + 1) == 1 + SampledCalls(0, c);
  }

  /** Counting up from c for k calls, with no reset on the way. */
  lemma {:induction false} IntervalAfterRun(c: int, k: nat)
    requires 0 <= c && c + k <= MaxInterval
    ensures IntervalAfter(c, k) == c + k
    decreases k
  {
    if k > 0 {
      IntervalAfterRun(c + 1, k - 1);
    }
  }

  /** Counting up from c for k calls without reaching the maximum samples nothing. */
  lemma {:induction false} NotSampledRun(c: int, k: nat)
    requires 0 <= c && c + k <= MaxInterval
    ensures SampledCalls(c, k) == 0
    decreases k
  {
    if k > 0 {
      NotSampledRun(c + 1, k - 1);
    }
  }

  /** Sampled calls over j + k calls split at call j. */
  lemma {:induction false} SampledCallsSplit(c: int, j: nat, k: nat)
    ensures SampledCalls(c, j + k) == SampledCalls(c, j) + SampledCalls(IntervalAfter(c, j), k)
    decreases j
  {
    if j > 0 {
      SampledCallsSplit(NextInterval(c), j - 1, k);
    }
  }

  // ---------------------------------------------------------------------------
  // The detector
  // ---------------------------------------------------------------------------

  class FaceDetector {
    var currentInterval: int
    const maxInterval: int

    ghost predicate Valid()
      reads this
    {
      maxInterval == MaxInterval && 0 <= currentInterval <= maxInterval
    }

    constructor ()
      ensures Valid() && currentInterval == 0
    {
      currentInterval := 0;
      maxInterval := MaxInterval;
    }

    /**
     * `detectFaceOn`: runs the face request (and returns the delegate calls it
     * makes) only when the counter has reached `maxInterval`, then resets the
     * counter; every other call increments the counter and emits nothing.
     */
    method DetectFaceOn(frame: Frame, crop: Cropper) returns (events: seq<DetectorEvent>)
      requires Valid()
      modifies this
      ensures Valid()
      ensures currentInterval == NextInterval(old(currentInterval))
      ensures old(currentInterval) == maxInterval ==> currentInterval == 0 && events == DetectionTrace(frame, crop)
      ensures old(currentInterval) != maxInterval ==> currentInterval == old(currentInterval) + 1 && events == []
    {
      if currentInterval == maxInterval {
        events := HandleFaceRequest(frame, crop);
        currentInterval := 0;
      } else {
        events := [];
        currentInterval := currentInterval + 1;
      }
    }

    /** The face request's completion handler: the delegate calls it makes, one per step of its loop. */
    static method HandleFaceRequest(frame: Frame, crop: Cropper) returns (events: seq<DetectorEvent>)
      ensures events == DetectionTrace(frame, crop)
    {
      if frame.faceObservations.None? || |frame.faceObservations.value| == 0 {
        events := [DidDetectFace(Error)];
        return;
      }
      var observations := frame.faceObservations.value;
      events := [DidStartDetectingFaces];
      if frame.cgImage.None? {
        return;
      }
      var cgImage := frame.cgImage.value;
      var i := 0;
      while i < |observations|
        invariant 0 <= i <= |observations|
        invariant events == [DidStartDetectingFaces] + FaceEvents(cgImage, observations[..i], crop)
      {
        var face := observations[i];
        var croppingRect := CroppingRect(face, cgImage.width, cgImage.height);
        var result;
        match crop(cgImage, croppingRect) {
          case Some(faceImage) => result := Success(faceImage);
          case None => result := Error;
        }
        FaceEventsSnoc(cgImage, observations[..i], face, crop);
        assert observations[..i + 1] == observations[..i] + [face];
        events := events + [DidDetectFace(result)];
        i := i + 1;
      }
      assert observations[..i] == observations;
      events := events + [DidFinishDetectingFaces(cgImage, |observations|)];
    }
  }
}
