# EmotionPhoto capture pipeline, modelled in Dafny

EmotionPhoto is an iOS app that takes a photo from the front camera once every
face in the frame smiles. This project models the logic between the camera and
the photo list:

- **The frame sampler and face-event emitter** (`FaceDetector`, module
  `FaceDetection`). An integer countdown (`currentInterval`, bounded by
  `maxInterval` = 10) picks the frames that go to face detection. For a sampled
  frame, every normalized face box becomes a pixel crop rectangle, with the
  vertical axis flipped. The delegate then receives its calls in a fixed order:
  start, one result per face, finish. These calls are returned as a trace of
  `DetectorEvent`s.
- **The emotion label decision** (`Emotion`, `EmotionClassifier.classify`,
  module `EmotionClassification`). These are the eight labels, their raw-value
  strings and emoticon glyphs, and the rule applied to the classifier output. The
  first observation must have confidence at least 0.8 and an identifier that
  parses as a raw value; otherwise the label is `.none`. Without a loaded model,
  the completion is never invoked.
- **The capture gate** (the delegate handlers of `SnapViewController`, module
  `Snap`). This is a class with the controller's fields: `hasHappyFacesOnLoop`,
  `isTakingPicture`, `picturesTaken`, `pictures`, `emotions` and the label text.
  Its methods are the event handlers. Each method is proved to follow a pure
  transition function on `SnapState`. The lemmas about those functions show
  which whole-frame outcomes are possible.

Callbacks are discrete events applied in order. Vision runs its requests
synchronously, so within one frame the classifier completions arrive in face
order, during the face-result calls. The two `DispatchQueue.main.async` blocks
of `didFinishDetectingFacesOnImage` are modelled as values queued on a FIFO
`mainQueue`. The event `RunNextMainBlock` runs the first one. The end of the
flash animation is the event `FlashFinished`. As a result, a frame's capture
happens when its capture block runs, not when the finish call returns. Until
then the happy flag stays set, as in the source. The status block reads
`emotions` when it runs.

Opaque capabilities become inputs:

- the face boxes Vision reports and the CGImage conversion, both carried by a
  `Frame` value;
- `cgImage.cropping(to:)`, a function parameter of type `Cropper`;
- what the CoreML request reports for a face image, a function parameter of
  type `Inference`;
- whether the CoreML model loaded, a constructor argument.

Geometry and confidences are exact `real`s.

The code has no join barrier, session timeout or session ids. With no CoreML
model, `classify` returns without calling its completion
(EmotionClassifier.swift:75-77).

One consequence, proved as `Snap.NoModelGateIgnoresEmotions` together with
`Snap.FrameGateFaceByFace`: when the CoreML model fails to load, no completion
ever arrives. Every sampled frame with at least one face and a converted image
whose faces all crop is then captured. A frame with zero faces
(`Snap.NoFacesFrame`) or a failed image conversion (`Snap.ConversionFailedFrame`)
is not.

## Model

| member | source | states |
|---|---|---|
| `EmotionClassification.RawValue` | EmotionPhoto/Utils/EmotionClassifier/EmotionClassifier.swift:14-30 | the raw-value table of the string-backed enum, `.none` included as "none" (its properties are `FromRawValue`, `RawValueRoundTrip` and `RawValueInjective`) |
| `EmotionClassification.FromRawValue` | EmotionPhoto/Utils/EmotionClassifier/EmotionClassifier.swift:14-30 | `Emotion(rawValue:)` yields a case only for that case's raw value, and yields one for every raw value (the raw value of `.none` is "none") |
| `EmotionClassification.RawValueRoundTrip` | EmotionPhoto/Utils/EmotionClassifier/EmotionClassifier.swift:14-30 | parsing `e.rawValue` gives back `e`, for every case |
| `EmotionClassification.RawValueInjective` | EmotionPhoto/Utils/EmotionClassifier/EmotionClassifier.swift:14-30 | two cases with the same raw value are the same case |
| `EmotionClassification.Emoticon` | EmotionPhoto/Utils/EmotionClassifier/EmotionClassifier.swift:33-52 | `emoticon` is total; it is empty exactly for `.none`; every other case has a single-character glyph that is not a space |
| `EmotionClassification.EmotionOfGlyph` | EmotionPhoto/Utils/EmotionClassifier/EmotionClassifier.swift:33-52 | a character mapped to a case is exactly that case's glyph (the inverse of `emoticon`) |
| `EmotionClassification.EmoticonInjective` | EmotionPhoto/Utils/EmotionClassifier/EmotionClassifier.swift:33-52 | the seven non-empty glyphs are pairwise distinct, and distinct from `.none`'s empty glyph |
| `EmotionClassification.DecideEmotion` | EmotionPhoto/Utils/EmotionClassifier/EmotionClassifier.swift:80-88 | the result is the first observation's parsed label when results exist, there is a first observation, its confidence is at least 0.8 and its identifier parses; a result other than `.none` implies all three conditions |
| `EmotionClassification.NotConfidentMeansNone` | EmotionPhoto/Utils/EmotionClassifier/EmotionClassifier.swift:80-82 | no results, an empty list, or a first confidence below 0.8 gives `.none`, whatever the identifier |
| `EmotionClassification.UnknownIdentifierMeansNone` | EmotionPhoto/Utils/EmotionClassifier/EmotionClassifier.swift:83-87 | an identifier that is no raw value gives `.none`, however confident |
| `EmotionClassification.OnlyFirstObservationMatters` | EmotionPhoto/Utils/EmotionClassifier/EmotionClassifier.swift:80-84 | observations after the first never change the result |
| `EmotionClassification.EmotionClassifier.Classify` | EmotionPhoto/Utils/EmotionClassifier/EmotionClassifier.swift:74-93 | with no model the completion is never invoked; with a model it is invoked exactly once, with the decided label |
| `FaceDetection.CroppingRect` | EmotionPhoto/Utils/FaceDetector/FaceDetector.swift:53-58 | vertical flip: `y + height == (1 - y0) * H` |
| `FaceDetection.CroppingRectRoundTrip` | EmotionPhoto/Utils/FaceDetector/FaceDetector.swift:53-56 | on a non-empty image, dividing the rectangle back by W and H and undoing the flip gives the original normalized box |
| `FaceDetection.CroppingRectWithinImage` | EmotionPhoto/Utils/FaceDetector/FaceDetector.swift:53-56 | a box with 0 <= x0, 0 <= y0, 0 <= w, 0 <= h, x0+w <= 1, y0+h <= 1 gives a rectangle inside [0,W] x [0,H] |
| `FaceDetection.CroppingRectExample` | EmotionPhoto/Utils/FaceDetector/FaceDetector.swift:53-58 | box (0.25, 0.3, 0.2, 0.25) over 400x300 gives x=100, y=135, width=80, height=75 |
| `FaceDetection.FaceResult` | EmotionPhoto/Utils/FaceDetector/FaceDetector.swift:53-63 | one face's result: `.success` with the crop of its rectangle, `.error` when cropping fails (described by `DetectedFacesTrace`) |
| `FaceDetection.FaceEvents` | EmotionPhoto/Utils/FaceDetector/FaceDetector.swift:52-64 | the loop's per-face results in observation order (described by `FaceEventsAt`) |
| `FaceDetection.DetectionTrace` | EmotionPhoto/Utils/FaceDetector/FaceDetector.swift:42-66 | the completion handler's delegate calls for one frame (described by `NoFacesTrace`, `ConversionFailedTrace` and `DetectedFacesTrace`) |
| `FaceDetection.FaceEventsAt` | EmotionPhoto/Utils/FaceDetector/FaceDetector.swift:52-64 | the loop emits exactly one result per face, the i-th for the i-th face |
| `FaceDetection.NoFacesTrace` | EmotionPhoto/Utils/FaceDetector/FaceDetector.swift:43-46 | zero (or unreadable) observations emit exactly one `.error` result, with no start and no finish |
| `FaceDetection.ConversionFailedTrace` | EmotionPhoto/Utils/FaceDetector/FaceDetector.swift:48-50 | a failed CGImage conversion emits start only; no face results and no finish follow |
| `FaceDetection.DetectedFacesTrace` | EmotionPhoto/Utils/FaceDetector/FaceDetector.swift:48-66 | with n > 0 faces and a converted image the trace is start, then n results in observation order (`.success` with the crop when cropping succeeds, `.error` otherwise), then finish with `observationsCount == n` |
| `FaceDetection.NextInterval` | EmotionPhoto/Utils/FaceDetector/FaceDetector.swift:69-74 | the counter stays within 0..`maxInterval`; it is reset to 0 exactly on a sampled call |
| `FaceDetection.IntervalAfterFromZero` | EmotionPhoto/Utils/FaceDetector/FaceDetector.swift:69-74 | starting from 0, the counter after k calls is k mod 11, and call k samples iff k mod 11 == 10 |
| `FaceDetection.ElevenCallsSampleOnce` | EmotionPhoto/Utils/FaceDetector/FaceDetector.swift:69-74 | from any counter value in range, exactly one of 11 consecutive calls runs detection |
| `FaceDetection.FaceDetector.constructor` | EmotionPhoto/Utils/FaceDetector/FaceDetector.swift:35-36 | the counter starts at 0 and `maxInterval` is 10 |
| `FaceDetection.FaceDetector.DetectFaceOn` | EmotionPhoto/Utils/FaceDetector/FaceDetector.swift:41-75 | on a call with `currentInterval == maxInterval` the counter becomes 0 and the request's delegate trace is emitted; any other call increments the counter by exactly 1 and emits nothing; the counter stays in range |
| `FaceDetection.FaceDetector.HandleFaceRequest` | EmotionPhoto/Utils/FaceDetector/FaceDetector.swift:42-67 | the completion handler's loop emits exactly the specified trace |
| `Snap.Initial` | EmotionPhoto/Snap/SnapViewController/SnapViewController.swift:18-22 | the initial fields satisfy the invariant `picturesTaken == pictures.count` |
| `Snap.StatusText` | EmotionPhoto/Snap/SnapViewController/SnapViewController.swift:148-152 | the label the status block builds (described by `StatusTextSnoc`, `StatusTextSpaces` and `StatusTextRoundTrip`) |
| `Snap.OnStart` | EmotionPhoto/Snap/SnapViewController/SnapViewController.swift:119-122 | `didStartDetectingFaces` as a state transition (followed by `SnapViewController.DidStartDetectingFaces`) |
| `Snap.OnClassified` | EmotionPhoto/Snap/SnapViewController/SnapViewController.swift:162-170 | one classifier completion as a state transition (described by `OnCompletionsEffect`) |
| `Snap.OnCompletions` | EmotionPhoto/Snap/SnapViewController/SnapViewController.swift:161-171 | the completions of one classification, in order (described by `OnCompletionsEffect`) |
| `Snap.OnFaceResult` | EmotionPhoto/Snap/SnapViewController/SnapViewController.swift:124-131 | `didDetectFaceWithResult` as a state transition (described by `FaceResultStep`) |
| `Snap.OnFinish` | EmotionPhoto/Snap/SnapViewController/SnapViewController.swift:133-156 | `didFinishDetectingFacesOnImage` as a state transition that queues its main blocks (described by `FinishThenDrain`) |
| `Snap.OnEvent` | EmotionPhoto/Snap/SnapViewController/SnapViewController.swift:118-156 | one delegate call as a state transition (described by `TransitionsKeepInv`) |
| `Snap.OnEvents` | EmotionPhoto/Snap/SnapViewController/SnapViewController.swift:118-156 | a frame's delegate calls in order (described by `OnEventsKeepsInv`, `FaceResultsEffect` and `FrameGate`) |
| `Snap.OnMainBlock` | EmotionPhoto/Snap/SnapViewController/SnapViewController.swift:135-155 | the first main-queue block runs: the capture block or the label block (described by `TransitionsKeepInv` and `FinishThenDrain`) |
| `Snap.OnFlashFinished` | EmotionPhoto/Snap/SnapViewController/SnapViewController.swift:182-184 | the flash's finish action clears `isTakingPicture` (described by `TransitionsKeepInv` and `TakingPictureEndsOnlyWithFlash`) |
| `Snap.Drain` | EmotionPhoto/Snap/SnapViewController/SnapViewController.swift:135-155 | the main queue runs every queued block in order and ends empty |
| `Snap.StatusTextSnoc` | EmotionPhoto/Snap/SnapViewController/SnapViewController.swift:148-152 | each loop step appends the emotion's glyph then one space |
| `Snap.StatusTextSpaces` | EmotionPhoto/Snap/SnapViewController/SnapViewController.swift:148-152 | the label contains exactly as many spaces as `emotions` has entries |
| `Snap.StatusTextEndsWithSpace` | EmotionPhoto/Snap/SnapViewController/SnapViewController.swift:148-152 | for a non-empty `emotions` the label ends with a space |
| `Snap.StatusTextRoundTrip` | EmotionPhoto/Snap/SnapViewController/SnapViewController.swift:148-154 | the label determines the emotion list exactly, order and `.none` entries included |
| `Snap.OnCompletionsEffect` | EmotionPhoto/Snap/SnapViewController/SnapViewController.swift:161-171 | each completion appends its label to `emotions` in arrival order; the flag survives iff every label is `.happy` |
| `Snap.FaceResultStep` | EmotionPhoto/Snap/SnapViewController/SnapViewController.swift:124-131 | one face result: `.error` clears the flag; a crop's completions are appended and clear the flag unless `.happy` |
| `Snap.FaceResultsEffect` | EmotionPhoto/Snap/SnapViewController/SnapViewController.swift:124-131 | over a run of face results, `emotions` gains exactly the arrivals in order and nothing is removed; the flag survives iff no result was `.error` and every arrival was `.happy`; nothing else changes |
| `Snap.GateFaceByFace` | EmotionPhoto/Snap/SnapViewController/SnapViewController.swift:124-131 | "no error and all happy" over a run of face results holds iff each face was cropped and all of its labels were `.happy` |
| `Snap.TransitionsKeepInv` | EmotionPhoto/Snap/SnapViewController/SnapViewController.swift:133-184 | every handler, main-queue block and flash finish keeps `picturesTaken == pictures.count`, and `isTakingPicture` implies a running flash |
| `Snap.OnEventsKeepsInv` | EmotionPhoto/Snap/SnapViewController/SnapViewController.swift:118-131 | delivering any sequence of delegate calls keeps the invariant |
| `Snap.TakingPictureEndsOnlyWithFlash` | EmotionPhoto/Snap/SnapViewController/SnapViewController.swift:177-184 | no delegate call and no main-queue block sets `isTakingPicture` back to false; only the flash's finish action does |
| `Snap.FinishThenDrain` | EmotionPhoto/Snap/SnapViewController/SnapViewController.swift:133-155 | from a state satisfying the invariant with an empty main queue: after finish and the main queue, a picture was taken iff the flag was set; taking it adds 1 to `picturesTaken`, appends exactly that image and sets `isTakingPicture`; the flag is false in both branches; the label shows `emotions` |
| `Snap.NoFacesFrame` | EmotionPhoto/Snap/SnapViewController/SnapViewController.swift:124-131 | a frame with zero faces only clears the flag; nothing is queued, so no capture follows |
| `Snap.ConversionFailedFrame` | EmotionPhoto/Snap/SnapViewController/SnapViewController.swift:119-122 | a frame whose image conversion fails opens a session (flag set, `emotions` emptied) and queues nothing |
| `Snap.SessionTraceParts` | EmotionPhoto/Utils/FaceDetector/FaceDetector.swift:48-66 | a session's trace is start, the per-face results, then finish, and only the per-face results carry errors and completions |
| `Snap.FrameGate` | EmotionPhoto/Snap/SnapViewController/SnapViewController.swift:119-145 | from a state satisfying the invariant with an empty main queue, for a sampled frame with faces and a converted image, once the main queue has run: the frame's image is captured iff no face result was `.error` and every classification that arrived was `.happy` (also when none arrived); `emotions` and the label hold exactly the arrivals in order; the flag ends false |
| `Snap.FrameGateFaceByFace` | EmotionPhoto/Snap/SnapViewController/SnapViewController.swift:124-171 | the same gate stated per face: every face's crop succeeded and every label reported for it was `.happy` |
| `Snap.NoModelGateIgnoresEmotions` | EmotionPhoto/Utils/EmotionClassifier/EmotionClassifier.swift:75-77 | without a model a face lets the capture through iff its crop succeeded |
| `Snap.SnapViewController.constructor` | EmotionPhoto/Snap/SnapViewController/SnapViewController.swift:15-22 | the fields start at 0, false and empty, with a fresh detector at interval 0 |
| `Snap.SnapViewController.DidReceiveImageOutput` | EmotionPhoto/Snap/SnapViewController/SnapViewController.swift:110-114 | while a picture is being taken nothing changes, the detector included; otherwise the detector advances and its delegate calls are handled in order |
| `Snap.SnapViewController.HandleDetectorEvent` | EmotionPhoto/Utils/FaceDetector/FaceDetector.swift:13-20 | each delegate call reaches its handler |
| `Snap.SnapViewController.DidStartDetectingFaces` | EmotionPhoto/Snap/SnapViewController/SnapViewController.swift:119-122 | sets the flag to true and empties `emotions`; nothing else changes |
| `Snap.SnapViewController.DidDetectFaceWithResult` | EmotionPhoto/Snap/SnapViewController/SnapViewController.swift:124-131 | `.success` classifies the face; `.error` clears the flag |
| `Snap.SnapViewController.DidFinishDetectingFacesOnImage` | EmotionPhoto/Snap/SnapViewController/SnapViewController.swift:133-156 | with the flag set, queues the capture block then the label block; otherwise clears the flag and queues the label block |
| `Snap.SnapViewController.ClassifyImage` | EmotionPhoto/Snap/SnapViewController/SnapViewController.swift:161-171 | applies exactly the completions the classifier makes |
| `Snap.SnapViewController.ClassificationCompleted` | EmotionPhoto/Snap/SnapViewController/SnapViewController.swift:162-170 | appends the label; anything but `.happy` clears the flag, `.happy` leaves it |
| `Snap.SnapViewController.RunNextMainBlock` | EmotionPhoto/Snap/SnapViewController/SnapViewController.swift:135-155 | runs the first queued block: the capture (count, picture, flag cleared) or the label update; keeps the invariant |
| `Snap.SnapViewController.TakePicture` | EmotionPhoto/Snap/SnapViewController/SnapViewController.swift:177-185 | sets `isTakingPicture`, appends exactly the image, starts one flash |
| `Snap.SnapViewController.FlashFinished` | EmotionPhoto/Snap/SnapViewController/SnapViewController.swift:182-184 | the finish action sets `isTakingPicture` to false; keeps the invariant |
| `Snap.SnapViewController.EmoticonString` | EmotionPhoto/Snap/SnapViewController/SnapViewController.swift:148-152 | the loop builds the label: each emotion's glyph followed by a space |

## Left out

- Camera I/O (`AVSnapHandler`: session setup, start, stop, the sample-buffer callback and its force-unwrap) is outside the core. Frames arrive as `Frame` values.
- The photo gallery (`PhotosCollectionViewController`, `PhotoCollectionViewCell`) and `didTapDoneButton` are UI only.
- Layout, buttons, navigation, `viewDidLoad`/`viewWillAppear`/`viewWillDisappear` and `print` logging are UI or output. Because of this, `observationsCount` in the capture block is carried by the finish event but not used.
- Vision, CoreML, `CIContext.createCGImage` and `CGImage.cropping` are opaque library calls. They are inputs: the face boxes and the conversion travel in `Frame`, cropping is a `Cropper` parameter, and the CoreML output is an `Inference` parameter.
- `try?` around `perform`: the model assumes each request's completion handler runs once. A request that throws before running its handler is not modelled.
- The delegates are `weak` optionals. The model assumes they are set, as `setupFaceDetector` does.
- Floating point: CGFloat geometry and the `Float` confidence are exact reals, with no rounding.
- Threads: the camera's video queue and the main queue are modelled as interleaved atomic events. Data races between them are not modelled.
- Snap.SnapViewController.DidReceiveImageOutput: the atomic unit is a whole frame. All of a frame's delegate calls run in one step, so no main-queue block can run between them. In the source they run on the camera's video queue while the blocks run on main, so an earlier frame's capture block can run in the middle of a later frame's session, clear `hasHappyFacesOnLoop` and keep that later frame from being captured. The model cannot reach that interleaving; this is why `Snap.FrameGate` requires an empty main queue.
- The flash animation's duration is not modelled. `FlashFinished` may come at any point after a capture, and is not ordered against `mainQueue`.
- `UIImage(cgImage:)`: `pictures` holds the captured CGImage itself.
- `emoticonLabel.text` starts as nil in the source; the model's initial label text is the empty string.
