/**
 * The emotion labels and the decision that turns one face's classifier output
 * into a label (EmotionPhoto/Utils/EmotionClassifier/EmotionClassifier.swift).
 *
 * The CoreML model is an opaque capability: what its request reports for an
 * image is an input, `Option<seq<ClassificationObservation>>`, where `None`
 * stands for results that are missing or not classification observations.
 * Confidences are exact reals, not 32-bit floats.
 */
module EmotionClassification {
  import Wrappers

  /** The label set. `None` is the case the source writes `.none`. */
  datatype Emotion = Angry | Disgust | Fear | Happy | Neutral | Sad | Surprise | None

  /** A string-backed Swift enum: `.none` has no explicit raw value, so its raw value is its name. */
  function RawValue(e: Emotion): string
  {
    match e
    case Angry => "Angry"
    case Disgust => "Disgust"
    case Fear => "Fear"
    case Happy => "Happy"
    case Neutral => "Neutral"
    case Sad => "Sad"
    case Surprise => "Surprise"
    case None => "none"
  }

  /** `Emotion(rawValue:)`: the case whose raw value is `s`, if there is one. */
  function FromRawValue(s: string): (r: Wrappers.Option<Emotion>)
    ensures r.Some? ==> RawValue(r.value) == s
    ensures (exists e :: RawValue(e) == s) ==> r.Some?
  {
    if s == "Angry" then Wrappers.Some(Angry)
    else if s == "Disgust" then Wrappers.Some(Disgust)
    else if s == "Fear" then Wrappers.Some(Fear)
    else if s == "Happy" then Wrappers.Some(Happy)
    else if s == "Neutral" then Wrappers.Some(Neutral)
    else if s == "Sad" then Wrappers.Some(Sad)
    else if s == "Surprise" then Wrappers.Some(Surprise)
    else if s == "none" then Wrappers.Some(None)
    else Wrappers.None
  }

  /** Parsing the raw value of any case gives that case back. */
  lemma RawValueRoundTrip(e: Emotion)
    ensures FromRawValue(RawValue(e)) == Wrappers.Some(e)
  {
  }

  /** Distinct cases have distinct raw values. */
  lemma RawValueInjective(a: Emotion, b: Emotion)
    requires RawValue(a) == RawValue(b)
    ensures a == b
  {
    RawValueRoundTrip(a);
    RawValueRoundTrip(b);
  }

  /** The `emoticon` glyph of each case: one Unicode scalar, or empty for `.none`. */
  function Emoticon(e: Emotion): (g: string)
    ensures e == None <==> g == ""
    ensures e != None ==> |g| == 1 && g[0] != ' '
  {
    match e
    case Angry => "\U{1F621}"
    case Disgust => "\U{1F616}"
    case Fear => "\U{1F628}"
    case Happy => "\U{1F604}"
    case Neutral => "\U{1F610}"
    case Sad => "\U{1F61E}"
    case Surprise => "\U{1F631}"
    case None => ""
  }

  /** The case whose glyph is the character `c`, if any (inverse of `Emoticon` on the seven labelled cases). */
  function EmotionOfGlyph(c: char): (r: Wrappers.Option<Emotion>)
    ensures r.Some? ==> Emoticon(r.value) == [c]
    ensures forall e :: e != None && Emoticon(e) == [c] ==> r == Wrappers.Some(e)
  {
    if c == '\U{1F621}' then Wrappers.Some(Angry)
    else if c == '\U{1F616}' then Wrappers.Some(Disgust)
    else if c == '\U{1F628}' then Wrappers.Some(Fear)
    else if c == '\U{1F604}' then Wrappers.Some(Happy)
    else if c == '\U{1F610}' then Wrappers.Some(Neutral)
    else if c == '\U{1F61E}' then Wrappers.Some(Sad)
    else if c == '\U{1F631}' then Wrappers.Some(Surprise)
    else Wrappers.None
  }

  /** The seven non-empty glyphs are pairwise distinct, and each names its own case. */
  lemma EmoticonInjective(a: Emotion, b: Emotion)
    requires Emoticon(a) == Emoticon(b)
    ensures a == b
  {
    if a != None {
      assert EmotionOfGlyph(Emoticon(a)[0]) == Wrappers.Some(a);
      assert EmotionOfGlyph(Emoticon(b)[0]) == Wrappers.Some(b);
    }
  }

  /** One entry of `request.results as? [VNClassificationObservation]`. */
  datatype ClassificationObservation = ClassificationObservation(identifier: string, confidence: real)

  /** The acceptance threshold the completion handler applies to the first observation's confidence. */
  const ConfidenceThreshold: real := 0.8

  /**
   * The label the request's completion handler reports: the first observation's
   * identifier, parsed as a raw value, when that observation exists and is
   * confident enough; `.none` otherwise.
   */
  function DecideEmotion(results: Wrappers.Option<seq<ClassificationObservation>>): (e: Emotion)
    ensures (results.Some? && |results.value| > 0
             && results.value[0].confidence >= ConfidenceThreshold
             && FromRawValue(results.value[0].identifier).Some?)
            ==> e == FromRawValue(results.value[0].identifier).value
    ensures e != None ==> results.Some? && |results.value| > 0
                          && results.value[0].confidence >= ConfidenceThreshold
                          && RawValue(e) == results.value[0].identifier
  {
    if results.Some? && |results.value| > 0 && results.value[0].confidence >= ConfidenceThreshold then
      var parsed := FromRawValue(results.value[0].identifier);
      if parsed.Some? then parsed.value else None
    else
      None
  }

  /** An empty or missing result list, or an unconfident first observation, gives `.none`. */
  lemma NotConfidentMeansNone(results: Wrappers.Option<seq<ClassificationObservation>>)
    requires results.None? || |results.value| == 0 || results.value[0].confidence < ConfidenceThreshold
    ensures DecideEmotion(results) == None
  {
  }

  /** An identifier that is no raw value gives `.none`, however confident. */
  lemma UnknownIdentifierMeansNone(results: Wrappers.Option<seq<ClassificationObservation>>)
    requires results.Some? && |results.value| > 0
    requires FromRawValue(results.value[0].identifier).None?
    ensures DecideEmotion(results) == None
  {
  }

  /** Observations after the first never affect the decision. */
  lemma OnlyFirstObservationMatters(first: ClassificationObservation, rest1: seq<ClassificationObservation>,
                                    rest2: seq<ClassificationObservation>)
    ensures DecideEmotion(Wrappers.Some([first] + rest1)) == DecideEmotion(Wrappers.Some([first] + rest2))
  {
  }

  /** The classifier: `model` is loaded once, in `init`, and never changed afterwards. */
  datatype EmotionClassifier = EmotionClassifier(modelLoaded: bool)
  {
    /**
     * `classify`: the labels its completion is invoked with, in order, when the
     * model's request reports `results`. With no model the completion is never
     * invoked; otherwise exactly once.
     */
    function Classify(results: Wrappers.Option<seq<ClassificationObservation>>): (completions: seq<Emotion>)
      ensures |completions| == if modelLoaded then 1 else 0
      ensures modelLoaded ==> completions[0] == DecideEmotion(results)
    {
      if modelLoaded then [DecideEmotion(results)] else []
    }
  }
}
