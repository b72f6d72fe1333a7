/** The bookkeeping around the classifier in `DermatologyCNN`: choosing which
    ranked class scores become results, the severity band of a confidence,
    which diagnostic cases make it into the training set, and the
    model-present checks. The network itself (building, fitting, inference,
    image decoding) is outside the model: its outcomes arrive as parameters. */
module DermatologyCnn {
  import opened Common

  /** The names `predict` attaches to output units 0..7. */
  const ClassNames: seq<string> := [
    "Acne Vulgaris",
    "Atopic Dermatitis",
    "Psoriasis",
    "Seborrheic Dermatitis",
    "Contact Dermatitis",
    "Melanoma",
    "Basal Cell Carcinoma",
    "Rosacea"
  ]

  /** Default `confidence_threshold` of `predict`. */
  const DefaultThreshold: real := 0.7

  const ModelNotLoadedMessage := "Model not loaded. Please train or load a model first."
  const NoValidImagesMessage := "No valid images found for training"
  const CasesFileMissingMessage := "Diagnostic cases file not found"
  const ModelFileMissingMessage := "Model file not found"

  /** Stand-ins for the messages of exceptions raised inside the frameworks,
      whose text is not part of this code. */
  const EncodingFailedMessage := "Labels could not be encoded"
  const SplitFailedMessage := "Training data could not be split"
  const BuildFailedMessage := "Model construction failed"
  const FitFailedMessage := "Training failed"
  const ModelLoadFailedMessage := "Model file could not be loaded"
  const EncoderLoadFailedMessage := "Label encoder could not be loaded"

  datatype Severity = Mild | Moderate | High

  /** The `type` tag of a result. */
  datatype Kind = Primary | Secondary

  /** One entry of the list `predict` returns. */
  datatype Prediction = Prediction(condition: string, confidence: real, severity: Severity, kind: Kind)

  /** What the network's `predict` call produced for one image: the softmax
      scores together with `argsort(scores)[::-1]`, or an exception. */
  datatype Inference = Scores(scores: seq<real>, order: seq<nat>) | InferenceFails(message: string)

  /** The three ways `predict` can end: it raises, it returns `None`
      because the image could not be read, or it returns a list. */
  datatype PredictOutcome = Raised(message: string) | NoImage | Ranked(results: seq<Prediction>)

  /** Outcome of `train_model`: the error it raises, or the number of images
      it trained on. */
  datatype TrainOutcome = TrainFailed(error: string) | Trained(imageCount: nat)

  /** `get_model_info`. */
  datatype ModelInfo = NotLoaded | Loaded(classes: seq<string>, architecture: string)

  function SeverityRank(s: Severity): nat
  {
    match s
    case Mild => 0
    case Moderate => 1
    case High => 2
  }

  /** `_determine_severity`: the band of a confidence. */
  function DetermineSeverity(confidence: real): (s: Severity)
    ensures s == High <==> confidence >= 0.9
    ensures s == Moderate <==> 0.7 <= confidence < 0.9
    ensures s == Mild <==> confidence < 0.7
  {
    if confidence >= 0.9 then High
    else if confidence >= 0.7 then Moderate
    else Mild
  }

  /** The band never goes down as the confidence goes up. */
  lemma SeverityMonotone(a: real, b: real)
    requires a <= b
    ensures SeverityRank(DetermineSeverity(a)) <= SeverityRank(DetermineSeverity(b))
  {
  }

  lemma ClassNamesDistinct()
    ensures |ClassNames| == 8
    ensures forall i, j :: 0 <= i < j < |ClassNames| ==> ClassNames[i] != ClassNames[j]
  {
  }

  /** `order` is what `argsort(scores)[::-1]` yields: every index of `scores`
      exactly once, with scores non-increasing along it. Which of two equal
      scores comes first is left open. */
  predicate IsDescendingRanking(scores: seq<real>, order: seq<nat>)
  {
    && |order| == |scores|
    && (forall i :: 0 <= i < |order| ==> order[i] < |scores|)
    && (forall i, j :: 0 <= i < j < |order| ==> order[i] != order[j])
    && (forall i, j :: 0 <= i < j < |order| ==> scores[order[i]] >= scores[order[j]])
  }

  /** The network's output units map onto `ClassNames`, and `order` is the
      descending ranking of the scores. */
  predicate WellFormed(scores: seq<real>, order: seq<nat>)
  {
    |scores| <= |ClassNames| && IsDescendingRanking(scores, order)
  }

  /** The result built for rank `i`. */
  function Entry(scores: seq<real>, order: seq<nat>, i: nat): Prediction
    requires WellFormed(scores, order) && i < |order|
  {
    var confidence := scores[order[i]];
    Prediction(ClassNames[order[i]], confidence, DetermineSeverity(confidence),
               if i == 0 then Primary else Secondary)
  }

  /** Whether rank `i` is reported: the top rank always, the others when
      they reach the threshold. */
  predicate Keeps(scores: seq<real>, order: seq<nat>, threshold: real, i: nat)
    requires WellFormed(scores, order) && i < |order|
  {
    scores[order[i]] >= threshold || i == 0
  }

  /** The results collected from ranks `0 .. i-1`. */
  function SelectUpTo(scores: seq<real>, order: seq<nat>, threshold: real, i: nat): seq<Prediction>
    requires WellFormed(scores, order) && i <= |order|
  {
    if i == 0 then []
    else
      SelectUpTo(scores, order, threshold, i - 1)
      + (if Keeps(scores, order, threshold, i - 1) then [Entry(scores, order, i - 1)] else [])
  }

  /** The number of ranks `predict` looks at: `min(3, len(top_indices))`. */
  function RanksExamined(n: nat): nat
  {
    if n < 3 then n else 3
  }

  /** The list `predict` returns for a scored image. */
  function Select(scores: seq<real>, order: seq<nat>, threshold: real): seq<Prediction>
    requires WellFormed(scores, order)
  {
    SelectUpTo(scores, order, threshold, RanksExamined(|order|))
  }

  /** Everything `predict` can return, as a function of whether a model is
      present, whether the image can be read, and what the network says. */
  function PredictSpec(hasModel: bool, imageReadable: bool, inference: Inference, threshold: real): PredictOutcome
    requires inference.Scores? ==> WellFormed(inference.scores, inference.order)
  {
    if !hasModel then Raised(ModelNotLoadedMessage)
    else if !imageReadable then NoImage
    else match inference
      case InferenceFails(message) => Raised(message)
      case Scores(scores, order) => Ranked(Select(scores, order, threshold))
  }

  /** Although every examined rank is tested on its own, the kept ranks are
      always a prefix of the ranking: once a rank falls below the threshold,
      every later rank does too. */
  lemma {:induction false} SelectUpToIsPrefix(scores: seq<real>, order: seq<nat>, threshold: real, i: nat)
    requires WellFormed(scores, order) && i <= |order|
    ensures var r := SelectUpTo(scores, order, threshold, i);
      && |r| <= i
      && (i > 0 ==> |r| >= 1)
      && (forall j :: 1 <= j < |r| ==> scores[order[j]] >= threshold)
      && (|r| < i ==> scores[order[|r|]] < threshold)
  {
    if i > 0 {
      SelectUpToIsPrefix(scores, order, threshold, i - 1);
      var prev := SelectUpTo(scores, order, threshold, i - 1);
      if |prev| < i - 1 {
        // a rank already dropped, so this lower-or-equal one drops as well
        assert scores[order[|prev|]] >= scores[order[i - 1]];
      }
    }
  }

  /** The kept prefix holds, rank by rank, the result built for that rank. */
  lemma {:induction false} SelectUpToEntries(scores: seq<real>, order: seq<nat>, threshold: real, i: nat)
    requires WellFormed(scores, order) && i <= |order|
    ensures var r := SelectUpTo(scores, order, threshold, i);
      && |r| <= i
      && forall j :: 0 <= j < |r| ==> r[j] == Entry(scores, order, j)
  {
    if i > 0 {
      SelectUpToEntries(scores, order, threshold, i - 1);
      SelectUpToIsPrefix(scores, order, threshold, i - 1);
      var prev := SelectUpTo(scores, order, threshold, i - 1);
      if |prev| < i - 1 {
        // the new rank is not kept, so nothing is appended after the gap
        assert scores[order[|prev|]] >= scores[order[i - 1]];
      }
    }
  }

  /** What the returned list promises, for any well-formed scores. */
  lemma SelectProperties(scores: seq<real>, order: seq<nat>, threshold: real)
    requires WellFormed(scores, order)
    ensures var r := Select(scores, order, threshold);
      // one to three results, none at all only for a zero-width output
      && (|scores| == 0 <==> r == [])
      && |r| <= RanksExamined(|scores|) <= 3
      // the top-ranked class is always reported first, whatever the threshold
      && (|scores| > 0 ==> r[0].condition == ClassNames[order[0]] && r[0].confidence == scores[order[0]])
      // results are the leading ranks, best first
      && (forall j :: 0 <= j < |r| ==> r[j].confidence == scores[order[j]])
      && (forall j, k :: 0 <= j < k < |r| ==> r[j].confidence >= r[k].confidence)
      // a rank after the last result, among the first three, was below the threshold
      && (|r| < RanksExamined(|scores|) ==> scores[order[|r|]] < threshold)
      // exactly the first result is primary
      && (forall j :: 0 <= j < |r| ==> (r[j].kind == Primary <==> j == 0))
      // every secondary result reaches the threshold
      && (forall j :: 1 <= j < |r| ==> r[j].confidence >= threshold)
      // the severity is the band of the confidence
      && (forall j :: 0 <= j < |r| ==> r[j].severity == DetermineSeverity(r[j].confidence))
      // conditions are class names, and no class is reported twice
      && (forall j :: 0 <= j < |r| ==> r[j].condition in ClassNames)
      && (forall j, k :: 0 <= j < k < |r| ==> r[j].condition != r[k].condition)
  {
    var r := Select(scores, order, threshold);
    SelectUpToIsPrefix(scores, order, threshold, RanksExamined(|order|));
    SelectUpToEntries(scores, order, threshold, RanksExamined(|order|));
    ClassNamesDistinct();
    forall j, k | 0 <= j < k < |r| ensures r[j].condition != r[k].condition {
      assert order[j] != order[k];
    }
  }

  /** With the default threshold every secondary result is at least
      Moderate. */
  lemma SecondariesAtLeastModerate(scores: seq<real>, order: seq<nat>)
    requires WellFormed(scores, order)
    ensures var r := Select(scores, order, DefaultThreshold);
      forall j :: 1 <= j < |r| ==> r[j].severity in {Moderate, High}
  {
    SelectProperties(scores, order, DefaultThreshold);
  }

  /** Whether `prepare_dataset` keeps a case: both keys hold non-empty
      strings, the image file is found under the image directory, and it can
      be decoded. */
  predicate Usable(c: Case, files: set<string>, readable: set<string>)
  {
    Truthy(c.image) && Truthy(c.diagnosis) && c.image.value in files && c.image.value in readable
  }

  /** The cases that survive `prepare_dataset`, in file order. */
  function Prepared(cases: seq<Case>, files: set<string>, readable: set<string>): (kept: seq<Case>)
    ensures forall k :: 0 <= k < |kept| ==> Usable(kept[k], files, readable)
  {
    if cases == [] then []
    else (if Usable(cases[0], files, readable) then [cases[0]] else []) + Prepared(cases[1..], files, readable)
  }

  /** Filtering a concatenation filters each part: case order is kept. */
  lemma {:induction false} PreparedAppend(a: seq<Case>, b: seq<Case>, files: set<string>, readable: set<string>)
    ensures Prepared(a + b, files, readable) == Prepared(a, files, readable) + Prepared(b, files, readable)
  {
    if a == [] {
      assert a + b == b;
    } else {
      var head := if Usable(a[0], files, readable) then [a[0]] else [];
      assert (a + b)[0] == a[0];
      assert (a + b)[1..] == a[1..] + b;
      PreparedAppend(a[1..], b, files, readable);
      calc {
        Prepared(a + b, files, readable);
        head + Prepared(a[1..] + b, files, readable);
        head + (Prepared(a[1..], files, readable) + Prepared(b, files, readable));
        (head + Prepared(a[1..], files, readable)) + Prepared(b, files, readable);
      }
    }
  }

  /** A case is in the training set exactly when it is in the file and is
      usable; nothing is invented and no usable case is dropped. */
  lemma {:induction false} PreparedMembers(cases: seq<Case>, files: set<string>, readable: set<string>)
    ensures |Prepared(cases, files, readable)| <= |cases|
    ensures forall c :: c in Prepared(cases, files, readable) <==> c in cases && Usable(c, files, readable)
  {
    if cases != [] {
      PreparedMembers(cases[1..], files, readable);
      assert cases == [cases[0]] + cases[1..];
    }
  }

  /** `num_classes`: the width of the one-hot label vectors. */
  const NumClasses: nat := 8

  /** The distinct diagnosis strings of the kept cases: the classes that
      `LabelEncoder.fit_transform` numbers 0, 1, 2, … */
  function Diagnoses(kept: seq<Case>): set<string>
  {
    set k | 0 <= k < |kept| && kept[k].diagnosis.Text? :: kept[k].diagnosis.value
  }

  /** `to_categorical(y_encoded, num_classes)` accepts the codes only when
      there are no more distinct diagnoses than classes; a ninth diagnosis
      gets code 8, which has no column. */
  predicate LabelsEncodable(kept: seq<Case>)
  {
    |Diagnoses(kept)| <= NumClasses
  }

  /** A training set whose diagnoses are all class names always encodes. */
  lemma ClassNameDiagnosesEncode(kept: seq<Case>)
    requires forall k :: 0 <= k < |kept| ==> kept[k].diagnosis.Text? && kept[k].diagnosis.value in ClassNames
    ensures LabelsEncodable(kept)
  {
    var names := set name | name in ClassNames;
    assert Diagnoses(kept) <= names;
    ElementsBound(ClassNames);
    SubsetBound(Diagnoses(kept), names);
  }

  /** The classifier object. Its one piece of mutable state that matters here
      is whether `self.model` holds a network. */
  class DermatologyCNN {
    var hasModel: bool

    constructor ()
      ensures !hasModel
    {
      hasModel := false;
    }

    /** `predict`: refuses without a model, gives up on an unreadable image,
        and otherwise walks the first three ranks, keeping the top one and any
        other that reaches the threshold. */
    method Predict(imageReadable: bool, inference: Inference, threshold: real) returns (outcome: PredictOutcome)
      requires inference.Scores? ==> WellFormed(inference.scores, inference.order)
      ensures outcome == PredictSpec(hasModel, imageReadable, inference, threshold)
    {
      if !hasModel {
        return Raised(ModelNotLoadedMessage);
      }
      if !imageReadable {
        return NoImage;
      }
      if inference.InferenceFails? {
        return Raised(inference.message);
      }
      var scores, order := inference.scores, inference.order;
      var results: seq<Prediction> := [];
      var n := RanksExamined(|order|);
      var i := 0;
      while i < n
        invariant 0 <= i <= n
        invariant results == SelectUpTo(scores, order, threshold, i)
      {
        var idx := order[i];
        var confidence := scores[idx];
        if confidence >= threshold || i == 0 {
          var condition := ClassNames[idx];
          results := results + [Prediction(condition, confidence, DetermineSeverity(confidence),
                                           if i == 0 then Primary else Secondary)];
        }
        i := i + 1;
      }
      return Ranked(results);
    }

    /** `prepare_dataset` once the cases file has been read: the parallel
        image and label lists. An image is represented by its file name; its
        pixels are not modelled. */
    method PrepareDataset(cases: seq<Case>, files: set<string>, readable: set<string>)
      returns (images: seq<string>, labels: seq<string>)
      ensures var kept := Prepared(cases, files, readable);
        && |images| == |kept| && |labels| == |kept|
        && (forall k :: 0 <= k < |kept| ==> images[k] == kept[k].image.value && labels[k] == kept[k].diagnosis.value)
    {
      images, labels := [], [];
      var i := 0;
      while i < |cases|
        invariant 0 <= i <= |cases|
        invariant var kept := Prepared(cases[..i], files, readable);
          && |images| == |kept| && |labels| == |kept|
          && (forall k :: 0 <= k < |kept| ==> images[k] == kept[k].image.value && labels[k] == kept[k].diagnosis.value)
      {
        var c := cases[i];
        PreparedAppend(cases[..i], [c], files, readable);
        assert cases[..i + 1] == cases[..i] + [c];
        i := i + 1;
        if !Truthy(c.image) || !Truthy(c.diagnosis) {
          continue;
        }
        if c.image.value !in files {
          continue;
        }
        if c.image.value in readable {
          images := images + [c.image.value];
          labels := labels + [c.diagnosis.value];
        }
      }
      assert cases[..i] == cases;
    }

    /** `train_model`: reading the cases may fail; encoding the labels of
        `prepare_dataset` fails for more than `num_classes` distinct
        diagnoses; an empty training set is an error. `splitFails` stands for the stratified split raising
        (before any network exists); otherwise a network is built if there
        was none, `buildFails` standing for `build_model` raising before it
        installs the network, and `fitFails` stands for fitting, evaluating
        or saving it raising afterwards. */
    method TrainModel(casesFile: Option<seq<Case>>, files: set<string>, readable: set<string>,
                      splitFails: bool, buildFails: bool, fitFails: bool)
      returns (outcome: TrainOutcome)
      modifies this
      ensures casesFile.None? ==> outcome == TrainFailed(CasesFileMissingMessage) && hasModel == old(hasModel)
      ensures casesFile.Some? && |Prepared(casesFile.value, files, readable)| == 0 ==>
        outcome == TrainFailed(NoValidImagesMessage) && hasModel == old(hasModel)
      ensures casesFile.Some? && !LabelsEncodable(Prepared(casesFile.value, files, readable)) ==>
        outcome == TrainFailed(EncodingFailedMessage) && hasModel == old(hasModel)
      ensures casesFile.Some? && |Prepared(casesFile.value, files, readable)| > 0
              && LabelsEncodable(Prepared(casesFile.value, files, readable)) && splitFails ==>
        outcome == TrainFailed(SplitFailedMessage) && hasModel == old(hasModel)
      ensures casesFile.Some? && |Prepared(casesFile.value, files, readable)| > 0
              && LabelsEncodable(Prepared(casesFile.value, files, readable)) && !splitFails ==>
        hasModel == (old(hasModel) || !buildFails)
      ensures casesFile.Some? && |Prepared(casesFile.value, files, readable)| > 0
              && LabelsEncodable(Prepared(casesFile.value, files, readable)) && !splitFails ==>
        outcome == (if !old(hasModel) && buildFails then TrainFailed(BuildFailedMessage)
                    else if fitFails then TrainFailed(FitFailedMessage)
                    else Trained(|Prepared(casesFile.value, files, readable)|))
    {
      if casesFile.None? {
        return TrainFailed(CasesFileMissingMessage);
      }
      var images, labels := PrepareDataset(casesFile.value, files, readable);
      var classes := set k | 0 <= k < |labels| :: labels[k];
      assert classes == Diagnoses(Prepared(casesFile.value, files, readable));
      if |classes| > NumClasses {
        return TrainFailed(EncodingFailedMessage);
      }
      if |images| == 0 {
        return TrainFailed(NoValidImagesMessage);
      }
      if splitFails {
        return TrainFailed(SplitFailedMessage);
      }
      if !hasModel {
        if buildFails {
          return TrainFailed(BuildFailedMessage);
        }
        hasModel := true;
      }
      if fitFails {
        return TrainFailed(FitFailedMessage);
      }
      return Trained(|images|);
    }

    /** `load_model`: a missing file raises; a file the framework cannot load
        raises and leaves the previous model in place; a label encoder file
        that is present but cannot be read raises after the new model was
        installed. `encoderLoads` is false only in that last case. */
    method LoadModel(fileExists: bool, loadSucceeds: bool, encoderLoads: bool) returns (error: Option<string>)
      modifies this
      ensures error.None? <==> fileExists && loadSucceeds && encoderLoads
      ensures hasModel == if fileExists && loadSucceeds then true else old(hasModel)
    {
      if !fileExists {
        return Some(ModelFileMissingMessage);
      }
      if !loadSucceeds {
        return Some(ModelLoadFailedMessage);
      }
      hasModel := true;
      if !encoderLoads {
        return Some(EncoderLoadFailedMessage);
      }
      return None;
    }

    /** `get_model_info`. */
    function GetModelInfo(): (info: ModelInfo)
      reads this
      ensures info.NotLoaded? <==> !hasModel
      ensures info.Loaded? ==> info.classes == ClassNames
    {
      if !hasModel then NotLoaded else Loaded(ClassNames, "EfficientNetB0 + Custom Head")
    }
  }
}
