/** `MLAnalysisService`: loads the classifier if its file is present, and
    turns a prediction into the records the application shows, decorated
    with fixed treatment and cause lists. */
module MlIntegration {
  import opened DermatologyCnn

  const ModelPath := "server/ml/models/dermatology_cnn_final.h5"
  const NotAvailableMessage := "CNN model not available. Please train the model first."
  const AnalysisMethod := "Custom CNN"
  const ModelAccuracy := "95%+"
  const AnalysisFailed := "Analysis Failed"
  const AnalysisError := "Analysis Error"
  const UnableMessage := "Unable to analyze the image with CNN model."
  const ErrorPrefix := "Error during CNN analysis: "
  const DefaultTreatment := "Consult dermatologist for proper diagnosis and treatment"
  const DefaultCause := "Consult dermatologist for detailed evaluation"

  const TreatmentTable: map<string, seq<string>> := map[
    "Acne Vulgaris" := [
      "Topical retinoids (tretinoin, adapalene)",
      "Benzoyl peroxide",
      "Antibiotic therapy if severe",
      "Gentle cleansing routine"],
    "Atopic Dermatitis" := [
      "Moisturizers and emollients",
      "Topical corticosteroids",
      "Calcineurin inhibitors",
      "Avoid known triggers"],
    "Psoriasis" := [
      "Topical corticosteroids",
      "Vitamin D analogues",
      "Phototherapy",
      "Systemic therapy for severe cases"],
    "Seborrheic Dermatitis" := [
      "Antifungal shampoos/topicals",
      "Topical corticosteroids",
      "Calcineurin inhibitors",
      "Gentle skincare routine"],
    "Contact Dermatitis" := [
      "Identify and avoid allergens",
      "Topical corticosteroids",
      "Cool compresses",
      "Antihistamines for itching"],
    "Melanoma" := [
      "URGENT: Immediate dermatologist consultation",
      "Surgical excision",
      "Biopsy confirmation required",
      "Regular skin monitoring"],
    "Basal Cell Carcinoma" := [
      "Dermatologist consultation required",
      "Surgical removal options",
      "Mohs surgery consideration",
      "Regular follow-up"],
    "Rosacea" := [
      "Topical metronidazole",
      "Avoid triggers (sun, spicy foods)",
      "Gentle skincare products",
      "Oral antibiotics if severe"]
  ]

  const CauseTable: map<string, seq<string>> := map[
    "Acne Vulgaris" := [
      "Hormonal changes",
      "Excess sebum production",
      "Bacterial growth (P. acnes)",
      "Genetics"],
    "Atopic Dermatitis" := [
      "Genetic predisposition",
      "Environmental allergens",
      "Immune system dysfunction",
      "Skin barrier defects"],
    "Psoriasis" := [
      "Autoimmune condition",
      "Genetic factors",
      "Stress triggers",
      "Infections"],
    "Seborrheic Dermatitis" := [
      "Malassezia yeast overgrowth",
      "Immune response",
      "Hormonal factors",
      "Environmental factors"],
    "Contact Dermatitis" := [
      "Allergic reactions",
      "Irritant exposure",
      "Chemical sensitization",
      "Environmental allergens"],
    "Melanoma" := [
      "UV radiation exposure",
      "Genetic mutations",
      "Family history",
      "Multiple moles"],
    "Basal Cell Carcinoma" := [
      "UV radiation exposure",
      "Fair skin type",
      "Age-related changes",
      "Previous radiation exposure"],
    "Rosacea" := [
      "Vascular abnormalities",
      "Environmental triggers",
      "Genetic predisposition",
      "Demodex mites"]
  ]

  /** One record of the analysis list: a prediction with the fields the
      service adds, or one of the two fallback records. */
  datatype AnalysisEntry =
    | Decorated(prediction: Prediction, analysisMethod: string, modelAccuracy: string,
                treatments: seq<string>, causes: seq<string>)
    | Fallback(condition: string, confidence: real, description: string)

  /** `analyze_image_with_cnn` returns either an error dictionary or a list. */
  datatype Analysis = Unavailable(error: string, accuracy: string) | Entries(entries: seq<AnalysisEntry>)

  /** `get_model_status`. */
  datatype ModelStatus = ModelStatus(cnnModelLoaded: bool, modelPath: string, classes: seq<string>, status: string)

  /** `_get_treatment_recommendations`. */
  function TreatmentRecommendations(condition: string): (r: seq<string>)
    ensures condition in TreatmentTable ==> r == TreatmentTable[condition] && |r| == 4
    ensures condition !in TreatmentTable ==> r == [DefaultTreatment]
  {
    if condition in TreatmentTable then TreatmentTable[condition] else [DefaultTreatment]
  }

  /** `_get_condition_causes`. */
  function ConditionCauses(condition: string): (r: seq<string>)
    ensures condition in CauseTable ==> r == CauseTable[condition] && |r| == 4
    ensures condition !in CauseTable ==> r == [DefaultCause]
  {
    if condition in CauseTable then CauseTable[condition] else [DefaultCause]
  }

  /** Both tables are keyed by exactly the classifier's class names. */
  lemma TablesCoverClassNames()
    ensures forall n :: n in ClassNames <==> n in TreatmentTable
    ensures forall n :: n in ClassNames <==> n in CauseTable
  {
  }

  /** A known condition never gets the default advice. */
  lemma KnownConditionsGetSpecificAdvice(condition: string)
    requires condition in ClassNames
    ensures |TreatmentRecommendations(condition)| == 4
    ensures |ConditionCauses(condition)| == 4
    ensures TreatmentRecommendations(condition) != [DefaultTreatment]
    ensures ConditionCauses(condition) != [DefaultCause]
  {
    TablesCoverClassNames();
  }

  /** The fields the service adds to one prediction; the prediction itself is
      kept as it was. */
  function Decorate(p: Prediction): AnalysisEntry
  {
    Decorated(p, AnalysisMethod, ModelAccuracy, TreatmentRecommendations(p.condition), ConditionCauses(p.condition))
  }

  /** The list the service returns for what `predict` did. */
  function AnalysisOf(outcome: PredictOutcome): seq<AnalysisEntry>
  {
    match outcome
    case Raised(message) => [Fallback(AnalysisError, 0.0, ErrorPrefix + message)]
    case NoImage => [Fallback(AnalysisFailed, 0.0, UnableMessage)]
    case Ranked(results) =>
      if results == [] then [Fallback(AnalysisFailed, 0.0, UnableMessage)]
      else seq(|results|, k requires 0 <= k < |results| => Decorate(results[k]))
  }

  /** A prediction for a known class is decorated with its specific lists. */
  lemma DecorateKnownCondition(p: Prediction)
    requires p.condition in ClassNames
    ensures Decorate(p).prediction == p
    ensures |Decorate(p).treatments| == 4 && Decorate(p).treatments != [DefaultTreatment]
    ensures |Decorate(p).causes| == 4 && Decorate(p).causes != [DefaultCause]
  {
    KnownConditionsGetSpecificAdvice(p.condition);
  }

  /** A scored image with a model present is decorated entry by entry; every
      entry names a class, so its treatment and cause lists are the specific
      ones. */
  lemma DecoratedPredictionsUseTables(scores: seq<real>, order: seq<nat>, threshold: real)
    requires WellFormed(scores, order) && |scores| > 0
    ensures var results := Select(scores, order, threshold);
      var entries := AnalysisOf(Ranked(results));
      && |entries| == |results|
      && (forall k :: 0 <= k < |entries| ==>
            && entries[k].Decorated?
            && entries[k].prediction == results[k]
            && |entries[k].treatments| == 4 && entries[k].treatments != [DefaultTreatment]
            && |entries[k].causes| == 4 && entries[k].causes != [DefaultCause])
  {
    var results := Select(scores, order, threshold);
    SelectProperties(scores, order, threshold);
    var entries := AnalysisOf(Ranked(results));
    forall k | 0 <= k < |entries|
      ensures && entries[k].Decorated?
              && entries[k].prediction == results[k]
              && |entries[k].treatments| == 4 && entries[k].treatments != [DefaultTreatment]
              && |entries[k].causes| == 4 && entries[k].causes != [DefaultCause]
    {
      DecorateKnownCondition(results[k]);
    }
  }

  class MLAnalysisService {
    var cnn: DermatologyCNN
    var modelLoaded: bool

    /** The flag is only set after the classifier accepted a model. */
    ghost predicate Valid()
      reads this, cnn
    {
      modelLoaded ==> cnn.hasModel
    }

    /** `__init__`: a fresh classifier, then one attempt to load it. */
    constructor (modelFileExists: bool, loadSucceeds: bool, encoderLoads: bool)
      ensures Valid() && fresh(cnn)
      ensures modelLoaded <==> modelFileExists && loadSucceeds && encoderLoads
      ensures cnn.hasModel <==> modelFileExists && loadSucceeds
    {
      cnn := new DermatologyCNN();
      modelLoaded := false;
      new;
      LoadModelIfAvailable(modelFileExists, loadSucceeds, encoderLoads);
    }

    /** `load_model_if_available`: with the file there, the flag becomes true
        exactly when `load_model` does not raise, and the classifier holds a
        model when the network loaded or it already had one; with no file
        nothing changes. */
    method LoadModelIfAvailable(modelFileExists: bool, loadSucceeds: bool, encoderLoads: bool)
      requires Valid()
      modifies this, cnn
      ensures Valid() && cnn == old(cnn)
      ensures modelFileExists ==> (modelLoaded <==> loadSucceeds && encoderLoads)
      ensures modelFileExists ==> cnn.hasModel == (loadSucceeds || old(cnn.hasModel))
      ensures !modelFileExists ==> modelLoaded == old(modelLoaded) && cnn.hasModel == old(cnn.hasModel)
    {
      if modelFileExists {
        var error := cnn.LoadModel(modelFileExists, loadSucceeds, encoderLoads);
        if error.None? {
          modelLoaded := true;
        } else {
          modelLoaded := false;
        }
      }
    }

    /** The loop of `analyze_image_with_cnn` that adds the service's fields to
        every prediction. */
    method DecorateResults(results: seq<Prediction>) returns (entries: seq<AnalysisEntry>)
      ensures |entries| == |results|
      ensures forall k :: 0 <= k < |results| ==> entries[k] == Decorate(results[k])
    {
      entries := [];
      var i := 0;
      while i < |results|
        invariant 0 <= i <= |results|
        invariant |entries| == i
        invariant forall k :: 0 <= k < i ==> entries[k] == Decorate(results[k])
      {
        var result := results[i];
        entries := entries + [Decorated(result, AnalysisMethod, ModelAccuracy,
                                        TreatmentRecommendations(result.condition),
                                        ConditionCauses(result.condition))];
        i := i + 1;
      }
    }

    /** `analyze_image_with_cnn`: without a loaded model it answers with the
        error record and never calls `predict`; otherwise the classifier
        holds a model, so `predict` never raises for want of one, and every
        outcome of `predict` becomes a non-empty list. */
    method AnalyzeImage(imageReadable: bool, inference: Inference) returns (analysis: Analysis)
      requires Valid()
      requires inference.Scores? ==> WellFormed(inference.scores, inference.order)
      ensures !modelLoaded ==> analysis == Unavailable(NotAvailableMessage, "N/A")
      ensures modelLoaded ==>
        analysis == Entries(AnalysisOf(PredictSpec(true, imageReadable, inference, DefaultThreshold)))
      ensures analysis.Entries? ==> |analysis.entries| >= 1
    {
      if !modelLoaded {
        return Unavailable(NotAvailableMessage, "N/A");
      }
      var outcome := cnn.Predict(imageReadable, inference, DefaultThreshold);
      match outcome {
        case Raised(message) =>
          return Entries([Fallback(AnalysisError, 0.0, ErrorPrefix + message)]);
        case NoImage =>
          return Entries([Fallback(AnalysisFailed, 0.0, UnableMessage)]);
        case Ranked(results) =>
          if results == [] {
            return Entries([Fallback(AnalysisFailed, 0.0, UnableMessage)]);
          }
          var entries := DecorateResults(results);
          return Entries(entries);
      }
    }

    /** `get_model_status`. */
    function GetModelStatus(): (status: ModelStatus)
      reads this
      ensures status.cnnModelLoaded == modelLoaded
      ensures status.status == "Ready" <==> modelLoaded
      ensures status.status == "Needs Training" <==> !modelLoaded
      ensures status.classes == if modelLoaded then ClassNames else []
    {
      ModelStatus(modelLoaded, ModelPath,
                  if modelLoaded then ClassNames else [],
                  if modelLoaded then "Ready" else "Needs Training")
    }
  }
}
