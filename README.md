# LUME dermatology classifier bookkeeping, in Dafny

This project models the deterministic layer around the skin-condition
classifier of the LUME dermatology platform (`server/ml/`). The neural
network, the image decoding and the training frameworks are outside the model.
Their outcomes (a score vector, whether an image can be read, whether a file
exists, whether the framework raised) enter as parameters. What is modelled:

- **`DermatologyCNN`** (`dermatology_cnn.py`), as the class `DermatologyCnn.DermatologyCNN`:
  - `predict` walks the first three ranks of the descending score order.
    It always keeps the top rank, and keeps the others only when they reach
    the confidence threshold.
  - It tags the first result primary and the rest secondary, and gives each
    result the severity band of its confidence.
  - `prepare_dataset` skips cases whose image or diagnosis is missing, or
    whose image file is not found or cannot be read.
  - `train_model` refuses an empty training set, and fails when the kept
    cases carry more distinct diagnoses than the eight classes. `load_model` and
    `get_model_info` track whether a model is present.
  - The network's output arrives as an `Inference`: the scores together with
    their `argsort` order, or an exception.
- **`MLAnalysisService`** (`ml_integration.py`), as the class `MlIntegration.MLAnalysisService`:
  - Loading the model sets the `model_loaded` flag.
  - The analysis decorates each prediction with the fixed treatment and
    cause lists, each with its default.
  - It returns the three fallback answers: model not loaded, nothing
    predicted, or `predict` raised.
  - It reports the model status.
- **The training scripts**, reduced to what they decide before and around the
  framework calls:
  - `lightweight_train.py` cuts the cases into batches of 100, uses at most
    50 samples per batch, takes a checkpoint after every even batch and
    records the counts.
  - `batch_train.py` splits the cases at 400.
  - `minimal_train.py` labels each case with the first keyword of an
    ordered table found in the lowered diagnosis.
  - `quick_train.py` counts image files by extension, case-insensitively,
    and trains only when the count is non-zero.

Every method with a loop is proved against its `ensures`. Four of them are
proved against a specification function:

- `Predict` against `PredictSpec` and `Select`.
- `PrepareDataset` against `Prepared`.
- `CountImageFiles` against `ImageCount` of the flattened directory walk.
- `FirstMatchingValue` against `FirstMatch`.

The lemmas then state what the source promises about those functions.
`AssignLabels` uses `FirstMatch` as well. The others state their results
directly:

- `SplitIntoBatches`: the batches concatenate back to the cases, with their sizes.
- `TrainBatches`: the samples per batch and the checkpoints.
- `DecorateResults`: `Decorate` applied to each prediction.

`common.dfy` holds the pieces shared by the modules:

- The JSON case record: a field is absent, `null`, or a string.
- `Option`, and the flattening of a sequence of sequences.
- ASCII stand-ins for `str.lower`, `in` on strings and `str.endswith`.

## Model

| member | source | states |
|---|---|---|
| DermatologyCnn.DetermineSeverity | server/ml/dermatology_cnn.py:320-329 | the band is High iff confidence ≥ 0.9, Moderate iff 0.7 ≤ confidence < 0.9, Mild iff confidence < 0.7 |
| DermatologyCnn.SeverityMonotone | server/ml/dermatology_cnn.py:324-329 | a higher confidence never gets a lower band |
| DermatologyCnn.ClassNamesDistinct | server/ml/dermatology_cnn.py:37-46 | there are eight class names and no two are equal |
| DermatologyCnn.SelectUpToIsPrefix | server/ml/dermatology_cnn.py:302-316 | after examining `i` ranks, at most `i` results are kept (at least one when `i > 0`); every kept rank after the first reaches the threshold; the first rank not kept is below it, so the kept ranks form a prefix of the ranking |
| DermatologyCnn.SelectUpToEntries | server/ml/dermatology_cnn.py:304-316 | the `j`-th result is the entry for rank `j`: class `class_names[order[j]]`, its score, its band, primary only for `j = 0` |
| DermatologyCnn.SelectProperties | server/ml/dermatology_cnn.py:283-318 | for any well-formed scores the list is empty only for a zero-width output and holds at most min(3, n) results; the top class always comes first whatever the threshold; confidences are the ranked scores and never increase along the list; exactly the first result is primary; every secondary reaches the threshold; an examined rank that was left out is below the threshold; each severity is the band of its confidence; each condition is a class name and none repeats |
| DermatologyCnn.SecondariesAtLeastModerate | server/ml/dermatology_cnn.py:309-329 | with the default threshold 0.7 every secondary result is Moderate or High |
| DermatologyCnn.Prepared | server/ml/dermatology_cnn.py:156-178 | every case kept for training has a non-empty image name and diagnosis, and an image that is present and readable |
| DermatologyCnn.PreparedAppend | server/ml/dermatology_cnn.py:156-178 | the filter acts case by case: filtering a concatenation concatenates the filtered parts, so case order is kept |
| DermatologyCnn.PreparedMembers | server/ml/dermatology_cnn.py:156-178 | the training set is no longer than the case list, and a case is in it iff it is in the file and usable |
| DermatologyCnn.ClassNameDiagnosesEncode | server/ml/dermatology_cnn.py:32-46 | when every kept diagnosis is one of the eight class names, the labels always fit the eight one-hot columns |
| DermatologyCnn.DermatologyCNN.constructor | server/ml/dermatology_cnn.py:32-46 | a new classifier holds no model |
| DermatologyCnn.DermatologyCNN.Predict | server/ml/dermatology_cnn.py:283-318 | the outcome is exactly `PredictSpec`: raises when no model is loaded, returns None for an unreadable image before any scoring, propagates a framework exception, and otherwise returns `Select` of the scores |
| DermatologyCnn.DermatologyCNN.PrepareDataset | server/ml/dermatology_cnn.py:144-178 | the image and label lists have the length of `Prepared` and hold, in lockstep, the image name and diagnosis of each kept case in file order |
| DermatologyCnn.DermatologyCNN.TrainModel | server/ml/dermatology_cnn.py:184-281 | a missing cases file, more distinct diagnoses among the kept cases than the eight classes (label encoding raises), an empty training set and a failing split each fail and leave the model as it was; otherwise a model is present afterwards iff there was one or `build_model` does not raise, and the outcome is the build error (only when a model had to be built), else the fitting error, else success reporting the size of the prepared training set |
| DermatologyCnn.DermatologyCNN.LoadModel | server/ml/dermatology_cnn.py:331-350 | succeeds iff the file exists, the network loads and the label encoder (when present) loads; the new model is installed iff the network loaded, even when the encoder then fails, and otherwise the previous state is kept |
| DermatologyCnn.DermatologyCNN.GetModelInfo | server/ml/dermatology_cnn.py:352-366 | answers "not loaded" iff there is no model; otherwise lists the eight class names |
| MlIntegration.TreatmentRecommendations | server/ml/ml_integration.py:98-153 | a known condition gets its fixed four-item list; any other string gets the single default entry |
| MlIntegration.ConditionCauses | server/ml/ml_integration.py:155-210 | a known condition gets its fixed four-item list; any other string gets the single default entry |
| MlIntegration.TablesCoverClassNames | server/ml/ml_integration.py:98-210 | a name is a key of the treatment table iff it is a class name, and likewise for the cause table |
| MlIntegration.KnownConditionsGetSpecificAdvice | server/ml/ml_integration.py:98-210 | a class name never gets a default list: both lookups give four items |
| MlIntegration.DecorateKnownCondition | server/ml/ml_integration.py:74-81 | decorating a prediction keeps it unchanged and, for a class name, adds the specific lists |
| MlIntegration.DecoratedPredictionsUseTables | server/ml/ml_integration.py:69-83 | a non-empty ranking decorates every prediction, in order and unchanged, and no entry gets a default list |
| MlIntegration.MLAnalysisService.constructor | server/ml/ml_integration.py:20-23 | the service starts with a fresh classifier; it is marked loaded iff the model file exists and `load_model` does not raise, and the classifier holds a model iff the file exists and the network loaded |
| MlIntegration.MLAnalysisService.LoadModelIfAvailable | server/ml/ml_integration.py:25-38 | with the file present the flag becomes true iff `load_model` does not raise, and the classifier holds a model iff the network loaded or it already had one; without the file nothing changes; the flag never claims a model the classifier lacks |
| MlIntegration.MLAnalysisService.DecorateResults | server/ml/ml_integration.py:74-81 | the loop keeps the list length and decorates each entry in place of the original |
| MlIntegration.MLAnalysisService.AnalyzeImage | server/ml/ml_integration.py:59-96 | not loaded gives the error record with accuracy "N/A" and no prediction; otherwise the classifier holds a model and the answer is `AnalysisOf` its prediction outcome: one "Analysis Error" entry at 0.0 for an exception, one "Analysis Failed" entry at 0.0 for None or an empty list, else the decorated list; a list answer is never empty |
| MlIntegration.MLAnalysisService.GetModelStatus | server/ml/ml_integration.py:212-223 | reports "Ready" with the eight class names iff loaded, and "Needs Training" with no classes otherwise |
| LightweightTrain.SplitIntoBatches | server/ml/lightweight_train.py:35-40 | the batches concatenate back to the case list; there are ceil(n/100) of them; each holds 1 to 100 cases and all but the last exactly 100 |
| LightweightTrain.TrainBatches | server/ml/lightweight_train.py:89-115 | batch `k` trains on min(50, its length) samples; the checkpoints are taken after batches 2, 4, 6, …, floor(batches/2) of them |
| LightweightTrain.CheckpointsAreEvenBatches | server/ml/lightweight_train.py:110-115 | a checkpoint number occurs iff it is an even batch number between 1 and the batch count |
| LightweightTrain.SamplesBounded | server/ml/lightweight_train.py:93 | no batch trains on more than 50 samples, and a full batch on exactly 50 |
| LightweightTrain.EightHundredOneCasesMakeNineBatches | server/ml/lightweight_train.py:19-40 | for 801 cases, every batching with the properties `SplitIntoBatches` promises has 9 batches, not the 8 the comments plan: eight of 100 cases and a last one of a single case |
| LightweightTrain.LightweightCnnTrain | server/ml/lightweight_train.py:15-161 | fails iff the cases file is missing or the framework fails; on success records the batch count ceil(n/100) and the case count n; every batch but the last trains on 50 samples and the last on min(50, n − 100·(batches − 1)); the checkpoints are 2, 4, …, in order, floor(batches/2) of them |
| BatchTrain.SplitCases | server/ml/batch_train.py:36-38 | the two batches concatenate to the case list, with lengths min(400, n) and max(0, n − 400) |
| BatchTrain.BatchCnnTrain | server/ml/batch_train.py:15-170 | fails iff the cases file is missing or the framework fails; on success the recorded counts are min(400, n) and max(0, n − 400), which add up to the number of cases |
| Text.LowerIdempotent | server/ml/minimal_train.py:60 | lowering keeps the length, leaves no upper-case ASCII letter, and lowering twice is lowering once |
| MinimalTrain.FirstMatchIsFirst | server/ml/minimal_train.py:60-65 | the label is the value of the lowest-indexed key found in the diagnosis, and 0 when no key is found |
| MinimalTrain.FirstMatchFromTable | server/ml/minimal_train.py:61-65 | the label is the default 0 or one of the table's values |
| MinimalTrain.LabelInRange | server/ml/minimal_train.py:52-65 | every label lies in 0..7 |
| MinimalTrain.LabelIgnoresCase | server/ml/minimal_train.py:60 | diagnoses that differ only in letter case get the same label |
| MinimalTrain.LabelOfLowered | server/ml/minimal_train.py:60 | a diagnosis and its lowered form get the same label |
| MinimalTrain.FirstMatchSkips | server/ml/minimal_train.py:62-65 | keys that do not occur can be skipped: the first match is decided by the rest of the table |
| MinimalTrain.SeborrheicDermatitisIsLabelledDermatitis | server/ml/minimal_train.py:52-65 | "Seborrheic Dermatitis" is labelled 1 ("dermatitis"), not 7 ("seborrheic"), because "dermatitis" comes first in the table |
| MinimalTrain.BasalCellCarcinomaIsLabelled6 | server/ml/minimal_train.py:52-65 | "Basal Cell Carcinoma" is labelled 6 |
| MinimalTrain.MissingDiagnosisIsLabelled0 | server/ml/minimal_train.py:60-65 | a case without a diagnosis is read as "acne" and labelled 0 |
| MinimalTrain.FirstMatchingValue | server/ml/minimal_train.py:61-65 | the inner loop with its `break` yields exactly the first-match label |
| MinimalTrain.AssignLabels | server/ml/minimal_train.py:57-66 | one label per case, in case order, each the first match of the lowered diagnosis (default "acne"); a null diagnosis makes the run fail, and only that does |
| MinimalTrain.MinimalCnnTrain | server/ml/minimal_train.py:15-134 | fails iff the cases file is missing, the framework fails or some diagnosis is `null`; on success there are as many feature rows as labels as cases, each label the case's first-match label and in 0..7 |
| QuickTrain.ImageCountAppend | server/ml/quick_train.py:30-34 | the count over two name lists is the sum of the counts |
| QuickTrain.ImageCountZero | server/ml/quick_train.py:30-43 | the count is at most the number of names, and is zero iff no name is an image file |
| QuickTrain.UpperCaseExtensionCounts | server/ml/quick_train.py:33 | "A.JPG" and "scan.Jpeg" count as images |
| QuickTrain.OtherNamesDoNotCount | server/ml/quick_train.py:33 | "photojpg" and "scan.gif" do not count |
| QuickTrain.CountImageFiles | server/ml/quick_train.py:29-34 | the nested loops count exactly the names in the walk whose lowered form ends in ".jpg", ".jpeg" or ".png" |
| QuickTrain.CheckTrainingData | server/ml/quick_train.py:12-43 | passes iff the cases file exists and at least one image is found; a missing file fails before any image is counted |
| QuickTrain.StartOptimizedTraining | server/ml/quick_train.py:45-102 | succeeds iff the framework imports, the cases file exists, the fresh classifier's training set is non-empty with at most eight distinct diagnoses, and none of the split, the model construction and the fitting fails |
| QuickTrain.TrainWhenDataReady | server/ml/quick_train.py:104-122 | training is only attempted when the data check passes; the result is true iff the check passes and training succeeds |

## Left out

- Keras, TensorFlow and scikit-learn are not modelled: network construction, `compile`/`fit`/`evaluate`/`predict`/`save`/`load_model`, callbacks, the classifier, `train_test_split` and `LabelEncoder`. Their results enter as parameters: a score vector with its order, a "fails" flag, a "load succeeds" flag.
- `preprocess_image` is not modelled: OpenCV decoding, colour conversion, resizing and float normalisation. Whether an image can be read is a set of readable names.
- The random feature and label arrays of the training scripts are not modelled. Only their sizes are kept, as sample counts and feature rows.
- File-system access is abstract: JSON and pickle reading and writing, `os.path.exists`, `os.walk`, `os.makedirs` and the `model_info.json` dumps. A missing cases file is `None`, and a directory walk is a sequence of name lists.
- A cases file that is present but not valid JSON is not modelled. `lightweight_train.py`, `batch_train.py` and `minimal_train.py` catch the error and return False. `check_training_data` in `quick_train.py` and `load_diagnostic_cases` in `dermatology_cnn.py` let it raise.
- Checkpoint file names are modelled by their batch numbers.
- The framework steps after the modelled bookkeeping are not modelled, including the final model test and the model-info fields other than the counts.
- Logging, printed banners, the `{:.1%}` description text of a decorated result, and the command-line dispatch at the end of `ml_integration.py` and `dermatology_cnn.py` are not modelled.
- `MLAnalysisService.train_cnn_model` is not modelled: it only runs the training script's `main` and reloads.
- The module-level `ml_service` instance is not modelled, since it only constructs the service.
- DermatologyCnn.Predict: confidences are exact reals rather than 32-bit floats, so rounding at the 0.7 and 0.9 boundaries is not modelled.
- DermatologyCnn.Predict: the order of equal scores under `argsort` is left open. `order` is any descending ranking, and no claim is made about which of two tied classes comes first.
- DermatologyCnn.WellFormed: it requires at most eight scores. With a wider output, `predict` raises `IndexError` when a kept rank has an index of 8 or more. A kept rank is the top one, or the second or third when its score reaches the threshold. That case is not modelled.
- DermatologyCnn.DermatologyCNN.TrainModel: the label codes, the one-hot vectors, the stratified split and the fitting are not modelled. Only whether encoding raises is modelled: it raises when the kept cases carry more distinct diagnoses than classes. Whether the split raises (it does for a class with a single image), whether `build_model` raises (loading the pretrained weights or compiling), and whether fitting, evaluating or saving raises are inputs. The framework's exception texts are replaced by fixed messages.
- DermatologyCnn.DermatologyCNN.LoadModel: the contents of `label_encoder.pkl` are not modelled, only whether reading it raises.
- DermatologyCnn.Prepared: a diagnosis or image that is present but not a JSON string is not modelled. `Field` only distinguishes absent, `null` and a string.
- MlIntegration.MLAnalysisService.DecorateResults: Python updates the result dictionaries in place. The model builds a new list of decorated entries that hold the original predictions, so aliasing of those dictionaries is not captured.
- Text.Lower: only ASCII letters are lowered. Python's `str.lower` also folds other Unicode letters.
- MinimalTrain.MinimalCnnTrain: the hard-coded class list in its `model_info` is not modelled. In it, index 1 is "Atopic Dermatitis", which is the class a "Seborrheic Dermatitis" diagnosis ends up with.
