/** `minimal_cnn_train`: every diagnostic case gets an integer label from an
    ordered keyword table, and one synthetic feature row is made per case. */
module MinimalTrain {
  import opened Common
  import opened Text

  const FeatureCount: nat := 100
  const DefaultDiagnosis := "acne"

  /** `condition_mapping`, in its literal (and iteration) order. */
  const ConditionMapping: seq<(string, nat)> := [
    ("acne", 0), ("dermatitis", 1), ("psoriasis", 2), ("eczema", 3),
    ("rosacea", 4), ("melanoma", 5), ("carcinoma", 6), ("seborrheic", 7)
  ]

  /** The labelled training set: one feature row per case and one label per
      case, in case order. */
  datatype TrainingData = TrainingData(featureRows: nat, labels: seq<nat>)

  /** The value of the first entry of `table` whose key occurs in `s`, or 0. */
  function FirstMatch(table: seq<(string, nat)>, s: string): nat
  {
    if table == [] then 0
    else if Contains(s, table[0].0) then table[0].1
    else FirstMatch(table[1..], s)
  }

  /** `case.get('diagnosis', 'acne')` for a field that is not `null`. A
      `null` field also maps to the default here, but the callers never use
      that value: `.lower()` on `None` makes the run fail first. */
  function DiagnosisText(f: Field): string
  {
    if f.Text? then f.value else DefaultDiagnosis
  }

  /** The label the inner loop settles on for a diagnosis. */
  function LabelFor(diagnosis: string): nat
  {
    FirstMatch(ConditionMapping, Lower(diagnosis))
  }

  /** `FirstMatch` is the first match: the result is the value of the
      lowest-indexed matching key, and 0 when no key matches. */
  lemma {:induction false} FirstMatchIsFirst(table: seq<(string, nat)>, s: string)
    ensures (forall i :: 0 <= i < |table| ==> !Contains(s, table[i].0)) ==> FirstMatch(table, s) == 0
    ensures forall i :: 0 <= i < |table| && Contains(s, table[i].0)
                        && (forall j :: 0 <= j < i ==> !Contains(s, table[j].0))
                        ==> FirstMatch(table, s) == table[i].1
  {
    if table != [] {
      FirstMatchIsFirst(table[1..], s);
      forall i | 0 <= i < |table| && Contains(s, table[i].0)
                 && (forall j :: 0 <= j < i ==> !Contains(s, table[j].0))
        ensures FirstMatch(table, s) == table[i].1
      {
        if i > 0 {
          assert table[1..][i - 1] == table[i];
          forall j | 0 <= j < i - 1 ensures !Contains(s, table[1..][j].0) {
            assert table[1..][j] == table[j + 1];
          }
        }
      }
    }
  }

  /** The result is the default 0 or one of the table's values. */
  lemma {:induction false} FirstMatchFromTable(table: seq<(string, nat)>, s: string)
    ensures FirstMatch(table, s) == 0 || exists i :: 0 <= i < |table| && FirstMatch(table, s) == table[i].1
  {
    if table != [] && !Contains(s, table[0].0) {
      FirstMatchFromTable(table[1..], s);
      if FirstMatch(table[1..], s) != 0 {
        var i :| 0 <= i < |table[1..]| && FirstMatch(table[1..], s) == table[1..][i].1;
        assert table[i + 1] == table[1..][i];
      }
    }
  }

  /** Every label lies in 0..7. */
  lemma LabelInRange(diagnosis: string)
    ensures LabelFor(diagnosis) <= 7
  {
    FirstMatchFromTable(ConditionMapping, Lower(diagnosis));
  }

  /** Matching ignores letter case. */
  lemma LabelIgnoresCase(a: string, b: string)
    requires SameIgnoringCase(a, b)
    ensures LabelFor(a) == LabelFor(b)
  {
  }

  /** A diagnosis is labelled by its lowered form. */
  lemma LabelOfLowered(diagnosis: string)
    ensures LabelFor(Lower(diagnosis)) == LabelFor(diagnosis)
  {
    LowerIdempotent(diagnosis);
  }

  /** Walking the table: when the first `n` keys do not occur in `s`, the
      result is decided by the rest of the table. */
  lemma {:induction false} FirstMatchSkips(table: seq<(string, nat)>, s: string, n: nat)
    requires n <= |table|
    requires forall i :: 0 <= i < n ==> !Contains(s, table[i].0)
    ensures FirstMatch(table, s) == FirstMatch(table[n..], s)
  {
    if n > 0 {
      FirstMatchSkips(table[1..], s, n - 1);
      assert table[1..][n - 1..] == table[n..];
    }
  }

  lemma LowerSeborrheicDermatitis()
    ensures Lower("Seborrheic Dermatitis") == "seborrheic dermatitis"
  {
  }

  lemma SeborrheicDermatitisKeys()
    ensures !Contains("seborrheic dermatitis", "acne")
    ensures Contains("seborrheic dermatitis", "dermatitis")
  {
    FirstTwoAbsent("seborrheic dermatitis", "acne");
    assert OccursAt("seborrheic dermatitis", "dermatitis", 11);
  }

  lemma LowerBasalCellCarcinoma()
    ensures Lower("Basal Cell Carcinoma") == "basal cell carcinoma"
  {
  }

  /** None of the first six keys occurs in "basal cell carcinoma". */
  lemma EarlierKeysAbsentFromBasalCellCarcinoma()
    ensures !Contains("basal cell carcinoma", "acne")
    ensures !Contains("basal cell carcinoma", "dermatitis")
    ensures !Contains("basal cell carcinoma", "psoriasis")
    ensures !Contains("basal cell carcinoma", "eczema")
    ensures !Contains("basal cell carcinoma", "rosacea")
    ensures !Contains("basal cell carcinoma", "melanoma")
  {
    var s := "basal cell carcinoma";
    FirstTwoAbsent(s, "acne");
    FirstTwoAbsent(s, "dermatitis");
    FirstTwoAbsent(s, "psoriasis");
    FirstTwoAbsent(s, "eczema");
    FirstTwoAbsent(s, "rosacea");
    FirstTwoAbsent(s, "melanoma");
  }

  lemma CarcinomaInBasalCellCarcinoma()
    ensures Contains("basal cell carcinoma", "carcinoma")
  {
    assert OccursAt("basal cell carcinoma", "carcinoma", 11);
  }

  /** "dermatitis" precedes "seborrheic" in the table, so seborrheic
      dermatitis gets the dermatitis label 1 rather than 7. */
  lemma SeborrheicDermatitisIsLabelledDermatitis()
    ensures LabelFor("Seborrheic Dermatitis") == 1
  {
    LowerSeborrheicDermatitis();
    SeborrheicDermatitisKeys();
    FirstMatchSkips(ConditionMapping, "seborrheic dermatitis", 1);
    assert ConditionMapping[1..][0] == ("dermatitis", 1);
  }

  lemma BasalCellCarcinomaIsLabelled6()
    ensures LabelFor("Basal Cell Carcinoma") == 6
  {
    LowerBasalCellCarcinoma();
    EarlierKeysAbsentFromBasalCellCarcinoma();
    CarcinomaInBasalCellCarcinoma();
    FirstMatchSkips(ConditionMapping, "basal cell carcinoma", 6);
    assert ConditionMapping[6..][0] == ("carcinoma", 6);
  }

  /** A case without a `diagnosis` key is read as "acne" and labelled 0. */
  lemma MissingDiagnosisIsLabelled0()
    ensures LabelFor(DiagnosisText(Absent)) == 0
  {
    assert Lower("acne") == "acne";
    assert OccursAt("acne", "acne", 0);
  }

  /** The inner loop of `minimal_cnn_train`: scan the table in order and stop
      at the first key found in the lowered diagnosis. */
  method FirstMatchingValue(table: seq<(string, nat)>, condition: string) returns (found: nat)
    ensures found == FirstMatch(table, condition)
  {
    found := 0;
    var j := 0;
    while j < |table|
      invariant 0 <= j <= |table|
      invariant found == 0
      invariant FirstMatch(table, condition) == FirstMatch(table[j..], condition)
    {
      var (key, value) := table[j];
      if Contains(condition, key) {
        found := value;
        break;
      }
      assert table[j..][1..] == table[j + 1..];
      j := j + 1;
    }
  }

  /** The label loop of `minimal_cnn_train`, over the mapping `table`. A
      case without a `diagnosis` key is read as "acne"; a `null` diagnosis
      makes `.lower()` raise, which the script's handler turns into failure
      (`None` here). */
  method AssignLabels(cases: seq<Case>, table: seq<(string, nat)>) returns (y: Option<seq<nat>>)
    ensures y.None? <==> exists k :: 0 <= k < |cases| && cases[k].diagnosis.Null?
    ensures y.Some? ==> |y.value| == |cases|
    ensures y.Some? ==> forall k :: 0 <= k < |cases| ==>
      y.value[k] == FirstMatch(table, Lower(DiagnosisText(cases[k].diagnosis)))
  {
    var labels: seq<nat> := [];
    var i := 0;
    while i < |cases|
      invariant 0 <= i <= |cases|
      invariant |labels| == i
      invariant forall k :: 0 <= k < i ==> !cases[k].diagnosis.Null?
      invariant forall k :: 0 <= k < i ==>
        labels[k] == FirstMatch(table, Lower(DiagnosisText(cases[k].diagnosis)))
    {
      var field := cases[i].diagnosis;
      if field.Null? {
        return None;
      }
      var condition := Lower(DiagnosisText(field));
      var found := FirstMatchingValue(table, condition);
      labels := labels + [found];
      i := i + 1;
    }
    return Some(labels);
  }

  /** `minimal_cnn_train` up to the classifier: `None` for `False`.
      `casesFile` is `None` when the file is missing; `frameworkFails` stands
      for an import error or an exception from the classifier library. */
  method MinimalCnnTrain(casesFile: Option<seq<Case>>, frameworkFails: bool) returns (data: Option<TrainingData>)
    ensures data.None? <==>
      casesFile.None? || frameworkFails
      || (exists k :: 0 <= k < |casesFile.value| && casesFile.value[k].diagnosis.Null?)
    ensures data.Some? ==>
      && casesFile.Some? && !frameworkFails
      && data.value.featureRows == |casesFile.value| == |data.value.labels|
      && (forall k :: 0 <= k < |data.value.labels| ==>
            data.value.labels[k] == LabelFor(DiagnosisText(casesFile.value[k].diagnosis)))
      && (forall k :: 0 <= k < |data.value.labels| ==> data.value.labels[k] <= 7)
  {
    if casesFile.None? || frameworkFails {
      return None;
    }
    var cases := casesFile.value;
    var y := AssignLabels(cases, ConditionMapping);
    if y.None? {
      return None;
    }
    forall k | 0 <= k < |y.value| ensures y.value[k] <= 7 {
      LabelInRange(DiagnosisText(cases[k].diagnosis));
    }
    return Some(TrainingData(|cases|, y.value));
  }
}
