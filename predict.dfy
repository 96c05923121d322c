/** Post-processing of the chest X-ray classifier and the assembly of the
    JSON object the script prints.

    The network itself (weight loading, image decoding and normalisation,
    the sigmoid or softmax, Grad-CAM++) is outside the model: its probability
    vector is an input, and so is the outcome of each stage that may raise.
    What is modelled is the decision logic on that vector: the multi-label
    policy (keep every label scoring at least THRESHOLD, then sort the kept
    pairs by score, highest first), the single-label policy (argmax), the
    "No Finding" fallback, the per-label probability list and the
    `{"error": ...}` / exit status 1 path. */
module Predict {
  import opened Common
  import opened Sorting

  /** THRESHOLD: the least score a label needs to be reported by the
      multi-label policy. */
  const Threshold: real := 0.4

  /** USE_COVID_MODEL: selects the single-label COVID policy. */
  const UseCovidModel: bool := true

  const NihLabels: seq<string> := [
    "Atelectasis", "Cardiomegaly", "Effusion", "Infiltration", "Mass",
    "Nodule", "Pneumonia", "Pneumothorax", "Consolidation", "Edema",
    "Emphysema", "Fibrosis", "Pleural_Thickening", "Hernia", "No Finding"
  ]

  const CovidLabels: seq<string> := ["Normal", "COVID", "Lung_Opacity", "Viral_Pneumonia"]

  /** The label set of the active policy. */
  function Labels(useCovid: bool): seq<string> {
    if useCovid then CovidLabels else NihLabels
  }

  /** A (label, score) pair of the multi-label policy. The label's position
      in the label list is kept beside it: the source recovers it from the
      label, and it is what stability is stated against. */
  datatype Prediction = Prediction(index: nat, name: string, score: real)

  function Score(p: Prediction): real { p.score }

  function Rank(p: Prediction): int { p.index }

  /** The list comprehension of predict_nih, from label index i on. */
  function KeptFrom(labels: seq<string>, probs: seq<real>, i: nat): (kept: seq<Prediction>)
    requires |probs| == |labels| && i <= |probs|
    ensures forall m :: 0 <= m < |kept| ==>
      i <= kept[m].index < |probs| && kept[m].name == labels[kept[m].index] &&
      kept[m].score == probs[kept[m].index] && kept[m].score >= Threshold
    ensures forall j :: i <= j < |probs| && probs[j] >= Threshold ==> Prediction(j, labels[j], probs[j]) in kept
    ensures forall m, n :: 0 <= m < n < |kept| ==> kept[m].index < kept[n].index
    decreases |probs| - i
  {
    if i == |probs| then []
    else (if probs[i] >= Threshold then [Prediction(i, labels[i], probs[i])] else []) + KeptFrom(labels, probs, i + 1)
  }

  /** The pairs the multi-label policy keeps, in label order: a label is kept
      exactly when its own score reaches the threshold, and it is paired with
      that score. */
  function Kept(labels: seq<string>, probs: seq<real>): (kept: seq<Prediction>)
    requires |probs| == |labels|
    ensures forall p :: p in kept <==>
      p.index < |probs| && p.name == labels[p.index] && p.score == probs[p.index] && p.score >= Threshold
    ensures kept == [] <==> forall i :: 0 <= i < |probs| ==> probs[i] < Threshold
    ensures RankIncreasing(kept, Rank)
  {
    var kept := KeptFrom(labels, probs, 0);
    assert kept != [] ==> kept[0].score >= Threshold && kept[0].score == probs[kept[0].index];
    kept
  }

  /** np.argmax: the first index holding the largest probability. */
  function Argmax(probs: seq<real>): (k: nat)
    requires |probs| > 0
    ensures k < |probs|
    ensures forall j :: 0 <= j < |probs| ==> probs[j] <= probs[k]
    ensures forall j :: 0 <= j < k ==> probs[j] < probs[k]
  {
    if |probs| == 1 then 0
    else
      var k := Argmax(probs[..|probs| - 1]);
      if probs[|probs| - 1] > probs[k] then |probs| - 1 else k
  }

  datatype CovidPrediction = CovidPrediction(name: string, confidence: real, classIndex: nat)

  /** predict_covid: the label and probability at the argmax. */
  function PredictCovid(probs: seq<real>): (r: CovidPrediction)
    requires |probs| == |CovidLabels|
    ensures r.classIndex < |CovidLabels|
    ensures r.name == CovidLabels[r.classIndex] && r.confidence == probs[r.classIndex]
    ensures forall j :: 0 <= j < |probs| ==> probs[j] <= r.confidence
    ensures forall j :: 0 <= j < r.classIndex ==> probs[j] < r.confidence
  {
    var k := Argmax(probs);
    CovidPrediction(CovidLabels[k], probs[k], k)
  }

  /** predict_nih: filter by the threshold, then sort the kept list in place
      by score, highest first, keeping label order among equal scores. */
  method PredictNih(probs: seq<real>) returns (predictions: seq<Prediction>)
    requires |probs| == |NihLabels|
    ensures predictions == SortDesc(Kept(NihLabels, probs), Score)
    ensures forall p :: p in predictions <==>
      p.index < |probs| && p.name == NihLabels[p.index] && p.score == probs[p.index] && p.score >= Threshold
    ensures SortedDesc(predictions, Score)
    ensures TiesInOrder(predictions, Score, Rank)
  {
    var kept := Kept(NihLabels, probs);
    var a := new Prediction[|kept|](k requires 0 <= k < |kept| => kept[k]);
    assert a[..] == kept;
    SortInPlace(a, Score);
    predictions := a[..];
    SortDescSorted(kept, Score);
    SortDescPermutes(kept, Score);
    SortDescStable(kept, Score, Rank);
    assert forall p :: p in predictions <==> p in multiset(kept);
  }

  /** The first maximal index is unique, so anything with Argmax's
      properties is Argmax. */
  lemma ArgmaxUnique(probs: seq<real>, i: nat)
    requires i < |probs|
    requires forall j :: 0 <= j < |probs| ==> probs[j] <= probs[i]
    requires forall j :: 0 <= j < i ==> probs[j] < probs[i]
    ensures Argmax(probs) == i
  {
  }

  /** The first of the sorted kept pairs is the label at the argmax of the
      whole vector: no kept pair scores higher, and among equal scores the
      lowest label index comes first. */
  lemma NihTopIsArgmax(labels: seq<string>, probs: seq<real>)
    requires |probs| == |labels| && Kept(labels, probs) != []
    ensures var sorted := SortDesc(Kept(labels, probs), Score);
      var k := Argmax(probs);
      |sorted| > 0 && sorted[0] == Prediction(k, labels[k], probs[k])
  {
    var kept := Kept(labels, probs);
    var sorted := SortDesc(kept, Score);
    SortDescSorted(kept, Score);
    SortDescPermutes(kept, Score);
    SortDescStable(kept, Score, Rank);
    var top := sorted[0];
    assert top in multiset(sorted);
    assert top in kept;
    var i := top.index;
    forall j | 0 <= j < |probs|
      ensures probs[j] <= probs[i] && (j < i ==> probs[j] < probs[i])
    {
      if probs[j] >= Threshold {
        var p := Prediction(j, labels[j], probs[j]);
        assert p in multiset(kept);
        assert p in multiset(sorted);
        HeadDominates(sorted, Score, Rank, p);
      }
    }
    ArgmaxUnique(probs, i);
  }

  /** One {"label": ..., "value": ...} entry of "probabilities". */
  datatype ProbabilityEntry = ProbabilityEntry(name: string, value: real)

  /** The JSON object printed on standard output. The field `name` is the
      JSON key "label"; `heatmap` is None when the key is absent. */
  datatype Printed =
    | Result(name: string, confidence: real, probabilities: seq<ProbabilityEntry>, heatmap: Option<string>)
    | Error(error: string)

  /** What one run of the script leaves behind: the printed object and the
      process exit status. */
  datatype Outcome = Outcome(printed: Printed, status: int)

  /** The outcome of a stage that may raise an exception. */
  datatype Stage<T> = Raised(message: string) | Returned(value: T)

  /** The "probabilities" list: one entry per label, in label order. */
  function ProbabilityList(labels: seq<string>, probs: seq<real>): seq<ProbabilityEntry>
    requires |probs| == |labels|
  {
    seq(|probs|, i requires 0 <= i < |probs| => ProbabilityEntry(labels[i], probs[i]))
  }

  /** The COVID branch of the `__main__` block, once inference returned:
      the argmax label, its probability, the probability list and the
      Grad-CAM++ overlay for that class (or the error it raised). */
  method CovidOutcome(probs: seq<real>, gradcam: nat -> Stage<string>) returns (out: Outcome)
    requires |probs| == |CovidLabels|
    ensures var k := Argmax(probs);
      match gradcam(k)
      case Raised(m) => out == Outcome(Error(m), 1)
      case Returned(path) =>
        out == Outcome(Result(CovidLabels[k], probs[k], ProbabilityList(CovidLabels, probs), Some(path)), 0)
  {
    var prediction := PredictCovid(probs);
    var classIndex := Argmax(probs);
    match gradcam(classIndex)
    case Raised(m) =>
      out := Outcome(Error(m), 1);
    case Returned(path) =>
      out := Outcome(Result(prediction.name, prediction.confidence, ProbabilityList(CovidLabels, probs), Some(path)), 0);
  }

  /** The multi-label branch of the `__main__` block: the top sorted pair,
      or "No Finding" with confidence 0.0 when nothing reaches the
      threshold. The top pair is the argmax of the whole vector. */
  method NihOutcome(probs: seq<real>) returns (out: Outcome)
    requires |probs| == |NihLabels|
    ensures out.status == 0 && out.printed.Result? && out.printed.heatmap == None
    ensures out.printed.probabilities == ProbabilityList(NihLabels, probs)
    ensures (forall i :: 0 <= i < |probs| ==> probs[i] < Threshold) ==>
      out.printed.name == "No Finding" && out.printed.confidence == 0.0
    ensures (exists i :: 0 <= i < |probs| && probs[i] >= Threshold) ==>
      var k := Argmax(probs);
      out.printed.name == NihLabels[k] && out.printed.confidence == probs[k] && probs[k] >= Threshold
  {
    var predictions := PredictNih(probs);
    var name, confidence;
    if predictions != [] {
      name, confidence := predictions[0].name, predictions[0].score;
      NihTopIsArgmax(NihLabels, probs);
    } else {
      name, confidence := "No Finding", 0.0;
    }
    out := Outcome(Result(name, confidence, ProbabilityList(NihLabels, probs), None), 0);
  }

  /** The `__main__` block. `imageExists` is the existence test on the fixed
      image path; `inference` stands for loading the model and evaluating it
      on the image (raising, or returning one probability per label of the
      active set, as the classifier head is built with that many outputs);
      `gradcam(c)` stands for the Grad-CAM++ overlay for class index c. */
  method RunScript(imagePath: string, imageExists: bool, useCovid: bool,
                   inference: Stage<seq<real>>, gradcam: nat -> Stage<string>)
    returns (out: Outcome)
    requires inference.Returned? ==> |inference.value| == |Labels(useCovid)|
    ensures out.status == (if out.printed.Error? then 1 else 0)
    ensures !imageExists ==> out == Outcome(Error("Image not found: " + imagePath), 1)
    ensures imageExists && inference.Raised? ==> out == Outcome(Error(inference.message), 1)
    ensures out.printed.Result? ==>
      imageExists && inference.Returned? &&
      out.printed.probabilities == ProbabilityList(Labels(useCovid), inference.value) &&
      (out.printed.heatmap.Some? <==> useCovid)
    ensures imageExists && useCovid && inference.Returned? ==>
      var k := Argmax(inference.value);
      match gradcam(k)
      case Raised(m) => out == Outcome(Error(m), 1)
      case Returned(path) =>
        out.printed.Result? && out.printed.name == CovidLabels[k] &&
        out.printed.confidence == inference.value[k] && out.printed.heatmap == Some(path)
    ensures imageExists && !useCovid && inference.Returned? ==>
      var probs := inference.value;
      out.printed.Result? &&
      if forall i :: 0 <= i < |probs| ==> probs[i] < Threshold then
        out.printed.name == "No Finding" && out.printed.confidence == 0.0
      else
        var k := Argmax(probs);
        out.printed.name == NihLabels[k] && out.printed.confidence == probs[k] && probs[k] >= Threshold
  {
    if !imageExists {
      return Outcome(Error("Image not found: " + imagePath), 1);
    }
    match inference
    case Raised(m) =>
      out := Outcome(Error(m), 1);
    case Returned(probs) =>
      if useCovid {
        out := CovidOutcome(probs, gradcam);
      } else {
        out := NihOutcome(probs);
      }
  }
}
