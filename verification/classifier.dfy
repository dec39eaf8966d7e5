/** The adapter around the image classifier: one model run is turned into
    the ranked top-k predictions. The model itself, the image decoding in
    front of it and `torch.topk` are outside the model: a run is given as
    its outcome, with the probability vector already ranked. */
module Classifier {
  import opened Wrappers
  import opened Errors
  import Decimal

  /** One entry of the ranked probability vector: a confidence and the
      class index it belongs to. */
  datatype Scored = Scored(score: real, index: nat)

  /** What one call of the model on an image yields. `ranking` holds the
      whole probability vector (its length is the number of classes) in
      the order `torch.topk` returns it. */
  datatype ModelRun =
    | Unreadable                   // the bytes are not an image PIL can open
    | NoProbs                      // the result carries no class probabilities
    | Probs(names: map<int, string>, ranking: seq<Scored>)

  datatype Prediction = Prediction(classId: int, className: string, score: real)

  datatype Inference = Inference(top1: Prediction, topk: seq<Prediction>, names: map<int, string>)

  /** `max(1, min(topk, n))`: the requested depth, clamped to the number of
      classes and never below one. */
  function ClampK(topk: int, n: nat): (k: int)
    ensures k >= 1
    ensures n >= 1 ==> k <= n
    ensures n == 0 ==> k == 1
    ensures topk <= 1 ==> k == 1
    ensures 1 <= topk <= n ==> k == topk
    ensures 1 <= n <= topk ==> k == n
  {
    if topk <= n then (if topk >= 1 then topk else 1) else (if n >= 1 then n else 1)
  }

  /** The label of class `i`: its name in the model, or its decimal index. */
  function ClassName(names: map<int, string>, i: nat): string {
    if i in names then names[i] else Decimal.Show(i)
  }

  function ItemOf(names: map<int, string>, s: Scored): Prediction {
    Prediction(s.index, ClassName(names, s.index), s.score)
  }

  /** A label taken from the model is the model's name for the class; a
      fallback label reads back as the class index. */
  lemma ItemNaming(names: map<int, string>, s: Scored)
    ensures ItemOf(names, s).classId == s.index
    ensures ItemOf(names, s).score == s.score
    ensures s.index in names ==> ItemOf(names, s).className == names[s.index]
    ensures s.index !in names ==>
      && Decimal.AllDigits(ItemOf(names, s).className)
      && Decimal.Parse(ItemOf(names, s).className) == s.index
  {
    if s.index !in names {
      Decimal.ParseShow(s.index);
    }
  }

  /** The predictions for the ranked entries, one per entry, in order. */
  function Items(names: map<int, string>, ranked: seq<Scored>): (items: seq<Prediction>)
    ensures |items| == |ranked|
    ensures forall j :: 0 <= j < |ranked| ==> items[j] == ItemOf(names, ranked[j])
  {
    if |ranked| == 0 then [] else [ItemOf(names, ranked[0])] + Items(names, ranked[1..])
  }

  /** `classify_bytes` after the model call: fail when the run has no
      probabilities, otherwise keep the first `ClampK(topk, n)` ranked
      entries as predictions and name the first of them top-1. */
  function ClassifyRun(run: ModelRun, topk: int): (r: Result<Inference, Failure>)
    ensures run.Unreadable? <==> r == Err(UnreadableImage)
    ensures run.NoProbs? <==> r == Err(NoProbabilities)
    ensures (run.Probs? && |run.ranking| == 0) <==> r == Err(EmptyProbabilities)
    ensures r.Ok? <==> run.Probs? && |run.ranking| >= 1
    ensures r.Ok? ==>
      && var k := ClampK(topk, |run.ranking|);
      && 1 <= k <= |run.ranking|
      && |r.value.topk| == k
      && r.value.top1 == r.value.topk[0]
      && r.value.names == run.names
      && forall j :: 0 <= j < k ==> r.value.topk[j] == ItemOf(run.names, run.ranking[j])
  {
    match run
    case Unreadable => Err(UnreadableImage)
    case NoProbs => Err(NoProbabilities)
    case Probs(names, ranking) =>
      var k := ClampK(topk, |ranking|);
      if k > |ranking| then
        Err(EmptyProbabilities)
      else
        var items := Items(names, ranking[..k]);
        Ok(Inference(items[0], items, names))
  }

  /** A ranking whose confidences never increase. */
  ghost predicate RankedDescending(ranked: seq<Scored>) {
    forall i, j :: 0 <= i < j < |ranked| ==> ranked[i].score >= ranked[j].score
  }

  /** Predictions whose scores never increase. */
  ghost predicate PredictionsDescending(items: seq<Prediction>) {
    forall i, j :: 0 <= i < j < |items| ==> items[i].score >= items[j].score
  }

  /** When the model ranks by descending confidence, so do the top-k
      predictions, and top-1 carries the highest confidence of all. */
  lemma TopKDescending(run: ModelRun, topk: int)
    requires run.Probs? && RankedDescending(run.ranking)
    ensures ClassifyRun(run, topk).Ok? ==>
      && PredictionsDescending(ClassifyRun(run, topk).value.topk)
      && forall j :: 0 <= j < |run.ranking| ==> ClassifyRun(run, topk).value.top1.score >= run.ranking[j].score
  {
  }
}
