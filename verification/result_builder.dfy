/** `build_result_message`: the outbound record for one classified image,
    and its JSON object form. */
module ResultBuilder {
  import opened Wrappers
  import opened Errors
  import opened Payload
  import opened WeightEstimator
  import opened Classifier

  const TopClassKey := "top1_class"
  const WeightKey := "estimated_weight_g"
  const ImageIdKey := "image_id"

  /** The outbound result. A field is `None` exactly when its key is absent
      from the JSON object. */
  datatype OutboundMsg = OutboundMsg(top1Class: string, estimatedWeightG: Option<int>, imageId: Option<Json>)

  /** The request's "image_id", when the request has that key. */
  function ImageIdOf(request: map<string, Json>): Option<Json> {
    if ImageIdKey in request then Some(request[ImageIdKey]) else None
  }

  /** Builds the result for `request` from the inference: the top-1 class,
      its estimated weight drawn with entropy `u`, and the request's image
      id when it has one. The weight is read with a direct table index, so a
      class outside the table fails the whole build; the later check that
      the weight is present always passes. */
  function BuildResultMessage(request: map<string, Json>, infer: Inference, u: nat): (r: Result<OutboundMsg, Failure>)
    ensures r.Err? <==> infer.top1.className !in FoodAvgWeightG
    ensures r.Err? ==> r.error == UnknownClass(infer.top1.className)
    ensures r.Ok? ==> r.value.top1Class == infer.top1.className
    ensures r.Ok? ==> r.value.estimatedWeightG.Some?
    ensures r.Ok? ==>
      var b := FoodAvgWeightG[infer.top1.className];
      b <= r.value.estimatedWeightG.value <= b + MaxJitter(b)
    ensures r.Ok? ==> r.value.estimatedWeightG.value >= MinAvgWeightG
    ensures r.Ok? ==> (r.value.imageId.Some? <==> ImageIdKey in request)
    ensures r.Ok? && ImageIdKey in request ==> r.value.imageId.value == request[ImageIdKey]
  {
    var cls := infer.top1.className;
    var w :- Estimate(cls, u);
    Ok(OutboundMsg(cls, Some(w), ImageIdOf(request)))
  }

  /** With the draw fixed to `r`, a known class gets exactly the weight
      `b + r`: the build is a function of the request, the inference and the
      draw. */
  lemma BuildWithDraw(request: map<string, Json>, infer: Inference, r: nat)
    requires infer.top1.className in FoodAvgWeightG
    requires r <= MaxJitter(FoodAvgWeightG[infer.top1.className])
    ensures BuildResultMessage(request, infer, r)
      == Ok(OutboundMsg(infer.top1.className, Some(FoodAvgWeightG[infer.top1.className] + r), ImageIdOf(request)))
  {
    EstimateWithDraw(infer.top1.className, r);
  }

  /** The JSON object the result is serialized as. */
  function ToFields(m: OutboundMsg): (fields: map<string, Json>)
    ensures fields.Keys <= {TopClassKey, WeightKey, ImageIdKey}
    ensures TopClassKey in fields && fields[TopClassKey] == JStr(m.top1Class)
    ensures WeightKey in fields <==> m.estimatedWeightG.Some?
    ensures ImageIdKey in fields <==> m.imageId.Some?
  {
    var base := map[TopClassKey := JStr(m.top1Class)];
    var withWeight := if m.estimatedWeightG.Some? then base[WeightKey := JInt(m.estimatedWeightG.value)] else base;
    if m.imageId.Some? then withWeight[ImageIdKey := m.imageId.value] else withWeight
  }

  /** Reads a result back from its JSON object; `None` when the object is
      not of the outbound shape. */
  function FromFields(fields: map<string, Json>): Option<OutboundMsg> {
    if TopClassKey !in fields || !fields[TopClassKey].JStr? then None
    else if WeightKey in fields && !fields[WeightKey].JInt? then None
    else
      var weight := if WeightKey in fields then Some(fields[WeightKey].i) else None;
      Some(OutboundMsg(fields[TopClassKey].s, weight, if ImageIdKey in fields then Some(fields[ImageIdKey]) else None))
  }

  /** Serializing a result and reading it back yields the same fields and
      values. */
  lemma FieldsRoundTrip(m: OutboundMsg)
    ensures FromFields(ToFields(m)) == Some(m)
  {
  }

  /** A built result has the keys "top1_class" and "estimated_weight_g",
      and "image_id" exactly when the request has it, with the request's
      value unchanged; no other key. */
  lemma BuildKeys(request: map<string, Json>, infer: Inference, u: nat)
    requires BuildResultMessage(request, infer, u).Ok?
    ensures var fields := ToFields(BuildResultMessage(request, infer, u).value);
      && fields.Keys == {TopClassKey, WeightKey} + (if ImageIdKey in request then {ImageIdKey} else {})
      && fields[TopClassKey] == JStr(infer.top1.className)
      && (ImageIdKey in request ==> fields[ImageIdKey] == request[ImageIdKey])
  {
  }
}
