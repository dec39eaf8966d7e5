/** The processing of one inbound message: base64 decoding, classification
    and result construction, each stage able to fail. */
module Pipeline {
  import opened Wrappers
  import opened Errors
  import opened Payload
  import opened WeightEstimator
  import opened Classifier
  import opened ResultBuilder

  /** The collaborators the worker calls but that are not modelled: the
      base64 codec, the model (bytes and image size to a run) and the local
      file system of offline mode. */
  datatype Env = Env(
    b64decode: string -> Option<Bytes>,
    b64encode: Bytes -> string,
    model: (Bytes, int) -> ModelRun,
    readFile: string -> Option<Bytes>)

  /** The classification settings taken from the command line. */
  datatype Settings = Settings(imgsz: int, topk: int)

  /** An inbound message's deserialized value, with the entropy the random
      draw for its weight consumes. */
  datatype Delivery = Delivery(value: Json, draw: nat)

  /** `payload["image_b64"]` followed by `base64.b64decode`. */
  function ImageBytes(env: Env, payload: Json): (r: Result<Bytes, Failure>)
    ensures !payload.JObj? ==> r == Err(NotAnObject)
    ensures payload.JObj? && "image_b64" !in payload.fields ==> r == Err(MissingImageB64)
    ensures r.Ok? <==>
      && payload.JObj? && "image_b64" in payload.fields
      && payload.fields["image_b64"].JStr?
      && env.b64decode(payload.fields["image_b64"].s).Some?
    ensures r.Ok? ==> r.value == env.b64decode(payload.fields["image_b64"].s).value
    ensures r.Err? && payload.JObj? && "image_b64" in payload.fields ==> r == Err(BadBase64)
  {
    if !payload.JObj? then Err(NotAnObject)
    else if "image_b64" !in payload.fields then Err(MissingImageB64)
    else
      var b64 := payload.fields["image_b64"];
      if !b64.JStr? then Err(BadBase64)
      else
        match env.b64decode(b64.s)
        case None => Err(BadBase64)
        case Some(bytes) => Ok(bytes)
  }

  /** A run that ranks at least one class. */
  predicate Ranked(run: ModelRun) {
    run.Probs? && |run.ranking| >= 1
  }

  /** The label of the best-ranked class of a run. */
  function TopLabel(run: ModelRun): string
    requires Ranked(run)
  {
    ClassName(run.names, run.ranking[0].index)
  }

  /** `classify_bytes` on the image followed by `build_result_message`; the
      part of the work shared by both operating modes. It succeeds exactly
      when the run ranks some class and the best-ranked label is in the
      table; a classification failure is the outcome; an unknown label
      fails with `UnknownClass`. */
  function ClassifyAndBuild(env: Env, settings: Settings, request: map<string, Json>, image: Bytes, draw: nat)
    : (r: Result<OutboundMsg, Failure>)
    ensures var run := env.model(image, settings.imgsz);
      r.Ok? <==> Ranked(run) && TopLabel(run) in FoodAvgWeightG
    ensures var run := env.model(image, settings.imgsz);
      ClassifyRun(run, settings.topk).Err? ==> r == Err(ClassifyRun(run, settings.topk).error)
    ensures var run := env.model(image, settings.imgsz);
      Ranked(run) && TopLabel(run) !in FoodAvgWeightG ==> r == Err(UnknownClass(TopLabel(run)))
    ensures var run := env.model(image, settings.imgsz);
      r.Ok? ==>
        && r.value.top1Class == TopLabel(run)
        && r.value.imageId == ImageIdOf(request)
        && r.value.estimatedWeightG.Some?
        && var b := FoodAvgWeightG[TopLabel(run)];
           b <= r.value.estimatedWeightG.value <= b + MaxJitter(b)
  {
    var infer :- ClassifyRun(env.model(image, settings.imgsz), settings.topk);
    BuildResultMessage(request, infer, draw)
  }

  /** The body of the streaming loop for one message, up to the send. It
      succeeds exactly when the image decodes, the model ranks some class
      for the decoded bytes, and the best-ranked label is in the table; the
      first stage that fails gives the outcome. */
  function ProcessOne(env: Env, settings: Settings, d: Delivery): (r: Result<OutboundMsg, Failure>)
    ensures ImageBytes(env, d.value).Err? ==> r == Err(ImageBytes(env, d.value).error)
    ensures r.Ok? <==>
      && ImageBytes(env, d.value).Ok?
      && Ranked(env.model(ImageBytes(env, d.value).value, settings.imgsz))
      && TopLabel(env.model(ImageBytes(env, d.value).value, settings.imgsz)) in FoodAvgWeightG
    ensures ImageBytes(env, d.value).Ok? ==>
      var run := env.model(ImageBytes(env, d.value).value, settings.imgsz);
      && (ClassifyRun(run, settings.topk).Err? ==> r == Err(ClassifyRun(run, settings.topk).error))
      && (Ranked(run) && TopLabel(run) !in FoodAvgWeightG ==> r == Err(UnknownClass(TopLabel(run))))
    ensures r.Ok? ==>
      && d.value.JObj?
      && r.value.top1Class == TopLabel(env.model(ImageBytes(env, d.value).value, settings.imgsz))
      && r.value.imageId == ImageIdOf(d.value.fields)
      && r.value.estimatedWeightG.Some?
      && r.value.estimatedWeightG.value >= MinAvgWeightG
  {
    var image :- ImageBytes(env, d.value);
    ClassifyAndBuild(env, settings, d.value.fields, image, d.draw)
  }
}
