/** `main` after argument parsing and model loading: the offline test of one
    local image, or the loop over the inbound queue. A run is described by
    the effects it performs, in order. */
module Runner {
  import opened Wrappers
  import opened Errors
  import opened Payload
  import opened Classifier
  import opened ResultBuilder
  import opened Pipeline

  /** The options `main` acts on. */
  datatype Config = Config(
    imgsz: int,
    topk: int,
    outputTopic: string,
    debug: bool,
    noOutputKafka: bool,
    offlineTest: bool,
    imagePath: Option<string>)

  /** What a run does that can be observed from outside. */
  datatype Effect =
    | UsageError                                          // offline test without an image path
    | Crash(failure: Failure)                             // an exception escapes `main`
    | Classify(image: Bytes)                              // one call of `classify_bytes`
    | PrintResult(msg: OutboundMsg)                       // the offline result, as JSON
    | LogOk(imageId: Option<Json>, msg: OutboundMsg)      // the per-message success line
    | LogErr(failure: Failure)                            // the per-message error line
    | Send(topic: string, key: string, value: OutboundMsg)
    | Flush

  /** The sentinel image id of the offline test. */
  const OfflineImageId := "offline_test"

  function SettingsOf(cfg: Config): Settings {
    Settings(cfg.imgsz, cfg.topk)
  }

  /** A producer exists unless publishing is switched off. */
  predicate HasProducer(cfg: Config) {
    !cfg.noOutputKafka
  }

  /** `not args.image_path`: no path, or the empty path. */
  predicate PathMissing(cfg: Config) {
    cfg.imagePath.None? || cfg.imagePath.value == ""
  }

  // ---------------------------------------------------------------------
  // Offline test

  /** The payload the offline test synthesizes, as if it came from the
      queue. Only its image id is ever read. */
  function OfflinePayload(env: Env, image: Bytes): map<string, Json> {
    map[ImageIdKey := JStr(OfflineImageId), "image_b64" := JStr(env.b64encode(image))]
  }

  /** How the offline test ends once the image was classified. */
  function OfflineEnd(r: Result<OutboundMsg, Failure>): Effect {
    match r
    case Err(e) => Crash(e)
    case Ok(m) => PrintResult(m)
  }

  /** The offline branch: stop with a usage error when there is no image
      path; otherwise read the file, classify it once and print the result.
      Every failure here escapes. */
  function Offline(cfg: Config, env: Env, draw: nat): seq<Effect> {
    if PathMissing(cfg) then
      [UsageError]
    else
      match env.readFile(cfg.imagePath.value)
      case None => [Crash(UnreadableFile)]
      case Some(image) =>
        [Classify(image), OfflineEnd(ClassifyAndBuild(env, SettingsOf(cfg), OfflinePayload(env, image), image, draw))]
  }

  // ---------------------------------------------------------------------
  // Streaming

  /** `payload.get("image_id")` for the log line. */
  function RequestImageId(payload: Json): Option<Json> {
    if payload.JObj? then ImageIdOf(payload.fields) else None
  }

  /** The classification of a message, which happens once its image decodes. */
  function Classification(decoded: Result<Bytes, Failure>): seq<Effect> {
    match decoded
    case Ok(image) => [Classify(image)]
    case Err(_) => []
  }

  /** The log line for a message's outcome, then the send of a successful
      result keyed by its class when a producer exists. */
  function Report(cfg: Config, imageId: Option<Json>, r: Result<OutboundMsg, Failure>): seq<Effect> {
    match r
    case Err(e) => [LogErr(e)]
    case Ok(m) =>
      [LogOk(imageId, m)] + (if HasProducer(cfg) then [Send(cfg.outputTopic, m.top1Class, m)] else [])
  }

  /** The effects of one inbound message. A failure is logged and goes no
      further. */
  function Step(cfg: Config, env: Env, d: Delivery): seq<Effect> {
    Classification(ImageBytes(env, d.value))
    + Report(cfg, RequestImageId(d.value), ProcessOne(env, SettingsOf(cfg), d))
  }

  /** The effects of handling each element of `xs` in turn. */
  function Concat<D>(handle: D -> seq<Effect>, xs: seq<D>): seq<Effect>
    decreases |xs|
  {
    if |xs| == 0 then [] else handle(xs[0]) + Concat(handle, xs[1..])
  }

  /** `for msg in consumer`, over the messages delivered before the stop. */
  function Loop(cfg: Config, env: Env, inbound: seq<Delivery>): seq<Effect> {
    Concat((d: Delivery) => Step(cfg, env, d), inbound)
  }

  /** The streaming branch: the loop, then the flush when a producer exists. */
  function Streaming(cfg: Config, env: Env, inbound: seq<Delivery>): seq<Effect> {
    Loop(cfg, env, inbound) + (if HasProducer(cfg) then [Flush] else [])
  }

  /** `main`: the mode is chosen once, by the offline flag. */
  function Main(cfg: Config, env: Env, offlineDraw: nat, inbound: seq<Delivery>): seq<Effect> {
    if cfg.offlineTest then Offline(cfg, env, offlineDraw) else Streaming(cfg, env, inbound)
  }

  // ---------------------------------------------------------------------
  // Views of a run

  /** The values `pick` finds in the effects of a run, in order. */
  function Collect<T>(trace: seq<Effect>, pick: Effect -> Option<T>): seq<T>
    decreases |trace|
  {
    if |trace| == 0 then []
    else AsSeq(pick(trace[0])) + Collect(trace[1..], pick)
  }

  /** The list of the one value an option holds, or the empty list. */
  function AsSeq<T>(o: Option<T>): seq<T> {
    if o.Some? then [o.value] else []
  }

  function SendOf(e: Effect): Option<Effect> {
    if e.Send? then Some(e) else None
  }

  function FlushOf(e: Effect): Option<Effect> {
    if e.Flush? then Some(e) else None
  }

  function ClassifyOf(e: Effect): Option<Bytes> {
    if e.Classify? then Some(e.image) else None
  }

  function OutcomeOf(e: Effect): Option<Result<OutboundMsg, Failure>> {
    match e
    case LogOk(_, m) => Some(Ok(m))
    case LogErr(f) => Some(Err(f))
    case _ => None
  }

  function PrintedOf(e: Effect): Option<OutboundMsg> {
    if e.PrintResult? then Some(e.msg) else None
  }

  function Sends(trace: seq<Effect>): seq<Effect> { Collect(trace, SendOf) }
  function Flushes(trace: seq<Effect>): seq<Effect> { Collect(trace, FlushOf) }
  function Classified(trace: seq<Effect>): seq<Bytes> { Collect(trace, ClassifyOf) }
  function Outcomes(trace: seq<Effect>): seq<Result<OutboundMsg, Failure>> { Collect(trace, OutcomeOf) }
  function Printed(trace: seq<Effect>): seq<OutboundMsg> { Collect(trace, PrintedOf) }

  lemma {:induction false} CollectAppend<T>(a: seq<Effect>, b: seq<Effect>, pick: Effect -> Option<T>)
    ensures Collect(a + b, pick) == Collect(a, pick) + Collect(b, pick)
    decreases |a|
  {
    if |a| == 0 {
      assert a + b == b;
    } else {
      assert (a + b)[0] == a[0];
      assert (a + b)[1..] == a[1..] + b;
      CollectAppend(a[1..], b, pick);
    }
  }

  // ---------------------------------------------------------------------
  // Reference definitions of what the loop should publish

  /** The outcome of each inbound message, processed on its own. */
  function Results(cfg: Config, env: Env, inbound: seq<Delivery>): (rs: seq<Result<OutboundMsg, Failure>>)
    ensures |rs| == |inbound|
    ensures forall i :: 0 <= i < |inbound| ==> rs[i] == ProcessOne(env, SettingsOf(cfg), inbound[i])
    decreases |inbound|
  {
    if |inbound| == 0 then [] else [ProcessOne(env, SettingsOf(cfg), inbound[0])] + Results(cfg, env, inbound[1..])
  }

  /** One send per successful result, in order, keyed by its class. */
  function Published(topic: string, rs: seq<Result<OutboundMsg, Failure>>): seq<Effect>
    decreases |rs|
  {
    if |rs| == 0 then []
    else
      (if rs[0].Ok? then [Send(topic, rs[0].value.top1Class, rs[0].value)] else [])
      + Published(topic, rs[1..])
  }
}
