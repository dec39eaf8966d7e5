/** What the two operating modes promise, stated over their effect traces. */
module RunnerProperties {
  import opened Wrappers
  import opened Errors
  import opened Payload
  import opened WeightEstimator
  import opened ResultBuilder
  import opened Pipeline
  import opened Runner

  /** The images the loop decodes, in order; each is classified once. */
  function DecodedImages(env: Env, inbound: seq<Delivery>): seq<Bytes>
    decreases |inbound|
  {
    if |inbound| == 0 then []
    else
      var decoded := ImageBytes(env, inbound[0].value);
      (if decoded.Ok? then [decoded.value] else []) + DecodedImages(env, inbound[1..])
  }

  lemma CollectOne<T>(e: Effect, pick: Effect -> Option<T>)
    ensures Collect([e], pick) == AsSeq(pick(e))
  {
  }

  lemma CollectTwo<T>(e: Effect, f: Effect, pick: Effect -> Option<T>)
    ensures Collect([e, f], pick) == AsSeq(pick(e)) + AsSeq(pick(f))
  {
    assert [e, f] == [e] + [f];
    CollectAppend([e], [f], pick);
    CollectOne(e, pick);
    CollectOne(f, pick);
  }

  /** The classification of a message is neither an outcome nor traffic. */
  lemma ClassificationViews(decoded: Result<Bytes, Failure>)
    ensures Outcomes(Classification(decoded)) == []
    ensures Sends(Classification(decoded)) == []
    ensures Flushes(Classification(decoded)) == []
    ensures Classified(Classification(decoded)) == (if decoded.Ok? then [decoded.value] else [])
  {
    if decoded.Ok? {
      CollectOne(Classify(decoded.value), OutcomeOf);
      CollectOne(Classify(decoded.value), SendOf);
      CollectOne(Classify(decoded.value), FlushOf);
      CollectOne(Classify(decoded.value), ClassifyOf);
    }
  }

  /** The report of a message is its one outcome, and its send when it
      succeeded and a producer exists. */
  lemma ReportViews(cfg: Config, imageId: Option<Json>, r: Result<OutboundMsg, Failure>)
    ensures Outcomes(Report(cfg, imageId, r)) == [r]
    ensures Sends(Report(cfg, imageId, r))
      == (if HasProducer(cfg) && r.Ok? then [Send(cfg.outputTopic, r.value.top1Class, r.value)] else [])
    ensures Flushes(Report(cfg, imageId, r)) == []
    ensures Classified(Report(cfg, imageId, r)) == []
  {
    match r
    case Err(e) =>
      CollectOne(LogErr(e), OutcomeOf);
      CollectOne(LogErr(e), SendOf);
      CollectOne(LogErr(e), FlushOf);
      CollectOne(LogErr(e), ClassifyOf);
    case Ok(m) =>
      var ok := LogOk(imageId, m);
      var send := Send(cfg.outputTopic, m.top1Class, m);
      if HasProducer(cfg) {
        assert Report(cfg, imageId, r) == [ok, send];
        CollectTwo(ok, send, OutcomeOf);
        CollectTwo(ok, send, SendOf);
        CollectTwo(ok, send, FlushOf);
        CollectTwo(ok, send, ClassifyOf);
      } else {
        assert Report(cfg, imageId, r) == [ok];
        CollectOne(ok, OutcomeOf);
        CollectOne(ok, SendOf);
        CollectOne(ok, FlushOf);
        CollectOne(ok, ClassifyOf);
      }
  }

  /** The views of the effects of one message. */
  lemma StepViews(cfg: Config, env: Env, d: Delivery)
    ensures Outcomes(Step(cfg, env, d)) == [ProcessOne(env, SettingsOf(cfg), d)]
    ensures Sends(Step(cfg, env, d))
      == (if HasProducer(cfg) && ProcessOne(env, SettingsOf(cfg), d).Ok?
          then [Send(cfg.outputTopic, ProcessOne(env, SettingsOf(cfg), d).value.top1Class, ProcessOne(env, SettingsOf(cfg), d).value)]
          else [])
    ensures Flushes(Step(cfg, env, d)) == []
    ensures Classified(Step(cfg, env, d))
      == (if ImageBytes(env, d.value).Ok? then [ImageBytes(env, d.value).value] else [])
  {
    var decoded := ImageBytes(env, d.value);
    var r := ProcessOne(env, SettingsOf(cfg), d);
    var c := Classification(decoded);
    var rep := Report(cfg, RequestImageId(d.value), r);
    assert Step(cfg, env, d) == c + rep;
    ClassificationViews(decoded);
    ReportViews(cfg, RequestImageId(d.value), r);
    CollectAppend(c, rep, OutcomeOf);
    CollectAppend(c, rep, SendOf);
    CollectAppend(c, rep, FlushOf);
    CollectAppend(c, rep, ClassifyOf);
  }

  /** The loop gives every message exactly its own outcome, in order, sends
      exactly the successful results when a producer exists, never flushes,
      and classifies exactly the images that decode. */
  lemma {:induction false} LoopViews(cfg: Config, env: Env, inbound: seq<Delivery>)
    ensures Outcomes(Loop(cfg, env, inbound)) == Results(cfg, env, inbound)
    ensures Sends(Loop(cfg, env, inbound))
      == (if HasProducer(cfg) then Published(cfg.outputTopic, Results(cfg, env, inbound)) else [])
    ensures Flushes(Loop(cfg, env, inbound)) == []
    ensures Classified(Loop(cfg, env, inbound)) == DecodedImages(env, inbound)
    decreases |inbound|
  {
    if |inbound| > 0 {
      var step := Step(cfg, env, inbound[0]);
      var tail := Loop(cfg, env, inbound[1..]);
      assert Loop(cfg, env, inbound) == step + tail;
      LoopViews(cfg, env, inbound[1..]);
      StepViews(cfg, env, inbound[0]);
      CollectAppend(step, tail, OutcomeOf);
      CollectAppend(step, tail, SendOf);
      CollectAppend(step, tail, FlushOf);
      CollectAppend(step, tail, ClassifyOf);
      var rs := Results(cfg, env, inbound);
      assert rs == [ProcessOne(env, SettingsOf(cfg), inbound[0])] + Results(cfg, env, inbound[1..]);
      assert rs[1..] == Results(cfg, env, inbound[1..]);
    }
  }

  /** Streaming publishes exactly the successful results, in input order,
      each keyed by its top-1 class; with publishing switched off it sends
      nothing. */
  lemma StreamingSends(cfg: Config, env: Env, inbound: seq<Delivery>)
    ensures Sends(Streaming(cfg, env, inbound))
      == (if HasProducer(cfg) then Published(cfg.outputTopic, Results(cfg, env, inbound)) else [])
  {
    LoopViews(cfg, env, inbound);
    var tail := if HasProducer(cfg) then [Flush] else [];
    CollectAppend(Loop(cfg, env, inbound), tail, SendOf);
    assert [Flush][1..] == [];
  }

  /** A failing message is logged and skipped: every message gets its own
      outcome, the same as processing it alone, whatever came before it. */
  lemma StreamingOutcomes(cfg: Config, env: Env, inbound: seq<Delivery>)
    ensures |Outcomes(Streaming(cfg, env, inbound))| == |inbound|
    ensures forall i :: 0 <= i < |inbound| ==>
      Outcomes(Streaming(cfg, env, inbound))[i] == ProcessOne(env, SettingsOf(cfg), inbound[i])
  {
    LoopViews(cfg, env, inbound);
    var tail := if HasProducer(cfg) then [Flush] else [];
    CollectAppend(Loop(cfg, env, inbound), tail, OutcomeOf);
    assert [Flush][1..] == [];
  }

  /** With a producer the run ends with exactly one flush, after every send;
      without one there is no flush and no send. */
  lemma StreamingFlush(cfg: Config, env: Env, inbound: seq<Delivery>)
    ensures HasProducer(cfg) ==>
      && Flushes(Streaming(cfg, env, inbound)) == [Flush]
      && Streaming(cfg, env, inbound)[|Streaming(cfg, env, inbound)| - 1] == Flush
    ensures !HasProducer(cfg) ==>
      Flushes(Streaming(cfg, env, inbound)) == [] && Sends(Streaming(cfg, env, inbound)) == []
  {
    LoopViews(cfg, env, inbound);
    StreamingSends(cfg, env, inbound);
    var tail := if HasProducer(cfg) then [Flush] else [];
    CollectAppend(Loop(cfg, env, inbound), tail, FlushOf);
    assert [Flush][1..] == [];
  }

  /** Streaming classifies each message whose image decodes, once, in order. */
  lemma StreamingClassifies(cfg: Config, env: Env, inbound: seq<Delivery>)
    ensures Classified(Streaming(cfg, env, inbound)) == DecodedImages(env, inbound)
  {
    LoopViews(cfg, env, inbound);
    var tail := if HasProducer(cfg) then [Flush] else [];
    CollectAppend(Loop(cfg, env, inbound), tail, ClassifyOf);
    assert [Flush][1..] == [];
  }

  /** Every send goes to the output topic, is keyed by the class it carries,
      and carries a result that processing produced. */
  lemma {:induction false} PublishedFromSuccesses(topic: string, rs: seq<Result<OutboundMsg, Failure>>)
    ensures forall i :: 0 <= i < |Published(topic, rs)| ==>
      && Published(topic, rs)[i].Send?
      && Published(topic, rs)[i].topic == topic
      && Published(topic, rs)[i].key == Published(topic, rs)[i].value.top1Class
      && Ok(Published(topic, rs)[i].value) in rs
    decreases |rs|
  {
    if |rs| > 0 {
      PublishedFromSuccesses(topic, rs[1..]);
      var head := if rs[0].Ok? then [Send(topic, rs[0].value.top1Class, rs[0].value)] else [];
      var p := Published(topic, rs);
      assert p == head + Published(topic, rs[1..]);
      forall i | 0 <= i < |p|
        ensures p[i].Send? && p[i].topic == topic && p[i].key == p[i].value.top1Class && Ok(p[i].value) in rs
      {
        if i < |head| {
          assert p[i] == head[i];
        } else {
          assert p[i] == Published(topic, rs[1..])[i - |head|];
          assert Ok(p[i].value) in rs[1..];
        }
      }
    }
  }

  /** Every sent result names a class of the table and carries a weight of
      at least 60 grams. */
  lemma SentResultsCarryWeight(cfg: Config, env: Env, inbound: seq<Delivery>)
    ensures forall e :: e in Sends(Streaming(cfg, env, inbound)) ==>
      && e.Send? && e.topic == cfg.outputTopic && e.key == e.value.top1Class
      && e.value.top1Class in FoodAvgWeightG
      && e.value.estimatedWeightG.Some? && e.value.estimatedWeightG.value >= MinAvgWeightG
  {
    StreamingSends(cfg, env, inbound);
    var rs := Results(cfg, env, inbound);
    PublishedFromSuccesses(cfg.outputTopic, rs);
    forall e | e in Sends(Streaming(cfg, env, inbound))
      ensures e.Send? && e.topic == cfg.outputTopic && e.key == e.value.top1Class
      ensures e.value.top1Class in FoodAvgWeightG
      ensures e.value.estimatedWeightG.Some? && e.value.estimatedWeightG.value >= MinAvgWeightG
    {
      var p := Published(cfg.outputTopic, rs);
      var i :| 0 <= i < |p| && p[i] == e;
      var j :| 0 <= j < |rs| && rs[j] == Ok(e.value);
      assert rs[j] == ProcessOne(env, SettingsOf(cfg), inbound[j]);
    }
  }

  lemma {:induction false} ConcatSplit<D>(handle: D -> seq<Effect>, xs: seq<D>, j: nat)
    requires j <= |xs|
    ensures Concat(handle, xs) == Concat(handle, xs[..j]) + Concat(handle, xs[j..])
    decreases j
  {
    if j == 0 {
      assert xs[..0] == [];
      assert xs[0..] == xs;
    } else {
      var rest := xs[1..];
      ConcatSplit(handle, rest, j - 1);
      assert xs[..j][0] == xs[0];
      assert xs[..j][1..] == rest[..j - 1];
      assert rest[j - 1..] == xs[j..];
    }
  }

  /** Stopping the loop after the first `j` messages leaves exactly the
      effects of those messages: the run of a longer input extends it. */
  lemma LoopPrefix(cfg: Config, env: Env, inbound: seq<Delivery>, j: nat)
    requires j <= |inbound|
    ensures Loop(cfg, env, inbound) == Loop(cfg, env, inbound[..j]) + Loop(cfg, env, inbound[j..])
  {
    ConcatSplit((d: Delivery) => Step(cfg, env, d), inbound, j);
  }

  /** Offline test without an image path: a usage error, before any
      classification, and nothing else. */
  lemma OfflineWithoutPath(cfg: Config, env: Env, draw: nat, inbound: seq<Delivery>)
    requires cfg.offlineTest && PathMissing(cfg)
    ensures Main(cfg, env, draw, inbound) == [UsageError]
    ensures Classified(Main(cfg, env, draw, inbound)) == []
  {
    assert [UsageError][1..] == [];
  }

  /** The offline run over a readable image: its classification, then its end. */
  lemma OfflineShape(cfg: Config, env: Env, draw: nat, inbound: seq<Delivery>, image: Bytes)
    requires cfg.offlineTest && !PathMissing(cfg)
    requires env.readFile(cfg.imagePath.value) == Some(image)
    ensures Main(cfg, env, draw, inbound)
      == [Classify(image), OfflineEnd(ClassifyAndBuild(env, SettingsOf(cfg), OfflinePayload(env, image), image, draw))]
  {
  }

  /** The views of a classification followed by the offline end. */
  lemma OfflineEndViews(image: Bytes, r: Result<OutboundMsg, Failure>)
    ensures Classified([Classify(image), OfflineEnd(r)]) == [image]
    ensures Sends([Classify(image), OfflineEnd(r)]) == []
    ensures Flushes([Classify(image), OfflineEnd(r)]) == []
    ensures Printed([Classify(image), OfflineEnd(r)]) == (if r.Ok? then [r.value] else [])
  {
    CollectTwo(Classify(image), OfflineEnd(r), ClassifyOf);
    CollectTwo(Classify(image), OfflineEnd(r), SendOf);
    CollectTwo(Classify(image), OfflineEnd(r), FlushOf);
    CollectTwo(Classify(image), OfflineEnd(r), PrintedOf);
  }

  /** Offline test with a readable image: exactly one classification, of
      that image, and no queue traffic. The printed result is exactly the
      built result, which carries the sentinel image id; a classification
      or build failure escapes as the last effect instead. */
  lemma OfflineClassifiesOnce(cfg: Config, env: Env, draw: nat, inbound: seq<Delivery>, image: Bytes)
    requires cfg.offlineTest && !PathMissing(cfg)
    requires env.readFile(cfg.imagePath.value) == Some(image)
    ensures var r := ClassifyAndBuild(env, SettingsOf(cfg), OfflinePayload(env, image), image, draw);
      && Classified(Main(cfg, env, draw, inbound)) == [image]
      && Sends(Main(cfg, env, draw, inbound)) == []
      && Flushes(Main(cfg, env, draw, inbound)) == []
      && Printed(Main(cfg, env, draw, inbound)) == (if r.Ok? then [r.value] else [])
      && (r.Err? ==> Main(cfg, env, draw, inbound)[|Main(cfg, env, draw, inbound)| - 1] == Crash(r.error))
    ensures forall m :: m in Printed(Main(cfg, env, draw, inbound)) ==> m.imageId == Some(JStr(OfflineImageId))
  {
    var r := ClassifyAndBuild(env, SettingsOf(cfg), OfflinePayload(env, image), image, draw);
    OfflineShape(cfg, env, draw, inbound, image);
    OfflineEndViews(image, r);
    assert ImageIdOf(OfflinePayload(env, image)) == Some(JStr(OfflineImageId));
  }

  /** Offline test with an image that cannot be read: the failure escapes
      before any classification. */
  lemma OfflineUnreadableFile(cfg: Config, env: Env, draw: nat, inbound: seq<Delivery>)
    requires cfg.offlineTest && !PathMissing(cfg)
    requires env.readFile(cfg.imagePath.value).None?
    ensures Main(cfg, env, draw, inbound) == [Crash(UnreadableFile)]
  {
  }
}
