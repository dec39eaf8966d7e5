# Food detection worker, modelled in Dafny

The worker reads food-photo messages from a Kafka topic. Each message is a
JSON object with an optional `image_id` and a base64 image `image_b64`. The
worker classifies the image with a YOLO classification model and looks up the
top-1 class in a fixed table of average portion weights (`FOOD_AVG_WEIGHT_G`).
It adds a random jitter of up to 40% and publishes
`{top1_class, estimated_weight_g, image_id}` keyed by the class. An offline
test mode classifies one local file instead and prints the result.

This project models the deterministic core of `food_detect.py`:

- `WeightEstimator` (weights.dfy): the 101-entry table, the jitter bound
  `int(b * 0.4)`, `randint` with its entropy injected, and the weight
  expression of the result builder.
- `Decimal` (decimal.dfy): `str(i)`, the fallback label of an unnamed class
  index, with its inverse.
- `Classifier` (classifier.dfy): `classify_bytes` after the model call. It
  covers the missing-probabilities failure, the clamp
  `k = max(1, min(topk, n))` and the assembly of the top-k items and of top-1.
- `ResultBuilder` (result_builder.dfy): `build_result_message`, plus the JSON
  object form of its result.
- `Pipeline` (pipeline.dfy): the body of the streaming loop for one message:
  payload lookup, base64 decode, classification, build.
- `Runner` and `RunnerProperties` (runner.dfy, runner_properties.dfy): `main`
  after start-up. A run is the sequence of effects it performs: classify,
  per-message log line, send, flush, offline print, usage error, escaping
  exception. The streaming loop is a fold over the delivered messages.

The collaborators the worker calls but whose code is not here are
parameters (`Pipeline.Env`):

- the base64 codec, as partial functions;
- the model, from image bytes and image size to a `ModelRun`: unreadable
  image, no probabilities, or a ranked probability vector with class names;
- the file system of offline mode.

The random draw is an entropy value `u` per message. `randint(lo, hi)` is
`lo + u % (hi - lo + 1)`. `RandIntCovers` shows that every value in the range
is the draw of some `u`, so fixing the entropy loses no behaviour.

In two places the code does something other than what it appears to
intend. The model follows the code:

- The `w is not None` guard (food_detect.py:97) reads as if an unknown class
  should get no weight. But the direct index `FOOD_AVG_WEIGHT_G[cls]` on
  line 96 raises `KeyError` first, so an unknown class fails the whole
  message and the guard always passes. `Estimate` and `BuildResultMessage`
  return `Err(UnknownClass(cls))`. In streaming mode the message is logged
  and skipped. In offline mode the failure escapes. Every Food-101 class is
  in the table, so this only happens with weights trained on other labels.
- A `KeyboardInterrupt` raised mid-message abandons that message (see
  "Left out").

## Model

| member | source | states |
|---|---|---|
| WeightEstimator.TablePlausible | food_detect.py:14-45 | every average in the weight table is at least 60 grams and a multiple of 5, so two fifths of it is a whole number |
| WeightEstimator.MaxJitter | food_detect.py:96 | the jitter bound is the floor of two fifths of the base weight: the largest j with 5j <= 2b |
| WeightEstimator.RandInt | food_detect.py:96 | `randint(0, J)` yields a value in the inclusive range [0, J] |
| WeightEstimator.RandIntCovers | food_detect.py:96 | every value of the inclusive range is the draw of some entropy, so the injected entropy restricts nothing |
| WeightEstimator.Estimate | food_detect.py:96-98 | fails with UnknownClass exactly when the class is not in the table; otherwise the weight lies in [b, b + floor(0.4 b)] and is at least 60 |
| WeightEstimator.EstimateWithDraw | food_detect.py:96 | for a class in the table and a draw r in [0, floor(0.4 b)], the weight is exactly b + r |
| Decimal.Show | food_detect.py:84 | `str(i)` of a non-negative index is a non-empty digit string with no leading zero, and "0" exactly for zero |
| Decimal.ParseShow | food_detect.py:84 | the decimal label of an index reads back as that index |
| Decimal.ShowInjective | food_detect.py:84 | distinct indices get distinct fallback labels |
| Classifier.ClampK | food_detect.py:76 | the clamped depth is at least 1. It is at most n when n >= 1 and is 1 when n == 0. It is 1 when topk <= 1, topk when 1 <= topk <= n, and n when topk >= n >= 1 |
| Classifier.ItemNaming | food_detect.py:80-87 | each item's class_id is its index and its score is copied; class_name is the model's name when the index is named, otherwise a digit string that parses back to the index |
| Classifier.Items | food_detect.py:79-87 | one item per ranked entry, in ranking order |
| Classifier.ClassifyRun | food_detect.py:70-89 | fails exactly when the image is unreadable, the run has no probabilities, or the probability vector is empty; on success there are exactly k = max(1, min(topk, n)) items, item j is built from ranked entry j, top1 is items[0], and the names are passed through |
| Classifier.TopKDescending | food_detect.py:76-89 | when the model ranks by descending confidence, the top-k scores descend and top-1 has the highest confidence of all classes |
| ResultBuilder.BuildResultMessage | food_detect.py:92-104 | fails exactly when the top-1 class is not in the table. A success copies the top-1 class name and always carries a weight in [b, b + floor(0.4 b)] of at least 60, so the None guard is dead. It has an image_id exactly when the request has that key, with the value unchanged |
| ResultBuilder.BuildWithDraw | food_detect.py:93-104 | with draw r in range, the result is exactly (class, b + r, the request's image_id if any): the build depends only on the request, the inference and the draw |
| ResultBuilder.ToFields | food_detect.py:94-104 | the JSON object has top1_class; it has estimated_weight_g and image_id exactly when those fields are set, and no other key |
| ResultBuilder.FieldsRoundTrip | food_detect.py:94-104 | reading back the JSON object of a result gives the same result |
| ResultBuilder.BuildKeys | food_detect.py:94-104 | a built result's keys are exactly top1_class and estimated_weight_g, plus image_id when the request has it, carrying the request's value |
| Pipeline.ImageBytes | food_detect.py:192-194 | a non-object payload fails with NotAnObject, a missing image_b64 with MissingImageB64, and an undecodable or non-string value with BadBase64; it succeeds exactly when the value is a string the decoder accepts, and then yields the decoded bytes |
| Pipeline.ClassifyAndBuild | food_detect.py:196-197 | succeeds exactly when the model ranks some class and the best-ranked label is in the table. A classification failure is the outcome. An unknown best-ranked label fails with UnknownClass of that label. A success carries that label, the request's image id, and a weight in [b, b + floor(0.4 b)] |
| Pipeline.ProcessOne | food_detect.py:190-198 | succeeds exactly when the image decodes, the model ranks some class for the decoded bytes, and the best-ranked label is in the table. The first failing stage (decode, classification, unknown label) gives the outcome. A success comes from an object payload, carries its image_id and the best-ranked label, and weighs at least 60 grams |
| RunnerProperties.StepViews | food_detect.py:190-214 | one message produces exactly its own outcome, one send when it succeeded and a producer exists, no flush, and one classification exactly when its image decodes |
| RunnerProperties.LoopViews | food_detect.py:190-214 | the loop's outcomes are the per-message outcomes in order; its sends are exactly the successful results in order when a producer exists; it never flushes; it classifies exactly the decoded images |
| RunnerProperties.StreamingSends | food_detect.py:184-221 | streaming sends exactly the successful results, in input order, each keyed by its top1_class and sent to the output topic; it sends nothing when publishing is off |
| RunnerProperties.StreamingOutcomes | food_detect.py:190-214 | every message gets exactly one outcome, equal to processing it alone, so a failing message is skipped without affecting later ones |
| RunnerProperties.StreamingFlush | food_detect.py:184-221 | with a producer the run ends with exactly one flush; without one there is no flush and no send |
| RunnerProperties.StreamingClassifies | food_detect.py:190-196 | streaming classifies each message whose image decodes, once, in order |
| RunnerProperties.PublishedFromSuccesses | food_detect.py:198-211 | every send goes to the output topic, is keyed by the class it carries, and carries a successful processing result |
| RunnerProperties.SentResultsCarryWeight | food_detect.py:196-211 | every sent result names a class of the table and carries a weight of at least 60 grams |
| RunnerProperties.LoopPrefix | food_detect.py:189-217 | stopping after the first j messages leaves exactly their effects, a prefix of the run over more messages |
| RunnerProperties.OfflineWithoutPath | food_detect.py:156-159 | offline mode without an image path (absent or empty) reports a usage error and classifies nothing |
| RunnerProperties.OfflineClassifiesOnce | food_detect.py:156-175 | offline mode with a readable image classifies exactly that image once and produces no queue traffic. When classification and build succeed it prints exactly the built result, whose image_id is "offline_test". Otherwise the failure escapes as the last effect |
| RunnerProperties.OfflineUnreadableFile | food_detect.py:161-162 | offline mode with an unreadable image fails before any classification |

## Left out

- The YOLO model, PIL image decoding and `torch.topk` are foreign calls (food_detect.py:60-77). A run is given as its outcome: an unreadable image, no probabilities, or the probability vector in the order `torch.topk` returns it. Confidences are `real`, standing in for floats.
- `base64.b64decode` and `b64encode` are library calls. They are parameters, with decoding partial.
- The float product `b * 0.4` is the integer `(2 * b) / 5`. `TablePlausible` shows that two fifths of every table value is a whole number. The truncation in `int(...)` then loses nothing, provided the float product does not round below the whole number. It cannot: the double nearest 0.4 is above 0.4.
- The weight table is written as three blocks (`TablePart1` to `TablePart3`) in source order. Their union is the table.
- `randint`'s generator state is an injected entropy value per message (`Delivery.draw`) and one for offline mode.
- Kafka consumer and producer construction, delivery, offsets and acknowledgements are left out (food_detect.py:107-125). Three failures that belong to the transport are not modelled: a value that fails JSON deserialization inside the consumer iterator, which would escape the loop; a failing `producer.send`, which the per-message handler would catch; and a failing flush.
- `KeyboardInterrupt` is modelled as the inbound sequence ending between two messages (`LoopPrefix`). An interrupt in the middle of a message, which abandons that message's remaining effects, is not modelled.
- Argument parsing, `pick_device`, `load_model` and CUDA are left out. The text of log and print lines is left out too: the `--debug` flag only changes that text, so `LogOk` stands for both forms.
- JSON key order in the serialized result is not modelled: a result's fields are a map.
