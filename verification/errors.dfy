/** Every way the processing of one image can fail. Each case names the
    exception the worker raises at that point. */
module Errors {

  datatype Failure =
    | NotAnObject         // `payload["image_b64"]` on a payload that is not a JSON object: TypeError
    | MissingImageB64     // the object has no "image_b64" key: KeyError
    | BadBase64           // `base64.b64decode` rejects the value (ValueError, of which binascii.Error is one, or TypeError)
    | UnreadableImage     // PIL cannot open the decoded bytes
    | NoProbabilities     // the model result has no `probs`: RuntimeError
    | EmptyProbabilities  // `torch.topk` with k = 1 over an empty probability vector
    | UnknownClass(name: string)  // `FOOD_AVG_WEIGHT_G[cls]` on a class outside the table: KeyError
    | UnreadableFile      // offline mode: the local image cannot be opened or read
}
