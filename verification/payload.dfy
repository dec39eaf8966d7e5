/** The values that travel through the worker: raw image bytes and the
    deserialized JSON of inbound and outbound queue messages. */
module Payload {

  type Byte = bv8
  type Bytes = seq<Byte>

  /** A JSON value as the consumer's `json.loads` deserializer yields it.
      Numbers are split the way Python splits them, into int and float. */
  datatype Json =
    | JNull
    | JBool(b: bool)
    | JInt(i: int)
    | JFloat(f: real)
    | JStr(s: string)
    | JArr(items: seq<Json>)
    | JObj(fields: map<string, Json>)
}
