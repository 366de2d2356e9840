/**
 * What the message handler makes of an inbound payload: the bytes are decoded
 * as UTF-8 text, the text is parsed as JSON when it is JSON, and otherwise it
 * is kept verbatim. Both decoders are opaque partial functions, carried in a
 * `Codec`.
 */
module Payloads {
  import opened Wrappers

  newtype byte = x: int | 0 <= x < 256

  /** A parsed JSON document; a number is represented by its literal text. */
  datatype Json =
    | JNull
    | JBool(b: bool)
    | JNumber(literal: string)
    | JString(s: string)
    | JArray(items: seq<Json>)
    | JObject(members: seq<(string, Json)>)

  /** One stored message: the parsed JSON value, or the text as received. */
  datatype Payload = Parsed(value: Json) | Raw(text: string)

  /**
   * The two library calls the handler relies on: `bytes.decode('utf-8')`,
   * which fails on malformed input, and `json.loads`, which fails with a
   * decode error on text that is not JSON.
   */
  datatype Codec = Codec(decodeUtf8: seq<byte> -> Option<string>, parseJson: string -> Option<Json>)

  /** The JSON-or-text choice: parse the text, fall back to the text itself. */
  function Interpret(text: string, parseJson: string -> Option<Json>): (p: Payload)
    ensures p.Raw? <==> parseJson(text).None?
    ensures p.Raw? ==> p.text == text
    ensures p.Parsed? ==> parseJson(text) == Some(p.value)
  {
    match parseJson(text)
    case Some(v) => Parsed(v)
    case None => Raw(text)
  }

  /**
   * The payload that gets stored for `raw`, or None when the bytes are not
   * UTF-8 (the handler then stores nothing).
   */
  function Receive(raw: seq<byte>, codec: Codec): (r: Option<Payload>)
    ensures r.None? <==> codec.decodeUtf8(raw).None?
    ensures r.Some? && r.value.Raw? ==>
              codec.decodeUtf8(raw) == Some(r.value.text) && codec.parseJson(r.value.text).None?
    ensures r.Some? && r.value.Parsed? ==>
              exists text :: codec.decodeUtf8(raw) == Some(text) && codec.parseJson(text) == Some(r.value.value)
  {
    match codec.decodeUtf8(raw)
    case None => None
    case Some(text) => Some(Interpret(text, codec.parseJson))
  }

  /** Text that is not JSON is stored exactly as decoded. */
  lemma NonJsonStoredVerbatim(raw: seq<byte>, codec: Codec, text: string)
    requires codec.decodeUtf8(raw) == Some(text)
    requires codec.parseJson(text).None?
    ensures Receive(raw, codec) == Some(Raw(text))
  {
  }

  /** Text that is JSON is stored as the parsed value, never as text. */
  lemma JsonStoredParsed(raw: seq<byte>, codec: Codec, text: string, v: Json)
    requires codec.decodeUtf8(raw) == Some(text)
    requires codec.parseJson(text) == Some(v)
    ensures Receive(raw, codec) == Some(Parsed(v))
  {
  }
}
