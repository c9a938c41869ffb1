/**
 * The decoding cascade of `on_message` in mqtt_render_pubsub.py and
 * mqtt_subscriber.py. A payload is shown as parsed JSON when its bytes are
 * UTF-8 and the text parses, as the text when it is UTF-8 but not JSON, and
 * as the lowercase hex of the raw bytes otherwise. No decoding error
 * escapes: `Classify` is total.
 *
 * JSON parsing (`json.loads`) is not modelled; it is the parameter `loads`,
 * any function from text to an optional parsed value, None standing for a
 * JSONDecodeError. Other exceptions of `json.loads`, which the source does
 * not catch, are outside the model.
 */
module Payload {
  import opened Wrappers
  import opened Transport
  import opened Utf8
  import opened HexRendering

  /** What on_message prints for a payload. */
  datatype Rendering<V> =
    | Structured(value: V)
    | Text(text: string)
    | Binary(hex: string)

  /** The cascade as the source writes it: an outer attempt that decodes and
      parses, and, when it raises, an inner retry that decodes the same bytes
      again and falls back to hex when that raises too. */
  function Classify<V>(payload: seq<Byte>, loads: string -> Option<V>): Rendering<V> {
    match DecodeUtf8(payload)
    case Some(text) =>
      (match loads(text)
       case Some(v) => Structured(v)
       case None => InnerRetry(payload))
    case None => InnerRetry(payload)
  }

  /** The handler of the outer attempt's decode and parse errors. */
  function InnerRetry<V>(payload: seq<Byte>): Rendering<V> {
    match DecodeUtf8(payload)
    case Some(text) => Text(text)
    case None => Binary(Hex(payload))
  }

  /** The JSON tier: a payload that is the UTF-8 form of a text is shown as a
      parsed value exactly when that text parses, and as that value. */
  lemma JsonTier<V>(payload: seq<Byte>, loads: string -> Option<V>, s: string, v: V)
    requires EncodeUtf8(s) == payload
    ensures Classify(payload, loads) == Structured(v) <==> loads(s) == Some(v)
  {
    DecodeOfEncode(s);
  }

  /** The text tier: a payload that is the UTF-8 form of a text is shown as
      that text exactly when the text does not parse as JSON. */
  lemma TextTier<V>(payload: seq<Byte>, loads: string -> Option<V>, s: string)
    requires EncodeUtf8(s) == payload
    ensures Classify(payload, loads) == Text(s) <==> loads(s).None?
  {
    DecodeOfEncode(s);
  }

  /** The hex tier: a payload is shown as hex exactly when it is not UTF-8
      (RFC 3629), and then as the lowercase hex of all its bytes. */
  lemma BinaryTier<V>(payload: seq<Byte>, loads: string -> Option<V>)
    ensures Classify(payload, loads).Binary? <==> !ValidUtf8(payload)
    ensures Classify(payload, loads).Binary? ==> Classify(payload, loads).hex == Hex(payload)
  {
    DecodeSucceedsIffValid(payload);
  }

  /** What is shown determines the payload: a text re-encodes to it, a hex
      rendering reads back to it. The fallbacks lose no byte. */
  lemma ClassifyLosesNothing<V>(payload: seq<Byte>, loads: string -> Option<V>)
    ensures Classify(payload, loads).Text? ==> EncodeUtf8(Classify(payload, loads).text) == payload
    ensures Classify(payload, loads).Binary? ==> Unhex(Classify(payload, loads).hex) == Some(payload)
  {
    if DecodeUtf8(payload).Some? {
      EncodeOfDecode(payload);
    } else {
      UnhexOfHex(payload);
    }
  }

  /** A JSON text published as a str (which the transport sends as its UTF-8
      form) is shown by the receiver as the very value that was serialised,
      whenever parsing the serialisation gives the value back. */
  lemma PublishedJsonArrivesStructured<V>(v: V, dumps: V -> string, loads: string -> Option<V>)
    requires loads(dumps(v)) == Some(v)
    ensures Classify(EncodeUtf8(dumps(v)), loads) == Structured(v)
  {
    DecodeOfEncode(dumps(v));
  }
}
