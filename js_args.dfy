/**
  The script values the entry points receive, as far as the argument checks look at them:
  strings, byte buffers, other objects with their properties, and everything else.
*/
module JsArgs {
  import opened Wrappers
  import opened Utf8

  datatype JsValue =
    | JsString(text: string)
    | JsBuffer(bytes: seq<byte>)
    | JsObject(properties: map<string, JsValue>)
    /** Numbers, booleans, null, undefined, symbols and big integers. */
    | JsOther

  predicate IsString(v: JsValue) {
    v.JsString?
  }

  predicate IsBuffer(v: JsValue) {
    v.JsBuffer?
  }

  /** A buffer is an object too (a `Uint8Array`); strings and the other primitives are not. */
  predicate IsObject(v: JsValue) {
    v.JsObject? || v.JsBuffer?
  }

  /** Whether the object has a property of that name; a buffer has none of the names looked up. */
  predicate Has(v: JsValue, key: string) {
    v.JsObject? && key in v.properties
  }

  function Get(v: JsValue, key: string): JsValue
    requires Has(v, key)
  {
    v.properties[key]
  }

  /** The string held by a property, if the property exists and holds a string. */
  function StringProperty(v: JsValue, key: string): Option<string> {
    if Has(v, key) && IsString(Get(v, key)) then Some(Get(v, key).text) else None
  }
}
