/**
 * The part of the JavaScript value space that the ingestion engine looks at:
 * the scalar JSON values and arrays. JSON objects are not represented here:
 * like an array, an object is never `===` a number literal, so a `message_type`
 * that is an object is routed exactly as an array is.
 */
module Json {

  datatype JsValue =
    | JsNumber(n: real)
    | JsString(s: string)
    | JsBool(b: bool)
    | JsNull
    | JsUndefined
    | JsArray(items: seq<JsValue>)

  /**
   * JavaScript `===`: the same type and the same value for scalars. Two arrays
   * are strictly equal only when they are one and the same object; a freshly
   * decoded array is never the same object as a literal, so `===` against an
   * array is always false in this model.
   */
  function StrictEquals(a: JsValue, b: JsValue): (r: bool)
    ensures r <==> a == b && !a.JsArray?
  {
    match (a, b)
    case (JsNumber(x), JsNumber(y)) => x == y
    case (JsString(x), JsString(y)) => x == y
    case (JsBool(x), JsBool(y)) => x == y
    case (JsNull, JsNull) => true
    case (JsUndefined, JsUndefined) => true
    case _ => false
  }
}
