/**
 * Decoded inbound MQTT messages and the routing of the `message` handler
 * (App.jsx:71-83). Parsing the payload text is not modelled: a `Message` is what
 * `JSON.parse` has already produced.
 */
module Messages {
  import opened Json

  /** One entry of `perceived_objects`; only `object_class` is interpreted. */
  datatype PerceivedObject = PerceivedObject(
    id: JsValue,
    latitude: real,
    longitude: real,
    altitude: real,
    heading: real,
    speed: real,
    objectClass: int,
    referencePoint: JsValue)

  /** The fields an alert message carries and an alert marker displays. */
  datatype AlertFields = AlertFields(
    latitude: real,
    longitude: real,
    altitude: real,
    distance: real,
    causeCode: JsValue,
    subCauseCode: JsValue)

  /**
   * A parsed message object. The handler reads `perceived_objects` and
   * `timeOfMeasurement` of a snapshot, and keeps the whole object as an alert
   * marker for an alert.
   */
  datatype Message = Message(
    messageType: JsValue,
    timeOfMeasurement: JsValue,
    perceivedObjects: seq<PerceivedObject>,
    alert: AlertFields)

  /** What the handler does with a message. */
  datatype Route = ReplaceObjects | RaiseAlert | Drop

  const SnapshotType: JsValue := JsNumber(1.0)
  const AlertType: JsValue := JsNumber(0.0)

  /**
   * The `if (message_type === 1) … else if (message_type === 0) …` dispatch:
   * only the number 1 replaces the objects, only the number 0 raises an alert,
   * every other value (another number, a string, a boolean, null, a missing
   * field, an array) is dropped.
   */
  function RouteOf(messageType: JsValue): (r: Route)
    ensures r == ReplaceObjects <==> messageType == JsNumber(1.0)
    ensures r == RaiseAlert <==> messageType == JsNumber(0.0)
    ensures r == Drop <==> messageType != JsNumber(1.0) && messageType != JsNumber(0.0)
  {
    if StrictEquals(messageType, SnapshotType) then ReplaceObjects
    else if StrictEquals(messageType, AlertType) then RaiseAlert
    else Drop
  }

  /** Values that loose equality would take for 1 or 0 are still dropped. */
  lemma LookalikeTypesAreDropped()
    ensures RouteOf(JsString("1")) == Drop && RouteOf(JsString("0")) == Drop
    ensures RouteOf(JsBool(true)) == Drop && RouteOf(JsBool(false)) == Drop
    ensures RouteOf(JsArray([JsNumber(1.0)])) == Drop && RouteOf(JsNull) == Drop
    ensures RouteOf(JsUndefined) == Drop && RouteOf(JsNumber(2.0)) == Drop
  {
  }
}
