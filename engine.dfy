/**
 * The App component's ingestion state as an object whose callbacks update its
 * fields in place, as the `useState` setters do. Every callback is proved to
 * perform exactly the transition `EngineSpec.Step` describes and to keep the
 * timing invariant: as many eviction timers pending as alerts on the list.
 */
module App {
  import opened Json
  import opened Messages
  import opened AlertList
  import opened EngineSpec

  class Engine {
    var mqttConnected: bool
    var mqttMessage: seq<PerceivedObject>
    var mqttMessageTime: JsValue
    var alertMarkers: seq<Message>
    var pendingEvictions: nat
    var toastCount: nat
    var subscriptions: seq<Subscription>

    /** The fields, as one value of the pure model. */
    function State(): EngineState
      reads this
    {
      EngineState(mqttConnected, mqttMessage, mqttMessageTime, alertMarkers,
                  pendingEvictions, toastCount, subscriptions)
    }

    ghost predicate Valid()
      reads this
    {
      Inv(State())
    }

    /** The component's first render: the initial `useState` values, no timers, no toasts. */
    constructor ()
      ensures Valid() && State() == Initial()
    {
      mqttConnected := false;
      mqttMessage := [];
      mqttMessageTime := JsArray([]);
      alertMarkers := [];
      pendingEvictions := 0;
      toastCount := 0;
      subscriptions := [];
    }

    /** `setMqttConnected(value)`. */
    method SetMqttConnected(value: bool)
      modifies this
      ensures State() == SetConnected(old(State()), value)
    {
      mqttConnected := value;
    }

    /** client.on('connect'): subscribe to the display topic at QoS 0, then mark connected. */
    method OnConnect()
      requires Valid()
      modifies this
      ensures Valid()
      ensures State() == Step(old(State()), Connect)
      ensures mqttConnected && subscriptions == old(subscriptions) + [Subscription(DisplayTopic, AtMostOnce)]
      ensures mqttMessage == old(mqttMessage) && mqttMessageTime == old(mqttMessageTime)
      ensures alertMarkers == old(alertMarkers) && pendingEvictions == old(pendingEvictions)
    {
      subscriptions := subscriptions + [Subscription(DisplayTopic, AtMostOnce)];
      SetMqttConnected(true);
    }

    /** client.on('closed'). */
    method OnClosed()
      requires Valid()
      modifies this
      ensures Valid()
      ensures State() == Step(old(State()), Closed)
      ensures !mqttConnected && mqttMessage == old(mqttMessage) && mqttMessageTime == old(mqttMessageTime)
      ensures alertMarkers == old(alertMarkers) && pendingEvictions == old(pendingEvictions)
    {
      SetMqttConnected(false);
    }

    /** client.on('error'): the error is only logged. */
    method OnError()
      requires Valid()
      modifies this
      ensures Valid()
      ensures State() == Step(old(State()), Error)
      ensures !mqttConnected && mqttMessage == old(mqttMessage) && mqttMessageTime == old(mqttMessageTime)
      ensures alertMarkers == old(alertMarkers) && pendingEvictions == old(pendingEvictions)
    {
      SetMqttConnected(false);
    }

    /** The `catch` of connectToMqttServer: creating or starting the client threw. */
    method OnCreateFailed()
      requires Valid()
      modifies this
      ensures Valid()
      ensures State() == Step(old(State()), CreateFailed)
      ensures !mqttConnected && mqttMessage == old(mqttMessage) && mqttMessageTime == old(mqttMessageTime)
      ensures alertMarkers == old(alertMarkers) && pendingEvictions == old(pendingEvictions)
    {
      SetMqttConnected(false);
    }

    /** showToast('ALERT DETECTED !'). */
    method ShowToast()
      modifies this
      ensures State() == EngineSpec.ShowToast(old(State()))
    {
      toastCount := toastCount + 1;
    }

    /** addAlertMarker(marker): append at the tail and register one 10 s eviction timer. */
    method AddAlertMarker(marker: Message)
      modifies this
      ensures State() == EngineSpec.AddAlertMarker(old(State()), marker)
      ensures old(Valid()) ==> Valid()
    {
      alertMarkers := Append(alertMarkers, marker);
      pendingEvictions := pendingEvictions + 1;
    }

    /** client.on('message'), after JSON.parse: routed by `message_type === 1` / `=== 0`. */
    method OnMessage(m: Message)
      requires Valid()
      modifies this
      ensures Valid()
      ensures State() == Step(old(State()), Received(m))
      ensures m.messageType == JsNumber(1.0) ==>
        mqttMessage == m.perceivedObjects && mqttMessageTime == m.timeOfMeasurement &&
        alertMarkers == old(alertMarkers) && pendingEvictions == old(pendingEvictions) &&
        toastCount == old(toastCount) && mqttConnected == old(mqttConnected)
      ensures m.messageType == JsNumber(0.0) ==>
        alertMarkers == old(alertMarkers) + [m] && pendingEvictions == old(pendingEvictions) + 1 &&
        toastCount == old(toastCount) + 1 &&
        mqttMessage == old(mqttMessage) && mqttMessageTime == old(mqttMessageTime)
      ensures m.messageType != JsNumber(1.0) && m.messageType != JsNumber(0.0) ==> State() == old(State())
    {
      if StrictEquals(m.messageType, SnapshotType) {
        mqttMessage := m.perceivedObjects;
        mqttMessageTime := m.timeOfMeasurement;
      } else if StrictEquals(m.messageType, AlertType) {
        ShowToast();
        AddAlertMarker(m);
      }
    }

    /**
     * A pending eviction timer fires and runs removeAlertMarker(): the head of
     * the list goes. Because of the invariant the list is never empty here.
     */
    method OnTimerFire()
      requires Valid() && pendingEvictions > 0
      modifies this
      ensures Valid()
      ensures State() == Step(old(State()), EvictionDue)
      ensures old(alertMarkers) != [] && alertMarkers == old(alertMarkers)[1..]
      ensures pendingEvictions == old(pendingEvictions) - 1
      ensures mqttMessage == old(mqttMessage) && mqttMessageTime == old(mqttMessageTime)
    {
      alertMarkers := DropHead(alertMarkers);
      pendingEvictions := pendingEvictions - 1;
    }
  }

  /** A client of the class: alert A then alert B; the first timer evicts A, whatever B registered. */
  method EvictionByPosition(a: Message, b: Message)
    requires a.messageType == JsNumber(0.0) && b.messageType == JsNumber(0.0)
  {
    var engine := new Engine();
    engine.OnConnect();
    engine.OnMessage(a);
    engine.OnMessage(b);
    assert engine.alertMarkers == [a, b];
    engine.OnTimerFire();
    assert engine.alertMarkers == [b];
    engine.OnError();
    assert engine.alertMarkers == [b] && !engine.mqttConnected;
    engine.OnTimerFire();
    assert engine.alertMarkers == [] && engine.toastCount == 2;
  }
}
