# OpenRoadApp ingestion engine, modelled in Dafny

OpenRoadApp is a React Native app. It shows nearby perceived road users (pedestrians,
cyclists, vehicles) and short-lived hazard alerts on a map. Both arrive as JSON over MQTT.
This project models the component's ingestion engine, which is also its state machine:

- the MQTT connection flag, set by the `connect`, `closed` and `error` callbacks and by the
  `catch` around client creation;
- the `message` callback. It routes a parsed message by strict equality on `message_type`:
  - `1` replaces the object list and its measurement time wholesale;
  - `0` shows one toast, appends the message to the alert list and registers one 10-second
    timer;
  - any other value is ignored;
- the timer callback, which removes the head of the alert list (`slice(1)`). The head it
  removes is whatever alert is first, not the alert that registered that timer;
- the selection of each object marker's callout title, image and pin colour from
  `object_class`.

Layout, one module per concern:

- `Json` (json.dfy): JavaScript values and `===`.
- `Messages` (messages.dfy): decoded messages and routing.
- `AlertList` (alert_list.dfy): the two list updaters.
- `MarkerStyle` (marker_style.dfy): marker label, icon and pin colour.
- `EngineSpec` (engine_spec.dfy): the engine as a pure state machine (`Step` per callback,
  `Run` for a trace) and the lemmas about whole traces.
- `App` (engine.dfy): class `Engine`. Its fields are the component state plus two counters:
  pending eviction timers and toasts shown. It has one method per callback. Each callback method is
  proved to perform `Step` on the fields and to keep the invariant "alerts on the list ==
  eviction timers pending". The helper methods are proved to perform `EngineSpec` functions:
  `SetMqttConnected` performs `SetConnected`, `ShowToast` performs `ShowToast`, and
  `AddAlertMarker` performs `AddAlertMarker`.
  `App.EvictionByPosition` is a caller of the class: A then B arrive, and the first timer
  evicts A. It shows that the class contracts are enough for a caller to reason about
  the queue.

The central results:

- `RunAlertQueue`: after any feasible trace, the alert list is the old list followed by the
  accepted alerts, minus as many from the head as timers fired.
- `FiringFindsAlert`: a firing timer never finds the list empty.
- `RunObjects`: the object list is that of the last snapshot message, with no carry-over
  from earlier snapshots.

## Model

| member | source | states |
|---|---|---|
| `Json.StrictEquals` | App.jsx:73-77 | `===` holds exactly for two equal scalars; an array is never strictly equal to a literal |
| `Messages.RouteOf` | App.jsx:71-83 | only the number 1 replaces objects and only the number 0 raises an alert; every other `message_type` is dropped (both directions of each) |
| `Messages.LookalikeTypesAreDropped` | App.jsx:73-77 | `"1"`, `"0"`, `true`, `false`, `[1]`, `null`, a missing field and `2` are all dropped |
| `AlertList.Slice` | App.jsx:179 | `slice(start)` returns a suffix of the list; its length follows the clamping rules for non-negative and negative starts |
| `AlertList.Append` | App.jsx:166-169 | `[...prev, x]` keeps the old list, in order, as its prefix and has `x` at the tail |
| `AlertList.DropHead` | App.jsx:177-180 | `slice(1)` of the empty list is empty; otherwise the head followed by the result is the old list |
| `AlertList.DropHeadAppend` | App.jsx:164-180 | on a non-empty list, appending then dropping the head equals dropping the head then appending (FIFO) |
| `MarkerStyle.Label` | App.jsx:219 | a title exists exactly for classes 1, 2, 3, and it is the class-table entry's label (Pedestrian, Cyclist, Vehicle) |
| `MarkerStyle.MarkerIcon` | App.jsx:213 | an image exists exactly for classes 1, 2, 3, and it is the class-table entry's image (person, bicycle, car) |
| `MarkerStyle.LabelAndIconAgree` | App.jsx:213-219 | every class gets a title and an image of the same kind, or neither |
| `MarkerStyle.PinColorAsWritten` | App.jsx:210 | the guard `c < 1 && c > 3` as written yields no pin colour for any class |
| `MarkerStyle.UnknownClassIsNotGreyAsWritten` | App.jsx:210-219 | class 7 has no title and no image, yet as written it does not get the grey pin |
| `MarkerStyle.PinColor` | App.jsx:210 | corrected guard: grey exactly for the classes that have no title |
| `MarkerStyle.ObjectMarker` | App.jsx:204-219 | as rendered: a class in the class table gets that entry's title and image, any other class gets neither, and no marker ever gets a pin colour |
| `MarkerStyle.CorrectedObjectMarker` | App.jsx:204-219 | with the corrected pin guard: same title and image as `ObjectMarker`; the pin is `"grey"` when there is no title and absent otherwise |
| `EngineSpec.Initial` | App.jsx:23-27 | start-up state: not connected, no objects, measurement time `[]`, no alerts, no timers, no toasts, no subscriptions |
| `EngineSpec.SetConnected` | App.jsx:63 | the setter changes the flag and nothing else |
| `EngineSpec.OnConnect` | App.jsx:85-89 | connect subscribes to `display_topic` at QoS 0 and sets the flag; objects, time and alerts are untouched |
| `EngineSpec.ShowToast` | App.jsx:151-162 | one toast more; nothing else changes |
| `EngineSpec.AddAlertMarker` | App.jsx:164-175 | the marker is appended at the tail and exactly one pending eviction is added; the invariant is kept |
| `EngineSpec.RemoveAlertMarker` | App.jsx:172-180 | the head goes (empty stays empty) and one pending eviction is consumed; under the invariant the list shrinks by exactly one |
| `EngineSpec.OnMessage` | App.jsx:71-83 | type 1 sets objects and time to the message's, nothing else; type 0 appends the message, adds one timer and one toast; any other type changes nothing |
| `EngineSpec.Step` | App.jsx:61-95 | every callback preserves `alerts == pending evictions` |
| `EngineSpec.RunPreservesInv` | App.jsx:164-180 | the invariant holds after every trace of callbacks |
| `EngineSpec.RunAlertQueue` | App.jsx:164-180 | after a feasible trace the alert list is `(old alerts + accepted alerts)[fires..]`, the total of timer firings never exceeds the alerts (the per-firing fact is `FiringFindsAlert`), and pending timers and toasts add up |
| `EngineSpec.FiringFindsAlert` | App.jsx:172-179 | in a feasible trace, the state just before every timer firing holds at least one alert, so `slice(1)` always removes one |
| `EngineSpec.AlertsFromStart` | App.jsx:164-180 | from start-up, the alert list is the accepted alerts minus the first `fires` of them, and its length equals the pending timers |
| `EngineSpec.RunObjects` | App.jsx:73-76 | after a trace, objects and time are those of the last type-1 message, or unchanged if there is none |
| `EngineSpec.RunConnection` | App.jsx:61-95 | after a trace, the connection flag is the one set by the last connection event, or unchanged if there is none |
| `EngineSpec.ConnectionEventsKeepData` | App.jsx:61-95 | a trace of connection events only never changes objects, time, alerts or pending timers |
| `EngineSpec.HeadEvictionScenario` | App.jsx:164-180 | alerts A then B: the first firing leaves `[B]`, the second (registered with B) leaves `[]`; two toasts |
| `App.Engine.constructor` | App.jsx:22-27 | a new engine holds the initial state and satisfies the invariant |
| `App.Engine.SetMqttConnected` | App.jsx:63 | the setter changes only the flag |
| `App.Engine.OnConnect` | App.jsx:85-89 | performs the connect transition: subscription added, flag true, data untouched, invariant kept |
| `App.Engine.OnClosed` | App.jsx:61-64 | flag false, data untouched, invariant kept |
| `App.Engine.OnError` | App.jsx:66-69 | flag false, data untouched, invariant kept |
| `App.Engine.OnCreateFailed` | App.jsx:92-95 | flag false, data untouched, invariant kept |
| `App.Engine.ShowToast` | App.jsx:151-162 | only the toast count goes up by one |
| `App.Engine.AddAlertMarker` | App.jsx:164-175 | append at the tail plus one pending timer, and nothing else; keeps the invariant |
| `App.Engine.OnMessage` | App.jsx:71-83 | performs the routed message transition; per type, the exact fields that change and those that do not |
| `App.Engine.OnTimerFire` | App.jsx:172-180 | the old list was non-empty, exactly its head is removed with the rest in order, one pending timer fewer |

## Left out

- JSON parsing (App.jsx:72): a message is modelled after `JSON.parse`. A payload that fails
  to parse throws out of the callback. The model says nothing about malformed payloads.
  A payload that parses to `null` (or another non-object) is not representable either. Reading
  `message_type` of `null` throws at App.jsx:73 before any setter runs, so no state changes.
- Missing or non-list `perceived_objects` and missing alert fields: a message always carries
  them here. In the source, a missing field would store `undefined`.
- `message_type` values that are JSON objects are not representable in `Json.JsValue`. Like
  arrays, they never equal 0 or 1 under `===`. NaN is not representable either.
- Messages.PerceivedObject: `object_class` is an integer. Loose `==` against a string such as
  `"1"` (which JavaScript would accept) and non-integer numbers are not modelled.
- The MQTT client library: `createClient`, `connect`, the URI and the client id. Only the
  callbacks are modelled, as events. The `subscribe` call becomes a recorded request.
- Several live clients: every Retry press (App.jsx:187) creates another client with its own
  callbacks. Here all callbacks form one serial stream.
- Wall-clock time: the 10 000 ms timer becomes an `EvictionDue` event and the toast a counter.
  Which alert's timer fires when is not modelled, only that each firing removes the head.
  The 4 000 ms toast duration and the other toast options are presentation.
- App.Engine.OnTimerFire requires a pending timer. A timer that was never registered cannot
  fire. `EngineSpec.Step` treats such an event as having no effect, and `Feasible` excludes it
  from the trace lemmas.
- Geolocation and Android permissions (`fetchData`, `requestLocationPermission`,
  `handlePermissionDenied`, `getCurrentLocation`): platform I/O.
- Rendering: `MapView`, markers, callouts, the connection banner and the styles. Only the
  class-to-title, image and pin expressions are kept.
- `console.log` output is not modelled.

## Findings

| source | as written | input that shows it | evidently intended | confidence | as-written member | corrected member |
|---|---|---|---|---|---|---|
| App.jsx:210 | the guard `c < 1 && c > 3` (`c` the object class): no class is both below 1 and above 3, so the pin is never grey | `object_class` 7: no title, no image, default pin | `(object_class < 1 \|\| object_class > 3) && 'grey'`: unrecognised classes get the grey pin | not executed; high, from the guard alone | `MarkerStyle.PinColorAsWritten` | `MarkerStyle.PinColor`, `MarkerStyle.CorrectedObjectMarker` |
