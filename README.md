# MQTT clients: session guard, payload decoding, sensor sequencing

A Dafny model of the four MQTT command-line clients of this repository:
`MQTTRenderBroker` (mqtt_render_pubsub.py), `MQTTPublisher` (mqtt_publisher.py),
`SensorSimulator` (mqtt_sensor_simulator.py) and `MQTTSubscriber`
(mqtt_subscriber.py). All four wrap a paho-mqtt client. The model covers three
things they share.

- **The session guard.** Each client keeps a `connected` flag. `on_connect`
  sets it exactly when the CONNACK return code is 0, the "Connection Accepted"
  code of section 3.2.2.3 of MQTT 3.1.1. `on_disconnect` clears it whatever
  the code. `publish` and `subscribe` return False without touching the
  transport while the flag is clear. Otherwise they succeed exactly when the
  transport answers `MQTT_ERR_SUCCESS`. Beside the flag sit `message_count`
  in the receivers and `sequence` in the simulator.
- **The inbound decoding cascade of `on_message`.** A payload is shown as
  parsed JSON when it is UTF-8 (RFC 3629) and parses. It is shown as text
  when it is UTF-8 but does not parse. Otherwise it is shown as the lowercase
  hex of its bytes.
- **Sensor naming and sequencing.**
  - Ids are `"sensor_"` followed by the index zero-padded to three digits.
  - Topics are `<base>/<sensor_id>/data`.
  - Every round visits sensors 1 .. n in order.
  - The counter goes up by one per publish attempt.

How the model is put together:

- **Classes.** Each client is a Dafny class with the fields the Python class
  updates: `hasClient` (`self.client` is not None), `connected`, the counters,
  and `calls`. `calls` logs the connect, publish, subscribe and disconnect
  calls that reached the paho client object. The other calls on that object
  (`username_pw_set`, `loop_start`, `loop_stop`) are not logged.
- **The transport.** It is an oracle. Every request passes in the `Reply` the
  transport gives: a return code, or `Raised` when the call throws.
- **Session steps.** Module `Session` holds the guard as pure step functions
  over `Link(hasClient, connected, calls)`. Every class method states its
  new state as the matching step. `Session.Run` replays a sequence of
  events, which include the simulator's unguarded publish. The flag and
  log lemmas over `Run` hold for all four clients. `NoRequestBeforeAcceptance`
  holds for the guarded publish and subscribe only;
  `UnguardedPublishBeforeAcceptance` shows the simulator's publish reaching
  the transport before any CONNACK.
- **Decoding.**
  - UTF-8 is modelled twice: as the byte grammar of section 4 of RFC 3629
    (`Utf8.ValidUtf8`) and as an arithmetic decoder (`Utf8.DecodeUtf8`).
  - An encoder (`Utf8.EncodeUtf8`) completes the pair; the three are proved
    to agree.
  - `bytes.hex()` is `HexRendering.Hex`, with its inverse `HexRendering.Unhex`.
  - JSON parsing and serialisation are the parameters `loads` and `dumps`.
- **Sensor loops.** Each loop is an imperative method. The loops of
  mqtt_render_pubsub.py and mqtt_sensor_simulator.py are specified by the
  pure functions of module `Sensors`: `RoundRecords`, `Rounds` and
  `SensorPublishes`. The `--sensor` loop of mqtt_publisher.py is specified by
  `Publisher.SeriesRecord` and `Publisher.SeriesCalls`.

What the clients do on the edge cases:

- `connect()` returns False alike on a timeout and on a refused CONNACK.
- `subscribe()` while disconnected returns False and drops the subscription.
- A JSON serialisation error makes `publish_json` return False, as a failed
  publish does.
- The clients do not check a publish topic for wildcards; whatever paho does
  with them is part of the transport's `Reply`.

## Model

| member | source | states |
|---|---|---|
| RenderPubSub.DefaultClientId | mqtt_render_pubsub.py:58 | `client_id or f"python-client-{int(time.time())}"`, the clock reading being `now` (its digits are `str(now)` by `Decimals.Decimal` and `DecimalUnique`) |
| RenderPubSub.RenderBroker.constructor | mqtt_render_pubsub.py:43-61 | defaults admin/password; an absent client id becomes `python-client-<now>`; no client, not connected, count 0, nothing sent |
| RenderPubSub.RenderBroker.OnConnect | mqtt_render_pubsub.py:63-70 | afterwards `connected` holds exactly when rc == 0; client, log and count untouched |
| RenderPubSub.RenderBroker.OnDisconnect | mqtt_render_pubsub.py:72-78 | afterwards `connected` is false for every rc |
| RenderPubSub.RenderBroker.OnMessage | mqtt_render_pubsub.py:89-107 | `message_count` goes up by exactly 1 and is the number shown; the payload is shown as `Payload.Classify` gives; the session state is unchanged |
| RenderPubSub.RenderBroker.Connect | mqtt_render_pubsub.py:111-143 | the new state and result are `Session.Connect`: no client when `mqtt.Client` raises; otherwise a connect call with keepalive 60; True exactly when the flag is set when the wait ends, and then a client exists |
| RenderPubSub.RenderBroker.Publish | mqtt_render_pubsub.py:145-170 | not connected: False and no transport call; connected: True exactly when the reply is MQTT_ERR_SUCCESS; defaults qos 1, retain False |
| RenderPubSub.RenderBroker.PublishJson | mqtt_render_pubsub.py:172-187 | a serialisation failure returns False and changes nothing; otherwise exactly `publish` of the serialised text with the same topic, qos and retain |
| RenderPubSub.RenderBroker.Subscribe | mqtt_render_pubsub.py:189-212 | not connected: False and no transport call; connected: True exactly when `result[0]` is MQTT_ERR_SUCCESS; default qos 1 |
| RenderPubSub.RenderBroker.Disconnect | mqtt_render_pubsub.py:214-219 | a disconnect call is made exactly when a client exists; the flag is left to on_disconnect |
| RenderPubSub.SensorRound | mqtt_render_pubsub.py:284-307 | one round bumps the local counter by the sensor count and, while connected, publishes the records of sensors 1..n, numbered on from the counter, each on `sensors/<id>/data` |
| RenderPubSub.SensorMode | mqtt_render_pubsub.py:279-307 | after r full rounds `sequence == r * sensors`, and the calls made are `SensorPublishes` of `Rounds(r)`; nothing is sent while not connected; the flag, client and count are unchanged |
| Publisher.MqttPublisher.constructor | mqtt_publisher.py:22-39 | client id defaults to `python-publisher`; no client, not connected, nothing sent |
| Publisher.MqttPublisher.OnConnect | mqtt_publisher.py:41-48 | afterwards `connected` holds exactly when rc == 0 |
| Publisher.MqttPublisher.OnDisconnect | mqtt_publisher.py:50-56 | afterwards `connected` is false for every rc |
| Publisher.MqttPublisher.Connect | mqtt_publisher.py:62-91 | new state and result are `Session.Connect`; True only when connected with a client |
| Publisher.MqttPublisher.Publish | mqtt_publisher.py:93-118 | not connected: False and no transport call; connected: True exactly when `result.rc` is MQTT_ERR_SUCCESS; defaults qos 1, retain False |
| Publisher.MqttPublisher.PublishJson | mqtt_publisher.py:120-135 | a serialisation failure returns False and publishes nothing; otherwise exactly `publish` of the serialised text with the same topic, qos and retain |
| Publisher.MqttPublisher.Disconnect | mqtt_publisher.py:137-141 | a disconnect call is made exactly when a client exists |
| Publisher.SeriesRecord | mqtt_publisher.py:171-177 | the k-th `--sensor` record: sensor_001 under the key "id", sequence k |
| Publisher.SeriesCallsAt | mqtt_publisher.py:170-178 | `--sensor` mode makes exactly `count` publishes on the one topic; the k-th carries sensor_001's record with sequence k + 1, qos 1, no retain |
| Publisher.SensorSeries | mqtt_publisher.py:166-178 | the loop's calls are `SeriesCalls(topic, count)` while connected and none otherwise; a count below 1 publishes nothing |
| Simulation.SensorSimulator.constructor | mqtt_sensor_simulator.py:25-43 | client id defaults to `sensor-simulator`; counter 0, no client, not connected |
| Simulation.SensorSimulator.OnConnect | mqtt_sensor_simulator.py:45-52 | afterwards `connected` holds exactly when rc == 0; counter untouched |
| Simulation.SensorSimulator.OnDisconnect | mqtt_sensor_simulator.py:54-58 | afterwards `connected` is false for every rc; counter untouched |
| Simulation.SensorSimulator.Connect | mqtt_sensor_simulator.py:60-88 | new state and result are `Session.Connect`; counter untouched |
| Simulation.SensorSimulator.PublishSensorData | mqtt_sensor_simulator.py:90-134 | the counter goes up by exactly 1 whatever the outcome; the record carries the new counter; it is published on `<topic_base>/<sensor_id>/data` with qos 1; the flag is never consulted; True exactly when a client exists and the reply is MQTT_ERR_SUCCESS |
| Simulation.SensorSimulator.Disconnect | mqtt_sensor_simulator.py:136-140 | a disconnect call is made exactly when a client exists; counter untouched |
| Simulation.SimulatorRound | mqtt_sensor_simulator.py:175-177 | one round publishes sensor_001 .. sensor_n in order, numbered on from the counter, which ends n higher |
| Simulation.SimulatorRounds | mqtt_sensor_simulator.py:172-185 | after r full rounds the counter has gone up by r * sensors, and the calls are `SensorPublishes` of `Rounds(r)` numbered from the old counter |
| Subscriber.MqttSubscriber.constructor | mqtt_subscriber.py:22-40 | client id defaults to `python-subscriber`; count 0, no client, not connected |
| Subscriber.MqttSubscriber.OnConnect | mqtt_subscriber.py:42-49 | afterwards `connected` holds exactly when rc == 0 |
| Subscriber.MqttSubscriber.OnDisconnect | mqtt_subscriber.py:51-57 | afterwards `connected` is false for every rc |
| Subscriber.MqttSubscriber.OnMessage | mqtt_subscriber.py:63-85 | `message_count` goes up by exactly 1; the payload is shown as `Payload.Classify` gives; the session state is unchanged |
| Subscriber.MqttSubscriber.Connect | mqtt_subscriber.py:87-117 | new state and result are `Session.Connect`; count untouched |
| Subscriber.MqttSubscriber.Subscribe | mqtt_subscriber.py:119-142 | not connected: False and no transport call; connected: True exactly when `result[0]` is MQTT_ERR_SUCCESS |
| Subscriber.MqttSubscriber.Disconnect | mqtt_subscriber.py:144-148 | a disconnect call is made exactly when a client exists |
| Subscriber.TopicFilter | mqtt_subscriber.py:181 | the filter main subscribes to: `#` under `--all`, otherwise the given topic |
| Subscriber.StartListening | mqtt_subscriber.py:173-185 | a fresh subscriber with the given host, port and credentials and the id "python-subscriber"; it holds a client unless creating one failed and is connected exactly when the CONNACK code is 0; it listens exactly when the CONNACK code is 0 and the subscribe succeeds; subscribes to `#` under `--all`, else to the topic; a failed subscribe is followed by a disconnect; a failed connect returns with no disconnect |
| Session.OnConnect | mqtt_render_pubsub.py:63-70 | the on_connect step: the flag becomes rc == 0; client and log unchanged (the class methods' `ensures` tie to it, `ConnectedFollowsLastVerdict` builds on it) |
| Session.OnDisconnect | mqtt_render_pubsub.py:72-78 | the on_disconnect step: the flag becomes false whatever rc; client and log unchanged |
| Session.Connect | mqtt_render_pubsub.py:111-143 | the connect() step over the four outcomes: no client when `mqtt.Client` raises; otherwise a client and one connect call with keepalive 60, then the flag as on_connect leaves it; the result is the flag when the wait ends |
| Session.Publish | mqtt_render_pubsub.py:145-170 | the guarded publish step: without the flag or a client, False and no call; otherwise one publish call and True exactly when the reply is MQTT_ERR_SUCCESS |
| Session.PublishUnguarded | mqtt_sensor_simulator.py:118-134 | the simulator's publish step: only a missing client stops the call (the flag is not read); True exactly when the call is made and succeeds |
| Session.Subscribe | mqtt_render_pubsub.py:189-212 | the guarded subscribe step: without the flag or a client, False and no call; otherwise one subscribe call and True exactly when `result[0]` is MQTT_ERR_SUCCESS |
| Session.Disconnect | mqtt_render_pubsub.py:214-219 | the disconnect() step: one disconnect call when a client exists; the flag is left to on_disconnect |
| Session.ConnectedFollowsLastVerdict | mqtt_render_pubsub.py:63-78 | over any sequence of events the flag equals the verdict of the latest CONNACK (true iff code 0) or disconnect, and is untouched by everything else |
| Session.CallLogOnlyGrows | mqtt_render_pubsub.py:111-219 | no operation or callback takes back a transport call: the old log is a prefix of the new |
| Session.NoRequestBeforeAcceptance | mqtt_render_pubsub.py:145-212 | until some CONNACK with code 0 arrives, the flag stays clear and no guarded publish or subscribe call reaches the transport |
| Session.PublishesFollowFlag | mqtt_render_pubsub.py:155-166 | when CONNACKs and disconnects arrive between guarded publishes, the calls that reach the transport are exactly the publishes made while the flag is set, in order (`LivePublishes`); the flag ends as the latest verdict left it |
| Session.UnguardedPublishBeforeAcceptance | mqtt_sensor_simulator.py:118-122 | the simulator's publish is not held back: after a connect with no CONNACK the flag is clear and a publish call has still reached the transport |
| Payload.Classify | mqtt_render_pubsub.py:94-107 | the on_message cascade: decode and parse; when either fails, the inner retry; total for a `loads` that returns a value or raises JSONDecodeError (its tiers are stated by `JsonTier`, `TextTier`, `BinaryTier`) |
| Payload.InnerRetry | mqtt_subscriber.py:79-83 | the inner handler: decode again and show the text, or, when that fails, the hex of the bytes |
| Payload.JsonTier | mqtt_render_pubsub.py:94-99 | a payload that is the UTF-8 form of a text is shown as a parsed value exactly when the text parses, and as that value |
| Payload.TextTier | mqtt_render_pubsub.py:100-104 | a payload that is the UTF-8 form of a text is shown as that text exactly when it does not parse |
| Payload.BinaryTier | mqtt_subscriber.py:73-83 | a payload is shown as hex exactly when it is not valid UTF-8, and the hex is that of all its bytes; no decoding error escapes |
| Payload.ClassifyLosesNothing | mqtt_render_pubsub.py:100-107 | what is shown determines the payload: the text re-encodes to it, the hex reads back to it |
| Payload.PublishedJsonArrivesStructured | mqtt_render_pubsub.py:183-184 | a JSON text published by publish_json is shown by the receiving on_message as the serialised value whenever parsing the serialisation gives it back |
| Utf8.DecodeUtf8 | mqtt_render_pubsub.py:96 | strict `decode('utf-8')`: the text, or None where Python raises UnicodeDecodeError (characterised by `DecodeSucceedsIffValid` and `EncodeOfDecode`) |
| Utf8.EncodeUtf8 | mqtt_render_pubsub.py:183-184 | the UTF-8 form in which a published str travels; inverse to `DecodeUtf8` by `DecodeOfEncode` and `EncodeOfDecode` |
| Utf8.DecodeSucceedsIffValid | mqtt_render_pubsub.py:96 | `decode('utf-8')` succeeds exactly on byte strings well formed under section 4 of RFC 3629 |
| Utf8.DecodeFirstMatchesGrammar | mqtt_render_pubsub.py:96 | the decoder accepts a first character exactly where the RFC 3629 grammar does, with the same length |
| Utf8.DecodeOfEncode | mqtt_render_pubsub.py:96 | decoding the UTF-8 form of any string gives the string back |
| Utf8.EncodeOfDecode | mqtt_render_pubsub.py:104 | a successful decode re-encodes to the original bytes |
| Utf8.ValidIffEncoding | mqtt_subscriber.py:75 | the well-formed byte strings are exactly the UTF-8 forms of strings |
| HexRendering.Hex | mqtt_render_pubsub.py:107 | `bytes.hex()` gives two lowercase hex digits per byte |
| HexRendering.UnhexOfHex | mqtt_render_pubsub.py:107 | reading the hex rendering back gives the bytes |
| HexRendering.HexOfUnhex | mqtt_subscriber.py:83 | every string that reads back to bytes (an even number of lowercase hex digits) is the rendering of those bytes |
| Decimals.Decimal | mqtt_render_pubsub.py:58 | `str(n)` is a non-empty string of decimal digits with no leading zero unless n is 0 |
| Decimals.DecimalUnique | mqtt_render_pubsub.py:58 | any digit string without a leading zero (or the single digit 0) that denotes n is exactly `str(n)` |
| Decimals.ZeroPad | mqtt_render_pubsub.py:286 | the `03d` format spec: zeros in front up to the width, a wider string left alone (value and width by `PaddedValue`) |
| Decimals.DigitsValueOfDecimal | mqtt_render_pubsub.py:58 | `str(n)` reads back to n |
| Decimals.PaddedValue | mqtt_render_pubsub.py:286 | `{i:03d}` gives digits denoting i, at least three of them |
| Decimals.DecimalBelowThousand | mqtt_sensor_simulator.py:176 | indices below 1000 need no more than three digits |
| Sensors.SensorId | mqtt_render_pubsub.py:286 | `f"sensor_{i:03d}"` (read back by `ParseSensorIdOfSensorId`, injective by `SensorIdsDistinct`) |
| Sensors.SensorTopic | mqtt_sensor_simulator.py:118 | `f"{topic_base}/{sensor_id}/data"` (injective in the id by `SensorTopicsDistinct`) |
| Sensors.ParseSensorIdOfSensorId | mqtt_render_pubsub.py:286 | the index can be read back out of `sensor_<i:03d>` |
| Sensors.SensorIdsDistinct | mqtt_sensor_simulator.py:176 | distinct sensors get distinct ids |
| Sensors.SensorIdWidth | mqtt_render_pubsub.py:286 | below 1000 an id is `sensor_` and exactly three digits |
| Sensors.SensorTopicsDistinct | mqtt_sensor_simulator.py:118 | distinct ids under one base give distinct topics |
| Sensors.RoundRecordsAt | mqtt_render_pubsub.py:284-299 | within a round the j-th publish is sensor j + 1's, with sequence first + j + 1 |
| Sensors.RoundRecordsLength | mqtt_sensor_simulator.py:175-177 | a round over n sensors makes n records |
| Sensors.RoundsNumbering | mqtt_render_pubsub.py:280-285 | after r rounds over s sensors there were r * s publishes, numbered consecutively from first + 1 |
| Sensors.RoundsPrefix | mqtt_render_pubsub.py:282-307 | earlier rounds are a prefix of later ones |
| Sensors.RoundsAt | mqtt_sensor_simulator.py:173-177 | round q publishes sensor j + 1 at position q * s + j, with sequence first + q * s + j + 1 |
| Sensors.SensorPublishesAt | mqtt_render_pubsub.py:306-307 | the k-th call publishes the k-th record on its sensor's topic with qos 1 and no retain |
| Sensors.SensorPublishesLength | mqtt_sensor_simulator.py:118-122 | one call per record |
| Sensors.RoundsCallAt | mqtt_render_pubsub.py:282-307 | the publish at position k = q * s + j goes to `<base>/sensor_<j+1>/data` and carries sensor j + 1's id and sequence first + k + 1 |
| Sensors.IterationsLeastAbove | mqtt_publisher.py:170 | `Iterations(n)`, the number of passes of `range(n)` (and of `range(1, n + 1)` at mqtt_render_pubsub.py:284): n for a positive count, none for a zero or negative one |

## Left out

- paho-mqtt itself (`mqtt.Client`, the network): only connect, publish, subscribe and disconnect are log entries. Publish and subscribe take a `Reply` parameter (a return code, or `Raised`); connect takes a `Session.ConnectOutcome`; disconnect takes neither. `username_pw_set`, `loop_start` and `loop_stop` are not logged; credentials are recorded in the configuration only.
- The 5-second busy-wait in `connect()`: only its outcome is modelled (`Session.ConnectOutcome`). A CONNACK followed by a loss within the wait has the same effect as a refused CONNACK. A CONNACK arriving after the wait is a separate `OnConnect` call.
- Threads: paho's network thread delivers callbacks concurrently with the foreground. The model takes callbacks and operations one at a time, in some order.
- Payload.Classify: any exception of `json.loads` other than JSONDecodeError escapes `on_message` in the source (after `message_count` was bumped) and is not modelled, since `loads` returns a value or None: RecursionError on deeply nested input, ValueError on integer literals over the interpreter's digit limit.
- JSON: `json.loads` and `json.dumps` are the parameters `loads` and `dumps`. `indent=2` pretty-printing is output only.
- Sensor readings in mqtt_render_pubsub.py and mqtt_sensor_simulator.py: temperature, humidity, pressure and battery come from `random`, `math.sin`/`math.cos` and float `round`. The timestamps come from `datetime.now()`. A sensor record keeps only its id key, id and sequence number.
- Publisher.SeriesRecord: the `--sensor` records of mqtt_publisher.py carry temperature `20.5 + i*0.5` and humidity `45.0 + i*1.2`, floats with no pressure or battery field; the record drops these two fields, because floating-point values are not modelled, and keeps the id key, id and sequence.
- `on_publish` and `on_subscribe` only print. So do the messages of every other method, and the timestamps of `on_message`.
- argparse and the rest of each `main`, `input()` loops and listening loops: `mode_publish`, `mode_subscribe`, `mode_interactive`, `keep_listening`, the interactive mode of mqtt_publisher.py, and the `--duration` and `--interval` timing.
- RenderPubSub.SensorRound, RenderPubSub.SensorMode, Publisher.SensorSeries, Subscriber.StartListening: their contracts describe runs in which no `on_connect` or `on_disconnect` arrives during the loop, so the flag is the same for every publish and the calls are all or none. In the source the loop sleeps after each round (mqtt_render_pubsub.py) or each message (mqtt_publisher.py), and paho's thread may drop or re-establish the session meanwhile; such a run is covered one publish at a time by `Session.PublishesFollowFlag`, which says that only the publishes made while the flag is set reach the transport. Likewise `Subscriber.StartListening` assumes no `on_disconnect` arrives between connect() returning True and the subscribe.
- RenderPubSub.SensorMode, Simulation.SimulatorRounds, Publisher.SensorSeries: only complete runs are modelled (whole rounds; all `count` messages). A Ctrl+C part-way leaves a prefix of the modelled calls; it and the final disconnect are not modelled.
- RenderPubSub.RenderBroker.constructor: `int(time.time())` is the parameter `now`. A `None` client id is the empty string, which Python's `or` treats the same way.
- Topic-filter wildcard matching, a subscription registry, queued subscribes, reconnection, and a result that tells a timeout from a refused connection: none of the four files has them.
