/**
 * mqtt_render_pubsub.py: the MQTTRenderBroker client (connect, callbacks,
 * guarded publish and subscribe, the decoding cascade of on_message) and the
 * publishing loop of its sensor mode.
 */
module RenderPubSub {
  import opened Wrappers
  import opened Transport
  import Session
  import Payload
  import opened Decimals
  import opened Sensors

  /** `client_id or f"python-client-{int(time.time())}"`, the clock reading
      being `now`; an absent client id is the empty string here. */
  function DefaultClientId(clientId: string, now: nat): string {
    if clientId == "" then "python-client-" + Decimal(now) else clientId
  }

  class RenderBroker {
    const config: Config
    var hasClient: bool
    var connected: bool
    var messageCount: nat
    var calls: seq<Call>

    /** The session guard's part of the state. */
    function Link(): Session.Link
      reads this
    {
      Session.Link(hasClient, connected, calls)
    }

    constructor (host: string, port: int, now: nat, username: string := "admin",
                 password: string := "password", clientId: string := "")
      ensures config == Config(host, port, username, password, DefaultClientId(clientId, now))
      ensures Link() == Session.Initial && messageCount == 0
    {
      config := Config(host, port, username, password, DefaultClientId(clientId, now));
      hasClient, connected, messageCount, calls := false, false, 0, [];
    }

    /** on_connect: the flag is set exactly when the CONNACK code is 0. */
    method OnConnect(rc: int)
      modifies this
      ensures connected <==> rc == ConnectionAccepted
      ensures Link() == Session.OnConnect(old(Link()), rc)
      ensures messageCount == old(messageCount)
    {
      connected := rc == ConnectionAccepted;
    }

    /** on_disconnect: the flag is cleared whatever the code. */
    method OnDisconnect(rc: int)
      modifies this
      ensures !connected
      ensures Link() == Session.OnDisconnect(old(Link()), rc)
      ensures messageCount == old(messageCount)
    {
      connected := false;
    }

    /** on_message: counts the message and classifies its payload; returns the
        message number and what is printed for the payload. */
    method OnMessage<V>(topic: string, payload: seq<Byte>, loads: string -> Option<V>)
      returns (number: nat, shown: Payload.Rendering<V>)
      modifies this
      ensures messageCount == old(messageCount) + 1 && number == messageCount
      ensures shown == Payload.Classify(payload, loads)
      ensures Link() == old(Link())
    {
      messageCount := messageCount + 1;
      number := messageCount;
      shown := Payload.Classify(payload, loads);
    }

    /** connect(): create the client, connect, wait for the CONNACK; succeeds
        exactly when the flag is set when the wait ends. */
    method Connect(outcome: Session.ConnectOutcome) returns (ok: bool)
      modifies this
      ensures (Link(), ok) == Session.Connect(old(Link()), config, outcome)
      ensures ok ==> connected && hasClient
      ensures messageCount == old(messageCount)
    {
      if outcome.ClientFailed? {
        return false;
      }
      hasClient := true;
      calls := calls + [ConnectCall(config, KeepaliveSeconds)];
      match outcome
      case OpenFailed =>
        ok := false;
      case Acked(rc) =>
        OnConnect(rc);
        ok := connected;
      case NoAck =>
        ok := connected;
    }

    /** publish(): fails fast while not connected; otherwise hands the message
        to the transport and succeeds exactly when it returns MQTT_ERR_SUCCESS. */
    method Publish(topic: string, message: string, reply: Reply, qos: int := DefaultQos, retain: bool := false)
      returns (ok: bool)
      modifies this
      ensures (Link(), ok) == Session.Publish(old(Link()), topic, message, qos, retain, reply)
      ensures !old(connected) ==> !ok && calls == old(calls)
      ensures ok <==> old(connected) && old(hasClient) && Succeeded(reply)
      ensures calls == old(calls) + (if old(connected && hasClient) then [PublishCall(topic, message, qos, retain)] else [])
      ensures messageCount == old(messageCount)
    {
      if !connected {
        return false;
      }
      if !hasClient {
        return false;
      }
      calls := calls + [PublishCall(topic, message, qos, retain)];
      ok := reply == Returned(MqttErrSuccess);
    }

    /** publish_json(): serialises `data` and publishes the text with the same
        topic, QoS and retain; a serialisation error returns False and
        publishes nothing. */
    method PublishJson<V>(topic: string, data: V, dumps: V -> Option<string>, reply: Reply,
                          qos: int := DefaultQos, retain: bool := false)
      returns (ok: bool)
      modifies this
      ensures dumps(data).None? ==> !ok && Link() == old(Link())
      ensures dumps(data).Some? ==>
                (Link(), ok) == Session.Publish(old(Link()), topic, dumps(data).value, qos, retain, reply)
      ensures dumps(data).Some? ==>
                calls == old(calls) +
                  (if old(connected && hasClient) then [PublishCall(topic, dumps(data).value, qos, retain)] else [])
      ensures connected == old(connected) && hasClient == old(hasClient)
      ensures messageCount == old(messageCount)
    {
      match dumps(data)
      case None =>
        ok := false;
      case Some(message) =>
        ok := Publish(topic, message, reply, qos, retain);
    }

    /** subscribe(): fails fast while not connected; otherwise succeeds exactly
        when the first element of the transport's reply is MQTT_ERR_SUCCESS. */
    method Subscribe(topic: string, reply: Reply, qos: int := DefaultQos) returns (ok: bool)
      modifies this
      ensures (Link(), ok) == Session.Subscribe(old(Link()), topic, qos, reply)
      ensures !old(connected) ==> !ok && calls == old(calls)
      ensures ok <==> old(connected) && old(hasClient) && Succeeded(reply)
      ensures messageCount == old(messageCount)
    {
      if !connected {
        return false;
      }
      if !hasClient {
        return false;
      }
      calls := calls + [SubscribeCall(topic, qos)];
      ok := reply == Returned(MqttErrSuccess);
    }

    /** disconnect(): stops the loop and disconnects the client, if any. */
    method Disconnect()
      modifies this
      ensures Link() == Session.Disconnect(old(Link()))
      ensures messageCount == old(messageCount)
    {
      if hasClient {
        calls := calls + [DisconnectCall];
      }
    }
  }

  /** One round of mode_sensor: sensors 1 .. sensors in order, each bumping
      the counter and publishing its JSON record on `sensors/<sensor_id>/data`.
      `replies(k)` is the transport's reply to the (k+1)-th publish. */
  method SensorRound(broker: RenderBroker, sensors: nat, first: nat, dumps: SensorRecord -> string,
                     replies: nat -> Reply)
    returns (sequence: nat)
    modifies broker
    ensures sequence == first + sensors
    ensures broker.calls == old(broker.calls) +
              (if old(broker.connected && broker.hasClient)
               then SensorPublishes("sensors", RoundRecords("sensor_id", sensors, first), dumps)
               else [])
    ensures broker.connected == old(broker.connected) && broker.hasClient == old(broker.hasClient)
    ensures broker.messageCount == old(broker.messageCount)
  {
    ghost var live := broker.connected && broker.hasClient;
    ghost var before := broker.calls;
    var serialize := (r: SensorRecord) => Some(dumps(r));
    sequence := first;
    for i := 1 to sensors + 1
      invariant sequence == first + i - 1
      invariant broker.connected == old(broker.connected) && broker.hasClient == old(broker.hasClient)
      invariant broker.messageCount == old(broker.messageCount)
      invariant broker.calls == before +
                  (if live then SensorPublishes("sensors", RoundRecords("sensor_id", i - 1, first), dumps) else [])
    {
      sequence := sequence + 1;
      var sensorId := SensorId(i);
      var record := SensorRecord("sensor_id", sensorId, sequence);
      var topic := SensorTopic("sensors", sensorId);
      ghost var prior := broker.calls;
      assert serialize(record) == Some(dumps(record));
      var ok := broker.PublishJson(topic, record, serialize, replies(sequence - 1));
      NextSensorLog(before, prior, broker.calls, live, "sensors", "sensor_id", i, first, dumps);
    }
  }

  /** The publishing loop of mode_sensor, for `rounds` full rounds; the local
      counter starts at 0. `range(1, sensors + 1)` is empty for a count below 1. */
  method SensorMode(broker: RenderBroker, sensors: int, rounds: nat, dumps: SensorRecord -> string,
                    replies: nat -> Reply)
    returns (sequence: nat)
    modifies broker
    ensures sequence == rounds * Iterations(sensors)
    ensures broker.calls == old(broker.calls) +
              (if old(broker.connected && broker.hasClient)
               then SensorPublishes("sensors", Rounds("sensor_id", rounds, Iterations(sensors), 0), dumps)
               else [])
    ensures broker.connected == old(broker.connected) && broker.hasClient == old(broker.hasClient)
    ensures broker.messageCount == old(broker.messageCount)
  {
    ghost var live := broker.connected && broker.hasClient;
    ghost var before := broker.calls;
    var n := Iterations(sensors);
    sequence := 0;
    var round := 0;
    while round < rounds
      invariant round <= rounds
      invariant sequence == round * n
      invariant broker.connected == old(broker.connected) && broker.hasClient == old(broker.hasClient)
      invariant broker.messageCount == old(broker.messageCount)
      invariant broker.calls == before +
                  (if live then SensorPublishes("sensors", Rounds("sensor_id", round, n, 0), dumps) else [])
    {
      ghost var prior := broker.calls;
      ghost var start := sequence;
      sequence := SensorRound(broker, n, sequence, dumps, replies);
      NextRoundLog(before, prior, broker.calls, live, "sensors", "sensor_id", round, n, 0, start, dumps);
      round := round + 1;
    }
  }
}
