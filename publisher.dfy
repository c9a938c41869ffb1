/**
 * mqtt_publisher.py: the MQTTPublisher client (connect, callbacks, guarded
 * publish, publish_json) and the publishing loop of its `--sensor` mode,
 * which sends `count` JSON records for one fixed sensor on one topic.
 */
module Publisher {
  import opened Wrappers
  import opened Transport
  import Session
  import opened Sensors

  class MqttPublisher {
    const config: Config
    var hasClient: bool
    var connected: bool
    var calls: seq<Call>

    /** The session guard's part of the state. */
    function Link(): Session.Link
      reads this
    {
      Session.Link(hasClient, connected, calls)
    }

    constructor (host: string, port: int, username: string, password: string,
                 clientId: string := "python-publisher")
      ensures config == Config(host, port, username, password, clientId)
      ensures Link() == Session.Initial
    {
      config := Config(host, port, username, password, clientId);
      hasClient, connected, calls := false, false, [];
    }

    /** on_connect: the flag is set exactly when the CONNACK code is 0. */
    method OnConnect(rc: int)
      modifies this
      ensures connected <==> rc == ConnectionAccepted
      ensures Link() == Session.OnConnect(old(Link()), rc)
    {
      connected := rc == ConnectionAccepted;
    }

    /** on_disconnect: the flag is cleared whatever the code. */
    method OnDisconnect(rc: int)
      modifies this
      ensures !connected
      ensures Link() == Session.OnDisconnect(old(Link()), rc)
    {
      connected := false;
    }

    /** connect(): create the client, connect, wait for the CONNACK; succeeds
        exactly when the flag is set when the wait ends. */
    method Connect(outcome: Session.ConnectOutcome) returns (ok: bool)
      modifies this
      ensures (Link(), ok) == Session.Connect(old(Link()), config, outcome)
      ensures ok ==> connected && hasClient
    {
      if outcome.ClientFailed? {
        return false;
      }
      hasClient := true;
      calls := calls + [ConnectCall(config, KeepaliveSeconds)];
      match outcome
      case OpenFailed =>
        ok := false;
      case Acked(rc) =>
        OnConnect(rc);
        ok := connected;
      case NoAck =>
        ok := connected;
    }

    /** publish(): fails fast while not connected; otherwise hands the message
        to the transport and succeeds exactly when it returns MQTT_ERR_SUCCESS. */
    method Publish(topic: string, message: string, reply: Reply, qos: int := DefaultQos, retain: bool := false)
      returns (ok: bool)
      modifies this
      ensures (Link(), ok) == Session.Publish(old(Link()), topic, message, qos, retain, reply)
      ensures !old(connected) ==> !ok && calls == old(calls)
      ensures ok <==> old(connected) && old(hasClient) && Succeeded(reply)
      ensures calls == old(calls) + (if old(connected && hasClient) then [PublishCall(topic, message, qos, retain)] else [])
    {
      if !connected {
        return false;
      }
      if !hasClient {
        return false;
      }
      calls := calls + [PublishCall(topic, message, qos, retain)];
      ok := reply == Returned(MqttErrSuccess);
    }

    /** publish_json(): serialises `data` and publishes the text with the same
        topic, QoS and retain; a serialisation error returns False and
        publishes nothing. */
    method PublishJson<V>(topic: string, data: V, dumps: V -> Option<string>, reply: Reply,
                          qos: int := DefaultQos, retain: bool := false)
      returns (ok: bool)
      modifies this
      ensures dumps(data).None? ==> !ok && Link() == old(Link())
      ensures dumps(data).Some? ==>
                (Link(), ok) == Session.Publish(old(Link()), topic, dumps(data).value, qos, retain, reply)
      ensures dumps(data).Some? ==>
                calls == old(calls) +
                  (if old(connected && hasClient) then [PublishCall(topic, dumps(data).value, qos, retain)] else [])
      ensures connected == old(connected) && hasClient == old(hasClient)
    {
      match dumps(data)
      case None =>
        ok := false;
      case Some(message) =>
        ok := Publish(topic, message, reply, qos, retain);
    }

    /** disconnect(): stops the loop and disconnects the client, if any. */
    method Disconnect()
      modifies this
      ensures Link() == Session.Disconnect(old(Link()))
    {
      if hasClient {
        calls := calls + [DisconnectCall];
      }
    }
  }

  /** The record of the k-th message of `--sensor` mode (from 1): always
      sensor_001, stored under the key "id", with sequence number k. */
  function SeriesRecord(k: nat): SensorRecord {
    SensorRecord("id", "sensor_001", k)
  }

  /** The transport calls of the first `count` messages of `--sensor` mode,
      all on one topic with QoS 1 and no retain. */
  function SeriesCalls(topic: string, count: nat, dumps: SensorRecord -> string): seq<Call>
    decreases count
  {
    if count == 0 then []
    else SeriesCalls(topic, count - 1, dumps) + [PublishCall(topic, dumps(SeriesRecord(count)), DefaultQos, false)]
  }

  /** Exactly `count` publishes, the k-th (from 0) carrying sequence number
      k + 1: the sequence fields run 1 .. count in order. */
  lemma {:induction false} SeriesCallsAt(topic: string, count: nat, dumps: SensorRecord -> string, k: nat)
    requires k < count
    ensures |SeriesCalls(topic, count, dumps)| == count
    ensures SeriesCalls(topic, count, dumps)[k] == PublishCall(topic, dumps(SeriesRecord(k + 1)), DefaultQos, false)
    decreases count
  {
    SeriesCallsLength(topic, count - 1, dumps);
    if k < count - 1 {
      SeriesCallsAt(topic, count - 1, dumps, k);
    }
  }

  lemma {:induction false} SeriesCallsLength(topic: string, count: nat, dumps: SensorRecord -> string)
    ensures |SeriesCalls(topic, count, dumps)| == count
    decreases count
  {
    if count > 0 {
      SeriesCallsLength(topic, count - 1, dumps);
    }
  }

  /** The loop of `--sensor` mode: `count` calls of publish_json with the
      default QoS and retain. `replies(i)` is the transport's reply to the
      (i+1)-th publish; `range(count)` is empty for a count below 1. */
  method SensorSeries(publisher: MqttPublisher, topic: string, count: int, dumps: SensorRecord -> string,
                      replies: nat -> Reply)
    modifies publisher
    ensures publisher.calls == old(publisher.calls) +
              (if old(publisher.connected && publisher.hasClient)
               then SeriesCalls(topic, Iterations(count), dumps)
               else [])
    ensures publisher.connected == old(publisher.connected) && publisher.hasClient == old(publisher.hasClient)
  {
    ghost var live := publisher.connected && publisher.hasClient;
    ghost var before := publisher.calls;
    var serialize := (r: SensorRecord) => Some(dumps(r));
    for i := 0 to Iterations(count)
      invariant publisher.connected == old(publisher.connected) && publisher.hasClient == old(publisher.hasClient)
      invariant publisher.calls == before + (if live then SeriesCalls(topic, i, dumps) else [])
    {
      var record := SeriesRecord(i + 1);
      assert serialize(record) == Some(dumps(record));
      var ok := publisher.PublishJson(topic, record, serialize, replies(i));
    }
  }
}
