/**
 * mqtt_sensor_simulator.py: the SensorSimulator client (connect, callbacks,
 * publish_sensor_data with its persistent sequence counter) and the rounds
 * of its main loop, each visiting sensor_001 .. in order.
 */
module Simulation {
  import opened Transport
  import Session
  import opened Sensors

  class SensorSimulator {
    const config: Config
    var hasClient: bool
    var connected: bool
    var sequence: nat
    var calls: seq<Call>

    /** The session guard's part of the state. */
    function Link(): Session.Link
      reads this
    {
      Session.Link(hasClient, connected, calls)
    }

    constructor (host: string, port: int, username: string, password: string,
                 clientId: string := "sensor-simulator")
      ensures config == Config(host, port, username, password, clientId)
      ensures Link() == Session.Initial && sequence == 0
    {
      config := Config(host, port, username, password, clientId);
      hasClient, connected, sequence, calls := false, false, 0, [];
    }

    /** on_connect: the flag is set exactly when the CONNACK code is 0. */
    method OnConnect(rc: int)
      modifies this
      ensures connected <==> rc == ConnectionAccepted
      ensures Link() == Session.OnConnect(old(Link()), rc)
      ensures sequence == old(sequence)
    {
      connected := rc == ConnectionAccepted;
    }

    /** on_disconnect: the flag is cleared whatever the code. */
    method OnDisconnect(rc: int)
      modifies this
      ensures !connected
      ensures Link() == Session.OnDisconnect(old(Link()), rc)
      ensures sequence == old(sequence)
    {
      connected := false;
    }

    /** connect(): create the client, connect, wait for the CONNACK; succeeds
        exactly when the flag is set when the wait ends. */
    method Connect(outcome: Session.ConnectOutcome) returns (ok: bool)
      modifies this
      ensures (Link(), ok) == Session.Connect(old(Link()), config, outcome)
      ensures ok ==> connected && hasClient
      ensures sequence == old(sequence)
    {
      if outcome.ClientFailed? {
        return false;
      }
      hasClient := true;
      calls := calls + [ConnectCall(config, KeepaliveSeconds)];
      match outcome
      case OpenFailed =>
        ok := false;
      case Acked(rc) =>
        OnConnect(rc);
        ok := connected;
      case NoAck =>
        ok := connected;
    }

    /** publish_sensor_data(): bumps the counter first, whatever follows; then
        publishes the JSON record carrying the new counter on
        `<topic_base>/<sensor_id>/data` with QoS 1. The flag is never looked
        at: only a missing client object (the AttributeError is caught) stops
        the call from reaching the transport. */
    method PublishSensorData(sensorId: string, dumps: SensorRecord -> string, reply: Reply,
                             topicBase: string := "sensors")
      returns (ok: bool)
      modifies this
      ensures sequence == old(sequence) + 1
      ensures (Link(), ok)
           == Session.PublishUnguarded(old(Link()), SensorTopic(topicBase, sensorId),
                                       dumps(SensorRecord("sensor_id", sensorId, sequence)), DefaultQos, false, reply)
      ensures ok <==> old(hasClient) && Succeeded(reply)
      ensures calls == old(calls) +
                (if old(hasClient)
                 then [PublishCall(SensorTopic(topicBase, sensorId), dumps(SensorRecord("sensor_id", sensorId, sequence)),
                                   DefaultQos, false)]
                 else [])
      ensures connected == old(connected) && hasClient == old(hasClient)
    {
      sequence := sequence + 1;
      var topic := SensorTopic(topicBase, sensorId);
      var message := dumps(SensorRecord("sensor_id", sensorId, sequence));
      if !hasClient {
        return false;
      }
      calls := calls + [PublishCall(topic, message, DefaultQos, false)];
      ok := reply == Returned(MqttErrSuccess);
    }

    /** disconnect(): stops the loop and disconnects the client, if any. */
    method Disconnect()
      modifies this
      ensures Link() == Session.Disconnect(old(Link()))
      ensures sequence == old(sequence)
    {
      if hasClient {
        calls := calls + [DisconnectCall];
      }
    }
  }

  /** One round of main: sensors 1 .. n in order, each publishing through
      publish_sensor_data. `replies(k)` is the transport's reply to the
      publish numbered k + 1. */
  method SimulatorRound(sim: SensorSimulator, n: nat, topicBase: string, dumps: SensorRecord -> string,
                        replies: nat -> Reply)
    modifies sim
    ensures sim.sequence == old(sim.sequence) + n
    ensures sim.calls == old(sim.calls) +
              (if old(sim.hasClient)
               then SensorPublishes(topicBase, RoundRecords("sensor_id", n, old(sim.sequence)), dumps)
               else [])
    ensures sim.connected == old(sim.connected) && sim.hasClient == old(sim.hasClient)
  {
    ghost var live := sim.hasClient;
    ghost var before := sim.calls;
    ghost var first := sim.sequence;
    for i := 1 to n + 1
      invariant sim.sequence == first + i - 1
      invariant sim.connected == old(sim.connected) && sim.hasClient == old(sim.hasClient)
      invariant sim.calls == before +
                  (if live then SensorPublishes(topicBase, RoundRecords("sensor_id", i - 1, first), dumps) else [])
    {
      ghost var prior := sim.calls;
      var ok := sim.PublishSensorData(SensorId(i), dumps, replies(sim.sequence), topicBase);
      NextSensorLog(before, prior, sim.calls, live, topicBase, "sensor_id", i, first, dumps);
    }
  }

  /** The while loop of main, for `rounds` full rounds over `sensors` sensors
      (`range(1, sensors + 1)` is empty for a count below 1). */
  method SimulatorRounds(sim: SensorSimulator, sensors: int, rounds: nat, topicBase: string,
                         dumps: SensorRecord -> string, replies: nat -> Reply)
    modifies sim
    ensures sim.sequence == old(sim.sequence) + rounds * Iterations(sensors)
    ensures sim.calls == old(sim.calls) +
              (if old(sim.hasClient)
               then SensorPublishes(topicBase, Rounds("sensor_id", rounds, Iterations(sensors), old(sim.sequence)), dumps)
               else [])
    ensures sim.connected == old(sim.connected) && sim.hasClient == old(sim.hasClient)
  {
    ghost var live := sim.hasClient;
    ghost var before := sim.calls;
    ghost var first := sim.sequence;
    var n := Iterations(sensors);
    var round := 0;
    while round < rounds
      invariant round <= rounds
      invariant sim.sequence == first + round * n
      invariant sim.connected == old(sim.connected) && sim.hasClient == old(sim.hasClient)
      invariant sim.calls == before +
                  (if live then SensorPublishes(topicBase, Rounds("sensor_id", round, n, first), dumps) else [])
    {
      ghost var prior := sim.calls;
      ghost var start := sim.sequence;
      SimulatorRound(sim, n, topicBase, dumps, replies);
      NextRoundLog(before, prior, sim.calls, live, topicBase, "sensor_id", round, n, first, start, dumps);
      round := round + 1;
    }
  }
}
