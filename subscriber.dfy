/**
 * mqtt_subscriber.py: the MQTTSubscriber client (connect, callbacks, the
 * decoding cascade of on_message, guarded subscribe) and the start of its
 * main: connect, choose the topic filter, subscribe, and give up with a
 * disconnect when the subscribe fails.
 */
module Subscriber {
  import opened Wrappers
  import opened Transport
  import Session
  import Payload

  class MqttSubscriber {
    const config: Config
    var hasClient: bool
    var connected: bool
    var messageCount: nat
    var calls: seq<Call>

    /** The session guard's part of the state. */
    function Link(): Session.Link
      reads this
    {
      Session.Link(hasClient, connected, calls)
    }

    constructor (host: string, port: int, username: string, password: string,
                 clientId: string := "python-subscriber")
      ensures config == Config(host, port, username, password, clientId)
      ensures Link() == Session.Initial && messageCount == 0
    {
      config := Config(host, port, username, password, clientId);
      hasClient, connected, messageCount, calls := false, false, 0, [];
    }

    /** on_connect: the flag is set exactly when the CONNACK code is 0. */
    method OnConnect(rc: int)
      modifies this
      ensures connected <==> rc == ConnectionAccepted
      ensures Link() == Session.OnConnect(old(Link()), rc)
      ensures messageCount == old(messageCount)
    {
      connected := rc == ConnectionAccepted;
    }

    /** on_disconnect: the flag is cleared whatever the code. */
    method OnDisconnect(rc: int)
      modifies this
      ensures !connected
      ensures Link() == Session.OnDisconnect(old(Link()), rc)
      ensures messageCount == old(messageCount)
    {
      connected := false;
    }

    /** on_message: counts the message and classifies its payload; returns the
        message number and what is printed for the payload. */
    method OnMessage<V>(topic: string, payload: seq<Byte>, loads: string -> Option<V>)
      returns (number: nat, shown: Payload.Rendering<V>)
      modifies this
      ensures messageCount == old(messageCount) + 1 && number == messageCount
      ensures shown == Payload.Classify(payload, loads)
      ensures Link() == old(Link())
    {
      messageCount := messageCount + 1;
      number := messageCount;
      shown := Payload.Classify(payload, loads);
    }

    /** connect(): create the client, connect, wait for the CONNACK; succeeds
        exactly when the flag is set when the wait ends. */
    method Connect(outcome: Session.ConnectOutcome) returns (ok: bool)
      modifies this
      ensures (Link(), ok) == Session.Connect(old(Link()), config, outcome)
      ensures ok ==> connected && hasClient
      ensures messageCount == old(messageCount)
    {
      if outcome.ClientFailed? {
        return false;
      }
      hasClient := true;
      calls := calls + [ConnectCall(config, KeepaliveSeconds)];
      match outcome
      case OpenFailed =>
        ok := false;
      case Acked(rc) =>
        OnConnect(rc);
        ok := connected;
      case NoAck =>
        ok := connected;
    }

    /** subscribe(): fails fast while not connected; otherwise succeeds exactly
        when the first element of the transport's reply is MQTT_ERR_SUCCESS. */
    method Subscribe(topic: string, reply: Reply, qos: int := DefaultQos) returns (ok: bool)
      modifies this
      ensures (Link(), ok) == Session.Subscribe(old(Link()), topic, qos, reply)
      ensures !old(connected) ==> !ok && calls == old(calls)
      ensures ok <==> old(connected) && old(hasClient) && Succeeded(reply)
      ensures messageCount == old(messageCount)
    {
      if !connected {
        return false;
      }
      if !hasClient {
        return false;
      }
      calls := calls + [SubscribeCall(topic, qos)];
      ok := reply == Returned(MqttErrSuccess);
    }

    /** disconnect(): stops the loop and disconnects the client, if any. */
    method Disconnect()
      modifies this
      ensures Link() == Session.Disconnect(old(Link()))
      ensures messageCount == old(messageCount)
    {
      if hasClient {
        calls := calls + [DisconnectCall];
      }
    }
  }

  /** The filter main subscribes to: every topic ("#") under `--all`, else the
      given topic. */
  function TopicFilter(topic: string, all: bool): string {
    if all then "#" else topic
  }

  /** main up to the listening loop: a fresh subscriber connects (main returns
      at once when that fails), subscribes to the chosen filter, and
      disconnects and returns when the subscribe fails. `listening` says
      whether main goes on to listen. */
  method StartListening(host: string, port: int, username: string, password: string, topic: string, all: bool,
                        qos: int, outcome: Session.ConnectOutcome, reply: Reply)
    returns (subscriber: MqttSubscriber, listening: bool)
    ensures fresh(subscriber)
    ensures subscriber.config == Config(host, port, username, password, "python-subscriber")
    ensures subscriber.hasClient <==> !outcome.ClientFailed?
    ensures subscriber.connected <==> outcome == Session.Acked(ConnectionAccepted)
    ensures listening <==> outcome == Session.Acked(ConnectionAccepted) && Succeeded(reply)
    ensures listening ==> subscriber.connected
    ensures subscriber.calls ==
              if outcome.ClientFailed? then []
              else if outcome != Session.Acked(ConnectionAccepted) then [ConnectCall(subscriber.config, KeepaliveSeconds)]
              else if Succeeded(reply)
              then [ConnectCall(subscriber.config, KeepaliveSeconds), SubscribeCall(TopicFilter(topic, all), qos)]
              else [ConnectCall(subscriber.config, KeepaliveSeconds), SubscribeCall(TopicFilter(topic, all), qos),
                    DisconnectCall]
    ensures subscriber.messageCount == 0
  {
    subscriber := new MqttSubscriber(host, port, username, password);
    var connected := subscriber.Connect(outcome);
    if !connected {
      return subscriber, false;
    }
    var filter := TopicFilter(topic, all);
    listening := subscriber.Subscribe(filter, reply, qos);
    if !listening {
      subscriber.Disconnect();
    }
  }
}
