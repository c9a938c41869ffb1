/** The usual optional value. */
module Wrappers {
  datatype Option<+T> = None | Some(value: T)
}

/**
 * What the four command-line clients see of the MQTT transport client (paho-mqtt):
 * return codes, the replies of its calls, and the calls themselves.
 * The transport is an oracle. The log records connect, publish, subscribe and
 * disconnect, the calls the clients' guard is about; `username_pw_set`,
 * `loop_start` and `loop_stop` are not logged. A publish or subscribe takes a
 * `Reply` (a code, or a raise); connect takes a `ConnectOutcome`.
 */
module Transport {

  /** A byte of a message payload. */
  type Byte = b: int | 0 <= b < 0x100

  /** paho-mqtt's MQTT_ERR_SUCCESS. */
  const MqttErrSuccess: int := 0

  /** CONNACK return code 0, "Connection Accepted" (section 3.2.2.3 of MQTT 3.1.1). */
  const ConnectionAccepted: int := 0

  /** The keep-alive interval every client passes to connect(). */
  const KeepaliveSeconds: int := 60

  /** The default QoS of publish, publish_json and subscribe. */
  const DefaultQos: int := 1

  /** The reply of one call into the transport: a return code, or an exception
      that the calling method catches with `except Exception`. */
  datatype Reply = Returned(rc: int) | Raised

  predicate Succeeded(reply: Reply) {
    reply == Returned(MqttErrSuccess)
  }

  /** Broker endpoint, credentials and client identity handed to the transport. */
  datatype Config = Config(host: string, port: int, username: string, password: string, clientId: string)

  /** One call that reached the transport client. */
  datatype Call =
    | ConnectCall(config: Config, keepalive: int)
    | PublishCall(topic: string, payload: string, qos: int, retain: bool)
    | SubscribeCall(filter: string, qos: int)
    | DisconnectCall
}
