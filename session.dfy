/**
 * The session guard that all four client classes share: the `connected`
 * flag, whether a transport client object exists (`self.client` is not None),
 * and the log of calls that reached the transport.
 *
 * Each function is one step of the guard; the class methods of the four
 * scripts are specified by these steps. `Run` replays a sequence of events
 * (the callbacks that paho's network thread delivers and the operations the
 * script issues, taken one at a time), and the lemmas state what holds of
 * every such sequence.
 */
module Session {
  import opened Wrappers
  import opened Transport

  /** What a connect() attempt meets: mqtt.Client(...) raises; client.connect(...)
      raises; a CONNACK with return code `rc` arrives within the 5-second wait;
      or no CONNACK arrives in time. When connect() starts with the flag
      already set it skips the wait, so from a set flag only ClientFailed,
      OpenFailed and NoAck occur; a later CONNACK is a separate event. */
  datatype ConnectOutcome =
    | ClientFailed
    | OpenFailed
    | Acked(rc: int)
    | NoAck

  datatype Link = Link(hasClient: bool, connected: bool, calls: seq<Call>)

  /** The state __init__ leaves: no client, not connected, nothing sent. */
  const Initial: Link := Link(false, false, [])

  /** A client object now exists and connect(host, port, keepalive=60) was called. */
  function Opened(l: Link, config: Config): Link {
    l.(hasClient := true, calls := l.calls + [ConnectCall(config, KeepaliveSeconds)])
  }

  /** on_connect(rc). */
  function OnConnect(l: Link, rc: int): Link {
    l.(connected := rc == ConnectionAccepted)
  }

  /** on_disconnect(rc): cleared whatever the code. */
  function OnDisconnect(l: Link, rc: int): Link {
    l.(connected := false)
  }

  /** connect(): the new state and what connect() returns, which is the flag
      as it stands when the wait ends. */
  function Connect(l: Link, config: Config, outcome: ConnectOutcome): (Link, bool) {
    match outcome
    case ClientFailed => (l, false)
    case OpenFailed => (Opened(l, config), false)
    case Acked(rc) =>
      var l' := OnConnect(Opened(l, config), rc);
      (l', l'.connected)
    case NoAck =>
      var l' := Opened(l, config);
      (l', l'.connected)
  }

  /** disconnect(): loop_stop() and disconnect() on the client, if there is one.
      The flag is cleared by the on_disconnect callback, not here. */
  function Disconnect(l: Link): Link {
    if l.hasClient then l.(calls := l.calls + [DisconnectCall]) else l
  }

  /** The guarded publish of MQTTRenderBroker and MQTTPublisher: the new state
      and the result. Not connected: False without touching the transport. No
      client object: the AttributeError is caught, False. */
  function Publish(l: Link, topic: string, payload: string, qos: int, retain: bool, reply: Reply): (Link, bool) {
    if !l.connected || !l.hasClient then (l, false)
    else (l.(calls := l.calls + [PublishCall(topic, payload, qos, retain)]), Succeeded(reply))
  }

  /** The publish of SensorSimulator.publish_sensor_data, which never looks at
      the flag. */
  function PublishUnguarded(l: Link, topic: string, payload: string, qos: int, retain: bool, reply: Reply): (Link, bool) {
    if !l.hasClient then (l, false)
    else (l.(calls := l.calls + [PublishCall(topic, payload, qos, retain)]), Succeeded(reply))
  }

  /** The guarded subscribe of MQTTRenderBroker and MQTTSubscriber. */
  function Subscribe(l: Link, filter: string, qos: int, reply: Reply): (Link, bool) {
    if !l.connected || !l.hasClient then (l, false)
    else (l.(calls := l.calls + [SubscribeCall(filter, qos)]), Succeeded(reply))
  }

  /** One event of a session, in the order the client object sees them. */
  datatype Event =
    | Open(config: Config, outcome: ConnectOutcome)
    | ConnAck(rc: int)
    | Lost(rc: int)
    | Pub(topic: string, payload: string, qos: int, retain: bool, reply: Reply)
    | PubUnguarded(topic: string, payload: string, qos: int, retain: bool, reply: Reply)
    | Sub(filter: string, qos: int, reply: Reply)
    | Close

  function Step(l: Link, e: Event): Link {
    match e
    case Open(config, outcome) => Connect(l, config, outcome).0
    case ConnAck(rc) => OnConnect(l, rc)
    case Lost(rc) => OnDisconnect(l, rc)
    case Pub(topic, payload, qos, retain, reply) => Publish(l, topic, payload, qos, retain, reply).0
    case PubUnguarded(topic, payload, qos, retain, reply) => PublishUnguarded(l, topic, payload, qos, retain, reply).0
    case Sub(filter, qos, reply) => Subscribe(l, filter, qos, reply).0
    case Close => Disconnect(l)
  }

  /** The state after the events `es`, oldest first. */
  function Run(l: Link, es: seq<Event>): Link
    decreases |es|
  {
    if |es| == 0 then l else Step(Run(l, es[..|es| - 1]), es[|es| - 1])
  }

  /** What an event says about the broker accepting the session, if anything:
      a CONNACK says yes exactly when its code is 0, a disconnect says no. */
  function Verdict(e: Event): Option<bool> {
    match e
    case Open(_, Acked(rc)) => Some(rc == ConnectionAccepted)
    case ConnAck(rc) => Some(rc == ConnectionAccepted)
    case Lost(_) => Some(false)
    case _ => None
  }

  /** The verdict of the latest event that has one. */
  function LastVerdict(es: seq<Event>): Option<bool>
    decreases |es|
  {
    if |es| == 0 then None
    else
      match Verdict(es[|es| - 1])
      case Some(b) => Some(b)
      case None => LastVerdict(es[..|es| - 1])
  }

  predicate IsRequest(c: Call) {
    c.PublishCall? || c.SubscribeCall?
  }

  /** The flag is the verdict of the latest CONNACK or disconnect: set exactly
      when that was a CONNACK with code 0, and untouched by everything else. */
  lemma {:induction false} ConnectedFollowsLastVerdict(l: Link, es: seq<Event>)
    ensures Run(l, es).connected == match LastVerdict(es) case Some(b) => b case None => l.connected
    decreases |es|
  {
    if |es| > 0 {
      ConnectedFollowsLastVerdict(l, es[..|es| - 1]);
    }
  }

  /** The call log only grows: no event takes back a call. */
  lemma {:induction false} CallLogOnlyGrows(l: Link, es: seq<Event>)
    ensures |l.calls| <= |Run(l, es).calls|
    ensures Run(l, es).calls[..|l.calls|] == l.calls
    decreases |es|
  {
    if |es| > 0 {
      CallLogOnlyGrows(l, es[..|es| - 1]);
      var before := Run(l, es[..|es| - 1]).calls;
      var after := Run(l, es).calls;
      assert after[..|before|] == before;
      assert after[..|l.calls|] == before[..|l.calls|];
    }
  }

  /** Until the broker accepts the session, no publish or subscribe of the
      guarded clients reaches the transport: the only calls made are connect
      and disconnect. */
  lemma {:induction false} NoRequestBeforeAcceptance(l: Link, es: seq<Event>)
    requires !l.connected
    requires forall k :: 0 <= k < |es| ==> Verdict(es[k]) != Some(true) && !es[k].PubUnguarded?
    ensures !Run(l, es).connected
    ensures |l.calls| <= |Run(l, es).calls|
    ensures forall k :: |l.calls| <= k < |Run(l, es).calls| ==> !IsRequest(Run(l, es).calls[k])
    decreases |es|
  {
    if |es| > 0 {
      var prefix := es[..|es| - 1];
      NoRequestBeforeAcceptance(l, prefix);
      var before := Run(l, prefix).calls;
      var after := Run(l, es).calls;
      assert Verdict(es[|es| - 1]) != Some(true);
      assert after[..|before|] == before;
      forall k | |l.calls| <= k < |after|
        ensures !IsRequest(after[k])
      {
        if k < |before| {
          assert after[k] == before[k];
        }
      }
    }
  }

  /** The flag as it stands after the events `es`, from a start value. */
  function FlagAfter(start: bool, es: seq<Event>): bool {
    match LastVerdict(es) case Some(b) => b case None => start
  }

  /** The publishes among `es` that find the flag set: what a guarded client
      hands to the transport when callbacks arrive between its publishes. */
  function LivePublishes(start: bool, es: seq<Event>): seq<Call>
    decreases |es|
  {
    if |es| == 0 then []
    else
      var prev := es[..|es| - 1];
      var e := es[|es| - 1];
      LivePublishes(start, prev)
        + (if e.Pub? && FlagAfter(start, prev) then [PublishCall(e.topic, e.payload, e.qos, e.retain)] else [])
  }

  /** Guarded publishes interleaved with CONNACKs and disconnects: exactly the
      publishes made while the flag is set reach the transport, in order; one
      made after a disconnect and before the next accepting CONNACK sends nothing. */
  lemma {:induction false} PublishesFollowFlag(l: Link, es: seq<Event>)
    requires l.hasClient
    requires forall k :: 0 <= k < |es| ==> es[k].Pub? || es[k].ConnAck? || es[k].Lost?
    ensures Run(l, es).calls == l.calls + LivePublishes(l.connected, es)
    ensures Run(l, es).connected == FlagAfter(l.connected, es)
    decreases |es|
  {
    ConnectedFollowsLastVerdict(l, es);
    if |es| > 0 {
      var prev := es[..|es| - 1];
      PublishesFollowFlag(l, prev);
      assert Run(l, prev).hasClient by { HasClientKept(l, prev); }
    }
  }

  /** Publishes, CONNACKs and disconnects never take the client object away. */
  lemma {:induction false} HasClientKept(l: Link, es: seq<Event>)
    requires l.hasClient
    requires forall k :: 0 <= k < |es| ==> es[k].Pub? || es[k].ConnAck? || es[k].Lost?
    ensures Run(l, es).hasClient
    decreases |es|
  {
    if |es| > 0 {
      HasClientKept(l, es[..|es| - 1]);
    }
  }

  /** The simulator's publish is not held back that way: a session whose
      connect got no CONNACK still hands a publish to the transport. */
  lemma UnguardedPublishBeforeAcceptance(config: Config, topic: string, payload: string, reply: Reply)
    ensures var l := Run(Initial, [Open(config, NoAck), PubUnguarded(topic, payload, DefaultQos, false, reply)]);
            !l.connected && l.calls == [ConnectCall(config, KeepaliveSeconds), PublishCall(topic, payload, DefaultQos, false)]
  {
    var es := [Open(config, NoAck), PubUnguarded(topic, payload, DefaultQos, false, reply)];
    var afterOpen := Link(true, false, [ConnectCall(config, KeepaliveSeconds)]);
    assert es[..1][..0] == [];
    assert Run(Initial, es[..1]) == afterOpen;
    assert Run(Initial, es) == Step(afterOpen, es[1]);
  }
}
