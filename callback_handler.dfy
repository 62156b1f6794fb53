/**
 * MqttCallbackHandler: the transport's callbacks for a lost link, an arriving message and a
 * completed delivery. Each acts on the active connection of the session registry.
 */
module CallbackHandlers {
  import opened Wrappers
  import opened Values
  import opened Listeners
  import opened JavaText
  import opened Connections
  import opened Clients

  /** Java's rendering of a boolean in string concatenation. */
  function BoolText(b: bool): (s: string)
    ensures s == "true" || s == "false"
    ensures s == "true" <==> b
  {
    if b then "true" else "false"
  }

  /** The details argument of the message-received text: topic, ";qos:", the QoS, ";retained:", the flag. */
  function ArrivalDetails(topic: string, message: MqttMessage): string {
    topic + ";qos:" + DecimalString(message.qos) + ";retained:" + BoolText(message.retained)
  }

  /** The history text of an arrival: the message-received resource with the payload and the details. */
  function ArrivalText(topic: string, message: MqttMessage): Text {
    Template(MessageReceived, [message.payload, ArrivalDetails(topic, message)])
  }

  /**
   * The details string keeps what it renders: it starts with the topic, the QoS between
   * ";qos:" and ";retained:" parses back to the message's QoS, and it ends with the flag.
   */
  lemma ArrivalDetailsRecoverable(topic: string, message: MqttMessage)
    ensures var d := ArrivalDetails(topic, message);
      var q := DecimalString(message.qos);
      var flag := BoolText(message.retained);
      && |d| == |topic| + 5 + |q| + 10 + |flag|
      && d[..|topic|] == topic
      && ParseDecimal(d[|topic| + 5 .. |topic| + 5 + |q|]) == Some(message.qos)
      && (d[|d| - |flag|..] == "true" <==> message.retained)
  {
    var d := ArrivalDetails(topic, message);
    var q := DecimalString(message.qos);
    var flag := BoolText(message.retained);
    assert d == topic + ";qos:" + q + ";retained:" + flag;
    assert d[..|topic|] == topic;
    assert d[|topic| + 5 .. |topic| + 5 + |q|] == q;
    assert d[|d| - |flag|..] == flag;
    ParseDecimalString(message.qos);
  }

  class MqttCallbackHandler {
    /** The registry the handler looks the active connection up in. */
    const session: Session

    constructor (session: Session)
      ensures this.session == session
    {
      this.session := session;
    }

    /**
     * connectionLost: with a cause, one "Connection Lost" entry is appended and then the
     * status becomes DISCONNECTED; a null cause changes nothing.
     */
    method ConnectionLost(cause: Option<string>, now: string)
      requires cause.Some? ==>
        session.instance != null && session.instance.activeConnection != null
        && session.instance.activeConnection.Valid()
      modifies (if cause.Some? then {session.instance.activeConnection} else {})`history
      modifies (if cause.Some? then {session.instance.activeConnection} else {})`events
      modifies (if cause.Some? then {session.instance.activeConnection} else {})`status
      ensures cause.Some? ==>
        var c := session.instance.activeConnection;
        && c.Valid()
        && c.history == old(c.history) + [Entry(Literal("Connection Lost"), now)]
        && c.status == Disconnected
        && c.events == old(c.events)
             + Fanout(c.changeListeners, Changed(HistoryProperty)) + Fanout(c.changeListeners, Changed(StatusProperty))
    {
      if cause.Some? {
        var c := session.instance.GetConnection();
        c.AddAction(Literal("Connection Lost"), now);
        c.ChangeConnectionStatus(Disconnected);
      }
    }

    /**
     * messageArrived: exactly the connection's own message-arrival update, and after it one
     * history entry describing the message.
     */
    method MessageArrived(topic: string, message: MqttMessage, now: string)
      requires session.instance != null && session.instance.activeConnection != null
      requires session.instance.activeConnection.Valid()
      modifies session.instance.activeConnection`messages, session.instance.activeConnection`history
      modifies session.instance.activeConnection`events
      modifies var c := session.instance.activeConnection;
        if topic in c.subscriptions then {c.subscriptions[topic]} else {}
      ensures var c := session.instance.activeConnection;
        && c.Valid()
        && c.messages == BufferAfter(old(c.messages), ReceivedMessage(topic, message))
        && (topic in c.subscriptions ==>
              c.subscriptions[topic].View() == old(c.subscriptions[topic].View()).(lastMessage := Some(message.payload)))
        && c.history == old(c.history) + [Entry(ArrivalText(topic, message), now)]
        && c.messages[|c.messages| - 1] == ReceivedMessage(topic, message)
        // message listeners first, each seeing the grown buffer; then the history notice
        && c.events == old(c.events)
             + Fanout(c.messageListeners, Received(ReceivedMessage(topic, message), c.messages))
             + Fanout(c.changeListeners, Changed(HistoryProperty))
    {
      var c := session.instance.GetConnection();
      c.MessageArrived(topic, message);
      c.AddAction(ArrivalText(topic, message), now);
    }

    /** deliveryComplete: does nothing; with no modifies clause it can change no state. */
    method DeliveryComplete(token: nat)
    {
    }
  }
}
