/**
 * Connection: one client identity bound to one broker. It holds the status, the history,
 * the change and message listener registries, the subscription map and the bounded buffer
 * of received messages, and it talks to its transport client and to the store.
 */
module Connections {
  import opened Wrappers
  import opened Values
  import opened Listeners
  import opened JavaText
  import Transport
  import Persistence
  import opened Subscriptions

  /** Connection.ConnectionStatus. `Unknown` is the source's NONE ("status is unknown"), the initial value. */
  datatype ConnectionStatus = Connecting | Connected | Disconnecting | Disconnected | Error | Unknown

  /** The property names change events carry: "history" and "connectionStatus". */
  datatype Property = HistoryProperty | StatusProperty

  /**
   * What a listener is told: a change listener that a property changed, or a message
   * listener that a message arrived, together with the buffer getMessages() would return
   * to it at that moment.
   */
  datatype Event = Changed(property: Property) | Received(message: ReceivedMessage, buffer: seq<ReceivedMessage>)

  /** Why an operation ended in an MqttException. */
  datatype MqttError = TransportRejected | PersistenceFailed

  /** Normal return, or the MqttException thrown to the caller. */
  datatype Outcome = Done | Thrown(error: MqttError)

  /** messageArrived empties the buffer once it holds more than this many messages. */
  const MessageBufferThreshold: nat := 20

  /** The URI createConnection and updateConnection give the transport client. */
  function ServerUri(host: string, port: int, tls: bool): string {
    (if tls then "ssl://" else "tcp://") + host + ":" + DecimalString(port)
  }

  /** Splits a server URI back into TLS flag, host and port, at the last colon. */
  function ParseServerUri(uri: string): Option<(bool, string, int)> {
    if |uri| < 6 || (uri[..6] != "ssl://" && uri[..6] != "tcp://") then None
    else
      var rest := uri[6..];
      match LastIndexOf(rest, ':')
      case None => None
      case Some(k) =>
        match ParseDecimal(rest[k + 1..])
        case None => None
        case Some(port) => Some((uri[..6] == "ssl://", rest[..k], port))
  }

  /** The URI names the host, the port and the scheme the TLS flag selects, and nothing else. */
  lemma ServerUriRoundTrip(host: string, port: int, tls: bool)
    ensures ParseServerUri(ServerUri(host, port, tls)) == Some((tls, host, port))
  {
    var scheme := if tls then "ssl://" else "tcp://";
    var digits := DecimalString(port);
    var rest := host + ":" + digits;
    assert ServerUri(host, port, tls) == scheme + rest;
    SchemeSplits(scheme, rest);
    LastColonIsSeparator(host, digits);
    assert rest[|host| + 1..] == digits && rest[..|host|] == host;
    ParseDecimalString(port);
  }

  /** A six-character scheme in front of `rest` is what the first six characters hold. */
  lemma SchemeSplits(scheme: string, rest: string)
    requires |scheme| == 6
    ensures (scheme + rest)[..6] == scheme && (scheme + rest)[6..] == rest
  {
  }

  /** The port text holds no colon, so the last colon of host:port is the separator. */
  lemma {:induction false} LastColonIsSeparator(host: string, digits: string)
    requires forall i :: 0 <= i < |digits| ==> digits[i] == '-' || IsDigit(digits[i])
    ensures LastIndexOf(host + ":" + digits, ':') == Some(|host|)
  {
    var rest := host + ":" + digits;
    assert rest[|host|] == ':';
    var last := LastIndexOf(rest, ':');
    assert last.Some?;
    var k := last.value;
    assert !(k < |host|);
  }

  /** The buffer after one arrival: emptied first when it holds more than the threshold. */
  function BufferAfter(buffer: seq<ReceivedMessage>, msg: ReceivedMessage): (r: seq<ReceivedMessage>)
    ensures r == buffer + [msg] || r == [msg]
    ensures |r| == |buffer| + 1 <==> |buffer| <= MessageBufferThreshold
    ensures |buffer| <= MessageBufferThreshold + 1 ==> |r| <= MessageBufferThreshold + 1
  {
    (if |buffer| > MessageBufferThreshold then [] else buffer) + [msg]
  }

  /** The buffer after the messages `msgs` arrive, in order, at an empty buffer. */
  function Arrivals(msgs: seq<ReceivedMessage>): seq<ReceivedMessage> {
    if msgs == [] then [] else BufferAfter(Arrivals(msgs[..|msgs| - 1]), msgs[|msgs| - 1])
  }

  /**
   * After N arrivals at an empty buffer it holds the last ((N - 1) mod 21) + 1 of them,
   * in arrival order: it restarts at arrivals 22, 43, 64, ...
   */
  lemma {:induction false} ArrivalsWindow(msgs: seq<ReceivedMessage>)
    requires msgs != []
    ensures |Arrivals(msgs)| == (|msgs| - 1) % (MessageBufferThreshold + 1) + 1
    ensures Arrivals(msgs) == msgs[|msgs| - |Arrivals(msgs)|..]
  {
    var n := |msgs|;
    if n == 1 {
      assert Arrivals(msgs) == BufferAfter([], msgs[0]) == [msgs[0]];
    } else {
      var prefix := msgs[..n - 1];
      ArrivalsWindow(prefix);
      var before := Arrivals(prefix);
      WindowStep(n - 1, |before|);
      if |before| > MessageBufferThreshold {
        WindowRestarts(msgs);
      } else {
        WindowGrows(msgs);
      }
    }
  }

  /** A full window is dropped, and the newest arrival alone is left. */
  lemma WindowRestarts(msgs: seq<ReceivedMessage>)
    requires |msgs| >= 2 && |Arrivals(msgs[..|msgs| - 1])| > MessageBufferThreshold
    ensures Arrivals(msgs) == [msgs[|msgs| - 1]] == msgs[|msgs| - 1..]
  {
  }

  /** A window with room keeps its messages and gains the newest arrival at its end. */
  lemma WindowGrows(msgs: seq<ReceivedMessage>)
    requires |msgs| >= 2
    requires var before := Arrivals(msgs[..|msgs| - 1]);
      |before| <= MessageBufferThreshold && |before| <= |msgs| - 1
      && before == msgs[..|msgs| - 1][|msgs| - 1 - |before|..]
    ensures |Arrivals(msgs)| == |Arrivals(msgs[..|msgs| - 1])| + 1
    ensures Arrivals(msgs) == msgs[|msgs| - |Arrivals(msgs)|..]
  {
    var before := Arrivals(msgs[..|msgs| - 1]);
    assert Arrivals(msgs) == before + [msgs[|msgs| - 1]];
    SuffixGrows(msgs, |before|);
  }

  /** The last `len` elements before the newest one, followed by it, are the last `len + 1`. */
  lemma SuffixGrows<T>(msgs: seq<T>, len: nat)
    requires len < |msgs|
    ensures msgs[..|msgs| - 1][|msgs| - 1 - len..] + [msgs[|msgs| - 1]] == msgs[|msgs| - 1 - len..]
  {
  }

  /** How the window length moves from k arrivals to k + 1. */
  lemma WindowStep(k: nat, len: nat)
    requires k >= 1 && len == (k - 1) % (MessageBufferThreshold + 1) + 1
    ensures len > MessageBufferThreshold ==> k % (MessageBufferThreshold + 1) == 0
    ensures len <= MessageBufferThreshold ==> k % (MessageBufferThreshold + 1) + 1 == len + 1
  {
    var q := (k - 1) / 21;
    assert k - 1 == 21 * q + (len - 1);
    if len > MessageBufferThreshold {
      assert k == 21 * (q + 1);
    } else {
      assert k == 21 * q + len;
    }
  }

  /** Each subscription of a list paired with its topic, in list order. */
  function Keyed(subs: seq<Subscription>): seq<(string, Subscription)>
    reads subs
  {
    seq(|subs|, i requires 0 <= i < |subs| reads subs => (subs[i].topic, subs[i]))
  }

  /** HashMap.put of every pair, in order. */
  function PutAll<V>(m: map<string, V>, entries: seq<(string, V)>): map<string, V> {
    if entries == [] then m
    else PutAll(m, entries[..|entries| - 1])[entries[|entries| - 1].0 := entries[|entries| - 1].1]
  }

  /** Under a key that some pair carries, PutAll keeps the value of the last such pair. */
  lemma {:induction false} PutAllLastWins<V>(m: map<string, V>, entries: seq<(string, V)>, i: nat)
    requires i < |entries|
    requires forall j :: i < j < |entries| ==> entries[j].0 != entries[i].0
    ensures entries[i].0 in PutAll(m, entries) && PutAll(m, entries)[entries[i].0] == entries[i].1
  {
    if i < |entries| - 1 {
      PutAllLastWins(m, entries[..|entries| - 1], i);
    }
  }

  /** A key no pair carries keeps its entry, or its absence, from the original map. */
  lemma {:induction false} PutAllKeepsOtherKeys<V>(m: map<string, V>, entries: seq<(string, V)>, k: string)
    requires forall j :: 0 <= j < |entries| ==> entries[j].0 != k
    ensures k in PutAll(m, entries) <==> k in m
    ensures k in m ==> PutAll(m, entries)[k] == m[k]
  {
    if entries != [] {
      PutAllKeepsOtherKeys(m, entries[..|entries| - 1], k);
    }
  }

  /** PutAll adds exactly the keys the pairs carry. */
  lemma {:induction false} PutAllKeys<V>(m: map<string, V>, entries: seq<(string, V)>)
    ensures PutAll(m, entries).Keys == m.Keys + set j | 0 <= j < |entries| :: entries[j].0
  {
    if entries != [] {
      var prefix := entries[..|entries| - 1];
      PutAllKeys(m, prefix);
      assert (set j | 0 <= j < |entries| :: entries[j].0)
          == (set j | 0 <= j < |prefix| :: prefix[j].0) + {entries[|entries| - 1].0};
    }
  }

  class Connection {
    var clientId: string
    var host: string
    var port: int
    var tls: bool
    var status: ConnectionStatus
    /** The history, oldest first; it is never shortened. */
    var history: seq<Entry>
    /** The transport client this connection issues its calls on. */
    var client: Transport.Client
    /** Registered change listeners, in registration order. */
    var changeListeners: seq<ListenerId>
    /** Every notification delivered so far, to change and message listeners alike, in delivery order. */
    var events: seq<Notified<Event>>
    /** Store row id; -1 until one is assigned. */
    var persistenceId: int
    var subscriptions: map<string, Subscription>
    /** The received-message buffer. */
    var messages: seq<ReceivedMessage>
    /** Registered message listeners, in registration order. */
    var messageListeners: seq<ListenerId>

    /**
     * What every operation keeps: each subscription is filed under its own topic (so no
     * subscription object sits under two keys), the registries are free of duplicates, the
     * buffer never exceeds 21 messages, and the history holds at least the creation entry.
     */
    ghost predicate Valid()
      reads this, subscriptions.Values
    {
      && (forall t :: t in subscriptions ==> subscriptions[t].topic == t)
      && NoDuplicates(changeListeners)
      && NoDuplicates(messageListeners)
      && |messages| <= MessageBufferThreshold + 1
      && history != []
    }

    /** createConnection, with the private constructor it calls. */
    constructor Create(clientId: string, host: string, port: int, tls: bool, now: string)
      ensures Valid()
      ensures this.clientId == clientId && this.host == host && this.port == port && this.tls == tls
      ensures status == Unknown && persistenceId == -1
      ensures history == [Entry(Literal("Client: " + clientId + " created"), now)]
      ensures fresh(client) && client.serverUri == ServerUri(host, port, tls)
      ensures client.clientId == clientId && client.calls == []
      ensures changeListeners == [] && events == []
      ensures subscriptions == map[] && messages == [] && messageListeners == []
    {
      this.clientId := clientId;
      this.host := host;
      this.port := port;
      this.tls := tls;
      status := Unknown;
      persistenceId := -1;
      client := new Transport.Client(ServerUri(host, port, tls), clientId);
      changeListeners := [];
      events := [];
      subscriptions := map[];
      messages := [];
      messageListeners := [];
      // the creation entry is added while no listener is registered yet
      history := [Entry(Literal("Client: " + clientId + " created"), now)];
    }

    /** updateConnection: new identity and endpoint, and a new transport client for them. */
    method UpdateConnection(clientId: string, host: string, port: int, tls: bool)
      modifies this`clientId, this`host, this`port, this`tls, this`client
      ensures this.clientId == clientId && this.host == host && this.port == port && this.tls == tls
      ensures fresh(client) && client.serverUri == ServerUri(host, port, tls)
      ensures client.clientId == clientId && client.calls == []
    {
      this.clientId := clientId;
      this.host := host;
      this.port := port;
      this.tls := tls;
      client := new Transport.Client(ServerUri(host, port, tls), clientId);
    }

    /** isConnected: whether the status is CONNECTED. */
    predicate IsConnected()
      reads this
    {
      status == Connected
    }

    /** isSSL: the TLS flag as a C-style integer. */
    function IsSsl(): (r: int)
      reads this
      ensures r == 0 || r == 1
      ensures r == 1 <==> tls
    {
      if tls then 1 else 0
    }

    /** equals: only the client ids are compared; null or another class never equals. */
    predicate Equals(other: Connection?)
      reads this, other
    {
      other != null && clientId == other.clientId
    }

    /** The fields the store keeps of this connection. */
    function Record(): ConnectionRecord
      reads this
    {
      ConnectionRecord(clientId, host, port, tls, persistenceId)
    }

    method AssignPersistenceId(id: int)
      modifies this`persistenceId
      ensures persistenceId == id
    {
      persistenceId := id;
    }

    /** addAction: appends one entry and tells every change listener that the history changed. */
    method AddAction(text: Text, now: string)
      requires Valid()
      modifies this`history, this`events
      ensures Valid()
      ensures history == old(history) + [Entry(text, now)]
      ensures events == old(events) + Fanout(changeListeners, Changed(HistoryProperty))
    {
      history := history + [Entry(text, now)];
      NotifyListeners(HistoryProperty);
    }

    /** changeConnectionStatus: sets the status and tells every change listener. */
    method ChangeConnectionStatus(connectionStatus: ConnectionStatus)
      modifies this`status, this`events
      ensures status == connectionStatus
      ensures events == old(events) + Fanout(changeListeners, Changed(StatusProperty))
    {
      status := connectionStatus;
      NotifyListeners(StatusProperty);
    }

    method NotifyListeners(property: Property)
      modifies this`events
      ensures events == old(events) + Fanout(changeListeners, Changed(property))
    {
      var event := Changed(property);
      var i := 0;
      while i < |changeListeners|
        invariant 0 <= i <= |changeListeners|
        invariant events == old(events) + Fanout(changeListeners[..i], event)
      {
        assert Fanout(changeListeners[..i + 1], event)
            == Fanout(changeListeners[..i], event) + [Notified(changeListeners[i], event)];
        events := events + [Notified(changeListeners[i], event)];
        i := i + 1;
      }
      assert changeListeners[..i] == changeListeners;
    }

    method RegisterChangeListener(listener: ListenerId)
      requires Valid()
      modifies this`changeListeners
      ensures Valid()
      ensures changeListeners == if listener in old(changeListeners) then old(changeListeners)
                                 else old(changeListeners) + [listener]
    {
      if listener !in changeListeners {
        AppendNewKeepsNoDuplicates(changeListeners, listener);
        changeListeners := changeListeners + [listener];
      }
    }

    method AddReceivedMessageListener(listener: ListenerId)
      requires Valid()
      modifies this`messageListeners
      ensures Valid()
      ensures messageListeners == if listener in old(messageListeners) then old(messageListeners)
                                  else old(messageListeners) + [listener]
    {
      if listener !in messageListeners {
        AppendNewKeepsNoDuplicates(messageListeners, listener);
        messageListeners := messageListeners + [listener];
      }
    }

    /**
     * addNewSubscription. A topic already in the map is left alone. Otherwise the transport
     * subscribe (bound to a SUBSCRIBE listener) comes first and its exception propagates
     * untouched; then the subscription is persisted, a PersistenceException being rethrown
     * as an MqttException; only then does it take its row id and enter the map.
     */
    method AddNewSubscription(sub: Subscription, store: Persistence.Store) returns (r: Outcome)
      requires Valid()
      modifies this`subscriptions, client, store, sub
      ensures Valid()
      ensures old(sub.topic) in old(subscriptions) ==>
        && r == Done && subscriptions == old(subscriptions) && sub.View() == old(sub.View())
        && client.calls == old(client.calls) && store.log == old(store.log)
      ensures old(sub.topic) !in old(subscriptions) ==>
        && client.calls == old(client.calls) + [Transport.SubscribeCall(
             sub.topic, sub.qos, Some(Tag(Subscribe, [sub.topic])), r != Thrown(TransportRejected))]
        && (r == Thrown(TransportRejected) ==> store.log == old(store.log))
        && (r != Thrown(TransportRejected) ==>
             && store.log != [] && store.log[|store.log| - 1].PersistSubscriptionCall?
             && store.log == old(store.log) + [Persistence.PersistSubscriptionCall(old(sub.View()), store.log[|store.log| - 1].rowId)]
             && (r == Thrown(PersistenceFailed) <==> store.log[|store.log| - 1].rowId.None?))
        && (r.Thrown? ==> subscriptions == old(subscriptions) && sub.View() == old(sub.View()))
        && (r == Done ==>
             && subscriptions == old(subscriptions)[sub.topic := sub]
             && store.log[|store.log| - 1].PersistSubscriptionCall?
             && store.log[|store.log| - 1].rowId.Some?
             && sub.View() == old(sub.View()).(persistenceId := store.log[|store.log| - 1].rowId.value))
    {
      if sub.topic in subscriptions {
        return Done;
      }
      var accepted := client.Subscribe(sub.topic, sub.qos, Some(Tag(Subscribe, [sub.topic])));
      if !accepted {
        return Thrown(TransportRejected);
      }
      var rowId := store.PersistSubscription(sub.View());
      if rowId.None? {
        return Thrown(PersistenceFailed);
      }
      sub.SetPersistenceId(rowId.value);
      subscriptions := subscriptions[sub.topic := sub];
      r := Done;
    }

    /**
     * unsubscribe. An absent topic is a no-op. Otherwise the transport unsubscribe comes
     * first and its exception leaves everything as it was; then exactly that topic leaves the
     * map and the store is told to delete the subscription that was passed in.
     */
    method Unsubscribe(sub: Subscription, store: Persistence.Store) returns (r: Outcome)
      requires Valid()
      modifies this`subscriptions, client, store
      ensures Valid()
      ensures r == Done || r == Thrown(TransportRejected)
      ensures sub.topic !in old(subscriptions) ==>
        && r == Done && subscriptions == old(subscriptions)
        && client.calls == old(client.calls) && store.log == old(store.log)
      ensures sub.topic in old(subscriptions) ==>
        && client.calls == old(client.calls) + [Transport.UnsubscribeCall(sub.topic, r == Done)]
        && (r == Done ==>
             && subscriptions == old(subscriptions) - {sub.topic}
             && store.log == old(store.log) + [Persistence.DeleteSubscriptionCall(sub.View())])
        && (r.Thrown? ==> subscriptions == old(subscriptions) && store.log == old(store.log))
    {
      if sub.topic !in subscriptions {
        return Done;
      }
      var accepted := client.Unsubscribe(sub.topic);
      if !accepted {
        return Thrown(TransportRejected);
      }
      subscriptions := subscriptions - {sub.topic};
      store.DeleteSubscription(sub.View());
      r := Done;
    }

    /** setSubscriptions: puts each subscription under its topic, in list order; other keys stay. */
    method SetSubscriptions(newSubs: seq<Subscription>)
      requires Valid()
      modifies this`subscriptions
      ensures Valid()
      ensures subscriptions == PutAll(old(subscriptions), old(Keyed(newSubs)))
    {
      ghost var entries := Keyed(newSubs);
      var i := 0;
      while i < |newSubs|
        invariant 0 <= i <= |newSubs|
        invariant subscriptions == PutAll(old(subscriptions), entries[..i])
        invariant Valid()
      {
        var sub := newSubs[i];
        assert entries[..i + 1][..i] == entries[..i];
        subscriptions := subscriptions[sub.topic := sub];
        i := i + 1;
      }
      assert entries[..i] == entries;
    }

    /**
     * getSubscriptions: a fresh list holding the map's values, one per topic, in the map's
     * own iteration order (which HashMap leaves unspecified; `order` names it).
     */
    method GetSubscriptions() returns (subs: seq<Subscription>, ghost order: seq<string>)
      ensures |subs| == |order| && NoDuplicates(order)
      ensures forall t :: t in order <==> t in subscriptions
      ensures forall i :: 0 <= i < |order| ==> order[i] in subscriptions && subs[i] == subscriptions[order[i]]
      ensures forall s :: s in subs <==> s in subscriptions.Values
    {
      subs, order := [], [];
      var rest := subscriptions.Keys;
      while rest != {}
        invariant rest <= subscriptions.Keys
        invariant |subs| == |order| && NoDuplicates(order)
        invariant forall t :: t in order <==> t in subscriptions && t !in rest
        invariant forall i :: 0 <= i < |order| ==> order[i] in subscriptions && subs[i] == subscriptions[order[i]]
        decreases rest
      {
        var t :| t in rest;
        subs, order := subs + [subscriptions[t]], order + [t];
        rest := rest - {t};
      }
    }

    /**
     * messageArrived: the buffer is emptied if it holds more than 20 messages, then the new
     * message is appended; a subscription filed under exactly this topic takes the payload
     * as its last message; only then is every message listener told, in order, so each
     * one already finds the new message at the end of the buffer.
     */
    method MessageArrived(topic: string, message: MqttMessage)
      requires Valid()
      modifies this`messages, this`events
      modifies if topic in subscriptions then {subscriptions[topic]} else {}
      ensures Valid()
      ensures messages == BufferAfter(old(messages), ReceivedMessage(topic, message))
      ensures events == old(events) + Fanout(messageListeners, Received(ReceivedMessage(topic, message), messages))
      ensures messages != [] && messages[|messages| - 1] == ReceivedMessage(topic, message)
      ensures topic in subscriptions ==>
        subscriptions[topic].View() == old(subscriptions[topic].View()).(lastMessage := Some(message.payload))
    {
      var msg := ReceivedMessage(topic, message);
      if |messages| > MessageBufferThreshold {
        messages := [];
      }
      messages := messages + [msg];
      if topic in subscriptions {
        subscriptions[topic].SetLastMessage(Some(message.payload));
      }
      NotifyMessageListeners(msg);
    }

    /** The loop at the end of messageArrived: every message listener receives `msg`, in order, with the current buffer. */
    method NotifyMessageListeners(msg: ReceivedMessage)
      modifies this`events
      ensures events == old(events) + Fanout(messageListeners, Received(msg, messages))
    {
      var event := Received(msg, messages);
      var i := 0;
      while i < |messageListeners|
        invariant 0 <= i <= |messageListeners|
        invariant events == old(events) + Fanout(messageListeners[..i], event)
      {
        assert Fanout(messageListeners[..i + 1], event) == Fanout(messageListeners[..i], event) + [Notified(messageListeners[i], event)];
        events := events + [Notified(messageListeners[i], event)];
        i := i + 1;
      }
      assert messageListeners[..i] == messageListeners;
    }
  }

  /** equals is an equivalence on connections: reflexive, symmetric and transitive. */
  lemma EqualsIsEquivalence(a: Connection, b: Connection, c: Connection)
    ensures a.Equals(a)
    ensures a.Equals(b) <==> b.Equals(a)
    ensures a.Equals(b) && b.Equals(c) ==> a.Equals(c)
  {
  }
}
