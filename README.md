# k_mqtt session bookkeeping, modelled in Dafny

This project models the client-side session bookkeeping of the k_mqtt Android library:

- **Connection** holds a client's identity and broker endpoint. It also holds:
  - its status;
  - its append-only history of human-readable entries;
  - its property-change and message listener registries;
  - its topic-keyed map of subscriptions;
  - a bounded buffer of received messages.
- **ActionListener** turns the asynchronous completion of a connect, disconnect, subscribe or publish into a status change and a history entry. A successful connect also re-issues the remembered subscriptions.
- **MqttCallbackHandler** reacts to a lost link, an arriving message and a completed delivery.
- **MqttClient** is the lazily created, process-wide registry. It owns the store, restores the last stored connection when it is created, and tracks the one active connection.
- **Subscription** is the mutable subscription record.

Each Java class with mutable fields becomes a Dafny `class` with those fields. Its methods carry field-granular `modifies` clauses and state the whole new state.

Each collaborator the code calls but does not own is a class that records every call it receives, with the call's outcome:

- `Transport.Client` stands for the Paho `MqttAndroidClient`. A subscribe or unsubscribe is accepted or rejected; a rejection is the synchronous `MqttException`.
- `Persistence.Store` stands for the `Persistence` store. A restore may fail. Persisting a connection or a subscription yields the row id the store assigned, or fails.

Outcomes are chosen by the environment. The contracts of the core state what happens on every outcome.

Listeners are opaque identifiers. Every notification a connection sends goes into one log, `events`, in call order. Each record names the listener and the event:

- `Changed(p)` is a property-change event for "history" or "connectionStatus";
- `Received(msg, buffer)` is a received message handed to a message listener, together with the buffer as that listener can read it.

Because there is one log, the contracts also state the order of notifications of different kinds.

History entries carry their text and an opaque timestamp. The text is either a literal or a resource template with its arguments.

Files:

- `wrappers.dfy`: `Option`.
- `java_text.dfy`: `Integer.toString`, a decimal parser and `lastIndexOf`, used for the server URI round trip. Also ASCII `equalsIgnoreCase`.
- `values.dfy`: shared records.
- `listeners.dfy`: fan-out of one event to a listener list.
- `transport.dfy`, `persistence.dfy`: the collaborators.
- `subscription.dfy`, `connection.dfy`, `action_listener.dfy`, `callback_handler.dfy`, `client.dfy`: the five core classes.

`Connection.Valid()` is the invariant every Connection operation keeps:

- every subscription is filed under its own topic;
- neither listener registry holds a duplicate;
- the buffer never holds more than 21 messages;
- the history is never empty.

Three consequences of the code are worth spelling out:

- **Buffer length.** `messageArrived` empties the buffer only when it already holds more than 20 messages (Connection.java:414-416), and then appends. The buffer can therefore reach 21. After N arrivals starting from empty it holds ((N-1) mod 21)+1 messages; for example, 25 arrivals leave 4.
- **Initial history.** The constructor adds the entry "Client: <id> created" (Connection.java:166-169). After a successful connect the history therefore has two entries: that one and "Client Connected".
- **Resubscribe loop.** In `connect()` the `try` block encloses the whole `for` loop (ActionListener.java:153-162). The first rejected resubscribe therefore ends the loop, and later subscriptions are not re-issued.

## Model

| member | source | states |
|---|---|---|
| Subscriptions.Subscription.constructor | k-mqtt/src/main/java/com/kozaris/android/k_mqtt/Subscription.java:9-21 | topic, qos, client id and notification flag are exactly the arguments; the last message is null (None) and the persistence id 0, since neither is assigned |
| Subscriptions.Subscription.SetTopic | k-mqtt/src/main/java/com/kozaris/android/k_mqtt/Subscription.java:27-29 | sets the topic and, by its frame, no other field |
| Subscriptions.Subscription.SetQos | k-mqtt/src/main/java/com/kozaris/android/k_mqtt/Subscription.java:35-37 | sets the QoS and nothing else |
| Subscriptions.Subscription.SetLastMessage | k-mqtt/src/main/java/com/kozaris/android/k_mqtt/Subscription.java:43-45 | sets the last message and nothing else |
| Subscriptions.Subscription.SetClientId | k-mqtt/src/main/java/com/kozaris/android/k_mqtt/Subscription.java:51-53 | sets the client id and nothing else |
| Subscriptions.Subscription.SetPersistenceId | k-mqtt/src/main/java/com/kozaris/android/k_mqtt/Subscription.java:59-61 | sets the persistence id and nothing else |
| Connections.ServerUriRoundTrip | k-mqtt/src/main/java/com/kozaris/android/k_mqtt/Connection.java:118-127 | the URI chosen for the transport client ("ssl://" when TLS, else "tcp://", then host, ':' and the decimal port) parses back to exactly the TLS flag, host and port |
| Connections.ServerUri | k-mqtt/src/main/java/com/kozaris/android/k_mqtt/Connection.java:120-125 | the URI string for the transport client: "ssl://" when TLS, else "tcp://", then host, ':' and the decimal port. Its content is pinned down by ServerUriRoundTrip |
| Connections.Connection.Create | k-mqtt/src/main/java/com/kozaris/android/k_mqtt/Connection.java:118-171 | a new connection has the given identity and endpoint, status NONE, persistence id -1, exactly one "Client: <id> created" history entry, no listeners, no subscriptions, an empty buffer, and a fresh transport client for the TLS-selected URI |
| Connections.Connection.UpdateConnection | k-mqtt/src/main/java/com/kozaris/android/k_mqtt/Connection.java:131-145 | replaces client id, host, port and TLS flag and builds a fresh transport client for the new URI; nothing else changes |
| Connections.Connection.IsConnected | k-mqtt/src/main/java/com/kozaris/android/k_mqtt/Connection.java:192-194 | true exactly when the status is CONNECTED; ActionListeners.ConnectedAfterApplied states how each completion changes it |
| Connections.EqualsIsEquivalence | k-mqtt/src/main/java/com/kozaris/android/k_mqtt/Connection.java:251-260 | equality by client id is reflexive, symmetric and transitive |
| Connections.Connection.Equals | k-mqtt/src/main/java/com/kozaris/android/k_mqtt/Connection.java:251-260 | true exactly when the argument is a non-null connection with the same client id; EqualsIsEquivalence proves it an equivalence |
| Connections.Connection.IsSsl | k-mqtt/src/main/java/com/kozaris/android/k_mqtt/Connection.java:342-344 | the result is 0 or 1, and 1 exactly when the connection uses TLS |
| Connections.Connection.AssignPersistenceId | k-mqtt/src/main/java/com/kozaris/android/k_mqtt/Connection.java:350-352 | sets the persistence id and nothing else |
| Connections.Connection.AddAction | k-mqtt/src/main/java/com/kozaris/android/k_mqtt/Connection.java:177-187 | appends exactly one entry at the end of the history (earlier entries unchanged), then adds one "history" change event per change listener to the event log, in registration order; the invariant is kept |
| Connections.Connection.ChangeConnectionStatus | k-mqtt/src/main/java/com/kozaris/android/k_mqtt/Connection.java:200-203 | sets exactly the status, then adds one "connectionStatus" change event per change listener to the event log, in registration order |
| Connections.Connection.NotifyListeners | k-mqtt/src/main/java/com/kozaris/android/k_mqtt/Connection.java:322-328 | the loop appends the change event for each registered change listener once, in list order, and changes nothing else |
| Connections.Connection.RegisterChangeListener | k-mqtt/src/main/java/com/kozaris/android/k_mqtt/Connection.java:310-316 | appends the listener only when absent, so the registry stays duplicate-free and re-registering leaves it unchanged |
| Connections.Connection.AddReceivedMessageListener | k-mqtt/src/main/java/com/kozaris/android/k_mqtt/Connection.java:405-410 | the same idempotent, duplicate-free registration for message listeners |
| Connections.Connection.AddNewSubscription | k-mqtt/src/main/java/com/kozaris/android/k_mqtt/Connection.java:364-381 | a known topic is a no-op with no transport or store call; otherwise exactly one subscribe (topic, QoS, subscribe callback tagged with the topic); a transport rejection throws before any store call or map change; a store failure throws and leaves map and subscription untouched; on success the map gains exactly that topic, whose subscription now carries the store's row id |
| Connections.Connection.Unsubscribe | k-mqtt/src/main/java/com/kozaris/android/k_mqtt/Connection.java:384-392 | an absent topic is a no-op; otherwise the unsubscribe call comes first; its rejection leaves map and store untouched; on acceptance exactly that key is removed and one store delete of the subscription is issued |
| Connections.PutAllLastWins | k-mqtt/src/main/java/com/kozaris/android/k_mqtt/Connection.java:394-398 | after the put-by-topic merge every merged topic holds its last occurrence in the list |
| Connections.PutAllKeepsOtherKeys | k-mqtt/src/main/java/com/kozaris/android/k_mqtt/Connection.java:394-398 | topics not in the list keep their previous subscription, and only listed topics are added |
| Connections.PutAllKeys | k-mqtt/src/main/java/com/kozaris/android/k_mqtt/Connection.java:394-398 | the merged map's topics are the old topics plus the listed ones |
| Connections.Connection.SetSubscriptions | k-mqtt/src/main/java/com/kozaris/android/k_mqtt/Connection.java:394-398 | the loop leaves the map equal to the put-by-topic merge of the list into the old map, in list order, and keeps the invariant |
| Connections.Connection.GetSubscriptions | k-mqtt/src/main/java/com/kozaris/android/k_mqtt/Connection.java:400-403 | returns a new list holding each subscription of the map exactly once (in some iteration order) and changes nothing |
| Connections.BufferAfter | k-mqtt/src/main/java/com/kozaris/android/k_mqtt/Connection.java:414-417 | one arrival appends the message to the buffer if it holds at most 20, and otherwise leaves only the new message; a buffer of at most 21 stays at most 21 |
| Connections.ArrivalsWindow | k-mqtt/src/main/java/com/kozaris/android/k_mqtt/Connection.java:412-418 | after N ≥ 1 arrivals from empty the buffer holds ((N-1) mod 21)+1 messages, and they are the last ones to arrive, in order (so the newest is last) |
| Connections.Connection.MessageArrived | k-mqtt/src/main/java/com/kozaris/android/k_mqtt/Connection.java:412-426 | the buffer follows the clear-when-above-20 rule and then ends with the new message; only the subscription filed under exactly this topic has its last message set to the payload; after that, every message listener receives the message once, in order, each seeing the buffer that already ends with it |
| Connections.Connection.NotifyMessageListeners | k-mqtt/src/main/java/com/kozaris/android/k_mqtt/Connection.java:422-424 | the loop hands the message, together with the current buffer, to every message listener once, in registration order |
| ActionListeners.DispatchTable | k-mqtt/src/main/java/com/kozaris/android/k_mqtt/ActionListener.java:105-242 | only CONNECT and DISCONNECT touch the status; a connect ends CONNECTED on success and ERROR on failure; a disconnect ends DISCONNECTED either way; success and failure of one action leave different entries |
| ActionListeners.Effect | k-mqtt/src/main/java/com/kozaris/android/k_mqtt/ActionListener.java:82-98 | the table the switches of onSuccess and of onFailure (ActionListener.java:173-189) implement: for each action kind and outcome, the status to set (if any) and the entry to add; its properties are DispatchTable |
| ActionListeners.ConnectedAfterApplied | k-mqtt/src/main/java/com/kozaris/android/k_mqtt/Connection.java:192-194 | after any completion, the connection is connected exactly when the transition set CONNECTED, or set no status and it was connected before |
| ActionListeners.ActionListener.constructor | k-mqtt/src/main/java/com/kozaris/android/k_mqtt/ActionListener.java:68-74 | stores the action, the connection and the formatting arguments, and the registry the context leads to |
| ActionListeners.ActionListener.OnSuccess | k-mqtt/src/main/java/com/kozaris/android/k_mqtt/ActionListener.java:82-98 | performs exactly the success transition of its action kind on the registry's active connection (status first when the kind sets one, then one entry, with the matching change events in that order); only CONNECT touches a transport, that of the listener's own connection |
| ActionListeners.ActionListener.OnFailure | k-mqtt/src/main/java/com/kozaris/android/k_mqtt/ActionListener.java:173-189 | performs exactly the failure transition of its action kind on the registry's active connection; no transport call |
| ActionListeners.ActionListener.ConnectSucceeded | k-mqtt/src/main/java/com/kozaris/android/k_mqtt/ActionListener.java:147-164 | on the active connection, status CONNECTED and then one "Client Connected" entry; then a resubscribe run over the subscriptions of the listener's own connection, on that connection's client |
| ActionListeners.ActionListener.ResubscribeAll | k-mqtt/src/main/java/com/kozaris/android/k_mqtt/ActionListener.java:153-162 | the try block: the calls added to the own connection's client form a resubscribe run over all its subscriptions in some iteration order; earlier calls are kept |
| ActionListeners.ActionListener.MarkConnected | k-mqtt/src/main/java/com/kozaris/android/k_mqtt/ActionListener.java:149-151 | on the active connection, status CONNECTED, then one "Client Connected" entry, with one status event per change listener before the history events |
| ActionListeners.Resubscribe | k-mqtt/src/main/java/com/kozaris/android/k_mqtt/ActionListener.java:153-162 | issues one subscribe (no callback) per subscription, in getSubscriptions order and with each one's QoS; the first rejection ends the loop and nothing after it is issued |
| ActionListeners.ResubscribeRunShape | k-mqtt/src/main/java/com/kozaris/android/k_mqtt/ActionListener.java:153-162 | in a resubscribe run the i-th call is for the i-th subscription with its QoS; every call but the last was accepted; the run stops short only after a rejection; if all were accepted there is one call per subscription |
| ActionListeners.IterationOrderLength | k-mqtt/src/main/java/com/kozaris/android/k_mqtt/ActionListener.java:155-156 | the order in which the loop visits the subscriptions lists exactly as many topics as the map holds |
| ActionListeners.ResubscribedCount | k-mqtt/src/main/java/com/kozaris/android/k_mqtt/ActionListener.java:153-162 | a reconnect issues at most one subscribe per remembered subscription, and exactly one per subscription when every call is accepted |
| ActionListeners.Requests | k-mqtt/src/main/java/com/kozaris/android/k_mqtt/ActionListener.java:155-159 | the (topic, QoS) pairs the loop reads, one per subscription in iteration order |
| ActionListeners.ActionListener.ConnectFailed | k-mqtt/src/main/java/com/kozaris/android/k_mqtt/ActionListener.java:236-242 | status ERROR, then one "Client failed to connect" entry |
| ActionListeners.ActionListener.DisconnectSucceeded | k-mqtt/src/main/java/com/kozaris/android/k_mqtt/ActionListener.java:134-140 | status DISCONNECTED, then one entry from the "disconnected" resource |
| ActionListeners.ActionListener.DisconnectFailed | k-mqtt/src/main/java/com/kozaris/android/k_mqtt/ActionListener.java:224-229 | status DISCONNECTED, then one "Disconnect Failed - an error occurred" entry |
| ActionListeners.ActionListener.SubscribeSucceeded | k-mqtt/src/main/java/com/kozaris/android/k_mqtt/ActionListener.java:120-127 | one entry from the subscribe-success resource with the arguments; the status is outside the frame and so unchanged |
| ActionListeners.ActionListener.SubscribeFailed | k-mqtt/src/main/java/com/kozaris/android/k_mqtt/ActionListener.java:210-217 | one entry from the subscribe-failure resource; status unchanged |
| ActionListeners.ActionListener.PublishSucceeded | k-mqtt/src/main/java/com/kozaris/android/k_mqtt/ActionListener.java:105-113 | one entry from the publish-success resource; status unchanged |
| ActionListeners.ActionListener.PublishFailed | k-mqtt/src/main/java/com/kozaris/android/k_mqtt/ActionListener.java:196-203 | one entry from the publish-failure resource; status unchanged |
| CallbackHandlers.MqttCallbackHandler.constructor | k-mqtt/src/main/java/com/kozaris/android/k_mqtt/MqttCallbackHandler.java:26-29 | binds the handler to the registry it looks the active connection up in |
| CallbackHandlers.MqttCallbackHandler.ConnectionLost | k-mqtt/src/main/java/com/kozaris/android/k_mqtt/MqttCallbackHandler.java:36-44 | with a cause, one "Connection Lost" entry and then status DISCONNECTED (history notice before status notice); with a null cause the frame is empty, so nothing changes |
| CallbackHandlers.MqttCallbackHandler.MessageArrived | k-mqtt/src/main/java/com/kozaris/android/k_mqtt/MqttCallbackHandler.java:53-66 | exactly the active connection's own message-arrival update (buffer ending with the message, exact-topic last message), then one history entry from the message-received resource with the payload and the topic/QoS/retained details; in the event log every message listener receives the message with the grown buffer before any change listener hears of the history entry |
| CallbackHandlers.BoolText | k-mqtt/src/main/java/com/kozaris/android/k_mqtt/MqttCallbackHandler.java:59 | a boolean renders as "true" exactly when it is true, else "false" |
| CallbackHandlers.ArrivalDetailsRecoverable | k-mqtt/src/main/java/com/kozaris/android/k_mqtt/MqttCallbackHandler.java:59 | the details text starts with the topic, its QoS field parses back to the message's QoS, and it ends in "true" exactly when the message is retained |
| CallbackHandlers.MqttCallbackHandler.DeliveryComplete | k-mqtt/src/main/java/com/kozaris/android/k_mqtt/MqttCallbackHandler.java:73-75 | the empty callback: it has no modifies clause, so no state changes |
| Clients.FirstIndexByHost | k-mqtt/src/main/java/com/kozaris/android/k_mqtt/MqttClient.java:53-58 | the position of the first stored connection whose host equals the name ignoring case; None exactly when no host matches |
| Clients.FirstIndexByHostIgnoresCase | k-mqtt/src/main/java/com/kozaris/android/k_mqtt/MqttClient.java:54 | host names differing only in letter case find the same connection |
| Clients.SearchByHost | k-mqtt/src/main/java/com/kozaris/android/k_mqtt/MqttClient.java:53-58 | the for-each loop returns exactly the first host match |
| Clients.LastRestored | k-mqtt/src/main/java/com/kozaris/android/k_mqtt/MqttClient.java:28-30 | the last element of a successful, non-empty restore; None for a failed or empty restore |
| Clients.Materialise | k-mqtt/src/main/java/com/kozaris/android/k_mqtt/MqttClient.java:28 | one restored connection: a new, valid connection created from the row's client id, host, port and TLS flag (status NONE, the one "created" entry, no listeners, no subscriptions) that then takes the row's id |
| Clients.MaterialiseAll | k-mqtt/src/main/java/com/kozaris/android/k_mqtt/MqttClient.java:28 | the restored list has one new, valid connection per stored row, in store order, each carrying that row's fields and id |
| Clients.MqttClient.constructor | k-mqtt/src/main/java/com/kozaris/android/k_mqtt/MqttClient.java:24-34 | exactly one restore; the active connection is the last restored connection, and null exactly when the store fails or returns an empty list |
| Clients.MqttClient.GetConnection | k-mqtt/src/main/java/com/kozaris/android/k_mqtt/MqttClient.java:97-99 | the active connection, null when there is none |
| Clients.MqttClient.FindConnectionByHost | k-mqtt/src/main/java/com/kozaris/android/k_mqtt/MqttClient.java:50-63 | exactly one restore; returns the first restored connection whose host equals the name ignoring case, and null exactly when there is no match or the store fails |
| Clients.MqttClient.SetConnection | k-mqtt/src/main/java/com/kozaris/android/k_mqtt/MqttClient.java:69-81 | a restore, then either (host match) the argument takes the match's persistence id and is written as an update, or (no match) its record is persisted and, when the store returns a row id, it carries that id, a store failure being swallowed and the id kept; either way it becomes the active connection |
| Clients.MqttClient.AddConnectionToDB | k-mqtt/src/main/java/com/kozaris/android/k_mqtt/MqttClient.java:83-91 | exactly one persist call with the connection's record; a successful persist leaves the connection carrying the row id the store assigned; a failure does not escape and leaves the id as it was |
| Clients.MqttClient.UpdateConnection | k-mqtt/src/main/java/com/kozaris/android/k_mqtt/MqttClient.java:129-132 | the argument becomes active and exactly one store update of it is issued |
| Clients.MqttClient.RemoveConnection | k-mqtt/src/main/java/com/kozaris/android/k_mqtt/MqttClient.java:119-122 | exactly one store delete of the active connection (null passed on as such), and the active connection becomes null |
| Clients.MqttClient.GetConnectionList | k-mqtt/src/main/java/com/kozaris/android/k_mqtt/MqttClient.java:107-114 | exactly one restore; null on failure, otherwise one connection per stored row in store order |
| Clients.Session.constructor | k-mqtt/src/main/java/com/kozaris/android/k_mqtt/MqttClient.java:12 | the singleton slot starts empty |
| Clients.Session.GetInstance | k-mqtt/src/main/java/com/kozaris/android/k_mqtt/MqttClient.java:42-47 | creates the client (one restore) only while the slot is empty, and the new client's active connection is the last restored connection, or null when the store fails or holds none; every later call returns the same client and makes no store call |
| Clients.GetInstanceTwice | k-mqtt/src/main/java/com/kozaris/android/k_mqtt/MqttClient.java:42-47 | two lookups in a row return the same client and restore at most once |

The getters of Subscription and Connection are plain field reads. `CallbackHandlers.BoolText` and `CallbackHandlers.ArrivalDetailsRecoverable` concern only the rendering of the history text; they carry no session behaviour.

## Left out

- The Paho transport: connect, disconnect, publish, `setCallback` and the trace callback are not modelled. Only the subscribe and unsubscribe calls the core issues are recorded, with the synchronous acceptance chosen by the environment.
- `Persistence.java` is not part of this model. The store is a call log whose results the environment chooses: the outcome of a restore, and the row id or failure of a persist. How the store picks row ids is not modelled. A successful `persistConnection` is taken to assign the row id to the connection through `assignPersistenceId` (Connection.java:350-352); `addConnectionToDB` (MqttClient.java:83-91) ignores the result itself.
- `Clients.Materialise`: how `restoreConnections` rebuilds a stored connection is inside `Persistence.java`. The model fixes one choice: each row becomes a newly created connection (status NONE, the one "created" entry, no listeners, no subscriptions) with the row's client id, host, port, TLS flag and id. Restored subscriptions, restored history and a restored status are therefore not modelled.
- Android `Context.getString` resources, `DateFormat` timestamps and `Connection.toString`/`Subscription.toString`: entries carry a resource tag with its arguments and an opaque timestamp string supplied by the caller.
- Payload decoding: `ReceivedMessage` construction is reduced to a (topic, message) value, with the payload an opaque string.
- `PropertyChangeEvent` objects: a notification records only the listener and the property name. The old and new values carried by the event are not recorded.
- Logging, `System.out` and `printStackTrace`: these have no state effect. The exception passed to `onFailure` and the cause passed to `connectionLost` are only logged, so `OnFailure` takes no exception argument and `ConnectionLost` takes only whether there is a cause.
- `synchronized` on `getInstance` and cross-thread callback delivery: every call is modelled as sequential.
- `addConnectionOptions`/`getConnectionOptions`: these hold a Paho options object and have no behaviour of their own.
- `ActionListeners.ActionListener.OnSuccess`, `OnFailure` and the eight handlers they dispatch to: each handler calls `MqttClient.getInstance(context).getConnection()` (ActionListener.java:107, 121, 135, 149, 197, 211, 225, 237), and the model requires that the registry already exists and has an active connection. Two behaviours are therefore not modelled. First, creating the registry inside a handler, together with the restore that creation performs. Second, the NullPointerException a handler throws when there is no active connection. The model does keep the split in `connect()`: the status and history of the active connection change, while the resubscribe runs on the listener's own connection. So a listener whose connection is not the active one updates the active connection.
- `CallbackHandlers.MqttCallbackHandler.MessageArrived` and `ConnectionLost`: these require an existing registry with a non-null active connection. The Java code would create the registry on demand, and with no active connection it fails with a NullPointerException. Neither path is modelled.
- `Connections.Connection.GetSubscriptions`: the order of the returned list is HashMap iteration order. The model proves only that some duplicate-free order of all topics is used.
- `Connections.Connection.Equals`: `equals` compares client ids without checking for a null id. The model's strings are never null.
- `Connections.Connection.Valid`: `getMessages` (Connection.java:427-429) hands out the live buffer list, so a caller could grow it past 21 messages. The bound in `Valid()` assumes no caller mutates the returned list; no code in the library does.
- `Clients.FirstIndexByHost`: the match ignores case for ASCII letters only (`EqualsIgnoreCase` in `java_text.dfy`), while Java's `equalsIgnoreCase` folds every Unicode letter. Host names are DNS names or IP literals, which are ASCII (internationalised names travel in their ASCII "xn--" form), so the two agree on every host this lookup is meant for.
- `Subscriptions.Subscription.SetTopic`: the invariant `Connection.Valid()` files every subscription under its own topic. Calling `setTopic` on a subscription that a connection's map already holds would break that invariant, because Java's map keeps the old key. Connection methods therefore require the invariant, and such aliasing is not modelled. No code in the library calls `setTopic`.
- Integer widths: ports, QoS and row ids are unbounded integers. `long` persistence ids and `int` ports never reach the overflow range in this code.
