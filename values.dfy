/** Immutable records shared by the session classes, the transport and the store. */
module Values {
  import opened Wrappers

  /** ActionListener.Action: the asynchronous actions a listener can be bound to. */
  datatype Action = Connect | Disconnect | Subscribe | Publish

  /** The ActionListener handed to a transport call: its action and its formatting arguments. */
  datatype Tag = Tag(action: Action, args: seq<string>)

  /** An MqttMessage as delivered; the payload is kept as the text `new String(payload)` gives. */
  datatype MqttMessage = MqttMessage(payload: string, qos: int, retained: bool)

  /** A ReceivedMessage: the topic it arrived on and the message itself. */
  datatype ReceivedMessage = ReceivedMessage(topic: string, message: MqttMessage)

  /** The fields of a Subscription at one moment, as handed to the store. */
  datatype SubscriptionRecord = SubscriptionRecord(
    topic: string, qos: int, lastMessage: Option<string>,
    clientId: string, persistenceId: int, enableNotifications: bool)

  /** The fields of a Connection that the store keeps and gives back on restore. */
  datatype ConnectionRecord = ConnectionRecord(
    clientId: string, host: string, port: int, tls: bool, persistenceId: int)

  /** The string resources that history texts are formatted from. */
  datatype Resource =
    | ToastSubSuccess | ToastSubFailed
    | ToastPubSuccess | ToastPubFailed
    | ToastDisconnected | MessageReceived

  /** The text of a history entry: a literal, or a resource template with its arguments. */
  datatype Text = Literal(s: string) | Template(resource: Resource, args: seq<string>)

  /** One history entry: the action text followed by the timestamp of the moment it was added. */
  datatype Entry = Entry(text: Text, timestamp: string)
}
