/** Subscription: a mutable record of one topic a connection subscribes to. */
module Subscriptions {
  import opened Wrappers
  import opened Values

  class Subscription {
    var topic: string
    var qos: int
    /** null until the first message on this topic arrives. */
    var lastMessage: Option<string>
    var clientId: string
    /** Row id in the store; a Java long field that nothing assigns starts at 0. */
    var persistenceId: int
    var enableNotifications: bool

    constructor (topic: string, qos: int, clientId: string, enableNotifications: bool)
      ensures this.topic == topic && this.qos == qos
      ensures this.clientId == clientId && this.enableNotifications == enableNotifications
      ensures lastMessage == None && persistenceId == 0
    {
      this.topic := topic;
      this.qos := qos;
      this.clientId := clientId;
      this.enableNotifications := enableNotifications;
      lastMessage := None;
      persistenceId := 0;
    }

    /** The record of all fields, as the store receives it. */
    function View(): SubscriptionRecord
      reads this
    {
      SubscriptionRecord(topic, qos, lastMessage, clientId, persistenceId, enableNotifications)
    }

    method SetTopic(topic: string)
      modifies this`topic
      ensures this.topic == topic
    {
      this.topic := topic;
    }

    method SetQos(qos: int)
      modifies this`qos
      ensures this.qos == qos
    {
      this.qos := qos;
    }

    method SetLastMessage(lastMessage: Option<string>)
      modifies this`lastMessage
      ensures this.lastMessage == lastMessage
    {
      this.lastMessage := lastMessage;
    }

    method SetClientId(clientId: string)
      modifies this`clientId
      ensures this.clientId == clientId
    {
      this.clientId := clientId;
    }

    method SetPersistenceId(persistenceId: int)
      modifies this`persistenceId
      ensures this.persistenceId == persistenceId
    {
      this.persistenceId := persistenceId;
    }
  }
}
