/**
 * The Paho MqttAndroidClient, reduced to what the session code calls on it. Each call is
 * recorded in `calls` together with whether it was accepted; a call that is not accepted
 * stands for the MqttException the client throws synchronously. Acceptance is chosen by
 * the environment, so every outcome is possible.
 */
module Transport {
  import opened Wrappers
  import opened Values

  datatype Call =
    | SubscribeCall(topic: string, qos: int, callback: Option<Tag>, accepted: bool)
    | UnsubscribeCall(topic: string, accepted: bool)

  class Client {
    /** The server URI and client id the client was created with. */
    const serverUri: string
    const clientId: string
    /** Every call made on this client, oldest first. */
    var calls: seq<Call>

    constructor (serverUri: string, clientId: string)
      ensures this.serverUri == serverUri && this.clientId == clientId
      ensures calls == []
    {
      this.serverUri := serverUri;
      this.clientId := clientId;
      calls := [];
    }

    /** subscribe(topic, qos[, userContext, callback]) */
    method Subscribe(topic: string, qos: int, callback: Option<Tag>) returns (accepted: bool)
      modifies this`calls
      ensures calls == old(calls) + [SubscribeCall(topic, qos, callback, accepted)]
    {
      accepted := *;
      calls := calls + [SubscribeCall(topic, qos, callback, accepted)];
    }

    /** unsubscribe(topic) */
    method Unsubscribe(topic: string) returns (accepted: bool)
      modifies this`calls
      ensures calls == old(calls) + [UnsubscribeCall(topic, accepted)]
    {
      accepted := *;
      calls := calls + [UnsubscribeCall(topic, accepted)];
    }
  }
}
