/**
 * The Persistence store, reduced to the calls the session code makes. Each call is recorded
 * in `log` with its result. The operations declared to throw PersistenceException
 * (restoreConnections, persistConnection, persistSubscription) may fail; what they return is
 * chosen by the environment. The update and delete operations are not declared to throw.
 */
module Persistence {
  import opened Wrappers
  import opened Values

  datatype Call =
    | RestoreConnectionsCall(restored: Option<seq<ConnectionRecord>>)
    | PersistConnectionCall(connection: ConnectionRecord, rowId: Option<int>)
    | UpdateConnectionCall(connection: ConnectionRecord)
    | DeleteConnectionCall(deleted: Option<ConnectionRecord>)
    | PersistSubscriptionCall(subscription: SubscriptionRecord, rowId: Option<int>)
    | DeleteSubscriptionCall(subscription: SubscriptionRecord)

  class Store {
    /** Every call made on the store, oldest first. */
    var log: seq<Call>

    constructor ()
      ensures log == []
    {
      log := [];
    }

    /** restoreConnections: the stored connections in order, None for a PersistenceException. */
    method RestoreConnections() returns (restored: Option<seq<ConnectionRecord>>)
      modifies this
      ensures log == old(log) + [RestoreConnectionsCall(restored)]
    {
      restored := *;
      log := log + [RestoreConnectionsCall(restored)];
    }

    /** persistConnection: the row id the store assigns, None for a PersistenceException. */
    method PersistConnection(connection: ConnectionRecord) returns (rowId: Option<int>)
      modifies this
      ensures log == old(log) + [PersistConnectionCall(connection, rowId)]
    {
      rowId := *;
      log := log + [PersistConnectionCall(connection, rowId)];
    }

    method UpdateConnection(connection: ConnectionRecord)
      modifies this
      ensures log == old(log) + [UpdateConnectionCall(connection)]
    {
      log := log + [UpdateConnectionCall(connection)];
    }

    /** deleteConnection; None is the null the caller may pass. */
    method DeleteConnection(connection: Option<ConnectionRecord>)
      modifies this
      ensures log == old(log) + [DeleteConnectionCall(connection)]
    {
      log := log + [DeleteConnectionCall(connection)];
    }

    /** persistSubscription: the new row id, None for a PersistenceException. */
    method PersistSubscription(subscription: SubscriptionRecord) returns (rowId: Option<int>)
      modifies this
      ensures log == old(log) + [PersistSubscriptionCall(subscription, rowId)]
    {
      rowId := *;
      log := log + [PersistSubscriptionCall(subscription, rowId)];
    }

    method DeleteSubscription(subscription: SubscriptionRecord)
      modifies this
      ensures log == old(log) + [DeleteSubscriptionCall(subscription)]
    {
      log := log + [DeleteSubscriptionCall(subscription)];
    }
  }
}
