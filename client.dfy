/**
 * MqttClient: the process-wide session registry. It owns the persistence store, remembers the
 * one active connection, and restores the last stored connection when it is first created.
 * The static `instance` of the Java class is the field of a `Session` object.
 */
module Clients {
  import opened Wrappers
  import opened Values
  import opened JavaText
  import opened Connections
  import Persistence

  /** The host of `rec` equals `hostname`, ignoring case. */
  predicate HostMatches(rec: ConnectionRecord, hostname: string) {
    EqualsIgnoreCase(rec.host, hostname)
  }

  /** The position of the first record whose host equals `hostname` ignoring case, if any. */
  function FirstIndexByHost(records: seq<ConnectionRecord>, hostname: string): (r: Option<nat>)
    ensures r.Some? ==> r.value < |records| && HostMatches(records[r.value], hostname)
    ensures r.Some? ==> forall j :: 0 <= j < r.value ==> !HostMatches(records[j], hostname)
    ensures r.None? <==> forall j :: 0 <= j < |records| ==> !HostMatches(records[j], hostname)
  {
    if records == [] then None
    else if HostMatches(records[0], hostname) then Some(0)
    else match FirstIndexByHost(records[1..], hostname)
      case None => None
      case Some(k) => Some(k + 1)
  }

  /** Two lookups whose host names differ only in letter case find the same record. */
  lemma FirstIndexByHostIgnoresCase(records: seq<ConnectionRecord>, a: string, b: string)
    requires EqualsIgnoreCase(a, b)
    ensures FirstIndexByHost(records, a) == FirstIndexByHost(records, b)
  {
    forall j | 0 <= j < |records|
      ensures HostMatches(records[j], a) <==> HostMatches(records[j], b)
    {
      EqualsIgnoreCaseIsEquivalence(records[j].host, a, b);
      EqualsIgnoreCaseIsEquivalence(records[j].host, b, a);
    }
  }

  /** The for-each loop of findConnectionByHost: stops at the first host match. */
  method SearchByHost(records: seq<ConnectionRecord>, hostname: string) returns (r: Option<nat>)
    ensures r == FirstIndexByHost(records, hostname)
  {
    var i := 0;
    while i < |records|
      invariant 0 <= i <= |records|
      invariant forall j :: 0 <= j < i ==> !HostMatches(records[j], hostname)
    {
      if EqualsIgnoreCase(records[i].host, hostname) {
        var first := FirstIndexByHost(records, hostname);
        assert first.Some? && !(first.value < i) && !(i < first.value);
        return Some(i);
      }
      i := i + 1;
    }
    return None;
  }

  /** The last stored connection, when the store answered with a non-empty list. */
  function LastRestored(restored: Option<seq<ConnectionRecord>>): (r: Option<ConnectionRecord>)
    ensures r.None? <==> restored.None? || restored.value == []
    ensures r.Some? ==> r.value == restored.value[|restored.value| - 1]
  {
    match restored
    case None => None
    case Some(list) => if list == [] then None else Some(list[|list| - 1])
  }

  /** A connection rebuilt from a stored row: created afresh, then given the row's id. */
  method Materialise(rec: ConnectionRecord, now: string) returns (c: Connection)
    ensures fresh(c) && fresh(c.client) && c.Valid()
    ensures c.Record() == rec && c.status == Unknown
    ensures c.history == [Entry(Literal("Client: " + rec.clientId + " created"), now)]
    ensures c.subscriptions == map[] && c.changeListeners == [] && c.messageListeners == []
  {
    c := new Connection.Create(rec.clientId, rec.host, rec.port, rec.tls, now);
    c.AssignPersistenceId(rec.persistenceId);
  }

  /** The list restoreConnections builds: one connection per stored row, in store order. */
  method MaterialiseAll(records: seq<ConnectionRecord>, now: string) returns (connections: seq<Connection>)
    ensures |connections| == |records|
    ensures forall i :: 0 <= i < |records| ==>
      fresh(connections[i]) && connections[i].Valid() && connections[i].Record() == records[i]
  {
    connections := [];
    var i := 0;
    while i < |records|
      invariant 0 <= i <= |records| && |connections| == i
      invariant forall j :: 0 <= j < i ==>
        fresh(connections[j]) && connections[j].Valid() && connections[j].Record() == records[j]
    {
      var c := Materialise(records[i], now);
      connections := connections + [c];
      i := i + 1;
    }
  }

  /** Whether the last entry of `log` is a restoreConnections call, and with what answer. */
  ghost predicate EndsWithRestore(log: seq<Persistence.Call>, before: seq<Persistence.Call>) {
    && |log| == |before| + 1
    && log[..|before|] == before
    && log[|before|].RestoreConnectionsCall?
  }

  class MqttClient {
    var activeConnection: Connection?
    const persistence: Persistence.Store

    /**
     * The private constructor: one restore; the active connection is the last stored
     * connection, or null when the store fails or holds none.
     */
    constructor (persistence: Persistence.Store, now: string)
      modifies persistence
      ensures this.persistence == persistence
      ensures EndsWithRestore(persistence.log, old(persistence.log))
      ensures var last := LastRestored(persistence.log[|persistence.log| - 1].restored);
        && (activeConnection == null <==> last.None?)
        && (activeConnection != null ==>
              fresh(activeConnection) && activeConnection.Valid() && activeConnection.Record() == last.value)
    {
      this.persistence := persistence;
      var restored := persistence.RestoreConnections();
      var active: Connection? := null;
      if restored.Some? && restored.value != [] {
        var list := MaterialiseAll(restored.value, now);
        active := list[|list| - 1];
      }
      activeConnection := active;
    }

    /** getConnection. */
    function GetConnection(): Connection?
      reads this
    {
      activeConnection
    }

    /**
     * findConnectionByHost: restores the stored connections and returns the first whose host
     * equals `hostname` ignoring case; null for no match and for a store failure.
     */
    method FindConnectionByHost(hostname: string, now: string) returns (found: Connection?)
      modifies persistence
      ensures EndsWithRestore(persistence.log, old(persistence.log))
      ensures var restored := persistence.log[|persistence.log| - 1].restored;
        && (found == null <==> restored.None? || FirstIndexByHost(restored.value, hostname).None?)
        && (found != null ==>
              fresh(found) && found.Valid()
              && found.Record() == restored.value[FirstIndexByHost(restored.value, hostname).value])
    {
      var restored := persistence.RestoreConnections();
      if restored.None? {
        return null;
      }
      var list := MaterialiseAll(restored.value, now);
      var index := SearchByHost(restored.value, hostname);
      if index.None? {
        return null;
      }
      found := list[index.value];
    }

    /**
     * setConnection: a stored connection with the same host (ignoring case) lends its id and
     * the argument is written over it; otherwise the argument is added to the store, a
     * failure being swallowed. Either way it becomes the active connection.
     */
    method SetConnection(connection: Connection, now: string)
      modifies this`activeConnection, persistence, connection`persistenceId
      ensures activeConnection == connection
      ensures |persistence.log| == |old(persistence.log)| + 2
      ensures EndsWithRestore(persistence.log[..|old(persistence.log)| + 1], old(persistence.log))
      ensures var restored := persistence.log[|old(persistence.log)|].restored;
        var hit := if restored.None? then None else FirstIndexByHost(restored.value, connection.host);
        var written := persistence.log[|old(persistence.log)| + 1];
        && (hit.Some? ==>
              && connection.persistenceId == restored.value[hit.value].persistenceId
              && written == Persistence.UpdateConnectionCall(connection.Record()))
        && (hit.None? ==>
              && written.PersistConnectionCall? && written.connection == old(connection.Record())
              && connection.persistenceId == written.rowId.GetOr(old(connection.persistenceId)))
    {
      var dbConnection := FindConnectionByHost(connection.host, now);
      if dbConnection != null {
        connection.AssignPersistenceId(dbConnection.persistenceId);
        UpdateConnection(connection);
      } else {
        AddConnectionToDB(connection);
      }
      activeConnection := connection;
    }

    /**
     * addConnectionToDB: persists the connection; a PersistenceException is swallowed. A
     * successful persist leaves the connection carrying the row id the store assigned (the
     * store does this through assignPersistenceId); a failed one leaves the id as it was.
     */
    method AddConnectionToDB(connection: Connection)
      modifies persistence, connection`persistenceId
      ensures |persistence.log| == |old(persistence.log)| + 1
      ensures persistence.log[..|old(persistence.log)|] == old(persistence.log)
      ensures var call := persistence.log[|old(persistence.log)|];
        && call.PersistConnectionCall? && call.connection == old(connection.Record())
        && connection.persistenceId == call.rowId.GetOr(old(connection.persistenceId))
    {
      var rowId := persistence.PersistConnection(connection.Record());
      if rowId.Some? {
        connection.AssignPersistenceId(rowId.value);
      }
    }

    /** updateConnection (private): the argument becomes active and overwrites its stored row. */
    method UpdateConnection(connection: Connection)
      modifies this`activeConnection, persistence
      ensures activeConnection == connection
      ensures persistence.log == old(persistence.log) + [Persistence.UpdateConnectionCall(connection.Record())]
    {
      activeConnection := connection;
      persistence.UpdateConnection(connection.Record());
    }

    /** removeConnection: deletes the active connection from the store (null is passed on as is) and forgets it. */
    method RemoveConnection()
      modifies this`activeConnection, persistence
      ensures activeConnection == null
      ensures persistence.log == old(persistence.log)
        + [Persistence.DeleteConnectionCall(if old(activeConnection) == null then None else Some(old(activeConnection.Record())))]
    {
      persistence.DeleteConnection(if activeConnection == null then None else Some(activeConnection.Record()));
      activeConnection := null;
    }

    /** getConnectionList: every stored connection, in store order; null on a store failure. */
    method GetConnectionList(now: string) returns (list: Option<seq<Connection>>)
      modifies persistence
      ensures EndsWithRestore(persistence.log, old(persistence.log))
      ensures var restored := persistence.log[|persistence.log| - 1].restored;
        && (list.None? <==> restored.None?)
        && (list.Some? ==>
              && |list.value| == |restored.value|
              && forall i :: 0 <= i < |list.value| ==>
                   fresh(list.value[i]) && list.value[i].Valid() && list.value[i].Record() == restored.value[i])
    {
      var restored := persistence.RestoreConnections();
      if restored.None? {
        return None;
      }
      var connections := MaterialiseAll(restored.value, now);
      return Some(connections);
    }
  }

  /** The static `instance` slot of MqttClient, with the store the application context opens. */
  class Session {
    var instance: MqttClient?
    const store: Persistence.Store

    constructor (store: Persistence.Store)
      ensures instance == null && this.store == store
    {
      instance := null;
      this.store := store;
    }

    /**
     * getInstance: creates the client (and so restores) only while the slot is empty; every
     * later call returns that same client and leaves the store untouched.
     */
    method GetInstance(now: string) returns (client: MqttClient)
      modifies this`instance, store
      ensures instance == client
      ensures old(instance) != null ==> client == old(instance) && store.log == old(store.log)
      ensures old(instance) == null ==>
        && fresh(client) && client.persistence == store && EndsWithRestore(store.log, old(store.log))
        && var last := LastRestored(store.log[|store.log| - 1].restored);
           && (client.activeConnection == null <==> last.None?)
           && (client.activeConnection != null ==>
                 fresh(client.activeConnection) && client.activeConnection.Valid()
                 && client.activeConnection.Record() == last.value)
    {
      if instance == null {
        instance := new MqttClient(store, now);
      }
      client := instance;
    }
  }

  /** Two calls in a row hand out one client and restore at most once. */
  method GetInstanceTwice(session: Session, now: string) returns (first: MqttClient, second: MqttClient)
    modifies session, session.store
    ensures first == second
    ensures |session.store.log| <= |old(session.store.log)| + 1
  {
    first := session.GetInstance(now);
    second := session.GetInstance(now);
  }
}
