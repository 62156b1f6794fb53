/**
 * ActionListener: the callback bound to one asynchronous transport call. When the transport
 * reports the call's completion it turns it into a status change and a history entry on the
 * connection, and a successful connect also re-issues the remembered subscriptions.
 */
module ActionListeners {
  import opened Wrappers
  import opened Values
  import opened Listeners
  import opened Connections
  import opened Subscriptions
  import opened Clients
  import Transport

  /** What one completion does: an optional new status, set before the entry is added, and the entry's text. */
  datatype Transition = Transition(status: Option<ConnectionStatus>, text: Text)

  /** The dispatch table of onSuccess and onFailure, by action kind and outcome. */
  function Effect(action: Action, succeeded: bool, args: seq<string>): Transition {
    match action
    case Connect =>
      if succeeded then Transition(Some(Connected), Literal("Client Connected"))
      else Transition(Some(Error), Literal("Client failed to connect"))
    case Disconnect =>
      if succeeded then Transition(Some(Disconnected), Template(ToastDisconnected, []))
      else Transition(Some(Disconnected), Literal("Disconnect Failed - an error occurred"))
    case Subscribe =>
      Transition(None, Template(if succeeded then ToastSubSuccess else ToastSubFailed, args))
    case Publish =>
      Transition(None, Template(if succeeded then ToastPubSuccess else ToastPubFailed, args))
  }

  /**
   * The table's promises: only CONNECT and DISCONNECT touch the status; a connect ends
   * CONNECTED or ERROR; a disconnect ends DISCONNECTED either way; and success and failure
   * of the same action leave different entries.
   */
  lemma DispatchTable(action: Action, succeeded: bool, args: seq<string>)
    ensures Effect(action, succeeded, args).status.None? <==> action == Subscribe || action == Publish
    ensures action == Connect ==> Effect(action, succeeded, args).status == Some(if succeeded then Connected else Error)
    ensures action == Disconnect ==> Effect(action, succeeded, args).status == Some(Disconnected)
    ensures Effect(action, true, args).text != Effect(action, false, args).text
  {
  }

  /** The connection went through `t` at time `now`: status first (when `t` sets one), then one entry. */
  twostate predicate Applied(c: Connection, t: Transition, now: string)
    reads c
  {
    && c.status == t.status.GetOr(old(c.status))
    && c.history == old(c.history) + [Entry(t.text, now)]
    && c.events == old(c.events)
         + (if t.status.Some? then Fanout(c.changeListeners, Changed(StatusProperty)) else [])
         + Fanout(c.changeListeners, Changed(HistoryProperty))
  }

  /**
   * isConnected() after a completion: it holds exactly when the transition set CONNECTED,
   * or set no status and the connection was connected before.
   */
  twostate lemma ConnectedAfterApplied(c: Connection, t: Transition, now: string)
    requires Applied(c, t, now)
    ensures c.IsConnected() <==> t.status == Some(Connected) || (t.status.None? && old(c.IsConnected()))
  {
  }

  /** `order` lists every key of `m` exactly once. */
  ghost predicate IsIterationOrder(order: seq<string>, m: map<string, Subscription>) {
    NoDuplicates(order) && forall t :: t in order <==> t in m
  }

  /** A duplicate-free list of exactly the elements of `keys` is as long as `keys` is large. */
  lemma {:induction false} DistinctListCount(order: seq<string>, keys: set<string>)
    requires NoDuplicates(order)
    requires forall t :: t in order <==> t in keys
    ensures |order| == |keys|
  {
    if order != [] {
      var rest := order[1..];
      assert forall i :: 0 <= i < |rest| ==> rest[i] == order[i + 1];
      assert order[0] !in rest;
      DistinctListCount(rest, keys - {order[0]});
    }
  }

  /** An iteration order visits as many topics as the map holds. */
  lemma IterationOrderLength(order: seq<string>, m: map<string, Subscription>)
    requires IsIterationOrder(order, m)
    ensures |order| == |m|
  {
    DistinctListCount(order, m.Keys);
  }

  /** The (topic, QoS) pairs to re-subscribe, following `order`. */
  ghost function Requests(m: map<string, Subscription>, order: seq<string>): (r: seq<(string, int)>)
    reads m.Values
    requires forall t :: t in order ==> t in m
    ensures |r| == |order|
    ensures forall i :: 0 <= i < |order| ==> r[i] == (order[i], m[order[i]].qos)
  {
    if order == [] then [] else [(order[0], m[order[0]].qos)] + Requests(m, order[1..])
  }

  /** Subscribe calls without callback for each request, all accepted. */
  function AcceptedCalls(requests: seq<(string, int)>): (r: seq<Transport.Call>)
    ensures |r| == |requests|
    ensures forall i :: 0 <= i < |r| ==> r[i] == Transport.SubscribeCall(requests[i].0, requests[i].1, None, true)
  {
    if requests == [] then []
    else AcceptedCalls(requests[..|requests| - 1])
         + [Transport.SubscribeCall(requests[|requests| - 1].0, requests[|requests| - 1].1, None, true)]
  }

  /**
   * The calls the re-subscribe loop issues: all requests accepted, or an accepted prefix
   * followed by the one rejected call whose exception leaves the loop.
   */
  ghost predicate ResubscribeRun(requests: seq<(string, int)>, issued: seq<Transport.Call>) {
    || issued == AcceptedCalls(requests)
    || exists k :: 0 <= k < |requests|
         && issued == AcceptedCalls(requests[..k]) + [Transport.SubscribeCall(requests[k].0, requests[k].1, None, false)]
  }

  /**
   * What a re-subscribe run looks like call by call: the i-th call subscribes to the i-th
   * request with its QoS and no callback; every call but the last was accepted; the run is
   * cut short only by a rejection; and when every call is accepted there is one per request.
   */
  lemma ResubscribeRunShape(requests: seq<(string, int)>, issued: seq<Transport.Call>)
    requires ResubscribeRun(requests, issued)
    ensures |issued| <= |requests|
    ensures forall i :: 0 <= i < |issued| ==>
      issued[i] == Transport.SubscribeCall(requests[i].0, requests[i].1, None, issued[i].accepted)
    ensures forall i :: 0 <= i < |issued| - 1 ==> issued[i].accepted
    ensures |issued| < |requests| ==> issued != [] && !issued[|issued| - 1].accepted
    ensures (forall i :: 0 <= i < |issued| ==> issued[i].accepted) ==> |issued| == |requests|
  {
    if issued != AcceptedCalls(requests) {
      var k :| 0 <= k < |requests|
        && issued == AcceptedCalls(requests[..k]) + [Transport.SubscribeCall(requests[k].0, requests[k].1, None, false)];
      assert !issued[k].accepted;
    }
  }

  /**
   * The calls on the connection's client extend `before` by a re-subscribe run over the
   * connection's subscriptions in some iteration order.
   */
  ghost predicate Resubscribed(c: Connection, before: seq<Transport.Call>)
    reads c, c.client, c.subscriptions.Values
  {
    && |before| <= |c.client.calls|
    && c.client.calls[..|before|] == before
    && exists order :: IsIterationOrder(order, c.subscriptions)
         && ResubscribeRun(Requests(c.subscriptions, order), c.client.calls[|before|..])
  }

  /** A list read off `m` in `order` carries exactly the requests of that order. */
  lemma RequestsOfList(m: map<string, Subscription>, subs: seq<Subscription>, order: seq<string>)
    requires forall t :: t in m ==> m[t].topic == t
    requires |subs| == |order| && NoDuplicates(order)
    requires forall t :: t in order <==> t in m
    requires forall i :: 0 <= i < |order| ==> order[i] in m && subs[i] == m[order[i]]
    ensures IsIterationOrder(order, m)
    ensures |subs| == |Requests(m, order)|
    ensures forall i :: 0 <= i < |subs| ==>
      subs[i].topic == Requests(m, order)[i].0 && subs[i].qos == Requests(m, order)[i].1
  {
    var requests := Requests(m, order);
    forall i | 0 <= i < |subs|
      ensures subs[i].topic == requests[i].0 && subs[i].qos == requests[i].1
    {
      assert subs[i] == m[order[i]];
    }
  }

  /**
   * A re-subscribe issues at most one call per remembered subscription, and exactly one
   * per subscription when every call is accepted.
   */
  lemma ResubscribedCount(c: Connection, before: seq<Transport.Call>)
    requires Resubscribed(c, before)
    ensures |c.client.calls[|before|..]| <= |c.subscriptions|
    ensures (forall call :: call in c.client.calls[|before|..] ==> call.accepted) ==>
      |c.client.calls[|before|..]| == |c.subscriptions|
  {
    var order :| IsIterationOrder(order, c.subscriptions)
      && ResubscribeRun(Requests(c.subscriptions, order), c.client.calls[|before|..]);
    ResubscribeRunShape(Requests(c.subscriptions, order), c.client.calls[|before|..]);
    IterationOrderLength(order, c.subscriptions);
  }

  /**
   * The loop of connect(): one subscribe per subscription, in order, without a callback;
   * the first rejection leaves the loop and the remaining subscriptions are not re-issued.
   */
  method Resubscribe(client: Transport.Client, subs: seq<Subscription>, ghost requests: seq<(string, int)>)
    requires |subs| == |requests|
    requires forall i :: 0 <= i < |subs| ==> subs[i].topic == requests[i].0 && subs[i].qos == requests[i].1
    modifies client`calls
    ensures |old(client.calls)| <= |client.calls|
    ensures client.calls[..|old(client.calls)|] == old(client.calls)
    ensures ResubscribeRun(requests, client.calls[|old(client.calls)|..])
  {
    var i := 0;
    while i < |subs|
      invariant 0 <= i <= |subs|
      invariant client.calls == old(client.calls) + AcceptedCalls(requests[..i])
    {
      var accepted := client.Subscribe(subs[i].topic, subs[i].qos, None);
      if !accepted {
        assert client.calls[|old(client.calls)|..]
            == AcceptedCalls(requests[..i]) + [Transport.SubscribeCall(requests[i].0, requests[i].1, None, false)];
        return;
      }
      assert requests[..i + 1][..i] == requests[..i];
      i := i + 1;
    }
    assert requests[..i] == requests;
    assert client.calls[|old(client.calls)|..] == AcceptedCalls(requests);
  }

  /** Runs the loop over `subs`, the subscriptions of `c` listed in `order`. */
  method ResubscribeInOrder(c: Connection, subs: seq<Subscription>, ghost order: seq<string>)
    requires IsIterationOrder(order, c.subscriptions)
    requires |subs| == |Requests(c.subscriptions, order)|
    requires forall i :: 0 <= i < |subs| ==>
      subs[i].topic == Requests(c.subscriptions, order)[i].0 && subs[i].qos == Requests(c.subscriptions, order)[i].1
    modifies c.client`calls
    ensures Resubscribed(c, old(c.client.calls))
  {
    ghost var requests := Requests(c.subscriptions, order);
    ghost var before := c.client.calls;
    Resubscribe(c.client, subs, requests);
    assert Requests(c.subscriptions, order) == requests;
    assert IsIterationOrder(order, c.subscriptions) && ResubscribeRun(requests, c.client.calls[|before|..]);
  }

  class ActionListener {
    const action: Action
    /** The formatting arguments of the history texts (the topic, for subscribe and publish). */
    const args: seq<string>
    /** The connection the call was made on; connect() re-subscribes on it. */
    const connection: Connection
    /** The registry the application context leads to: every handler updates its active connection. */
    const session: Session

    constructor (session: Session, action: Action, connection: Connection, args: seq<string>)
      ensures this.session == session && this.action == action
      ensures this.connection == connection && this.args == args
    {
      this.session := session;
      this.action := action;
      this.connection := connection;
      this.args := args;
    }

    /** The registry exists and has an active connection, so getInstance(context).getConnection() is not null. */
    ghost predicate HasActive()
      reads this, session, session.instance
    {
      session.instance != null && session.instance.activeConnection != null
    }

    /** getInstance(context).getConnection(): the connection whose status and history a completion updates. */
    function Active(): Connection
      reads this, session, session.instance
      requires HasActive()
    {
      session.instance.activeConnection
    }

    /** onSuccess: runs exactly the success handler of this listener's action. */
    method OnSuccess(now: string)
      requires HasActive() && Active().Valid()
      requires action == Connect ==> connection.Valid()
      modifies Active()`status, Active()`history, Active()`events, connection.client`calls
      ensures Active().Valid()
      ensures Applied(Active(), Effect(action, true, args), now)
      ensures action == Connect ==> Resubscribed(connection, old(connection.client.calls))
      ensures action != Connect ==> connection.client.calls == old(connection.client.calls)
    {
      match action
      case Connect => ConnectSucceeded(now);
      case Disconnect => DisconnectSucceeded(now);
      case Subscribe => SubscribeSucceeded(now);
      case Publish => PublishSucceeded(now);
    }

    /** onFailure: runs exactly the failure handler of this listener's action. */
    method OnFailure(now: string)
      requires HasActive() && Active().Valid()
      modifies Active()`status, Active()`history, Active()`events
      ensures Active().Valid()
      ensures Applied(Active(), Effect(action, false, args), now)
    {
      match action
      case Connect => ConnectFailed(now);
      case Disconnect => DisconnectFailed(now);
      case Subscribe => SubscribeFailed(now);
      case Publish => PublishFailed(now);
    }

    /**
     * connect(): the active connection becomes CONNECTED and gets "Client Connected"; then
     * one subscribe per subscription of this listener's own connection, on that connection's
     * client. The try block encloses the whole loop, so the first rejected subscribe ends
     * it; the exception is only logged and the status stays CONNECTED.
     */
    method ConnectSucceeded(now: string)
      requires HasActive() && Active().Valid() && connection.Valid()
      modifies Active()`status, Active()`history, Active()`events, connection.client`calls
      ensures Active().Valid()
      ensures Applied(Active(), Effect(Connect, true, args), now)
      ensures Resubscribed(connection, old(connection.client.calls))
    {
      ghost var m := connection.subscriptions;
      assert forall t :: t in m ==> m[t].topic == t;
      MarkConnected(now);
      assert connection.subscriptions == m;
      ResubscribeAll();
    }

    /** The try block of connect(): re-subscribes to every subscription of this listener's connection. */
    method ResubscribeAll()
      requires forall t :: t in connection.subscriptions ==> connection.subscriptions[t].topic == t
      modifies connection.client`calls
      ensures Resubscribed(connection, old(connection.client.calls))
    {
      var subs, order := connection.GetSubscriptions();
      RequestsOfList(connection.subscriptions, subs, order);
      ResubscribeInOrder(connection, subs, order);
    }

    /** The first two steps of connect(): CONNECTED, then "Client Connected", on the active connection. */
    method MarkConnected(now: string)
      requires HasActive() && Active().Valid()
      modifies Active()`status, Active()`history, Active()`events
      ensures Active().Valid()
      ensures Applied(Active(), Effect(Connect, true, args), now)
    {
      var c := session.instance.GetConnection();
      c.ChangeConnectionStatus(Connected);
      c.AddAction(Literal("Client Connected"), now);
    }

    /** connect(Throwable): ERROR and "Client failed to connect". */
    method ConnectFailed(now: string)
      requires HasActive() && Active().Valid()
      modifies Active()`status, Active()`history, Active()`events
      ensures Active().Valid()
      ensures Applied(Active(), Effect(Connect, false, args), now)
    {
      var c := session.instance.GetConnection();
      c.ChangeConnectionStatus(Error);
      c.AddAction(Literal("Client failed to connect"), now);
    }

    /** disconnect(): DISCONNECTED and the "disconnected" resource text. */
    method DisconnectSucceeded(now: string)
      requires HasActive() && Active().Valid()
      modifies Active()`status, Active()`history, Active()`events
      ensures Active().Valid()
      ensures Applied(Active(), Effect(Disconnect, true, args), now)
    {
      var c := session.instance.GetConnection();
      c.ChangeConnectionStatus(Disconnected);
      c.AddAction(Template(ToastDisconnected, []), now);
    }

    /** disconnect(Throwable): DISCONNECTED as well, with its own entry. */
    method DisconnectFailed(now: string)
      requires HasActive() && Active().Valid()
      modifies Active()`status, Active()`history, Active()`events
      ensures Active().Valid()
      ensures Applied(Active(), Effect(Disconnect, false, args), now)
    {
      var c := session.instance.GetConnection();
      c.ChangeConnectionStatus(Disconnected);
      c.AddAction(Literal("Disconnect Failed - an error occurred"), now);
    }

    /** subscribe(): one entry from the subscribe-success resource; the status is not touched. */
    method SubscribeSucceeded(now: string)
      requires HasActive() && Active().Valid()
      modifies Active()`history, Active()`events
      ensures Active().Valid()
      ensures Applied(Active(), Effect(Subscribe, true, args), now)
    {
      var c := session.instance.GetConnection();
      c.AddAction(Template(ToastSubSuccess, args), now);
    }

    /** subscribe(Throwable): one entry from the subscribe-failure resource. */
    method SubscribeFailed(now: string)
      requires HasActive() && Active().Valid()
      modifies Active()`history, Active()`events
      ensures Active().Valid()
      ensures Applied(Active(), Effect(Subscribe, false, args), now)
    {
      var c := session.instance.GetConnection();
      c.AddAction(Template(ToastSubFailed, args), now);
    }

    /** publish(): one entry from the publish-success resource. */
    method PublishSucceeded(now: string)
      requires HasActive() && Active().Valid()
      modifies Active()`history, Active()`events
      ensures Active().Valid()
      ensures Applied(Active(), Effect(Publish, true, args), now)
    {
      var c := session.instance.GetConnection();
      c.AddAction(Template(ToastPubSuccess, args), now);
    }

    /** publish(Throwable): one entry from the publish-failure resource. */
    method PublishFailed(now: string)
      requires HasActive() && Active().Valid()
      modifies Active()`history, Active()`events
      ensures Active().Valid()
      ensures Applied(Active(), Effect(Publish, false, args), now)
    {
      var c := session.instance.GetConnection();
      c.AddAction(Template(ToastPubFailed, args), now);
    }
  }
}
