/**
 * Listener registries. A listener is an opaque identity; what a listener does when called
 * is outside the model, so a notification is recorded as the pair (listener, event).
 */
module Listeners {

  type ListenerId = nat

  datatype Notified<E> = Notified(listener: ListenerId, event: E)

  /** ArrayList.indexOf(x) == -1 guards every add, so a registry never holds a listener twice. */
  predicate NoDuplicates<T(==)>(s: seq<T>) {
    forall i, j :: 0 <= i < j < |s| ==> s[i] != s[j]
  }

  /** One round of notification: every listener called once with `event`, in registration order. */
  function Fanout<E>(listeners: seq<ListenerId>, event: E): (r: seq<Notified<E>>)
    ensures |r| == |listeners|
    ensures forall i :: 0 <= i < |r| ==> r[i] == Notified(listeners[i], event)
  {
    if listeners == [] then [] else [Notified(listeners[0], event)] + Fanout(listeners[1..], event)
  }

  /** The registries only ever grow by a listener they do not hold yet, which keeps them duplicate-free. */
  lemma AppendNewKeepsNoDuplicates<T>(s: seq<T>, x: T)
    requires NoDuplicates(s) && x !in s
    ensures NoDuplicates(s + [x])
  {
  }
}
