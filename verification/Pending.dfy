/** Listeners waiting for finish or close, by response: they are only ever added,
    until the response fires. */
module Pending {

  /** The listeners waiting on a response. */
  function ListenersOn<T>(pending: map<nat, seq<T>>, id: nat): seq<T> {
    if id in pending then pending[id] else []
  }

  /** The same listeners everywhere: a response without any may be recorded or not. */
  ghost predicate SameListeners<T>(m: map<nat, seq<T>>, n: map<nat, seq<T>>) {
    forall id: nat :: ListenersOn(m, id) == ListenersOn(n, id)
  }

  lemma SameListenersWithout<T>(m: map<nat, seq<T>>, n: map<nat, seq<T>>, id: nat)
    requires SameListeners(m, n)
    ensures SameListeners(m - {id}, n - {id})
  {
    forall i: nat ensures ListenersOn(m - {id}, i) == ListenersOn(n - {id}, i) {
      assert ListenersOn(m, i) == ListenersOn(n, i);
    }
  }

  lemma SameListenersMore<T>(m: map<nat, seq<T>>, n: map<nat, seq<T>>, id: nat, more: seq<T>)
    requires SameListeners(m, n)
    ensures SameListeners(m[id := ListenersOn(m, id) + more], n[id := ListenersOn(n, id) + more])
    ensures more == [] ==> SameListeners(m, n[id := ListenersOn(n, id) + more])
  {
    var m', n' := m[id := ListenersOn(m, id) + more], n[id := ListenersOn(n, id) + more];
    assert ListenersOn(m, id) == ListenersOn(n, id);
    forall i: nat
      ensures ListenersOn(m', i) == ListenersOn(n', i) && (more == [] ==> ListenersOn(m, i) == ListenersOn(n', i))
    {
      assert ListenersOn(m, i) == ListenersOn(n, i);
    }
  }
}
