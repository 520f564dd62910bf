/**
  The process-wide registry of SAF change callbacks
  (apps/android-app/src/android_saf_backend.rs, `AndroidSafChangeSubscription`).
  */
module SafSubscriptions {

  datatype Registry<C> = Registry(callbacks: map<string, map<nat, C>>, nextId: nat)

  function Subscribe<C>(g: Registry<C>, uri: string, callback: C): (Registry<C>, nat) {
    var tree := if uri in g.callbacks then g.callbacks[uri] else map[];
    (Registry(g.callbacks[uri := tree[g.nextId := callback]], g.nextId + 1), g.nextId)
  }

  function Unsubscribe<C>(g: Registry<C>, uri: string, id: nat): Registry<C> {
    if uri !in g.callbacks then g
    else
      var tree := g.callbacks[uri] - {id};
      g.(callbacks := if tree == map[] then g.callbacks - {uri} else g.callbacks[uri := tree])
  }

  // ---------------------------------------------------------------------------
  // Every sequence of subscribe and drop
  // ---------------------------------------------------------------------------

  /** The subscription objects alive: their tree, and the callback they were made with. */
  datatype Live<C> = Live(uri: string, callback: C)

  datatype Event<C> = Subscribed(uri: string, callback: C) | Dropped(id: nat)

  /** The registry together with the subscriptions alive and the ids handed out so far. */
  datatype History<C> = History(registry: Registry<C>, live: map<nat, Live<C>>, issued: seq<nat>)

  predicate Possible<C>(h: History<C>, e: Event<C>) {
    e.Dropped? ==> e.id in h.live
  }

  function Apply<C>(h: History<C>, e: Event<C>): History<C>
    requires Possible(h, e)
  {
    match e
    case Subscribed(uri, callback) =>
      var (registry, id) := Subscribe(h.registry, uri, callback);
      History(registry, h.live[id := Live(uri, callback)], h.issued + [id])
    case Dropped(id) =>
      h.(registry := Unsubscribe(h.registry, h.live[id].uri, id), live := h.live - {id})
  }

  function Run<C>(h: History<C>, events: seq<Event<C>>): (r: History<C>)
    requires AllPossible(h, events)
    decreases |events|
  {
    if events == [] then h else Run(Apply(h, events[0]), events[1..])
  }

  predicate AllPossible<C>(h: History<C>, events: seq<Event<C>>)
    decreases |events|
  {
    events != [] ==> Possible(h, events[0]) && AllPossible(Apply(h, events[0]), events[1..])
  }

  predicate Registered<C>(g: Registry<C>, uri: string, id: nat) {
    uri in g.callbacks && id in g.callbacks[uri]
  }

  /** The registry holds exactly the live subscriptions, and no empty tree entry. */
  ghost predicate Exact<C>(h: History<C>) {
    && (forall uri :: uri in h.registry.callbacks ==> h.registry.callbacks[uri] != map[])
    && (forall uri, id :: Registered(h.registry, uri, id) <==> id in h.live && h.live[id].uri == uri)
    && (forall uri, id :: Registered(h.registry, uri, id) && id in h.live ==>
          h.registry.callbacks[uri][id] == h.live[id].callback)
    && (forall id :: id in h.live ==> id in h.issued)
    && (forall id :: id in h.issued ==> id < h.registry.nextId)
    && (forall i, j :: 0 <= i < j < |h.issued| ==> h.issued[i] != h.issued[j])
  }

  /** Subscribing registers one more callback, under a new id, and leaves the others alone. */
  lemma SubscribeRegisters<C>(g: Registry<C>, uri: string, callback: C)
    ensures var (g', id) := Subscribe(g, uri, callback);
            && id == g.nextId && g'.nextId == g.nextId + 1
            && (forall u :: u in g'.callbacks ==> u in g.callbacks || g'.callbacks[u] != map[])
            && (forall u :: u in g.callbacks && g.callbacks[u] != map[] ==> u in g'.callbacks && g'.callbacks[u] != map[])
            && (forall u, i :: Registered(g', u, i) <==> Registered(g, u, i) || (u == uri && i == id))
            && (forall u, i :: Registered(g', u, i) ==>
                  g'.callbacks[u][i] == if u == uri && i == id then callback else g.callbacks[u][i])
  {
    var (g', id) := Subscribe(g, uri, callback);
    assert id in g'.callbacks[uri];
  }

  /** Dropping a subscription unregisters its callback alone, and leaves no empty tree entry. */
  lemma UnsubscribeRegisters<C>(g: Registry<C>, uri: string, id: nat)
    ensures var g' := Unsubscribe(g, uri, id);
            && g'.nextId == g.nextId
            && (forall u :: u in g'.callbacks ==> u in g.callbacks)
            && (forall u :: u in g'.callbacks && g.callbacks[u] != map[] ==> g'.callbacks[u] != map[])
            && (forall u, i :: Registered(g', u, i) <==> Registered(g, u, i) && !(u == uri && i == id))
            && (forall u, i :: Registered(g', u, i) ==> g'.callbacks[u][i] == g.callbacks[u][i])
  {
    var g' := Unsubscribe(g, uri, id);
    forall u, i ensures Registered(g', u, i) <==> Registered(g, u, i) && !(u == uri && i == id) {
      if u == uri && Registered(g, u, i) && i != id {
        assert i in g.callbacks[uri] - {id};
      }
    }
  }

  lemma SubscribeExact<C>(h: History<C>, uri: string, callback: C)
    requires Exact(h)
    ensures Exact(Apply(h, Subscribed(uri, callback)))
  {
    hide Subscribe;
    SubscribeRegisters(h.registry, uri, callback);
    var id := h.registry.nextId;
    assert id !in h.live && id !in h.issued;
  }

  lemma DropExact<C>(h: History<C>, id: nat)
    requires Exact(h) && id in h.live
    ensures Exact(Apply(h, Event<C>.Dropped(id)))
  {
    hide Unsubscribe;
    assert Registered(h.registry, h.live[id].uri, id);
    UnsubscribeRegisters(h.registry, h.live[id].uri, id);
  }

  /** The registry as it starts out, before anything was subscribed. */
  function Fresh<C>(): History<C> {
    History(Registry(map[], 1), map[], [])
  }

  /** From the empty registry on, every sequence of subscriptions and drops leaves the registry exact. */
  lemma ExactFromStart<C>(events: seq<Event<C>>)
    requires AllPossible(Fresh(), events)
    ensures Exact(Run(Fresh(), events))
  {
    RegistryExact(Fresh(), events);
  }

  /** Over every sequence of subscriptions and drops the registry stays exact and ids are never reused. */
  lemma {:induction false} RegistryExact<C>(h: History<C>, events: seq<Event<C>>)
    requires Exact(h) && AllPossible(h, events)
    ensures Exact(Run(h, events))
    decreases |events|
  {
    if events != [] {
      match events[0] {
        case Subscribed(uri, callback) => SubscribeExact(h, uri, callback);
        case Dropped(id) => DropExact(h, id);
      }
      RegistryExact(Apply(h, events[0]), events[1..]);
    }
  }

  // ---------------------------------------------------------------------------
  // The registry updated in place
  // ---------------------------------------------------------------------------

  class CallbackRegistry<C> {
    var callbacks: map<string, map<nat, C>>
    var nextId: nat

    ghost function View(): Registry<C>
      reads this
    {
      Registry(callbacks, nextId)
    }

    constructor ()
      ensures View() == Registry(map[], 1)
    {
      callbacks, nextId := map[], 1;
    }

    /** `AndroidSafChangeSubscription::new` */
    method Add(uri: string, callback: C) returns (id: nat)
      modifies this
      ensures (View(), id) == Subscribe(old(View()), uri, callback)
      ensures forall u, i :: Registered(View(), u, i) <==> Registered(old(View()), u, i) || (u == uri && i == id)
      ensures forall u, i :: Registered(View(), u, i) ==>
                callbacks[u][i] == if u == uri && i == id then callback else old(callbacks)[u][i]
    {
      SubscribeRegisters(View(), uri, callback);
      id := nextId;
      nextId := nextId + 1;
      var tree := if uri in callbacks then callbacks[uri] else map[];
      callbacks := callbacks[uri := tree[id := callback]];
    }

    /** `Drop` of a subscription */
    method Drop(uri: string, id: nat)
      modifies this
      ensures View() == Unsubscribe(old(View()), uri, id)
      ensures forall u, i :: Registered(View(), u, i) <==> Registered(old(View()), u, i) && !(u == uri && i == id)
      ensures forall u, i :: Registered(View(), u, i) ==> callbacks[u][i] == old(callbacks)[u][i]
    {
      UnsubscribeRegisters(View(), uri, id);
      if uri in callbacks {
        var tree := callbacks[uri] - {id};
        if tree == map[] {
          callbacks := callbacks - {uri};
        } else {
          callbacks := callbacks[uri := tree];
        }
      }
    }

    /** `notify_android_saf_tree_changed`: each registered callback of the tree is called once. */
    method Notify(uri: string) returns (called: seq<nat>)
      ensures forall i, j :: 0 <= i < j < |called| ==> called[i] != called[j]
      ensures forall id :: id in called <==> Registered(View(), uri, id)
    {
      called := [];
      if uri !in callbacks {
        return;
      }
      var remaining := callbacks[uri].Keys;
      while remaining != {}
        invariant remaining <= callbacks[uri].Keys
        invariant forall i, j :: 0 <= i < j < |called| ==> called[i] != called[j]
        invariant forall id :: id in called <==> id in callbacks[uri] && id !in remaining
        decreases |remaining|
      {
        var id :| id in remaining;
        remaining := remaining - {id};
        called := called + [id];
      }
    }
  }
}
