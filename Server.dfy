/**
 * The publisher binding (lib/server.ts). Each socket has an id counter,
 * a registry from wrapper to `{id, name, changeCb}` and an outbox of
 * protocol messages. `shareObject` wraps an object, hooks a change
 * callback onto the wrapper's emitter and sends Register; every write
 * through the wrapper then runs the callbacks of its emitter, and each
 * share callback sends one Change; `unshareObject` drops the registry
 * entry, detaches the callback and sends Unregister.
 */
module Server {
  import opened Js
  import opened Protocol
  import opened ProxyEngine
  import opened Snapshot

  /** A registry entry: the id, the name and the change callback of one share. */
  datatype Shared = Shared(id: nat, name: string, changeCb: Listener)

  /** What the publisher keeps on one socket. */
  datatype SocketState = SocketState(nextId: nat, registry: map<WrapperId, Shared>, outbox: seq<Message>)

  /** What a caller hands to unshareObject: a raw value or a wrapper. */
  datatype Handle = Raw(value: Val) | Proxy(wrapper: WrapperId)

  /**
   * The Change a share callback sends for one event: the value is
   * snapshotted when its typeof is 'object' and passed through otherwise;
   * then the event path is cleaned against the raw shared root.
   */
  function ChangeMessage(store: seq<Body>, id: nat, root: NodeId, ev: EventChange): (r: Result<Message>)
    requires Closed(store) && root < |store| && ValIn(ev.value, |store|)
    ensures r.Ok? ==> r.value.Change? && r.value.id == id && |r.value.path| == |ev.path|
    ensures r.Ok? && !ev.value.VRef? ==> r.value.value == ToData(ev.value)
    ensures r.Ok? && ev.value.VRef? ==> IsPlain(r.value.value)
    ensures ev.value.VNull? ==> r == Err(TypeError)
  {
    var value :- if ev.value.VRef? || ev.value.VNull? then TakeSnapshot(store, ev.value) else Ok(ToData(ev.value));
    var path :- CleanPath(store, ev.path, VRef(root));
    Ok(Change(id, path, value))
  }

  /** Every share callback closes over an existing node. */
  predicate RootsIn(cbs: seq<Listener>, nodes: nat) {
    forall x :: x in cbs && x.ShareCb? ==> x.root < nodes
  }

  /** Every share callback names an existing socket and node. */
  predicate CallbacksIn(cbs: seq<Listener>, sockets: nat, nodes: nat) {
    RootsIn(cbs, nodes) && forall x :: x in cbs && x.ShareCb? ==> x.socket < sockets
  }

  datatype Dispatched = Dispatched(sockets: seq<SocketState>, fault: Option<Fault>)

  /**
   * `emit('change', ev)` on the publisher side: the callbacks run in
   * order; a share callback appends its Change to its socket's outbox, an
   * application callback has no effect here, and the first exception stops
   * the rest.
   */
  function Dispatch(sockets: seq<SocketState>, store: seq<Body>, cbs: seq<Listener>, ev: EventChange): (r: Dispatched)
    requires Closed(store) && ValIn(ev.value, |store|) && CallbacksIn(cbs, |sockets|, |store|)
    ensures |r.sockets| == |sockets|
    ensures forall s :: 0 <= s < |sockets| ==>
      r.sockets[s].nextId == sockets[s].nextId && r.sockets[s].registry == sockets[s].registry
    decreases |cbs|
  {
    if cbs == [] then Dispatched(sockets, None)
    else
      match cbs[0]
      case AppCb(_) => Dispatch(sockets, store, cbs[1..], ev)
      case ShareCb(s, id, root) =>
        match ChangeMessage(store, id, root, ev)
        case Err(e) => Dispatched(sockets, Some(e))
        case Ok(m) => Dispatch(sockets[s := sockets[s].(outbox := sockets[s].outbox + [m])], store, cbs[1..], ev)
  }

  /** The Changes that the share callbacks of socket `s` in `cbs` send, in order, or the first failure. */
  function SocketChanges(store: seq<Body>, cbs: seq<Listener>, s: nat, ev: EventChange): Result<seq<Message>>
    requires Closed(store) && ValIn(ev.value, |store|) && RootsIn(cbs, |store|)
    decreases |cbs|
  {
    if cbs == [] then Ok([])
    else if !(cbs[0].ShareCb? && cbs[0].socket == s) then SocketChanges(store, cbs[1..], s, ev)
    else
      var m :- ChangeMessage(store, cbs[0].id, cbs[0].root, ev);
      var rest :- SocketChanges(store, cbs[1..], s, ev);
      Ok([m] + rest)
  }

  /** Every Change sent to socket `s` carries the id of one of its share callbacks. */
  lemma {:induction false} SocketChangesIds(store: seq<Body>, cbs: seq<Listener>, s: nat, ev: EventChange, i: nat)
    requires Closed(store) && ValIn(ev.value, |store|) && RootsIn(cbs, |store|)
    requires SocketChanges(store, cbs, s, ev).Ok? && i < |SocketChanges(store, cbs, s, ev).value|
    ensures var m := SocketChanges(store, cbs, s, ev).value[i];
      m.Change? && m.id >= 0 && exists root :: ShareCb(s, m.id, root) in cbs
    decreases |cbs|
  {
    var rest := cbs[1..];
    var all := SocketChanges(store, cbs, s, ev);
    var m := all.value[i];
    if !(cbs[0].ShareCb? && cbs[0].socket == s) {
      assert all == SocketChanges(store, rest, s, ev);
      SocketChangesIds(store, rest, s, ev, i);
      var root :| ShareCb(s, m.id, root) in rest;
      assert ShareCb(s, m.id, root) in cbs;
    } else {
      var first := ChangeMessage(store, cbs[0].id, cbs[0].root, ev);
      var tail := SocketChanges(store, rest, s, ev);
      assert all.value == [first.value] + tail.value;
      if i > 0 {
        assert m == tail.value[i - 1];
        SocketChangesIds(store, rest, s, ev, i - 1);
        var root :| ShareCb(s, m.id, root) in rest;
        assert ShareCb(s, m.id, root) in cbs;
      } else {
        assert cbs[0] == ShareCb(s, m.id, cbs[0].root);
      }
    }
  }

  /** With a single share callback for socket `s`, exactly its Change is sent to `s`. */
  lemma {:induction false} SocketChangesSingle(store: seq<Body>, cbs: seq<Listener>, ev: EventChange, s: nat, id: nat, root: NodeId)
    requires Closed(store) && ValIn(ev.value, |store|) && RootsIn(cbs, |store|)
    requires multiset(cbs)[ShareCb(s, id, root)] == 1
    requires forall x :: x in cbs && x.ShareCb? && x.socket == s ==> x == ShareCb(s, id, root)
    requires SocketChanges(store, cbs, s, ev).Ok?
    ensures root < |store| && ChangeMessage(store, id, root, ev).Ok?
    ensures SocketChanges(store, cbs, s, ev).value == [ChangeMessage(store, id, root, ev).value]
    decreases |cbs|
  {
    var rest := cbs[1..];
    assert cbs == [cbs[0]] + rest;
    assert multiset(cbs) == multiset{cbs[0]} + multiset(rest);
    if cbs[0] == ShareCb(s, id, root) {
      assert multiset(rest)[ShareCb(s, id, root)] == 0;
      SocketChangesNone(store, rest, ev, s);
    } else {
      SocketChangesSingle(store, rest, ev, s, id, root);
    }
  }

  lemma {:induction false} SocketChangesNone(store: seq<Body>, cbs: seq<Listener>, ev: EventChange, s: nat)
    requires Closed(store) && ValIn(ev.value, |store|) && RootsIn(cbs, |store|)
    requires forall x :: x in cbs ==> !(x.ShareCb? && x.socket == s)
    ensures SocketChanges(store, cbs, s, ev) == Ok([])
    decreases |cbs|
  {
    if cbs != [] {
      SocketChangesNone(store, cbs[1..], ev, s);
    }
  }

  /**
   * After a dispatch that runs to the end, each socket's outbox has grown
   * by exactly the Changes of that socket's share callbacks, in order.
   */
  lemma {:induction false} DispatchOutbox(sockets: seq<SocketState>, store: seq<Body>, cbs: seq<Listener>, ev: EventChange, s: nat)
    requires Closed(store) && ValIn(ev.value, |store|) && CallbacksIn(cbs, |sockets|, |store|)
    requires Dispatch(sockets, store, cbs, ev).fault.None? && s < |sockets|
    ensures SocketChanges(store, cbs, s, ev).Ok?
    ensures Dispatch(sockets, store, cbs, ev).sockets[s].outbox ==
      sockets[s].outbox + SocketChanges(store, cbs, s, ev).value
    decreases |cbs|
  {
    if cbs != [] {
      var rest := cbs[1..];
      assert forall x :: x in rest ==> x in cbs;
      match cbs[0]
      case AppCb(_) =>
        assert SocketChanges(store, cbs, s, ev) == SocketChanges(store, rest, s, ev);
        DispatchOutbox(sockets, store, rest, ev, s);
      case ShareCb(t, id, root) =>
        assert cbs[0] in cbs;
        var m := ChangeMessage(store, id, root, ev).value;
        var next := sockets[t := sockets[t].(outbox := sockets[t].outbox + [m])];
        assert Dispatch(sockets, store, cbs, ev) == Dispatch(next, store, rest, ev);
        DispatchOutbox(next, store, rest, ev, s);
        var tail := SocketChanges(store, rest, s, ev).value;
        if t == s {
          assert SocketChanges(store, cbs, s, ev).value == [m] + tail;
          assert (sockets[s].outbox + [m]) + tail == sockets[s].outbox + ([m] + tail);
        } else {
          assert SocketChanges(store, cbs, s, ev) == SocketChanges(store, rest, s, ev);
        }
    }
  }

  /** A socket with exactly one share callback on the emitter gets exactly one Change. */
  lemma OneShareOneChange(sockets: seq<SocketState>, store: seq<Body>, cbs: seq<Listener>, ev: EventChange, s: nat, id: nat, root: NodeId)
    requires Closed(store) && ValIn(ev.value, |store|) && CallbacksIn(cbs, |sockets|, |store|)
    requires Dispatch(sockets, store, cbs, ev).fault.None? && s < |sockets|
    requires multiset(cbs)[ShareCb(s, id, root)] == 1
    requires forall x :: x in cbs && x.ShareCb? && x.socket == s ==> x == ShareCb(s, id, root)
    ensures root < |store| && ChangeMessage(store, id, root, ev).Ok?
    ensures Dispatch(sockets, store, cbs, ev).sockets[s].outbox ==
      sockets[s].outbox + [ChangeMessage(store, id, root, ev).value]
  {
    DispatchOutbox(sockets, store, cbs, ev, s);
    SocketChangesSingle(store, cbs, ev, s, id, root);
  }

  /** A socket without a share callback for `id` on the emitter gets no Change for `id`. */
  lemma DetachedGetsNothing(sockets: seq<SocketState>, store: seq<Body>, cbs: seq<Listener>, ev: EventChange, s: nat, id: nat)
    requires Closed(store) && ValIn(ev.value, |store|) && CallbacksIn(cbs, |sockets|, |store|)
    requires Dispatch(sockets, store, cbs, ev).fault.None? && s < |sockets|
    requires forall root :: ShareCb(s, id, root) !in cbs
    ensures var after := Dispatch(sockets, store, cbs, ev).sockets[s].outbox;
      sockets[s].outbox <= after &&
      forall i :: |sockets[s].outbox| <= i < |after| ==> after[i].Change? && after[i].id != id
  {
    DispatchOutbox(sockets, store, cbs, ev, s);
    var sent := SocketChanges(store, cbs, s, ev).value;
    forall i | 0 <= i < |sent| ensures sent[i].Change? && sent[i].id != id {
      SocketChangesIds(store, cbs, s, ev, i);
    }
  }

  // ---------------------------------------------------------------------
  // The publisher's invariant, over plain values

  /** A share callback belongs to an existing socket, carries an id already handed out and closes over an existing node. */
  predicate ListenerOk(l: Listener, sockets: seq<SocketState>, nodes: nat) {
    l.ShareCb? ==> l.socket < |sockets| && l.id < sockets[l.socket].nextId && l.root < nodes
  }

  /** A listener list in which every share callback is well formed and occurs once. */
  predicate ListenersOk(l: seq<Listener>, sockets: seq<SocketState>, nodes: nat) {
    forall x :: x in l ==> ListenerOk(x, sockets, nodes) && (x.ShareCb? ==> multiset(l)[x] == 1)
  }

  /**
   * A registry entry of socket `s` for wrapper `w`: an id already handed
   * out, and a callback that is attached to that wrapper's emitter.
   */
  predicate RegisteredIn(sh: Shared, s: nat, w: WrapperId, nextId: nat, wrappers: seq<Wrapper>, listeners: seq<seq<Listener>>) {
    && w < |wrappers|
    && wrappers[w].emitter < |listeners|
    && sh.id < nextId
    && sh.changeCb == ShareCb(s, sh.id, wrappers[w].node)
    && sh.changeCb in listeners[wrappers[w].emitter]
  }

  /** No two registry entries of one socket share an id. */
  predicate IdsDistinct(registry: map<WrapperId, Shared>) {
    forall w1, w2 :: w1 in registry && w2 in registry && w1 != w2 ==> registry[w1].id != registry[w2].id
  }

  predicate Inv(sockets: seq<SocketState>, nodes: nat, wrappers: seq<Wrapper>, listeners: seq<seq<Listener>>) {
    && (forall e :: 0 <= e < |listeners| ==> ListenersOk(listeners[e], sockets, nodes))
    && (forall s, w :: 0 <= s < |sockets| && w in sockets[s].registry ==>
          RegisteredIn(sockets[s].registry[w], s, w, sockets[s].nextId, wrappers, listeners))
    && (forall s :: 0 <= s < |sockets| ==> IdsDistinct(sockets[s].registry))
  }

  /** Outboxes play no part in the invariant. */
  lemma InvSameCounters(sockets: seq<SocketState>, sockets2: seq<SocketState>, nodes: nat, wrappers: seq<Wrapper>, listeners: seq<seq<Listener>>)
    requires Inv(sockets, nodes, wrappers, listeners) && |sockets2| == |sockets|
    requires forall s :: 0 <= s < |sockets| ==> sockets2[s].nextId == sockets[s].nextId && sockets2[s].registry == sockets[s].registry
    ensures Inv(sockets2, nodes, wrappers, listeners)
  {
    forall e, x | 0 <= e < |listeners| && x in listeners[e] ensures ListenerOk(x, sockets2, nodes) {
      assert ListenerOk(x, sockets, nodes);
    }
  }

  lemma InvConnect(sockets: seq<SocketState>, nodes: nat, wrappers: seq<Wrapper>, listeners: seq<seq<Listener>>)
    requires Inv(sockets, nodes, wrappers, listeners)
    ensures Inv(sockets + [SocketState(0, map[], [])], nodes, wrappers, listeners)
  {
    var sockets2 := sockets + [SocketState(0, map[], [])];
    forall e, x | 0 <= e < |listeners| && x in listeners[e] ensures ListenerOk(x, sockets2, nodes) {
      assert ListenerOk(x, sockets, nodes);
    }
  }

  lemma InvMoreNodes(sockets: seq<SocketState>, nodes: nat, nodes2: nat, wrappers: seq<Wrapper>, listeners: seq<seq<Listener>>)
    requires Inv(sockets, nodes, wrappers, listeners) && nodes <= nodes2
    ensures Inv(sockets, nodes2, wrappers, listeners)
  {
    forall e, x | 0 <= e < |listeners| && x in listeners[e] ensures ListenerOk(x, sockets, nodes2) {
      assert ListenerOk(x, sockets, nodes);
    }
  }

  /** A share whose wrapping failed only uses up an id. */
  lemma InvBump(sockets: seq<SocketState>, s: nat, nodes: nat, wrappers: seq<Wrapper>, listeners: seq<seq<Listener>>, sockets2: seq<SocketState>)
    requires Inv(sockets, nodes, wrappers, listeners) && s < |sockets|
    requires sockets2 == sockets[s := sockets[s].(nextId := sockets[s].nextId + 1)]
    ensures Inv(sockets2, nodes, wrappers, listeners)
  {
    forall e, x | 0 <= e < |listeners| && x in listeners[e] ensures ListenerOk(x, sockets2, nodes) {
      assert ListenerOk(x, sockets, nodes);
    }
  }

  /**
   * A share: the next id, a new root wrapper on a new emitter whose only
   * listener is the share callback, and the registry entry for it.
   */
  lemma InvShare(sockets: seq<SocketState>, s: nat, n: NodeId, name: string, out: seq<Message>,
                 nodes: nat, wrappers: seq<Wrapper>, listeners: seq<seq<Listener>>,
                 sockets2: seq<SocketState>, wrappers2: seq<Wrapper>, listeners2: seq<seq<Listener>>)
    requires Inv(sockets, nodes, wrappers, listeners) && s < |sockets| && n < nodes
    requires var id := sockets[s].nextId;
      var cb := ShareCb(s, id, n);
      && sockets2 == sockets[s := SocketState(id + 1, sockets[s].registry[|wrappers| := Shared(id, name, cb)], out)]
      && wrappers2 == wrappers + [Wrapper(n, [], |listeners|)]
      && listeners2 == listeners + [[cb]]
    ensures Inv(sockets2, nodes, wrappers2, listeners2)
  {
    var id := sockets[s].nextId;
    var cb := ShareCb(s, id, n);
    var w := |wrappers|;
    forall e, x | 0 <= e < |listeners2| && x in listeners2[e]
      ensures ListenerOk(x, sockets2, nodes) && (x.ShareCb? ==> multiset(listeners2[e])[x] == 1)
    {
      if e < |listeners| {
        assert ListenerOk(x, sockets, nodes);
      } else {
        assert listeners2[e] == [cb];
      }
    }
    assert w !in sockets[s].registry;
    forall t, v | 0 <= t < |sockets2| && v in sockets2[t].registry
      ensures RegisteredIn(sockets2[t].registry[v], t, v, sockets2[t].nextId, wrappers2, listeners2)
    {
      if t != s || v != w {
        assert RegisteredIn(sockets[t].registry[v], t, v, sockets[t].nextId, wrappers, listeners);
      } else {
        assert listeners2[|listeners|] == [cb];
      }
    }
    forall w1, w2 | w1 in sockets2[s].registry && w2 in sockets2[s].registry && w1 != w2
      ensures sockets2[s].registry[w1].id != sockets2[s].registry[w2].id
    {
      if w1 != w && w2 != w {
        assert IdsDistinct(sockets[s].registry);
      } else if w1 == w {
        assert RegisteredIn(sockets[s].registry[w2], s, w2, sockets[s].nextId, wrappers, listeners);
      } else {
        assert RegisteredIn(sockets[s].registry[w1], s, w1, sockets[s].nextId, wrappers, listeners);
      }
    }
  }

  /**
   * An unshare: the entry for `w` leaves the registry and its callback is
   * removed from emitter `e`'s list (whichever emitter that is).
   */
  lemma InvUnshare(sockets: seq<SocketState>, s: nat, w: WrapperId, e: EmitterId, out: seq<Message>,
                   nodes: nat, wrappers: seq<Wrapper>, listeners: seq<seq<Listener>>,
                   sockets2: seq<SocketState>, listeners2: seq<seq<Listener>>)
    requires Inv(sockets, nodes, wrappers, listeners) && s < |sockets| && w in sockets[s].registry && e < |listeners|
    requires var cb := sockets[s].registry[w].changeCb;
      && sockets2 == sockets[s := sockets[s].(registry := sockets[s].registry - {w}, outbox := out)]
      && listeners2 == listeners[e := RemoveLast(listeners[e], cb)]
    ensures Inv(sockets2, nodes, wrappers, listeners2)
  {
    var cb := sockets[s].registry[w].changeCb;
    forall f, x | 0 <= f < |listeners2| && x in listeners2[f]
      ensures ListenerOk(x, sockets2, nodes) && (x.ShareCb? ==> multiset(listeners2[f])[x] == 1)
    {
      if f == e {
        RemoveLastMembers(listeners[e], cb, x);
        assert multiset(listeners2[f]) == multiset(listeners[e]) - multiset{cb};
      }
      assert ListenerOk(x, sockets, nodes);
    }
    forall t, v | 0 <= t < |sockets2| && v in sockets2[t].registry
      ensures RegisteredIn(sockets2[t].registry[v], t, v, sockets2[t].nextId, wrappers, listeners2)
    {
      var sh := sockets[t].registry[v];
      assert RegisteredIn(sh, t, v, sockets[t].nextId, wrappers, listeners);
      if wrappers[v].emitter == e {
        if t == s {
          assert IdsDistinct(sockets[s].registry);
        }
        assert sh.changeCb != cb;
        RemoveLastMembers(listeners[e], cb, sh.changeCb);
      }
    }
    assert IdsDistinct(sockets[s].registry);
  }

  /** Removing a registered callback from its own wrapper's emitter detaches it completely. */
  lemma UnshareDetaches(sockets: seq<SocketState>, s: nat, w: WrapperId, nodes: nat, wrappers: seq<Wrapper>, listeners: seq<seq<Listener>>)
    requires Inv(sockets, nodes, wrappers, listeners) && s < |sockets| && w in sockets[s].registry
    ensures w < |wrappers| && wrappers[w].emitter < |listeners|
    ensures sockets[s].registry[w].changeCb !in RemoveLast(listeners[wrappers[w].emitter], sockets[s].registry[w].changeCb)
  {
    var sh := sockets[s].registry[w];
    assert RegisteredIn(sh, s, w, sockets[s].nextId, wrappers, listeners);
    var l := listeners[wrappers[w].emitter];
    assert ListenersOk(l, sockets, nodes);
    RemoveLastMembers(l, sh.changeCb, sh.changeCb);
  }

  class Publisher {
    /** The wrapper engine shared by every socket (its cache is process-wide). */
    const engine: Engine
    var sockets: seq<SocketState>

    ghost predicate Valid()
      reads this, engine
    {
      engine.Valid() && Inv(sockets, |engine.store|, engine.wrappers, engine.listeners)
    }

    constructor ()
      ensures Valid() && fresh(engine)
      ensures sockets == []
      ensures engine.store == [] && engine.wrappers == [] && engine.listeners == [] && engine.log == []
    {
      engine := new Engine();
      sockets := [];
    }

    /** A new socket: its id counter starts at 0, with nothing registered or sent. */
    method Connect() returns (s: nat)
      requires Valid()
      modifies this
      ensures Valid()
      ensures s == |old(sockets)| && sockets == old(sockets) + [SocketState(0, map[], [])]
    {
      InvConnect(sockets, |engine.store|, engine.wrappers, engine.listeners);
      s := |sockets|;
      sockets := sockets + [SocketState(0, map[], [])];
    }

    /** The application allocates a plain object or array. */
    method NewObject(b: Body) returns (n: NodeId)
      requires Valid() && BodyIn(b, |engine.store|)
      modifies engine
      ensures Valid()
      ensures n == |old(engine.store)| && engine.store == old(engine.store) + [b]
      ensures engine.wrappers == old(engine.wrappers) && engine.listeners == old(engine.listeners)
      ensures engine.log == old(engine.log)
    {
      InvMoreNodes(sockets, |engine.store|, |engine.store| + 1, engine.wrappers, engine.listeners);
      n := engine.Alloc(b);
    }

    /**
     * `shareObject(socket, name, v)`. The id is taken (and the counter
     * advanced) first, so a failure afterwards still uses it up. Wrapping
     * rejects a non-object; then the change callback goes onto the
     * emitter found in the node's observer slot, the wrapper is
     * registered, and Register carries the snapshot. A snapshot that
     * throws leaves the registration and the callback in place.
     */
    method ShareObject(s: nat, name: string, v: Val) returns (r: Result<WrapperId>)
      requires Valid() && s < |sockets| && ValIn(v, |engine.store|)
      modifies this, engine
      ensures Valid()
      ensures |sockets| == |old(sockets)|
      ensures sockets == old(sockets)[s := sockets[s]]
      ensures sockets[s].nextId == old(sockets[s].nextId) + 1
      ensures engine.store == old(engine.store) && engine.cache == old(engine.cache) && engine.log == old(engine.log)
      ensures !v.VRef? ==>
        && r == Err(if v.VNull? then ProxyTargetNull else InvalidType)
        && sockets[s].registry == old(sockets[s].registry) && sockets[s].outbox == old(sockets[s].outbox)
        && engine.wrappers == old(engine.wrappers) && engine.listeners == old(engine.listeners)
        && engine.observers == old(engine.observers)
      ensures v.VRef? ==>
        var id := old(sockets[s].nextId);
        var w := |old(engine.wrappers)|;
        var cb := ShareCb(s, id, v.node);
        && engine.wrappers == old(engine.wrappers) + [Wrapper(v.node, [], |old(engine.listeners)|)]
        && engine.listeners == old(engine.listeners) + [[cb]]
        && engine.observers == old(engine.observers)[v.node := |old(engine.listeners)|]
        && sockets[s].registry == old(sockets[s].registry)[w := Shared(id, name, cb)]
        && match TakeSnapshot(old(engine.store), v)
           case Ok(snap) => r == Ok(w) && sockets[s].outbox == old(sockets[s].outbox) + [Register(id, name, snap)]
           case Err(e) => r == Err(e) && sockets[s].outbox == old(sockets[s].outbox)
    {
      var id := sockets[s].nextId;
      if !v.VRef? {
        ghost var before := sockets;
        sockets := sockets[s := sockets[s].(nextId := id + 1)];
        InvBump(before, s, |engine.store|, engine.wrappers, engine.listeners, sockets);
        var refused := engine.Wrap(v);
        r := Err(refused.error);
        return;
      }
      var made := engine.Wrap(v);
      var w := made.value;
      var e := engine.observers[v.node];
      var cb := ShareCb(s, id, v.node);
      ghost var mid := engine.listeners;
      assert e == |old(engine.listeners)| && mid == old(engine.listeners) + [[]];
      assert mid[e] + [cb] == [cb];
      engine.On(e, cb);
      assert engine.listeners == mid[e := [cb]] == old(engine.listeners) + [[cb]];
      var snap := TakeSnapshot(engine.store, v);
      var out := if snap.Ok? then sockets[s].outbox + [Register(id, name, snap.value)] else sockets[s].outbox;
      ghost var before := sockets;
      sockets := sockets[s := SocketState(id + 1, sockets[s].registry[w := Shared(id, name, cb)], out)];
      InvShare(before, s, v.node, name, out, |engine.store|, old(engine.wrappers), old(engine.listeners),
               sockets, engine.wrappers, engine.listeners);
      r := if snap.Ok? then Ok(w) else Err(snap.error);
    }

    /**
     * The refusal `unshareObject(socket, h)` raises, if any. Reading the
     * observer symbol through a wrapper reaches the node's slot, which is
     * always set, so a wrapper is refused only when this socket has not
     * registered it. On a raw value the symbol is read directly: undefined
     * and null throw, a node that was once wrapped has it (and raw values
     * are never registered), anything else has not.
     */
    function Refusal(s: nat, h: Handle): Option<Fault>
      reads this, engine
      requires s < |sockets|
    {
      match h
      case Raw(v) =>
        if v.VUndef? || v.VNull? then Some(TypeError)
        else if v.VRef? && v.node in engine.observers then Some(NotSharedOnSocket)
        else Some(NotShared)
      case Proxy(w) => if w in sockets[s].registry then None else Some(NotSharedOnSocket)
    }

    /**
     * `unshareObject(socket, h)`, detaching the callback from the emitter
     * of the wrapper it was registered for. A refusal changes nothing; a
     * success deletes the registry entry, removes the callback (which is
     * then on no listener list of that emitter) and sends Unregister.
     */
    method UnshareObject(s: nat, h: Handle) returns (r: Outcome)
      requires Valid() && s < |sockets| && (h.Proxy? ==> h.wrapper < |engine.wrappers|)
      modifies this, engine
      ensures Valid()
      ensures engine.store == old(engine.store) && engine.wrappers == old(engine.wrappers) && engine.log == old(engine.log)
      ensures engine.cache == old(engine.cache) && engine.observers == old(engine.observers)
      ensures |sockets| == |old(sockets)|
      ensures sockets == old(sockets)[s := sockets[s]]
      ensures old(Refusal(s, h)).Some? ==>
        r == Fail(old(Refusal(s, h)).value) && sockets == old(sockets) && engine.listeners == old(engine.listeners)
      ensures old(Refusal(s, h)).None? ==>
        var w := h.wrapper;
        var sh := old(sockets[s].registry[w]);
        var e := engine.wrappers[w].emitter;
        && r == Pass
        && sockets[s] == old(sockets[s]).(registry := old(sockets[s].registry) - {w},
                                          outbox := old(sockets[s].outbox) + [Unregister(sh.id)])
        && e < |old(engine.listeners)|
        && engine.listeners == old(engine.listeners)[e := RemoveLast(old(engine.listeners[e]), sh.changeCb)]
        && sh.changeCb !in engine.listeners[e]
    {
      var refusal := Refusal(s, h);
      if refusal.Some? {
        r := Fail(refusal.value);
        return;
      }
      var w := h.wrapper;
      var e := engine.wrappers[w].emitter;
      UnshareDetaches(sockets, s, w, |engine.store|, engine.wrappers, engine.listeners);
      Detach(s, w, e);
      r := Pass;
    }

    /**
     * `unshareObject(socket, h)` as lib/server.ts writes it: the callback
     * is removed from the emitter in the node's observer slot, which is
     * the emitter of the node's most recent wrapper, not necessarily the
     * one the callback was attached to.
     */
    method UnshareObjectAsWritten(s: nat, h: Handle) returns (r: Outcome)
      requires Valid() && s < |sockets| && (h.Proxy? ==> h.wrapper < |engine.wrappers|)
      modifies this, engine
      ensures Valid()
      ensures engine.store == old(engine.store) && engine.wrappers == old(engine.wrappers) && engine.log == old(engine.log)
      ensures engine.cache == old(engine.cache) && engine.observers == old(engine.observers)
      ensures |sockets| == |old(sockets)|
      ensures sockets == old(sockets)[s := sockets[s]]
      ensures old(Refusal(s, h)).Some? ==>
        r == Fail(old(Refusal(s, h)).value) && sockets == old(sockets) && engine.listeners == old(engine.listeners)
      ensures old(Refusal(s, h)).None? ==>
        var w := h.wrapper;
        var sh := old(sockets[s].registry[w]);
        var slot := engine.SlotOf(w);
        && r == Pass
        && sockets[s] == old(sockets[s]).(registry := old(sockets[s].registry) - {w},
                                          outbox := old(sockets[s].outbox) + [Unregister(sh.id)])
        && slot < |old(engine.listeners)|
        && engine.listeners == old(engine.listeners)[slot := RemoveLast(old(engine.listeners[slot]), sh.changeCb)]
    {
      var refusal := Refusal(s, h);
      if refusal.Some? {
        r := Fail(refusal.value);
        return;
      }
      var w := h.wrapper;
      var slot := engine.SlotOf(w);
      Detach(s, w, slot);
      r := Pass;
    }

    /**
     * What both versions of `unshareObject` do once the handle is
     * accepted: the registry entry goes, Unregister is sent, and the
     * entry's callback comes off the listener list of emitter `e`.
     */
    method Detach(s: nat, w: WrapperId, e: EmitterId)
      requires Valid() && s < |sockets| && w in sockets[s].registry && e < |engine.listeners|
      modifies this, engine
      ensures Valid()
      ensures engine.store == old(engine.store) && engine.wrappers == old(engine.wrappers) && engine.log == old(engine.log)
      ensures engine.cache == old(engine.cache) && engine.observers == old(engine.observers)
      ensures var sh := old(sockets[s].registry[w]);
        && sockets == old(sockets)[s := old(sockets[s]).(registry := old(sockets[s].registry) - {w},
                                                          outbox := old(sockets[s].outbox) + [Unregister(sh.id)])]
        && engine.listeners == old(engine.listeners)[e := RemoveLast(old(engine.listeners[e]), sh.changeCb)]
    {
      var sh := sockets[s].registry[w];
      ghost var before := sockets;
      ghost var listenersBefore := engine.listeners;
      sockets := sockets[s := sockets[s].(registry := sockets[s].registry - {w}, outbox := sockets[s].outbox + [Unregister(sh.id)])];
      engine.RemoveListener(e, sh.changeCb);
      InvUnshare(before, s, w, e, sockets[s].outbox, |engine.store|, engine.wrappers, listenersBefore, sockets, engine.listeners);
    }

    /**
     * A write through wrapper `w`: the set trap writes the node and emits
     * the event, and `emit` runs the emitter's callbacks in order; each
     * share callback sends its Change, and the first exception (from a
     * snapshot or a path) stops the rest and propagates to the writer.
     */
    method Assign(w: WrapperId, prop: string, v: Val) returns (r: Outcome)
      requires Valid() && w < |engine.wrappers| && ValIn(v, |engine.store|)
      modifies this, engine
      ensures Valid()
      ensures engine.wrappers == old(engine.wrappers) && engine.listeners == old(engine.listeners)
      ensures engine.cache == old(engine.cache) && engine.observers == old(engine.observers)
      ensures |sockets| == |old(sockets)|
      ensures var target := engine.wrappers[w];
        var written := WriteProp(old(engine.store)[target.node], prop, v);
        written.Err? ==>
          r == Fail(written.error) && sockets == old(sockets) && engine.store == old(engine.store) && engine.log == old(engine.log)
      ensures var target := engine.wrappers[w];
        var written := WriteProp(old(engine.store)[target.node], prop, v);
        var ev := EventChange(target.path + [prop], v);
        written.Ok? ==>
          && engine.store == old(engine.store)[target.node := written.value]
          && engine.log == old(engine.log) + [Emission(target.emitter, ev)]
          && CallbacksIn(engine.listeners[target.emitter], |old(sockets)|, |engine.store|)
          && var d := Dispatch(old(sockets), engine.store, engine.listeners[target.emitter], ev);
             sockets == d.sockets && r == (if d.fault.None? then Pass else Fail(d.fault.value))
    {
      var target := engine.wrappers[w];
      ghost var nodes := |engine.store|;
      var res := engine.Set(w, prop, v);
      assert |engine.store| == nodes;
      assert Inv(old(sockets), |engine.store|, engine.wrappers, engine.listeners);
      if res.Err? {
        r := Fail(res.error);
        return;
      }
      var cbs := res.value;
      var ev := EventChange(target.path + [prop], v);
      assert ListenersOk(cbs, sockets, |engine.store|);
      assert CallbacksIn(cbs, |sockets|, |engine.store|) by {
        forall x | x in cbs ensures ListenerOk(x, sockets, |engine.store|) { }
      }
      var fault := Notify(engine.store, cbs, ev);
      InvSameCounters(old(sockets), sockets, |engine.store|, engine.wrappers, engine.listeners);
      r := if fault.None? then Pass else Fail(fault.value);
    }

    /**
     * `emit('change', ev)` on the publisher side: the callbacks run in
     * order, each share callback appends its Change to its socket's
     * outbox, and the first exception stops the rest.
     */
    method Notify(store: seq<Body>, cbs: seq<Listener>, ev: EventChange) returns (fault: Option<Fault>)
      requires Closed(store) && ValIn(ev.value, |store|) && CallbacksIn(cbs, |sockets|, |store|)
      modifies this
      ensures sockets == Dispatch(old(sockets), store, cbs, ev).sockets
      ensures fault == Dispatch(old(sockets), store, cbs, ev).fault
    {
      var i := 0;
      while i < |cbs|
        invariant 0 <= i <= |cbs| && |sockets| == |old(sockets)|
        invariant CallbacksIn(cbs[i..], |sockets|, |store|)
        invariant Dispatch(sockets, store, cbs[i..], ev) == Dispatch(old(sockets), store, cbs, ev)
      {
        assert cbs[i..] == [cbs[i]] + cbs[i + 1..];
        match cbs[i] {
          case AppCb(_) =>
          case ShareCb(t, id, root) =>
            var m := ChangeMessage(store, id, root, ev);
            if m.Err? {
              return Some(m.error);
            }
            sockets := sockets[t := sockets[t].(outbox := sockets[t].outbox + [m.value])];
        }
        i := i + 1;
      }
      fault := None;
    }
  }

  /**
   * One object shared twice on a socket, then the first wrapper unshared
   * as lib/server.ts does it: the registry entry and its id are gone, yet
   * the first callback stays attached to the first wrapper's emitter, so
   * writes through that wrapper keep sending Change messages for id 0.
   */
  method DoubleShareAsWritten() returns (registered: bool, attached: bool)
    ensures !registered && attached
  {
    var p := SharedTwice();
    var done := p.UnshareObjectAsWritten(0, Proxy(0));
    registered := 0 in p.sockets[0].registry;
    attached := ShareCb(0, 0, 0) in p.engine.listeners[0];
  }

  /** The same sequence with the corrected unshare detaches the first callback. */
  method DoubleShareCorrected() returns (registered: bool, attached: bool)
    ensures !registered && !attached
  {
    var p := SharedTwice();
    var done := p.UnshareObject(0, Proxy(0));
    registered := 0 in p.sockets[0].registry;
    attached := ShareCb(0, 0, 0) in p.engine.listeners[0];
  }

  /** A publisher with one socket and one empty object, shared once on that socket. */
  method SharedOnce() returns (p: Publisher)
    ensures fresh(p) && fresh(p.engine) && p.Valid()
    ensures |p.sockets| == 1 && p.sockets[0].nextId == 1
    ensures p.sockets[0].registry == map[0 := Shared(0, "a", ShareCb(0, 0, 0))]
    ensures p.engine.store == [ObjNode(map[])] && p.engine.wrappers == [Wrapper(0, [], 0)]
    ensures p.engine.listeners == [[ShareCb(0, 0, 0)]]
  {
    p := new Publisher();
    var s := p.Connect();
    var n := p.NewObject(ObjNode(map[]));
    var first := p.ShareObject(s, "a", VRef(n));
  }

  /**
   * The same object shared a second time on that socket: two wrappers
   * with their own emitters, the node's observer slot holding the second.
   */
  method SharedTwice() returns (p: Publisher)
    ensures fresh(p) && fresh(p.engine) && p.Valid()
    ensures |p.sockets| == 1 && p.sockets[0].registry.Keys == {0, 1}
    ensures p.sockets[0].registry[0].changeCb == ShareCb(0, 0, 0)
    ensures |p.engine.wrappers| == 2 && p.engine.wrappers[0].emitter == 0 && p.engine.wrappers[1].emitter == 1
    ensures p.engine.wrappers[0].node == 0 && p.engine.observers[0] == 1
    ensures p.engine.listeners == [[ShareCb(0, 0, 0)], [ShareCb(0, 1, 0)]]
  {
    p := SharedOnce();
    var second := p.ShareObject(0, "b", VRef(0));
  }
}
