/**
 * The mutation-tracking wrapper engine (lib/makeproxy.ts).
 *
 * The JavaScript heap is a store of nodes, each a record or an array of
 * values; a value is a scalar or a reference to a node. A wrapper (the
 * `Proxy` that `makeProxy` returns) is the triple of the node it wraps,
 * the path that led to it and the emitter its writes report to. The
 * engine keeps the process-wide wrapper cache (`gloProxyCache`), one
 * listener list per emitter, the observer slot that `makeProxy` writes
 * on every node it wraps (the symbol-keyed `ProxyObserver` property),
 * and a log of every change event emitted.
 */
module ProxyEngine {
  import opened Js

  type NodeId = nat
  type WrapperId = nat
  type EmitterId = nat

  /** A JavaScript value held in the heap. `VOpaque` is a function or a symbol. */
  datatype Val =
    | VStr(s: string)
    | VNum(n: int)
    | VBig(big: int)
    | VBool(flag: bool)
    | VUndef
    | VNull
    | VOpaque
    | VRef(node: NodeId)

  /** The data part of a heap node: a plain record or an array. */
  datatype Body = ObjNode(fields: map<string, Val>) | ArrNode(elems: seq<Val>)

  datatype Wrapper = Wrapper(node: NodeId, path: seq<string>, emitter: EmitterId)

  /** `EventChange`: the path from the wrapped root and the raw assigned value. */
  datatype EventChange = EventChange(path: seq<string>, value: Val)

  datatype Emission = Emission(emitter: EmitterId, event: EventChange)

  /** What a property read through a wrapper yields: a value or a wrapper. */
  datatype Got = Plain(value: Val) | Wrapped(wrapper: WrapperId)

  /** `target[prop]` on a node (own properties only). */
  function ReadProp(b: Body, prop: string): Val {
    match b
    case ObjNode(f) => if prop in f then f[prop] else VUndef
    case ArrNode(s) => ArrayRead(s, prop, VUndef, VNum(|s|))
  }

  /** A value read as an array length, when it is a valid one. */
  function LengthArg(v: Val): Option<nat> {
    if v.VNum? && v.n >= 0 then Some(v.n) else None
  }

  /** `Reflect.set(target, prop, v)` on a node. */
  function WriteProp(b: Body, prop: string, v: Val): Result<Body> {
    match b
    case ObjNode(f) => Ok(ObjNode(f[prop := v]))
    case ArrNode(s) =>
      match ArrayWrite(s, prop, v, LengthArg(v), VUndef)
      case Ok(s') => Ok(ArrNode(s'))
      case Err(e) => Err(e)
  }

  /** A successful write is seen by the next read of the same property. */
  lemma WriteThenRead(b: Body, prop: string, v: Val)
    requires WriteProp(b, prop, v).Ok?
    ensures ReadProp(WriteProp(b, prop, v).value, prop) == v
  {
    if b.ArrNode? && IndexOf(prop).None? {
      assert prop == "length";
      LengthIsNotIndex();
    }
  }

  /** A write to a record changes no other property. */
  lemma WriteLeavesOtherKeys(b: Body, prop: string, v: Val, other: string)
    requires b.ObjNode? && other != prop
    ensures WriteProp(b, prop, v).Ok?
    ensures ReadProp(WriteProp(b, prop, v).value, other) == ReadProp(b, other)
  {
  }

  /** Writes to a record never fail; writes to an array fail exactly on a bad length or a named key. */
  lemma WriteFailsOnlyOnArrays(b: Body, prop: string, v: Val)
    ensures WriteProp(b, prop, v).Err? <==>
      b.ArrNode? && IndexOf(prop).None? && (prop != "length" || LengthArg(v).None?)
  {
  }

  // ---------------------------------------------------------------------
  // Closed heaps: node ids are the positions of a sequence

  /** A value whose reference, if any, names one of the first `size` nodes. */
  predicate ValIn(v: Val, size: nat) {
    v.VRef? ==> v.node < size
  }

  predicate BodyIn(b: Body, size: nat) {
    match b
    case ObjNode(f) => forall k :: k in f ==> ValIn(f[k], size)
    case ArrNode(s) => forall i :: 0 <= i < |s| ==> ValIn(s[i], size)
  }

  /** Every reference in the heap points into the heap. */
  predicate Closed(store: seq<Body>) {
    forall n :: 0 <= n < |store| ==> BodyIn(store[n], |store|)
  }

  lemma ReadPropIn(b: Body, prop: string, size: nat)
    requires BodyIn(b, size)
    ensures ValIn(ReadProp(b, prop), size)
  {
  }

  lemma WritePropIn(b: Body, prop: string, v: Val, size: nat)
    requires BodyIn(b, size) && ValIn(v, size) && WriteProp(b, prop, v).Ok?
    ensures BodyIn(WriteProp(b, prop, v).value, size)
  {
  }

  lemma BodyInGrows(b: Body, size: nat, bigger: nat)
    requires BodyIn(b, size) && size <= bigger
    ensures BodyIn(b, bigger)
  {
  }

  // ---------------------------------------------------------------------

  /**
   * A closure registered on an emitter's 'change' event: the publisher's
   * per-share callback, known by its socket, its id and the raw root it
   * closes over, or a callback the application registered itself.
   */
  datatype Listener = ShareCb(socket: nat, id: nat, root: NodeId) | AppCb(tag: nat)

  class Engine {
    var store: seq<Body>
    /** The symbol-keyed observer slot of each node that has been wrapped. */
    var observers: map<NodeId, EmitterId>
    var wrappers: seq<Wrapper>
    /** `gloProxyCache`: process-wide, keyed by node, never evicted. */
    var cache: map<NodeId, WrapperId>
    /** The listener list of each emitter, in registration order. */
    var listeners: seq<seq<Listener>>
    /** Every change event emitted, in order. */
    var log: seq<Emission>

    ghost predicate Valid()
      reads this
    {
      && Closed(store)
      && (forall n :: n in observers ==> n < |store| && observers[n] < |listeners|)
      && (forall w :: 0 <= w < |wrappers| ==>
            wrappers[w].node < |store| && wrappers[w].node in observers && wrappers[w].emitter < |listeners|)
      && (forall n :: n in cache ==> cache[n] < |wrappers| && wrappers[cache[n]].node == n)
    }

    constructor ()
      ensures Valid()
      ensures store == [] && observers == map[] && wrappers == [] && cache == map[]
      ensures listeners == [] && log == []
    {
      store, observers, wrappers, cache := [], map[], [], map[];
      listeners, log := [], [];
    }

    /** The observer slot of a node: `node[ProxyObserver]`. */
    function ObserverOf(n: NodeId): Option<EmitterId>
      reads this
    {
      if n in observers then Some(observers[n]) else None
    }

    /** The observer slot of the node wrapper `w` stands for, which is always set. */
    function SlotOf(w: WrapperId): (e: EmitterId)
      reads this
      requires Valid() && w < |wrappers|
      ensures e < |listeners| && ObserverOf(wrappers[w].node) == Some(e)
    {
      observers[wrappers[w].node]
    }

    /** The property `prop` of the node a wrapper stands for. */
    ghost function Item(w: WrapperId, prop: string): Val
      reads this
      requires Valid() && w < |wrappers|
    {
      ReadProp(store[wrappers[w].node], prop)
    }

    /** The application allocates a plain object or array. */
    method Alloc(b: Body) returns (n: NodeId)
      requires Valid() && BodyIn(b, |store|)
      modifies this
      ensures Valid()
      ensures n == |old(store)| && store == old(store) + [b]
      ensures observers == old(observers) && wrappers == old(wrappers) && cache == old(cache)
      ensures listeners == old(listeners) && log == old(log)
    {
      n := |store|;
      forall m | 0 <= m < |store| ensures BodyIn(store[m], n + 1) {
        BodyInGrows(store[m], n, n + 1);
      }
      BodyInGrows(b, n, n + 1);
      store := store + [b];
    }

    /** The application writes a raw (unwrapped) object: no trap, no event. */
    method RawWrite(n: NodeId, prop: string, v: Val) returns (r: Outcome)
      requires Valid() && n < |store| && ValIn(v, |store|)
      modifies this
      ensures Valid()
      ensures var written := WriteProp(old(store)[n], prop, v);
        if written.Ok? then r == Pass && store == old(store)[n := written.value]
        else r == Fail(written.error) && store == old(store)
      ensures observers == old(observers) && wrappers == old(wrappers) && cache == old(cache)
      ensures listeners == old(listeners) && log == old(log)
    {
      var written := WriteProp(store[n], prop, v);
      if written.Err? {
        r := Fail(written.error);
        return;
      }
      WritePropIn(store[n], prop, v, |store|);
      store := store[n := written.value];
      r := Pass;
    }

    /** The tail of makeProxy: create the wrapper and write the node's observer slot. */
    method Attach(n: NodeId, path: seq<string>, e: EmitterId) returns (w: WrapperId)
      requires Valid() && n < |store| && e < |listeners|
      modifies this
      ensures Valid()
      ensures w == |old(wrappers)| && wrappers == old(wrappers) + [Wrapper(n, path, e)]
      ensures observers == old(observers)[n := e]
      ensures store == old(store) && cache == old(cache) && listeners == old(listeners) && log == old(log)
    {
      w := |wrappers|;
      wrappers := wrappers + [Wrapper(n, path, e)];
      observers := observers[n := e];
    }

    /**
     * `makeProxy(v)` with its default arguments: a root wrapper with an
     * empty path and a new emitter; anything whose typeof is not 'object'
     * is rejected, and so is null (a Proxy needs an object target).
     */
    method Wrap(v: Val) returns (r: Result<WrapperId>)
      requires Valid() && ValIn(v, |store|)
      modifies this
      ensures Valid()
      ensures store == old(store) && cache == old(cache) && log == old(log)
      ensures v.VRef? ==>
        && r == Ok(|old(wrappers)|)
        && listeners == old(listeners) + [[]]
        && wrappers == old(wrappers) + [Wrapper(v.node, [], |old(listeners)|)]
        && observers == old(observers)[v.node := |old(listeners)|]
      ensures r.Ok? ==> v.VRef? && ObserverOf(v.node) == Some(wrappers[r.value].emitter)
      ensures !v.VRef? ==>
        && r == Err(if v.VNull? then ProxyTargetNull else InvalidType)
        && listeners == old(listeners) && wrappers == old(wrappers) && observers == old(observers)
    {
      if !v.VRef? {
        r := Err(if v.VNull? then ProxyTargetNull else InvalidType);
        return;
      }
      listeners := listeners + [[]];
      var w := Attach(v.node, [], |listeners| - 1);
      r := Ok(w);
    }

    /**
     * The get trap: an object-valued property yields its cached wrapper,
     * or a new one (path extended by `prop`, same emitter) that is then
     * cached; any other value is returned as it is. No event is emitted
     * and no node's data changes.
     */
    method Get(w: WrapperId, prop: string) returns (r: Got)
      requires Valid() && w < |wrappers|
      modifies this
      ensures Valid()
      ensures store == old(store) && listeners == old(listeners) && log == old(log)
      ensures !old(Item(w, prop)).VRef? ==>
        && r == Plain(old(Item(w, prop)))
        && wrappers == old(wrappers) && cache == old(cache) && observers == old(observers)
      ensures old(Item(w, prop)).VRef? && old(Item(w, prop)).node in old(cache) ==>
        && r == Wrapped(old(cache)[old(Item(w, prop)).node])
        && wrappers == old(wrappers) && cache == old(cache) && observers == old(observers)
      ensures old(Item(w, prop)).VRef? && old(Item(w, prop)).node !in old(cache) ==>
        var child := old(Item(w, prop)).node;
        && r == Wrapped(|old(wrappers)|)
        && wrappers == old(wrappers) + [Wrapper(child, old(wrappers[w].path) + [prop], old(wrappers[w].emitter))]
        && cache == old(cache)[child := |old(wrappers)|]
        && observers == old(observers)[child := old(wrappers[w].emitter)]
    {
      var parent := wrappers[w];
      var item := ReadProp(store[parent.node], prop);
      if !item.VRef? {
        r := Plain(item);
        return;
      }
      if item.node in cache {
        r := Wrapped(cache[item.node]);
        return;
      }
      ReadPropIn(store[parent.node], prop, |store|);
      var child := Attach(item.node, parent.path + [prop], parent.emitter);
      cache := cache[item.node := child];
      r := Wrapped(child);
    }

    /**
     * The set trap: write the node, then emit one event carrying the
     * wrapper's path extended by `prop` and the raw value. Returns the
     * listeners that emit invokes, in order.
     */
    method Set(w: WrapperId, prop: string, v: Val) returns (r: Result<seq<Listener>>)
      requires Valid() && w < |wrappers| && ValIn(v, |store|)
      modifies this
      ensures Valid()
      ensures wrappers == old(wrappers) && cache == old(cache) && observers == old(observers)
      ensures listeners == old(listeners)
      ensures var written := WriteProp(old(store)[wrappers[w].node], prop, v);
        if written.Ok? then
          && store == old(store)[wrappers[w].node := written.value]
          && log == old(log) + [Emission(wrappers[w].emitter, EventChange(wrappers[w].path + [prop], v))]
          && r == Ok(listeners[wrappers[w].emitter])
        else
          store == old(store) && log == old(log) && r == Err(written.error)
    {
      var target := wrappers[w];
      var written := WriteProp(store[target.node], prop, v);
      if written.Err? {
        r := Err(written.error);
        return;
      }
      WritePropIn(store[target.node], prop, v, |store|);
      store := store[target.node := written.value];
      log := log + [Emission(target.emitter, EventChange(target.path + [prop], v))];
      r := Ok(listeners[target.emitter]);
    }

    /** `emitter.on('change', l)`. */
    method On(e: EmitterId, l: Listener)
      requires Valid() && e < |listeners|
      modifies this
      ensures Valid()
      ensures listeners == old(listeners)[e := old(listeners[e]) + [l]]
      ensures store == old(store) && observers == old(observers) && wrappers == old(wrappers)
      ensures cache == old(cache) && log == old(log)
    {
      listeners := listeners[e := listeners[e] + [l]];
    }

    /** `emitter.removeListener('change', l)`. */
    method RemoveListener(e: EmitterId, l: Listener)
      requires Valid() && e < |listeners|
      modifies this
      ensures Valid()
      ensures listeners == old(listeners)[e := RemoveLast(old(listeners[e]), l)]
      ensures store == old(store) && observers == old(observers) && wrappers == old(wrappers)
      ensures cache == old(cache) && log == old(log)
    {
      listeners := listeners[e := RemoveLast(listeners[e], l)];
    }

    /**
     * `Array.prototype.push(v)` called on a wrapper of an array: it reads
     * the length, writes index `length` and then `"length"`, so the
     * emitter sees exactly two events, in that order.
     */
    method Push(w: WrapperId, v: Val) returns (newLength: nat)
      requires Valid() && w < |wrappers| && ValIn(v, |store|)
      requires store[wrappers[w].node].ArrNode?
      modifies this
      ensures Valid()
      ensures wrappers == old(wrappers) && cache == old(cache) && observers == old(observers)
      ensures listeners == old(listeners)
      ensures var target := wrappers[w];
        var elems := old(store)[target.node].elems;
        && newLength == |elems| + 1
        && store == old(store)[target.node := ArrNode(elems + [v])]
        && log == old(log) + [
             Emission(target.emitter, EventChange(target.path + [NatToString(|elems|)], v)),
             Emission(target.emitter, EventChange(target.path + ["length"], VNum(newLength)))]
    {
      var target := wrappers[w];
      var elems := store[target.node].elems;
      NatToStringIsCanonical(|elems|);
      IndexOfNatToString(NatToString(|elems|), |elems|);
      var _ := Set(w, NatToString(|elems|), v);
      assert store[target.node] == ArrNode(elems + [v]);
      LengthIsNotIndex();
      assert Resize(elems + [v], |elems| + 1, VUndef) == elems + [v];
      var _ := Set(w, "length", VNum(|elems| + 1));
      newLength := |elems| + 1;
    }

    /**
     * `Array.prototype.pop()` called on a wrapper of an array. On an empty
     * array it only writes `"length"` (0). Otherwise it reads the last
     * element through the get trap (so an object element comes back
     * wrapped), deletes it on the target (no trap, no event) and writes
     * `"length"`: either way exactly one event, on `"length"`.
     */
    method Pop(w: WrapperId) returns (r: Got)
      requires Valid() && w < |wrappers|
      requires store[wrappers[w].node].ArrNode?
      modifies this
      ensures Valid()
      ensures listeners == old(listeners)
      ensures var target := old(wrappers[w]);
        var elems := old(store)[target.node].elems;
        && store == old(store)[target.node := ArrNode(if elems == [] then [] else elems[..|elems| - 1])]
        && log == old(log) + [
             Emission(target.emitter, EventChange(target.path + ["length"], VNum(if elems == [] then 0 else |elems| - 1)))]
        && (elems == [] ==> r == Plain(VUndef))
        && (elems != [] && !elems[|elems| - 1].VRef? ==> r == Plain(elems[|elems| - 1]))
    ensures var target := old(wrappers[w]);
        var elems := old(store)[target.node].elems;
        elems == [] || !elems[|elems| - 1].VRef? || elems[|elems| - 1].node in old(cache) ==>
          wrappers == old(wrappers) && cache == old(cache) && observers == old(observers)
    ensures var target := old(wrappers[w]);
        var elems := old(store)[target.node].elems;
        elems != [] && elems[|elems| - 1].VRef? ==>
          var child := elems[|elems| - 1].node;
          if child in old(cache) then r == Wrapped(old(cache)[child])
          else
            && r == Wrapped(|old(wrappers)|)
            && wrappers == old(wrappers) + [Wrapper(child, target.path + [NatToString(|elems| - 1)], target.emitter)]
            && cache == old(cache)[child := |old(wrappers)|]
            && observers == old(observers)[child := target.emitter]
    {
      var target := wrappers[w];
      var elems := store[target.node].elems;
      LengthIsNotIndex();
      if elems == [] {
        var _ := Set(w, "length", VNum(0));
        r := Plain(VUndef);
        return;
      }
      NatToStringIsCanonical(|elems| - 1);
      IndexOfNatToString(NatToString(|elems| - 1), |elems| - 1);
      r := Get(w, NatToString(|elems| - 1));
      var _ := Set(w, "length", VNum(|elems| - 1));
    }
  }

  /**
   * An object whose `k2` is itself. The root is never cached, so the first
   * read of `k2` creates a wrapper with path ["k2"] on the root's emitter,
   * a second read returns that same wrapper, and a write through it
   * reports the path ["k2", "k1"] to the root's emitter.
   */
  method CircularObject() returns (g: Got, again: Got, events: seq<Emission>)
    ensures g == again == Wrapped(1)
    ensures events == [Emission(0, EventChange(["k2", "k1"], VNum(3)))]
  {
    var e := new Engine();
    var n := e.Alloc(ObjNode(map["k1" := VNum(1)]));
    var _ := e.RawWrite(n, "k2", VRef(n));
    var root := e.Wrap(VRef(n));
    assert e.Item(0, "k2") == VRef(n);
    g := e.Get(0, "k2");
    assert e.wrappers[1] == Wrapper(n, ["k2"], 0);
    again := e.Get(0, "k2");
    assert ["k2"] + ["k1"] == ["k2", "k1"];
    var _ := e.Set(1, "k1", VNum(3));
    events := e.log;
  }

}
