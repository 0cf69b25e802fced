/**
 * Publisher and subscriber together. A mirror starts as the snapshot of
 * the published object. A scalar written through a wrapper whose path is
 * the only route from the shared root to the written object moves the
 * mirror exactly as it moves the snapshot. Where the object is reachable
 * along two routes, the cached wrapper's path names only the first one
 * read, and the mirror and the snapshot part.
 */
module EndToEnd {
  import opened Js
  import opened Protocol
  import opened Snapshot
  import opened Client
  import ProxyEngine
  import Server

  /** The member a snapshot keeps for a kept value. */
  function Cleaned(v: Data): Data
    requires Kept(v) && (IsObjectType(v) ==> Clean(v).Ok?)
  {
    if IsObjectType(v) then Clean(v).value else v
  }

  /** Replacing one member of a record by a kept member replaces that member of its snapshot. */
  lemma CleanRecordWrite(f: map<string, Data>, k: string, v: Data)
    requires Clean(Rec(f)).Ok? && Kept(v) && (IsObjectType(v) ==> Clean(v).Ok?)
    ensures Clean(Rec(f[k := v])) == Ok(Rec(Clean(Rec(f)).value.fields[k := Cleaned(v)]))
  {
    var g := f[k := v];
    assert !exists j :: j in g && IsObjectType(g[j]) && Clean(g[j]).Err? by {
      forall j | j in g && IsObjectType(g[j]) ensures Clean(g[j]).Ok? {
        if j != k {
          assert j in f;
        }
      }
    }
    var out := Clean(Rec(g)).value.fields;
    var expected := Clean(Rec(f)).value.fields[k := Cleaned(v)];
    forall j ensures (j in out <==> j in expected) && (j in out ==> out[j] == expected[j]) {
      CleanRecordMembers(f, j);
      CleanRecordMembers(g, j);
    }
    assert out == expected;
  }

  /** A path of property names through records, every step but the last naming a record member. */
  predicate ThroughRecords(t: Data, path: seq<Seg>)
    decreases |path|
  {
    && path != [] && t.Rec? && path[0].SKey?
    && (|path| > 1 ==> path[0].key in t.fields && ThroughRecords(t.fields[path[0].key], path[1..]))
  }

  /**
   * Writing a scalar at a record path and then taking the snapshot gives
   * what the subscriber gets by applying the same write to the old
   * snapshot: the publisher's tree and the mirror move in step.
   */
  lemma {:induction false} CleanCommutesWithScalarWrite(t: Data, path: seq<Seg>, x: Data)
    requires ThroughRecords(t, path) && IsDataScalar(x) && Clean(t).Ok?
    ensures ApplyAt(t, path, x).Ok? && ApplyAt(Clean(t).value, path, x).Ok?
    ensures Clean(ApplyAt(t, path, x).value) == ApplyAt(Clean(t).value, path, x)
    decreases |path|
  {
    var f := t.fields;
    var k := path[0].key;
    assert KeyOf(path[0]) == k;
    CleanRecordMembers(f, k);
    var c := Clean(t).value.fields;
    if |path| == 1 {
      CleanRecordWrite(f, k, x);
    } else {
      var child := f[k];
      assert child.Rec?;
      assert Clean(child).Ok? by {
        assert IsObjectType(child);
      }
      CleanCommutesWithScalarWrite(child, path[1..], x);
      var updated := ApplyAt(child, path[1..], x).value;
      assert ApplyAt(t, path, x) == WriteData(t, k, updated);
      assert c[k] == Clean(child).value;
      assert ReadData(Rec(c), k) == Ok(Clean(child).value);
      CleanRecordWrite(f, k, updated);
    }
  }

  // ---------------------------------------------------------------------
  // A scalar written through the set trap, seen from the shared root

  /** `v` leads to node `n` within `fuel` references (the bound the snapshot uses). */
  predicate Reaches(store: seq<ProxyEngine.Body>, v: ProxyEngine.Val, n: ProxyEngine.NodeId, fuel: nat)
    requires ProxyEngine.Closed(store) && ProxyEngine.ValIn(v, |store|)
    decreases fuel
  {
    && v.VRef? && fuel > 0
    && (v.node == n ||
        match store[v.node]
        case ObjNode(f) => exists k :: k in f && Reaches(store, f[k], n, fuel - 1)
        case ArrNode(s) => exists i :: 0 <= i < |s| && Reaches(store, s[i], n, fuel - 1))
  }

  /**
   * `keys` walks from `v` through records to node `n`, whose member
   * `keys[|keys| - 1]` is the one written, and it is the only way from `v`
   * to `n`: no member off the walk reaches `n`. This is the heap shape in
   * which the path a wrapper carries names the written member uniquely.
   */
  predicate SoleRoute(store: seq<ProxyEngine.Body>, v: ProxyEngine.Val, keys: seq<string>, n: ProxyEngine.NodeId, fuel: nat)
    requires ProxyEngine.Closed(store) && ProxyEngine.ValIn(v, |store|)
    decreases |keys|
  {
    && keys != [] && v.VRef? && fuel > 0 && store[v.node].ObjNode?
    && (forall k :: k in store[v.node].fields && k != keys[0] ==> !Reaches(store, store[v.node].fields[k], n, fuel - 1))
    && if |keys| == 1 then v.node == n
       else
         && v.node != n && keys[0] in store[v.node].fields
         && SoleRoute(store, store[v.node].fields[keys[0]], keys[1..], n, fuel - 1)
  }

  /** The heap after the set trap writes `x` as member `k` of record node `n`. */
  function WriteMember(store: seq<ProxyEngine.Body>, n: ProxyEngine.NodeId, k: string, x: ProxyEngine.Val): (r: seq<ProxyEngine.Body>)
    requires n < |store| && store[n].ObjNode?
    ensures |r| == |store| && r[n].ObjNode? && r[n].fields == store[n].fields[k := x]
    ensures forall m :: 0 <= m < |store| && m != n ==> r[m] == store[m]
  {
    store[n := ProxyEngine.WriteProp(store[n], k, x).value]
  }

  lemma WriteMemberClosed(store: seq<ProxyEngine.Body>, n: ProxyEngine.NodeId, k: string, x: ProxyEngine.Val)
    requires ProxyEngine.Closed(store) && n < |store| && store[n].ObjNode? && ProxyEngine.ValIn(x, |store|)
    ensures ProxyEngine.Closed(WriteMember(store, n, k, x))
  {
    ProxyEngine.WritePropIn(store[n], k, x, |store|);
  }

  /** The path of property names a record walk turns into. */
  function Keys(keys: seq<string>): (path: seq<Seg>)
    ensures |path| == |keys| && forall i :: 0 <= i < |keys| ==> path[i] == SKey(keys[i])
  {
    seq(|keys|, i requires 0 <= i < |keys| => SKey(keys[i]))
  }

  /** A record node unfolds to the record of its unfolded members. */
  lemma UnfoldRecord(store: seq<ProxyEngine.Body>, v: ProxyEngine.Val, fuel: nat)
    requires ProxyEngine.Closed(store) && ProxyEngine.ValIn(v, |store|) && v.VRef? && fuel > 0 && store[v.node].ObjNode?
    requires forall j :: j in store[v.node].fields ==> Unfold(store, store[v.node].fields[j], fuel - 1).Some?
    ensures Unfold(store, v, fuel).Some? && Unfold(store, v, fuel).value.Rec?
    ensures var f := store[v.node].fields;
      var out := Unfold(store, v, fuel).value.fields;
      out.Keys == f.Keys && forall j :: j in f ==> out[j] == Unfold(store, f[j], fuel - 1).value
  {
  }

  /** A record node whose members unfold to `out` unfolds to the record `out`. */
  lemma UnfoldRecordTo(store: seq<ProxyEngine.Body>, v: ProxyEngine.Val, fuel: nat, out: map<string, Data>)
    requires ProxyEngine.Closed(store) && ProxyEngine.ValIn(v, |store|) && v.VRef? && fuel > 0 && store[v.node].ObjNode?
    requires store[v.node].fields.Keys == out.Keys
    requires forall j :: j in out ==> Unfold(store, store[v.node].fields[j], fuel - 1) == Some(out[j])
    ensures Unfold(store, v, fuel) == Some(Rec(out))
  {
    UnfoldRecord(store, v, fuel);
    assert Unfold(store, v, fuel).value.fields == out;
  }

  /** No member of a node that does not reach `n` reaches it. */
  lemma UnreachedMembers(store: seq<ProxyEngine.Body>, v: ProxyEngine.Val, n: ProxyEngine.NodeId, fuel: nat)
    requires ProxyEngine.Closed(store) && ProxyEngine.ValIn(v, |store|) && v.VRef? && fuel > 0
    requires !Reaches(store, v, n, fuel)
    ensures v.node != n
    ensures store[v.node].ObjNode? ==>
      forall j :: j in store[v.node].fields ==> !Reaches(store, store[v.node].fields[j], n, fuel - 1)
    ensures store[v.node].ArrNode? ==>
      forall i :: 0 <= i < |store[v.node].elems| ==> !Reaches(store, store[v.node].elems[i], n, fuel - 1)
  {
  }

  /** A value that does not reach the written node unfolds the same before and after the write. */
  lemma {:induction false} UnfoldUnreached(store: seq<ProxyEngine.Body>, n: ProxyEngine.NodeId, k: string, x: ProxyEngine.Val, v: ProxyEngine.Val, fuel: nat)
    requires ProxyEngine.Closed(store) && n < |store| && store[n].ObjNode? && ProxyEngine.ValIn(x, |store|)
    requires ProxyEngine.ValIn(v, |store|) && !Reaches(store, v, n, fuel)
    ensures ProxyEngine.Closed(WriteMember(store, n, k, x))
    ensures Unfold(WriteMember(store, n, k, x), v, fuel) == Unfold(store, v, fuel)
    decreases fuel
  {
    var written := WriteMember(store, n, k, x);
    WriteMemberClosed(store, n, k, x);
    if v.VRef? && fuel > 0 {
      UnreachedMembers(store, v, n, fuel);
      assert written[v.node] == store[v.node];
      match store[v.node]
      case ObjNode(f) =>
        forall j | j in f ensures Unfold(written, f[j], fuel - 1) == Unfold(store, f[j], fuel - 1) {
          UnfoldUnreached(store, n, k, x, f[j], fuel - 1);
        }
        if forall j :: j in f ==> Unfold(store, f[j], fuel - 1).Some? {
          UnfoldRecord(store, v, fuel);
          UnfoldRecord(written, v, fuel);
          assert Unfold(written, v, fuel).value.fields == Unfold(store, v, fuel).value.fields;
        }
      case ArrNode(s) =>
        forall i | 0 <= i < |s| ensures Unfold(written, s[i], fuel - 1) == Unfold(store, s[i], fuel - 1) {
          UnfoldUnreached(store, n, k, x, s[i], fuel - 1);
        }
        if forall i :: 0 <= i < |s| ==> Unfold(store, s[i], fuel - 1).Some? {
          assert Unfold(written, v, fuel).value.elems == Unfold(store, v, fuel).value.elems;
        }
    }
  }

  /**
   * Along a sole route, the tree unfolded after the write is the old tree
   * with the scalar applied at the route's keys, and the old tree is a
   * record at every step of the route.
   */
  lemma {:induction false} UnfoldAlongSoleRoute(store: seq<ProxyEngine.Body>, v: ProxyEngine.Val, keys: seq<string>, n: ProxyEngine.NodeId, x: ProxyEngine.Val, fuel: nat)
    requires ProxyEngine.Closed(store) && ProxyEngine.ValIn(v, |store|) && ProxyEngine.ValIn(x, |store|) && !x.VRef?
    requires n < |store| && store[n].ObjNode? && SoleRoute(store, v, keys, n, fuel) && Unfold(store, v, fuel).Some?
    ensures var written := WriteMember(store, n, keys[|keys| - 1], x);
      && ProxyEngine.Closed(written)
      && ThroughRecords(Unfold(store, v, fuel).value, Keys(keys))
      && Unfold(written, v, fuel).Some?
      && ApplyAt(Unfold(store, v, fuel).value, Keys(keys), ToData(x)) == Ok(Unfold(written, v, fuel).value)
    decreases |keys|
  {
    var last := keys[|keys| - 1];
    var written := WriteMember(store, n, last, x);
    WriteMemberClosed(store, n, last, x);
    SiblingsUnchanged(store, v, keys[0], n, last, x, fuel);
    UnfoldRecord(store, v, fuel);
    if |keys| == 1 {
      assert Keys(keys) == [SKey(last)];
      UnfoldWriteHere(store, v, last, x, fuel);
    } else {
      var child := store[v.node].fields[keys[0]];
      UnfoldAlongSoleRoute(store, child, keys[1..], n, x, fuel - 1);
      KeysTail(keys);
      UnfoldWriteBelow(store, v, keys[0], n, last, x, fuel);
      ApplyThroughRecord(Unfold(store, v, fuel).value, Keys(keys), ToData(x));
    }
  }

  lemma KeysTail(keys: seq<string>)
    requires |keys| > 1
    ensures keys[1..][|keys[1..]| - 1] == keys[|keys| - 1]
    ensures Keys(keys)[1..] == Keys(keys[1..])
  {
    assert Keys(keys)[1..] == Keys(keys[1..]);
  }

  /** Applying below a record member is applying to that member and putting it back. */
  lemma ApplyThroughRecord(t: Data, path: seq<Seg>, x: Data)
    requires t.Rec? && |path| > 1 && path[0].SKey? && path[0].key in t.fields
    requires ApplyAt(t.fields[path[0].key], path[1..], x).Ok?
    ensures ApplyAt(t, path, x) == Ok(Rec(t.fields[path[0].key := ApplyAt(t.fields[path[0].key], path[1..], x).value]))
  {
  }

  /** The last step of the route: the written node unfolds to its old record with the scalar in place. */
  lemma UnfoldWriteHere(store: seq<ProxyEngine.Body>, v: ProxyEngine.Val, last: string, x: ProxyEngine.Val, fuel: nat)
    requires ProxyEngine.Closed(store) && ProxyEngine.ValIn(v, |store|) && ProxyEngine.ValIn(x, |store|) && !x.VRef?
    requires v.VRef? && fuel > 0 && store[v.node].ObjNode? && Unfold(store, v, fuel).Some?
    requires ProxyEngine.Closed(WriteMember(store, v.node, last, x))
    requires var f := store[v.node].fields;
      forall j :: j in f && j != last ==> Unfold(WriteMember(store, v.node, last, x), f[j], fuel - 1) == Unfold(store, f[j], fuel - 1)
    ensures var t := Unfold(store, v, fuel).value;
      var after := Unfold(WriteMember(store, v.node, last, x), v, fuel);
      after.Some? && t.Rec? && ApplyAt(t, [SKey(last)], ToData(x)) == Ok(after.value)
  {
    var written := WriteMember(store, v.node, last, x);
    var f := store[v.node].fields;
    UnfoldRecord(store, v, fuel);
    var t := Unfold(store, v, fuel).value;
    assert written[v.node].fields == f[last := x];
    UnfoldRecord(written, v, fuel);
    assert Unfold(written, v, fuel).value.fields == t.fields[last := ToData(x)];
  }

  /** A step before the end of the route: the node unfolds to its old record with the next member replaced. */
  lemma UnfoldWriteBelow(store: seq<ProxyEngine.Body>, v: ProxyEngine.Val, key: string, n: ProxyEngine.NodeId, last: string, x: ProxyEngine.Val, fuel: nat)
    requires ProxyEngine.Closed(store) && ProxyEngine.ValIn(v, |store|) && ProxyEngine.ValIn(x, |store|)
    requires n < |store| && store[n].ObjNode? && v.VRef? && v.node != n && fuel > 0 && store[v.node].ObjNode?
    requires Unfold(store, v, fuel).Some? && key in store[v.node].fields
    requires ProxyEngine.Closed(WriteMember(store, n, last, x))
    requires var f := store[v.node].fields;
      forall j :: j in f && j != key ==> Unfold(WriteMember(store, n, last, x), f[j], fuel - 1) == Unfold(store, f[j], fuel - 1)
    requires Unfold(WriteMember(store, n, last, x), store[v.node].fields[key], fuel - 1).Some?
    ensures var t := Unfold(store, v, fuel).value;
      var after := Unfold(WriteMember(store, n, last, x), v, fuel);
      var updated := Unfold(WriteMember(store, n, last, x), store[v.node].fields[key], fuel - 1).value;
      && t.Rec? && key in t.fields && after.Some?
      && after.value == Rec(t.fields[key := updated])
  {
    var written := WriteMember(store, n, last, x);
    UnfoldRecord(store, v, fuel);
    assert written[v.node] == store[v.node];
    UnfoldRecord(written, v, fuel);
  }

  /** The members of a node on the route other than the next step unfold the same after the write. */
  lemma SiblingsUnchanged(store: seq<ProxyEngine.Body>, v: ProxyEngine.Val, key: string, n: ProxyEngine.NodeId, last: string, x: ProxyEngine.Val, fuel: nat)
    requires ProxyEngine.Closed(store) && ProxyEngine.ValIn(v, |store|) && ProxyEngine.ValIn(x, |store|)
    requires n < |store| && store[n].ObjNode? && v.VRef? && fuel > 0 && store[v.node].ObjNode?
    requires forall k :: k in store[v.node].fields && k != key ==> !Reaches(store, store[v.node].fields[k], n, fuel - 1)
    ensures ProxyEngine.Closed(WriteMember(store, n, last, x))
    ensures var f := store[v.node].fields;
      forall j :: j in f && j != key ==> Unfold(WriteMember(store, n, last, x), f[j], fuel - 1) == Unfold(store, f[j], fuel - 1)
  {
    WriteMemberClosed(store, n, last, x);
    var f := store[v.node].fields;
    forall j | j in f && j != key ensures Unfold(WriteMember(store, n, last, x), f[j], fuel - 1) == Unfold(store, f[j], fuel - 1) {
      UnfoldUnreached(store, n, last, x, f[j], fuel - 1);
    }
  }

  /** After the write, the event path cleans to the route's keys: every step is a record. */
  lemma {:induction false} CleanPathAlongSoleRoute(store: seq<ProxyEngine.Body>, v: ProxyEngine.Val, keys: seq<string>, n: ProxyEngine.NodeId, x: ProxyEngine.Val, fuel: nat)
    requires ProxyEngine.Closed(store) && ProxyEngine.ValIn(v, |store|) && ProxyEngine.ValIn(x, |store|)
    requires n < |store| && store[n].ObjNode? && SoleRoute(store, v, keys, n, fuel)
    ensures ProxyEngine.Closed(WriteMember(store, n, keys[|keys| - 1], x))
    ensures CleanPath(WriteMember(store, n, keys[|keys| - 1], x), keys, v) == Ok(Keys(keys))
    decreases |keys|
  {
    var last := keys[|keys| - 1];
    var written := WriteMember(store, n, last, x);
    WriteMemberClosed(store, n, last, x);
    assert SegFor(written, v, keys[0]) == SKey(keys[0]);
    var next := StepRead(written, v, SKey(keys[0])).value;
    if |keys| == 1 {
      assert CleanPath(written, keys[1..], next) == Ok([]);
      assert Keys(keys) == [SKey(keys[0])] + [];
    } else {
      assert written[v.node] == store[v.node];
      CleanPathAlongSoleRoute(store, store[v.node].fields[keys[0]], keys[1..], n, x, fuel - 1);
      assert keys[1..][|keys[1..]| - 1] == last;
      assert Keys(keys) == [SKey(keys[0])] + Keys(keys[1..]);
    }
  }

  /**
   * A scalar written through a wrapper whose path is the sole route from
   * the shared root: the share callback's Change carries the route's keys
   * and the value, and the snapshot of the root after the write is the
   * old snapshot with that value applied at those keys.
   */
  lemma ChangeOfRecordWrite(store: seq<ProxyEngine.Body>, id: nat, root: ProxyEngine.NodeId, keys: seq<string>, n: ProxyEngine.NodeId, x: ProxyEngine.Val)
    requires ProxyEngine.Closed(store) && root < |store| && (x.VStr? || x.VNum? || x.VBig? || x.VBool?)
    requires n < |store| && store[n].ObjNode? && SoleRoute(store, ProxyEngine.VRef(root), keys, n, |store|)
    requires TakeSnapshot(store, ProxyEngine.VRef(root)).Ok?
    ensures var written := WriteMember(store, n, keys[|keys| - 1], x);
      && ProxyEngine.Closed(written)
      && Server.ChangeMessage(written, id, root, ProxyEngine.EventChange(keys, x)) == Ok(Change(id, Keys(keys), ToData(x)))
      && TakeSnapshot(written, ProxyEngine.VRef(root)).Ok?
      && ApplyAt(TakeSnapshot(store, ProxyEngine.VRef(root)).value, Keys(keys), ToData(x))
         == TakeSnapshot(written, ProxyEngine.VRef(root))
  {
    var v := ProxyEngine.VRef(root);
    var written := WriteMember(store, n, keys[|keys| - 1], x);
    UnfoldAlongSoleRoute(store, v, keys, n, x, |store|);
    CleanPathAlongSoleRoute(store, v, keys, n, x, |store|);
    var t := Unfold(store, v, |store|).value;
    CleanCommutesWithScalarWrite(t, Keys(keys), ToData(x));
  }

  /**
   * Publisher and subscriber in step: a listener whose mirror of `id` is
   * the snapshot of the shared root receives the Change the share callback
   * builds for a scalar written along a sole route; afterwards its mirror
   * is the snapshot of the written heap, and it reports the change.
   */
  lemma MirrorFollowsScalarWrite(st: Listening, id: nat, store: seq<ProxyEngine.Body>, root: ProxyEngine.NodeId,
                                 keys: seq<string>, n: ProxyEngine.NodeId, x: ProxyEngine.Val)
    requires ProxyEngine.Closed(store) && root < |store| && (x.VStr? || x.VNum? || x.VBig? || x.VBool?)
    requires n < |store| && store[n].ObjNode? && SoleRoute(store, ProxyEngine.VRef(root), keys, n, |store|)
    requires id in st.objects && TakeSnapshot(store, ProxyEngine.VRef(root)) == Ok(st.objects[id].data)
    ensures var written := WriteMember(store, n, keys[|keys| - 1], x);
      && ProxyEngine.Closed(written)
      && var m := Server.ChangeMessage(written, id, root, ProxyEngine.EventChange(keys, x));
      && m.Ok?
      && var r := React(st, m.value);
      && r.Ok? && r.value.event == Some(Changed(Keys(keys), ToData(x)))
      && TakeSnapshot(written, ProxyEngine.VRef(root)) == Ok(r.value.state.objects[id].data)
  {
    ChangeOfRecordWrite(store, id, root, keys, n, x);
  }

  /**
   * The publisher's write path: a scalar assigned through a wrapper whose
   * path is the sole route from the shared root to the wrapper's node, on
   * an emitter whose only callback is that share's, sends exactly one
   * Change, carrying the route's keys and the value, and the snapshot of
   * the root moves exactly as a mirror moves when it applies that Change.
   */
  method AssignAlongSoleRoute(p: Server.Publisher, w: ProxyEngine.WrapperId, prop: string, x: ProxyEngine.Val,
                              s: nat, id: nat, root: ProxyEngine.NodeId) returns (r: Outcome)
    requires p.Valid() && w < |p.engine.wrappers| && s < |p.sockets| && root < |p.engine.store|
    requires x.VStr? || x.VNum? || x.VBig? || x.VBool?
    requires p.engine.listeners[p.engine.wrappers[w].emitter] == [ProxyEngine.ShareCb(s, id, root)]
    requires var target := p.engine.wrappers[w];
      && p.engine.store[target.node].ObjNode?
      && SoleRoute(p.engine.store, ProxyEngine.VRef(root), target.path + [prop], target.node, |p.engine.store|)
    requires TakeSnapshot(p.engine.store, ProxyEngine.VRef(root)).Ok?
    modifies p, p.engine
    ensures p.Valid() && r == Pass
    ensures p.engine.wrappers == old(p.engine.wrappers) && p.engine.listeners == old(p.engine.listeners)
    ensures p.engine.store == WriteMember(old(p.engine.store), p.engine.wrappers[w].node, prop, x)
    ensures var keys := p.engine.wrappers[w].path + [prop];
      && p.sockets == old(p.sockets)[s := old(p.sockets[s]).(outbox := old(p.sockets[s].outbox) + [Change(id, Keys(keys), ToData(x))])]
      && ApplyAt(old(TakeSnapshot(p.engine.store, ProxyEngine.VRef(root))).value, Keys(keys), ToData(x))
         == TakeSnapshot(p.engine.store, ProxyEngine.VRef(root))
  {
    var target := p.engine.wrappers[w];
    var keys := target.path + [prop];
    ghost var before := p.engine.store;
    assert keys[|keys| - 1] == prop;
    ChangeOfRecordWrite(before, id, root, keys, target.node, x);
    var cbs := [ProxyEngine.ShareCb(s, id, root)];
    assert cbs[1..] == [];
    r := p.Assign(w, prop, x);
    assert p.engine.store == WriteMember(before, target.node, prop, x);
  }

  /** A listener of the same name that receives the Register holds the snapshot it carried. */
  lemma RegisterMirrorsSnapshot(st: Listening, id: int, snap: Data)
    requires id !in st.objects
    ensures var r := React(st, Register(id, st.name, snap));
      r.Ok? && r.value.state.objects[id] == Mirror(snap, st.name)
  {
    RegisterThenGetters(st, id, snap);
  }

  // ---------------------------------------------------------------------
  // One object reachable along two routes: `{a: leaf, b: leaf}`

  function Leaf(v: int): ProxyEngine.Body {
    ProxyEngine.ObjNode(map["x" := ProxyEngine.VNum(v)])
  }

  const Top: ProxyEngine.Body := ProxyEngine.ObjNode(map["a" := ProxyEngine.VRef(0), "b" := ProxyEngine.VRef(0)])

  function Twin(a: int, b: int): Data {
    Rec(map["a" := Rec(map["x" := Num(a)]), "b" := Rec(map["x" := Num(b)])])
  }

  lemma TwinClosed(v: int)
    ensures ProxyEngine.Closed([Leaf(v), Top])
  {
    var store := [Leaf(v), Top];
    assert ProxyEngine.BodyIn(store[0], 2) && ProxyEngine.BodyIn(store[1], 2);
  }

  lemma UnfoldLeaf(v: int)
    ensures ProxyEngine.Closed([Leaf(v), Top])
    ensures Unfold([Leaf(v), Top], ProxyEngine.VRef(0), 1) == Some(Rec(map["x" := Num(v)]))
  {
    TwinClosed(v);
    UnfoldRecordTo([Leaf(v), Top], ProxyEngine.VRef(0), 1, map["x" := Num(v)]);
  }

  lemma SnapshotOfTwin(v: int)
    ensures ProxyEngine.Closed([Leaf(v), Top])
    ensures TakeSnapshot([Leaf(v), Top], ProxyEngine.VRef(1)) == Ok(Twin(v, v))
  {
    UnfoldLeaf(v);
    UnfoldRecordTo([Leaf(v), Top], ProxyEngine.VRef(1), 2, Twin(v, v).fields);
    assert IsPlainMember(Rec(map["x" := Num(v)]));
    PlainIsFixpoint(Twin(v, v));
  }

  /** The Change for `x` written through the wrapper first reached as `a` names `a`, whichever route the write took. */
  lemma ChangeOfTwinWrite()
    ensures ProxyEngine.Closed([Leaf(1), Top])
    ensures Server.ChangeMessage([Leaf(1), Top], 0, 1, ProxyEngine.EventChange(["a", "x"], ProxyEngine.VNum(1)))
      == Ok(Change(0, [SKey("a"), SKey("x")], Num(1)))
  {
    var store := [Leaf(1), Top];
    assert ProxyEngine.BodyIn(store[0], 2) && ProxyEngine.BodyIn(store[1], 2);
    assert SegFor(store, ProxyEngine.VRef(1), "a") == SKey("a");
    assert StepRead(store, ProxyEngine.VRef(1), SKey("a")) == Ok(ProxyEngine.VRef(0));
    assert SegFor(store, ProxyEngine.VRef(0), "x") == SKey("x");
    assert ["a", "x"][1..] == ["x"] && ["x"][1..] == [];
    assert CleanPath(store, [], ProxyEngine.VNum(1)) == Ok([]);
    assert CleanPath(store, ["x"], ProxyEngine.VRef(0)) == Ok([SKey("x")] + []);
    assert [SKey("x")] + [] == [SKey("x")] && [SKey("a")] + [SKey("x")] == [SKey("a"), SKey("x")];
    assert CleanPath(store, ["a", "x"], ProxyEngine.VRef(1)) == Ok([SKey("a")] + [SKey("x")]);
  }

  /**
   * With `{a: leaf, b: leaf}` wrapped, reading `proxy.a` caches the leaf's
   * wrapper with the path ["a"], reading `proxy.b` returns that same
   * wrapper, and `proxy.b.x = 1` is reported as a change at ["a", "x"].
   */
  method CachedLeafWrite() returns (viaA: ProxyEngine.Got, viaB: ProxyEngine.Got, events: seq<ProxyEngine.Emission>,
                                    store: seq<ProxyEngine.Body>)
    ensures viaA == viaB == ProxyEngine.Wrapped(1)
    ensures events == [ProxyEngine.Emission(0, ProxyEngine.EventChange(["a", "x"], ProxyEngine.VNum(1)))]
    ensures store == [Leaf(1), Top]
  {
    var e := new ProxyEngine.Engine();
    var leaf := e.Alloc(Leaf(0));
    var top := e.Alloc(Top);
    assert e.store == [Leaf(0), Top];
    var root := e.Wrap(ProxyEngine.VRef(top));
    assert e.Item(0, "a") == ProxyEngine.VRef(0);
    viaA := e.Get(0, "a");
    assert [] + ["a"] == ["a"];
    assert e.wrappers == [ProxyEngine.Wrapper(1, [], 0), ProxyEngine.Wrapper(0, ["a"], 0)];
    assert e.cache == map[0 := 1] && e.log == [];
    assert e.Item(0, "b") == ProxyEngine.VRef(0);
    viaB := e.Get(0, "b");
    assert ["a"] + ["x"] == ["a", "x"];
    var _ := e.Set(1, "x", ProxyEngine.VNum(1));
    LeafWritten();
    events, store := e.log, e.store;
  }

  lemma LeafWritten()
    ensures Leaf(0).fields["x" := ProxyEngine.VNum(1)] == Leaf(1).fields
  {
    assert Leaf(0).fields["x" := ProxyEngine.VNum(1)] == map["x" := ProxyEngine.VNum(1)];
  }

  /** The mirror that applies the Change at ["a", "x"] keeps the old `b.x`. */
  lemma TwinMirror()
    ensures ApplyAt(Twin(0, 0), [SKey("a"), SKey("x")], Num(1)) == Ok(Twin(1, 0))
  {
    var a := Rec(map["x" := Num(1)]);
    assert Twin(0, 0).fields["a"].fields["x" := Num(1)] == a.fields;
    assert ApplyAt(Twin(0, 0).fields["a"], [SKey("x")], Num(1)) == Ok(a);
    assert Twin(0, 0).fields["a" := a] == Twin(1, 0).fields;
  }

  /**
   * Where the written node is reachable along two routes the mirror and
   * the snapshot part: after `proxy.b.x = 1` above, a mirror that held the
   * snapshot and applies the Change holds `b.x` = 0, while the snapshot of
   * the publisher's object holds `b.x` = 1.
   */
  method SharedNodeDiverges() returns (mirror: Result<Data>, snapshot: Result<Data>)
    ensures mirror == Ok(Twin(1, 0)) && snapshot == Ok(Twin(1, 1)) && mirror != snapshot
  {
    var viaA, viaB, events, store := CachedLeafWrite();
    SnapshotOfTwin(0);
    SnapshotOfTwin(1);
    ChangeOfTwinWrite();
    var change := Server.ChangeMessage(store, 0, 1, events[0].event).value;
    TwinMirror();
    mirror := ApplyAt(TakeSnapshot([Leaf(0), Top], ProxyEngine.VRef(1)).value, change.path, change.value);
    snapshot := TakeSnapshot(store, ProxyEngine.VRef(1));
    TwinsDiffer();
  }

  lemma TwinsDiffer()
    ensures Twin(1, 0) != Twin(1, 1)
  {
    assert Twin(1, 0).fields["b"].fields["x"] == Num(0);
  }

  // ---------------------------------------------------------------------
  // The integration scenario: `{k1: 42, k2: "foobar"}` shared as "test",
  // a listener for "test", then `proxy.k1 = 100`.

  function Published(k1: int): ProxyEngine.Body {
    ProxyEngine.ObjNode(map["k1" := ProxyEngine.VNum(k1), "k2" := ProxyEngine.VStr("foobar")])
  }

  function Mirrored(k1: int): Data {
    Rec(map["k1" := Num(k1), "k2" := Str("foobar")])
  }

  lemma UnfoldPublished(k1: int)
    ensures ProxyEngine.Closed([Published(k1)])
    ensures Unfold([Published(k1)], ProxyEngine.VRef(0), 1) == Some(Mirrored(k1))
  {
    assert ProxyEngine.BodyIn(Published(k1), 1);
    UnfoldRecordTo([Published(k1)], ProxyEngine.VRef(0), 1, Mirrored(k1).fields);
  }

  /** The snapshot of the published object is the record of its two scalars. */
  lemma SnapshotOfPublished(k1: int)
    ensures ProxyEngine.Closed([Published(k1)])
    ensures TakeSnapshot([Published(k1)], ProxyEngine.VRef(0)) == Ok(Mirrored(k1))
  {
    UnfoldPublished(k1);
    assert IsPlain(Mirrored(k1));
    PlainIsFixpoint(Mirrored(k1));
  }

  /** The Change the share callback builds for `proxy.k1 = 100`. */
  lemma ChangeOfWrite()
    ensures ProxyEngine.Closed([Published(100)])
    ensures Server.ChangeMessage([Published(100)], 0, 0, ProxyEngine.EventChange(["k1"], ProxyEngine.VNum(100)))
      == Ok(Change(0, [SKey("k1")], Num(100)))
  {
    var store := [Published(100)];
    UnfoldPublished(100);
    assert SegFor(store, ProxyEngine.VRef(0), "k1") == SKey("k1");
    assert StepRead(store, ProxyEngine.VRef(0), SKey("k1")) == Ok(ProxyEngine.VNum(100));
    assert ["k1"][1..] == [];
    assert CleanPath(store, [], ProxyEngine.VNum(100)) == Ok([]);
    assert [SKey("k1")] + [] == [SKey("k1")];
    assert CleanPath(store, ["k1"], ProxyEngine.VRef(0)) == Ok([SKey("k1")]);
  }

  /** Emitting that event on the wrapper's emitter appends the Change to the socket's outbox. */
  lemma DispatchOfWrite(sockets: seq<Server.SocketState>)
    requires |sockets| == 1
    ensures ProxyEngine.Closed([Published(100)])
    ensures Server.CallbacksIn([ProxyEngine.ShareCb(0, 0, 0)], 1, 1)
    ensures Server.Dispatch(sockets, [Published(100)], [ProxyEngine.ShareCb(0, 0, 0)], ProxyEngine.EventChange(["k1"], ProxyEngine.VNum(100)))
      == Server.Dispatched([sockets[0].(outbox := sockets[0].outbox + [Change(0, [SKey("k1")], Num(100))])], None)
  {
    ChangeOfWrite();
    assert [ProxyEngine.ShareCb(0, 0, 0)][1..] == [];
  }

  /** The publisher after `shareObject(socket, "test", serverObj)` on a fresh socket. */
  method ShareServerObject() returns (p: Server.Publisher)
    ensures fresh(p) && fresh(p.engine) && p.Valid()
    ensures |p.sockets| == 1 && p.sockets[0].outbox == [Register(0, "test", Mirrored(42))]
    ensures p.engine.store == [Published(42)] && p.engine.wrappers == [ProxyEngine.Wrapper(0, [], 0)]
    ensures p.engine.listeners == [[ProxyEngine.ShareCb(0, 0, 0)]]
  {
    p := new Server.Publisher();
    var s := p.Connect();
    var n := p.NewObject(Published(42));
    assert p.engine.store == [Published(42)] && s == 0 && n == 0;
    SnapshotOfPublished(42);
    var proxy := p.ShareObject(s, "test", ProxyEngine.VRef(n));
    assert p.sockets[0].outbox == [] + [Register(0, "test", Mirrored(42))];
  }

  /** `proxy.k1 = 100` sends one Change with the path `["k1"]` and the new value. */
  method WriteK1(p: Server.Publisher)
    requires p.Valid() && |p.sockets| == 1 && p.sockets[0].outbox == [Register(0, "test", Mirrored(42))]
    requires p.engine.store == [Published(42)] && p.engine.wrappers == [ProxyEngine.Wrapper(0, [], 0)]
    requires p.engine.listeners == [[ProxyEngine.ShareCb(0, 0, 0)]]
    modifies p, p.engine
    ensures p.Valid() && p.engine.store == [Published(100)]
    ensures |p.sockets| == 1 && p.sockets[0].outbox == [Register(0, "test", Mirrored(42)), Change(0, [SKey("k1")], Num(100))]
  {
    assert Published(42).fields["k1" := ProxyEngine.VNum(100)] == Published(100).fields;
    DispatchOfWrite(p.sockets);
    assert [] + ["k1"] == ["k1"];
    var r := p.Assign(0, "k1", ProxyEngine.VNum(100));
    assert p.engine.store == [Published(100)];
  }

  /** A socket with one listener for "test". */
  method ListenForTest() returns (c: Subscriber)
    ensures fresh(c) && c.Valid() && c.listeners == [Listening("test", map[])] && c.notices == []
    ensures HandlersFor(c.handlers, RegisterEvent) == [Handler(0, OnRegisterKind)]
    ensures HandlersFor(c.handlers, ChangeEvent) == [Handler(0, OnChangeKind)]
  {
    c := new Subscriber();
    var l := c.ListenToSharedObject("test");
    TokensDistinct();
  }

  /** The listener receives the Register and then the Change. */
  method ReceiveBoth(c: Subscriber, register: Message, change: Message)
    requires c.Valid() && c.listeners == [Listening("test", map[])] && c.notices == []
    requires HandlersFor(c.handlers, RegisterEvent) == [Handler(0, OnRegisterKind)]
    requires HandlersFor(c.handlers, ChangeEvent) == [Handler(0, OnChangeKind)]
    requires register == Register(0, "test", Mirrored(42)) && change == Change(0, [SKey("k1")], Num(100))
    modifies c
    ensures c.listeners == [Listening("test", map[0 := Mirror(Mirrored(100), "test")])]
    ensures c.notices == [Notice(0, 0, Found(Mirror(Mirrored(42), "test"))), Notice(0, 0, Changed([SKey("k1")], Num(100)))]
  {
    var registered := c.Deliver(register);
    assert c.listeners == [Listening("test", map[0 := Mirror(Mirrored(42), "test")])];
    assert Mirrored(42).fields["k1" := Num(100)] == Mirrored(100).fields;
    assert ApplyAt(Mirrored(42), [SKey("k1")], Num(100)) == Ok(Mirrored(100));
    var changed := c.Deliver(change);
    assert map[0 := Mirror(Mirrored(42), "test")][0 := Mirror(Mirrored(100), "test")] == map[0 := Mirror(Mirrored(100), "test")];
  }

  // ---------------------------------------------------------------------
  // The nested scenario: `{k1: "foobar", k2: {k1: 100}}` shared as "test",
  // then `proxy.k2.k1 = 101`, `proxy.k2.k1 = 102` and `proxy.k1 = "blubb"`.

  function Inner(k: int): ProxyEngine.Body {
    ProxyEngine.ObjNode(map["k1" := ProxyEngine.VNum(k)])
  }

  function Outer(s: string): ProxyEngine.Body {
    ProxyEngine.ObjNode(map["k1" := ProxyEngine.VStr(s), "k2" := ProxyEngine.VRef(0)])
  }

  function Nested(k: int, s: string): Data {
    Rec(map["k1" := Str(s), "k2" := Rec(map["k1" := Num(k)])])
  }

  lemma NestedClosed(k: int, s: string)
    ensures ProxyEngine.Closed([Inner(k), Outer(s)])
  {
    var store := [Inner(k), Outer(s)];
    assert ProxyEngine.BodyIn(store[0], 2) && ProxyEngine.BodyIn(store[1], 2);
  }

  /** The nested object unfolds to the nested record of its values. */
  lemma UnfoldInner(k: int, s: string)
    ensures ProxyEngine.Closed([Inner(k), Outer(s)])
    ensures Unfold([Inner(k), Outer(s)], ProxyEngine.VRef(0), 1) == Some(Rec(map["k1" := Num(k)]))
  {
    NestedClosed(k, s);
    UnfoldRecordTo([Inner(k), Outer(s)], ProxyEngine.VRef(0), 1, map["k1" := Num(k)]);
  }

  lemma UnfoldNested(k: int, s: string)
    ensures ProxyEngine.Closed([Inner(k), Outer(s)])
    ensures Unfold([Inner(k), Outer(s)], ProxyEngine.VRef(1), 2) == Some(Nested(k, s))
  {
    UnfoldInner(k, s);
    UnfoldRecordTo([Inner(k), Outer(s)], ProxyEngine.VRef(1), 2, Nested(k, s).fields);
  }

  /** The snapshot of the nested object is the nested record of its scalars. */
  lemma SnapshotOfNested(k: int, s: string)
    ensures ProxyEngine.Closed([Inner(k), Outer(s)])
    ensures TakeSnapshot([Inner(k), Outer(s)], ProxyEngine.VRef(1)) == Ok(Nested(k, s))
  {
    UnfoldNested(k, s);
    assert IsPlain(Nested(k, s)) by {
      assert IsPlainMember(Rec(map["k1" := Num(k)]));
    }
    PlainIsFixpoint(Nested(k, s));
  }

  /** The two routes the test writes along: `k2` then `k1` to the inner object, and `k1` of the root. */
  lemma NestedRoutes(k: int, s: string)
    ensures ProxyEngine.Closed([Inner(k), Outer(s)])
    ensures SoleRoute([Inner(k), Outer(s)], ProxyEngine.VRef(1), ["k2", "k1"], 0, 2)
    ensures SoleRoute([Inner(k), Outer(s)], ProxyEngine.VRef(1), ["k1"], 1, 2)
  {
    var store := [Inner(k), Outer(s)];
    NestedClosed(k, s);
    assert !Reaches(store, ProxyEngine.VRef(0), 1, 1) by {
      assert forall j :: j in Inner(k).fields ==> !Reaches(store, Inner(k).fields[j], 1, 0);
    }
    assert ["k2", "k1"][1..] == ["k1"];
  }

  /** `shareObject(socket, "test", obj3)` with `obj3.k2` the separately allocated `obj1`. */
  method ShareNested() returns (p: Server.Publisher)
    ensures fresh(p) && fresh(p.engine) && p.Valid()
    ensures |p.sockets| == 1 && p.sockets[0].outbox == [Register(0, "test", Nested(100, "foobar"))]
    ensures p.engine.store == [Inner(100), Outer("foobar")] && p.engine.wrappers == [ProxyEngine.Wrapper(1, [], 0)]
    ensures p.engine.listeners == [[ProxyEngine.ShareCb(0, 0, 1)]] && p.engine.cache == map[]
  {
    p := new Server.Publisher();
    var s := p.Connect();
    var obj1 := p.NewObject(Inner(100));
    var obj3 := p.NewObject(Outer("foobar"));
    assert p.engine.store == [Inner(100), Outer("foobar")] && s == 0 && obj3 == 1;
    SnapshotOfNested(100, "foobar");
    var proxy := p.ShareObject(s, "test", ProxyEngine.VRef(obj3));
    assert p.sockets[0].outbox == [] + [Register(0, "test", Nested(100, "foobar"))];
  }

  /** Reading `proxy.k2` wraps the inner object with the path ["k2"] on the root's emitter. */
  method ReadK2(p: Server.Publisher)
    requires p.Valid() && p.engine.store == [Inner(100), Outer("foobar")] && p.engine.wrappers == [ProxyEngine.Wrapper(1, [], 0)]
    requires p.engine.cache == map[]
    modifies p.engine
    ensures p.Valid() && p.engine.store == old(p.engine.store) && p.engine.listeners == old(p.engine.listeners)
    ensures p.engine.wrappers == [ProxyEngine.Wrapper(1, [], 0), ProxyEngine.Wrapper(0, ["k2"], 0)]
  {
    assert p.engine.Item(0, "k2") == ProxyEngine.VRef(0);
    assert [] + ["k2"] == ["k2"];
    var k2 := p.engine.Get(0, "k2");
  }

  /** What the two writes of the test do to the heap. */
  lemma NestedWrites(k: int, s: string, k': int, s': string)
    ensures WriteMember([Inner(k), Outer(s)], 0, "k1", ProxyEngine.VNum(k')) == [Inner(k'), Outer(s)]
    ensures WriteMember([Inner(k), Outer(s)], 1, "k1", ProxyEngine.VStr(s')) == [Inner(k), Outer(s')]
  {
    assert Inner(k).fields["k1" := ProxyEngine.VNum(k')] == Inner(k').fields;
    assert Outer(s).fields["k1" := ProxyEngine.VStr(s')] == Outer(s').fields;
  }

  /** `proxy.k2.k1 = k'`: one Change with the path ["k2", "k1"]. */
  method WriteInner(p: Server.Publisher, k: int, s: string, k': int)
    requires p.Valid() && |p.sockets| == 1 && p.engine.store == [Inner(k), Outer(s)]
    requires p.engine.wrappers == [ProxyEngine.Wrapper(1, [], 0), ProxyEngine.Wrapper(0, ["k2"], 0)]
    requires p.engine.listeners == [[ProxyEngine.ShareCb(0, 0, 1)]]
    modifies p, p.engine
    ensures p.Valid() && p.engine.store == [Inner(k'), Outer(s)]
    ensures p.engine.wrappers == old(p.engine.wrappers) && p.engine.listeners == old(p.engine.listeners)
    ensures |p.sockets| == 1 && p.sockets[0].outbox == old(p.sockets[0].outbox) + [Change(0, [SKey("k2"), SKey("k1")], Num(k'))]
  {
    NestedRoutes(k, s);
    SnapshotOfNested(k, s);
    assert Keys(["k2", "k1"]) == [SKey("k2"), SKey("k1")];
    assert ["k2"] + ["k1"] == ["k2", "k1"];
    NestedWrites(k, s, k', s);
    var _ := AssignAlongSoleRoute(p, 1, "k1", ProxyEngine.VNum(k'), 0, 0, 1);
  }

  /** `proxy.k1 = s'`: one Change with the path ["k1"]. */
  method WriteOuter(p: Server.Publisher, k: int, s: string, s': string)
    requires p.Valid() && |p.sockets| == 1 && p.engine.store == [Inner(k), Outer(s)]
    requires p.engine.wrappers == [ProxyEngine.Wrapper(1, [], 0), ProxyEngine.Wrapper(0, ["k2"], 0)]
    requires p.engine.listeners == [[ProxyEngine.ShareCb(0, 0, 1)]]
    modifies p, p.engine
    ensures p.Valid() && p.engine.store == [Inner(k), Outer(s')]
    ensures |p.sockets| == 1 && p.sockets[0].outbox == old(p.sockets[0].outbox) + [Change(0, [SKey("k1")], Str(s'))]
  {
    NestedRoutes(k, s);
    SnapshotOfNested(k, s);
    assert Keys(["k1"]) == [SKey("k1")];
    assert [] + ["k1"] == ["k1"];
    NestedWrites(k, s, k, s');
    var _ := AssignAlongSoleRoute(p, 0, "k1", ProxyEngine.VStr(s'), 0, 0, 1);
  }

  /**
   * The scenario of lib/server.test.ts, "server sends nested change": the
   * read of `proxy.k2` creates a wrapper with path ["k2"] on the root's
   * emitter, so both nested writes send the path ["k2", "k1"], the write of
   * `k1` sends ["k1"], and the snapshot follows every write.
   */
  method ServerSendsNestedChange() returns (sent: seq<Message>, snapshot: Result<Data>)
    ensures sent == [Register(0, "test", Nested(100, "foobar")),
                     Change(0, [SKey("k2"), SKey("k1")], Num(101)),
                     Change(0, [SKey("k2"), SKey("k1")], Num(102)),
                     Change(0, [SKey("k1")], Str("blubb"))]
    ensures snapshot == Ok(Nested(102, "blubb"))
  {
    var p := ShareNested();
    ReadK2(p);
    WriteInner(p, 100, "foobar", 101);
    WriteInner(p, 101, "foobar", 102);
    WriteOuter(p, 102, "foobar", "blubb");
    sent := p.sockets[0].outbox;
    SnapshotOfNested(102, "blubb");
    snapshot := TakeSnapshot(p.engine.store, ProxyEngine.VRef(1));
  }

  /**
   * The scenario of tests/integration/client-server.test.ts, "client
   * received single change": the listener is told of the object once,
   * then of the change once, and its mirror ends equal to the snapshot of
   * the written object.
   */
  method ClientReceivesSingleChange() returns (mirror: Data, snapshot: Result<Data>, told: seq<Notice>)
    ensures mirror == Mirrored(100) && snapshot == Ok(mirror)
    ensures told == [Notice(0, 0, Found(Mirror(Mirrored(42), "test"))), Notice(0, 0, Changed([SKey("k1")], Num(100)))]
  {
    var c := ListenForTest();
    var p := ShareServerObject();
    WriteK1(p);
    ReceiveBoth(c, p.sockets[0].outbox[0], p.sockets[0].outbox[1]);
    mirror := c.listeners[0].objects[0].data;
    SnapshotOfPublished(100);
    snapshot := TakeSnapshot(p.engine.store, ProxyEngine.VRef(0));
    told := c.notices;
  }
}
