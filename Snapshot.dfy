/**
 * The two pure helpers of the publisher binding (lib/server.ts):
 * `makeCleanObject`, the deep snapshot that keeps only data leaves, and
 * `makeCleanPath`, which turns path segments that step through arrays
 * into numbers. A snapshot of a heap value is taken in two stages:
 * `Unfold` reads the reachable graph as a finite tree (a reachable cycle
 * makes the recursion run out, as the JavaScript recursion overflows the
 * stack), and `Clean` is `makeCleanObject` on that tree.
 */
module Snapshot {
  import opened Js
  import opened Protocol
  import opened ProxyEngine

  // ---------------------------------------------------------------------
  // makeCleanObject on trees

  /** A member that `makeCleanObject` copies: a data scalar or an object (null included). */
  predicate Kept(d: Data) {
    IsDataScalar(d) || IsObjectType(d)
  }

  /** The length of `s` once its trailing dropped members are cut off. */
  function KeptLength(s: seq<Data>): (n: nat)
    ensures n <= |s|
    ensures n > 0 ==> Kept(s[n - 1])
    ensures forall i :: n <= i < |s| ==> !Kept(s[i])
  {
    if s == [] then 0
    else if Kept(s[|s| - 1]) then |s|
    else KeptLength(s[..|s| - 1])
  }

  /**
   * `makeCleanObject`. A non-object is rejected; `null` (whose typeof is
   * 'object') makes `Object.keys` throw, at the top or at any depth. A
   * record keeps its scalar members, recurses into its object members and
   * drops the rest. An array is rebuilt by index writes, so it ends at its
   * last kept element and every dropped element before that is a hole.
   */
  function Clean(d: Data): (r: Result<Data>)
    ensures !IsObjectType(d) ==> r == Err(InvalidObject)
    ensures IsObjectType(d) && r.Err? ==> r.error == TypeError
    ensures r.Ok? ==> (r.value.Rec? <==> d.Rec?) && (r.value.Arr? <==> d.Arr?)
  {
    match d
    case Null => Err(TypeError)
    case Rec(f) =>
      if exists k :: k in f && IsObjectType(f[k]) && Clean(f[k]).Err? then Err(TypeError)
      else Ok(Rec(map k | k in f && Kept(f[k]) :: if IsObjectType(f[k]) then Clean(f[k]).value else f[k]))
    case Arr(s) =>
      if exists i :: 0 <= i < |s| && IsObjectType(s[i]) && Clean(s[i]).Err? then Err(TypeError)
      else
        var n := KeptLength(s);
        Ok(Arr(seq(n, i requires 0 <= i < n =>
          if !Kept(s[i]) then Undefined else if IsObjectType(s[i]) then Clean(s[i]).value else s[i])))
    case _ => Err(InvalidObject)
  }

  /** A `null` that a snapshot would reach: at the top or inside an object member. */
  predicate HasNull(d: Data) {
    match d
    case Null => true
    case Rec(f) => exists k :: k in f && HasNull(f[k])
    case Arr(s) => exists i :: 0 <= i < |s| && HasNull(s[i])
    case _ => false
  }

  /** A snapshot of an object succeeds exactly when no `null` is reachable. */
  lemma {:induction false} CleanFailsExactlyOnNull(d: Data)
    requires IsObjectType(d)
    ensures Clean(d).Err? <==> HasNull(d)
  {
    match d
    case Null =>
    case Rec(f) =>
      forall k | k in f && IsObjectType(f[k]) {
        CleanFailsExactlyOnNull(f[k]);
      }
      assert forall k :: k in f && HasNull(f[k]) ==> IsObjectType(f[k]);
    case Arr(s) =>
      forall i | 0 <= i < |s| && IsObjectType(s[i]) {
        CleanFailsExactlyOnNull(s[i]);
      }
      assert forall i :: 0 <= i < |s| && HasNull(s[i]) ==> IsObjectType(s[i]);
  }

  /** The members of a cleaned record. */
  lemma CleanRecordMembers(f: map<string, Data>, k: string)
    requires Clean(Rec(f)).Ok?
    ensures var out := Clean(Rec(f)).value.fields;
      && (k in out <==> k in f && Kept(f[k]))
      && (k in f && IsDataScalar(f[k]) ==> out[k] == f[k])
      && (k in f && IsObjectType(f[k]) ==> out[k] == Clean(f[k]).value)
  {
  }

  /** A cleaned array keeps every kept element at its own index. */
  lemma CleanArrayIndices(s: seq<Data>, i: nat)
    requires Clean(Arr(s)).Ok? && i < |s|
    ensures var out := Clean(Arr(s)).value.elems;
      && |out| <= |s|
      && (Kept(s[i]) ==> i < |out|)
      && (i < |out| && IsDataScalar(s[i]) ==> out[i] == s[i])
      && (i < |out| && IsObjectType(s[i]) ==> out[i] == Clean(s[i]).value)
      && (i < |out| && !Kept(s[i]) ==> out[i] == Undefined)
  {
  }

  /**
   * Plain data, the shape a snapshot has: records hold only scalars and
   * plain objects, arrays hold scalars, plain objects and holes, and do
   * not end in a hole.
   */
  predicate IsPlain(d: Data)
    decreases d, 0
  {
    match d
    case Rec(f) => forall k :: k in f ==> IsPlainMember(f[k])
    case Arr(s) =>
      && (forall i :: 0 <= i < |s| ==> s[i].Undefined? || IsPlainMember(s[i]))
      && (s != [] ==> !s[|s| - 1].Undefined?)
    case _ => false
  }

  predicate IsPlainMember(d: Data)
    decreases d, 1
  {
    IsDataScalar(d) || ((d.Rec? || d.Arr?) && IsPlain(d))
  }

  lemma {:induction false} CleanIsPlain(d: Data)
    requires Clean(d).Ok?
    ensures IsPlain(Clean(d).value)
  {
    match d
    case Rec(f) =>
      forall k | k in f && IsObjectType(f[k]) {
        CleanIsPlain(f[k]);
      }
    case Arr(s) =>
      forall i | 0 <= i < |s| && IsObjectType(s[i]) {
        CleanIsPlain(s[i]);
      }
  }

  lemma {:induction false} PlainIsFixpoint(d: Data)
    requires IsPlain(d)
    ensures Clean(d) == Ok(d)
  {
    match d
    case Rec(f) =>
      forall k | k in f && IsObjectType(f[k]) {
        PlainIsFixpoint(f[k]);
      }
      assert Clean(d).value.fields == f;
    case Arr(s) =>
      forall i | 0 <= i < |s| && IsObjectType(s[i]) {
        PlainIsFixpoint(s[i]);
      }
      assert KeptLength(s) == |s|;
      assert Clean(d).value.elems == s;
  }

  /** Cleaning a snapshot again changes nothing. */
  lemma CleanIdempotent(d: Data)
    requires Clean(d).Ok?
    ensures Clean(Clean(d).value) == Clean(d)
  {
    CleanIsPlain(d);
    PlainIsFixpoint(Clean(d).value);
  }

  /** Clean data is exactly the data a snapshot leaves as it is. */
  lemma PlainIffFixpoint(d: Data)
    ensures Clean(d) == Ok(d) <==> IsPlain(d)
  {
    if Clean(d) == Ok(d) {
      CleanIsPlain(d);
    }
    if IsPlain(d) {
      PlainIsFixpoint(d);
    }
  }

  // ---------------------------------------------------------------------
  // Reading the heap as a tree

  /** A value that is not a reference, as data. */
  function ToData(v: Val): (d: Data)
    requires !v.VRef?
    ensures IsDataScalar(d) <==> v.VStr? || v.VNum? || v.VBig? || v.VBool?
    ensures IsObjectType(d) <==> v.VNull?
  {
    match v
    case VStr(s) => Str(s)
    case VNum(n) => Num(n)
    case VBig(b) => Big(b)
    case VBool(b) => Bool(b)
    case VUndef => Undefined
    case VNull => Null
    case VOpaque => Opaque
  }

  /**
   * The tree reachable from `v`, following at most `fuel` references
   * along any path; `None` when the bound is hit (on a reachable cycle it
   * always is).
   */
  function Unfold(store: seq<Body>, v: Val, fuel: nat): Option<Data>
    requires Closed(store) && ValIn(v, |store|)
    decreases fuel
  {
    if !v.VRef? then Some(ToData(v))
    else if fuel == 0 then None
    else
      match store[v.node]
      case ObjNode(f) =>
        if forall k :: k in f ==> Unfold(store, f[k], fuel - 1).Some? then
          Some(Rec(map k | k in f :: Unfold(store, f[k], fuel - 1).value))
        else None
      case ArrNode(s) =>
        if forall i :: 0 <= i < |s| ==> Unfold(store, s[i], fuel - 1).Some? then
          Some(Arr(seq(|s|, i requires 0 <= i < |s| => Unfold(store, s[i], fuel - 1).value)))
        else None
  }

  /** An object that holds itself can never be unfolded, whatever the bound. */
  lemma {:induction false} SelfReferenceOverflows(store: seq<Body>, n: NodeId, k: string, fuel: nat)
    requires Closed(store) && n < |store|
    requires store[n].ObjNode? && k in store[n].fields && store[n].fields[k] == VRef(n)
    ensures Unfold(store, VRef(n), fuel) == None
  {
    if fuel > 0 {
      SelfReferenceOverflows(store, n, k, fuel - 1);
    }
  }

  /** `makeCleanObject(v)` on the heap: unfold with the heap's size as bound, then clean. */
  function TakeSnapshot(store: seq<Body>, v: Val): (r: Result<Data>)
    requires Closed(store) && ValIn(v, |store|)
    ensures r.Ok? ==> IsPlain(r.value)
    ensures !v.VRef? ==> r == Clean(ToData(v))
  {
    match Unfold(store, v, |store|)
    case None => Err(StackOverflow)
    case Some(d) =>
      if Clean(d).Ok? then CleanIsPlain(d); Clean(d) else Clean(d)
  }

  // ---------------------------------------------------------------------
  // makeCleanPath

  /** The segment `key` becomes when it is used on `v`: a number when `v` is an array. */
  function SegFor(store: seq<Body>, v: Val, key: string): Seg
    requires ValIn(v, |store|)
  {
    if v.VRef? && store[v.node].ArrNode? && key != "length" then
      match ParseInt(key)
      case Some(i) => SIdx(i)
      case None => SNaN
    else SKey(key)
  }

  /**
   * `value[seg]` while walking a path: reading from undefined or null
   * throws; a primitive has no own data properties here, so it reads as
   * undefined.
   */
  function StepRead(store: seq<Body>, v: Val, seg: Seg): (r: Result<Val>)
    requires Closed(store) && ValIn(v, |store|)
    ensures r.Err? <==> v.VUndef? || v.VNull?
    ensures r.Ok? ==> ValIn(r.value, |store|)
  {
    match v
    case VUndef => Err(TypeError)
    case VNull => Err(TypeError)
    case VRef(n) =>
      ReadPropIn(store[n], KeyOf(seg), |store|);
      Ok(ReadProp(store[n], KeyOf(seg)))
    case _ => Ok(VUndef)
  }

  /**
   * `makeCleanPath(path, v)`. Each step reads the next value, the last
   * step included, so a path that runs into undefined or null throws.
   */
  function CleanPath(store: seq<Body>, path: seq<string>, v: Val): (r: Result<seq<Seg>>)
    requires Closed(store) && ValIn(v, |store|)
    ensures r.Ok? ==> |r.value| == |path|
    decreases |path|
  {
    if path == [] then Ok([])
    else
      var seg := SegFor(store, v, path[0]);
      var next :- StepRead(store, v, seg);
      var rest :- CleanPath(store, path[1..], next);
      Ok([seg] + rest)
  }

  /** The value the walk of `path` has reached after `i` steps. */
  function ValueAt(store: seq<Body>, path: seq<string>, v: Val, i: nat): (r: Result<Val>)
    requires Closed(store) && ValIn(v, |store|) && i <= |path|
    ensures r.Ok? ==> ValIn(r.value, |store|)
  {
    if i == 0 then Ok(v)
    else
      var prev :- ValueAt(store, path, v, i - 1);
      StepRead(store, prev, SegFor(store, prev, path[i - 1]))
  }

  /**
   * Each segment of a clean path: it is a number (or NaN) exactly when the
   * value reached at that point is an array and the key is not "length";
   * an array-index key becomes that very index; every other segment is the
   * key unchanged.
   */
  lemma {:induction false} CleanPathSegments(store: seq<Body>, path: seq<string>, v: Val, i: nat)
    requires Closed(store) && ValIn(v, |store|)
    requires CleanPath(store, path, v).Ok? && i < |path|
    ensures ValueAt(store, path, v, i).Ok?
    ensures var here := ValueAt(store, path, v, i).value;
      var seg := CleanPath(store, path, v).value[i];
      && (!seg.SKey? <==> here.VRef? && store[here.node].ArrNode? && path[i] != "length")
      && (seg.SKey? ==> seg.key == path[i])
      && (here.VRef? && store[here.node].ArrNode? && IndexOf(path[i]).Some? ==> seg == SIdx(IndexOf(path[i]).value))
    decreases i
  {
    if i == 0 {
      SegForIndex(store, v, path[0]);
    } else {
      var seg0 := SegFor(store, v, path[0]);
      var next := StepRead(store, v, seg0).value;
      var rest := CleanPath(store, path[1..], next);
      assert CleanPath(store, path, v).value == [seg0] + rest.value;
      assert path[1..][i - 1] == path[i];
      CleanPathSegments(store, path[1..], next, i - 1);
      ValueAtShift(store, path, v, i);
    }
  }

  /** The segment for one key: numeric exactly on an array and not "length"; an index key becomes that index. */
  lemma SegForIndex(store: seq<Body>, v: Val, key: string)
    requires Closed(store) && ValIn(v, |store|)
    ensures var seg := SegFor(store, v, key);
      && (!seg.SKey? <==> v.VRef? && store[v.node].ArrNode? && key != "length")
      && (seg.SKey? ==> seg.key == key)
      && (v.VRef? && store[v.node].ArrNode? && IndexOf(key).Some? ==> seg == SIdx(IndexOf(key).value))
  {
    if v.VRef? && store[v.node].ArrNode? && IndexOf(key).Some? {
      LengthIsNotIndex();
      ParseIntOfIndex(key, IndexOf(key).value);
    }
  }

  /** Walking `path` for i steps is one step and then walking its tail for i - 1. */
  lemma {:induction false} ValueAtShift(store: seq<Body>, path: seq<string>, v: Val, i: nat)
    requires Closed(store) && ValIn(v, |store|) && 0 < i <= |path|
    requires StepRead(store, v, SegFor(store, v, path[0])).Ok?
    ensures var next := StepRead(store, v, SegFor(store, v, path[0])).value;
      ValueAt(store, path, v, i) == ValueAt(store, path[1..], next, i - 1)
    decreases i
  {
    if i > 1 {
      ValueAtShift(store, path, v, i - 1);
    }
  }
}
