/**
 * The subscriber binding: a listener keeps, per shared-object id, a
 * mirror of the published value and applies Change messages to it by
 * path. The socket is a table of handlers per event token, run
 * synchronously in the order they were added.
 */
module Client {
  import opened Js
  import opened Protocol

  // ---------------------------------------------------------------------
  // Property reads and writes on a mirror (a plain value tree)

  /** `d[key]` on a mirror value: undefined and null throw, other primitives read as undefined. */
  function ReadData(d: Data, key: string): Result<Data> {
    match d
    case Rec(f) => Ok(if key in f then f[key] else Undefined)
    case Arr(s) => Ok(ArrayRead(s, key, Undefined, Num(|s|)))
    case Undefined => Err(TypeError)
    case Null => Err(TypeError)
    case _ => Ok(Undefined)
  }

  /** A value read as an array length, when it is a valid one. */
  function DataLength(v: Data): Option<nat> {
    if v.Num? && v.n >= 0 then Some(v.n) else None
  }

  /**
   * `d[key] = v` in a module (strict mode): records take any key, arrays
   * an index or a valid length, and assigning onto a primitive, undefined
   * or null throws.
   */
  function WriteData(d: Data, key: string, v: Data): (r: Result<Data>)
    ensures r.Ok? ==> (d.Rec? <==> r.value.Rec?) && (d.Arr? <==> r.value.Arr?)
    ensures !d.Rec? && !d.Arr? ==> r.Err?
  {
    match d
    case Rec(f) => Ok(Rec(f[key := v]))
    case Arr(s) =>
      (match ArrayWrite(s, key, v, DataLength(v), Undefined)
       case Ok(s') => Ok(Arr(s'))
       case Err(e) => Err(e))
    case Opaque => Err(Unsupported)
    case _ => Err(TypeError)
  }

  lemma WriteDataThenRead(d: Data, key: string, v: Data)
    requires WriteData(d, key, v).Ok?
    ensures ReadData(WriteData(d, key, v).value, key) == Ok(v)
  {
    if d.Arr? && IndexOf(key).None? {
      assert key == "length";
      LengthIsNotIndex();
    }
  }

  /**
   * `applyValueUsingPath(target, path, value)`: descend through all but
   * the last segment, then assign. The descent mutates the child object in
   * place, which on a value tree is a write of the updated child back into
   * its parent; a child that is not an object makes the innermost
   * assignment throw, so that write-back only ever stores an object.
   */
  function ApplyAt(target: Data, path: seq<Seg>, value: Data): (r: Result<Data>)
    decreases |path|
    ensures path == [] ==> r == Err(InvalidPath)
    ensures r.Ok? ==> (target.Rec? <==> r.value.Rec?) && (target.Arr? <==> r.value.Arr?)
    ensures r.Ok? ==> target.Rec? || target.Arr?
  {
    if |path| > 1 then
      var key := KeyOf(path[0]);
      var child :- ReadData(target, key);
      var updated :- ApplyAt(child, path[1..], value);
      WriteData(target, key, updated)
    else if |path| == 1 then
      WriteData(target, KeyOf(path[0]), value)
    else
      Err(InvalidPath)
  }

  /** The value at `path` in `d`, reading step by step. */
  function ReadAt(d: Data, path: seq<Seg>): Result<Data>
    decreases |path|
  {
    if path == [] then Ok(d)
    else
      var child :- ReadData(d, KeyOf(path[0]));
      ReadAt(child, path[1..])
  }

  /** After a successful apply, the value sits at the path. */
  lemma {:induction false} ApplyThenRead(target: Data, path: seq<Seg>, value: Data)
    requires ApplyAt(target, path, value).Ok?
    ensures ReadAt(ApplyAt(target, path, value).value, path) == Ok(value)
    decreases |path|
  {
    var key := KeyOf(path[0]);
    var r := ApplyAt(target, path, value).value;
    if |path| > 1 {
      var child := ReadData(target, key).value;
      var updated := ApplyAt(child, path[1..], value).value;
      ApplyThenRead(child, path[1..], value);
      WriteDataThenRead(target, key, updated);
      assert r == WriteData(target, key, updated).value;
    } else {
      WriteDataThenRead(target, key, value);
      assert ReadAt(r, path) == ReadAt(value, path[1..]);
    }
  }

  /** `q` follows `path` for `i` steps and then names a different property. */
  predicate DivergesAt(path: seq<Seg>, q: seq<Seg>, i: nat) {
    && i < |path| && i < |q|
    && (forall j :: 0 <= j < i ==> KeyOf(q[j]) == KeyOf(path[j]))
    && KeyOf(q[i]) != KeyOf(path[i])
  }

  /**
   * A write leaves every other property of a record as it was, and every
   * other index of an array; only an array's length can move with an index
   * write, and its elements with a length write.
   */
  lemma WriteDataFrame(d: Data, key: string, v: Data, other: string)
    requires WriteData(d, key, v).Ok? && other != key
    requires d.Arr? ==> other != "length" && key != "length"
    ensures ReadData(WriteData(d, key, v).value, other) == ReadData(d, other)
  {
    if d.Arr? {
      LengthIsNotIndex();
      if IndexOf(other).Some? && IndexOf(key).Some? {
        IndexOfNatToString(other, IndexOf(other).value);
        IndexOfNatToString(key, IndexOf(key).value);
      }
    }
  }

  /** What an array write does to the length: an index write grows it to cover the index, a length write sets it. */
  lemma WriteArrayLength(s: seq<Data>, key: string, v: Data)
    requires WriteData(Arr(s), key, v).Ok?
    ensures var out := WriteData(Arr(s), key, v).value.elems;
      && (IndexOf(key).Some? ==> |out| == if IndexOf(key).value < |s| then |s| else IndexOf(key).value + 1)
      && (IndexOf(key).None? ==>
            && key == "length" && DataLength(v).Some? && |out| == DataLength(v).value
            && forall j :: 0 <= j < |out| ==> out[j] == if j < |s| then s[j] else Undefined)
  {
  }

  /**
   * No property other than the addressed one changes, at any depth: a path
   * `q` that leaves `path` at step `i` reads the same before and after the
   * apply, unless it leaves it at an array through "length" (the one
   * property an index write or a length write moves).
   */
  lemma {:induction false} ApplyFrame(target: Data, path: seq<Seg>, value: Data, q: seq<Seg>, i: nat)
    requires ApplyAt(target, path, value).Ok? && DivergesAt(path, q, i)
    requires ReadAt(target, q[..i]).Ok? && ReadAt(target, q[..i]).value.Arr? ==>
      KeyOf(q[i]) != "length" && KeyOf(path[i]) != "length"
    ensures ReadAt(ApplyAt(target, path, value).value, q) == ReadAt(target, q)
    decreases i
  {
    var key := KeyOf(path[0]);
    assert q[..0] == [];
    if i == 0 {
      ApplyFrameHere(target, path, value, KeyOf(q[0]));
      ReadAtSameFirst(ApplyAt(target, path, value).value, target, q);
    } else {
      var child := ReadData(target, key).value;
      var updated := ApplyAt(child, path[1..], value).value;
      WriteDataThenRead(target, key, updated);
      assert ApplyAt(target, path, value).value == WriteData(target, key, updated).value;
      DivergesTail(path, q, i);
      ApplyFrame(child, path[1..], value, q[1..], i - 1);
    }
  }

  /** The first step of `path` leaves every other property of the target as it was. */
  lemma ApplyFrameHere(target: Data, path: seq<Seg>, value: Data, other: string)
    requires ApplyAt(target, path, value).Ok? && other != KeyOf(path[0])
    requires target.Arr? ==> other != "length" && KeyOf(path[0]) != "length"
    ensures ReadData(ApplyAt(target, path, value).value, other) == ReadData(target, other)
  {
    var key := KeyOf(path[0]);
    if |path| > 1 {
      var updated := ApplyAt(ReadData(target, key).value, path[1..], value).value;
      WriteDataFrame(target, key, updated, other);
    } else {
      WriteDataFrame(target, key, value, other);
    }
  }

  /** Two values that agree on a path's first property agree on the whole path. */
  lemma ReadAtSameFirst(a: Data, b: Data, q: seq<Seg>)
    requires q != [] && ReadData(a, KeyOf(q[0])) == ReadData(b, KeyOf(q[0]))
    ensures ReadAt(a, q) == ReadAt(b, q)
  {
  }

  /** A path that leaves `path` at step `i` > 0 leaves `path[1..]` at step `i - 1`. */
  lemma DivergesTail(path: seq<Seg>, q: seq<Seg>, i: nat)
    requires DivergesAt(path, q, i) && i > 0
    ensures DivergesAt(path[1..], q[1..], i - 1)
    ensures q[..i][1..] == q[1..][..i - 1]
  {
    forall j | 0 <= j < i - 1 ensures KeyOf(q[1..][j]) == KeyOf(path[1..][j]) {
      assert KeyOf(q[j + 1]) == KeyOf(path[j + 1]);
    }
  }

  // ---------------------------------------------------------------------
  // One listener's handlers

  /** `SharedObject`: a mirror and the name it was registered under. */
  datatype Mirror = Mirror(data: Data, name: string) {
    function GetObject(): Data { data }
    function GetName(): string { name }
  }

  /** What `listenToSharedObject` keeps: its name filter and the mirrors by id. */
  datatype Listening = Listening(name: string, objects: map<int, Mirror>)

  /** What a listener reports to the application. */
  datatype Event =
    | Found(mirror: Mirror)                       // `onObject(shared)`
    | Changed(path: seq<Seg>, value: Data)        // `shared.emit('change', {path, value})`
    | Unshared                                    // `shared.emit('unshare')`

  datatype Notice = Notice(listener: nat, id: int, event: Event)

  datatype Step = Step(state: Listening, event: Option<Event>)

  /**
   * `onRegister`: a known id throws whatever the name; another name is
   * ignored; otherwise the object is stored as received and announced.
   */
  function OnRegister(st: Listening, id: int, name: string, received: Data): (r: Result<Step>)
    ensures r.Err? <==> id in st.objects
    ensures r.Ok? ==> r.value.state.name == st.name
    ensures r.Ok? ==> (r.value.event.Some? <==> name == st.name)
    ensures r.Ok? ==> r.value.state.objects.Keys == st.objects.Keys + (if name == st.name then {id} else {})
    ensures r.Ok? ==> forall k :: k in st.objects ==> r.value.state.objects[k] == st.objects[k]
  {
    if id in st.objects then Err(DuplicateShared)
    else if name != st.name then Ok(Step(st, None))
    else
      var shared := Mirror(received, name);
      Ok(Step(st.(objects := st.objects[id := shared]), Some(Found(shared))))
  }

  /** `onUnregister`: an unknown id is ignored; a known one is forgotten and told. */
  function OnUnregister(st: Listening, id: int): (r: Step)
    ensures r.state.name == st.name && r.state.objects.Keys == st.objects.Keys - {id}
    ensures forall k :: k in r.state.objects ==> r.state.objects[k] == st.objects[k]
    ensures r.event.Some? <==> id in st.objects
  {
    if id !in st.objects then Step(st, None)
    else Step(st.(objects := st.objects - {id}), Some(Unshared))
  }

  /**
   * `onChange`: an unknown id is ignored; a known one has the value
   * applied at the path in its mirror (a failing apply throws) and then
   * reports the change.
   */
  function OnChange(st: Listening, id: int, path: seq<Seg>, value: Data): (r: Result<Step>)
    ensures id !in st.objects ==> r == Ok(Step(st, None))
    ensures id in st.objects ==> (r.Ok? <==> ApplyAt(st.objects[id].data, path, value).Ok?)
    ensures r.Ok? && id in st.objects ==>
      && r.value.event == Some(Changed(path, value))
      && r.value.state.objects.Keys == st.objects.Keys
      && r.value.state.objects[id] == st.objects[id].(data := ApplyAt(st.objects[id].data, path, value).value)
      && ReadAt(r.value.state.objects[id].data, path) == Ok(value)
      && forall k :: k in st.objects && k != id ==> r.value.state.objects[k] == st.objects[k]
  {
    if id !in st.objects then Ok(Step(st, None))
    else
      var shared := st.objects[id];
      var updated :- ApplyAt(shared.data, path, value);
      ApplyThenRead(shared.data, path, value);
      Ok(Step(st.(objects := st.objects[id := shared.(data := updated)]), Some(Changed(path, value))))
  }

  /** A listener's reaction to a message, by the message's kind. */
  function React(st: Listening, m: Message): Result<Step> {
    match m
    case Register(id, name, received) => OnRegister(st, id, name, received)
    case Unregister(id) => Ok(OnUnregister(st, id))
    case Change(id, path, value) => OnChange(st, id, path, value)
  }

  /** A registered mirror hands back exactly what the Register carried. */
  lemma RegisterThenGetters(st: Listening, id: int, received: Data)
    requires id !in st.objects
    ensures var r := OnRegister(st, id, st.name, received);
      && r.Ok? && id in r.value.state.objects
      && r.value.state.objects[id].GetObject() == received
      && r.value.state.objects[id].GetName() == st.name
      && r.value.event == Some(Found(r.value.state.objects[id]))
  {
  }

  /** After an Unregister, Changes for that id are ignored. */
  lemma UnregisterThenChangeIgnored(st: Listening, id: int, path: seq<Seg>, value: Data)
    ensures var after := OnUnregister(st, id).state;
      OnChange(after, id, path, value) == Ok(Step(after, None))
  {
  }

  // ---------------------------------------------------------------------
  // Delivery over the socket's handler table

  datatype Kind = OnChangeKind | OnRegisterKind | OnUnregisterKind

  /** One installed handler closure: which listener it belongs to and which of its three it is. */
  datatype Handler = Handler(listener: nat, kind: Kind)

  function TokenOf(k: Kind): string {
    match k
    case OnChangeKind => ChangeEvent
    case OnRegisterKind => RegisterEvent
    case OnUnregisterKind => UnregisterEvent
  }

  datatype Delivered = Delivered(listeners: seq<Listening>, notices: seq<Notice>, fault: Option<Fault>)

  predicate HandlersIn(hs: seq<Handler>, n: nat) {
    forall h :: h in hs ==> h.listener < n
  }

  /**
   * `socket.emit(token, m)`: the handlers present when the emit starts run
   * in order, each updating its listener; the first throw stops the rest
   * and propagates.
   */
  function Fanout(listeners: seq<Listening>, hs: seq<Handler>, m: Message): (r: Delivered)
    requires HandlersIn(hs, |listeners|)
    decreases |hs|
    ensures |r.listeners| == |listeners|
    ensures forall k :: 0 <= k < |r.notices| ==> r.notices[k].id == m.id
  {
    if hs == [] then Delivered(listeners, [], None)
    else
      var l := hs[0].listener;
      match React(listeners[l], m)
      case Err(e) => Delivered(listeners, [], Some(e))
      case Ok(step) =>
        assert forall h :: h in hs[1..] ==> h in hs;
        var rest := Fanout(listeners[l := step.state], hs[1..], m);
        var heard := if step.event.Some? then [Notice(l, m.id, step.event.value)] else [];
        Delivered(rest.listeners, heard + rest.notices, rest.fault)
  }

  /** One step of `emit`: the first handler runs, then the rest on the updated listeners. */
  lemma FanoutStep(listeners: seq<Listening>, hs: seq<Handler>, m: Message, step: Result<Step>)
    requires HandlersIn(hs, |listeners|) && hs != []
    requires hs[0].listener < |listeners| && step == React(listeners[hs[0].listener], m)
    ensures HandlersIn(hs[1..], |listeners|)
    ensures step.Err? ==> Fanout(listeners, hs, m) == Delivered(listeners, [], Some(step.error))
    ensures step.Ok? ==>
      var l := hs[0].listener;
      var rest := Fanout(listeners[l := step.value.state], hs[1..], m);
      var heard := if step.value.event.Some? then [Notice(l, m.id, step.value.event.value)] else [];
      Fanout(listeners, hs, m) == Delivered(rest.listeners, heard + rest.notices, rest.fault)
  {
    assert forall h :: h in hs[1..] ==> h in hs;
  }

  /** After `i` handlers of `hs` ran without a throw, leaving `ls` and having told `told`. */
  ghost predicate Emitted(listeners: seq<Listening>, hs: seq<Handler>, m: Message, i: nat, ls: seq<Listening>, told: seq<Notice>) {
    && i <= |hs| && |ls| == |listeners| && HandlersIn(hs, |listeners|)
    && HandlersIn(hs[i..], |ls|)
    && var rest := Fanout(ls, hs[i..], m);
       Fanout(listeners, hs, m) == Delivered(rest.listeners, told + rest.notices, rest.fault)
  }

  lemma EmittedStart(listeners: seq<Listening>, hs: seq<Handler>, m: Message)
    requires HandlersIn(hs, |listeners|)
    ensures Emitted(listeners, hs, m, 0, listeners, [])
  {
    assert hs[0..] == hs;
  }

  /** The next handler either throws, which ends the emit, or runs and the emit goes on. */
  lemma EmittedStep(listeners: seq<Listening>, hs: seq<Handler>, m: Message, i: nat, ls: seq<Listening>, told: seq<Notice>)
    requires Emitted(listeners, hs, m, i, ls, told) && i < |hs|
    ensures hs[i].listener < |ls|
    ensures var l := hs[i].listener;
      var step := React(ls[l], m);
      && (step.Err? ==> Fanout(listeners, hs, m) == Delivered(ls, told, Some(step.error)))
      && (step.Ok? ==>
            var heard := if step.value.event.Some? then [Notice(l, m.id, step.value.event.value)] else [];
            Emitted(listeners, hs, m, i + 1, ls[l := step.value.state], told + heard))
  {
    assert hs[i] in hs[i..];
    var l := hs[i].listener;
    var step := React(ls[l], m);
    FanoutStep(ls, hs[i..], m, step);
    if step.Ok? {
      EmittedRuns(listeners, hs, m, i, ls, told, step.value);
    } else {
      assert told + [] == told;
    }
  }

  /** A handler that runs without a throw moves the emit on by one. */
  lemma EmittedRuns(listeners: seq<Listening>, hs: seq<Handler>, m: Message, i: nat, ls: seq<Listening>, told: seq<Notice>, step: Step)
    requires Emitted(listeners, hs, m, i, ls, told) && i < |hs| && hs[i].listener < |ls|
    requires HandlersIn(hs[i..][1..], |ls|)
    requires var l := hs[i].listener;
      var rest := Fanout(ls[l := step.state], hs[i..][1..], m);
      var heard := if step.event.Some? then [Notice(l, m.id, step.event.value)] else [];
      Fanout(ls, hs[i..], m) == Delivered(rest.listeners, heard + rest.notices, rest.fault)
    ensures var heard := if step.event.Some? then [Notice(hs[i].listener, m.id, step.event.value)] else [];
      Emitted(listeners, hs, m, i + 1, ls[hs[i].listener := step.state], told + heard)
  {
    assert hs[i..][1..] == hs[i + 1..];
    var l := hs[i].listener;
    var ls' := ls[l := step.state];
    var heard := if step.event.Some? then [Notice(l, m.id, step.event.value)] else [];
    var rest := Fanout(ls', hs[i + 1..], m);
    var before := Fanout(ls, hs[i..], m);
    assert before == Delivered(rest.listeners, heard + rest.notices, rest.fault);
    assert Fanout(listeners, hs, m) == Delivered(rest.listeners, told + before.notices, rest.fault);
    NoticesAssoc(told, heard, rest.notices);
    assert |ls'| == |listeners| && HandlersIn(hs[i + 1..], |ls'|);
  }

  lemma NoticesAssoc(a: seq<Notice>, b: seq<Notice>, c: seq<Notice>)
    ensures a + (b + c) == (a + b) + c
  {
    assert forall k :: 0 <= k < |a + (b + c)| ==> (a + (b + c))[k] == ((a + b) + c)[k];
  }

  lemma EmittedEnd(listeners: seq<Listening>, hs: seq<Handler>, m: Message, ls: seq<Listening>, told: seq<Notice>)
    requires Emitted(listeners, hs, m, |hs|, ls, told)
    ensures Fanout(listeners, hs, m) == Delivered(ls, told, None)
  {
    assert hs[|hs|..] == [];
    assert told + [] == told;
  }

  /** The loop inside `emit`, over the handler list `hs` captured when it starts. */
  method Emit(listeners: seq<Listening>, hs: seq<Handler>, m: Message) returns (d: Delivered)
    requires HandlersIn(hs, |listeners|)
    ensures d == Fanout(listeners, hs, m)
  {
    var ls, told := listeners, [];
    var i := 0;
    EmittedStart(listeners, hs, m);
    while i < |hs|
      invariant i <= |hs| && |ls| == |listeners|
      invariant Emitted(listeners, hs, m, i, ls, told)
    {
      EmittedStep(listeners, hs, m, i, ls, told);
      var l := hs[i].listener;
      var step := React(ls[l], m);
      if step.Err? {
        return Delivered(ls, told, Some(step.error));
      }
      var heard := if step.value.event.Some? then [Notice(l, m.id, step.value.event.value)] else [];
      ls := ls[l := step.value.state];
      told := told + heard;
      i := i + 1;
    }
    EmittedEnd(listeners, hs, m, ls, told);
    d := Delivered(ls, told, None);
  }

  /** A listener with no handler in the list is neither changed nor told anything. */
  lemma {:induction false} FanoutSkips(listeners: seq<Listening>, hs: seq<Handler>, m: Message, l: nat)
    requires HandlersIn(hs, |listeners|) && l < |listeners|
    requires forall h :: h in hs ==> h.listener != l
    ensures Fanout(listeners, hs, m).listeners[l] == listeners[l]
    ensures forall k :: 0 <= k < |Fanout(listeners, hs, m).notices| ==> Fanout(listeners, hs, m).notices[k].listener != l
    decreases |hs|
  {
    if hs != [] {
      var h := hs[0].listener;
      assert hs[0] in hs;
      match React(listeners[h], m)
      case Err(e) =>
      case Ok(step) =>
        assert forall x :: x in hs[1..] ==> x in hs;
        FanoutSkips(listeners[h := step.state], hs[1..], m, l);
    }
  }

  /** One token's handler list: each handler is one for that token, of an existing listener, present once. */
  predicate ListOk(t: string, hs: seq<Handler>, n: nat) {
    forall h :: h in hs ==> h.listener < n && TokenOf(h.kind) == t && multiset(hs)[h] == 1
  }

  /** The socket's handler table, well formed. */
  predicate TableOk(handlers: map<string, seq<Handler>>, n: nat) {
    forall t :: t in handlers ==> ListOk(t, handlers[t], n)
  }

  function HandlersFor(handlers: map<string, seq<Handler>>, t: string): seq<Handler> {
    if t in handlers then handlers[t] else []
  }

  /** `socket.on(t, h)`. */
  function AddHandler(handlers: map<string, seq<Handler>>, h: Handler): map<string, seq<Handler>> {
    var t := TokenOf(h.kind);
    handlers[t := HandlersFor(handlers, t) + [h]]
  }

  /** `socket.removeListener(t, h)`. */
  function DropHandler(handlers: map<string, seq<Handler>>, h: Handler): map<string, seq<Handler>> {
    var t := TokenOf(h.kind);
    handlers[t := RemoveLast(HandlersFor(handlers, t), h)]
  }

  /** The three handlers of a listener, in the order its constructor installs them. */
  function Install(handlers: map<string, seq<Handler>>, l: nat): map<string, seq<Handler>> {
    AddHandler(AddHandler(AddHandler(handlers, Handler(l, OnChangeKind)), Handler(l, OnRegisterKind)), Handler(l, OnUnregisterKind))
  }

  /** `stopListening`: the same three, removed. */
  function Uninstall(handlers: map<string, seq<Handler>>, l: nat): map<string, seq<Handler>> {
    DropHandler(DropHandler(DropHandler(handlers, Handler(l, OnChangeKind)), Handler(l, OnRegisterKind)), Handler(l, OnUnregisterKind))
  }

  lemma KindsHaveDistinctTokens()
    ensures forall k1: Kind, k2: Kind :: TokenOf(k1) == TokenOf(k2) ==> k1 == k2
  {
    TokensDistinct();
  }

  /** Listener `l` has no handler left in the table. */
  predicate Absent(handlers: map<string, seq<Handler>>, l: nat) {
    forall t :: t in handlers ==> forall h :: h in handlers[t] ==> h.listener != l
  }

  lemma TableListOk(handlers: map<string, seq<Handler>>, t: string, n: nat)
    requires TableOk(handlers, n)
    ensures ListOk(t, HandlersFor(handlers, t), n)
  {
    if t in handlers {
      assert ListOk(t, handlers[t], n);
    }
  }

  /** Adding a handler that is nowhere in the table keeps it well formed. */
  lemma AddFreshOk(handlers: map<string, seq<Handler>>, h: Handler, n: nat)
    requires TableOk(handlers, n) && h.listener < n
    requires forall t :: t in handlers ==> h !in handlers[t]
    ensures TableOk(AddHandler(handlers, h), n)
    ensures h in AddHandler(handlers, h)[TokenOf(h.kind)]
  {
    var t := TokenOf(h.kind);
    var before := HandlersFor(handlers, t);
    var after := before + [h];
    TableListOk(handlers, t, n);
    assert h !in before;
    assert multiset(after) == multiset(before) + multiset{h};
    forall x | x in after ensures x.listener < n && TokenOf(x.kind) == t && multiset(after)[x] == 1 {
      if x != h {
        assert x in before;
      }
    }
    assert ListOk(t, after, n);
  }

  /** Removing a handler from a well-formed list: it is gone, the list stays well formed, nothing else goes. */
  lemma ListDropOk(t: string, hs: seq<Handler>, h: Handler, n: nat)
    requires ListOk(t, hs, n)
    ensures ListOk(t, RemoveLast(hs, h), n) && h !in RemoveLast(hs, h)
    ensures forall x :: x in RemoveLast(hs, h) ==> x in hs
    ensures forall x :: x in hs && x != h ==> x in RemoveLast(hs, h)
  {
    var r := RemoveLast(hs, h);
    forall x ensures x in r <==> x in hs && (x != h || multiset(hs)[h] > 1) {
      RemoveLastMembers(hs, h, x);
    }
    forall x | x in r ensures multiset(r)[x] == 1 {
      assert x in hs && x != h;
    }
  }

  /** `listenToSharedObject` on a socket whose table is well formed, for a new listener `n`. */
  lemma InstallOk(handlers: map<string, seq<Handler>>, n: nat)
    requires TableOk(handlers, n)
    ensures TableOk(Install(handlers, n), n + 1)
    ensures forall k :: TokenOf(k) in Install(handlers, n) && Handler(n, k) in Install(handlers, n)[TokenOf(k)]
  {
    KindsHaveDistinctTokens();
    var h1 := AddHandler(handlers, Handler(n, OnChangeKind));
    var h2 := AddHandler(h1, Handler(n, OnRegisterKind));
    forall t | t in handlers ensures ListOk(t, handlers[t], n + 1) {
      assert ListOk(t, handlers[t], n);
    }
    AddFreshOk(handlers, Handler(n, OnChangeKind), n + 1);
    AddFreshOk(h1, Handler(n, OnRegisterKind), n + 1);
    AddFreshOk(h2, Handler(n, OnUnregisterKind), n + 1);
  }

  /** `removeListener` keeps the table well formed. */
  lemma DropOk(handlers: map<string, seq<Handler>>, h: Handler, n: nat, d: map<string, seq<Handler>>)
    requires TableOk(handlers, n) && d == DropHandler(handlers, h)
    ensures TableOk(d, n)
  {
    var t := TokenOf(h.kind);
    TableListOk(handlers, t, n);
    ListDropOk(t, HandlersFor(handlers, t), h, n);
    forall u | u in d && u != t ensures ListOk(u, d[u], n) {
      assert ListOk(u, handlers[u], n);
    }
  }

  /** After `removeListener` on a well-formed table the handler is in no list, and no handler was added. */
  lemma DropGone(handlers: map<string, seq<Handler>>, h: Handler, n: nat, d: map<string, seq<Handler>>)
    requires TableOk(handlers, n) && d == DropHandler(handlers, h)
    ensures forall t :: t in d ==> h !in d[t]
    ensures forall t, x :: t in d && x in d[t] ==> t in handlers && x in handlers[t]
  {
    var t := TokenOf(h.kind);
    TableListOk(handlers, t, n);
    ListDropOk(t, HandlersFor(handlers, t), h, n);
    forall u | u in d && u != t ensures h !in d[u] {
      assert ListOk(u, handlers[u], n);
    }
  }

  /** `removeListener` keeps every other handler. */
  lemma DropKeeps(handlers: map<string, seq<Handler>>, h: Handler, d: map<string, seq<Handler>>)
    requires d == DropHandler(handlers, h)
    ensures forall t, x :: t in handlers && x in handlers[t] && x != h ==> t in d && x in d[t]
  {
    var t := TokenOf(h.kind);
    var before := HandlersFor(handlers, t);
    forall x | x in before && x != h ensures x in d[t] {
      RemoveLastMembers(before, h, x);
    }
  }

  /** `stopListening` keeps the table well formed. */
  lemma UninstallOk(handlers: map<string, seq<Handler>>, n: nat, l: nat)
    requires TableOk(handlers, n)
    ensures TableOk(Uninstall(handlers, l), n)
  {
    var h1 := DropHandler(handlers, Handler(l, OnChangeKind));
    var h2 := DropHandler(h1, Handler(l, OnRegisterKind));
    DropOk(handlers, Handler(l, OnChangeKind), n, h1);
    DropOk(h1, Handler(l, OnRegisterKind), n, h2);
    DropOk(h2, Handler(l, OnUnregisterKind), n, Uninstall(handlers, l));
  }

  /** After `stopListening`, none of the listener's handlers is left on the socket. */
  lemma UninstallLeavesNone(handlers: map<string, seq<Handler>>, n: nat, l: nat)
    requires TableOk(handlers, n)
    ensures Absent(Uninstall(handlers, l), l)
  {
    var h1 := DropHandler(handlers, Handler(l, OnChangeKind));
    var h2 := DropHandler(h1, Handler(l, OnRegisterKind));
    var h3 := Uninstall(handlers, l);
    DropOk(handlers, Handler(l, OnChangeKind), n, h1);
    DropOk(h1, Handler(l, OnRegisterKind), n, h2);
    DropGone(handlers, Handler(l, OnChangeKind), n, h1);
    DropGone(h1, Handler(l, OnRegisterKind), n, h2);
    DropGone(h2, Handler(l, OnUnregisterKind), n, h3);
    forall t: string, x: Handler | t in h3 && x in h3[t] ensures x.listener != l {
      assert x in h2[t] && x in h1[t];
      OneOfThree(x, l);
    }
  }

  /** Both facts about `stopListening`, for the table it leaves behind. */
  lemma UninstallDone(handlers: map<string, seq<Handler>>, n: nat, l: nat, after: map<string, seq<Handler>>)
    requires TableOk(handlers, n) && after == Uninstall(handlers, l)
    ensures TableOk(after, n) && Absent(after, l)
  {
    UninstallOk(handlers, n, l);
    UninstallLeavesNone(handlers, n, l);
  }

  /** A listener owns exactly three handlers. */
  lemma OneOfThree(x: Handler, l: nat)
    ensures x.listener == l ==> x == Handler(l, OnChangeKind) || x == Handler(l, OnRegisterKind) || x == Handler(l, OnUnregisterKind)
  {
    match x.kind {
      case OnChangeKind =>
      case OnRegisterKind =>
      case OnUnregisterKind =>
    }
  }

  /** `stopListening` leaves every other listener's handlers in place. */
  lemma UninstallKeepsOthers(handlers: map<string, seq<Handler>>, l: nat)
    ensures forall t, x :: t in handlers && x in handlers[t] && x.listener != l ==>
      t in Uninstall(handlers, l) && x in Uninstall(handlers, l)[t]
  {
    var h1 := DropHandler(handlers, Handler(l, OnChangeKind));
    var h2 := DropHandler(h1, Handler(l, OnRegisterKind));
    DropKeeps(handlers, Handler(l, OnChangeKind), h1);
    DropKeeps(h1, Handler(l, OnRegisterKind), h2);
    DropKeeps(h2, Handler(l, OnUnregisterKind), Uninstall(handlers, l));
  }

  // ---------------------------------------------------------------------
  // The subscriber's socket

  class Subscriber {
    /** The socket's handlers per event token, in the order they were added. */
    var handlers: map<string, seq<Handler>>
    /** The state of every listener ever created on this socket, by index. */
    var listeners: seq<Listening>
    /** What the listeners have reported to the application, in order. */
    var notices: seq<Notice>

    ghost predicate Valid()
      reads this
    {
      TableOk(handlers, |listeners|)
    }

    constructor ()
      ensures Valid() && handlers == map[] && listeners == [] && notices == []
    {
      handlers := map[];
      listeners := [];
      notices := [];
    }

    /** `listenToSharedObject(socket, name, onObject)`: an empty mirror map and three new handlers. */
    method ListenToSharedObject(name: string) returns (l: nat)
      requires Valid()
      modifies this
      ensures Valid()
      ensures l == |old(listeners)| && listeners == old(listeners) + [Listening(name, map[])]
      ensures handlers == Install(old(handlers), l) && notices == old(notices)
    {
      l := |listeners|;
      InstallOk(handlers, l);
      handlers := AddHandler(handlers, Handler(l, OnChangeKind));
      handlers := AddHandler(handlers, Handler(l, OnRegisterKind));
      handlers := AddHandler(handlers, Handler(l, OnUnregisterKind));
      listeners := listeners + [Listening(name, map[])];
    }

    /** `stopListening()`: the listener's three handlers come off the socket. */
    method StopListening(l: nat)
      requires Valid() && l < |listeners|
      modifies this
      ensures Valid()
      ensures handlers == Uninstall(old(handlers), l)
      ensures listeners == old(listeners) && notices == old(notices)
      ensures Absent(handlers, l)
    {
      handlers := Uninstall(handlers, l);
      UninstallDone(old(handlers), |listeners|, l, handlers);
    }

    /** The socket receives `m`: `emit(EventOf(m), m)` over its current handlers. */
    method Deliver(m: Message) returns (r: Outcome)
      requires Valid()
      modifies this
      ensures Valid() && handlers == old(handlers)
      ensures HandlersIn(HandlersFor(handlers, EventOf(m)), |old(listeners)|)
      ensures var d := Fanout(old(listeners), HandlersFor(handlers, EventOf(m)), m);
        && listeners == d.listeners
        && notices == old(notices) + d.notices
        && r == (if d.fault.None? then Pass else Fail(d.fault.value))
    {
      var hs := HandlersFor(handlers, EventOf(m));
      TableListOk(handlers, EventOf(m), |listeners|);
      var d := Emit(listeners, hs, m);
      listeners := d.listeners;
      notices := notices + d.notices;
      r := if d.fault.None? then Pass else Fail(d.fault.value);
    }
  }

  /** After `stopListening`, a delivery leaves that listener as it was and reports nothing for it. */
  lemma StoppedListenerHearsNothing(handlers: map<string, seq<Handler>>, listeners: seq<Listening>, m: Message, l: nat)
    requires TableOk(handlers, |listeners|) && Absent(handlers, l) && l < |listeners|
    ensures HandlersIn(HandlersFor(handlers, EventOf(m)), |listeners|)
    ensures var d := Fanout(listeners, HandlersFor(handlers, EventOf(m)), m);
      d.listeners[l] == listeners[l] && forall k :: 0 <= k < |d.notices| ==> d.notices[k].listener != l
  {
    FanoutSkips(listeners, HandlersFor(handlers, EventOf(m)), m, l);
  }
}
