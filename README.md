# share-object, modelled in Dafny

share-object shares a JavaScript object from a publisher to subscribers
over a socket.

The publisher (`shareObject`) wraps the object in a mutation-tracking
`Proxy`. Every write through the wrapper emits a change event carrying
the path from the root and the new value. For each share, a change
callback turns the event into a `Change` message and sends it:
- the value is a deep snapshot that keeps only data;
- the path has array steps turned into numbers.

A subscriber (`listenToSharedObject`) keeps a mirror of every object
registered under its name. It applies each `Change` to the mirror by
path, and forgets the object on `Unregister`.

The model has seven modules:

- `Js`: the pieces of JavaScript semantics the library relies on:
  - canonical array-index keys and decimal `parseInt`;
  - array reads and writes through string keys, with holes and `length`;
  - `EventEmitter.removeListener`, which removes the most recent occurrence.
- `Protocol`: the three event tokens, the plain data a message carries,
  path segments, and the three message shapes.
- `ProxyEngine` (`lib/makeproxy.ts`): the heap is a store of record and
  array nodes. The class `Engine` holds:
  - the wrappers, each a node, a path and an emitter;
  - the process-wide wrapper cache;
  - each node's observer slot;
  - one listener list per emitter;
  - a log of emitted events.

  `Wrap`, `Get` and `Set` are `makeProxy` and its two traps.
- `Snapshot` (`lib/server.ts`): `makeCleanObject` on value trees. The
  heap is read as a tree with the heap size as the depth bound.
  `makeCleanPath` walks the raw object along the event path.
- `Server` (`lib/server.ts`): the class `Publisher` holds the shared
  engine and, per socket, an id counter, a registry from wrapper to
  `{id, name, changeCb}` and an outbox of sent messages. Its methods are
  `shareObject`, `unshareObject` and a write through a wrapper, which
  runs the emitter's callbacks in order.
- `Client` (`lib/client.ts`): each listener's state is its name and its
  mirrors by id. The handlers are pure functions from state to new
  state. The class `Subscriber` holds the socket's handler table, with
  `listenToSharedObject`, `stopListening` and the delivery of one message.
- `EndToEnd`: publisher and subscriber together:
  - a mirror equals the snapshot of the published object after Register;
  - a scalar written through a wrapper moves the mirror exactly as it
    moves the snapshot, when the wrapper's path is the only route through
    records from the shared root to the written object;
  - when the written object is reachable along two routes, the cached
    wrapper's path names only the first one read, and the mirror and the
    snapshot part (a concrete heap shows it);
  - the scenarios of `tests/integration/client-server.test.ts` and of
    "server sends nested change" in `lib/server.test.ts`, traced end to
    end.

Where the code's behaviour differs from what one might expect, the model
follows the code:

- `makeProxy` writes the observer slot through the new wrapper. The
  `set` trap forwards that symbol write to the raw object
  (lib/makeproxy.ts:45, 60), so a raw object that was ever wrapped has
  the slot. Unsharing such a raw object passes the first check and fails
  with "Object is not shared on this socket", not "Object is not shared".
- The wrapper cache is process-wide (lib/makeproxy.ts:3). Two roots that
  reach the same nested object share one wrapper, including its path and
  emitter. The model keeps this; the root wrapper is never cached.

## Model

| member | source | states |
|---|---|---|
| Js.ParseIntOfIndex | lib/server.ts:101-104 | `parseInt` of an array-index key is exactly that index |
| Js.IndexOfNatToString | lib/makeproxy.ts:49-55 | the property key of array index n is `String(n)`, and no other string names index n |
| Js.RemoveLast | lib/server.ts:63 | `removeListener` removes exactly one occurrence of the callback (as a multiset), and nothing when the callback is absent |
| Js.RemoveLastMembers | lib/server.ts:63 | after removal, a listener is present iff it was present and either it is a different one or it was added twice |
| Protocol.EventOf | lib/protocol.ts:1-5 | each message kind is sent under its own token, and each token identifies its kind (iff, for all three) |
| Protocol.TokensDistinct | lib/protocol.ts:1-5 | the three tokens are pairwise different |
| Protocol.TokensShareThePrefix | lib/protocol.ts:1-5 | all three tokens start with `__shareobj_` |
| ProxyEngine.WriteThenRead | lib/makeproxy.ts:51 | after a successful `Reflect.set`, reading the same property gives the assigned value |
| ProxyEngine.WriteLeavesOtherKeys | lib/makeproxy.ts:51 | a write to a record never fails and leaves every other property unchanged |
| ProxyEngine.WriteFailsOnlyOnArrays | lib/makeproxy.ts:51 | a write fails iff the target is an array and the key is neither an index nor `length`, or the key is `length` and the value is not a valid length |
| ProxyEngine.Engine.Wrap | lib/makeproxy.ts:14-20 | a non-object is rejected with "Invalid type" and null with the Proxy's TypeError; an object gets a root wrapper (empty path) and a new emitter, which becomes the node's observer slot; the store, cache and log are unchanged |
| ProxyEngine.Engine.Attach | lib/makeproxy.ts:58-62 | a new wrapper is appended and the node's observer slot is set to the wrapper's emitter; nothing else changes |
| ProxyEngine.Engine.SlotOf | lib/makeproxy.ts:24 | reading the observer symbol through a wrapper gives the node's slot, which is always set and names an existing emitter |
| ProxyEngine.Engine.Get | lib/makeproxy.ts:21-40 | a non-object property is returned as it is; an object property returns its cached wrapper if there is one, otherwise a new wrapper on the same emitter whose path is extended by the key, which is then cached; no event and no data change |
| ProxyEngine.Engine.Set | lib/makeproxy.ts:42-57 | the node gets the written body, and exactly one event (the wrapper's path plus the key, with the raw value) is logged on the wrapper's emitter; the listeners it reaches are those of that emitter; a failed write changes nothing and emits nothing |
| ProxyEngine.Engine.On | lib/server.ts:35 | the callback is appended to that emitter's listener list only |
| ProxyEngine.Engine.RemoveListener | lib/server.ts:63 | that emitter's list loses its last occurrence of the callback; nothing else changes |
| ProxyEngine.Engine.Push | lib/makeproxy.test.ts:231-233 | `push(v)` through a wrapper appends `v` and emits exactly two events, index `String(len)` then `length` with the new length |
| ProxyEngine.Engine.Pop | lib/makeproxy.test.ts:212-213 | `pop()` drops the last element and emits exactly one event, on `length`; it returns undefined on an empty array and the element when it is not an object; an object element comes back through the get trap: its cached wrapper if it has one, otherwise a new wrapper with the path extended by the index on the same emitter, which is then cached and made the element's observer slot; in every other case the wrappers, cache and observer slots are unchanged |
| ProxyEngine.CircularObject | lib/makeproxy.test.ts:122-141 | on a self-referencing object, two reads of `k2` give the same wrapper, and a write through it reports path `["k2","k1"]` to the root's emitter |
| Snapshot.Clean | lib/server.ts:70-94 | a non-object is rejected with "Invalid object"; otherwise the only failure is the TypeError from `null`; records stay records and arrays stay arrays |
| Snapshot.CleanFailsExactlyOnNull | lib/server.ts:72-83 | the snapshot of an object fails iff a `null` is reachable through object members |
| Snapshot.CleanRecordMembers | lib/server.ts:76-90 | a record snapshot has exactly the members that are data scalars or objects; scalars are copied and objects are cleaned recursively |
| Snapshot.CleanArrayIndices | lib/server.ts:73-90 | an array snapshot keeps each kept element at its own index; dropped elements before the last kept one become holes, and the array ends at the last kept element |
| Snapshot.CleanIsPlain | lib/server.ts:70-94 | every snapshot is plain data |
| Snapshot.PlainIsFixpoint | lib/server.ts:70-94 | cleaning plain data returns it unchanged |
| Snapshot.CleanIdempotent | lib/server.ts:70-94 | cleaning a snapshot again changes nothing |
| Snapshot.PlainIffFixpoint | lib/server.ts:70-94 | data is left unchanged by cleaning iff it is plain |
| Snapshot.ToData | lib/server.ts:25 | a non-object value passes through as the corresponding scalar; `null` is the only one whose typeof is 'object' |
| Snapshot.SelfReferenceOverflows | lib/server.ts:83 | an object that contains itself never finishes unfolding, whatever the bound |
| Snapshot.TakeSnapshot | lib/server.ts:47 | a successful snapshot of the heap is plain data; a non-reference is cleaned as a scalar (and rejected) |
| Snapshot.StepRead | lib/server.ts:106 | reading the next step throws exactly on undefined or null, and stays inside the heap |
| Snapshot.CleanPath | lib/server.ts:96-107 | the clean path has one segment per path element |
| Snapshot.CleanPathSegments | lib/server.ts:96-107 | segment i is numeric iff the value reached after i steps is an array and the key is not `length`; an index key becomes that index; any other segment is the key unchanged |
| Snapshot.SegForIndex | lib/server.ts:99-104 | the same, for one step |
| Server.ChangeMessage | lib/server.ts:24-32 | the Change carries the share's id and one path segment per event step; an object value is snapshotted (as plain data) and any other value is passed through; a null value throws |
| Server.Dispatch | lib/server.ts:24-35 | running the emitter's callbacks changes no socket's id counter or registry |
| Server.SocketChangesIds | lib/server.ts:24-32 | every Change a socket receives carries the id of one of its own share callbacks |
| Server.SocketChangesSingle | lib/server.ts:24-35 | a socket with exactly one share callback on the emitter receives exactly that callback's Change |
| Server.SocketChangesNone | lib/server.ts:24-35 | a socket with no share callback on the emitter receives nothing |
| Server.DispatchOutbox | lib/server.ts:24-35 | after a dispatch with no failure, each socket's outbox has grown by exactly its own callbacks' Changes, in callback order |
| Server.OneShareOneChange | lib/server.ts:24-35 | one share of an object on a socket: one write sends exactly one Change to that socket |
| Server.DetachedGetsNothing | lib/server.ts:53-68 | a socket whose callback for an id is off the emitter receives no Change for that id |
| Server.InvShare | lib/server.ts:16-51 | sharing keeps the publisher invariant: every registry entry's callback is on its wrapper's emitter exactly once, ids are below the counter and distinct |
| Server.InvUnshare | lib/server.ts:53-68 | unsharing keeps the publisher invariant |
| Server.UnshareDetaches | lib/server.ts:59-63 | removing a registered callback from its own wrapper's emitter leaves it on no listener list of that emitter |
| Server.Publisher.Connect | lib/server.ts:20 | a new socket starts with counter 0, an empty registry and an empty outbox |
| Server.Publisher.ShareObject | lib/server.ts:16-51 | the counter advances even when sharing fails; a non-object fails and changes nothing else; an object gets a new wrapper and emitter carrying exactly the new callback, and a registry entry; Register with the snapshot is sent, or, if the snapshot throws, the error is returned and the registration stays |
| Server.Publisher.UnshareObject | lib/server.ts:53-68 | "not shared" for a value without an observer, "not shared on this socket" for one this socket has not registered, TypeError for undefined or null, with nothing changed; otherwise the entry is deleted, Unregister is sent, and the callback is detached from its own wrapper's emitter (corrected, see Findings) |
| Server.Publisher.UnshareObjectAsWritten | lib/server.ts:53-68 | the same, with the callback removed from the emitter in the node's observer slot, as written |
| Server.Publisher.Detach | lib/server.ts:59-67 | the registry entry goes, Unregister with its id is appended, and one occurrence of the callback leaves the given emitter; nothing else changes |
| Server.Publisher.Assign | lib/makeproxy.ts:49-56 | a failed write changes nothing; a successful one updates the node, logs one event, and leaves the sockets exactly as the ordered run of the emitter's callbacks says, with the first exception passed back to the writer |
| Server.Publisher.Notify | lib/server.ts:24-32 | the loop over the callbacks produces exactly the outboxes and the first failure of `Dispatch` |
| Server.DoubleShareAsWritten | lib/server.ts:59-63 | the same object shared twice, then its first wrapper unshared as written: the entry is gone but its callback stays attached |
| Server.DoubleShareCorrected | lib/server.ts:59-63 | the same sequence with the corrected unshare: the entry is gone and so is its callback |
| Server.SharedOnce | lib/server.ts:16-51 | one share on a fresh socket: exact registry, wrapper and listener state |
| Server.SharedTwice | lib/server.ts:34-41 | a second share of the same object creates a second wrapper and emitter, and the node's observer slot now names the second |
| Client.WriteData | lib/client.ts:98 | an assignment keeps the target's shape; assigning onto a non-object throws |
| Client.WriteDataThenRead | lib/client.ts:98 | after a successful assignment, reading the key gives the value |
| Client.ApplyAt | lib/client.ts:88-104 | an empty path throws "Invalid path"; a successful apply keeps the target's shape and needs an object target |
| Client.ApplyThenRead | lib/client.ts:88-104 | after a successful apply, reading along the path gives the value |
| Client.ApplyFrame | lib/client.ts:88-104 | at every depth, a path that follows the applied path for some steps and then names a different property reads the same before and after the apply, unless it leaves through an array's `length` or the applied path's step there is `length` |
| Client.WriteDataFrame | lib/client.ts:98 | an assignment leaves every other property of a record, and every other index of an array, as it was |
| Client.WriteArrayLength | lib/client.ts:98 | an index assignment grows an array's length to cover the index; a `length` assignment sets the length to the assigned value, keeps the elements below it and pads with holes |
| Client.OnRegister | lib/client.ts:56-64 | throws iff the id is already known, whatever the name; another name is ignored; otherwise the id is added (and only it) and the object is announced |
| Client.OnUnregister | lib/client.ts:66-72 | the id is removed and nothing else changes; "unshare" is emitted iff the id was known |
| Client.OnChange | lib/client.ts:74-83 | an unknown id is ignored; for a known id, it succeeds iff the apply succeeds; the mirror is then exactly the old mirror with the value applied at the path (name kept), the value is at the path, the change is reported, and the other mirrors are unchanged |
| Client.RegisterThenGetters | lib/client.ts:31-64 | after a Register for the listener's name, `getObject` and `getName` return exactly what was received |
| Client.UnregisterThenChangeIgnored | lib/client.ts:66-83 | after an Unregister, Changes for that id are ignored |
| Client.Fanout | lib/client.ts:18-20 | delivery keeps the number of listeners, and every notice carries the message's id |
| Client.Emit | lib/client.ts:18-20 | the handler loop gives exactly the outcome of `Fanout` |
| Client.FanoutSkips | lib/client.ts:23-28 | a listener with no handler on the token is neither changed nor notified |
| Client.KindsHaveDistinctTokens | lib/client.ts:18-20 | the three handlers of a listener go onto three different tokens |
| Client.InstallOk | lib/client.ts:18-20 | installing a new listener keeps the handler table well formed and puts each of its three handlers on its own token |
| Client.DropOk | lib/client.ts:25-27 | `removeListener` keeps the handler table well formed |
| Client.DropGone | lib/client.ts:25-27 | after `removeListener`, the handler is in no list, and no handler was added |
| Client.DropKeeps | lib/client.ts:25-27 | `removeListener` keeps every other handler |
| Client.UninstallOk | lib/client.ts:23-28 | `stopListening` keeps the handler table well formed |
| Client.UninstallLeavesNone | lib/client.ts:23-28 | after `stopListening`, no handler of that listener remains |
| Client.UninstallKeepsOthers | lib/client.ts:23-28 | `stopListening` leaves every other listener's handlers in place |
| Client.Subscriber.ListenToSharedObject | lib/client.ts:49-86 | a new listener with no mirrors; its three handlers are added to the table, which stays well formed |
| Client.Subscriber.StopListening | lib/client.ts:23-28 | the three handlers are removed; the table stays well formed, and none of the listener's handlers remains |
| Client.Subscriber.Deliver | lib/client.ts:56-83 | the handler table is unchanged, and the listeners, notices and outcome are those of running the message's token handlers in order |
| Client.StoppedListenerHearsNothing | lib/client.ts:23-28 | after `stopListening`, no delivery changes that listener or notifies it |
| EndToEnd.CleanRecordWrite | lib/server.ts:76-90 | replacing a record member replaces exactly that member of the snapshot |
| EndToEnd.CleanCommutesWithScalarWrite | lib/client.ts:88-104 | writing a scalar along a record path and then snapshotting gives the same result as applying the same write to the old snapshot |
| EndToEnd.WriteMember | lib/makeproxy.ts:51 | the set trap's write of a record member changes only that member of that object; every other object of the heap is as it was |
| EndToEnd.UnfoldUnreached | lib/server.ts:70-94 | a value from which the written object cannot be reached snapshots the same before and after the write |
| EndToEnd.UnfoldAlongSoleRoute | lib/server.ts:70-94 | along the only route to the written object, the tree after the write is the old tree, a record at every step, with the scalar applied at the route's keys |
| EndToEnd.CleanPathAlongSoleRoute | lib/server.ts:96-107 | along a route through records the event path cleans to the same keys, none of them numeric |
| EndToEnd.ChangeOfRecordWrite | lib/server.ts:24-31 | for a scalar written along the only route from the shared root, the share callback's Change carries the route's keys and the value, and applying it to the old snapshot gives the snapshot after the write |
| EndToEnd.MirrorFollowsScalarWrite | lib/client.ts:74-83 | a listener whose mirror is the snapshot of the shared root receives the Change the share callback builds for a scalar written along the only route; it reports the change, and its mirror is then the snapshot of the written heap |
| EndToEnd.AssignAlongSoleRoute | lib/makeproxy.ts:42-56 | a scalar assigned through a wrapper whose path is the only route from the shared root, on an emitter carrying just that share's callback, changes only that member and sends exactly one Change (route keys and value) to that socket; the snapshot moves exactly as a mirror applying that Change |
| EndToEnd.SnapshotOfTwin | lib/server.ts:70-94 | the snapshot of `{a: leaf, b: leaf}` holds two copies of the leaf |
| EndToEnd.CachedLeafWrite | lib/makeproxy.ts:28-36 | with `{a: leaf, b: leaf}` wrapped, reading `a` and then `b` returns the same cached wrapper, and writing `x` through it logs one change with the path ["a", "x"]; the shared leaf is updated |
| EndToEnd.ChangeOfTwinWrite | lib/server.ts:24-31 | the share callback turns that event into `Change(0, ["a", "x"], 1)` |
| EndToEnd.TwinMirror | lib/client.ts:88-104 | a mirror applying that Change updates `a.x` and keeps `b.x` at its old value |
| EndToEnd.SharedNodeDiverges | lib/makeproxy.ts:31-35 | after `proxy.b.x = 1` the mirror holds `b.x` = 0 while the snapshot of the written heap holds `b.x` = 1: the two differ |
| EndToEnd.RegisterMirrorsSnapshot | lib/client.ts:56-64 | a listener of the same name holds exactly the snapshot the Register carried |
| EndToEnd.SnapshotOfPublished | tests/integration/client-server.test.ts:40-43 | the snapshot of `{k1, k2: "foobar"}` is that record |
| EndToEnd.ChangeOfWrite | tests/integration/client-server.test.ts:56 | `proxy.k1 = 100` makes the share callback build `Change(0, ["k1"], 100)` |
| EndToEnd.DispatchOfWrite | tests/integration/client-server.test.ts:56 | that Change is appended to the socket's outbox, with no failure |
| EndToEnd.ShareServerObject | tests/integration/client-server.test.ts:55 | sharing sends Register with id 0, name "test" and the snapshot |
| EndToEnd.WriteK1 | tests/integration/client-server.test.ts:56 | after the write the outbox holds the Register, then exactly one Change |
| EndToEnd.ListenForTest | tests/integration/client-server.test.ts:53 | a fresh listener for "test" has exactly one Register handler and one Change handler |
| EndToEnd.ReceiveBoth | tests/integration/client-server.test.ts:58-65 | the listener is told of the object, then of one change, and its mirror ends with `k1: 100` |
| EndToEnd.SnapshotOfNested | lib/server.test.ts:65-68 | the snapshot of `{k1: "foobar", k2: {k1: 100}}` is that nested record |
| EndToEnd.NestedRoutes | lib/server.test.ts:72-80 | `k2` then `k1`, and `k1` alone, are each the only route from the root to the object they write |
| EndToEnd.ShareNested | lib/server.test.ts:68 | sharing sends one Register with id 0, name "test" and the nested snapshot; one wrapper, one callback, empty cache |
| EndToEnd.ReadK2 | lib/server.test.ts:72 | reading `proxy.k2` adds a wrapper of the inner object with path ["k2"] on the root's emitter, changing no data |
| EndToEnd.WriteInner | lib/server.test.ts:72-78 | `proxy.k2.k1 = k` updates the inner object and appends exactly `Change(0, ["k2", "k1"], k)` |
| EndToEnd.WriteOuter | lib/server.test.ts:80-82 | `proxy.k1 = s` updates the root and appends exactly `Change(0, ["k1"], s)` |
| EndToEnd.ServerSendsNestedChange | lib/server.test.ts:61-83 | the socket receives the Register, then Changes at ["k2", "k1"] with 101 and 102, then at ["k1"] with "blubb"; the final snapshot holds those values |
| EndToEnd.ClientReceivesSingleChange | tests/integration/client-server.test.ts:39-66 | the whole scenario: `onObject` is called once, `change` is emitted once, and the mirror equals the server's snapshot after the write |

## Left out

- Transport: socket.io (`SocketLike`, `lib/types.ts`) and asynchronous delivery. Each socket has an outbox of sent messages. A subscriber receives a message when `Deliver` is called with it, so delivery is in order, exactly once, and without loss.
- `EventEmitter` internals: listener lists are sequences, and `emit` runs over a copy taken when it starts.
- Application code:
  - the application's own change listeners (`AppCb`) run no code;
  - `onObject` and the mirror's `change`/`unshare` events become entries in `notices`;
  - an exception thrown by application code is not modelled.
- Symbol keys:
  - the traps' reads and writes of symbols other than `ProxyObserver` (lib/makeproxy.ts:22-26, 43-47);
  - reading `ProxyObserver` from a raw value is modelled only as far as `unshareObject` needs it.
- Named array properties: a write of a key that is neither an index nor `length` onto an array gives `Unsupported`.
- Array lengths: only a non-negative integer number is a valid length, on the publisher's heap and in a mirror alike; anything else fails with RangeError.
  - A length of 2^32 or more is accepted, where JavaScript throws RangeError.
  - JavaScript converts a `length` value with ToNumber. A numeric string, `true`, `false`, `null` and a one-element array such as `[3]` are lengths there; the model rejects them with RangeError.
  - A BigInt `length` fails with RangeError in the model. JavaScript throws TypeError for it.
- Property reads:
  - a read on a primitive gives undefined (no prototype properties such as `"abc".length`);
  - the prototype chain is not followed.
- Numbers are integers (no NaN, fractions or -0). `parseInt` is decimal only.
- `Array.prototype.unshift` (lib/makeproxy.test.ts:216-217) is not modelled. `push` and `pop` are.
- The skipped behaviour "change on removed member" (lib/makeproxy.test.ts:143-171) is not modelled. The model keeps what the code does: a detached child wrapper still reports to the root's emitter.
- Sharing a value that is already a wrapper (a proxy of a proxy) is not modelled; handles are raw values or wrappers.
- Weak references and garbage collection: the cache and the registries never lose entries by themselves.
- The `typeof name !== 'string'` check (lib/server.ts:18): names are strings by type, so that error cannot arise.
- Assignment onto a function or symbol in a mirror gives `Unsupported`.
- Array `length` writes on the subscriber side: `arr.length = 3` pads the mirror with holes, while the server's snapshot of the same array ends at its last kept element. The end-to-end lemmas are therefore stated for paths through records only.
- Snapshot.TakeSnapshot: the bound on unfolding is the heap size. A reachable cycle always exhausts it (`StackOverflow`). The contract does not state that an acyclic graph never exhausts it.
- Snapshot.TakeSnapshot: when both a `null` and a cycle are reachable, the model reports `StackOverflow`. JavaScript fails on whichever the `Object.keys` order meets first, so it may throw the TypeError instead. The model does not follow key order.
- EndToEnd.MirrorFollowsScalarWrite: proved only for a data scalar written along the only route through records from the shared root. A write onto an object reachable along two routes goes out with the path of the wrapper cached first. The mirror then updates the wrong copy and stops being the snapshot, as `EndToEnd.SharedNodeDiverges` shows. Writes of objects, and writes along array steps, are not covered either.
- Server.Dispatch: its own contract states only that counters and registries are untouched. What it sends is stated by `DispatchOutbox` and the lemmas beside it.
- `lib/types.ts`, `lib/helper.ts` and the build configuration are not part of this model.

## Findings

| source | as written | input that shows it | evidently intended | confidence | as-written member | corrected member |
|---|---|---|---|---|---|---|
| lib/server.ts:60-63 | `unshareObject` removes the change callback from `object[ProxyObserver]`. Read through the wrapper, that is the node's observer slot, which holds the emitter of the node's most recent wrapper. | Share one raw object twice on one socket, then unshare the first wrapper. The registry entry and its Unregister go, but the first callback stays on the first wrapper's emitter. Later writes through that wrapper still send Changes for the unregistered id. | Detach the callback from the emitter it was attached to, that of the wrapper being unshared. | not executed | Server.Publisher.UnshareObjectAsWritten (shown by Server.DoubleShareAsWritten) | Server.Publisher.UnshareObject (shown by Server.DoubleShareCorrected) |
