/**
 * The wire protocol shared by the publisher and the subscriber bindings:
 * the three event tokens, the plain data carried by messages, path
 * segments, and the Register / Unregister / Change message shapes.
 */
module Protocol {
  import opened Js

  const RegisterEvent: string := "__shareobj_reg"
  const UnregisterEvent: string := "__shareobj_unreg"
  const ChangeEvent: string := "__shareobj_chg"

  /** The common namespace prefix of the three tokens. */
  const EventPrefix: string := "__shareobj_"

  /**
   * A JavaScript value as a finite tree: what a snapshot holds, what a
   * Change carries and what a subscriber's mirror is made of. `Opaque`
   * stands for a function or a symbol; array holes read as `Undefined`.
   */
  datatype Data =
    | Str(s: string)
    | Num(n: int)
    | Big(big: int)
    | Bool(flag: bool)
    | Undefined
    | Null
    | Opaque
    | Rec(fields: map<string, Data>)
    | Arr(elems: seq<Data>)

  /** `typeof d === 'object'` (which holds for null). */
  predicate IsObjectType(d: Data) {
    d.Rec? || d.Arr? || d.Null?
  }

  /** A member kept by a snapshot as it is: string, number, bigint or boolean. */
  predicate IsDataScalar(d: Data) {
    d.Str? || d.Num? || d.Big? || d.Bool?
  }

  /** One step of a wire path: a property name, an integer index, or NaN. */
  datatype Seg = SKey(key: string) | SIdx(index: int) | SNaN

  /** The property key JavaScript uses when a segment is used to index an object. */
  function KeyOf(seg: Seg): string {
    match seg
    case SKey(k) => k
    case SIdx(i) => IntKey(i)
    case SNaN => "NaN"
  }

  datatype Message =
    | Register(id: int, name: string, object: Data)
    | Unregister(id: int)
    | Change(id: int, path: seq<Seg>, value: Data)

  /** The event token a message is emitted under. */
  function EventOf(m: Message): (token: string)
    ensures m.Register? <==> token == RegisterEvent
    ensures m.Unregister? <==> token == UnregisterEvent
    ensures m.Change? <==> token == ChangeEvent
  {
    TokensDistinct();
    match m
    case Register(_, _, _) => RegisterEvent
    case Unregister(_) => UnregisterEvent
    case Change(_, _, _) => ChangeEvent
  }

  lemma TokensDistinct()
    ensures RegisterEvent != UnregisterEvent && RegisterEvent != ChangeEvent && UnregisterEvent != ChangeEvent
  {
    assert RegisterEvent[11] != UnregisterEvent[11];
    assert RegisterEvent[11] != ChangeEvent[11];
    assert UnregisterEvent[11] != ChangeEvent[11];
  }

  lemma TokensShareThePrefix()
    ensures |EventPrefix| == 11
    ensures RegisterEvent[..11] == EventPrefix
    ensures UnregisterEvent[..11] == EventPrefix
    ensures ChangeEvent[..11] == EventPrefix
  {
  }
}
