/**
 * The pieces of JavaScript's object semantics that the library leans on:
 * failure values, property keys (canonical array indices, decimal
 * `parseInt`, integer keys), array reads and writes through string keys,
 * and `EventEmitter.removeListener`'s "remove the last occurrence".
 */
module Js {

  datatype Option<+T> = None | Some(value: T)

  /** The exceptions the library throws or lets propagate. */
  datatype Fault =
    | InvalidType          // makeProxy on a value whose typeof is not 'object'
    | ProxyTargetNull      // `new Proxy(null, ...)` throws a TypeError
    | InvalidObject        // makeCleanObject on a value whose typeof is not 'object'
    | TypeError            // property access on null/undefined, assignment to a primitive
    | RangeError           // an invalid array length
    | StackOverflow        // unbounded recursion on a cyclic graph
    | NotShared            // "Object is not shared"
    | NotSharedOnSocket    // "Object is not shared on this socket"
    | DuplicateShared      // "Duplicate shared object"
    | InvalidPath          // "Invalid path"
    | Unsupported          // a named (non-index, non-length) property on an array: outside the model

  datatype Result<+T> = Ok(value: T) | Err(error: Fault) {
    predicate IsFailure() { Err? }
    function PropagateFailure<U>(): Result<U> requires Err? { Err(error) }
    function Extract(): T requires Ok? { value }
  }

  datatype Outcome = Pass | Fail(error: Fault)

  // ---------------------------------------------------------------------
  // Decimal digits and canonical array-index keys

  predicate IsDigit(c: char) { '0' <= c <= '9' }

  function DigitChar(d: nat): (c: char)
    requires d < 10
    ensures IsDigit(c)
  {
    ('0' as int + d) as char
  }

  function DigitVal(c: char): (d: nat)
    requires IsDigit(c)
    ensures d < 10
  {
    c as int - '0' as int
  }

  predicate AllDigits(s: string) {
    forall i :: 0 <= i < |s| ==> IsDigit(s[i])
  }

  /** The value of a string of decimal digits. */
  function DigitsValue(s: string): nat
    requires AllDigits(s)
  {
    if s == [] then 0 else DigitsValue(s[..|s| - 1]) * 10 + DigitVal(s[|s| - 1])
  }

  /** `String(n)` for a non-negative integer. */
  function NatToString(n: nat): (s: string)
  {
    if n < 10 then [DigitChar(n)] else NatToString(n / 10) + [DigitChar(n % 10)]
  }

  /** A key that names an array element: digits, no leading zero except "0" itself. */
  predicate IsCanonicalIndex(key: string) {
    |key| > 0 && AllDigits(key) && (key[0] == '0' ==> |key| == 1)
  }

  /** The array index a property key denotes, if any. */
  function IndexOf(key: string): Option<nat> {
    if IsCanonicalIndex(key) then Some(DigitsValue(key)) else None
  }

  /** The property key JavaScript uses for an integer index (`String(i)`). */
  function IntKey(i: int): string {
    if i >= 0 then NatToString(i) else "-" + NatToString(-i)
  }

  lemma {:induction false} NatToStringIsCanonical(n: nat)
    ensures IsCanonicalIndex(NatToString(n)) && DigitsValue(NatToString(n)) == n
  {
    if n >= 10 {
      NatToStringIsCanonical(n / 10);
      var p := NatToString(n / 10);
      var s := NatToString(n);
      assert s == p + [DigitChar(n % 10)];
      assert s[..|s| - 1] == p;
      assert s[0] == p[0];
    }
  }

  lemma {:induction false} LeadingNonZeroPositive(s: string)
    requires |s| > 0 && AllDigits(s) && s[0] != '0'
    ensures DigitsValue(s) >= 1
  {
    if |s| > 1 {
      LeadingNonZeroPositive(s[..|s| - 1]);
    }
  }

  lemma {:induction false} CanonicalIndexRoundTrip(key: string)
    requires IsCanonicalIndex(key)
    ensures NatToString(DigitsValue(key)) == key
  {
    if |key| > 1 {
      var p := key[..|key| - 1];
      assert IsCanonicalIndex(p);
      LeadingNonZeroPositive(p);
      CanonicalIndexRoundTrip(p);
      var v := DigitsValue(key);
      assert v / 10 == DigitsValue(p) && v % 10 == DigitVal(key[|key| - 1]);
      assert key == p + [key[|key| - 1]];
    }
  }

  /** Index keys and index numbers are in one-to-one correspondence. */
  lemma IndexOfNatToString(key: string, n: nat)
    ensures IndexOf(key) == Some(n) <==> key == NatToString(n)
  {
    NatToStringIsCanonical(n);
    if IsCanonicalIndex(key) {
      CanonicalIndexRoundTrip(key);
    }
  }

  lemma LengthIsNotIndex()
    ensures IndexOf("length") == None
  {
    assert !IsDigit("length"[0]);
  }

  // ---------------------------------------------------------------------
  // parseInt with the default radix, for decimal input

  /** The longest prefix of `s` made of decimal digits. */
  function DigitPrefix(s: string): (p: string)
    ensures |p| <= |s| && p == s[..|p|] && AllDigits(p)
    ensures |p| < |s| ==> !IsDigit(s[|p|])
  {
    if s == [] || !IsDigit(s[0]) then [] else [s[0]] + DigitPrefix(s[1..])
  }

  /** `parseInt(s)`: an optional sign, then the leading digits; `None` stands for NaN. */
  function ParseInt(s: string): Option<int> {
    var signed := |s| > 0 && (s[0] == '-' || s[0] == '+');
    var digits := DigitPrefix(if signed then s[1..] else s);
    var magnitude: int := if digits == [] then 0 else DigitsValue(digits);
    if digits == [] then None
    else if signed && s[0] == '-' then Some(-magnitude)
    else Some(magnitude)
  }

  /** On an array-index key, parseInt yields exactly that index. */
  lemma ParseIntOfIndex(key: string, n: nat)
    requires IndexOf(key) == Some(n)
    ensures ParseInt(key) == Some(n)
  {
    assert IsDigit(key[0]);
    assert DigitPrefix(key) == key;
  }

  // ---------------------------------------------------------------------
  // Arrays seen through string property keys

  /** Grow (with holes) or truncate a sequence to length `n`. */
  function Resize<T>(s: seq<T>, n: nat, hole: T): (r: seq<T>)
    ensures |r| == n
    ensures forall i :: 0 <= i < n ==> r[i] == if i < |s| then s[i] else hole
  {
    if n <= |s| then s[..n] else s + seq(n - |s|, _ => hole)
  }

  /** `a[i] = v`: assigning past the end grows the array, leaving holes. */
  function PutAt<T>(s: seq<T>, i: nat, v: T, hole: T): (r: seq<T>)
    ensures |r| == if i < |s| then |s| else i + 1
    ensures r[i] == v
    ensures forall j :: 0 <= j < |r| && j != i ==> r[j] == if j < |s| then s[j] else hole
  {
    Resize(s, if i < |s| then |s| else i + 1, hole)[i := v]
  }

  /** `a[key]` for an array: an element, the length, or undefined. */
  function ArrayRead<T>(s: seq<T>, key: string, undef: T, length: T): T {
    match IndexOf(key)
    case Some(i) => if i < |s| then s[i] else undef
    case None => if key == "length" then length else undef
  }

  /**
   * `a[key] = v` for an array. `asLength` is `v` read as an array length,
   * when it is a valid one; an invalid length throws a RangeError.
   */
  function ArrayWrite<T>(s: seq<T>, key: string, v: T, asLength: Option<nat>, hole: T): Result<seq<T>> {
    match IndexOf(key)
    case Some(i) => Ok(PutAt(s, i, v, hole))
    case None =>
      if key != "length" then Err(Unsupported)
      else if asLength.None? then Err(RangeError)
      else Ok(Resize(s, asLength.value, hole))
  }

  // ---------------------------------------------------------------------
  // Listener lists

  /** `EventEmitter.removeListener`: drop the most recently added occurrence. */
  function RemoveLast<T(==)>(s: seq<T>, x: T): (r: seq<T>)
    ensures x !in s ==> r == s
    ensures x in s ==> |r| == |s| - 1
    ensures multiset(r) == multiset(s) - multiset{x}
  {
    if s == [] then []
    else if s[|s| - 1] == x then
      assert s == s[..|s| - 1] + [x];
      s[..|s| - 1]
    else
      assert s == s[..|s| - 1] + [s[|s| - 1]];
      RemoveLast(s[..|s| - 1], x) + [s[|s| - 1]]
  }

  /** What is left after `RemoveLast(s, x)`: everything else, and `x` only if it occurred twice. */
  lemma RemoveLastMembers<T>(s: seq<T>, x: T, y: T)
    ensures y in RemoveLast(s, x) <==> y in s && (y != x || multiset(s)[x] > 1)
  {
    var r := RemoveLast(s, x);
    assert y in r <==> y in multiset(r);
    assert y in s <==> y in multiset(s);
    assert multiset(r)[y] == if y == x then (if multiset(s)[x] > 0 then multiset(s)[x] - 1 else 0) else multiset(s)[y];
  }
}
