/**
  The fragment of JavaScript value semantics that the two request handlers
  depend on: the values a JSON request or response can carry, the truthiness
  test behind `if (!x)`, and `Array.prototype.find`.
 */
module Js {

  /** An optional value; each use says what its `None` stands for. */
  datatype Option<+T> = None | Some(value: T)

  /** The outcome of a chain of steps that can fail. */
  datatype Result<+T, +E> = Success(value: T) | Failure(error: E)

  /** A JavaScript value as it appears in request and response bodies.
      Numbers are modelled as reals plus `NaN`; objects and arrays whose
      contents no handler inspects are opaque `Compound` values. */
  datatype Value =
    | Undefined
    | Null
    | Bool(b: bool)
    | Num(x: real)
    | NaN
    | Str(s: string)
    | Compound(id: nat)

  /** JavaScript truthiness: `false`, `0`, `NaN`, `""`, `null` and
      `undefined` are falsy; every other value, every object included, is truthy. */
  predicate Truthy(v: Value) {
    match v
    case Undefined => false
    case Null => false
    case Bool(b) => b
    case Num(x) => x != 0.0
    case NaN => false
    case Str(s) => s != ""
    case Compound(_) => true
  }

  /** `i` is the position `find` stops at: it satisfies `p` and no earlier element does. */
  predicate IsFirst<T>(s: seq<T>, p: T -> bool, i: int) {
    0 <= i < |s| && p(s[i]) && forall j :: 0 <= j < i ==> !p(s[j])
  }

  /** The index of the element `s.find(p)` returns, or `None` when `find`
      returns `undefined`. */
  function FindFirst<T>(s: seq<T>, p: T -> bool): (r: Option<nat>)
    ensures r.Some? ==> IsFirst(s, p, r.value)
    ensures r.None? <==> forall j :: 0 <= j < |s| ==> !p(s[j])
  {
    if |s| == 0 then None
    else if p(s[0]) then Some(0)
    else
      match FindFirst(s[1..], p)
      case None => None
      case Some(k) => Some(k + 1)
  }

  /** There is only one first match, so any index meeting `IsFirst` is the one `find` returns. */
  lemma FirstIsUnique<T>(s: seq<T>, p: T -> bool, i: int)
    requires IsFirst(s, p, i)
    ensures FindFirst(s, p) == Some(i)
  {
  }
}
