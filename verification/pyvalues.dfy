/** The small slice of Python's object model, and the `min` and `max` builtins, that the modelled code uses. */
module PyValues {

  /**
   * A Python value as far as `isinstance`, `len`, iteration and truth
   * testing can tell. `List` stands for both lists and tuples; `Other` is any
   * other object, of which only its truth value is kept.
   */
  datatype PyValue =
    | Str(s: string)
    | Int(i: int)
    | Float(f: real)
    | Bool(b: bool)
    | List(items: seq<PyValue>)
    | Other(truthy: bool)

  /** `isinstance(v, str)`. */
  predicate IsStr(v: PyValue) {
    v.Str?
  }

  /** `isinstance(v, int)`: `bool` is a subclass of `int`. */
  predicate IsInt(v: PyValue) {
    v.Int? || v.Bool?
  }

  /** `isinstance(v, float)`. */
  predicate IsFloat(v: PyValue) {
    v.Float?
  }

  /** `bool(v)`. */
  predicate Truthy(v: PyValue) {
    match v
    case Str(s) => s != ""
    case Int(i) => i != 0
    case Float(f) => f != 0.0
    case Bool(b) => b
    case List(items) => |items| > 0
    case Other(t) => t
  }

  /** Values that support both `len()` and iteration. */
  predicate IsSequence(v: PyValue) {
    v.Str? || v.List?
  }

  /** The elements iteration yields: one-character strings for a `str`. */
  function Elements(v: PyValue): (r: seq<PyValue>)
    requires IsSequence(v)
    ensures v.List? ==> r == v.items
    ensures v.Str? ==> |r| == |v.s| && forall i :: 0 <= i < |r| ==> r[i] == Str([v.s[i]])
  {
    if v.Str? then seq(|v.s|, i requires 0 <= i < |v.s| => Str([v.s[i]])) else v.items
  }

  /** Python's `min` of two numbers. */
  function Min(a: real, b: real): (m: real)
    ensures m <= a && m <= b && (m == a || m == b)
  {
    if a <= b then a else b
  }

  /** Python's `max` of two numbers. */
  function Max(a: real, b: real): (m: real)
    ensures m >= a && m >= b && (m == a || m == b)
  {
    if a >= b then a else b
  }
}
