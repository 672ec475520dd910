/** Decoded JSON values as the session holds them in its state dictionary,
    with the parts of Python's semantics the session applies to them:
    `==`, truth value, `in`, `dict.get`, `int()` and `str()`. */
module PyValues {
  import opened PyBase
  import opened PyText

  datatype Value =
    | Null                          // None
    | Bool(b: bool)
    | Int(i: int)
    | Float(r: real)
    | Str(s: string)
    | Arr(items: seq<Value>)        // list
    | Obj(fields: map<string, Value>)  // dict with string keys
    | Names(names: set<string>)     // the set of changed keys the session stores itself

  /** bool, int and float form Python's numeric tower: `True == 1 == 1.0`. */
  predicate IsNumber(v: Value) {
    v.Bool? || v.Int? || v.Float?
  }

  function Numeric(v: Value): real
    requires IsNumber(v)
  {
    match v
    case Bool(b) => if b then 1.0 else 0.0
    case Int(i) => i as real
    case Float(r) => r
  }

  /** Python's `a == b`: numbers compare by value across bool, int and
      float; lists elementwise; dicts by keys and values; everything else
      only equals a value of its own kind with the same contents. */
  predicate PyEq(a: Value, b: Value) {
    if IsNumber(a) && IsNumber(b) then Numeric(a) == Numeric(b)
    else match (a, b)
      case (Arr(xs), Arr(ys)) => |xs| == |ys| && forall i :: 0 <= i < |xs| ==> PyEq(xs[i], ys[i])
      case (Obj(m), Obj(n)) => m.Keys == n.Keys && forall k :: k in m ==> PyEq(m[k], n[k])
      case _ => a == b
  }

  /** Every value equals itself. */
  lemma {:induction false} PyEqReflexive(a: Value)
    ensures PyEq(a, a)
  {
    match a
    case Arr(xs) =>
      forall i | 0 <= i < |xs| ensures PyEq(xs[i], xs[i]) { PyEqReflexive(xs[i]); }
    case Obj(m) =>
      forall k | k in m ensures PyEq(m[k], m[k]) { PyEqReflexive(m[k]); }
    case _ =>
  }

  /** Equality does not depend on the order of its operands. */
  lemma {:induction false} PyEqSymmetric(a: Value, b: Value)
    requires PyEq(a, b)
    ensures PyEq(b, a)
  {
    if !(IsNumber(a) && IsNumber(b)) {
      match (a, b)
      case (Arr(xs), Arr(ys)) =>
        forall i | 0 <= i < |ys| ensures PyEq(ys[i], xs[i]) { PyEqSymmetric(xs[i], ys[i]); }
      case (Obj(m), Obj(n)) =>
        forall k | k in n ensures PyEq(n[k], m[k]) { PyEqSymmetric(m[k], n[k]); }
      case _ =>
    }
  }

  /** A string equals exactly the same string and nothing else. */
  lemma PyEqStr(a: Value, s: string)
    ensures PyEq(a, Str(s)) <==> a == Str(s)
  {
  }

  /** Python's truth value: `not v` is false exactly for these. */
  predicate Truthy(v: Value) {
    match v
    case Null => false
    case Bool(b) => b
    case Int(i) => i != 0
    case Float(r) => r != 0.0
    case Str(s) => |s| > 0
    case Arr(xs) => |xs| > 0
    case Obj(m) => |m| > 0
    case Names(ns) => |ns| > 0
  }

  /** `d.get(k)`: the stored value, or None when the key is absent. */
  function Get(d: map<string, Value>, k: string): Value {
    if k in d then d[k] else Null
  }

  /** Python's `key in v` for a string key: a dict tests its keys, a list
      its elements, a string its substrings; on None, a number or a bool
      the test raises TypeError. */
  function Contains(v: Value, key: string): (r: Result<bool>)
    ensures r.Raised? <==> v.Null? || IsNumber(v)
    ensures v.Obj? ==> r == Ok(key in v.fields)
  {
    match v
    case Obj(m) => Ok(key in m)
    case Arr(xs) => Ok(Str(key) in xs)
    case Str(s) => Ok(Occurs(s, key))
    case Names(ns) => Ok(key in ns)
    case _ => Raised(TypeError)
  }

  /** Python's `int(v)`: numbers convert (floats truncate toward zero),
      strings are parsed and raise ValueError when malformed, and every
      other kind raises TypeError. */
  function PyInt(v: Value): (r: Result<int>)
    ensures r == Raised(TypeError) <==> !IsNumber(v) && !v.Str?
    ensures r.Raised? ==> r.error == TypeError || r.error == ValueError
    ensures v.Int? ==> r == Ok(v.i)
  {
    match v
    case Int(i) => Ok(i)
    case Bool(b) => Ok(if b then 1 else 0)
    case Float(r) => Ok(Trunc(r))
    case Str(s) => (match ParseInt(s) case Some(n) => Ok(n) case None => Raised(ValueError))
    case _ => Raised(TypeError)
  }

  /** The kinds of value `str()` is modelled for. */
  predicate IsScalar(v: Value) {
    v.Null? || IsNumber(v) || v.Str?
  }

  /** Python's `str(v)` (what `'%s' % v` inserts) for a scalar. */
  function Display(v: Value): string
    requires IsScalar(v)
  {
    match v
    case Null => "None"
    case Bool(b) => if b then "True" else "False"
    case Int(i) => IntText(i)
    case Float(r) => FloatText(r)
    case Str(s) => s
  }
}
