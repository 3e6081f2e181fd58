/**
 * The dynamically typed values that the orchestration runtime passes around
 * (YAML-derived dicts, lists, strings, numbers, booleans and None), with the
 * Python semantics the core relies on: truthiness, `==` (where `True == 1`),
 * the `in` operator, `str()` of a scalar, and the exceptions Python raises.
 */
module Values {
  import opened Wrappers

  datatype Value =
    | Null
    | Bool(b: bool)
    | Int(i: int)
    | Str(s: string)
    | List(items: seq<Value>)
    | Dict(fields: map<string, Value>)
      /** An object the model does not look inside (a job, a template, a node); equal only to itself. */
    | Opaque(token: int)

  /** The exceptions the modelled code can raise. */
  datatype PyError =
    | AttributeError(attribute: string)
    | KeyError(key: string)
    | TypeError
    | ValueError
    | AssertionError

  /** A Python computation that either returns a value or raises. */
  datatype Outcome<+T> = Returns(value: T) | Raises(error: PyError)

  /** Python truthiness: None, False, 0 and empty strings and containers are false. */
  predicate Truthy(v: Value) {
    match v
    case Null => false
    case Bool(b) => b
    case Int(i) => i != 0
    case Str(s) => s != ""
    case List(xs) => xs != []
    case Dict(m) => m != map[]
    case Opaque(_) => true
  }

  function BoolToInt(b: bool): int { if b then 1 else 0 }

  /** Python `==`: structural, except that a bool equals the integer 0 or 1 it stands for. */
  predicate PyEq(a: Value, b: Value)
    decreases a
  {
    match (a, b)
    case (Bool(x), Int(j)) => BoolToInt(x) == j
    case (Int(i), Bool(y)) => i == BoolToInt(y)
    case (List(xs), List(ys)) =>
      |xs| == |ys| && forall k :: 0 <= k < |xs| ==> PyEq(xs[k], ys[k])
    case (Dict(m), Dict(n)) =>
      m.Keys == n.Keys && forall k :: k in m ==> PyEq(m[k], n[k])
    case _ => a == b
  }

  lemma {:induction false} PyEqReflexive(a: Value)
    ensures PyEq(a, a)
    decreases a
  {
    match a
    case List(xs) =>
      forall k | 0 <= k < |xs| ensures PyEq(xs[k], xs[k]) { PyEqReflexive(xs[k]); }
    case Dict(m) =>
      forall k | k in m ensures PyEq(m[k], m[k]) { PyEqReflexive(m[k]); }
    case _ =>
  }

  lemma {:induction false} PyEqSymmetric(a: Value, b: Value)
    requires PyEq(a, b)
    ensures PyEq(b, a)
    decreases a
  {
    match (a, b)
    case (List(xs), List(ys)) =>
      forall k | 0 <= k < |ys| ensures PyEq(ys[k], xs[k]) { PyEqSymmetric(xs[k], ys[k]); }
    case (Dict(m), Dict(n)) =>
      forall k | k in n ensures PyEq(n[k], m[k]) { PyEqSymmetric(m[k], n[k]); }
    case _ =>
  }

  /** Equal values never differ in truthiness; this is why `0 == False` is harmless when comparing flags. */
  lemma PyEqKeepsTruthiness(a: Value, b: Value)
    requires PyEq(a, b)
    ensures Truthy(a) == Truthy(b)
  {
  }

  /** `True != 1` is false in Python: the two are equal although they are different values. */
  lemma TrueEqualsOne()
    ensures PyEq(Bool(true), Int(1)) && Bool(true) != Int(1)
  {
  }

  predicate IsSubstring(needle: string, hay: string) {
    exists i :: 0 <= i <= |hay| && needle <= hay[i..]
  }

  /** `item in container`: a key of a dict, an element of a list, a substring of a string; anything else raises TypeError. */
  function Contains(container: Value, item: Value): (r: Outcome<bool>)
    ensures r.Raises? <==> !(container.Dict? || container.List? || container.Str?) || (container.Str? && !item.Str?)
  {
    match container
    case Dict(m) => Returns(item.Str? && item.s in m)
    case List(xs) => Returns(exists k :: 0 <= k < |xs| && PyEq(xs[k], item))
    case Str(s) => if item.Str? then Returns(IsSubstring(item.s, s)) else Raises(TypeError)
    case _ => Raises(TypeError)
  }

  /** `d.get(key, default)` on a dict. */
  function Get(d: map<string, Value>, key: string, default: Value): (r: Value)
    ensures key in d ==> r == d[key]
    ensures key !in d ==> r == default
  {
    if key in d then d[key] else default
  }

  /** A value used where the code expects a dict: its entries, and no entries for anything else. */
  function DictOf(v: Value): (r: map<string, Value>)
    ensures v.Dict? ==> r == v.fields
    ensures !v.Dict? ==> r == map[]
  {
    if v.Dict? then v.fields else map[]
  }

  function DigitChar(d: nat): char
    requires d < 10
  {
    "0123456789"[d]
  }

  function NatToString(n: nat): (r: string)
    ensures |r| >= 1 && '0' <= r[0] <= '9'
    decreases n
  {
    if n < 10 then [DigitChar(n)] else NatToString(n / 10) + [DigitChar(n % 10)]
  }

  /** `str(n)` of an integer. */
  function IntToString(n: int): (r: string)
    ensures r != ""
    ensures (r[0] == '-') <==> n < 0
  {
    if n < 0 then "-" + NatToString(-n) else NatToString(n)
  }

  /** `str(v)` for a scalar; containers and objects render as a placeholder (their repr is not modelled). */
  function PyStr(v: Value): string {
    match v
    case Null => "None"
    case Bool(b) => if b then "True" else "False"
    case Int(i) => IntToString(i)
    case Str(s) => s
    case List(_) => "[...]"
    case Dict(_) => "{...}"
    case Opaque(_) => "<object>"
  }

  /** `"c" * n`: empty when n is zero or negative. */
  function Repeat(c: char, n: int): (r: string)
    ensures |r| == if n <= 0 then 0 else n
    ensures forall k :: 0 <= k < |r| ==> r[k] == c
    decreases n
  {
    if n <= 0 then "" else Repeat(c, n - 1) + [c]
  }
}
