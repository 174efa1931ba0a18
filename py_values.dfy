/**
 * The untyped, JSON-shaped data that the planner hands to both dispatchers,
 * with the few Python operations the dispatchers apply to it: truthiness,
 * `or`, `dict.get`, `in`, subscripting and iteration.
 */
module PyValues {
  import opened PyStrings

  datatype Option<T> = None | Some(value: T) {
    function GetOr(default: T): T {
      if Some? then value else default
    }
  }

  /** A Python value as decoded from the planner's JSON. Numbers are only ever
      passed along to the device, so floats are kept as exact reals. */
  datatype Value =
    | VNone
    | VBool(b: bool)
    | VInt(i: int)
    | VFloat(r: real)
    | VStr(s: string)
    | VList(items: seq<Value>)
    | VDict(entries: seq<Entry>)

  /** One key/value pair of a dict. A dict is its entries in insertion order. */
  datatype Entry = Entry(key: string, val: Value)

  /** The exceptions that the modelled Python code raises by itself, plus
      `PortError` for an exception that a planner or a tool raises and
      `ValidationError` for a message constructor that rejects its content. */
  datatype PyError =
    | AttributeError(typeName: string, attr: string)
    | NotIterable(typeName: string)
    | NotAContainer(typeName: string)
    | BadIndex(typeName: string)
    | KeyError(key: string)
    | PortError(message: string)
    | ValidationError(model: string)

  datatype Result<T> = Ok(value: T) | Err(error: PyError)

  /** Python truthiness: None, False, zero and empty containers are false. */
  predicate Truthy(v: Value) {
    match v
    case VNone => false
    case VBool(b) => b
    case VInt(i) => i != 0
    case VFloat(r) => r != 0.0
    case VStr(s) => s != ""
    case VList(xs) => xs != []
    case VDict(es) => es != []
  }

  /** `a or b` evaluates to `a` when `a` is truthy and to `b` otherwise. */
  function Or(a: Value, b: Value): Value {
    if Truthy(a) then a else b
  }

  /** `type(v).__name__`. */
  function TypeName(v: Value): string {
    match v
    case VNone => "NoneType"
    case VBool(_) => "bool"
    case VInt(_) => "int"
    case VFloat(_) => "float"
    case VStr(_) => "str"
    case VList(_) => "list"
    case VDict(_) => "dict"
  }

  ghost predicate HasKey(es: seq<Entry>, k: string) {
    exists i :: 0 <= i < |es| && es[i].key == k
  }

  /** The value stored under `k`: that of the first entry with key `k`
      (a Python dict never has two). */
  function Find(es: seq<Entry>, k: string): (r: Option<Value>)
    ensures r.Some? <==> HasKey(es, k)
    ensures r.Some? ==> exists i :: 0 <= i < |es| && es[i] == Entry(k, r.value)
  {
    if es == [] then None
    else if es[0].key == k then Some(es[0].val)
    else
      var r := Find(es[1..], k);
      assert HasKey(es[1..], k) ==> HasKey(es, k) by {
        if HasKey(es[1..], k) {
          var i :| 0 <= i < |es[1..]| && es[1..][i].key == k;
          assert es[i + 1].key == k;
        }
      }
      assert HasKey(es, k) ==> HasKey(es[1..], k) by {
        if HasKey(es, k) {
          var i :| 0 <= i < |es| && es[i].key == k;
          assert i != 0 && es[1..][i - 1].key == k;
        }
      }
      assert r.Some? ==> exists i :: 0 <= i < |es| && es[i] == Entry(k, r.value) by {
        if r.Some? {
          var i :| 0 <= i < |es[1..]| && es[1..][i] == Entry(k, r.value);
          assert es[i + 1] == Entry(k, r.value);
        }
      }
      r
  }

  /** `k in d` for a dict `d`. */
  predicate Has(es: seq<Entry>, k: string) {
    Find(es, k).Some?
  }

  /** `d.get(k)`: the stored value, or None when `k` is absent. */
  function Get(es: seq<Entry>, k: string): Value {
    Find(es, k).GetOr(VNone)
  }

  /** `d.get(k, default)`: the stored value even when it is falsy, the
      default only when `k` is absent. */
  function GetOr(es: seq<Entry>, k: string, default: Value): Value {
    Find(es, k).GetOr(default)
  }

  /** `list(d.values())`. */
  function Values(es: seq<Entry>): (r: seq<Value>)
    ensures |r| == |es|
    ensures forall i :: 0 <= i < |es| ==> r[i] == es[i].val
  {
    seq(|es|, i requires 0 <= i < |es| => es[i].val)
  }

  /** `v.get(k)` on a value that should be a dict: anything else has no `get`. */
  function DictGet(v: Value, k: string): Result<Value> {
    if v.VDict? then Ok(Get(v.entries, k)) else Err(AttributeError(TypeName(v), "get"))
  }

  /** `k in v` for a string `k`: key of a dict, element of a list, substring of
      a string; any other type raises TypeError. */
  function In(k: string, v: Value): Result<bool> {
    match v
    case VDict(es) => Ok(Has(es, k))
    case VList(xs) => Ok(VStr(k) in xs)
    case VStr(s) => Ok(Contains(s, k))
    case _ => Err(NotAContainer(TypeName(v)))
  }

  /** `v[k]` for a string `k`. */
  function Index(v: Value, k: string): Result<Value> {
    match v
    case VDict(es) => if Has(es, k) then Ok(Get(es, k)) else Err(KeyError(k))
    case _ => Err(BadIndex(TypeName(v)))
  }

  /** The elements that `for x in v` visits: a list's items, a dict's keys,
      a string's one-character strings; None when `v` is not iterable. */
  function Iterate(v: Value): (r: Option<seq<Value>>)
    ensures r.Some? <==> (v.VList? || v.VDict? || v.VStr?)
    ensures v.VList? ==> r == Some(v.items)
    ensures r.Some? ==> (|r.value| == 0 <==> !Truthy(v))
  {
    match v
    case VList(xs) => Some(xs)
    case VDict(es) => Some(seq(|es|, i requires 0 <= i < |es| => VStr(es[i].key)))
    case VStr(s) => Some(seq(|s|, i requires 0 <= i < |s| => VStr([s[i]])))
    case _ => None
  }

  /** `str(e)` for the exceptions above, in CPython 3.11's wording. Only the
      tools' success test reads these texts, and it looks for a word the
      texts never contain. */
  function Describe(e: PyError): string {
    match e
    case AttributeError(t, a) => "'" + t + "' object has no attribute '" + a + "'"
    case NotIterable(t) => "'" + t + "' object is not iterable"
    case NotAContainer(t) => "argument of type '" + t + "' is not iterable"
    case BadIndex(t) =>
      if t == "list" then "list indices must be integers or slices, not str"
      else if t == "str" then "string indices must be integers, not 'str'"
      else "'" + t + "' object is not subscriptable"
    case KeyError(k) => "'" + k + "'"
    case PortError(m) => m
    case ValidationError(m) => "validation error for " + m
  }
}
