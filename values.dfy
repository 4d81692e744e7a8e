/**
 * Python's dynamic values as they travel through the tool calls: the JSON
 * types plus Python truthiness, key membership and `dict.get`.
 */
module Values {
  import opened Wrappers
  import Text

  datatype Value =
    | Null
    | Bool(b: bool)
    | Int(i: int)
    | Num(r: real)
    | Str(s: string)
    | List(items: seq<Value>)
    | Dict(fields: map<string, Value>)

  /** `bool(v)` */
  predicate Truthy(v: Value)
  {
    match v
    case Null => false
    case Bool(b) => b
    case Int(i) => i != 0
    case Num(r) => r != 0.0
    case Str(s) => s != []
    case List(items) => items != []
    case Dict(fields) => fields != map[]
  }

  /** The message of the AttributeError raised by `v.get(...)` on a value that is not a dict. */
  const NoGet: string := "object has no attribute 'get'"

  /** `k in v` for a dict `v`; false for every other kind of value. */
  predicate HasKey(v: Value, k: string)
  {
    v.Dict? && k in v.fields
  }

  /**
   * Python's `item in container` for a string item: a dict tests its keys,
   * a list its items and a string its substrings; None where `in` raises
   * TypeError (a number, a bool or None).
   */
  function PyContains(container: Value, item: string): (r: Option<bool>)
    ensures container.Dict? ==> r == Some(item in container.fields)
    ensures container.Str? ==> r == Some(Text.Contains(container.s, item))
    ensures container.List? ==> r == Some(Str(item) in container.items)
    ensures r.None? <==> !(container.Dict? || container.List? || container.Str?)
    ensures r == Some(true) && container.Dict? <==> HasKey(container, item)
  {
    match container
    case Dict(fields) => Some(item in fields)
    case List(items) => Some(Str(item) in items)
    case Str(s) => Some(Text.Contains(s, item))
    case _ => None
  }

  /** `v.get(k)` */
  function Get(v: Value, k: string): (r: Option<Value>)
    ensures r.Some? <==> HasKey(v, k)
    ensures r.Some? ==> r.value == v.fields[k]
  {
    if HasKey(v, k) then Some(v.fields[k]) else None
  }

  /** `v.get(k, default)` */
  function GetOr(v: Value, k: string, default: Value): Value
  {
    if HasKey(v, k) then v.fields[k] else default
  }

  /** A truthy `v.get(k)`: the key is present and its value is truthy. */
  predicate TruthyKey(v: Value, k: string)
  {
    HasKey(v, k) && Truthy(v.fields[k])
  }

  /** A Python number read as a real (`bool` is an `int` in Python); None for anything else. */
  function Numeric(v: Value): (r: Option<real>)
    ensures v.Int? ==> r == Some(v.i as real)
    ensures v.Num? ==> r == Some(v.r)
    ensures !(v.Int? || v.Num? || v.Bool?) ==> r.None?
  {
    match v
    case Int(i) => Some(i as real)
    case Num(x) => Some(x)
    case Bool(b) => Some(if b then 1.0 else 0.0)
    case _ => None
  }

  /** `params.get(key, default)` used as a number: None where Python raises. */
  function NumberOr(params: Value, key: string, default: real): (r: Option<real>)
    ensures params.Dict? && key !in params.fields ==> r == Some(default)
    ensures params.Dict? && key in params.fields ==> r == Numeric(params.fields[key])
    ensures !params.Dict? ==> r.None?
  {
    if !params.Dict? then None
    else if key in params.fields then Numeric(params.fields[key])
    else Some(default)
  }

  /** `mp_data and not mp_data.get("error")`: a non-empty dict without a truthy error; anything else raises or fails. */
  predicate Usable(mpData: Value)
  {
    mpData.Dict? && Truthy(mpData) && !TruthyKey(mpData, "error")
  }
}
