/**
 * The dynamically typed Python values the forwarder inspects: what
 * `json.loads` returns for the environment's JSON settings, and the loosely
 * typed arguments the normalisers accept.  A `Dict` stands for the dict's
 * `items()` in insertion order (its keys are distinct, as in any dict).
 */
module PyValues {
  import opened Wrappers
  import opened Text

  datatype PyValue =
    | PNone
    | PBool(b: bool)
    | PInt(i: int)
    | PFloat(r: real)
    | PStr(s: string)
    | PList(items: seq<PyValue>)
    | PDict(entries: seq<(PyValue, PyValue)>)

  /** Python truthiness (`bool(v)`). */
  predicate Truthy(v: PyValue)
  {
    match v
    case PNone => false
    case PBool(b) => b
    case PInt(i) => i != 0
    case PFloat(r) => r != 0.0
    case PStr(s) => |s| > 0
    case PList(items) => |items| > 0
    case PDict(entries) => |entries| > 0
  }

  /** `isinstance(v, int)`; `bool` is a subclass of `int`. */
  predicate IsInt(v: PyValue)
  {
    v.PInt? || v.PBool?
  }

  /** The integer an `int` (or `bool`) value stands for. */
  function IntValue(v: PyValue): int
    requires IsInt(v)
  {
    if v.PInt? then v.i else if v.b then 1 else 0
  }

  /** `type(v).__name__`. */
  function TypeName(v: PyValue): string
  {
    match v
    case PNone => "NoneType"
    case PBool(_) => "bool"
    case PInt(_) => "int"
    case PFloat(_) => "float"
    case PStr(_) => "str"
    case PList(_) => "list"
    case PDict(_) => "dict"
  }

  /** `int(r)` for a float: truncation toward zero. */
  function Trunc(r: real): (n: int)
    ensures r >= 0.0 ==> n as real <= r < n as real + 1.0
    ensures r < 0.0 ==> n as real - 1.0 < r <= n as real
  {
    if r >= 0.0 then r.Floor else -((-r).Floor)
  }

  /** Python `int(v)`. */
  function ToInt(v: PyValue): (r: Result<int, PyError>)
    ensures IsInt(v) ==> r == Ok(IntValue(v))
    ensures v.PStr? ==> (r.Ok? <==> PyInt(v.s).Some?)
    ensures (v.PNone? || v.PList? || v.PDict?) ==> r.Err?
  {
    match v
    case PInt(i) => Ok(i)
    case PBool(b) => Ok(if b then 1 else 0)
    case PFloat(x) => Ok(Trunc(x))
    case PStr(s) =>
      (match PyInt(s)
       case Some(n) => Ok(n)
       case None => Err(InvalidIntLiteral(s)))
    case _ => Err(IntArgumentError(v))
  }

  /** The `TypeError` of `int(v)` for a value that is neither a number nor a text. */
  function IntArgumentError(v: PyValue): PyError
  {
    TypeError("int() argument must be a string, a bytes-like object or a real number, not '" + TypeName(v) + "'")
  }

  /** Python `str(v)`; floats and containers are printed by `repr`, a parameter of the model. */
  function Str(v: PyValue, repr: PyValue -> string): (r: string)
    ensures v.PStr? ==> r == v.s
    ensures v.PInt? ==> PyInt(r) == Some(v.i)
  {
    match v
    case PNone => "None"
    case PBool(b) => if b then "True" else "False"
    case PInt(i) => PyIntOfIntToString(i); IntToString(i)
    case PStr(s) => s
    case _ => repr(v)
  }

  /** A key the model looks up with: `None`, a number or a string. */
  predicate IsScalar(v: PyValue)
  {
    !(v.PList? || v.PDict?)
  }

  predicate IsNumber(v: PyValue)
  {
    v.PInt? || v.PBool? || v.PFloat?
  }

  function NumberValue(v: PyValue): real
    requires IsNumber(v)
  {
    if v.PFloat? then v.r else IntValue(v) as real
  }

  /** Python `a == b` when `a` is a scalar: numbers compare by value (`True == 1 == 1.0`). */
  predicate ScalarEq(a: PyValue, b: PyValue)
    requires IsScalar(a)
  {
    if IsNumber(a) then IsNumber(b) && NumberValue(a) == NumberValue(b)
    else if a.PStr? then b.PStr? && a.s == b.s
    else b.PNone?
  }

  /** Python `iter(v)`: list items, dict keys, or the characters of a string. */
  function Iterate(v: PyValue): (r: Result<seq<PyValue>, PyError>)
    ensures r.Ok? <==> (v.PList? || v.PDict? || v.PStr?)
    ensures v.PList? ==> r == Ok(v.items)
    ensures v.PDict? ==> r.Ok? && |r.value| == |v.entries|
                         && forall k :: 0 <= k < |v.entries| ==> r.value[k] == v.entries[k].0
  {
    match v
    case PList(items) => Ok(items)
    case PDict(entries) => Ok(seq(|entries|, k requires 0 <= k < |entries| => entries[k].0))
    case PStr(s) => Ok(seq(|s|, k requires 0 <= k < |s| => PStr([s[k]])))
    case _ => Err(TypeError("'" + TypeName(v) + "' object is not iterable"))
  }

  /** The value of the first entry whose key equals `key`. */
  function Lookup(entries: seq<(PyValue, PyValue)>, key: PyValue): (r: Option<PyValue>)
    requires IsScalar(key)
    ensures r.Some? <==> exists k :: 0 <= k < |entries| && ScalarEq(key, entries[k].0)
    ensures r.Some? ==> exists k :: 0 <= k < |entries| && ScalarEq(key, entries[k].0) && r.value == entries[k].1
  {
    if |entries| == 0 then None
    else if ScalarEq(key, entries[0].0) then Some(entries[0].1)
    else
      var r := Lookup(entries[1..], key);
      assert r.Some? ==> exists k :: 1 <= k < |entries| && ScalarEq(key, entries[k].0) && r.value == entries[k].1 by {
        if r.Some? {
          var k :| 0 <= k < |entries[1..]| && ScalarEq(key, entries[1..][k].0) && r.value == entries[1..][k].1;
          assert ScalarEq(key, entries[k + 1].0) && r.value == entries[k + 1].1;
        }
      }
      assert (exists k :: 0 <= k < |entries| && ScalarEq(key, entries[k].0)) ==> r.Some? by {
        if exists k :: 0 <= k < |entries| && ScalarEq(key, entries[k].0) {
          var k :| 0 <= k < |entries| && ScalarEq(key, entries[k].0);
          assert k > 0 && ScalarEq(key, entries[1..][k - 1].0);
        }
      }
      r
  }

  /** A number is never found among text keys. */
  lemma NumberMissesTextKeys(entries: seq<(PyValue, PyValue)>, key: PyValue)
    requires IsScalar(key) && IsNumber(key)
    requires forall k :: 0 <= k < |entries| ==> entries[k].0.PStr?
    ensures Lookup(entries, key) == None
  {
  }

  /** `dict.get(key)` on a dict value. */
  function DictGet(d: PyValue, key: PyValue): Option<PyValue>
    requires d.PDict? && IsScalar(key)
  {
    Lookup(d.entries, key)
  }

  /** Python `key in container` for a scalar key. */
  function In(key: PyValue, container: PyValue): (r: Result<bool, PyError>)
    requires IsScalar(key)
    ensures container.PList? ==> r == Ok(exists k :: 0 <= k < |container.items| && ScalarEq(key, container.items[k]))
    ensures container.PDict? ==> r == Ok(Lookup(container.entries, key).Some?)
    ensures (container.PStr? && key.PStr?) ==> r == Ok(Contains(container.s, key.s))
    ensures r.Err? <==> !(container.PList? || container.PDict? || (container.PStr? && key.PStr?))
  {
    match container
    case PList(items) => Ok(exists k :: 0 <= k < |items| && ScalarEq(key, items[k]))
    case PDict(entries) => Ok(Lookup(entries, key).Some?)
    case PStr(s) =>
      if key.PStr? then Ok(Contains(s, key.s))
      else Err(TypeError("'in <string>' requires string as left operand, not " + TypeName(key)))
    case _ => Err(TypeError("argument of type '" + TypeName(container) + "' is not iterable"))
  }

  /** Python `container[key]` for a scalar key. */
  function Subscript(container: PyValue, key: PyValue): (r: Result<PyValue, PyError>)
    requires IsScalar(key)
    ensures container.PDict? ==> (r.Ok? <==> Lookup(container.entries, key).Some?)
    ensures container.PDict? && r.Ok? ==> r.value == Lookup(container.entries, key).value
    ensures container.PList? && IsInt(key) && 0 <= IntValue(key) < |container.items| ==> r == Ok(container.items[IntValue(key)])
    ensures container.PList? && !IsInt(key) ==> r.Err?
  {
    match container
    case PDict(entries) =>
      (match Lookup(entries, key)
       case Some(v) => Ok(v)
       case None => Err(KeyError("key not found")))
    case PList(items) =>
      if IsInt(key) then
        var n := IntValue(key);
        if 0 <= n < |items| then Ok(items[n])
        else if -|items| <= n < 0 then Ok(items[n + |items|])
        else Err(IndexError("list index out of range"))
      else Err(TypeError("list indices must be integers or slices, not " + TypeName(key)))
    case PStr(s) =>
      if IsInt(key) then
        var n := IntValue(key);
        if 0 <= n < |s| then Ok(PStr([s[n]]))
        else if -|s| <= n < 0 then Ok(PStr([s[n + |s|]]))
        else Err(IndexError("string index out of range"))
      else Err(TypeError("string indices must be integers, not '" + TypeName(key) + "'"))
    case _ => Err(TypeError("'" + TypeName(container) + "' object is not subscriptable"))
  }
}
