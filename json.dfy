/**
 * Values decoded from JSON, as the adapters see them after `resp.json()`,
 * together with the Python behaviour the adapters rely on: `dict.get`,
 * truthiness, `str()`, iteration, and the texts of the exceptions raised
 * when a value has the wrong type.
 */
module Json {
  import opened Prelude
  import opened Text

  /** A decoded JSON value. An object keeps its members in document order,
      as `json.loads` builds a Python dict in insertion order. Python's
      `None` is `Null`. Numbers are integers only. */
  datatype Value =
    | Null
    | Bool(b: bool)
    | Num(n: int)
    | Str(s: string)
    | Arr(items: seq<Value>)
    | Obj(members: seq<(string, Value)>)

  /** A Python exception: its class name and its message. */
  datatype PyError = PyError(typeName: string, message: string)
  {
    /** `f"{type(exc).__name__}: {exc}"` */
    function Describe(): string {
      typeName + ": " + message
    }
  }

  /** `type(v).__name__` */
  function TypeName(v: Value): string {
    match v
    case Null => "NoneType"
    case Bool(_) => "bool"
    case Num(_) => "int"
    case Str(_) => "str"
    case Arr(_) => "list"
    case Obj(_) => "dict"
  }

  /** The AttributeError raised by `v.attr` on a value without that attribute. */
  function NoAttribute(v: Value, attr: string): PyError {
    PyError("AttributeError", "'" + TypeName(v) + "' object has no attribute '" + attr + "'")
  }

  /** The TypeError raised by `for x in v` on a value that is not iterable. */
  function NotIterable(v: Value): PyError {
    PyError("TypeError", "'" + TypeName(v) + "' object is not iterable")
  }

  /** The value stored under `key`; with duplicate keys `json.loads` keeps the last one. */
  function Lookup(members: seq<(string, Value)>, key: string): (r: Option<Value>)
    ensures r.Some? <==> exists i :: 0 <= i < |members| && members[i].0 == key
    ensures r.Some? ==> exists i :: 0 <= i < |members| && members[i] == (key, r.value)
  {
    if members == [] then None
    else if members[|members| - 1].0 == key then Some(members[|members| - 1].1)
    else
      var r := Lookup(members[..|members| - 1], key);
      assert forall i :: 0 <= i < |members| - 1 ==> members[..|members| - 1][i] == members[i];
      r
  }

  /** `d.get(key, default)` on a dict. */
  function GetOr(members: seq<(string, Value)>, key: string, default: Value): Value {
    match Lookup(members, key)
    case Some(v) => v
    case None => default
  }

  /** `v.get(key, default)` where `v` need not be a dict: anything else raises. */
  function PyGet(v: Value, key: string, default: Value): Result<Value, PyError> {
    if v.Obj? then Ok(GetOr(v.members, key, default)) else Err(NoAttribute(v, "get"))
  }

  /** Python truthiness (`bool(v)`). */
  predicate Truthy(v: Value) {
    match v
    case Null => false
    case Bool(b) => b
    case Num(n) => n != 0
    case Str(s) => s != ""
    case Arr(items) => items != []
    case Obj(members) => members != []
  }

  /** `str(v)` for the scalar values; lists and dicts are rendered only as a
      non-blank marker (their Python repr is not modelled). */
  function PyStr(v: Value): string {
    match v
    case Null => "None"
    case Bool(b) => if b then "True" else "False"
    case Num(n) => IntToString(n)
    case Str(s) => s
    case Arr(items) => if items == [] then "[]" else "[...]"
    case Obj(members) => if members == [] then "{}" else "{...}"
  }

  /** `list(v)`: the elements a `for` loop over `v` visits. A string yields its
      characters and a dict its keys; numbers, booleans and None raise. */
  function Iterate(v: Value): (r: Result<seq<Value>, PyError>)
    ensures r.Ok? <==> v.Arr? || v.Str? || v.Obj?
    ensures v.Arr? ==> r == Ok(v.items)
    ensures r.Ok? && !v.Arr? ==> forall x :: x in r.value ==> x.Str?
  {
    match v
    case Arr(items) => Ok(items)
    case Str(s) => Ok(seq(|s|, i requires 0 <= i < |s| => Str([s[i]])))
    case Obj(members) => Ok(seq(|members|, i requires 0 <= i < |members| => Str(members[i].0)))
    case _ => Err(NotIterable(v))
  }
}
