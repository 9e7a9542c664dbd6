/** The loosely typed Python values the core passes around: `None`, `bool`, `int`,
    `str`, `list` and `dict` with string keys, and the few builtin operations on them
    the core uses (truthiness, `isinstance(x, (int, float))`, `d.get`, `d[k]`, `str(x)`). */
module Values {
  import opened Outcomes
  import PyStrings

  datatype Value =
    | Null                              // None
    | Bool(b: bool)
    | Int(i: int)
    | Str(s: string)
    | List(items: seq<Value>)
    | Dict(fields: map<string, Value>)

  /** `type(v).__name__`, as it appears in Python's error messages. */
  function TypeName(v: Value): string
  {
    match v
    case Null => "NoneType"
    case Bool(_) => "bool"
    case Int(_) => "int"
    case Str(_) => "str"
    case List(_) => "list"
    case Dict(_) => "dict"
  }

  /** `bool(v)` */
  predicate Truthy(v: Value)
  {
    match v
    case Null => false
    case Bool(b) => b
    case Int(i) => i != 0
    case Str(s) => s != ""
    case List(items) => items != []
    case Dict(fields) => fields != map[]
  }

  /** `isinstance(v, (int, float))`; `bool` is a subclass of `int` in Python. */
  predicate IsNumber(v: Value)
  {
    v.Int? || v.Bool?
  }

  /** The integer a number stands for: `True` is 1 and `False` is 0. */
  function Number(v: Value): int
    requires IsNumber(v)
  {
    if v.Int? then v.i else if v.b then 1 else 0
  }

  /** `d.get(key, default)` on a dict. */
  function Get(d: map<string, Value>, key: string, default: Value): (r: Value)
    ensures key in d ==> r == d[key]
    ensures key !in d ==> r == default
  {
    if key in d then d[key] else default
  }

  /** `v.get(key, default)` on any value: only a dict has `get`. */
  function GetAttr(v: Value, key: string, default: Value): (r: Result<Value>)
    ensures r.Ok? <==> v.Dict?
    ensures v.Dict? ==> r.value == Get(v.fields, key, default)
  {
    if v.Dict? then Ok(Get(v.fields, key, default)) else Err(AttributeError(TypeName(v), "get"))
  }

  /** `v[key]` with a string key. */
  function Subscript(v: Value, key: string): (r: Result<Value>)
    ensures r.Ok? <==> v.Dict? && key in v.fields
    ensures r.Ok? ==> r.value == v.fields[key]
    ensures v.Dict? && key !in v.fields ==> r == Err(KeyError(key))
  {
    match v
    case Dict(fields) => if key in fields then Ok(fields[key]) else Err(KeyError(key))
    case Str(_) => Err(TypeError("string indices must be integers, not 'str'"))
    case List(_) => Err(TypeError("list indices must be integers or slices, not str"))
    case _ => Err(TypeError("'" + TypeName(v) + "' object is not subscriptable"))
  }

  /** A list of strings as a value. */
  function Strings(ss: seq<string>): (v: Value)
    ensures v.List? && |v.items| == |ss|
    ensures forall k :: 0 <= k < |ss| ==> v.items[k] == Str(ss[k])
  {
    List(seq(|ss|, k requires 0 <= k < |ss| => Str(ss[k])))
  }

  /** `str(v)`, as an f-string renders it. Strings inside a list are quoted without
      escaping, and a non-empty dict is rendered as `{...}`. */
  function Display(v: Value): string
    decreases v, 0
  {
    match v
    case Null => "None"
    case Bool(b) => if b then "True" else "False"
    case Int(i) => PyStrings.IntToString(i)
    case Str(s) => s
    case List(items) => "[" + PyStrings.Join(", ", ReprAll(items)) + "]"
    case Dict(fields) => if fields == map[] then "{}" else "{...}"
  }

  /** `repr(x)` of each element of a list. */
  function ReprAll(items: seq<Value>): seq<string>
    decreases items, 2
  {
    if |items| == 0 then []
    else [Repr(items[0])] + ReprAll(items[1..])
  }

  function Repr(v: Value): string
    decreases v, 1
  {
    if v.Str? then "'" + v.s + "'" else Display(v)
  }

  /** `v` used as a dict key. A list or dict is unhashable. The model's dicts have string
      keys, so any other value stands for itself by its `str()` text. */
  function Key(v: Value): (r: Result<string>)
    ensures v.Str? ==> r == Ok(v.s)
    ensures r.Err? <==> v.List? || v.Dict?
  {
    match v
    case Str(s) => Ok(s)
    case List(_) => Err(TypeError("unhashable type: 'list'"))
    case Dict(_) => Err(TypeError("unhashable type: 'dict'"))
    case _ => Ok(Display(v))
  }
}
