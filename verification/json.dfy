/**
  Parsed JSON values as the Python bridge sees them after `json.loads`, with the
  two pieces of Python semantics the bridge relies on: truth values (`if not x`,
  `x or y`) and `str()` rendering inside f-strings.
 */
module Json {
  import opened Results

  datatype Json =
    | Null
    | Bool(b: bool)
    | Int(i: int)
    | Float(f: real)
    | Str(s: string)
    | Arr(items: seq<Json>)
    | Obj(fields: map<string, Json>)

  /** Python's truth value: `None`, `False`, zero and the empty string, list and dict are false. */
  predicate IsTruthy(v: Json) {
    match v
    case Null => false
    case Bool(b) => b
    case Int(i) => i != 0
    case Float(f) => f != 0.0
    case Str(s) => |s| > 0
    case Arr(a) => |a| > 0
    case Obj(m) => |m| > 0
  }

  /** `d.get(key)`: the value stored under `key`, or `None` when the key is absent. */
  function Get(d: map<string, Json>, key: string): Json {
    if key in d then d[key] else Null
  }

  /** Python's `a or b`. */
  function Or(a: Json, b: Json): Json {
    if IsTruthy(a) then a else b
  }

  /** An optional string setting as the JSON value Python would hold for it. */
  function OfOption(s: Option<string>): Json {
    match s
    case None => Null
    case Some(t) => Str(t)
  }

  /** The empty dict `{}`. */
  const EmptyObj: Json := Obj(map[])

  /** Python's name for the type of a parsed JSON value. */
  function TypeName(v: Json): string {
    match v
    case Null => "NoneType"
    case Bool(_) => "bool"
    case Int(_) => "int"
    case Float(_) => "float"
    case Str(_) => "str"
    case Arr(_) => "list"
    case Obj(_) => "dict"
  }

  /** The message of the `AttributeError` raised by calling `.get` on a value that is not a dict. */
  function NoGetAttribute(v: Json): string {
    "'" + TypeName(v) + "' object has no attribute 'get'"
  }

  /**
    `str(v)` as used by an f-string. Strings render as themselves and `None`,
    `True`, `False` by name; every other rendering is left to `show`.
   */
  function Display(v: Json, show: Json -> string): string {
    match v
    case Str(s) => s
    case Null => "None"
    case Bool(b) => if b then "True" else "False"
    case _ => show(v)
  }

  /** The falsy values are exactly the seven empty or zero values of each kind. */
  lemma FalsyValues(v: Json)
    ensures !IsTruthy(v) <==>
              v in {Null, Bool(false), Int(0), Float(0.0), Str(""), Arr([]), Obj(map[])}
  {
    match v
    case Arr(a) =>
      assert |a| == 0 ==> a == [];
    case Obj(m) =>
      assert |m| == 0 ==> m == map[];
    case _ =>
  }
}
