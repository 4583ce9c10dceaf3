/** Decoded JSON values and the Python operations the integration applies to them:
    truthiness, `dict.get`, `or`, `str()`, `float()` and `int()`. */
module Values {
  import opened Wrappers
  import Text

  /** A value as `json.loads` produces it: None, bool, int, float, str, list or dict. */
  datatype Value =
    | Null
    | Bool(b: bool)
    | Int(i: int)
    | Float(r: real)
    | Str(s: string)
    | List(items: seq<Value>)
    | Obj(fields: map<string, Value>)

  /** A dict with string keys, such as the aggregate store or a decode payload. */
  type Dict = map<string, Value>

  /** An HTTP reply: its status code and its text. */
  datatype Response = Response(status: int, body: string)

  /** Python truthiness. */
  predicate Truthy(v: Value) {
    match v
    case Null => false
    case Bool(b) => b
    case Int(i) => i != 0
    case Float(r) => r != 0.0
    case Str(s) => |s| != 0
    case List(l) => |l| != 0
    case Obj(m) => |m| != 0
  }

  /** Python's `a or b`. */
  function Or(a: Value, b: Value): Value {
    if Truthy(a) then a else b
  }

  /** `d.get(k)`: None when the key is absent. */
  function Get(d: Dict, k: string): Value {
    if k in d then d[k] else Null
  }

  /** `d.get(k, default)`. */
  function GetOr(d: Dict, k: string, default: Value): Value {
    if k in d then d[k] else default
  }

  /** `v.get(...)` is only defined on a dict; anything else raises AttributeError. */
  function AsDict(v: Value): Result<Dict> {
    if v.Obj? then Ok(v.fields) else Err(AttributeError)
  }

  /** `f'{v}'` for the kinds whose printed form the integration can meet in its
      f-strings; None for floats, lists and dicts, whose printed form is not modelled. */
  function Show(v: Value): Option<string> {
    match v
    case Null => Some("None")
    case Bool(b) => Some(if b then "True" else "False")
    case Int(i) => Some(Text.IntToString(i))
    case Str(s) => Some(s)
    case _ => None
  }

  /** `float(v)`; None stands for the TypeError or ValueError it raises. */
  function ToFloat(v: Value): Option<real> {
    match v
    case Bool(b) => Some(if b then 1.0 else 0.0)
    case Int(i) => Some(i as real)
    case Float(r) => Some(r)
    case Str(s) => Text.ParseFloat(s)
    case _ => None
  }

  /** Truncation toward zero, as `int(x)` does for a float. */
  function Truncate(r: real): int {
    if r >= 0.0 then r.Floor else -((-r).Floor)
  }

  /** `int(v)`; None stands for the TypeError or ValueError it raises. */
  function ToInt(v: Value): Option<int> {
    match v
    case Bool(b) => Some(if b then 1 else 0)
    case Int(i) => Some(i)
    case Float(r) => Some(Truncate(r))
    case Str(s) => Text.ParseInt(s)
    case _ => None
  }

  /** `float(v)` where the exception escapes: a str that is not a number raises
      ValueError, None, a list or a dict raises TypeError. */
  function FloatOf(v: Value): (r: Result<real>)
    ensures r.Ok? <==> ToFloat(v).Some?
    ensures r.Ok? ==> r.value == ToFloat(v).value
    ensures r.Err? ==> r.error == (if v.Str? then ValueError else TypeError)
  {
    match ToFloat(v)
    case Some(x) => Ok(x)
    case None => Err(if v.Str? then ValueError else TypeError)
  }

  /** `int(v)` where the exception escapes, with the same two kinds as `FloatOf`. */
  function IntOf(v: Value): (r: Result<int>)
    ensures r.Ok? <==> ToInt(v).Some?
    ensures r.Ok? ==> r.value == ToInt(v).value
    ensures r.Err? ==> r.error == (if v.Str? then ValueError else TypeError)
  {
    match ToInt(v)
    case Some(x) => Ok(x)
    case None => Err(if v.Str? then ValueError else TypeError)
  }

  /** The elements a `for` loop visits when each element is then used as a dict:
      a list gives its items; an empty str or dict gives nothing; a non-empty str or dict
      gives str elements, whose `.get` raises AttributeError; other kinds are not
      iterable (TypeError). */
  function Records(v: Value): Result<seq<Value>> {
    match v
    case List(l) => Ok(l)
    case Str(s) => if s == [] then Ok([]) else Err(AttributeError)
    case Obj(m) => if m == map[] then Ok([]) else Err(AttributeError)
    case _ => Err(TypeError)
  }

  lemma ShowInt(i: int)
    ensures Show(Int(i)).Some? && Text.ParseInt(Show(Int(i)).value) == Some(i)
  {
    Text.ParseIntOfString(i);
  }

  /** `float(str(i))` is the value of `i` and `int(float(i))` gives `i` back. */
  lemma {:induction false} IntThroughFloat(i: int)
    ensures ToFloat(Str(Text.IntToString(i))) == Some(i as real)
    ensures ToInt(Float(i as real)) == Some(i)
  {
    Text.ParseFloatOfString(i);
    if i < 0 {
      assert (-(i as real)).Floor == -i;
    }
  }
}
