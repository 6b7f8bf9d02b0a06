/** The Python runtime values the weather core manipulates: decoded JSON
    documents, the exceptions the core raises or lets escape, and the
    subscript, truthiness and slicing rules of the dictionaries and lists
    it reads. */
module Values {

  datatype Option<+T> = None | Some(value: T)

  /** Which subscript a `KeyError` reports: a dictionary key, the
      position `0` looked up in a dictionary, or the slice `[:stop]` used
      as a dictionary key. */
  datatype Subscript = Field(name: string) | Position(index: nat) | SliceTo(stop: nat)

  /** The exception classes that can leave the core. */
  datatype Exc =
    | ValueError(msg: string)
    | RuntimeError(msg: string)
    | KeyError(key: Subscript)
    | TypeError(msg: string)

  /** A computation that either returns a value or raises. */
  datatype Result<+T> = Ok(value: T) | Err(error: Exc) {
    predicate IsFailure() {
      Err?
    }

    function PropagateFailure<U>(): Result<U>
      requires Err?
    {
      Err(error)
    }

    function Extract(): T
      requires Ok?
    {
      value
    }
  }

  /** A decoded JSON document, as Python's `json` module produces it. */
  datatype Json =
    | JNull
    | JBool(b: bool)
    | JInt(i: int)
    | JFloat(x: real)
    | JStr(s: string)
    | JArr(items: seq<Json>)
    | JObj(fields: map<string, Json>)

  function Min(a: int, b: int): (m: int)
    ensures m <= a && m <= b && (m == a || m == b)
  {
    if a <= b then a else b
  }

  /** The name Python gives the type of a decoded value. */
  function TypeName(j: Json): string
  {
    match j
    case JNull => "NoneType"
    case JBool(_) => "bool"
    case JInt(_) => "int"
    case JFloat(_) => "float"
    case JStr(_) => "str"
    case JArr(_) => "list"
    case JObj(_) => "dict"
  }

  /** Python truthiness: `None`, `False`, zero and empty containers are false. */
  predicate Truthy(j: Json)
    ensures j == JNull || j == JBool(false) || j == JInt(0) || j == JStr([]) || j == JArr([]) || j == JObj(map[]) ==>
              !Truthy(j)
  {
    match j
    case JNull => false
    case JBool(b) => b
    case JInt(i) => i != 0
    case JFloat(x) => x != 0.0
    case JStr(s) => |s| > 0
    case JArr(xs) => |xs| > 0
    case JObj(m) => |m| > 0
  }

  /** `j[key]` with a string key: a dictionary lookup, a `KeyError` for a
      missing key, a `TypeError` on anything that is not a dictionary. */
  function Index(j: Json, key: string): (r: Result<Json>)
    ensures r.Ok? <==> j.JObj? && key in j.fields
    ensures r.Ok? ==> r.value == j.fields[key]
    ensures j.JObj? && key !in j.fields ==> r == Err(KeyError(Field(key)))
    ensures !j.JObj? ==> r.Err? && r.error.TypeError?
  {
    match j
    case JObj(m) => if key in m then Ok(m[key]) else Err(KeyError(Field(key)))
    case JArr(_) => Err(TypeError("list indices must be integers or slices, not str"))
    case JStr(_) => Err(TypeError("string indices must be integers, not 'str'"))
    case _ => Err(TypeError("'" + TypeName(j) + "' object is not subscriptable"))
  }

  /** Successive string subscripts `j[k0][k1]...`, stopping at the first
      one that raises. */
  function Dig(j: Json, keys: seq<string>): (r: Result<Json>)
    decreases |keys|
  {
    if keys == [] then Ok(j)
    else
      var next :- Index(j, keys[0]);
      Dig(next, keys[1..])
  }

  /** `j[0]` on a value already known to be truthy: the first element of a
      list, the first character of a string, a `KeyError(0)` for a
      dictionary (its keys are strings) and a `TypeError` otherwise. */
  function First(j: Json): (r: Result<Json>)
    requires Truthy(j)
    ensures j.JArr? ==> r == Ok(j.items[0])
    ensures j.JObj? ==> r == Err(KeyError(Position(0)))
  {
    match j
    case JArr(xs) => Ok(xs[0])
    case JStr(s) => Ok(JStr([s[0]]))
    case JObj(_) => Err(KeyError(Position(0)))
    case _ => Err(TypeError("'" + TypeName(j) + "' object is not subscriptable"))
  }

  /** `j[:n]`: the first `min(n, len)` elements of a list or characters of
      a string, in their original order. A dictionary looks the slice up
      as a key (slices are hashable from Python 3.12 on) and raises
      `KeyError`; any other value is not subscriptable. */
  function Take(j: Json, n: nat): (r: Result<Json>)
    ensures r.Ok? <==> j.JArr? || j.JStr?
    ensures j.JArr? ==> r.Ok? && r.value.JArr?
                        && |r.value.items| == Min(n, |j.items|)
                        && forall i :: 0 <= i < |r.value.items| ==> r.value.items[i] == j.items[i]
    ensures j.JStr? ==> r.Ok? && r.value.JStr?
                        && |r.value.s| == Min(n, |j.s|)
                        && forall i :: 0 <= i < |r.value.s| ==> r.value.s[i] == j.s[i]
    ensures j.JObj? ==> r == Err(KeyError(SliceTo(n)))
    ensures !(j.JArr? || j.JStr? || j.JObj?) ==> r.Err? && r.error.TypeError?
  {
    match j
    case JArr(xs) => Ok(JArr(xs[..Min(n, |xs|)]))
    case JStr(s) => Ok(JStr(s[..Min(n, |s|)]))
    case JObj(_) => Err(KeyError(SliceTo(n)))
    case _ => Err(TypeError("'" + TypeName(j) + "' object is not subscriptable"))
  }

  /** A slice of a list never exceeds its bound and keeps the leading
      elements: a list of twenty gives its first thirteen. */
  lemma TakeTwentyGivesThirteen(xs: seq<Json>)
    requires |xs| == 20
    ensures Take(JArr(xs), 13) == Ok(JArr(xs[..13]))
  {
  }
}
