/**
  The JSON values the mapping layer receives, as Python's json decoder produces them
  (None, bool, number, str, list, dict), and the Python operations that the
  constructors in upbankapi/models.py apply to them: subscripting, truthiness,
  `dict.get`, `x or {}`, iterating in a list comprehension, `str()` in an f-string,
  and the three library parsers `datetime.fromisoformat`, `float` and `json.loads`.
*/
module PyJson {
  import opened Wrappers

  /** A decoded JSON value. `JNull` is Python's None; JSON integers and floats are both `JNumber`. */
  datatype Json =
    | JNull
    | JBool(b: bool)
    | JNumber(n: real)
    | JString(s: string)
    | JArray(items: seq<Json>)
    | JObject(fields: map<string, Json>)

  /** The exceptions the constructors can raise. */
  datatype Error =
    | KeyError(key: string)  // a dict lacks the subscripted key
    | TypeError              // subscripting a non-dict, iterating a non-iterable, parsing a value of the wrong kind
    | AttributeError         // `.get` called on something that is not a dict
    | ValueError             // a string that fromisoformat, float or json.loads rejects

  predicate HasKey(j: Json, key: string) {
    j.JObject? && key in j.fields
  }

  /** The value reached by following the dict keys of `path` from `j`, if every step is a dict holding that key. */
  function Dig(j: Json, path: seq<string>): Option<Json>
    decreases |path|
  {
    if path == [] then Some(j)
    else if HasKey(j, path[0]) then Dig(j.fields[path[0]], path[1..])
    else None
  }

  /** A one-key path is a single dict lookup. */
  lemma DigKey(j: Json, key: string)
    ensures Dig(j, [key]) == if HasKey(j, key) then Some(j.fields[key]) else None
  {
    assert [key][1..] == [];
  }

  /** `j[key]` for a string key. */
  function Subscript(j: Json, key: string): Result<Json, Error> {
    match j
    case JObject(m) => if key in m then Ok(m[key]) else Err(KeyError(key))
    case _ => Err(TypeError)
  }

  /** Python truthiness: None, False, zero and empty containers are false. */
  predicate Truthy(j: Json) {
    match j
    case JNull => false
    case JBool(b) => b
    case JNumber(n) => n != 0.0
    case JString(s) => s != ""
    case JArray(xs) => xs != []
    case JObject(m) => m != map[]
  }

  /** `j.get(key)`: the value at `key`, or None when it is missing. */
  function DictGet(j: Json, key: string): Result<Json, Error> {
    match j
    case JObject(m) => Ok(if key in m then m[key] else JNull)
    case _ => Err(AttributeError)
  }

  /** `x or y`: `x` when it is truthy, otherwise `y`. */
  function Or(x: Json, y: Json): Json {
    if Truthy(x) then x else y
  }

  /** `[e[key] for e in xs]` over a list: the first element that cannot be subscripted raises. */
  function SubscriptAll(xs: seq<Json>, key: string): (r: Result<seq<Json>, Error>)
    ensures r.Ok? <==> forall i :: 0 <= i < |xs| ==> HasKey(xs[i], key)
    ensures r.Ok? ==> |r.value| == |xs|
    ensures r.Ok? ==> forall i :: 0 <= i < |xs| ==> Dig(xs[i], [key]) == Some(r.value[i])
    ensures r.Err? ==> exists i :: 0 <= i < |xs| && Subscript(xs[i], key) == Err(r.error)
                                   && forall k :: 0 <= k < i ==> HasKey(xs[k], key)
  {
    if xs == [] then Ok([])
    else
      var head :- Subscript(xs[0], key);
      var rest :- SubscriptAll(xs[1..], key);
      Ok([head] + rest)
  }

  /**
    `[e[key] for e in j]` for any value `j`. Iterating a str yields str characters and
    iterating a dict yields its str keys; subscripting a str with a str key raises
    TypeError, so a non-empty str or dict fails at its first element and an empty one
    gives the empty list. None, bools and numbers are not iterable.
  */
  function SubscriptEach(j: Json, key: string): Result<seq<Json>, Error> {
    match j
    case JArray(xs) => SubscriptAll(xs, key)
    case JString(s) => if s == "" then Ok([]) else Err(TypeError)
    case JObject(m) => if m == map[] then Ok([]) else Err(TypeError)
    case _ => Err(TypeError)
  }

  /**
    The behaviour of library code the model does not reimplement, given as parameters:
    which strings `datetime.fromisoformat` and `float` accept, what `json.loads` decodes
    a string to (None when it raises), and the text `str()` gives for a number, list or dict.
  */
  datatype Runtime = Runtime(
    acceptsIsoFormat: string -> bool,
    acceptsFloat: string -> bool,
    loads: string -> Option<Json>,
    strOf: Json -> string)

  /** The datetime `datetime.fromisoformat(iso)` returns; the model keeps the accepted text. */
  datatype Instant = Instant(iso: string)

  /** The float `float(source)` returns; the model keeps the value it was computed from. */
  datatype Float = Float(source: Json)

  /** `datetime.fromisoformat(j)`. */
  function FromIsoFormat(rt: Runtime, j: Json): Result<Instant, Error> {
    match j
    case JString(s) => if rt.acceptsIsoFormat(s) then Ok(Instant(s)) else Err(ValueError)
    case _ => Err(TypeError)
  }

  /** The values `float` converts: numbers, bools and the strings it accepts. */
  predicate FloatConvertible(rt: Runtime, j: Json) {
    j.JNumber? || j.JBool? || (j.JString? && rt.acceptsFloat(j.s))
  }

  /** `float(j)`: a numeric string, a number or a bool converts; None, lists and dicts raise TypeError. */
  function ToFloat(rt: Runtime, j: Json): Result<Float, Error> {
    match j
    case JString(s) => if rt.acceptsFloat(s) then Ok(Float(j)) else Err(ValueError)
    case JNumber(_) => Ok(Float(j))
    case JBool(_) => Ok(Float(j))
    case _ => Err(TypeError)
  }

  /** `json.loads(j)`: only a str is accepted, and a str that is not JSON raises. */
  function Loads(rt: Runtime, j: Json): Result<Json, Error> {
    match j
    case JString(s) =>
      (match rt.loads(s)
       case Some(doc) => Ok(doc)
       case None => Err(ValueError))
    case _ => Err(TypeError)
  }

  /** `str(j)`, as an f-string interpolates it: a str is itself; None and bools have fixed names. */
  function Str(rt: Runtime, j: Json): string {
    match j
    case JString(s) => s
    case JNull => "None"
    case JBool(b) => if b then "True" else "False"
    case _ => rt.strOf(j)
  }
}
