/** An abstract JSON value, as Python's json module decodes it. Objects are association
    lists in document order with distinct keys, as a Python dict built by the decoder holds them. */
module JsonValue {
  import opened Wrappers

  datatype Json =
    | JNull
    | JBool(b: bool)
    | JNum(n: real)
    | JStr(s: string)
    | JArr(items: seq<Json>)
    | JObj(fields: seq<(string, Json)>)

  /** The keys of an association list, in order. */
  function Keys<V>(fields: seq<(string, V)>): (r: seq<string>)
    ensures |r| == |fields| && forall i :: 0 <= i < |fields| ==> r[i] == fields[i].0
  {
    seq(|fields|, i requires 0 <= i < |fields| => fields[i].0)
  }

  /** `d.get(key)`: the value stored under `key`, if any. */
  function Get(fields: seq<(string, Json)>, key: string): (r: Option<Json>)
    ensures r.Some? <==> key in Keys(fields)
    ensures r.Some? ==> exists i :: 0 <= i < |fields| && fields[i] == (key, r.value)
  {
    if |fields| == 0 then None
    else if fields[0].0 == key then Some(fields[0].1)
    else
      var r := Get(fields[1..], key);
      assert Keys(fields) == [fields[0].0] + Keys(fields[1..]);
      r
  }

  /** `d[key] = v`: an existing key keeps its position, a new one is appended. */
  function Put(fields: seq<(string, Json)>, key: string, v: Json): (r: seq<(string, Json)>)
    ensures Get(r, key) == Some(v)
    ensures forall k :: k != key ==> Get(r, k) == Get(fields, k)
  {
    if |fields| == 0 then [(key, v)]
    else if fields[0].0 == key then [(key, v)] + fields[1..]
    else
      var rest := Put(fields[1..], key, v);
      assert forall k :: k != fields[0].0 ==> Get([fields[0]] + rest, k) == Get(rest, k);
      [fields[0]] + rest
  }

  /** `d.get(key, default)`. */
  function GetOr(fields: seq<(string, Json)>, key: string, default: Json): Json {
    Get(fields, key).GetOr(default)
  }

  /** Python's truth value of a decoded JSON value (`bool(x)`). */
  predicate Truthy(j: Json) {
    match j
    case JNull => false
    case JBool(b) => b
    case JNum(n) => n != 0.0
    case JStr(s) => |s| > 0
    case JArr(items) => |items| > 0
    case JObj(fields) => |fields| > 0
  }

  /** The text `str(x)` gives for a value: a string is itself; for other values `show` stands in for Python's repr. */
  function Str(show: Json -> string, j: Json): string {
    if j.JStr? then j.s else show(j)
  }

  /** Python's `float(x)` for a decoded JSON value; `parse` stands in for reading a float from text. */
  function PyFloat(parse: string -> Option<real>, j: Json): (r: Result<real>)
    ensures j.JNum? ==> r == Ok(j.n)
    ensures j.JBool? ==> r == Ok(if j.b then 1.0 else 0.0)
    ensures j.JStr? ==> (r.Ok? <==> parse(j.s).Some?) && (r.Err? ==> r.error.kind == ValueError)
    ensures (j.JNull? || j.JArr? || j.JObj?) ==> r.Err? && r.error.kind == TypeError
  {
    match j
    case JNum(n) => Ok(n)
    case JBool(b) => Ok(if b then 1.0 else 0.0)
    case JStr(s) =>
      (match parse(s)
       case Some(v) => Ok(v)
       case None => Err(Failure(ValueError, "could not convert string to float: " + s)))
    case _ => Err(Failure(TypeError, "float() argument must be a string or a real number"))
  }
}
