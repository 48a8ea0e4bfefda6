/**
 * Decoded JSON documents as the Python code sees them (dicts, lists, str,
 * numbers, bools, None), the Python exceptions that the lookups on them can
 * raise, and the lookups themselves: `d[k]`, `d.get(k)`, `x[0]` and the
 * truth value used by `x or default` and `if x:`.
 */
module PyJson {

  /** A decoded JSON value. Numbers are carried as reals; nothing in the
      modelled code computes with them. */
  datatype Json =
    | JNull
    | JBool(b: bool)
    | JNum(n: real)
    | JStr(s: string)
    | JArr(items: seq<Json>)
    | JObj(fields: map<string, Json>)

  /** The exception classes the modelled code can raise. */
  datatype Error =
    | KeyError(key: string)   // d[k] on a dict without k
    | IndexError              // x[i] out of range
    | TypeError               // subscripting or iterating a value of the wrong type
    | AttributeError          // .get / .split on a value of the wrong type
    | ValueError              // tuple unpacking with the wrong number of parts
    | NoSuchKey               // the object store has no object at that bucket and key

  datatype Option<+T> = None | Some(value: T)

  datatype Result<+T> = Ok(value: T) | Err(error: Error) {
    predicate IsFailure() { Err? }

    function PropagateFailure<U>(): Result<U>
      requires Err?
    {
      Err(error)
    }

    function Extract(): T
      requires Ok?
    {
      value
    }
  }

  /** `j[key]` for a string key. */
  function Subscript(j: Json, key: string): Result<Json>
  {
    match j
    case JObj(m) => if key in m then Ok(m[key]) else Err(KeyError(key))
    case _ => Err(TypeError)
  }

  /** `j[k0][k1]...`: a chain of string subscripts, failing at the first
      lookup that fails. */
  function Path(j: Json, keys: seq<string>): Result<Json>
  {
    if keys == [] then Ok(j)
    else
      var next :- Subscript(j, keys[0]);
      Path(next, keys[1..])
  }

  /** A one-key path is a single subscript. */
  lemma PathOne(j: Json, key: string)
    ensures Path(j, [key]) == Subscript(j, key)
  {
    assert [key][1..] == [];
  }

  /** A path is its first subscript followed by the rest of the path. */
  lemma PathCons(j: Json, key: string, rest: seq<string>)
    ensures Path(j, [key] + rest)
            == if Subscript(j, key).Ok? then Path(Subscript(j, key).value, rest)
               else Err(Subscript(j, key).error)
  {
    assert ([key] + rest)[1..] == rest;
  }

  /** A two-key path. */
  lemma PathTwo(j: Json, a: string, b: string)
    ensures Path(j, [a, b])
            == if Subscript(j, a).Ok? then Subscript(Subscript(j, a).value, b)
               else Err(Subscript(j, a).error)
  {
    assert [a, b] == [a] + [b];
    PathCons(j, a, [b]);
    if Subscript(j, a).Ok? {
      PathOne(Subscript(j, a).value, b);
    }
  }

  /** A three-key path. */
  lemma PathThree(j: Json, a: string, b: string, c: string)
    ensures Path(j, [a, b, c])
            == if Subscript(j, a).Ok? then Path(Subscript(j, a).value, [b, c])
               else Err(Subscript(j, a).error)
  {
    assert [a, b, c] == [a] + [b, c];
    PathCons(j, a, [b, c]);
  }

  /** `j.get(key)`: None when the key is absent, never a KeyError. */
  function Get(j: Json, key: string): Result<Json>
  {
    match j
    case JObj(m) => Ok(GetOrNull(m, key))
    case _ => Err(AttributeError)
  }

  /** `m.get(key)` on a dict that is known to be one. */
  function GetOrNull(m: map<string, Json>, key: string): Json
  {
    if key in m then m[key] else JNull
  }

  /** `j[0]`. A JSON object has string keys only, so `d[0]` is a KeyError. */
  function Index0(j: Json): Result<Json>
  {
    match j
    case JArr(items) => if items == [] then Err(IndexError) else Ok(items[0])
    case JStr(s) => if s == [] then Err(IndexError) else Ok(JStr([s[0]]))
    case JObj(_) => Err(KeyError("0"))
    case _ => Err(TypeError)
  }

  /** Python truthiness of a decoded JSON value. */
  predicate Truthy(j: Json)
  {
    match j
    case JNull => false
    case JBool(b) => b
    case JNum(n) => n != 0.0
    case JStr(s) => s != []
    case JArr(items) => items != []
    case JObj(m) => m != map[]
  }
}
