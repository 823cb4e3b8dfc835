/**
 * The values both scripts handle after `r.json()`: decoded JSON, the
 * exceptions the scripts let happen, and the handful of Python operations
 * they apply to decoded values (`v[key]`, `v.get(key, default)`, `for x in v`).
 */
module Values {

  datatype Option<+T> = None | Some(value: T)

  /** The exceptions a step can raise; each one ends the step it occurs in. */
  datatype Raised =
    | RequestFailed           // the HTTP client raised: connection refused, timeout, ...
    | HttpError(code: int)    // raise_for_status() on a 4xx or 5xx response
    | NotJson                 // r.json() on a body that does not decode
    | KeyMissing(key: string) // d[key] on a dict without that key
    | WrongType               // TypeError or AttributeError: the value has the wrong kind
    | IndexMissing            // v[0] on an empty list or string (IndexError) or on a dict (KeyError)
    | CannotOpen              // open(path, "rb") failed

  datatype Result<+T> = Ok(value: T) | Err(error: Raised)

  /** A decoded JSON value. An object keeps its members in document order. */
  datatype Json =
    | Null
    | Bool(b: bool)
    | Num(n: int)
    | Str(s: string)
    | Arr(items: seq<Json>)
    | Obj(fields: seq<(string, Json)>)

  /**
   * The value stored under `key`. `json.loads` keeps the last of several
   * members with the same key, so the search runs from the last member.
   */
  function Lookup(fields: seq<(string, Json)>, key: string): (r: Option<Json>)
    ensures r.Some? <==> exists i :: 0 <= i < |fields| && fields[i].0 == key
    ensures r.Some? ==> (key, r.value) in fields
  {
    if fields == [] then None
    else
      var init := fields[..|fields| - 1];
      assert forall i :: 0 <= i < |init| ==> init[i] == fields[i];
      if fields[|fields| - 1].0 == key then Some(fields[|fields| - 1].1)
      else Lookup(init, key)
  }

  /** The member found is the last one with the key. */
  lemma {:induction false} LookupFindsLast(fields: seq<(string, Json)>, key: string, i: nat)
    requires i < |fields| && fields[i].0 == key
    requires forall j :: i < j < |fields| ==> fields[j].0 != key
    ensures Lookup(fields, key) == Some(fields[i].1)
  {
    if i < |fields| - 1 {
      var init := fields[..|fields| - 1];
      LookupFindsLast(init, key, i);
    }
  }

  /** `v[key]`: only a dict can be subscripted by a string, and the key must be there. */
  function Subscript(v: Json, key: string): (r: Result<Json>)
    ensures r.Ok? <==> v.Obj? && Lookup(v.fields, key).Some?
    ensures r.Ok? ==> (key, r.value) in v.fields
    ensures v.Obj? && r.Err? ==> r.error == KeyMissing(key)
    ensures !v.Obj? ==> r == Err(WrongType)
  {
    if v.Obj? then
      match Lookup(v.fields, key)
      case Some(x) => Ok(x)
      case None => Err(KeyMissing(key))
    else Err(WrongType)
  }

  /** `v.get(key, default)`: only a dict has `.get`; a missing key gives the default. */
  function DictGet(v: Json, key: string, default: Json): (r: Result<Json>)
    ensures r.Ok? <==> v.Obj?
    ensures !v.Obj? ==> r == Err(WrongType)
    ensures v.Obj? && Lookup(v.fields, key).None? ==> r == Ok(default)
    ensures v.Obj? && Lookup(v.fields, key).Some? ==> r == Ok(Lookup(v.fields, key).value)
  {
    if v.Obj? then
      match Lookup(v.fields, key)
      case Some(x) => Ok(x)
      case None => Ok(default)
    else Err(WrongType)
  }

  /** `os.environ.get(name, default)`, given the variable's value (None when unset). */
  function EnvGet(env: Option<string>, default: string): (r: string)
    ensures env.Some? ==> r == env.value
    ensures env.None? ==> r == default
  {
    if env.Some? then env.value else default
  }

  /** `v[0]`: the first item of a list or the first character of a string. */
  function First(v: Json): (r: Result<Json>)
    ensures v.Arr? && v.items != [] ==> r == Ok(v.items[0])
    ensures v.Str? && v.s != [] ==> r == Ok(Str([v.s[0]]))
    ensures r.Err? <==> !(v.Arr? && v.items != []) && !(v.Str? && v.s != [])
  {
    match v
    case Arr(items) => if items == [] then Err(IndexMissing) else Ok(items[0])
    case Str(s) => if s == [] then Err(IndexMissing) else Ok(Str([s[0]]))
    case Obj(_) => Err(IndexMissing)
    case _ => Err(WrongType)
  }

  /** `for x in v`: a list yields its items, a dict its keys, a string its characters. */
  function Iterate(v: Json): (r: Result<seq<Json>>)
    ensures r.Ok? <==> v.Arr? || v.Obj? || v.Str?
    ensures v.Arr? ==> r == Ok(v.items)
    ensures v.Obj? ==> |r.value| == |v.fields| && forall i :: 0 <= i < |v.fields| ==> r.value[i] == Str(v.fields[i].0)
  {
    match v
    case Arr(items) => Ok(items)
    case Obj(fields) => Ok(seq(|fields|, i requires 0 <= i < |fields| => Str(fields[i].0)))
    case Str(s) => Ok(seq(|s|, i requires 0 <= i < |s| => Str([s[i]])))
    case _ => Err(WrongType)
  }
}
