/** Parsed JSON values as the Python library sees them after json.loads, the
    Python exceptions the library can raise, and the few built-in operations
    (isinstance, dict.get, subscription) whose behaviour it depends on. */
module Values {

  /** A parsed JSON value. An object keeps its members in insertion order,
      like a Python dict; JSON integers and JSON floats stay distinct, as
      json.loads makes them int and float. */
  datatype Json =
    | JNull
    | JBool(b: bool)
    | JInt(i: int)
    | JFloat(f: real)
    | JStr(s: string)
    | JArr(items: seq<Json>)
    | JObj(fields: seq<(string, Json)>)

  /** The exceptions the library raises or lets escape. RpcError carries the
      fields of the library's own RpcError dataclass; its code is kept as the
      checked JSON value, which may be a JSON boolean. */
  datatype Exc =
    | TypeError
    | KeyError(key: string)
    | AttributeError
    | AssertionError
    | StopIteration
    | RpcError(code: Json, message: string, data: Json)

  datatype Option<+T> = None | Some(value: T)

  /** Either a value or the exception that was raised instead. */
  datatype Result<+T> = Ok(value: T) | Err(exc: Exc) {
    predicate IsFailure() {
      Err?
    }

    function PropagateFailure<U>(): Result<U>
      requires Err?
    {
      Err(exc)
    }

    function Extract(): T
      requires Ok?
    {
      value
    }
  }

  /** The Python classes the library passes to isinstance. */
  datatype PyClass = Int | Float | Str | List | Dict

  /** isinstance(v, cls) on a value produced by json.loads. A JSON boolean
      is a Python bool, and bool is a subclass of int; a JSON integer is not
      a float. */
  predicate IsInstance(cls: PyClass, v: Json)
    ensures IsInstance(cls, v) ==> !v.JNull?
    ensures v.JBool? || v.JInt? ==> (IsInstance(cls, v) <==> cls == Int)
  {
    match cls
    case Int => v.JInt? || v.JBool?
    case Float => v.JFloat?
    case Str => v.JStr?
    case List => v.JArr?
    case Dict => v.JObj?
  }

  /** The value a dict built by json.loads holds under `key`: when the text
      repeats a key the last binding wins, so the search runs from the end. */
  function Lookup(fields: seq<(string, Json)>, key: string): Option<Json>
    decreases |fields|
  {
    if fields == [] then None
    else if fields[|fields| - 1].0 == key then Some(fields[|fields| - 1].1)
    else Lookup(fields[..|fields| - 1], key)
  }

  /** Lookup finds nothing exactly when no member has the key, and otherwise
      finds the value of the last member that has it. */
  lemma {:induction false} LookupLast(fields: seq<(string, Json)>, key: string)
    ensures Lookup(fields, key).None? <==> forall i :: 0 <= i < |fields| ==> fields[i].0 != key
    ensures Lookup(fields, key).Some? ==>
      exists i :: 0 <= i < |fields| && fields[i] == (key, Lookup(fields, key).value) &&
        forall j :: i < j < |fields| ==> fields[j].0 != key
    decreases |fields|
  {
    if fields != [] && fields[|fields| - 1].0 != key {
      var n := |fields| - 1;
      LookupLast(fields[..n], key);
      assert forall i :: 0 <= i < n ==> fields[..n][i] == fields[i];
      if Lookup(fields, key).Some? {
        var i :| 0 <= i < n && fields[..n][i] == (key, Lookup(fields, key).value) &&
          forall j :: i < j < n ==> fields[..n][j].0 != key;
        assert fields[i] == (key, Lookup(fields, key).value);
      }
    }
  }

  /** dict.get(key): the bound value, or None (JSON null) when the key is absent. */
  function Get(fields: seq<(string, Json)>, key: string): (r: Json)
    ensures Lookup(fields, key).None? ==> r == JNull
    ensures Lookup(fields, key).Some? ==> r == Lookup(fields, key).value
  {
    match Lookup(fields, key)
    case None => JNull
    case Some(v) => v
  }

  /** v[key] with a string key: a value that is not a dict raises TypeError,
      a dict without the key raises KeyError. */
  function Subscript(v: Json, key: string): (r: Result<Json>)
    ensures r.Ok? <==> v.JObj? && Lookup(v.fields, key).Some?
    ensures r.Ok? ==> r.value == Lookup(v.fields, key).value
    ensures !v.JObj? ==> r == Err(TypeError)
    ensures v.JObj? && Lookup(v.fields, key).None? ==> r == Err(KeyError(key))
  {
    if !v.JObj? then Err(TypeError)
    else match Lookup(v.fields, key)
      case None => Err(KeyError(key))
      case Some(x) => Ok(x)
  }

  /** In an object whose keys are distinct (every dict literal the library
      builds), looking up the i-th key finds the i-th value. */
  lemma {:induction false} LookupDistinct(fields: seq<(string, Json)>, i: nat)
    requires i < |fields|
    requires forall j :: 0 <= j < |fields| && j != i ==> fields[j].0 != fields[i].0
    ensures Lookup(fields, fields[i].0) == Some(fields[i].1)
  {
    if i < |fields| - 1 {
      LookupDistinct(fields[..|fields| - 1], i);
    }
  }
}
