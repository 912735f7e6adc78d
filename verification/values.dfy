/** The JSON-like values that flow through both harvesters, with the parts of
    Python's object model the harvesters rely on: truthiness, `type()`,
    `isinstance` and `str()`. */
module Values {
  import opened Wrappers
  import Strings

  /** A decoded YAML/JSON value as the harvesters see it. */
  datatype Value =
    | Null
    | Bool(b: bool)
    | Int(i: int)
    | Float(r: real)
    | Str(s: string)
    | List(items: seq<Value>)
    | Dict(fields: map<string, Value>)

  /** The working record every extraction step maps to the next one. */
  type Body = map<string, Value>

  /** The exact Python type of a value, as `type(v)` reports it. */
  datatype PyType = NoneType | BoolType | IntType | FloatType | StrType | ListType | DictType

  function TypeOf(v: Value): PyType {
    match v
    case Null => NoneType
    case Bool(_) => BoolType
    case Int(_) => IntType
    case Float(_) => FloatType
    case Str(_) => StrType
    case List(_) => ListType
    case Dict(_) => DictType
  }

  /** `isinstance(v, t)`: exact type, except that `bool` is a subclass of `int`. */
  predicate IsInstance(v: Value, t: PyType) {
    TypeOf(v) == t || (TypeOf(v) == BoolType && t == IntType)
  }

  /** Python truthiness: None, False, 0, 0.0 and empty strings, lists and dicts are false. */
  predicate Truthy(v: Value) {
    match v
    case Null => false
    case Bool(b) => b
    case Int(i) => i != 0
    case Float(r) => r != 0.0
    case Str(s) => s != ""
    case List(xs) => xs != []
    case Dict(m) => m != map[]
  }

  /** `d.get(k)`: the value at `k`, or None. */
  function Get(d: Body, k: string): Value {
    if k in d then d[k] else Null
  }

  /** A Python exception, with the detail the harvesters' messages carry. */
  datatype Error =
    | KeyError(key: string)
    | IndexError
    | TypeError(reason: string)
    | TypeMismatch(original: PyType, incoming: PyType)
    | ValueError(reason: string)
    | AttributeError(name: string)
    | NameError(name: string)
    | AssertionError
    | RecursionError
    | FileNotFound(path: string)
    | MergeConflict(failures: map<string, Error>)

  type Outcome<T> = Result<T, Error>

  /** Which reading of a code path with a defect is meant: the code as it
      stands, or the code as it evidently intends. */
  datatype Variant = AsWritten | Corrected

  /** The library calls the harvesters make but whose internals are not modelled.
      Each is a deterministic function; a partial one returns None where the
      library raises. */
  datatype Foreign = Foreign(
    toFloat: Value -> Option<real>,                           // float(v) of a scalar; None = ValueError
    render: Value -> string,                                  // str(v) for floats, lists and dicts
    md5: string -> string,                                    // hashlib.md5(s.encode()).hexdigest()
    strptime: (string, string) -> Option<string>,             // datetime.strptime(s, fmt).isoformat()
    parseDate: string -> Option<string>,                      // dateutil.parser.parse(s).isoformat()
    search: (string, string) -> bool,                         // re.search(regex, s) is not None
    matchGroups: (string, string) -> Option<map<string, Value>> // re.match(regex, s).groupdict()
  )

  /** `str(v)`. */
  function PyStr(v: Value, fx: Foreign): string {
    match v
    case Null => "None"
    case Bool(b) => if b then "True" else "False"
    case Int(i) => Strings.IntToStr(i)
    case Str(s) => s
    case _ => fx.render(v)
  }

  /** Python can use a value as a dict key unless it is a list or a dict. */
  predicate Hashable(v: Value) {
    !v.List? && !v.Dict?
  }

  /** `float(v)`: None, a list or a dict is not a number or a string, which
      is a TypeError; anything else converts as `toFloat` says, and a string
      it cannot read is a ValueError. */
  function PyFloat(v: Value, fx: Foreign): (r: Outcome<Value>)
    ensures v.Null? || v.List? || v.Dict? ==> r.Err? && r.error.TypeError?
    ensures !(v.Null? || v.List? || v.Dict?) ==>
      (r.Ok? <==> fx.toFloat(v).Some?)
      && (r.Ok? ==> r.value == Float(fx.toFloat(v).value))
      && (r.Err? ==> r.error.ValueError?)
  {
    if v.Null? || v.List? || v.Dict? then Err(TypeError("float() argument must be a string or a real number"))
    else
      match fx.toFloat(v)
      case Some(x) => Ok(Float(x))
      case None => Err(ValueError("could not convert to float"))
  }

  /** `v[i]` for an index `i >= 0`: a list's element or a string's
      character, with IndexError past the end; a dict's keys are strings, so
      the int key is missing; every other value is not subscriptable. */
  function Index(v: Value, i: nat): (r: Outcome<Value>)
    ensures v.List? ==> (r.Ok? <==> i < |v.items|) && (r.Ok? ==> r.value == v.items[i])
    ensures v.Str? ==> (r.Ok? <==> i < |v.s|) && (r.Ok? ==> r.value == Str([v.s[i]]))
    ensures (v.List? || v.Str?) && r.Err? ==> r.error == IndexError
    ensures v.Dict? ==> r == Err(KeyError(Strings.IntToStr(i)))
    ensures !(v.List? || v.Str? || v.Dict?) ==> r.Err? && r.error.TypeError?
  {
    match v
    case List(xs) => if i < |xs| then Ok(xs[i]) else Err(IndexError)
    case Str(s) => if i < |s| then Ok(Str([s[i]])) else Err(IndexError)
    case Dict(_) => Err(KeyError(Strings.IntToStr(i)))
    case _ => Err(TypeError("object is not subscriptable"))
  }

  /** What `for x in v` visits: a list's elements, a string's characters or
      a dict's keys; every other value is not iterable. */
  function Items(v: Value): (r: Outcome<seq<Value>>)
    ensures v.List? ==> r == Ok(v.items)
    ensures v.Str? ==> r.Ok? && |r.value| == |v.s| && forall i :: 0 <= i < |v.s| ==> r.value[i] == Str([v.s[i]])
    ensures v.Dict? ==> r == Ok(KeyValues(v.fields))
    ensures !(v.List? || v.Str? || v.Dict?) ==> r.Err? && r.error.TypeError?
  {
    match v
    case List(xs) => Ok(xs)
    case Str(s) => Ok(seq(|s|, i requires 0 <= i < |s| => Str([s[i]])))
    case Dict(d) => Ok(KeyValues(d))
    case _ => Err(TypeError("object is not iterable"))
  }

  /** True when `order` lists every key of `d` exactly once: the dict's iteration order. */
  ghost predicate Enumerates(order: seq<string>, d: Body) {
    (forall i, j :: 0 <= i < j < |order| ==> order[i] != order[j])
    && (forall k :: k in d <==> k in order)
  }

  /** The keys of a dict as `str` values, each once: what a `for` loop over
      the dict visits. They come in ascending order; Python visits them in
      insertion order. */
  function KeyValues(d: Body): (r: seq<Value>)
    ensures |r| == |d.Keys|
    ensures forall i :: 0 <= i < |r| ==> r[i].Str? && r[i].s in d
    ensures forall k :: k in d ==> Str(k) in r
    ensures forall i, j :: 0 <= i < j < |r| ==> r[i] != r[j]
  {
    var ks := Strings.Sorted(d.Keys);
    var r := seq(|ks|, i requires 0 <= i < |ks| => Str(ks[i]));
    assert forall k :: k in d ==> Str(k) in r by {
      forall k | k in d ensures Str(k) in r {
        var i :| 0 <= i < |ks| && ks[i] == k;
        assert r[i] == Str(k);
      }
    }
    r
  }
}
