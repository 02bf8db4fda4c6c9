/** `_get_and_validate_key`: fetching a key of a JSON object and checking its runtime type
    against a type expression. */
module Validation {
  import opened Wrappers
  import opened Json
  import opened Errors

  /** The type expressions the function is given:
      - `AnyType` is `typing.Any`;
      - `Plain(c)` is a class such as `str`, whose `__origin__` is itself;
      - `UnionOf(cs)` is `typing.Union` of the classes `cs`;
      - `Generic(origin, args)` is a subscripted generic such as `List[int]` or
        `Dict[str, Any]`. From Python 3.7 on its `__origin__` is the builtin class (`list`,
        `dict`), never the `typing` alias, which is why the check reads only `origin`. */
  datatype TypeExpr =
    | AnyType
    | Plain(cls: PyType)
    | UnionOf(members: set<PyType>)
    | Generic(origin: PyType, args: seq<TypeExpr>)

  /** The tuple `types` the function checks against: the members of a union, otherwise the
      one-element tuple of the expression's origin. */
  function CheckedTypes(e: TypeExpr): set<PyType> {
    match e
    case AnyType => {}
    case Plain(c) => {c}
    case UnionOf(cs) => cs
    case Generic(origin, _) => {origin}
  }

  /** `isinstance(v, tuple(ts))`. */
  predicate InstanceOfAny(v: Json, ts: set<PyType>) {
    TypeOf(v) in ts || (v.JBool? && PyType.Int in ts)
  }

  /** Checking against a tuple of types is checking against one of its members. */
  lemma InstanceOfAnyIsSomeInstance(v: Json, ts: set<PyType>)
    ensures InstanceOfAny(v, ts) <==> exists t :: t in ts && IsInstance(v, t)
  {
    if InstanceOfAny(v, ts) {
      if TypeOf(v) in ts {
        assert IsInstance(v, TypeOf(v));
      } else {
        assert IsInstance(v, PyType.Int);
      }
    }
  }

  /** The values the function returns for a type expression. */
  predicate Conforms(v: Json, e: TypeExpr) {
    e.AnyType? || InstanceOfAny(v, CheckedTypes(e))
  }

  /** `_get_and_validate_key(data, key, e)`. The item check under `if origin is List` compares
      the origin with the `typing.List` alias, which no origin is, so it never runs and is not
      part of the function here. */
  function GetAndValidateKey(data: Object, key: string, e: TypeExpr): (r: Result<Json, Error>)
    ensures r == Failure(MissingKey(key)) <==> key !in data
    ensures r.Success? <==> key in data && Conforms(data[key], e)
    ensures r.Success? ==> r.value == data[key]
    ensures r.Failure? ==> r.error == (if key in data then WrongType(key) else MissingKey(key))
  {
    if key !in data then Failure(MissingKey(key))
    else
      var value := data[key];
      if e.AnyType? then Success(value)
      else if InstanceOfAny(value, CheckedTypes(e)) then Success(value)
      else Failure(WrongType(key))
  }

  /** The type expressions the release parser uses: `str`, `List[int]`, `Dict[str, Any]`. */
  const StrType: TypeExpr := Plain(Str)
  const IntListType: TypeExpr := Generic(List, [Plain(PyType.Int)])
  const DictType: TypeExpr := Generic(Dict, [Plain(Str), AnyType])

  /** A value passes the `str` check exactly when it is a JSON string. */
  lemma StrTypeIsString(v: Json)
    ensures Conforms(v, StrType) <==> v.JString?
  {
    if v.JString? {
      assert IsInstance(v, Str);
    }
  }

  /** `Any` accepts every value that is present. */
  lemma AnyAcceptsEverything(data: Object, key: string)
    requires key in data
    ensures GetAndValidateKey(data, key, AnyType) == Success(data[key])
  {
  }

  /** A subscripted generic is checked on its origin alone: `List[int]` accepts every list,
      whatever its items, and nothing else. */
  lemma GenericChecksOriginOnly(v: Json, origin: PyType, args: seq<TypeExpr>)
    requires origin != PyType.Int
    ensures Conforms(v, Generic(origin, args)) <==> TypeOf(v) == origin
  {
  }

  /** Every list passes the `List[int]` check, a list of strings included. */
  lemma ListItemsNotChecked(items: seq<Json>)
    ensures Conforms(JArray(items), IntListType)
  {
  }

  /** JSON booleans pass an `int` check, as `isinstance(True, int)` holds in Python. */
  lemma BooleansAreInts(b: bool)
    ensures Conforms(JBool(b), Plain(PyType.Int))
    ensures Conforms(JBool(b), UnionOf({PyType.Int, Str}))
  {
    assert IsInstance(JBool(b), PyType.Int);
  }
}
