/** Decoded JSON values, as Python's `json` module hands them to the program. */
module Json {

  /** `null`, `true`/`false`, integers, floating-point numbers (kept as reals), strings,
      arrays and objects. An object is a Python `dict` with string keys. */
  datatype Json =
    | JNull
    | JBool(b: bool)
    | JInt(i: int)
    | JFloat(f: real)
    | JString(s: string)
    | JArray(items: seq<Json>)
    | JObject(fields: map<string, Json>)

  type Object = map<string, Json>

  /** The Python classes a decoded JSON value can be an instance of. */
  datatype PyType = NoneType | Bool | Int | Float | Str | List | Dict

  /** `type(v)`: the exact class of the decoded value. */
  function TypeOf(v: Json): PyType {
    match v
    case JNull => NoneType
    case JBool(_) => Bool
    case JInt(_) => Int
    case JFloat(_) => Float
    case JString(_) => Str
    case JArray(_) => List
    case JObject(_) => Dict
  }

  /** `isinstance(v, t)`: the class of `v` is `t` or a subclass of it. The only subclass
      relation among these classes is `bool` < `int`, so a JSON boolean is an `int`. */
  predicate IsInstance(v: Json, t: PyType) {
    TypeOf(v) == t || (t == Int && v.JBool?)
  }
}

/** The exceptions the modelled code raises, one constructor per distinct cause. */
module Errors {

  datatype Error =
    /** `KeyError`: a required key is absent. */
    | MissingKey(key: string)
    /** `TypeError`: the value under `key` is not an instance of the expected type(s). */
    | WrongType(key: string)
    /** `TypeError` re-raised from `InvalidSpecifier`: `raw` is not a specifier set. */
    | InvalidSpecifierSet(raw: string)
    /** `ValueError` raised by the enum lookup `ReleaseStream(raw)`. */
    | UnknownReleaseStream(raw: string)
    /** `TypeError`: an element of the release array is not an object, so it cannot be indexed by key. */
    | NotAnObject
    /** `ValueError`: no release passes the stream and host-version filters. */
    | NoMatchingRelease
    /** Whatever the target module's own version parser raises on the synthesised version line. */
    | VersionOutputRejected
    /** `IndexError`: `java_versions[-1]` on an empty tuple. */
    | EmptyJavaVersions
    /** `ValueError` from `sys.meta_path.index(self)`: the finder is not registered. */
    | FinderNotRegistered
    /** An exception raised by the host's module lookup or by a host loader, propagated unchanged. */
    | HostError(code: nat)
    /** `TypeError`: the spec's `loader_state` is not the pair the interception finder stores. */
    | LoaderStateNotPair
    /** `AttributeError`: the real spec has no loader (`None`). */
    | NoLoader

  /** The name of the Python exception class each error stands for. */
  function ExceptionClass(e: Error): string {
    match e
    case MissingKey(_) => "KeyError"
    case WrongType(_) => "TypeError"
    case InvalidSpecifierSet(_) => "TypeError"
    case UnknownReleaseStream(_) => "ValueError"
    case NotAnObject => "TypeError"
    case NoMatchingRelease => "ValueError"
    case VersionOutputRejected => "Exception"
    case EmptyJavaVersions => "IndexError"
    case FinderNotRegistered => "ValueError"
    case HostError(_) => "Exception"
    case LoaderStateNotPair => "TypeError"
    case NoLoader => "AttributeError"
  }
}
