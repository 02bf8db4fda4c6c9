/** The parts of Python's import system the interception layer touches: module specs, the
    result of a spec lookup, and the ordered finder list `sys.meta_path`. */
module ImportSystem {
  import opened Wrappers
  import opened Errors

  /** A spec's `loader_state`: nothing (`None`), some host value, or the pair
      `(actual_spec, original_loader_state)` that the interception finder stores. */
  datatype LoaderState =
    | NoState
    | HostState(token: nat)
    | Intercepted(actual: ModuleSpec, original: LoaderState)

  /** `importlib.machinery.ModuleSpec`, with the attributes a shallow `copy.copy` carries over.
      A loader is an object whose behaviour the callers supply; `None` is a spec without one. */
  datatype ModuleSpec = ModuleSpec(
    name: string,
    loader: Option<object>,
    origin: Option<string>,
    loaderState: LoaderState,
    submoduleSearchLocations: Option<seq<string>>)

  /** What `importlib.util.find_spec(name)` does: find a spec, find nothing, or raise. */
  datatype SpecLookup = Found(spec: ModuleSpec) | NotFound | Raised(error: Error)

  /** `s.index(x)` without the exception: the position of the first occurrence. */
  function FirstIndexOf(s: seq<object>, x: object): (r: Option<nat>)
    ensures r.Some? ==> r.value < |s| && s[r.value] == x && forall j :: 0 <= j < r.value ==> s[j] != x
    ensures r.None? <==> x !in s
  {
    if |s| == 0 then None
    else if s[0] == x then Some(0)
    else match FirstIndexOf(s[1..], x)
      case None => None
      case Some(i) => Some(i + 1)
  }

  /** `s.pop(i)`'s effect on the list. */
  function RemoveAt(s: seq<object>, i: nat): seq<object>
    requires i < |s|
  {
    s[..i] + s[i + 1..]
  }

  /** `s.insert(i, x)`'s effect on the list; an index past the end appends. */
  function InsertAt(s: seq<object>, i: nat, x: object): seq<object> {
    var j := if i <= |s| then i else |s|;
    s[..j] + [x] + s[j..]
  }

  /** Popping an element and inserting it back at the same index restores the list. */
  lemma InsertRemoved(s: seq<object>, i: nat)
    requires i < |s|
    ensures InsertAt(RemoveAt(s, i), i, s[i]) == s
  {
    var t := RemoveAt(s, i);
    assert t[..i] == s[..i];
    assert t[i..] == s[i + 1..];
    assert s == s[..i] + [s[i]] + s[i + 1..];
  }

  /** After popping the first occurrence of `x`, `x` is still in the list exactly when it
      occurred a second time. */
  lemma RemoveFirstOccurrence(s: seq<object>, x: object)
    requires x in s
    ensures var i := FirstIndexOf(s, x).value;
      x in RemoveAt(s, i) <==> exists j :: i < j < |s| && s[j] == x
  {
    var i := FirstIndexOf(s, x).value;
    var t := RemoveAt(s, i);
    if x in t {
      var k :| 0 <= k < |t| && t[k] == x;
      if k >= i {
        assert s[k + 1] == x;
      }
    }
    if exists j :: i < j < |s| && s[j] == x {
      var j :| i < j < |s| && s[j] == x;
      assert t[j - 1] == x;
    }
  }

  /** `sys.meta_path`: the ordered list of finders the import system consults. */
  class MetaPath {
    var entries: seq<object>

    constructor (entries: seq<object>)
      ensures this.entries == entries
    {
      this.entries := entries;
    }

    /** `sys.meta_path.index(x)`, raising `ValueError` when `x` is absent. */
    method Index(x: object) returns (r: Result<nat, Error>)
      ensures r == match FirstIndexOf(entries, x)
        case Some(i) => Success(i)
        case None => Failure(FinderNotRegistered)
    {
      for i := 0 to |entries|
        invariant forall j :: 0 <= j < i ==> entries[j] != x
      {
        if entries[i] == x {
          return Success(i);
        }
      }
      return Failure(FinderNotRegistered);
    }

    /** `sys.meta_path.pop(i)`. */
    method Pop(i: nat) returns (x: object)
      requires i < |entries|
      modifies this
      ensures x == old(entries[i]) && entries == RemoveAt(old(entries), i)
    {
      x := entries[i];
      entries := entries[..i] + entries[i + 1..];
    }

    /** `sys.meta_path.insert(i, x)`. */
    method Insert(i: nat, x: object)
      modifies this
      ensures entries == InsertAt(old(entries), i, x)
    {
      var j := if i <= |entries| then i else |entries|;
      entries := entries[..j] + [x] + entries[j..];
    }
  }
}
