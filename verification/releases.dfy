/** The `packaging` library as the core uses it: PEP 440 specifier sets and versions. */
module Packaging {
  import opened Wrappers

  /** A parsed `packaging.specifiers.SpecifierSet`; its internals are not part of this model. */
  type SpecifierSet(==)

  /** A parsed `packaging.version.Version`; its internals are not part of this model. */
  type Version(==)

  /** The three operations of the library the core calls:
      - `parse(raw)` is `SpecifierSet(raw)`, `None` when it raises `InvalidSpecifier`;
      - `show(s)` is `str(s)`;
      - `contains(s, v)` is `s.contains(v, prereleases=True)`. */
  datatype Pep440 = Pep440(
    parse: string -> Option<SpecifierSet>,
    show: SpecifierSet -> string,
    contains: (SpecifierSet, Version) -> bool)

  /** The library's own promise that printing a specifier set and parsing it back gives it again. */
  predicate ShowParses(p: Pep440, s: SpecifierSet) {
    p.parse(p.show(s)) == Some(s)
  }
}

/** `ReleaseStream`, `ReleaseInfo` and `ReleaseIndex`: the release catalogue, its strict
    parser and serialiser, and the choice of the latest eligible release. */
module Releases {
  import opened Wrappers
  import opened Json
  import opened Errors
  import opened Validation
  import opened Packaging

  datatype ReleaseStream = Stable | Preview {
    /** The enum member's `.value`. */
    function Value(): string {
      if Stable? then "stable" else "preview"
    }
  }

  /** The values of the enum's members. */
  const StreamValues: set<string> := {"stable", "preview"}

  /** The enum lookup `ReleaseStream(raw)`, which raises `ValueError` for an unknown value. */
  function StreamFromValue(raw: string): (r: Result<ReleaseStream, Error>)
    ensures r.Success? <==> raw in StreamValues
    ensures r.Success? ==> r.value.Value() == raw
    ensures r.Failure? ==> r.error == UnknownReleaseStream(raw)
  {
    if raw == "stable" then Success(Stable)
    else if raw == "preview" then Success(Preview)
    else Failure(UnknownReleaseStream(raw))
  }

  /** Looking up a member by its value gives the member back. */
  lemma StreamValueRoundTrip(s: ReleaseStream)
    ensures StreamFromValue(s.Value()) == Success(s)
  {
  }

  /** One published release. `javaVersions` is the tuple the parser built from the JSON list,
      whatever its items are; `applicationYmlOverrides` is the decoded JSON object. */
  datatype ReleaseInfo = ReleaseInfo(
    releaseName: string,
    jarVersion: string,
    jarUrl: string,
    ytPluginVersion: string,
    javaVersions: seq<Json>,
    redVersion: SpecifierSet,
    releaseStream: ReleaseStream,
    applicationYmlOverrides: Object)

  /** The eight required keys, in the order the parser reads them. */
  const ReleaseKeys: seq<string> := [
    "release_stream", "red_version", "jar_version", "release_name",
    "jar_url", "yt_plugin_version", "java_versions", "application_yml_overrides"]

  /** The type expression each key is validated against. */
  function ExpectedType(key: string): TypeExpr {
    if key == "java_versions" then IntListType
    else if key == "application_yml_overrides" then DictType
    else StrType
  }

  /** `key` is present and its value passes the key's check. */
  predicate KeyOk(data: Object, key: string) {
    key in data && Conforms(data[key], ExpectedType(key))
  }

  /** The exception `_get_and_validate_key` raises for `key`, if any. */
  function KeyProblem(data: Object, key: string): (p: Option<Error>)
    ensures p.None? <==> KeyOk(data, key)
  {
    if key !in data then Some(MissingKey(key))
    else if !Conforms(data[key], ExpectedType(key)) then Some(WrongType(key))
    else None
  }

  /** The `release_stream` stage passes: a string naming a member of the enum. */
  predicate StreamOk(data: Object) {
    KeyOk(data, "release_stream") && data["release_stream"].s in StreamValues
  }

  /** The `red_version` stage passes: a string that parses as a specifier set. */
  predicate RedVersionOk(data: Object, parse: string -> Option<SpecifierSet>) {
    KeyOk(data, "red_version") && parse(data["red_version"].s).Some?
  }

  /** The four plain string keys are present and hold strings. */
  predicate StringsOk(data: Object) {
    KeyOk(data, "jar_version") && KeyOk(data, "release_name") &&
    KeyOk(data, "jar_url") && KeyOk(data, "yt_plugin_version")
  }

  /** The inputs the parser accepts: every key present and passing its check, a known release
      stream and a red version that parses as a specifier set. */
  predicate Acceptable(data: Object, parse: string -> Option<SpecifierSet>) {
    && StreamOk(data)
    && RedVersionOk(data, parse)
    && StringsOk(data)
    && KeyOk(data, "java_versions")
    && KeyOk(data, "application_yml_overrides")
  }

  /** The parser's checks in the order it makes them: the `release_stream` key, its enum
      lookup, the `red_version` key, its specifier parse, then the six other keys as read. */
  const CheckCount: nat := 10

  /** Check `i`, as the exception it raises when it fails on its own. */
  function Check(data: Object, parse: string -> Option<SpecifierSet>, i: nat): Option<Error>
    requires i < CheckCount
  {
    if i == 1 then
      if KeyOk(data, "release_stream") && data["release_stream"].s !in StreamValues
      then Some(UnknownReleaseStream(data["release_stream"].s)) else None
    else if i == 3 then
      if KeyOk(data, "red_version") && parse(data["red_version"].s).None?
      then Some(InvalidSpecifierSet(data["red_version"].s)) else None
    else
      KeyProblem(data, ["release_stream", "", "red_version", "", "jar_version", "release_name",
                        "jar_url", "yt_plugin_version", "java_versions", "application_yml_overrides"][i])
  }

  /** The exception of the first failing check from `i` on, if any. */
  function FirstProblem(data: Object, parse: string -> Option<SpecifierSet>, i: nat): Option<Error>
    requires i <= CheckCount
    decreases CheckCount - i
  {
    if i == CheckCount then None
    else if Check(data, parse, i).Some? then Check(data, parse, i)
    else FirstProblem(data, parse, i + 1)
  }

  /** What each exception the parser raises says about its input. */
  predicate Explains(data: Object, e: Error, parse: string -> Option<SpecifierSet>) {
    match e
    case MissingKey(k) => k in ReleaseKeys && k !in data
    case WrongType(k) => k in ReleaseKeys && k in data && !Conforms(data[k], ExpectedType(k))
    case UnknownReleaseStream(raw) =>
      "release_stream" in data && data["release_stream"] == JString(raw) && raw !in StreamValues
    case InvalidSpecifierSet(raw) =>
      "red_version" in data && data["red_version"] == JString(raw) && parse(raw).None?
    case _ => false
  }

  /** Whatever check fails first, its exception is explained by the input. */
  lemma {:induction false} FirstProblemExplains(data: Object, parse: string -> Option<SpecifierSet>, i: nat)
    requires i <= CheckCount
    ensures FirstProblem(data, parse, i).Some? ==> Explains(data, FirstProblem(data, parse, i).value, parse)
    decreases CheckCount - i
  {
    if i < CheckCount {
      if Check(data, parse, i).None? {
        FirstProblemExplains(data, parse, i + 1);
      } else if i == 1 {
        StrTypeIsString(data["release_stream"]);
      } else if i == 3 {
        StrTypeIsString(data["red_version"]);
      }
    }
  }

  /** `_get_and_validate_key(data, key, type)` for a key of the record. */
  function GetKey(data: Object, key: string): (r: Result<Json, Error>)
    ensures r.Success? <==> KeyOk(data, key)
    ensures r.Success? ==> r.value == data[key]
    ensures r.Failure? ==> KeyProblem(data, key) == Some(r.error)
  {
    GetAndValidateKey(data, key, ExpectedType(key))
  }

  /** Reading `release_stream`: the key, its `str` check, then the enum lookup. */
  function ReadStream(data: Object, parse: string -> Option<SpecifierSet>): (r: Result<ReleaseStream, Error>)
    ensures r.Success? <==> StreamOk(data)
    ensures r.Success? ==> r.value.Value() == data["release_stream"].s
    ensures r.Failure? ==> FirstProblem(data, parse, 0) == Some(r.error)
    ensures r.Success? ==> FirstProblem(data, parse, 0) == FirstProblem(data, parse, 2)
  {
    var raw :- GetKey(data, "release_stream");
    StreamFromValue(raw.s)
  }

  /** Reading `red_version`: the key, its `str` check, then `SpecifierSet(raw)`, whose
      `InvalidSpecifier` is re-raised as `TypeError`. */
  function ReadRedVersion(data: Object, parse: string -> Option<SpecifierSet>): (r: Result<SpecifierSet, Error>)
    ensures r.Success? <==> RedVersionOk(data, parse)
    ensures r.Success? ==> parse(data["red_version"].s) == Some(r.value)
    ensures r.Failure? ==> FirstProblem(data, parse, 2) == Some(r.error)
    ensures r.Success? ==> FirstProblem(data, parse, 2) == FirstProblem(data, parse, 4)
  {
    var raw :- GetKey(data, "red_version");
    if parse(raw.s).Some? then Success(parse(raw.s).value) else Failure(InvalidSpecifierSet(raw.s))
  }

  /** Reading `jar_version`, `release_name`, `jar_url` and `yt_plugin_version`, in that order:
      the exception is the one for the first of them that fails. */
  function ReadStrings(data: Object, parse: string -> Option<SpecifierSet>): (r: Result<(string, string, string, string), Error>)
    ensures r.Success? <==> StringsOk(data)
    ensures r.Success? ==> r.value == (data["jar_version"].s, data["release_name"].s,
                                       data["jar_url"].s, data["yt_plugin_version"].s)
    ensures r.Failure? ==> FirstProblem(data, parse, 4) == Some(r.error)
    ensures r.Success? ==> FirstProblem(data, parse, 4) == FirstProblem(data, parse, 8)
  {
    var jarVersion :- GetKey(data, "jar_version");
    var name :- GetKey(data, "release_name");
    var url :- GetKey(data, "jar_url");
    var ytPlugin :- GetKey(data, "yt_plugin_version");
    Success((jarVersion.s, name.s, url.s, ytPlugin.s))
  }

  /** Builds the record from the parts read so far and the last two keys; `tuple(list)` keeps
      the list's items as they are. */
  function Assemble(data: Object, parse: string -> Option<SpecifierSet>, stream: ReleaseStream,
                    red: SpecifierSet, strs: (string, string, string, string)): (r: Result<ReleaseInfo, Error>)
    ensures r.Success? <==> KeyOk(data, "java_versions") && KeyOk(data, "application_yml_overrides")
    ensures r.Failure? ==> FirstProblem(data, parse, 8) == Some(r.error)
    ensures r.Success? ==> FirstProblem(data, parse, 8).None?
    ensures r.Success? ==> JArray(r.value.javaVersions) == data["java_versions"]
    ensures r.Success? ==> JObject(r.value.applicationYmlOverrides) == data["application_yml_overrides"]
    ensures r.Success? ==> r.value.releaseStream == stream && r.value.redVersion == red
    ensures r.Success? ==> (r.value.jarVersion, r.value.releaseName, r.value.jarUrl, r.value.ytPluginVersion) == strs
  {
    var java :- GetKey(data, "java_versions");
    var overrides :- GetKey(data, "application_yml_overrides");
    Success(ReleaseInfo(strs.1, strs.0, strs.2, strs.3, java.items, red, stream, overrides.fields))
  }

  /** `ReleaseInfo.from_json_dict(data)`: a record exactly for the acceptable inputs, otherwise
      the exception of the first check that fails. */
  function FromJsonDict(data: Object, parse: string -> Option<SpecifierSet>): (r: Result<ReleaseInfo, Error>)
    ensures r.Success? <==> Acceptable(data, parse)
    ensures r.Success? <==> FirstProblem(data, parse, 0).None?
    ensures r.Failure? ==> FirstProblem(data, parse, 0) == Some(r.error)
  {
    var stream :- ReadStream(data, parse);
    var red :- ReadRedVersion(data, parse);
    var strs :- ReadStrings(data, parse);
    Assemble(data, parse, stream, red, strs)
  }

  /** The parser raises only `KeyError`, `TypeError` and `ValueError`, each explained by the input. */
  lemma ParserExceptions(data: Object, parse: string -> Option<SpecifierSet>)
    requires FromJsonDict(data, parse).Failure?
    ensures Explains(data, FromJsonDict(data, parse).error, parse)
    ensures ExceptionClass(FromJsonDict(data, parse).error) in {"KeyError", "TypeError", "ValueError"}
  {
    FirstProblemExplains(data, parse, 0);
  }

  /** `ReleaseInfo.as_json_dict()`: exactly the eight keys, each holding a value that passes the
      key's check. */
  function AsJsonDict(x: ReleaseInfo, show: SpecifierSet -> string): (d: Object)
    ensures forall k :: k in d <==> k in ReleaseKeys
    ensures forall k :: k in ReleaseKeys ==> KeyOk(d, k)
  {
    map[
      "release_name" := JString(x.releaseName),
      "jar_version" := JString(x.jarVersion),
      "jar_url" := JString(x.jarUrl),
      "yt_plugin_version" := JString(x.ytPluginVersion),
      "java_versions" := JArray(x.javaVersions),
      "red_version" := JString(show(x.redVersion)),
      "release_stream" := JString(x.releaseStream.Value()),
      "application_yml_overrides" := JObject(x.applicationYmlOverrides)]
  }

  /** An object holding the fields of `x` under their keys, with `red_version` as `text`. */
  predicate Holds(d: Object, x: ReleaseInfo, text: string) {
    && "release_stream" in d && d["release_stream"] == JString(x.releaseStream.Value())
    && "red_version" in d && d["red_version"] == JString(text)
    && "jar_version" in d && d["jar_version"] == JString(x.jarVersion)
    && "release_name" in d && d["release_name"] == JString(x.releaseName)
    && "jar_url" in d && d["jar_url"] == JString(x.jarUrl)
    && "yt_plugin_version" in d && d["yt_plugin_version"] == JString(x.ytPluginVersion)
    && "java_versions" in d && d["java_versions"] == JArray(x.javaVersions)
    && "application_yml_overrides" in d && d["application_yml_overrides"] == JObject(x.applicationYmlOverrides)
  }

  /** The serialised object holds the release's fields under their keys. */
  lemma AsJsonDictHolds(x: ReleaseInfo, show: SpecifierSet -> string)
    ensures Holds(AsJsonDict(x, show), x, show(x.redVersion))
  {
  }

  /** The parser reads back the release from any object holding its fields, given that the
      `red_version` text parses to its specifier set. */
  lemma {:induction false} HoldsReadsBack(d: Object, x: ReleaseInfo, text: string, parse: string -> Option<SpecifierSet>)
    requires Holds(d, x, text) && parse(text) == Some(x.redVersion)
    ensures FromJsonDict(d, parse) == Success(x)
  {
    StreamValueRoundTrip(x.releaseStream);
    StrTypeIsString(d["release_stream"]);
    assert ReadStream(d, parse) == Success(x.releaseStream);
    StrTypeIsString(d["red_version"]);
    assert ReadRedVersion(d, parse) == Success(x.redVersion);
    StrTypeIsString(d["jar_version"]);
    StrTypeIsString(d["release_name"]);
    StrTypeIsString(d["jar_url"]);
    StrTypeIsString(d["yt_plugin_version"]);
    assert ReadStrings(d, parse) == Success((x.jarVersion, x.releaseName, x.jarUrl, x.ytPluginVersion));
  }

  /** Serialising a release and parsing the result gives the release back, given that the
      specifier set prints to text that parses to it again. */
  lemma {:induction false} RoundTrip(x: ReleaseInfo, pep: Pep440)
    requires ShowParses(pep, x.redVersion)
    ensures FromJsonDict(AsJsonDict(x, pep.show), pep.parse) == Success(x)
  {
    AsJsonDictHolds(x, pep.show);
    HoldsReadsBack(AsJsonDict(x, pep.show), x, pep.show(x.redVersion), pep.parse);
  }

  /** An accepted object holds the fields of the release parsed from it. */
  lemma {:induction false} ParsedHolds(data: Object, parse: string -> Option<SpecifierSet>)
    requires FromJsonDict(data, parse).Success?
    ensures var x := FromJsonDict(data, parse).value;
      "red_version" in data && data["red_version"].JString? &&
      parse(data["red_version"].s) == Some(x.redVersion) &&
      Holds(data, x, data["red_version"].s)
  {
    StrTypeIsString(data["release_stream"]);
    StrTypeIsString(data["red_version"]);
    StrTypeIsString(data["jar_version"]);
    StrTypeIsString(data["release_name"]);
    StrTypeIsString(data["jar_url"]);
    StrTypeIsString(data["yt_plugin_version"]);
  }

  /** Two objects holding the same release agree on every key but `red_version`. */
  lemma HoldersAgree(d1: Object, d2: Object, x: ReleaseInfo, t1: string, t2: string)
    requires Holds(d1, x, t1) && Holds(d2, x, t2)
    ensures forall k :: k in ReleaseKeys && k != "red_version" ==> k in d1 && k in d2 && d1[k] == d2[k]
  {
  }

  /** What the parser accepted serialises back to the same JSON under every key except
      `red_version`, whose text is replaced by the printed form of the parsed specifier set. */
  lemma {:induction false} ParsedReleaseSerialisesBack(data: Object, pep: Pep440)
    requires FromJsonDict(data, pep.parse).Success?
    ensures var x := FromJsonDict(data, pep.parse).value;
      var d := AsJsonDict(x, pep.show);
      && (forall k :: k in d <==> k in ReleaseKeys)
      && (forall k :: k in ReleaseKeys && k != "red_version" ==> k in data && d[k] == data[k])
      && "red_version" in data && data["red_version"].JString?
      && pep.parse(data["red_version"].s) == Some(x.redVersion)
      && d["red_version"] == JString(pep.show(x.redVersion))
  {
    var x := FromJsonDict(data, pep.parse).value;
    ParsedHolds(data, pep.parse);
    AsJsonDictHolds(x, pep.show);
    HoldersAgree(AsJsonDict(x, pep.show), data, x, pep.show(x.redVersion), data["red_version"].s);
  }

  /** The items of `java_versions` are not checked: an acceptable object whose list is replaced
      by any other list, a list of strings say, still parses, and the release holds that list. */
  lemma JavaVersionItemsUnchecked(data: Object, parse: string -> Option<SpecifierSet>, items: seq<Json>)
    requires Acceptable(data, parse)
    ensures FromJsonDict(data["java_versions" := JArray(items)], parse) ==
            Success(FromJsonDict(data, parse).value.(javaVersions := items))
  {
    var d := data["java_versions" := JArray(items)];
    forall j | j in ReleaseKeys && j != "java_versions"
      ensures j in d && d[j] == data[j]
    {
    }
    ListItemsNotChecked(items);
    assert KeyOk(d, "java_versions");
    assert Acceptable(d, parse);
  }

  /** For each required key on its own: removing it from an accepted object makes the parser
      fail with `KeyError` naming that key. */
  lemma MissingKeyReported(data: Object, parse: string -> Option<SpecifierSet>, k: string)
    requires Acceptable(data, parse) && k in ReleaseKeys
    ensures FromJsonDict(data - {k}, parse) == Failure(MissingKey(k))
  {
    var d := data - {k};
    forall j | j in ReleaseKeys && j != k
      ensures j in d && d[j] == data[j]
    {
    }
    ParserExceptions(d, parse);
  }

  /** For each required key on its own: replacing its value by `null` makes the parser fail
      with `TypeError` naming that key. */
  lemma WrongTypeReported(data: Object, parse: string -> Option<SpecifierSet>, k: string)
    requires Acceptable(data, parse) && k in ReleaseKeys
    ensures FromJsonDict(data[k := JNull], parse) == Failure(WrongType(k))
  {
    var d := data[k := JNull];
    forall j | j in ReleaseKeys && j != k
      ensures j in d && d[j] == data[j]
    {
    }
    assert !Conforms(JNull, ExpectedType(k));
    ParserExceptions(d, parse);
  }

  /** An ordered catalogue; the order is the publication order, newest first. */
  datatype ReleaseIndex = ReleaseIndex(releases: seq<ReleaseInfo>)

  /** One element of the decoded JSON array. */
  function ParseElement(v: Json, parse: string -> Option<SpecifierSet>): (r: Result<ReleaseInfo, Error>)
    ensures r.Success? <==> v.JObject? && Acceptable(v.fields, parse)
    ensures !v.JObject? ==> r == Failure(NotAnObject)
    ensures r.Failure? && v.JObject? ==> FirstProblem(v.fields, parse, 0) == Some(r.error)
  {
    if v.JObject? then FromJsonDict(v.fields, parse) else Failure(NotAnObject)
  }

  /** Element `i` is the first that fails, and it fails with `e`. */
  predicate FirstFailureAt(data: seq<Json>, parse: string -> Option<SpecifierSet>, i: int, e: Error) {
    && 0 <= i < |data|
    && ParseElement(data[i], parse) == Failure(e)
    && forall j :: 0 <= j < i ==> ParseElement(data[j], parse).Success?
  }

  /** `ReleaseInfo.from_json_dict` over the elements, front to back, the first failure raising. */
  function ParseAll(data: seq<Json>, parse: string -> Option<SpecifierSet>): (r: Result<seq<ReleaseInfo>, Error>)
    ensures r.Success? <==> forall i :: 0 <= i < |data| ==> ParseElement(data[i], parse).Success?
    ensures r.Success? ==> |r.value| == |data|
    ensures r.Success? ==> forall i :: 0 <= i < |data| ==> ParseElement(data[i], parse) == Success(r.value[i])
    ensures r.Failure? ==> exists i :: FirstFailureAt(data, parse, i, r.error)
  {
    if |data| == 0 then Success([])
    else
      var first := ParseElement(data[0], parse);
      if first.Failure? then
        assert FirstFailureAt(data, parse, 0, first.error);
        Failure(first.error)
      else
      var rest := ParseAll(data[1..], parse);
      if rest.Failure? then
        ghost var i :| FirstFailureAt(data[1..], parse, i, rest.error);
        assert FirstFailureAt(data, parse, i + 1, rest.error);
        Failure(rest.error)
      else
        Success([first.value] + rest.value)
  }

  /** `ReleaseIndex.from_json_array(data)`. */
  function FromJsonArray(data: seq<Json>, parse: string -> Option<SpecifierSet>): (r: Result<ReleaseIndex, Error>)
    ensures r.Success? <==> ParseAll(data, parse).Success?
    ensures r.Success? ==> r.value.releases == ParseAll(data, parse).value
    ensures r.Failure? ==> r.error == ParseAll(data, parse).error
  {
    var releases :- ParseAll(data, parse);
    Success(ReleaseIndex(releases))
  }

  /** The streams a request for `stream` may be answered from. */
  function EligibleStreams(stream: ReleaseStream): (s: set<ReleaseStream>)
    ensures Stable in s
    ensures Preview in s <==> stream == Preview
  {
    if stream == Preview then {Preview, Stable} else {Stable}
  }

  /** The two tests of the scan: an eligible stream, and, when a host version is given,
      a specifier set that contains it (pre-releases included). */
  predicate Selectable(r: ReleaseInfo, stream: ReleaseStream, host: Option<Version>, contains: (SpecifierSet, Version) -> bool) {
    r.releaseStream in EligibleStreams(stream) && (host.Some? ==> contains(r.redVersion, host.value))
  }

  /** The position of the first selectable release. */
  function FirstSelectable(rs: seq<ReleaseInfo>, stream: ReleaseStream, host: Option<Version>,
                           contains: (SpecifierSet, Version) -> bool): (r: Option<nat>)
    ensures r.Some? ==> r.value < |rs| && Selectable(rs[r.value], stream, host, contains)
    ensures r.Some? ==> forall j :: 0 <= j < r.value ==> !Selectable(rs[j], stream, host, contains)
    ensures r.None? ==> forall j :: 0 <= j < |rs| ==> !Selectable(rs[j], stream, host, contains)
  {
    if |rs| == 0 then None
    else if Selectable(rs[0], stream, host, contains) then Some(0)
    else match FirstSelectable(rs[1..], stream, host, contains)
      case None => None
      case Some(i) => Some(i + 1)
  }

  /** `ReleaseIndex.get_latest_release(stream, red_version=host)`. */
  method GetLatestRelease(index: ReleaseIndex, stream: ReleaseStream, host: Option<Version>,
                          contains: (SpecifierSet, Version) -> bool) returns (r: Result<ReleaseInfo, Error>)
    ensures r == match FirstSelectable(index.releases, stream, host, contains)
      case Some(i) => Success(index.releases[i])
      case None => Failure(NoMatchingRelease)
  {
    var streams := EligibleStreams(stream);
    for i := 0 to |index.releases|
      invariant forall j :: 0 <= j < i ==> !Selectable(index.releases[j], stream, host, contains)
    {
      var release := index.releases[i];
      if release.releaseStream !in streams {
        continue;
      }
      if host.Some? && !contains(release.redVersion, host.value) {
        continue;
      }
      return Success(release);
    }
    return Failure(NoMatchingRelease);
  }

  /** A STABLE request is never answered with a PREVIEW release. */
  lemma StableNeverYieldsPreview(rs: seq<ReleaseInfo>, host: Option<Version>, contains: (SpecifierSet, Version) -> bool)
    requires FirstSelectable(rs, Stable, host, contains).Some?
    ensures rs[FirstSelectable(rs, Stable, host, contains).value].releaseStream == Stable
  {
  }

  /** A PREVIEW request finds a release whenever a STABLE request does, and never a later one. */
  lemma PreviewNoLaterThanStable(rs: seq<ReleaseInfo>, host: Option<Version>, contains: (SpecifierSet, Version) -> bool)
    requires FirstSelectable(rs, Stable, host, contains).Some?
    ensures FirstSelectable(rs, Preview, host, contains).Some?
    ensures FirstSelectable(rs, Preview, host, contains).value <= FirstSelectable(rs, Stable, host, contains).value
  {
    var i := FirstSelectable(rs, Stable, host, contains).value;
    assert Selectable(rs[i], Preview, host, contains);
  }

  /** PREVIEW falls back to STABLE: when no PREVIEW release passes the host filter, a PREVIEW
      request gives exactly what a STABLE request gives. */
  lemma {:induction false} PreviewFallsBackToStable(rs: seq<ReleaseInfo>, host: Option<Version>,
                                                    contains: (SpecifierSet, Version) -> bool)
    requires forall j :: 0 <= j < |rs| && rs[j].releaseStream == Preview ==>
      !(host.Some? ==> contains(rs[j].redVersion, host.value))
    ensures FirstSelectable(rs, Preview, host, contains) == FirstSelectable(rs, Stable, host, contains)
  {
    if |rs| > 0 {
      assert Selectable(rs[0], Preview, host, contains) == Selectable(rs[0], Stable, host, contains);
      PreviewFallsBackToStable(rs[1..], host, contains);
    }
  }

  /** Without the host filter the scan stops no later than with it; so "nothing compatible
      with this host" and "nothing published" can be told apart by asking both ways. */
  lemma UnfilteredNoLater(rs: seq<ReleaseInfo>, stream: ReleaseStream, v: Version,
                          contains: (SpecifierSet, Version) -> bool)
    requires FirstSelectable(rs, stream, Some(v), contains).Some?
    ensures FirstSelectable(rs, stream, None, contains).Some?
    ensures FirstSelectable(rs, stream, None, contains).value <= FirstSelectable(rs, stream, Some(v), contains).value
  {
    var i := FirstSelectable(rs, stream, Some(v), contains).value;
    assert Selectable(rs[i], stream, None, contains);
  }

  /** An empty index answers every request with `ValueError`. */
  lemma EmptyIndexFails(stream: ReleaseStream, host: Option<Version>, contains: (SpecifierSet, Version) -> bool)
    ensures FirstSelectable([], stream, host, contains).None?
  {
  }

  /** The host-version filter: a release whose constraint admits one host version and not
      another is chosen for the first and not for the second. */
  lemma HostFilterDecides(r: ReleaseInfo, good: Version, bad: Version, contains: (SpecifierSet, Version) -> bool)
    requires contains(r.redVersion, good) && !contains(r.redVersion, bad)
    ensures FirstSelectable([r], r.releaseStream, Some(good), contains) == Some(0)
    ensures FirstSelectable([r], r.releaseStream, Some(bad), contains).None?
  {
  }

  /** Order decides: with one STABLE and one PREVIEW release, a PREVIEW request returns
      whichever is listed first. */
  lemma OrderDecidesPrecedence(stable: ReleaseInfo, preview: ReleaseInfo, contains: (SpecifierSet, Version) -> bool)
    requires stable.releaseStream == Stable && preview.releaseStream == Preview
    ensures FirstSelectable([stable, preview], Preview, None, contains) == Some(0)
    ensures FirstSelectable([preview, stable], Preview, None, contains) == Some(0)
    ensures FirstSelectable([preview, stable], Stable, None, contains) == Some(1)
  {
    assert !Selectable([preview, stable][0], Stable, None, contains);
  }
}
