/** `UpdateManager` and what it writes into the three target modules, together with the
    patched config generator `_generate_server_config` and the version line it synthesises. */
module Updates {
  import opened Wrappers
  import opened Json
  import opened Errors
  import opened DeepMerge
  import opened Releases
  import opened ImportSystem

  /** The target's structured `LavalinkVersion`; its internals are not part of this model. */
  type LavalinkVersion

  newtype byte = x: int | 0 <= x < 256

  /** The UTF-8 encoding of one Unicode scalar value: the length is fixed by the thresholds
      0x80, 0x800 and 0x10000, the lead byte carries the length and the high bits, and each
      continuation byte carries six more bits of the value. */
  function EncodeChar(c: char): (r: seq<byte>)
    ensures 1 <= |r| <= 4
    ensures |r| == 1 <==> c as int < 0x80
    ensures |r| == 2 <==> 0x80 <= c as int < 0x800
    ensures |r| == 3 <==> 0x800 <= c as int < 0x10000
    ensures |r| == 4 <==> 0x10000 <= c as int
    ensures forall i :: 1 <= i < |r| ==> 0x80 <= r[i] < 0xC0
    ensures |r| == 1 ==> r[0] as int == c as int
    ensures |r| == 2 ==> 0xC0 <= r[0] < 0xE0
    ensures |r| == 2 ==> (r[0] as int - 0xC0) * 0x40 + (r[1] as int - 0x80) == c as int
    ensures |r| == 3 ==> 0xE0 <= r[0] < 0xF0
    ensures |r| == 3 ==>
      ((r[0] as int - 0xE0) * 0x40 + (r[1] as int - 0x80)) * 0x40 + (r[2] as int - 0x80) == c as int
    ensures |r| == 4 ==> 0xF0 <= r[0] < 0xF8
    ensures |r| == 4 ==>
      (((r[0] as int - 0xF0) * 0x40 + (r[1] as int - 0x80)) * 0x40 + (r[2] as int - 0x80)) * 0x40
      + (r[3] as int - 0x80) == c as int
  {
    var n := c as int;
    var q1 := n / 0x40;
    var q2 := q1 / 0x40;
    var q3 := q2 / 0x40;
    if n < 0x80 then [n as byte]
    else if n < 0x800 then [(0xC0 + q1) as byte, (0x80 + n % 0x40) as byte]
    else if n < 0x10000 then
      [(0xE0 + q2) as byte, (0x80 + q1 % 0x40) as byte, (0x80 + n % 0x40) as byte]
    else
      [(0xF0 + q3) as byte, (0x80 + q2 % 0x40) as byte,
       (0x80 + q1 % 0x40) as byte, (0x80 + n % 0x40) as byte]
  }

  /** `s.encode()`: UTF-8, character by character. */
  function Utf8Encode(s: string): (r: seq<byte>)
    ensures |s| <= |r| <= 4 * |s|
  {
    if |s| == 0 then [] else EncodeChar(s[0]) + Utf8Encode(s[1..])
  }

  /** Encoding a concatenation is concatenating the encodings. */
  lemma {:induction false} Utf8EncodeAppend(a: string, b: string)
    ensures Utf8Encode(a + b) == Utf8Encode(a) + Utf8Encode(b)
  {
    if |a| == 0 {
      assert a + b == b;
    } else {
      assert (a + b)[1..] == a[1..] + b;
      Utf8EncodeAppend(a[1..], b);
    }
  }

  /** An ASCII string encodes to its own character codes, one byte each. */
  lemma {:induction false} AsciiEncodesAsIs(s: string)
    requires forall i :: 0 <= i < |s| ==> s[i] as int < 0x80
    ensures |Utf8Encode(s)| == |s|
    ensures forall i :: 0 <= i < |s| ==> Utf8Encode(s)[i] as int == s[i] as int
  {
    if |s| > 0 {
      AsciiEncodesAsIs(s[1..]);
    }
  }

  /** The bytes literal `b"Version: "`. */
  const VersionPrefix: seq<byte> := [86, 101, 114, 115, 105, 111, 110, 58, 32]

  /** The literal holds the encoding of the text `Version: `. */
  lemma VersionPrefixIsEncoded()
    ensures VersionPrefix == Utf8Encode("Version: ")
  {
    AsciiEncodesAsIs("Version: ");
  }

  /** `_generate_ll_version_line(raw)`: the prefix, then `raw.encode()`. */
  function VersionLine(raw: string): (r: seq<byte>)
    ensures |r| >= 9 && r[..9] == VersionPrefix
    ensures 9 + |raw| <= |r| <= 9 + 4 * |raw|
  {
    VersionPrefix + Utf8Encode(raw)
  }

  /** The version line is the encoding of the text `Version: ` followed by the version; for an
      ASCII version it is that text byte for byte. */
  lemma VersionLineIsEncodedText(raw: string)
    ensures VersionLine(raw) == Utf8Encode("Version: " + raw)
    ensures (forall i :: 0 <= i < |raw| ==> raw[i] as int < 0x80) ==>
      |VersionLine(raw)| == 9 + |raw| &&
      forall i :: 0 <= i < 9 + |raw| ==> VersionLine(raw)[i] as int == ("Version: " + raw)[i] as int
  {
    VersionPrefixIsEncoded();
    Utf8EncodeAppend("Version: ", raw);
    if forall i :: 0 <= i < |raw| ==> raw[i] as int < 0x80 {
      AsciiEncodesAsIs("Version: " + raw);
    }
  }

  /** A target module's `generate_server_config`: the module's own function, or the wrapper
      `update_ll_server_config` installs around an earlier value. The wrapper carries the
      `func` tag and the manager whose release it reads each time it is called. */
  datatype ConfigGenerator =
    | Native(generate: Object -> Object)
    | Patched(original: ConfigGenerator, manager: UpdateManager)

  /** The managers a generator consults when called. */
  function Managers(g: ConfigGenerator): set<UpdateManager> {
    match g
    case Native(_) => {}
    case Patched(original, m) => Managers(original) + {m}
  }

  /** Every manager a generator consults already exists. */
  lemma {:induction false} ManagersAllocated(g: ConfigGenerator)
    ensures forall m :: m in Managers(g) ==> allocated(m)
  {
    if g.Patched? {
      ManagersAllocated(g.original);
    }
  }

  /** The three-layer precedence: the module's output, then the release's overrides, then the
      caller's input; with no release selected, the module's output alone. */
  function EffectiveConfig(base: Object, release: Option<ReleaseInfo>, config: Object): (r: Object)
    ensures release.None? ==> r == base
    ensures release.Some? ==> forall k :: k in r <==>
      k in base || k in release.value.applicationYmlOverrides || k in config
    ensures release.Some? ==> forall k :: k in config && IsLeaf(config[k]) ==> r[k] == config[k]
  {
    if release.None? then base
    else Merge(Merge(base, release.value.applicationYmlOverrides), config)
  }

  /** Calling the generator on `config`. A wrapper reads its manager's release at call time. */
  function Generate(g: ConfigGenerator, config: Object): (r: Object)
    reads Managers(g)
    ensures g.Patched? && g.manager.releaseInfo.Some? ==> forall k :: k in config ==> k in r
    ensures g.Patched? && g.manager.releaseInfo.Some? ==>
      forall k :: k in g.manager.releaseInfo.value.applicationYmlOverrides ==> k in r
  {
    match g
    case Native(f) => f(config)
    case Patched(original, m) => EffectiveConfig(Generate(original, config), m.releaseInfo, config)
  }

  /** The module-level symbols the three patch functions read and write. Each target module
      defines its own subset; one record holds them all:
      - `downloadUrl` is `ServerManager.LAVALINK_DOWNLOAD_URL` (`manager`);
      - `generateServerConfig` is `generate_server_config` (`ll_server_config`);
      - the rest are `JAR_VERSION`, `YT_PLUGIN_VERSION`, `SUPPORTED_JAVA_VERSIONS`,
        `LATEST_SUPPORTED_JAVA_VERSION`, `OLDER_SUPPORTED_JAVA_VERSIONS` and the target's parser
        `LavalinkVersion.from_version_output`, `None` where it raises (`version_pins`). */
  datatype ModuleSymbols = ModuleSymbols(
    downloadUrl: string,
    generateServerConfig: ConfigGenerator,
    jarVersion: LavalinkVersion,
    ytPluginVersion: string,
    supportedJavaVersions: seq<Json>,
    latestSupportedJavaVersion: Json,
    olderSupportedJavaVersions: seq<Json>,
    fromVersionOutput: seq<byte> -> Option<LavalinkVersion>)

  /** A loaded module object: its `__spec__` and its symbols. */
  class Module {
    var spec: ModuleSpec
    var downloadUrl: string
    var generateServerConfig: ConfigGenerator
    var jarVersion: LavalinkVersion
    var ytPluginVersion: string
    var supportedJavaVersions: seq<Json>
    var latestSupportedJavaVersion: Json
    var olderSupportedJavaVersions: seq<Json>
    var fromVersionOutput: seq<byte> -> Option<LavalinkVersion>

    /** The module's symbols as they stand. */
    function Current(): ModuleSymbols
      reads this
    {
      ModuleSymbols(downloadUrl, generateServerConfig, jarVersion, ytPluginVersion,
                    supportedJavaVersions, latestSupportedJavaVersion, olderSupportedJavaVersions,
                    fromVersionOutput)
    }

    constructor (spec: ModuleSpec, symbols: ModuleSymbols)
      ensures this.spec == spec && Current() == symbols
    {
      this.spec := spec;
      downloadUrl := symbols.downloadUrl;
      generateServerConfig := symbols.generateServerConfig;
      jarVersion := symbols.jarVersion;
      ytPluginVersion := symbols.ytPluginVersion;
      supportedJavaVersions := symbols.supportedJavaVersions;
      latestSupportedJavaVersion := symbols.latestSupportedJavaVersion;
      olderSupportedJavaVersions := symbols.olderSupportedJavaVersions;
      fromVersionOutput := symbols.fromVersionOutput;
    }

    /** Running the module's code: it (re)defines every symbol. */
    method Execute(symbols: ModuleSymbols)
      modifies this
      ensures spec == old(spec) && Current() == symbols
    {
      downloadUrl := symbols.downloadUrl;
      generateServerConfig := symbols.generateServerConfig;
      jarVersion := symbols.jarVersion;
      ytPluginVersion := symbols.ytPluginVersion;
      supportedJavaVersions := symbols.supportedJavaVersions;
      latestSupportedJavaVersion := symbols.latestSupportedJavaVersion;
      olderSupportedJavaVersions := symbols.olderSupportedJavaVersions;
      fromVersionOutput := symbols.fromVersionOutput;
    }
  }

  /** The symbols after `update_manager`. */
  function ManagerPatched(s: ModuleSymbols, release: Option<ReleaseInfo>): (r: ModuleSymbols)
    ensures r.downloadUrl == if release.Some? then release.value.jarUrl else s.downloadUrl
    ensures r.(downloadUrl := s.downloadUrl) == s
  {
    if release.None? then s else s.(downloadUrl := release.value.jarUrl)
  }

  /** The symbols after `update_ll_server_config`: a wrapper is installed unless there is no
      release or the current function already carries the tag. */
  function ServerConfigPatched(s: ModuleSymbols, manager: UpdateManager, release: Option<ReleaseInfo>): (r: ModuleSymbols)
    ensures r.(generateServerConfig := s.generateServerConfig) == s
    ensures r.generateServerConfig.Patched? <==> release.Some? || s.generateServerConfig.Patched?
    ensures r != s ==> r.generateServerConfig == Patched(s.generateServerConfig, manager)
    ensures s.generateServerConfig.Patched? ==> r == s
  {
    if release.None? || s.generateServerConfig.Patched? then s
    else s.(generateServerConfig := Patched(s.generateServerConfig, manager))
  }

  /** What `update_version_pins` raises, if anything, and the symbols it leaves behind. The
      target's parser runs first; if it raises, nothing has been assigned. An empty
      `java_versions` raises `IndexError` after the first three symbols are assigned. */
  function VersionPinsPatched(s: ModuleSymbols, release: Option<ReleaseInfo>): (r: (Outcome<Error>, ModuleSymbols))
    ensures r.1.downloadUrl == s.downloadUrl && r.1.generateServerConfig == s.generateServerConfig
    ensures r.1.fromVersionOutput == s.fromVersionOutput
    ensures r.0 == Fail(VersionOutputRejected) <==>
      release.Some? && s.fromVersionOutput(VersionLine(release.value.jarVersion)).None?
    ensures r.0 == Fail(VersionOutputRejected) ==> r.1 == s
    ensures r.0 == Fail(EmptyJavaVersions) <==>
      release.Some? && s.fromVersionOutput(VersionLine(release.value.jarVersion)).Some? &&
      |release.value.javaVersions| == 0
    ensures r.0.Pass? || r.0 == Fail(VersionOutputRejected) || r.0 == Fail(EmptyJavaVersions)
    ensures r.0 == Fail(EmptyJavaVersions) ==> r.1.supportedJavaVersions == []
    ensures r.0 == Fail(EmptyJavaVersions) ==>
      r.1 == s.(jarVersion := s.fromVersionOutput(VersionLine(release.value.jarVersion)).value,
                ytPluginVersion := release.value.ytPluginVersion,
                supportedJavaVersions := [])
    ensures r.0.Pass? && release.Some? ==>
      r.1.olderSupportedJavaVersions + [r.1.latestSupportedJavaVersion] == r.1.supportedJavaVersions
  {
    if release.None? then (Pass, s)
    else
      var r := release.value;
      var parsed := s.fromVersionOutput(VersionLine(r.jarVersion));
      if parsed.None? then (Fail(VersionOutputRejected), s)
      else
        var pinned := s.(jarVersion := parsed.value, ytPluginVersion := r.ytPluginVersion,
                           supportedJavaVersions := r.javaVersions);
        var java := r.javaVersions;
        if |java| == 0 then (Fail(EmptyJavaVersions), pinned)
        else (Pass, pinned.(latestSupportedJavaVersion := java[|java| - 1],
                              olderSupportedJavaVersions := java[..|java| - 1]))
  }

  /** `UpdateManager`: the selected release, `None` meaning "keep the module's defaults". */
  class UpdateManager {
    var releaseInfo: Option<ReleaseInfo>

    constructor (releaseInfo: Option<ReleaseInfo>)
      ensures this.releaseInfo == releaseInfo
    {
      this.releaseInfo := releaseInfo;
    }

    /** `update_manager(module)`. */
    method UpdateManager(target: Module)
      modifies target`downloadUrl
      ensures target.Current() == ManagerPatched(old(target.Current()), releaseInfo)
    {
      if releaseInfo.None? {
        return;
      }
      target.downloadUrl := releaseInfo.value.jarUrl;
    }

    /** `update_ll_server_config(module)`. */
    method UpdateLlServerConfig(target: Module)
      modifies target`generateServerConfig
      ensures target.Current() == ServerConfigPatched(old(target.Current()), this, releaseInfo)
    {
      if releaseInfo.None? {
        return;
      }
      var original := target.generateServerConfig;
      if original.Patched? {
        return;
      }
      target.generateServerConfig := Patched(original, this);
    }

    /** `update_version_pins(module)`. */
    method UpdateVersionPins(target: Module) returns (outcome: Outcome<Error>)
      modifies target`jarVersion, target`ytPluginVersion, target`supportedJavaVersions,
               target`latestSupportedJavaVersion, target`olderSupportedJavaVersions
      ensures (outcome, target.Current()) == VersionPinsPatched(old(target.Current()), releaseInfo)
    {
      if releaseInfo.None? {
        return Pass;
      }
      var release := releaseInfo.value;
      var parsed := target.fromVersionOutput(VersionLine(release.jarVersion));
      if parsed.None? {
        return Fail(VersionOutputRejected);
      }
      target.jarVersion := parsed.value;
      target.ytPluginVersion := release.ytPluginVersion;
      var java := release.javaVersions;
      target.supportedJavaVersions := java;
      if |java| == 0 {
        return Fail(EmptyJavaVersions);
      }
      target.latestSupportedJavaVersion := java[|java| - 1];
      target.olderSupportedJavaVersions := java[..|java| - 1];
      return Pass;
    }
  }

  /** `_generate_server_config(original, manager, config)`: call the original, then, if a
      release is selected at this moment, merge its overrides and then `config` into the result. */
  method GenerateServerConfig(original: ConfigGenerator, manager: UpdateManager, config: Object)
    returns (data: Object)
    ensures data == EffectiveConfig(Generate(original, config), manager.releaseInfo, config)
  {
    ManagersAllocated(original);
    data := Generate(original, config);
    var release := manager.releaseInfo;
    if release.Some? {
      data := DeepMergeInto(data, release.value.applicationYmlOverrides);
      data := DeepMergeInto(data, config);
    }
  }

  /** With no release selected, all three patch functions leave the module as it was. */
  lemma NoReleaseNoChange(s: ModuleSymbols, manager: UpdateManager)
    ensures ManagerPatched(s, None) == s
    ensures ServerConfigPatched(s, manager, None) == s
    ensures VersionPinsPatched(s, None) == (Pass, s)
  {
  }

  /** Each patch applied twice leaves the module as applying it once does. */
  lemma PatchesIdempotent(s: ModuleSymbols, manager: UpdateManager, release: Option<ReleaseInfo>)
    ensures ManagerPatched(ManagerPatched(s, release), release) == ManagerPatched(s, release)
    ensures ServerConfigPatched(ServerConfigPatched(s, manager, release), manager, release) ==
            ServerConfigPatched(s, manager, release)
    ensures VersionPinsPatched(VersionPinsPatched(s, release).1, release) == VersionPinsPatched(s, release)
  {
  }

  /** After a successful `update_version_pins`: the target's parser was given the version line
      of the release's `jar_version`; SUPPORTED is the release's tuple, LATEST its last element
      and OLDER everything before it. */
  lemma VersionPinsContent(s: ModuleSymbols, release: ReleaseInfo)
    requires VersionPinsPatched(s, Some(release)).0.Pass?
    ensures var t := VersionPinsPatched(s, Some(release)).1;
      && s.fromVersionOutput(VersionLine(release.jarVersion)) == Some(t.jarVersion)
      && t.ytPluginVersion == release.ytPluginVersion
      && t.supportedJavaVersions == release.javaVersions
      && |release.javaVersions| > 0
      && t.latestSupportedJavaVersion == release.javaVersions[|release.javaVersions| - 1]
      && t.olderSupportedJavaVersions + [t.latestSupportedJavaVersion] == t.supportedJavaVersions
      && t.downloadUrl == s.downloadUrl && t.generateServerConfig == s.generateServerConfig
  {
    var java := release.javaVersions;
    assert java[..|java| - 1] + [java[|java| - 1]] == java;
  }

  /** The caller's leaves beat everything beneath them. */
  lemma CallerLeafWins(base: Object, release: ReleaseInfo, config: Object, path: seq<string>)
    requires Get(config, path).Some? && IsLeaf(Get(config, path).value)
    ensures Get(EffectiveConfig(base, Some(release), config), path) == Get(config, path)
  {
    SourceLeafWins(Merge(base, release.applicationYmlOverrides), config, path);
  }

  /** A release override's leaf survives where the caller does not touch it. */
  lemma OverrideLeafWins(base: Object, release: ReleaseInfo, config: Object, path: seq<string>)
    requires Get(release.applicationYmlOverrides, path).Some?
    requires IsLeaf(Get(release.applicationYmlOverrides, path).value)
    requires !Touches(config, path)
    ensures Get(EffectiveConfig(base, Some(release), config), path) == Get(release.applicationYmlOverrides, path)
  {
    var layered := Merge(base, release.applicationYmlOverrides);
    SourceLeafWins(base, release.applicationYmlOverrides, path);
    UntouchedLeafKept(layered, config, path);
  }

  /** A leaf of the module's own output survives where neither upper layer touches it. */
  lemma BaseLeafKept(base: Object, release: ReleaseInfo, config: Object, path: seq<string>)
    requires Get(base, path).Some? && IsLeaf(Get(base, path).value)
    requires !Touches(release.applicationYmlOverrides, path) && !Touches(config, path)
    ensures Get(EffectiveConfig(base, Some(release), config), path) == Get(base, path)
  {
    var layered := Merge(base, release.applicationYmlOverrides);
    UntouchedLeafKept(base, release.applicationYmlOverrides, path);
    UntouchedLeafKept(layered, config, path);
  }

  /** The worked example of the precedence: module output `{a: 1, b: {c: 1}}`, release overrides
      `{b: {c: 2, d: 3}}` and caller input `{b: {c: 9}}` give `b.c == 9`, `b.d == 3`, `a == 1`. */
  lemma PrecedenceExample(release: ReleaseInfo)
    requires release.applicationYmlOverrides == map["b" := JObject(map["c" := JInt(2), "d" := JInt(3)])]
    ensures var base := map["a" := JInt(1), "b" := JObject(map["c" := JInt(1)])];
      var config := map["b" := JObject(map["c" := JInt(9)])];
      var effective := EffectiveConfig(base, Some(release), config);
      && Get(effective, ["b", "c"]) == Some(JInt(9))
      && Get(effective, ["b", "d"]) == Some(JInt(3))
      && Get(effective, ["a"]) == Some(JInt(1))
  {
    var base := map["a" := JInt(1), "b" := JObject(map["c" := JInt(1)])];
    var config := map["b" := JObject(map["c" := JInt(9)])];
    var path: seq<string> := ["b", "d"];
    assert path[1..] == ["d"];
    assert Get(config, ["b", "c"]) == Some(JInt(9)) by {
      assert ["b", "c"][1..] == ["c"];
    }
    CallerLeafWins(base, release, config, ["b", "c"]);
    assert Get(release.applicationYmlOverrides, path) == Some(JInt(3));
    OverrideLeafWins(base, release, config, path);
    BaseLeafKept(base, release, config, ["a"]);
  }

  /** Wrapping a wrapper would not change what the function returns: the layering applied to
      its own output is the same layering. */
  lemma DoubleWrapSameResult(g: ConfigGenerator, manager: UpdateManager, config: Object)
    ensures Generate(Patched(Patched(g, manager), manager), config) == Generate(Patched(g, manager), config)
  {
    if manager.releaseInfo.Some? {
      LayersStable(Generate(g, config), manager.releaseInfo.value.applicationYmlOverrides, config);
    }
  }
}
