# Lavalink release updates for the Red Audio cog, modelled in Dafny

This project models the core of `core_exp_audio_ll_updates`. That package lets a bot operator switch the Lavalink server used by Red's Audio cog to a release from a published catalogue.

The model has two parts.

- **Release catalogue and patch content** (`update_manager.py`):
  - `_deep_merge`, the nested-dictionary merge;
  - `_get_and_validate_key`, the runtime type check;
  - the strict parser and the serialiser of a `ReleaseInfo`;
  - `ReleaseIndex`, which parses the array and picks the latest eligible release;
  - the three `UpdateManager.update_*` patch functions, which overwrite symbols of the Audio modules;
  - `_generate_server_config`, the three-layer config precedence: module output, then release overrides, then caller input.
- **Import interception** (`meta_path_finder.py`):
  - the finder on `sys.meta_path`, which pops itself, delegates the lookup, reinserts itself, and hands out a wrapped spec for exactly three module names;
  - the loader wrapper, which delegates `create_module`, runs the real `exec_module`, and then applies exactly one patch chosen by module name.

Modules, one per concern:

| file | module | models |
|---|---|---|
| `wrappers.dfy` | `Wrappers` | `Option`, `Result` (a value or a raised exception), `Outcome` |
| `json.dfy` | `Json`, `Errors` | decoded JSON values and Python's `isinstance` on them; the exceptions the core raises |
| `deep_merge.dfy` | `DeepMerge` | `_deep_merge` as a function, as the loop that runs it and as a mutable dictionary |
| `validation.dfy` | `Validation` | `_get_and_validate_key` and its type expressions |
| `releases.dfy` | `Packaging`, `Releases` | the PEP 440 library as parameters; `ReleaseStream`, `ReleaseInfo`, `ReleaseIndex` |
| `import_system.dfy` | `ImportSystem` | module specs, spec lookups and the `sys.meta_path` list as a class |
| `updates.dfy` | `Updates` | `_generate_ll_version_line`, the target modules as a class, `UpdateManager`, `_generate_server_config` |
| `interception.dfy` | `Interception` | the target names, the loader wrapper and the finder |

Python objects that the code updates in place are classes:

- the target module;
- `UpdateManager`;
- `sys.meta_path`;
- the dictionary `_deep_merge` writes into.

The state-changing methods are proved against pure functions of the old state: `ManagerPatched`, `ServerConfigPatched`, `VersionPinsPatched`, `Merge`, `RemoveAt` and `InsertAt`. The lemmas are stated about those functions.

Code the model does not contain is supplied as function parameters:

- `packaging`'s `SpecifierSet(raw)`, `str(s)` and `s.contains(v, prereleases=True)`;
- the target's `LavalinkVersion.from_version_output`;
- `importlib.util.find_spec`;
- the real loaders' `create_module` and `exec_module`.

The parser's round trip assumes the library's own law, `SpecifierSet(str(s)) == s` (`Packaging.ShowParses`).

Several behaviours of the code are easy to misread; the model follows the code as written:

- **The finder can stay removed.** `find_spec` pops itself off `sys.meta_path` before the delegated lookup and reinserts itself after it (`meta_path_finder.py:55-58`), with no `try`/`finally`. When the lookup raises, the finder stays popped. `Interception.Finder.FindSpec` states that outcome.
- **`application_yml_overrides` is required.** The dataclass gives the field a default of an empty dict (`update_manager.py:96`), but `from_json_dict` fetches it through `_get_and_validate_key`, which reads `data[key]` (`update_manager.py:45`). A missing key is therefore a `KeyError`, as for every other key.
- **An unknown `release_stream` raises the enum's `ValueError`.** The enum lookup sits under `except InvalidSpecifier` (`update_manager.py:100-107`), which the lookup never raises. The `ValueError` is therefore not rewrapped as `TypeError`.
- **The items of `java_versions` are not checked.** `typing.List[int].__origin__` is the builtin `list`, so `origin is List` (`update_manager.py:58`) is never true and lines 59-73 never run. Any JSON list passes, whatever its items, and the release keeps them as they are.
- **An empty `java_versions` is accepted.** Nothing checks the length. `update_version_pins` then assigns `JAR_VERSION`, `YT_PLUGIN_VERSION` and `SUPPORTED_JAVA_VERSIONS` before `java_versions[-1]` (`update_manager.py:215`) raises `IndexError`, leaving the module half patched.
- **Booleans count as integers.** `isinstance(True, int)` holds, so a JSON boolean passes an `int` or `Union[int, ...]` check (`update_manager.py:55`).

## Model

| member | source | states |
|---|---|---|
| `DeepMerge.Merge` | core_exp_audio_ll_updates/update_manager.py:17-27 | the keys afterwards are those of both sides; a key only in the destination keeps its value; a non-dict source value overwrites; a source key holds a dict afterwards exactly when the source value is a dict |
| `DeepMerge.MergeAt` | core_exp_audio_ll_updates/update_manager.py:17-27 | after the merge, the keys are those of both sides; a key only in the destination keeps its value; a source key whose values are not both dicts takes the source value; where both are dicts, the value is their recursive merge |
| `DeepMerge.MergeAddKey` | core_exp_audio_ll_updates/update_manager.py:18-27 | one more iteration of the loop over the source keys recurses where both values are dicts and overwrites otherwise, and yields the merge with that key added |
| `DeepMerge.MergeIntoEmpty` | core_exp_audio_ll_updates/update_manager.py:17-27 | merging into an empty dictionary yields the source |
| `DeepMerge.MergeSelf` | core_exp_audio_ll_updates/update_manager.py:17-27 | merging a dictionary into an equal one changes nothing |
| `DeepMerge.MergeIdempotent` | core_exp_audio_ll_updates/update_manager.py:17-27 | merging the same source a second time gives what merging once gave |
| `DeepMerge.SourceLeafWins` | core_exp_audio_ll_updates/update_manager.py:19-27 | a non-dict value the source holds at a key path is the merged value at that path |
| `DeepMerge.UntouchedLeafKept` | core_exp_audio_ll_updates/update_manager.py:18-27 | a non-dict value of the destination at a path the source does not reach survives the merge |
| `DeepMerge.LayersStable` | core_exp_audio_ll_updates/update_manager.py:227-228 | re-applying two merge layers on top of their own result changes nothing |
| `DeepMerge.DeepMergeInto` | core_exp_audio_ll_updates/update_manager.py:17-27 | the loop over the source keys, recursing into nested dicts and overwriting otherwise, produces exactly the merge |
| `DeepMerge.ConfigDict.DeepMerge` | core_exp_audio_ll_updates/update_manager.py:17-27 | merging in place leaves the dictionary holding the merge of its old contents with the source, which is only read |
| `Validation.InstanceOfAnyIsSomeInstance` | core_exp_audio_ll_updates/update_manager.py:55 | `isinstance(v, types)` holds exactly when `v` is an instance of one of the types |
| `Validation.GetAndValidateKey` | core_exp_audio_ll_updates/update_manager.py:30-75 | `KeyError` exactly when the key is missing; success exactly when the value passes `isinstance` against the origin or union members, returning it unchanged; otherwise `TypeError` for that key |
| `Validation.StrTypeIsString` | core_exp_audio_ll_updates/update_manager.py:49-56 | a value passes the `str` check exactly when it is a JSON string |
| `Validation.AnyAcceptsEverything` | core_exp_audio_ll_updates/update_manager.py:46-47 | `Any` returns any present value |
| `Validation.GenericChecksOriginOnly` | core_exp_audio_ll_updates/update_manager.py:49-58 | a subscripted generic such as `List[int]` or `Dict[str, Any]` accepts exactly the values of its origin class, since `origin is List` never holds |
| `Validation.ListItemsNotChecked` | core_exp_audio_ll_updates/update_manager.py:49-58 | every JSON list passes the `List[int]` check, whatever its items |
| `Validation.BooleansAreInts` | core_exp_audio_ll_updates/update_manager.py:49-56 | a boolean passes the `int` check and a `Union[int, str]` check |
| `Releases.StreamFromValue` | core_exp_audio_ll_updates/update_manager.py:82-84 | the enum lookup succeeds exactly for "stable" and "preview", giving the member with that value; otherwise it raises `ValueError` |
| `Releases.StreamValueRoundTrip` | core_exp_audio_ll_updates/update_manager.py:82-84 | looking a member up by its `.value` gives the member back |
| `Releases.KeyProblem` | core_exp_audio_ll_updates/update_manager.py:45-56 | a key has no problem exactly when it is present and its value passes the key's check |
| `Releases.FirstProblemExplains` | core_exp_audio_ll_updates/update_manager.py:99-131 | whichever of the ten checks fails first, in read order, its exception names the key or value that caused it |
| `Releases.GetKey` | core_exp_audio_ll_updates/update_manager.py:100-130 | fetching one of the eight keys against its type expression succeeds exactly when the key is present and passes, returning its value; otherwise the error is `KeyError` for a missing key and `TypeError` for that key otherwise |
| `Releases.ReadStream` | core_exp_audio_ll_updates/update_manager.py:100-107 | the stream stage succeeds exactly when `release_stream` is a string naming a member, and that member has the string as its value; its error is that of the first failing check |
| `Releases.ReadRedVersion` | core_exp_audio_ll_updates/update_manager.py:109-116 | the red-version stage succeeds exactly when `red_version` is a string the specifier parser accepts, giving its result; an unparsable string is a `TypeError`; its error is that of the first failing check from the third on |
| `Releases.ReadStrings` | core_exp_audio_ll_updates/update_manager.py:118-124 | the four string keys are read in source order and the stage succeeds exactly when all are strings; otherwise the error is that of the first of them that fails |
| `Releases.Assemble` | core_exp_audio_ll_updates/update_manager.py:120-131 | the record is built exactly when `java_versions` is a list and `application_yml_overrides` a dict, and it holds that list's items, that dict and the parts read before; otherwise the error is that of the first of the two that fails |
| `Releases.FromJsonDict` | core_exp_audio_ll_updates/update_manager.py:99-131 | parsing succeeds exactly when all eight keys are present and pass, the stream is known and the red version parses; otherwise the exception is that of the first check that fails in read order |
| `Releases.ParserExceptions` | core_exp_audio_ll_updates/update_manager.py:99-131 | every exception the parser raises is explained by the input and is a `KeyError`, `TypeError` or `ValueError` |
| `Releases.AsJsonDict` | core_exp_audio_ll_updates/update_manager.py:133-143 | the serialised dict has exactly the eight keys, and each holds a value that passes that key's check |
| `Releases.AsJsonDictHolds` | core_exp_audio_ll_updates/update_manager.py:133-143 | the serialised dict holds each field under its key, `red_version` as the printed specifier set |
| `Releases.HoldsReadsBack` | core_exp_audio_ll_updates/update_manager.py:99-131 | any dict holding a release's fields under their keys, with a `red_version` string that parses to its specifier set, parses to that release |
| `Releases.ParsedHolds` | core_exp_audio_ll_updates/update_manager.py:99-131 | an accepted dict holds the parsed release's fields under their keys |
| `Releases.RoundTrip` | core_exp_audio_ll_updates/update_manager.py:99-143 | when the specifier set prints to a string that parses back to it, parsing the serialised release gives the release back |
| `Releases.ParsedReleaseSerialisesBack` | core_exp_audio_ll_updates/update_manager.py:99-143 | serialising a parsed release gives exactly the eight keys, each holding its input value, except `red_version`, which holds the printed parse of the input string |
| `Releases.JavaVersionItemsUnchecked` | core_exp_audio_ll_updates/update_manager.py:125 | replacing the `java_versions` list of an accepted dict with any other list still parses, and the release holds the new list |
| `Releases.MissingKeyReported` | core_exp_audio_ll_updates/update_manager.py:99-131 | removing any one of the eight keys from an acceptable dict makes parsing raise `KeyError` for that key, including `application_yml_overrides` |
| `Releases.WrongTypeReported` | core_exp_audio_ll_updates/update_manager.py:99-131 | replacing any one key's value with `null` makes parsing raise `TypeError` for that key |
| `Releases.ParseElement` | core_exp_audio_ll_updates/update_manager.py:152 | an element parses exactly when it is an acceptable dict; a non-dict element fails with its own error; a dict's error is that of its first failing check |
| `Releases.ParseAll` | core_exp_audio_ll_updates/update_manager.py:151-152 | parsing the array succeeds exactly when every element parses, keeping length and order; a failure is the error of the first element that fails |
| `Releases.FromJsonArray` | core_exp_audio_ll_updates/update_manager.py:147-152 | the index holds the parsed elements in order, or the parse error |
| `Releases.EligibleStreams` | core_exp_audio_ll_updates/update_manager.py:157-159 | STABLE is always eligible; PREVIEW is eligible exactly when PREVIEW is asked for |
| `Releases.FirstSelectable` | core_exp_audio_ll_updates/update_manager.py:161-170 | the index found is of a release with an eligible stream whose constraint contains the host version when one is given, and every earlier release fails a test; none is found only when every release fails |
| `Releases.GetLatestRelease` | core_exp_audio_ll_updates/update_manager.py:154-170 | the scan with `continue`s returns the first selectable release, or raises `ValueError` when there is none |
| `Releases.StableNeverYieldsPreview` | core_exp_audio_ll_updates/update_manager.py:157-163 | a STABLE request never returns a PREVIEW release |
| `Releases.PreviewNoLaterThanStable` | core_exp_audio_ll_updates/update_manager.py:157-168 | whenever a STABLE request finds a release, a PREVIEW request finds one at the same position or earlier |
| `Releases.PreviewFallsBackToStable` | core_exp_audio_ll_updates/update_manager.py:157-168 | when no PREVIEW release passes the host filter, a PREVIEW request returns what a STABLE request returns |
| `Releases.UnfilteredNoLater` | core_exp_audio_ll_updates/update_manager.py:164-168 | the result without a host version is never later in the list than the result with one |
| `Releases.EmptyIndexFails` | core_exp_audio_ll_updates/update_manager.py:170 | an empty index always raises `ValueError` |
| `Releases.HostFilterDecides` | core_exp_audio_ll_updates/update_manager.py:164-167 | a release is chosen for a host version its constraint contains and not for one it excludes |
| `Releases.OrderDecidesPrecedence` | core_exp_audio_ll_updates/update_manager.py:161-168 | with one STABLE and one PREVIEW release, a PREVIEW request returns whichever is listed first, and a STABLE request skips the PREVIEW one |
| `ImportSystem.FirstIndexOf` | core_exp_audio_ll_updates/meta_path_finder.py:55 | the index is of an occurrence with none before it, and none is found exactly when the object is absent |
| `ImportSystem.InsertRemoved` | core_exp_audio_ll_updates/meta_path_finder.py:55-58 | popping the element at an index and inserting it back at that index restores the list exactly |
| `ImportSystem.RemoveFirstOccurrence` | core_exp_audio_ll_updates/meta_path_finder.py:55-56 | after popping the first occurrence, the object is still in the list exactly when it occurred again later |
| `ImportSystem.MetaPath.Index` | core_exp_audio_ll_updates/meta_path_finder.py:55 | `list.index` returns the first occurrence, or raises `ValueError` when the finder is absent |
| `ImportSystem.MetaPath.Pop` | core_exp_audio_ll_updates/meta_path_finder.py:56 | `list.pop(i)` returns the element at `i` and removes exactly it |
| `ImportSystem.MetaPath.Insert` | core_exp_audio_ll_updates/meta_path_finder.py:58 | `list.insert(i, x)` puts `x` at `i`, appending past the end |
| `Updates.EncodeChar` | core_exp_audio_ll_updates/update_manager.py:79 | a character encodes to 1, 2, 3 or 4 UTF-8 bytes as its code is below 0x80, 0x800, 0x10000 or above; the lead byte's range gives the length; the payload bits of the lead and continuation bytes spell the code |
| `Updates.Utf8Encode` | core_exp_audio_ll_updates/update_manager.py:79 | a string encodes to between one and four bytes per character |
| `Updates.Utf8EncodeAppend` | core_exp_audio_ll_updates/update_manager.py:79 | encoding a concatenation is the concatenation of the encodings |
| `Updates.AsciiEncodesAsIs` | core_exp_audio_ll_updates/update_manager.py:79 | an ASCII string encodes to its own character codes, one byte each |
| `Updates.VersionPrefixIsEncoded` | core_exp_audio_ll_updates/update_manager.py:79 | the bytes literal `b"Version: "` is the UTF-8 encoding of the text `Version: ` |
| `Updates.VersionLine` | core_exp_audio_ll_updates/update_manager.py:78-79 | the version line starts with the nine bytes `Version: ` and is one to four bytes per character of the version longer |
| `Updates.VersionLineIsEncodedText` | core_exp_audio_ll_updates/update_manager.py:78-79 | the version line is the encoding of `Version: ` followed by the raw version, byte for byte for an ASCII version |
| `Updates.EffectiveConfig` | core_exp_audio_ll_updates/update_manager.py:224-228 | with no release the module's output is the result; with one, the keys are those of the three layers and a non-dict value of the caller's input is the result's value |
| `Updates.Generate` | core_exp_audio_ll_updates/update_manager.py:200-201 | a wrapper whose manager has a release returns a dict holding every key of the caller's input and of the release's overrides |
| `Updates.ManagerPatched` | core_exp_audio_ll_updates/update_manager.py:187-190 | the download URL becomes the release's `jar_url` when there is a release and nothing else changes |
| `Updates.ServerConfigPatched` | core_exp_audio_ll_updates/update_manager.py:192-204 | only `generate_server_config` can change; afterwards it is a wrapper exactly when there is a release or it was one; a change installs a wrapper around the old function with this manager; a function already tagged as a wrapper, by whichever manager, is left exactly as it was |
| `Updates.VersionPinsPatched` | core_exp_audio_ll_updates/update_manager.py:206-216 | the download URL, the config function and the parser are never changed; a rejected version line fails with nothing assigned; `IndexError` exactly when the line is accepted and `java_versions` empty, with JAR_VERSION, YT_PLUGIN_VERSION and SUPPORTED (empty) assigned and everything else untouched; no other error among the strings a Dafny `char` can form; on success OLDER followed by LATEST is SUPPORTED |
| `Updates.Module.Execute` | core_exp_audio_ll_updates/meta_path_finder.py:36 | running a module body defines every symbol it defines and keeps the module's spec |
| `Updates.UpdateManager.UpdateManager` | core_exp_audio_ll_updates/update_manager.py:187-190 | with no release the module is untouched; otherwise only the download URL changes, to `jar_url` |
| `Updates.UpdateManager.UpdateLlServerConfig` | core_exp_audio_ll_updates/update_manager.py:192-204 | with no release, or a function already tagged as the wrapper, the module is untouched; otherwise only `generate_server_config` changes, to a wrapper around the old function reading this manager |
| `Updates.UpdateManager.UpdateVersionPins` | core_exp_audio_ll_updates/update_manager.py:206-216 | with no release the module is untouched; a version line the target's parser rejects raises before any assignment; an empty `java_versions` raises `IndexError` after three assignments; otherwise all five pins are set |
| `Updates.GenerateServerConfig` | core_exp_audio_ll_updates/update_manager.py:219-229 | returns the original's output unchanged when no release is selected at call time, else that output merged with the release's overrides and then with the caller's input |
| `Updates.NoReleaseNoChange` | core_exp_audio_ll_updates/update_manager.py:187-216 | with no release selected, none of the three patches changes the module |
| `Updates.PatchesIdempotent` | core_exp_audio_ll_updates/update_manager.py:187-216 | applying each patch twice leaves the module as applying it once does, and for the version pins gives the same outcome on every path, a rejected line and `IndexError` included; for the config patch this rests on the tag check |
| `Updates.VersionPinsContent` | core_exp_audio_ll_updates/update_manager.py:209-216 | after a successful pin update, the target's parser was given the version line of `jar_version`; SUPPORTED is the full tuple, LATEST its last element, and OLDER followed by LATEST is SUPPORTED; the download URL and config function are untouched |
| `Updates.CallerLeafWins` | core_exp_audio_ll_updates/update_manager.py:226-228 | a non-dict value in the caller's input is the value in the effective config |
| `Updates.OverrideLeafWins` | core_exp_audio_ll_updates/update_manager.py:226-228 | a release override's non-dict value survives wherever the caller's input does not reach |
| `Updates.BaseLeafKept` | core_exp_audio_ll_updates/update_manager.py:224-228 | a non-dict value in the module's own output survives wherever neither upper layer reaches |
| `Updates.PrecedenceExample` | core_exp_audio_ll_updates/update_manager.py:224-228 | for module output `{a:1,b:{c:1}}`, overrides `{b:{c:2,d:3}}` and caller input `{b:{c:9}}`, the result has `b.c = 9`, `b.d = 3` and `a = 1` |
| `Updates.DoubleWrapSameResult` | core_exp_audio_ll_updates/update_manager.py:219-229 | a wrapper around a wrapper of the same manager would return what a single wrapper returns |
| `Interception.AffectedModulesAreTheThreeTargets` | core_exp_audio_ll_updates/meta_path_finder.py:12-21 | the intercepted names are exactly the three distinct modules `redbot.cogs.audio.manager`, `redbot.cogs.audio.managed_node.ll_server_config` and `redbot.cogs.audio.managed_node.version_pins`; the parent packages are not among them |
| `Interception.PatchFor` | core_exp_audio_ll_updates/meta_path_finder.py:38-43 | a patch is chosen exactly for the three target names, and each name selects its own patch |
| `Interception.WrapSpec` | core_exp_audio_ll_updates/meta_path_finder.py:62-64 | the handed-out spec keeps the real spec's name, origin and search locations; its loader is the wrapper; its loader state is the pair of the real spec and the real spec's loader state |
| `Interception.ResolveActual` | core_exp_audio_ll_updates/meta_path_finder.py:33-35 | when the module's spec names this loader, the real spec is taken from the loader state, and unpacking anything but the pair raises; otherwise the module's spec is used as is |
| `Interception.Executed` | core_exp_audio_ll_updates/meta_path_finder.py:32-43 | no loader, or a real loader that raises, gives that error with the module untouched; after the loader, a non-target name keeps the body's symbols; each target name then gets exactly its own patch applied to the body's symbols; the only other errors are the version-pin ones |
| `Interception.ExecutedPatchesByName` | core_exp_audio_ll_updates/meta_path_finder.py:36-43 | after the real loader has run, a name outside the targets is left as the body defined it, and each target name changes only the symbols of its own patch, and the result is that patch applied to the body |
| `Interception.WrappedSpecResolves` | core_exp_audio_ll_updates/meta_path_finder.py:33-35 | a spec handed out by the finder leads its loader back to the real spec |
| `Interception.InterceptLoader.CreateModule` | core_exp_audio_ll_updates/meta_path_finder.py:28-30 | the real spec is unpacked from the loader state and its loader creates the module; a loader state that is not a pair, or a real spec without a loader, raises |
| `Interception.InterceptLoader.CreateModuleDelegates` | core_exp_audio_ll_updates/meta_path_finder.py:28-30 | on a spec the finder handed out, `create_module` returns what the real loader returns for the real spec |
| `Interception.InterceptLoader.ExecModule` | core_exp_audio_ll_updates/meta_path_finder.py:32-43 | the real loader's body runs first and then exactly the patch the real name selects, using the manager's release at that moment; unpacking or loader errors leave the module untouched |
| `Interception.Finder.FindSpec` | core_exp_audio_ll_updates/meta_path_finder.py:50-66 | a non-target name gives `None` with the list unchanged; an unregistered finder raises `ValueError`; the lookup runs on the list without the finder's first occurrence; if it raises, the list stays that way; otherwise the list is restored exactly, giving `None` when nothing is found, else a fresh wrapper loader's spec around the real one; a spec is only ever returned for a target name |
| `Interception.Finder.AbsentDuringLookup` | core_exp_audio_ll_updates/meta_path_finder.py:55-57 | a finder registered once is absent from the list while the delegated lookup runs |

## Left out

- `UpdateManager.__init__`, `close` and `fetch_release_index` (`update_manager.py:174-185`) open, use and close an aiohttp session. Network I/O is not modelled: `FromJsonArray` starts from the decoded JSON array, and the constructor takes only the release.
- `cog.py` and `__init__.py` are Discord command handling, persistence and cog registration, and are not part of this model.
- `packaging`'s `SpecifierSet` and `Version` are opaque types. Their parse, print and `contains` are parameters (`Packaging.Pep440`), not a PEP 440 implementation.
- `LavalinkVersion.from_version_output` is a parameter of each target module (`ModuleSymbols.fromVersionOutput`). Whatever it raises is one error, `VersionOutputRejected`.
- `importlib.util.find_spec` is a parameter of `FindSpec`, and the real loaders are parameters of `CreateModule` and `ExecModule`. The module cache `sys.modules` and `functools.wraps` metadata copying are not modelled.
- `Interception.InterceptLoader.CreateModule`: a real spec whose own loader is another interception loader is handed to the supplied `create` like any other loader, not followed into that loader's state.
- `Interception.InterceptLoader.ExecModule`: a module body that raises is modelled as leaving the module's symbols as they were. Python keeps whatever the body assigned before raising.
- `Interception.InterceptLoader.ExecModule`: a real spec whose own loader is another interception loader (as `find_spec` can return for a module already in `sys.modules`) is handed to the supplied `run` like any other loader; the two loaders calling each other's `exec_module` is not modelled.
- `Interception.Finder.FindSpec`: the `path` and `target` arguments are ignored by the source and are left out.
- `Interception.Finder.FindSpec`: the delegated `importlib.util.find_spec` is a pure function of the list and the name, so it cannot change `sys.meta_path`; the promise that the list is restored exactly rests on that. A lookup that imports a parent package, runs code that edits `sys.meta_path`, or re-enters the finder is not modelled.
- The item check of `_get_and_validate_key` under `if origin is List` (`update_manager.py:58-73`) is not modelled, because no origin is the `typing.List` alias and the block never runs.
- The type expression itself is a value of `Validation.TypeExpr`, not a Python typing object; a class's `__origin__` is the class itself and a generic's is its builtin class.
- Dictionaries are maps: key order is not modelled. `deepcopy` is the identity, so sharing between the merged dictionary and the source is not modelled.
- `Updates.Module` holds the union of the symbols of the three target modules: `ServerManager.LAVALINK_DOWNLOAD_URL`, `generate_server_config` and the five version pins with the parser. A real module defines only its own subset.
- `Updates.ConfigGenerator`: the `func` tag on a wrapper is modelled as the `Patched` constructor. A foreign function carrying the same tag is not modelled.
- `Updates.VersionPinsPatched`: the `UnicodeEncodeError` that `_generate_ll_version_line` (`update_manager.py:79`, called at `update_manager.py:209-211`) raises for a `jar_version` holding a lone surrogate is not modelled. Python's JSON decoder produces such strings from escapes like `\ud800`, but a Dafny `char` is a Unicode scalar value, so `Updates.Utf8Encode` never fails and that error path, which assigns nothing, is dropped.
- `Releases.ReleaseIndex` holds its releases as an immutable sequence. The list `ReleaseIndex.__init__` builds is never mutated by the core.
- Exception messages are not modelled, only which exception is raised and about which key.
