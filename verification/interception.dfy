/** The import interception layer: a finder on `sys.meta_path` that, for three Audio modules,
    hands out a copy of the real spec whose loader runs the real loader and then patches the
    module through an `UpdateManager`. */
module Interception {
  import opened Wrappers
  import opened Errors
  import opened ImportSystem
  import opened Releases
  import opened Updates

  const AudioModName: string := "redbot.cogs.audio"
  const AudioManagerModName: string := AudioModName + ".manager"
  const AudioManagedNodeModName: string := AudioModName + ".managed_node"
  const AudioLlServerConfigModName: string := AudioManagedNodeModName + ".ll_server_config"
  const AudioVersionPinsModName: string := AudioManagedNodeModName + ".version_pins"

  /** The modules whose import is intercepted. */
  const AudioAffectedModules: seq<string> :=
    [AudioManagerModName, AudioLlServerConfigModName, AudioVersionPinsModName]

  /** The intercepted names are exactly these three; the packages above them are not among
      them. */
  lemma AffectedModulesAreTheThreeTargets()
    ensures AudioAffectedModules ==
      ["redbot.cogs.audio.manager", "redbot.cogs.audio.managed_node.ll_server_config",
       "redbot.cogs.audio.managed_node.version_pins"]
    ensures AudioModName !in AudioAffectedModules && AudioManagedNodeModName !in AudioAffectedModules
    ensures |set n | n in AudioAffectedModules| == 3
  {
    assert AudioManagerModName == "redbot.cogs.audio.manager";
    assert AudioManagedNodeModName == "redbot.cogs.audio.managed_node";
    assert AudioLlServerConfigModName == "redbot.cogs.audio.managed_node.ll_server_config";
    assert AudioVersionPinsModName == "redbot.cogs.audio.managed_node.version_pins";
    assert |AudioModName| == 17 && |AudioManagedNodeModName| == 30;
    assert |AudioManagerModName| == 25 && |AudioLlServerConfigModName| == 47 && |AudioVersionPinsModName| == 43;
    var names := set n | n in AudioAffectedModules;
    assert names == {AudioManagerModName, AudioLlServerConfigModName, AudioVersionPinsModName};
    assert names == {AudioManagerModName} + {AudioLlServerConfigModName} + {AudioVersionPinsModName};
  }

  /** The three patch functions of `UpdateManager`. */
  datatype Patch = ManagerPatch | ServerConfigPatch | VersionPinsPatch

  /** The patch the `if`/`elif` chain of `exec_module` picks for a module name. */
  function PatchFor(name: string): (p: Option<Patch>)
    ensures p.Some? <==> name in AudioAffectedModules
    ensures p == Some(ManagerPatch) <==> name == AudioManagerModName
    ensures p == Some(ServerConfigPatch) <==> name == AudioLlServerConfigModName
    ensures p == Some(VersionPinsPatch) <==> name == AudioVersionPinsModName
  {
    if name == AudioManagerModName then Some(ManagerPatch)
    else if name == AudioLlServerConfigModName then Some(ServerConfigPatch)
    else if name == AudioVersionPinsModName then Some(VersionPinsPatch)
    else None
  }

  /** The spec `find_spec` returns for a real spec `actual`: a shallow copy whose loader is the
      interception loader and whose loader state is `(actual, actual's loader state)`. */
  function WrapSpec(actual: ModuleSpec, loader: object): (spec: ModuleSpec)
    ensures spec.name == actual.name && spec.origin == actual.origin
    ensures spec.submoduleSearchLocations == actual.submoduleSearchLocations
    ensures spec.loader == Some(loader)
    ensures spec.loaderState.Intercepted?
    ensures spec.loaderState.actual == actual && spec.loaderState.original == actual.loaderState
  {
    actual.(loader := Some(loader), loaderState := Intercepted(actual, actual.loaderState))
  }

  /** The spec `exec_module` goes by: the real spec stored in the loader state when the module's
      spec names `self` as its loader, the module's spec itself otherwise. Unpacking a loader
      state that is not a pair raises. */
  function ResolveActual(spec: ModuleSpec, self: object): (r: Result<ModuleSpec, Error>)
    ensures spec.loader != Some(self) ==> r == Success(spec)
    ensures spec.loader == Some(self) ==>
      (r.Success? <==> spec.loaderState.Intercepted?) &&
      (r.Success? ==> r.value == spec.loaderState.actual) &&
      (r.Failure? ==> r.error == LoaderStateNotPair)
  {
    if spec.loader != Some(self) then Success(spec)
    else if spec.loaderState.Intercepted? then Success(spec.loaderState.actual)
    else Failure(LoaderStateNotPair)
  }

  /** What running the real loader and then the matching patch leaves in the module, starting
      from symbols `s`: a spec without a loader raises; a module body that raises leaves `s`; a
      name outside the targets gets the body's symbols unpatched. */
  function Executed(actual: ModuleSpec, run: (object, ModuleSpec) -> Result<ModuleSymbols, Error>,
                    s: ModuleSymbols, manager: UpdateManager, release: Option<ReleaseInfo>)
    : (r: (Outcome<Error>, ModuleSymbols))
    ensures actual.loader.None? ==> r == (Fail(NoLoader), s)
    ensures actual.loader.Some? && run(actual.loader.value, actual).Failure? ==>
      r == (Fail(run(actual.loader.value, actual).error), s)
    ensures actual.loader.Some? && run(actual.loader.value, actual).Success? ==>
      && (actual.name !in AudioAffectedModules ==> r == (Pass, run(actual.loader.value, actual).value))
      && (r.0.Pass? || r.0 == Fail(VersionOutputRejected) || r.0 == Fail(EmptyJavaVersions))
      && (actual.name == AudioManagerModName ==>
            r == (Pass, ManagerPatched(run(actual.loader.value, actual).value, release)))
      && (actual.name == AudioLlServerConfigModName ==>
            r == (Pass, ServerConfigPatched(run(actual.loader.value, actual).value, manager, release)))
      && (actual.name == AudioVersionPinsModName ==>
            r == VersionPinsPatched(run(actual.loader.value, actual).value, release))
  {
    if actual.loader.None? then (Fail(NoLoader), s)
    else match run(actual.loader.value, actual)
      case Failure(e) => (Fail(e), s)
      case Success(body) =>
        match PatchFor(actual.name)
        case None => (Pass, body)
        case Some(ManagerPatch) => (Pass, ManagerPatched(body, release))
        case Some(ServerConfigPatch) => (Pass, ServerConfigPatched(body, manager, release))
        case Some(VersionPinsPatch) => VersionPinsPatched(body, release)
  }

  /** Exactly one patch runs after the real loader, the one the real name selects, and only the
      symbols that patch writes differ from the module body's. */
  lemma ExecutedPatchesByName(actual: ModuleSpec, run: (object, ModuleSpec) -> Result<ModuleSymbols, Error>,
                              s: ModuleSymbols, manager: UpdateManager, release: Option<ReleaseInfo>)
    requires actual.loader.Some? && run(actual.loader.value, actual).Success?
    ensures var body := run(actual.loader.value, actual).value;
      var (outcome, t) := Executed(actual, run, s, manager, release);
      && (actual.name !in AudioAffectedModules ==> outcome == Pass && t == body)
      && (actual.name == AudioManagerModName ==>
            outcome == Pass && t.(downloadUrl := body.downloadUrl) == body)
      && (actual.name == AudioLlServerConfigModName ==>
            outcome == Pass && t.(generateServerConfig := body.generateServerConfig) == body)
      && (actual.name == AudioVersionPinsModName ==>
            t.(jarVersion := body.jarVersion, ytPluginVersion := body.ytPluginVersion,
               supportedJavaVersions := body.supportedJavaVersions,
               latestSupportedJavaVersion := body.latestSupportedJavaVersion,
               olderSupportedJavaVersions := body.olderSupportedJavaVersions) == body)
      && (actual.name == AudioManagerModName ==> (outcome, t) == (Pass, ManagerPatched(body, release)))
      && (actual.name == AudioLlServerConfigModName ==>
            (outcome, t) == (Pass, ServerConfigPatched(body, manager, release)))
      && (actual.name == AudioVersionPinsModName ==> (outcome, t) == VersionPinsPatched(body, release))
  {
  }

  /** A spec handed out by the finder leads the loader back to the real spec. */
  lemma WrappedSpecResolves(actual: ModuleSpec, loader: object)
    ensures ResolveActual(WrapSpec(actual, loader), loader) == Success(actual)
  {
  }

  /** `CoreExpAudioLavalinkUpdatesLoader`. */
  class InterceptLoader {
    const updateManager: UpdateManager

    constructor (updateManager: UpdateManager)
      ensures this.updateManager == updateManager
    {
      this.updateManager := updateManager;
    }

    /** `create_module(spec)`: unpack the real spec from the loader state and ask its loader,
        whose answer `create` supplies. A loader state that is not a pair raises, and so does a
        real spec without a loader. */
    function CreateModule(spec: ModuleSpec, create: (object, ModuleSpec) -> Result<Option<object>, Error>)
      : (r: Result<Option<object>, Error>)
      ensures !spec.loaderState.Intercepted? ==> r == Failure(LoaderStateNotPair)
      ensures spec.loaderState.Intercepted? && spec.loaderState.actual.loader.None? ==> r == Failure(NoLoader)
      ensures spec.loaderState.Intercepted? && spec.loaderState.actual.loader.Some? ==>
        r == create(spec.loaderState.actual.loader.value, spec.loaderState.actual)
    {
      match spec.loaderState
      case Intercepted(actual, _) =>
        if actual.loader.None? then Failure(NoLoader) else create(actual.loader.value, actual)
      case _ => Failure(LoaderStateNotPair)
    }

    /** `exec_module(module)`: run the real loader on the module (its effect is the module body
        `run` supplies), then the patch matching the real spec's name. */
    method ExecModule(target: Module, run: (object, ModuleSpec) -> Result<ModuleSymbols, Error>)
      returns (outcome: Outcome<Error>)
      modifies target
      ensures target.spec == old(target.spec)
      ensures match ResolveActual(old(target.spec), this)
        case Failure(e) => outcome == Fail(e) && target.Current() == old(target.Current())
        case Success(actual) =>
          (outcome, target.Current()) ==
            Executed(actual, run, old(target.Current()), updateManager, updateManager.releaseInfo)
    {
      var actual := target.spec;
      if actual.loader == Some(this) {
        if !actual.loaderState.Intercepted? {
          return Fail(LoaderStateNotPair);
        }
        actual := actual.loaderState.actual;
      }
      if actual.loader.None? {
        return Fail(NoLoader);
      }
      var body := run(actual.loader.value, actual);
      if body.Failure? {
        return Fail(body.error);
      }
      target.Execute(body.value);

      outcome := Pass;
      if actual.name == AudioManagerModName {
        updateManager.UpdateManager(target);
      } else if actual.name == AudioLlServerConfigModName {
        updateManager.UpdateLlServerConfig(target);
      } else if actual.name == AudioVersionPinsModName {
        outcome := updateManager.UpdateVersionPins(target);
      }
    }

    /** `create_module` on a spec the finder handed out delegates to the real loader with the
        real spec. */
    lemma CreateModuleDelegates(actual: ModuleSpec, create: (object, ModuleSpec) -> Result<Option<object>, Error>)
      requires actual.loader.Some?
      ensures CreateModule(WrapSpec(actual, this), create) == create(actual.loader.value, actual)
    {
    }
  }

  /** `CoreExpAudioLavalinkUpdatesFinder`. */
  class Finder {
    const updateManager: UpdateManager

    constructor (updateManager: UpdateManager)
      ensures this.updateManager == updateManager
    {
      this.updateManager := updateManager;
    }

    /** `find_spec(fullname, ...)` against the finder list `meta`; `lookup(entries, name)` is
        `importlib.util.find_spec(name)` run while the list holds `entries`. Nothing restores
        the list when the lookup raises. `loader` is the interception loader put into the
        returned spec, `null` when no spec is returned. */
    method FindSpec(meta: MetaPath, fullname: string, lookup: (seq<object>, string) -> SpecLookup)
      returns (r: Result<Option<ModuleSpec>, Error>, loader: InterceptLoader?)
      modifies meta
      ensures fullname !in AudioAffectedModules ==> r == Success(None) && meta.entries == old(meta.entries)
      ensures fullname in AudioAffectedModules && this !in old(meta.entries) ==>
        r == Failure(FinderNotRegistered) && meta.entries == old(meta.entries)
      ensures fullname in AudioAffectedModules && this in old(meta.entries) ==>
        var i := FirstIndexOf(old(meta.entries), this).value;
        var during := RemoveAt(old(meta.entries), i);
        match lookup(during, fullname)
        case Raised(e) => r == Failure(e) && meta.entries == during
        case NotFound => r == Success(None) && meta.entries == old(meta.entries)
        case Found(actual) =>
          meta.entries == old(meta.entries) && loader != null && fresh(loader) &&
          loader.updateManager == updateManager && r == Success(Some(WrapSpec(actual, loader)))
      ensures r != Success(None) && r.Success? ==> fullname in AudioAffectedModules
    {
      loader := null;
      if fullname !in AudioAffectedModules {
        return Success(None), null;
      }
      var idx := meta.Index(this);
      if idx.Failure? {
        return Failure(idx.error), null;
      }
      var i := idx.value;
      ghost var before := meta.entries;
      var popped := meta.Pop(i);
      var found := lookup(meta.entries, fullname);
      if found.Raised? {
        return Failure(found.error), null;
      }
      meta.Insert(i, this);
      InsertRemoved(before, i);
      if found.NotFound? {
        return Success(None), null;
      }
      loader := new InterceptLoader(updateManager);
      r := Success(Some(WrapSpec(found.spec, loader)));
    }

    /** While the delegated lookup runs, the finder is in the list only if it was registered
        twice, so a single registration cannot be re-entered. */
    lemma AbsentDuringLookup(entries: seq<object>)
      requires this in entries
      requires forall j, k :: 0 <= j < k < |entries| && entries[j] == this ==> entries[k] != this
      ensures this !in RemoveAt(entries, FirstIndexOf(entries, this).value)
    {
      RemoveFirstOccurrence(entries, this);
    }
  }
}
