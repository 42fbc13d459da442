/** The per-test selection and caching rules of RobolectricTestRunner: which
    SDK a test emulates and reports, how @Config layers combine, the
    most-recently-used environment shortcut, once-per-class @BeforeClass
    bookkeeping, the static memo tables, and the order of the cleanup steps
    after a test body. Environments, shadow maps and resource loaders are
    opaque objects: only their identity matters here. */
module TestRunner {
  import opened Wrappers

  // ----- SDK choice -----

  /** An SDK level; SdkConfig objects are equal when their levels are. */
  datatype SdkConfig = SdkConfig(apiLevel: int)

  /** The parts of an application manifest this core reads. */
  datatype AndroidManifest = AndroidManifest(manifestFile: string, targetSdkVersion: int)

  /** Build.VERSION_CODES.ICE_CREAM_SANDWICH. */
  const IceCreamSandwich: int := 14

  /** The manifest attribute of @Config: Config.NONE, Config.DEFAULT or a path. */
  datatype ManifestChoice = NoManifest | DefaultManifest | ManifestAt(path: string)

  /** An effective configuration: every attribute of @Config has a value. */
  datatype Config = Config(emulateSdk: int, reportSdk: int, manifest: ManifestChoice,
                           resourceDir: string, shadows: seq<string>, libraries: seq<string>)

  /** pickSdkVersion: the configured emulateSdk when positive, else the
      manifest's target SDK, else the default SDK. */
  function PickSdkVersion(appManifest: Option<AndroidManifest>, config: Option<Config>,
                          defaultSdk: SdkConfig): (s: SdkConfig)
    ensures config.Some? && config.value.emulateSdk > 0 ==> s == SdkConfig(config.value.emulateSdk)
    ensures (config.None? || config.value.emulateSdk <= 0) && appManifest.Some? ==>
              s == SdkConfig(appManifest.value.targetSdkVersion)
    ensures (config.None? || config.value.emulateSdk <= 0) && appManifest.None? ==> s == defaultSdk
  {
    if config.Some? && config.value.emulateSdk > 0 then SdkConfig(config.value.emulateSdk)
    else if appManifest.Some? then SdkConfig(appManifest.value.targetSdkVersion)
    else defaultSdk
  }

  /** getTargetVersionWhenAppManifestMightBeNullWhaaa: the manifest's target
      SDK, or ICE_CREAM_SANDWICH when there is no manifest. */
  function TargetSdkVersion(appManifest: Option<AndroidManifest>): int
  {
    if appManifest.None? then IceCreamSandwich else appManifest.value.targetSdkVersion
  }

  /** pickReportedSdkVersion: the configured reportSdk unless it is -1, else
      the target SDK of the (possibly missing) manifest. */
  function PickReportedSdkVersion(config: Option<Config>, appManifest: Option<AndroidManifest>): (v: int)
    ensures config.Some? && config.value.reportSdk != -1 ==> v == config.value.reportSdk
    ensures (config.None? || config.value.reportSdk == -1) && appManifest.Some? ==>
              v == appManifest.value.targetSdkVersion
    ensures (config.None? || config.value.reportSdk == -1) && appManifest.None? ==> v == IceCreamSandwich
  {
    if config.Some? && config.value.reportSdk != -1 then config.value.reportSdk
    else TargetSdkVersion(appManifest)
  }

  /** With a manifest and neither emulateSdk nor reportSdk set, the SDK that
      is emulated is the one that is reported: both are the target SDK. */
  lemma ReportedIsEmulatedWithoutOverrides(appManifest: Option<AndroidManifest>, config: Option<Config>,
                                           defaultSdk: SdkConfig)
    requires appManifest.Some?
    requires config.None? || (config.value.emulateSdk <= 0 && config.value.reportSdk == -1)
    ensures PickReportedSdkVersion(config, appManifest) == PickSdkVersion(appManifest, config, defaultSdk).apiLevel
  {
  }

  /** emulateSdk does not reach the reported version: a test configured to
      emulate SDK 18 in a project targeting SDK 16 reports 16, and without
      a manifest it reports ICE_CREAM_SANDWICH. */
  lemma EmulatedSdkIsNotReported(config: Config, target: int)
    requires config.emulateSdk == 18 && config.reportSdk == -1 && target == 16
    ensures PickSdkVersion(Some(AndroidManifest("AndroidManifest.xml", target)), Some(config), SdkConfig(0)).apiLevel == 18
    ensures PickReportedSdkVersion(Some(config), Some(AndroidManifest("AndroidManifest.xml", target))) == 16
    ensures PickReportedSdkVersion(Some(config), None) == IceCreamSandwich
  {
  }

  // ----- Configuration layering -----

  /** One @Config annotation (or the global properties file): each
      attribute it sets is Some, each it leaves at its default is None. */
  datatype ConfigLayer = ConfigLayer(emulateSdk: Option<int>, reportSdk: Option<int>,
                                     manifest: Option<ManifestChoice>, resourceDir: Option<string>,
                                     shadows: Option<seq<string>>, libraries: Option<seq<string>>)

  /** The overlay's value where it sets one, else the base value. */
  function Pick<T>(base: T, overlay: Option<T>): T
  {
    if overlay.Some? then overlay.value else base
  }

  /** new Config.Implementation(base, overlay): the overlay wins on every
      attribute it sets. */
  function Overlay(base: Config, layer: ConfigLayer): Config
  {
    Config(Pick(base.emulateSdk, layer.emulateSdk), Pick(base.reportSdk, layer.reportSdk),
           Pick(base.manifest, layer.manifest), Pick(base.resourceDir, layer.resourceDir),
           Pick(base.shadows, layer.shadows), Pick(base.libraries, layer.libraries))
  }

  /** Folding the layers over a starting config front to back, skipping
      absent layers, as getConfig's sequence of reassignments does. */
  function Layered(config: Config, layers: seq<Option<ConfigLayer>>): Config
    decreases |layers|
  {
    if |layers| == 0 then config
    else Layered(if layers[0].Some? then Overlay(config, layers[0].value) else config, layers[1..])
  }

  /** The reference reading of layering for one attribute: the value set by
      the last present layer that sets it, else the default. */
  function LastSetting<T>(default: T, layers: seq<Option<ConfigLayer>>, field: ConfigLayer -> Option<T>): T
  {
    if |layers| == 0 then default
    else
      var last := layers[|layers| - 1];
      if last.Some? && field(last.value).Some? then field(last.value).value
      else LastSetting(default, layers[..|layers| - 1], field)
  }

  function EmulateSdkOf(l: ConfigLayer): Option<int> { l.emulateSdk }
  function ReportSdkOf(l: ConfigLayer): Option<int> { l.reportSdk }
  function ManifestOf(l: ConfigLayer): Option<ManifestChoice> { l.manifest }
  function ResourceDirOf(l: ConfigLayer): Option<string> { l.resourceDir }
  function ShadowsOf(l: ConfigLayer): Option<seq<string>> { l.shadows }
  function LibrariesOf(l: ConfigLayer): Option<seq<string>> { l.libraries }

  /** The attribute comes from layer k when k sets it and no later present
      layer does. */
  lemma {:induction false} LastSettingFromLayer<T>(default: T, layers: seq<Option<ConfigLayer>>,
                                                   field: ConfigLayer -> Option<T>, k: int)
    requires 0 <= k < |layers| && layers[k].Some? && field(layers[k].value).Some?
    requires forall j | k < j < |layers| :: layers[j].None? || field(layers[j].value).None?
    ensures LastSetting(default, layers, field) == field(layers[k].value).value
    decreases |layers|
  {
    if k < |layers| - 1 {
      var init := layers[..|layers| - 1];
      assert forall j | k < j < |init| :: init[j] == layers[j];
      LastSettingFromLayer(default, init, field, k);
    }
  }

  /** An attribute no present layer sets keeps its default. */
  lemma {:induction false} LastSettingDefault<T>(default: T, layers: seq<Option<ConfigLayer>>,
                                                 field: ConfigLayer -> Option<T>)
    requires forall j | 0 <= j < |layers| :: layers[j].None? || field(layers[j].value).None?
    ensures LastSetting(default, layers, field) == default
    decreases |layers|
  {
    if |layers| > 0 {
      var init := layers[..|layers| - 1];
      assert forall j | 0 <= j < |init| :: init[j] == layers[j];
      LastSettingDefault(default, init, field);
    }
  }

  /** Applying a first layer to the default and then searching the rest is
      searching the whole sequence. */
  lemma {:induction false} LastSettingCons<T>(default: T, first: Option<ConfigLayer>,
                                              rest: seq<Option<ConfigLayer>>, field: ConfigLayer -> Option<T>)
    ensures LastSetting(default, [first] + rest, field)
         == LastSetting(if first.Some? then Pick(default, field(first.value)) else default, rest, field)
    decreases |rest|
  {
    var all := [first] + rest;
    if |rest| > 0 {
      assert all[..|all| - 1] == [first] + rest[..|rest| - 1];
      assert all[|all| - 1] == rest[|rest| - 1];
      LastSettingCons(default, first, rest[..|rest| - 1], field);
    } else {
      assert all[..|all| - 1] == [];
    }
  }

  /** Folding the layers front to back gives, attribute by attribute, the
      value of the last present layer that sets it, or the default. */
  lemma {:induction false} LayeredIsLastSetting(config: Config, layers: seq<Option<ConfigLayer>>)
    ensures Layered(config, layers).emulateSdk == LastSetting(config.emulateSdk, layers, EmulateSdkOf)
    ensures Layered(config, layers).reportSdk == LastSetting(config.reportSdk, layers, ReportSdkOf)
    ensures Layered(config, layers).manifest == LastSetting(config.manifest, layers, ManifestOf)
    ensures Layered(config, layers).resourceDir == LastSetting(config.resourceDir, layers, ResourceDirOf)
    ensures Layered(config, layers).shadows == LastSetting(config.shadows, layers, ShadowsOf)
    ensures Layered(config, layers).libraries == LastSetting(config.libraries, layers, LibrariesOf)
    decreases |layers|
  {
    if |layers| > 0 {
      var first, rest := layers[0], layers[1..];
      assert layers == [first] + rest;
      var next := if first.Some? then Overlay(config, first.value) else config;
      LayeredIsLastSetting(next, rest);
      LastSettingCons(config.emulateSdk, first, rest, EmulateSdkOf);
      LastSettingCons(config.reportSdk, first, rest, ReportSdkOf);
      LastSettingCons(config.manifest, first, rest, ManifestOf);
      LastSettingCons(config.resourceDir, first, rest, ResourceDirOf);
      LastSettingCons(config.shadows, first, rest, ShadowsOf);
      LastSettingCons(config.libraries, first, rest, LibrariesOf);
    }
  }

  /** getConfig: starts from the annotation defaults and overlays, when
      present, the global properties, the method's declaring class, the
      test class and the method, in that order. */
  method GetConfig(defaults: Config, global: Option<ConfigLayer>, declaringClass: Option<ConfigLayer>,
                   testClass: Option<ConfigLayer>, testMethod: Option<ConfigLayer>)
    returns (config: Config)
    ensures config == Layered(defaults, [global, declaringClass, testClass, testMethod])
  {
    ghost var layers := [global, declaringClass, testClass, testMethod];
    config := defaults;
    if global.Some? {
      config := Overlay(config, global.value);
    }
    assert layers[1..] == [declaringClass, testClass, testMethod];
    ghost var c1 := config;
    if declaringClass.Some? {
      config := Overlay(config, declaringClass.value);
    }
    assert layers[1..][1..] == [testClass, testMethod];
    ghost var c2 := config;
    if testClass.Some? {
      config := Overlay(config, testClass.value);
    }
    assert layers[1..][1..][1..] == [testMethod];
    ghost var c3 := config;
    if testMethod.Some? {
      config := Overlay(config, testMethod.value);
    }
    assert layers[1..][1..][1..][1..] == [];
    assert Layered(c3, [testMethod]) == config;
    assert Layered(c2, [testClass, testMethod]) == config;
    assert Layered(c1, [declaringClass, testClass, testMethod]) == config;
  }

  /** The method's own @Config wins over every other layer on each
      attribute it sets; an attribute no layer sets keeps its default. */
  lemma MethodConfigWins(defaults: Config, global: Option<ConfigLayer>, declaringClass: Option<ConfigLayer>,
                         testClass: Option<ConfigLayer>, testMethod: ConfigLayer)
    ensures var c := Layered(defaults, [global, declaringClass, testClass, Some(testMethod)]);
            var earlier := [global, declaringClass, testClass];
            && c.emulateSdk == Pick(LastSetting(defaults.emulateSdk, earlier, EmulateSdkOf), testMethod.emulateSdk)
            && c.reportSdk == Pick(LastSetting(defaults.reportSdk, earlier, ReportSdkOf), testMethod.reportSdk)
            && c.manifest == Pick(LastSetting(defaults.manifest, earlier, ManifestOf), testMethod.manifest)
            && c.resourceDir == Pick(LastSetting(defaults.resourceDir, earlier, ResourceDirOf), testMethod.resourceDir)
            && c.shadows == Pick(LastSetting(defaults.shadows, earlier, ShadowsOf), testMethod.shadows)
            && c.libraries == Pick(LastSetting(defaults.libraries, earlier, LibrariesOf), testMethod.libraries)
  {
    var layers := [global, declaringClass, testClass, Some(testMethod)];
    LayeredIsLastSetting(defaults, layers);
    assert layers[..|layers| - 1] == [global, declaringClass, testClass];
  }

  // ----- Cleanup after the test body -----

  /** The statements around a test body that can throw. */
  datatype Step = EvaluateTest | TearDownApplication | InternalAfterTest | ResetStaticState
                | RestoreContextClassLoader

  /** How one step ended. */
  datatype Outcome = Normal | Threw(exception: string)

  /** How a statement ended: the steps that ran, in order, and the
      exception it propagates, if any. */
  datatype Completion = Completion(ran: seq<Step>, thrown: Option<string>)

  function Run(step: Step, outcome: Outcome): Completion
  {
    Completion([step], if outcome.Threw? then Some(outcome.exception) else None)
  }

  /** Two statements of one block: the second runs only if the first ends
      normally. */
  function Then(first: Completion, second: Completion): Completion
  {
    if first.thrown.Some? then first else Completion(first.ran + second.ran, second.thrown)
  }

  /** try { body } finally { fin }: fin always runs, and an exception it
      throws replaces the body's. */
  function TryFinally(body: Completion, fin: Completion): Completion
  {
    Completion(body.ran + fin.ran, if fin.thrown.Some? then fin.thrown else body.thrown)
  }

  /** The exception of the last outcome that threw. */
  function LastException(outcomes: seq<Outcome>): Option<string>
  {
    if |outcomes| == 0 then None
    else if outcomes[|outcomes| - 1].Threw? then Some(outcomes[|outcomes| - 1].exception)
    else LastException(outcomes[..|outcomes| - 1])
  }

  lemma LastExceptionSnoc(outcomes: seq<Outcome>, next: Outcome)
    ensures LastException(outcomes + [next]) == if next.Threw? then Some(next.exception) else LastException(outcomes)
  {
    assert (outcomes + [next])[..|outcomes|] == outcomes;
  }

  /** The tail of methodBlock's statement: the test body, then the nested
      finally blocks. Every step runs whatever the earlier ones did, except
      that restoring the context class loader shares a block with
      resetStaticState and is skipped when that throws; the exception that
      escapes is the one thrown last. */
  function MethodBlockTail(test: Outcome, tearDown: Outcome, afterTest: Outcome, reset: Outcome,
                           restore: Outcome): (r: Completion)
    ensures r.ran == [EvaluateTest, TearDownApplication, InternalAfterTest, ResetStaticState]
                     + (if reset.Threw? then [] else [RestoreContextClassLoader])
    ensures r.thrown == LastException([test, tearDown, afterTest, reset] + (if reset.Threw? then [] else [restore]))
    ensures r.thrown.None? <==> test.Normal? && tearDown.Normal? && afterTest.Normal? && reset.Normal? && restore.Normal?
  {
    LastExceptionSnoc([], test);
    assert [] + [test] == [test];
    LastExceptionSnoc([test], tearDown);
    assert [test] + [tearDown] == [test, tearDown];
    LastExceptionSnoc([test, tearDown], afterTest);
    assert [test, tearDown] + [afterTest] == [test, tearDown, afterTest];
    LastExceptionSnoc([test, tearDown, afterTest], reset);
    assert [test, tearDown, afterTest] + [reset] == [test, tearDown, afterTest, reset];
    LastExceptionSnoc([test, tearDown, afterTest, reset], restore);
    assert [test, tearDown, afterTest, reset] + [] == [test, tearDown, afterTest, reset];
    TryFinally(Run(EvaluateTest, test),
      TryFinally(Run(TearDownApplication, tearDown),
        TryFinally(Run(InternalAfterTest, afterTest),
          Then(Run(ResetStaticState, reset), Run(RestoreContextClassLoader, restore)))))
  }

  // ----- @BeforeClass hooks -----

  /** A test class as one SdkEnvironment loaded it (bootstrappedClass): the
      same class under two environments is two distinct classes, and each
      gets its own @BeforeClass run. */
  datatype TestClass = TestClass(name: string, environment: SdkEnvironment)

  /** A @BeforeClass method, and whether invoking it throws. */
  datatype Hook = Hook(name: string, fails: bool)

  /** One class's set-up: the hooks that were invoked for it. */
  datatype ClassSetUp = ClassSetUp(testClass: TestClass, ran: seq<string>)

  /** The hooks invoked in order up to and including the first that throws. */
  predicate RunsUntilFailure(hooks: seq<Hook>, ran: seq<string>)
  {
    && |ran| <= |hooks|
    && (forall j | 0 <= j < |ran| :: ran[j] == hooks[j].name)
    && (forall j | 0 <= j < |ran| - 1 :: !hooks[j].fails)
    && (|ran| < |hooks| ==> 0 < |ran| && hooks[|ran| - 1].fails)
  }

  /** The names of the hooks invokeBeforeClass gets through: it stops at the
      first that throws. */
  function HooksRun(hooks: seq<Hook>): (ran: seq<string>)
    ensures RunsUntilFailure(hooks, ran)
    decreases |hooks|
  {
    if |hooks| == 0 then []
    else [hooks[0].name] + (if hooks[0].fails then [] else HooksRun(hooks[1..]))
  }

  /** Only one sequence of names fits the description. */
  lemma RunsUntilFailureUnique(hooks: seq<Hook>, ran: seq<string>, other: seq<string>)
    requires RunsUntilFailure(hooks, ran) && RunsUntilFailure(hooks, other)
    ensures ran == other
  {
    assert |ran| == |other|;
  }

  /** The loop of invokeBeforeClass: invokes the hooks in order and stops
      at the first that throws, whose name it reports. */
  method RunHooks(befores: seq<Hook>) returns (ran: seq<string>, failure: Option<string>)
    ensures ran == HooksRun(befores)
    ensures failure.None? <==> forall j | 0 <= j < |befores| :: !befores[j].fails
    ensures failure.Some? ==> 0 < |ran| && failure.value == befores[|ran| - 1].name
  {
    ran, failure := [], None;
    var i := 0;
    while i < |befores| && failure.None?
      invariant 0 <= i <= |befores| && |ran| == i
      invariant forall j | 0 <= j < i :: ran[j] == befores[j].name
      invariant failure.None? ==> forall j | 0 <= j < i :: !befores[j].fails
      invariant failure.Some? ==> 0 < i && befores[i - 1].fails && failure.value == befores[i - 1].name
                                  && forall j | 0 <= j < i - 1 :: !befores[j].fails
    {
      ran := ran + [befores[i].name];
      if befores[i].fails {
        failure := Some(befores[i].name);
      }
      i := i + 1;
    }
    assert RunsUntilFailure(befores, ran);
    RunsUntilFailureUnique(befores, ran, HooksRun(befores));
  }

  /** No class is set up twice. */
  predicate SetUpOnce(setUps: seq<ClassSetUp>)
  {
    forall i, j | 0 <= i < j < |setUps| :: setUps[i].testClass != setUps[j].testClass
  }

  // ----- Opaque runtime objects -----

  /** An SdkEnvironment: the isolated class loader built for one SdkConfig. */
  class SdkEnvironment {
    const sdkConfig: SdkConfig

    constructor (sdkConfig: SdkConfig)
      ensures this.sdkConfig == sdkConfig
    {
      this.sdkConfig := sdkConfig;
    }
  }

  /** The ShadowMap built by createShadowMap. */
  class ShadowMap {
    constructor ()
    {
    }
  }

  /** The system (android) resource loader a test environment provides. */
  datatype SystemResourceLoader = SystemResourceLoader(id: int)

  /** The loader createAppResourceLoader builds for an application. */
  class ResourceLoader {
    const appManifest: AndroidManifest
    const systemLoader: SystemResourceLoader

    constructor (appManifest: AndroidManifest, systemLoader: SystemResourceLoader)
      ensures this.appManifest == appManifest && this.systemLoader == systemLoader
    {
      this.appManifest := appManifest;
      this.systemLoader := systemLoader;
    }
  }

  /** The NullPointerExceptions the runner's caching code can throw: a
      resource loader asked for a missing manifest, or library directories
      set on a manifest file that does not exist. */
  datatype RunnerError = NullManifest | NullManifestLibraries

  /** The per-runner-class EnvHolder: environments by SdkConfig and parsed
      manifests by file. */
  class EnvHolder {
    var environments: map<SdkConfig, SdkEnvironment>
    var appManifestsByFile: map<string, Option<AndroidManifest>>

    /** Each environment is filed under its own SdkConfig. */
    predicate Valid()
      reads this
    {
      forall s | s in environments :: environments[s].sdkConfig == s
    }

    constructor ()
      ensures environments == map[] && appManifestsByFile == map[] && Valid()
    {
      environments, appManifestsByFile := map[], map[];
    }

    /** getSdkEnvironment: the environment held for sdkConfig, created and
        held on first request. */
    method GetSdkEnvironment(sdkConfig: SdkConfig) returns (env: SdkEnvironment)
      requires Valid()
      modifies this
      ensures Valid() && env.sdkConfig == sdkConfig
      ensures sdkConfig in environments && environments[sdkConfig] == env
      ensures sdkConfig in old(environments) ==> env == old(environments[sdkConfig]) && environments == old(environments)
      ensures sdkConfig !in old(environments) ==> fresh(env) && environments == old(environments)[sdkConfig := env]
      ensures appManifestsByFile == old(appManifestsByFile)
    {
      if sdkConfig in environments {
        env := environments[sdkConfig];
      } else {
        env := new SdkEnvironment(sdkConfig);
        environments := environments[sdkConfig := env];
      }
    }
  }

  /** A runner class: getClass() of a RobolectricTestRunner. */
  datatype RunnerClass = RunnerClass(name: string)

  /** The static state shared by every runner. */
  class Statics {
    var envHoldersByTestRunner: map<RunnerClass, EnvHolder>
    var resourceLoadersByManifestAndConfig: map<(Option<AndroidManifest>, SdkConfig), ResourceLoader>
    var mainShadowMap: ShadowMap?

    constructor ()
      ensures envHoldersByTestRunner == map[] && resourceLoadersByManifestAndConfig == map[]
      ensures mainShadowMap == null
    {
      envHoldersByTestRunner, resourceLoadersByManifestAndConfig, mainShadowMap := map[], map[], null;
    }

    /** The constructor's lookup: the runner class's EnvHolder, created and
        registered on first construction. */
    method EnvHolderFor(runnerClass: RunnerClass) returns (holder: EnvHolder)
      modifies this
      ensures runnerClass in envHoldersByTestRunner && envHoldersByTestRunner[runnerClass] == holder
      ensures runnerClass in old(envHoldersByTestRunner) ==>
                holder == old(envHoldersByTestRunner[runnerClass]) && envHoldersByTestRunner == old(envHoldersByTestRunner)
      ensures runnerClass !in old(envHoldersByTestRunner) ==>
                fresh(holder) && holder.environments == map[] && holder.appManifestsByFile == map[]
                && envHoldersByTestRunner == old(envHoldersByTestRunner)[runnerClass := holder]
      ensures resourceLoadersByManifestAndConfig == old(resourceLoadersByManifestAndConfig)
      ensures mainShadowMap == old(mainShadowMap)
    {
      if runnerClass in envHoldersByTestRunner {
        holder := envHoldersByTestRunner[runnerClass];
      } else {
        holder := new EnvHolder();
        envHoldersByTestRunner := envHoldersByTestRunner[runnerClass := holder];
      }
    }

    /** createShadowMap: builds the main shadow map once and returns that
        same map on every later call. */
    method CreateShadowMap() returns (shadowMap: ShadowMap)
      modifies this
      ensures mainShadowMap == shadowMap
      ensures old(mainShadowMap) != null ==> shadowMap == old(mainShadowMap)
      ensures old(mainShadowMap) == null ==> fresh(shadowMap)
      ensures envHoldersByTestRunner == old(envHoldersByTestRunner)
      ensures resourceLoadersByManifestAndConfig == old(resourceLoadersByManifestAndConfig)
    {
      if mainShadowMap != null {
        return mainShadowMap;
      }
      shadowMap := new ShadowMap();
      mainShadowMap := shadowMap;
    }

    /** getAppResourceLoader: the loader cached for the (manifest, SDK) pair,
        else a new one built from the manifest and cached. Building one
        dereferences the manifest, so a missing manifest fails there. */
    method GetAppResourceLoader(sdkConfig: SdkConfig, systemLoader: SystemResourceLoader,
                                appManifest: Option<AndroidManifest>)
      returns (r: Result<ResourceLoader, RunnerError>)
      modifies this
      ensures (appManifest, sdkConfig) in old(resourceLoadersByManifestAndConfig) ==>
                r == Ok(old(resourceLoadersByManifestAndConfig[(appManifest, sdkConfig)]))
                && resourceLoadersByManifestAndConfig == old(resourceLoadersByManifestAndConfig)
      ensures (appManifest, sdkConfig) !in old(resourceLoadersByManifestAndConfig) && appManifest.None? ==>
                r == Err(NullManifest) && resourceLoadersByManifestAndConfig == old(resourceLoadersByManifestAndConfig)
      ensures (appManifest, sdkConfig) !in old(resourceLoadersByManifestAndConfig) && appManifest.Some? ==>
                r.Ok? && fresh(r.value) && r.value.appManifest == appManifest.value && r.value.systemLoader == systemLoader
                && resourceLoadersByManifestAndConfig == old(resourceLoadersByManifestAndConfig)[(appManifest, sdkConfig) := r.value]
      ensures envHoldersByTestRunner == old(envHoldersByTestRunner) && mainShadowMap == old(mainShadowMap)
    {
      var key := (appManifest, sdkConfig);
      if key in resourceLoadersByManifestAndConfig {
        return Ok(resourceLoadersByManifestAndConfig[key]);
      }
      if appManifest.None? {
        return Err(NullManifest);
      }
      var loader := new ResourceLoader(appManifest.value, systemLoader);
      resourceLoadersByManifestAndConfig := resourceLoadersByManifestAndConfig[key := loader];
      r := Ok(loader);
    }
  }

  // ----- The runner -----

  /** A RobolectricTestRunner's own selection and caching state. */
  class Runner {
    const runnerClass: RunnerClass
    const envHolder: EnvHolder
    const defaultSdk: SdkConfig
    var lastTestRunnerClass: Option<RunnerClass>
    var lastSdkConfig: Option<SdkConfig>
    var lastSdkEnvironment: SdkEnvironment?
    var loadedTestClasses: set<TestClass>
    /** The @BeforeClass set-ups performed, in order. */
    var setUps: seq<ClassSetUp>

    /** The "last" fields are set together, only to this runner's class and
        to the environment the holder holds for that config; every loaded
        class was set up exactly once. */
    predicate Valid()
      reads this, envHolder
    {
      && envHolder.Valid()
      && (lastTestRunnerClass.Some? <==> lastSdkConfig.Some?)
      && (lastTestRunnerClass.Some? ==>
            && lastTestRunnerClass.value == runnerClass
            && lastSdkConfig.value in envHolder.environments
            && lastSdkEnvironment == envHolder.environments[lastSdkConfig.value])
      && SetUpOnce(setUps)
      && loadedTestClasses == set u | u in setUps :: u.testClass
    }

    /** The constructor: the runner shares its class's EnvHolder with every
        other runner of that class. */
    constructor (statics: Statics, runnerClass: RunnerClass, defaultSdk: SdkConfig)
      requires forall rc | rc in statics.envHoldersByTestRunner :: statics.envHoldersByTestRunner[rc].Valid()
      modifies statics
      ensures Valid()
      ensures this.runnerClass == runnerClass && this.defaultSdk == defaultSdk
      ensures runnerClass in statics.envHoldersByTestRunner && statics.envHoldersByTestRunner[runnerClass] == envHolder
      ensures runnerClass in old(statics.envHoldersByTestRunner) ==>
                envHolder == old(statics.envHoldersByTestRunner[runnerClass])
                && statics.envHoldersByTestRunner == old(statics.envHoldersByTestRunner)
      ensures runnerClass !in old(statics.envHoldersByTestRunner) ==>
                fresh(envHolder) && statics.envHoldersByTestRunner == old(statics.envHoldersByTestRunner)[runnerClass := envHolder]
      ensures lastTestRunnerClass.None? && lastSdkConfig.None? && lastSdkEnvironment == null
      ensures loadedTestClasses == {} && setUps == []
    {
      var holder := statics.EnvHolderFor(runnerClass);
      this.runnerClass, envHolder, this.defaultSdk := runnerClass, holder, defaultSdk;
      lastTestRunnerClass, lastSdkConfig, lastSdkEnvironment := None, None, null;
      loadedTestClasses, setUps := {}, [];
    }

    /** Whether getEnvironment may answer from the "last" fields. */
    predicate Shortcut(sdkConfig: SdkConfig)
      reads this
    {
      lastTestRunnerClass == Some(runnerClass) && lastSdkConfig == Some(sdkConfig)
    }

    /** getEnvironment: the environment for the picked SdkConfig, straight
        from the "last" fields when the runner class and config repeat,
        otherwise from the holder, after which they are recorded as the last
        ones. Either way it is the holder's environment for that config. */
    method GetEnvironment(appManifest: Option<AndroidManifest>, config: Option<Config>)
      returns (env: SdkEnvironment)
      requires Valid()
      modifies this, envHolder
      ensures Valid()
      ensures var s := PickSdkVersion(appManifest, config, defaultSdk);
              env.sdkConfig == s && s in envHolder.environments && envHolder.environments[s] == env
      ensures old(Shortcut(PickSdkVersion(appManifest, config, defaultSdk))) ==>
                env == old(lastSdkEnvironment) && unchanged(envHolder)
                && lastTestRunnerClass == old(lastTestRunnerClass) && lastSdkConfig == old(lastSdkConfig)
                && lastSdkEnvironment == old(lastSdkEnvironment)
      ensures !old(Shortcut(PickSdkVersion(appManifest, config, defaultSdk))) ==>
                var s := PickSdkVersion(appManifest, config, defaultSdk);
                && lastTestRunnerClass == Some(runnerClass) && lastSdkConfig == Some(s) && lastSdkEnvironment == env
                && envHolder.appManifestsByFile == old(envHolder.appManifestsByFile)
                && (s in old(envHolder.environments) ==>
                      (env == old(envHolder.environments[s]) && envHolder.environments == old(envHolder.environments)))
                && (s !in old(envHolder.environments) ==>
                      (fresh(env) && envHolder.environments == old(envHolder.environments)[s := env]))
      ensures loadedTestClasses == old(loadedTestClasses) && setUps == old(setUps)
    {
      var sdkConfig := PickSdkVersion(appManifest, config, defaultSdk);
      if lastTestRunnerClass == Some(runnerClass) && lastSdkConfig == Some(sdkConfig) {
        return lastSdkEnvironment;
      }
      lastTestRunnerClass, lastSdkConfig, lastSdkEnvironment := None, None, null;
      env := envHolder.GetSdkEnvironment(sdkConfig);
      lastSdkEnvironment, lastTestRunnerClass, lastSdkConfig := env, Some(runnerClass), Some(sdkConfig);
    }

    /** Two requests for the same SdkConfig in a row get the same
        environment, whether or not the second takes the shortcut. */
    method SameConfigSameEnvironment(appManifest: Option<AndroidManifest>, config: Option<Config>)
      returns (first: SdkEnvironment, second: SdkEnvironment)
      requires Valid()
      modifies this, envHolder
      ensures Valid() && first == second
    {
      first := GetEnvironment(appManifest, config);
      second := GetEnvironment(appManifest, config);
    }

    /** getAppManifest: none for Config.NONE; otherwise the manifest held
        for the resolved file, or the newly created one, which is then held.
        A file whose creation gave no manifest is created again next time;
        with libraries configured, setting their directories on that missing
        manifest throws before anything is held. */
    method GetAppManifest(config: Config, manifestFile: string, created: Option<AndroidManifest>)
      returns (r: Result<Option<AndroidManifest>, RunnerError>)
      requires Valid()
      modifies envHolder
      ensures Valid()
      ensures envHolder.environments == old(envHolder.environments)
      ensures config.manifest == NoManifest ==> r == Ok(None) && unchanged(envHolder)
      ensures config.manifest != NoManifest && manifestFile in old(envHolder.appManifestsByFile)
              && old(envHolder.appManifestsByFile[manifestFile]).Some? ==>
                r == Ok(old(envHolder.appManifestsByFile[manifestFile])) && unchanged(envHolder)
      ensures config.manifest != NoManifest && (manifestFile !in old(envHolder.appManifestsByFile)
              || old(envHolder.appManifestsByFile[manifestFile]).None?) ==>
                if created.None? && |config.libraries| > 0 then
                  r == Err(NullManifestLibraries) && unchanged(envHolder)
                else
                  r == Ok(created)
                  && envHolder.appManifestsByFile == old(envHolder.appManifestsByFile)[manifestFile := created]
    {
      if config.manifest == NoManifest {
        return Ok(None);
      }
      if manifestFile in envHolder.appManifestsByFile && envHolder.appManifestsByFile[manifestFile].Some? {
        return Ok(envHolder.appManifestsByFile[manifestFile]);
      }
      if created.None? && |config.libraries| > 0 {
        return Err(NullManifestLibraries);
      }
      envHolder.appManifestsByFile := envHolder.appManifestsByFile[manifestFile := created];
      r := Ok(created);
    }

    /** The guard in methodBlock together with invokeBeforeClass: for a class
        not yet loaded, record it and invoke its hooks in order until one
        throws; a loaded class is left alone. The class counts as loaded
        even when a hook throws, so its hooks are never tried again. */
    method InvokeBeforeClass(testClass: TestClass, befores: seq<Hook>) returns (failure: Option<string>)
      requires Valid()
      modifies this
      ensures Valid()
      ensures testClass in old(loadedTestClasses) ==>
                failure.None? && loadedTestClasses == old(loadedTestClasses) && setUps == old(setUps)
      ensures testClass !in old(loadedTestClasses) ==>
                && loadedTestClasses == old(loadedTestClasses) + {testClass}
                && setUps == old(setUps) + [ClassSetUp(testClass, HooksRun(befores))]
                && (failure.None? <==> forall j | 0 <= j < |befores| :: !befores[j].fails)
                && (failure.Some? ==> failure.value == befores[|HooksRun(befores)| - 1].name)
      ensures lastTestRunnerClass == old(lastTestRunnerClass) && lastSdkConfig == old(lastSdkConfig)
      ensures lastSdkEnvironment == old(lastSdkEnvironment)
    {
      failure := None;
      if testClass in loadedTestClasses {
        return;
      }
      loadedTestClasses := loadedTestClasses + {testClass};
      var ran;
      ran, failure := RunHooks(befores);
      assert testClass !in set u | u in setUps :: u.testClass;
      setUps := setUps + [ClassSetUp(testClass, ran)];
    }

    /** One test class bootstrapped by two environments is two loaded
        classes, so its @BeforeClass hooks run once under each. */
    method SetUpPerEnvironment(name: string, first: SdkEnvironment, second: SdkEnvironment, befores: seq<Hook>)
      requires Valid() && first != second
      requires TestClass(name, first) !in loadedTestClasses && TestClass(name, second) !in loadedTestClasses
      modifies this
      ensures Valid()
      ensures setUps == old(setUps) + [ClassSetUp(TestClass(name, first), HooksRun(befores)),
                                       ClassSetUp(TestClass(name, second), HooksRun(befores))]
    {
      var _ := InvokeBeforeClass(TestClass(name, first), befores);
      var _ := InvokeBeforeClass(TestClass(name, second), befores);
    }
  }
}
