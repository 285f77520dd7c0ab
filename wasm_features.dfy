/**
 * WebAssembly feature gating in the JavaScript engine: the three feature
 * stages, the declarative table of optional features, and the rules by which
 * a stage decides how the JS shell's `--wasm-FEATURE` and `--no-wasm-FEATURE`
 * flags act and how the names of those flags and of the browser preference
 * are spelled.
 *
 * The build switches (`ENABLE_WASM_*`) and the engine's runtime checks
 * (`AnyCompilerAvailable(cx)` and the rest) are not defined here; they are
 * uninterpreted: an `Env` says which of them hold.
 */
module WasmFeatures {
  import opened Wrappers

  // ---------------------------------------------------------------------------
  // Stages
  // ---------------------------------------------------------------------------

  /** `WasmFeatureStage`, in declaration order. */
  datatype Stage = Experimental | Tentative | Default

  /** The enumerator values: Experimental is 0 and the others follow. */
  function StageValue(s: Stage): nat {
    match s
    case Experimental => 0
    case Tentative => 1
    case Default => 2
  }

  /** The stage with a given underlying value, if there is one. */
  function StageFromValue(n: int): (r: Option<Stage>)
    ensures r.Some? <==> 0 <= n < 3
    ensures r.Some? ==> StageValue(r.value) == n
  {
    if n == 0 then Some(Experimental)
    else if n == 1 then Some(Tentative)
    else if n == 2 then Some(Default)
    else None
  }

  /** The enumeration has exactly three members, ordered Experimental < Tentative < Default. */
  lemma StagesAreOrdered(s: Stage)
    ensures StageFromValue(StageValue(s)) == Some(s)
    ensures StageValue(Experimental) < StageValue(Tentative) < StageValue(Default)
  {
  }

  /** Whether a feature of stage `s` is on in ContextOptions and the JS shell when no flag is given. */
  function DefaultEnabled(s: Stage): (on: bool)
    // only Experimental features start off
    ensures on <==> s != Experimental
  {
    match s
    case Default => true
    case Tentative => true
    case Experimental => false
  }

  // ---------------------------------------------------------------------------
  // Shell flags and preferences
  // ---------------------------------------------------------------------------

  /** The two shell flags a feature's stem expands to: `--wasm-X` and `--no-wasm-X`. */
  datatype ShellFlag = EnableFlag | DisableFlag

  /** What a stage does with one of its feature's shell flags. */
  datatype FlagEffect = Enable | Disable | Ignore | Reject

  function FlagEffectOf(s: Stage, f: ShellFlag): (e: FlagEffect)
    // a flag that acts does what it says: `--wasm-X` can only enable, `--no-wasm-X` only disable
    ensures e == Enable ==> f == EnableFlag
    ensures e == Disable ==> f == DisableFlag
    // only Default refuses a flag, and only its `--wasm-X`
    ensures e == Reject <==> s == Default && f == EnableFlag
    // a flag asking for what the stage already gives is ignored, except the refused one
    ensures e == Ignore <==> (f == EnableFlag) == DefaultEnabled(s) && s != Default
  {
    match (s, f)
    case (Default, EnableFlag) => Reject
    case (Default, DisableFlag) => Disable
    case (Tentative, EnableFlag) => Ignore
    case (Tentative, DisableFlag) => Disable
    case (Experimental, EnableFlag) => Enable
    case (Experimental, DisableFlag) => Ignore
  }

  /**
   * Whether the feature ends up on after the shell sees flag `f`: a rejected
   * flag is an error, an ignored one leaves the stage's default in place.
   */
  function ApplyShellFlag(s: Stage, f: ShellFlag): (r: Result<bool>)
    // only `--wasm-X` of a Default feature is refused
    ensures r.Err? <==> s == Default && f == EnableFlag
    // an accepted `--wasm-X` always leaves the feature on and `--no-wasm-X` always leaves it off
    ensures r.Ok? ==> r.value == (f == EnableFlag)
    // a flag changes the outcome exactly when the stage gives it an effect
    ensures r.Ok? ==> (r.value != DefaultEnabled(s) <==> FlagEffectOf(s, f) in {Enable, Disable})
  {
    match FlagEffectOf(s, f)
    case Enable => Ok(true)
    case Disable => Ok(false)
    case Ignore => Ok(DefaultEnabled(s))
    case Reject => Err("the --wasm- flag of a default feature is rejected")
  }

  /** Default features: on by default, `--no-wasm-X` disables, `--wasm-X` is rejected. */
  lemma DefaultStageRules()
    ensures DefaultEnabled(Default)
    ensures ApplyShellFlag(Default, DisableFlag) == Ok(false)
    ensures ApplyShellFlag(Default, EnableFlag).Err?
  {
  }

  /** Tentative features: like Default ones, except that `--wasm-X` is silently ignored. */
  lemma TentativeStageRules()
    ensures DefaultEnabled(Tentative)
    ensures ApplyShellFlag(Tentative, DisableFlag) == Ok(false)
    ensures FlagEffectOf(Tentative, EnableFlag) == Ignore
    ensures ApplyShellFlag(Tentative, EnableFlag) == Ok(DefaultEnabled(Tentative))
  {
  }

  /** Experimental features: off by default, `--wasm-X` enables, `--no-wasm-X` is silently ignored. */
  lemma ExperimentalStageRules()
    ensures !DefaultEnabled(Experimental)
    ensures ApplyShellFlag(Experimental, EnableFlag) == Ok(true)
    ensures FlagEffectOf(Experimental, DisableFlag) == Ignore
    ensures ApplyShellFlag(Experimental, DisableFlag) == Ok(DefaultEnabled(Experimental))
  {
  }

  const EnablePrefix: string := "--wasm-"
  const DisablePrefix: string := "--no-wasm-"
  const PreferencePrefix: string := "javascript.options.wasm-"

  /** The command-line spelling of a feature's shell flag from its stem. */
  function ShellFlagName(stem: string, f: ShellFlag): (name: string)
    // the argument reads as the polarity's prefix followed by the stem
    ensures f == EnableFlag ==>
      |name| == |EnablePrefix| + |stem| && name[..|EnablePrefix|] == EnablePrefix && name[|EnablePrefix|..] == stem
    ensures f == DisableFlag ==>
      |name| == |DisablePrefix| + |stem| && name[..|DisablePrefix|] == DisablePrefix && name[|DisablePrefix|..] == stem
  {
    match f
    case EnableFlag => EnablePrefix + stem
    case DisableFlag => DisablePrefix + stem
  }

  /** The browser preference of a feature, from its preference stem; the same for every stage. */
  function PreferenceName(prefStem: string): (name: string)
    ensures |name| == |PreferencePrefix| + |prefStem|
    ensures name[..|PreferencePrefix|] == PreferencePrefix && name[|PreferencePrefix|..] == prefStem
  {
    PreferencePrefix + prefStem
  }

  lemma {:induction false} PrefixCancels(p: string, a: string, b: string)
    requires p + a == p + b
    ensures a == b
  {
    assert a == (p + a)[|p|..];
    assert b == (p + b)[|p|..];
  }

  /** Distinct (stem, flag) pairs never spell the same command-line argument. */
  lemma {:induction false} ShellFlagNameInjective(stem1: string, f1: ShellFlag, stem2: string, f2: ShellFlag)
    ensures ShellFlagName(stem1, f1) == ShellFlagName(stem2, f2) <==> stem1 == stem2 && f1 == f2
  {
    var n1, n2 := ShellFlagName(stem1, f1), ShellFlagName(stem2, f2);
    if f1 != f2 {
      // the third character is 'w' in `--wasm-` and 'n' in `--no-wasm-`
      assert n1[2] != n2[2];
    } else if n1 == n2 && f1 == EnableFlag {
      PrefixCancels(EnablePrefix, stem1, stem2);
    } else if n1 == n2 {
      PrefixCancels(DisablePrefix, stem1, stem2);
    }
  }

  /** Distinct preference stems give distinct preferences. */
  lemma {:induction false} PreferenceNameInjective(prefStem1: string, prefStem2: string)
    ensures PreferenceName(prefStem1) == PreferenceName(prefStem2) <==> prefStem1 == prefStem2
  {
    if PreferenceName(prefStem1) == PreferenceName(prefStem2) {
      PrefixCancels(PreferencePrefix, prefStem1, prefStem2);
    }
  }

  /**
   * The value the browser preference is declared with: `true` for Default
   * features, the nightly-build flag for Tentative ones, `false` for
   * Experimental ones.
   */
  function PreferenceDefault(s: Stage, isNightlyBuild: bool): (v: bool)
    // the preference is never declared on for a feature that starts off
    ensures v ==> DefaultEnabled(s)
    // on nightly builds it is declared with the stage's default
    ensures isNightlyBuild ==> v == DefaultEnabled(s)
  {
    match s
    case Default => true
    case Tentative => isNightlyBuild
    case Experimental => false
  }

  /** The preference's declared value agrees with the stage's default exactly unless a Tentative feature is built outside nightly. */
  lemma PreferenceDefaultAgrees(s: Stage, isNightlyBuild: bool)
    ensures PreferenceDefault(s, isNightlyBuild) == DefaultEnabled(s) <==> s != Tentative || isNightlyBuild
  {
  }

  // ---------------------------------------------------------------------------
  // The feature table
  // ---------------------------------------------------------------------------

  /** The `ENABLE_WASM_*` configure switches. */
  datatype BuildSwitch =
    | EnableRelaxedSimd | EnableExtendedConst | EnableFunctionReferences | EnableGc
    | EnableMemory64 | EnableMemoryControl | EnableTailCalls | EnableMozIntGemm | EnableMultiMemory

  /** The engine's runtime checks that the table refers to. */
  datatype RuntimeCheck =
    | AnyCompilerAvailable | IonAvailable | JitSupportsWasmSimd | IsSimdPrivilegedContext | WasmGcFlag

  /** A predicate column of the table: a literal, a `WASM_*_ENABLED` macro, or a runtime check. */
  datatype Cond = Literal(b: bool) | Switch(switch: BuildSwitch) | Check(check: RuntimeCheck)

  /** Which build switches are defined and which runtime checks hold. */
  datatype Env = Env(defined: set<BuildSwitch>, holding: set<RuntimeCheck>)

  /** `WASM_*_ENABLED` is 1 when its `ENABLE_WASM_*` switch is defined and 0 otherwise. */
  function SwitchMacroValue(s: BuildSwitch, env: Env): (v: int)
    ensures v == 0 || v == 1
    ensures v == 1 <==> s in env.defined
  {
    if s in env.defined then 1 else 0
  }

  function Eval(c: Cond, env: Env): bool {
    match c
    case Literal(b) => b
    case Switch(s) => SwitchMacroValue(s, env) != 0
    case Check(k) => k in env.holding
  }

  /** One `FEATURE(...)` entry of `JS_FOR_WASM_FEATURES`. */
  datatype Feature = Feature(
    capitalizedName: string,
    lowerCaseName: string,
    stage: Stage,
    compilePredicate: Cond,
    compilerPredicate: Cond,
    flagPredicate: Cond,
    flagForceEnable: Cond,
    shellFlag: string,
    preferenceName: string)

  /** `JS_FOR_WASM_FEATURES`, in its order. The literal `1` of a compile predicate is `Literal(true)`. */
  const Features: seq<Feature> := [
    Feature("ExtendedConst", "extendedConst", Tentative,
      Switch(EnableExtendedConst), Literal(true), Literal(true), Literal(false),
      "extended-const", "extended_const"),
    Feature("Exceptions", "exceptions", Tentative,
      Literal(true), Check(AnyCompilerAvailable), Literal(true), Literal(false),
      "exceptions", "exceptions"),
    Feature("FunctionReferences", "functionReferences", Experimental,
      Switch(EnableFunctionReferences), Check(AnyCompilerAvailable), Literal(true), Check(WasmGcFlag),
      "function-references", "function_references"),
    Feature("Gc", "gc", Experimental,
      Switch(EnableGc), Check(AnyCompilerAvailable), Literal(true), Literal(false),
      "gc", "gc"),
    Feature("RelaxedSimd", "v128Relaxed", Tentative,
      Switch(EnableRelaxedSimd), Check(AnyCompilerAvailable), Check(JitSupportsWasmSimd), Literal(false),
      "relaxed-simd", "relaxed_simd"),
    Feature("Memory64", "memory64", Tentative,
      Switch(EnableMemory64), Check(AnyCompilerAvailable), Literal(true), Literal(false),
      "memory64", "memory64"),
    Feature("MemoryControl", "memoryControl", Experimental,
      Switch(EnableMemoryControl), Check(AnyCompilerAvailable), Literal(true), Literal(false),
      "memory-control", "memory_control"),
    Feature("MultiMemory", "multiMemory", Experimental,
      Switch(EnableMultiMemory), Check(AnyCompilerAvailable), Literal(true), Literal(false),
      "multi-memory", "multi_memory"),
    Feature("TailCalls", "tailCalls", Experimental,
      Switch(EnableTailCalls), Check(AnyCompilerAvailable), Literal(true), Literal(false),
      "tail-calls", "tail_calls"),
    Feature("MozIntGemm", "mozIntGemm", Experimental,
      Switch(EnableMozIntGemm), Check(AnyCompilerAvailable), Check(IsSimdPrivilegedContext), Literal(false),
      "moz-intgemm", "moz_intgemm"),
    Feature("TestSerialization", "testSerialization", Experimental,
      Literal(true), Check(IonAvailable), Literal(true), Literal(false),
      "test-serialization", "test-serialization"),
    Feature("FinalTypes", "finalTypes", Experimental,
      Literal(true), Check(AnyCompilerAvailable), Literal(true), Literal(false),
      "final-types", "final_types")
  ]

  lemma TableShape()
    ensures |Features| == 12
    ensures forall i :: 0 <= i < |Features| ==> Features[i].stage != Default
  {
  }

  /** Capitalized names are pairwise distinct. */
  lemma CapitalizedNamesDistinct()
    ensures forall i, j :: 0 <= i < j < |Features| ==> Features[i].capitalizedName != Features[j].capitalizedName
  {
  }

  /** Lower-case names are pairwise distinct. */
  lemma LowerCaseNamesDistinct()
    ensures forall i, j :: 0 <= i < j < |Features| ==> Features[i].lowerCaseName != Features[j].lowerCaseName
  {
  }

  /** Shell-flag stems are pairwise distinct. */
  lemma ShellFlagStemsDistinct()
    ensures forall i, j :: 0 <= i < j < |Features| ==> Features[i].shellFlag != Features[j].shellFlag
  {
  }

  /** Preference stems are pairwise distinct. */
  lemma PreferenceStemsDistinct()
    ensures forall i, j :: 0 <= i < j < |Features| ==> Features[i].preferenceName != Features[j].preferenceName
  {
  }

  /** FunctionReferences is the only entry whose "flag force enable" is not the literal `false`. */
  lemma OnlyFunctionReferencesForceEnables()
    ensures forall i :: 0 <= i < |Features| ==>
      (Features[i].flagForceEnable != Literal(false) <==> Features[i].capitalizedName == "FunctionReferences")
  {
  }

  /** No entry is Default, so no table feature ever rejects one of its shell flags. */
  lemma NoTableFlagIsRejected(i: nat, f: ShellFlag)
    requires i < |Features|
    ensures ApplyShellFlag(Features[i].stage, f).Ok?
  {
    TableShape();
  }

  /** A command-line argument addresses at most one feature of the table, with one polarity. */
  lemma ShellArgumentsIdentifyFeature(i: nat, f: ShellFlag, j: nat, g: ShellFlag)
    requires i < |Features| && j < |Features|
    ensures ShellFlagName(Features[i].shellFlag, f) == ShellFlagName(Features[j].shellFlag, g) <==> i == j && f == g
  {
    ShellFlagNameInjective(Features[i].shellFlag, f, Features[j].shellFlag, g);
    ShellFlagStemsDistinct();
    if i < j {
      assert Features[i].shellFlag != Features[j].shellFlag;
    } else if j < i {
      assert Features[j].shellFlag != Features[i].shellFlag;
    }
  }

  /** Every table feature has its own browser preference. */
  lemma PreferencesIdentifyFeature(i: nat, j: nat)
    requires i < |Features| && j < |Features|
    ensures PreferenceName(Features[i].preferenceName) == PreferenceName(Features[j].preferenceName) <==> i == j
  {
    PreferenceNameInjective(Features[i].preferenceName, Features[j].preferenceName);
    PreferenceStemsDistinct();
    if i < j {
      assert Features[i].preferenceName != Features[j].preferenceName;
    } else if j < i {
      assert Features[j].preferenceName != Features[i].preferenceName;
    }
  }

  /** Whatever the environment, only FunctionReferences can have its flag forced on. */
  lemma ForceEnableOnlyForFunctionReferences(i: nat, env: Env)
    requires i < |Features|
    requires Eval(Features[i].flagForceEnable, env)
    ensures Features[i].capitalizedName == "FunctionReferences"
    ensures WasmGcFlag in env.holding
  {
    OnlyFunctionReferencesForceEnables();
    assert Features[i].flagForceEnable != Literal(false);
  }
}
