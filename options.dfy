/**
 * Options resolution (options.go): the options record, its defaults, the
 * single-field option functions, and the fold that applies them before the
 * environment overlay. Durations are Go `time.Duration` values in nanoseconds.
 */
module Config {
  import opened Wrappers
  import Env

  const Second: int := 1_000_000_000
  const Minute: int := 60 * Second

  datatype Options = Options(
    restartOnError: bool,
    restartOnErrorDelay: int,
    restartOnPanic: bool,
    restartOnPanicDelay: int,   // zero means: use restartOnErrorDelay
    recoverPanic: bool,
    gracePeriod: int,           // zero (or less) means: no time ceiling
    graceCount: int,            // zero (or less) means: no count ceiling
    shutdownTimeout: int,
    logDebug: bool,
    logJson: bool,
    logColors: bool,
    logAutoColors: bool,
    envPrefix: string)

  /** The fields of `Options`, to speak of "this field" and "every other field". */
  datatype Field =
    | RestartOnErrorField | RestartOnErrorDelayField | RestartOnPanicField | RestartOnPanicDelayField
    | RecoverPanicField | GracePeriodField | GraceCountField | ShutdownTimeoutField
    | LogDebugField | LogJsonField | LogColorsField | LogAutoColorsField | EnvPrefixField

  datatype FieldValue = FlagSetting(b: bool) | DurationSetting(nanos: int) | CountSetting(n: int) | TextSetting(s: string)

  function Get(o: Options, f: Field): FieldValue {
    match f
    case RestartOnErrorField => FlagSetting(o.restartOnError)
    case RestartOnErrorDelayField => DurationSetting(o.restartOnErrorDelay)
    case RestartOnPanicField => FlagSetting(o.restartOnPanic)
    case RestartOnPanicDelayField => DurationSetting(o.restartOnPanicDelay)
    case RecoverPanicField => FlagSetting(o.recoverPanic)
    case GracePeriodField => DurationSetting(o.gracePeriod)
    case GraceCountField => CountSetting(o.graceCount)
    case ShutdownTimeoutField => DurationSetting(o.shutdownTimeout)
    case LogDebugField => FlagSetting(o.logDebug)
    case LogJsonField => FlagSetting(o.logJson)
    case LogColorsField => FlagSetting(o.logColors)
    case LogAutoColorsField => FlagSetting(o.logAutoColors)
    case EnvPrefixField => TextSetting(o.envPrefix)
  }

  /**
   * An `Option`: the closure each `WithX(v)` returns, named after the function
   * that builds it, or `SetEnvPrefix(p)`, the closure `func(o *Options) {
   * o.EnvPrefix = p }` a caller writes, there being no `WithX` helper for the
   * env prefix.
   */
  datatype Setter =
    | WithRestartOnError(b: bool)
    | WithRestartOnErrorDelay(d: int)
    | WithRestartOnPanic(b: bool)
    | WithRestartOnPanicDelay(d: int)
    | WithRecoverPanic(b: bool)
    | WithGracePeriod(d: int)
    | WithGraceCount(n: int)
    | WithShutdownTimeout(d: int)
    | WithLogDebug(b: bool)
    | WithLogJson(b: bool)
    | WithLogColors(b: bool)
    | WithLogAutoColors(b: bool)
    | SetEnvPrefix(prefix: string)

  /** What the environment parser can set: every field but the env prefix, which has no `env` tag. */
  type EnvSetting = s: Setter | !s.SetEnvPrefix? witness WithRestartOnError(true)

  /** The field an option sets; only a caller-written prefix option sets the env prefix. */
  function Target(s: Setter): (f: Field)
    ensures f == EnvPrefixField <==> s.SetEnvPrefix?
  {
    match s
    case WithRestartOnError(_) => RestartOnErrorField
    case WithRestartOnErrorDelay(_) => RestartOnErrorDelayField
    case WithRestartOnPanic(_) => RestartOnPanicField
    case WithRestartOnPanicDelay(_) => RestartOnPanicDelayField
    case WithRecoverPanic(_) => RecoverPanicField
    case WithGracePeriod(_) => GracePeriodField
    case WithGraceCount(_) => GraceCountField
    case WithShutdownTimeout(_) => ShutdownTimeoutField
    case WithLogDebug(_) => LogDebugField
    case WithLogJson(_) => LogJsonField
    case WithLogColors(_) => LogColorsField
    case WithLogAutoColors(_) => LogAutoColorsField
    case SetEnvPrefix(_) => EnvPrefixField
  }

  /** The value an option writes, as a field value. */
  function Value(s: Setter): FieldValue {
    match s
    case WithRestartOnError(b) => FlagSetting(b)
    case WithRestartOnErrorDelay(d) => DurationSetting(d)
    case WithRestartOnPanic(b) => FlagSetting(b)
    case WithRestartOnPanicDelay(d) => DurationSetting(d)
    case WithRecoverPanic(b) => FlagSetting(b)
    case WithGracePeriod(d) => DurationSetting(d)
    case WithGraceCount(n) => CountSetting(n)
    case WithShutdownTimeout(d) => DurationSetting(d)
    case WithLogDebug(b) => FlagSetting(b)
    case WithLogJson(b) => FlagSetting(b)
    case WithLogColors(b) => FlagSetting(b)
    case WithLogAutoColors(b) => FlagSetting(b)
    case SetEnvPrefix(p) => TextSetting(p)
  }

  /** `opt(&o)`: the option writes its own field (and, by `ApplyKeeps`, no other). */
  function Apply(o: Options, s: Setter): (r: Options)
    ensures Get(r, Target(s)) == Value(s)
    ensures !s.SetEnvPrefix? ==> r.envPrefix == o.envPrefix
  {
    match s
    case WithRestartOnError(b) => o.(restartOnError := b)
    case WithRestartOnErrorDelay(d) => o.(restartOnErrorDelay := d)
    case WithRestartOnPanic(b) => o.(restartOnPanic := b)
    case WithRestartOnPanicDelay(d) => o.(restartOnPanicDelay := d)
    case WithRecoverPanic(b) => o.(recoverPanic := b)
    case WithGracePeriod(d) => o.(gracePeriod := d)
    case WithGraceCount(n) => o.(graceCount := n)
    case WithShutdownTimeout(d) => o.(shutdownTimeout := d)
    case WithLogDebug(b) => o.(logDebug := b)
    case WithLogJson(b) => o.(logJson := b)
    case WithLogColors(b) => o.(logColors := b)
    case WithLogAutoColors(b) => o.(logAutoColors := b)
    case SetEnvPrefix(p) => o.(envPrefix := p)
  }

  /** An option leaves every field but its own as it was. */
  lemma ApplyKeeps(o: Options, s: Setter, f: Field)
    requires f != Target(s)
    ensures Get(Apply(o, s), f) == Get(o, f)
  {
  }

  /** The options applied to `o` in list order; without a prefix option the env prefix comes through untouched. */
  function ApplyAll(o: Options, opts: seq<Setter>): (r: Options)
    ensures (forall j :: 0 <= j < |opts| ==> !opts[j].SetEnvPrefix?) ==> r.envPrefix == o.envPrefix
    decreases |opts|
  {
    if opts == [] then o
    else
      Apply(ApplyAll(o, opts[..|opts| - 1]), opts[|opts| - 1])
  }

  /** A key/value pair of the binary's build settings (`debug.BuildSetting`). */
  datatype BuildSetting = BuildSetting(key: string, value: string)

  /**
   * Whether the build information could be read and lists a `vcs.modified`
   * setting. Only the key is consulted; the setting's value is not.
   */
  predicate VcsModified(buildInfo: Option<seq<BuildSetting>>) {
    buildInfo.Some? && exists j :: 0 <= j < |buildInfo.value| && buildInfo.value[j].key == "vcs.modified"
  }

  /** The default options record, given the debug flag derived from the build settings. */
  function Defaults(logDebug: bool): Options {
    Options(
      restartOnError := true,
      restartOnErrorDelay := 10 * Second,
      restartOnPanic := true,
      restartOnPanicDelay := 0,
      recoverPanic := true,
      gracePeriod := 1 * Minute,
      graceCount := 3,
      shutdownTimeout := 30 * Second,
      logDebug := logDebug,
      logJson := true,
      logColors := false,
      logAutoColors := true,
      envPrefix := "")
  }

  /**
   * `DefaultOptions`: scans the build settings (`debug.ReadBuildInfo`, passed
   * in; `None` when it reports no information) for `vcs.modified`, then fills
   * in the defaults.
   */
  method DefaultOptions(buildInfo: Option<seq<BuildSetting>>) returns (o: Options)
    ensures o == Defaults(VcsModified(buildInfo))
    ensures o.restartOnError && o.restartOnErrorDelay == 10 * Second
    ensures o.restartOnPanic && o.recoverPanic && o.restartOnPanicDelay == 0
    ensures o.gracePeriod == Minute && o.graceCount == 3 && o.shutdownTimeout == 30 * Second
    ensures o.logAutoColors && o.logJson && !o.logColors && o.envPrefix == ""
    ensures o.logDebug <==> buildInfo.Some? && exists j :: 0 <= j < |buildInfo.value| && buildInfo.value[j].key == "vcs.modified"
  {
    var logDebug := false;
    if buildInfo.Some? {
      var settings := buildInfo.value;
      for i := 0 to |settings|
        invariant logDebug <==> exists j :: 0 <= j < i && settings[j].key == "vcs.modified"
      {
        if settings[i].key == "vcs.modified" {
          logDebug := true;
        }
      }
    }
    o := Defaults(logDebug);
  }

  /**
   * The prefix the environment is read with, before normalisation: the
   * options' own prefix if set, otherwise `<namespace>_<name>_`, or `<name>_`
   * when the namespace is empty.
   */
  function DerivedPrefix(envPrefix: string, name: string, namespace: string): (r: string)
    ensures envPrefix != "" ==> r == envPrefix
    ensures envPrefix == "" && namespace != "" ==> r == namespace + "_" + name + "_"
    ensures envPrefix == "" && namespace == "" ==> r == name + "_"
  {
    if envPrefix != "" then envPrefix
    else (if namespace != "" then namespace + "_" else "") + name + "_"
  }

  /** The prefix handed to the environment parser: the derived prefix, normalised, so a well-formed key. */
  function EnvParserPrefix(envPrefix: string, name: string, namespace: string): (r: string)
    ensures Env.WellFormedKey(r)
    ensures r == Env.NormalizedKey(DerivedPrefix(envPrefix, name, namespace))
  {
    Env.NormalizedKeyShape(DerivedPrefix(envPrefix, name, namespace));
    Env.NormalizedKey(DerivedPrefix(envPrefix, name, namespace))
  }

  /**
   * What `applyOptions` returns: the options folded over the defaults, then
   * overlaid with what the environment parser finds under the derived prefix
   * (`env` maps a prefix to the overrides found, in the order applied). The
   * derived prefix is only handed to the parser; the result keeps the
   * options' own prefix, which the parser cannot set: "" unless an option set it.
   */
  function Resolve(name: string, namespace: string, opts: seq<Setter>, logDebug: bool,
                   env: string -> seq<EnvSetting>): (r: Options)
    ensures r.envPrefix == ApplyAll(Defaults(logDebug), opts).envPrefix
    ensures (forall j :: 0 <= j < |opts| ==> !opts[j].SetEnvPrefix?) ==> r.envPrefix == ""
  {
    var o := ApplyAll(Defaults(logDebug), opts);
    ApplyAll(o, env(EnvParserPrefix(o.envPrefix, name, namespace)))
  }

  /** `applyOptions`: the defaults, the option loop, the prefix derivation and the environment overlay. */
  method ApplyOptions(name: string, namespace: string, opts: seq<Setter>,
                      buildInfo: Option<seq<BuildSetting>>, env: string -> seq<EnvSetting>) returns (o: Options)
    ensures o == Resolve(name, namespace, opts, VcsModified(buildInfo), env)
  {
    o := DefaultOptions(buildInfo);
    ghost var defaults := o;
    for i := 0 to |opts|
      invariant o == ApplyAll(defaults, opts[..i])
    {
      assert opts[..i + 1][..i] == opts[..i];
      o := Apply(o, opts[i]);
    }
    assert opts[..|opts|] == opts;

    var envPrefix := o.envPrefix;
    if envPrefix == "" {
      if namespace != "" {
        envPrefix := namespace + "_";
      }
      envPrefix := envPrefix + name + "_";
    }
    var prefix := Env.NormalizeEnvKey(envPrefix);
    o := ApplyAll(o, env(prefix));
  }

  // ---------------------------------------------------------------------------
  // Properties of the fold

  /** The last option in the list that sets a field decides that field. */
  lemma {:induction false} LastSetterWins(o: Options, opts: seq<Setter>, i: nat)
    requires i < |opts|
    requires forall j :: i < j < |opts| ==> Target(opts[j]) != Target(opts[i])
    ensures Get(ApplyAll(o, opts), Target(opts[i])) == Value(opts[i])
    decreases |opts|
  {
    var n := |opts| - 1;
    if i < n {
      var init := opts[..n];
      assert forall j :: i < j < |init| ==> init[j] == opts[j];
      LastSetterWins(o, init, i);
      assert init[i] == opts[i];
      ApplyKeeps(ApplyAll(o, init), opts[n], Target(opts[i]));
    }
  }

  /** A field no option in the list sets keeps its value. */
  lemma {:induction false} UnsetFieldKept(o: Options, opts: seq<Setter>, f: Field)
    requires forall j :: 0 <= j < |opts| ==> Target(opts[j]) != f
    ensures Get(ApplyAll(o, opts), f) == Get(o, f)
    decreases |opts|
  {
    if opts != [] {
      var init := opts[..|opts| - 1];
      assert forall j :: 0 <= j < |init| ==> init[j] == opts[j];
      UnsetFieldKept(o, init, f);
      ApplyKeeps(ApplyAll(o, init), opts[|opts| - 1], f);
    }
  }

  /** The last prefix option in the list decides the prefix. */
  lemma LastPrefixWins(o: Options, opts: seq<Setter>, i: nat)
    requires i < |opts| && opts[i].SetEnvPrefix?
    requires forall j :: i < j < |opts| ==> !opts[j].SetEnvPrefix?
    ensures ApplyAll(o, opts).envPrefix == opts[i].prefix
  {
    LastSetterWins(o, opts, i);
    assert Get(ApplyAll(o, opts), EnvPrefixField) == TextSetting(opts[i].prefix);
  }

  /**
   * An option that sets a non-empty prefix, with no later one overriding it,
   * decides both the prefix the environment is read under (normalised) and the
   * prefix the result keeps.
   */
  lemma ResolveOwnPrefix(name: string, namespace: string, opts: seq<Setter>, logDebug: bool,
                         env: string -> seq<EnvSetting>, i: nat)
    requires i < |opts| && opts[i].SetEnvPrefix? && opts[i].prefix != ""
    requires forall j :: i < j < |opts| ==> !opts[j].SetEnvPrefix?
    ensures Resolve(name, namespace, opts, logDebug, env).envPrefix == opts[i].prefix
    ensures Resolve(name, namespace, opts, logDebug, env) ==
            ApplyAll(ApplyAll(Defaults(logDebug), opts), env(Env.NormalizedKey(opts[i].prefix)))
  {
    var o := ApplyAll(Defaults(logDebug), opts);
    LastPrefixWins(Defaults(logDebug), opts, i);
    assert EnvParserPrefix(o.envPrefix, name, namespace) == Env.NormalizedKey(opts[i].prefix);
  }

  /** Without a prefix option the environment is read under the prefix derived from namespace and name. */
  lemma ResolveDerivedPrefix(name: string, namespace: string, opts: seq<Setter>, logDebug: bool,
                             env: string -> seq<EnvSetting>)
    requires forall j :: 0 <= j < |opts| ==> !opts[j].SetEnvPrefix?
    ensures Resolve(name, namespace, opts, logDebug, env) ==
            ApplyAll(ApplyAll(Defaults(logDebug), opts),
                     env(Env.NormalizedKey(if namespace != "" then namespace + "_" + name + "_" else name + "_")))
  {
  }

  /** The example service ("service" namespace, "example" name) reads its environment under SERVICE_EXAMPLE. */
  lemma ExampleServicePrefix()
    ensures EnvParserPrefix("", "example", "service") == "SERVICE_EXAMPLE"
  {
    assert DerivedPrefix("", "example", "service") == "service" + "_" + "example" + "_";
    ExamplePushed();
    ExampleTrimmed();
  }

  /** The two words of the example, upper-cased. */
  lemma ExampleWordsUpper()
    ensures Env.UpperAll("service") == "SERVICE" && Env.UpperAll("example") == "EXAMPLE"
  {
    assert Env.UpperAll("service") == "SERVICE" by {
      forall i | 0 <= i < 7 ensures Env.UpperAll("service")[i] == "SERVICE"[i] { }
    }
    assert Env.UpperAll("example") == "EXAMPLE" by {
      forall i | 0 <= i < 7 ensures Env.UpperAll("example")[i] == "EXAMPLE"[i] { }
    }
  }

  /** The loop's output for the example's derived prefix, before the trim. */
  lemma ExamplePushed()
    ensures Env.PushAll([], "service" + "_" + "example" + "_") == "SERVICE_EXAMPLE_"
  {
    assert forall i :: 0 <= i < |"service"| ==> Env.IsAsciiAlnum("service"[i]);
    assert forall i :: 0 <= i < |"example"| ==> Env.IsAsciiAlnum("example"[i]);
    assert !Env.IsCombiningMark("_"[0]) && !Env.IsAsciiAlnum("_"[0]);
    Env.WordsJoinedBySeparator("service", "_", "example");
    ExampleWordsUpper();
    var u := Env.UpperAll("service") + "_" + Env.UpperAll("example");
    assert u == "SERVICE_EXAMPLE";
    Env.PushAllAppend([], "service" + "_" + "example", "_");
    Env.SeparatorRun(u, "_");
  }

  /** The trim removes the example prefix's trailing separator. */
  lemma ExampleTrimmed()
    ensures Env.Trim("SERVICE_EXAMPLE_") == "SERVICE_EXAMPLE"
  {
    assert Env.TrimLeft("SERVICE_EXAMPLE_") == "SERVICE_EXAMPLE_";
    assert "SERVICE_EXAMPLE_"[..15] == "SERVICE_EXAMPLE";
    assert Env.TrimRight("SERVICE_EXAMPLE_") == Env.TrimRight("SERVICE_EXAMPLE");
  }
}
