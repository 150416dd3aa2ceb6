/**
 * The command line entry point (index.js): the option variables the
 * argument parser's action sets, the configuration overrides, the command
 * whitelist, the input directory check and the step-by-step dispatch of a
 * command to its tasks.
 *
 * What main learns from outside is an input: the project configuration after
 * merging (None when loading or merging threw), whether a directory exists,
 * whether the lint process succeeds and the package version. Exiting the
 * process and running a task are steps of the returned plan; `process.exit`
 * ends the plan.
 */
module Cli {
  import opened Wrappers
  import opened Settings
  import Log
  import Lint
  import BuildConf

  /**
   * The options object the argument parser hands to the action. A flag that
   * was not given reads as false.
   */
  datatype Options = Options(
    /** Where the parser stores `-c, --config <config>`. */
    config: Option<string>,
    /** The field the action reads the config file from. */
    configFile: Option<string>,
    inputDir: Option<string>,
    outputDir: Option<string>,
    analyze: bool,
    fix: bool)

  /**
   * The options as parsed from the declared flags: `-c` lands under `config`,
   * and nothing ever sets `configFile`.
   */
  function CommandLineOptions(config: Option<string>, inputDir: Option<string>, outputDir: Option<string>,
                              analyze: bool, fix: bool): (o: Options)
    ensures o.configFile == None && o.config == config
  {
    Options(config, None, inputDir, outputDir, analyze, fix)
  }

  /** The module-level option variables. */
  datatype CliState = CliState(
    command: string,
    inputDir: Option<string>,
    outputDir: Option<string>,
    configFile: string,
    shouldLintFix: bool,
    shouldAnalyze: bool)

  const DefaultConfigFile: string := "config/build.conf"

  /** The variables before the parser calls the action. */
  const Initial: CliState := CliState("", None, None, DefaultConfigFile, false, false)

  /** `resolveOptions(cmd, options)` on a state. */
  function Resolved(s: CliState, cmd: string, options: Options): CliState {
    CliState(
      cmd,
      if options.inputDir.Some? then options.inputDir else s.inputDir,
      if options.outputDir.Some? then options.outputDir else s.outputDir,
      if options.configFile.Some? then options.configFile.value else s.configFile,
      options.fix,
      options.analyze)
  }

  /**
   * The command and both flags are always overwritten; each directory and the
   * config file only when the option is given.
   */
  lemma ResolvedFields(s: CliState, cmd: string, options: Options)
    ensures var r := Resolved(s, cmd, options);
      && r.command == cmd
      && r.shouldAnalyze == options.analyze && r.shouldLintFix == options.fix
      && (options.inputDir.None? ==> r.inputDir == s.inputDir)
      && (options.inputDir.Some? ==> r.inputDir == options.inputDir)
      && (options.outputDir.None? ==> r.outputDir == s.outputDir)
      && (options.outputDir.Some? ==> r.outputDir == options.outputDir)
      && (options.configFile.None? ==> r.configFile == s.configFile)
      && (options.configFile.Some? ==> r.configFile == options.configFile.value)
  {
  }

  /** Whatever `-c` says, the config file stays the default one. */
  lemma ConfigFlagIgnored(cmd: string, config: Option<string>, inputDir: Option<string>, outputDir: Option<string>,
                          analyze: bool, fix: bool)
    ensures Resolved(Initial, cmd, CommandLineOptions(config, inputDir, outputDir, analyze, fix)).configFile
            == DefaultConfigFile
  {
  }

  /** The module-level variables of index.js. */
  class Cli {
    var command: string
    var inputDir: Option<string>
    var outputDir: Option<string>
    var configFile: string
    var shouldLintFix: bool
    var shouldAnalyze: bool

    function State(): CliState
      reads this
    {
      CliState(command, inputDir, outputDir, configFile, shouldLintFix, shouldAnalyze)
    }

    constructor()
      ensures State() == Initial
    {
      command := "";
      inputDir := None;
      outputDir := None;
      configFile := DefaultConfigFile;
      shouldLintFix := false;
      shouldAnalyze := false;
    }

    /** The parser's action: records the command and the options. */
    method ResolveOptions(cmd: string, options: Options)
      modifies this
      ensures State() == Resolved(old(State()), cmd, options)
    {
      command := cmd;
      if options.inputDir.Some? {
        inputDir := options.inputDir;
      }
      if options.outputDir.Some? {
        outputDir := options.outputDir;
      }
      if options.configFile.Some? {
        configFile := options.configFile.value;
      }
      shouldAnalyze := options.analyze;
      shouldLintFix := options.fix;
    }

    /**
     * The first half of `main`: the loaded project configuration (or the
     * defaults, when loading threw) with the command-line overrides applied.
     */
    method Configure(defaults: Config, loaded: Option<Config>) returns (c: Config, hasConfig: bool)
      ensures c == Effective(State(), defaults, loaded)
      ensures hasConfig <==> loaded.Some?
    {
      c := defaults;
      hasConfig := false;
      if loaded.Some? {
        c := loaded.value;
        hasConfig := true;
      }
      if inputDir.Some? && inputDir.value != "" {
        c := c.(input := c.input.(baseDir := inputDir.value));
      }
      if outputDir.Some? && outputDir.value != "" {
        c := c.(output := c.output.(baseDir := outputDir.value));
      }
      if shouldAnalyze {
        c := c.(build := c.build.(analyzer := true));
      }
    }

    /** `main`: the steps the process takes for the recorded command and options. */
    method Run(cwd: string, defaults: Config, loaded: Option<Config>, dirExists: string -> bool,
                spawnSucceeds: bool, version: string) returns (steps: seq<Step>)
      ensures steps == Plan(State(), cwd, defaults, loaded, dirExists, spawnSucceeds, version)
    {
      var c, hasConfig := Configure(defaults, loaded);
      if command !in SupportedCommands {
        steps := [Logged(Log.ErrorCall(UnrecognizedMessage(command))), Exit(1)];
        UnsupportedCommandExits(State(), cwd, defaults, loaded, dirExists, spawnSucceeds, version);
        return;
      }
      if !dirExists(c.input.baseDir) {
        steps := [Logged(Log.ErrorCall(MissingDirMessage(c.input.baseDir))), Exit(1)];
        MissingInputDirExits(State(), cwd, defaults, loaded, dirExists, spawnSucceeds, version);
        return;
      }
      var run := RunCommand(command, shouldLintFix, cwd, c, spawnSucceeds);
      steps := [Logged(Log.InfoCall(Banner(version, c, hasConfig, configFile)))] + run;
      PlanOfSupported(State(), cwd, defaults, loaded, dirExists, spawnSucceeds, version);
    }
  }

  /** The `switch` of `main`: the steps of a command once the checks have passed. */
  method RunCommand(command: string, shouldLintFix: bool, cwd: string, c: Config, spawnSucceeds: bool)
    returns (steps: seq<Step>)
    ensures steps == Dispatch(command, shouldLintFix, cwd, c, spawnSucceeds)
  {
    if command == "clean" {
      steps := [Clean(c)];
    } else if command == "build" {
      steps := RunBuild(cwd, c, spawnSucceeds);
    } else if command == "dev" {
      steps := [SetNodeEnv("development"), Dev(c)];
    } else if command == "lint" {
      var run := Lint.LintTask(c, cwd, shouldLintFix, spawnSucceeds);
      assert run == Lint.LintRun(Lint.Command, Lint.LintArgs(c, cwd, shouldLintFix),
                                 Lint.LintEvents(c, cwd, shouldLintFix, spawnSucceeds), spawnSucceeds);
      steps := [RunLint(run)];
    } else {
      steps := [Help];
    }
  }

  /** The `build` case: production mode, the lint gate when enabled, then clean and build. */
  method RunBuild(cwd: string, c: Config, spawnSucceeds: bool) returns (steps: seq<Step>)
    ensures steps == BuildSteps(cwd, c, spawnSucceeds)
  {
    steps := [SetNodeEnv("production")];
    if c.build.linter {
      var run := Lint.LintTask(c, cwd, false, spawnSucceeds);
      assert run == Lint.LintRun(Lint.Command, Lint.LintArgs(c, cwd, false),
                                 Lint.LintEvents(c, cwd, false, spawnSucceeds), spawnSucceeds);
      steps := steps + [RunLint(run)];
      if !run.ok {
        steps := steps + [Print("\n"), Logged(Log.ErrorCall("Linter failed")), Print("\n"), Exit(1)];
        return;
      }
    }
    steps := steps + [Clean(c), Build(c)];
  }

  /** One thing the process does. */
  datatype Step =
    /** A call of the logger. */
    | Logged(call: Log.Call)
    /** A plain `console.log`. */
    | Print(text: string)
    | Exit(code: int)
    | SetNodeEnv(value: string)
    | Clean(config: Config)
    | Build(config: Config)
    | Dev(config: Config)
    | RunLint(run: Lint.LintRun)
    | Help

  const SupportedCommands: seq<string> := ["clean", "build", "dev", "lint", ""]

  function UnrecognizedMessage(command: string): string {
    "Unrecognized command " + Log.Paint(Log.Cyan, command) + ". Try " + Log.Paint(Log.Cyan, "webpack-mpa-builder --help")
  }

  function MissingDirMessage(dir: string): string {
    "Input directory " + Log.Paint(Log.Cyan, dir) + " does not exist"
  }

  /** The start-up banner; the misspelt "ouptut" is what the program prints. */
  function Banner(version: string, c: Config, hasConfig: bool, configFile: string): string {
    Log.Paint(Log.Cyan, "v" + Log.Paint(Log.Cyan, version)) + ": Using input dir " + Log.Paint(Log.Cyan, c.input.baseDir)
    + " and ouptut dir " + Log.Paint(Log.Cyan, c.output.baseDir)
    + (if hasConfig then " with config " + Log.Paint(Log.Cyan, configFile) else " with default config")
  }

  /** A non-empty override replaces the configured directory. */
  function Override(dir: Option<string>, configured: string): string {
    if dir.Some? && dir.value != "" then dir.value else configured
  }

  /** The configuration main works with: the loaded one or the defaults, with the command-line overrides. */
  function Effective(s: CliState, defaults: Config, loaded: Option<Config>): Config {
    var c := loaded.GetOr(defaults);
    c.(input := c.input.(baseDir := Override(s.inputDir, c.input.baseDir)),
       output := c.output.(baseDir := Override(s.outputDir, c.output.baseDir)),
       build := c.build.(analyzer := c.build.analyzer || s.shouldAnalyze))
  }

  /**
   * The overrides replace the directories only with non-empty values, can
   * turn the analyzer on but never off, and change nothing else.
   */
  lemma EffectiveOverrides(s: CliState, defaults: Config, loaded: Option<Config>)
    ensures var base := if loaded.Some? then loaded.value else defaults;
      var c := Effective(s, defaults, loaded);
      && (s.inputDir.None? || s.inputDir == Some("") ==> c.input.baseDir == base.input.baseDir)
      && (s.inputDir.Some? && s.inputDir != Some("") ==> c.input.baseDir == s.inputDir.value)
      && (s.outputDir.None? || s.outputDir == Some("") ==> c.output.baseDir == base.output.baseDir)
      && (s.outputDir.Some? && s.outputDir != Some("") ==> c.output.baseDir == s.outputDir.value)
      && (c.build.analyzer <==> base.build.analyzer || s.shouldAnalyze)
      && c.input == base.input.(baseDir := c.input.baseDir)
      && c.output == base.output.(baseDir := c.output.baseDir)
      && c.build == base.build.(analyzer := c.build.analyzer)
      && c == base.(input := c.input, output := c.output, build := c.build)
  {
  }

  /**
   * Without a project configuration main works with the shipped defaults,
   * which name no view index file, so the generator fails as soon as there
   * is a locale and a page to emit, whatever the command-line overrides.
   */
  lemma DefaultsCannotEmitPages(s: CliState, publicPathEnv: string, cwd: string, host: BuildConf.Host)
    ensures BuildConf.Generate(Effective(s, Defaults(publicPathEnv), None), cwd, host).Failure?
            <==> host.localeFiles != [] && host.pages != []
  {
    EffectiveOverrides(s, Defaults(publicPathEnv), None);
  }

  /** The steps of `build`. */
  function BuildSteps(cwd: string, c: Config, spawnSucceeds: bool): seq<Step> {
    [SetNodeEnv("production")]
    + if !c.build.linter then [Clean(c), Build(c)]
      else
        var run := Lint.LintRun(Lint.Command, Lint.LintArgs(c, cwd, false),
                                Lint.LintEvents(c, cwd, false, spawnSucceeds), spawnSucceeds);
        [RunLint(run)]
        + if spawnSucceeds then [Clean(c), Build(c)]
          else [Print("\n"), Logged(Log.ErrorCall("Linter failed")), Print("\n"), Exit(1)]
  }

  /** The steps of a command once the checks have passed. */
  function Dispatch(command: string, shouldLintFix: bool, cwd: string, c: Config, spawnSucceeds: bool): seq<Step> {
    if command == "clean" then [Clean(c)]
    else if command == "build" then BuildSteps(cwd, c, spawnSucceeds)
    else if command == "dev" then [SetNodeEnv("development"), Dev(c)]
    else if command == "lint" then
      [RunLint(Lint.LintRun(Lint.Command, Lint.LintArgs(c, cwd, shouldLintFix),
                            Lint.LintEvents(c, cwd, shouldLintFix, spawnSucceeds), spawnSucceeds))]
    else [Help]
  }

  /** The steps of `main`. */
  function Plan(s: CliState, cwd: string, defaults: Config, loaded: Option<Config>, dirExists: string -> bool,
                spawnSucceeds: bool, version: string): seq<Step>
  {
    var c := Effective(s, defaults, loaded);
    if s.command !in SupportedCommands then [Logged(Log.ErrorCall(UnrecognizedMessage(s.command))), Exit(1)]
    else if !dirExists(c.input.baseDir) then [Logged(Log.ErrorCall(MissingDirMessage(c.input.baseDir))), Exit(1)]
    else [Logged(Log.InfoCall(Banner(version, c, loaded.Some?, s.configFile)))] + Dispatch(s.command, s.shouldLintFix, cwd, c, spawnSucceeds)
  }

  /** Past both checks, the plan is the banner followed by the command's steps. */
  lemma PlanOfSupported(s: CliState, cwd: string, defaults: Config, loaded: Option<Config>,
                        dirExists: string -> bool, spawnSucceeds: bool, version: string)
    requires s.command in SupportedCommands
    requires dirExists(Effective(s, defaults, loaded).input.baseDir)
    ensures var c := Effective(s, defaults, loaded);
      Plan(s, cwd, defaults, loaded, dirExists, spawnSucceeds, version)
      == [Logged(Log.InfoCall(Banner(version, c, loaded.Some?, s.configFile)))]
         + Dispatch(s.command, s.shouldLintFix, cwd, c, spawnSucceeds)
  {
  }

  /** No task runs in the plan. */
  predicate NoTask(steps: seq<Step>) {
    forall k :: 0 <= k < |steps| ==> !steps[k].Clean? && !steps[k].Build? && !steps[k].Dev? && !steps[k].RunLint?
  }

  /** An unsupported command is reported on the error stream and exits 1 before the input directory is looked at. */
  lemma UnsupportedCommandExits(s: CliState, cwd: string, defaults: Config, loaded: Option<Config>,
                                dirExists: string -> bool, spawnSucceeds: bool, version: string)
    requires s.command !in SupportedCommands
    ensures var steps := Plan(s, cwd, defaults, loaded, dirExists, spawnSucceeds, version);
      && |steps| == 2 && steps[0] == Logged(Log.ErrorCall(UnrecognizedMessage(s.command)))
      && steps[1] == Exit(1)
      && Plan(s, cwd, defaults, loaded, (d: string) => !dirExists(d), spawnSucceeds, version) == steps
  {
  }

  /** A supported command whose input directory is missing is reported and exits 1 with no task run. */
  lemma MissingInputDirExits(s: CliState, cwd: string, defaults: Config, loaded: Option<Config>,
                             dirExists: string -> bool, spawnSucceeds: bool, version: string)
    requires s.command in SupportedCommands
    requires !dirExists(Effective(s, defaults, loaded).input.baseDir)
    ensures var steps := Plan(s, cwd, defaults, loaded, dirExists, spawnSucceeds, version);
      && steps == [Logged(Log.ErrorCall(MissingDirMessage(Effective(s, defaults, loaded).input.baseDir))), Exit(1)]
      && NoTask(steps)
  {
  }

  /** The commands that get past the checks: exactly the five supported ones. */
  lemma SupportedCommandsExactly(command: string)
    ensures command in SupportedCommands
            <==> command == "clean" || command == "build" || command == "dev" || command == "lint" || command == ""
  {
  }

  /**
   * `build` without the lint gate, or with a passing lint: the banner, the
   * production mode, the lint run if enabled, then clean and last build.
   */
  lemma BuildRunsCleanThenBuild(s: CliState, cwd: string, defaults: Config, loaded: Option<Config>,
                                dirExists: string -> bool, spawnSucceeds: bool, version: string)
    requires s.command == "build"
    requires dirExists(Effective(s, defaults, loaded).input.baseDir)
    requires !Effective(s, defaults, loaded).build.linter || spawnSucceeds
    ensures var steps := Plan(s, cwd, defaults, loaded, dirExists, spawnSucceeds, version);
      var c := Effective(s, defaults, loaded);
      && |steps| >= 4
      && steps[1] == SetNodeEnv("production")
      && steps[|steps| - 2] == Clean(c) && steps[|steps| - 1] == Build(c)
      && (c.build.linter <==> |steps| == 5)
      && (c.build.linter ==> steps[2].RunLint? && steps[2].run.args == Lint.LintArgs(c, cwd, false))
      && (forall k :: 0 <= k < |steps| ==> steps[k] != Exit(1))
  {
    var c := Effective(s, defaults, loaded);
    var banner := Logged(Log.InfoCall(Banner(version, c, loaded.Some?, s.configFile)));
    var build := BuildSteps(cwd, c, spawnSucceeds);
    PlanOfSupported(s, cwd, defaults, loaded, dirExists, spawnSucceeds, version);
    BuildStepsPassing(cwd, c, spawnSucceeds);
    assert forall k :: 1 <= k < 1 + |build| ==> ([banner] + build)[k] == build[k - 1];
  }

  /** A build whose lint gate is off or passes: production mode, the lint run if enabled, clean, build. */
  lemma BuildStepsPassing(cwd: string, c: Config, spawnSucceeds: bool)
    requires !c.build.linter || spawnSucceeds
    ensures var b := BuildSteps(cwd, c, spawnSucceeds);
      && |b| >= 3
      && b[0] == SetNodeEnv("production")
      && b[|b| - 2] == Clean(c) && b[|b| - 1] == Build(c)
      && (c.build.linter <==> |b| == 4)
      && (c.build.linter ==> b[1].RunLint? && b[1].run.args == Lint.LintArgs(c, cwd, false))
      && (forall k :: 0 <= k < |b| ==> b[k] != Exit(1))
  {
    if c.build.linter {
      var run := Lint.LintRun(Lint.Command, Lint.LintArgs(c, cwd, false), Lint.LintEvents(c, cwd, false, true), true);
      assert BuildSteps(cwd, c, spawnSucceeds) == [SetNodeEnv("production"), RunLint(run), Clean(c), Build(c)];
    }
  }

  /** `build` with the lint gate and a failing lint exits 1 and neither cleans nor builds. */
  lemma BuildStopsOnLintFailure(s: CliState, cwd: string, defaults: Config, loaded: Option<Config>,
                                dirExists: string -> bool, version: string)
    requires s.command == "build"
    requires dirExists(Effective(s, defaults, loaded).input.baseDir)
    requires Effective(s, defaults, loaded).build.linter
    ensures var steps := Plan(s, cwd, defaults, loaded, dirExists, false, version);
      && steps[|steps| - 1] == Exit(1)
      && steps[2].RunLint? && !steps[2].run.ok
      && (forall k :: 0 <= k < |steps| ==> !steps[k].Clean? && !steps[k].Build?)
  {
    var c := Effective(s, defaults, loaded);
    var banner := Logged(Log.InfoCall(Banner(version, c, loaded.Some?, s.configFile)));
    var build := BuildSteps(cwd, c, false);
    PlanOfSupported(s, cwd, defaults, loaded, dirExists, false, version);
    BuildStepsFailing(cwd, c);
    assert forall k :: 1 <= k < 1 + |build| ==> ([banner] + build)[k] == build[k - 1];
  }

  /** A build whose lint gate fails: production mode, the failed lint run, the report, exit 1. */
  lemma BuildStepsFailing(cwd: string, c: Config)
    requires c.build.linter
    ensures var b := BuildSteps(cwd, c, false);
      && |b| == 6 && b[|b| - 1] == Exit(1)
      && b[1].RunLint? && !b[1].run.ok
      && (forall k :: 0 <= k < |b| ==> !b[k].Clean? && !b[k].Build?)
  {
    var run := Lint.LintRun(Lint.Command, Lint.LintArgs(c, cwd, false), Lint.LintEvents(c, cwd, false, false), false);
    var tail := [Print("\n"), Logged(Log.ErrorCall("Linter failed")), Print("\n"), Exit(1)];
    assert BuildSteps(cwd, c, false) == [SetNodeEnv("production")] + ([RunLint(run)] + tail);
  }

  /** The `lint` command swallows a lint failure: it never exits 1. */
  lemma LintNeverExits(s: CliState, cwd: string, defaults: Config, loaded: Option<Config>,
                       dirExists: string -> bool, spawnSucceeds: bool, version: string)
    requires s.command == "lint"
    requires dirExists(Effective(s, defaults, loaded).input.baseDir)
    ensures var steps := Plan(s, cwd, defaults, loaded, dirExists, spawnSucceeds, version);
      && |steps| == 2
      && steps[1].RunLint? && steps[1].run.ok == spawnSucceeds
      && steps[1].run.args == Lint.LintArgs(Effective(s, defaults, loaded), cwd, s.shouldLintFix)
      && (forall k :: 0 <= k < |steps| ==> !steps[k].Exit?)
  {
  }

  /** No command falls through to the help text but the empty one. */
  lemma HelpOnlyWithoutCommand(s: CliState, cwd: string, defaults: Config, loaded: Option<Config>,
                               dirExists: string -> bool, spawnSucceeds: bool, version: string)
    requires dirExists(Effective(s, defaults, loaded).input.baseDir)
    ensures var steps := Plan(s, cwd, defaults, loaded, dirExists, spawnSucceeds, version);
      Help in steps <==> s.command == ""
  {
    if s.command in SupportedCommands {
      var c := Effective(s, defaults, loaded);
      var banner := Logged(Log.InfoCall(Banner(version, c, loaded.Some?, s.configFile)));
      var tail := Dispatch(s.command, s.shouldLintFix, cwd, c, spawnSucceeds);
      PlanOfSupported(s, cwd, defaults, loaded, dirExists, spawnSucceeds, version);
      assert Help in [banner] + tail <==> Help in tail;
      if s.command == "build" {
        NoHelpInBuild(cwd, c, spawnSucceeds);
      }
    }
  }

  /** The steps of `build` never include the help text. */
  lemma NoHelpInBuild(cwd: string, c: Config, spawnSucceeds: bool)
    ensures Help !in BuildSteps(cwd, c, spawnSucceeds)
  {
    if c.build.linter {
      var run := Lint.LintRun(Lint.Command, Lint.LintArgs(c, cwd, false),
                              Lint.LintEvents(c, cwd, false, spawnSucceeds), spawnSucceeds);
      var rest := if spawnSucceeds then [Clean(c), Build(c)]
                  else [Print("\n"), Logged(Log.ErrorCall("Linter failed")), Print("\n"), Exit(1)];
      assert BuildSteps(cwd, c, spawnSucceeds) == [SetNodeEnv("production"), RunLint(run)] + rest;
    }
  }

  /** The banner names the config file exactly when a project config was loaded. */
  lemma BannerNamesConfig(version: string, c: Config, hasConfig: bool, configFile: string)
    ensures var b := Banner(version, c, hasConfig, configFile);
      var tail := if hasConfig then " with config " + Log.Paint(Log.Cyan, configFile) else " with default config";
      |tail| <= |b| && b[|b| - |tail|..] == tail
  {
  }
}
