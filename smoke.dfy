// SmokeMojo: the smoke goal, which runs the ICE validation of built msi and msp packages.
// Which packages it checks, the smoke command line, how smoke's output is logged and
// recorded, and how testFailureIgnore turns a failed check into a warning.
module Smoke {
  import opened Wrappers
  import opened JavaText
  import opened Files
  import opened Seqs
  import opened ArtifactLookup
  import opened Runtime
  import opened WixMojo
  import opened Packageable
  import opened Plans

  const ErrorMarker := " : error "
  const WarningMarker := " : warning "
  const UsageMarker := "usage: "

  datatype SmokeConfig = SmokeConfig(
    skip: bool,
    skipTests: bool,
    verbose: bool,
    validate: Option<string>,
    reportDirectory: Option<string>,
    toolDirectory: string,
    relativeBase: string,
    validationLogFile: string,
    validateAllCultures: bool,
    testFailureIgnore: bool,
    packaged: Packaged)

  /**
   * The world as the goal sees it: files, the extension dependencies, the iteration
   * orders of the platform and culture-spec sets, and the three-argument getOutput.
   */
  datatype SmokeBuild = SmokeBuild(
    fs: FileSystem,
    artifacts: seq<Artifact>,
    direct: set<Coordinates>,
    order: set<string> -> seq<string>,
    cultureOrder: set<Option<string>> -> seq<Option<string>>,
    output: (string, Option<string>, string) -> string)

  /** Only installers and patches can be smoke tested (the packaging compared ignoring case). */
  predicate SmokesPackaging(packaging: string)
  {
    EqualsIgnoreCase(PackInstall, packaging) || EqualsIgnoreCase(PackPatch, packaging)
  }

  /** validate=suppress and validate=linking leave no ICE validation to this goal. */
  predicate ValidationSkipsSmoke(validate: Option<string>)
  {
    validate.Some? && (EqualsIgnoreCase(ValidateSuppress, validate.value) || EqualsIgnoreCase(ValidateLink, validate.value))
  }

  /** The cultures checked on each platform: every culture spec, or only the base one. */
  function SmokeCultures(cfg: SmokeConfig, b: SmokeBuild): seq<Option<string>>
  {
    if cfg.validateAllCultures then b.cultureOrder(cfg.packaged.culturespecs) else [cfg.packaged.baseCulturespec]
  }

  /** The package of one platform and culture; its extension is the packaging itself. */
  function PackageFile(cfg: SmokeConfig, b: SmokeBuild, v: (string, Option<string>)): string
  {
    b.output(v.0, v.1, cfg.packaged.packaging)
  }

  function PackageFileOf(cfg: SmokeConfig, b: SmokeBuild): ((string, Option<string>)) -> string
  {
    (v: (string, Option<string>)) => PackageFile(cfg, b, v)
  }

  /** The files list of multiSmoke, platform by platform. */
  function SmokeFiles(cfg: SmokeConfig, b: SmokeBuild, archs: seq<string>): seq<string>
  {
    FlatMap(Cross(archs, SmokeCultures(cfg, b)), Singles(PackageFileOf(cfg, b)))
  }

  /**
   * The list holds one package per platform and checked culture, in platform-major order:
   * the package of platform i and culture j sits at i * (number of cultures) + j.
   */
  lemma SmokeFilesOrder(cfg: SmokeConfig, b: SmokeBuild, archs: seq<string>, i: nat, j: nat)
    requires i < |archs| && j < |SmokeCultures(cfg, b)|
    ensures |SmokeFiles(cfg, b, archs)| == |archs| * |SmokeCultures(cfg, b)|
    ensures var n := |SmokeCultures(cfg, b)|;
      i * n + j < |SmokeFiles(cfg, b, archs)|
      && SmokeFiles(cfg, b, archs)[i * n + j] == b.output(archs[i], SmokeCultures(cfg, b)[j], cfg.packaged.packaging)
  {
    var cultures := SmokeCultures(cfg, b);
    CrossAt(archs, cultures, i, j);
    SinglesAt(Cross(archs, cultures), PackageFileOf(cfg, b), i * |cultures| + j);
  }

  /**
   * Over the platforms the goal uses, a file is checked exactly when it is the package of
   * some platform and some culture spec (every one, or just the base one); there is one
   * per platform, or one per platform and culture spec.
   */
  lemma SmokeFilesMembers(cfg: SmokeConfig, b: SmokeBuild, platforms: set<string>, file: string)
    requires IsIterationOrder(b.order) && IsIterationOrder(b.cultureOrder)
    ensures var files := SmokeFiles(cfg, b, b.order(platforms));
      && |files| == |platforms| * (if cfg.validateAllCultures then |cfg.packaged.culturespecs| else 1)
      && (file in files <==>
            exists arch, c :: arch in platforms
              && (if cfg.validateAllCultures then c in cfg.packaged.culturespecs else c == cfg.packaged.baseCulturespec)
              && file == b.output(arch, c, cfg.packaged.packaging))
  {
    var archs := b.order(platforms);
    var cultures := SmokeCultures(cfg, b);
    var g := PackageFileOf(cfg, b);
    assert Lists(archs, platforms);
    ListsCard(archs, platforms);
    if cfg.validateAllCultures {
      assert Lists(cultures, cfg.packaged.culturespecs);
      ListsCard(cultures, cfg.packaged.culturespecs);
    }
    CrossSingles(archs, cultures, g, file);
    if exists arch, c :: arch in platforms
        && (if cfg.validateAllCultures then c in cfg.packaged.culturespecs else c == cfg.packaged.baseCulturespec)
        && file == b.output(arch, c, cfg.packaged.packaging) {
      var arch, c :| arch in platforms
        && (if cfg.validateAllCultures then c in cfg.packaged.culturespecs else c == cfg.packaged.baseCulturespec)
        && file == b.output(arch, c, cfg.packaged.packaging);
      assert c in cultures;
      assert file == g((arch, c));
    }
  }

  function SmokeExe(cfg: SmokeConfig): string
  {
    ToolExecutable(cfg.toolDirectory, "smoke.exe")
  }

  /** The smoke command line: general options, the extensions, then every package. */
  function SmokeCall(cfg: SmokeConfig, b: SmokeBuild, files: seq<string>): (r: Invocation)
    ensures r.executable == SmokeExe(cfg) && r.workingDirectory == Some(cfg.relativeBase)
    ensures |r.arguments| == |GeneralOptions(cfg.verbose)| + |ExtensionArgs(ExtensionDependencies(b.artifacts))| + |files|
    ensures r.arguments[|r.arguments| - |files|..] == files
  {
    var head := GeneralOptions(cfg.verbose) + ExtensionArgs(ExtensionDependencies(b.artifacts));
    assert (head + files)[|head|..] == files;
    Invocation(SmokeExe(cfg), Some(cfg.relativeBase), head + files)
  }

  /** A missing validation log is created, together with its folder, before smoke runs. */
  function LogSetup(fs: FileSystem, log: string): (r: seq<Step>)
    ensures Exists(fs, log) <==> r == []
  {
    if Exists(fs, log) then [] else [Do(CreateDirectories(Parent(log))), Do(Touch(log))]
  }

  /** multiSmoke and smoke: a failure reports the return code but not the command line. */
  function SmokeRun(cfg: SmokeConfig, b: SmokeBuild, platforms: set<string>): seq<Step>
  {
    LogSetup(b.fs, cfg.validationLogFile) + [Call("smoke", false, SmokeCall(cfg, b, SmokeFiles(cfg, b, b.order(platforms))))]
  }

  /** What execute plans: the steps before multiSmoke, and multiSmoke's own (none when it is not reached). */
  datatype SmokePlan = SmokePlan(before: seq<Step>, smoke: seq<Step>)

  function PlanSmoke(cfg: SmokeConfig, b: SmokeBuild, platforms: Option<set<string>>): SmokePlan
  {
    if cfg.skip || cfg.skipTests then SmokePlan([], [])
    else if !SmokesPackaging(cfg.packaged.packaging) then SmokePlan([Throw(BuildFailed("Can only smoke test .msi or .msp"))], [])
    else if ValidationSkipsSmoke(cfg.validate) then SmokePlan([], [])
    else
      var report := if cfg.reportDirectory.Some? then [Do(CreateDirectories(cfg.reportDirectory.value))] else [];
      if !Exists(b.fs, SmokeExe(cfg)) then SmokePlan(report + [Throw(MissingFile(SmokeExe(cfg)))], [])
      else SmokePlan(report, SmokeRun(cfg, b, DefaultPlatforms(platforms)))
  }

  /**
   * execute: the steps before multiSmoke run as usual; a failure inside multiSmoke only
   * warns when testFailureIgnore is set, and the goal then completes.
   */
  function SmokeOutcome(cfg: SmokeConfig, b: SmokeBuild, platforms: Option<set<string>>, tool: Tool): Outcome
  {
    var plan := PlanSmoke(cfg, b, platforms);
    var before := Perform(plan.before, tool);
    if before.Failed? then before
    else
      var smoke := Perform(plan.smoke, tool);
      if smoke.Failed? && cfg.testFailureIgnore then Completed(before.trace + smoke.trace)
      else Prefixed(before.trace, smoke)
  }

  /**
   * Skipping, or a validate setting that leaves ICE to the linker, does nothing; any
   * packaging other than msi or msp fails the build, before validate is looked at.
   */
  lemma SmokeGates(cfg: SmokeConfig, b: SmokeBuild, platforms: Option<set<string>>, tool: Tool)
    ensures cfg.skip || cfg.skipTests ==> SmokeOutcome(cfg, b, platforms, tool) == Completed([])
    ensures !cfg.skip && !cfg.skipTests && !SmokesPackaging(cfg.packaged.packaging) ==>
      SmokeOutcome(cfg, b, platforms, tool) == Failed([], BuildFailed("Can only smoke test .msi or .msp"))
    ensures !cfg.skip && !cfg.skipTests && SmokesPackaging(cfg.packaged.packaging) && ValidationSkipsSmoke(cfg.validate) ==>
      SmokeOutcome(cfg, b, platforms, tool) == Completed([])
  {
    var plan := PlanSmoke(cfg, b, platforms);
    if cfg.skip || cfg.skipTests || (SmokesPackaging(cfg.packaged.packaging) && ValidationSkipsSmoke(cfg.validate)) {
      assert plan == SmokePlan([], []);
      assert Perform([], tool) == Completed([]);
      assert Prefixed([], Completed([])) == Completed([]);
    }
  }

  /** A missing smoke.exe fails the goal whatever testFailureIgnore says: it is checked outside the guarded call. */
  lemma SmokeNeedsTool(cfg: SmokeConfig, b: SmokeBuild, platforms: Option<set<string>>, tool: Tool)
    requires !cfg.skip && !cfg.skipTests && SmokesPackaging(cfg.packaged.packaging) && !ValidationSkipsSmoke(cfg.validate)
    requires !Exists(b.fs, SmokeExe(cfg))
    ensures SmokeOutcome(cfg, b, platforms, tool) ==
      Failed(if cfg.reportDirectory.Some? then [Did(CreateDirectories(cfg.reportDirectory.value))] else [], MissingFile(SmokeExe(cfg)))
  {
    var plan := PlanSmoke(cfg, b, platforms);
    var failure := MissingFile(SmokeExe(cfg));
    assert Perform([Throw(failure)], tool) == Failed([], failure);
    if cfg.reportDirectory.Some? {
      var mkdir := Do(CreateDirectories(cfg.reportDirectory.value));
      assert plan.before == [mkdir, Throw(failure)];
      assert plan.before[1..] == [Throw(failure)];
      assert Perform(plan.before, tool) == Prefixed([Did(mkdir.effect)], Failed([], failure));
    } else {
      assert plan.before == [Throw(failure)];
    }
  }

  /**
   * With testFailureIgnore a goal that reaches multiSmoke always completes, recording the
   * smoke run it made; without it, execute is the plain run of both parts in turn, so a
   * non-zero exit of smoke fails the build with its return code.
   */
  lemma SmokeFailureIgnore(cfg: SmokeConfig, b: SmokeBuild, platforms: Option<set<string>>, tool: Tool)
    requires !cfg.skip && !cfg.skipTests && SmokesPackaging(cfg.packaged.packaging) && !ValidationSkipsSmoke(cfg.validate)
    requires Exists(b.fs, SmokeExe(cfg))
    ensures cfg.testFailureIgnore ==> SmokeOutcome(cfg, b, platforms, tool).Completed?
    ensures cfg.testFailureIgnore ==>
      var call := SmokeCall(cfg, b, SmokeFiles(cfg, b, b.order(DefaultPlatforms(platforms))));
      Ran(call) in SmokeOutcome(cfg, b, platforms, tool).trace
    ensures !cfg.testFailureIgnore ==>
      var plan := PlanSmoke(cfg, b, platforms);
      SmokeOutcome(cfg, b, platforms, tool) == Perform(plan.before + plan.smoke, tool)
  {
    var plan := PlanSmoke(cfg, b, platforms);
    var report := if cfg.reportDirectory.Some? then [Do(CreateDirectories(cfg.reportDirectory.value))] else [];
    assert plan.before == report;
    assert Perform(report, tool).Completed? by {
      PerformCompletes(report, tool);
    }
    var call := SmokeCall(cfg, b, SmokeFiles(cfg, b, b.order(DefaultPlatforms(platforms))));
    assert plan.smoke == LogSetup(b.fs, cfg.validationLogFile) + [Call("smoke", false, call)];
    SmokeRuns(LogSetup(b.fs, cfg.validationLogFile), call, tool);
    PerformConcat(plan.before, plan.smoke, tool);
  }

  /** After the log file's setup, which cannot fail, smoke runs whatever it returns. */
  lemma SmokeRuns(setup: seq<Step>, call: Invocation, tool: Tool)
    requires forall k :: 0 <= k < |setup| ==> setup[k].Do?
    ensures Ran(call) in Perform(setup + [Call("smoke", false, call)], tool).trace
  {
    PerformConcat(setup, [Call("smoke", false, call)], tool);
    PerformCompletes(setup, tool);
    assert Ran(call) in Perform([Call("smoke", false, call)], tool).trace;
  }

  /** A smoke run fails exactly when smoke cannot start or exits non-zero, reporting the code alone. */
  lemma SmokeCallOutcome(call: Invocation, tool: Tool)
    ensures Perform([Call("smoke", false, call)], tool).Completed? <==> tool(call).Exited? && tool(call).exitCode == 0
    ensures tool(call).Exited? && tool(call).exitCode != 0 ==>
      Perform([Call("smoke", false, call)], tool) == Failed([Ran(call)], ToolFailed("smoke", tool(call).exitCode, None))
  {
  }

  // ---- smoke's output ----

  /** A line of smoke's output as it arrives, from stdout or from stderr. */
  datatype OutputLine = StdoutLine(text: string) | StderrLine(text: string)

  /**
   * The level a stdout line is logged at, when verbose (otherwise it is not logged):
   * errors, then warnings and usage text as warnings, then info.
   */
  function RateSmokeLine(line: string): (r: Severity)
    ensures r == Error <==> Contains(line, ErrorMarker)
    ensures r == Warn <==> !Contains(line, ErrorMarker) && (Contains(line, WarningMarker) || Contains(line, UsageMarker))
    ensures r != Debug
  {
    if Contains(line, ErrorMarker) then Error
    else if Contains(line, WarningMarker) then Warn
    else if Contains(line, UsageMarker) then Warn
    else Info
  }

  /** What each arriving line puts in the build log. */
  function LogMessage(verbose: bool, line: OutputLine): seq<(Severity, string)>
  {
    match line
    case StdoutLine(t) => if verbose then [(RateSmokeLine(t), t)] else []
    case StderrLine(t) => [(Error, t)]
  }

  function LogMessageOf(verbose: bool): OutputLine -> seq<(Severity, string)>
  {
    (line: OutputLine) => LogMessage(verbose, line)
  }

  function TextOf(line: OutputLine): seq<string>
  {
    [line.text]
  }

  /**
   * Both of smoke's consumers: each line goes to the validation log file, stdout lines
   * are logged only when verbose, and stderr lines always as errors.
   */
  class ValidationLog {
    /** The lines written to the validation log file, each followed by a line break. */
    var written: seq<string>
    /** The messages given to the build log. */
    var logged: seq<(Severity, string)>

    constructor ()
      ensures written == [] && logged == []
    {
      written := [];
      logged := [];
    }

    /** The stdout consumer. */
    method ConsumeStdout(verbose: bool, line: string)
      modifies this
      ensures written == old(written) + [line]
      ensures logged == old(logged) + LogMessage(verbose, StdoutLine(line))
    {
      if verbose {
        if Contains(line, ErrorMarker) {
          logged := logged + [(Error, line)];
        } else if Contains(line, WarningMarker) {
          logged := logged + [(Warn, line)];
        } else if Contains(line, UsageMarker) {
          logged := logged + [(Warn, line)];
        } else {
          logged := logged + [(Info, line)];
        }
      }
      written := written + [line];
    }

    /** The stderr consumer. */
    method ConsumeStderr(line: string)
      modifies this
      ensures written == old(written) + [line]
      ensures logged == old(logged) + [(Error, line)]
    {
      logged := logged + [(Error, line)];
      written := written + [line];
    }

    /** Consuming smoke's output lines in the order they arrive. */
    method Record(verbose: bool, lines: seq<OutputLine>)
      modifies this
      ensures written == old(written) + FlatMap(lines, TextOf)
      ensures logged == old(logged) + FlatMap(lines, LogMessageOf(verbose))
    {
      var i := 0;
      while i < |lines|
        invariant 0 <= i <= |lines|
        invariant written == old(written) + FlatMap(lines[..i], TextOf)
        invariant logged == old(logged) + FlatMap(lines[..i], LogMessageOf(verbose))
      {
        FlatMapGrows(lines, TextOf, i);
        FlatMapGrows(lines, LogMessageOf(verbose), i);
        AppendAssoc(old(written), FlatMap(lines[..i], TextOf), TextOf(lines[i]));
        AppendAssoc(old(logged), FlatMap(lines[..i], LogMessageOf(verbose)), LogMessageOf(verbose)(lines[i]));
        match lines[i] {
          case StdoutLine(t) => ConsumeStdout(verbose, t);
          case StderrLine(t) => ConsumeStderr(t);
        }
        i := i + 1;
      }
      assert lines[..i] == lines;
    }
  }

  /** The log file holds every line of both streams, in the order they arrived. */
  lemma WrittenIsEveryLine(lines: seq<OutputLine>)
    ensures |FlatMap(lines, TextOf)| == |lines|
    ensures forall i :: 0 <= i < |lines| ==> FlatMap(lines, TextOf)[i] == lines[i].text
  {
    FlatMapSingles(lines, TextOf);
  }

  /**
   * With verbose every line reaches the build log, in arrival order, stdout lines at their
   * rating and stderr lines as errors; without it exactly the stderr lines do, as errors.
   */
  lemma LoggedLines(verbose: bool, lines: seq<OutputLine>, m: (Severity, string))
    ensures var msgs := FlatMap(lines, LogMessageOf(verbose));
      verbose ==>
        |msgs| == |lines|
        && forall i :: 0 <= i < |lines| ==>
             msgs[i] == (if lines[i].StdoutLine? then (RateSmokeLine(lines[i].text), lines[i].text) else (Error, lines[i].text))
    ensures !verbose ==>
      (m in FlatMap(lines, LogMessageOf(verbose)) <==>
        exists i :: 0 <= i < |lines| && lines[i].StderrLine? && m == (Error, lines[i].text))
  {
    var f := LogMessageOf(verbose);
    if verbose {
      assert forall i :: 0 <= i < |lines| ==> |f(lines[i])| == 1;
      FlatMapSingles(lines, f);
    } else {
      FlatMapMembers(lines, f, m);
    }
  }

  // ---- the goal as a method ----

  /** The file list of multiSmoke, built platform by platform. */
  method SmokeFileList(cfg: SmokeConfig, b: SmokeBuild, archs: seq<string>) returns (files: seq<string>)
    ensures files == SmokeFiles(cfg, b, archs)
  {
    ghost var cultures := SmokeCultures(cfg, b);
    ghost var f := Singles(PackageFileOf(cfg, b));
    files := [];
    var i := 0;
    while i < |archs|
      invariant 0 <= i <= |archs|
      invariant files == FlatMap(Cross(archs[..i], cultures), f)
    {
      var row := SmokeRow(cfg, b, archs[i]);
      CrossGrows(archs, cultures, i);
      FlatMapConcat(Cross(archs[..i], cultures), Row(archs[i], cultures), f);
      files := files + row;
      i := i + 1;
    }
    assert archs[..i] == archs;
  }

  /** The packages of one platform: one per checked culture. */
  method SmokeRow(cfg: SmokeConfig, b: SmokeBuild, arch: string) returns (row: seq<string>)
    ensures row == FlatMap(Row(arch, SmokeCultures(cfg, b)), Singles(PackageFileOf(cfg, b)))
  {
    ghost var f := Singles(PackageFileOf(cfg, b));
    if cfg.validateAllCultures {
      var specs := b.cultureOrder(cfg.packaged.culturespecs);
      row := [];
      var j := 0;
      while j < |specs|
        invariant 0 <= j <= |specs|
        invariant row == FlatMap(Row(arch, specs[..j]), f)
      {
        RowGrows(arch, specs, j);
        FlatMapSnoc(Row(arch, specs[..j]), (arch, specs[j]), f);
        row := row + [b.output(arch, specs[j], cfg.packaged.packaging)];
        j := j + 1;
      }
      assert specs[..j] == specs;
    } else {
      row := [b.output(arch, cfg.packaged.baseCulturespec, cfg.packaged.packaging)];
      FlatMapSnoc([], (arch, cfg.packaged.baseCulturespec), f);
      assert Row(arch, [cfg.packaged.baseCulturespec]) == [] + [(arch, cfg.packaged.baseCulturespec)];
    }
  }


  /** multiSmoke's command line. */
  method SmokeCommand(cfg: SmokeConfig, b: SmokeBuild, files: seq<string>) returns (cl: CommandLine)
    ensures fresh(cl)
    ensures cl.Snapshot() == SmokeCall(cfg, b, files)
  {
    cl := new CommandLine(ToolExecutable(cfg.toolDirectory, "smoke.exe"));
    cl.SetWorkingDirectory(cfg.relativeBase);
    AddToolsetGeneralOptions(cl, cfg.verbose);
    AddWixExtensions(cl, ExtensionDependencies(b.artifacts));
    cl.AddArguments(files);
  }

  /** execute, proved against PlanSmoke; getPlatforms is consulted only once multiSmoke is reached. */
  method SmokeExecute(cfg: SmokeConfig, b: SmokeBuild, setting: PlatformSetting) returns (plan: SmokePlan)
    modifies setting
    ensures plan == PlanSmoke(cfg, b, old(setting.platforms))
  {
    if cfg.skip || cfg.skipTests {
      return SmokePlan([], []);
    }
    if !(EqualsIgnoreCase(PackInstall, cfg.packaged.packaging) || EqualsIgnoreCase(PackPatch, cfg.packaged.packaging)) {
      return SmokePlan([Throw(BuildFailed("Can only smoke test .msi or .msp"))], []);
    }
    if ValidationSkipsSmoke(cfg.validate) {
      return SmokePlan([], []);
    }
    var before: seq<Step> := [];
    if cfg.reportDirectory.Some? {
      before := [Do(CreateDirectories(cfg.reportDirectory.value))];
    }
    var smokeTool := ToolExecutable(cfg.toolDirectory, "smoke.exe");
    if !Exists(b.fs, smokeTool) {
      return SmokePlan(before + [Throw(MissingFile(smokeTool))], []);
    }
    var platforms := setting.GetPlatforms();
    var files := SmokeFileList(cfg, b, b.order(platforms));
    var cl := SmokeCommand(cfg, b, files);
    var smoke: seq<Step> := [];
    if !Exists(b.fs, cfg.validationLogFile) {
      smoke := [Do(CreateDirectories(Parent(cfg.validationLogFile))), Do(Touch(cfg.validationLogFile))];
    }
    smoke := smoke + [Call("smoke", false, cl.Snapshot())];
    return SmokePlan(before, smoke);
  }
}
