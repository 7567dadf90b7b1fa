// LitMojo: the lit goal. For every platform it scans the objects of the platform's
// intermediate folder and, when there are any, runs lit to put them into a wixlib. The
// locale folder and the folders addOptions adds stay in the linker's bind folders, so a
// later platform binds every folder an earlier one added.
module Lit {
  import opened Wrappers
  import opened Files
  import opened Seqs
  import opened ArtifactLookup
  import opened Runtime
  import opened JavaProperties
  import opened WixMojo
  import opened RelativePath
  import opened Linker
  import opened Plans

  /** The configuration the lit goal reads. */
  datatype LitConfig = LitConfig(
    skip: bool,
    verbose: bool,
    bindFiles: bool,
    packageOutputExtension: string,
    toolDirectory: string,
    relativeBase: string,
    intDirectory: string,
    wxlInputDirectory: string,
    outputDirectory: Option<string>,
    folders: BindFolders,
    linkProperties: Option<Properties>)

  /**
   * What the goal sees of the world: the file system, the resolved artifacts, the path
   * canonicaliser, the iteration order of hash sets, the output file of a build
   * (platform, culture, extension) and the stale-source scanner (includes, excludes,
   * source folder, target).
   */
  datatype LitBuild = LitBuild(
    fs: FileSystem,
    artifacts: seq<Artifact>,
    direct: set<Coordinates>,
    canonical: string -> string,
    order: set<string> -> seq<string>,
    output: (string, Option<string>, string) -> string,
    scan: (set<string>, set<string>, string, string) -> set<string>)

  /** The bind folders the linker keeps, and the folders made so far. */
  datatype LitState = LitState(roots: set<string>, made: set<string>)

  // ---- one platform ----

  /** getOutput(arch, null, extension): a wixlib has no culture. */
  function LitOutput(cfg: LitConfig, b: LitBuild, arch: string): string
  {
    b.output(arch, None, cfg.packageOutputExtension)
  }

  /** getArchIntDirectory: the platform's folder under the intermediate folder. */
  function ArchIntDirectory(cfg: LitConfig, arch: string): string
  {
    Child(cfg.intDirectory, arch)
  }

  /** The object files the scanner finds for a platform. */
  function LitObjects(cfg: LitConfig, b: LitBuild, p: ScanPatterns, arch: string): set<string>
  {
    b.scan(p.includes, p.excludes, ArchIntDirectory(cfg, arch), LitOutput(cfg, b, arch))
  }

  /** The sorted locale files, scanned against the output's folder, when the locale folder exists. */
  function LitLocales(cfg: LitConfig, b: LitBuild, p: ScanPatterns, arch: string): Option<seq<string>>
  {
    if Exists(b.fs, cfg.wxlInputDirectory) then
      Some(SortedList(b.order(b.scan(p.localeIncludes, p.localeExcludes, cfg.wxlInputDirectory,
                                     Parent(LitOutput(cfg, b, arch))))))
    else None
  }

  /** The locale files made relative; none without a locale folder. */
  function LitLocaleFiles(cfg: LitConfig, b: LitBuild, p: ScanPatterns, arch: string): Result<seq<string>, Failure>
  {
    var locales := LitLocales(cfg, b, p, arch);
    if locales.Some? then RelativeAll(b.canonical, cfg.relativeBase, locales.value) else Ok([])
  }

  /** The bind folders once the locale folder, when it exists, has joined them. */
  function WithLocaleFolder(cfg: LitConfig, fs: FileSystem, roots: set<string>): set<string>
  {
    if Exists(fs, cfg.wxlInputDirectory) then roots + {cfg.wxlInputDirectory} else roots
  }

  /** The switches before the bind folders: general options, "-bf" when binding files, "-out". */
  function LitLeading(cfg: LitConfig, out: string): seq<string>
  {
    GeneralOptions(cfg.verbose) + (if cfg.bindFiles then ["-bf"] else []) + ["-out", out]
  }

  /** The switches after the bind folders: extensions, locale files, pass-through properties. */
  function LitOptions(cfg: LitConfig, b: LitBuild, locales: seq<string>): seq<string>
  {
    ExtensionArgs(ExtensionDependencies(b.artifacts)) + LocArgs(locales) + OtherOptions(cfg.linkProperties)
  }

  /** The lit command line, given the bind folders after addOptions. */
  function LitArgs(cfg: LitConfig, b: LitBuild, out: string, roots: set<string>, locales: seq<string>,
                   files: set<string>): seq<string>
  {
    LitLeading(cfg, out) + BindArgs(b.order(roots)) + LitOptions(cfg, b, locales) + b.order(files)
  }

  function LitCall(cfg: LitConfig, args: seq<string>): Invocation
  {
    Invocation(ToolExecutable(cfg.toolDirectory, "lit.exe"), Some(cfg.relativeBase), args)
  }

  /**
   * One platform: the locale folder joins the bind folders; with no objects nothing else
   * happens; otherwise the objects are made relative, addOptions adds its folders, the
   * locale files are made relative (the first failure stops the goal), the output
   * folder is made when missing and lit runs.
   */
  function ArchPlan(cfg: LitConfig, b: LitBuild, p: ScanPatterns, st: LitState, arch: string): (seq<Step>, LitState)
  {
    var out := LitOutput(cfg, b, arch);
    var objects := LitObjects(cfg, b, p, arch);
    var roots1 := WithLocaleFolder(cfg, b.fs, st.roots);
    if objects == {} then ([], LitState(roots1, st.made))
    else
      var files := RelativeAll(b.canonical, cfg.relativeBase, b.order(objects));
      if files.Err? then ([Throw(files.error)], LitState(roots1, st.made))
      else
        var roots2 := roots1 + Elements(AddedRoots(b.fs, cfg.folders));
        var locales := LitLocaleFiles(cfg, b, p, arch);
        if locales.Err? then ([Throw(locales.error)], LitState(roots2, st.made))
        else
          var args := LitArgs(cfg, b, out, roots2, locales.value, Elements(files.value));
          (MakeIfMissing(b.fs, st.made, Parent(out)) + [LinkStep(LitCall(cfg, args))],
           LitState(roots2, st.made + {Parent(out)}))
  }

  /** The build of one platform, as the body of a loop. */
  function ArchBuilds(cfg: LitConfig, b: LitBuild, p: ScanPatterns): (LitState, string) -> (seq<Step>, LitState)
  {
    (st: LitState, arch: string) => ArchPlan(cfg, b, p, st, arch)
  }

  /** multilink: lit.exe must exist; then every platform in turn, each seeing the state the earlier left. */
  function LitMultilinkPlan(cfg: LitConfig, b: LitBuild, p: ScanPatterns, st: LitState,
                            platforms: Option<set<string>>): (seq<Step>, LitState)
  {
    var exe := ToolExecutable(cfg.toolDirectory, "lit.exe");
    if !Exists(b.fs, exe) then ([Throw(MissingFile(exe))], st)
    else Fold(st, b.order(DefaultPlatforms(platforms)), ArchBuilds(cfg, b, p))
  }

  /** execute of the lit goal: the plan and the bind folders the linker is left with. */
  function LitPlan(cfg: LitConfig, b: LitBuild, p: ScanPatterns, roots: set<string>, platforms: Option<set<string>>)
    : (seq<Step>, set<string>)
  {
    if cfg.skip then ([], roots)
    else
      var r := LitMultilinkPlan(cfg, b, p, LitState(roots, ExecuteMade(cfg.outputDirectory)), platforms);
      (ExecutePlan(false, cfg.outputDirectory, r.0), r.1.roots)
  }

  // ---- properties of the plan ----

  /**
   * The bind folders only grow, and only by the locale folder and the folders addOptions
   * adds; the existing locale folder is always among them afterwards; no made folder is forgotten.
   */
  lemma ArchPlanKeeps(cfg: LitConfig, b: LitBuild, p: ScanPatterns, st: LitState, arch: string)
    ensures var r := ArchPlan(cfg, b, p, st, arch);
      && st.made <= r.1.made
      && st.roots <= r.1.roots <= st.roots + {cfg.wxlInputDirectory} + Elements(AddedRoots(b.fs, cfg.folders))
      && (Exists(b.fs, cfg.wxlInputDirectory) ==> cfg.wxlInputDirectory in r.1.roots)
  {
  }

  /** A platform either does nothing, throws, or makes at most the output folder and runs lit. */
  lemma ArchPlanSteps(cfg: LitConfig, b: LitBuild, p: ScanPatterns, st: LitState, arch: string)
    ensures var r := ArchPlan(cfg, b, p, st, arch);
      r.0 == [] || (|r.0| == 1 && r.0[0].Throw?) ||
      (1 <= |r.0| <= 2 && r.0[|r.0| - 1].Call? && r.0[|r.0| - 1].call.executable == ToolExecutable(cfg.toolDirectory, "lit.exe")
       && MakesFolders(r.0[..|r.0| - 1]))
  {
    var r := ArchPlan(cfg, b, p, st, arch);
    var out := LitOutput(cfg, b, arch);
    var files := RelativeAll(b.canonical, cfg.relativeBase, b.order(LitObjects(cfg, b, p, arch)));
    var locales := LitLocaleFiles(cfg, b, p, arch);
    if LitObjects(cfg, b, p, arch) != {} && files.Ok? && locales.Ok? {
      var roots2 := WithLocaleFolder(cfg, b.fs, st.roots) + Elements(AddedRoots(b.fs, cfg.folders));
      var mk := MakeIfMissing(b.fs, st.made, Parent(out));
      var call := LitCall(cfg, LitArgs(cfg, b, out, roots2, locales.value, Elements(files.value)));
      assert r.0 == mk + [LinkStep(call)];
      assert r.0[..|r.0| - 1] == mk;
    }
  }

  /** Whether a platform gets as far as running lit: objects found, and they and the locale files made relative. */
  predicate ArchLinks(cfg: LitConfig, b: LitBuild, p: ScanPatterns, arch: string)
  {
    LitObjects(cfg, b, p, arch) != {}
    && RelativeAll(b.canonical, cfg.relativeBase, b.order(LitObjects(cfg, b, p, arch))).Ok?
    && LitLocaleFiles(cfg, b, p, arch).Ok?
  }

  /** The files lit is given: the platform's object files, made relative. */
  function ArchFiles(cfg: LitConfig, b: LitBuild, p: ScanPatterns, arch: string): set<string>
    requires ArchLinks(cfg, b, p, arch)
  {
    Elements(RelativeAll(b.canonical, cfg.relativeBase, b.order(LitObjects(cfg, b, p, arch))).value)
  }

  /** "-b" followed by the folder with a trailing backslash occurs in a command line. */
  predicate Binds(args: seq<string>, root: string)
  {
    exists i :: 0 <= i < |args| - 1 && args[i] == "-b" && args[i + 1] == root + "\\"
  }

  /**
   * The lit command line: general options, "-bf" when binding files, "-out" and the
   * output, the bind folders, then the other switches, and finally the files.
   */
  lemma LitArgsLayout(cfg: LitConfig, b: LitBuild, out: string, roots: set<string>, locales: seq<string>, files: set<string>)
    ensures var args := LitArgs(cfg, b, out, roots, locales, files);
      var n := |GeneralOptions(cfg.verbose)|;
      var g := n + (if cfg.bindFiles then 1 else 0);
      var binds := BindArgs(b.order(roots));
      && args[..n] == GeneralOptions(cfg.verbose)
      && (cfg.bindFiles ==> args[n] == "-bf")
      && args[g] == "-out" && args[g + 1] == out
      && args[g + 2..g + 2 + |binds|] == binds
      && args[|args| - |b.order(files)|..] == b.order(files)
  {
    var general := GeneralOptions(cfg.verbose);
    var lead := LitLeading(cfg, out);
    var binds := BindArgs(b.order(roots));
    var rest := LitOptions(cfg, b, locales);
    var objs := b.order(files);
    var args := LitArgs(cfg, b, out, roots, locales, files);
    assert |lead| == |general| + (if cfg.bindFiles then 1 else 0) + 2;
    assert args == (lead + binds) + (rest + objs);
    assert (lead + binds)[|lead|..] == binds;
    assert lead[..|general|] == general;
    assert args[..|lead|] == lead;
    assert args[|lead|..|lead| + |binds|] == binds;
    assert args[|args| - |objs|..] == objs;
  }

  /** Every bind folder and every file reaches the command line, when both sets are listed in an iteration order. */
  lemma LitArgsHas(cfg: LitConfig, b: LitBuild, out: string, roots: set<string>, locales: seq<string>, files: set<string>)
    requires Lists(b.order(roots), roots) && Lists(b.order(files), files)
    ensures var args := LitArgs(cfg, b, out, roots, locales, files);
      && (forall f :: f in files ==> f in args)
      && (forall root :: root in roots ==> Binds(args, root))
  {
    var args := LitArgs(cfg, b, out, roots, locales, files);
    var g := |GeneralOptions(cfg.verbose)| + (if cfg.bindFiles then 1 else 0);
    LitArgsLayout(cfg, b, out, roots, locales, files);
    ArgsEndWith(args, b.order(files));
    ArgsHaveBinds(args, g + 2, b.order(roots));
  }

  /** Every element of a list that ends the arguments is among them. */
  lemma ArgsEndWith(args: seq<string>, objs: seq<string>)
    requires |objs| <= |args| && args[|args| - |objs|..] == objs
    ensures forall f :: f in Elements(objs) ==> f in args
  {
    forall f | f in Elements(objs)
      ensures f in args
    {
      var k :| 0 <= k < |objs| && objs[k] == f;
      assert args[|args| - |objs| + k] == f;
    }
  }

  /** Every folder of a bind list placed at `at` is bound by the arguments. */
  lemma ArgsHaveBinds(args: seq<string>, at: nat, listed: seq<string>)
    requires at + |BindArgs(listed)| <= |args| && args[at..at + |BindArgs(listed)|] == BindArgs(listed)
    ensures forall root :: root in Elements(listed) ==> Binds(args, root)
  {
    var binds := BindArgs(listed);
    BindArgsShape(listed);
    forall root | root in Elements(listed)
      ensures Binds(args, root)
    {
      var k :| 0 <= k < |listed| && listed[k] == root;
      assert args[at + 2 * k] == binds[2 * k] == "-b";
      assert args[at + 2 * k + 1] == binds[2 * k + 1];
    }
  }

  /** A platform ends in a lit run exactly when it links, and then with this command line. */
  lemma ArchPlanCall(cfg: LitConfig, b: LitBuild, p: ScanPatterns, st: LitState, arch: string)
    ensures var r := ArchPlan(cfg, b, p, st, arch);
      (r.0 != [] && r.0[|r.0| - 1].Call?) <==> ArchLinks(cfg, b, p, arch)
    ensures var r := ArchPlan(cfg, b, p, st, arch);
      ArchLinks(cfg, b, p, arch) ==>
        r.0 != [] && r.0[|r.0| - 1] == LinkStep(LitCall(cfg, LitArgs(cfg, b, LitOutput(cfg, b, arch), r.1.roots,
          LitLocaleFiles(cfg, b, p, arch).value, ArchFiles(cfg, b, p, arch))))
  {
    var r := ArchPlan(cfg, b, p, st, arch);
    if ArchLinks(cfg, b, p, arch) {
      var out := LitOutput(cfg, b, arch);
      var roots2 := WithLocaleFolder(cfg, b.fs, st.roots) + Elements(AddedRoots(b.fs, cfg.folders));
      var args := LitArgs(cfg, b, out, roots2, LitLocaleFiles(cfg, b, p, arch).value, ArchFiles(cfg, b, p, arch));
      assert r.0 == MakeIfMissing(b.fs, st.made, Parent(out)) + [LinkStep(LitCall(cfg, args))];
    }
  }

  /**
   * lit runs exactly when the platform has objects and they and the locale files were made
   * relative; it is then given every object file and binds every folder the linker holds,
   * including each one an earlier platform added.
   */
  lemma ArchPlanLinks(cfg: LitConfig, b: LitBuild, p: ScanPatterns, st: LitState, arch: string)
    requires IsIterationOrder(b.order)
    ensures var r := ArchPlan(cfg, b, p, st, arch);
      && (r.0 != [] && r.0[|r.0| - 1].Call? <==> ArchLinks(cfg, b, p, arch))
      && (ArchLinks(cfg, b, p, arch) ==>
            && (forall f :: f in ArchFiles(cfg, b, p, arch) ==> f in r.0[|r.0| - 1].call.arguments)
            && (forall root :: root in st.roots ==> Binds(r.0[|r.0| - 1].call.arguments, root)))
  {
    var r := ArchPlan(cfg, b, p, st, arch);
    ArchPlanCall(cfg, b, p, st, arch);
    ArchPlanKeeps(cfg, b, p, st, arch);
    if ArchLinks(cfg, b, p, arch) {
      var files := ArchFiles(cfg, b, p, arch);
      assert Lists(b.order(files), files);
      assert Lists(b.order(r.1.roots), r.1.roots);
      LitArgsHas(cfg, b, LitOutput(cfg, b, arch), r.1.roots, LitLocaleFiles(cfg, b, p, arch).value, files);
    }
  }

  /**
   * Over the platform loop the bind folders and the made folders only grow, and once a
   * platform has run the existing locale folder is among the bind folders.
   */
  lemma {:induction false} FoldKeepsFolders(cfg: LitConfig, b: LitBuild, p: ScanPatterns, st: LitState, archs: seq<string>)
    ensures var r := Fold(st, archs, ArchBuilds(cfg, b, p));
      && st.roots <= r.1.roots && st.made <= r.1.made
      && (|archs| > 0 && Exists(b.fs, cfg.wxlInputDirectory) ==> cfg.wxlInputDirectory in r.1.roots)
    decreases |archs|
  {
    if |archs| > 0 {
      var init := archs[..|archs| - 1];
      var before := Fold(st, init, ArchBuilds(cfg, b, p));
      FoldKeepsFolders(cfg, b, p, st, init);
      ArchPlanKeeps(cfg, b, p, before.1, archs[|archs| - 1]);
    }
  }

  // ---- the goal, step by step ----

  /** The command line up to "-out" and the output. */
  method StartLit(cfg: LitConfig, out: string) returns (cl: CommandLine)
    ensures fresh(cl)
    ensures cl.executable == ToolExecutable(cfg.toolDirectory, "lit.exe")
    ensures cl.workingDirectory == Some(cfg.relativeBase)
    ensures cl.arguments == LitLeading(cfg, out)
  {
    cl := new CommandLine(ToolExecutable(cfg.toolDirectory, "lit.exe"));
    cl.SetWorkingDirectory(cfg.relativeBase);
    AddToolsetGeneralOptions(cl, cfg.verbose);
    if cfg.bindFiles {
      cl.AddArguments(["-bf"]);
    }
    cl.AddArguments(["-out", out]);
  }

  /** The command line up to the extensions; addOptions adds its folders to the linker's for good. */
  method LitCommand(cfg: LitConfig, b: LitBuild, settings: LinkerSettings, out: string) returns (cl: CommandLine)
    modifies settings
    ensures fresh(cl)
    ensures cl.executable == ToolExecutable(cfg.toolDirectory, "lit.exe")
    ensures cl.workingDirectory == Some(cfg.relativeBase)
    ensures settings.fileSourceRoots == old(settings.fileSourceRoots) + Elements(AddedRoots(b.fs, cfg.folders))
    ensures cl.arguments == LitLeading(cfg, out) + BindArgs(b.order(settings.fileSourceRoots))
      + ExtensionArgs(ExtensionDependencies(b.artifacts))
    ensures settings.intIncludes == old(settings.intIncludes) && settings.intExcludes == old(settings.intExcludes)
    ensures settings.wxlIncludes == old(settings.wxlIncludes) && settings.wxlExcludes == old(settings.wxlExcludes)
  {
    cl := StartLit(cfg, out);
    settings.AddOptions(cl, b.fs, cfg.folders, b.order);
    AddWixExtensions(cl, ExtensionDependencies(b.artifacts));
  }

  /** The locale files, the pass-through properties and the files, in that order. */
  method LitFinish(cl: CommandLine, cfg: LitConfig, b: LitBuild, locales: seq<string>, files: set<string>)
    modifies cl
    ensures cl.arguments == old(cl.arguments) + LocArgs(locales) + OtherOptions(cfg.linkProperties) + b.order(files)
    ensures cl.executable == old(cl.executable) && cl.workingDirectory == old(cl.workingDirectory)
  {
    AddLocales(cl, locales);
    AddOtherOptions(cl, cfg.linkProperties);
    cl.AddArguments(b.order(files));
  }

  /** The pieces LitCommand and LitFinish add make up LitArgs. */
  lemma LitArgsAssemble(cfg: LitConfig, b: LitBuild, out: string, roots: set<string>, locales: seq<string>,
                        files: set<string>, start: seq<string>, args: seq<string>)
    requires start == LitLeading(cfg, out) + BindArgs(b.order(roots)) + ExtensionArgs(ExtensionDependencies(b.artifacts))
    requires args == start + LocArgs(locales) + OtherOptions(cfg.linkProperties) + b.order(files)
    ensures args == LitArgs(cfg, b, out, roots, locales, files)
  {
    Regroup(LitLeading(cfg, out), BindArgs(b.order(roots)), ExtensionArgs(ExtensionDependencies(b.artifacts)),
            LocArgs(locales), OtherOptions(cfg.linkProperties), b.order(files));
  }

  /** One platform of multilink; the linker's bind folders are its state. */
  method LinkArch(cfg: LitConfig, b: LitBuild, p: ScanPatterns, settings: LinkerSettings, made: set<string>, arch: string)
    returns (steps: seq<Step>, made': set<string>)
    modifies settings
    ensures (steps, LitState(settings.fileSourceRoots, made')) ==
      ArchPlan(cfg, b, p, LitState(old(settings.fileSourceRoots), made), arch)
    ensures settings.intIncludes == old(settings.intIncludes) && settings.intExcludes == old(settings.intExcludes)
    ensures settings.wxlIncludes == old(settings.wxlIncludes) && settings.wxlExcludes == old(settings.wxlExcludes)
  {
    var out := b.output(arch, None, cfg.packageOutputExtension);
    var objects := b.scan(p.includes, p.excludes, Child(cfg.intDirectory, arch), out);
    var locales: Option<seq<string>> := None;
    if Exists(b.fs, cfg.wxlInputDirectory) {
      locales := Some(SortedList(b.order(b.scan(p.localeIncludes, p.localeExcludes, cfg.wxlInputDirectory, Parent(out)))));
      settings.AddFileSourceRoot(cfg.wxlInputDirectory);
    }
    assert locales == LitLocales(cfg, b, p, arch);
    if objects == {} {
      return [], made;
    }
    var files := RelativeAllOf(b.canonical, cfg.relativeBase, b.order(objects));
    if files.Err? {
      return [Throw(files.error)], made;
    }
    var cl := LitCommand(cfg, b, settings, out);
    var localeRels: Result<seq<string>, Failure> := Ok([]);
    if locales.Some? {
      localeRels := RelativeAllOf(b.canonical, cfg.relativeBase, locales.value);
    }
    assert localeRels == LitLocaleFiles(cfg, b, p, arch);
    if localeRels.Err? {
      return [Throw(localeRels.error)], made;
    }
    ghost var start := cl.arguments;
    LitFinish(cl, cfg, b, localeRels.value, Elements(files.value));
    LitArgsAssemble(cfg, b, out, settings.fileSourceRoots, localeRels.value, Elements(files.value), start, cl.arguments);
    var parent := Parent(out);
    var mk: seq<Step> := [];
    if !Present(b.fs, made, parent) {
      mk := [Do(CreateDirectories(parent))];
    }
    var call := cl.Snapshot();
    steps := mk + [LinkStep(call)];
    made' := made + {parent};
  }

  /** multilink: lit.exe must exist; then every platform in turn. */
  method LitMultilink(cfg: LitConfig, b: LitBuild, p: ScanPatterns, settings: LinkerSettings, made0: set<string>,
                      setting: PlatformSetting) returns (plan: seq<Step>, made: set<string>)
    modifies settings, setting
    ensures (plan, LitState(settings.fileSourceRoots, made)) ==
      LitMultilinkPlan(cfg, b, p, LitState(old(settings.fileSourceRoots), made0), old(setting.platforms))
    ensures settings.intIncludes == old(settings.intIncludes) && settings.intExcludes == old(settings.intExcludes)
    ensures settings.wxlIncludes == old(settings.wxlIncludes) && settings.wxlExcludes == old(settings.wxlExcludes)
  {
    var exe := ToolExecutable(cfg.toolDirectory, "lit.exe");
    if !Exists(b.fs, exe) {
      return [Throw(MissingFile(exe))], made0;
    }
    var platforms := setting.GetPlatforms();
    var archs := b.order(platforms);
    ghost var start := LitState(settings.fileSourceRoots, made0);
    plan, made := [], made0;
    var i := 0;
    while i < |archs|
      invariant 0 <= i <= |archs|
      invariant (plan, LitState(settings.fileSourceRoots, made)) == Fold(start, archs[..i], ArchBuilds(cfg, b, p))
      invariant settings.intIncludes == old(settings.intIncludes) && settings.intExcludes == old(settings.intExcludes)
      invariant settings.wxlIncludes == old(settings.wxlIncludes) && settings.wxlExcludes == old(settings.wxlExcludes)
    {
      assert archs[..i + 1] == archs[..i] + [archs[i]];
      FoldSnoc(start, archs[..i], archs[i], ArchBuilds(cfg, b, p));
      var steps;
      steps, made := LinkArch(cfg, b, p, settings, made, archs[i]);
      plan := plan + steps;
      i := i + 1;
    }
    assert archs[..i] == archs;
  }

  /** execute: nothing when skipped; the output folder is made, then multilink runs. */
  method LitExecute(cfg: LitConfig, b: LitBuild, p: ScanPatterns, settings: LinkerSettings, setting: PlatformSetting)
    returns (plan: seq<Step>)
    modifies settings, setting
    ensures (plan, settings.fileSourceRoots) == LitPlan(cfg, b, p, old(settings.fileSourceRoots), old(setting.platforms))
  {
    if cfg.skip {
      return [];
    }
    plan := [];
    var made: set<string> := {};
    if cfg.outputDirectory.Some? {
      plan := [Do(CreateDirectories(cfg.outputDirectory.value))];
      made := {cfg.outputDirectory.value};
    }
    var linked, _ := LitMultilink(cfg, b, p, settings, made, setting);
    plan := plan + linked;
  }
}
