// CandleMojo: the compile goal. It gathers the preprocessor definitions of the project's
// dependencies into a set, then for each platform rebuilds the platform definitions,
// scans for stale sources and runs candle.exe over them.
module Candle {
  import opened Wrappers
  import opened JavaText
  import opened Files
  import opened Seqs
  import opened ArtifactLookup
  import opened Runtime
  import opened JavaProperties
  import opened WixMojo
  import opened RelativePath
  import opened CompilerDefines
  import opened Plans

  /** The include pattern used when none is configured. */
  const DefaultIncludes: set<string> := {"**/*.wxs"}

  /** The stdout markers candle's consumer looks for. */
  const ErrorMarker := ") : error "
  const WarningMarker := ") : warning "

  // ---- platform definitions ----

  const X86NarDirs: set<string> := {
    "narDir.dll=x86-Windows-msvc-shared/lib/x86-Windows-msvc/shared",
    "narDir.exe=x86-Windows-msvc-executable/bin/x86-Windows-msvc"}

  const Amd64NarDirs: set<string> := {
    "narDir.dll=amd64-Windows-msvc-shared/lib/amd64-Windows-msvc/shared",
    "narDir.exe=amd64-Windows-msvc-executable/bin/amd64-Windows-msvc"}

  /** addNARArchDefines: x86 is the only 32-bit platform; every other one is built as amd64. */
  function NarArchDefines(arch: string): set<string>
  {
    if arch == "x86" then {"IsWin64=no"} + X86NarDirs else {"IsWin64=yes"} + Amd64NarDirs
  }

  /** IsWin64 says whether the platform is not x86, and the narDirs match it. */
  lemma NarArchDefinesShape(arch: string)
    ensures "IsWin64=no" in NarArchDefines(arch) <==> arch == "x86"
    ensures "IsWin64=yes" in NarArchDefines(arch) <==> arch != "x86"
    ensures arch == "x86" ==> X86NarDirs <= NarArchDefines(arch)
    ensures arch != "x86" ==> Amd64NarDirs <= NarArchDefines(arch)
  {
    assert |"IsWin64=no"| == 10 && |"IsWin64=yes"| == 11;
  }

  // ---- candle's own dependency definitions ----

  /** Candle's JAR key never carries the classifier: g.a.TargetJAR. */
  function CandleJarDefinition(j: Artifact, repoBase: string): string
  {
    Define(j.groupId + "." + j.artifactId + ".TargetJAR", StripBase(PathOf(j), repoBase))
  }

  /** Candle's NPANDAY key: g.a.TargetNPANDAYConfig for config assemblies, g.a.TargetNPANDAY otherwise. */
  function CandleNpandayDefinition(n: Artifact, repoBase: string): string
  {
    var key := if IsConfigType(n.artifactType) then n.groupId + "." + n.artifactId + ".TargetNPANDAYConfig"
               else n.groupId + "." + n.artifactId + ".TargetNPANDAY";
    Define(key, StripBase(PathOf(n), repoBase))
  }

  /** nar.getVersion() as String.format writes it: a missing version reads "null". */
  function FormattedVersion(n: Artifact): string
  {
    n.version.GetOr("null")
  }

  function CandleNarPairs(nars: seq<Artifact>, repoBase: string): seq<string>
  {
    FlatMap(nars, (n: Artifact) => NarDefinitions(n, FormattedVersion(n), repoBase))
  }

  /**
   * Every definition execute gathers before the platform loop: addWixDefines,
   * addNARDefines, addJARDefines and addNPANDAYDefines, in that order.
   */
  function CandleDefinitions(artifacts: seq<Artifact>, direct: set<Coordinates>, unpackDirectory: string, repoBase: string): seq<string>
  {
    FlatMap(WixDependencies(artifacts, direct), (w: Artifact) => [WixDefinition(w, unpackDirectory, repoBase)])
    + (if |OfType(artifacts, NarTypes)| == 0 then [] else NarDirs + CandleNarPairs(OfType(artifacts, NarTypes), repoBase))
    + FlatMap(OfType(artifacts, JarTypes), (j: Artifact) => [CandleJarDefinition(j, repoBase)])
    + FlatMap(OfType(artifacts, NpandayTypes), (n: Artifact) => [CandleNpandayDefinition(n, repoBase)])
  }

  lemma NarPartElements(nars: seq<Artifact>, repoBase: string)
    ensures Elements(if |nars| == 0 then [] else NarDirs + CandleNarPairs(nars, repoBase))
      == if |nars| == 0 then {} else Elements(NarDirs) + Elements(CandleNarPairs(nars, repoBase))
  {
    if |nars| > 0 {
      ElementsConcat(NarDirs, CandleNarPairs(nars, repoBase));
    }
  }

  lemma ElementsOfFour(a: seq<string>, b: seq<string>, c: seq<string>, d: seq<string>)
    ensures Elements(a + b + c + d) == Elements(a) + Elements(b) + Elements(c) + Elements(d)
  {
    ElementsConcat(a, b);
    ElementsConcat(a + b, c);
    ElementsConcat(a + b + c, d);
  }

  /** Two JARs that differ only in their classifier collapse onto one key. */
  lemma CandleJarKeysIgnoreClassifier(j1: Artifact, j2: Artifact, repoBase: string)
    requires j1.groupId == j2.groupId && j1.artifactId == j2.artifactId && PathOf(j1) == PathOf(j2)
    ensures CandleJarDefinition(j1, repoBase) == CandleJarDefinition(j2, repoBase)
  {
  }

  /** A config assembly's key ends in TargetNPANDAYConfig and any other's in TargetNPANDAY, before the '='. */
  lemma CandleNpandayKeys(n: Artifact, repoBase: string)
    ensures IsConfigType(n.artifactType) ==>
      Before(CandleNpandayDefinition(n, repoBase), '=') == n.groupId + "." + n.artifactId + ".TargetNPANDAYConfig"
        || '=' in n.groupId + "." + n.artifactId
    ensures !IsConfigType(n.artifactType) ==>
      Before(CandleNpandayDefinition(n, repoBase), '=') == n.groupId + "." + n.artifactId + ".TargetNPANDAY"
        || '=' in n.groupId + "." + n.artifactId
  {
    var p := n.groupId + "." + n.artifactId;
    var v := StripBase(PathOf(n), repoBase);
    if '=' !in p {
      assert '=' !in ".TargetNPANDAYConfig" && '=' !in ".TargetNPANDAY";
      if IsConfigType(n.artifactType) {
        assert '=' !in p + ".TargetNPANDAYConfig";
        DefineKey(p + ".TargetNPANDAYConfig", v);
      } else {
        assert '=' !in p + ".TargetNPANDAY";
        DefineKey(p + ".TargetNPANDAY", v);
      }
    }
  }

  // ---- the command line ----

  /** One "-d<definition>" argument per definition, in iteration order. */
  function DefineArgs(defs: seq<string>): seq<string>
  {
    FlatMap(defs, (d: string) => ["-d" + d])
  }

  lemma DefineArgsShape(defs: seq<string>)
    ensures |DefineArgs(defs)| == |defs|
    ensures forall i :: 0 <= i < |defs| ==> DefineArgs(defs)[i] == "-d" + defs[i]
  {
    FlatMapSingles(defs, (d: string) => ["-d" + d]);
  }

  /** One "-I<path>" argument per configured include path. */
  function IncludeArgs(includePaths: Option<seq<string>>): seq<string>
  {
    if includePaths.None? then [] else FlatMap(includePaths.value, (p: string) => ["-I" + p])
  }

  /** The ten fixed switches: configuration, output folders, platform and project. */
  function FixedOptions(intDirectory: string, arch: string, projectDir: string, projectId: string, projectName: string): seq<string>
  {
    ["-dConfiguration=Release",
     "-out", Child(intDirectory, arch) + "\\", "-dOutDir=" + intDirectory + "\\",
     "-arch", arch, "-dPlatform=" + arch,
     "-dProjectDir=" + projectDir + "\\",
     "-dProjectId=" + projectId, "-dProjectName=" + projectName]
  }

  /** addOptions: platform definitions, general definitions, the fixed switches, include paths. */
  function CandleOptions(archDefs: seq<string>, defs: seq<string>, intDirectory: string, arch: string,
                         projectDir: string, projectId: string, projectName: string,
                         includePaths: Option<seq<string>>): seq<string>
  {
    DefineArgs(archDefs) + DefineArgs(defs) + FixedOptions(intDirectory, arch, projectDir, projectId, projectName)
    + IncludeArgs(includePaths)
  }

  /**
   * Where each group sits: the platform definitions first, then the general ones, then
   * -dConfiguration, "-out <intDir>\<arch>\", -dOutDir, "-arch <arch>", -dPlatform and the
   * project switches, and the include paths last.
   */
  lemma CandleOptionsLayout(archDefs: seq<string>, defs: seq<string>, intDirectory: string, arch: string,
                            projectDir: string, projectId: string, projectName: string, includePaths: Option<seq<string>>)
    ensures var r := CandleOptions(archDefs, defs, intDirectory, arch, projectDir, projectId, projectName, includePaths);
      var n, m := |archDefs|, |defs|;
      && |r| == n + m + 10 + |IncludeArgs(includePaths)|
      && (forall i :: 0 <= i < n ==> r[i] == "-d" + archDefs[i])
      && (forall i :: 0 <= i < m ==> r[n + i] == "-d" + defs[i])
      && r[n + m] == "-dConfiguration=Release"
      && r[n + m + 1] == "-out" && r[n + m + 2] == Child(intDirectory, arch) + "\\"
      && r[n + m + 4] == "-arch" && r[n + m + 5] == arch && r[n + m + 6] == "-dPlatform=" + arch
      && (includePaths.Some? ==>
            |IncludeArgs(includePaths)| == |includePaths.value|
            && forall k :: 0 <= k < |includePaths.value| ==> r[n + m + 10 + k] == "-I" + includePaths.value[k])
  {
    DefineArgsShape(archDefs);
    DefineArgsShape(defs);
    if includePaths.Some? {
      FlatMapSingles(includePaths.value, (p: string) => ["-I" + p]);
    }
  }

  /** addOtherOptions: nothing without candleProperties, else each key followed by its value. */
  function OtherOptions(candleProperties: Option<Properties>): seq<string>
  {
    if candleProperties.None? || IsEmpty(candleProperties.value) then []
    else PassThrough(candleProperties.value.keys, (k: string) => GetProperty(candleProperties.value, k))
  }

  /** Every enumerated key has a value, so the pass-through arguments are key, value pairs. */
  lemma OtherOptionsPairs(p: Properties)
    requires WellFormed(p) && !IsEmpty(p)
    ensures var r := OtherOptions(Some(p));
      && |r| == 2 * |p.keys|
      && forall i :: 0 <= i < |p.keys| ==> r[2 * i] == p.keys[i] && r[2 * i + 1] == p.values[p.keys[i]]
  {
    forall i | 0 <= i < |p.keys|
      ensures p.keys[i] in p.values
    {
      assert p.keys[i] in Elements(p.keys);
    }
    PassThroughPairs(p.keys, (k: string) => GetProperty(p, k));
  }

  /** What candle.exe is run with. */
  datatype CandleConfig = CandleConfig(
    skip: bool,
    verbose: bool,
    wxsInputDirectory: string,
    intDirectory: string,
    toolDirectory: string,
    relativeBase: string,
    projectDir: string,
    projectId: string,
    projectName: string,
    includePaths: Option<seq<string>>,
    candleProperties: Option<Properties>,
    timestampFile: Option<string>,
    unpackDirectory: string,
    repoBase: string)

  /**
   * compile's command line: candle.exe in the tool folder, run from relativeBase, with the
   * general options, the extensions, addOptions, addOtherOptions and the source files.
   */
  function CompileInvocation(cfg: CandleConfig, extensions: seq<Artifact>, archDefs: seq<string>, defs: seq<string>,
                             arch: string, files: seq<string>): Invocation
  {
    Invocation(ToolExecutable(cfg.toolDirectory, "candle.exe"), Some(cfg.relativeBase),
      GeneralOptions(cfg.verbose) + ExtensionArgs(extensions)
      + CandleOptions(archDefs, defs, cfg.intDirectory, arch, cfg.projectDir, cfg.projectId, cfg.projectName, cfg.includePaths)
      + OtherOptions(cfg.candleProperties) + files)
  }

  /** The compile step: named "compiler", and its failure message shows the command line. */
  function CompileStep(cfg: CandleConfig, extensions: seq<Artifact>, archDefs: seq<string>, defs: seq<string>,
                       arch: string, files: seq<string>): Step
  {
    Call("compiler", true, CompileInvocation(cfg, extensions, archDefs, defs, arch, files))
  }

  /** The source files as written on the command line: each made relative to relativeBase. */
  function RelativeSources(cfg: CandleConfig, canonical: string -> string, sources: seq<string>): Result<seq<string>, Failure>
  {
    RelativeAll(canonical, cfg.relativeBase, sources)
  }

  // ---- execute ----

  /**
   * What execute depends on besides the configuration: the file system, the ordered
   * listing of project.getArtifacts(), the direct dependencies, the stale-source scanner
   * (given the target folder and whether a timestamp file is used) and getCanonicalPath.
   */
  datatype Build = Build(
    fs: FileSystem,
    artifacts: seq<Artifact>,
    direct: set<Coordinates>,
    scan: (string, bool) -> seq<string>,
    canonical: string -> string)

  /** What carries over from one platform to the next: timestampDirectory and the folders made. */
  datatype ArchState = ArchState(timestampDirectory: Option<string>, made: set<string>)

  /** Timestamp-file tracking is on once both the file and a folder for it are known. */
  predicate TimestampMode(cfg: CandleConfig, st: ArchState)
  {
    cfg.timestampFile.Some? && st.timestampDirectory.Some?
  }

  /** The folder the scanner compares against: the timestamp folder, or the platform's own one. */
  function TargetDirectory(cfg: CandleConfig, st: ArchState, arch: string): string
  {
    if TimestampMode(cfg, st) then st.timestampDirectory.value else Child(cfg.intDirectory, arch)
  }

  /**
   * The scan of one platform's target folder: nothing when it is up to date, otherwise the
   * failure to name a source relative to relativeBase, or the compile call followed by the
   * timestamp touch when a timestamp file is configured.
   */
  function SourceSteps(cfg: CandleConfig, b: Build, order: set<string> -> seq<string>, defs: set<string>,
                       arch: string, td: string, tsMode: bool): seq<Step>
  {
    var sources := b.scan(td, tsMode);
    if |sources| == 0 then []
    else match RelativeSources(cfg, b.canonical, sources)
      case Err(e) => [Throw(e)]
      case Ok(rels) =>
        var call := CompileStep(cfg, ExtensionDependencies(b.artifacts), order(NarArchDefines(arch)),
                                order(defs), arch, order(Elements(rels)));
        [call] + if cfg.timestampFile.Some? then [Do(Touch(Child(td, cfg.timestampFile.value)))] else []
  }

  /**
   * One platform of execute: make the platform folder, make the target folder when it is
   * missing, scan, and when something is stale compile it and touch the timestamp file.
   */
  function ArchPlan(cfg: CandleConfig, b: Build, order: set<string> -> seq<string>, defs: set<string>,
                    st: ArchState, arch: string): (seq<Step>, ArchState)
  {
    var archInt := Child(cfg.intDirectory, arch);
    var td := TargetDirectory(cfg, st, arch);
    var made := st.made + {archInt};
    var mk := if Present(b.fs, made, td) then [] else [Do(CreateDirectories(td))];
    ([Do(CreateDirectories(archInt))] + mk + SourceSteps(cfg, b, order, defs, arch, td, TimestampMode(cfg, st)),
     ArchState(Some(td), made + {td}))
  }

  /** The platforms in order, each picking up the state the previous one left. */
  function ArchsPlan(cfg: CandleConfig, b: Build, order: set<string> -> seq<string>, defs: set<string>,
                     st: ArchState, archs: seq<string>): (seq<Step>, ArchState)
  {
    if |archs| == 0 then ([], st)
    else
      var (p, s1) := ArchsPlan(cfg, b, order, defs, st, archs[..|archs| - 1]);
      var (q, s2) := ArchPlan(cfg, b, order, defs, s1, archs[|archs| - 1]);
      (p + q, s2)
  }

  /** One more platform: its steps follow those of the platforms before it. */
  lemma ArchsPlanSnoc(cfg: CandleConfig, b: Build, order: set<string> -> seq<string>, defs: set<string>,
                      st: ArchState, archs: seq<string>, i: nat)
    requires i < |archs|
    ensures var before := ArchsPlan(cfg, b, order, defs, st, archs[..i]);
      var next := ArchPlan(cfg, b, order, defs, before.1, archs[i]);
      ArchsPlan(cfg, b, order, defs, st, archs[..i + 1]) == (before.0 + next.0, next.1)
  {
    assert archs[..i + 1][..i] == archs[..i];
  }

  /**
   * execute: nothing when skipped or when the source folder is missing; otherwise the
   * dependency definitions are gathered and each platform of getPlatforms is built.
   */
  function CandlePlan(cfg: CandleConfig, b: Build, order: set<string> -> seq<string>,
                      platforms: Option<set<string>>, definitions: set<string>, timestampDirectory: Option<string>): seq<Step>
  {
    if cfg.skip || !Exists(b.fs, cfg.wxsInputDirectory) then []
    else
      var defs := definitions + Elements(CandleDefinitions(b.artifacts, b.direct, cfg.unpackDirectory, cfg.repoBase));
      ArchsPlan(cfg, b, order, defs, ArchState(timestampDirectory, {}), order(DefaultPlatforms(platforms))).0
  }

  /** A skipped goal, or one without a source folder, does nothing at all. */
  lemma CandleSkips(cfg: CandleConfig, b: Build, order: set<string> -> seq<string>,
                    platforms: Option<set<string>>, definitions: set<string>, timestampDirectory: Option<string>)
    requires cfg.skip || !Exists(b.fs, cfg.wxsInputDirectory)
    ensures CandlePlan(cfg, b, order, platforms, definitions, timestampDirectory) == []
  {
  }

  /** Up-to-date sources mean no compiler run and no timestamp touch for that platform. */
  lemma UpToDateCompilesNothing(cfg: CandleConfig, b: Build, order: set<string> -> seq<string>, defs: set<string>,
                                st: ArchState, arch: string)
    requires |b.scan(TargetDirectory(cfg, st, arch), TimestampMode(cfg, st))| == 0
    ensures var steps := ArchPlan(cfg, b, order, defs, st, arch).0;
      forall k :: 0 <= k < |steps| ==> steps[k].Do? && steps[k].effect.CreateDirectories?
  {
  }

  /**
   * The steps of one platform: its folders, then (when something is stale) either the
   * failure to name a source or the compile call with this platform's definitions in
   * front, whatever the earlier platforms did, followed by the timestamp touch.
   */
  lemma ArchPlanShape(cfg: CandleConfig, b: Build, order: set<string> -> seq<string>, defs: set<string>,
                      st: ArchState, arch: string)
    ensures var steps := ArchPlan(cfg, b, order, defs, st, arch).0;
      var td := TargetDirectory(cfg, st, arch);
      var sources := b.scan(td, TimestampMode(cfg, st));
      var n := if Present(b.fs, st.made + {Child(cfg.intDirectory, arch)}, td) then 1 else 2;
      && |steps| >= n
      && steps[0] == Do(CreateDirectories(Child(cfg.intDirectory, arch)))
      && (n == 2 ==> steps[1] == Do(CreateDirectories(td)))
      && (|sources| == 0 ==> |steps| == n)
      && (|sources| > 0 && RelativeSources(cfg, b.canonical, sources).Err? ==>
            steps[n..] == [Throw(RelativeSources(cfg, b.canonical, sources).error)])
      && (|sources| > 0 && RelativeSources(cfg, b.canonical, sources).Ok? ==>
            var rels := RelativeSources(cfg, b.canonical, sources).value;
            && steps[n] == CompileStep(cfg, ExtensionDependencies(b.artifacts),
                                       order(NarArchDefines(arch)), order(defs), arch, order(Elements(rels)))
            && (cfg.timestampFile.None? ==> |steps| == n + 1)
            && (cfg.timestampFile.Some? ==> steps[n + 1..] == [Do(Touch(Child(td, cfg.timestampFile.value)))]))
  {
    var archInt := Child(cfg.intDirectory, arch);
    var td := TargetDirectory(cfg, st, arch);
    var mk: seq<Step> := if Present(b.fs, st.made + {archInt}, td) then [] else [Do(CreateDirectories(td))];
    var rest := SourceSteps(cfg, b, order, defs, arch, td, TimestampMode(cfg, st));
    ArchPlanParts(cfg, b, order, defs, st, arch);
    ConcatShape(Do(CreateDirectories(archInt)), mk, rest);
    SourceStepsShape(cfg, b, order, defs, arch, td, TimestampMode(cfg, st));
  }

  lemma ArchPlanParts(cfg: CandleConfig, b: Build, order: set<string> -> seq<string>, defs: set<string>,
                      st: ArchState, arch: string)
    ensures var td := TargetDirectory(cfg, st, arch);
      ArchPlan(cfg, b, order, defs, st, arch).0
        == [Do(CreateDirectories(Child(cfg.intDirectory, arch)))]
           + (if Present(b.fs, st.made + {Child(cfg.intDirectory, arch)}, td) then [] else [Do(CreateDirectories(td))])
           + SourceSteps(cfg, b, order, defs, arch, td, TimestampMode(cfg, st))
    ensures ArchPlan(cfg, b, order, defs, st, arch).1
      == ArchState(Some(TargetDirectory(cfg, st, arch)), st.made + {Child(cfg.intDirectory, arch)} + {TargetDirectory(cfg, st, arch)})
  {
  }

  /** Where the parts of `[first] + mid + rest` sit, for a `mid` of at most one step. */
  lemma ConcatShape(first: Step, mid: seq<Step>, rest: seq<Step>)
    requires |mid| <= 1
    ensures var s := [first] + mid + rest;
      && s[0] == first
      && (|mid| == 1 ==> s[1] == mid[0])
      && s[|mid| + 1..] == rest
      && (|rest| > 0 ==> s[|mid| + 1] == rest[0] && s[|mid| + 2..] == rest[1..])
      && |s| == |mid| + 1 + |rest|
  {
    var s := [first] + mid + rest;
    assert s[|mid| + 1..] == rest;
  }

  /** The scan part of one platform: nothing, the failure, or the compile call and the touch. */
  lemma SourceStepsShape(cfg: CandleConfig, b: Build, order: set<string> -> seq<string>, defs: set<string>,
                         arch: string, td: string, tsMode: bool)
    ensures var rest := SourceSteps(cfg, b, order, defs, arch, td, tsMode);
      var sources := b.scan(td, tsMode);
      && (|sources| == 0 ==> rest == [])
      && (|sources| > 0 && RelativeSources(cfg, b.canonical, sources).Err? ==>
            rest == [Throw(RelativeSources(cfg, b.canonical, sources).error)])
      && (|sources| > 0 && RelativeSources(cfg, b.canonical, sources).Ok? ==>
            var rels := RelativeSources(cfg, b.canonical, sources).value;
            && |rest| > 0
            && rest[0] == CompileStep(cfg, ExtensionDependencies(b.artifacts),
                                      order(NarArchDefines(arch)), order(defs), arch, order(Elements(rels)))
            && (cfg.timestampFile.None? ==> |rest| == 1)
            && (cfg.timestampFile.Some? ==> rest[1..] == [Do(Touch(Child(td, cfg.timestampFile.value)))]))
  {
  }

  /**
   * In timestamp mode without a configured timestampDirectory the first platform's folder
   * becomes the timestamp folder, and every later platform is scanned against it.
   */
  lemma TimestampFolderOfFirstPlatform(cfg: CandleConfig, b: Build, order: set<string> -> seq<string>, defs: set<string>,
                                       made: set<string>, arch1: string, arch2: string)
    requires cfg.timestampFile.Some?
    ensures var s1 := ArchPlan(cfg, b, order, defs, ArchState(None, made), arch1).1;
      && TimestampMode(cfg, s1)
      && TargetDirectory(cfg, s1, arch2) == Child(cfg.intDirectory, arch1)
  {
  }

  /** The goal's state: the include patterns and the two definition sets it fills. */
  class CandleMojo {
    var includes: set<string>
    var definitions: set<string>
    var definitionsArch: set<string>
    var timestampDirectory: Option<string>

    constructor (configuredIncludes: set<string>, configuredTimestampDirectory: Option<string>)
      ensures includes == configuredIncludes && timestampDirectory == configuredTimestampDirectory
      ensures definitions == {} && definitionsArch == {}
    {
      includes := configuredIncludes;
      timestampDirectory := configuredTimestampDirectory;
      definitions := {};
      definitionsArch := {};
    }

    /** getIncludes: an empty pattern set gets **&#47;*.wxs added and is then returned. */
    method GetIncludes() returns (r: set<string>)
      modifies this
      ensures r != {} && includes == r
      ensures old(includes) != {} ==> r == old(includes)
      ensures old(includes) == {} ==> r == DefaultIncludes
      ensures definitions == old(definitions) && definitionsArch == old(definitionsArch)
      ensures timestampDirectory == old(timestampDirectory)
    {
      if includes == {} {
        includes := includes + {"**/*.wxs"};
      }
      return includes;
    }

    method AddDefinition(def: string)
      modifies this
      ensures definitions == old(definitions) + {def}
      ensures includes == old(includes) && definitionsArch == old(definitionsArch)
      ensures timestampDirectory == old(timestampDirectory)
    {
      definitions := definitions + {def};
    }

    /** Adds each definition of the list; the loop shape every define method shares. */
    method AddEach(defs: seq<string>)
      modifies this
      ensures definitions == old(definitions) + Elements(defs)
      ensures includes == old(includes) && definitionsArch == old(definitionsArch)
      ensures timestampDirectory == old(timestampDirectory)
    {
      var i := 0;
      while i < |defs|
        invariant 0 <= i <= |defs|
        invariant definitions == old(definitions) + Elements(defs[..i])
        invariant includes == old(includes) && definitionsArch == old(definitionsArch)
        invariant timestampDirectory == old(timestampDirectory)
      {
        ElementsConcat(defs[..i], [defs[i]]);
        assert defs[..i + 1] == defs[..i] + [defs[i]];
        AddDefinition(defs[i]);
        i := i + 1;
      }
      assert defs[..i] == defs;
    }

    /** addWixDefines: one definition per wix dependency; candle hands nothing to addResource. */
    method AddWixDefines(wix: seq<Artifact>, unpackDirectory: string, repoBase: string)
      modifies this
      ensures definitions == old(definitions)
        + Elements(FlatMap(wix, (w: Artifact) => [WixDefinition(w, unpackDirectory, repoBase)]))
      ensures includes == old(includes) && definitionsArch == old(definitionsArch)
      ensures timestampDirectory == old(timestampDirectory)
    {
      var i := 0;
      while i < |wix|
        invariant 0 <= i <= |wix|
        invariant definitions == old(definitions)
          + Elements(FlatMap(wix[..i], (w: Artifact) => [WixDefinition(w, unpackDirectory, repoBase)]))
        invariant includes == old(includes) && definitionsArch == old(definitionsArch)
        invariant timestampDirectory == old(timestampDirectory)
      {
        FlatMapElementsGrows(wix, (w: Artifact) => [WixDefinition(w, unpackDirectory, repoBase)], i);
        AddWixDefine(wix[i], unpackDirectory, repoBase);
        i := i + 1;
      }
      assert wix[..i] == wix;
    }

    /** The body of addWixDefines' loop. */
    method AddWixDefine(w: Artifact, unpackDirectory: string, repoBase: string)
      modifies this
      ensures definitions == old(definitions) + Elements([WixDefinition(w, unpackDirectory, repoBase)])
      ensures includes == old(includes) && definitionsArch == old(definitionsArch)
      ensures timestampDirectory == old(timestampDirectory)
    {
      ElementsSingle(WixDefinition(w, unpackDirectory, repoBase));
      if !HasClassifier(w) {
        var resUnpackDirectory := WixUnpackDirectory(unpackDirectory, w);
        AddDefinition(Define(w.groupId + "." + w.artifactId + ".UnpackPath", StripBase(resUnpackDirectory, unpackDirectory)));
      }
      if HasClassifier(w) {
        AddDefinition(Define(w.groupId + "." + w.artifactId + ".TargetPath-" + w.classifier.value, StripBase(PathOf(w), repoBase)));
      }
    }

    /** addNARDefines: the five narDirs and two definitions per NAR, when there is any NAR. */
    method AddNARDefines(nars: seq<Artifact>, repoBase: string)
      modifies this
      ensures definitions == old(definitions)
        + (if |nars| == 0 then {} else Elements(NarDirs) + Elements(CandleNarPairs(nars, repoBase)))
      ensures includes == old(includes) && definitionsArch == old(definitionsArch)
      ensures timestampDirectory == old(timestampDirectory)
    {
      if |nars| == 0 {
        return;
      }
      AddEach(NarDirs);
      var i := 0;
      while i < |nars|
        invariant 0 <= i <= |nars|
        invariant definitions == old(definitions) + Elements(NarDirs) + Elements(CandleNarPairs(nars[..i], repoBase))
        invariant includes == old(includes) && definitionsArch == old(definitionsArch)
        invariant timestampDirectory == old(timestampDirectory)
      {
        FlatMapElementsGrows(nars, (n: Artifact) => NarDefinitions(n, FormattedVersion(n), repoBase), i);
        AddEach(NarDefinitions(nars[i], FormattedVersion(nars[i]), repoBase));
        i := i + 1;
      }
      assert nars[..i] == nars;
    }

    /** addJARDefines: g.a.TargetJAR per JAR. */
    method AddJARDefines(jars: seq<Artifact>, repoBase: string)
      modifies this
      ensures definitions == old(definitions)
        + Elements(FlatMap(jars, (j: Artifact) => [CandleJarDefinition(j, repoBase)]))
      ensures includes == old(includes) && definitionsArch == old(definitionsArch)
      ensures timestampDirectory == old(timestampDirectory)
    {
      var i := 0;
      while i < |jars|
        invariant 0 <= i <= |jars|
        invariant definitions == old(definitions)
          + Elements(FlatMap(jars[..i], (j: Artifact) => [CandleJarDefinition(j, repoBase)]))
        invariant includes == old(includes) && definitionsArch == old(definitionsArch)
        invariant timestampDirectory == old(timestampDirectory)
      {
        FlatMapElementsGrows(jars, (j: Artifact) => [CandleJarDefinition(j, repoBase)], i);
        ElementsSingle(CandleJarDefinition(jars[i], repoBase));
        AddDefinition(Define(jars[i].groupId + "." + jars[i].artifactId + ".TargetJAR", StripBase(PathOf(jars[i]), repoBase)));
        i := i + 1;
      }
      assert jars[..i] == jars;
    }

    /** addNPANDAYDefines: g.a.TargetNPANDAY or g.a.TargetNPANDAYConfig per assembly. */
    method AddNPANDAYDefines(assemblies: seq<Artifact>, repoBase: string)
      modifies this
      ensures definitions == old(definitions)
        + Elements(FlatMap(assemblies, (n: Artifact) => [CandleNpandayDefinition(n, repoBase)]))
      ensures includes == old(includes) && definitionsArch == old(definitionsArch)
      ensures timestampDirectory == old(timestampDirectory)
    {
      var i := 0;
      while i < |assemblies|
        invariant 0 <= i <= |assemblies|
        invariant definitions == old(definitions)
          + Elements(FlatMap(assemblies[..i], (n: Artifact) => [CandleNpandayDefinition(n, repoBase)]))
        invariant includes == old(includes) && definitionsArch == old(definitionsArch)
        invariant timestampDirectory == old(timestampDirectory)
      {
        FlatMapElementsGrows(assemblies, (n: Artifact) => [CandleNpandayDefinition(n, repoBase)], i);
        ElementsSingle(CandleNpandayDefinition(assemblies[i], repoBase));
        var n := assemblies[i];
        if !(EndsWith(n.artifactType, "-config") || EndsWith(n.artifactType, ".config")) {
          AddDefinition(Define(n.groupId + "." + n.artifactId + ".TargetNPANDAY", StripBase(PathOf(n), repoBase)));
        } else {
          AddDefinition(Define(n.groupId + "." + n.artifactId + ".TargetNPANDAYConfig", StripBase(PathOf(n), repoBase)));
        }
        i := i + 1;
      }
      assert assemblies[..i] == assemblies;
    }

    /** definitionsArch.clear() then addNARArchDefines(arch). */
    method ResetArchDefines(arch: string)
      modifies this
      ensures definitionsArch == NarArchDefines(arch)
      ensures includes == old(includes) && definitions == old(definitions)
      ensures timestampDirectory == old(timestampDirectory)
    {
      definitionsArch := {};
      if arch == "x86" {
        definitionsArch := definitionsArch + {"IsWin64=no"};
        definitionsArch := definitionsArch + {"narDir.dll=x86-Windows-msvc-shared/lib/x86-Windows-msvc/shared"};
        definitionsArch := definitionsArch + {"narDir.exe=x86-Windows-msvc-executable/bin/x86-Windows-msvc"};
      } else {
        definitionsArch := definitionsArch + {"IsWin64=yes"};
        definitionsArch := definitionsArch + {"narDir.dll=amd64-Windows-msvc-shared/lib/amd64-Windows-msvc/shared"};
        definitionsArch := definitionsArch + {"narDir.exe=amd64-Windows-msvc-executable/bin/amd64-Windows-msvc"};
      }
    }

    /** addOptions over the two definition sets, in their iteration order. */
    static method AddOptions(cl: CommandLine, cfg: CandleConfig, archDefs: seq<string>, defs: seq<string>, arch: string)
      modifies cl
      ensures cl.arguments == old(cl.arguments)
        + CandleOptions(archDefs, defs, cfg.intDirectory, arch, cfg.projectDir, cfg.projectId, cfg.projectName, cfg.includePaths)
      ensures cl.executable == old(cl.executable) && cl.workingDirectory == old(cl.workingDirectory)
    {
      var start := cl.arguments;
      AddDefineArgs(cl, archDefs);
      AddDefineArgs(cl, defs);
      AddFixedOptions(cl, cfg, arch);
      AddIncludeArgs(cl, cfg.includePaths);
      AppendFour(start, DefineArgs(archDefs), DefineArgs(defs),
                 FixedOptions(cfg.intDirectory, arch, cfg.projectDir, cfg.projectId, cfg.projectName), IncludeArgs(cfg.includePaths));
    }

    /** The fixed switches of addOptions. */
    static method AddFixedOptions(cl: CommandLine, cfg: CandleConfig, arch: string)
      modifies cl
      ensures cl.arguments == old(cl.arguments)
        + FixedOptions(cfg.intDirectory, arch, cfg.projectDir, cfg.projectId, cfg.projectName)
      ensures cl.executable == old(cl.executable) && cl.workingDirectory == old(cl.workingDirectory)
    {
      cl.AddArguments(["-dConfiguration=Release"]);
      var intOutDir := Child(cfg.intDirectory, arch) + "\\";
      cl.AddArguments(["-out", intOutDir, "-dOutDir=" + cfg.intDirectory + "\\"]);
      cl.AddArguments(["-arch", arch, "-dPlatform=" + arch]);
      cl.AddArguments(["-dProjectDir=" + cfg.projectDir + "\\"]);
      cl.AddArguments(["-dProjectId=" + cfg.projectId, "-dProjectName=" + cfg.projectName]);
    }

    /** One "-I" argument per include path, when include paths are configured. */
    static method AddIncludeArgs(cl: CommandLine, includePaths: Option<seq<string>>)
      modifies cl
      ensures cl.arguments == old(cl.arguments) + IncludeArgs(includePaths)
      ensures cl.executable == old(cl.executable) && cl.workingDirectory == old(cl.workingDirectory)
    {
      if includePaths.Some? {
        var paths := includePaths.value;
        var i := 0;
        while i < |paths|
          invariant 0 <= i <= |paths|
          invariant cl.arguments == old(cl.arguments) + FlatMap(paths[..i], (p: string) => ["-I" + p])
          invariant cl.executable == old(cl.executable) && cl.workingDirectory == old(cl.workingDirectory)
        {
          FlatMapGrows(paths, (p: string) => ["-I" + p], i);
          cl.AddArguments(["-I" + paths[i]]);
          i := i + 1;
        }
        assert paths[..i] == paths;
      }
    }

    /** One "-d" argument per definition. */
    static method AddDefineArgs(cl: CommandLine, defs: seq<string>)
      modifies cl
      ensures cl.arguments == old(cl.arguments) + DefineArgs(defs)
      ensures cl.executable == old(cl.executable) && cl.workingDirectory == old(cl.workingDirectory)
    {
      var i := 0;
      while i < |defs|
        invariant 0 <= i <= |defs|
        invariant cl.arguments == old(cl.arguments) + DefineArgs(defs[..i])
        invariant cl.executable == old(cl.executable) && cl.workingDirectory == old(cl.workingDirectory)
      {
        FlatMapGrows(defs, (d: string) => ["-d" + d], i);
        cl.AddArguments(["-d" + defs[i]]);
        i := i + 1;
      }
      assert defs[..i] == defs;
    }

    /** addOtherOptions: the key, then the value when there is one, for every property. */
    static method AddOtherOptions(cl: CommandLine, candleProperties: Option<Properties>)
      modifies cl
      ensures cl.arguments == old(cl.arguments) + OtherOptions(candleProperties)
      ensures cl.executable == old(cl.executable) && cl.workingDirectory == old(cl.workingDirectory)
    {
      if candleProperties.Some? && !IsEmpty(candleProperties.value) {
        var result := PropertyArguments(candleProperties.value);
        cl.AddArguments(result);
      }
    }

    /** The ArrayList addOtherOptions fills: each key, then its value when it has one. */
    static method PropertyArguments(p: Properties) returns (result: seq<string>)
      ensures result == PassThrough(p.keys, (k: string) => GetProperty(p, k))
    {
      result := [];
      var i := 0;
      while i < |p.keys|
        invariant 0 <= i <= |p.keys|
        invariant result == PassThrough(p.keys[..i], (k: string) => GetProperty(p, k))
      {
        PassThroughGrows(p.keys, (k: string) => GetProperty(p, k), i);
        var key := p.keys[i];
        result := result + [key];
        var value := GetProperty(p, key);
        if value.Some? {
          result := result + [value.value];
        }
        i := i + 1;
      }
      assert p.keys[..i] == p.keys;
    }

    /** compile: builds candle's command line and hands it over to be run. */
    method Compile(cfg: CandleConfig, extensions: seq<Artifact>, order: set<string> -> seq<string>,
                   arch: string, files: seq<string>) returns (step: Step)
      ensures step == CompileStep(cfg, extensions, order(definitionsArch), order(definitions), arch, files)
    {
      var archDefs := order(definitionsArch);
      var defs := order(definitions);
      var cl := new CommandLine(ToolExecutable(cfg.toolDirectory, "candle.exe"));
      cl.SetWorkingDirectory(cfg.relativeBase);
      AddToolsetGeneralOptions(cl, cfg.verbose);
      AddWixExtensions(cl, extensions);
      ghost var head := cl.arguments;
      assert head == GeneralOptions(cfg.verbose) + ExtensionArgs(extensions);
      AddOptions(cl, cfg, archDefs, defs, arch);
      AddOtherOptions(cl, cfg.candleProperties);
      cl.AddArguments(files);
      assert cl.arguments == CompileInvocation(cfg, extensions, archDefs, defs, arch, files).arguments;
      return Call("compiler", true, cl.Snapshot());
    }
  
    /** The scan and compile part of the platform loop's body. */
    method CompileStale(cfg: CandleConfig, b: Build, order: set<string> -> seq<string>, arch: string,
                        td: string, tsMode: bool) returns (steps: seq<Step>)
      requires definitionsArch == NarArchDefines(arch)
      ensures steps == SourceSteps(cfg, b, order, definitions, arch, td, tsMode)
    {
      var sources := b.scan(td, tsMode);
      if |sources| == 0 {
        return [];
      }
      var rels := RelativeAllOf(b.canonical, cfg.relativeBase, sources);
      if rels.Err? {
        return [Throw(rels.error)];
      }
      var call := Compile(cfg, ExtensionDependencies(b.artifacts), order, arch, order(Elements(rels.value)));
      steps := [call] + if cfg.timestampFile.Some? then [Do(Touch(Child(td, cfg.timestampFile.value)))] else [];
    }

    /** The platform loop's body. */
    method ArchStep(cfg: CandleConfig, b: Build, order: set<string> -> seq<string>, made: set<string>, arch: string)
      returns (steps: seq<Step>, made': set<string>)
      modifies this
      ensures (steps, ArchState(timestampDirectory, made'))
        == ArchPlan(cfg, b, order, definitions, ArchState(old(timestampDirectory), made), arch)
      ensures definitionsArch == NarArchDefines(arch)
      ensures includes == old(includes) && definitions == old(definitions)
    {
      var archInt := Child(cfg.intDirectory, arch);
      steps := [Do(CreateDirectories(archInt))];
      made' := made + {archInt};
      ResetArchDefines(arch);
      var tsMode := cfg.timestampFile.Some? && timestampDirectory.Some?;
      if !tsMode {
        timestampDirectory := Some(archInt);
      }
      var td := timestampDirectory.value;
      ghost var mk: seq<Step> := if Present(b.fs, made', td) then [] else [Do(CreateDirectories(td))];
      if !(Exists(b.fs, td) || td in made') {
        steps := steps + [Do(CreateDirectories(td))];
      }
      assert steps == [Do(CreateDirectories(archInt))] + mk;
      made' := made' + {td};
      var rest := CompileStale(cfg, b, order, arch, td, tsMode);
      steps := steps + rest;
      ghost var st := ArchState(old(timestampDirectory), made);
      assert td == TargetDirectory(cfg, st, arch);
      assert tsMode == TimestampMode(cfg, st);
      ArchPlanParts(cfg, b, order, definitions, st, arch);
    }

    /** execute: the dependency definitions once, then every platform in turn. */
    method Execute(cfg: CandleConfig, b: Build, order: set<string> -> seq<string>, setting: PlatformSetting)
      returns (plan: seq<Step>)
      modifies this, setting
      ensures plan == CandlePlan(cfg, b, order, old(setting.platforms), old(definitions), old(timestampDirectory))
    {
      if cfg.skip || !Exists(b.fs, cfg.wxsInputDirectory) {
        return [];
      }
      AddDependencyDefines(cfg, b);
      var platforms := setting.GetPlatforms();
      var archs := order(platforms);
      plan := [];
      var made: set<string> := {};
      var i := 0;
      while i < |archs|
        invariant 0 <= i <= |archs|
        invariant definitions == old(definitions)
          + Elements(CandleDefinitions(b.artifacts, b.direct, cfg.unpackDirectory, cfg.repoBase))
        invariant (plan, ArchState(timestampDirectory, made))
          == ArchsPlan(cfg, b, order, definitions, ArchState(old(timestampDirectory), {}), archs[..i])
      {
        ArchsPlanSnoc(cfg, b, order, definitions, ArchState(old(timestampDirectory), {}), archs, i);
        var steps;
        steps, made := ArchStep(cfg, b, order, made, archs[i]);
        plan := plan + steps;
        i := i + 1;
      }
      assert archs[..i] == archs;
    }

    /** addWixDefines, addNARDefines, addJARDefines and addNPANDAYDefines, in that order. */
    method AddDependencyDefines(cfg: CandleConfig, b: Build)
      modifies this
      ensures definitions == old(definitions)
        + Elements(CandleDefinitions(b.artifacts, b.direct, cfg.unpackDirectory, cfg.repoBase))
      ensures includes == old(includes) && timestampDirectory == old(timestampDirectory)
    {
      var wix := FlatMap(WixDependencies(b.artifacts, b.direct), (w: Artifact) => [WixDefinition(w, cfg.unpackDirectory, cfg.repoBase)]);
      var nars := OfType(b.artifacts, NarTypes);
      var nar := if |nars| == 0 then [] else NarDirs + CandleNarPairs(nars, cfg.repoBase);
      var jar := FlatMap(OfType(b.artifacts, JarTypes), (j: Artifact) => [CandleJarDefinition(j, cfg.repoBase)]);
      var npanday := FlatMap(OfType(b.artifacts, NpandayTypes), (n: Artifact) => [CandleNpandayDefinition(n, cfg.repoBase)]);
      AddWixDefines(WixDependencies(b.artifacts, b.direct), cfg.unpackDirectory, cfg.repoBase);
      AddNARDefines(nars, cfg.repoBase);
      AddJARDefines(OfType(b.artifacts, JarTypes), cfg.repoBase);
      AddNPANDAYDefines(OfType(b.artifacts, NpandayTypes), cfg.repoBase);
      NarPartElements(nars, cfg.repoBase);
      ElementsOfFour(wix, nar, jar, npanday);
      assert CandleDefinitions(b.artifacts, b.direct, cfg.unpackDirectory, cfg.repoBase) == wix + nar + jar + npanday;
    }
  }
}
