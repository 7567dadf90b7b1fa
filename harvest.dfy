// HarvestMojo: heat's command line, the extensions heat needs beside it, and the walk
// over the harvest folder that decides what heat harvests.
module Harvest {
  import opened Wrappers
  import opened JavaText
  import opened Files
  import opened Seqs
  import opened ArtifactLookup
  import opened Runtime
  import opened WixMojo
  import opened CompilerDefines
  import opened Plans

  /** The harvest type of every folder found under a "dir" folder. */
  const TypeDir := "dir"

  const ErrorMarker := " : error "
  const WarningMarker := " : warning "

  /** The extensions heat loads from its own bin folder, in the order execute checks them. */
  const HeatExtensions: seq<string> := ["WixIISExtension", "WixUtilExtension", "WixVSExtension"]

  /** The goal's parameters. */
  datatype HeatConfig = HeatConfig(
    skip: bool,
    verbose: bool,
    toolDirectory: string,
    relativeBase: string,
    harvestInputDirectory: string,
    wxsGeneratedDirectory: string,
    harvestType: Option<string>,
    componentGroupName: Option<string>,
    directoryId: Option<string>,
    directoryRef: Option<string>,
    sourceVar: Option<string>,
    template: string,
    generate: string,
    generateComponentGUIDs: bool,
    generateGUIDBrackets: bool,
    generateBinderVariables: bool,
    keepEmpty: bool,
    /** The suppress set in its iteration order; null when it is not configured. */
    suppress: Option<seq<string>>)

  /** What execute looks at: the file system and the project's dependency artifacts. */
  datatype HeatBuild = HeatBuild(fs: FileSystem, artifacts: seq<Artifact>, direct: set<Coordinates>)

  /** StringUtils.isNotEmpty: neither null nor "". */
  predicate IsNotEmpty(s: Option<string>)
  {
    s.Some? && s.value != ""
  }

  /** One "-s<x>" per suppressed element, in the set's order. */
  function SuppressArgs(suppress: seq<string>): (r: seq<string>)
    ensures |r| == |suppress|
    ensures forall i :: 0 <= i < |suppress| ==> r[i] == "-s" + suppress[i]
  {
    if |suppress| == 0 then [] else SuppressArgs(suppress[..|suppress| - 1]) + ["-s" + suppress[|suppress| - 1]]
  }

  /** The suppress set; one that is not configured suppresses nothing. */
  function Suppressed(cfg: HeatConfig): seq<string>
  {
    cfg.suppress.GetOr([])
  }

  /** The guid switches of addToolsetOptions: -gg or -ag, then -g1 and -ke when asked for. */
  function GuidArgs(cfg: HeatConfig): (r: seq<string>)
    ensures |r| == 1 + (if cfg.generateGUIDBrackets then 1 else 0) + (if cfg.keepEmpty then 1 else 0)
    ensures r[0] == "-gg" <==> cfg.generateComponentGUIDs
    ensures r[0] == "-ag" <==> !cfg.generateComponentGUIDs
    ensures cfg.generateGUIDBrackets ==> r[1] == "-g1"
    ensures cfg.keepEmpty ==> r[|r| - 1] == "-ke"
  {
    [if cfg.generateComponentGUIDs then "-gg" else "-ag"]
    + (if cfg.generateGUIDBrackets then ["-g1"] else [])
    + (if cfg.keepEmpty then ["-ke"] else [])
  }

  /** The naming switches: template and generate always, -dr and -directoryid when configured. */
  function NamingArgs(cfg: HeatConfig): (r: seq<string>)
    ensures |r| == 4 + (if IsNotEmpty(cfg.directoryRef) then 2 else 0) + (if IsNotEmpty(cfg.directoryId) then 2 else 0)
    ensures r[..4] == ["-template", cfg.template, "-generate", cfg.generate]
    ensures IsNotEmpty(cfg.directoryRef) ==> r[4..6] == ["-dr", cfg.directoryRef.value]
    ensures IsNotEmpty(cfg.directoryId) ==> r[|r| - 2..] == ["-directoryid", cfg.directoryId.value]
  {
    ["-template", cfg.template, "-generate", cfg.generate]
    + (if IsNotEmpty(cfg.directoryRef) then ["-dr", cfg.directoryRef.value] else [])
    + (if IsNotEmpty(cfg.directoryId) then ["-directoryid", cfg.directoryId.value] else [])
  }

  /** addToolsetOptions, with an unconfigured suppress set taken as empty. */
  function ToolsetArgs(cfg: HeatConfig): seq<string>
  {
    GuidArgs(cfg) + NamingArgs(cfg) + SuppressArgs(Suppressed(cfg))
    + (if cfg.generateBinderVariables then ["-wixvar"] else [])
  }

  /**
   * addToolsetOptions as written: the loop over the suppress set dereferences it, so an
   * unconfigured (null) set fails before heat is ever started.
   */
  function ToolsetArgsAsWritten(cfg: HeatConfig): (r: Result<seq<string>, Failure>)
    ensures r.Ok? <==> cfg.suppress.Some?
    ensures r.Ok? ==> r.value == ToolsetArgs(cfg)
  {
    if cfg.suppress.None? then Err(ExecutionFailed("NullPointerException")) else Ok(ToolsetArgs(cfg))
  }

  /** Without a suppress configuration, the goal as written cannot run heat at all. */
  lemma UnsetSuppressFails(cfg: HeatConfig)
    requires cfg.suppress.None?
    ensures ToolsetArgsAsWritten(cfg) == Err(ExecutionFailed("NullPointerException"))
    ensures ToolsetArgs(cfg) == ToolsetArgs(cfg.(suppress := Some([])))
  {
    assert Suppressed(cfg) == [];
  }

  /**
   * The switches in order: the guid switches, the naming switches, one -s<x> per
   * suppressed element, and -wixvar last when binder variables are asked for.
   */
  lemma ToolsetArgsLayout(cfg: HeatConfig)
    ensures var r := ToolsetArgs(cfg);
      var g := |GuidArgs(cfg)|;
      var m := g + |NamingArgs(cfg)|;
      var n := |Suppressed(cfg)|;
      && |r| == m + n + (if cfg.generateBinderVariables then 1 else 0)
      && r[..g] == GuidArgs(cfg)
      && r[g..m] == NamingArgs(cfg)
      && (forall i :: 0 <= i < n ==> r[m + i] == "-s" + Suppressed(cfg)[i])
      && (cfg.generateBinderVariables ==> r[|r| - 1] == "-wixvar")
  {
    var sups := SuppressArgs(Suppressed(cfg));
    var last := if cfg.generateBinderVariables then ["-wixvar"] else [];
    ConcatParts(GuidArgs(cfg), NamingArgs(cfg), sups, last);
    var r := ToolsetArgs(cfg);
    var m := |GuidArgs(cfg)| + |NamingArgs(cfg)|;
    assert r[m..m + |sups|] == sups by {
      ConcatParts(GuidArgs(cfg) + NamingArgs(cfg), sups, last, []);
    }
  }

  /** getHarvestID: the harvest type, a dash, then the harvested file's name. */
  function HarvestId(harvestType: string, harvest: string): string
  {
    harvestType + "-" + Name(harvest)
  }

  /** The id of a harvested child names its type and the child's own name. */
  lemma HarvestIdOfChild(harvestType: string, parent: string, name: string)
    requires Separator !in name
    ensures HarvestId(harvestType, Child(parent, name)) == harvestType + "-" + name
  {
    NameOfChild(parent, name);
  }

  function HeatExe(cfg: HeatConfig): string
  {
    ToolExecutable(cfg.toolDirectory, "heat.exe")
  }

  /** The component group: the configured one, else the harvest id. */
  function ComponentGroup(cfg: HeatConfig, id: string): (r: string)
    ensures IsNotEmpty(cfg.componentGroupName) ==> r == cfg.componentGroupName.value
    ensures !IsNotEmpty(cfg.componentGroupName) ==> r == id
  {
    if IsNotEmpty(cfg.componentGroupName) then cfg.componentGroupName.value else id
  }

  /** The source variable: the configured one, else "var.<harvest id>". */
  function SourceVariable(cfg: HeatConfig, id: string): (r: string)
    ensures IsNotEmpty(cfg.sourceVar) ==> r == cfg.sourceVar.value
    ensures !IsNotEmpty(cfg.sourceVar) ==> r == "var." + id
  {
    if IsNotEmpty(cfg.sourceVar) then cfg.sourceVar.value else "var." + id
  }

  /** The generated source: <wxsGeneratedDirectory>\<harvest id>.wxs. */
  function HeatTarget(cfg: HeatConfig, harvestType: string, harvest: string): string
  {
    Child(cfg.wxsGeneratedDirectory, HarvestId(harvestType, harvest) + ".wxs")
  }

  /** The command line multiHeat builds. */
  function HeatArgs(cfg: HeatConfig, harvestType: string, harvest: string): seq<string>
  {
    var id := HarvestId(harvestType, harvest);
    [harvestType, harvest] + GeneralOptions(cfg.verbose) + ToolsetArgs(cfg)
    + ["-cg", ComponentGroup(cfg, id), "-var", SourceVariable(cfg, id), "-out", HeatTarget(cfg, harvestType, harvest)]
  }

  function HeatCall(cfg: HeatConfig, harvestType: string, harvest: string): Invocation
  {
    Invocation(HeatExe(cfg), Some(cfg.relativeBase), HeatArgs(cfg, harvestType, harvest))
  }

  /** A heat run; a failure names the command line. */
  function HeatStep(cfg: HeatConfig, harvestType: string, harvest: string): (r: Step)
    ensures r.Call? && r.name == "heat" && r.showsCommand
  {
    Call("heat", true, HeatCall(cfg, harvestType, harvest))
  }

  /**
   * Heat is handed the harvest type and the harvested path first, then the general and
   * toolset options, and ends with the component group, the source variable and the
   * generated file, each derived from the harvest id when not configured.
   */
  lemma HeatArgsLayout(cfg: HeatConfig, harvestType: string, harvest: string)
    ensures var r := HeatArgs(cfg, harvestType, harvest);
      var id := HarvestId(harvestType, harvest);
      var g := |GeneralOptions(cfg.verbose)|;
      && |r| == 2 + g + |ToolsetArgs(cfg)| + 6
      && r[..2] == [harvestType, harvest]
      && r[2..2 + g] == GeneralOptions(cfg.verbose)
      && r[2 + g..|r| - 6] == ToolsetArgs(cfg)
      && r[|r| - 6] == "-cg" && r[|r| - 4] == "-var" && r[|r| - 2] == "-out"
      && r[|r| - 5] == (if IsNotEmpty(cfg.componentGroupName) then cfg.componentGroupName.value else id)
      && r[|r| - 3] == (if IsNotEmpty(cfg.sourceVar) then cfg.sourceVar.value else "var." + id)
      && r[|r| - 1] == Child(cfg.wxsGeneratedDirectory, id + ".wxs")
  {
    var r := HeatArgs(cfg, harvestType, harvest);
    var head := [harvestType, harvest] + GeneralOptions(cfg.verbose);
    var id := HarvestId(harvestType, harvest);
    var tail := ["-cg", ComponentGroup(cfg, id), "-var", SourceVariable(cfg, id), "-out", HeatTarget(cfg, harvestType, harvest)];
    assert r == head + ToolsetArgs(cfg) + tail;
    assert head[..2] == [harvestType, harvest];
  }

  /** heat's consumer: " : error " lines are errors, " : warning " lines warnings, stderr errors. */
  function HeatRating(verbose: bool, stdout: seq<string>, stderr: seq<string>): RatedOutput
  {
    RateRun(ErrorMarker, WarningMarker, verbose, stdout, stderr)
  }

  /**
   * A heat run fails exactly when it cannot start or exits non-zero, then with the return
   * code and the command line; stdout lines are rated error before warning, stderr errors.
   */
  lemma HeatOutcome(cfg: HeatConfig, harvestType: string, harvest: string, tool: Tool)
    ensures var call := HeatCall(cfg, harvestType, harvest);
      && (Perform([HeatStep(cfg, harvestType, harvest)], tool).Completed? <==> tool(call).Exited? && tool(call).exitCode == 0)
      && (tool(call).Exited? && tool(call).exitCode != 0 ==>
            Perform([HeatStep(cfg, harvestType, harvest)], tool) == Failed([Ran(call)], ToolFailed("heat", tool(call).exitCode, Some(call))))
      && (tool(call).LaunchError? ==>
            Perform([HeatStep(cfg, harvestType, harvest)], tool) == Failed([Ran(call)], ToolLaunchFailed("heat", Some(call))))
      && (tool(call).Exited? ==>
            var r := HeatRating(cfg.verbose, tool(call).stdout, tool(call).stderr);
            && (forall i :: 0 <= i < |tool(call).stderr| ==> r.stderr[i] == Error)
            && (forall i :: 0 <= i < |tool(call).stdout| ==>
                  (r.stdout[i] == Error <==> Contains(tool(call).stdout[i], ErrorMarker))
                  && (r.stdout[i] == Warn <==> !Contains(tool(call).stdout[i], ErrorMarker) && Contains(tool(call).stdout[i], WarningMarker))))
  {
    var call := HeatCall(cfg, harvestType, harvest);
    if tool(call).Exited? {
      RateRunProperties(ErrorMarker, WarningMarker, cfg.verbose, tool(call).stdout, tool(call).stderr);
    }
  }

  /** The classifiers execute copies next to heat.exe (compared ignoring case). */
  predicate IsHeatExtension(classifier: Option<string>)
  {
    classifier.Some? &&
    (EqualsIgnoreCase(HeatExtensions[0], classifier.value)
     || EqualsIgnoreCase(HeatExtensions[1], classifier.value)
     || EqualsIgnoreCase(HeatExtensions[2], classifier.value))
  }

  function HeatBin(cfg: HeatConfig): string
  {
    Child(cfg.toolDirectory, "bin")
  }

  /** Where an extension is copied: <bin>\<classifier>.dll. */
  function ExtensionTarget(bin: string, ext: Artifact): string
  {
    Child(bin, ext.classifier.GetOr("") + ".dll")
  }

  /** One pass of the copy loop; the state is the set of files copied so far. */
  function ExtensionCopy(bin: string, copied: set<string>, ext: Artifact): (seq<Step>, set<string>)
  {
    if IsHeatExtension(ext.classifier) then ([Do(Copy(PathOf(ext), ExtensionTarget(bin, ext)))], copied + {ExtensionTarget(bin, ext)})
    else ([], copied)
  }

  function CopyPass(bin: string): (set<string>, Artifact) -> (seq<Step>, set<string>)
  {
    (copied: set<string>, ext: Artifact) => ExtensionCopy(bin, copied, ext)
  }

  /** The copy loop over the extension dependencies. */
  function ExtensionCopies(bin: string, exts: seq<Artifact>): (seq<Step>, set<string>)
  {
    Fold({}, exts, CopyPass(bin))
  }

  /** A file counts as copied exactly when some extension dependency with a heat classifier goes there. */
  lemma {:induction false} ExtensionCopiesTargets(bin: string, exts: seq<Artifact>, t: string)
    ensures t in ExtensionCopies(bin, exts).1 <==>
      exists i :: 0 <= i < |exts| && IsHeatExtension(exts[i].classifier) && t == ExtensionTarget(bin, exts[i])
    decreases |exts|
  {
    if |exts| > 0 {
      var n := |exts| - 1;
      ExtensionCopiesTargets(bin, exts[..n], t);
      assert ExtensionCopies(bin, exts).1 == ExtensionCopy(bin, ExtensionCopies(bin, exts[..n]).1, exts[n]).1;
      if exists i :: 0 <= i < |exts| && IsHeatExtension(exts[i].classifier) && t == ExtensionTarget(bin, exts[i]) {
        var i :| 0 <= i < |exts| && IsHeatExtension(exts[i].classifier) && t == ExtensionTarget(bin, exts[i]);
        if i < n {
          assert exts[..n][i] == exts[i];
        }
      }
      if t in ExtensionCopies(bin, exts[..n]).1 {
        var i :| 0 <= i < n && IsHeatExtension(exts[..n][i].classifier) && t == ExtensionTarget(bin, exts[..n][i]);
        assert exts[..n][i] == exts[i];
      }
    }
  }

  /** The copy loop only copies files. */
  lemma ExtensionCopiesOnlyCopy(bin: string, exts: seq<Artifact>)
    ensures AllSteps(ExtensionCopies(bin, exts).0, (s: Step) => s.Do? && s.effect.Copy?)
  {
    FoldAllSteps({}, exts, CopyPass(bin), (s: Step) => s.Do? && s.effect.Copy?);
  }

  function MissingExtension(name: string): Failure
  {
    ExecutionFailed("Problem executing heat\nUnable to find dependent extension " + name)
  }

  /** The dll of one of heat's extensions is there, before the goal or by a copy. */
  predicate HasExtension(fs: FileSystem, copied: set<string>, bin: string, i: nat)
    requires i < |HeatExtensions|
  {
    Present(fs, copied, Child(bin, HeatExtensions[i] + ".dll"))
  }

  /** The three checks after the copies: the first missing dll fails the goal. */
  function ExtensionCheck(fs: FileSystem, copied: set<string>, bin: string): seq<Step>
  {
    if !HasExtension(fs, copied, bin, 0) then [Throw(MissingExtension(HeatExtensions[0]))]
    else if !HasExtension(fs, copied, bin, 1) then [Throw(MissingExtension(HeatExtensions[1]))]
    else if !HasExtension(fs, copied, bin, 2) then [Throw(MissingExtension(HeatExtensions[2]))]
    else []
  }

  /** The checks pass exactly when every dll is there; otherwise the first missing one fails the goal. */
  lemma ExtensionCheckFirstMissing(fs: FileSystem, copied: set<string>, bin: string)
    ensures var r := ExtensionCheck(fs, copied, bin);
      r == [] <==> forall i :: 0 <= i < |HeatExtensions| ==> HasExtension(fs, copied, bin, i)
    ensures var r := ExtensionCheck(fs, copied, bin);
      r != [] ==>
        exists i :: (0 <= i < |HeatExtensions| && !HasExtension(fs, copied, bin, i)
          && (forall j :: 0 <= j < i ==> HasExtension(fs, copied, bin, j))
          && r == [Throw(MissingExtension(HeatExtensions[i]))])
  {
    var r := ExtensionCheck(fs, copied, bin);
    if !HasExtension(fs, copied, bin, 0) {
      MissingAt(fs, copied, bin, 0, r);
    } else if !HasExtension(fs, copied, bin, 1) {
      MissingAt(fs, copied, bin, 1, r);
    } else if !HasExtension(fs, copied, bin, 2) {
      MissingAt(fs, copied, bin, 2, r);
    } else {
      forall i | 0 <= i < |HeatExtensions|
        ensures HasExtension(fs, copied, bin, i)
      {
        assert i == 0 || i == 1 || i == 2;
      }
    }
  }

  /** Dll i is the first one missing, and the checks fail naming it. */
  lemma MissingAt(fs: FileSystem, copied: set<string>, bin: string, i: nat, r: seq<Step>)
    requires i < |HeatExtensions| && !HasExtension(fs, copied, bin, i)
    requires forall j :: 0 <= j < i ==> HasExtension(fs, copied, bin, j)
    requires r == [Throw(MissingExtension(HeatExtensions[i]))]
    ensures r != [] && !(forall k :: 0 <= k < |HeatExtensions| ==> HasExtension(fs, copied, bin, k))
    ensures exists k :: (0 <= k < |HeatExtensions| && !HasExtension(fs, copied, bin, k)
      && (forall j :: 0 <= j < k ==> HasExtension(fs, copied, bin, j))
      && r == [Throw(MissingExtension(HeatExtensions[k]))])
  {
  }

  function DirHeat(cfg: HeatConfig, sub: string): seq<Step>
  {
    [HeatStep(cfg, TypeDir, sub)]
  }

  function DirHeats(cfg: HeatConfig): string -> seq<Step>
  {
    (sub: string) => DirHeat(cfg, sub)
  }

  /** A folder of the input: a "dir" folder harvests each of its subfolders; any other, nothing. */
  function FolderHeats(cfg: HeatConfig, fs: FileSystem, folder: string): seq<Step>
  {
    if Name(folder) == TypeDir then FlatMap(Subdirectories(fs, folder), DirHeats(cfg)) else []
  }

  function FolderHeatsOf(cfg: HeatConfig, fs: FileSystem): string -> seq<Step>
  {
    (folder: string) => FolderHeats(cfg, fs, folder)
  }

  /**
   * What heat harvests: the input itself under the configured harvest type, or else each
   * subfolder of a "dir" folder of the input; an input that is a file lists nothing
   * (null) and the loop over it fails.
   */
  function HarvestRuns(cfg: HeatConfig, fs: FileSystem): seq<Step>
  {
    if IsNotEmpty(cfg.harvestType) then [HeatStep(cfg, cfg.harvestType.value, cfg.harvestInputDirectory)]
    else if !IsDirectory(fs, cfg.harvestInputDirectory) then [Throw(ExecutionFailed("NullPointerException"))]
    else FlatMap(Subdirectories(fs, cfg.harvestInputDirectory), FolderHeatsOf(cfg, fs))
  }

  /** execute. */
  function HarvestPlan(cfg: HeatConfig, b: HeatBuild): seq<Step>
  {
    if cfg.skip || !Exists(b.fs, cfg.harvestInputDirectory) then []
    else if !Exists(b.fs, HeatExe(cfg)) then [Throw(MissingFile(HeatExe(cfg)))]
    else
      var copies := ExtensionCopies(HeatBin(cfg), ExtensionDependencies(b.artifacts));
      var check := ExtensionCheck(b.fs, copies.1, HeatBin(cfg));
      if check != [] then copies.0 + check
      else copies.0 + MakeIfMissing(b.fs, copies.1, cfg.wxsGeneratedDirectory) + HarvestRuns(cfg, b.fs)
  }

  /** Nothing happens when skipped or when the input is missing; a missing heat.exe fails first. */
  lemma HarvestGates(cfg: HeatConfig, b: HeatBuild)
    ensures cfg.skip || !Exists(b.fs, cfg.harvestInputDirectory) ==> HarvestPlan(cfg, b) == []
    ensures !cfg.skip && Exists(b.fs, cfg.harvestInputDirectory) && !Exists(b.fs, HeatExe(cfg)) ==>
      HarvestPlan(cfg, b) == [Throw(MissingFile(HeatExe(cfg)))]
  {
  }

  /** The steps before any heat run: the copies and at most the generated folder's mkdir. */
  function HarvestPrefix(cfg: HeatConfig, b: HeatBuild): seq<Step>
  {
    var copies := ExtensionCopies(HeatBin(cfg), ExtensionDependencies(b.artifacts));
    copies.0 + MakeIfMissing(b.fs, copies.1, cfg.wxsGeneratedDirectory)
  }

  lemma HarvestPrefixRunsNothing(cfg: HeatConfig, b: HeatBuild)
    ensures Calls(HarvestPrefix(cfg, b)) == []
  {
    var copies := ExtensionCopies(HeatBin(cfg), ExtensionDependencies(b.artifacts));
    ExtensionCopiesOnlyCopy(HeatBin(cfg), ExtensionDependencies(b.artifacts));
    SelectNone(HarvestPrefix(cfg, b), IsCall);
  }

  /** Every extension dll is there, having been there already or been copied by the goal. */
  predicate ExtensionsPresent(cfg: HeatConfig, b: HeatBuild)
  {
    var copies := ExtensionCopies(HeatBin(cfg), ExtensionDependencies(b.artifacts));
    forall i :: 0 <= i < |HeatExtensions| ==> HasExtension(b.fs, copies.1, HeatBin(cfg), i)
  }

  /** With every extension there, the goal makes its copies, perhaps one folder, then harvests. */
  lemma HarvestWithExtensions(cfg: HeatConfig, b: HeatBuild)
    requires !cfg.skip && Exists(b.fs, cfg.harvestInputDirectory) && Exists(b.fs, HeatExe(cfg))
    requires ExtensionsPresent(cfg, b)
    ensures HarvestPlan(cfg, b) == HarvestPrefix(cfg, b) + HarvestRuns(cfg, b.fs)
    ensures Calls(HarvestPlan(cfg, b)) == Calls(HarvestRuns(cfg, b.fs))
  {
    ExtensionCheckFirstMissing(b.fs, ExtensionCopies(HeatBin(cfg), ExtensionDependencies(b.artifacts)).1, HeatBin(cfg));
    HarvestPrefixRunsNothing(cfg, b);
    SelectConcat(HarvestPrefix(cfg, b), HarvestRuns(cfg, b.fs), IsCall);
  }

  /**
   * Without one of them, the goal makes its copies and then fails on the first missing
   * dll, running heat not once.
   */
  lemma HarvestWithoutExtension(cfg: HeatConfig, b: HeatBuild)
    requires !cfg.skip && Exists(b.fs, cfg.harvestInputDirectory) && Exists(b.fs, HeatExe(cfg))
    requires !ExtensionsPresent(cfg, b)
    ensures var copies := ExtensionCopies(HeatBin(cfg), ExtensionDependencies(b.artifacts));
      exists i :: 0 <= i < |HeatExtensions| && !HasExtension(b.fs, copies.1, HeatBin(cfg), i)
        && HarvestPlan(cfg, b) == copies.0 + [Throw(MissingExtension(HeatExtensions[i]))]
    ensures Calls(HarvestPlan(cfg, b)) == []
  {
    var copies := ExtensionCopies(HeatBin(cfg), ExtensionDependencies(b.artifacts));
    var check := ExtensionCheck(b.fs, copies.1, HeatBin(cfg));
    ExtensionCheckFirstMissing(b.fs, copies.1, HeatBin(cfg));
    var plan := HarvestPlan(cfg, b);
    assert plan == copies.0 + check;
    ExtensionCopiesOnlyCopy(HeatBin(cfg), ExtensionDependencies(b.artifacts));
    SelectNone(plan, IsCall);
  }

  /** With a harvest type, heat runs once, over the input itself. */
  lemma HarvestRunsTyped(cfg: HeatConfig, fs: FileSystem)
    requires IsNotEmpty(cfg.harvestType)
    ensures Calls(HarvestRuns(cfg, fs)) == [HeatStep(cfg, cfg.harvestType.value, cfg.harvestInputDirectory)]
  {
    SelectSingle(HeatStep(cfg, cfg.harvestType.value, cfg.harvestInputDirectory), IsCall);
  }

  /**
   * Without one, heat runs with type "dir" once per subfolder of a folder named "dir" of
   * the input, and for nothing else (a "file" folder harvests nothing).
   */
  lemma HarvestRunsWalk(cfg: HeatConfig, fs: FileSystem, s: Step)
    requires !IsNotEmpty(cfg.harvestType) && IsDirectory(fs, cfg.harvestInputDirectory)
    ensures s in Calls(HarvestRuns(cfg, fs)) <==>
      exists folder, sub :: folder in Subdirectories(fs, cfg.harvestInputDirectory) && Name(folder) == TypeDir
        && sub in Subdirectories(fs, folder) && s == HeatStep(cfg, TypeDir, sub)
  {
    var runs := HarvestRuns(cfg, fs);
    var folders := Subdirectories(fs, cfg.harvestInputDirectory);
    assert runs == FlatMap(folders, FolderHeatsOf(cfg, fs));
    SelectMembers(runs, IsCall, s);
    FlatMapMembers(folders, FolderHeatsOf(cfg, fs), s);
    if s in runs {
      HarvestRunsFrom(cfg, fs, folders, s);
    }
    if exists folder, sub :: folder in folders && Name(folder) == TypeDir
        && sub in Subdirectories(fs, folder) && s == HeatStep(cfg, TypeDir, sub) {
      HarvestRunsReach(cfg, fs, folders, s);
    }
  }

  /** A heat run of the walk comes from a subfolder of one of the "dir" folders. */
  lemma HarvestRunsFrom(cfg: HeatConfig, fs: FileSystem, folders: seq<string>, s: Step)
    requires exists i :: 0 <= i < |folders| && s in FolderHeatsOf(cfg, fs)(folders[i])
    ensures exists folder, sub :: folder in folders && Name(folder) == TypeDir
               && sub in Subdirectories(fs, folder) && s == HeatStep(cfg, TypeDir, sub)
  {
    var i :| 0 <= i < |folders| && s in FolderHeatsOf(cfg, fs)(folders[i]);
    FolderHeatsMembers(cfg, fs, folders[i], s);
    assert folders[i] in folders;
  }

  /** Every subfolder of a "dir" folder has its heat run in the walk. */
  lemma HarvestRunsReach(cfg: HeatConfig, fs: FileSystem, folders: seq<string>, s: Step)
    requires exists folder, sub :: folder in folders && Name(folder) == TypeDir
                && sub in Subdirectories(fs, folder) && s == HeatStep(cfg, TypeDir, sub)
    ensures exists i :: 0 <= i < |folders| && s in FolderHeatsOf(cfg, fs)(folders[i])
  {
    var folder, sub :| folder in folders && Name(folder) == TypeDir
      && sub in Subdirectories(fs, folder) && s == HeatStep(cfg, TypeDir, sub);
    FolderHeatsMembers(cfg, fs, folder, s);
    var i :| 0 <= i < |folders| && folders[i] == folder;
    assert s in FolderHeatsOf(cfg, fs)(folders[i]);
  }

  lemma FolderHeatsMembers(cfg: HeatConfig, fs: FileSystem, folder: string, s: Step)
    ensures s in FolderHeats(cfg, fs, folder) <==>
      Name(folder) == TypeDir && exists sub :: sub in Subdirectories(fs, folder) && s == HeatStep(cfg, TypeDir, sub)
  {
    if Name(folder) == TypeDir {
      var subs := Subdirectories(fs, folder);
      FlatMapMembers(subs, DirHeats(cfg), s);
      if exists sub :: sub in subs && s == HeatStep(cfg, TypeDir, sub) {
        var sub :| sub in subs && s == HeatStep(cfg, TypeDir, sub);
        var i :| 0 <= i < |subs| && subs[i] == sub;
        assert s in DirHeats(cfg)(subs[i]);
      }
    }
  }

  /** The guid switches of addToolsetOptions. */
  method AddGuidOptions(cl: CommandLine, cfg: HeatConfig)
    modifies cl
    ensures cl.arguments == old(cl.arguments) + GuidArgs(cfg)
    ensures cl.executable == old(cl.executable) && cl.workingDirectory == old(cl.workingDirectory)
  {
    if cfg.generateComponentGUIDs {
      cl.AddArguments(["-gg"]);
    } else {
      cl.AddArguments(["-ag"]);
    }
    if cfg.generateGUIDBrackets {
      cl.AddArguments(["-g1"]);
    }
    if cfg.keepEmpty {
      cl.AddArguments(["-ke"]);
    }
  }

  /** The naming switches of addToolsetOptions. */
  method AddNamingOptions(cl: CommandLine, cfg: HeatConfig)
    modifies cl
    ensures cl.arguments == old(cl.arguments) + NamingArgs(cfg)
    ensures cl.executable == old(cl.executable) && cl.workingDirectory == old(cl.workingDirectory)
  {
    cl.AddArguments(["-template", cfg.template]);
    cl.AddArguments(["-generate", cfg.generate]);
    if IsNotEmpty(cfg.directoryRef) {
      cl.AddArguments(["-dr", cfg.directoryRef.value]);
    }
    if IsNotEmpty(cfg.directoryId) {
      cl.AddArguments(["-directoryid", cfg.directoryId.value]);
    }
  }

  /** The loop over the suppress set. */
  method AddSuppressions(cl: CommandLine, suppress: seq<string>)
    modifies cl
    ensures cl.arguments == old(cl.arguments) + SuppressArgs(suppress)
    ensures cl.executable == old(cl.executable) && cl.workingDirectory == old(cl.workingDirectory)
  {
    var i := 0;
    while i < |suppress|
      invariant 0 <= i <= |suppress|
      invariant cl.arguments == old(cl.arguments) + SuppressArgs(suppress[..i])
      invariant cl.executable == old(cl.executable) && cl.workingDirectory == old(cl.workingDirectory)
    {
      assert suppress[..i + 1][..i] == suppress[..i];
      cl.AddArguments(["-s" + suppress[i]]);
      i := i + 1;
    }
    assert suppress[..i] == suppress;
  }

  /** addToolsetOptions. */
  method AddToolsetOptions(cl: CommandLine, cfg: HeatConfig)
    modifies cl
    ensures cl.arguments == old(cl.arguments) + ToolsetArgs(cfg)
    ensures cl.executable == old(cl.executable) && cl.workingDirectory == old(cl.workingDirectory)
  {
    ghost var start := cl.arguments;
    AddGuidOptions(cl, cfg);
    AddNamingOptions(cl, cfg);
    AppendAssoc(start, GuidArgs(cfg), NamingArgs(cfg));
    var suppress := Suppressed(cfg);
    AddSuppressions(cl, suppress);
    AppendAssoc(start, GuidArgs(cfg) + NamingArgs(cfg), SuppressArgs(suppress));
    ghost var suppressed := cl.arguments;
    if cfg.generateBinderVariables {
      cl.AddArguments(["-wixvar"]);
    } else {
      assert cl.arguments == cl.arguments + [];
    }
    AppendAssoc(start, GuidArgs(cfg) + NamingArgs(cfg) + SuppressArgs(suppress),
                if cfg.generateBinderVariables then ["-wixvar"] else []);
  }

  /** multiHeat: the heat command line for one harvest. */
  method HeatCommand(cfg: HeatConfig, harvestType: string, harvest: string) returns (cl: CommandLine)
    ensures fresh(cl)
    ensures cl.Snapshot() == HeatCall(cfg, harvestType, harvest)
  {
    cl := new CommandLine(HeatExe(cfg));
    cl.SetWorkingDirectory(cfg.relativeBase);
    cl.AddArguments([harvestType, harvest]);
    AddToolsetGeneralOptions(cl, cfg.verbose);
    AddToolsetOptions(cl, cfg);
    assert cl.arguments == [harvestType, harvest] + GeneralOptions(cfg.verbose) + ToolsetArgs(cfg);
    AddHarvestNames(cl, cfg, harvestType, harvest);
    assert cl.arguments == HeatArgs(cfg, harvestType, harvest);
  }

  /** The component group, the source variable and the generated file, named after the harvest id. */
  method AddHarvestNames(cl: CommandLine, cfg: HeatConfig, harvestType: string, harvest: string)
    modifies cl
    ensures var id := HarvestId(harvestType, harvest);
      cl.arguments == old(cl.arguments)
        + ["-cg", ComponentGroup(cfg, id), "-var", SourceVariable(cfg, id), "-out", HeatTarget(cfg, harvestType, harvest)]
    ensures cl.executable == old(cl.executable) && cl.workingDirectory == old(cl.workingDirectory)
  {
    var id := HarvestId(harvestType, harvest);
    var group := if IsNotEmpty(cfg.componentGroupName) then cfg.componentGroupName.value else id;
    var variable := if IsNotEmpty(cfg.sourceVar) then cfg.sourceVar.value else "var." + id;
    cl.AddArguments(["-cg", group, "-var", variable, "-out", Child(cfg.wxsGeneratedDirectory, id + ".wxs")]);
  }

  /** The copy loop of execute. */
  method CopyExtensions(bin: string, exts: seq<Artifact>) returns (steps: seq<Step>, copied: set<string>)
    ensures (steps, copied) == ExtensionCopies(bin, exts)
  {
    steps, copied := [], {};
    var i := 0;
    while i < |exts|
      invariant 0 <= i <= |exts|
      invariant (steps, copied) == Fold({}, exts[..i], CopyPass(bin))
    {
      FoldSnoc({}, exts[..i], exts[i], CopyPass(bin));
      assert exts[..i + 1] == exts[..i] + [exts[i]];
      var ext := exts[i];
      if IsHeatExtension(ext.classifier) {
        var target := Child(bin, ext.classifier.value + ".dll");
        steps := steps + [Do(Copy(PathOf(ext), target))];
        copied := copied + {target};
      } else {
        assert steps + [] == steps;
      }
      i := i + 1;
    }
    assert exts[..i] == exts;
  }

  /** The inner loop: one heat of type "dir" per subfolder. */
  method HeatDirs(cfg: HeatConfig, subs: seq<string>) returns (steps: seq<Step>)
    ensures steps == FlatMap(subs, DirHeats(cfg))
  {
    steps := [];
    var i := 0;
    while i < |subs|
      invariant 0 <= i <= |subs|
      invariant steps == FlatMap(subs[..i], DirHeats(cfg))
    {
      FlatMapGrows(subs, DirHeats(cfg), i);
      var cl := HeatCommand(cfg, TypeDir, subs[i]);
      steps := steps + [Call("heat", true, cl.Snapshot())];
      i := i + 1;
    }
    assert subs[..i] == subs;
  }

  /** The outer loop over the input's subfolders. */
  method HeatFolders(cfg: HeatConfig, fs: FileSystem, folders: seq<string>) returns (steps: seq<Step>)
    ensures steps == FlatMap(folders, FolderHeatsOf(cfg, fs))
  {
    steps := [];
    var i := 0;
    while i < |folders|
      invariant 0 <= i <= |folders|
      invariant steps == FlatMap(folders[..i], FolderHeatsOf(cfg, fs))
    {
      FlatMapGrows(folders, FolderHeatsOf(cfg, fs), i);
      if Name(folders[i]) == TypeDir {
        var more := HeatDirs(cfg, Subdirectories(fs, folders[i]));
        steps := steps + more;
      } else {
        assert steps + [] == steps;
      }
      i := i + 1;
    }
    assert folders[..i] == folders;
  }

  /** execute, proved against HarvestPlan. */
  method HarvestExecute(cfg: HeatConfig, b: HeatBuild) returns (plan: seq<Step>)
    ensures plan == HarvestPlan(cfg, b)
  {
    if cfg.skip || !Exists(b.fs, cfg.harvestInputDirectory) {
      return [];
    }
    var heatTool := ToolExecutable(cfg.toolDirectory, "heat.exe");
    if !Exists(b.fs, heatTool) {
      return [Throw(MissingFile(heatTool))];
    }
    var bin := Child(cfg.toolDirectory, "bin");
    var copies, copied := CopyExtensions(bin, ExtensionDependencies(b.artifacts));
    plan := copies;
    var k := 0;
    while k < |HeatExtensions|
      invariant 0 <= k <= |HeatExtensions|
      invariant plan == copies
      invariant forall j :: 0 <= j < k ==> HasExtension(b.fs, copied, bin, j)
    {
      if !Present(b.fs, copied, Child(bin, HeatExtensions[k] + ".dll")) {
        return plan + [Throw(MissingExtension(HeatExtensions[k]))];
      }
      k := k + 1;
    }
    if !Present(b.fs, copied, cfg.wxsGeneratedDirectory) {
      plan := plan + [Do(CreateDirectories(cfg.wxsGeneratedDirectory))];
    }
    assert plan == HarvestPrefix(cfg, b);
    if IsNotEmpty(cfg.harvestType) {
      var cl := HeatCommand(cfg, cfg.harvestType.value, cfg.harvestInputDirectory);
      plan := plan + [Call("heat", true, cl.Snapshot())];
    } else if !IsDirectory(b.fs, cfg.harvestInputDirectory) {
      plan := plan + [Throw(ExecutionFailed("NullPointerException"))];
    } else {
      var runs := HeatFolders(cfg, b.fs, Subdirectories(b.fs, cfg.harvestInputDirectory));
      plan := plan + runs;
    }
  }
}
