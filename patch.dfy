// PatchMojo: the patch goal. For every platform and culture spec, torch diffs the base and
// the patched build into a wixmst, and pyro applies that transform to the wixmsp light made.
module Patch {
  import opened Wrappers
  import opened JavaText
  import opened Files
  import opened Seqs
  import opened ArtifactLookup
  import opened Runtime
  import opened WixMojo
  import opened Packageable
  import opened Plans
  import opened Torch
  import opened JavaProperties
  import Linker

  /** The only input type pyro is given files for. */
  const PatchPdb := "wixpdb"

  /** torchOutputExtension of the patch goal, and the extension light gives a patch. */
  const IntermediateExtension := "wixmst"
  const PatchInputExtension := "wixmsp"

  const TypeMismatch := "Wix Pyro currently requires that both inputs to the patch are the same type, wixpdb or msi."
  const IncompleteMojo := "Incomplete Mojo - add tools for admin unpacking msi"

  datatype PatchConfig = PatchConfig(
    skip: bool,
    verbose: bool,
    preserveUnmodified: bool,
    toolDirectory: string,
    basedir: string,
    intDirectory: string,
    finalName: string,
    cabCacheDirectory: string,
    narUnpackDirectory: string,
    reuseCabs: bool,
    patchProperties: Option<Properties>,
    baseline: string,
    baseItem: Artifact,
    patchedItem: Artifact,
    packaged: Packaged)

  /**
   * The world as the goal sees it: files, the repositories, the extension dependencies, the
   * iteration orders of the platform and culture-spec sets, the three-argument getOutput,
   * and for an artifact the dependencies its pom declares, resolved, or why they cannot be.
   */
  datatype PatchBuild = PatchBuild(
    fs: FileSystem,
    repo: Repository,
    artifacts: seq<Artifact>,
    direct: set<Coordinates>,
    order: set<string> -> seq<string>,
    cultureOrder: set<Option<string>> -> seq<Option<string>>,
    output: (string, Option<string>, string) -> string,
    dependencies: Artifact -> Result<seq<Artifact>, Failure>)

  // ---- torch's side ----

  /** addValidationOptions: patch validation, then -xi for wixpdb inputs and -xo for packages. */
  function PatchValidation(patchedType: string): (r: seq<string>)
    ensures |r| == 3 && r[..2] == ["-t", "patch"]
    ensures r[2] == "-xi" <==> patchedType == PatchPdb
    ensures r[2] == "-xo" <==> patchedType != PatchPdb
  {
    ["-t", "patch"] + (if PatchPdb == patchedType then ["-xi"] else ["-xo"])
  }

  /** The only element of a one-element set. */
  function TheOnly<T>(s: set<T>): (x: T)
    requires |s| == 1
    ensures s == {x}
  {
    var x :| x in s;
    assert s - {x} == {} by {
      assert |s - {x}| == 0;
    }
    x
  }

  /**
   * getRelatedArtifact: the variant of an item for a platform and culture spec, looked up
   * into a fresh set that must then hold exactly one artifact.
   */
  function RelatedArtifact(b: PatchBuild, item: Artifact, arch: string, culture: Option<string>): (r: Result<Artifact, Failure>)
    ensures var found := Lookup(b.fs, b.repo, item, VariantClassifier(arch, culture));
      && (r.Ok? <==> found.Ok?)
      && (r.Ok? ==> found.value == {r.value})
      && (r.Err? ==> r == Err(found.error))
    ensures r.Ok? ==>
      && r.value.groupId == item.groupId && r.value.artifactId == item.artifactId
      && r.value.artifactType == item.artifactType && r.value.version == item.version
      && r.value.classifier == Some(VariantClassifier(arch, culture))
  {
    var classifier := VariantClassifier(arch, culture);
    var found := GetArtifact(b.fs, b.repo, item.groupId, item.artifactId, item.artifactType, {}, item.version, classifier);
    GetArtifactAddsRequested(b.fs, b.repo, item.groupId, item.artifactId, item.artifactType, {}, item.version, classifier);
    if found.Err? then Err(found.error)
    else if |found.value| != 1 then Err(ResolutionFailed("Found multiple artifacts for : " + item.groupId + ":" + item.artifactId))
    else
      var a := TheOnly(found.value);
      assert a in found.value - {};
      Ok(a)
  }

  /** getRelatedArtifactFiles: a wixpdb is used as it is; anything else is not supported. */
  function RelatedArtifactFile(a: Artifact): (r: Result<string, Failure>)
    ensures r.Ok? <==> a.artifactType == PatchPdb
    ensures r.Ok? ==> r.value == PathOf(a)
    ensures r.Err? ==> r.error == ExecutionFailed(IncompleteMojo)
  {
    if PatchPdb == a.artifactType then Ok(PathOf(a)) else Err(ExecutionFailed(IncompleteMojo))
  }

  /** The wixmst torch writes for a variant: in the intermediate folder, under the primary culture. */
  function IntermediateFile(cfg: PatchConfig, arch: string, culture: Option<string>): string
  {
    Output(cfg.basedir, Some(cfg.intDirectory), arch, PrimaryCulture(culture), cfg.finalName, IntermediateExtension)
  }

  /** The intermediate file spelled out: <intDirectory>\<arch>[\<primary culture>]\<finalName>.wixmst. */
  lemma IntermediateLayout(cfg: PatchConfig, arch: string, culture: Option<string>)
    ensures IntermediateFile(cfg, arch, culture) ==
      cfg.intDirectory + "\\" + arch + (if culture.Some? then "\\" + Before(culture.value, ';') else "")
      + "\\" + cfg.finalName + ".wixmst"
  {
    OutputLayout(cfg.basedir, Some(cfg.intDirectory), arch, PrimaryCulture(culture), cfg.finalName, IntermediateExtension);
  }

  /** torch for a variant: the base file against the patched file, into the intermediate file. */
  function PatchTorchCall(cfg: PatchConfig, b: PatchBuild, exe: string, baseFile: string, latestFile: string,
                          intermediate: string): Invocation
  {
    Invocation(exe, None,
      TorchArgs(cfg.verbose, cfg.preserveUnmodified, PatchValidation(cfg.patchedItem.artifactType),
                ExtensionDependencies(b.artifacts), baseFile, latestFile, intermediate))
  }

  // ---- pyro's side ----

  function PyroExe(cfg: PatchConfig): string
  {
    ToolExecutable(cfg.toolDirectory, "pyro.exe")
  }

  /** The cabinet cache of a platform. */
  function PatchCabCache(cfg: PatchConfig, arch: string): string
  {
    Child(cfg.cabCacheDirectory, arch)
  }

  /** addReuseCabOptions: the platform's cabinet cache, with a trailing backslash, when cabinets are reused. */
  function PatchReuseCabArgs(cfg: PatchConfig, arch: string): (r: seq<string>)
    ensures r != [] <==> cfg.reuseCabs
    ensures cfg.reuseCabs ==> r == ["-reusecab", "-cc", cfg.cabCacheDirectory + "\\" + arch + "\\"]
  {
    if cfg.reuseCabs then ["-reusecab", "-cc", PatchCabCache(cfg, arch) + "\\"] else []
  }

  predicate IsJar(a: Artifact)
  {
    a.artifactType == "jar"
  }

  function IsJarOf(): Artifact -> bool
  {
    (a: Artifact) => IsJar(a)
  }

  /** getJARDependencySets: the jar-typed dependencies of an artifact's pom. */
  function JarDependencies(b: PatchBuild, a: Artifact): (r: Result<seq<Artifact>, Failure>)
    ensures r.Ok? <==> b.dependencies(a).Ok?
    ensures r.Err? ==> r.error == b.dependencies(a).error
    ensures r.Ok? ==> forall j :: j in r.value <==> j in b.dependencies(a).value && IsJar(j)
  {
    match b.dependencies(a)
    case Err(e) => Err(e)
    case Ok(deps) =>
      assert forall j :: j in Filter(deps, IsJarOf()) <==> j in deps && IsJar(j) by {
        forall j {
          FilterMembers(deps, IsJarOf(), j);
        }
      }
      Ok(Filter(deps, IsJarOf()))
  }

  /** A jar's file has a parent folder exactly when its path holds a separator. */
  predicate HasFolder(jar: Artifact)
  {
    Separator in PathOf(jar)
  }

  /** addJARSourceRoots for one jar: the bind option and the jar's folder with a trailing backslash. */
  function JarRoot(option: string, jar: Artifact): seq<string>
  {
    if HasFolder(jar) then [option, Parent(PathOf(jar)) + "\\"] else []
  }

  function JarRootOf(option: string): Artifact -> seq<string>
  {
    (jar: Artifact) => JarRoot(option, jar)
  }

  function JarRootArgs(option: string, jars: seq<Artifact>): seq<string>
  {
    FlatMap(jars, JarRootOf(option))
  }

  /** The jar roots come in pairs, the bind option first. */
  lemma {:induction false} JarRootArgsPairs(option: string, jars: seq<Artifact>)
    ensures var r := JarRootArgs(option, jars);
      && |r| % 2 == 0
      && forall k :: 0 <= k < |r| && k % 2 == 0 ==> r[k] == option
    decreases |jars|
  {
    if |jars| > 0 {
      var n := |jars| - 1;
      JarRootArgsPairs(option, jars[..n]);
      assert jars == jars[..n] + [jars[n]];
    }
  }

  /** `folder`, with its trailing backslash, is the folder of one of the jars that has one. */
  predicate JarFolder(jars: seq<Artifact>, folder: string)
  {
    exists jar :: jar in jars && HasFolder(jar) && folder == Parent(PathOf(jar)) + "\\"
  }

  /** Every folder bound is the folder of one of the jars that has one. */
  lemma {:induction false} JarRootArgsFolders(option: string, jars: seq<Artifact>)
    ensures var r := JarRootArgs(option, jars);
      forall k :: 0 <= k < |r| && k % 2 == 1 ==> JarFolder(jars, r[k])
    decreases |jars|
  {
    if |jars| > 0 {
      var n := |jars| - 1;
      var init := jars[..n];
      var last := jars[n];
      JarRootArgsFolders(option, init);
      JarRootArgsPairs(option, init);
      assert jars == init + [last];
      assert JarRootArgs(option, jars) == JarRootArgs(option, init) + JarRoot(option, last);
      JarRootFoldersStep(option, JarRootArgs(option, init), init, last);
    } else {
      assert JarRootArgs(option, jars) == [];
    }
  }

  /** Appending one jar's roots keeps every bound folder the folder of a jar that has one. */
  lemma JarRootFoldersStep(option: string, before: seq<string>, init: seq<Artifact>, last: Artifact)
    requires |before| % 2 == 0
    requires forall k :: 0 <= k < |before| && k % 2 == 1 ==> JarFolder(init, before[k])
    ensures var r := before + JarRoot(option, last);
      forall k :: 0 <= k < |r| && k % 2 == 1 ==> JarFolder(init + [last], r[k])
  {
    var r := before + JarRoot(option, last);
    forall k | 0 <= k < |r| && k % 2 == 1
      ensures JarFolder(init + [last], r[k])
    {
      if k < |before| {
        assert r[k] == before[k];
        var jar :| jar in init && HasFolder(jar) && before[k] == Parent(PathOf(jar)) + "\\";
        assert jar in init + [last];
      } else {
        assert last in init + [last];
        assert k == |before| + 1;
        assert r[k] == Parent(PathOf(last)) + "\\";
      }
    }
  }

  /** The folder of every jar that has one is bound. */
  lemma {:induction false} JarRootArgsBindsAll(option: string, jars: seq<Artifact>)
    ensures forall jar :: jar in jars && HasFolder(jar) ==> Parent(PathOf(jar)) + "\\" in JarRootArgs(option, jars)
    decreases |jars|
  {
    if |jars| > 0 {
      var n := |jars| - 1;
      var init := jars[..n];
      var last := jars[n];
      JarRootArgsBindsAll(option, init);
      assert jars == init + [last];
      var before := JarRootArgs(option, init);
      var r := JarRootArgs(option, jars);
      assert r == before + JarRoot(option, last);
      forall jar | jar in jars && HasFolder(jar)
        ensures Parent(PathOf(jar)) + "\\" in r
      {
        if jar in init {
          assert Parent(PathOf(jar)) + "\\" in before;
        } else {
          assert jar == last;
          assert r[|before| + 1] == Parent(PathOf(jar)) + "\\";
        }
      }
    }
  }

  /** The nar unpack folder bound for both inputs, when it exists. */
  function NarBindArgs(cfg: PatchConfig, fs: FileSystem): (r: seq<string>)
    ensures r != [] <==> Exists(fs, cfg.narUnpackDirectory)
  {
    var nar := cfg.narUnpackDirectory + "\\";
    if Exists(fs, cfg.narUnpackDirectory) then ["-bt", nar, "-bu", nar] else []
  }

  /**
   * The bind folders of a pyro run: for wixpdb inputs the nar folder, the base artifact's
   * jar folders (-bt) and the patched artifact's (-bu); a dependency that cannot be
   * resolved fails the goal.
   */
  function PyroBinds(cfg: PatchConfig, b: PatchBuild, base: Artifact, latest: Artifact): Result<seq<string>, Failure>
  {
    if PatchPdb != base.artifactType then Ok([])
    else
      match JarDependencies(b, base)
      case Err(e) => Err(e)
      case Ok(baseJars) =>
        match JarDependencies(b, latest)
        case Err(e) => Err(e)
        case Ok(latestJars) => Ok(NarBindArgs(cfg, b.fs) + JarRootArgs("-bt", baseJars) + JarRootArgs("-bu", latestJars))
  }

  /**
   * The pyro command line: general options, cabinet reuse, pass-through properties, the
   * bind folders, the extensions, then the patch, the baseline's transform and the output.
   */
  function PyroArgs(cfg: PatchConfig, b: PatchBuild, arch: string, binds: seq<string>,
                    patchFile: string, intermediate: string, output: string): seq<string>
  {
    GeneralOptions(cfg.verbose) + PatchReuseCabArgs(cfg, arch) + Linker.OtherOptions(cfg.patchProperties) + binds
    + ExtensionArgs(ExtensionDependencies(b.artifacts))
    + [patchFile, "-t", cfg.baseline, intermediate, "-out", output]
  }

  /** The groups of the pyro command line in order, and the six file arguments at its end. */
  lemma PyroArgsLayout(cfg: PatchConfig, b: PatchBuild, arch: string, binds: seq<string>,
                       patchFile: string, intermediate: string, output: string)
    ensures var args := PyroArgs(cfg, b, arch, binds, patchFile, intermediate, output);
      var n := |GeneralOptions(cfg.verbose)|;
      var c := |PatchReuseCabArgs(cfg, arch)|;
      var o := |Linker.OtherOptions(cfg.patchProperties)|;
      && |args| == n + c + o + |binds| + |ExtensionArgs(ExtensionDependencies(b.artifacts))| + 6
      && args[..n] == GeneralOptions(cfg.verbose)
      && args[n..n + c] == PatchReuseCabArgs(cfg, arch)
      && args[n + c..n + c + o] == Linker.OtherOptions(cfg.patchProperties)
      && args[n + c + o..n + c + o + |binds|] == binds
      && args[|args| - 6..] == [patchFile, "-t", cfg.baseline, intermediate, "-out", output]
  {
    SixParts(GeneralOptions(cfg.verbose), PatchReuseCabArgs(cfg, arch), Linker.OtherOptions(cfg.patchProperties), binds,
             ExtensionArgs(ExtensionDependencies(b.artifacts)), [patchFile, "-t", cfg.baseline, intermediate, "-out", output]);
  }

  /** A pyro run; a non-zero exit fails with the return code but without the command line. */
  function PyroStep(call: Invocation): (r: Step)
    ensures r.Call? && r.call == call && r.name == "pyro" && !r.showsCommand
  {
    Call("pyro", false, call)
  }

  /** pyro's consumer: " : error " lines are errors, " : warning " lines warnings, stderr errors. */
  function PyroRating(verbose: bool, stdout: seq<string>, stderr: seq<string>): RatedOutput
  {
    RateRun(ErrorMarker, WarningMarker, verbose, stdout, stderr)
  }

  /**
   * A pyro run fails exactly when it cannot start or exits non-zero, then with the return
   * code; each stdout line is rated error before warning, each stderr line error.
   */
  lemma PyroOutcome(call: Invocation, tool: Tool, verbose: bool)
    ensures Perform([PyroStep(call)], tool).Completed? <==> tool(call).Exited? && tool(call).exitCode == 0
    ensures tool(call).Exited? && tool(call).exitCode != 0 ==>
      Perform([PyroStep(call)], tool) == Failed([Ran(call)], ToolFailed("pyro", tool(call).exitCode, None))
    ensures tool(call).LaunchError? ==> Perform([PyroStep(call)], tool) == Failed([Ran(call)], ToolLaunchFailed("pyro", None))
    ensures tool(call).Exited? ==>
      var r := PyroRating(verbose, tool(call).stdout, tool(call).stderr);
      && (forall i :: 0 <= i < |tool(call).stderr| ==> r.stderr[i] == Error)
      && (forall i :: 0 <= i < |tool(call).stdout| ==> (r.stdout[i] == Error <==> Contains(tool(call).stdout[i], ErrorMarker)))
  {
    if tool(call).Exited? {
      RateRunProperties(ErrorMarker, WarningMarker, verbose, tool(call).stdout, tool(call).stderr);
    }
  }

  // ---- one variant ----

  /** The two inputs of a variant, resolved, and their files, or the first failure on the way. */
  datatype Inputs = Inputs(base: Artifact, latest: Artifact, baseFile: string, latestFile: string)

  function VariantInputs(cfg: PatchConfig, b: PatchBuild, arch: string, culture: Option<string>): Result<Inputs, Failure>
  {
    var base := RelatedArtifact(b, cfg.baseItem, arch, culture);
    var latest := RelatedArtifact(b, cfg.patchedItem, arch, culture);
    if base.Err? then Err(base.error)
    else if latest.Err? then Err(latest.error)
    else
      var baseFile := RelatedArtifactFile(base.value);
      var latestFile := RelatedArtifactFile(latest.value);
      if baseFile.Err? then Err(baseFile.error)
      else if latestFile.Err? then Err(latestFile.error)
      else Ok(Inputs(base.value, latest.value, baseFile.value, latestFile.value))
  }

  /**
   * Inputs are found exactly when both variants resolve and are wixpdb files; then they
   * are the variants' files. Any other type fails as unsupported once it resolves.
   */
  lemma VariantInputsFound(cfg: PatchConfig, b: PatchBuild, arch: string, culture: Option<string>)
    ensures var r := VariantInputs(cfg, b, arch, culture);
      var classifier := VariantClassifier(arch, culture);
      var base := Lookup(b.fs, b.repo, cfg.baseItem, classifier);
      var latest := Lookup(b.fs, b.repo, cfg.patchedItem, classifier);
      && (r.Ok? <==> base.Ok? && latest.Ok? && cfg.baseItem.artifactType == PatchPdb && cfg.patchedItem.artifactType == PatchPdb)
      && (r.Ok? ==> base.value == {r.value.base} && latest.value == {r.value.latest}
                    && r.value.baseFile == PathOf(r.value.base) && r.value.latestFile == PathOf(r.value.latest))
      && (base.Ok? && latest.Ok? && cfg.baseItem.artifactType != PatchPdb ==> r == Err(ExecutionFailed(IncompleteMojo)))
  {
  }

  /**
   * pyro's part of a pass: the cabinet cache made when missing, then pyro, or the failure
   * to resolve a jar dependency; the folders made so far go on to the next pass.
   */
  function PyroPart(cfg: PatchConfig, b: PatchBuild, made: set<string>, arch: string, culture: Option<string>,
                    inputs: Inputs): (seq<Step>, set<string>)
  {
    var cab := PatchCabCache(cfg, arch);
    var mkCab := if cfg.reuseCabs then MakeIfMissing(b.fs, made, cab) else [];
    var made' := if cfg.reuseCabs then made + {cab} else made;
    var binds := PyroBinds(cfg, b, inputs.base, inputs.latest);
    if binds.Err? then (mkCab + [Throw(binds.error)], made')
    else
      var args := PyroArgs(cfg, b, arch, binds.value, b.output(arch, culture, PatchInputExtension),
                           IntermediateFile(cfg, arch, culture), b.output(arch, culture, cfg.packaged.packageOutputExtension));
      (mkCab + [PyroStep(Invocation(PyroExe(cfg), None, args))], made')
  }

  /** One pass of execute's inner loop: the type check, the inputs, torch, then pyro. */
  function VariantPass(cfg: PatchConfig, b: PatchBuild, torchExe: string, made: set<string>,
                       v: (string, Option<string>)): (seq<Step>, set<string>)
  {
    var arch := v.0;
    var culture := v.1;
    if cfg.baseItem.artifactType != cfg.patchedItem.artifactType then ([Throw(ExecutionFailed(TypeMismatch))], made)
    else
      var inputs := VariantInputs(cfg, b, arch, culture);
      if inputs.Err? then ([Throw(inputs.error)], made)
      else
        var torch := TorchStep(PatchTorchCall(cfg, b, torchExe, inputs.value.baseFile, inputs.value.latestFile,
                                              IntermediateFile(cfg, arch, culture)));
        var pyro := PyroPart(cfg, b, made, arch, culture, inputs.value);
        ([torch] + pyro.0, pyro.1)
  }

  function Passes(cfg: PatchConfig, b: PatchBuild, torchExe: string): (set<string>, (string, Option<string>)) -> (seq<Step>, set<string>)
  {
    (made: set<string>, v: (string, Option<string>)) => VariantPass(cfg, b, torchExe, made, v)
  }

  /**
   * execute: nothing when skipped; torch and then pyro must exist; then one pass per
   * platform and culture spec, platform by platform.
   */
  function PatchPlan(cfg: PatchConfig, b: PatchBuild, platforms: Option<set<string>>): seq<Step>
  {
    if cfg.skip then []
    else
      var torch := ValidateTool(b.fs, cfg.toolDirectory);
      if torch.Err? then [Throw(torch.error)]
      else if !Exists(b.fs, PyroExe(cfg)) then [Throw(MissingFile(PyroExe(cfg)))]
      else
        var variants := Cross(b.order(DefaultPlatforms(platforms)), b.cultureOrder(cfg.packaged.culturespecs));
        Fold({}, variants, Passes(cfg, b, torch.value)).0
  }

  // ---- properties ----

  /** Skipping does nothing; a missing torch, then a missing pyro, fails before anything runs. */
  lemma PatchGates(cfg: PatchConfig, b: PatchBuild, platforms: Option<set<string>>)
    ensures cfg.skip ==> PatchPlan(cfg, b, platforms) == []
    ensures !cfg.skip && !Exists(b.fs, ToolExecutable(cfg.toolDirectory, "torch.exe")) ==>
      PatchPlan(cfg, b, platforms) == [Throw(MissingFile(ToolExecutable(cfg.toolDirectory, "torch.exe")))]
    ensures !cfg.skip && Exists(b.fs, ToolExecutable(cfg.toolDirectory, "torch.exe")) && !Exists(b.fs, PyroExe(cfg)) ==>
      PatchPlan(cfg, b, platforms) == [Throw(MissingFile(ToolExecutable(cfg.toolDirectory, "pyro.exe")))]
  {
  }

  function IsMismatch(s: Step): bool
  {
    s == Throw(ExecutionFailed(TypeMismatch))
  }

  /**
   * Inputs of different types stop every pass before any lookup or tool run: the plan
   * holds nothing but the mismatch failure, and fails with it at once when it has a pass.
   */
  lemma MismatchStopsFirst(cfg: PatchConfig, b: PatchBuild, platforms: Option<set<string>>, tool: Tool)
    requires cfg.baseItem.artifactType != cfg.patchedItem.artifactType
    ensures AllSteps(PatchPlan(cfg, b, platforms), IsMismatch) || |PatchPlan(cfg, b, platforms)| == 1
    ensures Calls(PatchPlan(cfg, b, platforms)) == []
    ensures var plan := PatchPlan(cfg, b, platforms);
      !cfg.skip && Exists(b.fs, ToolExecutable(cfg.toolDirectory, "torch.exe")) && Exists(b.fs, PyroExe(cfg)) && plan != [] ==>
        Perform(plan, tool) == Failed([], ExecutionFailed(TypeMismatch))
  {
    var plan := PatchPlan(cfg, b, platforms);
    if !cfg.skip && Exists(b.fs, ToolExecutable(cfg.toolDirectory, "torch.exe")) && Exists(b.fs, PyroExe(cfg)) {
      var exe := ToolExecutable(cfg.toolDirectory, "torch.exe");
      var variants := Cross(b.order(DefaultPlatforms(platforms)), b.cultureOrder(cfg.packaged.culturespecs));
      assert forall st, x :: AllSteps(Passes(cfg, b, exe)(st, x).0, IsMismatch);
      FoldAllSteps({}, variants, Passes(cfg, b, exe), IsMismatch);
      assert AllSteps(plan, IsMismatch);
      assert forall k :: 0 <= k < |plan| ==> !IsCall(plan[k]);
      SelectNone(plan, IsCall);
      if plan != [] {
        assert plan == [plan[0]] + plan[1..];
        assert plan[0] == Throw(ExecutionFailed(TypeMismatch));
        PerformThrowFirst(plan, tool);
      }
    } else {
      assert |plan| <= 1;
      if plan != [] {
        assert plan == [plan[0]] && plan[0].Throw?;
        SelectSingle(plan[0], IsCall);
      }
    }
  }

  /** A plan whose first step throws fails with that failure, having done nothing. */
  lemma PerformThrowFirst(plan: seq<Step>, tool: Tool)
    requires plan != [] && plan[0].Throw?
    ensures Perform(plan, tool) == Failed([], plan[0].failure)
  {
  }

  /** A pass reaches pyro exactly when its inputs are found and their jar dependencies resolve. */
  predicate ReachesPyro(cfg: PatchConfig, b: PatchBuild, arch: string, culture: Option<string>)
  {
    var inputs := VariantInputs(cfg, b, arch, culture);
    cfg.baseItem.artifactType == cfg.patchedItem.artifactType && inputs.Ok?
    && PyroBinds(cfg, b, inputs.value.base, inputs.value.latest).Ok?
  }

  /** The torch call of a pass whose inputs are found. */
  function PassTorchCall(cfg: PatchConfig, b: PatchBuild, torchExe: string, arch: string, culture: Option<string>): Invocation
    requires VariantInputs(cfg, b, arch, culture).Ok?
  {
    var inputs := VariantInputs(cfg, b, arch, culture).value;
    PatchTorchCall(cfg, b, torchExe, inputs.baseFile, inputs.latestFile, IntermediateFile(cfg, arch, culture))
  }

  /** The pyro call of a pass that reaches pyro. */
  function PassPyroCall(cfg: PatchConfig, b: PatchBuild, arch: string, culture: Option<string>): Invocation
    requires ReachesPyro(cfg, b, arch, culture)
  {
    var inputs := VariantInputs(cfg, b, arch, culture).value;
    var binds := PyroBinds(cfg, b, inputs.base, inputs.latest).value;
    Invocation(PyroExe(cfg), None, PyroArgs(cfg, b, arch, binds, b.output(arch, culture, PatchInputExtension),
                                            IntermediateFile(cfg, arch, culture),
                                            b.output(arch, culture, cfg.packaged.packageOutputExtension)))
  }

  /** A pass that reaches pyro is torch, the cabinet-cache folder when cabinets are reused, and pyro. */
  lemma PassShape(cfg: PatchConfig, b: PatchBuild, torchExe: string, made: set<string>, arch: string,
                  culture: Option<string>)
    requires ReachesPyro(cfg, b, arch, culture)
    ensures VariantPass(cfg, b, torchExe, made, (arch, culture)).0
      == [TorchStep(PassTorchCall(cfg, b, torchExe, arch, culture))]
         + (if cfg.reuseCabs then MakeIfMissing(b.fs, made, PatchCabCache(cfg, arch)) else [])
         + [PyroStep(PassPyroCall(cfg, b, arch, culture))]
  {
    var inputs := VariantInputs(cfg, b, arch, culture).value;
    var mkCab := if cfg.reuseCabs then MakeIfMissing(b.fs, made, PatchCabCache(cfg, arch)) else [];
    var torch := TorchStep(PassTorchCall(cfg, b, torchExe, arch, culture));
    var pyro := PyroStep(PassPyroCall(cfg, b, arch, culture));
    assert PyroPart(cfg, b, made, arch, culture, inputs).0 == mkCab + [pyro];
    assert VariantPass(cfg, b, torchExe, made, (arch, culture)).0 == [torch] + (mkCab + [pyro]);
    AppendAssoc([torch], mkCab, [pyro]);
  }

  /** Torch writes the variant's transform. */
  lemma PassTorchWrites(cfg: PatchConfig, b: PatchBuild, torchExe: string, arch: string, culture: Option<string>)
    requires VariantInputs(cfg, b, arch, culture).Ok?
    ensures var args := PassTorchCall(cfg, b, torchExe, arch, culture).arguments;
      |args| >= 4 && args[|args| - 1] == IntermediateFile(cfg, arch, culture)
  {
    var inputs := VariantInputs(cfg, b, arch, culture).value;
    TorchCallWrites(cfg, b, torchExe, inputs.baseFile, inputs.latestFile, IntermediateFile(cfg, arch, culture));
  }

  /** Torch's last argument is the file it writes. */
  lemma TorchCallWrites(cfg: PatchConfig, b: PatchBuild, exe: string, baseFile: string, latestFile: string,
                        intermediate: string)
    ensures var args := PatchTorchCall(cfg, b, exe, baseFile, latestFile, intermediate).arguments;
      |args| >= 4 && args[|args| - 1] == intermediate
  {
    TorchArgsLayout(cfg.verbose, cfg.preserveUnmodified, PatchValidation(cfg.patchedItem.artifactType),
                    ExtensionDependencies(b.artifacts), baseFile, latestFile, intermediate);
  }

  /**
   * Pyro reads the light-made wixmsp of the variant and the transform torch wrote (the same
   * IntermediateFile that ends torch's arguments), under the configured baseline, and writes
   * the variant's package.
   */
  lemma PassPyroReads(cfg: PatchConfig, b: PatchBuild, arch: string, culture: Option<string>)
    requires ReachesPyro(cfg, b, arch, culture)
    ensures var args := PassPyroCall(cfg, b, arch, culture).arguments;
      && |args| >= 6
      && args[|args| - 6..] == [b.output(arch, culture, PatchInputExtension), "-t", cfg.baseline,
                               IntermediateFile(cfg, arch, culture), "-out",
                               b.output(arch, culture, cfg.packaged.packageOutputExtension)]
  {
    var inputs := VariantInputs(cfg, b, arch, culture).value;
    var binds := PyroBinds(cfg, b, inputs.base, inputs.latest).value;
    PyroArgsLayout(cfg, b, arch, binds, b.output(arch, culture, PatchInputExtension),
                   IntermediateFile(cfg, arch, culture), b.output(arch, culture, cfg.packaged.packageOutputExtension));
  }

  /**
   * Pyro always gets the wixpdb bind folders: a pass that reaches pyro has wixpdb inputs, so
   * the nar folder (when it exists) and every jar folder of both inputs are bound.
   */
  lemma PyroBindsPdbFolders(cfg: PatchConfig, b: PatchBuild, arch: string, culture: Option<string>)
    requires ReachesPyro(cfg, b, arch, culture)
    ensures var inputs := VariantInputs(cfg, b, arch, culture).value;
      var binds := PyroBinds(cfg, b, inputs.base, inputs.latest).value;
      && inputs.base.artifactType == PatchPdb
      && binds[..|NarBindArgs(cfg, b.fs)|] == NarBindArgs(cfg, b.fs)
      && (forall jar :: jar in b.dependencies(inputs.base).value && IsJar(jar) && HasFolder(jar) ==>
            Parent(PathOf(jar)) + "\\" in binds)
      && (forall jar :: jar in b.dependencies(inputs.latest).value && IsJar(jar) && HasFolder(jar) ==>
            Parent(PathOf(jar)) + "\\" in binds)
  {
    var inputs := VariantInputs(cfg, b, arch, culture).value;
    var baseJars := JarDependencies(b, inputs.base).value;
    var latestJars := JarDependencies(b, inputs.latest).value;
    var nar := NarBindArgs(cfg, b.fs);
    var bt := JarRootArgs("-bt", baseJars);
    var bu := JarRootArgs("-bu", latestJars);
    assert PyroBinds(cfg, b, inputs.base, inputs.latest).value == nar + bt + bu;
    assert (nar + bt + bu)[..|nar|] == nar;
    JarRootArgsBindsAll("-bt", baseJars);
    JarRootArgsBindsAll("-bu", latestJars);
    assert forall x :: x in bt ==> x in nar + bt + bu;
    assert forall x :: x in bu ==> x in nar + bt + bu;
  }

  // ---- the uber pyro ----

  /** One transform of the uber pyro: "-t", the baseline suffixed with the culture ('-' made '_'), the file. */
  function UberTransform(baseline: string, entry: (string, string)): seq<string>
  {
    ["-t", baseline + "_" + ReplaceChar(entry.0, '-', '_'), entry.1]
  }

  function UberTransformOf(baseline: string): ((string, string)) -> seq<string>
  {
    (entry: (string, string)) => UberTransform(baseline, entry)
  }

  /**
   * The uber pyro command line: general options, the extensions, the patch, one transform
   * per entry of the culture-to-file map (in its iteration order), then "-out" and the output.
   */
  function UberPyroArgs(verbose: bool, extensions: seq<Artifact>, patchFile: string, baseline: string,
                        entries: seq<(string, string)>, output: string): seq<string>
  {
    GeneralOptions(verbose) + ExtensionArgs(extensions) + [patchFile] + FlatMap(entries, UberTransformOf(baseline))
    + ["-out", output]
  }

  /** Each entry's transform takes three arguments of their own, in the entries' order. */
  lemma {:induction false} UberTransforms(baseline: string, entries: seq<(string, string)>)
    ensures var r := FlatMap(entries, UberTransformOf(baseline));
      && |r| == 3 * |entries|
      && forall i :: 0 <= i < |entries| ==>
           r[3 * i] == "-t" && r[3 * i + 1] == baseline + "_" + ReplaceChar(entries[i].0, '-', '_')
           && r[3 * i + 2] == entries[i].1
    decreases |entries|
  {
    if |entries| > 0 {
      var n := |entries| - 1;
      UberTransforms(baseline, entries[..n]);
      assert entries == entries[..n] + [entries[n]];
      var before := FlatMap(entries[..n], UberTransformOf(baseline));
      assert FlatMap(entries, UberTransformOf(baseline)) == before + UberTransform(baseline, entries[n]);
    }
  }

  /** Entry i's transform is the three arguments from 3 * i on. */
  lemma UberTransformAt(baseline: string, entries: seq<(string, string)>, i: nat)
    requires i < |entries|
    ensures var r := FlatMap(entries, UberTransformOf(baseline));
      |r| == 3 * |entries| && r[3 * i..3 * i + 3] == UberTransform(baseline, entries[i])
  {
    var r := FlatMap(entries, UberTransformOf(baseline));
    UberTransforms(baseline, entries);
    assert r[3 * i..3 * i + 3] == [r[3 * i], r[3 * i + 1], r[3 * i + 2]];
  }

  /** A baseline id never holds '-' when the baseline does not: the culture's '-' become '_'. */
  lemma UberIdHasNoDash(baseline: string, culture: string)
    requires '-' !in baseline
    ensures '-' !in baseline + "_" + ReplaceChar(culture, '-', '_')
  {
    var id := baseline + "_" + ReplaceChar(culture, '-', '_');
    forall k | 0 <= k < |id|
      ensures id[k] != '-'
    {
      if k < |baseline| {
        assert id[k] == baseline[k];
      } else if k > |baseline| {
        assert id[k] == ReplaceChar(culture, '-', '_')[k - |baseline| - 1];
      }
    }
  }

  /** The uber pyro's transforms sit after the patch file, three per entry, before "-out". */
  lemma UberPyroLayout(verbose: bool, extensions: seq<Artifact>, patchFile: string, baseline: string,
                       entries: seq<(string, string)>, output: string, i: nat)
    requires i < |entries|
    ensures var args := UberPyroArgs(verbose, extensions, patchFile, baseline, entries, output);
      var at := |GeneralOptions(verbose)| + |ExtensionArgs(extensions)| + 1;
      && |args| == at + 3 * |entries| + 2
      && args[at - 1] == patchFile
      && args[at + 3 * i..at + 3 * i + 3] == ["-t", baseline + "_" + ReplaceChar(entries[i].0, '-', '_'), entries[i].1]
      && args[|args| - 2..] == ["-out", output]
  {
    UberTransformAt(baseline, entries, i);
    UberParts(GeneralOptions(verbose), ExtensionArgs(extensions), patchFile, FlatMap(entries, UberTransformOf(baseline)),
              output, 3 * i);
  }

  /** The uber pyro's arguments hold the patch, entry i's transform id and file, and end with the output. */
  lemma UberPyroHas(verbose: bool, extensions: seq<Artifact>, patchFile: string, baseline: string,
                    entries: seq<(string, string)>, output: string, i: nat)
    requires i < |entries|
    ensures var args := UberPyroArgs(verbose, extensions, patchFile, baseline, entries, output);
      && patchFile in args
      && baseline + "_" + ReplaceChar(entries[i].0, '-', '_') in args
      && entries[i].1 in args
      && args[|args| - 2..] == ["-out", output]
  {
    UberPyroLayout(verbose, extensions, patchFile, baseline, entries, output, i);
    var args := UberPyroArgs(verbose, extensions, patchFile, baseline, entries, output);
    var at := |GeneralOptions(verbose)| + |ExtensionArgs(extensions)| + 1;
    SliceMembers(args, at - 1, [patchFile]);
    SliceMembers(args, at + 3 * i, ["-t", baseline + "_" + ReplaceChar(entries[i].0, '-', '_'), entries[i].1]);
  }

  /** The uber pyro's layout for any option lists and transforms. */
  lemma UberParts(g: seq<string>, e: seq<string>, patchFile: string, ts: seq<string>, output: string, k: nat)
    requires k + 3 <= |ts|
    ensures var s := g + e + [patchFile] + ts + ["-out", output];
      var at := |g| + |e| + 1;
      && |s| == at + |ts| + 2
      && s[at - 1] == patchFile
      && s[at + k..at + k + 3] == ts[k..k + 3]
      && s[|s| - 2..] == ["-out", output]
  {
    var head := g + e + [patchFile];
    ThreeParts(head, ts, ["-out", output], k, k + 3);
    assert (head + ts + ["-out", output])[|head| - 1] == head[|head| - 1];
  }

  /** The uber pyro's loop over the transform map. */
  method UberPyroCommand(exe: string, verbose: bool, extensions: seq<Artifact>, patchFile: string, baseline: string,
                         entries: seq<(string, string)>, output: string) returns (cl: CommandLine)
    ensures fresh(cl)
    ensures cl.executable == exe && cl.workingDirectory == None
    ensures cl.arguments == UberPyroArgs(verbose, extensions, patchFile, baseline, entries, output)
  {
    cl := new CommandLine(exe);
    AddToolsetGeneralOptions(cl, verbose);
    AddWixExtensions(cl, extensions);
    cl.AddArguments([patchFile]);
    ghost var head := cl.arguments;
    var i := 0;
    while i < |entries|
      invariant 0 <= i <= |entries|
      invariant cl.executable == exe && cl.workingDirectory == None
      invariant cl.arguments == head + FlatMap(entries[..i], UberTransformOf(baseline))
    {
      FlatMapGrows(entries, UberTransformOf(baseline), i);
      AppendAssoc(head, FlatMap(entries[..i], UberTransformOf(baseline)), UberTransform(baseline, entries[i]));
      var key := entries[i].0;
      cl.AddArguments(["-t", baseline + "_" + ReplaceChar(key, '-', '_'), entries[i].1]);
      i := i + 1;
    }
    assert entries[..i] == entries;
    cl.AddArguments(["-out", output]);
    assert head == GeneralOptions(verbose) + ExtensionArgs(extensions) + [patchFile];
  }

  // ---- the goal as methods ----

  /** addReuseCabOptions: the switches, and the cache folder made when it is missing. */
  method AddReuseCabOptions(cl: CommandLine, cfg: PatchConfig, fs: FileSystem, made: set<string>, arch: string)
    returns (steps: seq<Step>, made': set<string>)
    modifies cl
    ensures cl.arguments == old(cl.arguments) + PatchReuseCabArgs(cfg, arch)
    ensures cl.executable == old(cl.executable) && cl.workingDirectory == old(cl.workingDirectory)
    ensures steps == (if cfg.reuseCabs then MakeIfMissing(fs, made, PatchCabCache(cfg, arch)) else [])
    ensures made' == if cfg.reuseCabs then made + {PatchCabCache(cfg, arch)} else made
  {
    steps := [];
    made' := made;
    if cfg.reuseCabs {
      var cab := Child(cfg.cabCacheDirectory, arch);
      cl.AddArguments(["-reusecab", "-cc", cab + "\\"]);
      if !Present(fs, made, cab) {
        steps := [Do(CreateDirectories(cab))];
      }
      made' := made + {cab};
    }
  }

  /** addJARSourceRoots: the loop over the jars, binding each one's folder. */
  method AddJarSourceRoots(cl: CommandLine, option: string, jars: seq<Artifact>)
    modifies cl
    ensures cl.arguments == old(cl.arguments) + JarRootArgs(option, jars)
    ensures cl.executable == old(cl.executable) && cl.workingDirectory == old(cl.workingDirectory)
  {
    var i := 0;
    while i < |jars|
      invariant 0 <= i <= |jars|
      invariant cl.arguments == old(cl.arguments) + JarRootArgs(option, jars[..i])
      invariant cl.executable == old(cl.executable) && cl.workingDirectory == old(cl.workingDirectory)
    {
      FlatMapGrows(jars, JarRootOf(option), i);
      var path := PathOf(jars[i]);
      if Separator in path {
        cl.AddArguments([option, Parent(path) + "\\"]);
      }
      i := i + 1;
    }
    assert jars[..i] == jars;
  }

  /** The wixpdb part of the single pyro: the nar folder, then each input's jar folders. */
  method AddPdbBinds(cl: CommandLine, cfg: PatchConfig, b: PatchBuild, base: Artifact, latest: Artifact)
    returns (failure: Option<Failure>)
    modifies cl
    ensures var binds := PyroBinds(cfg, b, base, latest);
      && (failure.None? <==> binds.Ok?)
      && (failure.Some? ==> failure.value == binds.error)
      && (binds.Ok? ==> cl.arguments == old(cl.arguments) + binds.value)
    ensures cl.executable == old(cl.executable) && cl.workingDirectory == old(cl.workingDirectory)
  {
    failure := None;
    if PatchPdb == base.artifactType {
      if Exists(b.fs, cfg.narUnpackDirectory) {
        cl.AddArguments(["-bt", cfg.narUnpackDirectory + "\\"]);
        cl.AddArguments(["-bu", cfg.narUnpackDirectory + "\\"]);
      }
      ghost var withNar := cl.arguments;
      assert withNar == old(cl.arguments) + NarBindArgs(cfg, b.fs);
      var baseJars := JarDependencies(b, base);
      if baseJars.Err? {
        return Some(baseJars.error);
      }
      AddJarSourceRoots(cl, "-bt", baseJars.value);
      var latestJars := JarDependencies(b, latest);
      if latestJars.Err? {
        return Some(latestJars.error);
      }
      AddJarSourceRoots(cl, "-bu", latestJars.value);
      AppendAssoc(old(cl.arguments), NarBindArgs(cfg, b.fs), JarRootArgs("-bt", baseJars.value));
      AppendAssoc(old(cl.arguments), NarBindArgs(cfg, b.fs) + JarRootArgs("-bt", baseJars.value),
                  JarRootArgs("-bu", latestJars.value));
    }
  }

  /**
   * The single pyro: the command line built switch by switch (making the cabinet cache on
   * the way), then run unless a jar dependency could not be resolved.
   */
  method Pyro(cfg: PatchConfig, b: PatchBuild, made: set<string>, arch: string, culture: Option<string>, inputs: Inputs)
    returns (steps: seq<Step>, made': set<string>)
    ensures (steps, made') == PyroPart(cfg, b, made, arch, culture, inputs)
  {
    var patchFile := b.output(arch, culture, PatchInputExtension);
    var intermediate := Output(cfg.basedir, Some(cfg.intDirectory), arch, PrimaryCulture(culture), cfg.finalName,
                               IntermediateExtension);
    var output := b.output(arch, culture, cfg.packaged.packageOutputExtension);
    var cl := new CommandLine(ToolExecutable(cfg.toolDirectory, "pyro.exe"));
    AddToolsetGeneralOptions(cl, cfg.verbose);
    var mkCab;
    mkCab, made' := AddReuseCabOptions(cl, cfg, b.fs, made, arch);
    Linker.AddOtherOptions(cl, cfg.patchProperties);
    assert cl.arguments == GeneralOptions(cfg.verbose) + PatchReuseCabArgs(cfg, arch) + Linker.OtherOptions(cfg.patchProperties);
    var failure := AddPyroInputs(cl, cfg, b, inputs, patchFile, intermediate, output);
    if failure.Some? {
      return mkCab + [Throw(failure.value)], made';
    }
    steps := mkCab + [PyroStep(cl.Snapshot())];
  }

  /** The bind folders of both inputs, the extensions and the six file arguments, unless a jar dependency cannot be resolved. */
  method AddPyroInputs(cl: CommandLine, cfg: PatchConfig, b: PatchBuild, inputs: Inputs,
                       patchFile: string, intermediate: string, output: string)
    returns (failure: Option<Failure>)
    modifies cl
    ensures var binds := PyroBinds(cfg, b, inputs.base, inputs.latest);
      && (failure.None? <==> binds.Ok?)
      && (failure.Some? ==> failure.value == binds.error)
      && (binds.Ok? ==> cl.arguments == old(cl.arguments) + binds.value + ExtensionArgs(ExtensionDependencies(b.artifacts))
                                        + [patchFile, "-t", cfg.baseline, intermediate, "-out", output])
    ensures cl.executable == old(cl.executable) && cl.workingDirectory == old(cl.workingDirectory)
  {
    failure := AddPdbBinds(cl, cfg, b, inputs.base, inputs.latest);
    if failure.None? {
      AddWixExtensions(cl, ExtensionDependencies(b.artifacts));
      cl.AddArguments([patchFile, "-t", cfg.baseline, intermediate, "-out", output]);
    }
  }

  /** The lookups of one variant, in the order execute makes them. */
  method ResolveInputs(cfg: PatchConfig, b: PatchBuild, arch: string, culture: Option<string>)
    returns (r: Result<Inputs, Failure>)
    ensures r == VariantInputs(cfg, b, arch, culture)
  {
    var base := RelatedArtifact(b, cfg.baseItem, arch, culture);
    if base.Err? {
      return Err(base.error);
    }
    var latest := RelatedArtifact(b, cfg.patchedItem, arch, culture);
    if latest.Err? {
      return Err(latest.error);
    }
    var baseFile := RelatedArtifactFile(base.value);
    if baseFile.Err? {
      return Err(baseFile.error);
    }
    var latestFile := RelatedArtifactFile(latest.value);
    if latestFile.Err? {
      return Err(latestFile.error);
    }
    return Ok(Inputs(base.value, latest.value, baseFile.value, latestFile.value));
  }

  /** One pass of the inner loop: the type check, the inputs, torch, then pyro. */
  method PatchVariant(cfg: PatchConfig, b: PatchBuild, torchExe: string, made: set<string>, arch: string,
                      culture: Option<string>) returns (steps: seq<Step>, made': set<string>)
    ensures (steps, made') == VariantPass(cfg, b, torchExe, made, (arch, culture))
  {
    if cfg.baseItem.artifactType != cfg.patchedItem.artifactType {
      return [Throw(ExecutionFailed(TypeMismatch))], made;
    }
    var inputs := ResolveInputs(cfg, b, arch, culture);
    if inputs.Err? {
      return [Throw(inputs.error)], made;
    }
    var intermediate := Output(cfg.basedir, Some(cfg.intDirectory), arch, PrimaryCulture(culture), cfg.finalName,
                               IntermediateExtension);
    var torchCl := TorchCommand(torchExe, cfg.verbose, cfg.preserveUnmodified, PatchValidation(cfg.patchedItem.artifactType),
                                ExtensionDependencies(b.artifacts), inputs.value.baseFile,
                                inputs.value.latestFile, intermediate);
    var torch := TorchStep(torchCl.Snapshot());
    var pyro;
    pyro, made' := Pyro(cfg, b, made, arch, culture, inputs.value);
    steps := [torch] + pyro;
  }

  /** The inner loop of execute: the culture specs of one platform. */
  method PatchCultures(cfg: PatchConfig, b: PatchBuild, torchExe: string, made: set<string>, arch: string,
                       cultures: seq<Option<string>>) returns (steps: seq<Step>, made': set<string>)
    ensures (steps, made') == Fold(made, Row(arch, cultures), Passes(cfg, b, torchExe))
  {
    steps, made' := [], made;
    var j := 0;
    while j < |cultures|
      invariant 0 <= j <= |cultures|
      invariant (steps, made') == Fold(made, Row(arch, cultures[..j]), Passes(cfg, b, torchExe))
    {
      RowGrows(arch, cultures, j);
      FoldSnoc(made, Row(arch, cultures[..j]), (arch, cultures[j]), Passes(cfg, b, torchExe));
      var more, m := PatchVariant(cfg, b, torchExe, made', arch, cultures[j]);
      steps, made' := steps + more, m;
      j := j + 1;
    }
    assert cultures[..j] == cultures;
  }

  /** execute: the checks in order, then the loop over platforms and, inside, culture specs. */
  method PatchExecute(cfg: PatchConfig, b: PatchBuild, setting: PlatformSetting) returns (plan: seq<Step>)
    modifies setting
    ensures plan == PatchPlan(cfg, b, old(setting.platforms))
  {
    if cfg.skip {
      return [];
    }
    var torch := ValidateTool(b.fs, cfg.toolDirectory);
    if torch.Err? {
      return [Throw(torch.error)];
    }
    var pyroExe := ToolExecutable(cfg.toolDirectory, "pyro.exe");
    if !Exists(b.fs, pyroExe) {
      return [Throw(MissingFile(pyroExe))];
    }
    var platforms := setting.GetPlatforms();
    var archs := b.order(platforms);
    var cultures := b.cultureOrder(cfg.packaged.culturespecs);
    plan := [];
    var made: set<string> := {};
    var i := 0;
    while i < |archs|
      invariant 0 <= i <= |archs|
      invariant Fold({}, Cross(archs[..i], cultures), Passes(cfg, b, torch.value)) == (plan, made)
    {
      CrossGrows(archs, cultures, i);
      FoldConcat({}, Cross(archs[..i], cultures), Row(archs[i], cultures), Passes(cfg, b, torch.value));
      var steps;
      steps, made := PatchCultures(cfg, b, torch.value, made, archs[i], cultures);
      plan := plan + steps;
      i := i + 1;
    }
    assert archs[..i] == archs;
  }
}
