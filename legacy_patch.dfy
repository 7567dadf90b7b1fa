// The older net.sf.wix PatchMojo. For each platform, torch diffs the base and the patched
// build of every culture spec into a wixmst; then one pyro per platform applies all of
// them, each under the baseline id suffixed with its culture spec, to the wixmsp light
// made for the base culture spec.
module LegacyPatch {
  import opened Wrappers
  import opened Files
  import opened Seqs
  import opened ArtifactLookup
  import opened Runtime
  import opened WixMojo
  import opened Plans
  import opened Torch
  import opened JavaText
  import opened LegacyWixMojo
  import Patch

  const NullKey := ExecutionFailed("NullPointerException")

  datatype LegacyPatchConfig = LegacyPatchConfig(
    skip: bool,
    verbose: bool,
    preserveUnmodified: bool,
    toolDirectory: string,
    intDirectory: string,
    finalName: string,
    baseline: string,
    baseItem: Artifact,
    patchedItem: Artifact,
    culturespecs: set<Option<string>>,
    baseCulturespec: Option<string>)

  /**
   * The world as the goal sees it: files, the repositories, the extension dependencies,
   * the iteration orders of the platform and culture-spec sets and of a HashMap's entries,
   * and the three-argument getOutput.
   */
  datatype LegacyPatchBuild = LegacyPatchBuild(
    fs: FileSystem,
    repo: Repository,
    artifacts: seq<Artifact>,
    order: set<string> -> seq<string>,
    cultureOrder: set<Option<string>> -> seq<Option<string>>,
    entries: map<Option<string>, string> -> seq<(Option<string>, string)>,
    output: (string, Option<string>, string) -> string)

  /** A HashMap's entry set lists every entry of the map once. */
  ghost predicate IsEntryOrder(entries: map<Option<string>, string> -> seq<(Option<string>, string)>)
  {
    forall m :: Lists(entries(m), m.Items)
  }

  // ---- the inputs of a variant ----

  /** The classifier asked for: <arch>-<culture spec>, or <arch>-neutral without one. */
  function LegacyClassifier(arch: string, culture: Option<string>): string
  {
    arch + "-" + (if culture.None? then "neutral" else culture.value)
  }

  /**
   * The whole culture spec is the classifier; the current class uses only its primary
   * culture, so the two agree on specs of a single culture.
   */
  lemma LegacyClassifierAgrees(arch: string, culture: Option<string>)
    ensures culture.None? || ';' !in culture.value ==> LegacyClassifier(arch, culture) == VariantClassifier(arch, culture)
    ensures culture.Some? ==> LegacyClassifier(arch, culture) == arch + "-" + culture.value
  {
    VariantClassifierShape(arch, culture);
  }

  /**
   * getRelatedArtifacts' lookup: the item's variant looked up into a fresh set, which then
   * holds exactly one artifact, so the size check never fails.
   */
  function LegacyRelatedArtifact(b: LegacyPatchBuild, item: Artifact, arch: string, culture: Option<string>)
    : (r: Result<Artifact, Failure>)
    ensures var found := Lookup(b.fs, b.repo, item, LegacyClassifier(arch, culture));
      && (r.Ok? <==> found.Ok?)
      && (r.Ok? ==> found.value == {r.value})
      && (r.Err? ==> r == Err(found.error))
    ensures r.Ok? ==>
      && r.value.groupId == item.groupId && r.value.artifactId == item.artifactId
      && r.value.artifactType == item.artifactType && r.value.classifier == Some(LegacyClassifier(arch, culture))
  {
    var classifier := LegacyClassifier(arch, culture);
    var found := GetArtifact(b.fs, b.repo, item.groupId, item.artifactId, item.artifactType, {}, item.version, classifier);
    GetArtifactAddsRequested(b.fs, b.repo, item.groupId, item.artifactId, item.artifactType, {}, item.version, classifier);
    if found.Err? then Err(found.error)
    else if |found.value| != 1 then Err(ResolutionFailed("Found multiple artifacts for : " + item.groupId + ":" + item.artifactId))
    else
      var a := Patch.TheOnly(found.value);
      assert a in found.value - {};
      Ok(a)
  }

  /** getRelatedArtifacts: the variant's file when the item is a wixpdb; any other type is not supported. */
  function LegacyRelatedFile(b: LegacyPatchBuild, item: Artifact, arch: string, culture: Option<string>)
    : (r: Result<string, Failure>)
    ensures var found := Lookup(b.fs, b.repo, item, LegacyClassifier(arch, culture));
      && (r.Ok? <==> found.Ok? && item.artifactType == Patch.PatchPdb)
      && (found.Err? ==> r == Err(found.error))
      && (found.Ok? && item.artifactType != Patch.PatchPdb ==> r == Err(ExecutionFailed(Patch.IncompleteMojo)))
    ensures r.Ok? ==> exists a :: a in Lookup(b.fs, b.repo, item, LegacyClassifier(arch, culture)).value && r.value == PathOf(a)
  {
    var a := LegacyRelatedArtifact(b, item, arch, culture);
    if a.Err? then Err(a.error)
    else if Patch.PatchPdb == item.artifactType then Ok(PathOf(a.value))
    else Err(ExecutionFailed(Patch.IncompleteMojo))
  }

  /** A pass of the culture loop reaches torch: same input types and both files found. */
  predicate PassFinds(cfg: LegacyPatchConfig, b: LegacyPatchBuild, arch: string, culture: Option<string>)
  {
    && cfg.baseItem.artifactType == cfg.patchedItem.artifactType
    && LegacyRelatedFile(b, cfg.baseItem, arch, culture).Ok?
    && LegacyRelatedFile(b, cfg.patchedItem, arch, culture).Ok?
  }

  // ---- torch ----

  /** The wixmst of a variant: getOutput under the intermediate folder, with the whole culture spec. */
  function LegacyIntermediate(cfg: LegacyPatchConfig, arch: string, culture: Option<string>): string
  {
    LegacyOutput(Some(cfg.intDirectory), arch, culture, cfg.finalName, Patch.IntermediateExtension)
  }

  /** The intermediate file spelled out: <intDirectory>\<arch>[\<culture spec>]\<finalName>.wixmst. */
  lemma LegacyIntermediateLayout(cfg: LegacyPatchConfig, arch: string, culture: Option<string>)
    ensures LegacyIntermediate(cfg, arch, culture) ==
      cfg.intDirectory + "\\" + arch + (if culture.Some? then "\\" + culture.value else "") + "\\" + cfg.finalName + ".wixmst"
  {
    LegacyOutputLayout("", Some(cfg.intDirectory), arch, culture, cfg.finalName, Patch.IntermediateExtension);
  }

  /** torch for a variant whose inputs are found. */
  function LegacyTorchCall(cfg: LegacyPatchConfig, b: LegacyPatchBuild, torchExe: string, arch: string,
                           culture: Option<string>): Invocation
    requires PassFinds(cfg, b, arch, culture)
  {
    Invocation(torchExe, None,
      TorchArgs(cfg.verbose, cfg.preserveUnmodified, Patch.PatchValidation(cfg.patchedItem.artifactType),
                ExtensionDependencies(b.artifacts),
                LegacyRelatedFile(b, cfg.baseItem, arch, culture).value,
                LegacyRelatedFile(b, cfg.patchedItem, arch, culture).value,
                LegacyIntermediate(cfg, arch, culture)))
  }

  /**
   * One pass of the culture loop: the type check, the base then the patched input, then
   * torch; the first failure is thrown instead.
   */
  function CulturePass(cfg: LegacyPatchConfig, b: LegacyPatchBuild, torchExe: string, arch: string,
                       culture: Option<string>): (r: seq<Step>)
    ensures |r| == 1
    ensures r[0].Call? <==> PassFinds(cfg, b, arch, culture)
    ensures PassFinds(cfg, b, arch, culture) ==> r == [TorchStep(LegacyTorchCall(cfg, b, torchExe, arch, culture))]
    ensures cfg.baseItem.artifactType != cfg.patchedItem.artifactType ==> r == [Throw(ExecutionFailed(Patch.TypeMismatch))]
  {
    if cfg.baseItem.artifactType != cfg.patchedItem.artifactType then [Throw(ExecutionFailed(Patch.TypeMismatch))]
    else
      var baseFile := LegacyRelatedFile(b, cfg.baseItem, arch, culture);
      if baseFile.Err? then [Throw(baseFile.error)]
      else
        var latestFile := LegacyRelatedFile(b, cfg.patchedItem, arch, culture);
        if latestFile.Err? then [Throw(latestFile.error)]
        else
          [TorchStep(Invocation(torchExe, None,
            TorchArgs(cfg.verbose, cfg.preserveUnmodified, Patch.PatchValidation(cfg.patchedItem.artifactType),
                      ExtensionDependencies(b.artifacts), baseFile.value, latestFile.value,
                      LegacyIntermediate(cfg, arch, culture))))]
  }

  function CulturePassOf(cfg: LegacyPatchConfig, b: LegacyPatchBuild, torchExe: string, arch: string)
    : Option<string> -> seq<Step>
  {
    (culture: Option<string>) => CulturePass(cfg, b, torchExe, arch, culture)
  }

  /** Torch writes the variant's transform, diffing the base file against the patched one. */
  lemma LegacyTorchWrites(cfg: LegacyPatchConfig, b: LegacyPatchBuild, torchExe: string, arch: string,
                          culture: Option<string>)
    requires PassFinds(cfg, b, arch, culture)
    ensures var args := LegacyTorchCall(cfg, b, torchExe, arch, culture).arguments;
      && |args| >= 4
      && args[|args| - 4..] == [LegacyRelatedFile(b, cfg.baseItem, arch, culture).value,
                               LegacyRelatedFile(b, cfg.patchedItem, arch, culture).value,
                               "-out", LegacyIntermediate(cfg, arch, culture)]
  {
    TorchArgsLayout(cfg.verbose, cfg.preserveUnmodified, Patch.PatchValidation(cfg.patchedItem.artifactType),
                    ExtensionDependencies(b.artifacts), LegacyRelatedFile(b, cfg.baseItem, arch, culture).value,
                    LegacyRelatedFile(b, cfg.patchedItem, arch, culture).value, LegacyIntermediate(cfg, arch, culture));
  }

  /** The map the culture loop fills: each culture spec whose pass reaches torch, to the transform it writes. */
  function TransformFiles(cfg: LegacyPatchConfig, b: LegacyPatchBuild, arch: string, cultures: seq<Option<string>>)
    : map<Option<string>, string>
  {
    map c | c in cultures && PassFinds(cfg, b, arch, c) :: LegacyIntermediate(cfg, arch, c)
  }

  /** A put for each pass that reaches torch, in order. */
  lemma TransformFilesGrows(cfg: LegacyPatchConfig, b: LegacyPatchBuild, arch: string, cultures: seq<Option<string>>, j: nat)
    requires j < |cultures|
    ensures TransformFiles(cfg, b, arch, cultures[..j + 1]) ==
      if PassFinds(cfg, b, arch, cultures[j]) then
        TransformFiles(cfg, b, arch, cultures[..j])[cultures[j] := LegacyIntermediate(cfg, arch, cultures[j])]
      else TransformFiles(cfg, b, arch, cultures[..j])
  {
    assert cultures[..j + 1] == cultures[..j] + [cultures[j]];
  }

  /**
   * When every pass reaches torch, the map holds exactly the culture specs, each with the
   * transform torch wrote for it.
   */
  lemma TransformFilesComplete(cfg: LegacyPatchConfig, b: LegacyPatchBuild, arch: string)
    requires IsIterationOrder(b.cultureOrder)
    requires forall c :: c in cfg.culturespecs ==> PassFinds(cfg, b, arch, c)
    ensures var files := TransformFiles(cfg, b, arch, b.cultureOrder(cfg.culturespecs));
      && files.Keys == cfg.culturespecs
      && forall c :: c in files ==> files[c] == LegacyIntermediate(cfg, arch, c)
  {
    var cultures := b.cultureOrder(cfg.culturespecs);
    assert Lists(cultures, cfg.culturespecs);
    assert forall c :: c in cultures <==> c in Elements(cultures);
  }

  // ---- the one pyro of a platform ----

  function PyroExe(cfg: LegacyPatchConfig): string
  {
    ToolExecutable(cfg.toolDirectory, "pyro.exe")
  }

  /** True when an entry of the map has no culture spec as its key. */
  predicate HasNullKey(es: seq<(Option<string>, string)>)
  {
    exists i :: 0 <= i < |es| && es[i].0.None?
  }

  /** The entries with their culture spec keys as text. */
  function Named(es: seq<(Option<string>, string)>): (r: seq<(string, string)>)
    requires !HasNullKey(es)
    ensures |r| == |es|
    ensures forall i :: 0 <= i < |es| ==> es[i].0 == Some(r[i].0) && r[i].1 == es[i].1
  {
    seq(|es|, i requires 0 <= i < |es| => (es[i].0.value, es[i].1))
  }

  /** The patch pyro reads and the package it writes: the base culture spec's wixmsp and msp. */
  function PatchFile(cfg: LegacyPatchConfig, b: LegacyPatchBuild, arch: string): string
  {
    b.output(arch, cfg.baseCulturespec, Patch.PatchInputExtension)
  }

  function PatchOutput(cfg: LegacyPatchConfig, b: LegacyPatchBuild, arch: string): string
  {
    b.output(arch, cfg.baseCulturespec, PackPatch)
  }

  /**
   * pyro with a map of transforms: general options, the extensions, the patch, then per
   * entry "-t", the baseline id with its culture spec and the transform, then the output;
   * a null culture spec among the keys fails before pyro runs.
   */
  function ArchPyro(cfg: LegacyPatchConfig, b: LegacyPatchBuild, arch: string, files: map<Option<string>, string>)
    : seq<Step>
  {
    var es := b.entries(files);
    if HasNullKey(es) then [Throw(NullKey)]
    else
      [Patch.PyroStep(Invocation(PyroExe(cfg), None,
        Patch.UberPyroArgs(cfg.verbose, ExtensionDependencies(b.artifacts), PatchFile(cfg, b, arch), cfg.baseline,
                           Named(es), PatchOutput(cfg, b, arch))))]
  }

  /** One platform: the culture loop of torch runs, then the platform's pyro over their transforms. */
  function ArchPlan(cfg: LegacyPatchConfig, b: LegacyPatchBuild, torchExe: string, arch: string): seq<Step>
  {
    var cultures := b.cultureOrder(cfg.culturespecs);
    FlatMap(cultures, CulturePassOf(cfg, b, torchExe, arch)) + ArchPyro(cfg, b, arch, TransformFiles(cfg, b, arch, cultures))
  }

  function ArchPlanOf(cfg: LegacyPatchConfig, b: LegacyPatchBuild, torchExe: string): string -> seq<Step>
  {
    (arch: string) => ArchPlan(cfg, b, torchExe, arch)
  }

  /** execute: nothing when skipped; torch and then pyro must exist; then each platform in turn. */
  function LegacyPatchPlan(cfg: LegacyPatchConfig, b: LegacyPatchBuild, platforms: Option<set<string>>): seq<Step>
  {
    if cfg.skip then []
    else
      var torch := ValidateTool(b.fs, cfg.toolDirectory);
      if torch.Err? then [Throw(torch.error)]
      else if !Exists(b.fs, PyroExe(cfg)) then [Throw(MissingFile(PyroExe(cfg)))]
      else FlatMap(b.order(DefaultPlatforms(platforms)), ArchPlanOf(cfg, b, torch.value))
  }

  // ---- properties ----

  /** Skipping does nothing; a missing torch, then a missing pyro, fails before anything runs. */
  lemma LegacyPatchGates(cfg: LegacyPatchConfig, b: LegacyPatchBuild, platforms: Option<set<string>>)
    ensures cfg.skip ==> LegacyPatchPlan(cfg, b, platforms) == []
    ensures !cfg.skip && !Exists(b.fs, ToolExecutable(cfg.toolDirectory, "torch.exe")) ==>
      LegacyPatchPlan(cfg, b, platforms) == [Throw(MissingFile(ToolExecutable(cfg.toolDirectory, "torch.exe")))]
    ensures !cfg.skip && Exists(b.fs, ToolExecutable(cfg.toolDirectory, "torch.exe")) && !Exists(b.fs, PyroExe(cfg)) ==>
      LegacyPatchPlan(cfg, b, platforms) == [Throw(MissingFile(ToolExecutable(cfg.toolDirectory, "pyro.exe")))]
  {
  }

  /**
   * Each platform runs one torch per culture spec whose inputs are found, in the culture
   * order, and one step more for its pyro.
   */
  lemma ArchPlanShape(cfg: LegacyPatchConfig, b: LegacyPatchBuild, torchExe: string, arch: string)
    ensures var cultures := b.cultureOrder(cfg.culturespecs);
      var plan := ArchPlan(cfg, b, torchExe, arch);
      && |plan| == |cultures| + 1
      && (forall i :: 0 <= i < |cultures| && PassFinds(cfg, b, arch, cultures[i]) ==>
            plan[i] == TorchStep(LegacyTorchCall(cfg, b, torchExe, arch, cultures[i])))
      && (forall i :: 0 <= i < |cultures| && !PassFinds(cfg, b, arch, cultures[i]) ==> plan[i].Throw?)
  {
    var cultures := b.cultureOrder(cfg.culturespecs);
    FlatMapSingles(cultures, CulturePassOf(cfg, b, torchExe, arch));
  }

  /** Inputs of different types stop the goal at its first pass, before any tool runs. */
  lemma LegacyMismatchStopsFirst(cfg: LegacyPatchConfig, b: LegacyPatchBuild, platforms: Option<set<string>>, tool: Tool)
    requires cfg.baseItem.artifactType != cfg.patchedItem.artifactType
    requires !cfg.skip && Exists(b.fs, ToolExecutable(cfg.toolDirectory, "torch.exe")) && Exists(b.fs, PyroExe(cfg))
    requires b.order(DefaultPlatforms(platforms)) != [] && b.cultureOrder(cfg.culturespecs) != []
    ensures Perform(LegacyPatchPlan(cfg, b, platforms), tool) == Failed([], ExecutionFailed(Patch.TypeMismatch))
  {
    var torchExe := ToolExecutable(cfg.toolDirectory, "torch.exe");
    var archs := b.order(DefaultPlatforms(platforms));
    var cultures := b.cultureOrder(cfg.culturespecs);
    var g := CulturePassOf(cfg, b, torchExe, archs[0]);
    FlatMapFirst(cultures, g);
    FlatMapFirst(archs, ArchPlanOf(cfg, b, torchExe));
    Patch.PerformThrowFirst(LegacyPatchPlan(cfg, b, platforms), tool);
  }

  /** A platform's last step is its pyro part. */
  lemma ArchPlanLast(cfg: LegacyPatchConfig, b: LegacyPatchBuild, torchExe: string, arch: string)
    ensures var plan := ArchPlan(cfg, b, torchExe, arch);
      plan != [] && plan[|plan| - 1] == ArchPyro(cfg, b, arch, TransformFiles(cfg, b, arch, b.cultureOrder(cfg.culturespecs)))[0]
  {
  }

  /**
   * When every pass reaches torch and no culture spec is null, the entries of the map have
   * no null key, and the transform of each culture spec is one of them.
   */
  lemma EntriesCover(cfg: LegacyPatchConfig, b: LegacyPatchBuild, arch: string, c: string)
    requires IsIterationOrder(b.cultureOrder) && IsEntryOrder(b.entries)
    requires forall k :: k in cfg.culturespecs ==> PassFinds(cfg, b, arch, k)
    requires None !in cfg.culturespecs
    requires Some(c) in cfg.culturespecs
    ensures var es := b.entries(TransformFiles(cfg, b, arch, b.cultureOrder(cfg.culturespecs)));
      && !HasNullKey(es)
      && exists i :: 0 <= i < |es| && es[i] == (Some(c), LegacyIntermediate(cfg, arch, Some(c)))
  {
    TransformFilesComplete(cfg, b, arch);
    var files := TransformFiles(cfg, b, arch, b.cultureOrder(cfg.culturespecs));
    var es := b.entries(files);
    ListedEntries(es, files, Some(c));
  }

  /** The entries listing a map have only its keys, and hold the entry of each key. */
  lemma ListedEntries(es: seq<(Option<string>, string)>, files: map<Option<string>, string>, k: Option<string>)
    requires Lists(es, files.Items) && k in files
    ensures None in files || !HasNullKey(es)
    ensures exists i :: 0 <= i < |es| && es[i] == (k, files[k])
  {
    assert (k, files[k]) in files.Items;
    assert (k, files[k]) in Elements(es);
    forall j | 0 <= j < |es|
      ensures es[j].0 in files
    {
      assert es[j] in Elements(es);
    }
  }

  /**
   * When every pass of a platform reaches torch and no culture spec is null, the platform
   * ends in one pyro run on the base culture spec's patch, applying every culture spec's
   * transform under the baseline id for that culture spec, and writing the msp.
   */
  lemma PyroAppliesEvery(cfg: LegacyPatchConfig, b: LegacyPatchBuild, torchExe: string, arch: string, c: string)
    requires IsIterationOrder(b.cultureOrder) && IsEntryOrder(b.entries)
    requires forall k :: k in cfg.culturespecs ==> PassFinds(cfg, b, arch, k)
    requires None !in cfg.culturespecs
    requires Some(c) in cfg.culturespecs
    ensures var plan := ArchPlan(cfg, b, torchExe, arch);
      var last := plan[|plan| - 1];
      && last.Call? && last.name == "pyro" && last.call.executable == PyroExe(cfg)
      && PatchFile(cfg, b, arch) in last.call.arguments
      && cfg.baseline + "_" + ReplaceChar(c, '-', '_') in last.call.arguments
      && LegacyIntermediate(cfg, arch, Some(c)) in last.call.arguments
      && last.call.arguments[|last.call.arguments| - 2..] == ["-out", PatchOutput(cfg, b, arch)]
  {
    ArchPlanLast(cfg, b, torchExe, arch);
    EntriesCover(cfg, b, arch, c);
    var files := TransformFiles(cfg, b, arch, b.cultureOrder(cfg.culturespecs));
    var es := b.entries(files);
    var i :| 0 <= i < |es| && es[i] == (Some(c), LegacyIntermediate(cfg, arch, Some(c)));
    PyroArgsHold(cfg, b, arch, es, i);
  }

  /** The pyro arguments for entries without a null key: the patch, entry i's transform and the output. */
  lemma PyroArgsHold(cfg: LegacyPatchConfig, b: LegacyPatchBuild, arch: string, es: seq<(Option<string>, string)>, i: nat)
    requires !HasNullKey(es) && i < |es|
    ensures var args := Patch.UberPyroArgs(cfg.verbose, ExtensionDependencies(b.artifacts), PatchFile(cfg, b, arch),
                                           cfg.baseline, Named(es), PatchOutput(cfg, b, arch));
      && PatchFile(cfg, b, arch) in args
      && cfg.baseline + "_" + ReplaceChar(es[i].0.value, '-', '_') in args
      && es[i].1 in args
      && args[|args| - 2..] == ["-out", PatchOutput(cfg, b, arch)]
  {
    var named := Named(es);
    Patch.UberPyroHas(cfg.verbose, ExtensionDependencies(b.artifacts), PatchFile(cfg, b, arch), cfg.baseline,
                      named, PatchOutput(cfg, b, arch), i);
    assert named[i] == (es[i].0.value, es[i].1);
  }

  /** A null culture spec whose pass reaches torch makes the platform's pyro fail before it runs. */
  lemma NullCultureStopsPyro(cfg: LegacyPatchConfig, b: LegacyPatchBuild, torchExe: string, arch: string)
    requires IsIterationOrder(b.cultureOrder) && IsEntryOrder(b.entries)
    requires None in cfg.culturespecs && PassFinds(cfg, b, arch, None)
    ensures var plan := ArchPlan(cfg, b, torchExe, arch);
      plan[|plan| - 1] == Throw(NullKey)
  {
    var cultures := b.cultureOrder(cfg.culturespecs);
    assert Lists(cultures, cfg.culturespecs);
    assert None in Elements(cultures);
    var files := TransformFiles(cfg, b, arch, cultures);
    assert None in files;
    var es := b.entries(files);
    assert Lists(es, files.Items);
    assert (None, files[None]) in files.Items;
    assert (None, files[None]) in Elements(es);
    var i :| 0 <= i < |es| && es[i] == (None, files[None]);
    assert HasNullKey(es);
  }

  // ---- the goal, step by step ----

  /** One pass of the culture loop. */
  method LegacyCulturePass(cfg: LegacyPatchConfig, b: LegacyPatchBuild, torchExe: string, arch: string,
                           culture: Option<string>) returns (steps: seq<Step>, found: bool)
    ensures steps == CulturePass(cfg, b, torchExe, arch, culture)
    ensures found == PassFinds(cfg, b, arch, culture)
  {
    if cfg.baseItem.artifactType != cfg.patchedItem.artifactType {
      return [Throw(ExecutionFailed(Patch.TypeMismatch))], false;
    }
    var baseFile := LegacyRelatedFile(b, cfg.baseItem, arch, culture);
    if baseFile.Err? {
      return [Throw(baseFile.error)], false;
    }
    var latestFile := LegacyRelatedFile(b, cfg.patchedItem, arch, culture);
    if latestFile.Err? {
      return [Throw(latestFile.error)], false;
    }
    var intermediate := LegacyOutput(Some(cfg.intDirectory), arch, culture, cfg.finalName, "wixmst");
    var cl := TorchCommand(torchExe, cfg.verbose, cfg.preserveUnmodified, Patch.PatchValidation(cfg.patchedItem.artifactType),
                           ExtensionDependencies(b.artifacts), baseFile.value, latestFile.value, intermediate);
    var call := cl.Snapshot();
    return [TorchStep(call)], true;
  }

  /** The culture loop of a platform, filling the map of transforms. */
  method LegacyPatchCultures(cfg: LegacyPatchConfig, b: LegacyPatchBuild, torchExe: string, arch: string)
    returns (steps: seq<Step>, files: map<Option<string>, string>)
    ensures steps == FlatMap(b.cultureOrder(cfg.culturespecs), CulturePassOf(cfg, b, torchExe, arch))
    ensures files == TransformFiles(cfg, b, arch, b.cultureOrder(cfg.culturespecs))
  {
    var cultures := b.cultureOrder(cfg.culturespecs);
    steps, files := [], map[];
    var j := 0;
    while j < |cultures|
      invariant 0 <= j <= |cultures|
      invariant steps == FlatMap(cultures[..j], CulturePassOf(cfg, b, torchExe, arch))
      invariant files == TransformFiles(cfg, b, arch, cultures[..j])
    {
      FlatMapGrows(cultures, CulturePassOf(cfg, b, torchExe, arch), j);
      TransformFilesGrows(cfg, b, arch, cultures, j);
      var more, found := LegacyCulturePass(cfg, b, torchExe, arch, cultures[j]);
      steps := steps + more;
      if found {
        files := files[cultures[j] := LegacyOutput(Some(cfg.intDirectory), arch, cultures[j], cfg.finalName, "wixmst")];
      }
      j := j + 1;
    }
    assert cultures[..j] == cultures;
  }

  /** The loop over the transform entries: one transform per entry, stopping at a null key. */
  method AddTransforms(cl: CommandLine, baseline: string, es: seq<(Option<string>, string)>) returns (ok: bool)
    modifies cl
    ensures ok <==> !HasNullKey(es)
    ensures ok ==> cl.arguments == old(cl.arguments) + FlatMap(Named(es), Patch.UberTransformOf(baseline))
    ensures cl.executable == old(cl.executable) && cl.workingDirectory == old(cl.workingDirectory)
  {
    ghost var named: seq<(string, string)> := [];
    var i := 0;
    while i < |es|
      invariant 0 <= i <= |es|
      invariant cl.executable == old(cl.executable) && cl.workingDirectory == old(cl.workingDirectory)
      invariant !HasNullKey(es[..i]) && named == Named(es[..i])
      invariant cl.arguments == old(cl.arguments) + FlatMap(named, Patch.UberTransformOf(baseline))
    {
      if es[i].0.None? {
        assert 0 <= i < |es| && es[i].0.None?;
        return false;
      }
      var key := es[i].0.value;
      cl.AddArguments(["-t", baseline + "_" + ReplaceChar(key, '-', '_'), es[i].1]);
      NamedSnoc(es, i);
      FlatMapSnoc(named, (key, es[i].1), Patch.UberTransformOf(baseline));
      AppendAssoc(old(cl.arguments), FlatMap(named, Patch.UberTransformOf(baseline)), Patch.UberTransform(baseline, (key, es[i].1)));
      named := named + [(key, es[i].1)];
      i := i + 1;
    }
    assert es[..i] == es;
    return true;
  }

  /** One more entry with a key adds that entry, named, to Named. */
  lemma NamedSnoc(es: seq<(Option<string>, string)>, i: nat)
    requires i < |es| && !HasNullKey(es[..i]) && es[i].0.Some?
    ensures !HasNullKey(es[..i + 1])
    ensures Named(es[..i + 1]) == Named(es[..i]) + [(es[i].0.value, es[i].1)]
  {
    assert es[..i + 1][..i] == es[..i];
  }

  /** pyro with the map of transforms: its loop over the entries, then the run. */
  method LegacyPyro(cfg: LegacyPatchConfig, b: LegacyPatchBuild, arch: string, files: map<Option<string>, string>)
    returns (steps: seq<Step>)
    ensures steps == ArchPyro(cfg, b, arch, files)
  {
    var es := b.entries(files);
    var cl := new CommandLine(ToolExecutable(cfg.toolDirectory, "pyro.exe"));
    AddToolsetGeneralOptions(cl, cfg.verbose);
    AddWixExtensions(cl, ExtensionDependencies(b.artifacts));
    cl.AddArguments([PatchFile(cfg, b, arch)]);
    ghost var head := cl.arguments;
    assert head == GeneralOptions(cfg.verbose) + ExtensionArgs(ExtensionDependencies(b.artifacts)) + [PatchFile(cfg, b, arch)];
    var ok := AddTransforms(cl, cfg.baseline, es);
    if !ok {
      return [Throw(NullKey)];
    }
    cl.AddArguments(["-out", PatchOutput(cfg, b, arch)]);
    assert cl.arguments == Patch.UberPyroArgs(cfg.verbose, ExtensionDependencies(b.artifacts), PatchFile(cfg, b, arch),
                                              cfg.baseline, Named(es), PatchOutput(cfg, b, arch));
    var call := cl.Snapshot();
    steps := [Patch.PyroStep(call)];
  }

  /** One platform: the culture loop, then its pyro. */
  method LegacyPatchArch(cfg: LegacyPatchConfig, b: LegacyPatchBuild, torchExe: string, arch: string)
    returns (steps: seq<Step>)
    ensures steps == ArchPlan(cfg, b, torchExe, arch)
  {
    var torches, files := LegacyPatchCultures(cfg, b, torchExe, arch);
    var pyro := LegacyPyro(cfg, b, arch, files);
    steps := torches + pyro;
  }

  /** execute: the checks in order, then the loop over platforms. */
  method LegacyPatchExecute(cfg: LegacyPatchConfig, b: LegacyPatchBuild, setting: PlatformSetting)
    returns (plan: seq<Step>)
    modifies setting
    ensures plan == LegacyPatchPlan(cfg, b, old(setting.platforms))
  {
    if cfg.skip {
      return [];
    }
    var torch := ValidateTool(b.fs, cfg.toolDirectory);
    if torch.Err? {
      return [Throw(torch.error)];
    }
    var pyroExe := ToolExecutable(cfg.toolDirectory, "pyro.exe");
    if !Exists(b.fs, pyroExe) {
      return [Throw(MissingFile(pyroExe))];
    }
    var platforms := setting.GetPlatforms();
    var archs := b.order(platforms);
    plan := [];
    var i := 0;
    while i < |archs|
      invariant 0 <= i <= |archs|
      invariant plan == FlatMap(archs[..i], ArchPlanOf(cfg, b, torch.value))
    {
      FlatMapGrows(archs, ArchPlanOf(cfg, b, torch.value), i);
      var steps := LegacyPatchArch(cfg, b, torch.value, archs[i]);
      plan := plan + steps;
      i := i + 1;
    }
    assert archs[..i] == archs;
  }
}
