// TransformMojo: the transform goal. For every platform and every alternate culture, torch
// diffs the platform's base-culture package against the culture's package into an mst.
module Transform {
  import opened Wrappers
  import opened Files
  import opened Seqs
  import opened ArtifactLookup
  import opened Runtime
  import opened WixMojo
  import opened Packageable
  import opened Torch

  /** addValidationOptions of the transform goal. */
  const LanguageValidation: seq<string> := ["-t", "language"]

  /** torchOutputExtension of the transform goal. */
  const TransformExtension := "mst"

  datatype TransformConfig = TransformConfig(
    skip: bool,
    verbose: bool,
    preserveUnmodified: bool,
    toolDirectory: string,
    packaged: Packaged)

  /** The world as the goal sees it: files, artifacts, hash-set order and the output of a build. */
  datatype TransformBuild = TransformBuild(
    fs: FileSystem,
    artifacts: seq<Artifact>,
    direct: set<Coordinates>,
    order: set<string> -> seq<string>,
    output: (string, Option<string>, string) -> string)

  /** Transforms are made only with at least two locales and a transform or repack merge level. */
  predicate Transforms(p: Packaged)
  {
    p.localeCount >= 2 && (p.merge.isTransform || p.merge.isRepack)
  }

  /** The torch call of one (platform, alternate culture) pair. */
  function TransformCall(cfg: TransformConfig, b: TransformBuild, exe: string, v: (string, string)): Invocation
  {
    var ext := cfg.packaged.packageOutputExtension;
    Invocation(exe, None,
      TorchArgs(cfg.verbose, cfg.preserveUnmodified, LanguageValidation, ExtensionDependencies(b.artifacts),
                b.output(v.0, cfg.packaged.baseCulturespec, ext), b.output(v.0, Some(v.1), ext),
                b.output(v.0, Some(v.1), TransformExtension)))
  }

  function TorchEach(cfg: TransformConfig, b: TransformBuild, exe: string): ((string, string)) -> seq<Step>
  {
    (v: (string, string)) => [TorchStep(TransformCall(cfg, b, exe, v))]
  }

  /**
   * execute: nothing when skipped; torch must exist even when no transform is made; then
   * one torch run per platform and alternate culture, platform by platform.
   */
  function TransformPlan(cfg: TransformConfig, b: TransformBuild, platforms: Option<set<string>>): seq<Step>
  {
    if cfg.skip then []
    else
      var tool := ValidateTool(b.fs, cfg.toolDirectory);
      if tool.Err? then [Throw(tool.error)]
      else if !Transforms(cfg.packaged) then []
      else FlatMap(Cross(b.order(DefaultPlatforms(platforms)), b.order(cfg.packaged.alternateCulturespecs)),
                   TorchEach(cfg, b, tool.value))
  }

  // ---- properties ----

  /** Skipping runs nothing; a missing torch fails even when nothing would be transformed. */
  lemma TransformGates(cfg: TransformConfig, b: TransformBuild, platforms: Option<set<string>>)
    ensures cfg.skip ==> TransformPlan(cfg, b, platforms) == []
    ensures !cfg.skip && !Exists(b.fs, ToolExecutable(cfg.toolDirectory, "torch.exe")) ==>
      TransformPlan(cfg, b, platforms) == [Throw(MissingFile(ToolExecutable(cfg.toolDirectory, "torch.exe")))]
    ensures !Transforms(cfg.packaged) ==> forall k :: 0 <= k < |TransformPlan(cfg, b, platforms)| ==> !TransformPlan(cfg, b, platforms)[k].Call?
  {
  }

  /** Each torch run diffs the platform's base-culture package against the culture's package into its mst. */
  lemma TransformCallFiles(cfg: TransformConfig, b: TransformBuild, exe: string, arch: string, culture: string)
    ensures var args := TransformCall(cfg, b, exe, (arch, culture)).arguments;
      var ext := cfg.packaged.packageOutputExtension;
      && |args| >= 6
      && args[|args| - 4..] == [b.output(arch, cfg.packaged.baseCulturespec, ext), b.output(arch, Some(culture), ext),
                                "-out", b.output(arch, Some(culture), TransformExtension)]
      && var at := |GeneralOptions(cfg.verbose)| + (if cfg.preserveUnmodified then 1 else 0);
         args[at..at + 2] == ["-t", "language"] && (cfg.preserveUnmodified ==> args[at - 1] == "-p")
  {
    var ext := cfg.packaged.packageOutputExtension;
    TorchArgsLayout(cfg.verbose, cfg.preserveUnmodified, LanguageValidation, ExtensionDependencies(b.artifacts),
                    b.output(arch, cfg.packaged.baseCulturespec, ext), b.output(arch, Some(culture), ext),
                    b.output(arch, Some(culture), TransformExtension));
  }

  /** Some pair of the given platforms and cultures has `s` as its torch run. */
  predicate TorchesPair(cfg: TransformConfig, b: TransformBuild, exe: string, archs: set<string>, cultures: set<string>, s: Step)
  {
    exists arch, c :: arch in archs && c in cultures && s == TorchStep(TransformCall(cfg, b, exe, (arch, c)))
  }

  /** The loop over two listings runs exactly one torch per pair of their entries. */
  lemma TorchesMembers(cfg: TransformConfig, b: TransformBuild, exe: string,
                       archs: seq<string>, cultures: seq<string>, s: Step)
    ensures s in FlatMap(Cross(archs, cultures), TorchEach(cfg, b, exe)) <==>
      TorchesPair(cfg, b, exe, Elements(archs), Elements(cultures), s)
  {
    if s in FlatMap(Cross(archs, cultures), TorchEach(cfg, b, exe)) {
      TorchesOnlyPairs(cfg, b, exe, archs, cultures, s);
    }
    if TorchesPair(cfg, b, exe, Elements(archs), Elements(cultures), s) {
      TorchesEveryPair(cfg, b, exe, archs, cultures, s);
    }
  }

  /** Every torch run of the loop belongs to a pair of the listings' entries. */
  lemma TorchesOnlyPairs(cfg: TransformConfig, b: TransformBuild, exe: string,
                         archs: seq<string>, cultures: seq<string>, s: Step)
    requires s in FlatMap(Cross(archs, cultures), TorchEach(cfg, b, exe))
    ensures TorchesPair(cfg, b, exe, Elements(archs), Elements(cultures), s)
  {
    var pairs := Cross(archs, cultures);
    var f := TorchEach(cfg, b, exe);
    FlatMapMembers(pairs, f, s);
    var i :| 0 <= i < |pairs| && s in f(pairs[i]);
    CrossMembers(archs, cultures, pairs[i].0, pairs[i].1);
    TorchOfPair(cfg, b, exe, archs, cultures, pairs[i], s);
  }

  /** A torch run of a pair whose entries are listed is a torch run of a pair of the listings. */
  lemma TorchOfPair(cfg: TransformConfig, b: TransformBuild, exe: string,
                    archs: seq<string>, cultures: seq<string>, v: (string, string), s: Step)
    requires v.0 in archs && v.1 in cultures && s in TorchEach(cfg, b, exe)(v)
    ensures TorchesPair(cfg, b, exe, Elements(archs), Elements(cultures), s)
  {
    var i :| 0 <= i < |archs| && archs[i] == v.0;
    var j :| 0 <= j < |cultures| && cultures[j] == v.1;
    assert v.0 in Elements(archs) && v.1 in Elements(cultures);
    assert s == TorchStep(TransformCall(cfg, b, exe, (v.0, v.1)));
  }

  /** Every pair of the listings' entries has its torch run in the loop. */
  lemma TorchesEveryPair(cfg: TransformConfig, b: TransformBuild, exe: string,
                         archs: seq<string>, cultures: seq<string>, s: Step)
    requires TorchesPair(cfg, b, exe, Elements(archs), Elements(cultures), s)
    ensures s in FlatMap(Cross(archs, cultures), TorchEach(cfg, b, exe))
  {
    var pairs := Cross(archs, cultures);
    var f := TorchEach(cfg, b, exe);
    var arch, c :| arch in Elements(archs) && c in Elements(cultures)
      && s == TorchStep(TransformCall(cfg, b, exe, (arch, c)));
    CrossMembers(archs, cultures, arch, c);
    var i :| 0 <= i < |pairs| && pairs[i] == (arch, c);
    assert s in f(pairs[i]);
    FlatMapMembers(pairs, f, s);
  }

  /**
   * When transforms are made there is one torch run per (platform, alternate culture)
   * and nothing else.
   */
  lemma TransformOnePerPair(cfg: TransformConfig, b: TransformBuild, platforms: Option<set<string>>)
    requires !cfg.skip && Exists(b.fs, ToolExecutable(cfg.toolDirectory, "torch.exe")) && Transforms(cfg.packaged)
    requires IsIterationOrder(b.order)
    ensures var plan := TransformPlan(cfg, b, platforms);
      var exe := ToolExecutable(cfg.toolDirectory, "torch.exe");
      && |plan| == |DefaultPlatforms(platforms)| * |cfg.packaged.alternateCulturespecs|
      && forall s :: s in plan <==>
           TorchesPair(cfg, b, exe, DefaultPlatforms(platforms), cfg.packaged.alternateCulturespecs, s)
  {
    var exe := ToolExecutable(cfg.toolDirectory, "torch.exe");
    var archs := b.order(DefaultPlatforms(platforms));
    var cultures := b.order(cfg.packaged.alternateCulturespecs);
    var pairs := Cross(archs, cultures);
    var f := TorchEach(cfg, b, exe);
    assert TransformPlan(cfg, b, platforms) == FlatMap(pairs, f);
    assert Lists(archs, DefaultPlatforms(platforms)) && Lists(cultures, cfg.packaged.alternateCulturespecs);
    ListsCard(archs, DefaultPlatforms(platforms));
    ListsCard(cultures, cfg.packaged.alternateCulturespecs);
    assert forall i :: 0 <= i < |pairs| ==> |f(pairs[i])| == 1;
    FlatMapSingles(pairs, f);
    forall s {
      TorchesMembers(cfg, b, exe, archs, cultures, s);
    }
  }

  // ---- the goal ----

  /** One torch run: the command line prepared for the pair, then run. */
  method TransformOne(cfg: TransformConfig, b: TransformBuild, exe: string, arch: string, culture: string)
    returns (step: Step)
    ensures step == TorchStep(TransformCall(cfg, b, exe, (arch, culture)))
  {
    var ext := cfg.packaged.packageOutputExtension;
    var cl := TorchCommand(exe, cfg.verbose, cfg.preserveUnmodified, LanguageValidation,
                           ExtensionDependencies(b.artifacts),
                           b.output(arch, cfg.packaged.baseCulturespec, ext), b.output(arch, Some(culture), ext),
                           b.output(arch, Some(culture), TransformExtension));
    step := TorchStep(cl.Snapshot());
  }

  /** execute: the checks in order, then the loop over platforms and, inside, alternate cultures. */
  method TransformExecute(cfg: TransformConfig, b: TransformBuild, setting: PlatformSetting) returns (plan: seq<Step>)
    modifies setting
    ensures plan == TransformPlan(cfg, b, old(setting.platforms))
  {
    if cfg.skip {
      return [];
    }
    var tool := ValidateTool(b.fs, cfg.toolDirectory);
    if tool.Err? {
      return [Throw(tool.error)];
    }
    if !(cfg.packaged.localeCount >= 2 && (cfg.packaged.merge.isTransform || cfg.packaged.merge.isRepack)) {
      return [];
    }
    var cultures := b.order(cfg.packaged.alternateCulturespecs);
    var platforms := setting.GetPlatforms();
    var archs := b.order(platforms);
    plan := TorchRuns(cfg, b, tool.value, archs, cultures);
  }

  /** The loop over platforms and, inside, alternate cultures: one torch run per pair. */
  method TorchRuns(cfg: TransformConfig, b: TransformBuild, exe: string, archs: seq<string>, cultures: seq<string>)
    returns (plan: seq<Step>)
    ensures plan == FlatMap(Cross(archs, cultures), TorchEach(cfg, b, exe))
  {
    ghost var f := TorchEach(cfg, b, exe);
    plan := [];
    var i := 0;
    while i < |archs|
      invariant 0 <= i <= |archs|
      invariant plan == FlatMap(Cross(archs[..i], cultures), f)
    {
      var row := TorchRow(cfg, b, exe, archs[i], cultures);
      CrossGrows(archs, cultures, i);
      FlatMapConcat(Cross(archs[..i], cultures), Row(archs[i], cultures), f);
      plan := plan + row;
      i := i + 1;
    }
    assert archs[..i] == archs;
  }

  /** The torch runs of one platform, one per alternate culture. */
  method TorchRow(cfg: TransformConfig, b: TransformBuild, exe: string, arch: string, cultures: seq<string>)
    returns (row: seq<Step>)
    ensures row == FlatMap(Row(arch, cultures), TorchEach(cfg, b, exe))
  {
    row := [];
    var j := 0;
    while j < |cultures|
      invariant 0 <= j <= |cultures|
      invariant row == FlatMap(Row(arch, cultures[..j]), TorchEach(cfg, b, exe))
    {
      RowGrows(arch, cultures, j);
      FlatMapSnoc(Row(arch, cultures[..j]), (arch, cultures[j]), TorchEach(cfg, b, exe));
      var step := TransformOne(cfg, b, exe, arch, cultures[j]);
      row := row + [step];
      j := j + 1;
    }
    assert cultures[..j] == cultures;
  }
}
