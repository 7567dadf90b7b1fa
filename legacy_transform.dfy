// The older net.sf.wix TransformMojo. It differs from the current goal in one place: the
// packages torch compares are looked up with the raw packaging as their extension, not
// the package output extension.
module LegacyTransform {
  import opened Wrappers
  import opened Files
  import opened Seqs
  import opened Runtime
  import opened WixMojo
  import opened Packageable
  import opened Torch
  import opened Transform

  /** The torch call of one (platform, alternate culture) pair. */
  function LegacyTransformCall(cfg: TransformConfig, b: TransformBuild, exe: string, v: (string, string)): Invocation
  {
    var ext := cfg.packaged.packaging;
    Invocation(exe, None,
      TorchArgs(cfg.verbose, cfg.preserveUnmodified, LanguageValidation, ExtensionDependencies(b.artifacts),
                b.output(v.0, cfg.packaged.baseCulturespec, ext), b.output(v.0, Some(v.1), ext),
                b.output(v.0, Some(v.1), TransformExtension)))
  }

  function LegacyTorchEach(cfg: TransformConfig, b: TransformBuild, exe: string): ((string, string)) -> seq<Step>
  {
    (v: (string, string)) => [TorchStep(LegacyTransformCall(cfg, b, exe, v))]
  }

  /**
   * execute: nothing when skipped; torch must exist; nothing without two locales and a
   * transform or repack merge level; else one torch run per platform and alternate culture.
   */
  function LegacyTransformPlan(cfg: TransformConfig, b: TransformBuild, platforms: Option<set<string>>): seq<Step>
  {
    if cfg.skip then []
    else
      var tool := ValidateTool(b.fs, cfg.toolDirectory);
      if tool.Err? then [Throw(tool.error)]
      else if !Transforms(cfg.packaged) then []
      else FlatMap(Cross(b.order(DefaultPlatforms(platforms)), b.order(cfg.packaged.alternateCulturespecs)),
                   LegacyTorchEach(cfg, b, tool.value))
  }

  /** The configuration under which the current goal reads the packages the older one reads. */
  function AsCurrent(cfg: TransformConfig): (r: TransformConfig)
    ensures r.packaged.packageOutputExtension == cfg.packaged.packaging
  {
    cfg.(packaged := cfg.packaged.(packageOutputExtension := cfg.packaged.packaging))
  }

  /** Each torch run compares the packages named with the raw packaging. */
  lemma LegacyTransformCallFiles(cfg: TransformConfig, b: TransformBuild, exe: string, arch: string, culture: string)
    ensures var args := LegacyTransformCall(cfg, b, exe, (arch, culture)).arguments;
      var ext := cfg.packaged.packaging;
      && |args| >= 6
      && args[|args| - 4..] == [b.output(arch, cfg.packaged.baseCulturespec, ext), b.output(arch, Some(culture), ext),
                                "-out", b.output(arch, Some(culture), TransformExtension)]
    ensures LegacyTransformCall(cfg, b, exe, (arch, culture)) == TransformCall(AsCurrent(cfg), b, exe, (arch, culture))
  {
    TransformCallFiles(AsCurrent(cfg), b, exe, arch, culture);
  }

  /**
   * The older goal is the current goal on a package whose output extension is its raw
   * packaging: the same gates, the same pairs and the same torch runs.
   */
  lemma LegacyTransformAsCurrent(cfg: TransformConfig, b: TransformBuild, platforms: Option<set<string>>)
    ensures LegacyTransformPlan(cfg, b, platforms) == TransformPlan(AsCurrent(cfg), b, platforms)
  {
    var tool := ValidateTool(b.fs, cfg.toolDirectory);
    if !cfg.skip && tool.Ok? && Transforms(cfg.packaged) {
      var pairs := Cross(b.order(DefaultPlatforms(platforms)), b.order(cfg.packaged.alternateCulturespecs));
      forall i | 0 <= i < |pairs|
        ensures LegacyTorchEach(cfg, b, tool.value)(pairs[i]) == TorchEach(AsCurrent(cfg), b, tool.value)(pairs[i])
      {
        LegacyTransformCallFiles(cfg, b, tool.value, pairs[i].0, pairs[i].1);
      }
      FlatMapSame(pairs, LegacyTorchEach(cfg, b, tool.value), TorchEach(AsCurrent(cfg), b, tool.value));
    }
  }

  /** When transforms are made, one torch run per (platform, alternate culture) and nothing else. */
  lemma LegacyTransformOnePerPair(cfg: TransformConfig, b: TransformBuild, platforms: Option<set<string>>)
    requires !cfg.skip && Exists(b.fs, ToolExecutable(cfg.toolDirectory, "torch.exe")) && Transforms(cfg.packaged)
    requires IsIterationOrder(b.order)
    ensures var plan := LegacyTransformPlan(cfg, b, platforms);
      var exe := ToolExecutable(cfg.toolDirectory, "torch.exe");
      && |plan| == |DefaultPlatforms(platforms)| * |cfg.packaged.alternateCulturespecs|
      && forall s :: s in plan <==>
           TorchesPair(AsCurrent(cfg), b, exe, DefaultPlatforms(platforms), cfg.packaged.alternateCulturespecs, s)
  {
    LegacyTransformAsCurrent(cfg, b, platforms);
    TransformOnePerPair(AsCurrent(cfg), b, platforms);
  }

  // ---- the goal ----

  /** One torch run: the command line prepared for the pair, then run. */
  method LegacyTransformOne(cfg: TransformConfig, b: TransformBuild, exe: string, arch: string, culture: string)
    returns (step: Step)
    ensures step == TorchStep(LegacyTransformCall(cfg, b, exe, (arch, culture)))
  {
    var ext := cfg.packaged.packaging;
    var cl := TorchCommand(exe, cfg.verbose, cfg.preserveUnmodified, LanguageValidation,
                           ExtensionDependencies(b.artifacts),
                           b.output(arch, cfg.packaged.baseCulturespec, ext), b.output(arch, Some(culture), ext),
                           b.output(arch, Some(culture), TransformExtension));
    step := TorchStep(cl.Snapshot());
  }

  /** execute: the checks in order, then the loop over platforms and, inside, alternate cultures. */
  method LegacyTransformExecute(cfg: TransformConfig, b: TransformBuild, setting: PlatformSetting) returns (plan: seq<Step>)
    modifies setting
    ensures plan == LegacyTransformPlan(cfg, b, old(setting.platforms))
  {
    if cfg.skip {
      return [];
    }
    var tool := ValidateTool(b.fs, cfg.toolDirectory);
    if tool.Err? {
      return [Throw(tool.error)];
    }
    if !(cfg.packaged.localeCount >= 2 && (cfg.packaged.merge.isTransform || cfg.packaged.merge.isRepack)) {
      return [];
    }
    var cultures := b.order(cfg.packaged.alternateCulturespecs);
    var platforms := setting.GetPlatforms();
    var archs := b.order(platforms);
    plan := LegacyTorchRuns(cfg, b, tool.value, archs, cultures);
  }

  /** The loop over platforms and, inside, alternate cultures: one torch run per pair. */
  method LegacyTorchRuns(cfg: TransformConfig, b: TransformBuild, exe: string, archs: seq<string>, cultures: seq<string>)
    returns (plan: seq<Step>)
    ensures plan == FlatMap(Cross(archs, cultures), LegacyTorchEach(cfg, b, exe))
  {
    ghost var f := LegacyTorchEach(cfg, b, exe);
    plan := [];
    var i := 0;
    while i < |archs|
      invariant 0 <= i <= |archs|
      invariant plan == FlatMap(Cross(archs[..i], cultures), f)
    {
      var row := LegacyTorchRow(cfg, b, exe, archs[i], cultures);
      CrossGrows(archs, cultures, i);
      FlatMapConcat(Cross(archs[..i], cultures), Row(archs[i], cultures), f);
      plan := plan + row;
      i := i + 1;
    }
    assert archs[..i] == archs;
  }

  /** The torch runs of one platform, one per alternate culture. */
  method LegacyTorchRow(cfg: TransformConfig, b: TransformBuild, exe: string, arch: string, cultures: seq<string>)
    returns (row: seq<Step>)
    ensures row == FlatMap(Row(arch, cultures), LegacyTorchEach(cfg, b, exe))
  {
    row := [];
    var j := 0;
    while j < |cultures|
      invariant 0 <= j <= |cultures|
      invariant row == FlatMap(Row(arch, cultures[..j]), LegacyTorchEach(cfg, b, exe))
    {
      RowGrows(arch, cultures, j);
      FlatMapSnoc(Row(arch, cultures[..j]), (arch, cultures[j]), LegacyTorchEach(cfg, b, exe));
      var step := LegacyTransformOne(cfg, b, exe, arch, cultures[j]);
      row := row + [step];
      j := j + 1;
    }
    assert cultures[..j] == cultures;
  }
}
