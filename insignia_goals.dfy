// The insignia goals: inscribe (InscribeMojo), attach-bundle (AttachBundleEngineMojo) and
// detach-bundle (DetachBundleEngineMojo), as the current classes and the older net.sf.wix
// copies run them. Each runs insignia once per platform and culture spec.
module InsigniaGoals {
  import opened Wrappers
  import opened Files
  import opened Seqs
  import opened Runtime
  import opened WixMojo
  import opened Packageable
  import opened Insignia
  import opened Plans

  datatype InsigniaConfig = InsigniaConfig(
    skip: bool,
    verbose: bool,
    toolDirectory: string,
    projectBasedir: string,
    inscribePackage: bool,
    signBundleEngine: bool,
    bundleEnginePath: string,
    bundleEngineName: string,
    packaged: Packaged)

  /**
   * The world as the goals see it: files, the iteration orders of the platform set and
   * of the culture-spec set, and the three-argument getOutput.
   */
  datatype InsigniaBuild = InsigniaBuild(
    fs: FileSystem,
    order: set<string> -> seq<string>,
    cultureOrder: set<Option<string>> -> seq<Option<string>>,
    output: (string, Option<string>, string) -> string)

  type Variant = (string, Option<string>)

  /** What the attach and detach command lines read of the configuration. */
  datatype EngineSettings = EngineSettings(verbose: bool, projectBasedir: string, bundleEnginePath: string, bundleEngineName: string)

  function EngineOf(cfg: InsigniaConfig): EngineSettings
  {
    EngineSettings(cfg.verbose, cfg.projectBasedir, cfg.bundleEnginePath, cfg.bundleEngineName)
  }

  /** The loop of every insignia goal: each platform, and within it each culture spec. */
  function Variants(cfg: InsigniaConfig, b: InsigniaBuild, platforms: Option<set<string>>): seq<Variant>
  {
    Cross(b.order(DefaultPlatforms(platforms)), b.cultureOrder(cfg.packaged.culturespecs))
  }

  /** The pair loop meets every platform and culture spec once. */
  lemma VariantsCover(cfg: InsigniaConfig, b: InsigniaBuild, platforms: Option<set<string>>, arch: string, culture: Option<string>)
    requires IsIterationOrder(b.order) && IsIterationOrder(b.cultureOrder)
    ensures (arch, culture) in Variants(cfg, b, platforms) <==>
      arch in DefaultPlatforms(platforms) && culture in cfg.packaged.culturespecs
    ensures |Variants(cfg, b, platforms)| == |DefaultPlatforms(platforms)| * |cfg.packaged.culturespecs|
  {
    var archs := b.order(DefaultPlatforms(platforms));
    var cultures := b.cultureOrder(cfg.packaged.culturespecs);
    assert Lists(archs, DefaultPlatforms(platforms)) && Lists(cultures, cfg.packaged.culturespecs);
    ListsCard(archs, DefaultPlatforms(platforms));
    ListsCard(cultures, cfg.packaged.culturespecs);
    CrossMembers(archs, cultures, arch, culture);
    assert arch in archs <==> arch in Elements(archs);
    assert culture in cultures <==> culture in Elements(cultures);
  }

  /** getOutputPath(bundleEnginePath, arch, culture): where the bundle engine of a variant lives. */
  function EngineFolder(e: EngineSettings, v: Variant): string
  {
    OutputPath(e.projectBasedir, Some(e.bundleEnginePath), v.0, v.1)
  }

  function EngineFile(e: EngineSettings, v: Variant): string
  {
    Child(EngineFolder(e, v), e.bundleEngineName)
  }

  // ---- inscribe ----

  /** insignia -im <package>: the package's signatures of its external cabinets. */
  function InscribeCall(cfg: InsigniaConfig, b: InsigniaBuild, exe: string, v: Variant): (r: Step)
    ensures r.Call? && r.call.executable == exe && r.call.workingDirectory == None
    ensures |r.call.arguments| >= 2 && r.call.arguments[|r.call.arguments| - 2..] == ["-im", b.output(v.0, v.1, cfg.packaged.packageOutputExtension)]
  {
    InsigniaStep(Invocation(exe, None, GeneralOptions(cfg.verbose) + ["-im", b.output(v.0, v.1, cfg.packaged.packageOutputExtension)]))
  }

  function InscribeEach(cfg: InsigniaConfig, b: InsigniaBuild, exe: string): Variant -> Step
  {
    (v: Variant) => InscribeCall(cfg, b, exe, v)
  }

  /**
   * execute (both generations alike): nothing unless inscribePackage, then nothing when
   * skipped; insignia must exist; one inscription per variant.
   */
  function InscribePlan(cfg: InsigniaConfig, b: InsigniaBuild, platforms: Option<set<string>>): seq<Step>
  {
    if !cfg.inscribePackage then []
    else if cfg.skip then []
    else
      var tool := ValidateInsignia(b.fs, cfg.toolDirectory);
      if tool.Err? then [Throw(tool.error)]
      else FlatMap(Variants(cfg, b, platforms), Singles(InscribeEach(cfg, b, tool.value)))
  }

  /** inscribePackage is examined before skip and before the tool: without it nothing happens. */
  lemma InscribeGates(cfg: InsigniaConfig, b: InsigniaBuild, platforms: Option<set<string>>)
    ensures !cfg.inscribePackage ==> InscribePlan(cfg, b, platforms) == []
    ensures cfg.skip ==> InscribePlan(cfg, b, platforms) == []
    ensures cfg.inscribePackage && !cfg.skip && !Exists(b.fs, ToolExecutable(cfg.toolDirectory, "insignia.exe")) ==>
      InscribePlan(cfg, b, platforms) == [Throw(MissingFile(ToolExecutable(cfg.toolDirectory, "insignia.exe")))]
  {
  }

  /** An inscribing run does exactly one inscription per platform and culture spec. */
  lemma InscribeRuns(cfg: InsigniaConfig, b: InsigniaBuild, platforms: Option<set<string>>, s: Step)
    requires cfg.inscribePackage && !cfg.skip && Exists(b.fs, ToolExecutable(cfg.toolDirectory, "insignia.exe"))
    requires IsIterationOrder(b.order) && IsIterationOrder(b.cultureOrder)
    ensures var plan := InscribePlan(cfg, b, platforms);
      && |plan| == |DefaultPlatforms(platforms)| * |cfg.packaged.culturespecs|
      && (s in plan <==>
            exists arch, c :: arch in DefaultPlatforms(platforms) && c in cfg.packaged.culturespecs
              && s == InscribeCall(cfg, b, ToolExecutable(cfg.toolDirectory, "insignia.exe"), (arch, c)))
  {
    var exe := ToolExecutable(cfg.toolDirectory, "insignia.exe");
    var archs := b.order(DefaultPlatforms(platforms));
    var cultures := b.cultureOrder(cfg.packaged.culturespecs);
    CrossSingles(archs, cultures, InscribeEach(cfg, b, exe), s);
    VariantsCover(cfg, b, platforms, "", None);
    if s in InscribePlan(cfg, b, platforms) {
      var arch, c :| arch in archs && c in cultures && s == InscribeEach(cfg, b, exe)((arch, c));
      VariantsCover(cfg, b, platforms, arch, c);
      CrossMembers(archs, cultures, arch, c);
    }
    if exists arch, c :: arch in DefaultPlatforms(platforms) && c in cfg.packaged.culturespecs && s == InscribeCall(cfg, b, exe, (arch, c)) {
      var arch, c :| arch in DefaultPlatforms(platforms) && c in cfg.packaged.culturespecs && s == InscribeCall(cfg, b, exe, (arch, c));
      VariantsCover(cfg, b, platforms, arch, c);
      CrossMembers(archs, cultures, arch, c);
    }
  }

  // ---- attach-bundle ----

  /** insignia -ab <engine> <bundle> -out <bundle>: the signed engine goes back into the bundle in place. */
  function AttachCall(e: EngineSettings, b: InsigniaBuild, exe: string, ext: string, v: Variant): (r: Step)
    ensures r.Call? && r.call.executable == exe
    ensures var args := r.call.arguments;
      && |args| >= 5
      && args[|args| - 5..|args| - 2] == ["-ab", EngineFile(e, v), b.output(v.0, v.1, ext)]
      && args[|args| - 2] == "-out" && args[|args| - 1] == args[|args| - 3]
  {
    var bundle := b.output(v.0, v.1, ext);
    InsigniaStep(Invocation(exe, None, GeneralOptions(e.verbose) + ["-ab", EngineFile(e, v), bundle, "-out", bundle]))
  }

  function AttachEach(e: EngineSettings, b: InsigniaBuild, exe: string, ext: string): Variant -> Step
  {
    (v: Variant) => AttachCall(e, b, exe, ext, v)
  }

  /** The part both generations share once the gates are passed: the tool check and the runs. */
  function AttachRuns(cfg: InsigniaConfig, b: InsigniaBuild, platforms: Option<set<string>>, ext: string): seq<Step>
  {
    var tool := ValidateInsignia(b.fs, cfg.toolDirectory);
    if tool.Err? then [Throw(tool.error)]
    else FlatMap(Variants(cfg, b, platforms), Singles(AttachEach(EngineOf(cfg), b, tool.value, ext)))
  }

  /** execute of the current class: skip is only logged; nothing unless signBundleEngine. */
  function AttachPlan(cfg: InsigniaConfig, b: InsigniaBuild, platforms: Option<set<string>>): seq<Step>
  {
    if !cfg.signBundleEngine then []
    else AttachRuns(cfg, b, platforms, cfg.packaged.packageOutputExtension)
  }

  /** execute of the net.sf.wix class: skip returns; the bundle's extension is the raw packaging. */
  function LegacyAttachPlan(cfg: InsigniaConfig, b: InsigniaBuild, platforms: Option<set<string>>): seq<Step>
  {
    if cfg.skip then []
    else if !cfg.signBundleEngine then []
    else AttachRuns(cfg, b, platforms, cfg.packaged.packaging)
  }

  /**
   * The current attach-bundle goal runs whether or not it is skipped; the older one stops
   * when skipped. Otherwise they differ only in the bundle's extension.
   */
  lemma AttachSkipDiffers(cfg: InsigniaConfig, b: InsigniaBuild, platforms: Option<set<string>>)
    ensures AttachPlan(cfg.(skip := true), b, platforms) == AttachPlan(cfg.(skip := false), b, platforms)
    ensures cfg.skip ==> LegacyAttachPlan(cfg, b, platforms) == []
    ensures !cfg.skip ==> (LegacyAttachPlan(cfg, b, platforms) ==
      AttachPlan(cfg.(packaged := cfg.packaged.(packageOutputExtension := cfg.packaged.packaging)), b, platforms))
    ensures !cfg.signBundleEngine ==> AttachPlan(cfg, b, platforms) == [] && LegacyAttachPlan(cfg, b, platforms) == []
  {
  }

  /** Past the gates, attach runs exactly once per platform and culture spec. */
  lemma AttachRunsEach(cfg: InsigniaConfig, b: InsigniaBuild, platforms: Option<set<string>>, ext: string, s: Step)
    requires Exists(b.fs, ToolExecutable(cfg.toolDirectory, "insignia.exe"))
    requires IsIterationOrder(b.order) && IsIterationOrder(b.cultureOrder)
    ensures var plan := AttachRuns(cfg, b, platforms, ext);
      && |plan| == |DefaultPlatforms(platforms)| * |cfg.packaged.culturespecs|
      && (s in plan <==>
            exists arch, c :: arch in DefaultPlatforms(platforms) && c in cfg.packaged.culturespecs
              && s == AttachCall(EngineOf(cfg), b, ToolExecutable(cfg.toolDirectory, "insignia.exe"), ext, (arch, c)))
  {
    var exe := ToolExecutable(cfg.toolDirectory, "insignia.exe");
    var archs := b.order(DefaultPlatforms(platforms));
    var cultures := b.cultureOrder(cfg.packaged.culturespecs);
    CrossSingles(archs, cultures, AttachEach(EngineOf(cfg), b, exe, ext), s);
    VariantsCover(cfg, b, platforms, "", None);
    if s in AttachRuns(cfg, b, platforms, ext) {
      var arch, c :| arch in archs && c in cultures && s == AttachEach(EngineOf(cfg), b, exe, ext)((arch, c));
      VariantsCover(cfg, b, platforms, arch, c);
      CrossMembers(archs, cultures, arch, c);
    }
    if exists arch, c :: arch in DefaultPlatforms(platforms) && c in cfg.packaged.culturespecs && s == AttachCall(EngineOf(cfg), b, exe, ext, (arch, c)) {
      var arch, c :| arch in DefaultPlatforms(platforms) && c in cfg.packaged.culturespecs && s == AttachCall(EngineOf(cfg), b, exe, ext, (arch, c));
      VariantsCover(cfg, b, platforms, arch, c);
      CrossMembers(archs, cultures, arch, c);
    }
  }

  // ---- detach-bundle ----

  /** insignia -ib <bundle> -out <engine>: the engine is taken out of the bundle for signing. */
  function DetachCall(e: EngineSettings, b: InsigniaBuild, exe: string, ext: string, v: Variant): (r: Step)
    ensures r.Call? && r.call.executable == exe
    ensures var args := r.call.arguments;
      |args| >= 4 && args[|args| - 4..] == ["-ib", b.output(v.0, v.1, ext), "-out", EngineFile(e, v)]
  {
    InsigniaStep(Invocation(exe, None, GeneralOptions(e.verbose) + ["-ib", b.output(v.0, v.1, ext), "-out", EngineFile(e, v)]))
  }

  function DetachEach(e: EngineSettings, b: InsigniaBuild, exe: string, ext: string): Variant -> Step
  {
    (v: Variant) => DetachCall(e, b, exe, ext, v)
  }

  /**
   * One pass of the detach loop: the engine folder is made when it is not there (mkdirs
   * also makes the platform folder above a culture's folder), then insignia runs.
   */
  function DetachPass(e: EngineSettings, b: InsigniaBuild, exe: string, ext: string): (set<string>, Variant) -> (seq<Step>, set<string>)
  {
    (made: set<string>, v: Variant) =>
      (MakeIfMissing(b.fs, made, EngineFolder(e, v)) + [DetachCall(e, b, exe, ext, v)],
       made + {EngineFolder(e, v), EngineFolder(e, (v.0, None))})
  }

  function DetachRuns(cfg: InsigniaConfig, b: InsigniaBuild, platforms: Option<set<string>>, ext: string): seq<Step>
  {
    var tool := ValidateInsignia(b.fs, cfg.toolDirectory);
    if tool.Err? then [Throw(tool.error)]
    else Fold({}, Variants(cfg, b, platforms), DetachPass(EngineOf(cfg), b, tool.value, ext)).0
  }

  /** execute of the current class: skip and signBundleEngine both stop the goal. */
  function DetachPlan(cfg: InsigniaConfig, b: InsigniaBuild, platforms: Option<set<string>>): seq<Step>
  {
    if cfg.skip || !cfg.signBundleEngine then []
    else DetachRuns(cfg, b, platforms, cfg.packaged.packageOutputExtension)
  }

  /** execute of the net.sf.wix class: the same gates; the bundle's extension is the raw packaging. */
  function LegacyDetachPlan(cfg: InsigniaConfig, b: InsigniaBuild, platforms: Option<set<string>>): seq<Step>
  {
    if cfg.skip || !cfg.signBundleEngine then []
    else DetachRuns(cfg, b, platforms, cfg.packaged.packaging)
  }

  /** The two generations differ only in the bundle's extension. */
  lemma LegacyDetachUsesPackaging(cfg: InsigniaConfig, b: InsigniaBuild, platforms: Option<set<string>>)
    ensures LegacyDetachPlan(cfg, b, platforms) ==
      DetachPlan(cfg.(packaged := cfg.packaged.(packageOutputExtension := cfg.packaged.packaging)), b, platforms)
  {
    var cfg' := cfg.(packaged := cfg.packaged.(packageOutputExtension := cfg.packaged.packaging));
    assert Variants(cfg, b, platforms) == Variants(cfg', b, platforms);
    assert EngineOf(cfg) == EngineOf(cfg');
  }

  /** Whatever folders are made first, a pass runs exactly its own insignia call. */
  lemma DetachPassCalls(e: EngineSettings, b: InsigniaBuild, exe: string, ext: string)
    ensures OneCallPerPass(DetachPass(e, b, exe, ext), DetachEach(e, b, exe, ext))
  {
    forall made, v
      ensures Select(DetachPass(e, b, exe, ext)(made, v).0, IsCall) == Singles(DetachEach(e, b, exe, ext))(v)
    {
      var mk := MakeIfMissing(b.fs, made, EngineFolder(e, v));
      var call := DetachCall(e, b, exe, ext, v);
      SelectConcat(mk, [call], IsCall);
      SelectSingle(call, IsCall);
      if mk != [] {
        SelectSingle(mk[0], IsCall);
      }
    }
  }

  /**
   * Past the gates, detach runs insignia exactly once per platform and culture spec; every
   * other step makes an engine folder.
   */
  lemma DetachRunsEach(cfg: InsigniaConfig, b: InsigniaBuild, platforms: Option<set<string>>, ext: string, s: Step)
    requires Exists(b.fs, ToolExecutable(cfg.toolDirectory, "insignia.exe"))
    requires IsIterationOrder(b.order) && IsIterationOrder(b.cultureOrder)
    ensures var calls := Calls(DetachRuns(cfg, b, platforms, ext));
      && |calls| == |DefaultPlatforms(platforms)| * |cfg.packaged.culturespecs|
      && (s in calls <==>
            exists arch, c :: arch in DefaultPlatforms(platforms) && c in cfg.packaged.culturespecs
              && s == DetachCall(EngineOf(cfg), b, ToolExecutable(cfg.toolDirectory, "insignia.exe"), ext, (arch, c)))
  {
    var exe := ToolExecutable(cfg.toolDirectory, "insignia.exe");
    var archs := b.order(DefaultPlatforms(platforms));
    var cultures := b.cultureOrder(cfg.packaged.culturespecs);
    DetachPassCalls(EngineOf(cfg), b, exe, ext);
    FoldCalls({}, Variants(cfg, b, platforms), DetachPass(EngineOf(cfg), b, exe, ext), DetachEach(EngineOf(cfg), b, exe, ext));
    CrossSingles(archs, cultures, DetachEach(EngineOf(cfg), b, exe, ext), s);
    VariantsCover(cfg, b, platforms, "", None);
    if s in Calls(DetachRuns(cfg, b, platforms, ext)) {
      var arch, c :| arch in archs && c in cultures && s == DetachEach(EngineOf(cfg), b, exe, ext)((arch, c));
      VariantsCover(cfg, b, platforms, arch, c);
      CrossMembers(archs, cultures, arch, c);
    }
    if exists arch, c :: arch in DefaultPlatforms(platforms) && c in cfg.packaged.culturespecs && s == DetachCall(EngineOf(cfg), b, exe, ext, (arch, c)) {
      var arch, c :| arch in DefaultPlatforms(platforms) && c in cfg.packaged.culturespecs && s == DetachCall(EngineOf(cfg), b, exe, ext, (arch, c));
      VariantsCover(cfg, b, platforms, arch, c);
      CrossMembers(archs, cultures, arch, c);
    }
  }

  // ---- the goals ----

  method InscribeOne(cfg: InsigniaConfig, b: InsigniaBuild, exe: string, v: Variant) returns (step: Step)
    ensures step == InscribeCall(cfg, b, exe, v)
  {
    var cl := InsigniaCommand(exe, cfg.verbose);
    cl.AddArguments(["-im", b.output(v.0, v.1, cfg.packaged.packageOutputExtension)]);
    step := InsigniaStep(cl.Snapshot());
  }

  method AttachOne(e: EngineSettings, b: InsigniaBuild, exe: string, ext: string, v: Variant) returns (step: Step)
    ensures step == AttachCall(e, b, exe, ext, v)
  {
    var cl := InsigniaCommand(exe, e.verbose);
    var bundle := b.output(v.0, v.1, ext);
    cl.AddArguments(["-ab", EngineFile(e, v), bundle, "-out", bundle]);
    step := InsigniaStep(cl.Snapshot());
  }

  method DetachOne(e: EngineSettings, b: InsigniaBuild, exe: string, ext: string, made: set<string>, v: Variant)
    returns (steps: seq<Step>, made': set<string>)
    ensures (steps, made') == DetachPass(e, b, exe, ext)(made, v)
  {
    var cl := InsigniaCommand(exe, e.verbose);
    var folder := EngineFolder(e, v);
    var mkdirs: seq<Step> := [];
    if !(Exists(b.fs, folder) || folder in made) {
      mkdirs := [Do(CreateDirectories(folder))];
    }
    assert mkdirs == MakeIfMissing(b.fs, made, folder);
    made' := made + {folder, EngineFolder(e, (v.0, None))};
    cl.AddArguments(["-ib", b.output(v.0, v.1, ext), "-out", Child(folder, e.bundleEngineName)]);
    assert cl.Snapshot() == DetachCall(e, b, exe, ext, v).call;
    steps := mkdirs + [InsigniaStep(cl.Snapshot())];
  }

  /** The nested loop of inscribe: platforms outside, culture specs inside. */
  method InscribeLoop(cfg: InsigniaConfig, b: InsigniaBuild, exe: string, archs: seq<string>, cultures: seq<Option<string>>)
    returns (plan: seq<Step>)
    ensures plan == FlatMap(Cross(archs, cultures), Singles(InscribeEach(cfg, b, exe)))
  {
    ghost var f := Singles(InscribeEach(cfg, b, exe));
    plan := [];
    var i := 0;
    while i < |archs|
      invariant 0 <= i <= |archs|
      invariant plan == FlatMap(Cross(archs[..i], cultures), f)
    {
      CrossRowEnds(archs, cultures, i);
      var j := 0;
      while j < |cultures|
        invariant 0 <= j <= |cultures|
        invariant plan == FlatMap(Cross(archs[..i], cultures) + Row(archs[i], cultures[..j]), f)
      {
        CrossStep(archs, cultures, f, i, j);
        var step := InscribeOne(cfg, b, exe, (archs[i], cultures[j]));
        plan := plan + [step];
        j := j + 1;
      }
      i := i + 1;
    }
    assert archs[..i] == archs;
  }

  /** The nested loop of attach-bundle. */
  method AttachLoop(e: EngineSettings, b: InsigniaBuild, exe: string, ext: string, archs: seq<string>, cultures: seq<Option<string>>)
    returns (plan: seq<Step>)
    ensures plan == FlatMap(Cross(archs, cultures), Singles(AttachEach(e, b, exe, ext)))
  {
    ghost var f := Singles(AttachEach(e, b, exe, ext));
    plan := [];
    var i := 0;
    while i < |archs|
      invariant 0 <= i <= |archs|
      invariant plan == FlatMap(Cross(archs[..i], cultures), f)
    {
      CrossRowEnds(archs, cultures, i);
      var j := 0;
      while j < |cultures|
        invariant 0 <= j <= |cultures|
        invariant plan == FlatMap(Cross(archs[..i], cultures) + Row(archs[i], cultures[..j]), f)
      {
        CrossStep(archs, cultures, f, i, j);
        var step := AttachOne(e, b, exe, ext, (archs[i], cultures[j]));
        plan := plan + [step];
        j := j + 1;
      }
      i := i + 1;
    }
    assert archs[..i] == archs;
  }

  /** The nested loop of detach-bundle, carrying the folders made so far. */
  method DetachLoop(e: EngineSettings, b: InsigniaBuild, exe: string, ext: string, archs: seq<string>, cultures: seq<Option<string>>)
    returns (plan: seq<Step>)
    ensures plan == Fold({}, Cross(archs, cultures), DetachPass(e, b, exe, ext)).0
  {
    ghost var f := DetachPass(e, b, exe, ext);
    var made: set<string> := {};
    plan := [];
    var i := 0;
    while i < |archs|
      invariant 0 <= i <= |archs|
      invariant (plan, made) == Fold({}, Cross(archs[..i], cultures), f)
    {
      CrossRowEnds(archs, cultures, i);
      var j := 0;
      while j < |cultures|
        invariant 0 <= j <= |cultures|
        invariant (plan, made) == Fold({}, Cross(archs[..i], cultures) + Row(archs[i], cultures[..j]), f)
      {
        CrossNext(archs, cultures, i, j);
        FoldSnoc({}, Cross(archs[..i], cultures) + Row(archs[i], cultures[..j]), (archs[i], cultures[j]), f);
        var steps;
        steps, made := DetachOne(e, b, exe, ext, made, (archs[i], cultures[j]));
        plan := plan + steps;
        j := j + 1;
      }
      i := i + 1;
    }
    assert archs[..i] == archs;
  }

  /** execute of both inscribe goals. */
  method InscribeExecute(cfg: InsigniaConfig, b: InsigniaBuild, setting: PlatformSetting) returns (plan: seq<Step>)
    modifies setting
    ensures plan == InscribePlan(cfg, b, old(setting.platforms))
  {
    if !cfg.inscribePackage {
      return [];
    }
    if cfg.skip {
      return [];
    }
    var tool := ValidateInsignia(b.fs, cfg.toolDirectory);
    if tool.Err? {
      return [Throw(tool.error)];
    }
    var platforms := setting.GetPlatforms();
    plan := InscribeLoop(cfg, b, tool.value, b.order(platforms), b.cultureOrder(cfg.packaged.culturespecs));
  }

  method AttachRunAll(cfg: InsigniaConfig, b: InsigniaBuild, setting: PlatformSetting, ext: string) returns (plan: seq<Step>)
    modifies setting
    ensures plan == AttachRuns(cfg, b, old(setting.platforms), ext)
  {
    var tool := ValidateInsignia(b.fs, cfg.toolDirectory);
    if tool.Err? {
      return [Throw(tool.error)];
    }
    var platforms := setting.GetPlatforms();
    plan := AttachLoop(EngineOf(cfg), b, tool.value, ext, b.order(platforms), b.cultureOrder(cfg.packaged.culturespecs));
  }

  /** execute of the current attach-bundle goal: skip is logged and the goal goes on. */
  method AttachExecute(cfg: InsigniaConfig, b: InsigniaBuild, setting: PlatformSetting) returns (plan: seq<Step>)
    modifies setting
    ensures plan == AttachPlan(cfg, b, old(setting.platforms))
  {
    if !cfg.signBundleEngine {
      return [];
    }
    plan := AttachRunAll(cfg, b, setting, cfg.packaged.packageOutputExtension);
  }

  /** execute of the net.sf.wix attach-bundle goal. */
  method LegacyAttachExecute(cfg: InsigniaConfig, b: InsigniaBuild, setting: PlatformSetting) returns (plan: seq<Step>)
    modifies setting
    ensures plan == LegacyAttachPlan(cfg, b, old(setting.platforms))
  {
    if cfg.skip {
      return [];
    }
    if !cfg.signBundleEngine {
      return [];
    }
    plan := AttachRunAll(cfg, b, setting, cfg.packaged.packaging);
  }

  method DetachRunAll(cfg: InsigniaConfig, b: InsigniaBuild, setting: PlatformSetting, ext: string) returns (plan: seq<Step>)
    modifies setting
    ensures plan == DetachRuns(cfg, b, old(setting.platforms), ext)
  {
    var tool := ValidateInsignia(b.fs, cfg.toolDirectory);
    if tool.Err? {
      return [Throw(tool.error)];
    }
    var platforms := setting.GetPlatforms();
    plan := DetachLoop(EngineOf(cfg), b, tool.value, ext, b.order(platforms), b.cultureOrder(cfg.packaged.culturespecs));
  }

  /** execute of the current detach-bundle goal. */
  method DetachExecute(cfg: InsigniaConfig, b: InsigniaBuild, setting: PlatformSetting) returns (plan: seq<Step>)
    modifies setting
    ensures plan == DetachPlan(cfg, b, old(setting.platforms))
  {
    if cfg.skip || !cfg.signBundleEngine {
      return [];
    }
    plan := DetachRunAll(cfg, b, setting, cfg.packaged.packageOutputExtension);
  }

  /** execute of the net.sf.wix detach-bundle goal. */
  method LegacyDetachExecute(cfg: InsigniaConfig, b: InsigniaBuild, setting: PlatformSetting) returns (plan: seq<Step>)
    modifies setting
    ensures plan == LegacyDetachPlan(cfg, b, old(setting.platforms))
  {
    if cfg.skip || !cfg.signBundleEngine {
      return [];
    }
    plan := DetachRunAll(cfg, b, setting, cfg.packaged.packaging);
  }
}
