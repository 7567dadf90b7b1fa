// PackageMojo: the package goal. Per platform it attaches the built packages, program
// databases and transforms a merge and pack level ask for, and copies the external
// cabinets into a folder per classifier.
module Package {
  import opened Wrappers
  import opened JavaText
  import opened Files
  import opened Seqs
  import opened Runtime
  import opened WixMojo
  import opened Packageable
  import opened Plans

  datatype PackageConfig = PackageConfig(
    skip: bool,
    verbose: bool,
    projectBasedir: string,
    /** project.getBuild().getOutputDirectory() */
    buildOutputDirectory: string,
    outputDirectory: Option<string>,
    cabCacheDirectory: Option<string>,
    packaged: Packaged)

  /** The world as the goal sees it: files, the iteration order of a string set and getOutput. */
  datatype PackageBuild = PackageBuild(
    fs: FileSystem,
    order: set<string> -> seq<string>,
    output: (string, Option<string>, string) -> string)

  /** The folder the external cabinets are collected in. */
  function CabsCollection(cfg: PackageConfig): string
  {
    Child(cfg.buildOutputDirectory, "cabs")
  }

  /** PACK_INSTALL.equalsIgnoreCase(getPackaging()) */
  predicate Installs(p: Packaged)
  {
    EqualsIgnoreCase(p.packaging, "msi")
  }

  /** PACK_PATCH.equalsIgnoreCase(getPackaging()) */
  predicate Patches(p: Packaged)
  {
    EqualsIgnoreCase(p.packaging, "msp")
  }

  function AttachStep(artifactType: string, classifier: string, file: string): Step
  {
    Do(Attach(artifactType, Some(classifier), file))
  }

  // ---- packageCabs ----

  /** One cabinet name: blank names are skipped, a missing cabinet only warns, else it is copied. */
  function CabCopy(fs: FileSystem, sourceFolder: string, target: string, cab: string): (r: seq<Step>)
    ensures |r| <= 1
    ensures r != [] <==> Trim(cab) != "" && Exists(fs, Child(sourceFolder, Trim(cab))) && IsFile(fs, Child(sourceFolder, Trim(cab)))
    ensures r != [] ==> r[0] == Do(Copy(Child(sourceFolder, Trim(cab)), target))
  {
    var name := Trim(cab);
    if name == "" then []
    else
      var file := Child(sourceFolder, name);
      if Exists(fs, file) && IsFile(fs, file) then [Do(Copy(file, target))] else []
  }

  function CabCopyEach(fs: FileSystem, sourceFolder: string, target: string): string -> seq<Step>
  {
    (cab: string) => CabCopy(fs, sourceFolder, target, cab)
  }

  /**
   * packageCabs: the classifier's folder under the cabinet collection is made when it is
   * not there, then each cabinet of the variant's folder under sourceDir is copied into it.
   */
  function PackageCabs(cfg: PackageConfig, b: PackageBuild, made: set<string>, arch: string, sourceDir: Option<string>,
                       classifierBase: string, culture: Option<string>): (seq<Step>, set<string>)
  {
    var target := Child(CabsCollection(cfg), classifierBase);
    var source := OutputPath(cfg.projectBasedir, sourceDir, arch, culture);
    (MakeIfMissing(b.fs, made, target) + FlatMap(cfg.packaged.externalCabs, CabCopyEach(b.fs, source, target)),
     made + {target})
  }

  // ---- one platform ----

  /** The classifier of the base culture's files: <arch>-neutral or <arch>-<primary culture>. */
  function BaseClassifier(cfg: PackageConfig, arch: string): string
  {
    VariantClassifier(arch, cfg.packaged.baseCulturespec)
  }

  /** The base package is attached unless the merge level is repack and the pack level lacks package. */
  predicate AttachesBase(p: Packaged)
  {
    !p.merge.isRepack || p.pack.package
  }

  /** The transforms are attached for (repack and mst) or (transform and (default or mst)). */
  predicate AttachesTransforms(p: Packaged)
  {
    (p.merge.isRepack && p.pack.mst) || (p.merge.isTransform && (p.pack.usesDefault || p.pack.mst))
  }

  /** Each culture's package is attached for package, or for a default merge and default pack level. */
  predicate AttachesCulturePackages(p: Packaged)
  {
    p.pack.package || (p.merge.isDefault && p.pack.usesDefault)
  }

  /** Only msi packages are repacked, and only for the repack merge level. */
  predicate Repacks(p: Packaged)
  {
    p.merge.isRepack && Installs(p)
  }

  /** The alternate cultures are handled for msi and msp builds whose merge level is not base. */
  predicate HandlesCultures(p: Packaged)
  {
    !p.merge.isBase && (Installs(p) || Patches(p))
  }

  /** The base package, under the base classifier, when the merge and pack levels ask for it. */
  function BaseAttachment(cfg: PackageConfig, b: PackageBuild, arch: string): seq<Step>
  {
    var p := cfg.packaged;
    if AttachesBase(p) then [AttachStep(p.packaging, BaseClassifier(cfg, arch), b.output(arch, p.baseCulturespec, p.packageOutputExtension))]
    else []
  }

  /** The repacked package, under <arch>-multi, for a repacked msi whose pack level has default. */
  function MultiAttachment(cfg: PackageConfig, b: PackageBuild, arch: string): seq<Step>
  {
    var p := cfg.packaged;
    if Repacks(p) && p.pack.usesDefault then [AttachStep(p.packaging, arch + "-multi", b.output(arch, None, p.packageOutputExtension))]
    else []
  }

  /** The base package attached, with its cabinets when the pack level has culture cabinets. */
  function BasePart(cfg: PackageConfig, b: PackageBuild, made: set<string>, arch: string): (seq<Step>, set<string>)
  {
    if AttachesBase(cfg.packaged) then
      var attach := BaseAttachment(cfg, b, arch);
      if cfg.packaged.pack.cultureCab then Then((attach, made), PackageCabs(cfg, b, made, arch, cfg.outputDirectory, BaseClassifier(cfg, arch), None))
      else (attach, made)
    else ([], made)
  }

  /** The base culture's program database, when the pack level has wixpdb and the file is there. */
  function PdbPart(cfg: PackageConfig, b: PackageBuild, arch: string): seq<Step>
  {
    var pdb := b.output(arch, cfg.packaged.baseCulturespec, "wixpdb");
    if cfg.packaged.pack.wixpdb && Exists(b.fs, pdb) then [AttachStep("wixpdb", BaseClassifier(cfg, arch), pdb)] else []
  }

  /** The cabinet cache's cabinets, collected under the platform's name. */
  function CachedPart(cfg: PackageConfig, b: PackageBuild, made: set<string>, arch: string): (seq<Step>, set<string>)
  {
    if cfg.packaged.pack.cachedCab then PackageCabs(cfg, b, made, arch, cfg.cabCacheDirectory, arch, None)
    else ([], made)
  }

  /** The repacked multi-culture package, under <arch>-multi. */
  function RepackPart(cfg: PackageConfig, b: PackageBuild, made: set<string>, arch: string): (seq<Step>, set<string>)
  {
    var p := cfg.packaged;
    if Repacks(p) then
      var attach := MultiAttachment(cfg, b, arch);
      if p.pack.cultureCab || p.pack.usesDefault then Then((attach, made), PackageCabs(cfg, b, made, arch, cfg.outputDirectory, arch + "-multi", None))
      else (attach, made)
    else ([], made)
  }

  /** What is attached for one alternate culture: its program database, transform and package. */
  function CultureAttachments(cfg: PackageConfig, b: PackageBuild, arch: string, culture: string): seq<Step>
  {
    var p := cfg.packaged;
    var classifier := VariantClassifier(arch, Some(culture));
    var pdb := b.output(arch, Some(culture), "wixpdb");
    var mst := b.output(arch, Some(culture), "mst");
    var package := b.output(arch, Some(culture), p.packageOutputExtension);
    (if p.pack.wixpdb && Exists(b.fs, pdb) then [AttachStep("wixpdb", classifier, pdb)] else [])
    + (if AttachesTransforms(p) && Exists(b.fs, mst) then [AttachStep("mst", classifier, mst)] else [])
    + (if AttachesCulturePackages(p) && Exists(b.fs, package) then [AttachStep(p.packaging, classifier, package)] else [])
  }

  /** An alternate culture's cabinets, when the pack level has culture cabinets. */
  function CultureCabs(cfg: PackageConfig, b: PackageBuild, made: set<string>, arch: string, culture: string): (seq<Step>, set<string>)
  {
    if cfg.packaged.pack.cultureCab
    then PackageCabs(cfg, b, made, arch, cfg.outputDirectory, VariantClassifier(arch, Some(culture)), Some(culture))
    else ([], made)
  }

  /** One alternate culture: its cabinets, then its attachments. */
  function CulturePass(cfg: PackageConfig, b: PackageBuild, arch: string): (set<string>, string) -> (seq<Step>, set<string>)
  {
    (made: set<string>, culture: string) =>
      Then(CultureCabs(cfg, b, made, arch, culture), (CultureAttachments(cfg, b, arch, culture), CultureCabs(cfg, b, made, arch, culture).1))
  }

  function CulturesPart(cfg: PackageConfig, b: PackageBuild, made: set<string>, arch: string): (seq<Step>, set<string>)
  {
    if HandlesCultures(cfg.packaged) then Fold(made, b.order(cfg.packaged.alternateCulturespecs), CulturePass(cfg, b, arch))
    else ([], made)
  }

  /** One platform: the five parts in the order the goal takes them. */
  function ArchStep(cfg: PackageConfig, b: PackageBuild, made: set<string>, arch: string): (seq<Step>, set<string>)
  {
    var base := BasePart(cfg, b, made, arch);
    var pdb := Then(base, (PdbPart(cfg, b, arch), base.1));
    var cached := Then(pdb, CachedPart(cfg, b, pdb.1, arch));
    var repack := Then(cached, RepackPart(cfg, b, cached.1, arch));
    Then(repack, CulturesPart(cfg, b, repack.1, arch))
  }

  function ArchPass(cfg: PackageConfig, b: PackageBuild): (set<string>, string) -> (seq<Step>, set<string>)
  {
    (made: set<string>, arch: string) => ArchStep(cfg, b, made, arch)
  }

  /** The cabinet collection is made first when there are external cabinets and it is missing. */
  function PackageStart(cfg: PackageConfig, b: PackageBuild): (seq<Step>, set<string>)
  {
    if |cfg.packaged.externalCabs| > 0 && !Exists(b.fs, CabsCollection(cfg))
    then ([Do(CreateDirectories(CabsCollection(cfg)))], {CabsCollection(cfg)})
    else ([], {})
  }

  /** execute: nothing when skipped; otherwise the collection folder, then each platform in turn. */
  function PackagePlan(cfg: PackageConfig, b: PackageBuild, platforms: Option<set<string>>): seq<Step>
  {
    if cfg.skip then []
    else
      var start := PackageStart(cfg, b);
      Then(start, Fold(start.1, b.order(DefaultPlatforms(platforms)), ArchPass(cfg, b))).0
  }

  // ---- what the goal attaches ----

  function IsAttach(s: Step): bool
  {
    s.Do? && s.effect.Attach?
  }

  function CultureAttachmentsEach(cfg: PackageConfig, b: PackageBuild, arch: string): string -> seq<Step>
  {
    (culture: string) => CultureAttachments(cfg, b, arch, culture)
  }

  /**
   * The attachments of one platform as a decision table: the base package, the base program
   * database, the repacked package, then each alternate culture's attachments.
   */
  function ArchAttachments(cfg: PackageConfig, b: PackageBuild, arch: string): seq<Step>
  {
    BaseAttachment(cfg, b, arch) + PdbPart(cfg, b, arch) + MultiAttachment(cfg, b, arch)
    + (if HandlesCultures(cfg.packaged) then FlatMap(b.order(cfg.packaged.alternateCulturespecs), CultureAttachmentsEach(cfg, b, arch)) else [])
  }

  function ArchAttachmentsEach(cfg: PackageConfig, b: PackageBuild): string -> seq<Step>
  {
    (arch: string) => ArchAttachments(cfg, b, arch)
  }

  /** A copy of a non-blank cabinet name of the list, found as a file in the variant's folder. */
  predicate CopiesCab(fs: FileSystem, source: string, target: string, cabs: seq<string>, s: Step)
  {
    exists i :: 0 <= i < |cabs| && Trim(cabs[i]) != "" && IsFile(fs, Child(source, Trim(cabs[i])))
                && s == Do(Copy(Child(source, Trim(cabs[i])), target))
  }

  /**
   * packageCabs makes at most the classifier's folder, copies into it only cabinets that are
   * files, copies every non-blank cabinet that is a file, and attaches nothing.
   */
  lemma PackageCabsSteps(cfg: PackageConfig, b: PackageBuild, made: set<string>, arch: string, sourceDir: Option<string>,
                         classifierBase: string, culture: Option<string>)
    ensures var r := PackageCabs(cfg, b, made, arch, sourceDir, classifierBase, culture).0;
            var target := Child(CabsCollection(cfg), classifierBase);
            var source := OutputPath(cfg.projectBasedir, sourceDir, arch, culture);
            var cabs := cfg.packaged.externalCabs;
            && (forall s :: s in r ==> s == Do(CreateDirectories(target)) || CopiesCab(b.fs, source, target, cabs, s))
            && (forall i :: 0 <= i < |cabs| && Trim(cabs[i]) != "" && IsFile(b.fs, Child(source, Trim(cabs[i])))
                  ==> Do(Copy(Child(source, Trim(cabs[i])), target)) in r)
            && Select(r, IsAttach) == []
  {
    var r := PackageCabs(cfg, b, made, arch, sourceDir, classifierBase, culture).0;
    var target := Child(CabsCollection(cfg), classifierBase);
    var source := OutputPath(cfg.projectBasedir, sourceDir, arch, culture);
    var cabs := cfg.packaged.externalCabs;
    var mk := MakeIfMissing(b.fs, made, target);
    var f := CabCopyEach(b.fs, source, target);
    assert r == mk + FlatMap(cabs, f);
    forall s | s in r
      ensures s == Do(CreateDirectories(target)) || CopiesCab(b.fs, source, target, cabs, s)
    {
      if s !in mk {
        FlatMapMembers(cabs, f, s);
        var i :| 0 <= i < |cabs| && s in f(cabs[i]);
        assert s == CabCopy(b.fs, source, target, cabs[i])[0];
      }
    }
    forall i | 0 <= i < |cabs| && Trim(cabs[i]) != "" && IsFile(b.fs, Child(source, Trim(cabs[i])))
      ensures Do(Copy(Child(source, Trim(cabs[i])), target)) in r
    {
      assert Do(Copy(Child(source, Trim(cabs[i])), target)) in f(cabs[i]);
      FlatMapMembers(cabs, f, Do(Copy(Child(source, Trim(cabs[i])), target)));
    }
    forall k | 0 <= k < |r|
      ensures !IsAttach(r[k])
    {
      assert r[k] in r;
    }
    SelectNone(r, IsAttach);
  }

  lemma CulturePassParts(cfg: PackageConfig, b: PackageBuild, made: set<string>, arch: string, culture: string)
    ensures CulturePass(cfg, b, arch)(made, culture)
      == (CultureCabs(cfg, b, made, arch, culture).0 + CultureAttachments(cfg, b, arch, culture), CultureCabs(cfg, b, made, arch, culture).1)
  {
  }

  lemma PackageCabsAttachNothing(cfg: PackageConfig, b: PackageBuild, made: set<string>, arch: string, sourceDir: Option<string>,
                                 classifierBase: string, culture: Option<string>)
    ensures Select(PackageCabs(cfg, b, made, arch, sourceDir, classifierBase, culture).0, IsAttach) == []
  {
    PackageCabsSteps(cfg, b, made, arch, sourceDir, classifierBase, culture);
  }

  /** An alternate culture's pass attaches that culture's attachments, whatever its cabinets did. */
  lemma CultureStepAttachments(cfg: PackageConfig, b: PackageBuild, made: set<string>, arch: string, culture: string)
    ensures Select(CulturePass(cfg, b, arch)(made, culture).0, IsAttach) == CultureAttachments(cfg, b, arch, culture)
  {
    var cabs := CultureCabs(cfg, b, made, arch, culture);
    CulturePassParts(cfg, b, made, arch, culture);
    CultureCabsAttachNothing(cfg, b, made, arch, culture);
    var attachments := CultureAttachments(cfg, b, arch, culture);
    SelectConcat(cabs.0, attachments, IsAttach);
    CultureAttachmentsSelected(cfg, b, arch, culture);
  }

  lemma CultureAttachmentsSelected(cfg: PackageConfig, b: PackageBuild, arch: string, culture: string)
    ensures Select(CultureAttachments(cfg, b, arch, culture), IsAttach) == CultureAttachments(cfg, b, arch, culture)
  {
    SelectAll(CultureAttachments(cfg, b, arch, culture), IsAttach);
  }

  lemma CultureCabsAttachNothing(cfg: PackageConfig, b: PackageBuild, made: set<string>, arch: string, culture: string)
    ensures Select(CultureCabs(cfg, b, made, arch, culture).0, IsAttach) == []
  {
    if cfg.packaged.pack.cultureCab {
      PackageCabsAttachNothing(cfg, b, made, arch, cfg.outputDirectory, VariantClassifier(arch, Some(culture)), Some(culture));
    }
  }

  lemma CulturePassAttachments(cfg: PackageConfig, b: PackageBuild, arch: string)
    ensures SelectsPerPass(CulturePass(cfg, b, arch), IsAttach, CultureAttachmentsEach(cfg, b, arch))
  {
    forall made: set<string>, culture: string
      ensures Select(CulturePass(cfg, b, arch)(made, culture).0, IsAttach) == CultureAttachmentsEach(cfg, b, arch)(culture)
    {
      CultureStepAttachments(cfg, b, made, arch, culture);
    }
  }

  /** The base part attaches the base package and nothing else. */
  lemma BasePartAttachments(cfg: PackageConfig, b: PackageBuild, made: set<string>, arch: string)
    ensures Select(BasePart(cfg, b, made, arch).0, IsAttach) == BaseAttachment(cfg, b, arch)
  {
    var p := cfg.packaged;
    var attach := BaseAttachment(cfg, b, arch);
    if !AttachesBase(p) {
      assert BasePart(cfg, b, made, arch).0 == [] == attach;
    } else if p.pack.cultureCab {
      var cabs := PackageCabs(cfg, b, made, arch, cfg.outputDirectory, BaseClassifier(cfg, arch), None).0;
      assert BasePart(cfg, b, made, arch).0 == attach + cabs;
      PackageCabsAttachNothing(cfg, b, made, arch, cfg.outputDirectory, BaseClassifier(cfg, arch), None);
      SelectAll(attach, IsAttach);
      SelectConcat(attach, cabs, IsAttach);
    } else {
      assert BasePart(cfg, b, made, arch).0 == attach;
      SelectAll(attach, IsAttach);
    }
  }


  /** The repack part attaches the repacked package and nothing else. */
  lemma RepackPartAttachments(cfg: PackageConfig, b: PackageBuild, made: set<string>, arch: string)
    ensures Select(RepackPart(cfg, b, made, arch).0, IsAttach) == MultiAttachment(cfg, b, arch)
  {
    var p := cfg.packaged;
    var attach := MultiAttachment(cfg, b, arch);
    if !Repacks(p) {
      assert RepackPart(cfg, b, made, arch).0 == [] == attach;
    } else if p.pack.cultureCab || p.pack.usesDefault {
      var cabs := PackageCabs(cfg, b, made, arch, cfg.outputDirectory, arch + "-multi", None).0;
      assert RepackPart(cfg, b, made, arch).0 == attach + cabs;
      PackageCabsAttachNothing(cfg, b, made, arch, cfg.outputDirectory, arch + "-multi", None);
      SelectAll(attach, IsAttach);
      SelectConcat(attach, cabs, IsAttach);
    } else {
      assert RepackPart(cfg, b, made, arch).0 == attach;
      SelectAll(attach, IsAttach);
    }
  }


  /** The cultures part attaches each alternate culture's attachments in turn. */
  lemma CulturesPartAttachments(cfg: PackageConfig, b: PackageBuild, made: set<string>, arch: string)
    ensures Select(CulturesPart(cfg, b, made, arch).0, IsAttach)
            == if HandlesCultures(cfg.packaged) then FlatMap(b.order(cfg.packaged.alternateCulturespecs), CultureAttachmentsEach(cfg, b, arch)) else []
  {
    if HandlesCultures(cfg.packaged) {
      CulturePassAttachments(cfg, b, arch);
      FoldSelect(made, b.order(cfg.packaged.alternateCulturespecs), CulturePass(cfg, b, arch), IsAttach, CultureAttachmentsEach(cfg, b, arch));
    }
  }

  /** A platform's steps are its five parts' steps, in order. */
  lemma ArchStepParts(cfg: PackageConfig, b: PackageBuild, made: set<string>, arch: string)
    ensures var base := BasePart(cfg, b, made, arch);
            var cached := CachedPart(cfg, b, base.1, arch);
            var repack := RepackPart(cfg, b, cached.1, arch);
            ArchStep(cfg, b, made, arch).0
            == (((base.0 + PdbPart(cfg, b, arch)) + cached.0) + repack.0) + CulturesPart(cfg, b, repack.1, arch).0
  {
  }

  /** One platform's pass attaches exactly that platform's row of the decision table. */
  lemma ArchStepAttachments(cfg: PackageConfig, b: PackageBuild, made: set<string>, arch: string)
    ensures Select(ArchStep(cfg, b, made, arch).0, IsAttach) == ArchAttachments(cfg, b, arch)
  {
    var base := BasePart(cfg, b, made, arch);
    var pdb := PdbPart(cfg, b, arch);
    var cached := CachedPart(cfg, b, base.1, arch);
    var repack := RepackPart(cfg, b, cached.1, arch);
    var cultures := CulturesPart(cfg, b, repack.1, arch);
    ArchStepParts(cfg, b, made, arch);
    var s1, s2, s3 := base.0 + pdb, base.0 + pdb + cached.0, base.0 + pdb + cached.0 + repack.0;
    BasePartAttachments(cfg, b, made, arch);
    SelectAll(pdb, IsAttach);
    if cfg.packaged.pack.cachedCab {
      PackageCabsAttachNothing(cfg, b, base.1, arch, cfg.cabCacheDirectory, arch, None);
    } else {
      assert cached.0 == [];
    }
    assert Select(cached.0, IsAttach) == [];
    RepackPartAttachments(cfg, b, cached.1, arch);
    CulturesPartAttachments(cfg, b, repack.1, arch);
    var baseA, multiA, culturesA := BaseAttachment(cfg, b, arch), MultiAttachment(cfg, b, arch), Select(cultures.0, IsAttach);
    SelectConcat(base.0, pdb, IsAttach);
    assert Select(s1, IsAttach) == baseA + pdb;
    SelectConcat(s1, cached.0, IsAttach);
    assert Select(s2, IsAttach) == baseA + pdb;
    SelectConcat(s2, repack.0, IsAttach);
    assert Select(s3, IsAttach) == baseA + pdb + multiA;
    SelectConcat(s3, cultures.0, IsAttach);
    assert Select(s3 + cultures.0, IsAttach) == baseA + pdb + multiA + culturesA;
  }

  lemma ArchPassAttachments(cfg: PackageConfig, b: PackageBuild)
    ensures SelectsPerPass(ArchPass(cfg, b), IsAttach, ArchAttachmentsEach(cfg, b))
  {
    forall made: set<string>, arch: string
      ensures Select(ArchPass(cfg, b)(made, arch).0, IsAttach) == ArchAttachmentsEach(cfg, b)(arch)
    {
      ArchStepAttachments(cfg, b, made, arch);
    }
  }

  /**
   * What the package goal attaches, in order: nothing when skipped, otherwise each platform's
   * row of the decision table, platform by platform.
   */
  lemma PackageAttachments(cfg: PackageConfig, b: PackageBuild, platforms: Option<set<string>>)
    ensures Select(PackagePlan(cfg, b, platforms), IsAttach)
            == if cfg.skip then [] else FlatMap(b.order(DefaultPlatforms(platforms)), ArchAttachmentsEach(cfg, b))
  {
    if !cfg.skip {
      var start := PackageStart(cfg, b);
      var archs := b.order(DefaultPlatforms(platforms));
      var loop := Fold(start.1, archs, ArchPass(cfg, b));
      ArchPassAttachments(cfg, b);
      FoldSelect(start.1, archs, ArchPass(cfg, b), IsAttach, ArchAttachmentsEach(cfg, b));
      SelectNone(start.0, IsAttach);
      SelectConcat(start.0, loop.0, IsAttach);
    }
  }

  // ---- what kinds of step the goal takes ----

  /** A folder directly inside the cabinet collection. */
  ghost predicate InCollection(cfg: PackageConfig, dir: string)
  {
    exists c :: dir == Child(CabsCollection(cfg), c)
  }

  /**
   * The steps the package goal can take: it runs no tool and never fails; it makes the
   * cabinet collection or a folder in it, copies files that are there into such a folder,
   * and attaches artifacts, always with a classifier.
   */
  ghost predicate PackageEffect(cfg: PackageConfig, b: PackageBuild, s: Step)
  {
    s.Do? &&
    match s.effect
    case CreateDirectories(dir) => dir == CabsCollection(cfg) || InCollection(cfg, dir)
    case Copy(source, target) => IsFile(b.fs, source) && InCollection(cfg, target)
    case Attach(_, classifier, _) => classifier.Some?
    case _ => false
  }

  ghost function PackageEffectOf(cfg: PackageConfig, b: PackageBuild): Step -> bool
  {
    (s: Step) => PackageEffect(cfg, b, s)
  }

  lemma PackageCabsEffects(cfg: PackageConfig, b: PackageBuild, made: set<string>, arch: string, sourceDir: Option<string>,
                           classifierBase: string, culture: Option<string>)
    ensures AllSteps(PackageCabs(cfg, b, made, arch, sourceDir, classifierBase, culture).0, PackageEffectOf(cfg, b))
  {
    var r := PackageCabs(cfg, b, made, arch, sourceDir, classifierBase, culture).0;
    var target := Child(CabsCollection(cfg), classifierBase);
    assert InCollection(cfg, target);
    PackageCabsSteps(cfg, b, made, arch, sourceDir, classifierBase, culture);
    forall k | 0 <= k < |r|
      ensures PackageEffect(cfg, b, r[k])
    {
      assert r[k] in r;
    }
  }

  /** Attachments made by the goal always carry a classifier. */
  lemma AttachmentsEffects(cfg: PackageConfig, b: PackageBuild, steps: seq<Step>)
    requires forall k :: 0 <= k < |steps| ==> steps[k].Do? && steps[k].effect.Attach? && steps[k].effect.classifier.Some?
    ensures AllSteps(steps, PackageEffectOf(cfg, b))
  {
  }

  lemma CultureStepEffects(cfg: PackageConfig, b: PackageBuild, made: set<string>, arch: string, culture: string)
    ensures AllSteps(CulturePass(cfg, b, arch)(made, culture).0, PackageEffectOf(cfg, b))
  {
    var cabs := CultureCabs(cfg, b, made, arch, culture).0;
    var attachments := CultureAttachments(cfg, b, arch, culture);
    CulturePassParts(cfg, b, made, arch, culture);
    if cfg.packaged.pack.cultureCab {
      PackageCabsEffects(cfg, b, made, arch, cfg.outputDirectory, VariantClassifier(arch, Some(culture)), Some(culture));
    } else {
      assert cabs == [];
    }
    AttachmentsEffects(cfg, b, attachments);
    AllStepsConcat(cabs, attachments, PackageEffectOf(cfg, b));
  }


  lemma ArchStepEffects(cfg: PackageConfig, b: PackageBuild, made: set<string>, arch: string)
    ensures AllSteps(ArchStep(cfg, b, made, arch).0, PackageEffectOf(cfg, b))
  {
    var p := cfg.packaged;
    var ok := PackageEffectOf(cfg, b);
    var base := BasePart(cfg, b, made, arch);
    var pdb := PdbPart(cfg, b, arch);
    var cached := CachedPart(cfg, b, base.1, arch);
    var repack := RepackPart(cfg, b, cached.1, arch);
    var cultures := CulturesPart(cfg, b, repack.1, arch);
    ArchStepParts(cfg, b, made, arch);
    AttachmentsEffects(cfg, b, BaseAttachment(cfg, b, arch));
    if AttachesBase(p) && p.pack.cultureCab {
      PackageCabsEffects(cfg, b, made, arch, cfg.outputDirectory, BaseClassifier(cfg, arch), None);
      AllStepsConcat(BaseAttachment(cfg, b, arch), PackageCabs(cfg, b, made, arch, cfg.outputDirectory, BaseClassifier(cfg, arch), None).0, ok);
    }
    AttachmentsEffects(cfg, b, pdb);
    if p.pack.cachedCab {
      PackageCabsEffects(cfg, b, base.1, arch, cfg.cabCacheDirectory, arch, None);
    }
    AttachmentsEffects(cfg, b, MultiAttachment(cfg, b, arch));
    if Repacks(p) && (p.pack.cultureCab || p.pack.usesDefault) {
      PackageCabsEffects(cfg, b, cached.1, arch, cfg.outputDirectory, arch + "-multi", None);
      AllStepsConcat(MultiAttachment(cfg, b, arch), PackageCabs(cfg, b, cached.1, arch, cfg.outputDirectory, arch + "-multi", None).0, ok);
    }
    if HandlesCultures(p) {
      forall st: set<string>, culture: string
        ensures AllSteps(CulturePass(cfg, b, arch)(st, culture).0, ok)
      {
        CultureStepEffects(cfg, b, st, arch, culture);
      }
      FoldAllSteps(repack.1, b.order(p.alternateCulturespecs), CulturePass(cfg, b, arch), ok);
    }
    AllStepsConcat(base.0, pdb, ok);
    AllStepsConcat(base.0 + pdb, cached.0, ok);
    AllStepsConcat(base.0 + pdb + cached.0, repack.0, ok);
    AllStepsConcat(base.0 + pdb + cached.0 + repack.0, cultures.0, ok);
  }

  /** Every step of the package goal's plan is of the kinds PackageEffect allows. */
  lemma PackageSteps(cfg: PackageConfig, b: PackageBuild, platforms: Option<set<string>>)
    ensures AllSteps(PackagePlan(cfg, b, platforms), PackageEffectOf(cfg, b))
  {
    if !cfg.skip {
      var ok := PackageEffectOf(cfg, b);
      var start := PackageStart(cfg, b);
      var archs := b.order(DefaultPlatforms(platforms));
      forall st: set<string>, arch: string
        ensures AllSteps(ArchPass(cfg, b)(st, arch).0, ok)
      {
        ArchStepEffects(cfg, b, st, arch);
      }
      FoldAllSteps(start.1, archs, ArchPass(cfg, b), ok);
      AllStepsConcat(start.0, Fold(start.1, archs, ArchPass(cfg, b)).0, ok);
    }
  }

  // ---- one culture's attachments ----

  lemma PackagingIsNotAttachedType(p: Packaged)
    requires Installs(p) || Patches(p)
    ensures p.packaging != "wixpdb" && p.packaging != "mst"
  {
    assert !EqualsIgnoreCase("mst", "msi") && !EqualsIgnoreCase("mst", "msp") by {
      assert Lower("mst"[2]) != Lower("msi"[2]) && Lower("mst"[2]) != Lower("msp"[2]);
    }
  }

  /**
   * For an msi or msp build, an alternate culture gets its program database exactly when the
   * pack level has wixpdb and the file is there, its transform exactly when the merge and pack
   * levels capture transforms and the file is there (a missing one only warns), and its
   * package exactly when the levels ask for culture packages and the file is there.
   */
  lemma CultureAttachmentDecisions(cfg: PackageConfig, b: PackageBuild, arch: string, culture: string)
    requires Installs(cfg.packaged) || Patches(cfg.packaged)
    ensures var p := cfg.packaged;
            var r := CultureAttachments(cfg, b, arch, culture);
            var classifier := Some(VariantClassifier(arch, Some(culture)));
            var pdb := b.output(arch, Some(culture), "wixpdb");
            var mst := b.output(arch, Some(culture), "mst");
            var package := b.output(arch, Some(culture), p.packageOutputExtension);
            && |r| <= 3
            && (Do(Attach("wixpdb", classifier, pdb)) in r <==> p.pack.wixpdb && Exists(b.fs, pdb))
            && (Do(Attach("mst", classifier, mst)) in r <==> AttachesTransforms(p) && Exists(b.fs, mst))
            && (Do(Attach(p.packaging, classifier, package)) in r <==> AttachesCulturePackages(p) && Exists(b.fs, package))
  {
    PackagingIsNotAttachedType(cfg.packaged);
  }

  // ---- the goal as it runs ----

  /** packageCabs: the classifier's folder when it is missing, then each cabinet in turn. */
  method PackageCabsRun(cfg: PackageConfig, b: PackageBuild, made: set<string>, arch: string, sourceDir: Option<string>,
                        classifierBase: string, culture: Option<string>) returns (steps: seq<Step>, made': set<string>)
    ensures (steps, made') == PackageCabs(cfg, b, made, arch, sourceDir, classifierBase, culture)
  {
    var target := Child(CabsCollection(cfg), classifierBase);
    var source := OutputPath(cfg.projectBasedir, sourceDir, arch, culture);
    steps := [];
    if !(Exists(b.fs, target) || target in made) {
      steps := [Do(CreateDirectories(target))];
    }
    assert steps == MakeIfMissing(b.fs, made, target);
    var copies := CopyCabsRun(b.fs, source, target, cfg.packaged.externalCabs);
    steps := steps + copies;
    made' := made + {target};
  }

  /** The loop of packageCabs over the external cabinet names. */
  method CopyCabsRun(fs: FileSystem, source: string, target: string, cabs: seq<string>) returns (steps: seq<Step>)
    ensures steps == FlatMap(cabs, CabCopyEach(fs, source, target))
  {
    steps := [];
    ghost var f := CabCopyEach(fs, source, target);
    var i := 0;
    while i < |cabs|
      invariant 0 <= i <= |cabs|
      invariant steps == FlatMap(cabs[..i], f)
    {
      FlatMapGrows(cabs, f, i);
      var copy := CabCopyRun(fs, source, target, cabs[i]);
      steps := steps + copy;
      i := i + 1;
    }
    assert cabs[..i] == cabs;
  }

  /** The loop body of packageCabs: one cabinet name. */
  method CabCopyRun(fs: FileSystem, source: string, target: string, cab: string) returns (steps: seq<Step>)
    ensures steps == CabCopyEach(fs, source, target)(cab)
  {
    steps := [];
    var name := Trim(cab);
    if name != "" {
      var file := Child(source, name);
      if Exists(fs, file) && IsFile(fs, file) {
        steps := [Do(Copy(file, target))];
      }
    }
  }

  method BaseRun(cfg: PackageConfig, b: PackageBuild, made: set<string>, arch: string) returns (steps: seq<Step>, made': set<string>)
    ensures (steps, made') == BasePart(cfg, b, made, arch)
  {
    var p := cfg.packaged;
    steps, made' := [], made;
    if !p.merge.isRepack || p.pack.package {
      var baseClassifier := VariantClassifier(arch, p.baseCulturespec);
      steps := [AttachStep(p.packaging, baseClassifier, b.output(arch, p.baseCulturespec, p.packageOutputExtension))];
      if p.pack.cultureCab {
        var cabs, m := PackageCabsRun(cfg, b, made, arch, cfg.outputDirectory, baseClassifier, None);
        steps, made' := steps + cabs, m;
      }
    }
  }

  method RepackRun(cfg: PackageConfig, b: PackageBuild, made: set<string>, arch: string) returns (steps: seq<Step>, made': set<string>)
    ensures (steps, made') == RepackPart(cfg, b, made, arch)
  {
    var p := cfg.packaged;
    steps, made' := [], made;
    if p.merge.isRepack && EqualsIgnoreCase(p.packaging, "msi") {
      var repackClassifier := arch + "-multi";
      if p.pack.usesDefault {
        steps := [AttachStep(p.packaging, repackClassifier, b.output(arch, None, p.packageOutputExtension))];
      }
      if p.pack.cultureCab || p.pack.usesDefault {
        var cabs, m := PackageCabsRun(cfg, b, made, arch, cfg.outputDirectory, repackClassifier, None);
        steps, made' := steps + cabs, m;
      }
    }
  }

  method CultureRun(cfg: PackageConfig, b: PackageBuild, made: set<string>, arch: string, culture: string)
    returns (steps: seq<Step>, made': set<string>)
    ensures (steps, made') == CulturePass(cfg, b, arch)(made, culture)
  {
    var classifier := VariantClassifier(arch, Some(culture));
    steps, made' := [], made;
    if cfg.packaged.pack.cultureCab {
      steps, made' := PackageCabsRun(cfg, b, made, arch, cfg.outputDirectory, classifier, Some(culture));
    }
    assert (steps, made') == CultureCabs(cfg, b, made, arch, culture);
    var attachments := CultureAttachmentsRun(cfg, b, arch, culture);
    steps := steps + attachments;
    CulturePassParts(cfg, b, made, arch, culture);
  }

  /** One culture's program database, transform and package, each attached when asked for and present. */
  method CultureAttachmentsRun(cfg: PackageConfig, b: PackageBuild, arch: string, culture: string) returns (steps: seq<Step>)
    ensures steps == CultureAttachments(cfg, b, arch, culture)
  {
    var p := cfg.packaged;
    var classifier := VariantClassifier(arch, Some(culture));
    steps := [];
    if p.pack.wixpdb {
      var pdb := b.output(arch, Some(culture), "wixpdb");
      if Exists(b.fs, pdb) {
        steps := steps + [AttachStep("wixpdb", classifier, pdb)];
      }
    }
    if (p.merge.isRepack && p.pack.mst) || (p.merge.isTransform && (p.pack.usesDefault || p.pack.mst)) {
      var mst := b.output(arch, Some(culture), "mst");
      if Exists(b.fs, mst) {
        steps := steps + [AttachStep("mst", classifier, mst)];
      }
    }
    if p.pack.package || (p.merge.isDefault && p.pack.usesDefault) {
      var package := b.output(arch, Some(culture), p.packageOutputExtension);
      if Exists(b.fs, package) {
        steps := steps + [AttachStep(p.packaging, classifier, package)];
      }
    }
  }

  method CulturesRun(cfg: PackageConfig, b: PackageBuild, made: set<string>, arch: string) returns (steps: seq<Step>, made': set<string>)
    ensures (steps, made') == CulturesPart(cfg, b, made, arch)
  {
    var p := cfg.packaged;
    steps, made' := [], made;
    if !p.merge.isBase && (EqualsIgnoreCase(p.packaging, "msi") || EqualsIgnoreCase(p.packaging, "msp")) {
      var cultures := b.order(p.alternateCulturespecs);
      var j := 0;
      while j < |cultures|
        invariant 0 <= j <= |cultures|
        invariant (steps, made') == Fold(made, cultures[..j], CulturePass(cfg, b, arch))
      {
        assert cultures[..j + 1] == cultures[..j] + [cultures[j]];
        FoldSnoc(made, cultures[..j], cultures[j], CulturePass(cfg, b, arch));
        var more, m := CultureRun(cfg, b, made', arch, cultures[j]);
        steps, made' := steps + more, m;
        j := j + 1;
      }
      assert cultures[..j] == cultures;
    }
  }

  method ArchRun(cfg: PackageConfig, b: PackageBuild, made: set<string>, arch: string) returns (steps: seq<Step>, made': set<string>)
    ensures (steps, made') == ArchStep(cfg, b, made, arch)
  {
    var p := cfg.packaged;
    steps, made' := BaseRun(cfg, b, made, arch);
    ghost var base := (steps, made');
    if p.pack.wixpdb {
      var pdb := b.output(arch, p.baseCulturespec, "wixpdb");
      if Exists(b.fs, pdb) {
        steps := steps + [AttachStep("wixpdb", VariantClassifier(arch, p.baseCulturespec), pdb)];
      }
    }
    assert steps == base.0 + PdbPart(cfg, b, arch) && made' == base.1;
    ghost var cached := CachedPart(cfg, b, base.1, arch);
    if p.pack.cachedCab {
      var cabs, m := PackageCabsRun(cfg, b, made', arch, cfg.cabCacheDirectory, arch, None);
      assert (cabs, m) == cached;
      steps, made' := steps + cabs, m;
    } else {
      assert cached == ([], base.1);
      assert steps + [] == steps;
    }
    assert (steps, made') == (base.0 + PdbPart(cfg, b, arch) + cached.0, cached.1);
    var repack, m1 := RepackRun(cfg, b, made', arch);
    steps, made' := steps + repack, m1;
    var cultures, m2 := CulturesRun(cfg, b, made', arch);
    steps, made' := steps + cultures, m2;
    ArchStepParts(cfg, b, made, arch);
  }

  /** The platform loop: each platform in turn, each seeing the folders made before it. */
  method PlatformLoop(cfg: PackageConfig, b: PackageBuild, made0: set<string>, archs: seq<string>)
    returns (steps: seq<Step>, made: set<string>)
    ensures (steps, made) == Fold(made0, archs, ArchPass(cfg, b))
  {
    steps, made := [], made0;
    var i := 0;
    assert archs[..0] == [];
    while i < |archs|
      invariant 0 <= i <= |archs|
      invariant (steps, made) == Fold(made0, archs[..i], ArchPass(cfg, b))
    {
      assert archs[..i + 1] == archs[..i] + [archs[i]];
      FoldSnoc(made0, archs[..i], archs[i], ArchPass(cfg, b));
      var more, m := ArchRun(cfg, b, made, archs[i]);
      assert ArchPass(cfg, b)(made, archs[i]) == (more, m);
      steps, made := steps + more, m;
      i := i + 1;
    }
    assert archs[..i] == archs;
  }

  /** execute: nothing when skipped; else the collection folder when there are cabinets, then each platform. */
  method PackageExecute(cfg: PackageConfig, b: PackageBuild, setting: PlatformSetting) returns (plan: seq<Step>)
    modifies setting
    ensures plan == PackagePlan(cfg, b, old(setting.platforms))
  {
    if cfg.skip {
      return [];
    }
    var made: set<string> := {};
    plan := [];
    if |cfg.packaged.externalCabs| > 0 && !Exists(b.fs, CabsCollection(cfg)) {
      plan := [Do(CreateDirectories(CabsCollection(cfg)))];
      made := {CabsCollection(cfg)};
    }
    assert (plan, made) == PackageStart(cfg, b);
    var platforms := setting.GetPlatforms();
    var steps, _ := PlatformLoop(cfg, b, made, b.order(platforms));
    plan := plan + steps;
  }
}
