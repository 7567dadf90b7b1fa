// The older net.sf.wix LightMojo. Compared with the current goal: the dependencies are the
// direct wixlib, msi and msp ones whose classifier does NOT start with a platform name;
// every one of them is unpacked, before the builds and again inside each build, into a
// folder without the version; the objects are scanned in the platform's intermediate
// folder and passed as found, not made relative; the locale files are not sorted; light
// runs in the source folder without "-sval"; and the cabinet cache ends in two backslashes.
module LegacyLight {
  import opened Wrappers
  import opened JavaText
  import opened Files
  import opened Seqs
  import opened ArtifactLookup
  import opened Runtime
  import opened JavaProperties
  import opened WixMojo
  import opened Linker
  import opened Plans
  import opened Light
  import opened LegacyLinker
  import Candle

  // ---- switches ----

  /** outputExtension: a patch is linked to wixmsp for pyro; anything else to its raw packaging. */
  function LegacyOutputExtension(packaging: string): string
  {
    if EqualsIgnoreCase(PackPatch, packaging) then "wixmsp" else packaging
  }

  /** addReuseCabOptions: the cabinet cache of the platform, followed by two backslashes. */
  function LegacyReuseCabArgs(reuseCabs: bool, cabCacheDirectory: string, arch: string): seq<string>
  {
    if reuseCabs then ["-reusecab", "-cc", CabCache(cabCacheDirectory, arch) + "\\\\"] else []
  }

  /**
   * The extension is "wixmsp" for a patch and the packaging otherwise; the cache switches
   * appear only when cabinets are reused, with one backslash more than the current goal's.
   */
  lemma LegacySwitches(packaging: string, reuseCabs: bool, cabCacheDirectory: string, arch: string)
    ensures LegacyOutputExtension(packaging) == if EqualsIgnoreCase("msp", packaging) then "wixmsp" else packaging
    ensures LegacyReuseCabArgs(reuseCabs, cabCacheDirectory, arch) != [] <==> reuseCabs
    ensures reuseCabs ==>
      LegacyReuseCabArgs(reuseCabs, cabCacheDirectory, arch)[2] == cabCacheDirectory + "\\" + arch + "\\\\"
      && LegacyReuseCabArgs(reuseCabs, cabCacheDirectory, arch)[2] == ReuseCabArgs(reuseCabs, cabCacheDirectory, arch)[2] + "\\"
  {
  }

  // ---- the dependencies ----

  /**
   * The classifier test of getDependencySets: an exclude filter whose comparison never
   * matches a missing classifier, so it keeps unclassified artifacts and drops those whose
   * classifier starts with a platform name.
   */
  predicate LegacyKeepsClassifier(classifier: Option<string>)
  {
    classifier.None? || forall i :: 0 <= i < |ClassifierIncludes| ==> !(ClassifierIncludes[i] <= classifier.value)
  }

  /**
   * Both filters keep unclassified artifacts; a classifier the current goal keeps is one
   * the older goal drops, and the other way round.
   */
  lemma LegacyKeepsClassifierOpposite(classifier: Option<string>)
    ensures classifier.None? ==> LegacyKeepsClassifier(classifier) && KeepsClassifier(classifier)
    ensures classifier.Some? ==> (LegacyKeepsClassifier(classifier) <==> !KeepsClassifier(classifier))
    ensures LegacyKeepsClassifier(Some("en-US")) && !LegacyKeepsClassifier(Some("x64-neutral"))
  {
    assert ClassifierIncludes[1] <= "x64-neutral";
    assert "en-US"[0] == 'e';
  }

  /** The types getDependencySets keeps. */
  predicate IsLegacyLinkType(artifactType: string)
  {
    artifactType in {"wixlib", "msi", "msp"}
  }

  predicate IsLegacyDependency(a: Artifact, direct: set<Coordinates>)
  {
    CoordinatesOf(a) in direct && LegacyKeepsClassifier(a.classifier) && IsLegacyLinkType(a.artifactType)
  }

  /** getDependencySets over project.getArtifacts(). */
  function LegacyDependencies(artifacts: seq<Artifact>, direct: set<Coordinates>): seq<Artifact>
  {
    Filter(artifacts, (a: Artifact) => IsLegacyDependency(a, direct))
  }

  /** Exactly the direct wixlib, msi and msp artifacts with a kept classifier are dependencies. */
  lemma LegacyDependenciesMembers(artifacts: seq<Artifact>, direct: set<Coordinates>, a: Artifact)
    ensures a in LegacyDependencies(artifacts, direct) <==>
      a in artifacts && CoordinatesOf(a) in direct && LegacyKeepsClassifier(a.classifier)
      && a.artifactType in {"wixlib", "msi", "msp"}
  {
    FilterMembers(artifacts, (a: Artifact) => IsLegacyDependency(a, direct), a);
  }

  /** The folder a dependency's resources are unpacked into: <groupId>-<artifactId>, no version. */
  function LegacyUnpackDirectory(unpackDirectory: string, a: Artifact): (r: string)
    ensures r == unpackDirectory + "\\" + a.groupId + "-" + a.artifactId
  {
    Child(unpackDirectory, a.groupId + "-" + a.artifactId)
  }

  /** The current goal's unpack folder is the older one's with "-" and the base version appended. */
  lemma LegacyUnpackDirectoryVersionless(unpackDirectory: string, a: Artifact)
    ensures WixUnpackDirectory(unpackDirectory, a) == LegacyUnpackDirectory(unpackDirectory, a) + "-" + a.baseVersion
  {
  }

  const ResourceIncludes: seq<string> := ["wix-locale/**", "cabs/**"]

  /** unpackResource: the unpack folder made when missing, then the locale and cabinet files extracted. */
  function LegacyUnpackOne(fs: FileSystem, made: set<string>, unpackDirectory: string, dep: Artifact)
    : (seq<Step>, set<string>)
  {
    var dir := LegacyUnpackDirectory(unpackDirectory, dep);
    (MakeIfMissing(fs, made, dir) + [Do(Unpack(PathOf(dep), dir, ResourceIncludes, []))], made + {dir})
  }

  function Unpacks(fs: FileSystem, unpackDirectory: string): (set<string>, Artifact) -> (seq<Step>, set<string>)
  {
    (made: set<string>, dep: Artifact) => LegacyUnpackOne(fs, made, unpackDirectory, dep)
  }

  /** addResource: the library's unpacked locale folders, when it has them. */
  function LegacyResourceRoots(fs: FileSystem, roots: seq<string>, unpackDirectory: string, lib: Artifact,
                               culture: Option<string>): seq<string>
  {
    var neutral := Child(LegacyUnpackDirectory(unpackDirectory, lib), "wix-locale");
    if Exists(fs, neutral) then BinderRoots(fs, roots, neutral, culture) else roots
  }

  predicate IsInstaller(a: Artifact)
  {
    EqualsIgnoreCase(PackInstall, a.artifactType)
  }

  /** An msi dependency's unpack folder is bound when it is there. */
  function InstallerRoots(fs: FileSystem, made: set<string>, roots: seq<string>, unpackDirectory: string, dep: Artifact)
    : seq<string>
  {
    var dir := LegacyUnpackDirectory(unpackDirectory, dep);
    if IsInstaller(dep) && Present(fs, made, dir) then Insert(roots, dir) else roots
  }

  // ---- the dependency loop of one build ----

  /**
   * The state the dependency loop of a build carries: the steps so far, the folders made,
   * the ordered bind folders, the files to link, and whether a lookup has failed.
   */
  datatype DepState = DepState(steps: seq<Step>, made: set<string>, roots: seq<string>, files: set<string>, failed: bool)

  /**
   * One dependency: unpacked again; a wixlib adds its resource folders and the files of its
   * related variants, and a failed lookup throws; an msi's unpack folder is bound.
   */
  function DepStep(fs: FileSystem, lookup: Artifact -> Result<set<Artifact>, Failure>, unpackDirectory: string,
                   culture: Option<string>, s: DepState, dep: Artifact): DepState
  {
    var un := LegacyUnpackOne(fs, s.made, unpackDirectory, dep);
    var steps := s.steps + un.0;
    if IsLibrary(dep) then
      var roots := LegacyResourceRoots(fs, s.roots, unpackDirectory, dep, culture);
      var found := lookup(dep);
      if found.Err? then DepState(steps + [Throw(found.error)], un.1, roots, s.files, true)
      else DepState(steps, un.1, InstallerRoots(fs, un.1, roots, unpackDirectory, dep), s.files + Paths(found.value), false)
    else DepState(steps, un.1, InstallerRoots(fs, un.1, s.roots, unpackDirectory, dep), s.files, false)
  }

  /** The dependencies in turn, until one fails. */
  function DepLoop(fs: FileSystem, lookup: Artifact -> Result<set<Artifact>, Failure>, unpackDirectory: string,
                   culture: Option<string>, start: DepState, deps: seq<Artifact>): DepState
  {
    if |deps| == 0 then start
    else
      var before := DepLoop(fs, lookup, unpackDirectory, culture, start, deps[..|deps| - 1]);
      if before.failed then before else DepStep(fs, lookup, unpackDirectory, culture, before, deps[|deps| - 1])
  }

  /** The files of a build's wixlib dependencies: the related variants of each that resolves. */
  predicate FromLibraries(lookup: Artifact -> Result<set<Artifact>, Failure>, deps: seq<Artifact>, f: string)
  {
    exists k :: 0 <= k < |deps| && IsLibrary(deps[k]) && lookup(deps[k]).Ok?
      && f in Paths(lookup(deps[k]).value)
  }

  /** The related files of the dependencies are those of all but the last, and those of the last when it is a wixlib. */
  lemma FromLibrariesSnoc(lookup: Artifact -> Result<set<Artifact>, Failure>, deps: seq<Artifact>, f: string)
    requires |deps| > 0
    ensures var n := |deps| - 1;
      FromLibraries(lookup, deps, f) <==>
        (FromLibraries(lookup, deps[..n], f) || (IsLibrary(deps[n]) && lookup(deps[n]).Ok? && f in Paths(lookup(deps[n]).value)))
  {
    var n := |deps| - 1;
    if FromLibraries(lookup, deps[..n], f) {
      var k :| 0 <= k < n && IsLibrary(deps[..n][k]) && lookup(deps[..n][k]).Ok?
        && f in Paths(lookup(deps[..n][k]).value);
      assert deps[..n][k] == deps[k];
    }
    if FromLibraries(lookup, deps, f) {
      var k :| 0 <= k < |deps| && IsLibrary(deps[k]) && lookup(deps[k]).Ok?
        && f in Paths(lookup(deps[k]).value);
      if k < n {
        assert deps[..n][k] == deps[k];
      }
    }
  }

  /** One dependency's step: what it adds to the files, and the steps and folders it keeps. */
  lemma DepStepFiles(fs: FileSystem, lookup: Artifact -> Result<set<Artifact>, Failure>, unpackDirectory: string, culture: Option<string>,
                     s: DepState, dep: Artifact)
    ensures var d := DepStep(fs, lookup, unpackDirectory, culture, s, dep);
      && s.made <= d.made
      && s.steps <= d.steps
      && (d.failed <==> IsLibrary(dep) && lookup(dep).Err?)
      && (!d.failed ==>
            d.files == s.files + if IsLibrary(dep) then Paths(lookup(dep).value) else {})
  {
  }

  /** The loop keeps the steps and folders it started with. */
  lemma {:induction false} DepLoopGrows(fs: FileSystem, lookup: Artifact -> Result<set<Artifact>, Failure>, unpackDirectory: string,
                                        culture: Option<string>, start: DepState, deps: seq<Artifact>)
    ensures var d := DepLoop(fs, lookup, unpackDirectory, culture, start, deps);
      && start.made <= d.made
      && start.steps <= d.steps
    decreases |deps|
  {
    if |deps| > 0 {
      var n := |deps| - 1;
      var before := DepLoop(fs, lookup, unpackDirectory, culture, start, deps[..n]);
      var d := DepLoop(fs, lookup, unpackDirectory, culture, start, deps);
      DepLoopGrows(fs, lookup, unpackDirectory, culture, start, deps[..n]);
      if before.failed {
        assert d == before;
      } else {
        assert d == DepStep(fs, lookup, unpackDirectory, culture, before, deps[n]);
        DepStepFiles(fs, lookup, unpackDirectory, culture, before, deps[n]);
      }
    }
  }

  /**
   * Without a failure the files to link are exactly the starting files and the related
   * files of the wixlib dependencies.
   */
  lemma {:induction false} DepLoopFiles(fs: FileSystem, lookup: Artifact -> Result<set<Artifact>, Failure>, unpackDirectory: string,
                                        culture: Option<string>, start: DepState, deps: seq<Artifact>, f: string)
    requires !start.failed
    ensures var d := DepLoop(fs, lookup, unpackDirectory, culture, start, deps);
      !d.failed ==> (f in d.files <==> f in start.files || FromLibraries(lookup, deps, f))
    decreases |deps|
  {
    if |deps| > 0 {
      var n := |deps| - 1;
      var before := DepLoop(fs, lookup, unpackDirectory, culture, start, deps[..n]);
      var d := DepLoop(fs, lookup, unpackDirectory, culture, start, deps);
      if !d.failed {
        assert !before.failed && d == DepStep(fs, lookup, unpackDirectory, culture, before, deps[n]);
        DepLoopFiles(fs, lookup, unpackDirectory, culture, start, deps[..n], f);
        DepStepFiles(fs, lookup, unpackDirectory, culture, before, deps[n]);
        FromLibrariesSnoc(lookup, deps, f);
      }
    }
  }

  /** One dependency's step never drops a bind folder and binds an msi's freshly unpacked folder. */
  lemma DepStepRoots(fs: FileSystem, lookup: Artifact -> Result<set<Artifact>, Failure>, unpackDirectory: string, culture: Option<string>,
                     s: DepState, dep: Artifact)
    ensures var d := DepStep(fs, lookup, unpackDirectory, culture, s, dep);
      && Elements(s.roots) <= Elements(d.roots)
      && (!d.failed && IsInstaller(dep) ==> LegacyUnpackDirectory(unpackDirectory, dep) in d.roots)
      && Do(Unpack(PathOf(dep), LegacyUnpackDirectory(unpackDirectory, dep), ResourceIncludes, [])) in d.steps
  {
    var un := LegacyUnpackOne(fs, s.made, unpackDirectory, dep);
    var dir := LegacyUnpackDirectory(unpackDirectory, dep);
    assert dir in un.1;
    var d := DepStep(fs, lookup, unpackDirectory, culture, s, dep);
    var unpack := Do(Unpack(PathOf(dep), dir, ResourceIncludes, []));
    assert un.0[|un.0| - 1] == unpack;
    assert (s.steps + un.0)[|s.steps| + |un.0| - 1] == unpack;
    if IsLibrary(dep) {
      var roots := LegacyResourceRoots(fs, s.roots, unpackDirectory, dep, culture);
      if Exists(fs, Child(dir, "wix-locale")) {
        BinderRootsOrder(fs, s.roots, Child(dir, "wix-locale"), culture);
        if culture.Some? {
          var cf := CultureFolder(Child(dir, "wix-locale"), culture);
          var withCulture := if Exists(fs, cf) then Insert(s.roots, cf) else s.roots;
          assert Elements(s.roots) <= Elements(withCulture);
        }
      }
      assert Elements(s.roots) <= Elements(roots);
    }
  }

  /** Without a failure every dependency was unpacked during the loop. */
  lemma {:induction false} DepLoopUnpacksAll(fs: FileSystem, lookup: Artifact -> Result<set<Artifact>, Failure>, unpackDirectory: string,
                                             culture: Option<string>, start: DepState, deps: seq<Artifact>, dep: Artifact)
    requires !start.failed
    requires dep in deps
    ensures var d := DepLoop(fs, lookup, unpackDirectory, culture, start, deps);
      !d.failed ==> Do(Unpack(PathOf(dep), LegacyUnpackDirectory(unpackDirectory, dep), ResourceIncludes, [])) in d.steps
    decreases |deps|
  {
    var n := |deps| - 1;
    var before := DepLoop(fs, lookup, unpackDirectory, culture, start, deps[..n]);
    var d := DepLoop(fs, lookup, unpackDirectory, culture, start, deps);
    if !d.failed {
      assert !before.failed && d == DepStep(fs, lookup, unpackDirectory, culture, before, deps[n]);
      DepStepRoots(fs, lookup, unpackDirectory, culture, before, deps[n]);
      if dep in deps[..n] {
        DepLoopUnpacksAll(fs, lookup, unpackDirectory, culture, start, deps[..n], dep);
        DepStepFiles(fs, lookup, unpackDirectory, culture, before, deps[n]);
        assert before.steps <= d.steps;
        assert forall x :: x in before.steps ==> x in d.steps[..|before.steps|];
      } else {
        assert dep == deps[n];
      }
    }
  }

  /** Without a failure every msi dependency's unpack folder is bound: it always exists by then. */
  lemma {:induction false} DepLoopBindsInstallers(fs: FileSystem, lookup: Artifact -> Result<set<Artifact>, Failure>, unpackDirectory: string,
                                                  culture: Option<string>, start: DepState, deps: seq<Artifact>, dep: Artifact)
    requires !start.failed
    requires dep in deps && IsInstaller(dep)
    ensures var d := DepLoop(fs, lookup, unpackDirectory, culture, start, deps);
      !d.failed ==> LegacyUnpackDirectory(unpackDirectory, dep) in d.roots
    decreases |deps|
  {
    var n := |deps| - 1;
    var before := DepLoop(fs, lookup, unpackDirectory, culture, start, deps[..n]);
    var d := DepLoop(fs, lookup, unpackDirectory, culture, start, deps);
    if !d.failed {
      assert !before.failed && d == DepStep(fs, lookup, unpackDirectory, culture, before, deps[n]);
      DepStepRoots(fs, lookup, unpackDirectory, culture, before, deps[n]);
      if dep in deps[..n] {
        DepLoopBindsInstallers(fs, lookup, unpackDirectory, culture, start, deps[..n], dep);
        assert LegacyUnpackDirectory(unpackDirectory, dep) in Elements(before.roots);
      } else {
        assert dep == deps[n];
      }
    }
  }

  /** Once the loop has failed, the dependencies after the failure are not looked at. */
  lemma {:induction false} DepLoopStopsAt(fs: FileSystem, lookup: Artifact -> Result<set<Artifact>, Failure>,
                                          unpackDirectory: string, culture: Option<string>, start: DepState,
                                          deps: seq<Artifact>, n: nat)
    requires n <= |deps|
    requires DepLoop(fs, lookup, unpackDirectory, culture, start, deps[..n]).failed
    ensures DepLoop(fs, lookup, unpackDirectory, culture, start, deps) == DepLoop(fs, lookup, unpackDirectory, culture, start, deps[..n])
    decreases |deps| - n
  {
    if n == |deps| {
      assert deps[..n] == deps;
    } else {
      var init := deps[..|deps| - 1];
      assert init[..n] == deps[..n];
      DepLoopStopsAt(fs, lookup, unpackDirectory, culture, start, init, n);
    }
  }

  // ---- configuration and environment ----

  /** The parameters of the older light goal. */
  datatype LegacyLightConfig = LegacyLightConfig(
    skip: bool,
    verbose: bool,
    bindFiles: bool,
    reuseCabs: bool,
    packaging: string,
    toolDirectory: string,
    cabCacheDirectory: string,
    wxlInputDirectory: string,
    intDirectory: string,
    unpackDirectory: string,
    outputDirectory: Option<string>,
    folders: LegacyBindFolders,
    fileSourceRoots: set<string>,
    linkProperties: Option<Properties>,
    /** culturespecs(): the culture of each build, null for a neutral one. */
    cultures: seq<Option<string>>)

  /**
   * What the goal depends on besides its parameters: the file system, the repository, the
   * project's artifacts, the iteration order of string sets, getOutput, and the inclusion
   * scanner (patterns, excludes, folder, target).
   */
  datatype LegacyLightBuild = LegacyLightBuild(
    fs: FileSystem,
    repo: Repository,
    artifacts: seq<Artifact>,
    direct: set<Coordinates>,
    order: set<string> -> seq<string>,
    output: (string, Option<string>, string) -> string,
    scan: (set<string>, set<string>, string, string) -> set<string>)

  // ---- one build ----

  /** getRelatedArtifacts for the build's platform and culture. */
  function Related(b: LegacyLightBuild, arch: string, culture: Option<string>): Artifact -> Result<set<Artifact>, Failure>
  {
    (a: Artifact) => RelatedArtifacts(b.fs, b.repo, a, arch, culture)
  }

  function LegacyOutputFile(cfg: LegacyLightConfig, b: LegacyLightBuild, arch: string, culture: Option<string>): string
  {
    b.output(arch, culture, LegacyOutputExtension(cfg.packaging))
  }

  /** getArchIntDirectory: the platform's folder under the intermediate folder. */
  function ArchIntDirectory(cfg: LegacyLightConfig, arch: string): string
  {
    Child(cfg.intDirectory, arch)
  }

  /** The object files the scanner finds in the platform's intermediate folder, as found. */
  function LegacyObjects(cfg: LegacyLightConfig, b: LegacyLightBuild, p: ScanPatterns, arch: string, out: string): set<string>
  {
    b.scan(p.includes, p.excludes, ArchIntDirectory(cfg, arch), out)
  }

  /** The locale files in the scanner's order, when the locale folder exists. */
  function LegacyLocales(cfg: LegacyLightConfig, b: LegacyLightBuild, p: ScanPatterns, out: string): seq<string>
  {
    if Exists(b.fs, cfg.wxlInputDirectory) then b.order(b.scan(p.localeIncludes, p.localeExcludes, cfg.wxlInputDirectory, out))
    else []
  }

  /** The bind folders before the dependency loop: the configured ones, then the locale folders. */
  function StartRoots(cfg: LegacyLightConfig, b: LegacyLightBuild, culture: Option<string>): seq<string>
  {
    var r0 := b.order(cfg.fileSourceRoots);
    if Exists(b.fs, cfg.wxlInputDirectory) then BinderRoots(b.fs, r0, cfg.wxlInputDirectory, culture) else r0
  }

  /** The dependency loop of one build, starting from its objects and its starting bind folders. */
  function VariantDeps(cfg: LegacyLightConfig, b: LegacyLightBuild, p: ScanPatterns, made: set<string>, arch: string,
                       culture: Option<string>): DepState
  {
    var out := LegacyOutputFile(cfg, b, arch, culture);
    DepLoop(b.fs, Related(b, arch, culture), cfg.unpackDirectory, culture,
            DepState([], made, StartRoots(cfg, b, culture), LegacyObjects(cfg, b, p, arch, out), false),
            LegacyDependencies(b.artifacts, b.direct))
  }

  /** The switches before the bind folders: general options, "-bf" when binding files, "-out". */
  function LegacyLeadingArgs(cfg: LegacyLightConfig, out: string): seq<string>
  {
    GeneralOptions(cfg.verbose) + (if cfg.bindFiles then ["-bf"] else []) + ["-out", out]
  }

  /** "-cultures:", the locale files, the extensions and the properties passed as they are. */
  function LegacyOptionArgs(cfg: LegacyLightConfig, b: LegacyLightBuild, culture: Option<string>, locales: seq<string>)
    : seq<string>
  {
    LocaleArgs(culture) + LocArgs(locales) + ExtensionArgs(ExtensionDependencies(b.artifacts))
    + Candle.OtherOptions(cfg.linkProperties)
  }

  /** The switches after the bind folders and before the files to link. */
  function LegacyTrailingArgs(cfg: LegacyLightConfig, b: LegacyLightBuild, culture: Option<string>, locales: seq<string>,
                              arch: string): seq<string>
  {
    LegacyOptionArgs(cfg, b, culture, locales) + LegacyReuseCabArgs(cfg.reuseCabs, cfg.cabCacheDirectory, arch)
  }

  /** The light command line of one build. */
  function LegacyLinkArgs(cfg: LegacyLightConfig, b: LegacyLightBuild, out: string, roots: seq<string>,
                          culture: Option<string>, locales: seq<string>, arch: string, files: set<string>): seq<string>
  {
    LegacyLeadingArgs(cfg, out) + LegacyBindArgs(InsertAll(roots, LegacyAddedRoots(b.fs, cfg.folders)))
    + LegacyTrailingArgs(cfg, b, culture, locales, arch) + b.order(files)
  }

  /** light.exe, run in the source folder. */
  function LegacyLinkCall(cfg: LegacyLightConfig, args: seq<string>): Invocation
  {
    Invocation(ToolExecutable(cfg.toolDirectory, "light.exe"), Some(cfg.folders.wxsInputDirectory), args)
  }

  /** The end of a build with files to link: the cache and output folders made when missing, then light. */
  function LinkTail(cfg: LegacyLightConfig, b: LegacyLightBuild, d: DepState, out: string, culture: Option<string>,
                    locales: seq<string>, arch: string): (seq<Step>, set<string>)
  {
    var cab := CabCache(cfg.cabCacheDirectory, arch);
    var mkCab := if cfg.reuseCabs then MakeIfMissing(b.fs, d.made, cab) else [];
    var made1 := if cfg.reuseCabs then d.made + {cab} else d.made;
    var args := LegacyLinkArgs(cfg, b, out, d.roots, culture, locales, arch, d.files);
    (d.steps + mkCab + MakeIfMissing(b.fs, made1, Parent(out)) + [LinkStep(LegacyLinkCall(cfg, args))], made1 + {Parent(out)})
  }

  /**
   * One (platform, culture) build: the dependency loop (which throws on a failed lookup);
   * with nothing to link nothing more happens; otherwise light runs.
   */
  function LegacyVariantPlan(cfg: LegacyLightConfig, b: LegacyLightBuild, p: ScanPatterns, made: set<string>,
                             arch: string, culture: Option<string>): (seq<Step>, set<string>)
  {
    var out := LegacyOutputFile(cfg, b, arch, culture);
    var d := VariantDeps(cfg, b, p, made, arch, culture);
    if d.failed || d.files == {} then (d.steps, d.made)
    else LinkTail(cfg, b, d, out, culture, LegacyLocales(cfg, b, p, out), arch)
  }

  function LegacyBuilds(cfg: LegacyLightConfig, b: LegacyLightBuild, p: ScanPatterns)
    : (set<string>, (string, Option<string>)) -> (seq<Step>, set<string>)
  {
    (made: set<string>, v: (string, Option<string>)) => LegacyVariantPlan(cfg, b, p, made, v.0, v.1)
  }

  /**
   * multilink: light.exe must exist; every dependency is unpacked, then every culture of
   * every platform is built, platform by platform.
   */
  function LegacyMultilinkPlan(cfg: LegacyLightConfig, b: LegacyLightBuild, p: ScanPatterns, made: set<string>,
                               platforms: Option<set<string>>): seq<Step>
  {
    var exe := ToolExecutable(cfg.toolDirectory, "light.exe");
    if !Exists(b.fs, exe) then [Throw(MissingFile(exe))]
    else
      var unpacked := Fold(made, LegacyDependencies(b.artifacts, b.direct), Unpacks(b.fs, cfg.unpackDirectory));
      unpacked.0 + Fold(unpacked.1, Cross(b.order(DefaultPlatforms(platforms)), cfg.cultures), LegacyBuilds(cfg, b, p)).0
  }

  /** execute of the older light goal. */
  function LegacyLightPlan(cfg: LegacyLightConfig, b: LegacyLightBuild, p: ScanPatterns, platforms: Option<set<string>>)
    : seq<Step>
  {
    ExecutePlan(cfg.skip, cfg.outputDirectory, LegacyMultilinkPlan(cfg, b, p, ExecuteMade(cfg.outputDirectory), platforms))
  }

  // ---- properties of a build ----

  /**
   * The light command line: general options, "-bf" when binding files, "-out" and the
   * output, then the bind folders, and the files to link at the end.
   */
  lemma LegacyLinkArgsLayout(cfg: LegacyLightConfig, b: LegacyLightBuild, out: string, roots: seq<string>,
                             culture: Option<string>, locales: seq<string>, arch: string, files: set<string>)
    ensures var args := LegacyLinkArgs(cfg, b, out, roots, culture, locales, arch, files);
      var n := |GeneralOptions(cfg.verbose)|;
      var g := n + (if cfg.bindFiles then 1 else 0);
      var binds := LegacyBindArgs(InsertAll(roots, LegacyAddedRoots(b.fs, cfg.folders)));
      && args[..n] == GeneralOptions(cfg.verbose)
      && (cfg.bindFiles ==> args[n] == "-bf")
      && args[g] == "-out" && args[g + 1] == out
      && args[g + 2..g + 2 + |binds|] == binds
      && args[|args| - |b.order(files)|..] == b.order(files)
  {
    var lead := LegacyLeadingArgs(cfg, out);
    var binds := LegacyBindArgs(InsertAll(roots, LegacyAddedRoots(b.fs, cfg.folders)));
    ConcatParts(lead, binds, LegacyTrailingArgs(cfg, b, culture, locales, arch), b.order(files));
    LegacyLeadingArgsLayout(cfg, out);
  }

  /** The leading switches: general options, "-bf" when binding files, then "-out" and the output. */
  lemma LegacyLeadingArgsLayout(cfg: LegacyLightConfig, out: string)
    ensures var lead := LegacyLeadingArgs(cfg, out);
      var n := |GeneralOptions(cfg.verbose)|;
      var g := n + (if cfg.bindFiles then 1 else 0);
      && |lead| == g + 2
      && lead[..n] == GeneralOptions(cfg.verbose)
      && (forall i :: 0 <= i < n ==> lead[i] == GeneralOptions(cfg.verbose)[i])
      && (cfg.bindFiles ==> lead[n] == "-bf")
      && lead[g] == "-out" && lead[g + 1] == out
  {
    ConcatParts(GeneralOptions(cfg.verbose), if cfg.bindFiles then ["-bf"] else [], ["-out", out], []);
  }

  /** Whether a build gets as far as running light: no lookup failed and there is something to link. */
  predicate LegacyLinks(cfg: LegacyLightConfig, b: LegacyLightBuild, p: ScanPatterns, made: set<string>, arch: string,
                        culture: Option<string>)
  {
    var d := VariantDeps(cfg, b, p, made, arch, culture);
    !d.failed && d.files != {}
  }

  /** A build ends in a light run exactly when it links, and then with this command line. */
  lemma LegacyVariantPlanCall(cfg: LegacyLightConfig, b: LegacyLightBuild, p: ScanPatterns, made: set<string>,
                              arch: string, culture: Option<string>)
    ensures var r := LegacyVariantPlan(cfg, b, p, made, arch, culture);
      (r.0 != [] && r.0[|r.0| - 1].Call?) <==> LegacyLinks(cfg, b, p, made, arch, culture)
    ensures var r := LegacyVariantPlan(cfg, b, p, made, arch, culture);
      var d := VariantDeps(cfg, b, p, made, arch, culture);
      var out := LegacyOutputFile(cfg, b, arch, culture);
      LegacyLinks(cfg, b, p, made, arch, culture) ==>
        r.0 != [] && r.0[|r.0| - 1] == LinkStep(LegacyLinkCall(cfg,
          LegacyLinkArgs(cfg, b, out, d.roots, culture, LegacyLocales(cfg, b, p, out), arch, d.files)))
  {
    var d := VariantDeps(cfg, b, p, made, arch, culture);
    var r := LegacyVariantPlan(cfg, b, p, made, arch, culture);
    if !LegacyLinks(cfg, b, p, made, arch, culture) {
      assert r.0 == d.steps;
      DepStepsNoCall(b.fs, Related(b, arch, culture), cfg.unpackDirectory, culture,
        DepState([], made, StartRoots(cfg, b, culture), LegacyObjects(cfg, b, p, arch, LegacyOutputFile(cfg, b, arch, culture)), false),
        LegacyDependencies(b.artifacts, b.direct));
    }
  }

  predicate RunsNoTool(steps: seq<Step>)
  {
    forall k :: 0 <= k < |steps| ==> !steps[k].Call?
  }

  /** The dependency loop runs no tool: it only makes folders, unpacks and throws. */
  lemma {:induction false} DepStepsNoCall(fs: FileSystem, lookup: Artifact -> Result<set<Artifact>, Failure>,
                                          unpackDirectory: string, culture: Option<string>, start: DepState,
                                          deps: seq<Artifact>)
    requires RunsNoTool(start.steps)
    ensures RunsNoTool(DepLoop(fs, lookup, unpackDirectory, culture, start, deps).steps)
    decreases |deps|
  {
    if |deps| > 0 {
      var n := |deps| - 1;
      var before := DepLoop(fs, lookup, unpackDirectory, culture, start, deps[..n]);
      DepStepsNoCall(fs, lookup, unpackDirectory, culture, start, deps[..n]);
      if !before.failed {
        DepStepNoCall(fs, lookup, unpackDirectory, culture, before, deps[n]);
      }
    }
  }

  lemma DepStepNoCall(fs: FileSystem, lookup: Artifact -> Result<set<Artifact>, Failure>, unpackDirectory: string,
                      culture: Option<string>, s: DepState, dep: Artifact)
    requires RunsNoTool(s.steps)
    ensures RunsNoTool(DepStep(fs, lookup, unpackDirectory, culture, s, dep).steps)
  {
    var un := LegacyUnpackOne(fs, s.made, unpackDirectory, dep);
    assert forall k :: 0 <= k < |un.0| ==> !un.0[k].Call?;
    var d := DepStep(fs, lookup, unpackDirectory, culture, s, dep);
    assert d.steps == s.steps + un.0 || (d.steps == s.steps + un.0 + [Throw(lookup(dep).error)]);
  }

  /**
   * A build that links gives light every object file the scanner found and every file of
   * its wixlib dependencies' related variants.
   */
  lemma LegacyVariantPlanLinks(cfg: LegacyLightConfig, b: LegacyLightBuild, p: ScanPatterns, made: set<string>,
                               arch: string, culture: Option<string>)
    requires IsIterationOrder(b.order)
    requires LegacyLinks(cfg, b, p, made, arch, culture)
    ensures var r := LegacyVariantPlan(cfg, b, p, made, arch, culture);
      var out := LegacyOutputFile(cfg, b, arch, culture);
      && r.0 != [] && r.0[|r.0| - 1].Call?
      && forall f :: f in LegacyObjects(cfg, b, p, arch, out)
                     || FromLibraries(Related(b, arch, culture), LegacyDependencies(b.artifacts, b.direct), f) ==>
           f in r.0[|r.0| - 1].call.arguments
  {
    LegacyVariantPlanCall(cfg, b, p, made, arch, culture);
    var d := VariantDeps(cfg, b, p, made, arch, culture);
    var out := LegacyOutputFile(cfg, b, arch, culture);
    var deps := LegacyDependencies(b.artifacts, b.direct);
    var lookup := Related(b, arch, culture);
    var start := DepState([], made, StartRoots(cfg, b, culture), LegacyObjects(cfg, b, p, arch, out), false);
    var locales := LegacyLocales(cfg, b, p, out);
    var args := LegacyLinkArgs(cfg, b, out, d.roots, culture, locales, arch, d.files);
    var files := b.order(d.files);
    assert Lists(files, d.files);
    forall f | f in LegacyObjects(cfg, b, p, arch, out) || FromLibraries(lookup, deps, f)
      ensures f in args
    {
      DepLoopFiles(b.fs, lookup, cfg.unpackDirectory, culture, start, deps, f);
      assert f in Elements(files);
      var k :| 0 <= k < |files| && files[k] == f;
      assert f in files;
    }
  }

  /** A build that links binds every msi dependency's unpack folder, with its two backslashes. */
  lemma LegacyVariantBindsInstallers(cfg: LegacyLightConfig, b: LegacyLightBuild, p: ScanPatterns, made: set<string>,
                                     arch: string, culture: Option<string>, dep: Artifact)
    requires LegacyLinks(cfg, b, p, made, arch, culture)
    requires dep in LegacyDependencies(b.artifacts, b.direct) && IsInstaller(dep)
    ensures var r := LegacyVariantPlan(cfg, b, p, made, arch, culture);
      && r.0 != [] && r.0[|r.0| - 1].Call?
      && LegacyUnpackDirectory(cfg.unpackDirectory, dep) + "\\\\" in r.0[|r.0| - 1].call.arguments
  {
    LegacyVariantPlanCall(cfg, b, p, made, arch, culture);
    var d := VariantDeps(cfg, b, p, made, arch, culture);
    var out := LegacyOutputFile(cfg, b, arch, culture);
    var start := DepState([], made, StartRoots(cfg, b, culture), LegacyObjects(cfg, b, p, arch, out), false);
    DepLoopBindsInstallers(b.fs, Related(b, arch, culture), cfg.unpackDirectory, culture, start,
                           LegacyDependencies(b.artifacts, b.direct), dep);
    var args := LegacyLinkArgs(cfg, b, out, d.roots, culture, LegacyLocales(cfg, b, p, out), arch, d.files);
    LinkArgsBinds(cfg, b, out, d.roots, culture, LegacyLocales(cfg, b, p, out), arch, d.files,
                  LegacyUnpackDirectory(cfg.unpackDirectory, dep));
    var r := LegacyVariantPlan(cfg, b, p, made, arch, culture);
    var call := LegacyLinkCall(cfg, args);
    assert r.0[|r.0| - 1] == LinkStep(call);
    assert r.0[|r.0| - 1].call.arguments == args;
  }

  /** Every folder of the build's ordered set is bound, followed by two backslashes. */
  lemma LinkArgsBinds(cfg: LegacyLightConfig, b: LegacyLightBuild, out: string, roots: seq<string>,
                      culture: Option<string>, locales: seq<string>, arch: string, files: set<string>, dir: string)
    requires dir in roots
    ensures dir + "\\\\" in LegacyLinkArgs(cfg, b, out, roots, culture, locales, arch, files)
  {
    var bound := InsertAll(roots, LegacyAddedRoots(b.fs, cfg.folders));
    InsertAllHas(roots, LegacyAddedRoots(b.fs, cfg.folders), dir);
    LegacyBindArgsBindsEach(bound, dir);
  }

  /** Adding folders to the ordered set keeps the folders it had. */
  lemma InsertAllHas(roots: seq<string>, added: seq<string>, dir: string)
    requires dir in roots
    ensures dir in InsertAll(roots, added)
  {
    InsertAllKeeps(roots, added);
    var i :| 0 <= i < |roots| && roots[i] == dir;
    assert InsertAll(roots, added)[i] == dir;
  }

  /**
   * Before the builds every dependency is unpacked, with its folder made first when
   * missing, and every unpack folder is there afterwards.
   */
  lemma {:induction false} LegacyUnpackAll(fs: FileSystem, made: set<string>, unpackDirectory: string,
                                           deps: seq<Artifact>, dep: Artifact)
    requires dep in deps
    ensures var r := Fold(made, deps, Unpacks(fs, unpackDirectory));
      && Do(Unpack(PathOf(dep), LegacyUnpackDirectory(unpackDirectory, dep), ResourceIncludes, [])) in r.0
      && LegacyUnpackDirectory(unpackDirectory, dep) in r.1
      && made <= r.1
    decreases |deps|
  {
    var n := |deps| - 1;
    var f := Unpacks(fs, unpackDirectory);
    var before := Fold(made, deps[..n], f);
    var last := LegacyUnpackOne(fs, before.1, unpackDirectory, deps[n]);
    assert Fold(made, deps, f) == Then(before, last);
    var unpack := Do(Unpack(PathOf(deps[n]), LegacyUnpackDirectory(unpackDirectory, deps[n]), ResourceIncludes, []));
    assert last.0[|last.0| - 1] == unpack;
    if dep in deps[..n] {
      LegacyUnpackAll(fs, made, unpackDirectory, deps[..n], dep);
    } else {
      assert dep == deps[n];
      UnpackFoldGrows(fs, made, unpackDirectory, deps[..n]);
    }
  }

  lemma {:induction false} UnpackFoldGrows(fs: FileSystem, made: set<string>, unpackDirectory: string, deps: seq<Artifact>)
    ensures made <= Fold(made, deps, Unpacks(fs, unpackDirectory)).1
    decreases |deps|
  {
    if |deps| > 0 {
      UnpackFoldGrows(fs, made, unpackDirectory, deps[..|deps| - 1]);
    }
  }

  // ---- the goal, step by step ----

  /** unpackResource. */
  method LegacyUnpackResource(fs: FileSystem, made: set<string>, unpackDirectory: string, dep: Artifact)
    returns (steps: seq<Step>, made': set<string>)
    ensures (steps, made') == LegacyUnpackOne(fs, made, unpackDirectory, dep)
  {
    var dir := Child(unpackDirectory, dep.groupId + "-" + dep.artifactId);
    steps := [];
    if !Present(fs, made, dir) {
      steps := [Do(CreateDirectories(dir))];
    }
    steps := steps + [Do(Unpack(PathOf(dep), dir, ["wix-locale/**", "cabs/**"], []))];
    made' := made + {dir};
  }

  /** The loop of multilink that unpacks every dependency before the builds. */
  method LegacyUnpackResources(fs: FileSystem, made0: set<string>, unpackDirectory: string, deps: seq<Artifact>)
    returns (steps: seq<Step>, made: set<string>)
    ensures (steps, made) == Fold(made0, deps, Unpacks(fs, unpackDirectory))
  {
    steps, made := [], made0;
    var i := 0;
    while i < |deps|
      invariant 0 <= i <= |deps|
      invariant (steps, made) == Fold(made0, deps[..i], Unpacks(fs, unpackDirectory))
    {
      assert deps[..i + 1] == deps[..i] + [deps[i]];
      FoldSnoc(made0, deps[..i], deps[i], Unpacks(fs, unpackDirectory));
      var more, m := LegacyUnpackResource(fs, made, unpackDirectory, deps[i]);
      steps, made := steps + more, m;
      i := i + 1;
    }
    assert deps[..i] == deps;
  }

  /** addResource: the library's unpacked locale folders, when it has them. */
  method LegacyAddResource(roots: OrderedRoots, fs: FileSystem, unpackDirectory: string, lib: Artifact, culture: Option<string>)
    modifies roots
    ensures roots.items == LegacyResourceRoots(fs, old(roots.items), unpackDirectory, lib, culture)
  {
    var neutralFolder := Child(Child(unpackDirectory, lib.groupId + "-" + lib.artifactId), "wix-locale");
    if Exists(fs, neutralFolder) {
      AddBinderOption(roots, fs, neutralFolder, culture);
    }
  }

  /** One pass of the dependency loop of a build. */
  method LegacyDependencyStep(b: LegacyLightBuild, unpackDirectory: string, arch: string, culture: Option<string>,
                              roots: OrderedRoots, steps: seq<Step>, made: set<string>, files: set<string>, dep: Artifact)
    returns (steps': seq<Step>, made': set<string>, files': set<string>, failed: bool)
    modifies roots
    ensures DepStep(b.fs, Related(b, arch, culture), unpackDirectory, culture, DepState(steps, made, old(roots.items), files, false), dep)
      == DepState(steps', made', roots.items, files', failed)
  {
    var more, m := LegacyUnpackResource(b.fs, made, unpackDirectory, dep);
    steps', made', files', failed := steps + more, m, files, false;
    if EqualsIgnoreCase(PackLib, dep.artifactType) {
      LegacyAddResource(roots, b.fs, unpackDirectory, dep, culture);
      var found := RelatedArtifacts(b.fs, b.repo, dep, arch, culture);
      if found.Err? {
        return steps' + [Throw(found.error)], made', files', true;
      }
      files' := files + Paths(found.value);
    }
    if EqualsIgnoreCase(PackInstall, dep.artifactType) {
      var dir := Child(unpackDirectory, dep.groupId + "-" + dep.artifactId);
      if Present(b.fs, made', dir) {
        roots.Add(dir);
      }
    }
  }

  /** Pass i of the dependency loop, stated against the prefix the loop has handled. */
  method LegacyDependencyNext(b: LegacyLightBuild, unpackDirectory: string, arch: string, culture: Option<string>,
                              roots: OrderedRoots, ghost start: DepState, deps: seq<Artifact>, i: nat,
                              steps: seq<Step>, made: set<string>, files: set<string>)
    returns (steps': seq<Step>, made': set<string>, files': set<string>, failed: bool)
    requires i < |deps|
    requires DepLoop(b.fs, Related(b, arch, culture), unpackDirectory, culture, start, deps[..i])
      == DepState(steps, made, roots.items, files, false)
    modifies roots
    ensures DepLoop(b.fs, Related(b, arch, culture), unpackDirectory, culture, start, deps[..i + 1])
      == DepState(steps', made', roots.items, files', failed)
  {
    ghost var prefix := deps[..i + 1];
    assert prefix[..|prefix| - 1] == deps[..i] && prefix[|prefix| - 1] == deps[i];
    steps', made', files', failed := LegacyDependencyStep(b, unpackDirectory, arch, culture, roots, steps, made, files, deps[i]);
  }

  /**
   * The dependency loop of one build: each dependency is unpacked again, a wixlib adds its
   * resource folders and its related files, an msi its unpack folder; a failed lookup stops it.
   */
  method LegacyCollectDependencies(b: LegacyLightBuild, unpackDirectory: string, arch: string, culture: Option<string>,
                                   roots: OrderedRoots, made0: set<string>, files0: set<string>, deps: seq<Artifact>)
    returns (steps: seq<Step>, made: set<string>, files: set<string>, failed: bool)
    modifies roots
    ensures DepLoop(b.fs, Related(b, arch, culture), unpackDirectory, culture, DepState([], made0, old(roots.items), files0, false), deps)
      == DepState(steps, made, roots.items, files, failed)
  {
    ghost var lookup := Related(b, arch, culture);
    ghost var start := DepState([], made0, roots.items, files0, false);
    steps, made, files, failed := [], made0, files0, false;
    var i := 0;
    while i < |deps|
      invariant 0 <= i <= |deps|
      invariant DepLoop(b.fs, lookup, unpackDirectory, culture, start, deps[..i]) == DepState(steps, made, roots.items, files, false)
    {
      steps, made, files, failed := LegacyDependencyNext(b, unpackDirectory, arch, culture, roots, start, deps, i,
                                                         steps, made, files);
      if failed {
        DepLoopStopsAt(b.fs, lookup, unpackDirectory, culture, start, deps, i + 1);
        return;
      }
      i := i + 1;
    }
    assert deps[..i] == deps;
  }

  /** The bind folders known before the dependency loop, and the locale files. */
  method LegacyPrepareRoots(cfg: LegacyLightConfig, b: LegacyLightBuild, p: ScanPatterns, culture: Option<string>, out: string)
    returns (roots: OrderedRoots, locales: seq<string>)
    ensures fresh(roots)
    ensures roots.items == StartRoots(cfg, b, culture)
    ensures locales == LegacyLocales(cfg, b, p, out)
  {
    roots := new OrderedRoots(b.order(cfg.fileSourceRoots));
    locales := [];
    if Exists(b.fs, cfg.wxlInputDirectory) {
      locales := b.order(b.scan(p.localeIncludes, p.localeExcludes, cfg.wxlInputDirectory, out));
      AddBinderOption(roots, b.fs, cfg.wxlInputDirectory, culture);
    }
  }

  /** The command line up to "-out" and the output. */
  method LegacyStartCommand(cfg: LegacyLightConfig, out: string) returns (cl: CommandLine)
    ensures fresh(cl)
    ensures cl.executable == ToolExecutable(cfg.toolDirectory, "light.exe")
    ensures cl.workingDirectory == Some(cfg.folders.wxsInputDirectory)
    ensures cl.arguments == LegacyLeadingArgs(cfg, out)
  {
    cl := new CommandLine(ToolExecutable(cfg.toolDirectory, "light.exe"));
    cl.SetWorkingDirectory(cfg.folders.wxsInputDirectory);
    AddToolsetGeneralOptions(cl, cfg.verbose);
    if cfg.bindFiles {
      cl.AddArguments(["-bf"]);
    }
    cl.AddArguments(["-out", out]);
  }

  /** addLocaleOptions, the "-loc" switches, the extensions and the pass-through properties. */
  method LegacyAddOptionSwitches(cl: CommandLine, cfg: LegacyLightConfig, b: LegacyLightBuild, culture: Option<string>,
                                 locales: seq<string>)
    modifies cl
    ensures cl.arguments == old(cl.arguments) + LegacyOptionArgs(cfg, b, culture, locales)
    ensures cl.executable == old(cl.executable) && cl.workingDirectory == old(cl.workingDirectory)
  {
    ghost var start := cl.arguments;
    ghost var cultures := LocaleArgs(culture);
    ghost var locs := LocArgs(locales);
    ghost var exts := ExtensionArgs(ExtensionDependencies(b.artifacts));
    cl.AddArguments(LocaleArgs(culture));
    AddLocales(cl, locales);
    AppendAssoc(start, cultures, locs);
    AddWixExtensions(cl, ExtensionDependencies(b.artifacts));
    AppendAssoc(start, cultures + locs, exts);
    Candle.CandleMojo.AddOtherOptions(cl, cfg.linkProperties);
    AppendAssoc(start, cultures + locs + exts, Candle.OtherOptions(cfg.linkProperties));
  }

  /** addReuseCabOptions: the cabinet cache switches, and the cache folder made when missing. */
  method LegacyAddReuseCabOptions(cl: CommandLine, cfg: LegacyLightConfig, fs: FileSystem, made: set<string>, arch: string)
    returns (steps: seq<Step>, made': set<string>)
    modifies cl
    ensures cl.arguments == old(cl.arguments) + LegacyReuseCabArgs(cfg.reuseCabs, cfg.cabCacheDirectory, arch)
    ensures cl.executable == old(cl.executable) && cl.workingDirectory == old(cl.workingDirectory)
    ensures steps == (if cfg.reuseCabs then MakeIfMissing(fs, made, CabCache(cfg.cabCacheDirectory, arch)) else [])
    ensures made' == if cfg.reuseCabs then made + {CabCache(cfg.cabCacheDirectory, arch)} else made
  {
    steps := [];
    made' := made;
    if cfg.reuseCabs {
      var cab := Child(cfg.cabCacheDirectory, arch);
      cl.AddArguments(["-reusecab", "-cc", cab + "\\\\"]);
      if !Present(fs, made, cab) {
        steps := [Do(CreateDirectories(cab))];
      }
      made' := made + {cab};
    }
  }

  /** The command line of a build with files to link, then light run after its output folder is made. */
  method LegacyLink(cfg: LegacyLightConfig, b: LegacyLightBuild, d: DepState, roots: OrderedRoots, out: string,
                    culture: Option<string>, locales: seq<string>, arch: string) returns (steps: seq<Step>, made': set<string>)
    requires roots.items == d.roots
    modifies roots
    ensures (steps, made') == LinkTail(cfg, b, d, out, culture, locales, arch)
  {
    var call, mkCab, made1 := LegacyLinkCommand(cfg, b, d, roots, out, culture, locales, arch);
    var parent := Parent(out);
    var mkOut: seq<Step> := [];
    if !Present(b.fs, made1, parent) {
      mkOut := [Do(CreateDirectories(parent))];
    }
    assert mkOut == MakeIfMissing(b.fs, made1, parent);
    steps := d.steps + mkCab + mkOut + [LinkStep(call)];
    made' := made1 + {parent};
  }

  /** The light command line of a build, and the cabinet cache folder made on the way when missing. */
  method LegacyLinkCommand(cfg: LegacyLightConfig, b: LegacyLightBuild, d: DepState, roots: OrderedRoots, out: string,
                           culture: Option<string>, locales: seq<string>, arch: string)
    returns (call: Invocation, mkCab: seq<Step>, made1: set<string>)
    requires roots.items == d.roots
    modifies roots
    ensures call == LegacyLinkCall(cfg, LegacyLinkArgs(cfg, b, out, d.roots, culture, locales, arch, d.files))
    ensures mkCab == if cfg.reuseCabs then MakeIfMissing(b.fs, d.made, CabCache(cfg.cabCacheDirectory, arch)) else []
    ensures made1 == if cfg.reuseCabs then d.made + {CabCache(cfg.cabCacheDirectory, arch)} else d.made
  {
    ghost var lead := LegacyLeadingArgs(cfg, out);
    ghost var binds := LegacyBindArgs(InsertAll(d.roots, LegacyAddedRoots(b.fs, cfg.folders)));
    ghost var opts := LegacyOptionArgs(cfg, b, culture, locales);
    var cl := LegacyStartCommand(cfg, out);
    LegacyAddOptions(cl, b.fs, cfg.folders, roots);
    assert cl.arguments == lead + binds;
    LegacyAddOptionSwitches(cl, cfg, b, culture, locales);
    mkCab, made1 := LegacyAddReuseCabOptions(cl, cfg, b.fs, d.made, arch);
    AppendAssoc(lead + binds, opts, LegacyReuseCabArgs(cfg.reuseCabs, cfg.cabCacheDirectory, arch));
    cl.AddArguments(b.order(d.files));
    assert cl.arguments == LegacyLinkArgs(cfg, b, out, d.roots, culture, locales, arch, d.files);
    call := cl.Snapshot();
  }

  /** One (platform, culture) build of multilink. */
  method LegacyLinkVariant(cfg: LegacyLightConfig, b: LegacyLightBuild, p: ScanPatterns, made: set<string>, arch: string,
                           culture: Option<string>) returns (steps: seq<Step>, made': set<string>)
    ensures (steps, made') == LegacyVariantPlan(cfg, b, p, made, arch, culture)
  {
    var out := b.output(arch, culture, LegacyOutputExtension(cfg.packaging));
    var objects := b.scan(p.includes, p.excludes, Child(cfg.intDirectory, arch), out);
    var roots, locales := LegacyPrepareRoots(cfg, b, p, culture, out);
    var deps := LegacyDependencies(b.artifacts, b.direct);
    var depSteps, depMade, files, failed := LegacyCollectDependencies(b, cfg.unpackDirectory, arch, culture, roots, made, objects, deps);
    var d := DepState(depSteps, depMade, roots.items, files, failed);
    assert d == VariantDeps(cfg, b, p, made, arch, culture);
    if failed || files == {} {
      return depSteps, depMade;
    }
    steps, made' := LegacyLink(cfg, b, d, roots, out, culture, locales, arch);
  }

  /** The culture loop of one platform: its builds, continuing from the folders made so far. */
  method LegacyLinkCultures(cfg: LegacyLightConfig, b: LegacyLightBuild, p: ScanPatterns, made: set<string>, arch: string)
    returns (steps: seq<Step>, made': set<string>)
    ensures (steps, made') == Fold(made, Row(arch, cfg.cultures), LegacyBuilds(cfg, b, p))
  {
    var cultures := cfg.cultures;
    steps, made' := [], made;
    var j := 0;
    while j < |cultures|
      invariant 0 <= j <= |cultures|
      invariant (steps, made') == Fold(made, Row(arch, cultures[..j]), LegacyBuilds(cfg, b, p))
    {
      RowGrows(arch, cultures, j);
      FoldSnoc(made, Row(arch, cultures[..j]), (arch, cultures[j]), LegacyBuilds(cfg, b, p));
      var more, m := LegacyLinkVariant(cfg, b, p, made', arch, cultures[j]);
      steps, made' := steps + more, m;
      j := j + 1;
    }
    assert cultures[..j] == cultures;
  }

  /** multilink: light.exe must exist; every dependency is unpacked, then every platform is linked culture by culture. */
  method LegacyMultilink(cfg: LegacyLightConfig, b: LegacyLightBuild, p: ScanPatterns, made0: set<string>,
                         setting: PlatformSetting) returns (plan: seq<Step>)
    modifies setting
    ensures plan == LegacyMultilinkPlan(cfg, b, p, made0, old(setting.platforms))
  {
    var exe := ToolExecutable(cfg.toolDirectory, "light.exe");
    if !Exists(b.fs, exe) {
      return [Throw(MissingFile(exe))];
    }
    var unpacked, start := LegacyUnpackResources(b.fs, made0, cfg.unpackDirectory, LegacyDependencies(b.artifacts, b.direct));
    var platforms := setting.GetPlatforms();
    var archs := b.order(platforms);
    var linked: seq<Step> := [];
    var made := start;
    var i := 0;
    while i < |archs|
      invariant 0 <= i <= |archs|
      invariant Fold(start, Cross(archs[..i], cfg.cultures), LegacyBuilds(cfg, b, p)) == (linked, made)
    {
      CrossGrows(archs, cfg.cultures, i);
      FoldConcat(start, Cross(archs[..i], cfg.cultures), Row(archs[i], cfg.cultures), LegacyBuilds(cfg, b, p));
      var steps;
      steps, made := LegacyLinkCultures(cfg, b, p, made, archs[i]);
      linked := linked + steps;
      i := i + 1;
    }
    assert archs[..i] == archs;
    plan := unpacked + linked;
  }

  /** execute: nothing when skipped; the output folder is made, then multilink runs. */
  method LegacyExecute(cfg: LegacyLightConfig, b: LegacyLightBuild, p: ScanPatterns, setting: PlatformSetting)
    returns (plan: seq<Step>)
    modifies setting
    ensures plan == LegacyLightPlan(cfg, b, p, old(setting.platforms))
  {
    if cfg.skip {
      return [];
    }
    plan := [];
    var made: set<string> := {};
    if cfg.outputDirectory.Some? {
      plan := [Do(CreateDirectories(cfg.outputDirectory.value))];
      made := {cfg.outputDirectory.value};
    }
    var linked := LegacyMultilink(cfg, b, p, made, setting);
    plan := plan + linked;
  }
}
