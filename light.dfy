// LightMojo: the light goal. It unpacks the resources of unclassified wix dependencies,
// then for every platform and culture collects the objects and libraries to link and the
// folders light binds files from, and links the package.
module Light {
  import opened Wrappers
  import opened JavaText
  import opened Files
  import opened Seqs
  import opened ArtifactLookup
  import opened Runtime
  import opened JavaProperties
  import opened WixMojo
  import opened RelativePath
  import opened Linker
  import opened Plans

  // ---- switches ----

  /** addLocaleOptions: "-cultures:<spec>" for a culture build. */
  function LocaleArgs(culture: Option<string>): seq<string>
  {
    if culture.Some? then ["-cultures:" + culture.value] else []
  }

  /** Linking skips ICE validation when validation is suppressed or left to a unit test. */
  predicate SuppressesValidation(validate: Option<string>)
  {
    validate.Some? && (EqualsIgnoreCase(ValidateSuppress, validate.value) || EqualsIgnoreCase(ValidateUnit, validate.value))
  }

  /** addValidationOptions. */
  function ValidationArgs(validate: Option<string>): seq<string>
  {
    if SuppressesValidation(validate) then ["-sval"] else []
  }

  /** The cabinet cache of a platform. */
  function CabCache(cabCacheDirectory: string, arch: string): string
  {
    Child(cabCacheDirectory, arch)
  }

  /** addReuseCabOptions: the cabinet cache of the platform, with a trailing backslash. */
  function ReuseCabArgs(reuseCabs: bool, cabCacheDirectory: string, arch: string): seq<string>
  {
    if reuseCabs then ["-reusecab", "-cc", CabCache(cabCacheDirectory, arch) + "\\"] else []
  }

  /** outputExtension: a patch is linked to wixmsp for pyro; anything else to the package's extension. */
  function OutputExtension(packaging: string, packageOutputExtension: string): string
  {
    if EqualsIgnoreCase(PackPatch, packaging) then "wixmsp" else packageOutputExtension
  }

  /** Each switch appears exactly under its condition. */
  lemma SwitchesGated(culture: Option<string>, validate: Option<string>, reuseCabs: bool, cabCacheDirectory: string,
                      arch: string, packaging: string, packageOutputExtension: string)
    ensures LocaleArgs(culture) != [] <==> culture.Some?
    ensures culture.Some? ==> LocaleArgs(culture) == ["-cultures:" + culture.value]
    ensures "-sval" in ValidationArgs(validate) <==>
      validate.Some? && (EqualsIgnoreCase("suppress", validate.value) || EqualsIgnoreCase("unit", validate.value))
    ensures ReuseCabArgs(reuseCabs, cabCacheDirectory, arch) != [] <==> reuseCabs
    ensures reuseCabs ==> ReuseCabArgs(reuseCabs, cabCacheDirectory, arch)[2] == cabCacheDirectory + "\\" + arch + "\\"
    ensures OutputExtension(packaging, packageOutputExtension) ==
      if EqualsIgnoreCase("msp", packaging) then "wixmsp" else packageOutputExtension
  {
  }

  // ---- bind folders ----

  /** The folder of the primary culture inside a base folder. */
  function CultureFolder(baseFolder: string, culture: Option<string>): string
    requires culture.Some?
  {
    Child(baseFolder, PrimaryCulture(culture).value)
  }

  /**
   * addBinderOption on an insertion-ordered set: the primary culture's folder when there
   * is a culture and the folder exists, then the base folder itself.
   */
  function BinderRoots(fs: FileSystem, roots: seq<string>, baseFolder: string, culture: Option<string>): seq<string>
  {
    var withCulture :=
      if culture.Some? && Exists(fs, CultureFolder(baseFolder, culture)) then Insert(roots, CultureFolder(baseFolder, culture))
      else roots;
    Insert(withCulture, baseFolder)
  }

  /**
   * Culture-specific files are preferred: a new culture folder lands right before its new
   * base folder. The base folder is always bound, the culture folder only when it exists.
   */
  lemma BinderRootsOrder(fs: FileSystem, roots: seq<string>, baseFolder: string, culture: Option<string>)
    ensures var r := BinderRoots(fs, roots, baseFolder, culture);
      && baseFolder in r
      && (culture.None? ==> Elements(r) == Elements(roots) + {baseFolder})
      && (culture.Some? ==> (CultureFolder(baseFolder, culture) in r <==>
            CultureFolder(baseFolder, culture) in roots || Exists(fs, CultureFolder(baseFolder, culture))))
      && (culture.Some? && Exists(fs, CultureFolder(baseFolder, culture))
          && CultureFolder(baseFolder, culture) !in roots && baseFolder !in roots ==>
            r == roots + [CultureFolder(baseFolder, culture), baseFolder])
  {
    if culture.Some? {
      var cf := CultureFolder(baseFolder, culture);
      assert |cf| > |baseFolder|;
    }
  }

  method AddBinderOption(roots: OrderedRoots, fs: FileSystem, baseFolder: string, culture: Option<string>)
    modifies roots
    ensures roots.items == BinderRoots(fs, old(roots.items), baseFolder, culture)
  {
    if culture.Some? {
      var cultureFolder := Child(baseFolder, PrimaryCulture(culture).value);
      if Exists(fs, cultureFolder) {
        roots.Add(cultureFolder);
      }
    }
    roots.Add(baseFolder);
  }

  /** The unpacked locale folder of a library. */
  function NeutralFolder(unpackDirectory: string, lib: Artifact): string
  {
    Child(WixUnpackDirectory(unpackDirectory, lib), "wix-locale")
  }

  /** addResource: the library's unpacked locale folders, when it was unpacked. */
  function ResourceRoots(fs: FileSystem, roots: seq<string>, unpackDirectory: string, lib: Artifact, culture: Option<string>)
    : seq<string>
  {
    if Exists(fs, NeutralFolder(unpackDirectory, lib)) then BinderRoots(fs, roots, NeutralFolder(unpackDirectory, lib), culture)
    else roots
  }

  method AddResource(roots: OrderedRoots, fs: FileSystem, unpackDirectory: string, lib: Artifact, culture: Option<string>)
    modifies roots
    ensures roots.items == ResourceRoots(fs, old(roots.items), unpackDirectory, lib, culture)
  {
    var neutralFolder := Child(WixUnpackDirectory(unpackDirectory, lib), "wix-locale");
    if Exists(fs, neutralFolder) {
      AddBinderOption(roots, fs, neutralFolder, culture);
    }
  }

  // ---- configuration and environment ----

  /** The parameters of the light goal. */
  datatype LightConfig = LightConfig(
    skip: bool,
    verbose: bool,
    bindFiles: bool,
    reuseCabs: bool,
    validate: Option<string>,
    packaging: string,
    packageOutputExtension: string,
    toolDirectory: string,
    relativeBase: string,
    cabCacheDirectory: string,
    wxlInputDirectory: string,
    outputDirectory: Option<string>,
    folders: BindFolders,
    fileSourceRoots: set<string>,
    linkProperties: Option<Properties>,
    /** culturespecs(): the culture of each build, null for a neutral one. */
    cultures: seq<Option<string>>)

  /**
   * What the goal depends on besides its parameters: the file system, the repository, the
   * project's artifacts, getCanonicalPath, the iteration order of string sets, getOutput
   * and getArchIntDirectory, and the inclusion scanner (patterns, excludes, folder, target).
   */
  datatype LightBuild = LightBuild(
    fs: FileSystem,
    repo: Repository,
    artifacts: seq<Artifact>,
    direct: set<Coordinates>,
    canonical: string -> string,
    order: set<string> -> seq<string>,
    output: (string, Option<string>, string) -> string,
    archIntDirectory: (string, Option<string>) -> string,
    scan: (set<string>, set<string>, string, string) -> set<string>)

  predicate IsLibrary(a: Artifact)
  {
    EqualsIgnoreCase(PackLib, a.artifactType)
  }

  // ---- one build ----

  function OutputFile(cfg: LightConfig, b: LightBuild, arch: string, culture: Option<string>): string
  {
    b.output(arch, culture, OutputExtension(cfg.packaging, cfg.packageOutputExtension))
  }

  /** The sorted locale files, when the locale folder exists. */
  function Locales(cfg: LightConfig, b: LightBuild, p: ScanPatterns, out: string): Option<seq<string>>
  {
    if Exists(b.fs, cfg.wxlInputDirectory) then
      Some(SortedList(b.order(b.scan(p.localeIncludes, p.localeExcludes, cfg.wxlInputDirectory, out))))
    else None
  }

  /** The bind folders of one build before addOptions: configured, locale, unpack, then library folders. */
  function VariantRoots(cfg: LightConfig, b: LightBuild, libs: seq<Artifact>, culture: Option<string>): seq<string>
  {
    var r0 := b.order(cfg.fileSourceRoots);
    var r1 := if Exists(b.fs, cfg.wxlInputDirectory) then BinderRoots(b.fs, r0, cfg.wxlInputDirectory, culture) else r0;
    var r2 := if Exists(b.fs, cfg.folders.unpackDirectory) then Insert(r1, cfg.folders.unpackDirectory) else r1;
    LibraryRoots(b.fs, r2, cfg.folders.unpackDirectory, libs, culture)
  }

  /** The resource folders of each wixlib dependency in turn. */
  function LibraryRoots(fs: FileSystem, roots: seq<string>, unpackDirectory: string, libs: seq<Artifact>, culture: Option<string>)
    : seq<string>
  {
    if |libs| == 0 then roots
    else
      var before := LibraryRoots(fs, roots, unpackDirectory, libs[..|libs| - 1], culture);
      var lib := libs[|libs| - 1];
      if IsLibrary(lib) then ResourceRoots(fs, before, unpackDirectory, lib, culture) else before
  }

  /** The files of a set of artifacts. */
  function Paths(found: set<Artifact>): set<string>
  {
    set a | a in found :: PathOf(a)
  }

  /** The files of one dependency: a wixlib's related variants, made relative; nothing for other types. */
  function LibraryFilesOf(cfg: LightConfig, b: LightBuild, lib: Artifact, arch: string, culture: Option<string>)
    : Result<seq<string>, Failure>
  {
    if !IsLibrary(lib) then Ok([])
    else match RelatedArtifacts(b.fs, b.repo, lib, arch, culture)
      case Err(e) => Err(e)
      case Ok(found) => RelativeAll(b.canonical, cfg.relativeBase, b.order(Paths(found)))
  }

  /** The files of every dependency, in order; the first failure stops the build. */
  function LibraryFiles(cfg: LightConfig, b: LightBuild, libs: seq<Artifact>, arch: string, culture: Option<string>)
    : Result<seq<string>, Failure>
  {
    if |libs| == 0 then Ok([])
    else match LibraryFiles(cfg, b, libs[..|libs| - 1], arch, culture)
      case Err(e) => Err(e)
      case Ok(before) =>
        match LibraryFilesOf(cfg, b, libs[|libs| - 1], arch, culture)
        case Err(e) => Err(e)
        case Ok(files) => Ok(before + files)
  }

  /** The switches before the bind folders: general options, "-bf" when binding files, "-out". */
  function LeadingArgs(cfg: LightConfig, out: string): seq<string>
  {
    GeneralOptions(cfg.verbose) + (if cfg.bindFiles then ["-bf"] else []) + ["-out", out]
  }

  /** The switches after the bind folders up to the pass-through properties. */
  function OptionArgs(cfg: LightConfig, b: LightBuild, culture: Option<string>, locales: seq<string>): seq<string>
  {
    LocaleSwitches(cfg, culture, locales) + ExtensionArgs(ExtensionDependencies(b.artifacts))
    + OtherOptions(cfg.linkProperties)
  }

  /** "-sval", "-cultures:" and the locale files. */
  function LocaleSwitches(cfg: LightConfig, culture: Option<string>, locales: seq<string>): seq<string>
  {
    ValidationArgs(cfg.validate) + LocaleArgs(culture) + LocArgs(locales)
  }

  /** The switches after the bind folders and before the object files. */
  function TrailingArgs(cfg: LightConfig, b: LightBuild, culture: Option<string>, locales: seq<string>, arch: string)
    : seq<string>
  {
    OptionArgs(cfg, b, culture, locales) + ReuseCabArgs(cfg.reuseCabs, cfg.cabCacheDirectory, arch)
  }

  /** The light command line of one build. */
  function LinkArgs(cfg: LightConfig, b: LightBuild, out: string, roots: seq<string>, culture: Option<string>,
                    locales: seq<string>, arch: string, objectFiles: set<string>): seq<string>
  {
    LeadingArgs(cfg, out) + BindArgs(InsertAll(roots, AddedRoots(b.fs, cfg.folders)))
    + TrailingArgs(cfg, b, culture, locales, arch) + b.order(objectFiles)
  }

  function LinkCall(cfg: LightConfig, args: seq<string>): Invocation
  {
    Invocation(ToolExecutable(cfg.toolDirectory, "light.exe"), Some(cfg.relativeBase), args)
  }

  /** The object files the scanner finds for a build, made relative. */
  function Objects(cfg: LightConfig, b: LightBuild, p: ScanPatterns, arch: string, culture: Option<string>)
    : Result<seq<string>, Failure>
  {
    RelativeAll(b.canonical, cfg.relativeBase,
                b.order(b.scan(p.includes, p.excludes, b.archIntDirectory(arch, culture), OutputFile(cfg, b, arch, culture))))
  }

  /** The locale files of a build, made relative; none without a locale folder. */
  function LocaleFiles(cfg: LightConfig, b: LightBuild, p: ScanPatterns, arch: string, culture: Option<string>)
    : Result<seq<string>, Failure>
  {
    var locales := Locales(cfg, b, p, OutputFile(cfg, b, arch, culture));
    if locales.Some? then RelativeAll(b.canonical, cfg.relativeBase, locales.value) else Ok([])
  }

  /**
   * One (platform, culture) build: the objects and libraries are made relative (the first
   * failure stops the goal); with nothing to link nothing happens; otherwise the cabinet
   * cache and the output folder are made when missing and light runs.
   */
  function VariantPlan(cfg: LightConfig, b: LightBuild, p: ScanPatterns, made: set<string>, arch: string,
                       culture: Option<string>): (seq<Step>, set<string>)
  {
    var out := OutputFile(cfg, b, arch, culture);
    var libs := WixDependencies(b.artifacts, b.direct);
    var objects := Objects(cfg, b, p, arch, culture);
    var libFiles := LibraryFiles(cfg, b, libs, arch, culture);
    if objects.Err? then ([Throw(objects.error)], made)
    else if libFiles.Err? then ([Throw(libFiles.error)], made)
    else
      var objectFiles := Elements(objects.value) + Elements(libFiles.value);
      var relLocales := LocaleFiles(cfg, b, p, arch, culture);
      if objectFiles == {} then ([], made)
      else if relLocales.Err? then ([Throw(relLocales.error)], made)
      else
        var cab := CabCache(cfg.cabCacheDirectory, arch);
        var mkCab := if cfg.reuseCabs then MakeIfMissing(b.fs, made, cab) else [];
        var made1 := if cfg.reuseCabs then made + {cab} else made;
        var args := LinkArgs(cfg, b, out, VariantRoots(cfg, b, libs, culture), culture, relLocales.value, arch, objectFiles);
        (mkCab + MakeIfMissing(b.fs, made1, Parent(out)) + [LinkStep(LinkCall(cfg, args))], made1 + {Parent(out)})
  }

  /** The build of one (platform, culture) pair, as the body of a loop. */
  function Builds(cfg: LightConfig, b: LightBuild, p: ScanPatterns)
    : (set<string>, (string, Option<string>)) -> (seq<Step>, set<string>)
  {
    (made: set<string>, v: (string, Option<string>)) => VariantPlan(cfg, b, p, made, v.0, v.1)
  }

  /** The builds in order, each seeing the folders the earlier ones made. */
  function VariantsPlan(cfg: LightConfig, b: LightBuild, p: ScanPatterns, made: set<string>,
                        variants: seq<(string, Option<string>)>): (seq<Step>, set<string>)
  {
    Fold(made, variants, Builds(cfg, b, p))
  }

  /** The library's resources unpacked into its unpack folder, made first when missing. */
  function UnpackPlan(fs: FileSystem, made: set<string>, unpackDirectory: string, deps: seq<Artifact>)
    : (seq<Step>, set<string>)
  {
    if |deps| == 0 then ([], made)
    else
      var before := UnpackPlan(fs, made, unpackDirectory, deps[..|deps| - 1]);
      var dep := deps[|deps| - 1];
      if HasClassifier(dep) then before
      else Then(before, UnpackOne(fs, before.1, unpackDirectory, dep))
  }

  /** unpackResource: the unpack folder made when missing, then the resources extracted into it. */
  function UnpackOne(fs: FileSystem, made: set<string>, unpackDirectory: string, dep: Artifact): (seq<Step>, set<string>)
  {
    var dir := WixUnpackDirectory(unpackDirectory, dep);
    (MakeIfMissing(fs, made, dir) + [Do(Unpack(PathOf(dep), dir, ["wix-locale/**", "cabs/**"], []))], made + {dir})
  }

  /**
   * multilink: light.exe must exist; the unclassified wix dependencies are unpacked, then
   * every culture of every platform is built, platform by platform.
   */
  function MultilinkPlan(cfg: LightConfig, b: LightBuild, p: ScanPatterns, made: set<string>,
                         platforms: Option<set<string>>): seq<Step>
  {
    var exe := ToolExecutable(cfg.toolDirectory, "light.exe");
    if !Exists(b.fs, exe) then [Throw(MissingFile(exe))]
    else
      var unpacked := UnpackPlan(b.fs, made, cfg.folders.unpackDirectory, WixDependencies(b.artifacts, b.direct));
      unpacked.0 + VariantsPlan(cfg, b, p, unpacked.1, Cross(b.order(DefaultPlatforms(platforms)), cfg.cultures)).0
  }

  /** execute of the light goal. */
  function LightPlan(cfg: LightConfig, b: LightBuild, p: ScanPatterns, platforms: Option<set<string>>): seq<Step>
  {
    ExecutePlan(cfg.skip, cfg.outputDirectory, MultilinkPlan(cfg, b, p, ExecuteMade(cfg.outputDirectory), platforms))
  }

  // ---- properties of the plan ----

  /**
   * A build either does nothing, throws, or makes at most two folders and then runs light;
   * it never forgets a folder made before it.
   */
  lemma VariantPlanShape(cfg: LightConfig, b: LightBuild, p: ScanPatterns, made: set<string>, arch: string,
                         culture: Option<string>)
    ensures var r := VariantPlan(cfg, b, p, made, arch, culture);
      && made <= r.1
      && (r.0 == [] || (|r.0| == 1 && r.0[0].Throw?) ||
          (1 <= |r.0| <= 3 && r.0[|r.0| - 1].Call? && r.0[|r.0| - 1].call.executable == ToolExecutable(cfg.toolDirectory, "light.exe")
           && MakesFolders(r.0[..|r.0| - 1])))
  {
    if Links(cfg, b, p, arch, culture) {
      VariantPlanWhenLinks(cfg, b, p, made, arch, culture);
      var out := OutputFile(cfg, b, arch, culture);
      var cab := CabCache(cfg.cabCacheDirectory, arch);
      var made1 := if cfg.reuseCabs then made + {cab} else made;
      MakeTwice(b.fs, cfg.reuseCabs, made, cab, made1, Parent(out));
      AfterFolders((if cfg.reuseCabs then MakeIfMissing(b.fs, made, cab) else []) + MakeIfMissing(b.fs, made1, Parent(out)),
                   VariantPlan(cfg, b, p, made, arch, culture).0[|VariantPlan(cfg, b, p, made, arch, culture).0| - 1]);
    } else {
      VariantPlanStops(cfg, b, p, made, arch, culture);
    }
  }

  /** A build that links makes the cabinet cache and the output folder when missing, then runs light. */
  lemma VariantPlanWhenLinks(cfg: LightConfig, b: LightBuild, p: ScanPatterns, made: set<string>, arch: string,
                             culture: Option<string>)
    requires Links(cfg, b, p, arch, culture)
    ensures var out := OutputFile(cfg, b, arch, culture);
      var cab := CabCache(cfg.cabCacheDirectory, arch);
      var made1 := if cfg.reuseCabs then made + {cab} else made;
      var args := LinkArgs(cfg, b, out, VariantRoots(cfg, b, WixDependencies(b.artifacts, b.direct), culture), culture,
                           LocaleFiles(cfg, b, p, arch, culture).value, arch, LinkedFiles(cfg, b, p, arch, culture));
      VariantPlan(cfg, b, p, made, arch, culture)
        == ((if cfg.reuseCabs then MakeIfMissing(b.fs, made, cab) else []) + MakeIfMissing(b.fs, made1, Parent(out))
            + [LinkStep(LinkCall(cfg, args))], made1 + {Parent(out)})
  {
  }

  /** A build that does not link does nothing or fails at once, and makes no folder. */
  lemma VariantPlanStops(cfg: LightConfig, b: LightBuild, p: ScanPatterns, made: set<string>, arch: string,
                         culture: Option<string>)
    requires !Links(cfg, b, p, arch, culture)
    ensures var r := VariantPlan(cfg, b, p, made, arch, culture);
      r.1 == made && (r.0 == [] || (|r.0| == 1 && r.0[0].Throw?))
  {
  }

  /** Whether a build gets as far as running light: everything made relative, something to link. */
  predicate Links(cfg: LightConfig, b: LightBuild, p: ScanPatterns, arch: string, culture: Option<string>)
  {
    var objects := Objects(cfg, b, p, arch, culture);
    var libFiles := LibraryFiles(cfg, b, WixDependencies(b.artifacts, b.direct), arch, culture);
    objects.Ok? && libFiles.Ok? && LocaleFiles(cfg, b, p, arch, culture).Ok?
    && Elements(objects.value) + Elements(libFiles.value) != {}
  }

  /** The files light is given: the object files and the library files. */
  function LinkedFiles(cfg: LightConfig, b: LightBuild, p: ScanPatterns, arch: string, culture: Option<string>): set<string>
    requires Links(cfg, b, p, arch, culture)
  {
    Elements(Objects(cfg, b, p, arch, culture).value)
    + Elements(LibraryFiles(cfg, b, WixDependencies(b.artifacts, b.direct), arch, culture).value)
  }

  /** A build ends in a light run exactly when it links, and then with this command line. */
  lemma VariantPlanCall(cfg: LightConfig, b: LightBuild, p: ScanPatterns, made: set<string>, arch: string,
                        culture: Option<string>)
    ensures var r := VariantPlan(cfg, b, p, made, arch, culture);
      (r.0 != [] && r.0[|r.0| - 1].Call?) <==> Links(cfg, b, p, arch, culture)
    ensures var r := VariantPlan(cfg, b, p, made, arch, culture);
      Links(cfg, b, p, arch, culture) ==>
        r.0 != [] && r.0[|r.0| - 1] == LinkStep(LinkCall(cfg, LinkArgs(cfg, b, OutputFile(cfg, b, arch, culture),
          VariantRoots(cfg, b, WixDependencies(b.artifacts, b.direct), culture), culture,
          LocaleFiles(cfg, b, p, arch, culture).value, arch, LinkedFiles(cfg, b, p, arch, culture))))
  {
    if Links(cfg, b, p, arch, culture) {
      VariantPlanWhenLinks(cfg, b, p, made, arch, culture);
      var out := OutputFile(cfg, b, arch, culture);
      var cab := CabCache(cfg.cabCacheDirectory, arch);
      var made1 := if cfg.reuseCabs then made + {cab} else made;
      MakeTwice(b.fs, cfg.reuseCabs, made, cab, made1, Parent(out));
      AfterFolders((if cfg.reuseCabs then MakeIfMissing(b.fs, made, cab) else []) + MakeIfMissing(b.fs, made1, Parent(out)),
                   VariantPlan(cfg, b, p, made, arch, culture).0[|VariantPlan(cfg, b, p, made, arch, culture).0| - 1]);
    } else {
      VariantPlanStops(cfg, b, p, made, arch, culture);
    }
  }


  /** Every file in the set reaches the command line, when the set is listed in an iteration order. */
  lemma LinkArgsHasFiles(cfg: LightConfig, b: LightBuild, out: string, roots: seq<string>, culture: Option<string>,
                         locales: seq<string>, arch: string, objectFiles: set<string>)
    requires Lists(b.order(objectFiles), objectFiles)
    ensures forall f :: f in objectFiles ==> f in LinkArgs(cfg, b, out, roots, culture, locales, arch, objectFiles)
  {
    var args := LinkArgs(cfg, b, out, roots, culture, locales, arch, objectFiles);
    var files := b.order(objectFiles);
    ConcatParts(LeadingArgs(cfg, out), BindArgs(InsertAll(roots, AddedRoots(b.fs, cfg.folders))),
                TrailingArgs(cfg, b, culture, locales, arch), files);
    var tail := args[|args| - |files|..];
    assert tail == files;
    forall f | f in objectFiles
      ensures f in args
    {
      assert f in Elements(files);
      var k :| 0 <= k < |files| && files[k] == f;
      assert tail[k] == f;
    }
  }

  /**
   * light runs exactly when the objects, the libraries and the locale files were all made
   * relative and there is something to link; it is then given every object and library file.
   */
  lemma VariantPlanLinks(cfg: LightConfig, b: LightBuild, p: ScanPatterns, made: set<string>, arch: string,
                         culture: Option<string>)
    requires IsIterationOrder(b.order)
    ensures var r := VariantPlan(cfg, b, p, made, arch, culture);
      && (r.0 != [] && r.0[|r.0| - 1].Call? <==> Links(cfg, b, p, arch, culture))
      && (Links(cfg, b, p, arch, culture) ==>
            forall f :: f in LinkedFiles(cfg, b, p, arch, culture) ==> f in r.0[|r.0| - 1].call.arguments)
  {
    VariantPlanCall(cfg, b, p, made, arch, culture);
    if Links(cfg, b, p, arch, culture) {
      var objectFiles := LinkedFiles(cfg, b, p, arch, culture);
      assert Lists(b.order(objectFiles), objectFiles);
      LinkArgsHasFiles(cfg, b, OutputFile(cfg, b, arch, culture), VariantRoots(cfg, b, WixDependencies(b.artifacts, b.direct), culture),
                       culture, LocaleFiles(cfg, b, p, arch, culture).value, arch, objectFiles);
    }
  }

  /** A build with nothing to link runs nothing and makes nothing. */
  lemma NothingToLink(cfg: LightConfig, b: LightBuild, p: ScanPatterns, made: set<string>, arch: string, culture: Option<string>)
    requires b.order(b.scan(p.includes, p.excludes, b.archIntDirectory(arch, culture), OutputFile(cfg, b, arch, culture))) == []
    requires LibraryFiles(cfg, b, WixDependencies(b.artifacts, b.direct), arch, culture) == Ok([])
    ensures VariantPlan(cfg, b, p, made, arch, culture) == ([], made)
  {
    assert RelativeAll(b.canonical, cfg.relativeBase, []) == Ok([]);
    assert Elements<string>([]) == {};
  }

  /**
   * The light command line: general options, "-bf" when binding files, "-out" and the
   * output, the bind folders, then the other switches, and finally the object files.
   */
  lemma LinkArgsLayout(cfg: LightConfig, b: LightBuild, out: string, roots: seq<string>, culture: Option<string>,
                       locales: seq<string>, arch: string, objectFiles: set<string>)
    ensures var args := LinkArgs(cfg, b, out, roots, culture, locales, arch, objectFiles);
      var n := |GeneralOptions(cfg.verbose)|;
      var g := n + (if cfg.bindFiles then 1 else 0);
      var binds := BindArgs(InsertAll(roots, AddedRoots(b.fs, cfg.folders)));
      && args[..n] == GeneralOptions(cfg.verbose)
      && (cfg.bindFiles ==> args[n] == "-bf")
      && args[g] == "-out" && args[g + 1] == out
      && args[g + 2..g + 2 + |binds|] == binds
      && args[|args| - |b.order(objectFiles)|..] == b.order(objectFiles)
  {
    LeadingArgsLayout(cfg, out);
    LeadThenRest(LinkArgs(cfg, b, out, roots, culture, locales, arch, objectFiles),
                 LeadingArgs(cfg, out), BindArgs(InsertAll(roots, AddedRoots(b.fs, cfg.folders))),
                 TrailingArgs(cfg, b, culture, locales, arch), b.order(objectFiles),
                 GeneralOptions(cfg.verbose), cfg.bindFiles, out);
  }

  /** The leading switches, the bind folders and the object files keep their places in the whole command line. */
  lemma LeadThenRest(args: seq<string>, lead: seq<string>, binds: seq<string>, trail: seq<string>, objs: seq<string>,
                     general: seq<string>, bindFiles: bool, out: string)
    requires args == lead + binds + trail + objs
    requires var n := |general|;
      var g := n + (if bindFiles then 1 else 0);
      && |lead| == g + 2
      && lead[..n] == general
      && (bindFiles ==> lead[n] == "-bf")
      && lead[g] == "-out" && lead[g + 1] == out
    ensures var n := |general|;
      var g := n + (if bindFiles then 1 else 0);
      && args[..n] == general
      && (bindFiles ==> args[n] == "-bf")
      && args[g] == "-out" && args[g + 1] == out
      && args[g + 2..g + 2 + |binds|] == binds
      && args[|args| - |objs|..] == objs
  {
    ConcatParts(lead, binds, trail, objs);
    assert args[..|general|] == lead[..|general|];
  }

  /** The leading switches: general options, "-bf" when binding files, then "-out" and the output. */
  lemma LeadingArgsLayout(cfg: LightConfig, out: string)
    ensures var lead := LeadingArgs(cfg, out);
      var n := |GeneralOptions(cfg.verbose)|;
      var g := n + (if cfg.bindFiles then 1 else 0);
      && |lead| == g + 2
      && lead[..n] == GeneralOptions(cfg.verbose)
      && (forall i :: 0 <= i < n ==> lead[i] == GeneralOptions(cfg.verbose)[i])
      && (cfg.bindFiles ==> lead[n] == "-bf")
      && lead[g] == "-out" && lead[g + 1] == out
  {
    var general := GeneralOptions(cfg.verbose);
    ConcatParts(general, if cfg.bindFiles then ["-bf"] else [], ["-out", out], []);
  }

  // ---- the goal, step by step ----

  /** Once a dependency fails, the dependencies after it are not looked at. */
  lemma {:induction false} LibraryFilesStopsAt(cfg: LightConfig, b: LightBuild, libs: seq<Artifact>, n: nat,
                                               arch: string, culture: Option<string>)
    requires n <= |libs|
    requires LibraryFiles(cfg, b, libs[..n], arch, culture).Err?
    ensures LibraryFiles(cfg, b, libs, arch, culture) == LibraryFiles(cfg, b, libs[..n], arch, culture)
    decreases |libs| - n
  {
    if n == |libs| {
      assert libs[..n] == libs;
    } else {
      var init := libs[..|libs| - 1];
      assert init[..n] == libs[..n];
      LibraryFilesStopsAt(cfg, b, init, n, arch, culture);
    }
  }

  /** One more dependency: how the files and the bind folders of a prefix grow by one. */
  lemma LibrariesSnoc(cfg: LightConfig, b: LightBuild, roots: seq<string>, unpackDirectory: string, libs: seq<Artifact>,
                      i: nat, arch: string, culture: Option<string>)
    requires i < |libs|
    ensures var before := LibraryFiles(cfg, b, libs[..i], arch, culture);
      var more := LibraryFilesOf(cfg, b, libs[i], arch, culture);
      before.Ok? ==> LibraryFiles(cfg, b, libs[..i + 1], arch, culture)
                     == if more.Ok? then Ok(before.value + more.value) else more
    ensures !IsLibrary(libs[i]) ==> LibraryFilesOf(cfg, b, libs[i], arch, culture) == Ok([])
    ensures LibraryRoots(b.fs, roots, unpackDirectory, libs[..i + 1], culture)
      == var r := LibraryRoots(b.fs, roots, unpackDirectory, libs[..i], culture);
         if IsLibrary(libs[i]) then ResourceRoots(b.fs, r, unpackDirectory, libs[i], culture) else r
  {
    var prefix := libs[..i + 1];
    assert prefix[..|prefix| - 1] == libs[..i] && prefix[|prefix| - 1] == libs[i];
  }

  /** The files of one wixlib dependency: its related variants, made relative. */
  method CollectLibrary(cfg: LightConfig, b: LightBuild, lib: Artifact, arch: string, culture: Option<string>)
    returns (files: Result<seq<string>, Failure>)
    requires IsLibrary(lib)
    ensures files == LibraryFilesOf(cfg, b, lib, arch, culture)
  {
    var found := RelatedArtifacts(b.fs, b.repo, lib, arch, culture);
    if found.Err? {
      return Err(found.error);
    }
    files := RelativeAllOf(b.canonical, cfg.relativeBase, b.order(Paths(found.value)));
  }

  /**
   * The dependency loop of one build: each wixlib adds its resource folders to the bind
   * folders and its related variants to the files to link.
   */
  method CollectLibraries(cfg: LightConfig, b: LightBuild, roots: OrderedRoots, libs: seq<Artifact>, arch: string,
                          culture: Option<string>) returns (files: Result<seq<string>, Failure>)
    modifies roots
    ensures files == LibraryFiles(cfg, b, libs, arch, culture)
    ensures files.Ok? ==>
      roots.items == LibraryRoots(b.fs, old(roots.items), cfg.folders.unpackDirectory, libs, culture)
  {
    ghost var start := roots.items;
    var acc: seq<string> := [];
    var i := 0;
    while i < |libs|
      invariant 0 <= i <= |libs|
      invariant LibraryFiles(cfg, b, libs[..i], arch, culture) == Ok(acc)
      invariant roots.items == LibraryRoots(b.fs, start, cfg.folders.unpackDirectory, libs[..i], culture)
    {
      var more := CollectNext(cfg, b, roots, start, libs, i, acc, arch, culture);
      if more.Err? {
        LibraryFilesStopsAt(cfg, b, libs, i + 1, arch, culture);
        return Err(more.error);
      }
      acc := acc + more.value;
      i := i + 1;
    }
    assert libs[..i] == libs;
    return Ok(acc);
  }

  /** Pass i of the dependency loop, stated against the prefix the loop has handled. */
  method CollectNext(cfg: LightConfig, b: LightBuild, roots: OrderedRoots, ghost start: seq<string>, libs: seq<Artifact>,
                     i: nat, ghost acc: seq<string>, arch: string, culture: Option<string>)
    returns (files: Result<seq<string>, Failure>)
    requires i < |libs|
    requires LibraryFiles(cfg, b, libs[..i], arch, culture) == Ok(acc)
    requires roots.items == LibraryRoots(b.fs, start, cfg.folders.unpackDirectory, libs[..i], culture)
    modifies roots
    ensures files.Ok? ==> LibraryFiles(cfg, b, libs[..i + 1], arch, culture) == Ok(acc + files.value)
    ensures files.Ok? ==> roots.items == LibraryRoots(b.fs, start, cfg.folders.unpackDirectory, libs[..i + 1], culture)
    ensures files.Err? ==> LibraryFiles(cfg, b, libs[..i + 1], arch, culture) == files
  {
    LibrariesSnoc(cfg, b, start, cfg.folders.unpackDirectory, libs, i, arch, culture);
    files := CollectDependency(cfg, b, roots, libs[i], arch, culture);
  }

  /** One pass of the dependency loop: a wixlib adds its resource folders, then its files. */
  method CollectDependency(cfg: LightConfig, b: LightBuild, roots: OrderedRoots, lib: Artifact, arch: string,
                           culture: Option<string>) returns (files: Result<seq<string>, Failure>)
    modifies roots
    ensures files == LibraryFilesOf(cfg, b, lib, arch, culture)
    ensures roots.items == if IsLibrary(lib) then ResourceRoots(b.fs, old(roots.items), cfg.folders.unpackDirectory, lib, culture)
                           else old(roots.items)
  {
    if !IsLibrary(lib) {
      return Ok([]);
    }
    AddResource(roots, b.fs, cfg.folders.unpackDirectory, lib, culture);
    files := CollectLibrary(cfg, b, lib, arch, culture);
  }

  /** The bind folders known before the dependency loop, and the sorted locale files. */
  method PrepareRoots(cfg: LightConfig, b: LightBuild, p: ScanPatterns, culture: Option<string>, out: string)
    returns (roots: OrderedRoots, locales: Option<seq<string>>)
    ensures fresh(roots)
    ensures locales == Locales(cfg, b, p, out)
    ensures LibraryRoots(b.fs, roots.items, cfg.folders.unpackDirectory, WixDependencies(b.artifacts, b.direct), culture)
      == VariantRoots(cfg, b, WixDependencies(b.artifacts, b.direct), culture)
  {
    roots := new OrderedRoots(b.order(cfg.fileSourceRoots));
    locales := None;
    if Exists(b.fs, cfg.wxlInputDirectory) {
      locales := Some(SortedList(b.order(b.scan(p.localeIncludes, p.localeExcludes, cfg.wxlInputDirectory, out))));
      AddBinderOption(roots, b.fs, cfg.wxlInputDirectory, culture);
    }
    if Exists(b.fs, cfg.folders.unpackDirectory) {
      roots.Add(cfg.folders.unpackDirectory);
    }
  }

  /** The command line up to "-out" and the output. */
  method StartCommand(cfg: LightConfig, out: string) returns (cl: CommandLine)
    ensures fresh(cl)
    ensures cl.executable == ToolExecutable(cfg.toolDirectory, "light.exe")
    ensures cl.workingDirectory == Some(cfg.relativeBase)
    ensures cl.arguments == LeadingArgs(cfg, out)
  {
    cl := new CommandLine(ToolExecutable(cfg.toolDirectory, "light.exe"));
    cl.SetWorkingDirectory(cfg.relativeBase);
    AddToolsetGeneralOptions(cl, cfg.verbose);
    if cfg.bindFiles {
      cl.AddArguments(["-bf"]);
    }
    cl.AddArguments(["-out", out]);
  }

  /** addValidationOptions, addLocaleOptions and the "-loc" switches. */
  method AddLocaleSwitches(cl: CommandLine, cfg: LightConfig, culture: Option<string>, locales: seq<string>)
    modifies cl
    ensures cl.arguments == old(cl.arguments) + LocaleSwitches(cfg, culture, locales)
    ensures cl.executable == old(cl.executable) && cl.workingDirectory == old(cl.workingDirectory)
  {
    ghost var start := cl.arguments;
    cl.AddArguments(ValidationArgs(cfg.validate));
    cl.AddArguments(LocaleArgs(culture));
    AppendAssoc(start, ValidationArgs(cfg.validate), LocaleArgs(culture));
    AddLocales(cl, locales);
    AppendAssoc(start, ValidationArgs(cfg.validate) + LocaleArgs(culture), LocArgs(locales));
  }

  /** The switches after the bind folders, up to the pass-through properties. */
  method AddOptionSwitches(cl: CommandLine, cfg: LightConfig, b: LightBuild, culture: Option<string>, locales: seq<string>)
    modifies cl
    ensures cl.arguments == old(cl.arguments) + OptionArgs(cfg, b, culture, locales)
    ensures cl.executable == old(cl.executable) && cl.workingDirectory == old(cl.workingDirectory)
  {
    ghost var start := cl.arguments;
    AddLocaleSwitches(cl, cfg, culture, locales);
    AddWixExtensions(cl, ExtensionDependencies(b.artifacts));
    AppendAssoc(start, LocaleSwitches(cfg, culture, locales), ExtensionArgs(ExtensionDependencies(b.artifacts)));
    AddOtherOptions(cl, cfg.linkProperties);
    AppendAssoc(start, LocaleSwitches(cfg, culture, locales) + ExtensionArgs(ExtensionDependencies(b.artifacts)),
                OtherOptions(cfg.linkProperties));
  }

  /** addReuseCabOptions: the cabinet cache switches, and the cache folder made when missing. */
  method AddReuseCabOptions(cl: CommandLine, cfg: LightConfig, fs: FileSystem, made: set<string>, arch: string)
    returns (steps: seq<Step>, made': set<string>)
    modifies cl
    ensures cl.arguments == old(cl.arguments) + ReuseCabArgs(cfg.reuseCabs, cfg.cabCacheDirectory, arch)
    ensures cl.executable == old(cl.executable) && cl.workingDirectory == old(cl.workingDirectory)
    ensures steps == (if cfg.reuseCabs then MakeIfMissing(fs, made, CabCache(cfg.cabCacheDirectory, arch)) else [])
    ensures made' == if cfg.reuseCabs then made + {CabCache(cfg.cabCacheDirectory, arch)} else made
  {
    steps := [];
    made' := made;
    if cfg.reuseCabs {
      var cab := Child(cfg.cabCacheDirectory, arch);
      cl.AddArguments(["-reusecab", "-cc", cab + "\\"]);
      if !Present(fs, made, cab) {
        steps := [Do(CreateDirectories(cab))];
      }
      made' := made + {cab};
    }
  }

  /** The command line up to the pass-through properties; the bind folders join the ordered set. */
  method Command(cfg: LightConfig, b: LightBuild, out: string, roots: OrderedRoots, culture: Option<string>,
                 locales: seq<string>) returns (cl: CommandLine)
    modifies roots
    ensures fresh(cl)
    ensures cl.executable == ToolExecutable(cfg.toolDirectory, "light.exe")
    ensures cl.workingDirectory == Some(cfg.relativeBase)
    ensures cl.arguments == LeadingArgs(cfg, out) + BindArgs(InsertAll(old(roots.items), AddedRoots(b.fs, cfg.folders)))
      + OptionArgs(cfg, b, culture, locales)
  {
    cl := StartCommand(cfg, out);
    AddOptionsOrdered(cl, b.fs, cfg.folders, roots);
    AddOptionSwitches(cl, cfg, b, culture, locales);
  }

  /** The command line of a build with files to link, then light run after its output folder is made. */
  method Link(cfg: LightConfig, b: LightBuild, made: set<string>, out: string, roots: OrderedRoots, culture: Option<string>,
              locales: seq<string>, arch: string, objectFiles: set<string>) returns (steps: seq<Step>, made': set<string>)
    modifies roots
    ensures var cab := CabCache(cfg.cabCacheDirectory, arch);
      var mkCab := if cfg.reuseCabs then MakeIfMissing(b.fs, made, cab) else [];
      var made1 := if cfg.reuseCabs then made + {cab} else made;
      var args := LinkArgs(cfg, b, out, old(roots.items), culture, locales, arch, objectFiles);
      && steps == mkCab + MakeIfMissing(b.fs, made1, Parent(out)) + [LinkStep(LinkCall(cfg, args))]
      && made' == made1 + {Parent(out)}
  {
    ghost var before := roots.items;
    var cl := Command(cfg, b, out, roots, culture, locales);
    ghost var start := cl.arguments;
    var mkCab, made1 := AddReuseCabOptions(cl, cfg, b.fs, made, arch);
    cl.AddArguments(b.order(objectFiles));
    ArgsAssemble(cfg, b, out, before, culture, locales, arch, objectFiles, start, cl.arguments);
    var parent := Parent(out);
    var mkOut: seq<Step> := [];
    if !Present(b.fs, made1, parent) {
      mkOut := [Do(CreateDirectories(parent))];
    }
    var call := cl.Snapshot();
    steps := mkCab + mkOut + [LinkStep(call)];
    made' := made1 + {parent};
  }

  /** The command line of Command, the cabinet cache switches and the object files make up LinkArgs. */
  lemma ArgsAssemble(cfg: LightConfig, b: LightBuild, out: string, roots: seq<string>, culture: Option<string>,
                     locales: seq<string>, arch: string, objectFiles: set<string>, start: seq<string>, args: seq<string>)
    requires start == LeadingArgs(cfg, out) + BindArgs(InsertAll(roots, AddedRoots(b.fs, cfg.folders)))
      + OptionArgs(cfg, b, culture, locales)
    requires args == start + ReuseCabArgs(cfg.reuseCabs, cfg.cabCacheDirectory, arch) + b.order(objectFiles)
    ensures args == LinkArgs(cfg, b, out, roots, culture, locales, arch, objectFiles)
  {
    GroupFourth(LeadingArgs(cfg, out), BindArgs(InsertAll(roots, AddedRoots(b.fs, cfg.folders))),
                OptionArgs(cfg, b, culture, locales), ReuseCabArgs(cfg.reuseCabs, cfg.cabCacheDirectory, arch),
                b.order(objectFiles));
  }

  /** One (platform, culture) build of multilink. */
  method LinkVariant(cfg: LightConfig, b: LightBuild, p: ScanPatterns, made: set<string>, arch: string,
                     culture: Option<string>) returns (steps: seq<Step>, made': set<string>)
    ensures (steps, made') == VariantPlan(cfg, b, p, made, arch, culture)
  {
    var out := OutputFile(cfg, b, arch, culture);
    var objects := b.scan(p.includes, p.excludes, b.archIntDirectory(arch, culture), out);
    var libs := WixDependencies(b.artifacts, b.direct);
    var roots, locales := PrepareRoots(cfg, b, p, culture, out);
    var objectRels := RelativeAllOf(b.canonical, cfg.relativeBase, b.order(objects));
    assert objectRels == Objects(cfg, b, p, arch, culture);
    if objectRels.Err? {
      return [Throw(objectRels.error)], made;
    }
    var libFiles := CollectLibraries(cfg, b, roots, libs, arch, culture);
    if libFiles.Err? {
      return [Throw(libFiles.error)], made;
    }
    var objectFiles := Elements(objectRels.value) + Elements(libFiles.value);
    if objectFiles == {} {
      return [], made;
    }
    var localeRels: Result<seq<string>, Failure> := Ok([]);
    if locales.Some? {
      localeRels := RelativeAllOf(b.canonical, cfg.relativeBase, locales.value);
    }
    assert localeRels == LocaleFiles(cfg, b, p, arch, culture);
    if localeRels.Err? {
      return [Throw(localeRels.error)], made;
    }
    steps, made' := Link(cfg, b, made, out, roots, culture, localeRels.value, arch, objectFiles);
  }

  /** unpackResource. */
  method UnpackResource(fs: FileSystem, made: set<string>, unpackDirectory: string, dep: Artifact)
    returns (steps: seq<Step>, made': set<string>)
    ensures (steps, made') == UnpackOne(fs, made, unpackDirectory, dep)
  {
    var dir := WixUnpackDirectory(unpackDirectory, dep);
    steps := [];
    if !Present(fs, made, dir) {
      steps := [Do(CreateDirectories(dir))];
    }
    steps := steps + [Do(Unpack(PathOf(dep), dir, ["wix-locale/**", "cabs/**"], []))];
    made' := made + {dir};
  }

  /** unpackResource for each wix dependency without a classifier. */
  method UnpackResources(fs: FileSystem, made0: set<string>, unpackDirectory: string, deps: seq<Artifact>)
    returns (steps: seq<Step>, made: set<string>)
    ensures (steps, made) == UnpackPlan(fs, made0, unpackDirectory, deps)
  {
    steps, made := [], made0;
    var i := 0;
    while i < |deps|
      invariant 0 <= i <= |deps|
      invariant (steps, made) == UnpackPlan(fs, made0, unpackDirectory, deps[..i])
    {
      ghost var prefix := deps[..i + 1];
      assert prefix[..|prefix| - 1] == deps[..i] && prefix[|prefix| - 1] == deps[i];
      var dep := deps[i];
      if !HasClassifier(dep) {
        var more, m := UnpackResource(fs, made, unpackDirectory, dep);
        steps, made := steps + more, m;
      }
      i := i + 1;
    }
    assert deps[..i] == deps;
  }

  /** The culture loop of one platform: its builds, continuing from the folders made so far. */
  method LinkCultures(cfg: LightConfig, b: LightBuild, p: ScanPatterns, made: set<string>, arch: string)
    returns (steps: seq<Step>, made': set<string>)
    ensures (steps, made') == Fold(made, Row(arch, cfg.cultures), Builds(cfg, b, p))
  {
    var cultures := cfg.cultures;
    steps, made' := [], made;
    var j := 0;
    while j < |cultures|
      invariant 0 <= j <= |cultures|
      invariant (steps, made') == Fold(made, Row(arch, cultures[..j]), Builds(cfg, b, p))
    {
      RowGrows(arch, cultures, j);
      FoldSnoc(made, Row(arch, cultures[..j]), (arch, cultures[j]), Builds(cfg, b, p));
      var more, m := LinkVariant(cfg, b, p, made', arch, cultures[j]);
      steps, made' := steps + more, m;
      j := j + 1;
    }
    assert cultures[..j] == cultures;
  }

  /** multilink: light.exe must exist; resources are unpacked, then every platform is linked culture by culture. */
  method Multilink(cfg: LightConfig, b: LightBuild, p: ScanPatterns, made0: set<string>, setting: PlatformSetting)
    returns (plan: seq<Step>)
    modifies setting
    ensures plan == MultilinkPlan(cfg, b, p, made0, old(setting.platforms))
  {
    var exe := ToolExecutable(cfg.toolDirectory, "light.exe");
    if !Exists(b.fs, exe) {
      return [Throw(MissingFile(exe))];
    }
    var unpacked, start := UnpackResources(b.fs, made0, cfg.folders.unpackDirectory, WixDependencies(b.artifacts, b.direct));
    var platforms := setting.GetPlatforms();
    var archs := b.order(platforms);
    var linked: seq<Step> := [];
    var made := start;
    var i := 0;
    while i < |archs|
      invariant 0 <= i <= |archs|
      invariant VariantsPlan(cfg, b, p, start, Cross(archs[..i], cfg.cultures)) == (linked, made)
    {
      CrossGrows(archs, cfg.cultures, i);
      FoldConcat(start, Cross(archs[..i], cfg.cultures), Row(archs[i], cfg.cultures), Builds(cfg, b, p));
      var steps;
      steps, made := LinkCultures(cfg, b, p, made, archs[i]);
      linked := linked + steps;
      i := i + 1;
    }
    assert archs[..i] == archs;
    plan := unpacked + linked;
  }

  /** execute: nothing when skipped; the output folder is made, then multilink runs. */
  method Execute(cfg: LightConfig, b: LightBuild, p: ScanPatterns, setting: PlatformSetting) returns (plan: seq<Step>)
    modifies setting
    ensures plan == LightPlan(cfg, b, p, old(setting.platforms))
  {
    if cfg.skip {
      return [];
    }
    plan := [];
    var made: set<string> := {};
    if cfg.outputDirectory.Some? {
      plan := [Do(CreateDirectories(cfg.outputDirectory.value))];
      made := {cfg.outputDirectory.value};
    }
    var linked := Multilink(cfg, b, p, made, setting);
    plan := plan + linked;
  }
}
