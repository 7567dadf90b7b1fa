// WixprojMojo: the dependency values of the build, written as the texts of an MSBuild
// targets file for Visual Studio: compile definitions, extension and bind-folder lines,
// and the wixlib files of each platform.
module Wixproj {
  import opened Wrappers
  import opened JavaText
  import opened Files
  import opened Seqs
  import opened ArtifactLookup
  import opened Runtime
  import opened WixMojo
  import opened CompilerDefines
  import Light
  import Candle

  /** The goal's parameters and the base folders it strips from paths. */
  datatype WixprojConfig = WixprojConfig(
    updateVSProj: bool,
    useNamedBindPath: bool,
    unpackDirectory: string,
    repoBase: string,
    harvestInputDirectory: string)

  /** The file system, the repository, the project's artifacts and the iteration order of file sets. */
  datatype WixprojBuild = WixprojBuild(
    fs: FileSystem,
    repo: Repository,
    artifacts: seq<Artifact>,
    direct: set<Coordinates>,
    order: set<string> -> seq<string>)

  /**
   * The seven text nodes of the targets file: mavenExtensions, the general and per-platform
   * mavenCompileDependencies, mavenLinkerDependencies and the per-platform
   * mavenLinkerWixlibDependencies.
   */
  datatype VSProjTexts = VSProjTexts(
    extensions: string,
    compile: string,
    compileX86: string,
    compileX64: string,
    link: string,
    linkX86: string,
    linkX64: string)

  /** The compile texts addDefinitionBase can write to. */
  datatype CompileText = Compile | CompileX86 | CompileX64

  /** The wixlib texts addLib can write to. */
  datatype LibText = LinkX86 | LinkX64

  // ---- lines ----

  /** addDefinitionBase's line: "  -d<definition>" and a newline. */
  function DefinitionLine(def: string): string
  {
    "  -d" + def + "\n"
  }

  function DefinitionLines(defs: seq<string>): string
  {
    FlatMap(defs, (def: string) => DefinitionLine(def))
  }

  /** Reading one definition line back, as the preprocessor's command line sees it. */
  function DefinitionOfLine(line: string): Option<string>
  {
    if |line| >= 5 && line[..4] == "  -d" && line[|line| - 1] == '\n' then Some(line[4..|line| - 1]) else None
  }

  /** Every definition written is read back as itself. */
  lemma DefinitionLineRoundTrip(def: string)
    ensures DefinitionOfLine(DefinitionLine(def)) == Some(def)
  {
    var line := DefinitionLine(def);
    assert line[..4] == "  -d";
    assert line[4..|line| - 1] == def;
  }

  lemma ThreeLines(defs: seq<string>)
    requires |defs| == 3
    ensures DefinitionLines(defs) == DefinitionLine(defs[0]) + DefinitionLine(defs[1]) + DefinitionLine(defs[2])
  {
    assert defs[..2][..1] == [defs[0]];
    assert defs[..2] == [defs[0]] + [defs[1]];
    assert defs == defs[..2] + [defs[2]];
    DefinitionLinesSnoc([defs[0]], defs[1]);
    DefinitionLinesSnoc(defs[..2], defs[2]);
    DefinitionLinesSnoc([], defs[0]);
    assert [] + [defs[0]] == [defs[0]];
  }

  /** Lines of a list of definitions, one after the other. */
  lemma DefinitionLinesSnoc(defs: seq<string>, def: string)
    ensures DefinitionLines(defs + [def]) == DefinitionLines(defs) + DefinitionLine(def)
  {
    assert (defs + [def])[..|defs|] == defs;
  }

  /** addExtension's line. */
  function ExtensionLine(extension: Artifact): string
  {
    "  -ext " + PathOf(extension) + "\n"
  }

  function ExtensionLines(extensions: seq<Artifact>): string
  {
    FlatMap(extensions, (e: Artifact) => ExtensionLine(e))
  }

  /** addLinkPath's line: "  -b ", the bind name and '=' when binds are named, the folder, '\'. */
  function LinkPathLine(named: bool, folder: string, name: string): string
  {
    "  -b " + (if named then name + "=" else "") + folder + "\\\n"
  }

  /** The three bind folders the linker text starts with. */
  function InitialLinkText(named: bool): string
  {
    if named then
      "\n  -b narUnpackDir=$(narUnpackDirectory)\\\n" + "  -b mavenRepoDir=$(MavenRepoPath)\\\n"
      + "  -b wixUnpackDirectory=$(wixUnpackDirectory)\\\n"
    else
      "\n  -b $(narUnpackDirectory)\\\n" + "  -b $(MavenRepoPath)\\\n" + "  -b $(wixUnpackDirectory)\\\n"
  }

  /** The texts startVSProjUpdater creates. */
  function StartTexts(named: bool): VSProjTexts
  {
    VSProjTexts("\n", "\n", "$(mavenCompileDependencies)\n", "$(mavenCompileDependencies)\n",
                InitialLinkText(named), "$(mavenLinkerWixlibDependencies)\n", "$(mavenLinkerWixlibDependencies)\n")
  }

  /** Appending to one of the compile texts. */
  function WithLines(t: VSProjTexts, target: CompileText, lines: string): VSProjTexts
  {
    match target
    case Compile => t.(compile := t.compile + lines)
    case CompileX86 => t.(compileX86 := t.compileX86 + lines)
    case CompileX64 => t.(compileX64 := t.compileX64 + lines)
  }

  lemma WithLinesTwice(t: VSProjTexts, target: CompileText, a: string, b: string)
    ensures WithLines(WithLines(t, target, a), target, b) == WithLines(t, target, a + b)
  {
    match target
    case Compile =>
      assert t.compile + a + b == t.compile + (a + b);
    case CompileX86 =>
      assert t.compileX86 + a + b == t.compileX86 + (a + b);
    case CompileX64 =>
      assert t.compileX64 + a + b == t.compileX64 + (a + b);
  }

  /** addDefinitionBase's effect on the chosen text. */
  function WithDefinition(t: VSProjTexts, target: CompileText, def: string): VSProjTexts
  {
    WithLines(t, target, DefinitionLine(def))
  }

  /** Appending to one of the wixlib texts. */
  function WithLibs(t: VSProjTexts, target: LibText, lines: string): VSProjTexts
  {
    match target
    case LinkX86 => t.(linkX86 := t.linkX86 + lines)
    case LinkX64 => t.(linkX64 := t.linkX64 + lines)
  }

  lemma WithLibsTwice(t: VSProjTexts, target: LibText, a: string, b: string)
    ensures WithLibs(WithLibs(t, target, a), target, b) == WithLibs(t, target, a + b)
  {
    match target
    case LinkX86 =>
      assert t.linkX86 + a + b == t.linkX86 + (a + b);
    case LinkX64 =>
      assert t.linkX64 + a + b == t.linkX64 + (a + b);
  }

  // ---- the platform texts ----

  /** The x86 and x64 definitions execute writes, one line each. */
  const X86Defines: seq<string> := [
    "IsWin64=no",
    "narDir.dll=x86-Windows-msvc-shared/lib/x86-Windows-msvc/shared",
    "narDir.exe=x86-Windows-msvc-executable/bin/x86-Windows-msvc"]
  const X64Defines: seq<string> := [
    "IsWin64=yes",
    "narDir.dll=amd64-Windows-msvc-shared/lib/amd64-Windows-msvc/shared",
    "narDir.exe=amd64-Windows-msvc-executable/bin/amd64-Windows-msvc"]

  /**
   * The x86 text defines what candle defines for an x86 build, and the x64 text what candle
   * defines for any other platform.
   */
  lemma PlatformTextsMatchCandle()
    ensures Elements(X86Defines) == Candle.NarArchDefines("x86")
    ensures Elements(X64Defines) == Candle.NarArchDefines("x64")
  {
    assert Elements(X86Defines) == {X86Defines[0], X86Defines[1], X86Defines[2]};
    assert Elements(X64Defines) == {X64Defines[0], X64Defines[1], X64Defines[2]};
  }

  // ---- wixlib files ----

  /** A wixlib file's line, the local repository written as $(MavenRepoPath). */
  function LibLine(path: string, repoBase: string): string
  {
    Replace(path, repoBase + "\\", "$(MavenRepoPath)\\") + "\n"
  }

  function LibLineOf(repoBase: string): string -> string
  {
    (path: string) => LibLine(path, repoBase)
  }

  /** A file inside the repository is written relative to $(MavenRepoPath). */
  lemma LibLineInRepository(repoBase: string, rest: string)
    requires !Contains(rest, repoBase + "\\")
    ensures LibLine(repoBase + "\\" + rest, repoBase) == "$(MavenRepoPath)\\" + rest + "\n"
  {
    ReplaceLeading(repoBase + "\\", rest, "$(MavenRepoPath)\\");
    ReplaceAbsent(rest, repoBase + "\\", "$(MavenRepoPath)\\");
    assert repoBase + "\\" + rest == (repoBase + "\\") + rest;
  }

  /**
   * addLib: nothing unless the platform is built; otherwise one line per file of the
   * package's related artifacts for that platform and the en-US culture.
   */
  function LibLines(b: WixprojBuild, platforms: set<string>, res: Artifact, arch: string, repoBase: string)
    : Result<string, Failure>
  {
    if arch !in platforms then Ok("")
    else match RelatedArtifacts(b.fs, b.repo, res, arch, Some("en-US"))
      case Err(e) => Err(e)
      case Ok(found) => Ok(FlatMap(b.order(Light.Paths(found)), LibLineOf(repoBase)))
  }

  /**
   * A platform that is not built, or a package that is not a library, adds nothing; for a
   * library of a built platform, the lookup fails only when both the neutral and the
   * en-US variants are missing, and each file found is written once.
   */
  lemma LibLinesCases(b: WixprojBuild, platforms: set<string>, res: Artifact, arch: string, repoBase: string)
    requires IsIterationOrder(b.order)
    ensures arch !in platforms || !IsLibraryType(res.artifactType) ==> LibLines(b, platforms, res, arch, repoBase) == Ok("")
    ensures arch in platforms && IsLibraryType(res.artifactType) ==>
      var n := Lookup(b.fs, b.repo, res, arch + "-neutral");
      var c := Lookup(b.fs, b.repo, res, arch + "-en-US");
      var r := LibLines(b, platforms, res, arch, repoBase);
      && (r.Err? <==> n.Err? && c.Err?)
      && (r.Ok? ==> exists paths :: Lists(paths, Light.Paths((if n.Ok? then n.value else {}) + (if c.Ok? then c.value else {})))
                     && r.value == FlatMap(paths, LibLineOf(repoBase)))
  {
    if arch !in platforms || !IsLibraryType(res.artifactType) {
      LibLinesNothing(b, platforms, res, arch, repoBase);
    } else {
      LibLinesOfLibrary(b, platforms, res, arch, repoBase);
    }
  }

  lemma LibLinesNothing(b: WixprojBuild, platforms: set<string>, res: Artifact, arch: string, repoBase: string)
    requires IsIterationOrder(b.order)
    requires arch !in platforms || !IsLibraryType(res.artifactType)
    ensures LibLines(b, platforms, res, arch, repoBase) == Ok("")
  {
    if arch in platforms {
      RelatedArtifactsFallback(b.fs, b.repo, res, arch, Some("en-US"));
      assert Light.Paths({}) == {};
      NothingListed(b.order({}));
    }
  }

  lemma LibLinesOfLibrary(b: WixprojBuild, platforms: set<string>, res: Artifact, arch: string, repoBase: string)
    requires IsIterationOrder(b.order)
    requires arch in platforms && IsLibraryType(res.artifactType)
    ensures var n := Lookup(b.fs, b.repo, res, arch + "-neutral");
      var c := Lookup(b.fs, b.repo, res, arch + "-en-US");
      var r := LibLines(b, platforms, res, arch, repoBase);
      && (r.Err? <==> n.Err? && c.Err?)
      && (r.Ok? ==> exists paths :: Lists(paths, Light.Paths((if n.Ok? then n.value else {}) + (if c.Ok? then c.value else {})))
                     && r.value == FlatMap(paths, LibLineOf(repoBase)))
  {
    RelatedArtifactsFallback(b.fs, b.repo, res, arch, Some("en-US"));
    EnglishClassifier(arch);
    LibLinesBuilt(b, platforms, res, arch, repoBase);
    LinesOfFound(RelatedArtifacts(b.fs, b.repo, res, arch, Some("en-US")), Lookup(b.fs, b.repo, res, arch + "-neutral"),
                 Lookup(b.fs, b.repo, res, arch + "-en-US"), LibLines(b, platforms, res, arch, repoBase), b.order, repoBase);
  }

  /** The lines written from a lookup that merges two variants' results. */
  lemma LinesOfFound(r: Result<set<Artifact>, Failure>, n: Result<set<Artifact>, Failure>, c: Result<set<Artifact>, Failure>,
                     lines: Result<string, Failure>, order: set<string> -> seq<string>, repoBase: string)
    requires IsIterationOrder(order)
    requires r.Err? <==> n.Err? && c.Err?
    requires r.Ok? ==> r.value == (if n.Ok? then n.value else {}) + (if c.Ok? then c.value else {})
    requires lines == if r.Err? then Err(r.error) else Ok(FlatMap(order(Light.Paths(r.value)), LibLineOf(repoBase)))
    ensures lines.Err? <==> n.Err? && c.Err?
    ensures lines.Ok? ==> exists paths :: Lists(paths, Light.Paths((if n.Ok? then n.value else {}) + (if c.Ok? then c.value else {})))
                           && lines.value == FlatMap(paths, LibLineOf(repoBase))
  {
    if r.Ok? {
      IterationListed(order, Light.Paths(r.value));
    }
  }

  /** addLib looks the en-US variant up under "<platform>-en-US". */
  lemma EnglishClassifier(arch: string)
    ensures VariantClassifier(arch, Some("en-US")) == arch + "-en-US"
  {
    PrimaryCultureIsFirstField(Some("en-US"));
  }

  /** For a built platform, the lines are those of the related artifacts' files in iteration order. */
  lemma LibLinesBuilt(b: WixprojBuild, platforms: set<string>, res: Artifact, arch: string, repoBase: string)
    requires arch in platforms
    ensures var r := RelatedArtifacts(b.fs, b.repo, res, arch, Some("en-US"));
      LibLines(b, platforms, res, arch, repoBase)
        == if r.Err? then Err(r.error) else Ok(FlatMap(b.order(Light.Paths(r.value)), LibLineOf(repoBase)))
  {
  }

  /** The only listing of the empty set is the empty list. */
  lemma NothingListed(xs: seq<string>)
    requires Lists(xs, {})
    ensures xs == []
  {
    ListsCard(xs, {});
  }

  // ---- resources ----

  /** addResource's bind folders: the neutral folder, then its en-US subfolder, when they exist. */
  function ResourceLinks(cfg: WixprojConfig, fs: FileSystem, resUnpackDirectory: string, res: Artifact): string
  {
    var neutral := Child(resUnpackDirectory, "wix-locale");
    var english := Child(neutral, "en-US");
    if !Exists(fs, neutral) then ""
    else
      LinkPathLine(cfg.useNamedBindPath, StripBase(neutral, cfg.unpackDirectory), res.artifactId + "neutral")
      + (if Exists(fs, english) then
           LinkPathLine(cfg.useNamedBindPath, StripBase(english, cfg.unpackDirectory), res.artifactId + "loc")
         else "")
  }

  /**
   * A package binds folders exactly when its neutral folder exists; the neutral folder comes
   * first, and the en-US folder, when it exists, last.
   */
  lemma ResourceLinksOrder(cfg: WixprojConfig, fs: FileSystem, resUnpackDirectory: string, res: Artifact)
    ensures var r := ResourceLinks(cfg, fs, resUnpackDirectory, res);
      var neutral := Child(resUnpackDirectory, "wix-locale");
      var english := Child(neutral, "en-US");
      var first := LinkPathLine(cfg.useNamedBindPath, StripBase(neutral, cfg.unpackDirectory), res.artifactId + "neutral");
      var last := LinkPathLine(cfg.useNamedBindPath, StripBase(english, cfg.unpackDirectory), res.artifactId + "loc");
      && (r != [] <==> Exists(fs, neutral))
      && (Exists(fs, neutral) ==> first <= r)
      && (Exists(fs, neutral) && Exists(fs, english) ==> r == first + last)
      && (Exists(fs, neutral) && !Exists(fs, english) ==> r == first)
  {
    var neutral := Child(resUnpackDirectory, "wix-locale");
    var first := LinkPathLine(cfg.useNamedBindPath, StripBase(neutral, cfg.unpackDirectory), res.artifactId + "neutral");
    assert first[0] == ' ';
  }

  /** addResource: the bind folders, then the wixlib files of x86 and of x64 for a wixlib. */
  function ResourceEffect(cfg: WixprojConfig, b: WixprojBuild, platforms: set<string>, t: VSProjTexts,
                          resUnpackDirectory: string, res: Artifact): Result<VSProjTexts, Failure>
  {
    var t1 := t.(link := t.link + ResourceLinks(cfg, b.fs, resUnpackDirectory, res));
    if !EqualsIgnoreCase(PackLib, res.artifactType) then Ok(t1)
    else match LibLines(b, platforms, res, "x86", cfg.repoBase)
      case Err(e) => Err(e)
      case Ok(x86) =>
        match LibLines(b, platforms, res, "x64", cfg.repoBase)
        case Err(e) => Err(e)
        case Ok(x64) => Ok(t1.(linkX86 := t1.linkX86 + x86, linkX64 := t1.linkX64 + x64))
  }

  /** One package of addWixDefines: its definition and, when unclassified, its resources. */
  function WixOne(cfg: WixprojConfig, b: WixprojBuild, platforms: set<string>, t: VSProjTexts, w: Artifact)
    : Result<VSProjTexts, Failure>
  {
    var t1 := WithDefinition(t, Compile, WixDefinition(w, cfg.unpackDirectory, cfg.repoBase));
    if HasClassifier(w) then Ok(t1)
    else ResourceEffect(cfg, b, platforms, t1, WixUnpackDirectory(cfg.unpackDirectory, w), w)
  }

  /** addWixDefines over the packages in order; the first failing lookup stops it. */
  function WixEffect(cfg: WixprojConfig, b: WixprojBuild, platforms: set<string>, t: VSProjTexts, wix: seq<Artifact>)
    : Result<VSProjTexts, Failure>
    decreases |wix|
  {
    if |wix| == 0 then Ok(t)
    else match WixEffect(cfg, b, platforms, t, wix[..|wix| - 1])
      case Err(e) => Err(e)
      case Ok(before) => WixOne(cfg, b, platforms, before, wix[|wix| - 1])
  }

  /** A package whose lookup fails: an unclassified wixlib with a failing platform lookup. */
  predicate LookupFails(cfg: WixprojConfig, b: WixprojBuild, platforms: set<string>, w: Artifact)
  {
    && !HasClassifier(w) && EqualsIgnoreCase(PackLib, w.artifactType)
    && (LibLines(b, platforms, w, "x86", cfg.repoBase).Err? || LibLines(b, platforms, w, "x64", cfg.repoBase).Err?)
  }

  function WixDefinitionOf(cfg: WixprojConfig): Artifact -> seq<string>
  {
    (w: Artifact) => [WixDefinition(w, cfg.unpackDirectory, cfg.repoBase)]
  }

  function WixDefinitions(cfg: WixprojConfig, wix: seq<Artifact>): seq<string>
  {
    FlatMap(wix, WixDefinitionOf(cfg))
  }

  /** The bind folders of one package: those of its unpack folder when it is unclassified. */
  function PackageLinks(cfg: WixprojConfig, fs: FileSystem, w: Artifact): string
  {
    if HasClassifier(w) then "" else ResourceLinks(cfg, fs, WixUnpackDirectory(cfg.unpackDirectory, w), w)
  }

  function PackageLinksOf(cfg: WixprojConfig, fs: FileSystem): Artifact -> string
  {
    (w: Artifact) => PackageLinks(cfg, fs, w)
  }

  function WixResourceLinks(cfg: WixprojConfig, fs: FileSystem, wix: seq<Artifact>): string
  {
    FlatMap(wix, PackageLinksOf(cfg, fs))
  }

  /** addWixDefines fails exactly when the lookup of some package fails. */
  lemma {:induction false} WixEffectFails(cfg: WixprojConfig, b: WixprojBuild, platforms: set<string>,
                                          t: VSProjTexts, wix: seq<Artifact>)
    ensures WixEffect(cfg, b, platforms, t, wix).Err? <==> exists w :: w in wix && LookupFails(cfg, b, platforms, w)
    decreases |wix|
  {
    if |wix| > 0 {
      var n := |wix| - 1;
      var init := wix[..n];
      var w := wix[n];
      assert wix == init + [w];
      WixEffectFails(cfg, b, platforms, t, init);
      assert forall v :: v in wix <==> v in init || v == w;
      var before := WixEffect(cfg, b, platforms, t, init);
      if before.Ok? {
        WixOneFails(cfg, b, platforms, before.value, w);
      }
    }
  }

  lemma WixOneFails(cfg: WixprojConfig, b: WixprojBuild, platforms: set<string>, t: VSProjTexts, w: Artifact)
    ensures WixOne(cfg, b, platforms, t, w).Err? <==> LookupFails(cfg, b, platforms, w)
  {
  }

  /**
   * When addWixDefines succeeds, the compile text gains one line per package definition,
   * in the packages' order, and the extension and platform texts are untouched.
   */
  lemma {:induction false} WixEffectCompile(cfg: WixprojConfig, b: WixprojBuild, platforms: set<string>,
                                            t: VSProjTexts, wix: seq<Artifact>)
    ensures var r := WixEffect(cfg, b, platforms, t, wix);
      r.Ok? ==> r.value.compile == t.compile + DefinitionLines(WixDefinitions(cfg, wix))
                && r.value.extensions == t.extensions
                && r.value.compileX86 == t.compileX86 && r.value.compileX64 == t.compileX64
    decreases |wix|
  {
    if |wix| > 0 {
      var n := |wix| - 1;
      WixEffectCompile(cfg, b, platforms, t, wix[..n]);
      var before := WixEffect(cfg, b, platforms, t, wix[..n]);
      if before.Ok? {
        var def := WixDefinition(wix[n], cfg.unpackDirectory, cfg.repoBase);
        FlatMapGrows(wix, WixDefinitionOf(cfg), n);
        assert wix[..n + 1] == wix;
        DefinitionLinesSnoc(WixDefinitions(cfg, wix[..n]), def);
        WixOneContents(cfg, b, platforms, before.value, wix[n]);
      }
    }
  }

  /**
   * When addWixDefines succeeds, the linker text gains each unclassified package's bind
   * folders, in the packages' order.
   */
  lemma {:induction false} WixEffectLinks(cfg: WixprojConfig, b: WixprojBuild, platforms: set<string>,
                                          t: VSProjTexts, wix: seq<Artifact>)
    ensures var r := WixEffect(cfg, b, platforms, t, wix);
      r.Ok? ==> r.value.link == t.link + WixResourceLinks(cfg, b.fs, wix)
    decreases |wix|
  {
    if |wix| > 0 {
      var n := |wix| - 1;
      WixEffectLinks(cfg, b, platforms, t, wix[..n]);
      var before := WixEffect(cfg, b, platforms, t, wix[..n]);
      if before.Ok? {
        var r := WixOne(cfg, b, platforms, before.value, wix[n]);
        assert WixEffect(cfg, b, platforms, t, wix) == r;
        WixOneContents(cfg, b, platforms, before.value, wix[n]);
        FlatMapGrows(wix, PackageLinksOf(cfg, b.fs), n);
        assert wix[..n + 1] == wix;
        assert WixResourceLinks(cfg, b.fs, wix) == WixResourceLinks(cfg, b.fs, wix[..n]) + PackageLinks(cfg, b.fs, wix[n]);
        if r.Ok? {
          assert r.value.link == before.value.link + PackageLinks(cfg, b.fs, wix[n]);
        }
      }
    }
  }

  lemma WixOneContents(cfg: WixprojConfig, b: WixprojBuild, platforms: set<string>, t: VSProjTexts, w: Artifact)
    ensures var r := WixOne(cfg, b, platforms, t, w);
      r.Ok? ==> r.value.compile == t.compile + DefinitionLine(WixDefinition(w, cfg.unpackDirectory, cfg.repoBase))
                && r.value.link == t.link + PackageLinks(cfg, b.fs, w)
                && r.value.extensions == t.extensions
                && r.value.compileX86 == t.compileX86 && r.value.compileX64 == t.compileX64
  {
    if HasClassifier(w) {
      assert t.link + "" == t.link;
    }
  }

  // ---- the whole goal ----

  /** The definitions of the NAR, JAR and NPANDAY dependencies, in the order execute adds them. */
  function DependencyDefinitions(cfg: WixprojConfig, b: WixprojBuild): seq<string>
  {
    AllNarDefinitions(OfType(b.artifacts, NarTypes), cfg.repoBase)
    + FlatMap(OfType(b.artifacts, JarTypes), (j: Artifact) => [JarDefinition(j, cfg.repoBase)])
    + FlatMap(OfType(b.artifacts, NpandayTypes), (n: Artifact) => [NpandayDefinition(n, cfg.repoBase)])
  }

  /**
   * execute's texts when the target file is updated: started, then the wix packages, the
   * other dependency definitions, the harvest folders, the extensions and the two platform
   * texts.
   */
  function WixprojTexts(cfg: WixprojConfig, b: WixprojBuild, platforms: set<string>): Result<VSProjTexts, Failure>
  {
    match WixEffect(cfg, b, platforms, StartTexts(cfg.useNamedBindPath), WixDependencies(b.artifacts, b.direct))
    case Err(e) => Err(e)
    case Ok(t) =>
      match HarvestDefinitions(b.fs, cfg.harvestInputDirectory)
      case Err(e) => Err(e)
      case Ok(harvest) =>
        Ok(t.(compile := t.compile + DefinitionLines(DependencyDefinitions(cfg, b)) + DefinitionLines(harvest),
              extensions := t.extensions + ExtensionLines(ExtensionDependencies(b.artifacts)),
              compileX86 := t.compileX86 + DefinitionLines(X86Defines),
              compileX64 := t.compileX64 + DefinitionLines(X64Defines)))
  }

  /**
   * What the targets file holds: the general compile text lists every definition the
   * dependencies and harvest folders give, in order; the linker text the three base folders
   * and then each unpacked package's folders; the extension text one line per extension; the
   * platform texts their platform's definitions. It fails exactly when a package lookup or
   * the harvest walk fails.
   */
  lemma WixprojTextsContents(cfg: WixprojConfig, b: WixprojBuild, platforms: set<string>)
    ensures var r := WixprojTexts(cfg, b, platforms);
      var wix := WixDependencies(b.artifacts, b.direct);
      && (r.Err? <==> (exists w :: w in wix && LookupFails(cfg, b, platforms, w))
                      || HarvestDefinitions(b.fs, cfg.harvestInputDirectory).Err?)
      && (r.Ok? ==>
            && r.value.compile == "\n" + DefinitionLines(WixDefinitions(cfg, wix)) + DefinitionLines(DependencyDefinitions(cfg, b))
                                  + DefinitionLines(HarvestDefinitions(b.fs, cfg.harvestInputDirectory).value)
            && r.value.link == InitialLinkText(cfg.useNamedBindPath) + WixResourceLinks(cfg, b.fs, wix)
            && r.value.extensions == "\n" + ExtensionLines(ExtensionDependencies(b.artifacts))
            && r.value.compileX86 == "$(mavenCompileDependencies)\n" + DefinitionLines(X86Defines)
            && r.value.compileX64 == "$(mavenCompileDependencies)\n" + DefinitionLines(X64Defines))
  {
    WixEffectFails(cfg, b, platforms, StartTexts(cfg.useNamedBindPath), WixDependencies(b.artifacts, b.direct));
    if WixprojTexts(cfg, b, platforms).Ok? {
      WixprojTextsOk(cfg, b, platforms);
    }
  }

  lemma WixprojTextsOk(cfg: WixprojConfig, b: WixprojBuild, platforms: set<string>)
    requires WixprojTexts(cfg, b, platforms).Ok?
    ensures var r := WixprojTexts(cfg, b, platforms);
      var wix := WixDependencies(b.artifacts, b.direct);
      && r.value.compile == "\n" + DefinitionLines(WixDefinitions(cfg, wix)) + DefinitionLines(DependencyDefinitions(cfg, b))
                            + DefinitionLines(HarvestDefinitions(b.fs, cfg.harvestInputDirectory).value)
      && r.value.link == InitialLinkText(cfg.useNamedBindPath) + WixResourceLinks(cfg, b.fs, wix)
      && r.value.extensions == "\n" + ExtensionLines(ExtensionDependencies(b.artifacts))
      && r.value.compileX86 == "$(mavenCompileDependencies)\n" + DefinitionLines(X86Defines)
      && r.value.compileX64 == "$(mavenCompileDependencies)\n" + DefinitionLines(X64Defines)
  {
    WixEffectCompile(cfg, b, platforms, StartTexts(cfg.useNamedBindPath), WixDependencies(b.artifacts, b.direct));
    WixEffectLinks(cfg, b, platforms, StartTexts(cfg.useNamedBindPath), WixDependencies(b.artifacts, b.direct));
  }

  // ---- the mojo ----

  /** The goal with its text nodes; an empty text stands for one not created yet. */
  class WixprojMojo {
    const cfg: WixprojConfig
    var extensions: string
    var compile: string
    var compileX86: string
    var compileX64: string
    var link: string
    var linkX86: string
    var linkX64: string

    function Texts(): VSProjTexts
      reads this
    {
      VSProjTexts(extensions, compile, compileX86, compileX64, link, linkX86, linkX64)
    }

    constructor (cfg: WixprojConfig)
      ensures this.cfg == cfg && Texts() == VSProjTexts("", "", "", "", "", "", "")
    {
      this.cfg := cfg;
      extensions, compile, compileX86, compileX64 := "", "", "", "";
      link, linkX86, linkX64 := "", "", "";
    }

    /** startVSProjUpdater: the text nodes with their initial contents. */
    method StartVSProjUpdater()
      modifies this
      ensures Texts() == StartTexts(cfg.useNamedBindPath)
    {
      extensions := "\n";
      compile := "\n";
      compileX86 := "$(mavenCompileDependencies)\n";
      compileX64 := "$(mavenCompileDependencies)\n";
      if cfg.useNamedBindPath {
        link := "\n  -b narUnpackDir=$(narUnpackDirectory)\\\n";
        link := link + "  -b mavenRepoDir=$(MavenRepoPath)\\\n";
        link := link + "  -b wixUnpackDirectory=$(wixUnpackDirectory)\\\n";
      } else {
        link := "\n  -b $(narUnpackDirectory)\\\n";
        link := link + "  -b $(MavenRepoPath)\\\n";
        link := link + "  -b $(wixUnpackDirectory)\\\n";
      }
      linkX86 := "$(mavenLinkerWixlibDependencies)\n";
      linkX64 := "$(mavenLinkerWixlibDependencies)\n";
    }

    method AddDefinitionBase(target: CompileText, def: string)
      modifies this
      ensures Texts() == WithDefinition(old(Texts()), target, def)
    {
      match target
      case Compile => compile := compile + "  -d" + def + "\n";
      case CompileX86 => compileX86 := compileX86 + "  -d" + def + "\n";
      case CompileX64 => compileX64 := compileX64 + "  -d" + def + "\n";
    }

    /** addDefinition: the general compile text. */
    method AddDefinition(def: string)
      modifies this
      ensures Texts() == WithDefinition(old(Texts()), Compile, def)
    {
      AddDefinitionBase(Compile, def);
    }

    /** The definitions of AbstractCompilerMojo's sink, one addDefinition each. */
    method AddDefinitions(defs: seq<string>)
      modifies this
      ensures Texts() == old(Texts()).(compile := old(compile) + DefinitionLines(defs))
    {
      var i := 0;
      while i < |defs|
        invariant 0 <= i <= |defs|
        invariant Texts() == old(Texts()).(compile := old(compile) + DefinitionLines(defs[..i]))
      {
        assert defs[..i + 1] == defs[..i] + [defs[i]];
        DefinitionLinesSnoc(defs[..i], defs[i]);
        AddDefinition(defs[i]);
        i := i + 1;
      }
      assert defs[..i] == defs;
    }

    /** The platform definitions of execute, one addDefinitionX86 or addDefinitionX64 each. */
    method AddPlatformDefinitions()
      modifies this
      ensures Texts() == old(Texts()).(compileX86 := old(compileX86) + DefinitionLines(X86Defines),
                                       compileX64 := old(compileX64) + DefinitionLines(X64Defines))
    {
      AddThreeDefinitions(CompileX86, X86Defines);
      AddThreeDefinitions(CompileX64, X64Defines);
    }

    /** Three definitions in a row, one addDefinitionBase each. */
    method AddThreeDefinitions(target: CompileText, defs: seq<string>)
      requires |defs| == 3
      modifies this
      ensures Texts() == WithLines(old(Texts()), target, DefinitionLines(defs))
    {
      AddDefinitionBase(target, defs[0]);
      AddDefinitionBase(target, defs[1]);
      AddDefinitionBase(target, defs[2]);
      ThreeLines(defs);
      WithLinesTwice(old(Texts()), target, DefinitionLine(defs[0]), DefinitionLine(defs[1]));
      WithLinesTwice(old(Texts()), target, DefinitionLine(defs[0]) + DefinitionLine(defs[1]), DefinitionLine(defs[2]));
    }

    /** addExtension: one line of the extension text. */
    method AddExtension(extFile: string)
      modifies this
      ensures Texts() == old(Texts()).(extensions := old(extensions) + "  -ext " + extFile + "\n")
    {
      extensions := extensions + "  -ext " + extFile + "\n";
    }

    /** addWixExtensions, with this goal's addExtension. */
    method AddWixExtensions(exts: seq<Artifact>)
      modifies this
      ensures Texts() == old(Texts()).(extensions := old(extensions) + ExtensionLines(exts))
    {
      var i := 0;
      while i < |exts|
        invariant 0 <= i <= |exts|
        invariant Texts() == old(Texts()).(extensions := old(extensions) + ExtensionLines(exts[..i]))
      {
        assert exts[..i + 1][..i] == exts[..i];
        AddExtension(PathOf(exts[i]));
        i := i + 1;
      }
      assert exts[..i] == exts;
    }

    /** addLinkPath. */
    method AddLinkPath(libFolder: string, namedBindPath: string)
      modifies this
      ensures Texts() == old(Texts()).(link := old(link) + LinkPathLine(cfg.useNamedBindPath, libFolder, namedBindPath))
    {
      link := link + "  -b " + (if cfg.useNamedBindPath then namedBindPath + "=" else "") + libFolder + "\\\n";
    }

    /** addLib: the platform check, the lookup, then one line per file found. */
    method AddLib(b: WixprojBuild, setting: PlatformSetting, res: Artifact, linkDep: LibText, arch: string)
      returns (failure: Option<Failure>)
      modifies this, setting
      ensures setting.platforms == Some(DefaultPlatforms(old(setting.platforms)))
      ensures var r := LibLines(b, DefaultPlatforms(old(setting.platforms)), res, arch, cfg.repoBase);
        && (r.Err? ==> failure == Some(r.error) && Texts() == old(Texts()))
        && (r.Ok? ==> failure == None && Texts() == WithLibs(old(Texts()), linkDep, r.value))
    {
      var platforms := setting.GetPlatforms();
      if arch !in platforms {
        assert WithLibs(Texts(), linkDep, "") == Texts();
        return None;
      }
      var related := RelatedArtifacts(b.fs, b.repo, res, arch, Some("en-US"));
      if related.Err? {
        return Some(related.error);
      }
      var paths := b.order(Light.Paths(related.value));
      var i := 0;
      while i < |paths|
        invariant 0 <= i <= |paths|
        invariant setting.platforms == Some(DefaultPlatforms(old(setting.platforms)))
        invariant Texts() == WithLibs(old(Texts()), linkDep, FlatMap(paths[..i], LibLineOf(cfg.repoBase)))
      {
        FlatMapGrows(paths, LibLineOf(cfg.repoBase), i);
        WithLibsTwice(old(Texts()), linkDep, FlatMap(paths[..i], LibLineOf(cfg.repoBase)), LibLine(paths[i], cfg.repoBase));
        var line := Replace(paths[i], cfg.repoBase + "\\", "$(MavenRepoPath)\\") + "\n";
        match linkDep {
          case LinkX86 => linkX86 := linkX86 + line;
          case LinkX64 => linkX64 := linkX64 + line;
        }
        i := i + 1;
      }
      assert paths[..i] == paths;
      return None;
    }

    /** addResource: the locale bind folders, then the wixlib files of each platform. */
    method AddResource(b: WixprojBuild, setting: PlatformSetting, resUnpackDirectory: string, res: Artifact)
      returns (failure: Option<Failure>)
      modifies this, setting
      ensures setting.platforms == old(setting.platforms) || setting.platforms == Some(DefaultPlatforms(old(setting.platforms)))
      ensures var r := ResourceEffect(cfg, b, DefaultPlatforms(old(setting.platforms)), old(Texts()), resUnpackDirectory, res);
        && (r.Err? <==> failure.Some?)
        && (r.Err? ==> failure == Some(r.error))
        && (r.Ok? ==> Texts() == r.value)
    {
      ghost var platforms := DefaultPlatforms(setting.platforms);
      var neutral := Child(resUnpackDirectory, "wix-locale");
      if Exists(b.fs, neutral) {
        AddLinkPath(StripBase(neutral, cfg.unpackDirectory), res.artifactId + "neutral");
        var english := Child(neutral, "en-US");
        if Exists(b.fs, english) {
          AddLinkPath(StripBase(english, cfg.unpackDirectory), res.artifactId + "loc");
        }
      }
      ghost var linked := Texts();
      assert linked == old(Texts()).(link := old(link) + ResourceLinks(cfg, b.fs, resUnpackDirectory, res));
      if EqualsIgnoreCase(PackLib, res.artifactType) {
        failure := AddLib(b, setting, res, LinkX86, "x86");
        if failure.Some? {
          return;
        }
        assert DefaultPlatforms(setting.platforms) == platforms;
        failure := AddLib(b, setting, res, LinkX64, "x64");
      } else {
        failure := None;
      }
    }

    /** One package of addWixDefines: its definition, then its resources when it has no classifier. */
    method AddWixDefine(b: WixprojBuild, setting: PlatformSetting, w: Artifact) returns (failure: Option<Failure>)
      modifies this, setting
      ensures DefaultPlatforms(setting.platforms) == DefaultPlatforms(old(setting.platforms))
      ensures var r := WixOne(cfg, b, DefaultPlatforms(old(setting.platforms)), old(Texts()), w);
        && (r.Err? <==> failure.Some?)
        && (r.Err? ==> failure == Some(r.error))
        && (r.Ok? ==> Texts() == r.value)
    {
      failure := None;
      if !HasClassifier(w) {
        var resUnpackDirectory := WixUnpackDirectory(cfg.unpackDirectory, w);
        AddDefinition(Define(w.groupId + "." + w.artifactId + ".UnpackPath", StripBase(resUnpackDirectory, cfg.unpackDirectory)));
        failure := AddResource(b, setting, resUnpackDirectory, w);
      }
      if HasClassifier(w) {
        AddDefinition(Define(w.groupId + "." + w.artifactId + ".TargetPath-" + w.classifier.value, StripBase(PathOf(w), cfg.repoBase)));
      }
    }

    /** addWixDefines, with this goal's addDefinition and addResource. */
    method AddWixDefines(b: WixprojBuild, setting: PlatformSetting, wix: seq<Artifact>) returns (failure: Option<Failure>)
      modifies this, setting
      ensures DefaultPlatforms(setting.platforms) == DefaultPlatforms(old(setting.platforms))
      ensures var r := WixEffect(cfg, b, DefaultPlatforms(old(setting.platforms)), old(Texts()), wix);
        && (r.Err? <==> failure.Some?)
        && (r.Err? ==> failure == Some(r.error))
        && (r.Ok? ==> Texts() == r.value)
    {
      ghost var platforms := DefaultPlatforms(setting.platforms);
      var i := 0;
      while i < |wix|
        invariant 0 <= i <= |wix|
        invariant DefaultPlatforms(setting.platforms) == platforms
        invariant WixEffect(cfg, b, platforms, old(Texts()), wix[..i]) == Ok(Texts())
      {
        assert wix[..i + 1][..i] == wix[..i];
        failure := AddWixDefine(b, setting, wix[i]);
        if failure.Some? {
          WixEffectStops(cfg, b, platforms, old(Texts()), wix, i + 1);
          return;
        }
        i := i + 1;
      }
      assert wix[..i] == wix;
      failure := None;
    }

    /**
     * execute: nothing but a warning when the target file is not to be updated; otherwise
     * the texts of the targets file, or the first failure.
     */
    method Execute(b: WixprojBuild, setting: PlatformSetting) returns (failure: Option<Failure>)
      modifies this, setting
      ensures !cfg.updateVSProj ==> failure == None && Texts() == old(Texts()) && setting.platforms == old(setting.platforms)
      ensures cfg.updateVSProj ==>
        var r := WixprojTexts(cfg, b, DefaultPlatforms(old(setting.platforms)));
        && (r.Err? <==> failure.Some?)
        && (r.Err? ==> failure == Some(r.error))
        && (r.Ok? ==> Texts() == r.value)
    {
      if !cfg.updateVSProj {
        return None;
      }
      StartVSProjUpdater();
      failure := AddWixDefines(b, setting, WixDependencies(b.artifacts, b.direct));
      if failure.Some? {
        return;
      }
      AddDefinitions(DependencyDefinitions(cfg, b));
      var harvest := HarvestDefinitions(b.fs, cfg.harvestInputDirectory);
      if harvest.Err? {
        return Some(harvest.error);
      }
      AddDefinitions(harvest.value);
      AddWixExtensions(ExtensionDependencies(b.artifacts));
      AddPlatformDefinitions();
    }
  }

  /** Once a package fails, every longer prefix fails with the same failure. */
  lemma {:induction false} WixEffectStops(cfg: WixprojConfig, b: WixprojBuild, platforms: set<string>, t: VSProjTexts,
                                          wix: seq<Artifact>, i: nat)
    requires 0 < i <= |wix| && WixEffect(cfg, b, platforms, t, wix[..i]).Err?
    ensures WixEffect(cfg, b, platforms, t, wix) == WixEffect(cfg, b, platforms, t, wix[..i])
    decreases |wix| - i
  {
    if i < |wix| {
      assert wix[..i + 1][..i] == wix[..i];
      WixEffectStops(cfg, b, platforms, t, wix, i + 1);
    } else {
      assert wix[..i] == wix;
    }
  }
}
