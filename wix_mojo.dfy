// The shared base of the com.github.wix_maven goals: platforms, output locations,
// culture and classifier naming, the lookups of related artifacts and tool artifacts,
// and the options every tool receives.
module WixMojo {
  import opened Wrappers
  import opened JavaText
  import opened Files
  import opened Runtime
  import opened Seqs
  import opened ArtifactLookup

  const PackLib := "wixlib"
  const PackMerge := "msm"
  const PackInstall := "msi"
  const PackPatch := "msp"
  const PackBundle := "bundle"

  /** The values of the validate parameter. */
  const ValidateLink := "linking"
  const ValidateUnit := "unit"
  const ValidateBoth := "both"
  const ValidateSuppress := "suppress"

  /** The configured platform set, defaulted on first use. */
  class PlatformSetting {
    var platforms: Option<set<string>>

    constructor (configured: Option<set<string>>)
      ensures platforms == configured
    {
      platforms := configured;
    }

    /** getPlatforms: a null or empty set becomes {"x86"}; the field keeps the result. */
    method GetPlatforms() returns (p: set<string>)
      modifies this
      ensures p == DefaultPlatforms(old(platforms)) && platforms == Some(p)
    {
      if platforms.None? {
        platforms := Some({});
      }
      if platforms.value == {} {
        platforms := Some({"x86"});
      }
      p := platforms.value;
    }
  }

  function DefaultPlatforms(configured: Option<set<string>>): set<string>
  {
    if configured.None? || configured.value == {} then {"x86"} else configured.value
  }

  /** The platforms are never empty, and a configured non-empty set is kept as it is. */
  lemma DefaultPlatformsNeverEmpty(configured: Option<set<string>>)
    ensures DefaultPlatforms(configured) != {}
    ensures configured.Some? && configured.value != {} ==> DefaultPlatforms(configured) == configured.value
    ensures configured.None? || configured.value == {} ==> DefaultPlatforms(configured) == {"x86"}
  {
  }

  /** getOutputPath: <base>\<arch>[\<culture>], the project directory standing in for a null base. */
  function OutputPath(projectBasedir: string, baseDir: Option<string>, arch: string, culture: Option<string>): string
  {
    var archDir := Child(baseDir.GetOr(projectBasedir), arch);
    if culture.Some? then Child(archDir, culture.value) else archDir
  }

  /** getOutput: <finalName>.<extension> inside the output path. */
  function Output(projectBasedir: string, baseDir: Option<string>, arch: string, culture: Option<string>,
                  finalName: string, extension: string): string
  {
    Child(OutputPath(projectBasedir, baseDir, arch, culture), finalName + "." + extension)
  }

  /** The layout of an output file, spelled out. */
  lemma OutputLayout(projectBasedir: string, baseDir: Option<string>, arch: string, culture: Option<string>,
                     finalName: string, extension: string)
    ensures var root := if baseDir.Some? then baseDir.value else projectBasedir;
      Output(projectBasedir, baseDir, arch, culture, finalName, extension)
      == root + "\\" + arch + (if culture.Some? then "\\" + culture.value else "") + "\\" + finalName + "." + extension
  {
  }

  /** Text without a separator: a single path segment. */
  predicate Segment(s: string)
  {
    Separator !in s
  }

  lemma SplitAtFirstSeparator(x: string, y: string, x2: string, y2: string)
    requires Segment(x) && Segment(x2)
    requires x + [Separator] + y == x2 + [Separator] + y2
    ensures x == x2 && y == y2
  {
    var l := x + [Separator] + y;
    var r := x2 + [Separator] + y2;
    assert l[|x|] == Separator && r[|x2|] == Separator;
    assert forall i :: 0 <= i < |x| ==> l[i] == x[i];
    assert forall i :: 0 <= i < |x2| ==> r[i] == x2[i];
    assert |x| == |x2|;
    assert x == l[..|x|] && x2 == r[..|x2|];
    assert y == l[|x| + 1..] && y2 == r[|x2| + 1..];
  }

  lemma SegmentIsNotSplit(x: string, x2: string, y2: string)
    requires Segment(x)
    ensures x != x2 + [Separator] + y2
  {
    assert (x2 + [Separator] + y2)[|x2|] == Separator;
  }

  /** Two children of one parent are the same path only when their names are. */
  lemma ChildInjective(root: string, a: string, b: string)
    requires Child(root, a) == Child(root, b)
    ensures a == b
  {
    assert a == Child(root, a)[|root| + 1..];
    assert b == Child(root, b)[|root| + 1..];
  }

  /**
   * Different (arch, culture) variants never share an output directory when
   * architectures and cultures are single path segments.
   */
  lemma OutputPathsDistinct(projectBasedir: string, baseDir: Option<string>,
                            arch1: string, culture1: Option<string>, arch2: string, culture2: Option<string>)
    requires Segment(arch1) && Segment(arch2)
    requires culture1.Some? ==> Segment(culture1.value)
    requires culture2.Some? ==> Segment(culture2.value)
    requires OutputPath(projectBasedir, baseDir, arch1, culture1) == OutputPath(projectBasedir, baseDir, arch2, culture2)
    ensures arch1 == arch2 && culture1 == culture2
  {
    var root := baseDir.GetOr(projectBasedir);
    var tail1 := if culture1.Some? then Child(arch1, culture1.value) else arch1;
    var tail2 := if culture2.Some? then Child(arch2, culture2.value) else arch2;
    assert OutputPath(projectBasedir, baseDir, arch1, culture1) == Child(root, tail1);
    assert OutputPath(projectBasedir, baseDir, arch2, culture2) == Child(root, tail2);
    ChildInjective(root, tail1, tail2);
    if culture1.Some? && culture2.Some? {
      SplitAtFirstSeparator(arch1, culture1.value, arch2, culture2.value);
    } else if culture1.Some? {
      SegmentIsNotSplit(arch2, arch1, culture1.value);
    } else if culture2.Some? {
      SegmentIsNotSplit(arch1, arch2, culture2.value);
    }
  }

  /** Output files of different variants differ as well. */
  lemma OutputsDistinct(projectBasedir: string, baseDir: Option<string>, finalName: string, extension: string,
                        arch1: string, culture1: Option<string>, arch2: string, culture2: Option<string>)
    requires Segment(arch1) && Segment(arch2)
    requires culture1.Some? ==> Segment(culture1.value)
    requires culture2.Some? ==> Segment(culture2.value)
    requires Segment(finalName + "." + extension)
    requires Output(projectBasedir, baseDir, arch1, culture1, finalName, extension)
          == Output(projectBasedir, baseDir, arch2, culture2, finalName, extension)
    ensures arch1 == arch2 && culture1 == culture2
  {
    var leaf := finalName + "." + extension;
    var p1 := OutputPath(projectBasedir, baseDir, arch1, culture1);
    var p2 := OutputPath(projectBasedir, baseDir, arch2, culture2);
    assert p1 + [Separator] + leaf == p2 + [Separator] + leaf;
    assert |p1| == |p2|;
    assert p1 == (p1 + [Separator] + leaf)[..|p1|];
    assert p2 == (p2 + [Separator] + leaf)[..|p2|];
    OutputPathsDistinct(projectBasedir, baseDir, arch1, culture1, arch2, culture2);
  }

  /** getPrimaryCulture as written: the first element of culturespec.split(";"). */
  function PrimaryCultureAsWritten(culturespec: Option<string>): Result<Option<string>, Failure>
  {
    if culturespec.None? then Ok(None)
    else
      var parts := Split(culturespec.value, ';');
      if |parts| == 0 then Err(ExecutionFailed("ArrayIndexOutOfBoundsException: 0"))
      else Ok(Some(parts[0]))
  }

  /** A spec made only of ';' splits into no fields at all, and indexing the first one throws. */
  lemma PrimaryCultureAsWrittenThrows()
    ensures PrimaryCultureAsWritten(Some(";")).Err?
    ensures PrimaryCultureAsWritten(Some(";;")).Err?
  {
    SplitEmptyIff(";", ';');
    SplitEmptyIff(";;", ';');
  }

  /** getPrimaryCulture as intended: null stays null, otherwise the text before the first ';'. */
  function PrimaryCulture(culturespec: Option<string>): (r: Option<string>)
    ensures r.None? <==> culturespec.None?
  {
    if culturespec.None? then None else Some(Before(culturespec.value, ';'))
  }

  /**
   * The primary culture is a prefix of the spec free of ';', followed in the spec by ';'
   * or nothing; the written code agrees with it on every spec it does not throw on, and
   * throws only on specs made entirely of ';'.
   */
  lemma PrimaryCultureIsFirstField(culturespec: Option<string>)
    ensures culturespec.Some? ==>
      var p := PrimaryCulture(culturespec).value;
      && p <= culturespec.value && ';' !in p
      && (|p| < |culturespec.value| ==> culturespec.value[|p|] == ';')
    ensures PrimaryCultureAsWritten(culturespec).Ok? ==>
      PrimaryCultureAsWritten(culturespec).value == PrimaryCulture(culturespec)
    ensures PrimaryCultureAsWritten(culturespec).Err? <==>
      culturespec.Some? && OnlySeparators(culturespec.value, ';')
  {
    if culturespec.Some? {
      SplitEmptyIff(culturespec.value, ';');
    }
  }

  /** The classifier of a variant: <arch>-neutral, or <arch>-<primary culture>. */
  function VariantClassifier(arch: string, culture: Option<string>): string
  {
    arch + "-" + (if culture.None? then "neutral" else PrimaryCulture(culture).value)
  }

  lemma VariantClassifierShape(arch: string, culture: Option<string>)
    ensures culture.None? ==> VariantClassifier(arch, culture) == arch + "-neutral"
    ensures culture.Some? ==> VariantClassifier(arch, culture) == arch + "-" + Before(culture.value, ';')
    ensures culture.Some? && ';' !in culture.value ==> VariantClassifier(arch, culture) == arch + "-" + culture.value
  {
    if culture.Some? && ';' !in culture.value {
      BeforeWithoutSeparator(culture.value, ';');
    }
  }

  lemma {:induction false} BeforeWithoutSeparator(s: string, sep: char)
    requires sep !in s
    ensures Before(s, sep) == s
    decreases |s|
  {
    if |s| > 0 {
      BeforeWithoutSeparator(s[1..], sep);
      assert [s[0]] + s[1..] == s;
    }
  }

  /** Types whose related artifacts come per variant: wixlib and msm, in any case. */
  predicate IsLibraryType(artifactType: string)
  {
    EqualsIgnoreCase(PackLib, artifactType) || EqualsIgnoreCase(PackMerge, artifactType)
  }

  /**
   * getRelatedArtifacts: for a wixlib or msm, the neutral variant and, when a culture is
   * given, the culture's variant; a culture build tolerates one of the two missing.
   */
  function RelatedArtifacts(fs: FileSystem, repo: Repository, item: Artifact, arch: string, culture: Option<string>)
    : Result<set<Artifact>, Failure>
  {
    if !IsLibraryType(item.artifactType) then Ok({})
    else
      var neutral := GetArtifact(fs, repo, item.groupId, item.artifactId, item.artifactType, {}, item.version,
                                 VariantClassifier(arch, None));
      if culture.None? then neutral
      else
        var found := if neutral.Ok? then neutral.value else {};
        var cultured := GetArtifact(fs, repo, item.groupId, item.artifactId, item.artifactType, found, item.version,
                                    VariantClassifier(arch, culture));
        if cultured.Ok? then cultured
        else if neutral.Ok? then neutral
        else cultured
  }

  /** Looking one variant up on its own. */
  function Lookup(fs: FileSystem, repo: Repository, item: Artifact, classifier: string): Result<set<Artifact>, Failure>
  {
    GetArtifact(fs, repo, item.groupId, item.artifactId, item.artifactType, {}, item.version, classifier)
  }

  lemma LookupAddsToAny(fs: FileSystem, repo: Repository, item: Artifact, classifier: string, found: set<Artifact>)
    ensures GetArtifact(fs, repo, item.groupId, item.artifactId, item.artifactType, found, item.version, classifier).Ok?
      == Lookup(fs, repo, item, classifier).Ok?
    ensures Lookup(fs, repo, item, classifier).Ok? ==>
      GetArtifact(fs, repo, item.groupId, item.artifactId, item.artifactType, found, item.version, classifier).value
      == found + Lookup(fs, repo, item, classifier).value
  {
  }

  /**
   * The fallback rules: other types yield nothing; without a culture the neutral lookup
   * decides; with one, the call fails only when both lookups fail, and otherwise yields
   * exactly what the successful lookups found.
   */
  lemma RelatedArtifactsFallback(fs: FileSystem, repo: Repository, item: Artifact, arch: string, culture: Option<string>)
    ensures !IsLibraryType(item.artifactType) ==> RelatedArtifacts(fs, repo, item, arch, culture) == Ok({})
    ensures IsLibraryType(item.artifactType) && culture.None? ==>
      RelatedArtifacts(fs, repo, item, arch, culture) == Lookup(fs, repo, item, arch + "-neutral")
    ensures IsLibraryType(item.artifactType) && culture.Some? ==>
      var n := Lookup(fs, repo, item, arch + "-neutral");
      var c := Lookup(fs, repo, item, VariantClassifier(arch, culture));
      var r := RelatedArtifacts(fs, repo, item, arch, culture);
      && (r.Err? <==> n.Err? && c.Err?)
      && (r.Ok? ==> r.value == (if n.Ok? then n.value else {}) + (if c.Ok? then c.value else {}))
  {
    assert VariantClassifier(arch, None) == arch + "-neutral";
    if IsLibraryType(item.artifactType) && culture.Some? {
      var n := Lookup(fs, repo, item, arch + "-neutral");
      var found := if n.Ok? then n.value else {};
      LookupAddsToAny(fs, repo, item, VariantClassifier(arch, culture), found);
    }
  }

  /** The artifact has the given groupId and artifactId. */
  predicate HasIds(a: Artifact, groupId: string, artifactId: string)
  {
    a.groupId == groupId && a.artifactId == artifactId
  }

  /** findToolsArtifact: the first plugin artifact with the given groupId and artifactId. */
  function FirstWithId(pluginArtifacts: seq<Artifact>, groupId: string, artifactId: string): (r: Option<Artifact>)
    ensures r.Some? ==> r.value in pluginArtifacts && HasIds(r.value, groupId, artifactId)
    ensures r.Some? ==> exists i :: 0 <= i < |pluginArtifacts| && pluginArtifacts[i] == r.value
                                   && (forall j :: 0 <= j < i ==> !HasIds(pluginArtifacts[j], groupId, artifactId))
    ensures r.None? <==> forall i :: 0 <= i < |pluginArtifacts| ==> !HasIds(pluginArtifacts[i], groupId, artifactId)
  {
    if |pluginArtifacts| == 0 then None
    else if HasIds(pluginArtifacts[0], groupId, artifactId) then Some(pluginArtifacts[0])
    else
      var r := FirstWithId(pluginArtifacts[1..], groupId, artifactId);
      assert forall i :: 1 <= i < |pluginArtifacts| ==> pluginArtifacts[i] == pluginArtifacts[1..][i - 1];
      if r.Some? then
        var i :| 0 <= i < |pluginArtifacts[1..]| && pluginArtifacts[1..][i] == r.value
          && forall j :: 0 <= j < i ==> !HasIds(pluginArtifacts[1..][j], groupId, artifactId);
        assert pluginArtifacts[i + 1] == r.value;
        r
      else r
  }

  method FindToolsArtifact(pluginArtifacts: Option<seq<Artifact>>, groupId: string, artifactId: string)
    returns (r: Result<Artifact, Failure>)
    ensures pluginArtifacts.Some? && FirstWithId(pluginArtifacts.value, groupId, artifactId).Some? ==>
      r == Ok(FirstWithId(pluginArtifacts.value, groupId, artifactId).value)
    ensures pluginArtifacts.None? || FirstWithId(pluginArtifacts.value, groupId, artifactId).None? ==>
      r == Err(ExecutionFailed("Unable to find " + artifactId + " dependency"))
  {
    if pluginArtifacts.Some? {
      var all := pluginArtifacts.value;
      var i := 0;
      while i < |all|
        invariant 0 <= i <= |all|
        invariant FirstWithId(all, groupId, artifactId) == FirstWithId(all[i..], groupId, artifactId)
      {
        FirstWithIdFrom(all, groupId, artifactId, i);
        if all[i].groupId == groupId && all[i].artifactId == artifactId {
          return Ok(all[i]);
        }
        i := i + 1;
      }
    }
    return Err(ExecutionFailed("Unable to find " + artifactId + " dependency"));
  }

  /** The search from index i looks at artifact i, then goes on from i + 1. */
  lemma FirstWithIdFrom(all: seq<Artifact>, groupId: string, artifactId: string, i: nat)
    requires i < |all|
    ensures FirstWithId(all[i..], groupId, artifactId)
      == if HasIds(all[i], groupId, artifactId) then Some(all[i]) else FirstWithId(all[i + 1..], groupId, artifactId)
  {
    assert all[i..][0] == all[i] && all[i..][1..] == all[i + 1..];
  }

  /**
   * findToolsArtifacts: the tools artifact, then the bootstrap artifact when the
   * packaging is a bundle; either missing fails.
   */
  method FindToolsArtifacts(pluginArtifacts: Option<seq<Artifact>>, packaging: string,
                            toolsGroupId: string, toolsArtifactId: string,
                            bootstrapGroupId: string, bootstrapArtifactId: string)
    returns (r: Result<seq<Artifact>, Failure>)
    ensures r.Ok? ==> |r.value| == (if EqualsIgnoreCase(PackBundle, packaging) then 2 else 1)
    ensures r.Ok? ==> r.value[0].groupId == toolsGroupId && r.value[0].artifactId == toolsArtifactId
    ensures r.Ok? && |r.value| == 2 ==>
      r.value[1].groupId == bootstrapGroupId && r.value[1].artifactId == bootstrapArtifactId
    ensures var bundle := EqualsIgnoreCase(PackBundle, packaging);
      var tools := if pluginArtifacts.Some? then FirstWithId(pluginArtifacts.value, toolsGroupId, toolsArtifactId) else None;
      var bootstrap := if pluginArtifacts.Some? then FirstWithId(pluginArtifacts.value, bootstrapGroupId, bootstrapArtifactId) else None;
      && (r.Ok? <==> tools.Some? && (bundle ==> bootstrap.Some?))
      && (r.Ok? ==> r.value == [tools.value] + if bundle then [bootstrap.value] else [])
      && (tools.None? ==> r == Err(ExecutionFailed("Unable to find " + toolsArtifactId + " dependency")))
      && (tools.Some? && bundle && bootstrap.None? ==> r == Err(ExecutionFailed("Unable to find " + bootstrapArtifactId + " dependency")))
  {
    var tools := FindToolsArtifact(pluginArtifacts, toolsGroupId, toolsArtifactId);
    if tools.Err? {
      return Err(tools.error);
    }
    if EqualsIgnoreCase(PackBundle, packaging) {
      var bootstrap := FindToolsArtifact(pluginArtifacts, bootstrapGroupId, bootstrapArtifactId);
      if bootstrap.Err? {
        return Err(bootstrap.error);
      }
      return Ok([tools.value, bootstrap.value]);
    }
    return Ok([tools.value]);
  }

  /** addToolsetGeneralOptions: "-nologo" unless verbose. */
  function GeneralOptions(verbose: bool): (r: seq<string>)
    ensures "-nologo" in r <==> !verbose
    ensures |r| <= 1
  {
    if verbose then [] else ["-nologo"]
  }

  method AddToolsetGeneralOptions(cl: CommandLine, verbose: bool)
    modifies cl
    ensures cl.arguments == old(cl.arguments) + GeneralOptions(verbose)
    ensures cl.executable == old(cl.executable) && cl.workingDirectory == old(cl.workingDirectory)
  {
    if !verbose {
      cl.AddArguments(["-nologo"]);
    }
  }

  /**
   * getExtDependencySets: every dependency of type wixext or wixExt, transitive ones
   * included (the transitivity filter is built with excludeTransitive false).
   */
  function ExtensionDependencies(artifacts: seq<Artifact>): seq<Artifact>
  {
    Filter(artifacts, (a: Artifact) => a.artifactType in {"wixext", "wixExt"})
  }

  /** Exactly the wixext/wixExt dependencies are extensions, direct or not. */
  lemma ExtensionDependenciesMembers(artifacts: seq<Artifact>, a: Artifact)
    ensures a in ExtensionDependencies(artifacts) <==> a in artifacts && a.artifactType in {"wixext", "wixExt"}
  {
    FilterMembers(artifacts, (a: Artifact) => a.artifactType in {"wixext", "wixExt"}, a);
  }

  /** One "-ext <file>" pair per extension, in iteration order. */
  function ExtensionArgs(extensions: seq<Artifact>): (r: seq<string>)
    ensures |r| == 2 * |extensions|
    ensures forall i :: 0 <= i < |extensions| ==> r[2 * i] == "-ext" && r[2 * i + 1] == PathOf(extensions[i])
  {
    if |extensions| == 0 then []
    else
      var rest := ExtensionArgs(extensions[1..]);
      var r := ["-ext", PathOf(extensions[0])] + rest;
      assert forall i :: 0 <= i < |extensions| ==> r[2 * i] == "-ext" && r[2 * i + 1] == PathOf(extensions[i]) by {
        forall i | 1 <= i < |extensions|
          ensures r[2 * i] == "-ext" && r[2 * i + 1] == PathOf(extensions[i])
        {
          assert r[2 * i] == rest[2 * (i - 1)] && r[2 * i + 1] == rest[2 * (i - 1) + 1];
          assert extensions[i] == extensions[1..][i - 1];
        }
      }
      r
  }

  /** addWixExtensions. */
  method AddWixExtensions(cl: CommandLine, extensions: seq<Artifact>)
    modifies cl
    ensures cl.arguments == old(cl.arguments) + ExtensionArgs(extensions)
    ensures cl.executable == old(cl.executable) && cl.workingDirectory == old(cl.workingDirectory)
  {
    var i := 0;
    while i < |extensions|
      invariant 0 <= i <= |extensions|
      invariant cl.arguments == old(cl.arguments) + ExtensionArgs(extensions[..i])
      invariant cl.executable == old(cl.executable) && cl.workingDirectory == old(cl.workingDirectory)
    {
      ExtensionArgsGrow(extensions, i);
      cl.AddArguments(["-ext", PathOf(extensions[i])]);
      i := i + 1;
    }
    assert extensions[..i] == extensions;
  }

  lemma {:induction false} ExtensionArgsConcat(a: seq<Artifact>, b: seq<Artifact>)
    ensures ExtensionArgs(a + b) == ExtensionArgs(a) + ExtensionArgs(b)
    decreases |a|
  {
    if |a| == 0 {
      assert a + b == b;
    } else {
      assert (a + b)[1..] == a[1..] + b;
      ExtensionArgsConcat(a[1..], b);
    }
  }

  lemma ExtensionArgsGrow(extensions: seq<Artifact>, i: nat)
    requires i < |extensions|
    ensures ExtensionArgs(extensions[..i + 1]) == ExtensionArgs(extensions[..i]) + ["-ext", PathOf(extensions[i])]
  {
    assert extensions[..i + 1] == extensions[..i] + [extensions[i]];
    ExtensionArgsConcat(extensions[..i], [extensions[i]]);
  }

  /** The classifier prefixes getWixDependencySets includes. */
  const ClassifierIncludes: seq<string> := ["x86", "x64", "intel"]

  /**
   * The classifier test of getWixDependencySets: compareFeatures(lhs, rhs) is
   * lhs == null || lhs.startsWith(rhs), and an artifact is kept when it holds for
   * one of the included prefixes.
   */
  predicate KeepsClassifier(classifier: Option<string>)
  {
    classifier.None? || exists i :: 0 <= i < |ClassifierIncludes| && ClassifierIncludes[i] <= classifier.value
  }

  /** The types getWixDependencySets keeps. */
  predicate IsWixDependencyType(artifactType: string)
  {
    artifactType in {"wixlib", "msm", "msp", "msi", "bundle"}
  }

  /**
   * getWixDependencySets over project.getArtifacts(): direct dependencies only (the
   * transitivity filter), of a wix type, with no classifier or an architecture one.
   */
  function WixDependencies(artifacts: seq<Artifact>, direct: set<Coordinates>): seq<Artifact>
  {
    Filter(artifacts, (a: Artifact) =>
      CoordinatesOf(a) in direct && IsWixDependencyType(a.artifactType) && KeepsClassifier(a.classifier))
  }

  /** Exactly the direct dependencies of a wix type with a kept classifier are wix dependencies. */
  lemma WixDependenciesMembers(artifacts: seq<Artifact>, direct: set<Coordinates>, a: Artifact)
    ensures a in WixDependencies(artifacts, direct) <==>
      a in artifacts && CoordinatesOf(a) in direct && IsWixDependencyType(a.artifactType) && KeepsClassifier(a.classifier)
  {
    FilterMembers(artifacts, (a: Artifact) =>
      CoordinatesOf(a) in direct && IsWixDependencyType(a.artifactType) && KeepsClassifier(a.classifier), a);
  }

  /** Unclassified wix dependencies are always kept; classified ones only for an architecture prefix. */
  lemma WixDependencyClassifiers(c: string)
    ensures KeepsClassifier(None)
    ensures KeepsClassifier(Some(c)) <==> ("x86" <= c || "x64" <= c || "intel" <= c)
    ensures KeepsClassifier(Some("x64-neutral"))
    ensures !KeepsClassifier(Some("en-US"))
  {
    assert ClassifierIncludes[1] <= "x64-neutral";
    assert "en-US"[0] == 'e';
    if "x86" <= c {
      assert ClassifierIncludes[0] <= c;
    } else if "x64" <= c {
      assert ClassifierIncludes[1] <= c;
    } else if "intel" <= c {
      assert ClassifierIncludes[2] <= c;
    }
  }

  /** wixUnpackDirectory: <unpackDirectory>\<groupId>-<artifactId>-<baseVersion>. */
  function WixUnpackDirectory(unpackDirectory: string, a: Artifact): (r: string)
    ensures r == unpackDirectory + "\\" + a.groupId + "-" + a.artifactId + "-" + a.baseVersion
  {
    Child(unpackDirectory, a.groupId + "-" + a.artifactId + "-" + a.baseVersion)
  }
}
