// UnpackDependenciesMojo: extracts the locale and cabinet folders of each unclassified wix
// dependency into its unpack folder.
module UnpackDependencies {
  import opened Wrappers
  import opened JavaText
  import opened Files
  import opened Seqs
  import opened ArtifactLookup
  import opened Runtime
  import opened WixMojo
  import opened Plans

  /** The include patterns Maven sets when none are configured. */
  const DefaultIncludes: string := "wix-locale/**,cabs/**"

  /** The comma-separated include patterns name the locale and cabinet folders. */
  lemma DefaultIncludePatterns()
    ensures Split(DefaultIncludes, ',') == ["wix-locale/**", "cabs/**"]
  {
    var parts := ["wix-locale/**", "cabs/**"];
    assert Join(parts[1..], ',') == "cabs/**";
    assert Join(parts, ',') == DefaultIncludes;
    assert ',' !in parts[0] by {
      assert forall i :: 0 <= i < |parts[0]| ==> parts[0][i] != ',';
    }
    assert ',' !in parts[1] by {
      assert forall i :: 0 <= i < |parts[1]| ==> parts[1][i] != ',';
    }
    SplitOfJoin(parts, ',');
  }

  /** The unset excludes are one empty pattern, as "".split(",") gives. */
  lemma UnsetExcludes()
    ensures Split("", ',') == [""]
  {
  }

  /** The goal's pattern fields and their accessors. */
  class UnpackPatterns {
    var wixUnpackIncludes: string
    var wixUnpackExcludes: string

    /** As configured by default: the locale and cabinet folders, no excludes. */
    constructor ()
      ensures wixUnpackIncludes == DefaultIncludes && wixUnpackExcludes == ""
    {
      wixUnpackIncludes := DefaultIncludes;
      wixUnpackExcludes := "";
    }

    /** getIncludes: the include string split at commas. */
    function GetIncludes(): seq<string>
      reads this
    {
      Split(wixUnpackIncludes, ',')
    }

    function GetExcludes(): seq<string>
      reads this
    {
      Split(wixUnpackExcludes, ',')
    }

    /** setIncludes replaces the include string; a later getIncludes splits the new one. */
    method SetIncludes(includes: string)
      modifies this
      ensures wixUnpackIncludes == includes && wixUnpackExcludes == old(wixUnpackExcludes)
      ensures GetIncludes() == Split(includes, ',')
    {
      wixUnpackIncludes := includes;
    }

    method SetExcludes(excludes: string)
      modifies this
      ensures wixUnpackExcludes == excludes && wixUnpackIncludes == old(wixUnpackIncludes)
      ensures GetExcludes() == Split(excludes, ',')
    {
      wixUnpackExcludes := excludes;
    }
  }

  datatype UnpackBuild = UnpackBuild(
    fs: FileSystem,
    artifacts: seq<Artifact>,
    direct: set<Coordinates>,
    unpackDirectory: string)

  /** unpackResource: the unpack folder made when missing, then the matching entries extracted into it. */
  function UnpackResource(fs: FileSystem, made: set<string>, unpackDirectory: string, includes: seq<string>,
                          excludes: seq<string>, dep: Artifact): (seq<Step>, set<string>)
  {
    var dir := WixUnpackDirectory(unpackDirectory, dep);
    (MakeIfMissing(fs, made, dir) + [Do(Unpack(PathOf(dep), dir, includes, excludes))], made + {dir})
  }

  /** One pass of the loop over the wix dependencies: only unclassified ones are unpacked. */
  function UnpackPass(b: UnpackBuild, includes: seq<string>, excludes: seq<string>)
    : (set<string>, Artifact) -> (seq<Step>, set<string>)
  {
    (made: set<string>, dep: Artifact) =>
      if HasClassifier(dep) then ([], made) else UnpackResource(b.fs, made, b.unpackDirectory, includes, excludes, dep)
  }

  /** execute: nothing when skipped; else each wix dependency in turn. */
  function UnpackPlan(skip: bool, b: UnpackBuild, includes: seq<string>, excludes: seq<string>): seq<Step>
  {
    if skip then [] else Fold({}, WixDependencies(b.artifacts, b.direct), UnpackPass(b, includes, excludes)).0
  }

  function IsUnpack(s: Step): bool
  {
    s.Do? && s.effect.Unpack?
  }

  /** The extraction a dependency gets: one for an unclassified one, none for a classified one. */
  function Extraction(b: UnpackBuild, includes: seq<string>, excludes: seq<string>): Artifact -> seq<Step>
  {
    (dep: Artifact) =>
      if HasClassifier(dep) then []
      else [Do(Unpack(PathOf(dep), WixUnpackDirectory(b.unpackDirectory, dep), includes, excludes))]
  }

  lemma UnpackPassExtracts(b: UnpackBuild, includes: seq<string>, excludes: seq<string>)
    ensures SelectsPerPass(UnpackPass(b, includes, excludes), IsUnpack, Extraction(b, includes, excludes))
  {
    forall made: set<string>, dep: Artifact
      ensures Select(UnpackPass(b, includes, excludes)(made, dep).0, IsUnpack) == Extraction(b, includes, excludes)(dep)
    {
      if !HasClassifier(dep) {
        var dir := WixUnpackDirectory(b.unpackDirectory, dep);
        var mk := MakeIfMissing(b.fs, made, dir);
        SelectNone(mk, IsUnpack);
        SelectSingle(Do(Unpack(PathOf(dep), dir, includes, excludes)), IsUnpack);
        SelectConcat(mk, [Do(Unpack(PathOf(dep), dir, includes, excludes))], IsUnpack);
      }
    }
  }

  /**
   * The extractions of the goal, in order: none when skipped, else one per unclassified wix
   * dependency, into that dependency's unpack folder with the goal's patterns.
   */
  lemma UnpackExtractions(skip: bool, b: UnpackBuild, includes: seq<string>, excludes: seq<string>)
    ensures Select(UnpackPlan(skip, b, includes, excludes), IsUnpack)
            == if skip then [] else FlatMap(WixDependencies(b.artifacts, b.direct), Extraction(b, includes, excludes))
  {
    if !skip {
      UnpackPassExtracts(b, includes, excludes);
      FoldSelect({}, WixDependencies(b.artifacts, b.direct), UnpackPass(b, includes, excludes), IsUnpack,
                 Extraction(b, includes, excludes));
    }
  }

  /**
   * A direct dependency of a wix type without a classifier (null, not empty: an empty one is
   * not a wix dependency) is extracted into its unpack folder;
   * no extraction at all happens when the goal is skipped.
   */
  lemma UnpacksUnclassified(skip: bool, b: UnpackBuild, includes: seq<string>, excludes: seq<string>, a: Artifact)
    requires a in b.artifacts && CoordinatesOf(a) in b.direct && IsWixDependencyType(a.artifactType)
    requires a.classifier.None?
    ensures !skip <==>
      Do(Unpack(PathOf(a), WixUnpackDirectory(b.unpackDirectory, a), includes, excludes)) in UnpackPlan(skip, b, includes, excludes)
  {
    var step := Do(Unpack(PathOf(a), WixUnpackDirectory(b.unpackDirectory, a), includes, excludes));
    var plan := UnpackPlan(skip, b, includes, excludes);
    UnpackExtractions(skip, b, includes, excludes);
    if !skip {
      var deps := WixDependencies(b.artifacts, b.direct);
      WixDependenciesMembers(b.artifacts, b.direct, a);
      var i :| 0 <= i < |deps| && deps[i] == a;
      assert step in Extraction(b, includes, excludes)(deps[i]);
      FlatMapMembers(deps, Extraction(b, includes, excludes), step);
      SelectMembers(plan, IsUnpack, step);
    }
  }

  /** One pass of execute's loop: a dependency without a classifier is extracted into its own folder. */
  method UnpackOne(b: UnpackBuild, includes: seq<string>, excludes: seq<string>, made: set<string>, dep: Artifact)
    returns (steps: seq<Step>, made': set<string>)
    ensures (steps, made') == UnpackPass(b, includes, excludes)(made, dep)
  {
    if HasClassifier(dep) {
      return [], made;
    }
    var dir := WixUnpackDirectory(b.unpackDirectory, dep);
    steps := [];
    if !(Exists(b.fs, dir) || dir in made) {
      steps := [Do(CreateDirectories(dir))];
    }
    steps := steps + [Do(Unpack(PathOf(dep), dir, includes, excludes))];
    made' := made + {dir};
  }

  /** execute as the goal runs it, with the patterns read from the goal's fields. */
  method UnpackExecute(skip: bool, b: UnpackBuild, patterns: UnpackPatterns) returns (plan: seq<Step>)
    ensures plan == UnpackPlan(skip, b, patterns.GetIncludes(), patterns.GetExcludes())
  {
    if skip {
      return [];
    }
    var deps := WixDependencies(b.artifacts, b.direct);
    ghost var pass := UnpackPass(b, patterns.GetIncludes(), patterns.GetExcludes());
    var made: set<string> := {};
    plan := [];
    var i := 0;
    assert deps[..0] == [];
    while i < |deps|
      invariant 0 <= i <= |deps|
      invariant (plan, made) == Fold({}, deps[..i], pass)
    {
      assert deps[..i + 1] == deps[..i] + [deps[i]];
      FoldSnoc({}, deps[..i], deps[i], pass);
      var steps, made' := UnpackOne(b, patterns.GetIncludes(), patterns.GetExcludes(), made, deps[i]);
      plan, made := plan + steps, made';
      i := i + 1;
    }
    assert deps[..i] == deps;
  }
}
