// Maven artifacts as both copies of AbstractWixMojo see them, and the way they find one:
// first in the reactor (the project's own dependencies, then every reactor project's main
// and attached artifacts), and only then through the resolver.
module ArtifactLookup {
  import opened Wrappers
  import opened JavaText
  import opened Files
  import opened Runtime

  /** An org.apache.maven.artifact.Artifact; `file` is null until the artifact is resolved. */
  datatype Artifact = Artifact(
    groupId: string,
    artifactId: string,
    version: Option<string>,
    baseVersion: string,
    artifactType: string,
    classifier: Option<string>,
    file: Option<string>)

  /** The five fields the plugin's equals compares. */
  datatype Coordinates = Coordinates(
    groupId: string, artifactId: string, version: Option<string>, artifactType: string, classifier: Option<string>)

  function CoordinatesOf(a: Artifact): Coordinates
  {
    Coordinates(a.groupId, a.artifactId, a.version, a.artifactType, a.classifier)
  }

  /** Artifact.hasClassifier: a classifier that is neither null nor empty. */
  predicate HasClassifier(a: Artifact)
  {
    a.classifier.Some? && a.classifier.value != ""
  }

  /** The path of an artifact's file; dependency artifacts are resolved and have one. */
  function PathOf(a: Artifact): string
  {
    a.file.GetOr("")
  }

  /** The null-safe comparison of two possibly-null artifacts on their five coordinates. */
  predicate SameArtifact(a: Option<Artifact>, b: Option<Artifact>)
  {
    a == b
    || (a.Some? && b.Some?
        && a.value.groupId == b.value.groupId
        && a.value.artifactId == b.value.artifactId
        && a.value.version == b.value.version
        && a.value.artifactType == b.value.artifactType
        && a.value.classifier == b.value.classifier)
  }

  /**
   * SameArtifact is an equivalence that holds for two artifacts exactly when their
   * coordinates agree, whatever their base versions and files, and never for one null.
   */
  lemma SameArtifactIsCoordinateEquality(a: Option<Artifact>, b: Option<Artifact>, c: Option<Artifact>)
    ensures SameArtifact(a, a)
    ensures SameArtifact(a, b) ==> SameArtifact(b, a)
    ensures SameArtifact(a, b) && SameArtifact(b, c) ==> SameArtifact(a, c)
    ensures a.Some? && b.Some? ==> (SameArtifact(a, b) <==> CoordinatesOf(a.value) == CoordinatesOf(b.value))
    ensures a.None? != b.None? ==> !SameArtifact(a, b)
  {
  }

  /** hasFile: non-null, with a file that is a plain file. */
  predicate HasFile(fs: FileSystem, a: Option<Artifact>)
  {
    a.Some? && a.value.file.Some? && IsFile(fs, a.value.file.value)
  }

  /** A project of the reactor: its main artifact and its attached artifacts. */
  datatype ReactorProject = ReactorProject(main: Option<Artifact>, attached: seq<Artifact>)

  /**
   * What resolution can see: the current project's dependency artifacts (in the order
   * its Set is iterated), the reactor projects in order, and for the coordinates the
   * remote repositories hold, the file the resolver downloads.
   */
  datatype Repository = Repository(
    projectArtifacts: seq<Artifact>,
    reactor: seq<ReactorProject>,
    remote: map<Coordinates, string>)

  /** Everything the reactor search looks at, in the order it looks. */
  function ReactorOrder(repo: Repository): seq<Option<Artifact>>
  {
    Optional(repo.projectArtifacts) + ProjectsOrder(repo.reactor)
  }

  function Optional(xs: seq<Artifact>): (r: seq<Option<Artifact>>)
    ensures |r| == |xs| && forall i :: 0 <= i < |xs| ==> r[i] == Some(xs[i])
  {
    seq(|xs|, i requires 0 <= i < |xs| => Some(xs[i]))
  }

  function ProjectCandidates(p: ReactorProject): seq<Option<Artifact>>
  {
    [p.main] + Optional(p.attached)
  }

  function ProjectsOrder(projects: seq<ReactorProject>): seq<Option<Artifact>>
  {
    if |projects| == 0 then []
    else ProjectsOrder(projects[..|projects| - 1]) + ProjectCandidates(projects[|projects| - 1])
  }

  predicate Matches(fs: FileSystem, wanted: Artifact, candidate: Option<Artifact>)
  {
    SameArtifact(Some(wanted), candidate) && HasFile(fs, candidate)
  }

  /** The first candidate with the wanted coordinates and a file. */
  function FirstMatch(fs: FileSystem, wanted: Artifact, candidates: seq<Option<Artifact>>): (r: Option<Artifact>)
    ensures r.Some? ==> Some(r.value) in candidates && Matches(fs, wanted, Some(r.value))
    ensures r.None? <==> forall i :: 0 <= i < |candidates| ==> !Matches(fs, wanted, candidates[i])
    ensures r.Some? ==>
      exists i :: (0 <= i < |candidates| && candidates[i] == Some(r.value)
        && forall j :: 0 <= j < i ==> !Matches(fs, wanted, candidates[j]))
    decreases |candidates|
  {
    if |candidates| == 0 then None
    else if Matches(fs, wanted, candidates[0]) then candidates[0]
    else
      var r := FirstMatch(fs, wanted, candidates[1..]);
      assert forall i :: 1 <= i < |candidates| ==> candidates[i] == candidates[1..][i - 1];
      if r.Some? then
        assert exists i :: (1 <= i < |candidates| && candidates[i] == Some(r.value)
          && forall j :: 0 <= j < i ==> !Matches(fs, wanted, candidates[j])) by {
          var i :| 0 <= i < |candidates[1..]| && candidates[1..][i] == Some(r.value)
            && forall j :: 0 <= j < i ==> !Matches(fs, wanted, candidates[1..][j]);
          assert candidates[i + 1] == Some(r.value);
          assert forall j :: 1 <= j < i + 1 ==> candidates[j] == candidates[1..][j - 1];
        }
        r
      else r
  }

  lemma FirstMatchAppend(fs: FileSystem, wanted: Artifact, a: seq<Option<Artifact>>, b: seq<Option<Artifact>>)
    ensures FirstMatch(fs, wanted, a + b) ==
      (if FirstMatch(fs, wanted, a).Some? then FirstMatch(fs, wanted, a) else FirstMatch(fs, wanted, b))
    decreases |a|
  {
    if |a| > 0 {
      assert (a + b)[1..] == a[1..] + b;
      FirstMatchAppend(fs, wanted, a[1..], b);
    } else {
      assert a + b == b;
    }
  }

  /** Optional commutes with cutting a sequence at i and at i + 1. */
  lemma OptionalSplit(xs: seq<Artifact>, i: nat)
    requires i < |xs|
    ensures Optional(xs[..i + 1]) == Optional(xs[..i]) + [Some(xs[i])]
    ensures Optional(xs[..i + 1]) + Optional(xs[i + 1..]) == Optional(xs)
  {
    assert Optional(xs[..i + 1]) == Optional(xs[..i]) + [Some(xs[i])];
    assert Optional(xs[..i + 1]) + Optional(xs[i + 1..]) == Optional(xs);
  }

  /** The loop over a collection of artifacts, returning the first that matches. */
  method SearchArtifacts(fs: FileSystem, wanted: Artifact, xs: seq<Artifact>) returns (r: Option<Artifact>)
    ensures r == FirstMatch(fs, wanted, Optional(xs))
  {
    var i := 0;
    while i < |xs|
      invariant 0 <= i <= |xs|
      invariant FirstMatch(fs, wanted, Optional(xs[..i])).None?
    {
      FirstMatchAppend(fs, wanted, Optional(xs[..i]), [Some(xs[i])]);
      OptionalSplit(xs, i);
      if Matches(fs, wanted, Some(xs[i])) {
        FirstMatchAppend(fs, wanted, Optional(xs[..i + 1]), Optional(xs[i + 1..]));
        return Some(xs[i]);
      }
      i := i + 1;
    }
    assert xs[..i] == xs;
    return None;
  }

  /** One reactor project: its main artifact, then its attached artifacts. */
  method SearchProject(fs: FileSystem, wanted: Artifact, project: ReactorProject) returns (r: Option<Artifact>)
    ensures r == FirstMatch(fs, wanted, ProjectCandidates(project))
  {
    if Matches(fs, wanted, project.main) {
      return project.main;
    }
    assert ProjectCandidates(project)[1..] == Optional(project.attached);
    r := SearchArtifacts(fs, wanted, project.attached);
  }

  /** ProjectsOrder of one more project appends that project's candidates. */
  lemma ProjectsSnoc(projects: seq<ReactorProject>, p: nat)
    requires p < |projects|
    ensures ProjectsOrder(projects[..p + 1]) == ProjectsOrder(projects[..p]) + ProjectCandidates(projects[p])
  {
    assert projects[..p + 1][..p] == projects[..p];
  }

  /** getArtifactFomReactor. */
  method SearchReactor(fs: FileSystem, repo: Repository, wanted: Artifact) returns (r: Option<Artifact>)
    ensures r == FirstMatch(fs, wanted, ReactorOrder(repo))
  {
    FirstMatchAppend(fs, wanted, Optional(repo.projectArtifacts), ProjectsOrder(repo.reactor));
    r := SearchArtifacts(fs, wanted, repo.projectArtifacts);
    if r.Some? {
      return;
    }
    r := SearchProjects(fs, wanted, repo.reactor);
  }

  /** The reactor projects in order, stopping at the first that holds a match. */
  method SearchProjects(fs: FileSystem, wanted: Artifact, projects: seq<ReactorProject>) returns (r: Option<Artifact>)
    ensures r == FirstMatch(fs, wanted, ProjectsOrder(projects))
  {
    var p := 0;
    while p < |projects|
      invariant 0 <= p <= |projects|
      invariant FirstMatch(fs, wanted, ProjectsOrder(projects[..p])).None?
    {
      ProjectsStep(fs, wanted, projects, p);
      r := SearchProject(fs, wanted, projects[p]);
      if r.Some? {
        ProjectsPrefix(fs, wanted, projects, p + 1);
        return;
      }
      p := p + 1;
    }
    assert projects[..p] == projects;
    r := None;
  }

  /** With no match among the first p projects, the first p + 1 match as project p does. */
  lemma ProjectsStep(fs: FileSystem, wanted: Artifact, projects: seq<ReactorProject>, p: nat)
    requires p < |projects|
    requires FirstMatch(fs, wanted, ProjectsOrder(projects[..p])).None?
    ensures FirstMatch(fs, wanted, ProjectsOrder(projects[..p + 1])) == FirstMatch(fs, wanted, ProjectCandidates(projects[p]))
  {
    ProjectsSnoc(projects, p);
    FirstMatchAppend(fs, wanted, ProjectsOrder(projects[..p]), ProjectCandidates(projects[p]));
  }

  /** A project whose candidates hold the first match decides the whole search. */
  lemma ProjectsPrefix(fs: FileSystem, wanted: Artifact, projects: seq<ReactorProject>, n: nat)
    requires 0 < n <= |projects|
    requires FirstMatch(fs, wanted, ProjectsOrder(projects[..n])).Some?
    ensures FirstMatch(fs, wanted, ProjectsOrder(projects)) == FirstMatch(fs, wanted, ProjectsOrder(projects[..n]))
  {
    ProjectsOrderPrefix(projects, n);
    var seen := ProjectsOrder(projects[..n]);
    var whole := ProjectsOrder(projects);
    assert seen + whole[|seen|..] == whole;
    FirstMatchAppend(fs, wanted, seen, whole[|seen|..]);
  }

  lemma {:induction false} ProjectsOrderPrefix(projects: seq<ReactorProject>, n: nat)
    requires n <= |projects|
    ensures ProjectsOrder(projects[..n]) <= ProjectsOrder(projects)
    decreases |projects|
  {
    if n < |projects| {
      var m := |projects| - 1;
      assert projects[..m][..n] == projects[..n];
      ProjectsOrderPrefix(projects[..m], n);
    } else {
      assert projects[..n] == projects;
    }
  }

  /** The reactor hit, when there is one, has the wanted coordinates and a file. */
  lemma ReactorHitMatches(fs: FileSystem, repo: Repository, wanted: Artifact)
    ensures var r := FirstMatch(fs, wanted, ReactorOrder(repo));
      r.Some? ==> CoordinatesOf(r.value) == CoordinatesOf(wanted) && HasFile(fs, r)
  {
  }

  /** The project's own dependencies are searched before any reactor project. */
  lemma ProjectArtifactsFirst(fs: FileSystem, repo: Repository, wanted: Artifact, a: Artifact)
    requires a in repo.projectArtifacts && Matches(fs, wanted, Some(a))
    ensures FirstMatch(fs, wanted, ReactorOrder(repo)).Some?
    ensures FirstMatch(fs, wanted, ReactorOrder(repo)) == FirstMatch(fs, wanted, Optional(repo.projectArtifacts))
  {
    FirstMatchAppend(fs, wanted, Optional(repo.projectArtifacts), ProjectsOrder(repo.reactor));
    var i :| 0 <= i < |repo.projectArtifacts| && repo.projectArtifacts[i] == a;
    assert Optional(repo.projectArtifacts)[i] == Some(a);
  }

  /** ArtifactFactory.createDependencyArtifact: the wanted coordinates, not yet resolved. */
  function Requested(groupId: string, artifactId: string, artifactType: string, version: Option<string>, classifier: string): Artifact
  {
    Artifact(groupId, artifactId, version, version.GetOr(""), artifactType, Some(classifier), None)
  }

  /**
   * getArtifact: adds the reactor hit if there is one; otherwise the resolved artifact,
   * or fails when the resolver cannot find it.
   */
  function GetArtifact(fs: FileSystem, repo: Repository, groupId: string, artifactId: string, artifactType: string,
                       found: set<Artifact>, version: Option<string>, classifier: string): (r: Result<set<Artifact>, Failure>)
    ensures var wanted := Requested(groupId, artifactId, artifactType, version, classifier);
      && (FirstMatch(fs, wanted, ReactorOrder(repo)).Some? ==>
            r == Ok(found + {FirstMatch(fs, wanted, ReactorOrder(repo)).value}))
      && (FirstMatch(fs, wanted, ReactorOrder(repo)).None? ==>
            (r.Ok? <==> CoordinatesOf(wanted) in repo.remote)
            && (r.Ok? ==> r.value == found + {wanted.(file := Some(repo.remote[CoordinatesOf(wanted)]))}))
  {
    var wanted := Requested(groupId, artifactId, artifactType, version, classifier);
    match FirstMatch(fs, wanted, ReactorOrder(repo))
    case Some(hit) => Ok(found + {hit})
    case None =>
      if CoordinatesOf(wanted) in repo.remote then Ok(found + {wanted.(file := Some(repo.remote[CoordinatesOf(wanted)]))})
      else Err(ResolutionFailed("Unable to find artifact."))
  }

  /** Whatever getArtifact adds carries the requested coordinates; nothing already found is lost. */
  lemma GetArtifactAddsRequested(fs: FileSystem, repo: Repository, groupId: string, artifactId: string, artifactType: string,
                                 found: set<Artifact>, version: Option<string>, classifier: string)
    ensures var r := GetArtifact(fs, repo, groupId, artifactId, artifactType, found, version, classifier);
      r.Ok? ==>
        (found <= r.value
         && forall a :: a in r.value - found ==>
              a.groupId == groupId && a.artifactId == artifactId && a.artifactType == artifactType
              && a.classifier == Some(classifier) && a.version == version)
  {
  }
}
