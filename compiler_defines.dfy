// AbstractCompilerMojo: the preprocessor definitions derived from the project's
// dependencies (wix packages, JARs, NARs, NPANDAY assemblies) and from the harvest
// input folders, pushed one by one into the subclass's addDefinition sink.
module CompilerDefines {
  import opened Wrappers
  import opened JavaText
  import opened Files
  import opened Seqs
  import opened ArtifactLookup
  import opened Runtime
  import opened WixMojo

  /** "<key>=<value>": one preprocessor definition, as passed after -d. */
  function Define(key: string, value: string): string
  {
    key + "=" + value
  }

  /** The key of a definition is what precedes its first '=', when the key itself has none. */
  lemma DefineKey(key: string, value: string)
    requires '=' !in key
    ensures Before(Define(key, value), '=') == key
  {
    BeforeOfPair(key, '=', value);
  }

  /** defineRepoFile and defineWixUnpackFile: the absolute path with every "<base>\" removed. */
  function StripBase(absolutePath: string, base: string): string
  {
    Replace(absolutePath, base + "\\", "")
  }

  /** A path inside the base loses exactly the base prefix, when the rest does not repeat it. */
  lemma StripBaseInside(base: string, rest: string)
    requires !Contains(rest, base + "\\")
    ensures StripBase(base + "\\" + rest, base) == rest
  {
    StripLeading(base + "\\", rest);
  }

  /** The types getNPANDAYDependencySets keeps. */
  const NpandayTypes: set<string> := {
    "dotnet-library", "dll", "dotnet-library-config", "dll.config",
    "dotnet-executable", "exe", "dotnet-executable-config", "exe.config" }

  /** The types getJARDependencySets and getNARDependencySets keep. */
  const JarTypes: set<string> := {"jar"}
  const NarTypes: set<string> := {"nar"}

  /** TypeFilter over project.getArtifacts(), in the order the filter keeps them. */
  function OfType(artifacts: seq<Artifact>, types: set<string>): seq<Artifact>
  {
    Filter(artifacts, (a: Artifact) => a.artifactType in types)
  }

  /** The filter keeps exactly the artifacts of the listed types. */
  lemma OfTypeMembers(artifacts: seq<Artifact>, types: set<string>, a: Artifact)
    ensures a in OfType(artifacts, types) <==> a in artifacts && a.artifactType in types
  {
    FilterMembers(artifacts, (a: Artifact) => a.artifactType in types, a);
  }

  // ---- wix packages ----

  /** g.a.UnpackPath for an unclassified package, g.a.TargetPath-<classifier> otherwise. */
  function WixKey(w: Artifact): string
  {
    if !HasClassifier(w) then w.groupId + "." + w.artifactId + ".UnpackPath"
    else w.groupId + "." + w.artifactId + ".TargetPath-" + w.classifier.value
  }

  function WixDefinition(w: Artifact, unpackDirectory: string, repoBase: string): string
  {
    if !HasClassifier(w) then Define(WixKey(w), StripBase(WixUnpackDirectory(unpackDirectory, w), unpackDirectory))
    else Define(WixKey(w), StripBase(PathOf(w), repoBase))
  }

  /** The addResource calls of addWixDefines: the unpack folder of each unclassified package. */
  function WixResource(w: Artifact, unpackDirectory: string): seq<(string, Artifact)>
  {
    if !HasClassifier(w) then [(WixUnpackDirectory(unpackDirectory, w), w)] else []
  }

  /**
   * addWixDefines yields one definition per package, in order: an unpacked package is
   * found relative to the unpack folder, a classified one relative to the repository;
   * only the unclassified packages are handed to addResource.
   */
  lemma WixDefinitionsShape(wix: seq<Artifact>, unpackDirectory: string, repoBase: string)
    ensures var defs := FlatMap(wix, (w: Artifact) => [WixDefinition(w, unpackDirectory, repoBase)]);
      && |defs| == |wix|
      && forall i :: 0 <= i < |wix| ==>
        && defs[i] == Define(WixKey(wix[i]),
             if HasClassifier(wix[i]) then StripBase(PathOf(wix[i]), repoBase)
             else StripBase(WixUnpackDirectory(unpackDirectory, wix[i]), unpackDirectory))
    ensures forall r :: r in FlatMap(wix, (w: Artifact) => WixResource(w, unpackDirectory)) <==>
      r.1 in wix && !HasClassifier(r.1) && r.0 == WixUnpackDirectory(unpackDirectory, r.1)
  {
    FlatMapSingles(wix, (w: Artifact) => [WixDefinition(w, unpackDirectory, repoBase)]);
    forall r
      ensures r in FlatMap(wix, (w: Artifact) => WixResource(w, unpackDirectory)) <==>
        r.1 in wix && !HasClassifier(r.1) && r.0 == WixUnpackDirectory(unpackDirectory, r.1)
    {
      FlatMapMembers(wix, (w: Artifact) => WixResource(w, unpackDirectory), r);
      if r.1 in wix && !HasClassifier(r.1) && r.0 == WixUnpackDirectory(unpackDirectory, r.1) {
        var i :| 0 <= i < |wix| && wix[i] == r.1;
        assert r in WixResource(wix[i], unpackDirectory);
      }
    }
  }

  /** An unpacked package's key ends in .UnpackPath, a classified one's in .TargetPath-<classifier>. */
  lemma WixKeyEnding(w: Artifact)
    ensures !HasClassifier(w) ==> EndsWith(WixKey(w), ".UnpackPath")
    ensures HasClassifier(w) ==> EndsWith(WixKey(w), ".TargetPath-" + w.classifier.value)
  {
    var k := WixKey(w);
    if HasClassifier(w) {
      var t := ".TargetPath-" + w.classifier.value;
      assert k == w.groupId + "." + w.artifactId + t;
      assert k[|k| - |t|..] == t;
    } else {
      assert k[|k| - 11..] == ".UnpackPath";
    }
  }

  // ---- JARs ----

  /** g.a.c.TargetJAR for a classified JAR, g.a.TargetJAR otherwise. */
  function JarKey(j: Artifact): string
  {
    if HasClassifier(j) then j.groupId + "." + j.artifactId + "." + j.classifier.value + ".TargetJAR"
    else j.groupId + "." + j.artifactId + ".TargetJAR"
  }

  function JarDefinition(j: Artifact, repoBase: string): string
  {
    Define(JarKey(j), StripBase(PathOf(j), repoBase))
  }

  /** Two JARs of one groupId and artifactId get distinct keys unless they agree on the classifier. */
  lemma JarKeysDistinct(j1: Artifact, j2: Artifact)
    requires j1.groupId == j2.groupId && j1.artifactId == j2.artifactId
    requires HasClassifier(j1) != HasClassifier(j2) || (HasClassifier(j1) && j1.classifier != j2.classifier)
    ensures JarKey(j1) != JarKey(j2)
  {
    var p := j1.groupId + "." + j1.artifactId + ".";
    if HasClassifier(j1) && HasClassifier(j2) {
      var c1 := j1.classifier.value;
      var c2 := j2.classifier.value;
      assert JarKey(j1) == p + c1 + ".TargetJAR" && JarKey(j2) == p + c2 + ".TargetJAR";
      if |c1| == |c2| {
        assert JarKey(j1)[|p|..|p| + |c1|] == c1;
        assert JarKey(j2)[|p|..|p| + |c2|] == c2;
      }
    }
  }

  // ---- NARs ----

  /** The five fixed narDir definitions written once when there is any NAR. */
  const NarDirs: seq<string> := [
    "narDirx86.dll=x86-Windows-msvc-shared/lib/x86-Windows-msvc/shared",
    "narDirx86.exe=x86-Windows-msvc-executable/bin/x86-Windows-msvc",
    "narDiramd64.dll=amd64-Windows-msvc-shared/lib/amd64-Windows-msvc/shared",
    "narDiramd64.exe=amd64-Windows-msvc-executable/bin/amd64-Windows-msvc",
    "narDirNA=noarch"]

  /** a.TargetDir=a-<version>- and a.TargetNAR=<repository path>. */
  function NarDefinitions(n: Artifact, version: string, repoBase: string): seq<string>
  {
    [Define(n.artifactId + ".TargetDir", n.artifactId + "-" + version + "-"),
     Define(n.artifactId + ".TargetNAR", StripBase(PathOf(n), repoBase))]
  }

  /** addNARDefines: nothing without NARs, else the narDirs then two per NAR (baseVersion). */
  function AllNarDefinitions(nars: seq<Artifact>, repoBase: string): seq<string>
  {
    if |nars| == 0 then []
    else NarDirs + FlatMap(nars, (n: Artifact) => NarDefinitions(n, n.baseVersion, repoBase))
  }

  lemma {:induction false} FlatMapPairs(nars: seq<Artifact>, repoBase: string)
    ensures var d := FlatMap(nars, (n: Artifact) => NarDefinitions(n, n.baseVersion, repoBase));
      && |d| == 2 * |nars|
      && forall i :: 0 <= i < |nars| ==>
        d[2 * i] == Define(nars[i].artifactId + ".TargetDir", nars[i].artifactId + "-" + nars[i].baseVersion + "-")
        && d[2 * i + 1] == Define(nars[i].artifactId + ".TargetNAR", StripBase(PathOf(nars[i]), repoBase))
    decreases |nars|
  {
    if |nars| > 0 {
      var n := |nars| - 1;
      assert forall i :: 0 <= i < n ==> nars[..n][i] == nars[i];
      FlatMapPairs(nars[..n], repoBase);
    }
  }

  /** The narDirs come first and only when there is a NAR; then TargetDir and TargetNAR per NAR. */
  lemma NarDefinitionsShape(nars: seq<Artifact>, repoBase: string)
    ensures |nars| == 0 <==> AllNarDefinitions(nars, repoBase) == []
    ensures |nars| > 0 ==>
      var d := AllNarDefinitions(nars, repoBase);
      && |d| == 5 + 2 * |nars| && d[..5] == NarDirs
      && forall i :: 0 <= i < |nars| ==>
        d[5 + 2 * i] == nars[i].artifactId + ".TargetDir=" + nars[i].artifactId + "-" + nars[i].baseVersion + "-"
  {
    FlatMapPairs(nars, repoBase);
  }

  // ---- NPANDAY ----

  predicate IsConfigType(t: string)
  {
    EndsWith(t, "-config") || EndsWith(t, ".config")
  }

  /** Config assemblies: g.a.TargetNPANDAYConfig; others g.a[.c].TargetNPANDAY. */
  function NpandayKey(n: Artifact): string
  {
    if !IsConfigType(n.artifactType) then
      if HasClassifier(n) then n.groupId + "." + n.artifactId + "." + n.classifier.value + ".TargetNPANDAY"
      else n.groupId + "." + n.artifactId + ".TargetNPANDAY"
    else n.groupId + "." + n.artifactId + ".TargetNPANDAYConfig"
  }

  function NpandayDefinition(n: Artifact, repoBase: string): string
  {
    Define(NpandayKey(n), StripBase(PathOf(n), repoBase))
  }

  /** A config assembly's key never carries its classifier; any other assembly's never says Config. */
  lemma NpandayKeys(n: Artifact, m: Artifact)
    ensures (IsConfigType(n.artifactType) && IsConfigType(m.artifactType)
             && n.groupId == m.groupId && n.artifactId == m.artifactId) ==> NpandayKey(n) == NpandayKey(m)
    ensures !IsConfigType(n.artifactType) ==> EndsWith(NpandayKey(n), ".TargetNPANDAY")
    ensures IsConfigType(n.artifactType) ==> EndsWith(NpandayKey(n), ".TargetNPANDAYConfig")
  {
    var k := NpandayKey(n);
    if !IsConfigType(n.artifactType) {
      assert k[|k| - 14..] == ".TargetNPANDAY";
    } else {
      assert k[|k| - 20..] == ".TargetNPANDAYConfig";
    }
  }

  // ---- harvest folders ----

  /** File.listFiles(directoryFilter): the directories a directory lists. */
  function Subdirectories(fs: FileSystem, dir: string): seq<string>
  {
    Filter(if dir in fs.listings then fs.listings[dir] else [], (p: string) => IsDirectory(fs, p))
  }

  /** The listed entries of a directory that are themselves directories. */
  lemma SubdirectoriesMembers(fs: FileSystem, dir: string, p: string)
    ensures p in Subdirectories(fs, dir) <==> dir in fs.listings && p in fs.listings[dir] && IsDirectory(fs, p)
  {
    FilterMembers(if dir in fs.listings then fs.listings[dir] else [], (p: string) => IsDirectory(fs, p), p);
  }

  /** addHarvestDefine: "<prefix>-<name>=<absolute path>". */
  function HarvestDefinition(prefix: string, folder: string): string
  {
    Define(prefix + "-" + Name(folder), folder)
  }

  function HarvestFolderDefinitions(fs: FileSystem, folder: string): seq<string>
  {
    if Name(folder) == "dir" then FlatMap(Subdirectories(fs, folder), (sub: string) => [HarvestDefinition("dir", sub)])
    else []
  }

  function FolderDefinitionsOf(fs: FileSystem): string -> seq<string>
  {
    (folder: string) => HarvestFolderDefinitions(fs, folder)
  }

  /**
   * addHarvestDefines: nothing when the harvest folder is missing; a harvest "folder"
   * that is a file lists nothing (null) and the loop over it fails.
   */
  function HarvestDefinitions(fs: FileSystem, harvestDirectory: string): Result<seq<string>, Failure>
  {
    if !Exists(fs, harvestDirectory) then Ok([])
    else if !IsDirectory(fs, harvestDirectory) then Err(ExecutionFailed("NullPointerException"))
    else Ok(FlatMap(Subdirectories(fs, harvestDirectory), FolderDefinitionsOf(fs)))
  }

  /** Exactly the subfolders of a "dir" folder of the harvest folder get a definition. */
  lemma HarvestDefinitionsMembers(fs: FileSystem, harvestDirectory: string, d: string)
    ensures !Exists(fs, harvestDirectory) ==> HarvestDefinitions(fs, harvestDirectory) == Ok([])
    ensures IsDirectory(fs, harvestDirectory) ==>
      (d in HarvestDefinitions(fs, harvestDirectory).value <==>
        exists folder, sub :: folder in Subdirectories(fs, harvestDirectory) && Name(folder) == "dir"
          && sub in Subdirectories(fs, folder) && d == HarvestDefinition("dir", sub))
  {
    if IsDirectory(fs, harvestDirectory) {
      var folders := Subdirectories(fs, harvestDirectory);
      FlatMapMembers(folders, FolderDefinitionsOf(fs), d);
      if d in HarvestDefinitions(fs, harvestDirectory).value {
        HarvestDefinitionFrom(fs, folders, d);
      }
      if exists folder, sub :: folder in folders && Name(folder) == "dir"
          && sub in Subdirectories(fs, folder) && d == HarvestDefinition("dir", sub) {
        HarvestDefinitionReach(fs, folders, d);
      }
    }
  }

  /** A definition of the walk comes from a subfolder of one of the "dir" folders. */
  lemma HarvestDefinitionFrom(fs: FileSystem, folders: seq<string>, d: string)
    requires exists i :: 0 <= i < |folders| && d in FolderDefinitionsOf(fs)(folders[i])
    ensures exists folder, sub :: folder in folders && Name(folder) == "dir"
               && sub in Subdirectories(fs, folder) && d == HarvestDefinition("dir", sub)
  {
    var i :| 0 <= i < |folders| && d in FolderDefinitionsOf(fs)(folders[i]);
    HarvestFolderMembers(fs, folders[i], d);
    assert folders[i] in folders;
  }

  /** Every subfolder of a "dir" folder has its definition in the walk. */
  lemma HarvestDefinitionReach(fs: FileSystem, folders: seq<string>, d: string)
    requires exists folder, sub :: folder in folders && Name(folder) == "dir"
                && sub in Subdirectories(fs, folder) && d == HarvestDefinition("dir", sub)
    ensures exists i :: 0 <= i < |folders| && d in FolderDefinitionsOf(fs)(folders[i])
  {
    var folder, sub :| folder in folders && Name(folder) == "dir"
      && sub in Subdirectories(fs, folder) && d == HarvestDefinition("dir", sub);
    HarvestFolderMembers(fs, folder, d);
    var i :| 0 <= i < |folders| && folders[i] == folder;
    assert d in FolderDefinitionsOf(fs)(folders[i]);
  }

  /** A folder contributes a definition per subfolder when it is named "dir", and nothing otherwise. */
  lemma HarvestFolderMembers(fs: FileSystem, folder: string, d: string)
    ensures d in HarvestFolderDefinitions(fs, folder) <==>
      Name(folder) == "dir" && exists sub :: sub in Subdirectories(fs, folder) && d == HarvestDefinition("dir", sub)
  {
    if Name(folder) == "dir" {
      var subs := Subdirectories(fs, folder);
      var g := (sub: string) => [HarvestDefinition("dir", sub)];
      FlatMapMembers(subs, g, d);
      if exists sub :: sub in subs && d == HarvestDefinition("dir", sub) {
        var sub :| sub in subs && d == HarvestDefinition("dir", sub);
        var i :| 0 <= i < |subs| && subs[i] == sub;
        assert d in g(subs[i]);
      }
    }
  }

  /**
   * The mojo as its definition sink sees it: every addDefinition and every addResource
   * call, in order.
   */
  class CompilerMojo {
    var definitions: seq<string>
    var resources: seq<(string, Artifact)>

    constructor ()
      ensures definitions == [] && resources == []
    {
      definitions := [];
      resources := [];
    }

    method AddDefinition(def: string)
      modifies this
      ensures definitions == old(definitions) + [def] && resources == old(resources)
    {
      definitions := definitions + [def];
    }

    /** addWixDefines over the wix dependency listing. */
    method AddWixDefines(wix: seq<Artifact>, unpackDirectory: string, repoBase: string)
      modifies this
      ensures definitions == old(definitions) + FlatMap(wix, (w: Artifact) => [WixDefinition(w, unpackDirectory, repoBase)])
      ensures resources == old(resources) + FlatMap(wix, (w: Artifact) => WixResource(w, unpackDirectory))
    {
      var i := 0;
      while i < |wix|
        invariant 0 <= i <= |wix|
        invariant definitions == old(definitions) + FlatMap(wix[..i], (w: Artifact) => [WixDefinition(w, unpackDirectory, repoBase)])
        invariant resources == old(resources) + FlatMap(wix[..i], (w: Artifact) => WixResource(w, unpackDirectory))
      {
        FlatMapGrows(wix, (w: Artifact) => [WixDefinition(w, unpackDirectory, repoBase)], i);
        FlatMapGrows(wix, (w: Artifact) => WixResource(w, unpackDirectory), i);
        AppendAssoc(old(definitions), FlatMap(wix[..i], (w: Artifact) => [WixDefinition(w, unpackDirectory, repoBase)]),
                    [WixDefinition(wix[i], unpackDirectory, repoBase)]);
        AppendAssoc(old(resources), FlatMap(wix[..i], (w: Artifact) => WixResource(w, unpackDirectory)),
                    WixResource(wix[i], unpackDirectory));
        AddWixDefine(wix[i], unpackDirectory, repoBase);
        i := i + 1;
      }
      assert wix[..i] == wix;
    }

    /** The body of addWixDefines' loop: an unclassified package is also handed to addResource. */
    method AddWixDefine(w: Artifact, unpackDirectory: string, repoBase: string)
      modifies this
      ensures definitions == old(definitions) + [WixDefinition(w, unpackDirectory, repoBase)]
      ensures resources == old(resources) + WixResource(w, unpackDirectory)
    {
      if !HasClassifier(w) {
        var resUnpackDirectory := WixUnpackDirectory(unpackDirectory, w);
        AddDefinition(Define(w.groupId + "." + w.artifactId + ".UnpackPath", StripBase(resUnpackDirectory, unpackDirectory)));
        resources := resources + [(resUnpackDirectory, w)];
      }
      if HasClassifier(w) {
        AddDefinition(Define(w.groupId + "." + w.artifactId + ".TargetPath-" + w.classifier.value, StripBase(PathOf(w), repoBase)));
      } else {
        assert resources == old(resources) + WixResource(w, unpackDirectory);
      }
    }

    /** addHarvestDefine. */
    method AddHarvestDefine(prefix: string, folder: string)
      modifies this
      ensures definitions == old(definitions) + [HarvestDefinition(prefix, folder)] && resources == old(resources)
    {
      AddDefinition(Define(prefix + "-" + Name(folder), folder));
    }

    /** addHarvestDefines: the folder walk, two loops deep. */
    method AddHarvestDefines(fs: FileSystem, harvestDirectory: string) returns (failure: Option<Failure>)
      modifies this
      ensures HarvestDefinitions(fs, harvestDirectory).Err? ==>
        failure == Some(HarvestDefinitions(fs, harvestDirectory).error) && definitions == old(definitions)
      ensures HarvestDefinitions(fs, harvestDirectory).Ok? ==>
        failure == None && definitions == old(definitions) + HarvestDefinitions(fs, harvestDirectory).value
      ensures resources == old(resources)
    {
      if !Exists(fs, harvestDirectory) {
        return None;
      }
      if !IsDirectory(fs, harvestDirectory) {
        return Some(ExecutionFailed("NullPointerException"));
      }
      AddHarvestFolders(fs, Subdirectories(fs, harvestDirectory));
      return None;
    }

    /** The outer loop of addHarvestDefines over the harvest folder's subfolders. */
    method AddHarvestFolders(fs: FileSystem, folders: seq<string>)
      modifies this
      ensures definitions == old(definitions) + FlatMap(folders, FolderDefinitionsOf(fs))
      ensures resources == old(resources)
    {
      var i := 0;
      while i < |folders|
        invariant 0 <= i <= |folders|
        invariant definitions == old(definitions) + FlatMap(folders[..i], FolderDefinitionsOf(fs))
        invariant resources == old(resources)
      {
        FlatMapGrows(folders, FolderDefinitionsOf(fs), i);
        AppendAssoc(old(definitions), FlatMap(folders[..i], FolderDefinitionsOf(fs)), HarvestFolderDefinitions(fs, folders[i]));
        AddHarvestFolderDefines(fs, folders[i]);
        i := i + 1;
      }
      assert folders[..i] == folders;
    }

    /** The body of addHarvestDefines' outer loop: a "dir" folder defines each of its subfolders. */
    method AddHarvestFolderDefines(fs: FileSystem, folder: string)
      modifies this
      ensures definitions == old(definitions) + HarvestFolderDefinitions(fs, folder)
      ensures resources == old(resources)
    {
      if Name(folder) == "dir" {
        var subfolders := Subdirectories(fs, folder);
        var j := 0;
        while j < |subfolders|
          invariant 0 <= j <= |subfolders|
          invariant definitions == old(definitions) + FlatMap(subfolders[..j], (sub: string) => [HarvestDefinition("dir", sub)])
          invariant resources == old(resources)
        {
          FlatMapGrows(subfolders, (sub: string) => [HarvestDefinition("dir", sub)], j);
          AppendAssoc(old(definitions), FlatMap(subfolders[..j], (sub: string) => [HarvestDefinition("dir", sub)]),
                      [HarvestDefinition("dir", subfolders[j])]);
          AddHarvestDefine("dir", subfolders[j]);
          j := j + 1;
        }
        assert subfolders[..j] == subfolders;
      }
    }

    /** addJARDefines over the JAR dependencies of project.getArtifacts(). */
    method AddJARDefines(artifacts: seq<Artifact>, repoBase: string)
      modifies this
      ensures definitions == old(definitions) + FlatMap(OfType(artifacts, JarTypes), (j: Artifact) => [JarDefinition(j, repoBase)])
      ensures resources == old(resources)
    {
      var jars := OfType(artifacts, JarTypes);
      var i := 0;
      while i < |jars|
        invariant 0 <= i <= |jars|
        invariant definitions == old(definitions) + FlatMap(jars[..i], (j: Artifact) => [JarDefinition(j, repoBase)])
        invariant resources == old(resources)
      {
        FlatMapGrows(jars, (j: Artifact) => [JarDefinition(j, repoBase)], i);
        AppendAssoc(old(definitions), FlatMap(jars[..i], (j: Artifact) => [JarDefinition(j, repoBase)]), [JarDefinition(jars[i], repoBase)]);
        AddJARDefine(jars[i], repoBase);
        i := i + 1;
      }
      assert jars[..i] == jars;
    }

    /** The body of addJARDefines' loop. */
    method AddJARDefine(jar: Artifact, repoBase: string)
      modifies this
      ensures definitions == old(definitions) + [JarDefinition(jar, repoBase)] && resources == old(resources)
    {
      if HasClassifier(jar) {
        AddDefinition(Define(jar.groupId + "." + jar.artifactId + "." + jar.classifier.value + ".TargetJAR", StripBase(PathOf(jar), repoBase)));
      } else {
        AddDefinition(Define(jar.groupId + "." + jar.artifactId + ".TargetJAR", StripBase(PathOf(jar), repoBase)));
      }
    }

    /** addNARDefines over the NAR dependencies of project.getArtifacts(). */
    method AddNARDefines(artifacts: seq<Artifact>, repoBase: string)
      modifies this
      ensures definitions == old(definitions) + AllNarDefinitions(OfType(artifacts, NarTypes), repoBase)
      ensures resources == old(resources)
    {
      var nars := OfType(artifacts, NarTypes);
      if |nars| == 0 {
        return;
      }
      AddNarDirs();
      AddNarPairs(nars, repoBase);
    }

    /** The loop of addNARDefines: two definitions per NAR. */
    method AddNarPairs(nars: seq<Artifact>, repoBase: string)
      modifies this
      ensures definitions == old(definitions) + FlatMap(nars, (n: Artifact) => NarDefinitions(n, n.baseVersion, repoBase))
      ensures resources == old(resources)
    {
      var i := 0;
      while i < |nars|
        invariant 0 <= i <= |nars|
        invariant definitions == old(definitions) + FlatMap(nars[..i], (n: Artifact) => NarDefinitions(n, n.baseVersion, repoBase))
        invariant resources == old(resources)
      {
        FlatMapGrows(nars, (n: Artifact) => NarDefinitions(n, n.baseVersion, repoBase), i);
        AppendAssoc(old(definitions), FlatMap(nars[..i], (n: Artifact) => NarDefinitions(n, n.baseVersion, repoBase)),
                    NarDefinitions(nars[i], nars[i].baseVersion, repoBase));
        AddNARDefine(nars[i], nars[i].baseVersion, repoBase);
        i := i + 1;
      }
      assert nars[..i] == nars;
    }

    /** The body of addNARDefines' loop. */
    method AddNARDefine(nar: Artifact, version: string, repoBase: string)
      modifies this
      ensures definitions == old(definitions) + NarDefinitions(nar, version, repoBase) && resources == old(resources)
    {
      AddDefinition(Define(nar.artifactId + ".TargetDir", nar.artifactId + "-" + version + "-"));
      AddDefinition(Define(nar.artifactId + ".TargetNAR", StripBase(PathOf(nar), repoBase)));
    }

    /** The five narDir definitions, one addDefinition each. */
    method AddNarDirs()
      modifies this
      ensures definitions == old(definitions) + NarDirs && resources == old(resources)
    {
      AddDefinition(NarDirs[0]);
      AddDefinition(NarDirs[1]);
      AddDefinition(NarDirs[2]);
      AddDefinition(NarDirs[3]);
      AddDefinition(NarDirs[4]);
      assert NarDirs == [NarDirs[0], NarDirs[1], NarDirs[2], NarDirs[3], NarDirs[4]];
    }

    /** addNPANDAYDefines over the NPANDAY dependencies of project.getArtifacts(). */
    method AddNPANDAYDefines(artifacts: seq<Artifact>, repoBase: string)
      modifies this
      ensures definitions == old(definitions) + FlatMap(OfType(artifacts, NpandayTypes), (n: Artifact) => [NpandayDefinition(n, repoBase)])
      ensures resources == old(resources)
    {
      var assemblies := OfType(artifacts, NpandayTypes);
      var i := 0;
      while i < |assemblies|
        invariant 0 <= i <= |assemblies|
        invariant definitions == old(definitions) + FlatMap(assemblies[..i], (n: Artifact) => [NpandayDefinition(n, repoBase)])
        invariant resources == old(resources)
      {
        FlatMapGrows(assemblies, (n: Artifact) => [NpandayDefinition(n, repoBase)], i);
        AppendAssoc(old(definitions), FlatMap(assemblies[..i], (n: Artifact) => [NpandayDefinition(n, repoBase)]),
                    [NpandayDefinition(assemblies[i], repoBase)]);
        AddNPANDAYDefine(assemblies[i], repoBase);
        i := i + 1;
      }
      assert assemblies[..i] == assemblies;
    }

    /** The body of addNPANDAYDefines' loop. */
    method AddNPANDAYDefine(n: Artifact, repoBase: string)
      modifies this
      ensures definitions == old(definitions) + [NpandayDefinition(n, repoBase)] && resources == old(resources)
    {
      if !IsConfigType(n.artifactType) {
        if HasClassifier(n) {
          AddDefinition(Define(n.groupId + "." + n.artifactId + "." + n.classifier.value + ".TargetNPANDAY", StripBase(PathOf(n), repoBase)));
        } else {
          AddDefinition(Define(n.groupId + "." + n.artifactId + ".TargetNPANDAY", StripBase(PathOf(n), repoBase)));
        }
      } else {
        AddDefinition(Define(n.groupId + "." + n.artifactId + ".TargetNPANDAYConfig", StripBase(PathOf(n), repoBase)));
      }
    }
  }
}
