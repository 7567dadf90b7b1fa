// WixInfo: the property bag a wix artifact carries as META-INF/wix/wix.properties, holding
// the cultures and platforms it was built for.
module WixInfos {
  import opened Wrappers
  import opened JavaText
  import opened Files
  import opened Seqs
  import opened Runtime
  import opened Plans

  /** The name of the properties file. */
  const PropertiesName: string := "wix.properties"

  /** getProperties: the folder of the properties file inside a jar. */
  const PropertiesFolder: string := "META-INF/wix/"

  /** The jar entry read and tested by exists and read. */
  const PropertiesEntry: string := PropertiesFolder + PropertiesName

  const CulturesKey: string := "cultures"
  const PlatformsKey: string := "platforms"

  /** What reading a properties file gives: its entries, no file, or a read error. */
  datatype LoadResult = Loaded(entries: map<string, string>) | NotFound | Unreadable

  /** A jar's entries, each a properties text already parsed into its entries. */
  type Jar = map<string, map<string, string>>

  /**
   * getProperty(key, default): a null key gives the default; otherwise the stored value,
   * or the default when the key is not in the bag.
   */
  function Lookup(info: map<string, string>, key: Option<string>, default: Option<string>): (r: Option<string>)
    ensures key.None? ==> r == default
    ensures key.Some? ==> (r == if key.value in info then Some(info[key.value]) else default)
  {
    match key
    case None => default
    case Some(k) => if k in info then Some(info[k]) else default
  }

  /** A value set under a key is what a later lookup of that key finds; other keys are unaffected. */
  lemma LookupAfterSet(info: map<string, string>, k: string, v: string, other: string, default: Option<string>)
    ensures Lookup(info[k := v], Some(k), default) == Some(v)
    ensures other != k ==> Lookup(info[k := v], Some(other), default) == Lookup(info, Some(other), default)
  {
  }

  /**
   * The bag the constructor starts with: empty without a file, the file's entries when it was
   * read, empty again when the file is missing (that is ignored), and an error for any
   * other read failure.
   */
  function InitialBag(propertiesFile: Option<string>, load: string -> LoadResult): (r: Result<map<string, string>, Failure>)
    ensures propertiesFile.None? ==> r == Ok(map[])
    ensures propertiesFile.Some? && load(propertiesFile.value).NotFound? ==> r == Ok(map[])
    ensures propertiesFile.Some? && load(propertiesFile.value).Loaded? ==> r == Ok(load(propertiesFile.value).entries)
    ensures r.Err? <==> propertiesFile.Some? && load(propertiesFile.value).Unreadable?
    ensures r.Err? ==> r.error == ExecutionFailed("Problem loading " + propertiesFile.value)
  {
    if propertiesFile.None? then Ok(map[])
    else match load(propertiesFile.value)
      case Loaded(entries) => Ok(entries)
      case NotFound => Ok(map[])
      case Unreadable => Err(ExecutionFailed("Problem loading " + propertiesFile.value))
  }

  /** StringBuffer.append of a String: a null one appends "null". */
  function Shown(s: Option<string>): string
  {
    if s.None? then "null" else s.value
  }

  /** toString's line for one key. */
  function PropertyLine(info: map<string, string>, key: string): string
  {
    "   " + key + "='" + (if key in info then info[key] else "<null>") + "'\n"
  }

  function PropertyLineOf(info: map<string, string>): string -> string
  {
    (key: string) => PropertyLine(info, key)
  }

  function Header(groupId: Option<string>, artifactId: Option<string>, version: Option<string>): string
  {
    "Info for " + Shown(groupId) + ":" + Shown(artifactId) + "-" + Shown(version) + " {\n"
  }

  /** toString: the header, one line per key in the bag's key order, and the closing brace. */
  function Describe(groupId: Option<string>, artifactId: Option<string>, version: Option<string>,
                    keys: seq<string>, info: map<string, string>): string
  {
    Header(groupId, artifactId, version) + FlatMap(keys, PropertyLineOf(info)) + "}\n"
  }

  /** Each key's line occurs in the lines of the keys. */
  lemma {:induction false} LinesContainEach(keys: seq<string>, info: map<string, string>, i: nat)
    requires i < |keys|
    ensures exists p :: OccursAt(FlatMap(keys, PropertyLineOf(info)), PropertyLine(info, keys[i]), p)
    decreases |keys|
  {
    var n := |keys| - 1;
    var before := FlatMap(keys[..n], PropertyLineOf(info));
    var last := PropertyLine(info, keys[n]);
    assert FlatMap(keys, PropertyLineOf(info)) == before + last;
    if i == n {
      OccursAfterAppend(before, last, last, 0);
    } else {
      LinesContainEach(keys[..n], info, i);
      assert keys[..n][i] == keys[i];
      var p :| OccursAt(before, PropertyLine(info, keys[i]), p);
      OccursAfterAppend(before, last, PropertyLine(info, keys[i]), p);
    }
  }

  /** Text occurring in the middle part of a concatenation occurs in the whole. */
  lemma ContainsInMiddle(a: string, b: string, c: string, t: string, p: int)
    requires OccursAt(b, t, p)
    ensures Contains(a + b + c, t)
  {
    var s := a + b + c;
    assert s[|a| + p..|a| + p + |t|] == b[p..p + |t|];
    assert OccursAt(s, t, |a| + p);
    ContainsIffOccurs(s, t);
  }

  /**
   * toString starts with the header naming the artifact, ends with the closing brace, and
   * holds the line "   k='v'" of every key of the bag when the keys are listed in full.
   */
  lemma DescribeShowsEveryEntry(groupId: Option<string>, artifactId: Option<string>, version: Option<string>,
                                keys: seq<string>, info: map<string, string>, k: string)
    requires Lists(keys, info.Keys)
    requires k in info
    ensures Header(groupId, artifactId, version) <= Describe(groupId, artifactId, version, keys, info)
    ensures EndsWith(Describe(groupId, artifactId, version, keys, info), "}\n")
    ensures Contains(Describe(groupId, artifactId, version, keys, info), "   " + k + "='" + info[k] + "'\n")
  {
    var head := Header(groupId, artifactId, version);
    var lines := FlatMap(keys, PropertyLineOf(info));
    var close := "}\n";
    var s := head + lines + close;
    assert s == Describe(groupId, artifactId, version, keys, info);
    assert s[..|head|] == head;
    assert s[|s| - |close|..] == close;
    var i :| 0 <= i < |keys| && keys[i] == k;
    LinesContainEach(keys, info, i);
    var p :| OccursAt(lines, PropertyLine(info, k), p);
    ContainsInMiddle(head, lines, close, PropertyLine(info, k), p);
  }

  /** The folder writeToPath makes under a path: new File(path, "META-INF/wix/"). */
  function PropertiesFolderUnder(path: string): string
  {
    Child(Child(path, "META-INF"), "wix")
  }

  class WixInfo {
    var groupId: Option<string>
    var artifactId: Option<string>
    var version: Option<string>
    var info: map<string, string>

    /** WixInfo(groupId, artifactId, version): an empty bag. */
    constructor (groupId: Option<string>, artifactId: Option<string>, version: Option<string>)
      ensures this.groupId == groupId && this.artifactId == artifactId && this.version == version
      ensures info == map[]
    {
      this.groupId, this.artifactId, this.version := groupId, artifactId, version;
      info := map[];
    }

    /** getProperty(key, default). */
    function GetProperty(key: Option<string>, default: Option<string>): Option<string>
      reads this
    {
      Lookup(info, key, default)
    }

    /** getCulture: the recorded cultures, null when none were recorded. */
    function GetCulture(): Option<string>
      reads this
    {
      GetProperty(Some(CulturesKey), None)
    }

    function GetPlatform(): Option<string>
      reads this
    {
      GetProperty(Some(PlatformsKey), None)
    }

    /** setCulture: a later getCulture gives the value back; the platforms are unchanged. */
    method SetCulture(value: string)
      modifies this
      ensures info == old(info)[CulturesKey := value]
      ensures groupId == old(groupId) && artifactId == old(artifactId) && version == old(version)
      ensures GetCulture() == Some(value) && GetPlatform() == old(GetPlatform())
    {
      info := info[CulturesKey := value];
    }

    /** setPlatform: a later getPlatform gives the value back; the cultures are unchanged. */
    method SetPlatform(value: string)
      modifies this
      ensures info == old(info)[PlatformsKey := value]
      ensures groupId == old(groupId) && artifactId == old(artifactId) && version == old(version)
      ensures GetPlatform() == Some(value) && GetCulture() == old(GetCulture())
    {
      info := info[PlatformsKey := value];
    }

    /** exists: the jar has the properties entry. */
    predicate ExistsIn(jar: Jar)
    {
      PropertiesEntry in jar
    }

    /**
     * read: the entry's properties are loaded over the bag, replacing values of keys it
     * already had. A jar without the entry fails (getInputStream of null) and changes nothing.
     */
    method Read(jar: Jar) returns (ok: bool)
      modifies this
      ensures ok <==> ExistsIn(jar)
      ensures ok ==> info == old(info) + jar[PropertiesEntry]
      ensures !ok ==> info == old(info)
      ensures groupId == old(groupId) && artifactId == old(artifactId) && version == old(version)
    {
      if PropertiesEntry !in jar {
        return false;
      }
      info := info + jar[PropertiesEntry];
      ok := true;
    }

    /** toString, with the bag's keys in the order its key set iterates them. */
    method ToString(order: set<string> -> seq<string>) returns (s: string)
      ensures s == Describe(groupId, artifactId, version, order(info.Keys), info)
    {
      s := Header(groupId, artifactId, version);
      var keys := order(info.Keys);
      var i := 0;
      while i < |keys|
        invariant 0 <= i <= |keys|
        invariant s == Header(groupId, artifactId, version) + FlatMap(keys[..i], PropertyLineOf(info))
      {
        FlatMapGrows(keys, PropertyLineOf(info), i);
        s := s + PropertyLine(info, keys[i]);
        i := i + 1;
      }
      assert keys[..i] == keys;
      s := s + "}\n";
    }

    /**
     * writeToPath: the folder META-INF\wix under the path is made when missing, then the bag
     * is stored as wix.properties in it; `stored` is whether the store succeeded.
     */
    method WriteToPath(fs: FileSystem, path: string, stored: bool) returns (steps: seq<Step>, ok: bool)
      ensures ok == stored
      ensures steps == MakeIfMissing(fs, {}, PropertiesFolderUnder(path))
                       + (if stored then [Do(StoreProperties(Child(PropertiesFolderUnder(path), PropertiesName), info))] else [])
    {
      var folder := PropertiesFolderUnder(path);
      steps := [];
      if !Exists(fs, folder) {
        steps := [Do(CreateDirectories(folder))];
      }
      if stored {
        steps := steps + [Do(StoreProperties(Child(folder, PropertiesName), info))];
      }
      ok := stored;
    }
  }

  /**
   * The two-step constructor WixInfo(groupId, artifactId, version, propertiesFile): the bag
   * InitialBag gives, or its failure.
   */
  method Open(groupId: Option<string>, artifactId: Option<string>, version: Option<string>,
              propertiesFile: Option<string>, load: string -> LoadResult) returns (r: Result<WixInfo, Failure>)
    ensures InitialBag(propertiesFile, load).Err? ==> r == Err(InitialBag(propertiesFile, load).error)
    ensures InitialBag(propertiesFile, load).Ok? ==>
      r.Ok? && fresh(r.value) && r.value.info == InitialBag(propertiesFile, load).value
      && r.value.groupId == groupId && r.value.artifactId == artifactId && r.value.version == version
  {
    var w := new WixInfo(groupId, artifactId, version);
    if propertiesFile.Some? {
      match load(propertiesFile.value)
      case Loaded(entries) =>
        w.info := w.info + entries;
        assert map[] + entries == entries;
      case NotFound =>
      case Unreadable =>
        return Err(ExecutionFailed("Problem loading " + propertiesFile.value));
    }
    r := Ok(w);
  }
}
