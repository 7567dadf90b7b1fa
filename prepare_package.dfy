// PreparePackageMojo: records the cultures and platforms of the build in the artifact's
// wix.properties, for the builds that depend on it. The net.sf.wix copy of the goal is the
// same code.
module PreparePackage {
  import opened Wrappers
  import opened JavaText
  import opened Files
  import opened Seqs
  import opened Runtime
  import opened WixMojo
  import opened Packageable
  import opened Plans
  import opened WixInfos

  datatype PrepareConfig = PrepareConfig(
    skip: bool,
    groupId: Option<string>,
    artifactId: Option<string>,
    version: Option<string>,
    buildOutputDirectory: string,
    packaged: Packaged)

  /** The file system, the iteration order of a string set, and whether storing the file succeeds. */
  datatype PrepareBuild = PrepareBuild(
    fs: FileSystem,
    order: set<string> -> seq<string>,
    stored: bool)

  /** The cultures of the set that are not the neutral (null) culture. */
  function Named(culturespecs: set<Option<string>>): set<string>
  {
    set c | c in culturespecs && c.Some? :: c.value
  }

  /** The recorded cultures: "neutral" when the set holds the null culture, else the cultures joined by commas. */
  function CultureValue(culturespecs: set<Option<string>>, order: set<string> -> seq<string>): string
  {
    if None in culturespecs then "neutral" else Join(order(Named(culturespecs)), ',')
  }

  /** The recorded platforms: getPlatforms joined by commas. */
  function PlatformValue(platforms: Option<set<string>>, order: set<string> -> seq<string>): string
  {
    Join(order(DefaultPlatforms(platforms)), ',')
  }

  /** The bag written: the cultures and the platforms, nothing else. */
  function PreparedEntries(cfg: PrepareConfig, b: PrepareBuild, platforms: Option<set<string>>): map<string, string>
  {
    map[CulturesKey := CultureValue(cfg.packaged.culturespecs, b.order), PlatformsKey := PlatformValue(platforms, b.order)]
  }

  /**
   * execute: nothing when skipped; else the properties folder under the build output
   * directory made when missing, then the bag stored, or a failure when it cannot be.
   */
  function PreparePlan(cfg: PrepareConfig, b: PrepareBuild, platforms: Option<set<string>>): seq<Step>
  {
    if cfg.skip then []
    else
      var folder := PropertiesFolderUnder(cfg.buildOutputDirectory);
      MakeIfMissing(b.fs, {}, folder)
      + if b.stored then [Do(StoreProperties(Child(folder, PropertiesName), PreparedEntries(cfg, b, platforms)))]
        else [Throw(ExecutionFailed("Cannot write properties file"))]
  }

  /**
   * Reading the recorded platforms back: splitting the value at commas gives the platforms
   * in the order they were written, when no platform name is empty or holds a comma.
   */
  lemma PlatformsReadBack(platforms: Option<set<string>>, order: set<string> -> seq<string>)
    requires Lists(order(DefaultPlatforms(platforms)), DefaultPlatforms(platforms))
    requires forall p :: p in DefaultPlatforms(platforms) ==> p != "" && ',' !in p
    ensures Split(PlatformValue(platforms, order), ',') == order(DefaultPlatforms(platforms))
    ensures Elements(Split(PlatformValue(platforms, order), ',')) == DefaultPlatforms(platforms)
  {
    var xs := order(DefaultPlatforms(platforms));
    DefaultPlatformsNeverEmpty(platforms);
    ListsCard(xs, DefaultPlatforms(platforms));
    assert xs[|xs| - 1] in DefaultPlatforms(platforms);
    assert forall k :: 0 <= k < |xs| ==> xs[k] in DefaultPlatforms(platforms);
    SplitOfJoin(xs, ',');
  }

  /**
   * Reading the recorded cultures back: "neutral" when the build has the neutral culture;
   * otherwise the cultures in the order they were written, when there is at least one and no
   * culture is empty or holds a comma.
   */
  lemma CulturesReadBack(culturespecs: set<Option<string>>, order: set<string> -> seq<string>)
    requires Lists(order(Named(culturespecs)), Named(culturespecs))
    requires forall c :: c in Named(culturespecs) ==> c != "" && ',' !in c
    ensures None in culturespecs ==> CultureValue(culturespecs, order) == "neutral"
    ensures None !in culturespecs && culturespecs != {} ==>
      Split(CultureValue(culturespecs, order), ',') == order(Named(culturespecs))
  {
    if None !in culturespecs && culturespecs != {} {
      var c :| c in culturespecs;
      assert c.value in Named(culturespecs);
      var xs := order(Named(culturespecs));
      ListsCard(xs, Named(culturespecs));
      assert xs[|xs| - 1] in Named(culturespecs);
      assert forall k :: 0 <= k < |xs| ==> xs[k] in Named(culturespecs);
      SplitOfJoin(xs, ',');
    }
  }

  /** execute as the goal runs it: a fresh WixInfo, its two setters, then writeToPath. */
  method PrepareExecute(cfg: PrepareConfig, b: PrepareBuild, setting: PlatformSetting) returns (plan: seq<Step>)
    modifies setting
    ensures plan == PreparePlan(cfg, b, old(setting.platforms))
  {
    if cfg.skip {
      return [];
    }
    var info := new WixInfo(cfg.groupId, cfg.artifactId, cfg.version);
    var cultures := cfg.packaged.culturespecs;
    if None in cultures {
      info.SetCulture("neutral");
    } else {
      info.SetCulture(Join(b.order(Named(cultures)), ','));
    }
    var platforms := setting.GetPlatforms();
    info.SetPlatform(Join(b.order(platforms), ','));
    assert info.info == PreparedEntries(cfg, b, old(setting.platforms));
    var steps, ok := info.WriteToPath(b.fs, cfg.buildOutputDirectory, b.stored);
    plan := steps;
    if !ok {
      plan := plan + [Throw(ExecutionFailed("Cannot write properties file"))];
    }
  }
}
