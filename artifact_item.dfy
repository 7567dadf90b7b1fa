// ArtifactItem: the coordinates of an artifact named in the plugin configuration. A setter
// given the empty string stores null instead.
module ArtifactItems {
  import opened Wrappers

  /** The type an item has until one is set. */
  const DefaultType: string := "wixpdb"

  /** filterEmptyString: the empty string becomes null; null and every other value are kept. */
  function FilterEmptyString(s: Option<string>): (r: Option<string>)
    ensures r.None? <==> s.None? || s.value == ""
    ensures r.Some? ==> r == s
  {
    if s == Some("") then None else s
  }

  /** Filtering twice is filtering once, and a filtered value is never the empty string. */
  lemma FilterEmptyStringSettles(s: Option<string>)
    ensures FilterEmptyString(FilterEmptyString(s)) == FilterEmptyString(s)
    ensures FilterEmptyString(s) != Some("")
  {
  }

  class ArtifactItem {
    var groupId: Option<string>
    var artifactId: Option<string>
    /** null unless configured. */
    var version: Option<string>
    var artifactType: Option<string>

    /** A fresh item: no coordinates, no version, the type "wixpdb". */
    constructor ()
      ensures groupId.None? && artifactId.None? && version.None?
      ensures artifactType == Some(DefaultType)
    {
      groupId, artifactId, version := None, None, None;
      artifactType := Some(DefaultType);
    }

    method SetGroupId(value: Option<string>)
      modifies this
      ensures groupId == FilterEmptyString(value)
      ensures artifactId == old(artifactId) && version == old(version) && artifactType == old(artifactType)
    {
      groupId := FilterEmptyString(value);
    }

    method SetArtifactId(value: Option<string>)
      modifies this
      ensures artifactId == FilterEmptyString(value)
      ensures groupId == old(groupId) && version == old(version) && artifactType == old(artifactType)
    {
      artifactId := FilterEmptyString(value);
    }

    method SetType(value: Option<string>)
      modifies this
      ensures artifactType == FilterEmptyString(value)
      ensures groupId == old(groupId) && artifactId == old(artifactId) && version == old(version)
    {
      artifactType := FilterEmptyString(value);
    }

    method SetVersion(value: Option<string>)
      modifies this
      ensures version == FilterEmptyString(value)
      ensures groupId == old(groupId) && artifactId == old(artifactId) && artifactType == old(artifactType)
    {
      version := FilterEmptyString(value);
    }
  }
}
