// What the goals read of AbstractPackageable. That class is not part of this model: its
// culture specs, packaging, external cabinets and merge and pack levels are inputs here,
// and its ML_* and PL_* constants appear only through the tests the goals make with them.
module Packageable {
  import opened Wrappers

  /** Which merge-level constant the configured mergeLevel equals, ignoring case. */
  datatype MergeLevel = MergeLevel(isDefault: bool, isBase: bool, isTransform: bool, isRepack: bool)

  /** Which pack-level constants packLevel contains. */
  datatype PackLevel = PackLevel(usesDefault: bool, package: bool, wixpdb: bool, cultureCab: bool,
                                 cachedCab: bool, mst: bool)

  /**
   * The packaging, the package's file extension, the culture specs (none standing for
   * the neutral build), the base culture spec, the alternate culture specs, the number of
   * configured locales, the levels and the external cabinet names.
   */
  datatype Packaged = Packaged(
    packaging: string,
    packageOutputExtension: string,
    culturespecs: set<Option<string>>,
    baseCulturespec: Option<string>,
    alternateCulturespecs: set<string>,
    localeCount: nat,
    merge: MergeLevel,
    pack: PackLevel,
    externalCabs: seq<string>)
}
