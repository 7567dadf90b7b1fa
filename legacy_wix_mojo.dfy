// The older net.sf.wix AbstractWixMojo, where it differs from the current base class:
// without a base folder an output lands in a folder named after the platform, relative
// to the working directory, rather than under the project's base folder.
module LegacyWixMojo {
  import opened Wrappers
  import opened Files
  import WixMojo

  /** getOutputPath: [<base>\]<arch>[\<culture>]; without a base the path is relative. */
  function LegacyOutputPath(baseDir: Option<string>, arch: string, culture: Option<string>): string
  {
    var archDir := if baseDir.Some? then Child(baseDir.value, arch) else arch;
    if culture.Some? then Child(archDir, culture.value) else archDir
  }

  /** getOutput: <finalName>.<extension> inside the output path. */
  function LegacyOutput(baseDir: Option<string>, arch: string, culture: Option<string>,
                        finalName: string, extension: string): string
  {
    Child(LegacyOutputPath(baseDir, arch, culture), finalName + "." + extension)
  }

  /**
   * The layout of an output file. With a base folder it is where the current class puts
   * it; without one it starts with the platform's name, and the current class puts it
   * under the project's base folder instead.
   */
  lemma LegacyOutputLayout(projectBasedir: string, baseDir: Option<string>, arch: string, culture: Option<string>,
                           finalName: string, extension: string)
    ensures var tail := arch + (if culture.Some? then "\\" + culture.value else "") + "\\" + finalName + "." + extension;
      && (baseDir.None? ==> LegacyOutput(baseDir, arch, culture, finalName, extension) == tail)
      && (baseDir.Some? ==> LegacyOutput(baseDir, arch, culture, finalName, extension) == baseDir.value + "\\" + tail)
    ensures baseDir.Some? ==>
      LegacyOutput(baseDir, arch, culture, finalName, extension)
      == WixMojo.Output(projectBasedir, baseDir, arch, culture, finalName, extension)
    ensures baseDir.None? ==>
      WixMojo.Output(projectBasedir, baseDir, arch, culture, finalName, extension)
      == projectBasedir + "\\" + LegacyOutput(baseDir, arch, culture, finalName, extension)
  {
    var name := finalName + "." + extension;
    var legacyDir := LegacyOutputPath(baseDir, arch, culture);
    var tailDir := arch + (if culture.Some? then "\\" + culture.value else "");
    assert LegacyOutput(baseDir, arch, culture, finalName, extension) == legacyDir + "\\" + name;
    if baseDir.None? {
      assert legacyDir == tailDir;
      assert WixMojo.OutputPath(projectBasedir, baseDir, arch, culture) == projectBasedir + "\\" + legacyDir;
    } else {
      assert legacyDir == baseDir.value + "\\" + tailDir;
      assert WixMojo.OutputPath(projectBasedir, baseDir, arch, culture) == legacyDir;
    }
  }
}
