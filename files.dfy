// The file system as the plugin sees it: which paths exist, which are plain files and
// what a directory lists. Paths are absolute Windows paths held as text.
module Files {

  /** File.separatorChar on Windows, where the WiX tools run. */
  const Separator: char := '\\'

  datatype FileSystem = FileSystem(
    directories: set<string>,
    files: set<string>,
    /** File.listFiles of a directory, in the order the platform returns them. */
    listings: map<string, seq<string>>)

  /** File.exists. */
  predicate Exists(fs: FileSystem, path: string)
  {
    path in fs.directories || path in fs.files
  }

  /** File.isFile. */
  predicate IsFile(fs: FileSystem, path: string)
  {
    path in fs.files
  }

  /** File.isDirectory. */
  predicate IsDirectory(fs: FileSystem, path: string)
  {
    path in fs.directories
  }

  /** new File(parent, name).getPath(): the parent, one separator, then the name. */
  function Child(parent: string, name: string): string
  {
    parent + [Separator] + name
  }

  /** new File(toolDirectory, "bin/<name>"). */
  function ToolExecutable(toolDirectory: string, name: string): string
  {
    Child(Child(toolDirectory, "bin"), name)
  }

  /** File.getName: the text after the last separator. */
  function Name(path: string): string
  {
    if |path| == 0 then ""
    else if path[|path| - 1] == Separator then ""
    else Name(path[..|path| - 1]) + [path[|path| - 1]]
  }

  lemma {:induction false} NameOfChild(parent: string, name: string)
    requires Separator !in name
    ensures Name(Child(parent, name)) == name
    decreases |name|
  {
    if |name| > 0 {
      var p := Child(parent, name);
      assert p[..|p| - 1] == Child(parent, name[..|name| - 1]);
      NameOfChild(parent, name[..|name| - 1]);
      assert name[..|name| - 1] + [name[|name| - 1]] == name;
    }
  }

  /** File.getParent: the text before the last separator. */
  function Parent(path: string): string
  {
    if |path| == 0 then ""
    else if path[|path| - 1] == Separator then path[..|path| - 1]
    else Parent(path[..|path| - 1])
  }

  lemma {:induction false} ParentOfChild(parent: string, name: string)
    requires Separator !in name
    ensures Parent(Child(parent, name)) == parent
    decreases |name|
  {
    var p := Child(parent, name);
    if |name| == 0 {
      assert p[..|p| - 1] == parent;
    } else {
      assert p[..|p| - 1] == Child(parent, name[..|name| - 1]);
      ParentOfChild(parent, name[..|name| - 1]);
    }
  }
}
