// The older net.sf.wix AbstractLinker, where it differs from the current one: addOptions
// binds only the existing source, resource and NAR folders, each folder is followed by
// two backslashes, and the link properties are passed with their keys unchanged, as
// candle passes its own. The scan patterns, link and execute are the current class's.
module LegacyLinker {
  import opened Wrappers
  import opened Files
  import opened Seqs
  import opened Runtime
  import opened JavaProperties
  import opened Linker
  import Candle

  /** The project folders the older addOptions considers. */
  datatype LegacyBindFolders = LegacyBindFolders(
    wxsInputDirectory: string,
    resourceDirectory: string,
    narUnpackDirectory: string)

  /** The folders addOptions adds, in order: those of the three that exist. */
  function LegacyAddedRoots(fs: FileSystem, d: LegacyBindFolders): seq<string>
  {
    IfExists(fs, d.wxsInputDirectory) + IfExists(fs, d.resourceDirectory) + IfExists(fs, d.narUnpackDirectory)
  }

  /**
   * A folder is added exactly when it is one of the three and exists; the current class
   * adds the same folders, then the unpack folder when it exists and the local repository.
   */
  lemma LegacyAddedRootsMembers(fs: FileSystem, d: LegacyBindFolders, unpackDirectory: string, localRepositoryBase: string,
                                x: string)
    ensures x in LegacyAddedRoots(fs, d) <==>
      Exists(fs, x) && x in {d.wxsInputDirectory, d.resourceDirectory, d.narUnpackDirectory}
    ensures AddedRoots(fs, BindFolders(d.wxsInputDirectory, d.resourceDirectory, d.narUnpackDirectory,
                                       unpackDirectory, localRepositoryBase))
      == LegacyAddedRoots(fs, d) + IfExists(fs, unpackDirectory) + [localRepositoryBase]
  {
  }

  /** One bind pair: "-b" and the folder followed by two backslashes. */
  function LegacyBind(root: string): seq<string>
  {
    ["-b", root + "\\\\"]
  }

  /** The bind arguments, one pair per folder in order. */
  function LegacyBindArgs(roots: seq<string>): seq<string>
  {
    FlatMap(roots, LegacyBind)
  }

  /**
   * "-b" then the folder with two trailing backslashes, per folder (the current class
   * passes one).
   */
  lemma {:induction false} LegacyBindArgsShape(roots: seq<string>)
    ensures |LegacyBindArgs(roots)| == 2 * |roots|
    ensures forall i :: 0 <= i < |roots| ==>
      LegacyBindArgs(roots)[2 * i] == "-b" && LegacyBindArgs(roots)[2 * i + 1] == roots[i] + "\\\\"
    decreases |roots|
  {
    if |roots| > 0 {
      var n := |roots| - 1;
      assert forall i :: 0 <= i < n ==> roots[..n][i] == roots[i];
      LegacyBindArgsShape(roots[..n]);
    }
  }

  /** Every folder of the set is passed, followed by two backslashes. */
  lemma LegacyBindArgsBindsEach(roots: seq<string>, dir: string)
    requires dir in roots
    ensures dir + "\\\\" in LegacyBindArgs(roots)
  {
    LegacyBindArgsShape(roots);
    var i :| 0 <= i < |roots| && roots[i] == dir;
    assert LegacyBindArgs(roots)[2 * i + 1] == dir + "\\\\";
  }

  /** The three conditional adds, one after the other, are one InsertAll of LegacyAddedRoots. */
  lemma LegacyAddedRootsSteps(fs: FileSystem, d: LegacyBindFolders, s0: seq<string>)
    ensures InsertAll(s0, LegacyAddedRoots(fs, d)) ==
      InsertAll(InsertAll(InsertAll(s0, IfExists(fs, d.wxsInputDirectory)), IfExists(fs, d.resourceDirectory)),
                IfExists(fs, d.narUnpackDirectory))
  {
    var w := IfExists(fs, d.wxsInputDirectory);
    var r := IfExists(fs, d.resourceDirectory);
    var n := IfExists(fs, d.narUnpackDirectory);
    InsertAllConcat(s0, w + r, n);
    InsertAllConcat(s0, w, r);
  }

  /** The loop of addOptions: "-b" and the folder with two backslashes, for each folder in order. */
  method LegacyEmitBindArgs(cl: CommandLine, roots: seq<string>)
    modifies cl
    ensures cl.arguments == old(cl.arguments) + LegacyBindArgs(roots)
    ensures cl.executable == old(cl.executable) && cl.workingDirectory == old(cl.workingDirectory)
  {
    var i := 0;
    while i < |roots|
      invariant 0 <= i <= |roots|
      invariant cl.arguments == old(cl.arguments) + LegacyBindArgs(roots[..i])
      invariant cl.executable == old(cl.executable) && cl.workingDirectory == old(cl.workingDirectory)
    {
      FlatMapGrows(roots, LegacyBind, i);
      cl.AddArguments(["-b", roots[i] + "\\\\"]);
      i := i + 1;
    }
    assert roots[..i] == roots;
  }

  /**
   * addOptions on the caller's insertion-ordered set: the existing project folders join
   * it, then every folder of the set is bound in order.
   */
  method LegacyAddOptions(cl: CommandLine, fs: FileSystem, d: LegacyBindFolders, roots: OrderedRoots)
    modifies cl, roots
    ensures roots.items == InsertAll(old(roots.items), LegacyAddedRoots(fs, d))
    ensures cl.arguments == old(cl.arguments) + LegacyBindArgs(roots.items)
    ensures cl.executable == old(cl.executable) && cl.workingDirectory == old(cl.workingDirectory)
  {
    ghost var start := roots.items;
    AddIfExists(roots, fs, d.wxsInputDirectory);
    AddIfExists(roots, fs, d.resourceDirectory);
    AddIfExists(roots, fs, d.narUnpackDirectory);
    LegacyAddedRootsSteps(fs, d, start);
    LegacyEmitBindArgs(cl, roots.items);
  }

  // ---- pass-through link properties ----

  /** No key is rewritten: a key starting "x--" keeps its name and its value. */
  lemma LegacyKeepsKeys()
    ensures Candle.OtherOptions(Some(Properties(["x--ext"], map["x--ext" := "v"]))) == ["x--ext", "v"]
    ensures OtherOptions(Some(Properties(["x--ext"], map["x--ext" := "v"]))) == ["-ext", "v"]
  {
    assert "x--" <= "x--ext";
    assert "x--ext"[2..] == "-ext";
  }

  /** Without "x--" keys the older and the current addOtherOptions pass the same arguments. */
  lemma LegacyAgreesWithoutRewrites(p: Properties)
    requires forall i :: 0 <= i < |p.keys| ==> !("x--" <= p.keys[i])
    ensures Candle.OtherOptions(Some(p)) == OtherOptions(Some(p))
  {
    if !IsEmpty(p) {
      SameArguments(p, p.keys);
    }
  }

  lemma {:induction false} SameArguments(p: Properties, keys: seq<string>)
    requires forall i :: 0 <= i < |keys| ==> !("x--" <= keys[i])
    ensures PassThrough(keys, (k: string) => GetProperty(p, k))
      == FlatMap(keys, PairOf(p))
    decreases |keys|
  {
    if |keys| > 0 {
      var n := |keys| - 1;
      assert forall i :: 0 <= i < n ==> keys[..n][i] == keys[i];
      SameArguments(p, keys[..n]);
      assert PassedKey(keys[n]) == keys[n];
    }
  }
}
