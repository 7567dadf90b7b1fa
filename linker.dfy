// AbstractLinker: what light and lit share. The default scan patterns, the sorted
// locale list, the bind paths (-b), the pass-through link properties, the linker's
// output classification and the skip switch of execute.
module Linker {
  import opened Wrappers
  import opened JavaText
  import opened Files
  import opened Seqs
  import opened Runtime
  import opened JavaProperties

  /** The stdout markers the linker's consumer looks for. */
  const ErrorMarker := " : error "
  const WarningMarker := " : warning "

  /** The scan patterns used when none are configured. */
  const DefaultIncludes: set<string> := {"**/*.wixlib", "**/*.wixobj"}
  const DefaultLocaleIncludes: set<string> := {"**/*.wxl"}

  // ---- asSortedList ----

  /**
   * File.compareTo on Windows: the paths compared character by character with ASCII
   * case folded, a proper prefix coming first.
   */
  predicate NotAfter(a: string, b: string)
    decreases |a|
  {
    |a| == 0
    || (|b| > 0 && (Lower(a[0]) < Lower(b[0]) || (Lower(a[0]) == Lower(b[0]) && NotAfter(a[1..], b[1..]))))
  }

  lemma {:induction false} NotAfterTotal(a: string, b: string)
    ensures NotAfter(a, b) || NotAfter(b, a)
    decreases |a|
  {
    if |a| > 0 && |b| > 0 && Lower(a[0]) == Lower(b[0]) {
      NotAfterTotal(a[1..], b[1..]);
    }
  }

  lemma {:induction false} NotAfterTransitive(a: string, b: string, c: string)
    requires NotAfter(a, b) && NotAfter(b, c)
    ensures NotAfter(a, c)
    decreases |a|
  {
    if |a| > 0 && Lower(a[0]) == Lower(b[0]) && Lower(b[0]) == Lower(c[0]) {
      NotAfterTransitive(a[1..], b[1..], c[1..]);
    }
  }

  predicate Sorted(xs: seq<string>)
  {
    forall i, j :: 0 <= i < j < |xs| ==> NotAfter(xs[i], xs[j])
  }

  /** Places x in front of the first element it does not come after. */
  function InsertSorted(x: string, xs: seq<string>): seq<string>
  {
    if |xs| == 0 then [x]
    else if NotAfter(x, xs[0]) then [x] + xs
    else [xs[0]] + InsertSorted(x, xs[1..])
  }

  /** asSortedList: Collections.sort over the collection's elements. */
  function SortedList(xs: seq<string>): seq<string>
  {
    if |xs| == 0 then [] else InsertSorted(xs[0], SortedList(xs[1..]))
  }

  lemma {:induction false} InsertSortedKeeps(x: string, xs: seq<string>)
    requires Sorted(xs)
    ensures Sorted(InsertSorted(x, xs))
    ensures multiset(InsertSorted(x, xs)) == multiset(xs) + multiset{x}
    decreases |xs|
  {
    if |xs| > 0 {
      if NotAfter(x, xs[0]) {
        forall j | 0 < j < |xs|
          ensures NotAfter(x, xs[j])
        {
          NotAfterTransitive(x, xs[0], xs[j]);
        }
        ConsSorted(x, xs);
      } else {
        NotAfterTotal(x, xs[0]);
        var rest := InsertSorted(x, xs[1..]);
        assert Sorted(xs[1..]);
        InsertSortedKeeps(x, xs[1..]);
        assert xs == [xs[0]] + xs[1..];
        HeadBeforeRest(x, xs, rest);
        ConsSorted(xs[0], rest);
      }
    }
  }

  /** An element that comes after none of a sorted sequence can lead it. */
  lemma ConsSorted(y: string, ys: seq<string>)
    requires Sorted(ys)
    requires forall j :: 0 <= j < |ys| ==> NotAfter(y, ys[j])
    ensures Sorted([y] + ys)
  {
    var s := [y] + ys;
    forall i, j | 0 <= i < j < |s|
      ensures NotAfter(s[i], s[j])
    {
      assert s[j] == ys[j - 1];
      if i > 0 {
        assert s[i] == ys[i - 1];
      }
    }
  }

  /** The head of a sorted sequence comes after none of its tail with x inserted, when x comes after it. */
  lemma HeadBeforeRest(x: string, xs: seq<string>, rest: seq<string>)
    requires |xs| > 0 && Sorted(xs) && NotAfter(xs[0], x)
    requires multiset(rest) == multiset(xs[1..]) + multiset{x}
    ensures forall j :: 0 <= j < |rest| ==> NotAfter(xs[0], rest[j])
  {
    forall j | 0 <= j < |rest|
      ensures NotAfter(xs[0], rest[j])
    {
      assert rest[j] in multiset(rest);
      if rest[j] != x {
        assert rest[j] in multiset(xs[1..]);
        var k :| 0 <= k < |xs[1..]| && xs[1..][k] == rest[j];
        assert xs[k + 1] == rest[j];
      }
    }
  }

  /** asSortedList returns the collection's elements, each as often as given, in order. */
  lemma {:induction false} SortedListIsSortedPermutation(xs: seq<string>)
    ensures Sorted(SortedList(xs))
    ensures multiset(SortedList(xs)) == multiset(xs)
    decreases |xs|
  {
    if |xs| > 0 {
      SortedListIsSortedPermutation(xs[1..]);
      InsertSortedKeeps(xs[0], SortedList(xs[1..]));
      assert xs == [xs[0]] + xs[1..];
    }
  }

  // ---- the scan patterns ----

  /** A configured pattern set is kept; an empty one gets the defaults. */
  function Patterns(configured: set<string>, defaults: set<string>): set<string>
  {
    if configured == {} then defaults else configured
  }

  /** The defaults apply exactly when nothing is configured, and a second call changes nothing. */
  lemma PatternsDefaulted(configured: set<string>, defaults: set<string>)
    ensures configured == {} ==> Patterns(configured, defaults) == defaults
    ensures configured != {} ==> Patterns(configured, defaults) == configured
    ensures Patterns(Patterns(configured, defaults), defaults) == Patterns(configured, defaults)
    ensures defaults != {} ==> Patterns(configured, defaults) != {}
  {
  }

  /** The linker's own state: its scan patterns and the bind folders lit keeps adding to. */
  class LinkerSettings {
    var intIncludes: set<string>
    var intExcludes: set<string>
    var wxlIncludes: set<string>
    var wxlExcludes: set<string>
    var fileSourceRoots: set<string>

    constructor (intIncludes: set<string>, intExcludes: set<string>, wxlIncludes: set<string>,
                 wxlExcludes: set<string>, fileSourceRoots: set<string>)
      ensures this.intIncludes == intIncludes && this.intExcludes == intExcludes
      ensures this.wxlIncludes == wxlIncludes && this.wxlExcludes == wxlExcludes
      ensures this.fileSourceRoots == fileSourceRoots
    {
      this.intIncludes := intIncludes;
      this.intExcludes := intExcludes;
      this.wxlIncludes := wxlIncludes;
      this.wxlExcludes := wxlExcludes;
      this.fileSourceRoots := fileSourceRoots;
    }

    /** getIncludes: fills the field with the defaults when it is empty. */
    method GetIncludes() returns (r: set<string>)
      modifies this
      ensures r == Patterns(old(intIncludes), DefaultIncludes) && intIncludes == r
      ensures intExcludes == old(intExcludes) && wxlIncludes == old(wxlIncludes)
      ensures wxlExcludes == old(wxlExcludes) && fileSourceRoots == old(fileSourceRoots)
    {
      if intIncludes == {} {
        intIncludes := intIncludes + {"**/*.wixlib"};
        intIncludes := intIncludes + {"**/*.wixobj"};
      }
      r := intIncludes;
    }

    /** getLocaleIncludes: fills the field with the default when it is empty. */
    method GetLocaleIncludes() returns (r: set<string>)
      modifies this
      ensures r == Patterns(old(wxlIncludes), DefaultLocaleIncludes) && wxlIncludes == r
      ensures intIncludes == old(intIncludes) && intExcludes == old(intExcludes)
      ensures wxlExcludes == old(wxlExcludes) && fileSourceRoots == old(fileSourceRoots)
    {
      if wxlIncludes == {} {
        wxlIncludes := wxlIncludes + {"**/*.wxl"};
      }
      r := wxlIncludes;
    }

    /** fileSourceRoots.add: lit's locale folder joins the bind folders for good. */
    method AddFileSourceRoot(dir: string)
      modifies this
      ensures fileSourceRoots == old(fileSourceRoots) + {dir}
      ensures intIncludes == old(intIncludes) && intExcludes == old(intExcludes)
      ensures wxlIncludes == old(wxlIncludes) && wxlExcludes == old(wxlExcludes)
    {
      fileSourceRoots := fileSourceRoots + {dir};
    }

    /** One `if (dir.exists()) set.add(dir)` of addOptions. */
    method AddIfExists(fs: FileSystem, dir: string)
      modifies this
      ensures fileSourceRoots == old(fileSourceRoots) + Elements(IfExists(fs, dir))
      ensures intIncludes == old(intIncludes) && intExcludes == old(intExcludes)
      ensures wxlIncludes == old(wxlIncludes) && wxlExcludes == old(wxlExcludes)
    {
      ElementsSingle(dir);
      if Exists(fs, dir) {
        fileSourceRoots := fileSourceRoots + {dir};
      }
    }

    /**
     * addOptions given the field itself, as lit does: the added folders stay in the set,
     * and "-b" follows the set's iteration order.
     */
    method AddOptions(cl: CommandLine, fs: FileSystem, d: BindFolders, order: set<string> -> seq<string>)
      modifies this, cl
      ensures fileSourceRoots == old(fileSourceRoots) + Elements(AddedRoots(fs, d))
      ensures cl.arguments == old(cl.arguments) + BindArgs(order(fileSourceRoots))
      ensures cl.executable == old(cl.executable) && cl.workingDirectory == old(cl.workingDirectory)
      ensures intIncludes == old(intIncludes) && intExcludes == old(intExcludes)
      ensures wxlIncludes == old(wxlIncludes) && wxlExcludes == old(wxlExcludes)
    {
      AddRoots(fs, d);
      EmitBindArgs(cl, order(fileSourceRoots));
    }

    /** The folders addOptions puts in the set: the project folders that exist, then the local repository. */
    method AddRoots(fs: FileSystem, d: BindFolders)
      modifies this
      ensures fileSourceRoots == old(fileSourceRoots) + Elements(AddedRoots(fs, d))
      ensures intIncludes == old(intIncludes) && intExcludes == old(intExcludes)
      ensures wxlIncludes == old(wxlIncludes) && wxlExcludes == old(wxlExcludes)
    {
      AddIfExists(fs, d.wxsInputDirectory);
      AddIfExists(fs, d.resourceDirectory);
      AddIfExists(fs, d.narUnpackDirectory);
      AddIfExists(fs, d.unpackDirectory);
      fileSourceRoots := fileSourceRoots + {d.localRepositoryBase};
      AddedRootsElements(fs, d);
    }
  }

  // ---- bind paths ----

  /** The folders addOptions considers, besides the ones the caller collected. */
  datatype BindFolders = BindFolders(
    wxsInputDirectory: string,
    resourceDirectory: string,
    narUnpackDirectory: string,
    unpackDirectory: string,
    localRepositoryBase: string)

  /** The folders addOptions adds, in order: the four project folders that exist, then the local repository. */
  function AddedRoots(fs: FileSystem, d: BindFolders): seq<string>
  {
    IfExists(fs, d.wxsInputDirectory) + IfExists(fs, d.resourceDirectory)
    + IfExists(fs, d.narUnpackDirectory) + IfExists(fs, d.unpackDirectory) + [d.localRepositoryBase]
  }

  function IfExists(fs: FileSystem, dir: string): (r: seq<string>)
    ensures Exists(fs, dir) ==> r == [dir]
    ensures !Exists(fs, dir) ==> r == []
  {
    if Exists(fs, dir) then [dir] else []
  }

  /** The added folders as a set: one part per folder addOptions considers. */
  lemma AddedRootsElements(fs: FileSystem, d: BindFolders)
    ensures Elements(AddedRoots(fs, d))
      == Elements(IfExists(fs, d.wxsInputDirectory)) + Elements(IfExists(fs, d.resourceDirectory))
         + Elements(IfExists(fs, d.narUnpackDirectory)) + Elements(IfExists(fs, d.unpackDirectory))
         + {d.localRepositoryBase}
  {
    var w, r := IfExists(fs, d.wxsInputDirectory), IfExists(fs, d.resourceDirectory);
    var n, u := IfExists(fs, d.narUnpackDirectory), IfExists(fs, d.unpackDirectory);
    ElementsConcat(w, r);
    ElementsConcat(w + r, n);
    ElementsConcat(w + r + n, u);
    ElementsConcat(w + r + n + u, [d.localRepositoryBase]);
    ElementsSingle(d.localRepositoryBase);
  }

  /** A folder is added exactly when it is an existing project folder or the local repository. */
  lemma AddedRootsMembers(fs: FileSystem, d: BindFolders, x: string)
    ensures x in AddedRoots(fs, d) <==>
      x == d.localRepositoryBase
      || (Exists(fs, x) && x in {d.wxsInputDirectory, d.resourceDirectory, d.narUnpackDirectory, d.unpackDirectory})
    ensures AddedRoots(fs, d)[|AddedRoots(fs, d)| - 1] == d.localRepositoryBase
  {
  }

  /** The bind arguments: "-b" and the folder with a trailing backslash, per folder in order. */
  function BindArgs(roots: seq<string>): seq<string>
  {
    FlatMap(roots, (r: string) => ["-b", r + "\\"])
  }

  lemma {:induction false} BindArgsShape(roots: seq<string>)
    ensures |BindArgs(roots)| == 2 * |roots|
    ensures forall i :: 0 <= i < |roots| ==> BindArgs(roots)[2 * i] == "-b" && BindArgs(roots)[2 * i + 1] == roots[i] + "\\"
    decreases |roots|
  {
    if |roots| > 0 {
      var n := |roots| - 1;
      assert forall i :: 0 <= i < n ==> roots[..n][i] == roots[i];
      BindArgsShape(roots[..n]);
    }
  }

  /** LinkedHashSet.addAll in order: each folder appended unless already present. */
  function InsertAll(xs: seq<string>, ys: seq<string>): (r: seq<string>)
    ensures |xs| <= |r|
    decreases |ys|
  {
    if |ys| == 0 then xs else InsertAll(Insert(xs, ys[0]), ys[1..])
  }

  /** The insertion-ordered set stays free of duplicates and holds exactly both groups. */
  lemma {:induction false} InsertAllKeeps(xs: seq<string>, ys: seq<string>)
    ensures Distinct(xs) ==> Distinct(InsertAll(xs, ys))
    ensures Elements(InsertAll(xs, ys)) == Elements(xs) + Elements(ys)
    ensures InsertAll(xs, ys)[..|xs|] == xs
    decreases |ys|
  {
    if |ys| > 0 {
      InsertAllKeeps(Insert(xs, ys[0]), ys[1..]);
      assert Elements(ys) == {ys[0]} + Elements(ys[1..]);
    }
  }

  /**
   * An insertion-ordered set of folders (LinkedHashSet<String>), as light hands it to
   * addOptions; iteration is insertion order.
   */
  class OrderedRoots {
    var items: seq<string>

    constructor (initial: seq<string>)
      ensures items == initial
    {
      items := initial;
    }

    method Add(x: string)
      modifies this
      ensures items == Insert(old(items), x)
    {
      if x !in items {
        items := items + [x];
      }
    }
  }

  /** addOptions over an insertion-ordered set: the folders are added, then each is bound in order. */
  method AddOptionsOrdered(cl: CommandLine, fs: FileSystem, d: BindFolders, roots: OrderedRoots)
    modifies cl, roots
    ensures roots.items == InsertAll(old(roots.items), AddedRoots(fs, d))
    ensures cl.arguments == old(cl.arguments) + BindArgs(roots.items)
    ensures cl.executable == old(cl.executable) && cl.workingDirectory == old(cl.workingDirectory)
  {
    ghost var start := roots.items;
    AddIfExists(roots, fs, d.wxsInputDirectory);
    AddIfExists(roots, fs, d.resourceDirectory);
    AddIfExists(roots, fs, d.narUnpackDirectory);
    AddIfExists(roots, fs, d.unpackDirectory);
    roots.Add(d.localRepositoryBase);
    AddedRootsSteps(fs, d, start);
    EmitBindArgs(cl, roots.items);
  }

  /** One conditional add of addOptions. */
  method AddIfExists(roots: OrderedRoots, fs: FileSystem, dir: string)
    modifies roots
    ensures roots.items == InsertAll(old(roots.items), IfExists(fs, dir))
  {
    if Exists(fs, dir) {
      roots.Add(dir);
    }
  }

  /** The five adds of addOptions, one after the other, are one InsertAll of AddedRoots. */
  lemma AddedRootsSteps(fs: FileSystem, d: BindFolders, s0: seq<string>)
    ensures InsertAll(s0, AddedRoots(fs, d)) ==
      Insert(InsertAll(InsertAll(InsertAll(InsertAll(s0, IfExists(fs, d.wxsInputDirectory)),
        IfExists(fs, d.resourceDirectory)), IfExists(fs, d.narUnpackDirectory)), IfExists(fs, d.unpackDirectory)),
        d.localRepositoryBase)
  {
    var w := IfExists(fs, d.wxsInputDirectory);
    var r := IfExists(fs, d.resourceDirectory);
    var n := IfExists(fs, d.narUnpackDirectory);
    var u := IfExists(fs, d.unpackDirectory);
    InsertAllConcat(s0, w + r + n + u, [d.localRepositoryBase]);
    InsertAllConcat(s0, w + r + n, u);
    InsertAllConcat(s0, w + r, n);
    InsertAllConcat(s0, w, r);
    assert [d.localRepositoryBase][1..] == [];
  }

  lemma {:induction false} InsertAllConcat(xs: seq<string>, ys: seq<string>, zs: seq<string>)
    ensures InsertAll(xs, ys + zs) == InsertAll(InsertAll(xs, ys), zs)
    decreases |ys|
  {
    if |ys| > 0 {
      assert (ys + zs)[1..] == ys[1..] + zs;
      InsertAllConcat(Insert(xs, ys[0]), ys[1..], zs);
    } else {
      assert ys + zs == zs;
    }
  }

  /** The loop of addOptions: "-b", folder + "\" for each folder in iteration order. */
  method EmitBindArgs(cl: CommandLine, roots: seq<string>)
    modifies cl
    ensures cl.arguments == old(cl.arguments) + BindArgs(roots)
    ensures cl.executable == old(cl.executable) && cl.workingDirectory == old(cl.workingDirectory)
  {
    var i := 0;
    while i < |roots|
      invariant 0 <= i <= |roots|
      invariant cl.arguments == old(cl.arguments) + BindArgs(roots[..i])
      invariant cl.executable == old(cl.executable) && cl.workingDirectory == old(cl.workingDirectory)
    {
      FlatMapGrows(roots, (r: string) => ["-b", r + "\\"], i);
      cl.AddArguments(["-b", roots[i] + "\\"]);
      i := i + 1;
    }
    assert roots[..i] == roots;
  }

  /**
   * The bind list is duplicate free and holds exactly the collected folders and the added
   * ones; the collected folders keep their places in front.
   */
  lemma OrderedBindList(fs: FileSystem, d: BindFolders, roots: seq<string>)
    requires Distinct(roots)
    ensures var items := InsertAll(roots, AddedRoots(fs, d));
      && Distinct(items)
      && Elements(items) == Elements(roots) + Elements(AddedRoots(fs, d))
      && items[..|roots|] == roots
  {
    InsertAllKeeps(roots, AddedRoots(fs, d));
  }

  // ---- pass-through link properties ----

  /** Keys starting "x--" lose their first two characters, so "x--foo" is passed as "-foo". */
  function PassedKey(key: string): (r: string)
    ensures "x--" <= key ==> r == key[2..] && |r| == |key| - 2
    ensures !("x--" <= key) ==> r == key
  {
    if "x--" <= key then key[2..] else key
  }

  /**
   * addOtherOptions as written: the key is rewritten before its value is looked up, so the
   * value of an "x--" key is searched under the rewritten key.
   */
  function OtherOptionsAsWritten(p: Option<Properties>): seq<string>
  {
    if p.None? || IsEmpty(p.value) then []
    else FlatMap(p.value.keys, AsWrittenPairOf(p.value))
  }

  /** One key's arguments as written: the rewritten key, then the value found under it. */
  function AsWrittenPairOf(p: Properties): string -> seq<string>
  {
    (k: string) => [PassedKey(k)] + (if GetProperty(p, PassedKey(k)).Some? then [GetProperty(p, PassedKey(k)).value] else [])
  }

  /** The value of an "x--" key is lost: {"x--ext": "v"} passes "-ext" alone. */
  lemma OtherOptionsAsWrittenDropsValue()
    ensures OtherOptionsAsWritten(Some(Properties(["x--ext"], map["x--ext" := "v"]))) == ["-ext"]
    ensures OtherOptions(Some(Properties(["x--ext"], map["x--ext" := "v"]))) == ["-ext", "v"]
  {
    var k := "x--ext";
    var p := Properties([k], map[k := "v"]);
    assert PassedKey(k) == "-ext" by {
      assert "x--" <= k;
      assert k[2..] == "-ext";
    }
    assert p.values.Keys == {k};
    assert !IsEmpty(p);
    assert GetProperty(p, "-ext") == None by {
      assert "-ext" != k;
    }
    FlatMapOne(k, AsWrittenPairOf(p));
    FlatMapOne(k, PairOf(p));
  }

  /** addOtherOptions as intended: each key, rewritten, followed by its own value. */
  function OtherOptions(p: Option<Properties>): seq<string>
  {
    if p.None? || IsEmpty(p.value) then []
    else FlatMap(p.value.keys, PairOf(p.value))
  }

  /** One key's arguments: the key, rewritten, then its value when it has one. */
  function PairOf(p: Properties): string -> seq<string>
  {
    (k: string) => [PassedKey(k)] + (if GetProperty(p, k).Some? then [GetProperty(p, k).value] else [])
  }

  /**
   * For well-formed properties every key is passed, rewritten, and followed by its value:
   * the list alternates key and value.
   */
  lemma {:induction false} OtherOptionsPairs(p: Properties)
    requires WellFormed(p)
    ensures var r := OtherOptions(Some(p));
      && (IsEmpty(p) ==> r == [])
      && (!IsEmpty(p) ==>
            && |r| == 2 * |p.keys|
            && forall i :: 0 <= i < |p.keys| ==>
                 r[2 * i] == PassedKey(p.keys[i]) && r[2 * i + 1] == p.values[p.keys[i]])
  {
    if !IsEmpty(p) {
      PairsOf(p, p.keys);
    }
  }

  lemma {:induction false} PairsOf(p: Properties, keys: seq<string>)
    requires forall i :: 0 <= i < |keys| ==> keys[i] in p.values
    ensures var r := FlatMap(keys, PairOf(p));
      && |r| == 2 * |keys|
      && forall i :: 0 <= i < |keys| ==> r[2 * i] == PassedKey(keys[i]) && r[2 * i + 1] == p.values[keys[i]]
    decreases |keys|
  {
    if |keys| > 0 {
      var n := |keys| - 1;
      assert forall i :: 0 <= i < n ==> keys[..n][i] == keys[i];
      PairsOf(p, keys[..n]);
    }
  }

  /** The loop of addOtherOptions, collecting the arguments before they are added at once. */
  method PassThroughArguments(p: Properties) returns (result: seq<string>)
    ensures result == FlatMap(p.keys, PairOf(p))
  {
    result := [];
    var i := 0;
    while i < |p.keys|
      invariant 0 <= i <= |p.keys|
      invariant result == FlatMap(p.keys[..i], PairOf(p))
    {
      FlatMapGrows(p.keys, PairOf(p), i);
      var key := p.keys[i];
      result := result + [PassedKey(key)];
      var value := GetProperty(p, key);
      if value.Some? {
        result := result + [value.value];
      }
      i := i + 1;
    }
    assert p.keys[..i] == p.keys;
  }

  /** addOtherOptions: nothing for absent or empty properties. */
  method AddOtherOptions(cl: CommandLine, p: Option<Properties>)
    modifies cl
    ensures cl.arguments == old(cl.arguments) + OtherOptions(p)
    ensures cl.executable == old(cl.executable) && cl.workingDirectory == old(cl.workingDirectory)
  {
    if p.Some? && !IsEmpty(p.value) {
      var result := PassThroughArguments(p.value);
      cl.AddArguments(result);
    }
  }

  // ---- link and execute ----

  /** link: a linker run; a non-zero exit fails with the return code but without the command line. */
  function LinkStep(call: Invocation): (r: Step)
    ensures r.Call? && r.call == call && !r.showsCommand
  {
    Call("linker", false, call)
  }

  /** The linker's consumer: " : error " lines are errors, " : warning " lines warnings. */
  function LinkRating(verbose: bool, stdout: seq<string>, stderr: seq<string>): RatedOutput
  {
    RateRun(ErrorMarker, WarningMarker, verbose, stdout, stderr)
  }

  /**
   * A linker run fails exactly when it cannot start or exits non-zero, and then with the
   * return code; its lines are rated by the linker markers, stderr always as errors.
   */
  lemma LinkOutcome(call: Invocation, tool: Tool, verbose: bool)
    ensures Perform([LinkStep(call)], tool).Completed? <==> tool(call).Exited? && tool(call).exitCode == 0
    ensures tool(call).Exited? && tool(call).exitCode != 0 ==>
      Perform([LinkStep(call)], tool) == Failed([Ran(call)], ToolFailed("linker", tool(call).exitCode, None))
    ensures tool(call).Exited? ==>
      var r := LinkRating(verbose, tool(call).stdout, tool(call).stderr);
      forall i :: 0 <= i < |tool(call).stderr| ==> r.stderr[i] == Error
  {
    if tool(call).Exited? {
      RateRunProperties(ErrorMarker, WarningMarker, verbose, tool(call).stdout, tool(call).stderr);
    }
  }

  /** execute: nothing when skipped; otherwise the output folder is made and multilink runs. */
  function ExecutePlan(skip: bool, outputDirectory: Option<string>, multilink: seq<Step>): (r: seq<Step>)
  {
    if skip then []
    else (if outputDirectory.Some? then [Do(CreateDirectories(outputDirectory.value))] else []) + multilink
  }

  /** The folders execute has made when multilink starts. */
  function ExecuteMade(outputDirectory: Option<string>): set<string>
  {
    if outputDirectory.Some? then {outputDirectory.value} else {}
  }

  /** Skipping does nothing; otherwise the whole multilink plan runs after at most one folder step. */
  lemma ExecutePlanShape(skip: bool, outputDirectory: Option<string>, multilink: seq<Step>)
    ensures skip ==> ExecutePlan(skip, outputDirectory, multilink) == []
    ensures !skip ==>
      var r := ExecutePlan(skip, outputDirectory, multilink);
      var k := if outputDirectory.Some? then 1 else 0;
      |r| == k + |multilink| && r[k..] == multilink
      && (outputDirectory.Some? ==> r[0] == Do(CreateDirectories(outputDirectory.value)))
  {
  }

  // ---- scan patterns and locale switches ----

  /** The scan patterns after getIncludes and getLocaleIncludes. */
  datatype ScanPatterns = ScanPatterns(includes: set<string>, excludes: set<string>,
                                       localeIncludes: set<string>, localeExcludes: set<string>)

  function PatternsOf(intIncludes: set<string>, intExcludes: set<string>, wxlIncludes: set<string>, wxlExcludes: set<string>)
    : ScanPatterns
  {
    ScanPatterns(Patterns(intIncludes, DefaultIncludes), intExcludes, Patterns(wxlIncludes, DefaultLocaleIncludes), wxlExcludes)
  }

  /** "-loc" and a locale file, per locale file in order. */
  function LocArgs(locales: seq<string>): seq<string>
  {
    FlatMap(locales, (l: string) => ["-loc", l])
  }

  /** "-loc" and each locale file in turn. */
  method AddLocales(cl: CommandLine, locales: seq<string>)
    modifies cl
    ensures cl.arguments == old(cl.arguments) + LocArgs(locales)
    ensures cl.executable == old(cl.executable) && cl.workingDirectory == old(cl.workingDirectory)
  {
    var i := 0;
    while i < |locales|
      invariant 0 <= i <= |locales|
      invariant cl.arguments == old(cl.arguments) + LocArgs(locales[..i])
      invariant cl.executable == old(cl.executable) && cl.workingDirectory == old(cl.workingDirectory)
    {
      FlatMapGrows(locales, (l: string) => ["-loc", l], i);
      cl.AddArguments(["-loc", locales[i]]);
      i := i + 1;
    }
    assert locales[..i] == locales;
  }
}
