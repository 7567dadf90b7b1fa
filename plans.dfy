// Folder creation as the goals do it: a folder is made with mkdirs only when it is not
// there, where "there" means present before the goal ran or made by the goal earlier.
module Plans {
  import opened Files
  import opened Runtime
  import opened Seqs

  /** A folder is there when it was there to begin with or the goal made it. */
  predicate Present(fs: FileSystem, made: set<string>, dir: string)
  {
    Exists(fs, dir) || dir in made
  }

  /** `if (!dir.exists()) dir.mkdirs();` */
  function MakeIfMissing(fs: FileSystem, made: set<string>, dir: string): (r: seq<Step>)
    ensures Present(fs, made, dir) <==> r == []
    ensures !Present(fs, made, dir) ==> r == [Do(CreateDirectories(dir))]
  {
    if Present(fs, made, dir) then [] else [Do(CreateDirectories(dir))]
  }

  /** Steps that only make folders. */
  predicate MakesFolders(steps: seq<Step>)
  {
    forall i :: 0 <= i < |steps| ==> steps[i].Do? && steps[i].effect.CreateDirectories?
  }

  /** Two optional mkdirs in a row make folders and nothing else. */
  lemma MakeTwice(fs: FileSystem, first: bool, made: set<string>, dir: string, made': set<string>, dir': string)
    ensures MakesFolders((if first then MakeIfMissing(fs, made, dir) else []) + MakeIfMissing(fs, made', dir'))
    ensures |(if first then MakeIfMissing(fs, made, dir) else []) + MakeIfMissing(fs, made', dir')| <= 2
  {
  }

  /** At most two folders made, then one last step. */
  lemma AfterFolders(mk: seq<Step>, last: Step)
    requires MakesFolders(mk) && |mk| <= 2
    ensures var s := mk + [last];
      1 <= |s| <= 3 && s[|s| - 1] == last && MakesFolders(s[..|s| - 1])
  {
    assert (mk + [last])[..|mk|] == mk;
  }

  /** One part of a plan after another: the steps in turn, the state after the later part. */
  function Then<S>(first: (seq<Step>, S), next: (seq<Step>, S)): (seq<Step>, S)
  {
    (first.0 + next.0, next.1)
  }

  /**
   * A loop over `items` whose body plans `f(state, item)`, each pass seeing the state the
   * passes before it left (the folders made so far, a set a goal keeps adding to).
   */
  function Fold<S, T>(start: S, items: seq<T>, f: (S, T) -> (seq<Step>, S)): (seq<Step>, S)
  {
    if |items| == 0 then ([], start)
    else
      var before := Fold(start, items[..|items| - 1], f);
      Then(before, f(before.1, items[|items| - 1]))
  }

  /** One more pass of the loop. */
  lemma FoldSnoc<S, T>(start: S, items: seq<T>, x: T, f: (S, T) -> (seq<Step>, S))
    ensures Fold(start, items + [x], f) == Then(Fold(start, items, f), f(Fold(start, items, f).1, x))
  {
    assert (items + [x])[..|items|] == items;
  }

  /** Two loops in a row are one loop over both lists: the second starts from the state the first left. */
  lemma {:induction false} FoldConcat<S, T>(start: S, xs: seq<T>, ys: seq<T>, f: (S, T) -> (seq<Step>, S))
    ensures Fold(start, xs + ys, f) == Then(Fold(start, xs, f), Fold(Fold(start, xs, f).1, ys, f))
    decreases |ys|
  {
    var first := Fold(start, xs, f);
    if |ys| == 0 {
      assert xs + ys == xs;
      assert first.0 + [] == first.0;
    } else {
      var n := |ys| - 1;
      var init := ys[..n];
      assert xs + ys == (xs + init) + [ys[n]];
      assert ys == init + [ys[n]];
      FoldConcat(start, xs, init, f);
      FoldSnoc(start, xs + init, ys[n], f);
      FoldSnoc(first.1, init, ys[n], f);
      var mid := Fold(first.1, init, f);
      var last := f(mid.1, ys[n]);
      assert first.0 + mid.0 + last.0 == first.0 + (mid.0 + last.0);
    }
  }

  /** The steps of a plan a test picks out, in order. */
  function Select(steps: seq<Step>, keep: Step -> bool): (r: seq<Step>)
    ensures forall k :: 0 <= k < |r| ==> keep(r[k])
  {
    if |steps| == 0 then []
    else Select(steps[..|steps| - 1], keep) + (if keep(steps[|steps| - 1]) then [steps[|steps| - 1]] else [])
  }

  lemma {:induction false} SelectConcat(a: seq<Step>, b: seq<Step>, keep: Step -> bool)
    ensures Select(a + b, keep) == Select(a, keep) + Select(b, keep)
    decreases |b|
  {
    if |b| == 0 {
      assert a + b == a;
    } else {
      var n := |b| - 1;
      assert (a + b)[..|a + b| - 1] == a + b[..n];
      SelectConcat(a, b[..n], keep);
    }
  }

  /** A single step is picked out exactly when it passes the test. */
  lemma SelectSingle(s: Step, keep: Step -> bool)
    ensures Select([s], keep) == if keep(s) then [s] else []
  {
    assert [s][..0] == [];
  }

  /** Each pass of the loop contributes `g` of its item to the selection, whatever the state. */
  ghost predicate SelectsPerPass<S(!new), T(!new)>(f: (S, T) -> (seq<Step>, S), keep: Step -> bool, g: T -> seq<Step>)
  {
    forall st, x :: Select(f(st, x).0, keep) == g(x)
  }

  /** Then the loop's selection is the items' contributions in the items' order. */
  lemma {:induction false} FoldSelect<S(!new), T(!new)>(start: S, items: seq<T>, f: (S, T) -> (seq<Step>, S),
                                                        keep: Step -> bool, g: T -> seq<Step>)
    requires SelectsPerPass(f, keep, g)
    ensures Select(Fold(start, items, f).0, keep) == FlatMap(items, g)
    decreases |items|
  {
    if |items| > 0 {
      var n := |items| - 1;
      var before := Fold(start, items[..n], f);
      FoldSelect(start, items[..n], f, keep, g);
      SelectConcat(before.0, f(before.1, items[n]).0, keep);
    }
  }

  /** A step is picked out exactly when it is one of the steps and passes the test. */
  lemma {:induction false} SelectMembers(steps: seq<Step>, keep: Step -> bool, s: Step)
    ensures s in Select(steps, keep) <==> s in steps && keep(s)
    decreases |steps|
  {
    if |steps| > 0 {
      var n := |steps| - 1;
      SelectMembers(steps[..n], keep, s);
      assert steps == steps[..n] + [steps[n]];
    }
  }

  /** Nothing is picked out of steps none of which pass the test. */
  lemma {:induction false} SelectNone(steps: seq<Step>, keep: Step -> bool)
    requires forall k :: 0 <= k < |steps| ==> !keep(steps[k])
    ensures Select(steps, keep) == []
    decreases |steps|
  {
    if |steps| > 0 {
      SelectNone(steps[..|steps| - 1], keep);
    }
  }

  /** Steps that all pass the test are picked out whole. */
  lemma {:induction false} SelectAll(steps: seq<Step>, keep: Step -> bool)
    requires forall k :: 0 <= k < |steps| ==> keep(steps[k])
    ensures Select(steps, keep) == steps
    decreases |steps|
  {
    if |steps| > 0 {
      var n := |steps| - 1;
      SelectAll(steps[..n], keep);
      assert steps[..n] + [steps[n]] == steps;
    }
  }

  function IsCall(s: Step): bool
  {
    s.Call?
  }

  /** The tool runs of a plan, in order. */
  function Calls(steps: seq<Step>): (r: seq<Step>)
    ensures forall k :: 0 <= k < |r| ==> r[k].Call?
  {
    Select(steps, IsCall)
  }

  /** Each pass of the loop runs exactly the tool call `g` names for its item, whatever the state. */
  ghost predicate OneCallPerPass<S(!new), T(!new)>(f: (S, T) -> (seq<Step>, S), g: T -> Step)
  {
    SelectsPerPass(f, IsCall, Singles(g))
  }

  /** Then the loop runs one call per item, in the items' order. */
  lemma FoldCalls<S(!new), T(!new)>(start: S, items: seq<T>, f: (S, T) -> (seq<Step>, S), g: T -> Step)
    requires OneCallPerPass(f, g)
    ensures Calls(Fold(start, items, f).0) == FlatMap(items, Singles(g))
  {
    FoldSelect(start, items, f, IsCall, Singles(g));
  }

  /** Every step satisfies `p`. */
  ghost predicate AllSteps(steps: seq<Step>, p: Step -> bool)
  {
    forall k :: 0 <= k < |steps| ==> p(steps[k])
  }

  /** A loop whose every pass only takes steps satisfying `p` takes only such steps. */
  lemma {:induction false} FoldAllSteps<S(!new), T(!new)>(start: S, items: seq<T>, f: (S, T) -> (seq<Step>, S), p: Step -> bool)
    requires forall st, x :: AllSteps(f(st, x).0, p)
    ensures AllSteps(Fold(start, items, f).0, p)
    decreases |items|
  {
    if |items| > 0 {
      var n := |items| - 1;
      var before := Fold(start, items[..n], f);
      FoldAllSteps(start, items[..n], f, p);
      assert AllSteps(f(before.1, items[n]).0, p);
    }
  }

  /** Two plans in a row take only steps satisfying `p` exactly when each does. */
  lemma AllStepsConcat(a: seq<Step>, b: seq<Step>, p: Step -> bool)
    ensures AllSteps(a + b, p) <==> AllSteps(a, p) && AllSteps(b, p)
  {
    if AllSteps(a + b, p) {
      forall k | 0 <= k < |a|
        ensures p(a[k])
      {
        assert (a + b)[k] == a[k];
      }
      forall k | 0 <= k < |b|
        ensures p(b[k])
      {
        assert (a + b)[|a| + k] == b[k];
      }
    }
  }
}
