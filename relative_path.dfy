// getRelativePath and getRelative of the com.github AbstractWixMojo: the path of a target
// relative to a base directory, both canonical Windows paths, walked character by character.
module RelativePath {
  import opened Wrappers
  import opened Files
  import opened Runtime

  /** What an out-of-range charAt or substring throws; it is not caught by getRelative. */
  const OutOfBounds := ExecutionFailed("StringIndexOutOfBoundsException")

  /** The base with a separator appended unless it already ends in one. */
  function WithTrailingSeparator(base: string): (r: string)
    requires |base| > 0
    ensures |r| > 0 && r[|r| - 1] == Separator && base <= r
    ensures |r| == |base| || r == base + [Separator]
  {
    if base[|base| - 1] != Separator then base + [Separator] else base
  }

  /** String.indexOf(c, from): the first index at or after `from` holding `c`, or -1. */
  function IndexOfFrom(s: string, c: char, from: nat): (r: int)
    ensures r == -1 || (from <= r < |s| && s[r] == c)
    ensures forall j :: from <= j < |s| && (r == -1 || j < r) ==> s[j] != c
    decreases |s| - from
  {
    if from >= |s| then -1 else if s[from] == c then from else IndexOfFrom(s, c, from + 1)
  }

  /** The first index of `c` in an extension is the one in the original, when it has one there. */
  lemma {:induction false} IndexOfFromPrefix(s: string, t: string, c: char, from: nat)
    requires s <= t && IndexOfFrom(s, c, from) >= 0
    ensures IndexOfFrom(t, c, from) == IndexOfFrom(s, c, from)
    decreases |s| - from
  {
    if s[from] != c {
      IndexOfFromPrefix(s, t, c, from + 1);
    }
  }

  /** The outcome of the drive/UNC/root checks, before the walk. */
  datatype Guard = Proceed | Return(path: string) | Throws

  /**
   * Both paths must share the UNC server (\\server), the drive ("X:") or the leading '/';
   * when they do not, the target is returned as it is.
   */
  function PrefixGuard(cb: string, ct: string): Guard
  {
    if |cb| < 2 then Throws
    else if cb[..2] == "\\\\" then
      var end := IndexOfFrom(cb, Separator, 2);
      if end < 0 || end > |ct| then Throws
      else if cb[..end] != ct[..end] then Return(ct)
      else Proceed
    else if |cb| < 3 then Throws
    else if cb[1..3] == ":\\" then
      if |ct| < 2 then Throws
      else if cb[..2] != ct[..2] then Return(ct)
      else Proceed
    else if cb[0] == '/' then
      if |ct| == 0 then Throws
      else if ct[0] != '/' then Return(ct)
      else Proceed
    else Proceed
  }

  /** The length of the longest common prefix. */
  function CommonLength(a: string, b: string): (r: nat)
    ensures r <= |a| && r <= |b|
    ensures forall j :: 0 <= j < r ==> a[j] == b[j]
    ensures r < |a| && r < |b| ==> a[r] != b[r]
  {
    if |a| == 0 || |b| == 0 || a[0] != b[0] then 0
    else
      var n := CommonLength(a[1..], b[1..]);
      assert forall j :: 1 <= j < n + 1 ==> a[j] == a[1..][j - 1] && b[j] == b[1..][j - 1];
      1 + n
  }

  /** The last index below n holding a separator, or -1. */
  function LastSeparator(s: string, n: nat): (r: int)
    requires n <= |s|
    ensures -1 <= r < n
    ensures r >= 0 ==> s[r] == Separator
    ensures forall j :: r < j < n ==> s[j] != Separator
  {
    if n == 0 then -1 else if s[n - 1] == Separator then n - 1 else LastSeparator(s, n - 1)
  }

  function SeparatorCount(s: string): nat
  {
    if |s| == 0 then 0 else SeparatorCount(s[..|s| - 1]) + (if s[|s| - 1] == Separator then 1 else 0)
  }

  /** k steps up: "..", "..\..", ... */
  function Ups(k: nat): (r: string)
    ensures k == 0 <==> |r| == 0
  {
    if k == 0 then "" else if k == 1 then ".." else Ups(k - 1) + [Separator] + ".."
  }

  /**
   * The walk: up from the base to the last separator both share, then down the rest of
   * the target.
   */
  function Walk(cb: string, ct: string): string
  {
    var lcs := LastSeparator(ct, CommonLength(ct, cb));
    var ups := Ups(SeparatorCount(cb[lcs + 1..]));
    if |ct| > lcs + 1 then (if |ups| > 0 then ups + [Separator] else ups) + ct[lcs + 1..]
    else ups
  }

  /** getRelativePath(base, target) with `target` the target's canonical path. */
  function RelativePathOf(base: string, target: string): Result<string, Failure>
  {
    if |base| == 0 then Err(OutOfBounds)
    else
      var cb := WithTrailingSeparator(base);
      var ct := if target + [Separator] <= cb then target + [Separator] else target;
      if ct == cb then Ok(".")
      else match PrefixGuard(cb, ct)
        case Throws => Err(OutOfBounds)
        case Return(p) => Ok(p)
        case Proceed => Ok(Walk(cb, ct))
  }

  lemma SeparatorCountGrows(s: string, from: int, k: nat)
    requires 0 <= from <= k < |s|
    ensures SeparatorCount(s[from..k + 1]) == SeparatorCount(s[from..k]) + (if s[k] == Separator then 1 else 0)
  {
    assert s[from..k + 1][..k - from] == s[from..k];
  }

  method GetRelativePath(base: string, target: string) returns (r: Result<string, Failure>)
    ensures r == RelativePathOf(base, target)
  {
    if |base| == 0 {
      return Err(OutOfBounds);
    }
    var cb := base;
    if base[|base| - 1] != Separator {
      cb := base + [Separator];
    }
    var ct := target;
    if target + [Separator] <= cb {
      ct := target + [Separator];
    }
    if ct == cb {
      return Ok(".");
    }
    var guard := PrefixGuard(cb, ct);
    if guard.Throws? {
      return Err(OutOfBounds);
    } else if guard.Return? {
      return Ok(guard.path);
    }
    var relativePath := WalkPaths(cb, ct);
    return Ok(relativePath);
  }

  /** The walk of getRelativePath once both paths share their prefix. */
  method WalkPaths(cb: string, ct: string) returns (relativePath: string)
    ensures relativePath == Walk(cb, ct)
  {
    var lastCommonSeparator := CommonSeparator(cb, ct);
    relativePath := UpsFrom(cb, lastCommonSeparator + 1);
    if |ct| > lastCommonSeparator + 1 {
      if |relativePath| > 0 {
        relativePath := relativePath + [Separator];
      }
      relativePath := relativePath + ct[lastCommonSeparator + 1..];
    }
  }

  /** Walking to the shorter of the two paths, the last separator they have in common. */
  method CommonSeparator(cb: string, ct: string) returns (lastCommonSeparator: int)
    ensures lastCommonSeparator == LastSeparator(ct, CommonLength(ct, cb))
  {
    lastCommonSeparator := -1;
    var minLength := |cb|;
    if |ct| < minLength {
      minLength := |ct|;
    }
    var i := 0;
    while i < minLength
      invariant 0 <= i <= minLength
      invariant forall j :: 0 <= j < i ==> ct[j] == cb[j]
      invariant lastCommonSeparator == LastSeparator(ct, i)
    {
      if ct[i] == cb[i] {
        if ct[i] == Separator {
          lastCommonSeparator := i;
        }
      } else {
        break;
      }
      i := i + 1;
    }
    assert i == CommonLength(ct, cb);
  }

  /** One ".." per separator of the base from `from` on. */
  method UpsFrom(cb: string, from: nat) returns (relativePath: string)
    requires from <= |cb|
    ensures relativePath == Ups(SeparatorCount(cb[from..]))
  {
    relativePath := "";
    var k := from;
    while k < |cb|
      invariant from <= k <= |cb|
      invariant relativePath == Ups(SeparatorCount(cb[from..k]))
    {
      SeparatorCountGrows(cb, from, k);
      if cb[k] == Separator {
        if |relativePath| > 0 {
          relativePath := relativePath + [Separator];
        }
        relativePath := relativePath + "..";
      }
      k := k + 1;
    }
    assert cb[from..k] == cb[from..];
  }

  /** A prefix of a prefix. */
  lemma PrefixOfPrefix(a: string, b: string, n: nat)
    ensures a <= b && n <= |a| ==> a[..n] == b[..n]
  {
  }

  /** A target that is the base itself, with or without the trailing separator, is ".". */
  lemma RelativeToItself(base: string)
    requires |base| > 0
    ensures RelativePathOf(base, base) == Ok(".")
    ensures RelativePathOf(base, WithTrailingSeparator(base)) == Ok(".")
  {
  }

  /** On another drive the target comes back unchanged. */
  lemma OtherDrive(base: string, target: string)
    requires |base| >= 3 && base[1..3] == ":\\"
    requires |target| >= 2 && target[..2] != base[..2]
    ensures RelativePathOf(base, target) == Ok(target)
  {
    var cb := WithTrailingSeparator(base);
    assert cb[..2] == base[..2] && cb[1..3] == base[1..3];
    PrefixOfPrefix(target + [Separator], cb, 2);
    assert (target + [Separator])[..2] == target[..2];
    assert !(target + [Separator] <= cb);
    assert target != cb;
    assert PrefixGuard(cb, target) == Return(target);
  }

  /** On another UNC server the target comes back unchanged. */
  lemma OtherServer(base: string, target: string)
    requires |base| >= 3 && base[..2] == "\\\\"
    requires var e := IndexOfFrom(base, Separator, 2); e >= 0 && e <= |target| && target[..e] != base[..e]
    ensures RelativePathOf(base, target) == Ok(target)
  {
    var cb := WithTrailingSeparator(base);
    var e := IndexOfFrom(base, Separator, 2);
    IndexOfFromPrefix(base, cb, Separator, 2);
    DiffersEarly(base, cb, target, e);
    UncGuard(cb, target, e);
    GuardReturns(base, target);
  }

  /** A target that differs from `b` within its first `e` characters is no prefix of an extension of `b`, with or without a separator. */
  lemma DiffersEarly(b: string, cb: string, t: string, e: nat)
    requires |b| >= 2 && b <= cb && e <= |b| && e <= |t| && t[..e] != b[..e]
    ensures cb[..2] == b[..2] && cb[..e] != t[..e]
    ensures !(t + [Separator] <= cb) && t != cb
  {
    assert cb[..e] == b[..e];
    PrefixOfPrefix(t + [Separator], cb, e);
    assert (t + [Separator])[..e] == t[..e];
  }

  /** A target the separator does not extend into the base, and whose guard returns it, comes back unchanged. */
  lemma GuardReturns(base: string, target: string)
    requires |base| > 0
    requires !(target + [Separator] <= WithTrailingSeparator(base)) && target != WithTrailingSeparator(base)
    requires PrefixGuard(WithTrailingSeparator(base), target) == Return(target)
    ensures RelativePathOf(base, target) == Ok(target)
  {
  }

  lemma UncGuard(cb: string, ct: string, e: int)
    requires |cb| >= 2 && cb[..2] == "\\\\"
    requires e == IndexOfFrom(cb, Separator, 2) && 0 <= e <= |ct| && cb[..e] != ct[..e]
    ensures PrefixGuard(cb, ct) == Return(ct)
  {
  }

  /** A target inside the base comes back as the part below the base, with no "..". */
  lemma InsideBase(base: string, suffix: string)
    requires |base| >= 3 && |suffix| > 0
    ensures RelativePathOf(base, WithTrailingSeparator(base) + suffix) == Ok(suffix)
  {
    var cb := WithTrailingSeparator(base);
    var ct := cb + suffix;
    assert !(ct + [Separator] <= cb);
    assert ct != cb;
    assert cb[..2] == ct[..2];
    if cb[..2] == "\\\\" {
      var e := IndexOfFrom(cb, Separator, 2);
      assert cb[|cb| - 1] == Separator;
      assert e >= 0;
      assert cb[..e] == ct[..e];
    }
    assert cb[0] == ct[0];
    assert PrefixGuard(cb, ct) == Proceed;
    var n := CommonLength(ct, cb);
    assert forall j :: 0 <= j < |cb| ==> ct[j] == cb[j];
    assert n == |cb|;
    var lcs := LastSeparator(ct, n);
    assert lcs == |cb| - 1;
    assert cb[lcs + 1..] == [];
    assert SeparatorCount(cb[lcs + 1..]) == 0;
    assert ct[lcs + 1..] == suffix;
    assert Walk(cb, ct) == suffix;
  }

  /**
   * getRelative: the relative path when it is strictly shorter than the absolute path,
   * otherwise the target's own path; a failing getRelativePath propagates.
   */
  function Relative(canonicalBase: string, canonicalTarget: string, absoluteTarget: string, targetPath: string)
    : Result<string, Failure>
  {
    match RelativePathOf(canonicalBase, canonicalTarget)
    case Err(e) => Err(e)
    case Ok(rel) => if |rel| < |absoluteTarget| then Ok(rel) else Ok(targetPath)
  }

  /** The chosen text is never longer than needed: it is shorter than the absolute path or the path itself. */
  lemma RelativeIsShorterOrPath(canonicalBase: string, canonicalTarget: string, absoluteTarget: string, targetPath: string)
    ensures var r := Relative(canonicalBase, canonicalTarget, absoluteTarget, targetPath);
      && (r.Err? <==> RelativePathOf(canonicalBase, canonicalTarget).Err?)
      && (r.Ok? ==> r.value == targetPath || (|r.value| < |absoluteTarget|
                                              && Ok(r.value) == RelativePathOf(canonicalBase, canonicalTarget)))
  {
  }

  /** A file inside the base, given by a longer absolute path, is written relative to the base. */
  lemma RelativeInsideBase(base: string, suffix: string, absoluteTarget: string, targetPath: string)
    requires |base| >= 3 && |suffix| > 0 && |suffix| < |absoluteTarget|
    ensures Relative(base, WithTrailingSeparator(base) + suffix, absoluteTarget, targetPath) == Ok(suffix)
  {
    InsideBase(base, suffix);
  }

  /** Each file made relative to relativeBase in turn; the first failure propagates. */
  function RelativeAll(canonical: string -> string, relativeBase: string, files: seq<string>)
    : Result<seq<string>, Failure>
  {
    Traverse(files, (f: string) => Relative(canonical(relativeBase), canonical(f), f, f))
  }

  /**
   * The loops that call getRelative on each file in turn: every file is written relative
   * to the base when that is shorter, and the first file whose walk fails stops the loop.
   */
  method RelativeAllOf(canonical: string -> string, relativeBase: string, files: seq<string>)
    returns (r: Result<seq<string>, Failure>)
    ensures r == RelativeAll(canonical, relativeBase, files)
  {
    var rels: seq<string> := [];
    var i := 0;
    while i < |files|
      invariant 0 <= i <= |files|
      invariant RelativeAll(canonical, relativeBase, files[..i]) == Ok(rels)
    {
      assert files[..i + 1][..i] == files[..i];
      var f := files[i];
      var rel := Relative(canonical(relativeBase), canonical(f), f, f);
      if rel.Err? {
        TraversePrefixFailure(files, (f: string) => Relative(canonical(relativeBase), canonical(f), f, f), i + 1);
        return Err(rel.error);
      }
      rels := rels + [rel.value];
      i := i + 1;
    }
    assert files[..i] == files;
    return Ok(rels);
  }

  /**
   * Made relative, every file keeps its place: the i-th result is the i-th file's relative
   * text, and the whole fails exactly when one of the files does.
   */
  lemma RelativeAllAt(canonical: string -> string, relativeBase: string, files: seq<string>)
    ensures var r := RelativeAll(canonical, relativeBase, files);
      && (r.Err? <==> exists i :: 0 <= i < |files| && Relative(canonical(relativeBase), canonical(files[i]), files[i], files[i]).Err?)
      && (r.Ok? ==> |r.value| == |files| && forall i :: 0 <= i < |files| ==>
            Relative(canonical(relativeBase), canonical(files[i]), files[i], files[i]) == Ok(r.value[i]))
  {
    TraverseFails(files, (f: string) => Relative(canonical(relativeBase), canonical(f), f, f));
    if RelativeAll(canonical, relativeBase, files).Ok? {
      TraverseAt(files, (f: string) => Relative(canonical(relativeBase), canonical(f), f, f));
    }
  }
}
