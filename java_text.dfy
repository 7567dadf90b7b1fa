// The java.lang.String and commons-lang operations the plugin relies on, with
// Java's semantics for the cases the plugin can reach, except that case folding
// (equalsIgnoreCase, and the path order built on it) folds ASCII letters only.
module JavaText {

  /** `t` occurs in `s` starting at index `i`. */
  predicate OccursAt(s: string, t: string, i: int)
  {
    0 <= i && i + |t| <= |s| && s[i..i + |t|] == t
  }

  /** An occurrence stays put when text is appended, and the appended text occurs right after the original. */
  lemma OccursAfterAppend(s: string, u: string, t: string, i: int)
    ensures OccursAt(s, t, i) ==> OccursAt(s + u, t, i)
    ensures OccursAt(s + u, u, |s|)
  {
    assert (s + u)[|s|..|s| + |u|] == u;
    if OccursAt(s, t, i) {
      assert (s + u)[i..i + |t|] == s[i..i + |t|];
    }
  }

  /** String.contains. */
  predicate Contains(s: string, t: string)
    decreases |s|
  {
    t <= s || (|s| > 0 && Contains(s[1..], t))
  }

  lemma {:induction false} ContainsIffOccurs(s: string, t: string)
    ensures Contains(s, t) <==> exists i :: OccursAt(s, t, i)
    decreases |s|
  {
    if t <= s {
      assert OccursAt(s, t, 0);
    } else if |s| > 0 {
      ContainsIffOccurs(s[1..], t);
      if exists i :: OccursAt(s[1..], t, i) {
        var i :| OccursAt(s[1..], t, i);
        assert s[1..][i..i + |t|] == s[i + 1..i + 1 + |t|];
        assert OccursAt(s, t, i + 1);
      }
      if exists i :: OccursAt(s, t, i) {
        var i :| OccursAt(s, t, i);
        assert s[1..][i - 1..i - 1 + |t|] == s[i..i + |t|];
        assert OccursAt(s[1..], t, i - 1);
      }
    }
  }

  /** String.endsWith. */
  predicate EndsWith(s: string, t: string)
  {
    |t| <= |s| && s[|s| - |t|..] == t
  }

  /** Character.toLowerCase restricted to ASCII letters. */
  function Lower(c: char): (r: char)
    ensures 'A' <= c <= 'Z' ==> r as int == c as int + 32
    ensures !('A' <= c <= 'Z') ==> r == c
  {
    if 'A' <= c <= 'Z' then (c as int + 32) as char else c
  }

  /** String.equalsIgnoreCase, with ASCII case folding. */
  predicate EqualsIgnoreCase(a: string, b: string)
  {
    |a| == |b| && forall i :: 0 <= i < |a| ==> Lower(a[i]) == Lower(b[i])
  }

  lemma EqualsIgnoreCaseIsEquivalence(a: string, b: string, c: string)
    ensures EqualsIgnoreCase(a, a)
    ensures EqualsIgnoreCase(a, b) ==> EqualsIgnoreCase(b, a)
    ensures EqualsIgnoreCase(a, b) && EqualsIgnoreCase(b, c) ==> EqualsIgnoreCase(a, c)
  {
  }

  /** String.replace(char, char). */
  function ReplaceChar(s: string, from: char, to: char): (r: string)
    ensures |r| == |s|
    ensures forall i :: 0 <= i < |s| ==> r[i] == (if s[i] == from then to else s[i])
  {
    seq(|s|, i requires 0 <= i < |s| => if s[i] == from then to else s[i])
  }

  /**
   * String.replace(CharSequence, CharSequence) for a non-empty target:
   * every occurrence, scanning left to right, without overlaps and without rescanning
   * the replacement.
   */
  function Replace(s: string, target: string, replacement: string): string
    requires |target| > 0
    decreases |s|
  {
    if |s| < |target| then s
    else if target <= s then replacement + Replace(s[|target|..], target, replacement)
    else [s[0]] + Replace(s[1..], target, replacement)
  }

  lemma ReplaceLeading(target: string, rest: string, replacement: string)
    requires |target| > 0
    ensures Replace(target + rest, target, replacement) == replacement + Replace(rest, target, replacement)
  {
    assert (target + rest)[|target|..] == rest;
  }

  lemma {:induction false} ReplaceAbsent(s: string, target: string, replacement: string)
    requires |target| > 0
    requires !Contains(s, target)
    ensures Replace(s, target, replacement) == s
    decreases |s|
  {
    if |s| >= |target| {
      ReplaceAbsent(s[1..], target, replacement);
      assert [s[0]] + s[1..] == s;
    }
  }

  /**
   * Removing a leading "<root>\" with Replace undoes prefixing it, provided the rest
   * holds no other occurrence of that text.
   */
  lemma StripLeading(target: string, rest: string)
    requires |target| > 0
    requires !Contains(rest, target)
    ensures Replace(target + rest, target, "") == rest
    ensures target + Replace(target + rest, target, "") == target + rest
  {
    ReplaceLeading(target, rest, "");
    ReplaceAbsent(rest, target, "");
  }

  /** Java's replace does not rescan: the removed text can reappear in the result. */
  lemma ReplaceCanLeaveOccurrence()
    ensures Replace("aabb", "ab", "") == "ab"
  {
    assert !("ab" <= "aabb") by {
      assert "aabb"[1] != "ab"[1];
    }
    assert "aabb"[1..] == "abb";
    assert Replace("aabb", "ab", "") == ['a'] + Replace("abb", "ab", "");
    assert "ab" <= "abb" by {
      assert "abb"[..2] == "ab";
    }
    assert "abb"[2..] == "b";
    assert Replace("abb", "ab", "") == "" + Replace("b", "ab", "");
    assert Replace("b", "ab", "") == "b";
  }

  /** Every field between separators, empty ones included: n separators give n + 1 fields. */
  function Fields(s: string, sep: char): (r: seq<string>)
    ensures |r| > 0
    ensures forall k :: 0 <= k < |r| ==> sep !in r[k]
    decreases |s|
  {
    if |s| == 0 then [""]
    else
      var tail := Fields(s[1..], sep);
      if s[0] == sep then [""] + tail
      else [[s[0]] + tail[0]] + tail[1..]
  }

  /** StringUtils.join / String.join with a one-character separator. */
  function Join(parts: seq<string>, sep: char): string
  {
    if |parts| == 0 then ""
    else if |parts| == 1 then parts[0]
    else parts[0] + [sep] + Join(parts[1..], sep)
  }

  lemma {:induction false} FieldsOfJoin(parts: seq<string>, sep: char)
    requires |parts| > 0
    requires forall k :: 0 <= k < |parts| ==> sep !in parts[k]
    ensures Fields(Join(parts, sep), sep) == parts
    decreases |parts|
  {
    if |parts| > 1 {
      FieldsOfJoin(parts[1..], sep);
      FieldsOfPrefixed(parts[0], [sep] + Join(parts[1..], sep), sep);
      assert parts[0] + [sep] + Join(parts[1..], sep) == parts[0] + ([sep] + Join(parts[1..], sep));
      assert ([sep] + Join(parts[1..], sep))[1..] == Join(parts[1..], sep);
      assert [parts[0]] + parts[1..] == parts;
    } else {
      FieldsOfPlain(parts[0], sep);
    }
  }

  lemma {:induction false} FieldsOfPlain(s: string, sep: char)
    requires sep !in s
    ensures Fields(s, sep) == [s]
    decreases |s|
  {
    if |s| > 0 {
      FieldsOfPlain(s[1..], sep);
      assert [s[0]] + s[1..] == s;
    }
  }

  /** The fields of `w + rest`, where `rest` starts with the separator, start with `w`. */
  lemma {:induction false} FieldsOfPrefixed(w: string, rest: string, sep: char)
    requires sep !in w
    requires |rest| > 0 && rest[0] == sep
    ensures Fields(w + rest, sep) == [w] + Fields(rest[1..], sep)
    decreases |w|
  {
    if |w| == 0 {
      assert w + rest == rest;
    } else {
      FieldsOfPrefixed(w[1..], rest, sep);
      assert (w + rest)[1..] == w[1..] + rest;
      assert [w[0]] + w[1..] == w;
    }
  }

  /** Drops the empty strings at the end, as String.split with limit 0 does. */
  function DropTrailingEmpty(fields: seq<string>): (r: seq<string>)
    ensures |r| <= |fields| && r == fields[..|r|]
    ensures |r| > 0 ==> r[|r| - 1] != ""
    ensures forall k :: |r| <= k < |fields| ==> fields[k] == ""
  {
    if |fields| == 0 then []
    else if fields[|fields| - 1] == "" then DropTrailingEmpty(fields[..|fields| - 1])
    else fields
  }

  /**
   * String.split(sep) for a separator that is not a regular-expression metacharacter:
   * a string without the separator is its own single field; otherwise the fields with
   * the trailing empty ones removed.
   */
  function Split(s: string, sep: char): seq<string>
  {
    if sep !in s then [s] else DropTrailingEmpty(Fields(s, sep))
  }

  /** The text before the first separator (all of `s` when there is none). */
  function Before(s: string, sep: char): (r: string)
    ensures r <= s && sep !in r
    ensures |r| < |s| ==> s[|r|] == sep
  {
    if |s| == 0 || s[0] == sep then "" else [s[0]] + Before(s[1..], sep)
  }

  /** The text before the first separator of `key + sep + value` is the key, when the key has none. */
  lemma BeforeOfPair(key: string, sep: char, value: string)
    requires sep !in key
    ensures Before(key + [sep] + value, sep) == key
  {
    var s := key + [sep] + value;
    var r := Before(s, sep);
    assert s[|key|] == sep;
    assert forall i :: 0 <= i < |key| ==> s[i] == key[i];
    assert forall i :: 0 <= i < |r| ==> r[i] == s[i];
    assert |r| == |key|;
    assert r == s[..|r|] && key == s[..|key|];
  }

  lemma {:induction false} FirstFieldIsBefore(s: string, sep: char)
    ensures Fields(s, sep)[0] == Before(s, sep)
    decreases |s|
  {
    if |s| > 0 && s[0] != sep {
      FirstFieldIsBefore(s[1..], sep);
    }
  }

  /** A string made only of separators, at least one. */
  predicate OnlySeparators(s: string, sep: char)
  {
    |s| > 0 && forall i :: 0 <= i < |s| ==> s[i] == sep
  }

  lemma {:induction false} FieldsOfOnlySeparators(s: string, sep: char)
    requires forall i :: 0 <= i < |s| ==> s[i] == sep
    ensures forall k :: 0 <= k < |Fields(s, sep)| ==> Fields(s, sep)[k] == ""
    decreases |s|
  {
    if |s| > 0 {
      FieldsOfOnlySeparators(s[1..], sep);
    }
  }

  lemma {:induction false} SomeFieldNonEmpty(s: string, sep: char)
    requires exists i :: 0 <= i < |s| && s[i] != sep
    ensures exists k :: 0 <= k < |Fields(s, sep)| && Fields(s, sep)[k] != ""
    decreases |s|
  {
    var tail := Fields(s[1..], sep);
    if s[0] != sep {
      assert Fields(s, sep)[0] == [s[0]] + tail[0];
    } else {
      var i :| 0 <= i < |s| && s[i] != sep;
      assert s[1..][i - 1] != sep;
      SomeFieldNonEmpty(s[1..], sep);
      var k :| 0 <= k < |tail| && tail[k] != "";
      assert Fields(s, sep)[k + 1] == tail[k];
    }
  }

  /** Split yields no field at all exactly when the string consists only of separators. */
  lemma SplitEmptyIff(s: string, sep: char)
    ensures |Split(s, sep)| == 0 <==> OnlySeparators(s, sep)
    ensures |Split(s, sep)| > 0 ==> Split(s, sep)[0] == Before(s, sep)
  {
    FirstFieldIsBefore(s, sep);
    if sep !in s {
      if |s| > 0 {
        assert s[0] != sep;
      }
      FieldsOfPlain(s, sep);
    } else if OnlySeparators(s, sep) {
      FieldsOfOnlySeparators(s, sep);
    } else {
      assert exists i :: 0 <= i < |s| && s[i] != sep;
      SomeFieldNonEmpty(s, sep);
    }
  }

  lemma SplitWithoutSeparator(s: string, sep: char)
    requires sep !in s
    ensures Split(s, sep) == [s]
  {
  }

  /** Splitting a join recovers the parts when none holds the separator and the last is non-empty. */
  lemma SplitOfJoin(parts: seq<string>, sep: char)
    requires |parts| > 0 && parts[|parts| - 1] != ""
    requires forall k :: 0 <= k < |parts| ==> sep !in parts[k]
    ensures Split(Join(parts, sep), sep) == parts
  {
    FieldsOfJoin(parts, sep);
    if sep !in Join(parts, sep) {
      FieldsOfPlain(Join(parts, sep), sep);
    }
  }

  /** A character String.trim removes: a control character or the space. */
  predicate Blank(c: char)
  {
    c <= ' '
  }

  function TrimLeading(s: string): (r: string)
    ensures |r| <= |s| && r == s[|s| - |r|..]
    ensures forall k :: 0 <= k < |s| - |r| ==> Blank(s[k])
    ensures r != [] ==> !Blank(r[0])
  {
    if |s| > 0 && Blank(s[0]) then
      var r := TrimLeading(s[1..]);
      assert s[1..][|s| - 1 - |r|..] == s[|s| - |r|..];
      r
    else s
  }

  function TrimTrailing(s: string): (r: string)
    ensures |r| <= |s| && r == s[..|r|]
    ensures forall k :: |r| <= k < |s| ==> Blank(s[k])
    ensures r != [] ==> !Blank(r[|r| - 1])
  {
    if |s| > 0 && Blank(s[|s| - 1]) then
      var r := TrimTrailing(s[..|s| - 1]);
      assert s[..|s| - 1][..|r|] == s[..|r|];
      r
    else s
  }

  /** String.trim: without the leading and trailing characters up to the space. */
  function Trim(s: string): string
  {
    TrimTrailing(TrimLeading(s))
  }

  /**
   * The trimmed text is a slice of the original whose ends are not blank, and everything
   * cut off is blank; it is empty exactly when the whole text is blank.
   */
  lemma TrimSlice(s: string)
    ensures exists i, j ::
              0 <= i <= j <= |s| && Trim(s) == s[i..j]
              && (forall k :: 0 <= k < i ==> Blank(s[k])) && (forall k :: j <= k < |s| ==> Blank(s[k]))
    ensures Trim(s) != [] ==> !Blank(Trim(s)[0]) && !Blank(Trim(s)[|Trim(s)| - 1])
    ensures Trim(s) == [] <==> forall k :: 0 <= k < |s| ==> Blank(s[k])
  {
    var i, j := TrimBounds(s);
    var t := Trim(s);
    if t == [] {
      forall k | 0 <= k < |s|
        ensures Blank(s[k])
      {
        assert k < i || j <= k;
      }
    } else {
      var lead := TrimLeading(s);
      assert t[0] == lead[0];
      assert t[0] == s[i] && !Blank(s[i]);
    }
  }

  /** Where the trimmed text sits in the original, with only blanks around it. */
  lemma TrimBounds(s: string) returns (i: nat, j: nat)
    ensures i <= j <= |s| && Trim(s) == s[i..j]
    ensures forall k :: 0 <= k < i ==> Blank(s[k])
    ensures forall k :: j <= k < |s| ==> Blank(s[k])
  {
    var lead := TrimLeading(s);
    i := |s| - |lead|;
    var r := TrimTrailing(lead);
    j := i + |r|;
    assert r == s[i..j];
    assert forall k :: j <= k < |s| ==> s[k] == lead[k - i];
  }

}
