// java.util.Properties as the goals read it: string keys, enumerated in some order, each
// with a string value.
module JavaProperties {
  import opened Wrappers
  import opened Seqs

  /** The keys in enumeration order, and the stored values. */
  datatype Properties = Properties(keys: seq<string>, values: map<string, string>)

  /** Every stored key is enumerated exactly once, and nothing else is. */
  predicate WellFormed(p: Properties)
  {
    Distinct(p.keys) && Elements(p.keys) == p.values.Keys
  }

  predicate IsEmpty(p: Properties)
  {
    |p.values| == 0
  }

  /** Properties.getProperty: the stored value, or null. */
  function GetProperty(p: Properties, key: string): (r: Option<string>)
    ensures r.Some? <==> key in p.values
    ensures r.Some? ==> r.value == p.values[key]
  {
    if key in p.values then Some(p.values[key]) else None
  }

  /** Properties.setProperty: stores the value under the key, enumerated last when new. */
  function SetProperty(p: Properties, key: string, value: string): (r: Properties)
    ensures GetProperty(r, key) == Some(value)
    ensures forall k :: k != key ==> GetProperty(r, k) == GetProperty(p, k)
    ensures WellFormed(p) ==> WellFormed(r)
  {
    Properties(Insert(p.keys, key), p.values[key := value])
  }

  /**
   * The pass-through argument list built from a Properties object: each key in
   * enumeration order, followed by the value found for it when there is one.
   */
  function PassThrough(keys: seq<string>, lookup: string -> Option<string>): seq<string>
  {
    FlatMap(keys, (k: string) => [k] + (if lookup(k).Some? then [lookup(k).value] else []))
  }

  lemma PassThroughGrows(keys: seq<string>, lookup: string -> Option<string>, i: nat)
    requires i < |keys|
    ensures PassThrough(keys[..i + 1], lookup) == PassThrough(keys[..i], lookup)
      + [keys[i]] + (if lookup(keys[i]).Some? then [lookup(keys[i]).value] else [])
  {
    assert keys[..i + 1][..i] == keys[..i];
  }

  /**
   * When every key has a value, the pass-through list alternates key and value:
   * twice as long as the keys, the i-th key at 2i and its value right after it.
   */
  lemma {:induction false} PassThroughPairs(keys: seq<string>, lookup: string -> Option<string>)
    requires forall i :: 0 <= i < |keys| ==> lookup(keys[i]).Some?
    ensures var r := PassThrough(keys, lookup);
      && |r| == 2 * |keys|
      && forall i :: 0 <= i < |keys| ==> r[2 * i] == keys[i] && r[2 * i + 1] == lookup(keys[i]).value
    decreases |keys|
  {
    if |keys| > 0 {
      var n := |keys| - 1;
      assert forall i :: 0 <= i < n ==> keys[..n][i] == keys[i];
      PassThroughPairs(keys[..n], lookup);
    }
  }

  /** A key without a value contributes the key alone: the list is never longer than two per key. */
  lemma {:induction false} PassThroughBounds(keys: seq<string>, lookup: string -> Option<string>)
    ensures |keys| <= |PassThrough(keys, lookup)| <= 2 * |keys|
    decreases |keys|
  {
    if |keys| > 0 {
      PassThroughBounds(keys[..|keys| - 1], lookup);
    }
  }
}
