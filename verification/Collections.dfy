/** Vocabulary shared by the models: options, sorted UID sequences, and sums over maps. */
module Collections {

  datatype Option<+T> = None | Some(value: T)

  function Min(a: nat, b: nat): nat { if a <= b then a else b }

  ghost predicate StrictlyIncreasing(s: seq<nat>) {
    forall i, j :: 0 <= i < j < |s| ==> s[i] < s[j]
  }

  /** The elements of a sequence, as a set. */
  function Elements<T>(s: seq<T>): set<T> {
    set x | x in s
  }

  lemma {:induction false} IncreasingHasNoDuplicates(s: seq<nat>)
    requires StrictlyIncreasing(s)
    ensures |Elements(s)| == |s|
  {
    if s == [] {
      assert Elements(s) == {};
    } else {
      var rest := s[..|s| - 1];
      IncreasingHasNoDuplicates(rest);
      assert Elements(s) == Elements(rest) + {s[|s| - 1]};
    }
  }

  lemma PrefixHasNoDuplicates(s: seq<nat>, n: nat)
    requires StrictlyIncreasing(s) && n <= |s|
    ensures |Elements(s[..n])| == n
  {
    IncreasingHasNoDuplicates(s[..n]);
  }

  lemma ElementsConcat<T>(s: seq<T>, t: seq<T>)
    ensures Elements(s + t) == Elements(s) + Elements(t)
  {
  }

  lemma ElementsSplit<T>(s: seq<T>, n: nat, more: nat)
    requires n <= more <= |s|
    ensures Elements(s[..more]) == Elements(s[..n]) + Elements(s[n..more])
  {
    ElementsConcat(s[..n], s[n..more]);
    JoinSlices(s, n, more);
  }

  lemma JoinSlices<T>(s: seq<T>, n: nat, more: nat)
    requires n <= more <= |s|
    ensures s[..n] + s[n..more] == s[..more]
  {
  }

  lemma MapSize<K, V>(m: map<K, V>)
    ensures |m| == |m.Keys|
  {
  }

  lemma DisjointUnionSize<K, V>(m: map<K, V>, n: map<K, V>)
    requires n.Keys !! m.Keys
    ensures |m + n| == |m| + |n|
  {
    assert (m + n).Keys == m.Keys + n.Keys;
    MapSize(m + n);
    MapSize(m);
    MapSize(n);
  }

  /** A strictly increasing sequence is determined by its elements. */
  lemma {:induction false} IncreasingIsUnique(s: seq<nat>, t: seq<nat>)
    requires StrictlyIncreasing(s) && StrictlyIncreasing(t)
    requires Elements(s) == Elements(t)
    ensures s == t
  {
    IncreasingHasNoDuplicates(s);
    IncreasingHasNoDuplicates(t);
    if s != [] {
      var n := |s| - 1;
      LastIsGreatest(s, t);
      LastIsGreatest(t, s);
      assert Elements(s[..n]) == Elements(s) - {s[n]};
      assert Elements(t[..n]) == Elements(t) - {t[n]};
      IncreasingIsUnique(s[..n], t[..n]);
      assert s == s[..n] + [s[n]] && t == t[..n] + [t[n]];
    }
  }

  lemma LastIsGreatest(s: seq<nat>, t: seq<nat>)
    requires StrictlyIncreasing(s) && s != [] && t != []
    requires Elements(s) == Elements(t)
    ensures t[|t| - 1] <= s[|s| - 1]
  {
    assert t[|t| - 1] in Elements(t);
    var i :| 0 <= i < |s| && s[i] == t[|t| - 1];
  }

  /** Removing elements without changing the length removes nothing. */
  lemma ShrinkingKeepsAll(before: seq<nat>, after: seq<nat>)
    requires StrictlyIncreasing(before) && StrictlyIncreasing(after)
    requires forall u :: u in after ==> u in before
    requires |before| == |after|
    ensures before == after
  {
    IncreasingHasNoDuplicates(before);
    IncreasingHasNoDuplicates(after);
    SubsetOfEqualSize(Elements(after), Elements(before));
    IncreasingIsUnique(before, after);
  }

  lemma SubsetOfEqualSize<T>(small: set<T>, big: set<T>)
    requires small <= big && |small| == |big|
    ensures small == big
  {
    assert big == small + (big - small);
    assert |big| == |small| + |big - small|;
  }

  /** The sum of a map's values. */
  ghost function Sum<K(!new)>(m: map<K, nat>): nat
  {
    if m == map[] then 0 else
      var k :| k in m;
      m[k] + Sum(m - {k})
  }

  lemma {:induction false} SumRemove<K(!new)>(m: map<K, nat>, k: K)
    requires k in m
    ensures Sum(m) == m[k] + Sum(m - {k})
    decreases |m|
  {
    var pick :| pick in m && Sum(m) == m[pick] + Sum(m - {pick});
    if pick != k {
      SumRemove(m - {pick}, k);
      SumRemove(m - {k}, pick);
      assert m - {pick} - {k} == m - {k} - {pick};
    }
  }

  lemma SumInsert<K(!new)>(m: map<K, nat>, k: K, v: nat)
    requires k !in m
    ensures Sum(m[k := v]) == v + Sum(m)
  {
    SumRemove(m[k := v], k);
    assert m[k := v] - {k} == m;
  }

  /** Setting one key moves the sum by exactly the change at that key. */
  lemma SumUpdate<K(!new)>(m: map<K, nat>, k: K, v: nat)
    ensures Sum(m[k := v]) + (if k in m then m[k] else 0) == Sum(m) + v
  {
    if k in m {
      SumRemove(m, k);
      SumInsert(m - {k}, k, v);
      assert (m - {k})[k := v] == m[k := v];
    } else {
      SumInsert(m, k, v);
    }
  }

  lemma SumBoundsParts<K(!new)>(m: map<K, nat>, k: K)
    requires k in m
    ensures m[k] <= Sum(m)
  {
    SumRemove(m, k);
  }
}
