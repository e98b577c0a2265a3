/** Grouping rows by a key, as the chart builder does with its Go maps:
    the keys in first-seen order, the positions of each key, and the facts
    that make a first-seen grouping a partition of the rows. */
module Grouping {

  predicate NoDuplicates<K(==)>(s: seq<K>)
  {
    forall i, j :: 0 <= i < j < |s| ==> s[i] != s[j]
  }

  /** The position of the first occurrence of x in s. */
  function IndexOf<K(==)>(s: seq<K>, x: K): (i: nat)
    requires x in s
    ensures i < |s| && s[i] == x
    ensures forall k :: 0 <= k < i ==> s[k] != x
  {
    if s[0] == x then 0 else 1 + IndexOf(s[1..], x)
  }

  /** The distinct elements of s in the order in which they are first seen. */
  function Distinct<K(==,!new)>(s: seq<K>): (r: seq<K>)
    ensures forall x :: x in r <==> x in s
    ensures NoDuplicates(r)
    ensures |r| <= |s|
  {
    if s == [] then []
    else
      var p := Distinct(s[..|s| - 1]);
      assert s == s[..|s| - 1] + [s[|s| - 1]];
      if s[|s| - 1] in p then p else p + [s[|s| - 1]]
  }

  /** One more element: Distinct grows only when the element is new. */
  lemma DistinctSnoc<K(!new)>(s: seq<K>, x: K)
    ensures Distinct(s + [x]) == if x in s then Distinct(s) else Distinct(s) + [x]
  {
    assert (s + [x])[..|s|] == s;
  }

  lemma IndexOfSnoc<K>(s: seq<K>, x: K, y: K)
    requires y in s
    ensures IndexOf(s + [x], y) == IndexOf(s, y)
  {
    var i := IndexOf(s, y);
    var j := IndexOf(s + [x], y);
    assert (s + [x])[i] == y;
    assert s[j] == y;
  }

  lemma IndexOfAppended<K>(s: seq<K>, x: K)
    requires x !in s
    ensures IndexOf(s + [x], x) == |s|
  {
    assert (s + [x])[|s|] == x;
    assert forall k :: 0 <= k < |s| ==> (s + [x])[k] == s[k];
  }

  /** First-seen order: the i-th distinct key occurs first before the j-th one. */
  lemma {:induction false} DistinctFirstSeenOrder<K(!new)>(s: seq<K>, i: nat, j: nat)
    requires i < j < |Distinct(s)|
    ensures IndexOf(s, Distinct(s)[i]) < IndexOf(s, Distinct(s)[j])
  {
    var n := |s| - 1;
    var p := s[..n];
    assert s == p + [s[n]];
    DistinctSnoc(p, s[n]);
    var d := Distinct(p);
    assert Distinct(s)[i] in s && Distinct(s)[i] in p by {
      if i < |d| { assert Distinct(s)[i] == d[i]; }
    }
    IndexOfSnoc(p, s[n], Distinct(s)[i]);
    if j < |d| {
      assert Distinct(s)[i] == d[i] && Distinct(s)[j] == d[j];
      DistinctFirstSeenOrder(p, i, j);
      IndexOfSnoc(p, s[n], d[j]);
    } else {
      assert s[n] !in p && Distinct(s)[j] == s[n];
      IndexOfAppended(p, s[n]);
    }
  }

  /** The number of distinct keys is the number of different values in s. */
  lemma {:induction false} DistinctCount<K(!new)>(s: seq<K>)
    ensures |Distinct(s)| == |set x | x in s|
  {
    if s != [] {
      var n := |s| - 1;
      var p := s[..n];
      assert s == p + [s[n]];
      DistinctSnoc(p, s[n]);
      DistinctCount(p);
      var sp := set x | x in p;
      assert (set x | x in s) == sp + {s[n]};
      if s[n] !in p {
        assert s[n] !in sp;
      } else {
        assert s[n] in sp;
      }
    }
  }

  /** The ascending positions at which s holds the key k. */
  function IndicesOf<K(==)>(s: seq<K>, k: K): (r: seq<nat>)
    ensures forall i :: i in r <==> 0 <= i < |s| && s[i] == k
    ensures forall a, b :: 0 <= a < b < |r| ==> r[a] < r[b]
    ensures forall a :: 0 <= a < |r| ==> r[a] < |s|
  {
    if s == [] then []
    else
      var p := IndicesOf(s[..|s| - 1], k);
      if s[|s| - 1] == k then p + [|s| - 1] else p
  }

  /** A new key is first seen right after the keys already distinguished. */
  lemma DistinctIndexOfNew<K(!new)>(s: seq<K>, x: K)
    requires x !in s
    ensures x in Distinct(s + [x]) && IndexOf(Distinct(s + [x]), x) == |Distinct(s)|
  {
    DistinctSnoc(s, x);
    IndexOfAppended(Distinct(s), x);
  }

  /** One more element does not move the first-seen position of a known key. */
  lemma DistinctIndexOfKnown<K(!new)>(s: seq<K>, x: K, c: K)
    requires c in s
    ensures c in Distinct(s + [x]) && IndexOf(Distinct(s + [x]), c) == IndexOf(Distinct(s), c)
  {
    DistinctSnoc(s, x);
    IndexOfSnoc(Distinct(s), x, c);
  }

  /** A new key's only position is the last one. */
  lemma IndicesOfNew<K>(s: seq<K>, x: K)
    requires x !in s
    ensures IndicesOf(s + [x], x) == [|s|]
  {
    IndicesOfSnoc(s, x, x);
    IndicesOfAbsent(s, x);
  }

  /** A key that does not occur has no positions. */
  lemma IndicesOfAbsent<K>(s: seq<K>, k: K)
    requires k !in s
    ensures IndicesOf(s, k) == []
  {
  }

  lemma IndicesOfSnoc<K>(s: seq<K>, x: K, k: K)
    ensures IndicesOf(s + [x], k) == IndicesOf(s, k) + (if x == k then [|s|] else [])
  {
    assert (s + [x])[..|s|] == s;
  }

  /** In a sequence without duplicates, an element occurs once or not at all. */
  lemma {:induction false} NoDuplicatesMultiplicity<K>(s: seq<K>, x: K)
    requires NoDuplicates(s)
    ensures multiset(s)[x] == if x in s then 1 else 0
  {
    if s != [] {
      var rest := s[1..];
      assert s == [s[0]] + rest;
      assert NoDuplicates(rest) by {
        forall i, j | 0 <= i < j < |rest| ensures rest[i] != rest[j] {
          assert rest[i] == s[i + 1] && rest[j] == s[j + 1];
        }
      }
      NoDuplicatesMultiplicity(rest, x);
      assert s[0] !in rest by {
        forall i | 0 <= i < |rest| ensures rest[i] != s[0] {
          assert rest[i] == s[i + 1];
        }
      }
    }
  }

  /** Two duplicate-free sequences with the same elements are permutations of each other. */
  lemma SameElementsPermutation<K>(a: seq<K>, b: seq<K>)
    requires NoDuplicates(a) && NoDuplicates(b)
    requires forall x :: x in a <==> x in b
    ensures multiset(a) == multiset(b)
  {
    forall x ensures multiset(a)[x] == multiset(b)[x] {
      NoDuplicatesMultiplicity(a, x);
      NoDuplicatesMultiplicity(b, x);
    }
  }

  /** A map keyed by the distinct elements of keys, after storing under x,
      is keyed by the distinct elements of keys + [x]. */
  lemma KeysAfterStore<K(!new), V>(keys: seq<K>, m: map<K, V>, x: K, v: V)
    requires forall c :: c in m <==> c in keys
    requires |m| == |Distinct(keys)|
    ensures forall c :: c in m[x := v] <==> c in keys + [x]
    ensures |m[x := v]| == |Distinct(keys + [x])|
  {
    DistinctSnoc(keys, x);
    if x in m {
      assert m[x := v].Keys == m.Keys;
    }
  }

  /** Reading a map with no two keys sharing a value along two duplicate-free
      orderings of the same keys gives two permutations of each other. */
  lemma KeyedPermutation<K, V>(m: map<K, V>, chosen: seq<K>, cats: seq<K>, a: seq<V>, b: seq<V>)
    requires NoDuplicates(chosen) && NoDuplicates(cats)
    requires forall c :: c in chosen <==> c in cats
    requires forall c :: c in cats ==> c in m
    requires forall c, e :: c in m && e in m && c != e ==> m[c] != m[e]
    requires |a| == |chosen| && forall k :: 0 <= k < |chosen| ==> a[k] == m[chosen[k]]
    requires |b| == |cats| && forall k :: 0 <= k < |cats| ==> b[k] == m[cats[k]]
    ensures multiset(a) == multiset(b)
  {
    forall i, j | 0 <= i < j < |a| ensures a[i] != a[j] {
      assert chosen[i] != chosen[j];
    }
    forall i, j | 0 <= i < j < |b| ensures b[i] != b[j] {
      assert cats[i] != cats[j];
    }
    forall x | x in a ensures x in b {
      var k :| 0 <= k < |a| && a[k] == x;
      assert chosen[k] in cats;
      var j :| 0 <= j < |cats| && cats[j] == chosen[k];
      assert b[j] == x;
    }
    forall x | x in b ensures x in a {
      var j :| 0 <= j < |b| && b[j] == x;
      assert cats[j] in chosen;
      var k :| 0 <= k < |chosen| && chosen[k] == cats[j];
      assert a[k] == x;
    }
    SameElementsPermutation(a, b);
  }
}
