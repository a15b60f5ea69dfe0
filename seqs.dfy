/** Sequence helpers standing for Python list idioms: slicing, dict key order, membership. */
module Seqs {
  import opened Wrappers

  /** Python's `s[:n]`. */
  function Take<T>(s: seq<T>, n: nat): (r: seq<T>)
    ensures |r| == Min(n, |s|) && r == s[..|r|]
  {
    s[..Min(n, |s|)]
  }

  /** No element occurs twice. */
  predicate NoDuplicates<T(==)>(s: seq<T>) {
    forall i, j :: 0 <= i < j < |s| ==> s[i] != s[j]
  }

  /** Appending an element not yet present keeps a sequence free of duplicates. */
  lemma NoDuplicatesSnoc<T>(s: seq<T>, x: T)
    requires NoDuplicates(s) && x !in s
    ensures NoDuplicates(s + [x])
  {
  }

  /** Index of the first occurrence of x in s. */
  function FirstIndex<T(==)>(s: seq<T>, x: T): (k: nat)
    requires x in s
    ensures k < |s| && s[k] == x && x !in s[..k]
  {
    if s[0] == x then 0 else 1 + FirstIndex(s[1..], x)
  }

  /**
   * The distinct elements of s in order of first occurrence: the key order of a
   * Python dict into which the elements of s are inserted one after another.
   */
  function Distinct<T(==)>(s: seq<T>): (d: seq<T>)
    ensures forall i :: 0 <= i < |s| ==> s[i] in d
    ensures forall i :: 0 <= i < |d| ==> d[i] in s
    ensures NoDuplicates(d)
  {
    if s == [] then []
    else
      var d := Distinct(s[..|s| - 1]);
      if s[|s| - 1] in d then d else d + [s[|s| - 1]]
  }

  lemma FirstIndexOfPrefix<T>(s: seq<T>, n: nat, x: T)
    requires n <= |s| && x in s[..n]
    ensures x in s && FirstIndex(s, x) == FirstIndex(s[..n], x)
  {
    var k := FirstIndex(s[..n], x);
    assert s[..n][..k] == s[..k];
    FirstIndexUnique(s, x, k);
  }

  lemma FirstIndexUnique<T>(s: seq<T>, x: T, k: nat)
    requires k < |s| && s[k] == x && x !in s[..k]
    ensures x in s && FirstIndex(s, x) == k
  {
  }

  /** Distinct keeps elements in the order in which they first occur in s. */
  lemma {:induction false} DistinctInFirstOccurrenceOrder<T>(s: seq<T>, i: nat, j: nat)
    requires i < j < |Distinct(s)|
    ensures Distinct(s)[i] in s && Distinct(s)[j] in s
    ensures FirstIndex(s, Distinct(s)[i]) < FirstIndex(s, Distinct(s)[j])
  {
    var d := Distinct(s);
    var p := s[..|s| - 1];
    var dp := Distinct(p);
    var y := s[|s| - 1];
    if j < |dp| {
      DistinctInFirstOccurrenceOrder(p, i, j);
      FirstIndexOfPrefix(s, |s| - 1, dp[i]);
      FirstIndexOfPrefix(s, |s| - 1, dp[j]);
    } else {
      assert y !in dp && d == dp + [y] && j == |dp|;
      assert y !in p;
      assert s[..|s| - 1] == p;
      FirstIndexUnique(s, y, |s| - 1);
      FirstIndexOfPrefix(s, |s| - 1, dp[i]);
    }
  }

  /** The elements of s that satisfy p, in order: `[x for x in s if p(x)]`. */
  function Filter<T(==)>(s: seq<T>, p: T -> bool): (r: seq<T>)
    ensures |r| <= |s|
    ensures forall i :: 0 <= i < |r| ==> p(r[i]) && r[i] in s
    ensures forall i :: 0 <= i < |s| && p(s[i]) ==> s[i] in r
  {
    if s == [] then []
    else
      var init := s[..|s| - 1];
      var r := Filter(init, p) + (if p(s[|s| - 1]) then [s[|s| - 1]] else []);
      assert forall i :: 0 <= i < |s| - 1 ==> s[i] == init[i];
      r
  }

  /** Filtering a prefix one element longer. */
  lemma FilterPrefix<T>(s: seq<T>, p: T -> bool, j: nat)
    requires j < |s|
    ensures Filter(s[..j + 1], p) == Filter(s[..j], p) + (if p(s[j]) then [s[j]] else [])
  {
    assert s[..j + 1][..j] == s[..j];
  }

  /** Filter keeps the relative order of the elements it keeps. */
  lemma {:induction false} FilterKeepsOrder<T>(s: seq<T>, p: T -> bool, i: nat, j: nat)
    requires i < j < |Filter(s, p)|
    ensures exists a, b :: 0 <= a < b < |s| && s[a] == Filter(s, p)[i] && s[b] == Filter(s, p)[j]
  {
    var init := s[..|s| - 1];
    var r := Filter(s, p);
    var ri := Filter(init, p);
    assert r == ri + (if p(s[|s| - 1]) then [s[|s| - 1]] else []);
    if j < |ri| {
      FilterKeepsOrder(init, p, i, j);
      var a, b :| 0 <= a < b < |init| && init[a] == ri[i] && init[b] == ri[j];
      assert s[a] == r[i] && s[b] == r[j];
    } else {
      assert r[j] == s[|s| - 1];
      var a :| 0 <= a < |init| && init[a] == ri[i];
      assert s[a] == r[i];
    }
  }

  /** Without duplicates every element occurs exactly once. */
  lemma {:induction false} NoDuplicatesCount<T>(s: seq<T>, x: T)
    requires NoDuplicates(s)
    ensures multiset(s)[x] <= 1
  {
    if s != [] {
      var init := s[..|s| - 1];
      assert NoDuplicates(init);
      NoDuplicatesCount(init, x);
      assert s == init + [s[|s| - 1]];
      if x == s[|s| - 1] {
        assert x !in init;
      }
    }
  }

  /** Two equal elements at different positions make the count at least two. */
  lemma RepeatCount<T>(s: seq<T>, i: nat, j: nat)
    requires i < j < |s| && s[i] == s[j]
    ensures multiset(s)[s[i]] >= 2
  {
    assert s == s[..i] + [s[i]] + s[i + 1..j] + [s[j]] + s[j + 1..];
  }

  /** A rearrangement of a sequence without duplicates has none. */
  lemma PermutationNoDuplicates<T>(a: seq<T>, b: seq<T>)
    requires multiset(a) == multiset(b) && NoDuplicates(a)
    ensures NoDuplicates(b)
  {
    forall i, j | 0 <= i < j < |b| ensures b[i] != b[j] {
      if b[i] == b[j] {
        RepeatCount(b, i, j);
        NoDuplicatesCount(a, b[i]);
        assert false;
      }
    }
  }

  /**
   * The dict `{key(v): v for v in vs}`: every key of an element is present, and a later
   * element replaces an earlier one with the same key.
   */
  function IndexBy<K(==,!new), V>(vs: seq<V>, key: V -> K): (m: map<K, V>)
    ensures forall k :: k in m <==> exists i :: 0 <= i < |vs| && key(vs[i]) == k
    ensures forall k :: k in m ==> key(m[k]) == k && m[k] in vs
  {
    if vs == [] then map[]
    else
      var init := vs[..|vs| - 1];
      var v := vs[|vs| - 1];
      assert forall i :: 0 <= i < |init| ==> init[i] == vs[i];
      assert vs == init + [v];
      IndexBy(init, key)[key(v) := v]
  }

  /** An element whose key no later element shares is the one the dict keeps. */
  lemma {:induction false} IndexByLastWins<K(!new), V>(vs: seq<V>, key: V -> K, i: nat)
    requires i < |vs| && forall j :: i < j < |vs| ==> key(vs[j]) != key(vs[i])
    ensures key(vs[i]) in IndexBy(vs, key) && IndexBy(vs, key)[key(vs[i])] == vs[i]
  {
    if i < |vs| - 1 {
      var init := vs[..|vs| - 1];
      IndexByLastWins(init, key, i);
    }
  }
}
