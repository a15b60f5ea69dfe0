/**
 * Python's `sorted(xs, key=k, reverse=True)`: a stable sort into non-increasing key
 * order. Elements with equal keys keep their input order (Python keeps stability
 * under `reverse=True`).
 */
module Sorting {
  import opened Wrappers

  /** Keys never increase from left to right. */
  ghost predicate SortedDesc<T>(s: seq<T>, key: T -> int) {
    forall i, j :: 0 <= i < j < |s| ==> key(s[i]) >= key(s[j])
  }

  /** The subsequence of the elements of s whose key is k. */
  function KeyClass<T>(s: seq<T>, key: T -> int, k: int): seq<T> {
    if s == [] then []
    else (if key(s[0]) == k then [s[0]] else []) + KeyClass(s[1..], key, k)
  }

  /** Inserts x before the first element whose key is not greater than x's. */
  function InsertDesc<T>(x: T, s: seq<T>, key: T -> int): seq<T> {
    if s == [] then [x]
    else if key(s[0]) <= key(x) then [x] + s
    else [s[0]] + InsertDesc(x, s[1..], key)
  }

  function SortDesc<T>(s: seq<T>, key: T -> int): seq<T> {
    if s == [] then [] else InsertDesc(s[0], SortDesc(s[1..], key), key)
  }

  /** Stability: every class of equal keys keeps its order, as ties do in Python. */
  ghost predicate Stable<T>(input: seq<T>, output: seq<T>, key: T -> int) {
    forall k :: KeyClass(output, key, k) == KeyClass(input, key, k)
  }

  lemma {:induction false} InsertDescPerm<T>(x: T, s: seq<T>, key: T -> int)
    ensures multiset(InsertDesc(x, s, key)) == multiset(s) + multiset{x}
  {
    if s != [] && key(s[0]) > key(x) {
      InsertDescPerm(x, s[1..], key);
      assert s == [s[0]] + s[1..];
    }
  }

  lemma {:induction false} InsertDescSorted<T>(x: T, s: seq<T>, key: T -> int)
    requires SortedDesc(s, key)
    ensures SortedDesc(InsertDesc(x, s, key), key)
  {
    if s != [] && key(s[0]) > key(x) {
      var t := InsertDesc(x, s[1..], key);
      InsertDescSorted(x, s[1..], key);
      InsertDescPerm(x, s[1..], key);
      var r := [s[0]] + t;
      forall j | 0 < j < |r| ensures key(r[0]) >= key(r[j]) {
        assert r[j] in multiset(s[1..]) + multiset{x};
        if r[j] != x {
          var m :| 0 <= m < |s[1..]| && s[1..][m] == r[j];
          assert s[m + 1] == r[j];
        }
      }
    }
  }

  lemma {:induction false} InsertDescClasses<T>(x: T, s: seq<T>, key: T -> int, k: int)
    requires SortedDesc(s, key)
    ensures KeyClass(InsertDesc(x, s, key), key, k)
            == (if key(x) == k then [x] else []) + KeyClass(s, key, k)
  {
    if s == [] {
    } else if key(s[0]) <= key(x) {
      assert ([x] + s)[1..] == s;
    } else {
      var t := InsertDesc(x, s[1..], key);
      InsertDescClasses(x, s[1..], key, k);
      assert ([s[0]] + t)[1..] == t;
    }
  }

  /** The sorted sequence is ordered, a permutation of the input, and stable. */
  lemma {:induction false} SortDescFacts<T>(s: seq<T>, key: T -> int)
    ensures SortedDesc(SortDesc(s, key), key)
    ensures multiset(SortDesc(s, key)) == multiset(s)
    ensures |SortDesc(s, key)| == |s|
    ensures Stable(s, SortDesc(s, key), key)
  {
    if s != [] {
      SortDescFacts(s[1..], key);
      InsertDescSorted(s[0], SortDesc(s[1..], key), key);
      InsertDescPerm(s[0], SortDesc(s[1..], key), key);
      assert s == [s[0]] + s[1..];
      forall k ensures KeyClass(SortDesc(s, key), key, k) == KeyClass(s, key, k) {
        InsertDescClasses(s[0], SortDesc(s[1..], key), key, k);
      }
      assert multiset(s) == multiset(s[1..]) + multiset{s[0]};
    }
    assert |multiset(SortDesc(s, key))| == |multiset(s)|;
  }

  /** The sorted sequence is a permutation of the input. */
  lemma {:induction false} SortDescPerm<T>(s: seq<T>, key: T -> int)
    ensures multiset(SortDesc(s, key)) == multiset(s) && |SortDesc(s, key)| == |s|
  {
    if s != [] {
      SortDescPerm(s[1..], key);
      InsertDescPerm(s[0], SortDesc(s[1..], key), key);
      assert s == [s[0]] + s[1..];
    }
    assert |multiset(SortDesc(s, key))| == |multiset(s)|;
  }

  /**
   * Sorting commutes with a projection f when the key sorted by agrees, on the
   * elements, with a key taken through f.
   */
  lemma {:induction false} SortDescMap<A, B>(s: seq<A>, f: A -> B, keyA: A -> int, key: B -> int)
    requires forall i :: 0 <= i < |s| ==> keyA(s[i]) == key(f(s[i]))
    ensures MapSeq(SortDesc(s, keyA), f) == SortDesc(MapSeq(s, f), key)
  {
    if s != [] {
      SortDescMap(s[1..], f, keyA, key);
      assert MapSeq(s, f)[1..] == MapSeq(s[1..], f);
      var t := SortDesc(s[1..], keyA);
      SortDescPerm(s[1..], keyA);
      forall i | 0 <= i < |t| ensures keyA(t[i]) == key(f(t[i])) {
        assert t[i] in multiset(s[1..]);
      }
      InsertDescMap(s[0], t, f, keyA, key);
    }
  }

  lemma {:induction false} InsertDescMap<A, B>(x: A, s: seq<A>, f: A -> B, keyA: A -> int, key: B -> int)
    requires keyA(x) == key(f(x)) && forall i :: 0 <= i < |s| ==> keyA(s[i]) == key(f(s[i]))
    ensures MapSeq(InsertDesc(x, s, keyA), f) == InsertDesc(f(x), MapSeq(s, f), key)
  {
    if s != [] {
      assert MapSeq(s, f)[1..] == MapSeq(s[1..], f);
      if keyA(s[0]) > keyA(x) {
        InsertDescMap(x, s[1..], f, keyA, key);
      }
    }
  }

  /** Applies f to each element, keeping the order. */
  function MapSeq<A, B>(s: seq<A>, f: A -> B): (r: seq<B>)
    ensures |r| == |s| && forall i :: 0 <= i < |s| ==> r[i] == f(s[i])
  {
    if s == [] then [] else [f(s[0])] + MapSeq(s[1..], f)
  }

  lemma {:induction false} MapSeqAppend<A, B>(a: seq<A>, b: seq<A>, f: A -> B)
    ensures MapSeq(a + b, f) == MapSeq(a, f) + MapSeq(b, f)
  {
    if a != [] {
      assert (a + b)[1..] == a[1..] + b;
      calc {
        MapSeq(a + b, f);
        [f(a[0])] + MapSeq(a[1..] + b, f);
        { MapSeqAppend(a[1..], b, f); }
        [f(a[0])] + (MapSeq(a[1..], f) + MapSeq(b, f));
      }
    }
  }

  /** Extending a prefix by one element extends its image by that element's image. */
  lemma MapSeqPrefix<A, B>(s: seq<A>, f: A -> B, j: nat)
    requires j < |s|
    ensures MapSeq(s[..j + 1], f) == MapSeq(s[..j], f) + [f(s[j])]
  {
    assert s[..j + 1] == s[..j] + [s[j]];
    MapSeqAppend(s[..j], [s[j]], f);
  }

  /** The position at which InsertDesc places x. */
  function InsertPos<T>(x: T, s: seq<T>, key: T -> int): (m: nat)
    ensures m <= |s|
    ensures forall i :: 0 <= i < m ==> key(s[i]) > key(x)
    ensures m < |s| ==> key(s[m]) <= key(x)
  {
    if s == [] || key(s[0]) <= key(x) then 0 else 1 + InsertPos(x, s[1..], key)
  }

  lemma {:induction false} InsertDescSplit<T>(x: T, s: seq<T>, key: T -> int)
    ensures InsertDesc(x, s, key) == s[..InsertPos(x, s, key)] + [x] + s[InsertPos(x, s, key)..]
  {
    if s != [] && key(s[0]) > key(x) {
      InsertDescSplit(x, s[1..], key);
      var m := InsertPos(x, s[1..], key);
      assert s[..m + 1] == [s[0]] + s[1..][..m];
      assert s[m + 1..] == s[1..][m..];
    }
  }

  /**
   * Two elements with equal keys appear in the sorted sequence in the order they
   * have in the input: at the input positions a < b.
   */
  lemma {:induction false} TiesKeepOrder<T>(s: seq<T>, key: T -> int, i: nat, j: nat) returns (a: nat, b: nat)
    requires i < j < |SortDesc(s, key)| && key(SortDesc(s, key)[i]) == key(SortDesc(s, key)[j])
    ensures a < b < |s| && s[a] == SortDesc(s, key)[i] && s[b] == SortDesc(s, key)[j]
  {
    var t, m := SortedAsInserted(s, key);
    var o := SortDesc(s, key);
    InsertedAt(t, m, s[0], i);
    InsertedAt(t, m, s[0], j);
    if j == m {
      assert false;
    } else if i == m {
      var c := SourceOf(s, key, j - 1);
      a, b := 0, c + 1;
    } else {
      var i', j' := if i < m then i else i - 1, if j < m then j else j - 1;
      a, b := TiesKeepOrder(s[1..], key, i', j');
      assert s[a + 1] == t[i'] && s[b + 1] == t[j'];
      a, b := a + 1, b + 1;
    }
  }

  /** The sorted sequence is the sorted tail with the head inserted at position m. */
  lemma SortedAsInserted<T>(s: seq<T>, key: T -> int) returns (t: seq<T>, m: nat)
    requires s != []
    ensures t == SortDesc(s[1..], key) && m <= |t| && SortDesc(s, key) == t[..m] + [s[0]] + t[m..]
    ensures forall k :: 0 <= k < m ==> key(t[k]) > key(s[0])
    ensures m < |t| ==> key(t[m]) <= key(s[0])
  {
    t := SortDesc(s[1..], key);
    m := InsertPos(s[0], t, key);
    InsertDescSplit(s[0], t, key);
    SortDescPerm(s[1..], key);
  }

  /** Every element of the sorted tail comes from the tail. */
  lemma SourceOf<T>(s: seq<T>, key: T -> int, k: nat) returns (c: nat)
    requires s != [] && k < |SortDesc(s[1..], key)|
    ensures c + 1 < |s| && s[c + 1] == SortDesc(s[1..], key)[k]
  {
    var t := SortDesc(s[1..], key);
    SortDescPerm(s[1..], key);
    assert t[k] in multiset(s[1..]);
    c :| 0 <= c < |s[1..]| && s[1..][c] == t[k];
  }

  /** Element k of t with x inserted at position m. */
  lemma InsertedAt<T>(t: seq<T>, m: nat, x: T, k: nat)
    requires m <= |t| && k <= |t|
    ensures (t[..m] + [x] + t[m..])[k] == if k < m then t[k] else if k == m then x else t[k - 1]
  {
  }

  /** An element left out of the first n of the sorted sequence has a key no larger than theirs. */
  lemma TopPrefix<T>(s: seq<T>, key: T -> int, n: nat, x: T)
    requires x in s && x !in SortDesc(s, key)[..Min(n, |SortDesc(s, key)|)]
    ensures forall i :: 0 <= i < Min(n, |SortDesc(s, key)|) ==> key(SortDesc(s, key)[i]) >= key(x)
  {
    var o := SortDesc(s, key);
    SortDescFacts(s, key);
    assert x in multiset(s);
    var k :| 0 <= k < |o| && o[k] == x;
  }

  lemma {:induction false} InsertDescKeys<T>(x: T, s: seq<T>, k1: T -> int, k2: T -> int)
    requires k1(x) == k2(x) && forall i :: 0 <= i < |s| ==> k1(s[i]) == k2(s[i])
    ensures InsertDesc(x, s, k1) == InsertDesc(x, s, k2)
  {
    if s != [] && k1(s[0]) > k1(x) {
      InsertDescKeys(x, s[1..], k1, k2);
    }
  }

  /** Sorting depends on the key only through its values on the elements being sorted. */
  lemma {:induction false} SortDescKeys<T>(s: seq<T>, k1: T -> int, k2: T -> int)
    requires forall i :: 0 <= i < |s| ==> k1(s[i]) == k2(s[i])
    ensures SortDesc(s, k1) == SortDesc(s, k2)
  {
    if s != [] {
      SortDescKeys(s[1..], k1, k2);
      var t := SortDesc(s[1..], k1);
      SortDescPerm(s[1..], k1);
      forall i | 0 <= i < |t| ensures k1(t[i]) == k2(t[i]) {
        assert t[i] in multiset(s[1..]);
      }
      InsertDescKeys(s[0], t, k1, k2);
    }
  }
}
