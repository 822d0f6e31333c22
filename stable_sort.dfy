/**
 * The stable sort of `Array.prototype.sort` (stable since ECMAScript 2019) with a numeric
 * comparator `(a, b) => key(a) - key(b)`, as a pure function on sequences.
 */
module StableSort {

  predicate SortedBy<T>(s: seq<T>, key: T -> int) {
    forall i, j :: 0 <= i < j < |s| ==> key(s[i]) <= key(s[j])
  }

  /** The elements of s whose key is k, in their order in s. */
  function WithKey<T>(s: seq<T>, key: T -> int, k: int): seq<T> {
    if s == [] then []
    else (if key(s[0]) == k then [s[0]] else []) + WithKey(s[1..], key, k)
  }

  /** Stability: for every key value, the elements carrying it appear in the same order. */
  ghost predicate SameRuns<T>(s: seq<T>, t: seq<T>, key: T -> int) {
    forall k :: WithKey(s, key, k) == WithKey(t, key, k)
  }

  /** Puts x before the first element whose key is not smaller than x's. */
  function Insert<T>(x: T, s: seq<T>, key: T -> int): (r: seq<T>)
    ensures multiset(r) == multiset(s) + multiset{x}
  {
    if s == [] || key(x) <= key(s[0]) then [x] + s
    else
      assert s == [s[0]] + s[1..];
      [s[0]] + Insert(x, s[1..], key)
  }

  lemma {:induction false} InsertSorted<T>(x: T, s: seq<T>, key: T -> int)
    requires SortedBy(s, key)
    ensures SortedBy(Insert(x, s, key), key)
  {
    if s != [] && key(x) > key(s[0]) {
      InsertSorted(x, s[1..], key);
      var rest := Insert(x, s[1..], key);
      forall i | 0 <= i < |rest| ensures key(s[0]) <= key(rest[i]) {
        assert rest[i] in multiset(rest);
        assert rest[i] == x || rest[i] in multiset(s[1..]);
        if rest[i] != x {
          var j :| 0 <= j < |s[1..]| && s[1..][j] == rest[i];
          assert s[1 + j] == rest[i];
        }
      }
    }
  }

  /** The run of key k in a sequence with one more element in front. */
  lemma WithKeyCons<T>(x: T, s: seq<T>, key: T -> int, k: int)
    ensures WithKey([x] + s, key, k) == (if key(x) == k then [x] else []) + WithKey(s, key, k)
  {
    assert ([x] + s)[1..] == s;
  }

  lemma {:induction false} InsertRuns<T>(x: T, s: seq<T>, key: T -> int, k: int)
    ensures WithKey(Insert(x, s, key), key, k) == (if key(x) == k then [x] else []) + WithKey(s, key, k)
  {
    if s == [] || key(x) <= key(s[0]) {
      WithKeyCons(x, s, key, k);
    } else {
      var rest := Insert(x, s[1..], key);
      var w := WithKey(s[1..], key, k);
      var mid := if key(x) == k then [x] else [];
      var head := if key(s[0]) == k then [s[0]] else [];
      assert WithKey(rest, key, k) == mid + w by {
        InsertRuns(x, s[1..], key, k);
      }
      assert WithKey(Insert(x, s, key), key, k) == head + WithKey(rest, key, k) by {
        WithKeyCons(s[0], rest, key, k);
      }
      assert WithKey(s, key, k) == head + w by {
        assert s == [s[0]] + s[1..];
        WithKeyCons(s[0], s[1..], key, k);
      }
      // x's key is larger than s[0]'s, so at most one of them is in the run
      if key(x) == k {
        assert head == [];
      } else {
        assert mid == [];
      }
    }
  }

  /** Insertion sort; the result is sorted, a permutation of s, and stable. */
  function SortBy<T>(s: seq<T>, key: T -> int): (r: seq<T>)
    ensures |r| == |s|
    ensures multiset(r) == multiset(s)
    ensures SortedBy(r, key)
    ensures SameRuns(r, s, key)
  {
    if s == [] then []
    else
      var sorted := SortBy(s[1..], key);
      var r := Insert(s[0], sorted, key);
      assert s == [s[0]] + s[1..];
      assert |r| == |multiset(r)|;
      InsertSorted(s[0], sorted, key);
      forall k ensures WithKey(r, key, k) == WithKey(s, key, k) {
        InsertRuns(s[0], sorted, key, k);
      }
      r
  }

  lemma {:induction false} WithKeyMember<T>(s: seq<T>, key: T -> int, k: int, x: T)
    requires x in WithKey(s, key, k)
    ensures x in s && key(x) == k
  {
    if s != [] && !(key(s[0]) == k && x == s[0]) {
      WithKeyMember(s[1..], key, k, x);
    }
  }

  lemma WithKeyHead<T>(s: seq<T>, key: T -> int)
    ensures s != [] ==> WithKey(s, key, key(s[0])) != []
  {
  }

  /** A sorted sequence is determined by its runs of equal keys. */
  lemma {:induction false} SortedRunsDetermine<T>(t: seq<T>, u: seq<T>, key: T -> int)
    requires SortedBy(t, key) && SortedBy(u, key) && SameRuns(t, u, key)
    ensures t == u
    decreases |t|
  {
    if t == [] || u == [] {
      WithKeyHead(t, key);
      WithKeyHead(u, key);
    } else {
      var a, b := key(t[0]), key(u[0]);
      assert t[0] in WithKey(u, key, a) by { assert WithKey(t, key, a)[0] == t[0]; }
      assert u[0] in WithKey(t, key, b) by { assert WithKey(u, key, b)[0] == u[0]; }
      WithKeyMember(u, key, a, t[0]);
      WithKeyMember(t, key, b, u[0]);
      assert a == b;
      assert WithKey(t, key, a) == [t[0]] + WithKey(t[1..], key, a);
      assert WithKey(u, key, a) == [u[0]] + WithKey(u[1..], key, a);
      forall k ensures WithKey(t[1..], key, k) == WithKey(u[1..], key, k) {
        assert WithKey(t, key, k) == WithKey(u, key, k);
        if k == a {
          assert [t[0]] + WithKey(t[1..], key, k) == [u[0]] + WithKey(u[1..], key, k);
          assert ([t[0]] + WithKey(t[1..], key, k))[1..] == WithKey(t[1..], key, k);
          assert ([u[0]] + WithKey(u[1..], key, k))[1..] == WithKey(u[1..], key, k);
        } else {
          assert WithKey(t, key, k) == WithKey(t[1..], key, k);
          assert WithKey(u, key, k) == WithKey(u[1..], key, k);
        }
      }
      SortedRunsDetermine(t[1..], u[1..], key);
      assert t == [t[0]] + t[1..] && u == [u[0]] + u[1..];
    }
  }

  /** Any sorted, stable rearrangement of s is the one SortBy computes. */
  lemma SortByUnique<T>(s: seq<T>, t: seq<T>, key: T -> int)
    requires SortedBy(t, key) && SameRuns(t, s, key)
    ensures t == SortBy(s, key)
  {
    var r := SortBy(s, key);
    SortedRunsDetermine(t, r, key);
  }

  /** Sorting an already sorted sequence leaves it as it is. */
  lemma SortBySorted<T>(s: seq<T>, key: T -> int)
    requires SortedBy(s, key)
    ensures SortBy(s, key) == s
  {
    SortByUnique(s, s, key);
  }
}
