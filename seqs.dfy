/**
 * The two list operations the application's rules are built from:
 * `Array.prototype.filter` and a stable `Array.prototype.sort` with a
 * "larger key first" comparator (ECMAScript 2019 requires `sort` to be
 * stable). Keys are pairs compared lexicographically, so that a sort on
 * one field and a sort on two fields are the same operation.
 */
module Seqs {

  /** `s.filter(p)`. */
  function Filter<T(!new)>(s: seq<T>, p: T -> bool): (r: seq<T>)
    ensures |r| <= |s|
    ensures forall x :: x in r <==> x in s && p(x)
    ensures forall i :: 0 <= i < |r| ==> p(r[i])
  {
    if s == [] then []
    else
      var rest := Filter(s[1..], p);
      assert forall x :: x in s <==> x == s[0] || x in s[1..];
      if p(s[0]) then [s[0]] + rest else rest
  }

  /** Filtering keeps the elements' multiplicities when `p` holds and drops them otherwise. */
  lemma {:induction false} FilterMultiset<T(!new)>(s: seq<T>, p: T -> bool, x: T)
    ensures multiset(Filter(s, p))[x] == if p(x) then multiset(s)[x] else 0
  {
    if s != [] {
      FilterMultiset(s[1..], p, x);
      assert s == [s[0]] + s[1..];
    }
  }

  /** Counting two predicates that never hold together counts at most every element once. */
  lemma {:induction false} FilterDisjointCount<T(!new)>(s: seq<T>, p: T -> bool, q: T -> bool)
    requires forall x :: !(p(x) && q(x))
    ensures |Filter(s, p)| + |Filter(s, q)| <= |s|
  {
    if s != [] {
      FilterDisjointCount(s[1..], p, q);
    }
  }

  /** Two predicates that never hold together count, summed, what their disjunction counts. */
  lemma {:induction false} FilterDisjointUnion<T(!new)>(s: seq<T>, p: T -> bool, q: T -> bool, pq: T -> bool)
    requires forall x :: !(p(x) && q(x))
    requires forall x :: pq(x) == (p(x) || q(x))
    ensures |Filter(s, p)| + |Filter(s, q)| == |Filter(s, pq)|
  {
    if s != [] {
      FilterDisjointUnion(s[1..], p, q, pq);
    }
  }

  /** A stronger predicate never counts more elements. */
  lemma {:induction false} FilterMonotoneCount<T(!new)>(s: seq<T>, p: T -> bool, q: T -> bool)
    requires forall x :: p(x) ==> q(x)
    ensures |Filter(s, p)| <= |Filter(s, q)|
  {
    if s != [] {
      FilterMonotoneCount(s[1..], p, q);
    }
  }

  /** Filtering with an always-true predicate is the identity. */
  lemma {:induction false} FilterAll<T(!new)>(s: seq<T>, p: T -> bool)
    requires forall x :: x in s ==> p(x)
    ensures Filter(s, p) == s
  {
    if s != [] {
      FilterAll(s[1..], p);
      assert s == [s[0]] + s[1..];
    }
  }

  /** Filtering with a predicate no element meets leaves nothing. */
  lemma {:induction false} FilterNone<T(!new)>(s: seq<T>, p: T -> bool)
    requires forall x :: x in s ==> !p(x)
    ensures Filter(s, p) == []
  {
    if s != [] {
      FilterNone(s[1..], p);
    }
  }

  /** Filtering works piecewise, so it keeps the order of what it keeps. */
  lemma {:induction false} FilterAppend<T(!new)>(a: seq<T>, b: seq<T>, p: T -> bool)
    ensures Filter(a + b, p) == Filter(a, p) + Filter(b, p)
  {
    if a == [] {
      assert a + b == b;
    } else {
      assert (a + b)[0] == a[0];
      assert (a + b)[1..] == a[1..] + b;
      FilterAppend(a[1..], b, p);
    }
  }

  /** Filters with predicates that agree everywhere agree. */
  lemma {:induction false} FilterCongruent<T(!new)>(s: seq<T>, p: T -> bool, q: T -> bool)
    requires forall x :: p(x) == q(x)
    ensures Filter(s, p) == Filter(s, q)
  {
    if s != [] {
      FilterCongruent(s[1..], p, q);
    }
  }

  /** A sort key: compared on `major` first, then on `minor`. */
  datatype Key = Key(major: int, minor: int)

  /** `a` sorts strictly before `b` under a "larger key first" comparator. */
  predicate Above(a: Key, b: Key) {
    a.major > b.major || (a.major == b.major && a.minor > b.minor)
  }

  predicate AtLeast(a: Key, b: Key) {
    !Above(b, a)
  }

  /** Keys never increase from left to right. */
  predicate SortedDesc<T>(s: seq<T>, key: T -> Key) {
    forall i, j :: 0 <= i < j < |s| ==> AtLeast(key(s[i]), key(s[j]))
  }

  /** The elements of `s` whose key is `k`, in their order in `s`. */
  function WithKey<T>(s: seq<T>, key: T -> Key, k: Key): seq<T> {
    if s == [] then []
    else if key(s[0]) == k then [s[0]] + WithKey(s[1..], key, k)
    else WithKey(s[1..], key, k)
  }

  lemma {:induction false} WithKeyAppend<T>(a: seq<T>, b: seq<T>, key: T -> Key, k: Key)
    ensures WithKey(a + b, key, k) == WithKey(a, key, k) + WithKey(b, key, k)
  {
    if a == [] {
      assert a + b == b;
    } else {
      assert (a + b)[0] == a[0];
      assert (a + b)[1..] == a[1..] + b;
      WithKeyAppend(a[1..], b, key, k);
    }
  }

  /** No element of `s` has a key above `b`. */
  predicate Bounded<T>(s: seq<T>, key: T -> Key, b: Key) {
    forall i :: 0 <= i < |s| ==> AtLeast(b, key(s[i]))
  }

  lemma {:induction false} AtLeastTransitive(a: Key, b: Key, c: Key)
    requires AtLeast(a, b) && AtLeast(b, c)
    ensures AtLeast(a, c)
  {
  }

  /** A sorted list stays sorted when an element bounding it is put in front. */
  lemma {:induction false} SortedCons<T>(x: T, s: seq<T>, key: T -> Key)
    requires SortedDesc(s, key) && Bounded(s, key, key(x))
    ensures SortedDesc([x] + s, key)
  {
    var r := [x] + s;
    forall i, j | 0 <= i < j < |r| ensures AtLeast(key(r[i]), key(r[j])) {
      if i > 0 {
        assert r[i] == s[i - 1] && r[j] == s[j - 1];
      }
    }
  }

  /** The head of a sorted list bounds the rest of it. */
  lemma {:induction false} SortedHead<T>(s: seq<T>, key: T -> Key)
    requires s != [] && SortedDesc(s, key)
    ensures Bounded(s, key, key(s[0])) && SortedDesc(s[1..], key)
  {
    assert AtLeast(key(s[0]), key(s[0]));
  }

  /**
   * Inserts `x` in front of the first element whose key is not larger than
   * `x`'s: `x` goes before the elements of equal key, which is where a
   * stable sort puts an element that came first.
   */
  function Insert<T>(x: T, t: seq<T>, key: T -> Key): (r: seq<T>)
    ensures |r| == |t| + 1
  {
    if t == [] then [x]
    else if Above(key(t[0]), key(x)) then [t[0]] + Insert(x, t[1..], key)
    else [x] + t
  }

  /** Inserting adds exactly one copy of `x`. */
  lemma {:induction false} InsertPermutes<T>(x: T, t: seq<T>, key: T -> Key)
    ensures multiset(Insert(x, t, key)) == multiset(t) + multiset{x}
  {
    if t != [] && Above(key(t[0]), key(x)) {
      InsertPermutes(x, t[1..], key);
      assert t == [t[0]] + t[1..];
    }
  }

  /** Into a sorted list, the insertion keeps it sorted. */
  lemma {:induction false} InsertSorted<T>(x: T, t: seq<T>, key: T -> Key)
    requires SortedDesc(t, key)
    ensures SortedDesc(Insert(x, t, key), key)
  {
    if t == [] {
    } else if Above(key(t[0]), key(x)) {
      SortedHead(t, key);
      var rest := Insert(x, t[1..], key);
      InsertSorted(x, t[1..], key);
      InsertPermutes(x, t[1..], key);
      assert Bounded(rest, key, key(t[0])) by {
        forall i | 0 <= i < |rest| ensures AtLeast(key(t[0]), key(rest[i])) {
          assert rest[i] in multiset(rest);
          if rest[i] != x {
            assert rest[i] in multiset(t[1..]);
            var j :| 0 <= j < |t[1..]| && t[1..][j] == rest[i];
          }
        }
      }
      SortedCons(t[0], rest, key);
    } else {
      SortedHead(t, key);
      assert Bounded(t, key, key(x)) by {
        forall i | 0 <= i < |t| ensures AtLeast(key(x), key(t[i])) {
          AtLeastTransitive(key(x), key(t[0]), key(t[i]));
        }
      }
      SortedCons(x, t, key);
    }
  }

  /** Where `Insert` puts `x` among the elements that share its key: first. */
  lemma {:induction false} InsertWithKey<T>(x: T, t: seq<T>, key: T -> Key, k: Key)
    ensures WithKey(Insert(x, t, key), key, k) ==
            (if key(x) == k then [x] + WithKey(t, key, k) else WithKey(t, key, k))
  {
    var r := Insert(x, t, key);
    if t == [] {
    } else if Above(key(t[0]), key(x)) {
      InsertWithKey(x, t[1..], key, k);
      assert r[1..] == Insert(x, t[1..], key);
    } else {
      assert r[1..] == t;
    }
  }

  /**
   * `s.slice().sort((a, b) => key(b) - key(a))`: a stable sort, larger keys first.
   * The result holds the same elements, its keys never increase, and the
   * elements that share a key keep their relative input order.
   */
  function SortDesc<T>(s: seq<T>, key: T -> Key): (r: seq<T>)
    ensures |r| == |s|
    ensures multiset(r) == multiset(s)
    ensures SortedDesc(r, key)
    ensures forall k :: WithKey(r, key, k) == WithKey(s, key, k)
  {
    if s == [] then []
    else
      var rest := SortDesc(s[1..], key);
      var r := Insert(s[0], rest, key);
      InsertPermutes(s[0], rest, key);
      InsertSorted(s[0], rest, key);
      assert s == [s[0]] + s[1..];
      forall k ensures WithKey(r, key, k) == WithKey(s, key, k) {
        InsertWithKey(s[0], rest, key, k);
      }
      r
  }
}
