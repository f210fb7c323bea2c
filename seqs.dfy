/** Sequence operations the source gets from the JavaScript array library:
    `filter`, a stable `sort`, `find`, and iteration over a Map's keys. */
module Seqs {
  import opened Wrappers

  /** `r` can be obtained from `s` by deleting elements (matched greedily from the left). */
  ghost predicate IsSubsequence<T>(r: seq<T>, s: seq<T>)
    decreases |s|
  {
    if r == [] then true
    else if s == [] then false
    else if r[0] == s[0] then IsSubsequence(r[1..], s[1..])
    else IsSubsequence(r, s[1..])
  }

  /** `Array.prototype.filter`: the elements of `s` that satisfy `p`, in their order. */
  function Filter<T>(s: seq<T>, p: T -> bool): (r: seq<T>)
    ensures |r| <= |s|
    ensures forall i :: 0 <= i < |r| ==> r[i] in s && p(r[i])
    ensures forall i :: 0 <= i < |s| && p(s[i]) ==> s[i] in r
  {
    if s == [] then []
    else
      var rest := Filter(s[1..], p);
      assert s == [s[0]] + s[1..];
      if p(s[0]) then [s[0]] + rest else rest
  }

  /** The filtered elements keep their order: the result is a subsequence of `s`. */
  lemma {:induction false} FilterIsSubsequence<T>(s: seq<T>, p: T -> bool)
    ensures IsSubsequence(Filter(s, p), s)
  {
    if s != [] {
      var rest := Filter(s[1..], p);
      FilterIsSubsequence(s[1..], p);
      if p(s[0]) {
        assert Filter(s, p) == [s[0]] + rest;
        assert ([s[0]] + rest)[1..] == rest;
      } else {
        assert Filter(s, p) == rest;
        assert rest != [] ==> rest[0] != s[0];
      }
    }
  }

  /** Filtering keeps a value as often as `s` holds it when `p` accepts it, and never otherwise. */
  lemma {:induction false} FilterCount<T>(s: seq<T>, p: T -> bool, x: T)
    ensures multiset(Filter(s, p))[x] == if p(x) then multiset(s)[x] else 0
  {
    if s != [] {
      FilterCount(s[1..], p, x);
      assert s == [s[0]] + s[1..];
    }
  }

  /** Filtering two arrangements of the same elements gives arrangements of the same elements. */
  lemma FilterPermutation<T>(a: seq<T>, b: seq<T>, p: T -> bool)
    requires multiset(a) == multiset(b)
    ensures multiset(Filter(a, p)) == multiset(Filter(b, p))
  {
    forall x
      ensures multiset(Filter(a, p))[x] == multiset(Filter(b, p))[x]
    {
      FilterCount(a, p, x);
      FilterCount(b, p, x);
    }
  }

  /** A filter and the filter by the complementary predicate split `s` between them. */
  lemma {:induction false} FilterPartition<T>(s: seq<T>, p: T -> bool, q: T -> bool)
    requires forall x :: q(x) == !p(x)
    ensures |Filter(s, p)| + |Filter(s, q)| == |s|
    ensures multiset(Filter(s, p)) + multiset(Filter(s, q)) == multiset(s)
  {
    if s != [] {
      FilterPartition(s[1..], p, q);
      assert s == [s[0]] + s[1..];
    }
  }

  /** A filter that every element passes returns the sequence unchanged. */
  lemma {:induction false} FilterAll<T>(s: seq<T>, p: T -> bool)
    requires forall x :: x in s ==> p(x)
    ensures Filter(s, p) == s
  {
    if s != [] {
      assert forall x :: x in s[1..] ==> x in s;
      FilterAll(s[1..], p);
    }
  }

  /** Filtering by two predicates that agree everywhere gives the same result. */
  lemma {:induction false} FilterSame<T>(s: seq<T>, p: T -> bool, q: T -> bool)
    requires forall x :: p(x) == q(x)
    ensures Filter(s, p) == Filter(s, q)
  {
    if s != [] {
      FilterSame(s[1..], p, q);
    }
  }

  /** Filtering distributes over concatenation. */
  lemma {:induction false} FilterAppend<T>(a: seq<T>, b: seq<T>, p: T -> bool)
    ensures Filter(a + b, p) == Filter(a, p) + Filter(b, p)
  {
    if a == [] {
      assert a + b == b;
    } else {
      var ab := a + b;
      assert ab[0] == a[0] && ab[1..] == a[1..] + b;
      FilterAppend(a[1..], b, p);
      if p(a[0]) {
        calc {
          Filter(ab, p);
          [a[0]] + Filter(a[1..] + b, p);
          [a[0]] + (Filter(a[1..], p) + Filter(b, p));
          ([a[0]] + Filter(a[1..], p)) + Filter(b, p);
        }
      } else {
        calc {
          Filter(ab, p);
          Filter(a[1..] + b, p);
        }
      }
    }
  }

  /** `s` ordered by `key`, smallest first. */
  ghost predicate SortedBy<T>(s: seq<T>, key: T -> int) {
    forall i, j :: 0 <= i < j < |s| ==> key(s[i]) <= key(s[j])
  }

  /** The head of a sorted sequence has the least key. */
  lemma HeadIsLeast<T>(s: seq<T>, key: T -> int)
    requires SortedBy(s, key) && s != []
    ensures forall y :: y in s[1..] ==> key(s[0]) <= key(y)
  {
    forall y | y in s[1..]
      ensures key(s[0]) <= key(y)
    {
      var j :| 0 <= j < |s[1..]| && s[1..][j] == y;
      assert s[j + 1] == y;
    }
  }

  /** Filtering a sorted sequence leaves it sorted. */
  lemma {:induction false} FilterSorted<T>(s: seq<T>, p: T -> bool, key: T -> int)
    requires SortedBy(s, key)
    ensures SortedBy(Filter(s, p), key)
  {
    if s != [] {
      var t := s[1..];
      var rest := Filter(t, p);
      assert SortedBy(t, key);
      FilterSorted(t, p, key);
      if p(s[0]) {
        HeadIsLeast(s, key);
        assert forall i :: 0 <= i < |rest| ==> key(s[0]) <= key(rest[i]);
        assert Filter(s, p) == [s[0]] + rest;
      } else {
        assert Filter(s, p) == rest;
      }
    }
  }

  /** Inserts `x` into the sorted `s` before every element whose key is not smaller. */
  function Insert<T>(x: T, s: seq<T>, key: T -> int): (r: seq<T>)
    requires SortedBy(s, key)
    ensures SortedBy(r, key)
    ensures multiset(r) == multiset(s) + multiset{x}
    ensures |r| == |s| + 1 && (r[0] == x || (s != [] && r[0] == s[0]))
  {
    if s == [] || key(x) <= key(s[0]) then [x] + s
    else
      var rest := Insert(x, s[1..], key);
      assert s == [s[0]] + s[1..];
      assert key(s[0]) <= key(rest[0]);
      [s[0]] + rest
  }

  /** `Array.prototype.sort` with a numeric comparator: a stable sort by `key`, smallest first. */
  function SortBy<T>(s: seq<T>, key: T -> int): (r: seq<T>)
    ensures SortedBy(r, key)
    ensures multiset(r) == multiset(s)
  {
    if s == [] then []
    else
      assert s == [s[0]] + s[1..];
      Insert(s[0], SortBy(s[1..], key), key)
  }

  /** Elements with equal keys appear in increasing `id` order. Over an input whose ids
      increase, this is what a stable sort keeps: ties stay in input order. */
  ghost predicate StableBy<T>(s: seq<T>, key: T -> int, id: T -> int) {
    forall i, j :: 0 <= i < j < |s| && key(s[i]) == key(s[j]) ==> id(s[i]) < id(s[j])
  }

  /** Putting `a` in front of a stable sequence keeps it stable when `a`'s id is below the id
      of every element tied with it. */
  lemma ConsStable<T>(a: T, s: seq<T>, key: T -> int, id: T -> int)
    requires StableBy(s, key, id)
    requires forall y :: y in s && key(y) == key(a) ==> id(a) < id(y)
    ensures StableBy([a] + s, key, id)
  {
    var r := [a] + s;
    forall i, j | 0 <= i < j < |r| && key(r[i]) == key(r[j])
      ensures id(r[i]) < id(r[j])
    {
      assert r[j] == s[j - 1] && s[j - 1] in s;
      if i > 0 {
        assert r[i] == s[i - 1];
      }
    }
  }

  /** Inserting an element whose id is below every id of `s` goes before its ties. */
  lemma {:induction false} InsertStable<T>(x: T, s: seq<T>, key: T -> int, id: T -> int)
    requires SortedBy(s, key) && StableBy(s, key, id)
    requires forall y :: y in s ==> id(x) < id(y)
    ensures StableBy(Insert(x, s, key), key, id)
  {
    if s == [] || key(x) <= key(s[0]) {
      ConsStable(x, s, key, id);
    } else {
      var t := s[1..];
      InsertStable(x, t, key, id);
      var rest := Insert(x, t, key);
      forall y | y in rest && key(y) == key(s[0])
        ensures id(s[0]) < id(y)
      {
        assert y in multiset(rest);
        if y != x {
          assert y in multiset(t);
          var k :| 0 <= k < |t| && t[k] == y;
          assert s[k + 1] == y;
        }
      }
      ConsStable(s[0], rest, key, id);
    }
  }

  /** Sorting a sequence whose ids increase keeps ties in input order. */
  lemma {:induction false} SortByStable<T>(s: seq<T>, key: T -> int, id: T -> int)
    requires forall i, j :: 0 <= i < j < |s| ==> id(s[i]) < id(s[j])
    ensures StableBy(SortBy(s, key), key, id)
  {
    if s != [] {
      var t := s[1..];
      SortByStable(t, key, id);
      var sorted := SortBy(t, key);
      forall y | y in sorted
        ensures id(s[0]) < id(y)
      {
        assert y in multiset(t);
        var k :| 0 <= k < |t| && t[k] == y;
        assert s[k + 1] == y;
      }
      InsertStable(s[0], sorted, key, id);
    }
  }

  /** `Array.prototype.find`: the first element that satisfies `p`. */
  function Find<T>(s: seq<T>, p: T -> bool): (r: Option<T>)
    ensures r.Some? ==> exists i :: 0 <= i < |s| && s[i] == r.value && p(s[i]) &&
                                  forall j :: 0 <= j < i ==> !p(s[j])
    ensures r.None? <==> forall i :: 0 <= i < |s| ==> !p(s[i])
  {
    if s == [] then None
    else if p(s[0]) then Some(s[0])
    else
      var r := Find(s[1..], p);
      assert s == [s[0]] + s[1..];
      if r.Some? then
        ghost var i :| 0 <= i < |s[1..]| && s[1..][i] == r.value && p(s[1..][i]) &&
                     forall j :: 0 <= j < i ==> !p(s[1..][j]);
        assert s[i + 1] == r.value && forall j :: 0 <= j < i + 1 ==> !p(s[j]);
        r
      else r
  }

  /** `find` returns the first element that passes. */
  lemma FindFirst<T>(s: seq<T>, p: T -> bool, i: int)
    requires 0 <= i < |s| && p(s[i]) && forall j :: 0 <= j < i ==> !p(s[j])
    ensures Find(s, p) == Some(s[i])
  {
    var k :| 0 <= k < |s| && s[k] == Find(s, p).value && p(s[k]) && forall j :: 0 <= j < k ==> !p(s[j]);
    assert k == i;
  }

  /** The members of `ks` in `[lo, hi)`, in increasing order. */
  function KeysBetween(ks: set<int>, lo: int, hi: int): (r: seq<int>)
    decreases hi - lo
    ensures forall k :: k in r <==> k in ks && lo <= k < hi
    ensures forall i, j :: 0 <= i < j < |r| ==> r[i] < r[j]
  {
    if lo >= hi then []
    else
      var rest := KeysBetween(ks, lo + 1, hi);
      assert forall i :: 0 <= i < |rest| ==> lo < rest[i] by {
        forall i | 0 <= i < |rest| ensures lo < rest[i] {
          assert rest[i] in rest;
        }
      }
      (if lo in ks then [lo] else []) + rest
  }

  /** A sequence whose `id`s strictly increase holds each of its elements exactly once. */
  lemma {:induction false} IncreasingIdsOccurOnce<T>(s: seq<T>, id: T -> int, k: int)
    requires forall i, j :: 0 <= i < j < |s| ==> id(s[i]) < id(s[j])
    requires 0 <= k < |s|
    ensures multiset(s)[s[k]] == 1
  {
    assert s == [s[0]] + s[1..];
    if k == 0 {
      assert forall y :: y in s[1..] ==> id(y) > id(s[0]);
      assert s[0] !in s[1..];
    } else {
      IncreasingIdsOccurOnce(s[1..], id, k - 1);
      assert id(s[0]) < id(s[k]);
    }
  }

  /** The values of a map whose keys are the `id`s of its values and lie in `[1, hi)`, in the order
      of increasing key: each value exactly once. */
  function ValuesInKeyOrder<T(!new)>(m: map<int, T>, id: T -> int, hi: int): (r: seq<T>)
    requires forall k :: k in m ==> 1 <= k < hi && id(m[k]) == k
    ensures forall i :: 0 <= i < |r| ==> id(r[i]) in m && m[id(r[i])] == r[i]
    ensures forall x :: x in r ==> id(x) in m && m[id(x)] == x
    ensures forall i, j :: 0 <= i < j < |r| ==> id(r[i]) < id(r[j])
    ensures forall k :: k in m ==> m[k] in r
    ensures forall k :: k in m ==> multiset(r)[m[k]] == 1
  {
    var ks := KeysBetween(m.Keys, 1, hi);
    assert forall i :: 0 <= i < |ks| ==> ks[i] in m by {
      forall i | 0 <= i < |ks| ensures ks[i] in m {
        assert ks[i] in ks;
      }
    }
    var r := seq(|ks|, i requires 0 <= i < |ks| => m[ks[i]]);
    assert forall i :: 0 <= i < |r| ==> id(r[i]) == ks[i];
    ValuesCoverMap(m, ks, r);
    OnceEach(m, id, r);
    r
  }

  /** Listing a map's values by a sequence holding all of its keys lists every value. */
  lemma ValuesCoverMap<T>(m: map<int, T>, ks: seq<int>, r: seq<T>)
    requires forall k :: k in m ==> k in ks
    requires |r| == |ks| && forall i :: 0 <= i < |ks| ==> ks[i] in m && r[i] == m[ks[i]]
    ensures forall k :: k in m ==> m[k] in r
  {
    forall k | k in m
      ensures m[k] in r
    {
      var i :| 0 <= i < |ks| && ks[i] == k;
      assert r[i] == m[k];
    }
  }

  /** Values listed with strictly increasing ids each occur once. */
  lemma OnceEach<T>(m: map<int, T>, id: T -> int, r: seq<T>)
    requires forall i, j :: 0 <= i < j < |r| ==> id(r[i]) < id(r[j])
    requires forall k :: k in m ==> m[k] in r
    ensures forall k :: k in m ==> multiset(r)[m[k]] == 1
  {
    forall k | k in m
      ensures multiset(r)[m[k]] == 1
    {
      var i :| 0 <= i < |r| && r[i] == m[k];
      IncreasingIdsOccurOnce(r, id, i);
    }
  }

  /** Two arrangements of the same elements hold the same elements. */
  lemma PermutationMembers<T>(a: seq<T>, b: seq<T>)
    requires multiset(a) == multiset(b)
    ensures forall i :: 0 <= i < |b| ==> b[i] in a
  {
    forall i | 0 <= i < |b|
      ensures b[i] in a
    {
      assert b[i] in multiset(b);
    }
  }

  /** The values of such a map in insertion order, then sorted by `key` with ties kept in
      insertion order: each value exactly once. */
  function ValuesSortedBy<T(!new)>(m: map<int, T>, id: T -> int, hi: int, key: T -> int): (r: seq<T>)
    requires forall k :: k in m ==> 1 <= k < hi && id(m[k]) == k
    ensures SortedBy(r, key)
    ensures StableBy(r, key, id)
    ensures forall i :: 0 <= i < |r| ==> id(r[i]) in m && m[id(r[i])] == r[i]
    ensures forall k :: k in m ==> multiset(r)[m[k]] == 1
    ensures multiset(r) == multiset(ValuesInKeyOrder(m, id, hi))
  {
    var rows := ValuesInKeyOrder(m, id, hi);
    var r := SortBy(rows, key);
    PermutationMembers(rows, r);
    SortByStable(rows, key, id);
    r
  }
}
