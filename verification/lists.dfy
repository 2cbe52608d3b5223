/**
 * The array operations the app's reducers and components are built from:
 * `findIndex`, `filter`, `map` over the entries that match a predicate, and
 * the stable `sort` by an integer key.
 */
module Lists {

  /** `s.findIndex(p)`: the first index whose element satisfies `p`, or -1. */
  function FirstIndex<T>(s: seq<T>, p: T -> bool): (r: int)
    ensures -1 <= r < |s|
    ensures r >= 0 ==> p(s[r]) && forall j :: 0 <= j < r ==> !p(s[j])
    ensures r == -1 <==> forall j :: 0 <= j < |s| ==> !p(s[j])
  {
    if s == [] then -1
    else if p(s[0]) then 0
    else
      var k := FirstIndex(s[1..], p);
      if k == -1 then -1 else k + 1
  }

  /**
   * `const i = s.findIndex(p); if (i !== -1) s[i] = f(s[i])`: the first
   * matching entry is rewritten, every other entry kept.
   */
  function UpdateFirst<T>(s: seq<T>, p: T -> bool, f: T -> T): (r: seq<T>)
    ensures |r| == |s|
    ensures forall j :: 0 <= j < |s| && j != FirstIndex(s, p) ==> r[j] == s[j]
    ensures FirstIndex(s, p) >= 0 ==> r[FirstIndex(s, p)] == f(s[FirstIndex(s, p)])
  {
    var k := FirstIndex(s, p);
    if k < 0 then s else s[k := f(s[k])]
  }

  /** With no entry matching, nothing changes. */
  lemma UpdateFirstNoMatch<T>(s: seq<T>, p: T -> bool, f: T -> T)
    requires forall j :: 0 <= j < |s| ==> !p(s[j])
    ensures UpdateFirst(s, p, f) == s
  {
  }

  /** A rewrite that keeps the match and undoes itself, applied twice to the first match, restores the list. */
  lemma UpdateFirstTwice<T>(s: seq<T>, p: T -> bool, f: T -> T)
    requires forall x :: p(x) ==> p(f(x)) && f(f(x)) == x
    ensures UpdateFirst(UpdateFirst(s, p, f), p, f) == s
  {
    var k := FirstIndex(s, p);
    if k >= 0 {
      var once := UpdateFirst(s, p, f);
      assert FirstIndex(once, p) == k by {
        FirstIndexAt(once, p, k);
      }
    }
  }

  /** A rewrite that keeps the first match matching leaves it the first match. */
  lemma UpdateFirstKeepsIndex<T>(s: seq<T>, p: T -> bool, f: T -> T)
    requires FirstIndex(s, p) >= 0 && p(f(s[FirstIndex(s, p)]))
    ensures FirstIndex(UpdateFirst(s, p, f), p) == FirstIndex(s, p)
  {
    FirstIndexAt(UpdateFirst(s, p, f), p, FirstIndex(s, p));
  }

  /** `f` applied `n` times. */
  function Iterate<T>(f: T -> T, x: T, n: nat): T
    decreases n
  {
    if n == 0 then x else f(Iterate(f, x, n - 1))
  }

  /** The first match rewritten `n` times in a row. */
  function UpdateFirstTimes<T>(s: seq<T>, p: T -> bool, f: T -> T, n: nat): (r: seq<T>)
    ensures |r| == |s|
    decreases n
  {
    if n == 0 then s else UpdateFirst(UpdateFirstTimes(s, p, f, n - 1), p, f)
  }

  /**
   * When the rewrite keeps matches matching, `n` rewrites of the first match
   * all land on the same entry, which ends up rewritten `n` times.
   */
  lemma {:induction false} UpdateFirstTimesAt<T>(s: seq<T>, p: T -> bool, f: T -> T, n: nat)
    requires FirstIndex(s, p) >= 0
    requires forall x :: p(x) ==> p(f(x))
    ensures var k := FirstIndex(s, p);
      var r := UpdateFirstTimes(s, p, f, n);
      FirstIndex(r, p) == k && r[k] == Iterate(f, s[k], n)
    decreases n
  {
    if n > 0 {
      UpdateFirstTimesAt(s, p, f, n - 1);
      var before := UpdateFirstTimes(s, p, f, n - 1);
      UpdateFirstKeepsIndex(before, p, f);
    }
  }

  /** An entry that matches and has no match before it is the first match. */
  lemma FirstIndexAt<T>(s: seq<T>, p: T -> bool, k: int)
    requires 0 <= k < |s| && p(s[k]) && forall j :: 0 <= j < k ==> !p(s[j])
    ensures FirstIndex(s, p) == k
  {
    var r := FirstIndex(s, p);
    assert !(0 <= r < k);
  }

  /** `s.filter(p)`. */
  function Filter<T>(s: seq<T>, p: T -> bool): (r: seq<T>)
    ensures |r| <= |s|
    ensures forall i :: 0 <= i < |r| ==> p(r[i])
  {
    if s == [] then []
    else if p(s[0]) then [s[0]] + Filter(s[1..], p)
    else Filter(s[1..], p)
  }

  /** A filter keeps exactly the entries that pass, each as many times as it occurs. */
  lemma FilterMultiset<T>(s: seq<T>, p: T -> bool)
    ensures multiset(Filter(s, p)) <= multiset(s)
    ensures forall i :: 0 <= i < |s| && p(s[i]) ==> s[i] in Filter(s, p)
    ensures forall x :: x in multiset(Filter(s, p)) ==> x in s
  {
    FilterSubMultiset(s, p);
    FilterKeepsPassing(s, p);
  }

  lemma {:induction false} FilterSubMultiset<T>(s: seq<T>, p: T -> bool)
    ensures multiset(Filter(s, p)) <= multiset(s)
  {
    if s != [] {
      FilterSubMultiset(s[1..], p);
      assert s == [s[0]] + s[1..];
    }
  }

  lemma {:induction false} FilterKeepsPassing<T>(s: seq<T>, p: T -> bool)
    ensures forall i :: 0 <= i < |s| && p(s[i]) ==> s[i] in Filter(s, p)
  {
    if s != [] {
      FilterKeepsPassing(s[1..], p);
      forall i | 1 <= i < |s| && p(s[i])
        ensures s[i] in Filter(s, p)
      {
        assert s[i] == s[1..][i - 1];
      }
    }
  }

  /** Filtering distributes over concatenation, so the kept entries stay in their original order. */
  lemma {:induction false} FilterAppend<T>(a: seq<T>, b: seq<T>, p: T -> bool)
    ensures Filter(a + b, p) == Filter(a, p) + Filter(b, p)
  {
    if a != [] {
      FilterAppend(a[1..], b, p);
      assert (a + b)[0] == a[0];
      assert (a + b)[1..] == a[1..] + b;
    } else {
      assert a + b == b;
    }
  }

  /** Filtering keeps a list unchanged exactly when every entry passes. */
  lemma {:induction false} FilterAllPass<T>(s: seq<T>, p: T -> bool)
    ensures Filter(s, p) == s <==> forall i :: 0 <= i < |s| ==> p(s[i])
  {
    if s != [] {
      FilterAllPass(s[1..], p);
      if !p(s[0]) {
        assert |Filter(s, p)| < |s|;
      }
    }
  }

  /** Filtering twice with the same predicate is the same as filtering once. */
  lemma {:induction false} FilterIdempotent<T>(s: seq<T>, p: T -> bool)
    ensures Filter(Filter(s, p), p) == Filter(s, p)
  {
    FilterAllPass(Filter(s, p), p);
  }

  /** Appending an entry the filter rejects to a list it keeps whole, then filtering, gives the list back. */
  lemma FilterDropsLast<T>(s: seq<T>, x: T, p: T -> bool)
    requires forall i :: 0 <= i < |s| ==> p(s[i])
    requires !p(x)
    ensures Filter(s + [x], p) == s
  {
    FilterAppend(s, [x], p);
    FilterAllPass(s, p);
    assert Filter([x], p) == Filter([x][1..], p);
  }

  /** The number of entries that satisfy `p`. */
  function Count<T>(s: seq<T>, p: T -> bool): (n: nat)
    ensures n <= |s|
    ensures n == 0 <==> forall i :: 0 <= i < |s| ==> !p(s[i])
  {
    if s == [] then 0 else (if p(s[0]) then 1 else 0) + Count(s[1..], p)
  }

  /** A filter keeps exactly the counted entries. */
  lemma {:induction false} FilterLength<T>(s: seq<T>, p: T -> bool)
    ensures |Filter(s, p)| == Count(s, p)
  {
    if s != [] {
      FilterLength(s[1..], p);
    }
  }

  /** Counting distributes over concatenation. */
  lemma {:induction false} CountSplit<T>(a: seq<T>, b: seq<T>, p: T -> bool)
    ensures Count(a + b, p) == Count(a, p) + Count(b, p)
  {
    if a != [] {
      CountSplit(a[1..], b, p);
      assert (a + b)[1..] == a[1..] + b;
    } else {
      assert a + b == b;
    }
  }

  /** When every entry passes, the count is the length. */
  lemma {:induction false} CountAll<T>(s: seq<T>, p: T -> bool)
    requires forall i :: 0 <= i < |s| ==> p(s[i])
    ensures Count(s, p) == |s|
  {
    if s != [] {
      CountAll(s[1..], p);
    }
  }

  lemma CountAtLeastOne<T>(s: seq<T>, p: T -> bool)
    requires s != [] && p(s[0])
    ensures Count(s, p) >= 1
  {
  }

  /** `s.map(x => p(x) ? f(x) : x)`: every matching entry is rewritten by `f`, the rest are untouched. */
  function MapWhere<T>(s: seq<T>, p: T -> bool, f: T -> T): (r: seq<T>)
    ensures |r| == |s|
  {
    seq(|s|, j requires 0 <= j < |s| => if p(s[j]) then f(s[j]) else s[j])
  }

  /** Only the entries that match are changed, and they are changed by `f`. */
  lemma MapWhereFrame<T>(s: seq<T>, p: T -> bool, f: T -> T, j: int)
    requires 0 <= j < |s|
    ensures !p(s[j]) ==> MapWhere(s, p, f)[j] == s[j]
    ensures p(s[j]) ==> MapWhere(s, p, f)[j] == f(s[j])
  {
  }

  /** A rewrite that undoes itself and keeps the match undoes itself when mapped over a list too. */
  lemma MapWhereTwice<T>(s: seq<T>, p: T -> bool, f: T -> T)
    requires forall x :: p(x) ==> p(f(x)) && f(f(x)) == x
    ensures MapWhere(MapWhere(s, p, f), p, f) == s
  {
    var once := MapWhere(s, p, f);
    var twice := MapWhere(once, p, f);
    forall j | 0 <= j < |s|
      ensures twice[j] == s[j]
    {
      MapWhereFrame(s, p, f, j);
      MapWhereFrame(once, p, f, j);
    }
  }

  /** Mapping with no entry matching leaves the list unchanged. */
  lemma MapWhereNoMatch<T>(s: seq<T>, p: T -> bool, f: T -> T)
    requires forall i :: 0 <= i < |s| ==> !p(s[i])
    ensures MapWhere(s, p, f) == s
  {
  }

  /** No entry occurs twice. */
  predicate Distinct(s: seq<string>) {
    forall i, j :: 0 <= i < j < |s| ==> s[i] != s[j]
  }

  /** An entry added at the end keeps a list distinct exactly when it was not there yet. */
  lemma DistinctSnoc(init: seq<string>, x: string)
    ensures Distinct(init + [x]) <==> Distinct(init) && x !in init
  {
    var s := init + [x];
    if Distinct(s) {
      forall i, j | 0 <= i < j < |init|
        ensures init[i] != init[j]
      {
        assert s[i] == init[i] && s[j] == init[j];
      }
      forall i | 0 <= i < |init|
        ensures init[i] != x
      {
        assert s[i] == init[i] && s[|init|] == x;
      }
    }
    if Distinct(init) && x !in init {
      forall i, j | 0 <= i < j < |s|
        ensures s[i] != s[j]
      {
        assert s[i] == init[i];
      }
    }
  }

  /** `s.filter(y => y !== x)`: every occurrence of `x` removed, the rest kept in order. */
  function Without(s: seq<string>, x: string): (r: seq<string>)
    ensures x !in r && |r| <= |s|
    ensures forall y :: y in r ==> y in s
    ensures Distinct(s) ==> Distinct(r)
  {
    if s == [] then []
    else
      var rest := Without(s[1..], x);
      assert forall y :: y in s[1..] ==> y in s;
      if s[0] == x then rest
      else
        assert Distinct(s) ==> s[0] !in s[1..];
        [s[0]] + rest
  }

  /** The entries kept are exactly the entries other than `x`. */
  lemma {:induction false} WithoutMembers(s: seq<string>, x: string, y: string)
    ensures y in Without(s, x) <==> y in s && y != x
  {
    if s != [] {
      WithoutMembers(s[1..], x, y);
      assert s == [s[0]] + s[1..];
    }
  }

  /** Removing an entry just appended, which the list did not hold, restores the list. */
  lemma {:induction false} WithoutAppend(s: seq<string>, x: string)
    requires x !in s
    ensures Without(s + [x], x) == s
  {
    if s != [] {
      WithoutAppend(s[1..], x);
      assert (s + [x])[1..] == s[1..] + [x];
    }
  }

  /** Removing an entry the list does not hold changes nothing. */
  lemma {:induction false} WithoutAbsent(s: seq<string>, x: string)
    requires x !in s
    ensures Without(s, x) == s
  {
    if s != [] {
      WithoutAbsent(s[1..], x);
    }
  }

  predicate SortedBy<T>(s: seq<T>, key: T -> int) {
    forall i, j :: 0 <= i < j < |s| ==> key(s[i]) <= key(s[j])
  }

  /** Inserts `x` after every entry whose key is not greater, which keeps equal keys in arrival order. */
  function InsertBy<T>(x: T, s: seq<T>, key: T -> int): (r: seq<T>)
    requires SortedBy(s, key)
    ensures |r| == |s| + 1
    ensures r[0] == if s != [] && key(x) >= key(s[0]) then s[0] else x
  {
    if s == [] then [x]
    else if key(x) < key(s[0]) then [x] + s
    else
      var rest := InsertBy(x, s[1..], key);
      [s[0]] + rest
  }

  /** The insertion adds exactly `x`. */
  lemma {:induction false} InsertByMultiset<T>(x: T, s: seq<T>, key: T -> int)
    requires SortedBy(s, key)
    ensures multiset(InsertBy(x, s, key)) == multiset(s) + multiset{x}
  {
    if s != [] && key(x) >= key(s[0]) {
      var tail := s[1..];
      InsertByMultiset(x, tail, key);
      assert InsertBy(x, s, key) == [s[0]] + InsertBy(x, tail, key);
      assert s == [s[0]] + tail;
    }
  }

  /** The insertion keeps the list sorted. */
  lemma {:induction false} InsertBySorted<T>(x: T, s: seq<T>, key: T -> int)
    requires SortedBy(s, key)
    ensures SortedBy(InsertBy(x, s, key), key)
  {
    if s != [] && key(x) >= key(s[0]) {
      var tail := s[1..];
      InsertBySorted(x, tail, key);
      InsertByMultiset(x, tail, key);
      var rest := InsertBy(x, tail, key);
      forall j | 0 <= j < |rest|
        ensures key(s[0]) <= key(rest[j])
      {
        assert rest[j] in multiset(rest);
        if rest[j] != x {
          assert rest[j] in multiset(tail);
          var i :| 0 <= i < |tail| && tail[i] == rest[j];
          assert s[i + 1] == rest[j];
        }
      }
      ConsSorted(s[0], rest, key);
    }
  }

  /** A head no greater than any entry of a sorted list keeps it sorted. */
  lemma ConsSorted<T>(h: T, s: seq<T>, key: T -> int)
    requires SortedBy(s, key)
    requires forall j :: 0 <= j < |s| ==> key(h) <= key(s[j])
    ensures SortedBy([h] + s, key)
  {
    var r := [h] + s;
    forall i, j | 0 <= i < j < |r|
      ensures key(r[i]) <= key(r[j])
    {
      assert r[j] == s[j - 1];
      if i > 0 {
        assert r[i] == s[i - 1];
      }
    }
  }

  /** The stable `sort((a, b) => key(a) - key(b))`. */
  function SortBy<T>(s: seq<T>, key: T -> int): (r: seq<T>)
    ensures |r| == |s|
    ensures SortedBy(r, key)
    ensures multiset(r) == multiset(s)
  {
    if s == [] then []
    else
      var init, x := s[..|s| - 1], s[|s| - 1];
      assert s == init + [x];
      var sorted := SortBy(init, key);
      InsertBySorted(x, sorted, key);
      InsertByMultiset(x, sorted, key);
      InsertBy(x, sorted, key)
  }

  function KeyIs<T>(key: T -> int, k: int): T -> bool {
    y => key(y) == k
  }

  /** Inserting `x` leaves the entries of every other key, in their order, where they were. */
  lemma {:induction false} InsertByStableOther<T>(x: T, s: seq<T>, key: T -> int, k: int)
    requires SortedBy(s, key)
    requires key(x) != k
    ensures Filter(InsertBy(x, s, key), KeyIs(key, k)) == Filter(s, KeyIs(key, k))
  {
    var p := KeyIs(key, k);
    assert !p(x);
    if s == [] {
      assert InsertBy(x, s, key) == [x];
      assert Filter([x], p) == Filter([x][1..], p);
    } else if key(x) < key(s[0]) {
      var r := InsertBy(x, s, key);
      assert r == [x] + s;
      assert r[1..] == s;
    } else {
      InsertByStableOther(x, s[1..], key, k);
      var r := InsertBy(x, s, key);
      assert r == [s[0]] + InsertBy(x, s[1..], key);
      assert r[1..] == InsertBy(x, s[1..], key);
    }
  }

  /** Inserting `x` puts it after every entry that has its key. */
  lemma {:induction false} InsertByStableSame<T>(x: T, s: seq<T>, key: T -> int)
    requires SortedBy(s, key)
    ensures Filter(InsertBy(x, s, key), KeyIs(key, key(x))) == Filter(s, KeyIs(key, key(x))) + [x]
  {
    var p := KeyIs(key, key(x));
    if s == [] || key(x) < key(s[0]) {
      InsertInFront(x, s, key);
    } else {
      SortedTail(s, key);
      InsertByStableSame(x, s[1..], key);
      InsertBySkipsHead(x, s, key, [x], p);
    }
  }

  lemma SortedTail<T>(s: seq<T>, key: T -> int)
    requires SortedBy(s, key) && s != []
    ensures SortedBy(s[1..], key)
  {
  }

  /** Inserting behind the head keeps the head, so a relation between filtered tails carries over. */
  lemma InsertBySkipsHead<T>(x: T, s: seq<T>, key: T -> int, extra: seq<T>, p: T -> bool)
    requires SortedBy(s, key) && s != [] && key(x) >= key(s[0])
    requires Filter(InsertBy(x, s[1..], key), p) == Filter(s[1..], p) + extra
    ensures Filter(InsertBy(x, s, key), p) == Filter(s, p) + extra
  {
    ConsFilter(s, InsertBy(x, s[1..], key), extra, p);
  }

  /** Putting the head of `s` in front of a list whose filtered form extends that of `s`'s tail. */
  lemma ConsFilter<T>(s: seq<T>, b: seq<T>, extra: seq<T>, p: T -> bool)
    requires s != [] && Filter(b, p) == Filter(s[1..], p) + extra
    ensures Filter([s[0]] + b, p) == Filter(s, p) + extra
  {
    var h, tail := s[0], s[1..];
    FilterCons(h, b, p);
    FilterCons(h, tail, p);
    assert [h] + tail == s;
    AppendAssoc([h], Filter(tail, p), extra);
  }

  lemma AppendAssoc<T>(a: seq<T>, b: seq<T>, c: seq<T>)
    ensures a + (b + c) == (a + b) + c
  {
  }

  /** `Filter` on a list with a known head. */
  lemma FilterCons<T>(h: T, t: seq<T>, p: T -> bool)
    ensures Filter([h] + t, p) == if p(h) then [h] + Filter(t, p) else Filter(t, p)
  {
    assert ([h] + t)[0] == h && ([h] + t)[1..] == t;
  }

  /** Inserted in front of entries with greater keys, `x` is the last of its key. */
  lemma InsertInFront<T>(x: T, s: seq<T>, key: T -> int)
    requires SortedBy(s, key)
    requires s == [] || key(x) < key(s[0])
    ensures Filter(InsertBy(x, s, key), KeyIs(key, key(x))) == Filter(s, KeyIs(key, key(x))) + [x]
  {
    var p := KeyIs(key, key(x));
    assert InsertBy(x, s, key) == [x] + s;
    NoneMatchFilter(s, p);
    FilterAppend([x], s, p);
    assert Filter([x], p) == [x] + Filter([], p);
  }

  lemma {:induction false} NoneMatchFilter<T>(s: seq<T>, p: T -> bool)
    requires forall i :: 0 <= i < |s| ==> !p(s[i])
    ensures Filter(s, p) == []
  {
    if s != [] {
      NoneMatchFilter(s[1..], p);
    }
  }

  /** The sort is stable: the entries that share any one key keep their original relative order. */
  lemma {:induction false} SortByStable<T>(s: seq<T>, key: T -> int, k: int)
    ensures Filter(SortBy(s, key), KeyIs(key, k)) == Filter(s, KeyIs(key, k))
  {
    if s != [] {
      var p := KeyIs(key, k);
      var init, x := s[..|s| - 1], s[|s| - 1];
      var sorted := SortBy(init, key);
      assert SortBy(s, key) == InsertBy(x, sorted, key);
      SortByStable(init, key, k);
      assert s == init + [x];
      FilterAppend(init, [x], p);
      assert Filter([x], p) == if key(x) == k then [x] else [];
      if key(x) == k {
        InsertByStableSame(x, sorted, key);
      } else {
        InsertByStableOther(x, sorted, key, k);
      }
    }
  }
}
