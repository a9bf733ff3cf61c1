/**
 * Stable sorting by a strict order, as JavaScript's `Array.prototype.sort` does
 * with a comparator, and the facts about filtering and sorting that make a
 * result independent of the order in which its inputs arrived.
 */
module Sorting {

  /** A strict weak order: irreflexive, transitive, and ties are transitive too. */
  ghost predicate StrictWeakOrder<T(!new)>(before: (T, T) -> bool) {
    && (forall x :: !before(x, x))
    && (forall x, y, z :: before(x, y) && before(y, z) ==> before(x, z))
    && (forall x, y, z :: before(x, z) ==> before(x, y) || before(y, z))
  }

  /** No two different elements of `s` tie. */
  ghost predicate TotalOn<T>(s: seq<T>, before: (T, T) -> bool) {
    forall x, y | x in s && y in s && x != y :: before(x, y) || before(y, x)
  }

  ghost predicate Sorted<T>(s: seq<T>, before: (T, T) -> bool) {
    forall i, j | 0 <= i < j < |s| :: !before(s[j], s[i])
  }

  /** Puts `x` behind every element it does not precede: equal elements keep their order. */
  function Insert<T>(s: seq<T>, x: T, before: (T, T) -> bool): seq<T> {
    if s == [] || !before(x, s[|s| - 1]) then s + [x]
    else Insert(s[..|s| - 1], x, before) + [s[|s| - 1]]
  }

  function Sort<T>(s: seq<T>, before: (T, T) -> bool): seq<T> {
    if s == [] then [] else Insert(Sort(s[..|s| - 1], before), s[|s| - 1], before)
  }

  function Filter<T>(s: seq<T>, keep: T -> bool): (r: seq<T>)
    ensures |r| <= |s|
    ensures forall x | x in r :: x in s && keep(x)
  {
    if s == [] then []
    else
      var last := s[|s| - 1];
      assert forall x | x in s[..|s| - 1] :: x in s;
      Filter(s[..|s| - 1], keep) + (if keep(last) then [last] else [])
  }

  lemma SplitLast<T>(s: seq<T>)
    requires s != []
    ensures s == s[..|s| - 1] + [s[|s| - 1]]
    ensures multiset(s) == multiset(s[..|s| - 1]) + multiset{s[|s| - 1]}
  {
    assert s == s[..|s| - 1] + [s[|s| - 1]];
  }

  lemma {:induction false} InsertPermutes<T>(s: seq<T>, x: T, before: (T, T) -> bool)
    ensures multiset(Insert(s, x, before)) == multiset(s) + multiset{x}
  {
    if s == [] || !before(x, s[|s| - 1]) {
    } else {
      SplitLast(s);
      InsertPermutes(s[..|s| - 1], x, before);
    }
  }

  lemma {:induction false} SortPermutes<T>(s: seq<T>, before: (T, T) -> bool)
    ensures multiset(Sort(s, before)) == multiset(s)
    ensures |Sort(s, before)| == |s|
    ensures forall x :: x in Sort(s, before) <==> x in s
  {
    if s == [] {
    } else {
      SplitLast(s);
      SortPermutes(s[..|s| - 1], before);
      InsertPermutes(Sort(s[..|s| - 1], before), s[|s| - 1], before);
    }
    assert |multiset(Sort(s, before))| == |multiset(s)|;
    assert forall x :: x in Sort(s, before) <==> x in multiset(Sort(s, before));
    assert forall x :: x in s <==> x in multiset(s);
  }

  lemma TiesAreTransitive<T(!new)>(x: T, y: T, z: T, before: (T, T) -> bool)
    requires StrictWeakOrder(before)
    ensures before(x, z) ==> before(x, y) || before(y, z)
  {
  }

  lemma {:induction false} InsertSorted<T(!new)>(s: seq<T>, x: T, before: (T, T) -> bool)
    requires StrictWeakOrder(before) && Sorted(s, before)
    ensures Sorted(Insert(s, x, before), before)
  {
    if s == [] || !before(x, s[|s| - 1]) {
      var r := s + [x];
      forall i, j | 0 <= i < j < |r| ensures !before(r[j], r[i]) {
        if j == |s| {
          TiesAreTransitive(x, s[|s| - 1], s[i], before);
        }
      }
    } else {
      var front, last := s[..|s| - 1], s[|s| - 1];
      InsertSorted(front, x, before);
      InsertPermutes(front, x, before);
      var inner := Insert(front, x, before);
      forall i | 0 <= i < |inner| ensures !before(last, inner[i]) {
        assert inner[i] in multiset(inner);
        if inner[i] != x {
          assert inner[i] in multiset(front);
          var k :| 0 <= k < |front| && front[k] == inner[i];
          assert !before(s[|s| - 1], s[k]);
        }
      }
    }
  }

  lemma {:induction false} SortSorted<T(!new)>(s: seq<T>, before: (T, T) -> bool)
    requires StrictWeakOrder(before)
    ensures Sorted(Sort(s, before), before)
  {
    if s != [] {
      SortSorted(s[..|s| - 1], before);
      InsertSorted(Sort(s[..|s| - 1], before), s[|s| - 1], before);
    }
  }

  /** Whatever ends one sorted arrangement cannot precede the end of another. */
  lemma LastIsLatest<T(!new)>(a: seq<T>, y: T, before: (T, T) -> bool)
    requires a != [] && Sorted(a, before) && y in a && !before(y, y)
    ensures !before(a[|a| - 1], y)
  {
    var j :| 0 <= j < |a| && a[j] == y;
    assert j < |a| - 1 ==> !before(a[|a| - 1], a[j]);
  }

  /** With no ties, the sorted arrangement of a collection is unique. */
  lemma {:induction false} SortedUnique<T(!new)>(a: seq<T>, b: seq<T>, before: (T, T) -> bool)
    requires Sorted(a, before) && Sorted(b, before)
    requires multiset(a) == multiset(b) && TotalOn(a, before)
    requires forall x :: !before(x, x)
    ensures a == b
  {
    assert |multiset(a)| == |multiset(b)|;
    if a != [] {
      var x, y := a[|a| - 1], b[|b| - 1];
      assert x in multiset(b) && y in multiset(a);
      LastIsLatest(a, y, before);
      LastIsLatest(b, x, before);
      assert x == y;
      var front, rest := a[..|a| - 1], b[..|b| - 1];
      SplitLast(a);
      SplitLast(b);
      assert multiset(front) == multiset(rest) by {
        assert multiset(front) == multiset(a) - multiset{x};
        assert multiset(rest) == multiset(b) - multiset{x};
      }
      PrefixOrdered(a, before);
      PrefixOrdered(b, before);
      SortedUnique(front, rest, before);
    }
  }

  lemma PrefixOrdered<T(!new)>(a: seq<T>, before: (T, T) -> bool)
    requires a != [] && Sorted(a, before)
    ensures Sorted(a[..|a| - 1], before)
    ensures TotalOn(a, before) ==> TotalOn(a[..|a| - 1], before)
  {
    var front := a[..|a| - 1];
    forall i, j | 0 <= i < j < |front| ensures !before(front[j], front[i]) {
      assert front[j] == a[j] && front[i] == a[i];
    }
    assert forall z | z in front :: z in a;
  }

  lemma {:induction false} FilterCounts<T(!new)>(s: seq<T>, keep: T -> bool, x: T)
    ensures multiset(Filter(s, keep))[x] == if keep(x) then multiset(s)[x] else 0
  {
    if s != [] {
      SplitLast(s);
      FilterCounts(s[..|s| - 1], keep, x);
    }
  }

  lemma FilterPermutes<T(!new)>(a: seq<T>, b: seq<T>, keep: T -> bool)
    requires multiset(a) == multiset(b)
    ensures multiset(Filter(a, keep)) == multiset(Filter(b, keep))
    ensures |Filter(a, keep)| == |Filter(b, keep)|
  {
    forall x: T ensures multiset(Filter(a, keep))[x] == multiset(Filter(b, keep))[x] {
      FilterCounts(a, keep, x);
      FilterCounts(b, keep, x);
    }
    assert multiset(Filter(a, keep)) == multiset(Filter(b, keep));
    assert |multiset(Filter(a, keep))| == |multiset(Filter(b, keep))|;
  }

  lemma {:induction false} FilterAll<T>(s: seq<T>, keep: T -> bool)
    requires forall x | x in s :: keep(x)
    ensures Filter(s, keep) == s
  {
    if s != [] {
      var front, last := s[..|s| - 1], s[|s| - 1];
      assert s == front + [last];
      assert last in s && forall x | x in front :: x in s;
      FilterAll(front, keep);
    }
  }

  lemma {:induction false} FilterSorted<T>(s: seq<T>, keep: T -> bool, before: (T, T) -> bool)
    requires Sorted(s, before)
    ensures Sorted(Filter(s, keep), before)
  {
    if s != [] {
      var front, last := s[..|s| - 1], s[|s| - 1];
      FilterSorted(front, keep, before);
      var r := Filter(front, keep);
      forall i | 0 <= i < |r| ensures !before(last, r[i]) {
        assert r[i] in r;
        var k :| 0 <= k < |front| && front[k] == r[i];
        assert !before(s[|s| - 1], s[k]);
      }
    }
  }

  lemma {:induction false} FilterConcat<T>(a: seq<T>, b: seq<T>, keep: T -> bool)
    ensures Filter(a + b, keep) == Filter(a, keep) + Filter(b, keep)
  {
    if b == [] {
      assert a + b == a;
    } else {
      assert (a + b)[..|a + b| - 1] == a + b[..|b| - 1];
      FilterConcat(a, b[..|b| - 1], keep);
    }
  }

  lemma FilterAppend<T>(s: seq<T>, x: T, keep: T -> bool)
    ensures Filter(s + [x], keep) == Filter(s, keep) + if keep(x) then [x] else []
  {
    assert (s + [x])[..|s + [x]| - 1] == s;
  }

  lemma {:induction false} FilterHolds<T>(s: seq<T>, keep: T -> bool, x: T)
    requires x in s && keep(x)
    ensures x in Filter(s, keep)
  {
    if x == s[|s| - 1] {
    } else {
      FilterHolds(s[..|s| - 1], keep, x);
    }
  }

  lemma {:induction false} FilterNone<T>(s: seq<T>, keep: T -> bool)
    requires forall x | x in s :: !keep(x)
    ensures Filter(s, keep) == []
  {
    if s != [] {
      assert s[|s| - 1] in s && forall x | x in s[..|s| - 1] :: x in s;
      FilterNone(s[..|s| - 1], keep);
    }
  }

  ghost predicate Implies<T(!new)>(strict: T -> bool, loose: T -> bool) {
    forall x :: strict(x) ==> loose(x)
  }

  /** A filter that another one implies removes nothing the other would keep. */
  lemma {:induction false} FilterImplied<T(!new)>(s: seq<T>, loose: T -> bool, strict: T -> bool)
    requires Implies(strict, loose)
    ensures Filter(Filter(s, loose), strict) == Filter(s, strict)
  {
    if s == [] {
      assert Filter(s, loose) == [];
    } else {
      var front, last := s[..|s| - 1], s[|s| - 1];
      FilterImplied(front, loose, strict);
      assert s == front + [last] && (strict(last) ==> loose(last));
      hide *;
      FilterAppend(front, last, loose);
      FilterAppend(front, last, strict);
      if loose(last) {
        FilterAppend(Filter(front, loose), last, strict);
      } else {
        assert Filter(front, loose) + [] == Filter(front, loose) && Filter(front, strict) + [] == Filter(front, strict);
      }
    }
  }

  /** No element of the class precedes another. */
  ghost predicate Unordered<T(!new)>(class_: T -> bool, before: (T, T) -> bool) {
    forall y, z :: class_(y) && class_(z) ==> !before(y, z)
  }

  lemma NotBefore<T(!new)>(class_: T -> bool, before: (T, T) -> bool, y: T, z: T)
    requires Unordered(class_, before) && before(y, z)
    ensures !class_(y) || !class_(z)
  {
  }

  /** Two optional tails swap unless both are there. */
  lemma TailsSwap<T>(s: seq<T>, x: T, y: T, withX: bool, withY: bool)
    requires !withX || !withY
    ensures (s + if withX then [x] else []) + (if withY then [y] else [])
         == (s + if withY then [y] else []) + (if withX then [x] else [])
  {
  }

  lemma InsertStops<T>(s: seq<T>, x: T, before: (T, T) -> bool)
    requires s == [] || !before(x, s[|s| - 1])
    ensures Insert(s, x, before) == s + [x]
  {
  }

  lemma InsertPasses<T>(front: seq<T>, last: T, x: T, before: (T, T) -> bool)
    requires before(x, last)
    ensures Insert(front + [last], x, before) == Insert(front, x, before) + [last]
  {
    assert (front + [last])[..|front + [last]| - 1] == front;
  }

  lemma LastOf<T>(s: seq<T>)
    requires s != []
    ensures s == s[..|s| - 1] + [s[|s| - 1]]
  {
  }

  /** Inserting passes over no element of a class without inner order. */
  lemma {:induction false} InsertKeepsClass<T(!new)>(s: seq<T>, x: T, before: (T, T) -> bool, class_: T -> bool)
    requires Unordered(class_, before)
    ensures Filter(Insert(s, x, before), class_) == Filter(s, class_) + if class_(x) then [x] else []
  {
    hide *;
    if s == [] || !before(x, s[|s| - 1]) {
      InsertStops(s, x, before);
      FilterAppend(s, x, class_);
    } else {
      var front, last := s[..|s| - 1], s[|s| - 1];
      LastOf(s);
      InsertPasses(front, last, x, before);
      InsertKeepsClass(front, x, before, class_);
      NotBefore(class_, before, x, last);
      FilterAppend(Insert(front, x, before), last, class_);
      FilterAppend(front, last, class_);
      TailsSwap(Filter(front, class_), x, last, class_(x), class_(last));
    }
  }

  lemma SortLast<T>(s: seq<T>, before: (T, T) -> bool)
    requires s != []
    ensures Sort(s, before) == Insert(Sort(s[..|s| - 1], before), s[|s| - 1], before)
  {
    hide Insert;
  }

  /** Sorting is stable: elements that do not precede each other keep the order they came in. */
  lemma {:induction false} SortStable<T(!new)>(s: seq<T>, before: (T, T) -> bool, class_: T -> bool)
    requires Unordered(class_, before)
    ensures Filter(Sort(s, before), class_) == Filter(s, class_)
  {
    if s == [] {
      assert Sort(s, before) == [];
    } else {
      hide *;
      LastOf(s);
      SortLast(s, before);
      SortStable(s[..|s| - 1], before, class_);
      InsertKeepsClass(Sort(s[..|s| - 1], before), s[|s| - 1], before, class_);
      FilterAppend(s[..|s| - 1], s[|s| - 1], class_);
    }
  }

  lemma FirstKept<T>(s: seq<T>, keep: T -> bool, i: nat)
    requires i < |s| && keep(s[i]) && forall k | 0 <= k < i :: !keep(s[k])
    ensures Filter(s, keep) != [] && Filter(s, keep)[0] == s[i]
  {
    assert s == (s[..i] + [s[i]]) + s[i + 1..];
    assert forall x | x in s[..i] :: !keep(x);
    hide *;
    FilterNone(s[..i], keep);
    FilterAppend(s[..i], s[i], keep);
    FilterConcat(s[..i] + [s[i]], s[i + 1..], keep);
  }

  lemma FirstWhere<T>(s: seq<T>, keep: T -> bool) returns (i: nat)
    requires exists x :: x in s && keep(x)
    ensures i < |s| && keep(s[i]) && forall k | 0 <= k < i :: !keep(s[k])
  {
    i := 0;
    while !keep(s[i])
      invariant i < |s| && forall k | 0 <= k < i :: !keep(s[k])
      decreases |s| - i
    {
      i := i + 1;
    }
  }

  lemma SwapPermutes<T>(s: seq<T>, i: nat, j: nat)
    requires i < |s| && j < |s|
    ensures multiset(s[i := s[j]][j := s[i]]) == multiset(s)
  {
  }

  /**
   * Sorting and then dropping the elements that may tie gives a result that
   * depends only on which elements there are, not on the order they came in.
   */
  lemma FilteredSortAgrees<T(!new)>(a: seq<T>, b: seq<T>, keep: T -> bool, before: (T, T) -> bool)
    requires StrictWeakOrder(before) && multiset(a) == multiset(b)
    requires TotalOn(Filter(Sort(a, before), keep), before)
    ensures Filter(Sort(a, before), keep) == Filter(Sort(b, before), keep)
  {
    SortSorted(a, before);
    SortSorted(b, before);
    SortPermutes(a, before);
    SortPermutes(b, before);
    FilterSorted(Sort(a, before), keep, before);
    FilterSorted(Sort(b, before), keep, before);
    FilterPermutes(Sort(a, before), Sort(b, before), keep);
    SortedUnique(Filter(Sort(a, before), keep), Filter(Sort(b, before), keep), before);
  }

  ghost predicate DistinctBy<T, K>(s: seq<T>, key: T -> K) {
    forall i, j | 0 <= i < j < |s| :: key(s[i]) != key(s[j])
  }

  lemma {:induction false} DistinctCountsOnce<T(!new), K>(s: seq<T>, key: T -> K, x: T)
    requires DistinctBy(s, key)
    ensures multiset(s)[x] <= 1
  {
    if s != [] {
      SplitLast(s);
      var front := s[..|s| - 1];
      assert DistinctBy(front, key) by {
        forall i, j | 0 <= i < j < |front| ensures key(front[i]) != key(front[j]) {
          assert key(s[i]) != key(s[j]);
        }
      }
      DistinctCountsOnce(front, key, x);
      if s[|s| - 1] == x {
        assert x !in front;
        assert multiset(front)[x] == 0;
      }
    }
  }

  lemma TwicePresent<T>(r: seq<T>, i: nat, j: nat)
    requires i < j < |r| && r[i] == r[j]
    ensures multiset(r)[r[i]] >= 2
  {
    assert r == r[..j] + r[j..];
    assert r[..j][i] == r[i] && r[j..][0] == r[i];
    assert multiset(r)[r[i]] == multiset(r[..j])[r[i]] + multiset(r[j..])[r[i]];
  }

  lemma KeysDiffer<T, K>(s: seq<T>, key: T -> K, x: T, y: T)
    requires DistinctBy(s, key) && x in s && y in s && x != y
    ensures key(x) != key(y)
  {
    var m :| 0 <= m < |s| && s[m] == x;
    var n :| 0 <= n < |s| && s[n] == y;
    assert m < n || n < m;
  }

  /** Rearranging elements with distinct keys leaves the keys distinct. */
  lemma DistinctPermutes<T(!new), K>(s: seq<T>, r: seq<T>, key: T -> K)
    requires DistinctBy(s, key) && multiset(s) == multiset(r)
    ensures DistinctBy(r, key)
  {
    forall i, j | 0 <= i < j < |r| ensures key(r[i]) != key(r[j]) {
      assert r[i] in multiset(s) && r[j] in multiset(s);
      DistinctCountsOnce(s, key, r[i]);
      if r[i] == r[j] {
        TwicePresent(r, i, j);
      } else {
        KeysDiffer(s, key, r[i], r[j]);
      }
    }
  }

  // ----- counting

  /** The sum over a sequence of what each element contributes. */
  function SumOf<T, K>(s: seq<T>, of: T -> multiset<K>): multiset<K> {
    if s == [] then multiset{} else SumOf(s[..|s| - 1], of) + of(s[|s| - 1])
  }

  lemma {:induction false} SumConcat<T, K>(a: seq<T>, b: seq<T>, of: T -> multiset<K>)
    ensures SumOf(a + b, of) == SumOf(a, of) + SumOf(b, of)
  {
    if b == [] {
      assert a + b == a;
    } else {
      assert (a + b)[..|a + b| - 1] == a + b[..|b| - 1];
      SumConcat(a, b[..|b| - 1], of);
    }
  }

  lemma WithoutOne<T>(s: seq<T>, k: nat)
    requires k < |s|
    ensures s == (s[..k] + [s[k]]) + s[k + 1..]
    ensures multiset(s) == multiset(s[..k] + s[k + 1..]) + multiset{s[k]}
  {
    var a, x, b := s[..k], s[k], s[k + 1..];
    assert s == (a + [x]) + b;
    assert multiset(s) == multiset(a + [x]) + multiset(b);
    assert multiset(a + b) == multiset(a) + multiset(b);
  }

  lemma SumWithout<T, K>(s: seq<T>, k: nat, of: T -> multiset<K>)
    requires k < |s|
    ensures SumOf(s, of) == SumOf(s[..k] + s[k + 1..], of) + of(s[k])
    ensures multiset(s) == multiset(s[..k] + s[k + 1..]) + multiset{s[k]}
  {
    hide *;
    WithoutOne(s, k);
    SumMiddle(s[..k], s[k], s[k + 1..], of);
  }

  lemma SumMiddle<T, K>(a: seq<T>, x: T, b: seq<T>, of: T -> multiset<K>)
    ensures SumOf((a + [x]) + b, of) == SumOf(a + b, of) + of(x)
  {
    hide *;
    SumOfOne(x, of);
    SumConcat(a + [x], b, of);
    SumConcat(a, [x], of);
    SumConcat(a, b, of);
    SumsSwap(SumOf(a, of), of(x), SumOf(b, of));
  }

  lemma SumsSwap<K>(a: multiset<K>, x: multiset<K>, b: multiset<K>)
    ensures (a + x) + b == (a + b) + x
  {
  }

  lemma SumOfOne<T, K>(x: T, of: T -> multiset<K>)
    ensures SumOf([x], of) == of(x)
  {
    assert [x][..0] == [];
    assert SumOf([x][..0], of) == multiset{};
  }

  /** The sum does not depend on the order of the elements. */
  lemma {:induction false} SumPermutes<T(!new), K>(a: seq<T>, b: seq<T>, of: T -> multiset<K>)
    requires multiset(a) == multiset(b)
    ensures SumOf(a, of) == SumOf(b, of)
  {
    assert |multiset(a)| == |multiset(b)|;
    if a != [] {
      var x := a[|a| - 1];
      assert x in multiset(b);
      var k :| 0 <= k < |b| && b[k] == x;
      SplitLast(a);
      SumWithout(b, k, of);
      assert multiset(a[..|a| - 1]) == multiset(a) - multiset{x};
      assert multiset(b[..k] + b[k + 1..]) == multiset(b) - multiset{x};
      SumPermutes(a[..|a| - 1], b[..k] + b[k + 1..], of);
    }
  }

  /** What two elements contribute is part of the whole. */
  lemma SumHasBoth<T, K>(s: seq<T>, x: T, y: T, of: T -> multiset<K>, key: K)
    requires x in s && y in s && x != y
    ensures SumOf(s, of)[key] >= of(x)[key] + of(y)[key]
  {
    var k :| 0 <= k < |s| && s[k] == x;
    var rest := s[..k] + s[k + 1..];
    SumWithout(s, k, of);
    var j :| 0 <= j < |s| && s[j] == y;
    assert rest[if j < k then j else j - 1] == y;
    var m :| 0 <= m < |rest| && rest[m] == y;
    SumWithout(rest, m, of);
  }

  /** Elements either pass the filter or contribute one item. */
  lemma {:induction false} FilterAndSum<T(!new), K>(s: seq<T>, keep: T -> bool, of: T -> multiset<K>)
    requires forall x :: |of(x)| == if keep(x) then 0 else 1
    ensures |Filter(s, keep)| + |SumOf(s, of)| == |s|
  {
    if s != [] {
      FilterAndSum(s[..|s| - 1], keep, of);
      assert |of(s[|s| - 1])| == if keep(s[|s| - 1]) then 0 else 1;
    }
  }
}
