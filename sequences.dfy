/** Sequence operations the services rely on: filtering (a SQL `WHERE`), a stable
    sort (a SQL `ORDER BY` or Python's `sorted()`), SQLite's `LIMIT ? OFFSET ?`,
    Python's `lst[-k:]` and `reversed()`. */
module Sequences {

  /** The elements of `s` that satisfy `p`, in their original order. */
  function Filter<T>(s: seq<T>, p: T -> bool): (r: seq<T>)
    ensures |r| <= |s|
    ensures forall x :: x in r ==> x in s && p(x)
    ensures forall x :: x in s && p(x) ==> x in r
  {
    if s == [] then [] else (if p(s[0]) then [s[0]] else []) + Filter(s[1..], p)
  }

  /** Every element of `s` satisfying `p` is kept. */
  lemma {:induction false} FilterKeeps<T>(s: seq<T>, p: T -> bool, x: T)
    requires x in s && p(x)
    ensures x in Filter(s, p)
  {
    if s[0] != x {
      FilterKeeps(s[1..], p, x);
    }
  }

  /** A filter splits a sequence in two: what it keeps and what its negation keeps. */
  lemma {:induction false} FilterPartition<T>(s: seq<T>, p: T -> bool, q: T -> bool)
    requires forall x :: q(x) == !p(x)
    ensures |Filter(s, p)| + |Filter(s, q)| == |s|
  {
    if s != [] {
      FilterPartition(s[1..], p, q);
    }
  }

  /** Filtering twice by the same predicate changes nothing the second time. */
  lemma {:induction false} FilterIdempotent<T>(s: seq<T>, p: T -> bool)
    ensures Filter(Filter(s, p), p) == Filter(s, p)
  {
    if s != [] {
      FilterIdempotent(s[1..], p);
      if p(s[0]) {
        assert Filter(s, p) == [s[0]] + Filter(s[1..], p);
        assert ([s[0]] + Filter(s[1..], p))[1..] == Filter(s[1..], p);
      } else {
        assert Filter(s, p) == Filter(s[1..], p);
      }
    }
  }

  /** Filtering by `p` and then by `q` is filtering by `p` and `q` together. */
  lemma {:induction false} FilterFilter<T>(s: seq<T>, p: T -> bool, q: T -> bool, pq: T -> bool)
    requires forall x :: pq(x) == (p(x) && q(x))
    ensures Filter(Filter(s, p), q) == Filter(s, pq)
  {
    if s != [] {
      FilterFilter(s[1..], p, q, pq);
      if p(s[0]) {
        assert Filter(s, p) == [s[0]] + Filter(s[1..], p);
        assert ([s[0]] + Filter(s[1..], p))[1..] == Filter(s[1..], p);
      } else {
        assert Filter(s, p) == Filter(s[1..], p);
      }
    }
  }

  /** `le` orders every pair of values and is transitive. */
  ghost predicate TotalPreorder<T(!new)>(le: (T, T) -> bool) {
    (forall a, b :: le(a, b) || le(b, a)) &&
    (forall a, b, c :: le(a, b) && le(b, c) ==> le(a, c))
  }

  predicate SortedBy<T>(s: seq<T>, le: (T, T) -> bool) {
    forall i, j :: 0 <= i < j < |s| ==> le(s[i], s[j])
  }

  /** Insert `x` before the first element it may precede. */
  function Insert<T>(x: T, s: seq<T>, le: (T, T) -> bool): (r: seq<T>)
    ensures multiset(r) == multiset(s) + multiset{x}
  {
    if s == [] || le(x, s[0]) then [x] + s
    else
      assert s == [s[0]] + s[1..];
      [s[0]] + Insert(x, s[1..], le)
  }

  /** Insertion sort: a permutation of `s`, ordered by `le` when `le` is a total preorder. */
  function SortBy<T>(s: seq<T>, le: (T, T) -> bool): (r: seq<T>)
    ensures multiset(r) == multiset(s)
  {
    if s == [] then []
    else
      assert s == [s[0]] + s[1..];
      Insert(s[0], SortBy(s[1..], le), le)
  }

  lemma {:induction false} InsertSorted<T(!new)>(x: T, s: seq<T>, le: (T, T) -> bool)
    requires TotalPreorder(le) && SortedBy(s, le)
    ensures SortedBy(Insert(x, s, le), le)
  {
    if s != [] && !le(x, s[0]) {
      InsertSorted(x, s[1..], le);
      var r := Insert(x, s, le);
      var t := Insert(x, s[1..], le);
      assert r == [s[0]] + t;
      assert le(s[0], x);
      forall k | 0 <= k < |t| ensures le(s[0], t[k]) {
        assert t[k] in multiset(t);
        assert t[k] == x || t[k] in multiset(s[1..]);
        if t[k] != x {
          var m :| 0 <= m < |s[1..]| && s[1..][m] == t[k];
          assert s[1..][m] == s[m + 1];
        }
      }
    }
  }

  lemma {:induction false} SortBySorted<T(!new)>(s: seq<T>, le: (T, T) -> bool)
    requires TotalPreorder(le)
    ensures SortedBy(SortBy(s, le), le)
  {
    if s != [] {
      SortBySorted(s[1..], le);
      InsertSorted(s[0], SortBy(s[1..], le), le);
    }
  }

  /** SQLite's `LIMIT limit OFFSET offset`: a negative offset counts as zero and a
      negative limit means no limit. */
  function Page<T>(s: seq<T>, limit: int, offset: int): (r: seq<T>)
    ensures limit >= 0 ==> |r| <= limit
    ensures forall x :: x in r ==> x in s
  {
    var from := if offset <= 0 then 0 else if offset >= |s| then |s| else offset;
    var rest := s[from..];
    if limit < 0 || limit >= |rest| then rest else rest[..limit]
  }

  /** Python's `lst[-k:]`: the last `k` elements when `0 < k`, the whole list when
      `k == 0` (because `-0 == 0`), and everything after the first `-k` when `k < 0`. */
  function TakeLast<T>(s: seq<T>, k: int): (r: seq<T>)
    ensures 0 < k ==> |r| == if k < |s| then k else |s|
    ensures k == 0 ==> r == s
    ensures |r| <= |s| && r == s[|s| - |r|..]
  {
    var start := -k;
    var from := if start >= 0 then (if start > |s| then |s| else start)
                else (if |s| + start < 0 then 0 else |s| + start);
    s[from..]
  }

  /** Python's `list(reversed(s))`. */
  function Reverse<T>(s: seq<T>): (r: seq<T>)
    ensures |r| == |s|
    ensures forall i :: 0 <= i < |s| ==> r[i] == s[|s| - 1 - i]
  {
    if s == [] then [] else Reverse(s[1..]) + [s[0]]
  }

  /** Apply `f` to every element. */
  function MapSeq<T, U>(s: seq<T>, f: T -> U): (r: seq<U>)
    ensures |r| == |s|
    ensures forall i :: 0 <= i < |s| ==> r[i] == f(s[i])
  {
    if s == [] then [] else [f(s[0])] + MapSeq(s[1..], f)
  }

  /** How many elements of `s` equal `x`. */
  function CountOf<T(==)>(s: seq<T>, x: T): nat {
    if s == [] then 0 else (if s[0] == x then 1 else 0) + CountOf(s[1..], x)
  }

  lemma {:induction false} CountOfSnoc<T>(s: seq<T>, y: T, x: T)
    ensures CountOf(s + [y], x) == CountOf(s, x) + (if y == x then 1 else 0)
  {
    if s == [] {
      assert s + [y] == [y];
    } else {
      assert (s + [y])[1..] == s[1..] + [y];
      CountOfSnoc(s[1..], y, x);
    }
  }

  /** `groups` has a group for key `k`. */
  predicate HasKey<T(==)>(groups: seq<(T, nat)>, k: T) {
    groups != [] && (groups[0].0 == k || HasKey(groups[1..], k))
  }

  /** No key has two groups, and every group counts at least one element. */
  predicate ProperGroups<T(==)>(groups: seq<(T, nat)>) {
    groups == [] ||
    (groups[0].1 > 0 && !HasKey(groups[1..], groups[0].0) && ProperGroups(groups[1..]))
  }

  /** The count recorded for `k` (0 when there is no group for `k`). */
  function GroupCount<T(==)>(groups: seq<(T, nat)>, k: T): nat {
    if groups == [] then 0 else if groups[0].0 == k then groups[0].1 else GroupCount(groups[1..], k)
  }

  function SumCounts<T>(groups: seq<(T, nat)>): nat {
    if groups == [] then 0 else groups[0].1 + SumCounts(groups[1..])
  }

  /** Count one more `x`: bump its group, or open a new group for it at the end. */
  function Tally<T(==)>(groups: seq<(T, nat)>, x: T): (r: seq<(T, nat)>)
    ensures SumCounts(r) == SumCounts(groups) + 1
  {
    if groups == [] then [(x, 1)]
    else if groups[0].0 == x then [(x, groups[0].1 + 1)] + groups[1..]
    else
      assert ([groups[0]] + Tally(groups[1..], x))[1..] == Tally(groups[1..], x);
      [groups[0]] + Tally(groups[1..], x)
  }

  /** SQL's `SELECT key, COUNT(*) ... GROUP BY key`: one (key, count) pair per distinct
      key, in order of first appearance. */
  function GroupCounts<T(==)>(s: seq<T>): (r: seq<(T, nat)>)
    ensures SumCounts(r) == |s|
  {
    if s == [] then [] else Tally(GroupCounts(s[..|s| - 1]), s[|s| - 1])
  }

  lemma {:induction false} TallyFacts<T>(groups: seq<(T, nat)>, x: T, k: T)
    ensures GroupCount(Tally(groups, x), k) == GroupCount(groups, k) + (if k == x then 1 else 0)
    ensures HasKey(Tally(groups, x), k) <==> k == x || HasKey(groups, k)
    ensures ProperGroups(groups) ==> ProperGroups(Tally(groups, x))
  {
    if groups != [] {
      var r := Tally(groups, x);
      if groups[0].0 == x {
        assert r[1..] == groups[1..];
        if ProperGroups(groups) {
          NoKeyNoCount(groups[1..], x);
        }
      } else {
        TallyFacts(groups[1..], x, k);
        TallyFacts(groups[1..], x, groups[0].0);
        assert r[1..] == Tally(groups[1..], x);
      }
    }
  }

  lemma {:induction false} NoKeyNoCount<T>(groups: seq<(T, nat)>, k: T)
    ensures !HasKey(groups, k) ==> GroupCount(groups, k) == 0
  {
    if groups != [] {
      NoKeyNoCount(groups[1..], k);
    }
  }

  /** The groups of `s` are proper, one per distinct element, each holding that
      element's number of occurrences. */
  lemma {:induction false} GroupCountsExact<T>(s: seq<T>, k: T)
    ensures ProperGroups(GroupCounts(s))
    ensures HasKey(GroupCounts(s), k) <==> k in s
    ensures GroupCount(GroupCounts(s), k) == CountOf(s, k)
  {
    if s != [] {
      var init, last := s[..|s| - 1], s[|s| - 1];
      assert s == init + [last];
      GroupCountsExact(init, k);
      TallyFacts(GroupCounts(init), last, k);
      CountOfSnoc(init, last, k);
    }
  }

  /** The first page of a sorted sequence and what follows it make up the whole sorted
      sequence; the page is everything when `limit` is negative or large enough. */
  lemma SortedPage<T(!new)>(s: seq<T>, le: (T, T) -> bool, limit: int) returns (kept: seq<T>, rest: seq<T>)
    requires TotalPreorder(le)
    ensures kept == Page(SortBy(s, le), limit, 0)
    ensures SortedBy(kept + rest, le) && multiset(kept + rest) == multiset(s)
    ensures limit < 0 || limit >= |s| ==> rest == []
    ensures 0 <= limit < |s| ==> |kept| == limit
  {
    var sorted := SortBy(s, le);
    SortBySorted(s, le);
    assert |multiset(sorted)| == |multiset(s)|;
    assert sorted[0..] == sorted;
    kept := Page(sorted, limit, 0);
    rest := sorted[|kept|..];
    assert kept + rest == sorted;
  }

  /** Filters by pointwise-equal predicates agree. */
  lemma {:induction false} FilterSame<T>(s: seq<T>, p: T -> bool, q: T -> bool)
    requires forall x :: p(x) == q(x)
    ensures Filter(s, p) == Filter(s, q)
  {
    if s != [] {
      FilterSame(s[1..], p, q);
    }
  }

  /** A filter every element passes keeps the whole sequence. */
  lemma {:induction false} FilterAll<T>(s: seq<T>, p: T -> bool)
    requires forall x :: p(x)
    ensures Filter(s, p) == s
  {
    if s != [] {
      FilterAll(s[1..], p);
      assert s == [s[0]] + s[1..];
    }
  }

  /** A page of a sorted sequence is sorted. */
  lemma PageSorted<T>(s: seq<T>, limit: int, offset: int, le: (T, T) -> bool)
    requires SortedBy(s, le)
    ensures SortedBy(Page(s, limit, offset), le)
  {
    var from := if offset <= 0 then 0 else if offset >= |s| then |s| else offset;
    var r := Page(s, limit, offset);
    forall i, j | 0 <= i < j < |r| ensures le(r[i], r[j]) {
      assert r[i] == s[from + i] && r[j] == s[from + j];
    }
  }

  /** Counting the images equal to `y` counts the elements `f` sends to `y`. */
  lemma {:induction false} CountOfMapSeq<T, U>(s: seq<T>, f: T -> U, y: U, p: T -> bool)
    requires forall x :: p(x) == (f(x) == y)
    ensures CountOf(MapSeq(s, f), y) == |Filter(s, p)|
  {
    if s != [] {
      CountOfMapSeq(s[1..], f, y, p);
      assert MapSeq(s, f)[1..] == MapSeq(s[1..], f);
    }
  }

  /** Filtering keeps an order: the kept elements are a subsequence. */
  lemma {:induction false} FilterSorted<T>(s: seq<T>, p: T -> bool, le: (T, T) -> bool)
    requires SortedBy(s, le)
    ensures SortedBy(Filter(s, p), le)
  {
    if s != [] {
      var tail := s[1..];
      assert SortedBy(tail, le) by {
        forall i, j | 0 <= i < j < |tail| ensures le(tail[i], tail[j]) {
          assert tail[i] == s[i + 1] && tail[j] == s[j + 1];
        }
      }
      FilterSorted(tail, p, le);
      var rest := Filter(tail, p);
      if p(s[0]) {
        var r := Filter(s, p);
        assert r == [s[0]] + rest;
        forall i, j | 0 <= i < j < |r| ensures le(r[i], r[j]) {
          assert r[j] == rest[j - 1];
          if i > 0 {
            assert r[i] == rest[i - 1];
          } else {
            assert r[j] in tail;
            var k :| 0 <= k < |tail| && tail[k] == r[j];
            assert tail[k] == s[k + 1];
          }
        }
      } else {
        assert Filter(s, p) == rest;
      }
    }
  }

  /** Python's `sep.join(parts)`, for any kind of sequence. */
  function Join<T>(parts: seq<seq<T>>, sep: seq<T>): seq<T> {
    if |parts| == 0 then []
    else if |parts| == 1 then parts[0]
    else parts[0] + sep + Join(parts[1..], sep)
  }

  /** A join begins with its first part. */
  lemma JoinStartsWithFirst<T>(parts: seq<seq<T>>, sep: seq<T>)
    requires parts != []
    ensures |parts[0]| <= |Join(parts, sep)| && Join(parts, sep)[..|parts[0]|] == parts[0]
  {
  }

  lemma {:induction false} CountOfAppend<T>(a: seq<T>, b: seq<T>, x: T)
    ensures CountOf(a + b, x) == CountOf(a, x) + CountOf(b, x)
  {
    if a == [] {
      assert a + b == b;
    } else {
      assert (a + b)[1..] == a[1..] + b;
      CountOfAppend(a[1..], b, x);
    }
  }

  function TotalCount<T(==)>(parts: seq<seq<T>>, x: T): nat {
    if parts == [] then 0 else CountOf(parts[0], x) + TotalCount(parts[1..], x)
  }

  lemma {:induction false} TotalCountAppend<T>(a: seq<seq<T>>, b: seq<seq<T>>, x: T)
    ensures TotalCount(a + b, x) == TotalCount(a, x) + TotalCount(b, x)
  {
    if a == [] {
      assert a + b == b;
    } else {
      assert (a + b)[1..] == a[1..] + b;
      TotalCountAppend(a[1..], b, x);
    }
  }

  /** Joining with a separator free of `x` adds no `x`. */
  lemma {:induction false} CountOfJoin<T>(parts: seq<seq<T>>, sep: seq<T>, x: T)
    requires CountOf(sep, x) == 0
    ensures CountOf(Join(parts, sep), x) == TotalCount(parts, x)
  {
    if |parts| == 1 {
      assert parts[1..] == [];
    } else if |parts| > 1 {
      CountOfJoin(parts[1..], sep, x);
      CountOfAppend(parts[0] + sep, Join(parts[1..], sep), x);
      CountOfAppend(parts[0], sep, x);
    }
  }
}
