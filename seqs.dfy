/** Generic list operations the client performs with `filter`, `map` and a
    comparator `sort`. */
module Seqs {

  /** Every entry satisfies `p`. */
  predicate All<T>(s: seq<T>, p: T -> bool) {
    forall i :: 0 <= i < |s| ==> p(s[i])
  }

  /** `s.filter(p)`: the entries satisfying `p`, in their original order. */
  function Keep<T>(s: seq<T>, p: T -> bool): (r: seq<T>)
    ensures |r| <= |s|
    ensures All(r, p)
    ensures multiset(r) <= multiset(s)
  {
    if s == [] then []
    else
      assert s == [s[0]] + s[1..];
      (if p(s[0]) then [s[0]] else []) + Keep(s[1..], p)
  }

  /** An entry survives the filter exactly when it is in the list and satisfies `p`. */
  lemma {:induction false} KeepMembers<T>(s: seq<T>, p: T -> bool, x: T)
    ensures x in Keep(s, p) <==> x in s && p(x)
  {
    if s != [] {
      KeepMembers(s[1..], p, x);
      assert s == [s[0]] + s[1..];
    }
  }

  /** Filtering distributes over concatenation: the order of the kept entries
      is the order they had. */
  lemma {:induction false} KeepAppend<T>(a: seq<T>, b: seq<T>, p: T -> bool)
    ensures Keep(a + b, p) == Keep(a, p) + Keep(b, p)
  {
    if a == [] {
      assert a + b == b;
    } else {
      assert (a + b)[0] == a[0];
      assert (a + b)[1..] == a[1..] + b;
      KeepAppend(a[1..], b, p);
      var h := if p(a[0]) then [a[0]] else [];
      assert Keep(a + b, p) == h + Keep(a[1..] + b, p);
      assert Keep(a, p) == h + Keep(a[1..], p);
      assert h + (Keep(a[1..], p) + Keep(b, p)) == (h + Keep(a[1..], p)) + Keep(b, p);
    }
  }

  /** `r` is `s` with some entries left out and the rest in their order. */
  predicate Subsequence<T(==)>(r: seq<T>, s: seq<T>)
    decreases |s|
  {
    r == [] || (s != [] && ((r[0] == s[0] && Subsequence(r[1..], s[1..])) || Subsequence(r, s[1..])))
  }

  /** The filter leaves entries out but never reorders them. */
  lemma {:induction false} KeepIsSubsequence<T>(s: seq<T>, p: T -> bool)
    ensures Subsequence(Keep(s, p), s)
  {
    if s != [] {
      KeepIsSubsequence(s[1..], p);
      var r := Keep(s, p);
      if p(s[0]) {
        assert r[0] == s[0] && r[1..] == Keep(s[1..], p);
      } else {
        assert r == Keep(s[1..], p);
      }
    }
  }

  /** The filter keeps every occurrence of a selected entry and none of the others. */
  lemma {:induction false} KeepCount<T>(s: seq<T>, p: T -> bool, x: T)
    ensures multiset(Keep(s, p))[x] == if p(x) then multiset(s)[x] else 0
  {
    if s != [] {
      KeepCount(s[1..], p, x);
      assert s == [s[0]] + s[1..];
    }
  }

  /** Entries with distinct keys keep distinct keys after filtering. */
  lemma {:induction false} KeepDistinct<T, K>(s: seq<T>, p: T -> bool, key: T -> K)
    requires forall i, j :: 0 <= i < j < |s| ==> key(s[i]) != key(s[j])
    ensures forall i, j :: 0 <= i < j < |Keep(s, p)| ==> key(Keep(s, p)[i]) != key(Keep(s, p)[j])
  {
    if s != [] {
      var rest := Keep(s[1..], p);
      KeepDistinct(s[1..], p, key);
      forall j | 0 <= j < |rest| ensures key(rest[j]) != key(s[0]) {
        KeepMembers(s[1..], p, rest[j]);
        var m :| 0 <= m < |s[1..]| && s[1..][m] == rest[j];
        assert s[m + 1] == rest[j];
      }
      var r := Keep(s, p);
      if p(s[0]) {
        assert r == [s[0]] + rest;
        forall i, j | 0 <= i < j < |r| ensures key(r[i]) != key(r[j]) {
          assert r[j] == rest[j - 1];
          if i > 0 {
            assert r[i] == rest[i - 1];
          }
        }
      } else {
        assert r == rest;
      }
    }
  }

  /** A one-entry list keeps its entry exactly when it is selected. */
  lemma KeepOne<T>(x: T, p: T -> bool)
    ensures Keep([x], p) == if p(x) then [x] else []
  {
    assert [x][1..] == [];
  }

  /** The first kept entry is the first selected entry of the list. */
  lemma {:induction false} KeepFirst<T>(s: seq<T>, p: T -> bool)
    requires Keep(s, p) != []
    ensures exists k :: 0 <= k < |s| && s[k] == Keep(s, p)[0] && p(s[k]) && forall j :: 0 <= j < k ==> !p(s[j])
  {
    if p(s[0]) {
      assert s[0] == Keep(s, p)[0];
    } else {
      assert Keep(s, p) == Keep(s[1..], p);
      KeepFirst(s[1..], p);
      var k :| 0 <= k < |s[1..]| && s[1..][k] == Keep(s[1..], p)[0] && p(s[1..][k]) &&
               forall j :: 0 <= j < k ==> !p(s[1..][j]);
      assert s[k + 1] == Keep(s, p)[0];
      forall j | 0 <= j < k + 1
        ensures !p(s[j])
      {
        if j > 0 {
          assert s[j] == s[1..][j - 1];
        }
      }
    }
  }

  /** A filter that keeps everything returns the list unchanged. */
  lemma {:induction false} KeepEverything<T>(s: seq<T>, p: T -> bool)
    requires forall i :: 0 <= i < |s| ==> p(s[i])
    ensures Keep(s, p) == s
  {
    if s != [] {
      KeepEverything(s[1..], p);
    }
  }

  /** A filter that selects nothing yields nothing. */
  lemma {:induction false} KeepNone<T>(s: seq<T>, p: T -> bool)
    requires forall i :: 0 <= i < |s| ==> !p(s[i])
    ensures Keep(s, p) == []
  {
    if s != [] {
      KeepNone(s[1..], p);
    }
  }

  /** A filter keeps the whole list only when every entry is selected. */
  lemma {:induction false} KeepAll<T>(s: seq<T>, p: T -> bool)
    requires |Keep(s, p)| == |s|
    ensures forall i :: 0 <= i < |s| ==> p(s[i])
  {
    if s != [] {
      var rest := Keep(s[1..], p);
      assert Keep(s, p) == (if p(s[0]) then [s[0]] else []) + rest;
      assert p(s[0]);
      KeepAll(s[1..], p);
      forall i | 1 <= i < |s|
        ensures p(s[i])
      {
        assert s[i] == s[1..][i - 1];
      }
    }
  }

  /** A filter keeps nothing only when no entry is selected. */
  lemma KeepEmpty<T>(s: seq<T>, p: T -> bool)
    requires Keep(s, p) == []
    ensures forall i :: 0 <= i < |s| ==> !p(s[i])
  {
    forall i | 0 <= i < |s|
      ensures !p(s[i])
    {
      KeepMembers(s, p, s[i]);
    }
  }

  /** Two complementary filters split a list without losing or duplicating entries. */
  lemma {:induction false} KeepSplit<T>(s: seq<T>, p: T -> bool, q: T -> bool)
    requires forall i :: 0 <= i < |s| ==> p(s[i]) != q(s[i])
    ensures multiset(Keep(s, p)) + multiset(Keep(s, q)) == multiset(s)
    ensures |Keep(s, p)| + |Keep(s, q)| == |s|
  {
    if s != [] {
      KeepSplit(s[1..], p, q);
      assert s == [s[0]] + s[1..];
    }
  }

  /** `s.map(x => p(x) ? f(x) : x)`: every selected entry transformed, the others untouched. */
  function MapWhere<T>(s: seq<T>, p: T -> bool, f: T -> T): (r: seq<T>)
    ensures |r| == |s|
    ensures forall i :: 0 <= i < |s| ==> r[i] == if p(s[i]) then f(s[i]) else s[i]
  {
    if s == [] then [] else [if p(s[0]) then f(s[0]) else s[0]] + MapWhere(s[1..], p, f)
  }

  /** `s.map(f)` */
  function Map<T, U>(s: seq<T>, f: T -> U): (r: seq<U>)
    ensures |r| == |s|
    ensures forall i :: 0 <= i < |s| ==> r[i] == f(s[i])
  {
    seq(|s|, i requires 0 <= i < |s| => f(s[i]))
  }

  /** `s.filter(p).map(f)` holds exactly the images of the kept entries. */
  lemma MapKeepMembers<T, U>(s: seq<T>, p: T -> bool, f: T -> U, x: U)
    ensures x in Map(Keep(s, p), f) <==> exists y :: y in s && p(y) && x == f(y)
  {
    var kept := Keep(s, p);
    var m := Map(kept, f);
    if x in m {
      var k :| 0 <= k < |m| && m[k] == x;
      KeepMembers(s, p, kept[k]);
    }
    if y :| y in s && p(y) && x == f(y) {
      KeepMembers(s, p, y);
      var k :| 0 <= k < |kept| && kept[k] == y;
      assert m[k] == x;
    }
  }

  /** The entries whose rank is `k`, in order. */
  function WithRank<T>(s: seq<T>, rank: T -> int, k: int): seq<T> {
    if s == [] then [] else (if rank(s[0]) == k then [s[0]] else []) + WithRank(s[1..], rank, k)
  }

  lemma {:induction false} WithRankHasRank<T>(s: seq<T>, rank: T -> int, k: int)
    ensures forall i :: 0 <= i < |WithRank(s, rank, k)| ==> rank(WithRank(s, rank, k)[i]) == k
  {
    if s != [] {
      WithRankHasRank(s[1..], rank, k);
    }
  }

  /** `s.sort((a, b) => rank(a) - rank(b))` for ranks 1, 2 and 3. The sort is
      stable, so it places the rank-1 entries first, then rank 2, then rank 3,
      each group in its original order. */
  function SortByRank<T>(s: seq<T>, rank: T -> int): seq<T> {
    WithRank(s, rank, 1) + WithRank(s, rank, 2) + WithRank(s, rank, 3)
  }

  predicate SortedByRank<T>(s: seq<T>, rank: T -> int) {
    forall i, j :: 0 <= i < j < |s| ==> rank(s[i]) <= rank(s[j])
  }

  /** The entry `x` if its rank is `k`, nothing otherwise. */
  function One<T>(x: T, rank: T -> int, k: int): multiset<T> {
    if rank(x) == k then multiset{x} else multiset{}
  }

  lemma WithRankStep<T>(s: seq<T>, rank: T -> int, k: int)
    requires s != []
    ensures multiset(WithRank(s, rank, k)) == One(s[0], rank, k) + multiset(WithRank(s[1..], rank, k))
  {
  }

  lemma OneSum<T>(x: T, rank: T -> int)
    requires 1 <= rank(x) <= 3
    ensures One(x, rank, 1) + One(x, rank, 2) + One(x, rank, 3) == multiset{x}
  {
  }

  lemma Regroup<T>(o1: multiset<T>, o2: multiset<T>, o3: multiset<T>, a: multiset<T>, b: multiset<T>, c: multiset<T>)
    ensures (o1 + a) + (o2 + b) + (o3 + c) == (o1 + o2 + o3) + (a + b + c)
  {
  }

  lemma HeadTail<T>(s: seq<T>)
    requires s != []
    ensures multiset(s) == multiset{s[0]} + multiset(s[1..])
  {
    assert s == [s[0]] + s[1..];
  }

  /** The three rank groups together hold exactly the entries of the list. */
  lemma {:induction false} WithRankSplit<T>(s: seq<T>, rank: T -> int)
    requires forall i :: 0 <= i < |s| ==> 1 <= rank(s[i]) <= 3
    ensures multiset(WithRank(s, rank, 1)) + multiset(WithRank(s, rank, 2))
            + multiset(WithRank(s, rank, 3)) == multiset(s)
  {
    if s != [] {
      var t := s[1..];
      WithRankSplit(t, rank);
      WithRankStep(s, rank, 1);
      WithRankStep(s, rank, 2);
      WithRankStep(s, rank, 3);
      OneSum(s[0], rank);
      Regroup(One(s[0], rank, 1), One(s[0], rank, 2), One(s[0], rank, 3),
              multiset(WithRank(t, rank, 1)), multiset(WithRank(t, rank, 2)), multiset(WithRank(t, rank, 3)));
      HeadTail(s);
    }
  }

  /** The comparator sort orders by rank and is a permutation of its input. */
  lemma SortByRankCorrect<T>(s: seq<T>, rank: T -> int)
    requires forall i :: 0 <= i < |s| ==> 1 <= rank(s[i]) <= 3
    ensures SortedByRank(SortByRank(s, rank), rank)
    ensures multiset(SortByRank(s, rank)) == multiset(s)
  {
    WithRankSplit(s, rank);
    WithRankHasRank(s, rank, 1);
    WithRankHasRank(s, rank, 2);
    WithRankHasRank(s, rank, 3);
  }

  /** Sorting a list whose entries all share one rank leaves it as it is. */
  lemma {:induction false} SortOneRank<T>(s: seq<T>, rank: T -> int, k: int)
    requires 1 <= k <= 3
    requires forall i :: 0 <= i < |s| ==> rank(s[i]) == k
    ensures SortByRank(s, rank) == s
  {
    OnlyRank(s, rank, k);
    NoRank(s, rank, if k == 1 then 2 else 1);
    NoRank(s, rank, if k == 3 then 2 else 3);
  }

  lemma {:induction false} OnlyRank<T>(s: seq<T>, rank: T -> int, k: int)
    requires forall i :: 0 <= i < |s| ==> rank(s[i]) == k
    ensures WithRank(s, rank, k) == s
  {
    if s != [] {
      OnlyRank(s[1..], rank, k);
    }
  }

  lemma {:induction false} NoRank<T>(s: seq<T>, rank: T -> int, k: int)
    requires forall i :: 0 <= i < |s| ==> rank(s[i]) != k
    ensures WithRank(s, rank, k) == []
  {
    if s != [] {
      NoRank(s[1..], rank, k);
    }
  }
}
