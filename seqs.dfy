/** Sequence helpers that stand for JavaScript's `Array.prototype.filter`, `find`, `flatMap` and `[...new Set(xs)]`. */
module Seqs {
  import opened Wrappers

  /** No element occurs twice. */
  predicate NoDuplicates<T(==)>(s: seq<T>) {
    forall i, j :: 0 <= i < j < |s| ==> s[i] != s[j]
  }

  /** `rel` holds from every element to every later one. */
  ghost predicate Pairwise<T>(s: seq<T>, rel: (T, T) -> bool) {
    forall i, j :: 0 <= i < j < |s| ==> rel(s[i], s[j])
  }

  /** `s.filter(keep)`: the elements that pass, in their original order. */
  function Filter<T(!new)>(s: seq<T>, keep: T -> bool): (r: seq<T>)
    ensures |r| <= |s|
    ensures forall x :: x in r <==> x in s && keep(x)
  {
    if s == [] then []
    else (if keep(s[0]) then [s[0]] else []) + Filter(s[1..], keep)
  }

  /** Filtering distributes over concatenation, so the kept elements stay in order. */
  lemma {:induction false} FilterAppend<T(!new)>(a: seq<T>, b: seq<T>, keep: T -> bool)
    ensures Filter(a + b, keep) == Filter(a, keep) + Filter(b, keep)
  {
    if a == [] {
      assert a + b == b;
    } else {
      assert (a + b)[0] == a[0];
      assert (a + b)[1..] == a[1..] + b;
      FilterAppend(a[1..], b, keep);
    }
  }

  /** When no element passes, filtering returns nothing. */
  lemma {:induction false} FilterDropsAll<T(!new)>(s: seq<T>, keep: T -> bool)
    requires forall i :: 0 <= i < |s| ==> !keep(s[i])
    ensures Filter(s, keep) == []
  {
    if s != [] {
      FilterDropsAll(s[1..], keep);
    }
  }

  /** When exactly position `k` passes, filtering leaves that one element. */
  lemma {:induction false} FilterExactlyOne<T(!new)>(s: seq<T>, keep: T -> bool, k: nat)
    requires k < |s| && keep(s[k])
    requires forall i :: 0 <= i < |s| && i != k ==> !keep(s[i])
    ensures Filter(s, keep) == [s[k]]
  {
    if k == 0 {
      FilterDropsAll(s[1..], keep);
    } else {
      FilterExactlyOne(s[1..], keep, k - 1);
    }
  }

  /** When every element passes, filtering returns the sequence itself. */
  lemma {:induction false} FilterKeepsAll<T(!new)>(s: seq<T>, keep: T -> bool)
    requires forall i :: 0 <= i < |s| ==> keep(s[i])
    ensures Filter(s, keep) == s
  {
    if s != [] {
      FilterKeepsAll(s[1..], keep);
    }
  }

  /** Two predicates that agree on every element of `s` filter it alike. */
  lemma {:induction false} FilterCongruent<T(!new)>(s: seq<T>, p: T -> bool, q: T -> bool)
    requires forall i :: 0 <= i < |s| ==> p(s[i]) == q(s[i])
    ensures Filter(s, p) == Filter(s, q)
  {
    if s != [] {
      FilterCongruent(s[1..], p, q);
    }
  }

  /** A relation that holds between every earlier and later element still holds after filtering. */
  lemma {:induction false} FilterPairwise<T(!new)>(s: seq<T>, keep: T -> bool, rel: (T, T) -> bool)
    requires Pairwise(s, rel)
    ensures Pairwise(Filter(s, keep), rel)
  {
    if s != [] {
      var tail := s[1..];
      assert Pairwise(tail, rel) by {
        forall i, j | 0 <= i < j < |tail| ensures rel(tail[i], tail[j]) {
          assert tail[i] == s[i + 1] && tail[j] == s[j + 1];
        }
      }
      FilterPairwise(tail, keep, rel);
      var ft := Filter(tail, keep);
      assert forall y :: y in ft ==> rel(s[0], y) by {
        forall y | y in ft ensures rel(s[0], y) {
          var k :| 0 <= k < |tail| && tail[k] == y;
          assert s[k + 1] == y;
        }
      }
      var r := Filter(s, keep);
      if keep(s[0]) {
        assert r == [s[0]] + ft;
        forall i, j | 0 <= i < j < |r| ensures rel(r[i], r[j]) {
          if i == 0 {
            assert r[j] == ft[j - 1];
            assert r[j] in ft;
          } else {
            assert r[i] == ft[i - 1] && r[j] == ft[j - 1];
          }
        }
      } else {
        assert r == ft;
      }
    }
  }

  /** Filtering a duplicate-free sequence keeps it duplicate-free. */
  lemma FilterNoDuplicates<T(!new)>(s: seq<T>, keep: T -> bool)
    requires NoDuplicates(s)
    ensures NoDuplicates(Filter(s, keep))
  {
    var distinct := (a: T, b: T) => a != b;
    assert Pairwise(s, distinct);
    FilterPairwise(s, keep, distinct);
    var r := Filter(s, keep);
    assert forall i, j :: 0 <= i < j < |r| ==> distinct(r[i], r[j]);
  }

  /** The position of the first element that `keep` accepts, if any. */
  function FindFirst<T>(s: seq<T>, keep: T -> bool): (r: Option<nat>)
    ensures r.Some? ==> r.value < |s| && keep(s[r.value])
    ensures r.Some? ==> forall k :: 0 <= k < r.value ==> !keep(s[k])
    ensures r.None? <==> forall k :: 0 <= k < |s| ==> !keep(s[k])
  {
    if s == [] then None
    else if keep(s[0]) then Some(0)
    else match FindFirst(s[1..], keep)
      case Some(k) => Some(k + 1)
      case None => None
  }

  /** `xs.flatMap(x => x)`: the concatenation of all inner sequences. */
  function Flatten<T(!new)>(ss: seq<seq<T>>): (r: seq<T>)
    ensures forall x :: x in r <==> exists i :: 0 <= i < |ss| && x in ss[i]
  {
    if ss == [] then []
    else
      var rest := Flatten(ss[1..]);
      assert forall x :: x in rest <==> exists i :: 1 <= i < |ss| && x in ss[i] by {
        forall x ensures x in rest <==> exists i :: 1 <= i < |ss| && x in ss[i] {
          if x in rest {
            var k :| 0 <= k < |ss[1..]| && x in ss[1..][k];
            assert x in ss[k + 1];
          }
          if exists i :: 1 <= i < |ss| && x in ss[i] {
            var k :| 1 <= k < |ss| && x in ss[k];
            assert x in ss[1..][k - 1];
          }
        }
      }
      ss[0] + rest
  }

  /** `[...new Set(s)]`: each element once, in the order of its first occurrence. */
  function Dedup<T(==,!new)>(s: seq<T>): (r: seq<T>)
    ensures forall x :: x in r <==> x in s
    ensures NoDuplicates(r)
    decreases |s|
  {
    if s == [] then []
    else
      var front := Dedup(s[..|s| - 1]);
      var last := s[|s| - 1];
      assert s == s[..|s| - 1] + [last];
      if last in front then front else front + [last]
  }

  /** Deduplication keeps a duplicate-free sequence exactly as it is. */
  lemma {:induction false} DedupOfDistinct<T(!new)>(s: seq<T>)
    requires NoDuplicates(s)
    ensures Dedup(s) == s
    decreases |s|
  {
    if s != [] {
      var front := s[..|s| - 1];
      assert NoDuplicates(front);
      DedupOfDistinct(front);
      assert s[|s| - 1] !in front;
      assert front + [s[|s| - 1]] == s;
    }
  }
}
