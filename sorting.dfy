/**
 * A reference ordering for the database's `orderBy`: an insertion sort under a
 * total "may come before" relation. The database promises only that the result
 * is ordered by the key and holds the same rows; so does this model.
 */
module Sorting {

  /** Every two elements are comparable one way or the other. */
  ghost predicate Total<T(!new)>(leq: (T, T) -> bool) {
    forall a, b :: leq(a, b) || leq(b, a)
  }

  /** Each element may come before its successor. */
  predicate SortedBy<T>(s: seq<T>, leq: (T, T) -> bool) {
    forall i :: 0 < i < |s| ==> leq(s[i - 1], s[i])
  }

  /** Places `x` in front of the first element it may precede. */
  function Insert<T(!new)>(x: T, s: seq<T>, leq: (T, T) -> bool): (r: seq<T>)
    requires Total(leq)
    ensures multiset(r) == multiset(s) + multiset{x}
    ensures |r| == |s| + 1
    ensures r[0] == x || (s != [] && r[0] == s[0])
    ensures SortedBy(s, leq) ==> SortedBy(r, leq)
  {
    if s == [] then [x]
    else if leq(x, s[0]) then [x] + s
    else
      var rest := Insert(x, s[1..], leq);
      assert s == [s[0]] + s[1..];
      assert SortedBy(s, leq) ==> SortedBy([s[0]] + rest, leq) by {
        if SortedBy(s, leq) {
          assert SortedBy(s[1..], leq) by {
            forall i | 0 < i < |s[1..]| ensures leq(s[1..][i - 1], s[1..][i]) {
              assert s[1..][i - 1] == s[i] && s[1..][i] == s[i + 1];
            }
          }
          assert leq(s[0], x);
          assert |s| > 1 ==> leq(s[0], s[1]);
          var r := [s[0]] + rest;
          forall i | 0 < i < |r| ensures leq(r[i - 1], r[i]) {
            if i > 1 {
              assert r[i - 1] == rest[i - 2] && r[i] == rest[i - 1];
            }
          }
        }
      }
      [s[0]] + rest
  }

  /** The elements of `s` reordered so that each may come before the next. */
  function Sort<T(!new)>(s: seq<T>, leq: (T, T) -> bool): (r: seq<T>)
    requires Total(leq)
    ensures multiset(r) == multiset(s)
    ensures |r| == |s|
    ensures SortedBy(r, leq)
  {
    if s == [] then []
    else
      assert s == [s[0]] + s[1..];
      Insert(s[0], Sort(s[1..], leq), leq)
  }

  /** A permutation holds exactly the same elements. */
  lemma SameElements<T>(r: seq<T>, s: seq<T>)
    requires multiset(r) == multiset(s)
    ensures forall x :: x in r <==> x in s
  {
    forall x ensures x in r <==> x in s {
      assert x in r <==> x in multiset(r);
      assert x in s <==> x in multiset(s);
    }
  }

  /** Under a transitive relation, adjacent order gives order between any two positions. */
  lemma {:induction false} SortedPairwise<T(!new)>(s: seq<T>, leq: (T, T) -> bool, i: int, j: int)
    requires SortedBy(s, leq)
    requires forall a, b, c :: leq(a, b) && leq(b, c) ==> leq(a, c)
    requires 0 <= i < j < |s|
    ensures leq(s[i], s[j])
    decreases j - i
  {
    if j > i + 1 {
      SortedPairwise(s, leq, i, j - 1);
    }
  }
}
