/** Order-preserving selection, as JavaScript's `Array.prototype.filter`. */
module Seqs {

  /** `a` is obtained from `b` by deleting elements, keeping the order. */
  predicate IsSubsequence<T(==)>(a: seq<T>, b: seq<T>)
    decreases |b|
  {
    if a == [] then true
    else if b == [] then false
    else if a[0] == b[0] then IsSubsequence(a[1..], b[1..])
    else IsSubsequence(a, b[1..])
  }

  /** The elements of `s` that satisfy `p`, in their original order: each
      kept value occurs as often as in `s`, each dropped value not at all. */
  function Filter<T(==,!new)>(s: seq<T>, p: T -> bool): (r: seq<T>)
    ensures |r| <= |s|
    ensures IsSubsequence(r, s)
    ensures forall k :: 0 <= k < |r| ==> p(r[k])
    ensures forall x :: multiset(r)[x] == if p(x) then multiset(s)[x] else 0
  {
    if s == [] then []
    else
      var rest := Filter(s[1..], p);
      assert s == [s[0]] + s[1..];
      if p(s[0]) then
        var r := [s[0]] + rest;
        assert r[1..] == rest;
        r
      else
        assert rest != [] ==> rest[0] != s[0] by {
          if rest != [] { assert p(rest[0]); }
        }
        rest
  }

  /** Two complementary filters split a sequence: together they keep every
      element exactly once. */
  lemma FilterPartition<T(!new)>(s: seq<T>, p: T -> bool, q: T -> bool)
    requires forall x :: q(x) == !p(x)
    ensures multiset(Filter(s, p)) + multiset(Filter(s, q)) == multiset(s)
    ensures |Filter(s, p)| + |Filter(s, q)| == |s|
  {
    var a, b := Filter(s, p), Filter(s, q);
    forall x ensures (multiset(a) + multiset(b))[x] == multiset(s)[x] {
      assert multiset(a)[x] == if p(x) then multiset(s)[x] else 0;
      assert multiset(b)[x] == if q(x) then multiset(s)[x] else 0;
    }
    assert multiset(a) + multiset(b) == multiset(s);
    assert |multiset(a) + multiset(b)| == |a| + |b|;
  }
}
