/** Order-preserving subsequences and element-wise maps over sequences. */
module Sequences {

  /** `a` can be obtained from `b` by deleting elements, keeping the order of the rest. */
  predicate IsSubsequence<T(==)>(a: seq<T>, b: seq<T>)
    decreases |b|
  {
    a == [] || (b != [] && ((a[0] == b[0] && IsSubsequence(a[1..], b[1..])) || IsSubsequence(a, b[1..])))
  }

  /** `s.map(f)` */
  function MapSeq<A, B>(f: A -> B, s: seq<A>): (r: seq<B>)
    ensures |r| == |s|
    ensures forall i :: 0 <= i < |s| ==> r[i] == f(s[i])
  {
    seq(|s|, i requires 0 <= i < |s| => f(s[i]))
  }

  lemma MapAppend<A, B>(f: A -> B, a: seq<A>, b: seq<A>)
    ensures MapSeq(f, a + b) == MapSeq(f, a) + MapSeq(f, b)
  {
  }

  /** Mapping the same function over two permutations of each other gives two permutations of each other. */
  lemma {:induction false} MapRespectsPermutation<A, B>(f: A -> B, s: seq<A>, t: seq<A>)
    requires multiset(s) == multiset(t)
    ensures multiset(MapSeq(f, s)) == multiset(MapSeq(f, t))
    decreases |s|
  {
    if s == [] {
      assert |multiset(t)| == |t|;
    } else {
      var x := s[0];
      assert x in multiset(t);
      var k :| 0 <= k < |t| && t[k] == x;
      var t' := t[..k] + t[k + 1..];
      assert t == t[..k] + [x] + t[k + 1..];
      assert s == [x] + s[1..];
      assert multiset(s) == multiset([x]) + multiset(s[1..]);
      calc {
        multiset(t);
        multiset(t[..k] + [x] + t[k + 1..]);
        multiset(t[..k] + [x]) + multiset(t[k + 1..]);
        multiset(t[..k]) + multiset([x]) + multiset(t[k + 1..]);
      }
      assert multiset(t') == multiset(t[..k]) + multiset(t[k + 1..]);
      assert multiset(s[1..]) == multiset(s) - multiset([x]);
      assert multiset(t') == multiset(t) - multiset([x]);
      MapRespectsPermutation(f, s[1..], t');
      MapAppend(f, [x], s[1..]);
      MapAppend(f, t[..k] + [x], t[k + 1..]);
      MapAppend(f, t[..k], [x]);
      MapAppend(f, t[..k], t[k + 1..]);
    }
  }
}
