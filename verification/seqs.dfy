/** Order-preserving filtering, mapping and counting over sequences: the
    reference against which the client's list-shaping loops are stated. */
module Seqs {

  function Map<A, B>(f: A -> B, s: seq<A>): (r: seq<B>)
    ensures |r| == |s|
    ensures forall i :: 0 <= i < |s| ==> r[i] == f(s[i])
  {
    seq(|s|, i requires 0 <= i < |s| => f(s[i]))
  }

  /** The elements of `s` that satisfy `p`, in their original order. */
  function Filter<A>(p: A -> bool, s: seq<A>): (r: seq<A>)
    ensures |r| <= |s|
    ensures forall i :: 0 <= i < |r| ==> p(r[i]) && r[i] in s
  {
    if |s| == 0 then [] else (if p(s[0]) then [s[0]] else []) + Filter(p, s[1..])
  }

  /** How many elements of `s` satisfy `p`. */
  function Count<A>(p: A -> bool, s: seq<A>): (n: nat)
    ensures n <= |s|
  {
    if |s| == 0 then 0 else (if p(s[0]) then 1 else 0) + Count(p, s[1..])
  }

  lemma MapCons<A, B>(f: A -> B, x: A, s: seq<A>)
    ensures Map(f, [x] + s) == [f(x)] + Map(f, s)
  {
    var lhs, rhs := Map(f, [x] + s), [f(x)] + Map(f, s);
    forall i | 0 <= i < |lhs|
      ensures lhs[i] == rhs[i]
    {
      if 0 < i {
        assert ([x] + s)[i] == s[i - 1];
      }
    }
  }

  /** Filtering with `p` removes exactly the elements satisfying its negation `q`. */
  lemma {:induction false} FilterLength<A>(p: A -> bool, q: A -> bool, s: seq<A>)
    requires forall x :: q(x) == !p(x)
    ensures |Filter(p, s)| == |s| - Count(q, s)
  {
    if |s| > 0 {
      FilterLength(p, q, s[1..]);
    }
  }

  /** An element satisfying `p` is counted. */
  lemma {:induction false} CountPositive<A>(p: A -> bool, s: seq<A>, i: int)
    requires 0 <= i < |s| && p(s[i])
    ensures Count(p, s) > 0
  {
    if i > 0 {
      assert s[1..][i - 1] == s[i];
      CountPositive(p, s[1..], i - 1);
    }
  }
}
