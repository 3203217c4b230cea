/** Generic sequence shaping used by every report: one output per input, and concatenation of lists. */
module Seqs {

  /** `[f(x) for x in xs]`: one result per element, in order. */
  function Map<A, B>(xs: seq<A>, f: A -> B): (r: seq<B>)
    ensures |r| == |xs|
    ensures forall i :: 0 <= i < |xs| ==> r[i] == f(xs[i])
  {
    seq(|xs|, i requires 0 <= i < |xs| => f(xs[i]))
  }

  /** The lists of `xss` one after the other (repeated `list.extend`). */
  function Concat<T>(xss: seq<seq<T>>): seq<T>
  {
    if |xss| == 0 then [] else xss[0] + Concat(xss[1..])
  }

  /** The sum of the lengths of the lists of `xss`. */
  function TotalLength<T>(xss: seq<seq<T>>): nat
  {
    if |xss| == 0 then 0 else |xss[0]| + TotalLength(xss[1..])
  }

  lemma {:induction false} ConcatLength<T>(xss: seq<seq<T>>)
    ensures |Concat(xss)| == TotalLength(xss)
  {
    if |xss| > 0 {
      ConcatLength(xss[1..]);
    }
  }

  /** Element `j` of list `p` sits in the concatenation right after all elements of the lists before `p`. */
  lemma {:induction false} ConcatAt<T>(xss: seq<seq<T>>, p: nat, j: nat)
    requires p < |xss| && j < |xss[p]|
    ensures TotalLength(xss[..p]) + j < |Concat(xss)|
    ensures Concat(xss)[TotalLength(xss[..p]) + j] == xss[p][j]
  {
    ConcatLength(xss);
    if p == 0 {
      assert xss[..0] == [];
    } else {
      ConcatAt(xss[1..], p - 1, j);
      assert xss[..p][1..] == xss[1..][..p - 1];
      ConcatLength(xss[1..]);
    }
  }

  /** `out = []; for x in xs: out.append(f(x))`: the loop form of `Map`. */
  method MapAppend<A, B>(xs: seq<A>, f: A -> B) returns (ys: seq<B>)
    ensures ys == Map(xs, f)
  {
    ys := [];
    var i := 0;
    while i < |xs|
      invariant 0 <= i <= |xs|
      invariant |ys| == i
      invariant forall k :: 0 <= k < i ==> ys[k] == f(xs[k])
    {
      ys := ys + [f(xs[i])];
      i := i + 1;
    }
  }
}
