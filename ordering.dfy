/**
 The three-way comparison result that a derived total order produces, and the
 comparison of natural numbers that every enum order here is built on: an enum
 compares as the positions of its variants in declaration order.
 */
module Ordering {

  datatype Ordering = Less | Equal | Greater {

    /** The result of comparing the same two values the other way round. */
    function Reverse(): (r: Ordering)
      ensures r.Less? <==> this.Greater?
      ensures r.Greater? <==> this.Less?
      ensures r.Equal? <==> this.Equal?
    {
      match this
      case Less => Greater
      case Equal => Equal
      case Greater => Less
    }
  }

  /** Three-way comparison of two positions. */
  function CompareNat(a: nat, b: nat): (r: Ordering)
    ensures r == Less <==> a < b
    ensures r == Equal <==> a == b
    ensures r == Greater <==> a > b
  {
    if a < b then Less else if a == b then Equal else Greater
  }

  /** `cmp` describes a strict total order on all values of `T`: comparing a
      value with itself gives Equal and nothing else does, swapping the
      arguments reverses the result, and Less is transitive. */
  ghost predicate IsTotalOrder<T(!new)>(cmp: (T, T) -> Ordering)
  {
    && (forall x, y :: cmp(x, y) == Equal <==> x == y)
    && (forall x, y :: cmp(y, x) == cmp(x, y).Reverse())
    && (forall x, y, z :: cmp(x, y) == Less && cmp(y, z) == Less ==> cmp(x, z) == Less)
  }
}
