/** Lists of positions into a sequence, used to state order-preserving selection. */
module Positions {

  /** Every position moved one place to the right. */
  function Shift(idx: seq<nat>): (r: seq<nat>)
    ensures |r| == |idx|
    ensures forall i :: 0 <= i < |r| ==> r[i] == idx[i] + 1
  {
    seq(|idx|, i requires 0 <= i < |idx| => idx[i] + 1)
  }

  lemma ShiftMembership(idx: seq<nat>, n: nat)
    ensures 0 !in Shift(idx)
    ensures forall k :: 1 <= k < n ==> (k in Shift(idx) <==> k - 1 in idx)
  {
  }

  /** Positions in strictly increasing order. */
  predicate Increasing(idx: seq<nat>) {
    forall i, j :: 0 <= i < j < |idx| ==> idx[i] < idx[j]
  }

  /**
   * Extending the positions `idx` selected from a tail to the whole sequence:
   * shift them right, and put position 0 in front when the head is selected.
   */
  function Extend(keepHead: bool, idx: seq<nat>): (r: seq<nat>)
    ensures |r| == |idx| + (if keepHead then 1 else 0)
    ensures keepHead ==> r[0] == 0
  {
    if keepHead then [0] + Shift(idx) else Shift(idx)
  }

  /** How many positions the head contributes. */
  function Skip(keepHead: bool): nat {
    if keepHead then 1 else 0
  }

  /** Extending keeps positions increasing, and position 0 is selected only with the head. */
  lemma ExtendProperties(keepHead: bool, idx: seq<nat>, n: nat)
    requires Increasing(idx)
    ensures Increasing(Extend(keepHead, idx))
    ensures 0 in Extend(keepHead, idx) <==> keepHead
    ensures forall k :: 1 <= k < n ==> (k in Extend(keepHead, idx) <==> k - 1 in idx)
    ensures forall i :: 0 <= i < |idx| ==> Extend(keepHead, idx)[Skip(keepHead) + i] == idx[i] + 1
  {
  }
}
