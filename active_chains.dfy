/** The active-chain mask of a solver handle and the slot numbering it
    induces on the flat goal buffers.

    A robot has one kinematic chain per end effector; the boolean mask says
    which chains take goals. The flat buffers passed in by a caller hold one
    slot per ACTIVE chain, in chain order: chain i, when active, reads slot
    j = the number of active chains before i. */
module ActiveChains {

  /** The number of active chains, `A` (the `map`/`sum` over the mask). */
  function CountActive(mask: seq<bool>): (a: nat)
    ensures a <= |mask|
  {
    if |mask| == 0 then 0
    else CountActive(mask[..|mask| - 1]) + (if mask[|mask| - 1] then 1 else 0)
  }

  lemma {:induction false} CountActiveStep(mask: seq<bool>, i: nat)
    requires i < |mask|
    ensures CountActive(mask[..i + 1]) == CountActive(mask[..i]) + (if mask[i] then 1 else 0)
  {
    assert mask[..i + 1][..i] == mask[..i];
  }

  lemma {:induction false} CountActiveWhole(mask: seq<bool>)
    ensures CountActive(mask[..|mask|]) == CountActive(mask)
  {
    assert mask[..|mask|] == mask;
  }

  /** A longer prefix of the mask never holds fewer active chains. */
  lemma {:induction false} CountActiveMonotone(mask: seq<bool>, i: nat, k: nat)
    requires i <= k <= |mask|
    ensures CountActive(mask[..i]) <= CountActive(mask[..k])
    decreases k - i
  {
    if i < k {
      CountActiveStep(mask, k - 1);
      CountActiveMonotone(mask, i, k - 1);
    }
  }

  /** The slot read by chain i: the number of active chains with index below
      i. The slot of an active chain lies inside the A slots of a buffer. */
  function SlotOf(mask: seq<bool>, i: nat): (j: nat)
    requires i <= |mask|
    ensures j <= i && j <= CountActive(mask)
    ensures i < |mask| && mask[i] ==> j < CountActive(mask)
  {
    CountActiveWhole(mask);
    CountActiveMonotone(mask, i, |mask|);
    if i < |mask| then
      CountActiveStep(mask, i);
      CountActiveMonotone(mask, i + 1, |mask|);
      CountActive(mask[..i])
    else
      CountActive(mask[..i])
  }

  /** Walking the chains, the slot counter advances exactly on active chains. */
  lemma {:induction false} SlotStep(mask: seq<bool>, i: nat)
    requires i < |mask|
    ensures SlotOf(mask, i + 1) == SlotOf(mask, i) + (if mask[i] then 1 else 0)
  {
    CountActiveStep(mask, i);
  }

  /** The counter ends at A. */
  lemma {:induction false} SlotAtEnd(mask: seq<bool>)
    ensures SlotOf(mask, |mask|) == CountActive(mask)
  {
    CountActiveWhole(mask);
  }

  /** An active chain's slot is below the slot of every later chain, so
      distinct active chains read distinct slots. */
  lemma {:induction false} SlotsIncrease(mask: seq<bool>, i1: nat, i2: nat)
    requires i1 < i2 <= |mask| && mask[i1]
    ensures SlotOf(mask, i1) < SlotOf(mask, i2)
  {
    CountActiveStep(mask, i1);
    CountActiveMonotone(mask, i1 + 1, i2);
  }

  lemma {:induction false} SlotHasChainBelow(mask: seq<bool>, n: nat, j: nat)
    requires n <= |mask| && j < SlotOf(mask, n)
    ensures exists i :: 0 <= i < n && mask[i] && SlotOf(mask, i) == j
  {
    if n == 0 {
      assert false;
    } else {
      SlotStep(mask, n - 1);
      if j < SlotOf(mask, n - 1) {
        SlotHasChainBelow(mask, n - 1, j);
      } else {
        assert mask[n - 1] && SlotOf(mask, n - 1) == j;
      }
    }
  }

  /** Every slot of a buffer is read by some active chain. */
  lemma {:induction false} EverySlotHasChain(mask: seq<bool>, j: nat)
    requires j < CountActive(mask)
    ensures exists i :: 0 <= i < |mask| && mask[i] && SlotOf(mask, i) == j
  {
    SlotAtEnd(mask);
    SlotHasChainBelow(mask, |mask|, j);
  }

  /** When every chain is active, chain i reads slot i. */
  lemma {:induction false} AllActiveSlot(mask: seq<bool>, i: nat)
    requires forall k :: 0 <= k < |mask| ==> mask[k]
    requires i <= |mask|
    ensures SlotOf(mask, i) == i
  {
    if i > 0 {
      SlotStep(mask, i - 1);
      AllActiveSlot(mask, i - 1);
    }
  }

  /** The entries of `xs` at the active chains, in chain order. */
  function Gather<T>(mask: seq<bool>, xs: seq<T>): (r: seq<T>)
    requires |xs| == |mask|
    ensures |r| == CountActive(mask)
  {
    if |mask| == 0 then []
    else
      var n := |mask| - 1;
      Gather(mask[..n], xs[..n]) + (if mask[n] then [xs[n]] else [])
  }

  /** Gathering puts active chain i at its slot. */
  lemma {:induction false} GatherAt<T>(mask: seq<bool>, xs: seq<T>, i: nat)
    requires |xs| == |mask| && i < |mask| && mask[i]
    ensures Gather(mask, xs)[SlotOf(mask, i)] == xs[i]
  {
    var n := |mask| - 1;
    assert mask[..n][..i] == mask[..i];
    if i < n {
      GatherAt(mask[..n], xs[..n], i);
    }
  }
}
