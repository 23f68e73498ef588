/** The effect chain's order: which effect runs in which slot, how one block
    picks up the orders queued by the control side, and which effects a block
    then runs. Everything here is a value; the processor that holds the state
    lives in processor.dfy and is proved against these definitions. */
module DspChain {

  /** DSP_Option: one tag per effect kind, then the END_OF_LIST sentinel whose
      ordinal sizes the order arrays. */
  datatype DspOption = Phase | Chorus | Overdrive | LadderFilter | GeneralFilter | EndOfList
  {
    /** True for the five tags that name an effect, false for the sentinel. */
    predicate IsStage() { !EndOfList? }
  }

  /** Number of slots in an order: the ordinal of END_OF_LIST. */
  const NumSlots: nat := 5

  /** DSP_Order: one option per slot, fixed length. */
  type Order = s: seq<DspOption> | |s| == NumSlots witness [Phase, Phase, Phase, Phase, Phase]

  /** `DSP_Order()`, the value-initialised array: every slot holds the first
      enumerator. The block uses it both as the starting value of the pulled
      order and as the "nothing was pulled" marker. */
  const DefaultOrder: Order := [Phase, Phase, Phase, Phase, Phase]

  /** An order the control side can build by reordering the five effects:
      every effect appears (so, with five slots, each exactly once). */
  predicate IsPermutation(o: Order) {
    forall x: DspOption :: x.IsStage() ==> x in o
  }

  /** An order whose every slot names an effect (no sentinel). */
  predicate WellFormed(o: seq<DspOption>) {
    forall i :: 0 <= i < |o| ==> o[i].IsStage()
  }

  // ---------------------------------------------------------------------------
  // Drain: `while (dspOrderFifo.pull(newDSPOrder)) {}`

  /** The value left in the destination after pulling every pending order
      one at a time, starting from `current`: each successful pull overwrites
      the destination. */
  function LastPulled(pending: seq<Order>, current: Order): (r: Order)
    ensures r == current || r in pending
    decreases |pending|
  {
    if pending == [] then current else LastPulled(pending[1..], pending[0])
  }

  /** Draining keeps only the last order pulled, or the starting value when
      nothing was pending. */
  lemma {:induction false} LastPulledIsLast(pending: seq<Order>, current: Order)
    ensures LastPulled(pending, current) == if pending == [] then current else pending[|pending| - 1]
  {
    if pending != [] {
      LastPulledIsLast(pending[1..], pending[0]);
    }
  }

  /** Orders pulled before the last one have no effect on the result. */
  lemma EarlierPullsIgnored(earlier: seq<Order>, later: seq<Order>, current: Order, other: Order)
    requires later != []
    ensures LastPulled(earlier + later, current) == LastPulled(later, other)
  {
    LastPulledIsLast(earlier + later, current);
    LastPulledIsLast(later, other);
  }

  // ---------------------------------------------------------------------------
  // Replace: `if (newDSPOrder != DSP_Order()) dspOrder = newDSPOrder;`

  /** The held order after the replace step: the drained order when it
      differs element-wise from `DSP_Order()`, the held order otherwise. */
  function Replaced(held: Order, drained: Order): (r: Order)
    ensures r == held || r == drained
    ensures r == DefaultOrder ==> held == DefaultOrder
  {
    if drained != DefaultOrder then drained else held
  }

  /** A block moves the held order to the drained one exactly when the drained
      order is not `DSP_Order()` (or already equal to the held one). */
  lemma ReplacedIff(held: Order, drained: Order)
    ensures Replaced(held, drained) == drained <==> drained != DefaultOrder || held == DefaultOrder
    ensures Replaced(held, drained) == held <==> drained == DefaultOrder || held == drained
  {
  }

  /** Every reordering of the five effects differs from `DSP_Order()`, so a
      pulled permutation always replaces the held order. */
  lemma PermutationAccepted(held: Order, drained: Order)
    requires IsPermutation(drained)
    ensures Replaced(held, drained) == drained
  {
    assert Chorus.IsStage();
    assert Chorus in drained && Chorus !in DefaultOrder;
  }

  /** The comparison is against `DSP_Order()`, not against the held order: a
      pulled all-phaser order is indistinguishable from "nothing pulled" and
      is dropped, whatever the held order is. */
  lemma AllPhaserOrderDropped(held: Order, earlier: seq<Order>)
    ensures HeldAfterBlock(held, earlier + [DefaultOrder]) == held
  {
    LastPulledIsLast(earlier + [DefaultOrder], DefaultOrder);
  }

  // ---------------------------------------------------------------------------
  // One block: drain, then replace.

  /** The order `dspOrder` holds after one block, given the order it held and
      the orders pending in the queue when the block started. */
  function HeldAfterBlock(held: Order, pending: seq<Order>): (r: Order)
    ensures r == held || r in pending
    ensures r == DefaultOrder ==> held == DefaultOrder
  {
    Replaced(held, LastPulled(pending, DefaultOrder))
  }

  /** Last writer wins: of several orders pushed before a block, only the last
      one is applied (when it is not `DSP_Order()`). */
  lemma {:induction false} LastPushWins(held: Order, earlier: seq<Order>, last: Order)
    requires last != DefaultOrder
    ensures HeldAfterBlock(held, earlier + [last]) == last
  {
    LastPulledIsLast(earlier + [last], DefaultOrder);
  }

  /** A block with nothing queued keeps the held order: no reset to the
      default between blocks. */
  lemma NothingQueuedKeepsOrder(held: Order)
    ensures HeldAfterBlock(held, []) == held
  {
  }

  /** If the held order and every queued order name only effects, so does the
      held order after the block. */
  lemma {:induction false} WellFormedPreserved(held: Order, pending: seq<Order>)
    requires WellFormed(held)
    requires forall k :: 0 <= k < |pending| ==> WellFormed(pending[k])
    ensures WellFormed(HeldAfterBlock(held, pending))
  {
    LastPulledIsLast(pending, DefaultOrder);
  }

  // ---------------------------------------------------------------------------
  // Dispatch: run `process` on every non-empty slot, in slot order.

  /** The effects a block runs, in order, for a held order: every slot in
      index order, the sentinel's (empty) slots skipped. */
  function Dispatched(order: seq<DspOption>): (r: seq<DspOption>)
    ensures |r| <= |order|
    ensures forall k :: 0 <= k < |r| ==> r[k].IsStage()
    ensures forall x :: x in r ==> x in order
  {
    if order == [] then []
    else if order[0].IsStage() then [order[0]] + Dispatched(order[1..])
    else Dispatched(order[1..])
  }

  /** Dispatching a concatenation dispatches each part in turn. */
  lemma {:induction false} DispatchedAppend(a: seq<DspOption>, b: seq<DspOption>)
    ensures Dispatched(a + b) == Dispatched(a) + Dispatched(b)
  {
    if a != [] {
      assert (a + b)[0] == a[0];
      assert (a + b)[1..] == a[1..] + b;
      DispatchedAppend(a[1..], b);
      if a[0].IsStage() {
        assert [a[0]] + Dispatched(a[1..]) + Dispatched(b) == [a[0]] + (Dispatched(a[1..]) + Dispatched(b));
      }
    } else {
      assert a + b == b;
    }
  }

  /** With no sentinel in the order, every slot is processed once, in slot
      order; an effect that fills two slots is processed twice. */
  lemma {:induction false} DispatchedWellFormed(order: seq<DspOption>)
    requires WellFormed(order)
    ensures Dispatched(order) == order
  {
    if order != [] {
      DispatchedWellFormed(order[1..]);
    }
  }

  /** Each effect is processed as many times as it occupies a slot; the
      sentinel is never processed. */
  lemma {:induction false} DispatchedCounts(order: seq<DspOption>, x: DspOption)
    ensures multiset(Dispatched(order))[x] == if x.IsStage() then multiset(order)[x] else 0
  {
    if order != [] {
      DispatchedCounts(order[1..], x);
      assert order == [order[0]] + order[1..];
    }
  }

  /** Only the position of the sentinel-free slots matters: dispatching skips
      a sentinel slot exactly as if it were not there. */
  lemma SentinelSlotSkipped(before: seq<DspOption>, after: seq<DspOption>)
    ensures Dispatched(before + [EndOfList] + after) == Dispatched(before + after)
  {
    DispatchedAppend(before + [EndOfList], after);
    DispatchedAppend(before, [EndOfList]);
    DispatchedAppend(before, after);
  }

  /** Reversing the default effect order and rendering a block processes the
      effects from the general filter back to the phaser; a second block with
      nothing queued renders the same way. */
  lemma ReversedOrderScenario(held: Order)
    ensures var reversed: Order := [GeneralFilter, LadderFilter, Overdrive, Chorus, Phase];
      var first := HeldAfterBlock(held, [reversed]);
      && first == reversed
      && Dispatched(first) == [GeneralFilter, LadderFilter, Overdrive, Chorus, Phase]
      && HeldAfterBlock(first, []) == reversed
  {
    var reversed: Order := [GeneralFilter, LadderFilter, Overdrive, Chorus, Phase];
    LastPushWins(held, [], reversed);
    assert [] + [reversed] == [reversed];
    DispatchedWellFormed(reversed);
  }
}
