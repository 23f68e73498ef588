/** The audio processor: it owns one instance of each effect, the order they
    run in, and the queue new orders arrive on. Per block it clears the output
    channels that have no input, drains the queue, maybe replaces its order,
    resolves the order into effect instances and runs them in slot order. */
module PluginProcessor {
  import opened DspChain
  import opened OrderChannel
  import P = Parameters

  /** One effect instance. Its signal processing is opaque; what the model
      observes is which instance is asked to process a block, and when. */
  class Stage {
    const kind: DspOption

    constructor (kind: DspOption)
      ensures this.kind == kind
    {
      this.kind := kind;
    }
  }

  /** The loop at the head of `processBlock`: every output channel from
      `numInputs` up to (not including) `numOutputs` is zeroed over the whole
      block; every other channel is left as it was. `buffer` is indexed by
      channel, then sample. */
  method ClearUnusedOutputs(buffer: array2<real>, numInputs: nat, numOutputs: nat)
    requires numOutputs <= buffer.Length0
    modifies buffer
    ensures forall ch, s :: 0 <= ch < buffer.Length0 && 0 <= s < buffer.Length1 ==>
      buffer[ch, s] == if numInputs <= ch < numOutputs then 0.0 else old(buffer[ch, s])
  {
    var ch := numInputs;
    while ch < numOutputs
      invariant numInputs <= ch
      invariant ch <= numOutputs || ch == numInputs
      invariant forall c, s :: 0 <= c < buffer.Length0 && 0 <= s < buffer.Length1 ==>
        buffer[c, s] == if numInputs <= c < ch then 0.0 else old(buffer[c, s])
    {
      forall s | 0 <= s < buffer.Length1 {
        buffer[ch, s] := 0.0;
      }
      ch := ch + 1;
    }
  }

  class Processor {
    const phaser: Stage
    const chorus: Stage
    const overdrive: Stage
    const ladderFilter: Stage
    const generalFilter: Stage

    /** The order the effects currently run in. */
    const dspOrder: array<DspOption>

    /** Orders sent by the control side and not yet picked up by a block. */
    const dspOrderFifo: OrderFifo

    /** The float parameter handles, in the order of `P.FloatParamNames`. */
    var floatParams: seq<P.Option<P.ParamDecl>>

    /** The two choice parameter handles (ladder filter mode, general filter
        mode). */
    var choiceParams: seq<P.Option<P.ParamDecl>>

    /** Each owned stage is of its own kind and the order has one slot per
        effect kind. */
    predicate Valid() {
      && phaser.kind == Phase
      && chorus.kind == Chorus
      && overdrive.kind == Overdrive
      && ladderFilter.kind == LadderFilter
      && generalFilter.kind == GeneralFilter
      && dspOrder.Length == NumSlots
    }

    /** The constructor: builds the stages and the queue, starts from
        `initialOrder`, and binds every parameter handle by name; each lookup
        succeeds, so each handle is the declared parameter of that name. */
    constructor (initialOrder: Order)
      ensures Valid() && fresh(dspOrder) && fresh(dspOrderFifo)
      ensures dspOrder[..] == initialOrder && dspOrderFifo.pending == []
      ensures |floatParams| == |P.FloatParamNames|
      ensures forall i :: 0 <= i < |P.FloatParamNames| ==> floatParams[i] == P.Some(P.FloatParam(P.FloatParamNames[i]))
      ensures |choiceParams| == |P.ChoiceParamNames|
      ensures forall i :: 0 <= i < |P.ChoiceParamNames| ==>
        choiceParams[i].Some? && choiceParams[i].value.ChoiceParam? && choiceParams[i].value.id == P.ChoiceParamNames[i]
    {
      phaser := new Stage(Phase);
      chorus := new Stage(Chorus);
      overdrive := new Stage(Overdrive);
      ladderFilter := new Stage(LadderFilter);
      generalFilter := new Stage(GeneralFilter);
      dspOrder := new DspOption[NumSlots](i => if 0 <= i < NumSlots then initialOrder[i] else Phase);
      dspOrderFifo := new OrderFifo();

      var floats, choices := P.BindConstructorParameters();
      floatParams, choiceParams := floats, choices;
    }

    /** The instance the processor owns for an effect kind. */
    function Owned(o: DspOption): (s: Stage)
      requires Valid() && o.IsStage()
      ensures s.kind == o
    {
      match o
      case Phase => phaser
      case Chorus => chorus
      case Overdrive => overdrive
      case LadderFilter => ladderFilter
      case GeneralFilter => generalFilter
    }

    /** Two effect kinds resolve to the same instance exactly when they are
        the same kind. */
    lemma SameKindSameInstance(a: DspOption, b: DspOption)
      requires Valid() && a.IsStage() && b.IsStage()
      ensures Owned(a) == Owned(b) <==> a == b
    {
    }

    /** The owned instances for a run of effect kinds, in the same order. */
    function Instances(kinds: seq<DspOption>): seq<Stage>
      requires Valid()
      requires forall k :: 0 <= k < |kinds| ==> kinds[k].IsStage()
    {
      seq(|kinds|, i requires 0 <= i < |kinds| => Owned(kinds[i]))
    }

    /** First step of a block: pull orders until the queue is empty. The queue
        ends empty and the result is the last order pulled, or `DSP_Order()`
        when nothing was pending. */
    method DrainOrders() returns (newOrder: Order)
      requires Valid()
      modifies dspOrderFifo
      ensures dspOrderFifo.pending == []
      ensures newOrder == LastPulled(old(dspOrderFifo.pending), DefaultOrder)
    {
      newOrder := DefaultOrder;
      var pulled := true;
      while pulled
        invariant LastPulled(dspOrderFifo.pending, newOrder) == LastPulled(old(dspOrderFifo.pending), DefaultOrder)
        invariant !pulled ==> dspOrderFifo.pending == []
        decreases |dspOrderFifo.pending|, pulled
      {
        pulled, newOrder := dspOrderFifo.Pull(newOrder);
      }
    }

    /** Second step: the held order becomes the drained one unless that is
        `DSP_Order()`. */
    method ReplaceOrder(newOrder: Order)
      requires Valid()
      modifies dspOrder
      ensures dspOrder[..] == Replaced(old(dspOrder[..]), newOrder)
    {
      if newOrder != DefaultOrder {
        forall i | 0 <= i < NumSlots {
          dspOrder[i] := newOrder[i];
        }
        assert dspOrder[..] == newOrder;
      }
    }

    /** Third step: a pointer per slot to the owned instance of the slot's
        effect; a sentinel slot is left empty. */
    method ResolvePointers() returns (dspPointers: array<Stage?>)
      requires Valid()
      ensures dspPointers.Length == NumSlots
      ensures forall i :: 0 <= i < NumSlots ==>
        dspPointers[i] == if dspOrder[i].IsStage() then Owned(dspOrder[i]) else null
    {
      dspPointers := new Stage?[NumSlots](_ => null);
      for i := 0 to NumSlots
        invariant forall k :: 0 <= k < i ==>
          dspPointers[k] == if dspOrder[k].IsStage() then Owned(dspOrder[k]) else null
        invariant forall k :: i <= k < NumSlots ==> dspPointers[k] == null
      {
        match dspOrder[i]
        case Phase => dspPointers[i] := phaser;
        case Chorus => dspPointers[i] := chorus;
        case Overdrive => dspPointers[i] := overdrive;
        case LadderFilter => dspPointers[i] := ladderFilter;
        case GeneralFilter => dspPointers[i] := generalFilter;
        case EndOfList =>
      }
    }

    /** Last step: every non-empty slot's instance processes the block, in
        slot order; the result is the sequence of instances invoked, which is
        the owned instance of each effect `Dispatched` lists for the order. */
    method Dispatch(dspPointers: array<Stage?>) returns (invoked: seq<Stage>)
      requires Valid()
      requires dspPointers.Length == NumSlots
      requires forall i :: 0 <= i < NumSlots ==>
        dspPointers[i] == if dspOrder[i].IsStage() then Owned(dspOrder[i]) else null
      ensures invoked == Instances(Dispatched(dspOrder[..]))
    {
      invoked := [];
      for i := 0 to NumSlots
        invariant invoked == Instances(Dispatched(dspOrder[..i]))
      {
        assert dspOrder[..i + 1] == dspOrder[..i] + [dspOrder[i]];
        DispatchedAppend(dspOrder[..i], [dspOrder[i]]);
        if dspPointers[i] != null {
          invoked := invoked + [dspPointers[i]];
        }
      }
      assert dspOrder[..NumSlots] == dspOrder[..];
    }

    /** `processBlock`: clears the output channels without input, picks up the
        last queued order (replacing the held one unless it is `DSP_Order()`),
        and runs the held order's effects in slot order. The queue ends empty. */
    method ProcessBlock(buffer: array2<real>, numInputs: nat, numOutputs: nat) returns (invoked: seq<Stage>)
      requires Valid()
      requires numOutputs <= buffer.Length0
      modifies buffer, dspOrder, dspOrderFifo
      ensures dspOrderFifo.pending == []
      ensures dspOrder[..] == HeldAfterBlock(old(dspOrder[..]), old(dspOrderFifo.pending))
      ensures invoked == Instances(Dispatched(dspOrder[..]))
      ensures WellFormed(dspOrder[..]) ==> invoked == Instances(dspOrder[..])
    {
      ClearUnusedOutputs(buffer, numInputs, numOutputs);
      var newOrder := DrainOrders();
      ReplaceOrder(newOrder);
      var dspPointers := ResolvePointers();
      invoked := Dispatch(dspPointers);
      if WellFormed(dspOrder[..]) {
        DispatchedWellFormed(dspOrder[..]);
      }
    }
  }

  /** A control-side client: reversing the chain takes effect on the next
      block and stays in effect on the block after. */
  method ReorderClient()
  {
    var p := new Processor([Phase, Chorus, Overdrive, LadderFilter, GeneralFilter]);
    var buffer := new real[2, 64];
    var reversed: Order := [GeneralFilter, LadderFilter, Overdrive, Chorus, Phase];
    var before := p.dspOrder[..];
    p.dspOrderFifo.Push(reversed);
    assert p.dspOrderFifo.pending == [reversed];
    var invoked := p.ProcessBlock(buffer, 2, 2);
    ReversedOrderScenario(before);
    assert p.dspOrder[..] == reversed;
    assert invoked == [p.generalFilter, p.ladderFilter, p.overdrive, p.chorus, p.phaser];
    NothingQueuedKeepsOrder(reversed);
    invoked := p.ProcessBlock(buffer, 2, 2);
    assert p.dspOrder[..] == reversed;
    assert invoked == [p.generalFilter, p.ladderFilter, p.overdrive, p.chorus, p.phaser];
  }
}
