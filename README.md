# Reorderable effect chain of the JUCE tutorial plugin, in Dafny

This project models the core of the tutorial audio plugin's processor
(`Source/PluginProcessor.cpp`): a chain of five effects (phaser, chorus,
overdrive, ladder filter, general filter) whose running order can be changed
while audio keeps playing.

Once per audio block, `processBlock` does five things:

- It clears the output channels that have no matching input.
- It pulls every order waiting in `dspOrderFifo` and keeps only the last one.
- It replaces the held `dspOrder` with that order unless it equals the
  value-initialised `DSP_Order()`.
- It resolves each slot of the order to the one effect instance the processor
  owns for that option.
- It asks each resolved instance to process the block, in slot order.

Around this core the project also models two things:

- `isBusesLayoutSupported`: which host bus layouts the processor accepts.
- Parameter binding: the constructor looks up 17 float parameters and 2 choice
  parameters by name. Each lookup succeeds only if `createParameterLayout`
  declares that name with the matching kind.

Files:

- `chain.dfy` (module `DspChain`): the effect options, orders, and the value
  semantics of one block. `LastPulled` is the drain, `Replaced` the replace
  step, `HeldAfterBlock` both together, and `Dispatched` the effects a block
  runs. The lemmas about them are here too.
- `fifo.dfy` (module `OrderChannel`): `OrderFifo`, a sequential queue of
  orders. `Pull` pops the oldest order if there is one. `Push` stands in for
  the FIFO's `push`, declared in the header.
- `processor.dfy` (module `PluginProcessor`): the `Processor` class with its
  five owned `Stage` instances, the `dspOrder` array and the queue. Its
  methods follow the steps of `processBlock` and are proved against the
  functions in `DspChain`. `ClearUnusedOutputs` is the channel-clearing loop.
  `ReorderClient` is a small client: reversing the chain takes effect on the
  next block and still holds on the block after.
- `buses.dfy` (module `BusLayout`): the layout validator.
- `parameters.dfy` (module `Parameters`): parameter names, kinds and choice
  lists. Also `getParameter`, the `dynamic_cast`, and the constructor's
  binding loop.

Two points about the replace step and the queue:

- The replace step compares the pulled order with `DSP_Order()`, the
  value-initialised array, not with the held order. In `DSP_Order()` every
  slot is the first enumerator (`Phase`). So a pulled all-phaser order is
  dropped as if nothing had been pulled (`AllPhaserOrderDropped`). Every
  reordering of the five effects differs from `DSP_Order()`, so such an order
  is always applied (`PermutationAccepted`).
- The queue's capacity and overflow rule are in the header; here the queue is
  unbounded.

## Model

| member | source | states |
|---|---|---|
| `DspChain.LastPulled` | Source/PluginProcessor.cpp:446-449 | The value the drain loop leaves in `newDSPOrder` after pulling the pending orders one by one: always the starting value or one of the pending orders. |
| `DspChain.LastPulledIsLast` | Source/PluginProcessor.cpp:446-449 | Pulling until `pull` fails leaves the last order pulled in `newDSPOrder`, or the starting `DSP_Order()` when nothing was pending. |
| `DspChain.EarlierPullsIgnored` | Source/PluginProcessor.cpp:446-449 | Orders pulled before the last one have no effect on the drained value. |
| `DspChain.Replaced` | Source/PluginProcessor.cpp:452-453 | The held order after the replace step: either the held or the drained order, and never `DSP_Order()` unless the held order already was. |
| `DspChain.ReplacedIff` | Source/PluginProcessor.cpp:452-453 | The held order becomes the drained one exactly when the drained one is not `DSP_Order()` (or both already match). It stays unchanged exactly when the drained one is `DSP_Order()` or equals it. |
| `DspChain.PermutationAccepted` | Source/PluginProcessor.cpp:452-453 | A drained order that contains all five effects always replaces the held order. |
| `DspChain.AllPhaserOrderDropped` | Source/PluginProcessor.cpp:446-453 | A last pushed order equal to `DSP_Order()` (all phaser) leaves the held order unchanged, whatever it was. The comparison is against `DSP_Order()`, not against the held order. |
| `DspChain.HeldAfterBlock` | Source/PluginProcessor.cpp:446-453 | The order held after one block's drain and replace: either the old held order or one of the queued orders, and never `DSP_Order()` unless the old held order already was. |
| `DspChain.LastPushWins` | Source/PluginProcessor.cpp:446-453 | Of several orders queued before a block, only the last is applied (when it is not `DSP_Order()`). |
| `DspChain.NothingQueuedKeepsOrder` | Source/PluginProcessor.cpp:446-453 | A block with nothing queued keeps the held order; there is no reset to a default. |
| `DspChain.WellFormedPreserved` | Source/PluginProcessor.cpp:446-453 | If the held order and all queued orders are free of the sentinel, so is the held order after the block. |
| `DspChain.Dispatched` | Source/PluginProcessor.cpp:485-489 | The effects a block runs never include the sentinel, are no more than the slots, and each comes from the order. |
| `DspChain.DispatchedAppend` | Source/PluginProcessor.cpp:485-489 | Dispatch runs slot by slot: dispatching a concatenation runs the first part, then the second. |
| `DspChain.DispatchedWellFormed` | Source/PluginProcessor.cpp:485-489 | With no sentinel in the order, the effects run are exactly the order's slots in index order, duplicates included. |
| `DspChain.DispatchedCounts` | Source/PluginProcessor.cpp:485-489 | Each effect runs once per slot it fills; the sentinel never runs. |
| `DspChain.SentinelSlotSkipped` | Source/PluginProcessor.cpp:458-489 | A sentinel slot is skipped: the run is the same as if the slot were absent. |
| `DspChain.ReversedOrderScenario` | Source/PluginProcessor.cpp:446-489 | Pushing the reversed order makes the next block run general filter, ladder filter, overdrive, chorus, phaser. The block after, with nothing queued, runs the same order. |
| `OrderChannel.OrderFifo.Pull` | Source/PluginProcessor.cpp:449 | `pull` succeeds exactly when an order is pending. On success it removes the oldest order and writes it to the destination. On failure the queue and the destination are unchanged. |
| `BusLayout.IsBusesLayoutSupported` | Source/PluginProcessor.cpp:220-242 | A MIDI-effect build accepts every layout. Otherwise an accepted layout has a mono or stereo main output, and in an effect build its main input equals its main output. |
| `BusLayout.EffectLayouts` | Source/PluginProcessor.cpp:230-240 | An effect build accepts exactly mono-in/mono-out and stereo-in/stereo-out. |
| `BusLayout.SynthIgnoresInput` | Source/PluginProcessor.cpp:230-240 | A synth build accepts a layout exactly when its main output is mono or stereo, whatever its input. |
| `BusLayout.DeclaredLayout` | Source/PluginProcessor.cpp:58-66 | The buses the constructor declares: only an effect build has an input bus, only a MIDI-effect build has no output bus, and a declared input matches the output (stereo). |
| `BusLayout.DeclaredLayoutSupported` | Source/PluginProcessor.cpp:58-66 | In every build, the buses the constructor declares form an accepted layout. |
| `Parameters.ParameterLayout` | Source/PluginProcessor.cpp:245-413 | `createParameterLayout`: the declared parameters in declaration order, effect by effect, one per handle the constructor binds (17 float, 2 choice). |
| `Parameters.GetParameter` | Source/PluginProcessor.cpp:119 | A lookup by identifier finds a declared parameter with that identifier. It yields nothing only when no declared parameter has it. |
| `Parameters.Cast` | Source/PluginProcessor.cpp:135 | The `dynamic_cast` keeps a found parameter exactly when it has the wanted kind, and yields null otherwise. |
| `Parameters.GetParameterFinds` | Source/PluginProcessor.cpp:119 | With unique identifiers, looking up a declared parameter's identifier finds that very parameter. |
| `Parameters.BindParameters` | Source/PluginProcessor.cpp:117-121 | The binding loop yields one handle per name, in order. A present handle is the declared parameter of that name and kind. With unique identifiers, a handle is present exactly when the layout declares the name with that kind. |
| `Parameters.BindConstructorParameters` | Source/PluginProcessor.cpp:69-137 | Over the declared layout, both binding loops succeed. Each float handle is the float parameter of its name. Each choice handle is a choice parameter of its name. No handle is null. |
| `Parameters.LayoutIdsUnique` | Source/PluginProcessor.cpp:245-410 | No two parameters in the layout share an identifier. |
| `Parameters.ConstructorNamesDeclared` | Source/PluginProcessor.cpp:245-410 | Each of the 17 names the constructor binds as floats is declared as a float parameter. Both mode names are declared as choice parameters. |
| `Parameters.ChoiceDefaultsInRange` | Source/PluginProcessor.cpp:348-386 | Each choice parameter's default index selects one of its choices. |
| `PluginProcessor.ClearUnusedOutputs` | Source/PluginProcessor.cpp:427-428 | Every output channel in [numInputs, numOutputs) is zeroed for all samples. Every other channel is unchanged. |
| `PluginProcessor.Processor.constructor` | Source/PluginProcessor.cpp:57-138 | The constructor owns one stage per kind and starts with an empty queue. Every float handle is the float parameter of its name and every choice handle a choice parameter of its name, so each `jassert` on a handle holds. |
| `PluginProcessor.Processor.Owned` | Source/PluginProcessor.cpp:456-474 | Each real option resolves to the owned instance of that kind. |
| `PluginProcessor.Processor.SameKindSameInstance` | Source/PluginProcessor.cpp:456-474 | Two options resolve to the same instance exactly when they are the same option. |
| `PluginProcessor.Processor.DrainOrders` | Source/PluginProcessor.cpp:446-449 | The drain loop empties the queue and returns `LastPulled` of the pending orders, starting from `DSP_Order()`. |
| `PluginProcessor.Processor.ReplaceOrder` | Source/PluginProcessor.cpp:452-453 | `dspOrder` becomes `Replaced(old dspOrder, newDSPOrder)`. |
| `PluginProcessor.Processor.ResolvePointers` | Source/PluginProcessor.cpp:455-479 | Slot i points to the owned instance for `dspOrder[i]`, or is empty when the slot holds the sentinel. |
| `PluginProcessor.Processor.Dispatch` | Source/PluginProcessor.cpp:485-489 | The instances invoked are the owned instances of `Dispatched(dspOrder)`, in slot order. |
| `PluginProcessor.Processor.ProcessBlock` | Source/PluginProcessor.cpp:415-490 | After a block the queue is empty and `dspOrder` is `HeldAfterBlock(old order, old queue)`. The invoked instances follow `Dispatched` of the new order. With no sentinel, every slot's instance runs once, in slot order. |

## Left out

- `PluginProcessor.Processor.ProcessBlock`: its contract says nothing about the samples after the stages run. Each stage's processing is opaque. Only the channel clearing (`ClearUnusedOutputs`) is stated about the buffer.
- The effects' signal processing (phaser, chorus, ladder filter, IIR filter) is left out. These are library processors working on floating-point audio. Samples are `real`, and a stage is only an identity that gets invoked.
- The lock-free ring behind `dspOrderFifo`, its capacity and its overflow rule are left out. They are in the processor's header, which is not part of this model. The queue is sequential and unbounded.
- `dspPointers` (Source/PluginProcessor.cpp:456) is declared without an initialiser, and its type `DSP_Pointers` is in the header, which is not part of this model. The model assumes that type null-initialises every slot, so `ResolvePointers` starts from all-empty slots.
- `DSP_Order()` is taken as value-initialisation: every slot is the first enumerator, `Phase`. The enumeration is declared in the header.
- The initial value of `dspOrder` is in the header, so the constructor takes it as a parameter.
- `jassertfalse` on a sentinel slot is a debug-only assertion. The model chooses to treat a sentinel slot as empty, so it is skipped. If `DSP_Pointers` is a plain `std::array` of raw pointers, the source leaves that slot indeterminate, and comparing it with `nullptr` and calling `process` through it at lines 486-487 is undefined behaviour, which the model does not capture.
- Float parameter ranges, steps, defaults, unit suffixes and the version hint are left out. They are floating-point data handed to library constructors. Only names, kinds and choice lists are modelled.
- The parameter member fields are modelled as two sequences of handles, in the constructor's order, rather than 19 named pointers.
- `ScopedNoDenormals`, the `AudioBlock`/`ProcessContextReplacing` wrappers and the unused MIDI buffer are left out. They set up the floating-point environment or wrap library types.
- The host asks for channel counts with `getTotalNumInputChannels` and `getTotalNumOutputChannels`. Here they are parameters of `ProcessBlock`.
- The host-metadata getters, program management, `prepareToPlay`, `releaseResources`, state save and load, the editor and `createPluginFilter` are left out. They are constant stubs or UI and factory glue.
- Builds that define `JucePlugin_PreferredChannelConfigurations` are left out. They compile out `isBusesLayoutSupported`.
