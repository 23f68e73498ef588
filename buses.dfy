/** Which input/output bus layouts the processor accepts from the host
    (`isBusesLayoutSupported`). */
module BusLayout {

  /** A bus's channel set: no bus at all, mono, stereo, or one of the many
      other sets the host may offer (surround, discrete channels, ...), two of
      which are equal only when their codes are. */
  datatype ChannelSet = Disabled | Mono | Stereo | Other(code: nat)

  /** The main input and main output channel sets the host proposes. */
  datatype BusesLayout = BusesLayout(mainInput: ChannelSet, mainOutput: ChannelSet)

  /** The build flavour, fixed at compile time: an audio effect (the default
      build), a synthesiser (no input bus) or a MIDI effect (no audio buses). */
  datatype Build = Effect | Synth | MidiEffect

  /** `isBusesLayoutSupported`: a MIDI effect accepts any layout; otherwise
      the main output must be mono or stereo, and an effect's main input must
      match its main output. */
  function IsBusesLayoutSupported(build: Build, layout: BusesLayout): (ok: bool)
    ensures build == MidiEffect ==> ok
    ensures ok && build != MidiEffect ==> layout.mainOutput in {Mono, Stereo}
    ensures ok && build == Effect ==> layout.mainInput == layout.mainOutput
  {
    if build == MidiEffect then true
    else if layout.mainOutput != Mono && layout.mainOutput != Stereo then false
    else if build != Synth && layout.mainOutput != layout.mainInput then false
    else true
  }

  /** An effect build accepts exactly two layouts: mono in and out, and
      stereo in and out. */
  lemma EffectLayouts(layout: BusesLayout)
    ensures IsBusesLayoutSupported(Effect, layout) <==>
      layout == BusesLayout(Mono, Mono) || layout == BusesLayout(Stereo, Stereo)
  {
  }

  /** A synthesiser build ignores its input bus: it accepts a layout exactly
      when the main output is mono or stereo. */
  lemma SynthIgnoresInput(layout: BusesLayout)
    ensures IsBusesLayoutSupported(Synth, layout) <==> layout.mainOutput == Mono || layout.mainOutput == Stereo
  {
  }

  /** The buses the constructor declares: stereo in and stereo out for an
      effect, stereo out only for a synthesiser, none for a MIDI effect. */
  function DeclaredLayout(build: Build): (r: BusesLayout)
    ensures r.mainInput != Disabled <==> build == Effect
    ensures r.mainOutput != Disabled <==> build != MidiEffect
    ensures r.mainInput != Disabled ==> r.mainInput == r.mainOutput
  {
    match build
    case Effect => BusesLayout(Stereo, Stereo)
    case Synth => BusesLayout(Disabled, Stereo)
    case MidiEffect => BusesLayout(Disabled, Disabled)
  }

  /** Whatever the build, the processor accepts the layout its own
      constructor declares. */
  lemma DeclaredLayoutSupported(build: Build)
    ensures IsBusesLayoutSupported(build, DeclaredLayout(build))
  {
  }
}
