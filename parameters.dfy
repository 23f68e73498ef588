/** The plugin's parameters: the names `createParameterLayout` declares, with
    their kind, and the processor constructor's loops that look each name up
    again and keep a typed handle to it. Ranges, steps and defaults of the
    float parameters are not modelled; only names, kinds and choice lists. */
module Parameters {

  datatype Option<T> = None | Some(value: T)

  /** The two kinds of parameter the layout declares. */
  datatype ParamKind = FloatKind | ChoiceKind

  /** One declared parameter: its identifier, and for a choice parameter its
      list of choices and the index of its default choice. */
  datatype ParamDecl =
    | FloatParam(id: string)
    | ChoiceParam(id: string, choices: seq<string>, defaultIndex: nat)
  {
    function Kind(): ParamKind {
      if FloatParam? then FloatKind else ChoiceKind
    }
  }

  const PhaserRateName := "Phaser RateHz"
  const PhaserCenterFreqName := "Phaser Center FreqHz"
  const PhaserDepthName := "Phaser Depth %"
  const PhaserFeedbackName := "Phaser Feedback %"
  const PhaserMixName := "Phaser Mix %"

  const ChorusRateName := "Chorus RateHz"
  const ChorusDepthName := "Chorus Depth %"
  const ChorusCenterDelayName := "Chorus Center Delay Ms"
  const ChorusFeedbackName := "Chorus Feedback %"
  const ChorusMixName := "Chorus Mix %"

  const OverdriveSaturationName := "Overdrive Saturation"

  const LadderFilterModeName := "Ladder Filter Mode"
  const LadderFilterCutoffName := "Ladder Filter Cutoff Hz"
  const LadderFilterResonanceName := "Ladder Filter Resonance"
  const LadderFilterDriveName := "Ladder Filter Drive"

  const GeneralFilterModeName := "General Filter Mode"
  const GeneralFilterFreqName := "General Filter Freq Hz"
  const GeneralFilterQualityName := "General Filter Quality"
  const GeneralFilterGainName := "General Filter Gain"

  /** Ladder filter responses: low-, high- and band-pass at 12 and 24 dB per octave. */
  const LadderFilterChoices: seq<string> := ["LPF12", "HPF12", "BPF12", "LPF24", "HPF24", "BPF24"]

  const GeneralFilterChoices: seq<string> := ["Peak", "Bandpass", "Notch", "Allpass"]

  /** The names the constructor binds to float handles, in its order. */
  const FloatParamNames: seq<string> :=
    [PhaserRateName, PhaserCenterFreqName, PhaserDepthName, PhaserFeedbackName, PhaserMixName]
    + [ChorusRateName, ChorusDepthName, ChorusCenterDelayName, ChorusFeedbackName, ChorusMixName]
    + [OverdriveSaturationName]
    + [LadderFilterCutoffName, LadderFilterResonanceName, LadderFilterDriveName]
    + [GeneralFilterFreqName, GeneralFilterQualityName, GeneralFilterGainName]

  /** The names the constructor binds to choice handles, in its order. */
  const ChoiceParamNames: seq<string> := [LadderFilterModeName, GeneralFilterModeName]

  /** `createParameterLayout`: the parameters in declaration order, effect by
      effect. Both choice parameters start on their first choice. */
  function ParameterLayout(): (r: seq<ParamDecl>)
    ensures |r| == |FloatParamNames| + |ChoiceParamNames|
  {
    PhaserParams() + ChorusParams() + OverdriveParams() + LadderFilterParams() + GeneralFilterParams()
  }

  function PhaserParams(): seq<ParamDecl> {
    [
      FloatParam(PhaserRateName),
      FloatParam(PhaserDepthName),
      FloatParam(PhaserCenterFreqName),
      FloatParam(PhaserFeedbackName),
      FloatParam(PhaserMixName)
    ]
  }

  function ChorusParams(): seq<ParamDecl> {
    [
      FloatParam(ChorusRateName),
      FloatParam(ChorusDepthName),
      FloatParam(ChorusCenterDelayName),
      FloatParam(ChorusFeedbackName),
      FloatParam(ChorusMixName)
    ]
  }

  function OverdriveParams(): seq<ParamDecl> {
    [FloatParam(OverdriveSaturationName)]
  }

  function LadderFilterParams(): seq<ParamDecl> {
    [
      ChoiceParam(LadderFilterModeName, LadderFilterChoices, 0),
      FloatParam(LadderFilterCutoffName),
      FloatParam(LadderFilterResonanceName),
      FloatParam(LadderFilterDriveName)
    ]
  }

  function GeneralFilterParams(): seq<ParamDecl> {
    [
      ChoiceParam(GeneralFilterModeName, GeneralFilterChoices, 0),
      FloatParam(GeneralFilterFreqName),
      FloatParam(GeneralFilterQualityName),
      FloatParam(GeneralFilterGainName)
    ]
  }

  /** No two declared parameters share an identifier. */
  predicate UniqueIds(layout: seq<ParamDecl>) {
    forall i, j :: 0 <= i < j < |layout| ==> layout[i].id != layout[j].id
  }

  /** `apvts.getParameter(id)`: the declared parameter with that identifier,
      or nothing (a null pointer) when none is declared. */
  function GetParameter(layout: seq<ParamDecl>, id: string): (r: Option<ParamDecl>)
    ensures r.Some? ==> r.value in layout && r.value.id == id
    ensures r.None? ==> forall k :: 0 <= k < |layout| ==> layout[k].id != id
  {
    if layout == [] then None
    else if layout[0].id == id then Some(layout[0])
    else GetParameter(layout[1..], id)
  }

  /** `dynamic_cast` to the handle type of `kind`: the parameter itself when it
      is of that kind, a null pointer otherwise. */
  function Cast(p: Option<ParamDecl>, kind: ParamKind): (r: Option<ParamDecl>)
    ensures r.Some? <==> p.Some? && p.value.Kind() == kind
    ensures r.Some? ==> r == p
  {
    if p.Some? && p.value.Kind() == kind then p else None
  }

  /** When identifiers are unique, looking up a declared parameter's
      identifier finds that very parameter. */
  lemma {:induction false} GetParameterFinds(layout: seq<ParamDecl>, k: nat)
    requires UniqueIds(layout)
    requires k < |layout|
    ensures GetParameter(layout, layout[k].id) == Some(layout[k])
  {
    if k > 0 {
      assert layout[0].id != layout[k].id;
      var rest := layout[1..];
      assert UniqueIds(rest) by {
        forall i, j | 0 <= i < j < |rest| ensures rest[i].id != rest[j].id {
          assert rest[i] == layout[i + 1] && rest[j] == layout[j + 1];
        }
      }
      GetParameterFinds(rest, k - 1);
    }
  }

  /** The layout declares a parameter with this identifier and this kind. */
  predicate Declares(layout: seq<ParamDecl>, id: string, kind: ParamKind) {
    exists k :: 0 <= k < |layout| && layout[k].id == id && layout[k].Kind() == kind
  }

  /** The loop `for each name: handle = dynamic_cast<Kind*>(getParameter(name))`
      of the constructor, for one kind: a handle per name, in the same order.
      A handle, when present, is the declared parameter of that name and kind;
      with unique identifiers it is present exactly when the layout declares
      the name with that kind. */
  method BindParameters(layout: seq<ParamDecl>, names: seq<string>, kind: ParamKind)
    returns (bound: seq<Option<ParamDecl>>)
    ensures |bound| == |names|
    ensures forall i :: 0 <= i < |names| && bound[i].Some? ==>
      bound[i].value in layout && bound[i].value.id == names[i] && bound[i].value.Kind() == kind
    ensures UniqueIds(layout) ==>
      forall i :: 0 <= i < |names| ==> (bound[i].Some? <==> Declares(layout, names[i], kind))
  {
    bound := [];
    for i := 0 to |names|
      invariant |bound| == i
      invariant forall m :: 0 <= m < i ==> bound[m] == Cast(GetParameter(layout, names[m]), kind)
    {
      bound := bound + [Cast(GetParameter(layout, names[i]), kind)];
    }
    if UniqueIds(layout) {
      forall i | 0 <= i < |names| && Declares(layout, names[i], kind)
        ensures bound[i].Some?
      {
        var k :| 0 <= k < |layout| && layout[k].id == names[i] && layout[k].Kind() == kind;
        GetParameterFinds(layout, k);
      }
    }
  }

  /** Every identifier in `layout` starts with one of the characters `cs`. */
  predicate IdsStartIn(layout: seq<ParamDecl>, cs: set<char>) {
    forall k :: 0 <= k < |layout| ==> |layout[k].id| > 0 && layout[k].id[0] in cs
  }

  /** Two lists with unique identifiers whose identifiers start with
      different characters join into one list with unique identifiers. */
  lemma UniqueIdsAppend(a: seq<ParamDecl>, b: seq<ParamDecl>, ca: set<char>, cb: set<char>)
    requires UniqueIds(a) && UniqueIds(b)
    requires IdsStartIn(a, ca) && IdsStartIn(b, cb) && ca !! cb
    ensures UniqueIds(a + b) && IdsStartIn(a + b, ca + cb)
  {
    var ab := a + b;
    forall i, j | 0 <= i < j < |ab| ensures ab[i].id != ab[j].id {
      if j < |a| {
        assert ab[i] == a[i] && ab[j] == a[j];
      } else if i < |a| {
        assert ab[i] == a[i] && ab[j] == b[j - |a|];
        assert ab[i].id[0] in ca && ab[j].id[0] in cb;
      } else {
        assert ab[i] == b[i - |a|] && ab[j] == b[j - |a|];
      }
    }
  }

  /** The layout declares every identifier once: within an effect the names
      differ, and the names of different effects start with different
      letters. */
  lemma LayoutIdsUnique()
    ensures UniqueIds(ParameterLayout())
  {
    PhaserIdsUnique();
    ChorusIdsUnique();
    OverdriveIdsUnique();
    LadderFilterIdsUnique();
    GeneralFilterIdsUnique();
    UniqueIdsAppend(PhaserParams(), ChorusParams(), {'P'}, {'C'});
    UniqueIdsAppend(PhaserParams() + ChorusParams(), OverdriveParams(), {'P', 'C'}, {'O'});
    UniqueIdsAppend(PhaserParams() + ChorusParams() + OverdriveParams(), LadderFilterParams(), {'P', 'C', 'O'}, {'L'});
    UniqueIdsAppend(PhaserParams() + ChorusParams() + OverdriveParams() + LadderFilterParams(), GeneralFilterParams(),
                    {'P', 'C', 'O', 'L'}, {'G'});
  }

  /** Within each effect the parameter names differ, and each effect's names
      start with their own letter. */
  lemma PhaserIdsUnique()
    ensures UniqueIds(PhaserParams()) && IdsStartIn(PhaserParams(), {'P'})
  {
  }

  lemma ChorusIdsUnique()
    ensures UniqueIds(ChorusParams()) && IdsStartIn(ChorusParams(), {'C'})
  {
  }

  lemma OverdriveIdsUnique()
    ensures UniqueIds(OverdriveParams()) && IdsStartIn(OverdriveParams(), {'O'})
  {
  }

  lemma LadderFilterIdsUnique()
    ensures UniqueIds(LadderFilterParams()) && IdsStartIn(LadderFilterParams(), {'L'})
  {
  }

  lemma GeneralFilterIdsUnique()
    ensures UniqueIds(GeneralFilterParams()) && IdsStartIn(GeneralFilterParams(), {'G'})
  {
  }

  /** Every name the constructor binds to a float handle is declared as a
      float parameter, and both mode names are declared as choice
      parameters. */
  lemma ConstructorNamesDeclared()
    ensures forall n :: n in FloatParamNames ==> Declares(ParameterLayout(), n, FloatKind)
    ensures forall n :: n in ChoiceParamNames ==> Declares(ParameterLayout(), n, ChoiceKind)
  {
    forall n | n in FloatParamNames ensures Declares(ParameterLayout(), n, FloatKind) {
      assert FloatParam(n) in ParameterLayout();
    }
    assert ChoiceParam(LadderFilterModeName, LadderFilterChoices, 0) in ParameterLayout();
    assert ChoiceParam(GeneralFilterModeName, GeneralFilterChoices, 0) in ParameterLayout();
  }

  /** Both binding loops of the constructor over `createParameterLayout`:
      every float handle is the float parameter of its name and every choice
      handle a choice parameter of its name, so no handle is null. */
  method BindConstructorParameters() returns (floats: seq<Option<ParamDecl>>, choices: seq<Option<ParamDecl>>)
    ensures |floats| == |FloatParamNames|
    ensures forall i :: 0 <= i < |FloatParamNames| ==> floats[i] == Some(FloatParam(FloatParamNames[i]))
    ensures |choices| == |ChoiceParamNames|
    ensures forall i :: 0 <= i < |ChoiceParamNames| ==>
      choices[i].Some? && choices[i].value.ChoiceParam? && choices[i].value.id == ChoiceParamNames[i]
  {
    var layout := ParameterLayout();
    LayoutIdsUnique();
    ConstructorNamesDeclared();
    floats := BindParameters(layout, FloatParamNames, FloatKind);
    choices := BindParameters(layout, ChoiceParamNames, ChoiceKind);
    assert forall i :: 0 <= i < |FloatParamNames| ==> FloatParamNames[i] in FloatParamNames;
    assert forall i :: 0 <= i < |ChoiceParamNames| ==> ChoiceParamNames[i] in ChoiceParamNames;
  }

  /** Each choice parameter's default index selects one of its choices. */
  lemma ChoiceDefaultsInRange()
    ensures forall k :: 0 <= k < |ParameterLayout()| && ParameterLayout()[k].ChoiceParam? ==>
      ParameterLayout()[k].defaultIndex < |ParameterLayout()[k].choices|
  {
  }
}
