/** Source/GUI/CompressorBandControls.cpp: the per-band control strip. Three
    toggle buttons (bypass "X", solo "S", mute "M") behave as a radio group that
    may also be all off; the four sliders are disabled while the band is muted or
    bypassed; the band-select buttons (Low/Mid/High) decide which band's
    parameters the controls are attached to, and take the colour of that band's
    solo, mute or bypass state.

    A click on a toggle button reaches `ButtonClicked` after JUCE has flipped the
    button's state. `setToggleState(false, sendNotification)` on a button whose
    state changes notifies the listener again, so `ButtonClicked` re-enters itself
    for every button that the radio logic switches off; the model follows that
    re-entry (`SendToggleOff`). Button attachments load the attached parameter's
    value into a button the same way (`SyncToggle`). */
module BandControls {
  import opened Params
  import opened Utilities
  import opened RotarySlider
  import opened Text

  datatype Colour = LightBlue | Black | Maroon | White | Grey

  /** A TextButton's buttonOnColourId and buttonColourId. */
  datatype ButtonColours = ButtonColours(on: Colour, off: Colour)

  /** The colours the band-select buttons are given at construction, and that
      resetActiveBandFillColors restores. */
  const DefaultBandColours: ButtonColours := ButtonColours(LightBlue, Black)

  datatype FlagButton = BypassButton | SoloButton | MuteButton

  /** The buttonOnColourId each flag button is given at construction. */
  function OnColour(b: FlagButton): Colour
  {
    match b
    case BypassButton => Maroon
    case SoloButton => White
    case MuteButton => Grey
  }

  /** refreshBandButtonColors(band, source): both colours of the band button
      become the source button's on-colour. */
  function Filled(source: FlagButton): ButtonColours
  {
    ButtonColours(OnColour(source), OnColour(source))
  }

  /** The toggle states of the bypass, solo and mute buttons. */
  datatype Toggles = Toggles(bypass: bool, solo: bool, mute: bool)

  function Get(t: Toggles, b: FlagButton): bool
  {
    match b
    case BypassButton => t.bypass
    case SoloButton => t.solo
    case MuteButton => t.mute
  }

  function Set(t: Toggles, b: FlagButton, v: bool): (r: Toggles)
    ensures Get(r, b) == v
    ensures forall c :: c != b ==> Get(r, c) == Get(t, c)
  {
    match b
    case BypassButton => t.(bypass := v)
    case SoloButton => t.(solo := v)
    case MuteButton => t.(mute := v)
  }

  predicate AtMostOne(t: Toggles)
  {
    (t.bypass ==> !t.solo && !t.mute) && (t.solo ==> !t.mute)
  }

  /** The toggles updateSoloMuteBypassToggleStates leaves: when the clicked button
      is on, the other two are switched off; when it is off, nothing changes. */
  function RadioClick(t: Toggles, clicked: FlagButton): (r: Toggles)
    ensures Get(t, clicked) ==> Get(r, clicked) && forall c :: c != clicked ==> !Get(r, c)
    ensures !Get(t, clicked) ==> r == t
  {
    if !Get(t, clicked) then t
    else
      match clicked
      case SoloButton => t.(bypass := false, mute := false)
      case MuteButton => t.(bypass := false, solo := false)
      case BypassButton => t.(mute := false, solo := false)
  }

  /** A user click: JUCE flips the clicked button, then the listener runs. */
  function UserClick(t: Toggles, clicked: FlagButton): Toggles
  {
    RadioClick(Set(t, clicked, !Get(t, clicked)), clicked)
  }

  /** Clicks keep "at most one of the three is on", and clicking the button that is
      on leaves all three off. */
  lemma UserClickKeepsAtMostOne(t: Toggles, clicked: FlagButton)
    requires AtMostOne(t)
    ensures AtMostOne(UserClick(t, clicked))
    ensures Get(t, clicked) ==> UserClick(t, clicked) == Toggles(false, false, false)
    ensures !Get(t, clicked) ==> Get(UserClick(t, clicked), clicked)
  {
  }

  /** The stored solo, mute and bypass values of one band. */
  datatype BandFlags = BandFlags(solo: bool, mute: bool, bypassed: bool)

  function FlagsAsToggles(f: BandFlags): Toggles
  {
    Toggles(f.bypassed, f.solo, f.mute)
  }

  /** The colour one pass of updateBandSelectButtonStates gives a band button:
      solo's colour if the band is soloed, else mute's if muted, else bypass's if
      bypassed; otherwise the button keeps what it had. */
  function PriorityColours(f: BandFlags, current: ButtonColours): (c: ButtonColours)
  {
    if f.solo then Filled(SoloButton)
    else if f.mute then Filled(MuteButton)
    else if f.bypassed then Filled(BypassButton)
    else current
  }

  /** The three flag colours are different from each other and from the default
      colours, so the colour a band button ends up with tells which flag won:
      solo over mute over bypass. */
  lemma PriorityColoursIdentifyFlag(f: BandFlags)
    ensures PriorityColours(f, DefaultBandColours) == Filled(SoloButton) <==> f.solo
    ensures PriorityColours(f, DefaultBandColours) == Filled(MuteButton) <==> !f.solo && f.mute
    ensures PriorityColours(f, DefaultBandColours) == Filled(BypassButton) <==> !f.solo && !f.mute && f.bypassed
    ensures PriorityColours(f, DefaultBandColours) == DefaultBandColours <==> !f.solo && !f.mute && !f.bypassed
  {
  }

  /** The parameter names attached for a band, in `Pos` order. */
  function NamesFor(band: Band): (names: seq<ParamName>)
  {
    [ParamName(Attack, band), ParamName(Release, band), ParamName(Threshold, band),
     ParamName(Ratio, band), ParamName(Bypass, band), ParamName(Solo, band), ParamName(Mute, band)]
  }

  /** The name list has seven entries, each position holding that band's parameter
      of that kind. */
  lemma NamesForIndexedByPos(band: Band, p: Pos)
    ensures |NamesFor(band)| == 7
    ensures NamesFor(band)[PosIndex(p)] == ParamName(p, band)
  {
  }

  /** The band whose toggle is checked first among Low, Mid, High; High when neither
      Low nor Mid is on. */
  function SelectedBand(low: bool, mid: bool): (b: Band)
    ensures b == Low <==> low
    ensures b == Mid <==> !low && mid
    ensures b == High <==> !low && !mid
  {
    if low then Low else if mid then Mid else High
  }

  /** The ratio slider's two labels: "1:1" at the start and, at the end, the whole
      part of the last ratio choice followed by ":1". */
  function RatioLabels(choices: seq<string>): seq<LabelPos>
    requires |choices| > 0
  {
    [LabelPos(0.0, "1:1"), LabelPos(1.0, NatToString(LeadingIntValue(choices[|choices| - 1])) + ":1")]
  }

  /** The four sliders' bindings: attack, release, threshold and ratio. */
  datatype SliderBindings = SliderBindings(attack: Binding, release: Binding, threshold: Binding, ratio: Binding)

  /** What updateAttachments binds the sliders to for `band`: each slider to the
      band's parameter of its kind, attack and release labelled in "ms" and
      threshold in "dB" from their ranges, ratio from the band's ratio choices. */
  function BandBindings(s: BandSettings, band: Band, show: Show): SliderBindings
    requires |s.ratioChoices| > 0
  {
    SliderBindings(
      Binding(Param(ParamName(Attack, band)), LabelPairs(s.attack, "ms", show)),
      Binding(Param(ParamName(Release, band)), LabelPairs(s.release, "ms", show)),
      Binding(Param(ParamName(Threshold, band)), LabelPairs(s.threshold, "dB", show)),
      Binding(Param(ParamName(Ratio, band)), RatioLabels(s.ratioChoices)))
  }

  /** The ratio slider's labels after updateAttachments as written: the two labels are
      appended to whatever the slider already had (there is no clear). */
  function RatioLabelsAsWritten(labels: seq<LabelPos>, choices: seq<string>): seq<LabelPos>
    requires |choices| > 0
  {
    labels + RatioLabels(choices)
  }

  /** As written, every updateAttachments call adds two more labels. Re-clicking
      the selected band runs it once more after the constructor's call (four
      labels, each twice); clicking another band runs it twice more (six labels,
      each three times). */
  lemma RatioLabelsAccumulate(choices: seq<string>)
    requires |choices| > 0
    ensures var once := RatioLabelsAsWritten([], choices);
            var twice := RatioLabelsAsWritten(once, choices);
            var thrice := RatioLabelsAsWritten(twice, choices);
            && |once| == 2 && |twice| == 4 && twice[0] == twice[2] && twice[1] == twice[3]
            && |thrice| == 6 && thrice[4] == thrice[0] && thrice[5] == thrice[1]
  {
  }

  /** With the labels replaced rather than appended, the ratio slider always carries
      exactly the two labels, and when the last choice is a printed one-decimal
      value its label is its whole part followed by ":1" (for "100.0": "100:1"). */
  lemma RatioLabelsOfOneDecimal(choices: seq<string>, lastTenths: nat)
    requires |choices| > 0 && choices[|choices| - 1] == OneDecimal(lastTenths)
    ensures |RatioLabels(choices)| == 2
    ensures RatioLabels(choices)[0] == LabelPos(0.0, "1:1")
    ensures RatioLabels(choices)[1] == LabelPos(1.0, NatToString(lastTenths / 10) + ":1")
  {
    LeadingIntOfOneDecimal(lastTenths);
  }

  /** What the controls read from the parameter store for one band: the ranges of
      its attack, release and threshold parameters, its ratio choices, and its
      stored solo, mute and bypass flags. */
  datatype BandSettings = BandSettings(attack: Range, release: Range, threshold: Range,
                                       ratioChoices: seq<string>, flags: BandFlags)

  /** The parameter store, band by band. */
  datatype Store = Store(low: BandSettings, mid: BandSettings, high: BandSettings)
  {
    function Of(b: Band): BandSettings
    {
      match b
      case Low => low
      case Mid => mid
      case High => high
    }
  }

  class CompressorBandControls {
    var bypassOn: bool
    var soloOn: bool
    var muteOn: bool
    var lowSelected: bool
    var midSelected: bool
    var highSelected: bool
    /** activeBand: the band-select button it refers to. */
    var activeBand: Band
    var lowColours: ButtonColours
    var midColours: ButtonColours
    var highColours: ButtonColours
    const attackSlider: RotarySliderWithLabels
    const releaseSlider: RotarySliderWithLabels
    const thresholdSlider: RotarySliderWithLabels
    const ratioSlider: RotarySliderWithLabels

    /** The four sliders are four different objects. */
    ghost predicate Valid()
      reads this
    {
      !(|| attackSlider == releaseSlider || attackSlider == thresholdSlider || attackSlider == ratioSlider
        || releaseSlider == thresholdSlider || releaseSlider == ratioSlider
        || thresholdSlider == ratioSlider)
    }

    function ToggleStates(): Toggles
      reads this`bypassOn, this`soloOn, this`muteOn
    {
      Toggles(bypassOn, soloOn, muteOn)
    }

    function ColoursOf(b: Band): ButtonColours
      reads this`lowColours, this`midColours, this`highColours
    {
      match b
      case Low => lowColours
      case Mid => midColours
      case High => highColours
    }

    /** The four sliders are enabled exactly when neither mute nor bypass is on. */
    ghost predicate EnablementFollowsToggles()
      reads this`muteOn, this`bypassOn
      reads attackSlider`enabled, releaseSlider`enabled, thresholdSlider`enabled, ratioSlider`enabled
    {
      var e := !(muteOn || bypassOn);
      Enablement() == (e, e, e, e)
    }

    /** Whether the attack, release, threshold and ratio sliders are enabled. */
    ghost function Enablement(): (bool, bool, bool, bool)
      reads attackSlider`enabled, releaseSlider`enabled, thresholdSlider`enabled, ratioSlider`enabled
    {
      (attackSlider.enabled, releaseSlider.enabled, thresholdSlider.enabled, ratioSlider.enabled)
    }

    /** The constructor: default colours, Low selected, all three flag buttons off
        as JUCE toggle buttons start, then `Initialise`. */
    constructor (store: Store, show: Show)
      requires |store.Of(Low).ratioChoices| > 0
      ensures Valid() && fresh({attackSlider, releaseSlider, thresholdSlider, ratioSlider})
      ensures (lowSelected, midSelected, highSelected, activeBand) == (true, false, false, Low)
      ensures AtMostOne(FlagsAsToggles(store.Of(Low).flags)) ==> ToggleStates() == FlagsAsToggles(store.Of(Low).flags)
      ensures AtMostOne(ToggleStates()) && EnablementFollowsToggles()
      ensures SlidersAttached(store, show)
      ensures forall b :: ColoursOf(b) == PriorityColours(store.Of(b).flags, DefaultBandColours)
    {
      attackSlider := new RotarySliderWithLabels(NoParam, "ms", "ATTACK");
      releaseSlider := new RotarySliderWithLabels(NoParam, "ms", "RELEASE");
      thresholdSlider := new RotarySliderWithLabels(NoParam, "dB", "THRESHOLD");
      ratioSlider := new RotarySliderWithLabels(NoParam, "", "RATIO");
      bypassOn, soloOn, muteOn := false, false, false;
      lowColours, midColours, highColours := DefaultBandColours, DefaultBandColours, DefaultBandColours;
      lowSelected, midSelected, highSelected := true, false, false;
      activeBand := Low;
      new;
      Initialise(store, show);
    }

    /** The rest of the constructor: attachments made for the Low band, then slider
        enablement and band colours brought up to date. */
    method Initialise(store: Store, show: Show)
      requires Valid() && lowSelected
      requires |store.Of(Low).ratioChoices| > 0
      requires ToggleStates() == Toggles(false, false, false)
      requires forall b :: ColoursOf(b) == DefaultBandColours
      modifies this`activeBand, this`bypassOn, this`soloOn, this`muteOn
      modifies this`lowColours, this`midColours, this`highColours
      modifies attackSlider, releaseSlider, thresholdSlider, ratioSlider
      ensures activeBand == Low
      ensures AtMostOne(FlagsAsToggles(store.Of(Low).flags)) ==> ToggleStates() == FlagsAsToggles(store.Of(Low).flags)
      ensures AtMostOne(ToggleStates()) && EnablementFollowsToggles()
      ensures SlidersAttached(store, show)
      ensures forall b :: ColoursOf(b) == PriorityColours(store.Of(b).flags, DefaultBandColours)
    {
      AttachInitialBand(store, show);
      ghost var bound := Bindings();
      UpdateSliderEnablements();
      UpdateBandSelectButtonStates(store);
      assert Bindings() == bound;
      PriorityAfterLoads(store.Of(Low).flags, DefaultBandColours);
    }

    /** The constructor's updateAttachments: from all-off buttons and default
        colours it attaches the Low band, loading its stored flags. */
    method AttachInitialBand(store: Store, show: Show)
      requires Valid() && lowSelected
      requires |store.Of(Low).ratioChoices| > 0
      requires ToggleStates() == Toggles(false, false, false)
      requires forall b :: ColoursOf(b) == DefaultBandColours
      modifies this`activeBand, this`bypassOn, this`soloOn, this`muteOn
      modifies this`lowColours, this`midColours, this`highColours
      modifies attackSlider, releaseSlider, thresholdSlider, ratioSlider
      ensures activeBand == Low
      ensures AtMostOne(FlagsAsToggles(store.Of(Low).flags)) ==> ToggleStates() == FlagsAsToggles(store.Of(Low).flags)
      ensures AtMostOne(ToggleStates())
      ensures SlidersAttached(store, show)
      ensures (lowColours, midColours, highColours)
              == (LoadedColour(Toggles(false, false, false), FlagsAsToggles(store.Of(Low).flags), DefaultBandColours),
                  DefaultBandColours, DefaultBandColours)
    {
      assert ColoursOf(Low) == ColoursOf(Mid) == ColoursOf(High) == DefaultBandColours;
      var _ := UpdateAttachments(store, show);
    }

    /** updateSliderEnablements */
    method UpdateSliderEnablements()
      requires Valid()
      modifies attackSlider`enabled, releaseSlider`enabled, thresholdSlider`enabled, ratioSlider`enabled
      ensures EnablementFollowsToggles()
    {
      var disabled := muteOn || bypassOn;
      attackSlider.enabled := !disabled;
      releaseSlider.enabled := !disabled;
      ratioSlider.enabled := !disabled;
      thresholdSlider.enabled := !disabled;
    }

    /** refreshBandButtonColors / resetActiveBandFillColors on one band button. */
    method SetBandColours(b: Band, c: ButtonColours)
      modifies this`lowColours, this`midColours, this`highColours
      ensures ColoursOf(b) == c
      ensures forall o :: o != b ==> ColoursOf(o) == old(ColoursOf(o))
    {
      match b
      case Low => lowColours := c;
      case Mid => midColours := c;
      case High => highColours := c;
    }

    /** updateActiveBandFillColors: the active band button takes the clicked
        button's colour when the clicked button is on, the default colours when
        it is off. */
    method UpdateActiveBandFillColors(clicked: FlagButton)
      modifies this`lowColours, this`midColours, this`highColours
      ensures ColoursOf(activeBand) == if Get(ToggleStates(), clicked) then Filled(clicked) else DefaultBandColours
      ensures forall o :: o != activeBand ==> ColoursOf(o) == old(ColoursOf(o))
    {
      if !Get(ToggleStates(), clicked) {
        SetBandColours(activeBand, DefaultBandColours);
      } else {
        SetBandColours(activeBand, Filled(clicked));
      }
    }

    /** buttonClicked, for the bypass, solo and mute buttons: entered after the
        clicked button already shows its new state. */
    method ButtonClicked(clicked: FlagButton)
      requires Valid()
      modifies this`bypassOn, this`soloOn, this`muteOn, this`lowColours, this`midColours, this`highColours
      modifies attackSlider`enabled, releaseSlider`enabled, thresholdSlider`enabled, ratioSlider`enabled
      decreases if Get(ToggleStates(), clicked) then 1 else 0, 2
      ensures ToggleStates() == RadioClick(old(ToggleStates()), clicked)
      ensures EnablementFollowsToggles()
      ensures ColoursOf(activeBand) == if Get(old(ToggleStates()), clicked) then Filled(clicked) else DefaultBandColours
      ensures forall o :: o != activeBand ==> ColoursOf(o) == old(ColoursOf(o))
    {
      UpdateSliderEnablements();
      UpdateSoloMuteBypassToggleStates(clicked);
      UpdateActiveBandFillColors(clicked);
    }

    /** updateSoloMuteBypassToggleStates: when the clicked button is on, the other
        two are switched off, each with a notification. */
    method UpdateSoloMuteBypassToggleStates(clicked: FlagButton)
      requires Valid()
      requires EnablementFollowsToggles()
      modifies this`bypassOn, this`soloOn, this`muteOn, this`lowColours, this`midColours, this`highColours
      modifies attackSlider`enabled, releaseSlider`enabled, thresholdSlider`enabled, ratioSlider`enabled
      decreases if Get(ToggleStates(), clicked) then 1 else 0, 1
      ensures ToggleStates() == RadioClick(old(ToggleStates()), clicked)
      ensures EnablementFollowsToggles()
      ensures ToggleStates() == old(ToggleStates()) ==> ColoursOf(activeBand) == old(ColoursOf(activeBand))
      ensures ToggleStates() != old(ToggleStates()) ==> ColoursOf(activeBand) == DefaultBandColours
      ensures forall o :: o != activeBand ==> ColoursOf(o) == old(ColoursOf(o))
    {
      if clicked == SoloButton && soloOn {
        SendToggleOff(BypassButton);
        SendToggleOff(MuteButton);
      } else if clicked == MuteButton && muteOn {
        SendToggleOff(BypassButton);
        SendToggleOff(SoloButton);
      } else if clicked == BypassButton && bypassOn {
        SendToggleOff(MuteButton);
        SendToggleOff(SoloButton);
      }
    }

    /** setToggleState(false, sendNotification): a button that was on is switched
        off and the listener is told, as for a click. */
    method SendToggleOff(b: FlagButton)
      requires Valid()
      requires EnablementFollowsToggles()
      modifies this`bypassOn, this`soloOn, this`muteOn, this`lowColours, this`midColours, this`highColours
      modifies attackSlider`enabled, releaseSlider`enabled, thresholdSlider`enabled, ratioSlider`enabled
      decreases 0, 3
      ensures ToggleStates() == Set(old(ToggleStates()), b, false)
      ensures EnablementFollowsToggles()
      ensures old(Get(ToggleStates(), b)) ==> ColoursOf(activeBand) == DefaultBandColours
      ensures !old(Get(ToggleStates(), b)) ==> ColoursOf(activeBand) == old(ColoursOf(activeBand))
      ensures forall o :: o != activeBand ==> ColoursOf(o) == old(ColoursOf(o))
    {
      if Get(ToggleStates(), b) {
        match b {
          case BypassButton => bypassOn := false;
          case SoloButton => soloOn := false;
          case MuteButton => muteOn := false;
        }
        ButtonClicked(b);
      }
    }

    /** A click on the bypass, solo or mute button: JUCE flips it and notifies. */
    method Click(b: FlagButton)
      requires Valid()
      modifies this`bypassOn, this`soloOn, this`muteOn, this`lowColours, this`midColours, this`highColours
      modifies attackSlider`enabled, releaseSlider`enabled, thresholdSlider`enabled, ratioSlider`enabled
      ensures ToggleStates() == UserClick(old(ToggleStates()), b)
      ensures AtMostOne(old(ToggleStates())) ==> AtMostOne(ToggleStates())
      ensures EnablementFollowsToggles()
      ensures ColoursOf(activeBand) == if Get(ToggleStates(), b) then Filled(b) else DefaultBandColours
      ensures forall o :: o != activeBand ==> ColoursOf(o) == old(ColoursOf(o))
    {
      match b {
        case BypassButton => bypassOn := !bypassOn;
        case SoloButton => soloOn := !soloOn;
        case MuteButton => muteOn := !muteOn;
      }
      ButtonClicked(b);
      if AtMostOne(old(ToggleStates())) {
        UserClickKeepsAtMostOne(old(ToggleStates()), b);
      }
    }

    /** A button attachment loading the attached parameter's value into a button:
        setToggleState(v, sendNotificationSync), which notifies the listener when the
        state changes. */
    method SyncToggle(b: FlagButton, v: bool)
      requires Valid()
      modifies this`bypassOn, this`soloOn, this`muteOn, this`lowColours, this`midColours, this`highColours
      modifies attackSlider`enabled, releaseSlider`enabled, thresholdSlider`enabled, ratioSlider`enabled
      ensures Get(old(ToggleStates()), b) != v ==>
                ToggleStates() == RadioClick(Set(old(ToggleStates()), b, v), b)
      ensures Get(old(ToggleStates()), b) != v ==> EnablementFollowsToggles()
      ensures Get(old(ToggleStates()), b) == v ==> ToggleStates() == old(ToggleStates())
      ensures ColoursOf(activeBand) == LoadColour(old(ToggleStates()), b, v, old(ColoursOf(activeBand)))
      ensures Get(old(ToggleStates()), b) == v ==>
                unchanged(attackSlider`enabled, releaseSlider`enabled, thresholdSlider`enabled, ratioSlider`enabled)
      ensures forall o :: o != activeBand ==> ColoursOf(o) == old(ColoursOf(o))
    {
      if Get(ToggleStates(), b) != v {
        match b {
          case BypassButton => bypassOn := v;
          case SoloButton => soloOn := v;
          case MuteButton => muteOn := v;
        }
        ButtonClicked(b);
      }
    }

    /** updateAttachments: picks the band from the band-select toggles, points the
        controls at that band's seven parameters, rebuilds the slider labels, and
        attaches the three buttons (bypass, solo, mute in that order), which loads
        the band's stored flags into them. `names` is the list of the band's
        parameter names the source builds, in `Pos` order. */
    method UpdateAttachments(store: Store, show: Show) returns (names: seq<ParamName>)
      requires Valid()
      requires |store.Of(SelectedBand(lowSelected, midSelected)).ratioChoices| > 0
      modifies this`activeBand, this`bypassOn, this`soloOn, this`muteOn
      modifies this`lowColours, this`midColours, this`highColours
      modifies attackSlider, releaseSlider, thresholdSlider, ratioSlider
      ensures activeBand == SelectedBand(lowSelected, midSelected)
      ensures names == NamesFor(activeBand)
      ensures SlidersAttached(store, show)
      ensures ToggleStates() == LoadFlags(old(ToggleStates()), FlagsAsToggles(store.Of(activeBand).flags))
      ensures var b := activeBand;
              ColoursOf(b) == LoadedColour(old(ToggleStates()), FlagsAsToggles(store.Of(b).flags), old(ColoursOf(b)))
      ensures AtMostOne(FlagsAsToggles(store.Of(activeBand).flags)) ==> ToggleStates() == FlagsAsToggles(store.Of(activeBand).flags)
      ensures AtMostOne(old(ToggleStates())) ==> AtMostOne(ToggleStates())
      ensures old(EnablementFollowsToggles()) || ToggleStates() != old(ToggleStates()) ==> EnablementFollowsToggles()
      ensures forall o :: o != activeBand ==> ColoursOf(o) == old(ColoursOf(o))
    {
      names := AttachSliders(store, show);
      ghost var bound := Bindings();
      AttachButtons(store.Of(activeBand).flags);
      assert Bindings() == bound;
    }

    /** What the four sliders currently point at and display. */
    ghost function Bindings(): SliderBindings
      reads attackSlider`labels, releaseSlider`labels, thresholdSlider`labels, ratioSlider`labels
      reads attackSlider`param, releaseSlider`param, thresholdSlider`param, ratioSlider`param
    {
      SliderBindings(attackSlider.Shown(), releaseSlider.Shown(), thresholdSlider.Shown(), ratioSlider.Shown())
    }

    /** Each slider is attached to the active band's parameter of its kind and
        labelled from it (see `BandBindings`). */
    ghost predicate SlidersAttached(store: Store, show: Show)
      reads this`activeBand
      reads attackSlider`labels, releaseSlider`labels, thresholdSlider`labels, ratioSlider`labels
      reads attackSlider`param, releaseSlider`param, thresholdSlider`param, ratioSlider`param
    {
      |store.Of(activeBand).ratioChoices| > 0 && Bindings() == BandBindings(store.Of(activeBand), activeBand, show)
    }

    /** The slider half of updateAttachments. */
    method AttachSliders(store: Store, show: Show) returns (names: seq<ParamName>)
      requires Valid()
      requires |store.Of(SelectedBand(lowSelected, midSelected)).ratioChoices| > 0
      modifies this`activeBand
      modifies attackSlider`labels, releaseSlider`labels, thresholdSlider`labels, ratioSlider`labels
      modifies attackSlider`param, releaseSlider`param, thresholdSlider`param, ratioSlider`param
      ensures activeBand == SelectedBand(lowSelected, midSelected)
      ensures names == NamesFor(activeBand)
      ensures SlidersAttached(store, show)
    {
      var band := SelectedBand(lowSelected, midSelected);
      names := NamesFor(band);
      activeBand := band;
      attackSlider.labels := LabelPairs(store.Of(band).attack, "ms", show);
      attackSlider.ChangeParam(Param(names[PosIndex(Attack)]));
      releaseSlider.labels := LabelPairs(store.Of(band).release, "ms", show);
      releaseSlider.ChangeParam(Param(names[PosIndex(Release)]));
      thresholdSlider.labels := LabelPairs(store.Of(band).threshold, "dB", show);
      thresholdSlider.ChangeParam(Param(names[PosIndex(Threshold)]));
      ratioSlider.labels := RatioLabels(store.Of(band).ratioChoices);
      ratioSlider.ChangeParam(Param(names[PosIndex(Ratio)]));
    }

    /** The button half of updateAttachments: the bypass, solo and mute
        attachments are made in that order, each loading its stored value. */
    method AttachButtons(f: BandFlags)
      requires Valid()
      modifies this`bypassOn, this`soloOn, this`muteOn, this`lowColours, this`midColours, this`highColours
      modifies attackSlider`enabled, releaseSlider`enabled, thresholdSlider`enabled, ratioSlider`enabled
      ensures ToggleStates() == LoadFlags(old(ToggleStates()), FlagsAsToggles(f))
      ensures ColoursOf(activeBand) == LoadedColour(old(ToggleStates()), FlagsAsToggles(f), old(ColoursOf(activeBand)))
      ensures AtMostOne(FlagsAsToggles(f)) ==> ToggleStates() == FlagsAsToggles(f)
      ensures AtMostOne(old(ToggleStates())) ==> AtMostOne(ToggleStates())
      ensures old(EnablementFollowsToggles()) || ToggleStates() != old(ToggleStates()) ==> EnablementFollowsToggles()
      ensures forall o :: o != activeBand ==> ColoursOf(o) == old(ColoursOf(o))
      ensures FlagsAsToggles(f) == old(ToggleStates()) ==> forall o :: ColoursOf(o) == old(ColoursOf(o))
    {
      SyncToggle(BypassButton, f.bypassed);
      SyncToggle(SoloButton, f.solo);
      SyncToggle(MuteButton, f.mute);
      if AtMostOne(FlagsAsToggles(f)) {
        LoadFlagsAtMostOne(old(ToggleStates()), FlagsAsToggles(f));
      }
      if AtMostOne(old(ToggleStates())) {
        LoadFlagsKeepsAtMostOne(old(ToggleStates()), FlagsAsToggles(f));
      }
      LoadedColourOfShownFlags(old(ToggleStates()), old(ColoursOf(activeBand)));
    }

    /** Whether a band's select button is on. */
    function IsSelected(band: Band): bool
      reads this`lowSelected, this`midSelected, this`highSelected
    {
      match band
      case Low => lowSelected
      case Mid => midSelected
      case High => highSelected
    }

    /** The band-select radio group has exactly one button on. */
    predicate OneBandSelected()
      reads this`lowSelected, this`midSelected, this`highSelected
    {
      (lowSelected && !midSelected && !highSelected)
      || (!lowSelected && midSelected && !highSelected)
      || (!lowSelected && !midSelected && highSelected)
    }

    /** A click on a band-select button. The buttons form a JUCE radio group whose
        onClick handler is updateAttachments. Clicking the button that is already
        on only runs the handler. Clicking another one first switches the selected
        button off with a notification, so the handler runs once while no band
        button is on (and so attaches the controls to the High band); then the
        clicked button comes on and the handler runs again. */
    method ClickBandButton(band: Band, store: Store, show: Show)
      requires Valid() && OneBandSelected()
      requires |store.Of(band).ratioChoices| > 0 && |store.Of(High).ratioChoices| > 0
      modifies this`lowSelected, this`midSelected, this`highSelected
      modifies this`activeBand, this`bypassOn, this`soloOn, this`muteOn
      modifies this`lowColours, this`midColours, this`highColours
      modifies attackSlider, releaseSlider, thresholdSlider, ratioSlider
      ensures OneBandSelected() && IsSelected(band)
      ensures activeBand == band && SlidersAttached(store, show)
      ensures AtMostOne(FlagsAsToggles(store.Of(band).flags)) ==> ToggleStates() == FlagsAsToggles(store.Of(band).flags)
      ensures AtMostOne(old(ToggleStates())) ==> AtMostOne(ToggleStates())
      ensures old(EnablementFollowsToggles()) ==> EnablementFollowsToggles()
      ensures forall o :: o != band && o != High ==> ColoursOf(o) == old(ColoursOf(o))
    {
      if !IsSelected(band) {
        DeselectBands(store, show);
      }
      SelectBand(band, store, show);
    }

    /** The selected band button switched off with a notification: its handler
        runs while no band button is on. */
    method DeselectBands(store: Store, show: Show)
      requires Valid()
      requires |store.Of(High).ratioChoices| > 0
      modifies this`lowSelected, this`midSelected, this`highSelected
      modifies this`activeBand, this`bypassOn, this`soloOn, this`muteOn
      modifies this`lowColours, this`midColours, this`highColours
      modifies attackSlider, releaseSlider, thresholdSlider, ratioSlider
      ensures !lowSelected && !midSelected && !highSelected
      ensures activeBand == High && SlidersAttached(store, show)
      ensures ToggleStates() == LoadFlags(old(ToggleStates()), FlagsAsToggles(store.Of(High).flags))
      ensures ColoursOf(High) == LoadedColour(old(ToggleStates()), FlagsAsToggles(store.Of(High).flags), old(ColoursOf(High)))
      ensures AtMostOne(old(ToggleStates())) ==> AtMostOne(ToggleStates())
      ensures old(EnablementFollowsToggles()) ==> EnablementFollowsToggles()
      ensures forall o :: o != High ==> ColoursOf(o) == old(ColoursOf(o))
    {
      lowSelected, midSelected, highSelected := false, false, false;
      var _ := UpdateAttachments(store, show);
    }

    /** The selected button comes on, the others are off, and the handler runs. */
    method SelectBand(band: Band, store: Store, show: Show)
      requires Valid()
      requires |store.Of(band).ratioChoices| > 0
      modifies this`lowSelected, this`midSelected, this`highSelected
      modifies this`activeBand, this`bypassOn, this`soloOn, this`muteOn
      modifies this`lowColours, this`midColours, this`highColours
      modifies attackSlider, releaseSlider, thresholdSlider, ratioSlider
      ensures OneBandSelected() && IsSelected(band)
      ensures activeBand == band && SlidersAttached(store, show)
      ensures AtMostOne(FlagsAsToggles(store.Of(band).flags)) ==> ToggleStates() == FlagsAsToggles(store.Of(band).flags)
      ensures AtMostOne(old(ToggleStates())) ==> AtMostOne(ToggleStates())
      ensures old(EnablementFollowsToggles()) ==> EnablementFollowsToggles()
      ensures forall o :: o != band ==> ColoursOf(o) == old(ColoursOf(o))
      ensures ToggleStates() == LoadFlags(old(ToggleStates()), FlagsAsToggles(store.Of(band).flags))
      ensures ColoursOf(band) == LoadedColour(old(ToggleStates()), FlagsAsToggles(store.Of(band).flags), old(ColoursOf(band)))
    {
      lowSelected, midSelected, highSelected := band == Low, band == Mid, band == High;
      var _ := UpdateAttachments(store, show);
    }

    /** updateBandSelectButtonStates: each band button, Low, Mid, High in turn,
        takes the colour of its band's highest-priority flag among solo, mute and
        bypass, read from the parameter store. */
    method UpdateBandSelectButtonStates(store: Store)
      modifies this`lowColours, this`midColours, this`highColours
      ensures forall b :: ColoursOf(b) == PriorityColours(store.Of(b).flags, old(ColoursOf(b)))
    {
      for i := 0 to 3
        invariant forall j :: 0 <= j < i ==> ColoursOf(BandAt(j)) == PriorityColours(store.Of(BandAt(j)).flags, old(ColoursOf(BandAt(j))))
        invariant forall j :: i <= j < 3 ==> ColoursOf(BandAt(j)) == old(ColoursOf(BandAt(j)))
      {
        var band := BandAt(i);
        var f := store.Of(band).flags;
        if f.solo {
          SetBandColours(band, Filled(SoloButton));
        } else if f.mute {
          SetBandColours(band, Filled(MuteButton));
        } else if f.bypassed {
          SetBandColours(band, Filled(BypassButton));
        }
      }
      forall b ensures ColoursOf(b) == PriorityColours(store.Of(b).flags, old(ColoursOf(b))) {
        assert b == BandAt(if b == Low then 0 else if b == Mid then 1 else 2);
      }
    }
  }

  /** The toggles after the bypass, solo and mute attachments load the stored flags
      `f`, in that order, each load notifying the listener when it changes a state. */
  function LoadFlags(t: Toggles, f: Toggles): Toggles
  {
    var t1 := Load(t, BypassButton, f.bypass);
    var t2 := Load(t1, SoloButton, f.solo);
    Load(t2, MuteButton, f.mute)
  }

  /** One attachment load: a state change runs the radio logic for that button. */
  function Load(t: Toggles, b: FlagButton, v: bool): Toggles
  {
    if Get(t, b) != v then RadioClick(Set(t, b, v), b) else t
  }

  /** Loading any stored flags keeps "at most one of the three is on". */
  lemma LoadFlagsKeepsAtMostOne(t: Toggles, f: Toggles)
    requires AtMostOne(t)
    ensures AtMostOne(LoadFlags(t, f))
  {
  }

  /** When the stored flags have at most one of the three on, the buttons end up
      showing exactly the stored flags, whatever they showed before. */
  lemma LoadFlagsAtMostOne(t: Toggles, f: Toggles)
    requires AtMostOne(f)
    ensures LoadFlags(t, f) == f
  {
  }

  /** The active band button's colours after one attachment load: a load that
      changes the state notifies the listener, which fills the button with the
      button's on-colour when it comes on and resets it when it goes off. */
  function LoadColour(t: Toggles, b: FlagButton, v: bool, c: ButtonColours): ButtonColours
  {
    if Get(t, b) == v then c else if v then Filled(b) else DefaultBandColours
  }

  /** The active band button's colours after the bypass, solo and mute loads of
      `LoadFlags`, in that order. */
  function LoadedColour(t: Toggles, f: Toggles, c: ButtonColours): ButtonColours
  {
    var t1 := Load(t, BypassButton, f.bypass);
    var t2 := Load(t1, SoloButton, f.solo);
    LoadColour(t2, MuteButton, f.mute, LoadColour(t1, SoloButton, f.solo, LoadColour(t, BypassButton, f.bypass, c)))
  }

  /** Loading flags the buttons already show changes no colour. */
  lemma LoadedColourOfShownFlags(t: Toggles, c: ButtonColours)
    ensures LoadedColour(t, t, c) == c
  {
  }

  /** Loaded into buttons that are all off, stored flags with at most one set
      colour the active band button as the priority rule does. */
  lemma LoadedColourFromAllOff(f: BandFlags, c: ButtonColours)
    requires AtMostOne(FlagsAsToggles(f))
    ensures LoadedColour(Toggles(false, false, false), FlagsAsToggles(f), c) == PriorityColours(f, c)
  {
  }

  /** The priority pass after any loads from all-off leaves the colours it would
      have left without them. */
  lemma PriorityAfterLoads(f: BandFlags, c: ButtonColours)
    ensures PriorityColours(f, LoadedColour(Toggles(false, false, false), FlagsAsToggles(f), c)) == PriorityColours(f, c)
  {
  }
}
