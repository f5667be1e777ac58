/** Source/PluginProcessor.cpp: the parameter layout the processor publishes, the
    bus layouts it accepts, the clearing of output channels that have no input in
    processBlock, and the rule that a restored state replaces the current one only
    when it decodes to a valid tree. The compressor that processBlock then runs,
    and the serialisation of the state, are not part of this model. */
module PluginProcessor {
  import opened Text
  import opened Utilities
  import opened RotarySlider
  import opened BandControls

  /** juce::ParameterID: the identifier and the version hint. */
  datatype ParameterID = ParameterID(id: string, version: nat)

  datatype Parameter =
    | FloatParameter(pid: ParameterID, name: string, range: Range, defaultValue: real)
    | ChoiceParameter(pid: ParameterID, name: string, choices: seq<string>, defaultIndex: nat)
    | BoolParameter(pid: ParameterID, name: string, defaultBool: bool)

  /** The ratio choices 1, 1.5, 2, 3, 4, 5, 6, 7, 8, 10, 15, 20, 50, 100, held in
      tenths so that their one-decimal text is exact. */
  const RatioTenths: seq<nat> := [10, 15, 20, 30, 40, 50, 60, 70, 80, 100, 150, 200, 500, 1000]

  /** The choice strings juce::String(choice, 1) gives for the ratio choices. */
  function RatioChoiceNames(): seq<string>
  {
    seq(|RatioTenths|, i requires 0 <= i < |RatioTenths| => OneDecimal(RatioTenths[i]))
  }

  /** A parameter's default lies in its range (a choice default indexes a choice). */
  predicate DefaultInRange(p: Parameter)
  {
    match p
    case FloatParameter(_, _, range, d) => range.start <= d <= range.end
    case ChoiceParameter(_, _, choices, i) => i < |choices|
    case BoolParameter(_, _, _) => true
  }

  /** createParameterLayout: threshold, attack, release, ratio and bypass, in that
      order; the ratio choice strings are built by a loop over the choices. */
  method CreateParameterLayout() returns (layout: seq<Parameter>)
    ensures |layout| == 5
    ensures layout[0] == FloatParameter(ParameterID("Threshold", 1), "Threshold", Range(-60.0, 12.0, 1.0, 1.0), 0.0)
    ensures layout[1] == FloatParameter(ParameterID("Attack", 1), "Attack", Range(5.0, 500.0, 1.0, 1.0), 50.0)
    ensures layout[2] == FloatParameter(ParameterID("Release", 1), "Release", Range(5.0, 500.0, 1.0, 1.0), 250.0)
    ensures layout[3] == ChoiceParameter(ParameterID("Ratio", 1), "Ratio", RatioChoiceNames(), 3)
    ensures layout[4] == BoolParameter(ParameterID("Bypassed", 1), "Bypassed", false)
    ensures forall i :: 0 <= i < |layout| ==> DefaultInRange(layout[i])
    ensures layout[0].range.start == MinThreshold && layout[0].range.end == MaxDecibels
  {
    layout := [FloatParameter(ParameterID("Threshold", 1), "Threshold", Range(-60.0, 12.0, 1.0, 1.0), 0.0)];
    var attackReleaseRange := Range(5.0, 500.0, 1.0, 1.0);
    layout := layout + [FloatParameter(ParameterID("Attack", 1), "Attack", attackReleaseRange, 50.0)];
    layout := layout + [FloatParameter(ParameterID("Release", 1), "Release", attackReleaseRange, 250.0)];
    var sa: seq<string> := [];
    for i := 0 to |RatioTenths|
      invariant |sa| == i
      invariant forall k :: 0 <= k < i ==> sa[k] == OneDecimal(RatioTenths[k])
    {
      sa := sa + [OneDecimal(RatioTenths[i])];
    }
    assert sa == RatioChoiceNames();
    layout := layout + [ChoiceParameter(ParameterID("Ratio", 1), "Ratio", sa, 3)];
    layout := layout + [BoolParameter(ParameterID("Bypassed", 1), "Bypassed", false)];
  }

  /** The tenths stand for the source's choice values. */
  lemma RatioTenthsAreTheChoices()
    ensures |RatioTenths| == 14
    ensures forall i :: 0 <= i < 14 ==>
              RatioTenths[i] as real / 10.0
              == [1.0, 1.5, 2.0, 3.0, 4.0, 5.0, 6.0, 7.0, 8.0, 10.0, 15.0, 20.0, 50.0, 100.0][i]
  {
  }

  /** The first ratio choices as text. */
  lemma {:induction false} RatioChoiceNamesSmall()
    ensures RatioChoiceNames()[..9] == ["1.0", "1.5", "2.0", "3.0", "4.0", "5.0", "6.0", "7.0", "8.0"]
  {
    var n := RatioChoiceNames();
    assert n[0] == "1.0";
    assert n[1] == "1.5";
    assert n[2] == "2.0";
    assert n[3] == "3.0";
    assert n[4] == "4.0";
    assert n[5] == "5.0";
    assert n[6] == "6.0";
    assert n[7] == "7.0";
    assert n[8] == "8.0";
  }

  /** The last ratio choices as text. */
  lemma {:induction false} RatioChoiceNamesLarge()
    ensures RatioChoiceNames()[9..] == ["10.0", "15.0", "20.0", "50.0", "100.0"]
  {
    var n := RatioChoiceNames();
    assert NatToString(1) == "1" && NatToString(2) == "2" && NatToString(5) == "5";
    assert NatToString(10) == NatToString(1) + [DigitChar(0)];
    assert NatToString(15) == NatToString(1) + [DigitChar(5)];
    assert NatToString(20) == NatToString(2) + [DigitChar(0)];
    assert NatToString(50) == NatToString(5) + [DigitChar(0)];
    assert NatToString(100) == NatToString(10) + [DigitChar(0)];
    assert n[9] == "10.0";
    assert n[10] == "15.0";
    assert n[11] == "20.0";
    assert n[12] == "50.0";
    assert n[13] == "100.0";
  }

  /** The compressor sets its ratio from the current choice name's float value;
      every choice name reads back as the choice it was printed from. */
  lemma RatioChoiceValues()
    ensures forall i :: 0 <= i < |RatioTenths| ==>
              DecimalValue(RatioChoiceNames()[i]) == RatioTenths[i] as real / 10.0
  {
    forall i | 0 <= i < |RatioTenths|
      ensures DecimalValue(RatioChoiceNames()[i]) == RatioTenths[i] as real / 10.0
    {
      DecimalValueOfOneDecimal(RatioTenths[i]);
    }
  }

  /** The default ratio choice (index 3) is a ratio of 3. */
  lemma DefaultRatioIsThree()
    ensures DecimalValue(RatioChoiceNames()[3]) == 3.0
  {
    DecimalValueOfOneDecimal(RatioTenths[3]);
  }

  lemma RatioTenthsAscending()
    ensures forall i :: 0 <= i < |RatioTenths| - 1 ==> RatioTenths[i] < RatioTenths[i + 1]
  {
  }

  /** The ratios rise strictly with the choice index. */
  lemma RatioChoicesAscending()
    ensures forall i :: 0 <= i < |RatioTenths| - 1 ==>
              DecimalValue(RatioChoiceNames()[i]) < DecimalValue(RatioChoiceNames()[i + 1])
  {
    RatioChoiceValues();
    RatioTenthsAscending();
  }

  /** What the ratio slider shows for each choice: whole ratios as "N:1", the
      others with their decimal, as "1.5:1" and "15:1" show. */
  lemma RatioChoiceDisplays()
    ensures forall i :: 0 <= i < |RatioTenths| ==>
              RatioDisplayString(RatioChoiceNames()[i]) ==
                (if RatioTenths[i] % 10 == 0 then NatToString(RatioTenths[i] / 10) else OneDecimal(RatioTenths[i])) + ":1"
    ensures forall i :: 0 <= i < |RatioTenths| ==> (RatioTenths[i] % 10 == 0 <==> i != 1)
  {
    forall i | 0 <= i < |RatioTenths|
      ensures RatioDisplayString(RatioChoiceNames()[i]) ==
                (if RatioTenths[i] % 10 == 0 then NatToString(RatioTenths[i] / 10) else OneDecimal(RatioTenths[i])) + ":1"
    {
      RatioDisplayOfOneDecimal(RatioTenths[i]);
    }
  }

  /** The ratio slider's labels for this layout are "1:1" and "100:1". */
  lemma RatioSliderLabels()
    ensures RatioLabels(RatioChoiceNames()) == [LabelPos(0.0, "1:1"), LabelPos(1.0, "100:1")]
  {
    var names := RatioChoiceNames();
    RatioLabelsOfOneDecimal(names, 1000);
    assert NatToString(100) == "100" by {
      assert NatToString(1) == "1";
      assert NatToString(10) == NatToString(1) + [DigitChar(0)];
    }
    assert NatToString(1000 / 10) + ":1" == "100:1";
  }

  /** juce::AudioChannelSet, as far as the layout check tells sets apart. */
  datatype ChannelSet = Disabled | Mono | Stereo | OtherSet(layoutCode: nat)

  function NumChannels(c: ChannelSet): nat
  {
    match c
    case Disabled => 0
    case Mono => 1
    case Stereo => 2
    case OtherSet(_) => 3 + c.layoutCode
  }

  datatype BusesLayout = BusesLayout(mainInput: ChannelSet, mainOutput: ChannelSet)

  /** isBusesLayoutSupported, for a build that is neither a MIDI effect nor a
      synth: the main output must be mono or stereo, and the main input the
      same set. */
  function IsBusesLayoutSupported(layouts: BusesLayout): (r: bool)
    ensures r <==> layouts == BusesLayout(Mono, Mono) || layouts == BusesLayout(Stereo, Stereo)
  {
    if layouts.mainOutput != Mono && layouts.mainOutput != Stereo then false
    else if layouts.mainOutput != layouts.mainInput then false
    else true
  }

  /** Under a supported layout there are as many inputs as outputs, so processBlock
      clears no channel. */
  lemma SupportedLayoutClearsNothing(layouts: BusesLayout)
    requires IsBusesLayoutSupported(layouts)
    ensures NumChannels(layouts.mainInput) == NumChannels(layouts.mainOutput) <= 2
  {
  }

  /** The clearing loop of processBlock: every output channel from the number of
      input channels up to the number of output channels is set to silence over
      the whole block; every other channel keeps its samples. */
  method ClearUnusedOutputChannels(buffer: array2<real>, totalNumInputChannels: nat, totalNumOutputChannels: nat)
    requires totalNumOutputChannels <= buffer.Length0
    modifies buffer
    ensures forall c, s :: 0 <= c < buffer.Length0 && 0 <= s < buffer.Length1 ==>
              buffer[c, s] == (if totalNumInputChannels <= c < totalNumOutputChannels then 0.0 else old(buffer[c, s]))
  {
    var i := totalNumInputChannels;
    while i < totalNumOutputChannels
      invariant totalNumInputChannels <= i
      invariant i <= totalNumOutputChannels || i == totalNumInputChannels
      invariant forall c, s :: 0 <= c < buffer.Length0 && 0 <= s < buffer.Length1 ==>
                  buffer[c, s] == (if totalNumInputChannels <= c < i then 0.0 else old(buffer[c, s]))
    {
      var n := 0;
      while n < buffer.Length1
        invariant 0 <= n <= buffer.Length1
        invariant forall c, s :: 0 <= c < buffer.Length0 && 0 <= s < buffer.Length1 ==>
                    buffer[c, s] == (if totalNumInputChannels <= c < i || (c == i && s < n) then 0.0 else old(buffer[c, s]))
      {
        buffer[i, n] := 0.0;
        n := n + 1;
      }
      i := i + 1;
    }
  }

  /** juce::ValueTree as far as the processor uses it: a tree that may be invalid
      (the result of decoding data that holds no tree). */
  datatype ValueTree = InvalidTree | Tree(typeName: string, properties: seq<(string, string)>, children: seq<ValueTree>)

  predicate IsValid(t: ValueTree) { t.Tree? }

  class SimpleMBCompAudioProcessor {
    /** apvts.state */
    var state: ValueTree

    constructor (initial: ValueTree)
      ensures state == initial
    {
      state := initial;
    }

    /** setStateInformation: `readFromData` is the decoder of the stored bytes,
        which is not part of this model; the decoded tree replaces the state
        only when it is valid. */
    method SetStateInformation(data: seq<bv8>, readFromData: seq<bv8> -> ValueTree)
      modifies this`state
      ensures IsValid(readFromData(data)) ==> state == readFromData(data)
      ensures !IsValid(readFromData(data)) ==> state == old(state)
      ensures IsValid(old(state)) ==> IsValid(state)
    {
      var tree := readFromData(data);
      if IsValid(tree) {
        state := tree;
      }
    }
  }
}
