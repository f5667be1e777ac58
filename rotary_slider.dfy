/** Source/GUI/RotarySliderWithLabels.cpp: the text a rotary slider displays for
    its parameter, the ratio slider's "N:1" rewrite, the square the dial is drawn
    in, and the slider object whose parameter `changeParam` swaps. */
module RotarySlider {
  import opened Text
  import opened Geometry
  import opened Utilities
  import opened Params

  /** juce::String(value, places); JUCE's rules are not part of this model. */
  type FormatPlaces = (real, nat) -> string

  /** What `param` turns out to be under dynamic_cast: a choice parameter with its
      current choice name, a float parameter, or neither (no parameter at all, or a
      parameter of another type). */
  datatype ParamView = ChoiceView(currentChoiceName: string) | FloatView | OtherView

  /** getTextHeight() */
  const TextHeight: int := 14

  /** getTextHeight() * 1.5, which the source converts back to int. */
  const LabelHeight: int := TextHeight * 3 / 2

  /** RotarySliderWithLabels::getDisplayString. A choice parameter shows its current
      choice name as it is. A float parameter shows the slider value, kilo-truncated,
      with 2 decimals when truncated and 0 otherwise. Then, only when the suffix is
      not empty, a space, "k" when truncated, and the suffix. Anything else shows
      the empty number followed by the same suffix part. */
  function DisplayString(param: ParamView, value: real, suffix: string, format: FormatPlaces): (r: string)
    ensures param.ChoiceView? ==> r == param.currentChoiceName
    ensures param.FloatView? && value > 999.0 ==>
              r == format(value / 1000.0, 2) + (if suffix != [] then " k" + suffix else "")
    ensures param.FloatView? && value <= 999.0 ==>
              r == format(value, 0) + (if suffix != [] then " " + suffix else "")
    ensures param.OtherView? ==> r == (if suffix != [] then " " + suffix else "")
  {
    if param.ChoiceView? then param.currentChoiceName
    else
      var k := KiloTruncated(value);
      var addK := param.FloatView? && k.truncated;
      var str := if param.FloatView? then format(k.value, if k.truncated then 2 else 0) else "";
      if suffix != [] then str + " " + (if addK then "k" else "") + suffix else str
  }

  /** Every `.0` occurrence implies a '.', so the cut below is well defined. */
  lemma ContainsPointZeroHasPoint(s: string)
    requires Contains(s, ".0")
    ensures '.' in s
  {
    var i: nat :| i <= |s| && OccursAt(s, ".0", i);
    assert s[i] == s[i..i + 2][0];
  }

  /** RatioSlider::getDisplayString: a choice name containing ".0" is cut at its
      first '.', and ":1" is appended. */
  function RatioDisplayString(currentChoice: string): (r: string)
    ensures EndsWith(r, ":1")
    ensures Contains(currentChoice, ".0") ==>
              var n := |r| - 2;
              n < |currentChoice| && r[..n] == currentChoice[..n] && currentChoice[n] == '.' && '.' !in r[..n]
    ensures !Contains(currentChoice, ".0") ==> r == currentChoice + ":1"
  {
    var c := if Contains(currentChoice, ".0") then
               ContainsPointZeroHasPoint(currentChoice);
               currentChoice[..IndexOf(currentChoice, '.')]
             else currentChoice;
    var r := c + ":1";
    assert r[..|c|] == c;
    r
  }

  /** The ratio rewrite on a name printed with one decimal: a whole ratio loses its
      ".0", any other keeps its decimal. */
  lemma RatioDisplayOfOneDecimal(tenths: nat)
    ensures RatioDisplayString(OneDecimal(tenths)) ==
              (if tenths % 10 == 0 then NatToString(tenths / 10) else OneDecimal(tenths)) + ":1"
  {
    var s := OneDecimal(tenths);
    var ip := NatToString(tenths / 10);
    ContainsPointZeroOfOneDecimal(tenths);
    OneDecimalShape(tenths);
    if tenths % 10 == 0 {
      var r := RatioDisplayString(s);
      var n := |r| - 2;
      assert s[n] == '.';
      forall j | 0 <= j < |ip| ensures s[j] != '.' {
        assert s[j] == s[..|ip|][j] == ip[j];
      }
      assert n >= |ip|;
      assert '.' !in r[..n];
      assert n == |ip|;
      assert r == r[..n] + ":1";
      assert r[..n] == s[..n] == ip;
    }
  }

  /** "4.0" shows as "4:1". */
  lemma RatioDisplayFour()
    ensures RatioDisplayString("4.0") == "4:1"
  {
    var s := OneDecimal(40);
    assert s == "4.0" by { assert NatToString(4) == "4"; assert DigitChar(0) == '0'; }
    RatioDisplayOfOneDecimal(40);
    assert NatToString(4) == "4";
  }

  /** "100.0" shows as "100:1". */
  lemma RatioDisplayHundred()
    ensures RatioDisplayString("100.0") == "100:1"
  {
    var s := OneDecimal(1000);
    assert NatToString(100) == "100" by {
      assert NatToString(1) == "1";
      assert NatToString(10) == NatToString(1) + [DigitChar(0)];
    }
    assert s == "100.0";
    RatioDisplayOfOneDecimal(1000);
  }

  /** "1.5" is kept whole and shows as "1.5:1". */
  lemma RatioDisplayOneAndAHalf()
    ensures RatioDisplayString("1.5") == "1.5:1"
  {
    var s := OneDecimal(15);
    assert s == "1.5" by { assert NatToString(1) == "1"; assert DigitChar(5) == '5'; }
    RatioDisplayOfOneDecimal(15);
  }

  /** getSliderBounds for a slider of the given size. The text band (21 px) is
      taken off the top; the dial is a square whose side is the smaller of what is
      left, minus 21 again, centred horizontally and placed at the top of what is
      left. */
  function SliderBounds(width: nat, height: nat): (r: Rect)
    ensures r.w == r.h
    ensures height >= LabelHeight ==> r.y == LabelHeight && r.w == Min(width, height - LabelHeight) - LabelHeight
    ensures height < LabelHeight ==> r.y == height && r.w == -LabelHeight
    ensures r.w >= 0 ==> -1 <= 2 * r.x + r.w - width <= 1
    ensures r.w >= 0 ==> r.Within(Rect(0, 0, width, height))
  {
    var bounds := Rect(0, 0, width, height).RemoveFromTop(LabelHeight);
    var size := Min(bounds.w, bounds.h) - LabelHeight;
    Rect(0, 0, size, size).WithCentre(bounds.CentreX(), 0).WithY(bounds.y)
  }

  /** The parameter a slider points at and the labels drawn around its dial. */
  datatype Binding = Binding(param: ParamRef, labels: seq<LabelPos>)

  /** A rotary slider with labels. `param` is the parameter the display string is
      taken from; `labels` are the texts drawn around the dial. */
  class RotarySliderWithLabels {
    var param: ParamRef
    const suffix: string
    const title: string
    var labels: seq<LabelPos>
    var enabled: bool

    constructor (rap: ParamRef, unitSuffix: string, name: string)
      ensures param == rap && suffix == unitSuffix && title == name
      ensures labels == [] && enabled
    {
      param := rap;
      suffix := unitSuffix;
      title := name;
      labels := [];
      enabled := true;
    }

    function Shown(): Binding
      reads this`param, this`labels
    {
      Binding(param, labels)
    }

    /** changeParam: points the slider at another parameter; nothing else changes
        (the repaint it asks for is not modelled). */
    method ChangeParam(p: ParamRef)
      modifies this`param
      ensures param == p
    {
      param := p;
    }
  }
}
