/** Source/GUI/SpectrumAnalyzer.cpp: the analyser's grid (frequencies and gains),
    the text of its axis labels, the gain-reduction values it is told about, and
    the rectangles it draws in. Drawing, the logarithmic x mapping and the FFT
    paths are not part of this model. */
module SpectrumAnalyzer {
  import opened Geometry
  import opened Utilities

  /** getFrequencies: the vertical grid lines, in Hz. */
  function Frequencies(): (r: seq<real>)
    ensures |r| == 10
    ensures r[0] == MinFrequency && r[|r| - 1] == MaxFrequency
    ensures forall i, j :: 0 <= i < j < |r| ==> r[i] < r[j]
  {
    [20.0, 50.0, 100.0, 200.0, 500.0, 1000.0, 2000.0, 5000.0, 10000.0, 20000.0]
  }

  /** getGains: from NEGATIVE_INFINITY up to and including MAX_DECIBELS, in steps
      of MAX_DECIBELS. */
  method GetGains() returns (values: seq<real>)
    ensures |values| == 8
    ensures forall i :: 0 <= i < |values| ==> values[i] == NegativeInfinity + MaxDecibels * i as real
    ensures forall i, j :: 0 <= i < j < |values| ==> values[i] < values[j]
    ensures values[0] == NegativeInfinity && values[|values| - 1] == MaxDecibels
    ensures 0.0 in values
  {
    values := [];
    var increment := MaxDecibels;
    var db := NegativeInfinity;
    while db <= MaxDecibels
      invariant |values| <= 8
      invariant db == NegativeInfinity + increment * |values| as real
      invariant forall i :: 0 <= i < |values| ==> values[i] == NegativeInfinity + MaxDecibels * i as real
      decreases 8 - |values|
    {
      values := values + [db];
      db := db + increment;
    }
    assert values[6] == 0.0;
  }

  /** The text of a frequency label: kilohertz above 999 Hz, hertz otherwise. */
  function FrequencyLabel(f: real, show: Show): (r: string)
    ensures f > 999.0 ==> r == show(f / 1000.0) + "kHz"
    ensures f <= 999.0 ==> r == show(f) + "Hz"
  {
    var addK := f > 999.0;
    var v := if addK then f / 1000.0 else f;
    show(v) + (if addK then "k" else "") + "Hz"
  }

  /** The frequency labels follow the same rule as a range label: a frequency
      label is the getValString text of a range starting at that frequency. */
  lemma FrequencyLabelIsValString(f: real, show: Show)
    ensures FrequencyLabel(f, show) == ValString(Range(f, MaxFrequency, 1.0, 1.0), true, "Hz", show)
  {
  }

  /** On the grid, the first five frequencies are labelled in Hz and the remaining
      five in kHz. */
  lemma {:induction false} FrequencyGridLabels(show: Show)
    ensures forall i :: 0 <= i < 5 ==> FrequencyLabel(Frequencies()[i], show) == show(Frequencies()[i]) + "Hz"
    ensures forall i :: 5 <= i < 10 ==>
              FrequencyLabel(Frequencies()[i], show) == show(Frequencies()[i] / 1000.0) + "kHz"
  {
    var fs := Frequencies();
    forall i | 0 <= i < 5 ensures fs[i] <= 999.0 {
      assert fs[i] <= fs[4];
    }
    forall i | 5 <= i < 10 ensures fs[i] > 999.0 {
      assert fs[5] <= fs[i];
    }
  }

  /** The text of a gain label: a "+" in front exactly when the gain is positive. */
  function GainLabel(g: real, show: Show): (r: string)
    ensures r == "+" + show(g) <==> g > 0.0
    ensures g <= 0.0 ==> r == show(g)
  {
    var sign := if g > 0.0 then "+" else "";
    assert |"+" + show(g)| != |show(g)|;
    sign + show(g)
  }

  /** Of the eight grid gains, only the top one (+12 dB) carries a "+". */
  lemma GainGridLabels(gains: seq<real>, show: Show)
    requires |gains| == 8
    requires forall i :: 0 <= i < 8 ==> gains[i] == NegativeInfinity + MaxDecibels * i as real
    ensures forall i :: 0 <= i < 7 ==> GainLabel(gains[i], show) == show(gains[i])
    ensures GainLabel(gains[7], show) == "+" + show(12.0)
  {
  }

  /** getRenderArea: 12 pixels off the top, 2 off the bottom and 20 off each side,
      none of them more than what is there. */
  function RenderArea(bounds: Rect): (r: Rect)
    requires bounds.NonNegative()
    ensures r.NonNegative() && r.Within(bounds)
    ensures r.w == Max(0, bounds.w - 40) && r.h == Max(0, bounds.h - 14)
    ensures bounds.w >= 40 ==> r.x == bounds.x + 20 && r.Right() == bounds.Right() - 20
    ensures bounds.h >= 14 ==> r.y == bounds.y + 12 && r.Bottom() == bounds.Bottom() - 2
  {
    bounds.RemoveFromTop(12).RemoveFromBottom(2).RemoveFromLeft(20).RemoveFromRight(20)
  }

  /** getAnalysisArea: the render area with a further 4 pixels off its top and
      its bottom. */
  function AnalysisArea(bounds: Rect): (r: Rect)
    requires bounds.NonNegative()
    ensures r.NonNegative() && r.Within(RenderArea(bounds)) && r.Within(bounds)
    ensures r.w == Max(0, bounds.w - 40) && r.h == Max(0, bounds.h - 22)
    ensures bounds.w >= 40 ==> r.x == bounds.x + 20 && r.Right() == bounds.Right() - 20
    ensures bounds.h >= 22 ==> r.y == bounds.y + 16 && r.Bottom() == bounds.Bottom() - 6
  {
    RenderArea(bounds).RemoveFromTop(4).RemoveFromBottom(4)
  }

  /** The analyser's gain-reduction readings, one per band. */
  class SpectrumAnalyzer {
    var lowBandGR: real
    var midBandGR: real
    var highBandGR: real

    constructor ()
      ensures lowBandGR == 0.0 && midBandGR == 0.0 && highBandGR == 0.0
    {
      lowBandGR, midBandGR, highBandGR := 0.0, 0.0, 0.0;
    }

    /** update: the six values are the low, mid and high bands' input and output
        levels, input first; each band's reading becomes output minus input. */
    method Update(values: seq<real>)
      requires |values| == 6
      modifies this
      ensures lowBandGR == values[1] - values[0]
      ensures midBandGR == values[3] - values[2]
      ensures highBandGR == values[5] - values[4]
    {
      lowBandGR := values[1] - values[0];
      midBandGR := values[3] - values[2];
      highBandGR := values[5] - values[4];
    }
  }
}
