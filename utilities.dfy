/** Source/Utilities.h and Source/Utilities.cpp: kilo truncation of a value, the
    min/max labels of a parameter range, and the inner rectangle of the module
    background. Printing a number is left abstract: `Show` stands for JUCE's
    `String << float`. */
module Utilities {
  import opened Geometry
  import opened Text

  /** The analyser's frequency span and decibel floor and ceiling, and the lowest
      compressor threshold. */
  const MinFrequency: real := 20.0
  const MaxFrequency: real := 20000.0
  const NegativeInfinity: real := -72.0
  const MaxDecibels: real := 12.0
  const MinThreshold: real := -60.0

  /** How `str << value` prints a float; JUCE's rules are not part of this model. */
  type Show = real -> string

  /** juce::NormalisableRange<float>: start, end, step size and skew. */
  datatype Range = Range(start: real, end: real, interval: real, skew: real)

  /** RotarySliderWithLabels::LabelPos: a label and its normalised position on the dial. */
  datatype LabelPos = LabelPos(pos: real, text: string)

  /** The value and the flag that truncateKiloValue leaves behind. */
  datatype Kilo = Kilo(value: real, truncated: bool)

  /** truncateKiloValue as a function of the value it is given. */
  function KiloTruncated(v: real): (r: Kilo)
    ensures r.truncated <==> v > 999.0
    ensures r.truncated ==> r.value * 1000.0 == v
    ensures !r.truncated ==> r.value == v
  {
    if v > 999.0 then Kilo(v / 1000.0, true) else Kilo(v, false)
  }

  /** truncateKiloValue: divides `value` by 1000 in place when it exceeds 999 and
      says whether it did. */
  method TruncateKiloValue(value: real) returns (newValue: real, truncated: bool)
    ensures Kilo(newValue, truncated) == KiloTruncated(value)
    ensures truncated <==> value > 999.0
  {
    newValue := value;
    truncated := false;
    if newValue > 999.0 {
      newValue := newValue / 1000.0;
      truncated := true;
    }
  }

  /** The boundary: 999 stays as it is, 1000 becomes 1 with the flag set. */
  lemma KiloBoundary()
    ensures KiloTruncated(999.0) == Kilo(999.0, false)
    ensures KiloTruncated(1000.0) == Kilo(1.0, true)
  {
  }

  /** Truncating the result again truncates exactly when the original exceeded
      999000; in particular a second call on anything up to 999000 reports false. */
  lemma KiloTwice(v: real)
    ensures KiloTruncated(KiloTruncated(v).value).truncated <==> v > 999000.0
  {
  }

  /** getValString: the range start (when `getLow`) or end, kilo-truncated, printed,
      then "k" when it was truncated, then the suffix with no space. */
  function ValString(range: Range, getLow: bool, suffix: string, show: Show): (r: string)
  {
    var val := if getLow then range.start else range.end;
    var k := KiloTruncated(val);
    show(k.value) + (if k.truncated then "k" else "") + suffix
  }

  /** The label text ends with the suffix; a bound above 999 is printed divided
      by 1000 and followed by "k", any other bound is printed as it is. */
  lemma ValStringShape(range: Range, getLow: bool, suffix: string, show: Show)
    ensures var r := ValString(range, getLow, suffix, show);
            var b := if getLow then range.start else range.end;
            && EndsWith(r, suffix)
            && (b > 999.0 ==> r == show(b / 1000.0) + "k" + suffix)
            && (b <= 999.0 ==> r == show(b) + suffix)
  {
    var r := ValString(range, getLow, suffix, show);
    assert r[|r| - |suffix|..] == suffix;
  }

  /** A 20 kHz upper bound renders as the printed 20 followed by "kHz". */
  lemma ValStringTwentyKilohertz(show: Show)
    ensures ValString(Range(20.0, 20000.0, 1.0, 1.0), false, "Hz", show) == show(20.0) + "kHz"
  {
  }

  /** addLabelPairs: the range start label at position 0 and the end label at 1,
      replacing whatever labels were there. */
  function LabelPairs(range: Range, suffix: string, show: Show): seq<LabelPos>
  {
    [LabelPos(0.0, ValString(range, true, suffix, show)),
     LabelPos(1.0, ValString(range, false, suffix, show))]
  }

  /** The labels addLabelPairs leaves behind, whatever was there before: exactly
      two, the low bound's text at position 0 and the high bound's at 1, both
      ending with the suffix. */
  lemma LabelPairsShape(range: Range, suffix: string, show: Show)
    ensures var l := LabelPairs(range, suffix, show);
            && |l| == 2
            && l[0] == LabelPos(0.0, ValString(range, true, suffix, show))
            && l[1] == LabelPos(1.0, ValString(range, false, suffix, show))
            && EndsWith(l[0].text, suffix) && EndsWith(l[1].text, suffix)
  {
    ValStringShape(range, true, suffix, show);
    ValStringShape(range, false, suffix, show);
  }

  /** The rectangle drawModuleBackground returns: its argument reduced by 3 on
      every side (the drawing itself is not modelled). */
  function ModuleBackgroundArea(bounds: Rect): (r: Rect)
    ensures r.NonNegative()
    ensures r.x == bounds.x + 3 && r.y == bounds.y + 3
    ensures bounds.w >= 6 ==> r.w == bounds.w - 6 && r.Right() == bounds.Right() - 3
    ensures bounds.h >= 6 ==> r.h == bounds.h - 6 && r.Bottom() == bounds.Bottom() - 3
    ensures bounds.w >= 6 && bounds.h >= 6 ==> r.Within(bounds)
    ensures bounds.w < 6 ==> r.w == 0
    ensures bounds.h < 6 ==> r.h == 0
  {
    bounds.Reduced(3, 3)
  }
}
