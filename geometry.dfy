/** juce::Rectangle<int> as a value: the position of the top-left corner and the
    size. The operations are those of the JUCE class that the core calls on value
    copies; each returns the rectangle as it is after the call. Integer division
    is C++'s, truncating toward zero. */
module Geometry {

  function Min(a: int, b: int): int { if a <= b then a else b }
  function Max(a: int, b: int): int { if a >= b then a else b }

  /** C++ `a / 2` on int: rounds toward zero. */
  function Half(a: int): (r: int)
    ensures a >= 0 ==> 0 <= 2 * r <= a && a - 2 * r <= 1
    ensures a < 0 ==> a <= 2 * r <= 0 && 2 * r - a <= 1
  {
    if a >= 0 then a / 2 else -((-a) / 2)
  }

  datatype Rect = Rect(x: int, y: int, w: int, h: int) {

    function Right(): int { x + w }
    function Bottom(): int { y + h }
    function CentreX(): int { x + Half(w) }

    predicate NonNegative() { w >= 0 && h >= 0 }

    /** The rectangle lies inside `outer`. */
    predicate Within(outer: Rect)
    {
      outer.x <= x && x + w <= outer.x + outer.w && outer.y <= y && y + h <= outer.y + outer.h
    }

    /** removeFromTop: at most the whole height is taken off the top. */
    function RemoveFromTop(amount: int): Rect
    {
      var t := Min(amount, h);
      Rect(x, y + t, w, h - t)
    }

    /** removeFromBottom */
    function RemoveFromBottom(amount: int): Rect
    {
      Rect(x, y, w, h - Min(amount, h))
    }

    /** removeFromLeft */
    function RemoveFromLeft(amount: int): Rect
    {
      var l := Min(amount, w);
      Rect(x + l, y, w - l, h)
    }

    /** removeFromRight */
    function RemoveFromRight(amount: int): Rect
    {
      Rect(x, y, w - Min(amount, w), h)
    }

    /** reduce(dx, dy): shrinks every side, never below an empty size. */
    function Reduced(dx: int, dy: int): Rect
    {
      Rect(x + dx, y + dy, Max(0, w - 2 * dx), Max(0, h - 2 * dy))
    }

    /** setCentre(cx, cy) */
    function WithCentre(cx: int, cy: int): Rect
    {
      Rect(cx - Half(w), cy - Half(h), w, h)
    }

    /** setY */
    function WithY(newY: int): Rect
    {
      Rect(x, newY, w, h)
    }
  }
}
