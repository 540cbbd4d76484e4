/**
 * The page indicator: a bar of `indicatorWidth` drawn at `indicatorLeft`, one
 * slot per page. Widths are exact reals here, where the view uses floats.
 */
module IndicatorWidget {

  /** The mode part of an Android `MeasureSpec`. */
  datatype MeasureMode = Unspecified | AtMost | Exactly

  /** The Java narrowing cast `(int) x` of a finite float: truncate toward zero. */
  function TruncToInt(x: real): (r: int)
    ensures 0.0 <= x ==> r as real <= x < r as real + 1.0
    ensures x < 0.0 ==> r as real - 1.0 < x <= r as real
  {
    if 0.0 <= x then x.Floor else -((-x).Floor)
  }

  /** The width `onMeasure` reports, as written: the unscaled `count * width` in every mode. */
  function MeasuredWidth(count: int, width: real, mode: MeasureMode, specSize: int): int
  {
    TruncToInt(count as real * width)
  }

  /** The width `onMeasure` evidently means to report: the spec size when the bar row does not fit. */
  function IntendedMeasuredWidth(count: int, width: real, mode: MeasureMode, specSize: int): int
  {
    if mode != Unspecified && count as real * width > specSize as real then specSize
    else TruncToInt(count as real * width)
  }

  /** As written, five 30-pixel slots report 150 pixels against an exact spec of 100. */
  lemma MeasuredWidthExceedsSpec()
    ensures MeasuredWidth(5, 30.0, Exactly, 100) == 150
    ensures MeasuredWidth(5, 30.0, AtMost, 100) > 100
  {
    assert TruncToInt(150.0) == 150;
  }

  /**
   * The intended width never exceeds an AT_MOST or EXACTLY spec, and it agrees
   * with the width as written whenever the row fits or the mode is unconstrained.
   */
  lemma IntendedMeasuredWidthFits(count: int, width: real, mode: MeasureMode, specSize: int)
    ensures mode != Unspecified ==> IntendedMeasuredWidth(count, width, mode, specSize) <= specSize
    ensures mode == Unspecified || count as real * width <= specSize as real ==>
      IntendedMeasuredWidth(count, width, mode, specSize) == MeasuredWidth(count, width, mode, specSize)
  {
  }

  class IndicatorView {
    var count: int
    var currentPosition: int
    var indicatorWidth: real
    var indicatorLeft: real
    /** Where the running slide animation ends: the last `moveTo` target. */
    var targetLeft: real
    var measuredWidth: int

    /** Construction from XML: `count`, `indicatorWidth` and `defaultPosition` are the attribute values. */
    constructor (count: int, widthAttr: real, defaultPosition: int)
      ensures this.count == count && currentPosition == defaultPosition
      ensures indicatorWidth == TruncToInt(widthAttr) as real
      ensures indicatorLeft == 0.0 && targetLeft == 0.0
    {
      this.count := count;
      indicatorWidth := TruncToInt(widthAttr) as real;
      currentPosition := defaultPosition;
      indicatorLeft := 0.0;
      targetLeft := 0.0;
      measuredWidth := 0;
    }

    /** `setCount`: replace the count; the position is left as it is, even beyond the new count. */
    method SetCount(c: int)
      modifies this`count
      ensures count == c
    {
      count := c;
    }

    /**
     * `moveTo`: a position below 0 or above the count throws (the count itself
     * is accepted); otherwise the bar slides toward `pos * indicatorWidth` and
     * the position becomes `pos`.
     */
    method MoveTo(pos: int) returns (ok: bool)
      modifies this`currentPosition, this`targetLeft
      ensures ok <==> 0 <= pos <= count
      ensures ok ==> currentPosition == pos && targetLeft == pos as real * indicatorWidth
      ensures !ok ==> currentPosition == old(currentPosition) && targetLeft == old(targetLeft)
    {
      if pos > count || pos < 0 {
        return false;
      }
      targetLeft := pos as real * indicatorWidth;
      currentPosition := pos;
      return true;
    }

    /** `onLayout`: put the bar at the current position's slot. */
    method OnLayout()
      modifies this`indicatorLeft
      ensures indicatorLeft == currentPosition as real * indicatorWidth
    {
      indicatorLeft := currentPosition as real * indicatorWidth;
    }

    /**
     * `onMeasure`: report `count * indicatorWidth`, computed before any rescale,
     * in every mode; under AT_MOST or EXACTLY, when that exceeds the spec size,
     * shrink the bar so that `count` bars fill the spec size exactly.
     */
    method OnMeasure(mode: MeasureMode, specSize: int)
      requires 0 <= specSize
      modifies this`indicatorWidth, this`measuredWidth
      ensures measuredWidth == MeasuredWidth(count, old(indicatorWidth), mode, specSize)
      ensures measuredWidth == TruncToInt(count as real * old(indicatorWidth))
      ensures mode != Unspecified && count as real * old(indicatorWidth) > specSize as real ==>
        count != 0 && count as real * indicatorWidth == specSize as real
      ensures !(mode != Unspecified && count as real * old(indicatorWidth) > specSize as real) ==>
        indicatorWidth == old(indicatorWidth)
    {
      var result: real := 0.0;
      var defaultWidth := count as real * indicatorWidth;
      match mode {
        case Unspecified =>
          result := defaultWidth;
        case AtMost | Exactly =>
          if defaultWidth > specSize as real {
            result := specSize as real;
            indicatorWidth := result / count as real;
          }
          result := defaultWidth;
      }
      measuredWidth := TruncToInt(result);
    }
  }
}
