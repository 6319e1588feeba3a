/**
 * The mapping between the 0..100 position slider and nanosecond times in
 * examples/video-player.py: the slider label (scale_format_value_cb), the
 * seek target of a drag (scale_value_changed_cb) and the slider value set by
 * the periodic refresh (update_scale_cb). Slider values are `real`; times
 * are integer nanoseconds.
 */
module ScaleMapping {
  import opened Wrappers
  import opened Gst
  import opened TimeFormat

  /** Python's int() of a float: truncation toward zero. */
  function Truncate(x: real): (n: int)
    ensures x >= 0.0 ==> n >= 0 && n as real <= x < n as real + 1.0
    ensures x < 0.0 ==> n <= 0 && n as real - 1.0 < x <= n as real
  {
    if x >= 0.0 then x.Floor else -((-x).Floor)
  }

  /** The time a slider value stands for in the label: zero when the
      duration is unknown, otherwise value * duration / 100 (whole
      nanoseconds, rounded down). */
  function PercentToTime(value: real, duration: int): (t: int)
    ensures duration == CLOCK_TIME_NONE ==> t == 0
    ensures duration != CLOCK_TIME_NONE ==>
      t as real <= value * duration as real / 100.0 < t as real + 1.0
  {
    if duration == CLOCK_TIME_NONE then 0 else (value * duration as real / 100.0).Floor
  }

  /** The slider value for a position (`position * 100.0 / duration`). */
  function TimeToPercent(position: int, duration: int): (r: real)
    requires duration != 0
    ensures r * duration as real == position as real * 100.0
  {
    position as real * 100.0 / duration as real
  }

  /** Player.scale_format_value_cb: the label drawn beside the slider. */
  function ScaleLabel(value: real, duration: int): (s: string)
    ensures duration == CLOCK_TIME_NONE ==> s == "00:00"
  {
    FormatTimeExamples();
    FormatTime(PercentToTime(value, duration))
  }

  /** The seek target of a drag (`int(value * duration / 100)`); unlike the
      label, it does not treat an unknown duration specially. */
  function DragTarget(value: real, duration: int): (t: int)
    ensures 0.0 <= value && 0 <= duration < CLOCK_TIME_NONE ==> t == PercentToTime(value, duration)
    ensures 1.0 <= value && duration == CLOCK_TIME_NONE ==> t >= CLOCK_TIME_NONE / 100
  {
    var x := value * duration as real / 100.0;
    assert 0.0 <= value && 0 <= duration ==> x >= 0.0 by {
      if 0.0 <= value && 0 <= duration {
        ProductNonNegative(value, duration as real);
      }
    }
    assert 1.0 <= value && duration == CLOCK_TIME_NONE ==> x >= duration as real / 100.0 by {
      if 1.0 <= value && duration == CLOCK_TIME_NONE {
        ScaleUp(value, duration as real);
      }
    }
    Truncate(x)
  }

  lemma ProductNonNegative(a: real, b: real)
    requires 0.0 <= a && 0.0 <= b
    ensures 0.0 <= a * b
  {
  }

  lemma ScaleUp(a: real, b: real)
    requires 1.0 <= a && 0.0 <= b
    ensures a * b / 100.0 >= b / 100.0
  {
    assert a * b == b + (a - 1.0) * b;
    ProductNonNegative(a - 1.0, b);
  }

  /** A slider value in [0, 100] stands for a time within [0, duration]. */
  lemma PercentToTimeWithinDuration(value: real, duration: int)
    requires 0.0 <= value <= 100.0
    requires 0 <= duration < CLOCK_TIME_NONE
    ensures 0 <= PercentToTime(value, duration) <= duration
  {
    var d := duration as real;
    var x := value * d / 100.0;
    ProductNonNegative(value, d);
    ProductNonNegative(100.0 - value, d);
    assert (100.0 - value) * d == 100.0 * d - value * d;
    assert 0.0 <= x <= d;
  }

  /** A position within [0, duration] puts the slider within [0, 100]. */
  lemma TimeToPercentWithinScale(position: int, duration: int)
    requires 0 <= position <= duration && duration > 0
    ensures 0.0 <= TimeToPercent(position, duration) <= 100.0
  {
    var p, d := position as real, duration as real;
    assert p * 100.0 / d <= 100.0 by {
      assert p * 100.0 <= d * 100.0;
      DivideOrdered(p * 100.0, d * 100.0, d);
    }
  }

  /** Label time and slider value are inverse up to the rounding of whole
      nanoseconds: mapping a slider value to its time and back lands at most
      100 / duration below the value and never above it. */
  lemma PercentRoundTrip(value: real, duration: int)
    requires 0 < duration < CLOCK_TIME_NONE
    ensures var back := TimeToPercent(PercentToTime(value, duration), duration);
      back <= value < back + 100.0 / duration as real
  {
    var t, d := PercentToTime(value, duration) as real, duration as real;
    var x := value * d / 100.0;
    assert t <= x < t + 1.0;
    assert t * 100.0 / d <= value by {
      assert t * 100.0 <= x * 100.0;
      assert x * 100.0 / d == value;
      DivideOrdered(t * 100.0, x * 100.0, d);
    }
    assert value < t * 100.0 / d + 100.0 / d by {
      assert x * 100.0 < (t + 1.0) * 100.0;
      DivideOrdered(x * 100.0, (t + 1.0) * 100.0, d);
      assert ((t + 1.0) * 100.0) / d == t * 100.0 / d + 100.0 / d;
    }
  }

  /** The label never shows more than the duration: for a slider value in
      [0, 100] the label decodes to at most the whole seconds of the duration. */
  lemma ScaleLabelWithinDuration(value: real, duration: int)
    requires 0.0 <= value <= 100.0
    requires 0 <= duration < CLOCK_TIME_NONE
    ensures ParseClock(ScaleLabel(value, duration)).Some?
    ensures var (m, s) := ParseClock(ScaleLabel(value, duration)).value;
      m * 60 + s <= duration / SECOND
  {
    var t := PercentToTime(value, duration);
    PercentToTimeWithinDuration(value, duration);
    FormatTimeDecodes(t);
    DivMonotone(t, duration, SECOND);
  }

  lemma DivideOrdered(a: real, b: real, d: real)
    requires a <= b && d > 0.0
    ensures a / d <= b / d
    ensures a < b ==> a / d < b / d
  {
    assert (b / d - a / d) * d == b - a;
  }

  lemma DivMonotone(a: int, b: int, d: int)
    requires 0 <= a <= b && d > 0
    ensures a / d <= b / d
  {
    var qa, qb := a / d, b / d;
    assert qa * d <= a && b < qb * d + d;
    if qa > qb {
      MulMonotone(qb + 1, qa, d);
    }
  }

  lemma MulMonotone(x: int, y: int, d: int)
    requires x <= y && d > 0
    ensures x * d <= y * d
  {
    assert y * d - x * d == (y - x) * d;
  }

  /** With an unknown duration the label reads "00:00" while a drag to the
      same slider value targets a time far beyond any real one. Below the
      middle of the slider that target is still a gint64, so the seek is
      issued; from just past the middle it is not. */
  lemma UnknownDurationLabelAndDragDisagree(value: real)
    requires 1.0 <= value
    ensures ScaleLabel(value, CLOCK_TIME_NONE) == "00:00"
    ensures DragTarget(value, CLOCK_TIME_NONE) >= CLOCK_TIME_NONE / 100
    ensures value < 50.0 ==> FitsInt64(DragTarget(value, CLOCK_TIME_NONE))
    ensures value >= 50.001 ==> !FitsInt64(DragTarget(value, CLOCK_TIME_NONE))
  {
  }
}
