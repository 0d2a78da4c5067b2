/**
 * The arithmetic of a block's timeline (vgridjs/src/timeline_track.tsx; the
 * older src/timeline_track.tsx has the same code): the window `[start, end]`
 * of video time the timeline shows, the mapping between times and pixels,
 * the zoom and pan buttons, the navigator slider and shift-dragging.
 *
 * Times are real numbers of seconds; the video lasts `duration` seconds
 * (`num_frames / fps`). Floating-point rounding is not modelled.
 */
module Viewport {
  import opened Js
  import Text

  /** The bounds `[start, end]` of the visible part of the video. */
  datatype Window = Window(start: real, end: real)
  {
    function Span(): real { end - start }

    /** The window lies inside the video. */
    predicate Within(duration: real)
    {
      0.0 <= start <= end <= duration
    }
  }

  /** `time_to_x(t, bounds, width)`: the pixel offset of time `t`. */
  function TimeToX(t: real, w: Window, width: real): real
    requires w.Span() != 0.0
  {
    (t - w.start) / w.Span() * width
  }

  /** `x_to_time(x, bounds, width)`: the time shown at pixel offset `x`. */
  function XToTime(x: real, w: Window, width: real): real
    requires width != 0.0
  {
    x / width * w.Span() + w.start
  }

  /** The two mappings are inverse to each other: the window's start is at
      pixel 0, its end at pixel `width`, and a time maps back to itself. */
  lemma PixelRoundTrip(t: real, x: real, w: Window, width: real)
    requires w.Span() != 0.0 && width != 0.0
    ensures XToTime(TimeToX(t, w, width), w, width) == t
    ensures TimeToX(XToTime(x, w, width), w, width) == x
    ensures TimeToX(w.start, w, width) == 0.0 && TimeToX(w.end, w, width) == width
  {
    var s := w.Span();
    calc {
      XToTime(TimeToX(t, w, width), w, width);
      ((t - w.start) / s * width) / width * s + w.start;
      { assert ((t - w.start) / s * width) / width == (t - w.start) / s; }
      (t - w.start) / s * s + w.start;
      t;
    }
    calc {
      TimeToX(XToTime(x, w, width), w, width);
      ((x / width * s + w.start) - w.start) / s * width;
      (x / width * s) / s * width;
      { assert (x / width * s) / s == x / width; }
      x / width * width;
      x;
    }
  }

  /** `zoom_in`: half the span, centred on the current time when the time is
      in the window (snapping to whichever edge the half-window would cross),
      otherwise a window inset by an eighth of the span on each side. */
  function ZoomIn(w: Window, time: real): (r: Window)
    ensures w.start <= time <= w.end ==>
              r.Span() == w.Span() / 2.0 && w.start <= r.start && r.end <= w.end
    ensures w.start <= time <= w.end && w.start < time - w.Span() / 4.0 && time + w.Span() / 4.0 < w.end ==>
              r.start + r.end == 2.0 * time
    ensures !(w.start <= time <= w.end) ==>
              r.Span() == 3.0 / 4.0 * w.Span() && r.start + r.end == w.start + w.end
  {
    var newSpan := w.Span() / 2.0;
    if w.start <= time && time <= w.end then
      if time - newSpan / 2.0 > w.start then
        var newStart := time - newSpan / 2.0;
        if newStart + newSpan < w.end then Window(newStart, newStart + newSpan)
        else Window(w.end - newSpan, w.end)
      else Window(w.start, w.start + newSpan)
    else Window(w.start + newSpan / 4.0, w.end - newSpan / 4.0)
  }

  /** `zoom_out`: twice the span around the same middle while it fits in the
      video. A window that would start before 0 becomes `[0, 2 * span]`; one
      that would end past the video keeps its new start and has its end cut
      to the video's end, so it is shorter than twice the span. The whole
      video once twice the span is longer than it. */
  function ZoomOut(w: Window, duration: real): (r: Window)
    ensures 2.0 * w.Span() > duration ==> r == Window(0.0, duration)
    ensures w.Within(duration) ==> r.Within(duration)
    ensures 2.0 * w.Span() <= duration && w.start - w.Span() / 2.0 < 0.0 ==> r == Window(0.0, 2.0 * w.Span())
    ensures 2.0 * w.Span() <= duration && w.start - w.Span() / 2.0 >= 0.0 && w.end + w.Span() / 2.0 <= duration ==>
              r.Span() == 2.0 * w.Span() && r.start + r.end == w.start + w.end
  {
    var newSpan := (w.end - w.start) * 2.0;
    if newSpan <= duration then
      if w.start - newSpan / 4.0 >= 0.0 then
        var newStart := w.start - newSpan / 4.0;
        if newStart + newSpan <= duration then Window(newStart, newStart + newSpan)
        else Window(newStart, duration)
      else Window(0.0, newSpan)
    else Window(0.0, duration)
  }

  /** Zooming in on a time in the middle of the window and then out again
      gives a window of the old span, centred on that time unless it hits the
      start of the video. */
  lemma ZoomInThenOut(w: Window, time: real, duration: real)
    requires w.Within(duration)
    requires w.start < time - w.Span() / 4.0 && time + w.Span() / 4.0 < w.end
    requires time + w.Span() / 2.0 <= duration
    ensures ZoomOut(ZoomIn(w, time), duration).Span() == w.Span()
    ensures time - w.Span() / 2.0 >= 0.0 ==> ZoomOut(ZoomIn(w, time), duration) == Window(time - w.Span() / 2.0, time + w.Span() / 2.0)
  {
  }

  /** `shift_earlier`: half a span back, or to the very start; nothing when the
      window already starts at 0. */
  function ShiftEarlier(w: Window): (r: Window)
    ensures r.Span() == w.Span()
    ensures w.start <= 0.0 ==> r == w
    ensures w.start > 0.0 ==> r.start >= 0.0
    ensures w.start > 0.0 && w.Span() > 0.0 ==> r.start < w.start
    ensures w.start > 0.0 && w.start - w.Span() / 2.0 <= 0.0 ==> r == Window(0.0, w.Span())
  {
    if w.start > 0.0 then
      var span := w.end - w.start;
      var shift := span / 2.0;
      if w.start - shift > 0.0 then Window(w.start - shift, w.end - shift)
      else Window(0.0, span)
    else w
  }

  /** `shift_later`: half a span on, or to the very end; nothing when the
      window already reaches the end of the video. */
  function ShiftLater(w: Window, duration: real): (r: Window)
    ensures r.Span() == w.Span()
    ensures w.end >= duration ==> r == w
    ensures w.end < duration ==> r.end <= duration
    ensures w.end < duration && w.Span() > 0.0 ==> r.end > w.end
    ensures w.end < duration && w.end + w.Span() / 2.0 >= duration ==> r == Window(duration - w.Span(), duration)
  {
    if w.end < duration then
      var span := w.end - w.start;
      var shift := span / 2.0;
      if w.end + shift < duration then Window(w.start + shift, w.end + shift)
      else Window(duration - span, duration)
    else w
  }

  /** Away from the edges, one step earlier and one step later cancel out. */
  lemma ShiftBackAndForth(w: Window, duration: real)
    requires 0.0 <= w.Span() && w.start - w.Span() / 2.0 > 0.0 && w.end < duration
    ensures ShiftLater(ShiftEarlier(w), duration) == w
  {
  }

  /** `TimelineNavigator.handleChange`: a slider at `value` of `width` pixels
      centres a window of the same span on the corresponding video time,
      pushed back inside the video when it would stick out. */
  function Navigate(value: real, width: real, duration: real, span: real): (r: Window)
    requires width != 0.0
    ensures r.Span() == span
    ensures 0.0 <= span <= duration ==> r.Within(duration)
    ensures var centre := duration * (value / width);
            0.0 <= centre - span / 2.0 && centre + span / 2.0 <= duration ==> r.start + r.end == 2.0 * centre
  {
    var centre := duration * (value / width);
    var start := centre - span / 2.0;
    var end := centre + span / 2.0;
    if start < 0.0 then Window(0.0, end - start)
    else if end > duration then Window(start - (end - duration), duration)
    else Window(start, end)
  }

  /** A shift-drag started at pixel `clickX` with the window `clicked`. */
  datatype Drag = Drag(dragging: bool, clickX: real, clickY: real, clickTime: real, clickStart: real, clickEnd: real)

  const NoDrag := Drag(false, 0.0, 0.0, 0.0, 0.0, 0.0)

  /** `onMouseMove` while dragging: the window as clicked, moved against the
      mouse by the time the mouse moved over; `None` when that window would
      start before 0 or not end before the end of the video, which leaves the
      window as it is. */
  function DragTo(d: Drag, x: real, current: Window, width: real, duration: real): (r: Option<Window>)
    requires width != 0.0
    ensures r.Some? ==> 0.0 <= r.value.start && r.value.end < duration
    ensures r.Some? ==> r.value.Span() == d.clickEnd - d.clickStart
    ensures r.Some? ==> r.value.start == d.clickStart - (x - d.clickX) / width * current.Span()
  {
    var delta := (x - d.clickX) / width * (current.end - current.start);
    var newStart := d.clickStart - delta;
    var newEnd := d.clickEnd - delta;
    if 0.0 <= newStart && newEnd < duration then Some(Window(newStart, newEnd)) else None
  }

  /** Dragging back to where the drag started gives the window of the click. */
  lemma DragBackToClick(d: Drag, current: Window, width: real, duration: real)
    requires width != 0.0 && 0.0 <= d.clickStart && d.clickEnd < duration
    ensures DragTo(d, d.clickX, current, width, duration) == Some(Window(d.clickStart, d.clickEnd))
  {
  }

  /** The hours, minutes and seconds a tick shows for time `t`. */
  function TickParts(t: real): (hms: (int, int, int))
    ensures 0 <= hms.1 < 60 && 0 <= hms.2 < 60
    ensures 3600 * hms.0 + 60 * hms.1 + hms.2 == t.Floor
  {
    var hours := (t / 3600.0).Floor;
    var x := t / 3600.0 - hours as real;
    var minutes := (60.0 * x).Floor;
    var y := 60.0 * x - minutes as real;
    var seconds := (60.0 * y).Floor;
    var z := 60.0 * y - seconds as real;
    assert 0.0 <= x < 1.0 && 0.0 <= y < 1.0 && 0.0 <= z < 1.0;
    assert t == (3600 * hours + 60 * minutes + seconds) as real + z;
    (hours, minutes, seconds)
  }

  /** The `hh:mm:ss` label of a tick. */
  function TickLabel(t: real): string
  {
    var hms := TickParts(t);
    Clock(Text.PadStart2(Text.IntToString(hms.0)), Text.PadStart2(Text.IntToString(hms.1)),
          Text.PadStart2(Text.IntToString(hms.2)))
  }

  function Clock(h: string, m: string, s: string): string
  {
    h + ":" + m + ":" + s
  }

  /** Within the first hundred hours a label is two digits each of hours,
      minutes and seconds, separated by colons. */
  lemma TickLabelShape(t: real)
    requires 0.0 <= t < 360000.0
    ensures var s := TickLabel(t);
            |s| == 8 && s[2] == ':' && s[5] == ':'
  {
    var hms := TickParts(t);
    assert 0 <= hms.0 < 100 by {
      assert 3600 * hms.0 <= t.Floor < 360000;
    }
    var h, m, s := Text.PadStart2(Text.IntToString(hms.0)), Text.PadStart2(Text.IntToString(hms.1)),
                   Text.PadStart2(Text.IntToString(hms.2));
    TwoDigits(hms.0);
    TwoDigits(hms.1);
    TwoDigits(hms.2);
    ClockShape(h, m, s);
  }

  lemma ClockShape(h: string, m: string, s: string)
    requires |h| == 2 && |m| == 2 && |s| == 2
    ensures |Clock(h, m, s)| == 8 && Clock(h, m, s)[2] == ':' && Clock(h, m, s)[5] == ':'
  {
  }

  lemma TwoDigits(n: int)
    requires 0 <= n < 100
    ensures |Text.PadStart2(Text.IntToString(n))| == 2
  {
    if n >= 10 {
      assert NatToString(n) == NatToString(n / 10) + [DigitChar(n % 10)];
    }
  }
}
