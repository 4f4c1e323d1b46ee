/** Conversions between "true" (model) coordinates, in which strokes are stored,
    and screen coordinates, in which pointer events arrive and lines are drawn.
    One view is the pan offset of an axis together with the shared zoom scale.
    The same formulas serve both axes, so each is written once per axis-free
    coordinate. */
module Transform {

  /** Screen coordinate of the true coordinate `t`; for a non-zero scale the true
      coordinate can be read back from it. */
  function ToScreen(t: real, offset: real, scale: real): (r: real)
    ensures scale != 0.0 ==> r / scale - offset == t
  {
    (t + offset) * scale
  }

  /** True coordinate of the screen coordinate `s`; undefined when the scale is zero.
      It is the true point that is shown at `s`. */
  function ToTrue(s: real, offset: real, scale: real): (r: real)
    requires scale != 0.0
    ensures ToScreen(r, offset, scale) == s
  {
    s / scale - offset
  }

  /** Mapping a true coordinate to the screen and back gives it again. */
  lemma TrueOfScreen(t: real, offset: real, scale: real)
    requires scale != 0.0
    ensures ToTrue(ToScreen(t, offset, scale), offset, scale) == t
  {
  }

  /** Mapping a screen coordinate to true space and back gives it again. */
  lemma ScreenOfTrue(s: real, offset: real, scale: real)
    requires scale != 0.0
    ensures ToScreen(ToTrue(s, offset, scale), offset, scale) == s
  {
  }

  /** The offset after a panning move of the cursor from `prev` to `cur`: the
      canvas moves by the cursor's displacement, and only a move pans. */
  function Panned(offset: real, scale: real, prev: real, cur: real): (r: real)
    requires scale != 0.0
    ensures r == offset <==> prev == cur
  {
    offset + (cur - prev) / scale
  }

  /** Panning moves every true point on the screen by exactly the cursor's displacement. */
  lemma PanShiftsScreen(t: real, offset: real, scale: real, prev: real, cur: real)
    requires scale != 0.0
    ensures ToScreen(t, Panned(offset, scale, prev, cur), scale) == ToScreen(t, offset, scale) + (cur - prev)
  {
  }

  /** The true point that was under the cursor before a panning move is under it afterwards:
      the canvas follows the drag. */
  lemma PanKeepsGrabbedPoint(offset: real, scale: real, prev: real, cur: real)
    requires scale != 0.0
    ensures ToTrue(cur, Panned(offset, scale, prev, cur), scale) == ToTrue(prev, offset, scale)
  {
  }

  /** Wheel units that change the scale by a factor of two (in either sign). */
  const WheelSensitivity: real := 500.0

  /** The relative scale change of one wheel event: positive (zoom in) exactly
      when the wheel scrolls up, and 1 (double the scale) at `deltaY == -500`. */
  function ZoomAmount(deltaY: real): (r: real)
    ensures r > 0.0 <==> deltaY < 0.0
    ensures r < 0.0 <==> deltaY > 0.0
    ensures deltaY == -WheelSensitivity ==> r == 1.0
  {
    -deltaY / WheelSensitivity
  }

  /** The scale after a wheel event; it is never clamped. From a positive scale,
      scrolling up zooms in and scrolling down zooms out. */
  function Zoomed(scale: real, deltaY: real): (r: real)
    ensures scale > 0.0 ==> (r > scale <==> deltaY < 0.0)
    ensures scale > 0.0 ==> (r < scale <==> deltaY > 0.0)
  {
    scale * (1.0 + ZoomAmount(deltaY))
  }

  /** The offset after a wheel event at page coordinate `page` in a viewport of size
      `client`; it stays put exactly when the wheel did not move or the pointer is at
      the viewport's origin. */
  function ZoomedOffset(offset: real, deltaY: real, page: real, client: real): (r: real)
    requires client != 0.0
    ensures r == offset <==> deltaY == 0.0 || page == 0.0
  {
    assert (client * ZoomAmount(deltaY)) * (page / client) == deltaY * page / -WheelSensitivity;
    assert deltaY * page == 0.0 <==> deltaY == 0.0 || page == 0.0;
    offset - (client * ZoomAmount(deltaY)) * (page / client)
  }

  /** The viewport size cancels out of the wheel's offset update. */
  lemma ZoomedOffsetShift(offset: real, deltaY: real, page: real, client: real)
    requires client != 0.0
    ensures ZoomedOffset(offset, deltaY, page, client) == offset + deltaY * page / WheelSensitivity
  {
    assert client * (page / client) == page;
  }

  /** From a positive scale, a wheel event keeps the scale positive exactly when
      `deltaY` is below the sensitivity; at `deltaY == 500` the scale becomes zero
      and the inverse transform is no longer defined. */
  lemma ZoomKeepsPositiveScaleIff(scale: real, deltaY: real)
    requires scale > 0.0
    ensures Zoomed(scale, deltaY) > 0.0 <==> deltaY < WheelSensitivity
    ensures deltaY == WheelSensitivity ==> Zoomed(scale, deltaY) == 0.0
  {
    var factor := 1.0 + ZoomAmount(deltaY);
    assert factor == (WheelSensitivity - deltaY) / WheelSensitivity;
    assert factor > 0.0 <==> deltaY < WheelSensitivity;
    assert Zoomed(scale, deltaY) == scale * factor;
    if factor > 0.0 {
      assert scale * factor > 0.0;
    } else {
      assert scale * factor <= 0.0;
    }
  }

  /** The wheel update does not keep the point under the cursor fixed: zooming in by
      a factor of two at screen x = 100 from the identity view moves the true point
      under the cursor from 100 to 150. */
  lemma ZoomMovesCursorPoint()
    ensures Zoomed(1.0, -500.0) == 2.0
    ensures ToTrue(100.0, 0.0, 1.0) == 100.0
    ensures ToTrue(100.0, ZoomedOffset(0.0, -500.0, 100.0, 800.0), Zoomed(1.0, -500.0)) == 150.0
  {
    ZoomedOffsetShift(0.0, -500.0, 100.0, 800.0);
  }
}
