/**
 * The view transform's zoom steps, identical in both scripts: one step in
 * multiplies the level by 1.2 but never above 3, one step out divides it by
 * 1.2 but never below 0.1; resetting (resetZoom, fitToScreen) sets it to 1.
 * Levels are exact reals here (the scripts use doubles).
 */
module View {

  const ZoomMin: real := 0.1
  const ZoomMax: real := 3.0
  const ZoomStep: real := 1.2

  predicate InRange(z: real) {
    ZoomMin <= z <= ZoomMax
  }

  /** zoomIn: `Math.min(zoomLevel * 1.2, 3)`. */
  function ZoomIn(z: real): (r: real)
    ensures r <= ZoomMax
    ensures InRange(z) ==> InRange(r) && r >= z
  {
    if z * ZoomStep < ZoomMax then z * ZoomStep else ZoomMax
  }

  /** zoomOut: `Math.max(zoomLevel / 1.2, 0.1)`. */
  function ZoomOut(z: real): (r: real)
    ensures r >= ZoomMin
    ensures InRange(z) ==> InRange(r) && r <= z
  {
    if z / ZoomStep > ZoomMin then z / ZoomStep else ZoomMin
  }

  /** A step out undoes a step in, unless the step in hit the ceiling. */
  lemma ZoomOutUndoesZoomIn(z: real)
    requires ZoomMin <= z && z * ZoomStep <= ZoomMax
    ensures ZoomOut(ZoomIn(z)) == z
  {
  }

  /** A step in undoes a step out, unless the step out hit the floor. */
  lemma ZoomInUndoesZoomOut(z: real)
    requires z <= ZoomMax && z / ZoomStep >= ZoomMin
    ensures ZoomIn(ZoomOut(z)) == z
  {
  }

  /** `n` steps in a row, in (`zoomIn` is true) or out. */
  function ZoomSteps(z: real, zoomIn: bool, n: nat): real
    decreases n
  {
    if n == 0 then z else ZoomSteps(if zoomIn then ZoomIn(z) else ZoomOut(z), zoomIn, n - 1)
  }

  /** However many steps are taken, a level inside [0.1, 3] stays inside it. */
  lemma {:induction false} ZoomStepsStayInRange(z: real, zoomIn: bool, n: nat)
    requires InRange(z)
    ensures InRange(ZoomSteps(z, zoomIn, n))
    decreases n
  {
    if n > 0 {
      ZoomStepsStayInRange(if zoomIn then ZoomIn(z) else ZoomOut(z), zoomIn, n - 1);
    }
  }

  /** From 1, six steps in give 2.985984 (1.2^6) and the seventh is clamped to the ceiling 3. */
  lemma ZoomInReachesCeiling()
    ensures ZoomSteps(1.0, true, 6) == 2.985984
    ensures ZoomSteps(1.0, true, 7) == ZoomMax
  {
    assert ZoomSteps(1.0, true, 6) == ZoomSteps(1.2, true, 5);
    assert ZoomSteps(1.2, true, 5) == ZoomSteps(1.44, true, 4);
    assert ZoomSteps(1.44, true, 4) == ZoomSteps(1.728, true, 3);
    assert ZoomSteps(1.728, true, 3) == ZoomSteps(2.0736, true, 2);
    assert ZoomSteps(2.0736, true, 2) == ZoomSteps(2.48832, true, 1);
    assert ZoomSteps(2.48832, true, 1) == ZoomSteps(2.985984, true, 0);
    assert ZoomSteps(1.0, true, 7) == ZoomSteps(1.2, true, 6);
    assert ZoomSteps(1.2, true, 6) == ZoomSteps(1.44, true, 5);
    assert ZoomSteps(1.44, true, 5) == ZoomSteps(1.728, true, 4);
    assert ZoomSteps(1.728, true, 4) == ZoomSteps(2.0736, true, 3);
    assert ZoomSteps(2.0736, true, 3) == ZoomSteps(2.48832, true, 2);
    assert ZoomSteps(2.48832, true, 2) == ZoomSteps(2.985984, true, 1);
    assert ZoomSteps(2.985984, true, 1) == ZoomSteps(ZoomMax, true, 0);
  }
}
