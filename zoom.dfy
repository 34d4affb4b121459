/** The zoom level of the timeline: the sample width in pixels, stepped by
    the zoom-in and zoom-out buttons and clamped to a fixed range. */
module Zoom {

  const DefaultZoom: int := 40
  const MinZoom: int := 20
  const MaxZoom: int := 100
  const ZoomStep: int := 10

  /** A zoom level reachable from the default one: inside the range and on the step grid. */
  predicate IsZoomLevel(z: int) {
    MinZoom <= z <= MaxZoom && z % ZoomStep == 0
  }

  function Min(a: int, b: int): int { if a <= b then a else b }
  function Max(a: int, b: int): int { if a <= b then b else a }

  /** The level zoomIn leaves behind. */
  function ZoomedIn(z: int): (r: int)
    ensures z <= r <= z + ZoomStep
    ensures r == z || r <= MaxZoom
  {
    if z >= MaxZoom then z else Min(z + ZoomStep, MaxZoom)
  }

  /** The level zoomOut leaves behind. */
  function ZoomedOut(z: int): (r: int)
    ensures z - ZoomStep <= r <= z
    ensures r == z || r >= MinZoom
  {
    if z <= MinZoom then z else Max(z - ZoomStep, MinZoom)
  }

  /** At the upper bound zoomIn does nothing; below it, zoomIn moves up by
      one step but never past the bound. */
  lemma ZoomInStep(z: int)
    ensures z >= MaxZoom ==> ZoomedIn(z) == z
    ensures z < MaxZoom ==> z < ZoomedIn(z) <= MaxZoom
    ensures z < MaxZoom ==> ZoomedIn(z) == z + ZoomStep || ZoomedIn(z) == MaxZoom
    ensures IsZoomLevel(z) && z < MaxZoom ==> ZoomedIn(z) == z + ZoomStep
  {
  }

  /** At the lower bound zoomOut does nothing; above it, zoomOut moves down
      by one step but never past the bound. */
  lemma ZoomOutStep(z: int)
    ensures z <= MinZoom ==> ZoomedOut(z) == z
    ensures z > MinZoom ==> MinZoom <= ZoomedOut(z) < z
    ensures z > MinZoom ==> ZoomedOut(z) == z - ZoomStep || ZoomedOut(z) == MinZoom
    ensures IsZoomLevel(z) && z > MinZoom ==> ZoomedOut(z) == z - ZoomStep
  {
  }

  /** Zooming in then out (or out then in) from a level that is not at the
      bound it moves toward restores that level. */
  lemma ZoomRoundTrip(z: int)
    requires IsZoomLevel(z)
    ensures z < MaxZoom ==> ZoomedOut(ZoomedIn(z)) == z
    ensures z > MinZoom ==> ZoomedIn(ZoomedOut(z)) == z
  {
  }

  /** One press of a zoom button. */
  datatype ZoomOp = ZoomInOp | ZoomOutOp

  function Apply(z: int, op: ZoomOp): int {
    match op
    case ZoomInOp => ZoomedIn(z)
    case ZoomOutOp => ZoomedOut(z)
  }

  /** The level after pressing the buttons in the order given. */
  function ApplyAll(z: int, ops: seq<ZoomOp>): int
    decreases |ops|
  {
    if ops == [] then z else ApplyAll(Apply(z, ops[0]), ops[1..])
  }

  /** Each button press keeps a zoom level a zoom level. */
  lemma ApplyKeepsZoomLevel(z: int, op: ZoomOp)
    requires IsZoomLevel(z)
    ensures IsZoomLevel(Apply(z, op))
  {
  }

  /** Any sequence of presses keeps a zoom level a zoom level. */
  lemma {:induction false} ApplyAllKeepsZoomLevel(z: int, ops: seq<ZoomOp>)
    requires IsZoomLevel(z)
    ensures IsZoomLevel(ApplyAll(z, ops))
    decreases |ops|
  {
    if ops != [] {
      ApplyKeepsZoomLevel(z, ops[0]);
      ApplyAllKeepsZoomLevel(Apply(z, ops[0]), ops[1..]);
    }
  }

  /** Starting from the default, the zoom never leaves [MinZoom, MaxZoom]
      and stays a multiple of ZoomStep, whatever buttons are pressed. */
  lemma ZoomFromDefaultStaysInRange(ops: seq<ZoomOp>)
    ensures MinZoom <= ApplyAll(DefaultZoom, ops) <= MaxZoom
    ensures ApplyAll(DefaultZoom, ops) % ZoomStep == 0
  {
    ApplyAllKeepsZoomLevel(DefaultZoom, ops);
  }

  /** Pressing zoom-in n times from a zoom level adds n steps, saturating at MaxZoom. */
  lemma {:induction false} RepeatedZoomInSaturates(z: int, n: nat)
    requires IsZoomLevel(z)
    ensures ApplyAll(z, seq(n, _ => ZoomInOp)) == Min(z + n * ZoomStep, MaxZoom)
    decreases n
  {
    var ops := seq(n, _ => ZoomInOp);
    if n > 0 {
      assert ops[0] == ZoomInOp;
      assert ops[1..] == seq(n - 1, _ => ZoomInOp);
      ZoomInStep(z);
      if z < MaxZoom {
        RepeatedZoomInSaturates(z + ZoomStep, n - 1);
      } else {
        RepeatedZoomInSaturates(z, n - 1);
      }
    }
  }

  /** Pressing zoom-out n times from a zoom level removes n steps, saturating at MinZoom. */
  lemma {:induction false} RepeatedZoomOutSaturates(z: int, n: nat)
    requires IsZoomLevel(z)
    ensures ApplyAll(z, seq(n, _ => ZoomOutOp)) == Max(z - n * ZoomStep, MinZoom)
    decreases n
  {
    var ops := seq(n, _ => ZoomOutOp);
    if n > 0 {
      assert ops[0] == ZoomOutOp;
      assert ops[1..] == seq(n - 1, _ => ZoomOutOp);
      ZoomOutStep(z);
      if z > MinZoom {
        RepeatedZoomOutSaturates(z - ZoomStep, n - 1);
      } else {
        RepeatedZoomOutSaturates(z, n - 1);
      }
    }
  }
}
