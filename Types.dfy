/** Data shared by the gesture classifier and the card (types.ts). */
module Types {

  /** One per-frame gesture sample (HandGestureData). Position is normalised to
      [0,1] x [0,1] screen space; velocity is in normalised units per nominal frame. */
  datatype HandGestureData = HandGestureData(
    x: real,
    y: real,
    vx: real,
    vy: real,
    isOpen: bool,
    isPointing: bool,
    detected: bool)
}
