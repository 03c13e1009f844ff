/** The card's per-frame interaction state machine (components/CardScene.tsx).

    Every rendered frame the card reads the latest gesture samples and the clock,
    debounces changes of the (pointing, open) pair, toggles between visible and
    flown-off on qualifying swipes, recomputes its target position and eases its
    position, scale and rotation toward their targets.

    `Step` is that tick as a function on `CardModel` values; the class `Card` holds
    the same state in mutable fields and its `Tick` method performs the update in
    place, in the order of the source, with `Step` as its specification. */
module CardScene {
  import opened Types
  import opened RealArith

  /** The five card states: on screen, or flown off in one of four directions. */
  datatype CardState = Visible | GoneUp | GoneDown | GoneLeft | GoneRight

  datatype Vec3 = Vec3(x: real, y: real, z: real)

  /** The mesh rotation the tick touches: pitch (about x) and yaw (about y). */
  datatype Rotation = Rotation(x: real, y: real)

  /** The size of the visible area in world units at the card's depth. */
  datatype Viewport = Viewport(width: real, height: real)

  /** Everything the card keeps between frames. */
  datatype CardModel = CardModel(
    cardState: CardState,
    scale: real,
    targetPos: Vec3,
    lastSwipeTime: real,
    lastIsPointing: bool,
    lastIsOpen: bool,
    gestureStableTime: real,
    position: Vec3,
    rotation: Rotation,
    meshScale: Vec3)

  /** One frame's inputs: the sample list, the clock in ms and the frame time in s. */
  datatype Frame = Frame(gestureData: seq<HandGestureData>, now: real, delta: real)

  /** A swipe needs a speed strictly above this (normalised units per nominal frame). */
  const SwipeThreshold: real := 0.08
  /** How far from the origin a flown-off card is sent. */
  const FlyDistance: real := 15.0
  /** Minimum time between two accepted swipes, in ms. */
  const SwipeCooldown: real := 500.0
  /** Swipes are ignored for this long after the (pointing, open) pair changes, in ms. */
  const GestureImmunityMs: real := 400.0

  /** Position easing factor while visible, and while flying off. */
  const FollowFactor: real := 0.1
  const FlyFactor: real := 0.08
  /** Easing factor of scale and rotation. */
  const EaseFactor: real := 0.1

  const OpenScale: real := 2.5
  const FistScale: real := 0.5
  const PointSpinRate: real := 6.0
  const FlySpinRate: real := 15.0

  predicate ValidViewport(vp: Viewport)
  {
    vp.width > 0.0 && vp.height > 0.0
  }

  function Abs(r: real): real
  {
    if r < 0.0 then -r else r
  }

  /** c lies between a and b (in either order). */
  predicate Between(a: real, b: real, c: real)
  {
    (a <= c <= b) || (b <= c <= a)
  }

  /** Linear interpolation (Vector3.lerp and MathUtils.lerp). */
  function Lerp(a: real, b: real, t: real): (r: real)
    ensures b - r == (1.0 - t) * (b - a)
    ensures 0.0 <= t <= 1.0 ==> Between(a, b, r)
  {
    LerpStaysBetween(a, b, t);
    a + (b - a) * t
  }

  lemma LerpStaysBetween(a: real, b: real, t: real)
    ensures 0.0 <= t <= 1.0 ==> Between(a, b, a + (b - a) * t)
  {
    if 0.0 <= t <= 1.0 {
      FractionOfGap(a, b, t);
    }
  }

  function LerpVec(a: Vec3, b: Vec3, t: real): Vec3
  {
    Vec3(Lerp(a.x, b.x, t), Lerp(a.y, b.y, t), Lerp(a.z, b.z, t))
  }

  predicate ScaleInRange(s: real)
  {
    FistScale <= s <= OpenScale
  }

  /** The state the card starts in (the initial values of its refs; a fresh mesh sits
      at the origin, unrotated, at unit scale). */
  function Initial(): CardModel
  {
    CardModel(Visible, 1.0, Vec3(0.0, 0.0, 0.0), 0.0, false, true, 0.0,
              Vec3(0.0, 0.0, 0.0), Rotation(0.0, 0.0), Vec3(1.0, 1.0, 1.0))
  }

  /** The first sample exists and reports a hand. */
  predicate HandDetected(gestureData: seq<HandGestureData>)
  {
    |gestureData| > 0 && gestureData[0].detected
  }

  /** A detected sample whose (pointing, open) pair differs from the stored one. */
  predicate GestureChanged(m: CardModel, gestureData: seq<HandGestureData>)
  {
    && HandDetected(gestureData)
    && (gestureData[0].isPointing != m.lastIsPointing || gestureData[0].isOpen != m.lastIsOpen)
  }

  /** Stability tracking: a change restarts the immunity window and records the pair. */
  function TrackGesture(m: CardModel, gestureData: seq<HandGestureData>, now: real): CardModel
  {
    if GestureChanged(m, gestureData) then
      m.(gestureStableTime := now,
         lastIsPointing := gestureData[0].isPointing,
         lastIsOpen := gestureData[0].isOpen)
    else m
  }

  /** `hypot(vx, vy) > 0.08`, on squares (both sides are non-negative). */
  predicate IsFlick(vx: real, vy: real)
  {
    vx * vx + vy * vy > SwipeThreshold * SwipeThreshold
  }

  /** IsFlick is the source's test on the Euclidean speed `hypot(vx, vy)`. */
  lemma FlickIsSpeedTest(speed: real, vx: real, vy: real)
    requires speed >= 0.0 && speed * speed == vx * vx + vy * vy
    ensures speed > SwipeThreshold <==> IsFlick(vx, vy)
  {
    HypotComparison(speed, vx * vx + vy * vy, SwipeThreshold, SwipeThreshold * SwipeThreshold, 1.0);
  }

  /** A swipe fires on the tracked state: hand present, gesture stable, cooldown over,
      fast enough. */
  predicate SwipeFires(m: CardModel, gestureData: seq<HandGestureData>, now: real)
  {
    && HandDetected(gestureData)
    && now - m.gestureStableTime > GestureImmunityMs
    && now - m.lastSwipeTime > SwipeCooldown
    && IsFlick(gestureData[0].vx, gestureData[0].vy)
  }

  /** Where a swipe from the visible state sends the card: vertical when |vy| > |vx|
      strictly (screen y grows downward, so vy < 0 is up), horizontal otherwise. */
  function DismissState(vx: real, vy: real): CardState
  {
    if Abs(vy) > Abs(vx) then
      (if vy < 0.0 then GoneUp else GoneDown)
    else
      (if vx < 0.0 then GoneLeft else GoneRight)
  }

  /** The odd/even toggle on a swipe that fires. */
  function ToggleCard(m: CardModel, gestureData: seq<HandGestureData>, now: real): CardModel
  {
    if SwipeFires(m, gestureData, now) then
      m.(cardState := if m.cardState == Visible
                      then DismissState(gestureData[0].vx, gestureData[0].vy)
                      else Visible,
         lastSwipeTime := now)
    else m
  }

  /** The world-space unit vector a flown-off state names (world y points up). */
  function Direction(s: CardState): Vec3
  {
    match s
    case Visible => Vec3(0.0, 0.0, 0.0)
    case GoneUp => Vec3(0.0, 1.0, 0.0)
    case GoneDown => Vec3(0.0, -1.0, 0.0)
    case GoneLeft => Vec3(-1.0, 0.0, 0.0)
    case GoneRight => Vec3(1.0, 0.0, 0.0)
  }

  /** The sample's screen point in world units centred on the origin. */
  function HandX(d: HandGestureData, vp: Viewport): real
  {
    (d.x - 0.5) * vp.width
  }

  function HandY(d: HandGestureData, vp: Viewport): real
  {
    -(d.y - 0.5) * vp.height
  }

  /** The target position for the state after the toggle. */
  function TargetPosition(s: CardState, gestureData: seq<HandGestureData>, scale: real, vp: Viewport): Vec3
  {
    if s == Visible then
      if HandDetected(gestureData) then
        var d := gestureData[0];
        if d.isPointing then
          Vec3(HandX(d, vp), HandY(d, vp) + (0.3 + scale * 0.3), 0.5)
        else
          Vec3(HandX(d, vp), HandY(d, vp), 0.0)
      else
        Vec3(0.0, 0.0, 0.0)
    else
      var u := Direction(s);
      Vec3(FlyDistance * u.x, FlyDistance * u.y, FlyDistance * u.z)
  }

  function PositionFactor(s: CardState): real
  {
    if s == Visible then FollowFactor else FlyFactor
  }

  /** Open hand grows the card, a fist shrinks it; only when visible, detected and
      not pointing. */
  function NextScale(s: CardState, gestureData: seq<HandGestureData>, scale: real): real
  {
    if s == Visible && HandDetected(gestureData) && !gestureData[0].isPointing then
      Lerp(scale, if gestureData[0].isOpen then OpenScale else FistScale, EaseFactor)
    else scale
  }

  /** Spin while pointing or flying off, tilt toward the screen offset while
      following, relax toward zero otherwise. `pos` is the already eased position. */
  function NextRotation(s: CardState, gestureData: seq<HandGestureData>, rot: Rotation, pos: Vec3,
                        delta: real, vp: Viewport): Rotation
    requires ValidViewport(vp)
  {
    if s == Visible && HandDetected(gestureData) then
      if gestureData[0].isPointing then
        Rotation(Lerp(rot.x, 0.0, EaseFactor), rot.y + delta * PointSpinRate)
      else
        var tiltX := (pos.y / vp.height) * 0.5;
        var tiltY := (pos.x / vp.width) * 0.5;
        Rotation(Lerp(rot.x, tiltX, EaseFactor), Lerp(rot.y, tiltY, EaseFactor))
    else
      Rotation(Lerp(rot.x, 0.0, EaseFactor),
               if s != Visible then rot.y + delta * FlySpinRate else Lerp(rot.y, 0.0, EaseFactor))
  }

  /** One frame of the card (the useFrame callback of Card). */
  function Step(m: CardModel, gestureData: seq<HandGestureData>, now: real, delta: real, vp: Viewport): (r: CardModel)
    requires ValidViewport(vp)
    ensures r.meshScale == Vec3(r.scale, r.scale, r.scale)
  {
    var t := ToggleCard(TrackGesture(m, gestureData, now), gestureData, now);
    var target := TargetPosition(t.cardState, gestureData, t.scale, vp);
    var pos := LerpVec(t.position, target, PositionFactor(t.cardState));
    var scale := NextScale(t.cardState, gestureData, t.scale);
    var rot := NextRotation(t.cardState, gestureData, t.rotation, pos, delta, vp);
    t.(targetPos := target, position := pos, scale := scale, rotation := rot,
       meshScale := Vec3(scale, scale, scale))
  }

  /** A qualifying swipe, stated on the state before the tick: a hand is detected,
      its (pointing, open) pair is the stored one, the immunity window and the
      cooldown have both elapsed, and the speed is strictly above the threshold. */
  predicate SwipeQualifies(m: CardModel, gestureData: seq<HandGestureData>, now: real)
  {
    && HandDetected(gestureData)
    && !GestureChanged(m, gestureData)
    && now - m.gestureStableTime > GestureImmunityMs
    && now - m.lastSwipeTime > SwipeCooldown
    && IsFlick(gestureData[0].vx, gestureData[0].vy)
  }

  // ---------------------------------------------------------------------------
  // Properties of one tick

  /** Stability tracking: a detected change of the pair restarts the immunity window at
      `now` and stores the sample's pair; otherwise timer and pair stay as they were.
      Either way, after a frame with a hand the stored pair is the sample's pair. */
  lemma StabilityTracking(m: CardModel, gestureData: seq<HandGestureData>, now: real, delta: real, vp: Viewport)
    requires ValidViewport(vp)
    ensures var r := Step(m, gestureData, now, delta, vp);
            && (GestureChanged(m, gestureData) ==>
                  r.gestureStableTime == now
                  && r.lastIsPointing == gestureData[0].isPointing
                  && r.lastIsOpen == gestureData[0].isOpen)
            && (!GestureChanged(m, gestureData) ==>
                  r.gestureStableTime == m.gestureStableTime
                  && r.lastIsPointing == m.lastIsPointing
                  && r.lastIsOpen == m.lastIsOpen)
            && (HandDetected(gestureData) ==>
                  r.lastIsPointing == gestureData[0].isPointing && r.lastIsOpen == gestureData[0].isOpen)
  {
  }

  /** The swipe guard: the card state changes exactly on a qualifying swipe, and the
      swipe time is set to `now` exactly then. */
  lemma SwipeGuard(m: CardModel, gestureData: seq<HandGestureData>, now: real, delta: real, vp: Viewport)
    requires ValidViewport(vp)
    ensures var r := Step(m, gestureData, now, delta, vp);
            && (r.cardState != m.cardState <==> SwipeQualifies(m, gestureData, now))
            && r.lastSwipeTime == (if SwipeQualifies(m, gestureData, now) then now else m.lastSwipeTime)
  {
    var tracked := TrackGesture(m, gestureData, now);
    if GestureChanged(m, gestureData) {
      assert now - tracked.gestureStableTime == 0.0;
      assert !SwipeFires(tracked, gestureData, now);
    } else {
      assert tracked == m;
      if SwipeFires(m, gestureData, now) && m.cardState == Visible {
        assert DismissState(gestureData[0].vx, gestureData[0].vy) != Visible;
      }
    }
  }

  /** Dismissal from the visible state goes to the state DismissState names for the
      sample's velocity. */
  lemma DismissDirection(m: CardModel, gestureData: seq<HandGestureData>, now: real, delta: real, vp: Viewport)
    requires ValidViewport(vp)
    requires m.cardState == Visible && SwipeQualifies(m, gestureData, now)
    ensures Step(m, gestureData, now, delta, vp).cardState == DismissState(gestureData[0].vx, gestureData[0].vy)
    ensures Step(m, gestureData, now, delta, vp).lastSwipeTime == now
  {
    assert TrackGesture(m, gestureData, now) == m;
  }

  /** The card flies off in the direction of the hand's motion, along the dominant
      axis: the flight direction has a positive component along the motion (world
      motion is (vx, -vy), screen y pointing down), and the axis is vertical exactly
      when |vy| > |vx|, so equal components go horizontal. */
  lemma DismissFollowsMotion(vx: real, vy: real)
    requires IsFlick(vx, vy)
    ensures var u := Direction(DismissState(vx, vy));
            && DismissState(vx, vy) != Visible
            && u.x * vx - u.y * vy > 0.0
            && (u.x == 0.0 <==> Abs(vy) > Abs(vx))
            && u.z == 0.0
  {
  }

  /** Summon back: from any flown-off state a qualifying swipe returns the card,
      whatever its direction. */
  lemma SummonBack(m: CardModel, gestureData: seq<HandGestureData>, now: real, delta: real, vp: Viewport)
    requires ValidViewport(vp)
    requires m.cardState != Visible && SwipeQualifies(m, gestureData, now)
    ensures Step(m, gestureData, now, delta, vp).cardState == Visible
    ensures Step(m, gestureData, now, delta, vp).lastSwipeTime == now
  {
    assert TrackGesture(m, gestureData, now) == m;
  }

  /** Two qualifying swipes in a row from the visible state bring the card back. */
  lemma DismissThenSummon(m: CardModel, f1: Frame, f2: Frame, vp: Viewport)
    requires ValidViewport(vp) && m.cardState == Visible
    requires SwipeQualifies(m, f1.gestureData, f1.now)
    requires SwipeQualifies(Step(m, f1.gestureData, f1.now, f1.delta, vp), f2.gestureData, f2.now)
    ensures Step(m, f1.gestureData, f1.now, f1.delta, vp).cardState != Visible
    ensures Step(Step(m, f1.gestureData, f1.now, f1.delta, vp), f2.gestureData, f2.now, f2.delta, vp).cardState == Visible
  {
    DismissDirection(m, f1.gestureData, f1.now, f1.delta, vp);
    DismissFollowsMotion(f1.gestureData[0].vx, f1.gestureData[0].vy);
    SummonBack(Step(m, f1.gestureData, f1.now, f1.delta, vp), f2.gestureData, f2.now, f2.delta, vp);
  }

  /** The immunity window across frames: after a frame that changed the pair, no
      frame within the next 400 ms moves the card, however fast the hand. */
  lemma ImmunityWindow(m: CardModel, f1: Frame, f2: Frame, vp: Viewport)
    requires ValidViewport(vp)
    requires GestureChanged(m, f1.gestureData)
    requires f2.now - f1.now <= GestureImmunityMs
    ensures Step(m, f1.gestureData, f1.now, f1.delta, vp).cardState == m.cardState
    ensures var r1 := Step(m, f1.gestureData, f1.now, f1.delta, vp);
            Step(r1, f2.gestureData, f2.now, f2.delta, vp).cardState == r1.cardState
  {
    SwipeGuard(m, f1.gestureData, f1.now, f1.delta, vp);
    var r1 := Step(m, f1.gestureData, f1.now, f1.delta, vp);
    StabilityTracking(m, f1.gestureData, f1.now, f1.delta, vp);
    SwipeGuard(r1, f2.gestureData, f2.now, f2.delta, vp);
  }

  /** The cooldown across frames: after a frame that moved the card, no frame within
      the next 500 ms moves it again. */
  lemma CooldownWindow(m: CardModel, f1: Frame, f2: Frame, vp: Viewport)
    requires ValidViewport(vp)
    requires Step(m, f1.gestureData, f1.now, f1.delta, vp).cardState != m.cardState
    requires f2.now - f1.now <= SwipeCooldown
    ensures var r1 := Step(m, f1.gestureData, f1.now, f1.delta, vp);
            Step(r1, f2.gestureData, f2.now, f2.delta, vp).cardState == r1.cardState
  {
    SwipeGuard(m, f1.gestureData, f1.now, f1.delta, vp);
    var r1 := Step(m, f1.gestureData, f1.now, f1.delta, vp);
    SwipeGuard(r1, f2.gestureData, f2.now, f2.delta, vp);
  }

  /** The target while visible: hovering above the hand (by 0.3 + 0.3 * scale, toward
      the viewer) when pointing, on the hand at neutral depth otherwise, the origin
      with no hand. A non-pointing hand at the centre of the screen targets the
      origin, and the hover point is always strictly above the hand for a card scale
      of at least 0.5. */
  lemma TargetWhileVisible(m: CardModel, gestureData: seq<HandGestureData>, now: real, delta: real, vp: Viewport)
    requires ValidViewport(vp)
    requires Step(m, gestureData, now, delta, vp).cardState == Visible
    ensures var r := Step(m, gestureData, now, delta, vp);
            && (!HandDetected(gestureData) ==> r.targetPos == Vec3(0.0, 0.0, 0.0))
            && (HandDetected(gestureData) && gestureData[0].isPointing ==>
                  r.targetPos == Vec3(HandX(gestureData[0], vp), HandY(gestureData[0], vp) + 0.3 + 0.3 * m.scale, 0.5)
                  && (ScaleInRange(m.scale) ==> r.targetPos.y > HandY(gestureData[0], vp)))
            && (HandDetected(gestureData) && !gestureData[0].isPointing ==>
                  r.targetPos == Vec3(HandX(gestureData[0], vp), HandY(gestureData[0], vp), 0.0)
                  && (gestureData[0].x == 0.5 && gestureData[0].y == 0.5 ==> r.targetPos == Vec3(0.0, 0.0, 0.0)))
  {
    SwipeGuard(m, gestureData, now, delta, vp);
    assert ToggleCard(TrackGesture(m, gestureData, now), gestureData, now).scale == m.scale;
  }

  /** A hand anywhere in the normalised frame maps inside the viewport. */
  lemma HandInsideViewport(d: HandGestureData, vp: Viewport)
    requires ValidViewport(vp)
    requires 0.0 <= d.x <= 1.0 && 0.0 <= d.y <= 1.0
    ensures -vp.width / 2.0 <= HandX(d, vp) <= vp.width / 2.0
    ensures -vp.height / 2.0 <= HandY(d, vp) <= vp.height / 2.0
  {
    NonNegativeProduct(d.x, vp.width);
    NonNegativeProduct(1.0 - d.x, vp.width);
    assert vp.width / 2.0 - HandX(d, vp) == (1.0 - d.x) * vp.width;
    assert HandX(d, vp) + vp.width / 2.0 == d.x * vp.width;
    NonNegativeProduct(d.y, vp.height);
    NonNegativeProduct(1.0 - d.y, vp.height);
    assert vp.height / 2.0 - HandY(d, vp) == d.y * vp.height;
    assert HandY(d, vp) + vp.height / 2.0 == (1.0 - d.y) * vp.height;
  }

  /** The target while flown off: FlyDistance along the state's direction, so a single
      coordinate is +-15 and the others are 0. */
  lemma TargetWhileGone(m: CardModel, gestureData: seq<HandGestureData>, now: real, delta: real, vp: Viewport)
    requires ValidViewport(vp)
    requires Step(m, gestureData, now, delta, vp).cardState != Visible
    ensures var r := Step(m, gestureData, now, delta, vp);
            && r.targetPos.z == 0.0
            && (r.cardState == GoneUp ==> r.targetPos == Vec3(0.0, FlyDistance, 0.0))
            && (r.cardState == GoneDown ==> r.targetPos == Vec3(0.0, -FlyDistance, 0.0))
            && (r.cardState == GoneLeft ==> r.targetPos == Vec3(-FlyDistance, 0.0, 0.0))
            && (r.cardState == GoneRight ==> r.targetPos == Vec3(FlyDistance, 0.0, 0.0))
            && Abs(r.targetPos.x) + Abs(r.targetPos.y) == FlyDistance
            && (r.targetPos.x == 0.0 || r.targetPos.y == 0.0)
  {
  }

  /** Position easing: each coordinate moves toward the target by factor 0.1 while
      visible and 0.08 while flown off, so it ends between its old value and the
      target, and the remaining distance shrinks by exactly 1 - factor. */
  lemma PositionSmoothing(m: CardModel, gestureData: seq<HandGestureData>, now: real, delta: real, vp: Viewport)
    requires ValidViewport(vp)
    ensures var r := Step(m, gestureData, now, delta, vp);
            var f := if r.cardState == Visible then 0.1 else 0.08;
            && Between(m.position.x, r.targetPos.x, r.position.x)
            && Between(m.position.y, r.targetPos.y, r.position.y)
            && Between(m.position.z, r.targetPos.z, r.position.z)
            && r.targetPos.x - r.position.x == (1.0 - f) * (r.targetPos.x - m.position.x)
            && r.targetPos.y - r.position.y == (1.0 - f) * (r.targetPos.y - m.position.y)
            && r.targetPos.z - r.position.z == (1.0 - f) * (r.targetPos.z - m.position.z)
  {
    var t := ToggleCard(TrackGesture(m, gestureData, now), gestureData, now);
    assert t.position == m.position;
  }

  /** Scale: it only changes while visible with a detected, non-pointing hand, and
      then closes 10% of the gap to 2.5 (open) or 0.5 (fist); so it stays within
      [0.5, 2.5] once it starts there. */
  lemma ScaleRule(m: CardModel, gestureData: seq<HandGestureData>, now: real, delta: real, vp: Viewport)
    requires ValidViewport(vp)
    ensures var r := Step(m, gestureData, now, delta, vp);
            && (r.scale != m.scale ==>
                  r.cardState == Visible && HandDetected(gestureData) && !gestureData[0].isPointing)
            && (r.cardState == Visible && HandDetected(gestureData) && !gestureData[0].isPointing ==>
                  var goal := if gestureData[0].isOpen then OpenScale else FistScale;
                  goal - r.scale == 0.9 * (goal - m.scale))
            && (ScaleInRange(m.scale) ==> ScaleInRange(r.scale))
  {
    var t := ToggleCard(TrackGesture(m, gestureData, now), gestureData, now);
    assert t.scale == m.scale;
  }

  /** Rotation: pointing spins the yaw by 6 * delta, flying off by 15 * delta; the
      pitch relaxes to 90% of itself whenever the card is not following an unpointed
      hand, and so does the yaw when no hand is seen while visible; following an
      unpointed hand closes 10% of the gap to the tilt of the new position. */
  lemma RotationRule(m: CardModel, gestureData: seq<HandGestureData>, now: real, delta: real, vp: Viewport)
    requires ValidViewport(vp)
    ensures var r := Step(m, gestureData, now, delta, vp);
            var following := r.cardState == Visible && HandDetected(gestureData);
            && (following && gestureData[0].isPointing ==> r.rotation.y == m.rotation.y + 6.0 * delta)
            && (r.cardState != Visible ==> r.rotation.y == m.rotation.y + 15.0 * delta)
            && (!(following && !gestureData[0].isPointing) ==> r.rotation.x == 0.9 * m.rotation.x)
            && (r.cardState == Visible && !HandDetected(gestureData) ==> r.rotation.y == 0.9 * m.rotation.y)
            && (following && !gestureData[0].isPointing ==>
                  var tiltX := (r.position.y / vp.height) * 0.5;
                  var tiltY := (r.position.x / vp.width) * 0.5;
                  && r.rotation.x - tiltX == 0.9 * (m.rotation.x - tiltX)
                  && r.rotation.y - tiltY == 0.9 * (m.rotation.y - tiltY)
                  && Between(m.rotation.x, tiltX, r.rotation.x)
                  && Between(m.rotation.y, tiltY, r.rotation.y))
  {
    var t := ToggleCard(TrackGesture(m, gestureData, now), gestureData, now);
    assert t.rotation == m.rotation;
  }

  /** Boundary: a speed of exactly 0.08 is not a swipe. */
  lemma ThresholdIsStrict(vx: real, vy: real)
    requires vx * vx + vy * vy == 0.0064
    ensures !IsFlick(vx, vy)
  {
  }

  /** A quick flick to the right (vx = 0.2, vy = 0.01) on a visible card with a
      stable gesture and an elapsed cooldown sends the card off to the right. */
  lemma FlickRight(m: CardModel, d: HandGestureData, now: real, delta: real, vp: Viewport)
    requires ValidViewport(vp) && m.cardState == Visible
    requires d.detected && d.vx == 0.2 && d.vy == 0.01
    requires d.isPointing == m.lastIsPointing && d.isOpen == m.lastIsOpen
    requires now - m.gestureStableTime > GestureImmunityMs && now - m.lastSwipeTime > SwipeCooldown
    ensures Step(m, [d], now, delta, vp).cardState == GoneRight
  {
    DismissDirection(m, [d], now, delta, vp);
  }

  // ---------------------------------------------------------------------------
  // Runs of frames

  /** The card after a sequence of frames. */
  function Run(m: CardModel, frames: seq<Frame>, vp: Viewport): CardModel
    requires ValidViewport(vp)
    decreases |frames|
  {
    if frames == [] then m
    else Run(Step(m, frames[0].gestureData, frames[0].now, frames[0].delta, vp), frames[1..], vp)
  }

  /** How many frames of the run carried a qualifying swipe. */
  function SwipeCount(m: CardModel, frames: seq<Frame>, vp: Viewport): nat
    requires ValidViewport(vp)
    decreases |frames|
  {
    if frames == [] then 0
    else
      var f := frames[0];
      (if SwipeQualifies(m, f.gestureData, f.now) then 1 else 0)
      + SwipeCount(Step(m, f.gestureData, f.now, f.delta, vp), frames[1..], vp)
  }

  /** The odd/even toggle law: after any run the card is visible exactly when it
      started visible and saw an even number of qualifying swipes, or started flown
      off and saw an odd number. */
  lemma {:induction false} ToggleParity(m: CardModel, frames: seq<Frame>, vp: Viewport)
    requires ValidViewport(vp)
    ensures Run(m, frames, vp).cardState.Visible?
            <==> (m.cardState.Visible? <==> SwipeCount(m, frames, vp) % 2 == 0)
    decreases |frames|
  {
    if frames != [] {
      var f := frames[0];
      var next := Step(m, f.gestureData, f.now, f.delta, vp);
      SwipeGuard(m, f.gestureData, f.now, f.delta, vp);
      if SwipeQualifies(m, f.gestureData, f.now) && m.cardState == Visible {
        DismissDirection(m, f.gestureData, f.now, f.delta, vp);
        DismissFollowsMotion(f.gestureData[0].vx, f.gestureData[0].vy);
      }
      if SwipeQualifies(m, f.gestureData, f.now) && m.cardState != Visible {
        SummonBack(m, f.gestureData, f.now, f.delta, vp);
      }
      ToggleParity(next, frames[1..], vp);
    }
  }

  /** The scale stays within [0.5, 2.5] over any run that starts there. */
  lemma {:induction false} ScaleRangeRun(m: CardModel, frames: seq<Frame>, vp: Viewport)
    requires ValidViewport(vp) && ScaleInRange(m.scale)
    ensures ScaleInRange(Run(m, frames, vp).scale)
    decreases |frames|
  {
    if frames != [] {
      var f := frames[0];
      ScaleRule(m, f.gestureData, f.now, f.delta, vp);
      ScaleRangeRun(Step(m, f.gestureData, f.now, f.delta, vp), frames[1..], vp);
    }
  }

  /** The cooldown over a run: while every frame is at most 500 ms after the last
      swipe, the card does not move and the swipe time is kept. */
  lemma {:induction false} CooldownRun(m: CardModel, frames: seq<Frame>, vp: Viewport)
    requires ValidViewport(vp)
    requires forall i :: 0 <= i < |frames| ==> frames[i].now - m.lastSwipeTime <= SwipeCooldown
    ensures Run(m, frames, vp).cardState == m.cardState
    ensures Run(m, frames, vp).lastSwipeTime == m.lastSwipeTime
    decreases |frames|
  {
    if frames != [] {
      var f := frames[0];
      SwipeGuard(m, f.gestureData, f.now, f.delta, vp);
      CooldownRun(Step(m, f.gestureData, f.now, f.delta, vp), frames[1..], vp);
    }
  }

  /** The immunity window over a run: once the last gesture change is stamped at or
      after `t0`, no frame whose clock lies in [t0, t0 + 400] moves the card. (A frame
      that changes the pair again restamps the window inside the same range.) */
  lemma {:induction false} ImmunityRun(m: CardModel, t0: real, frames: seq<Frame>, vp: Viewport)
    requires ValidViewport(vp)
    requires m.gestureStableTime >= t0
    requires forall i :: 0 <= i < |frames| ==> t0 <= frames[i].now <= t0 + GestureImmunityMs
    ensures Run(m, frames, vp).cardState == m.cardState
    decreases |frames|
  {
    if frames != [] {
      var f := frames[0];
      SwipeGuard(m, f.gestureData, f.now, f.delta, vp);
      StabilityTracking(m, f.gestureData, f.now, f.delta, vp);
      ImmunityRun(Step(m, f.gestureData, f.now, f.delta, vp), t0, frames[1..], vp);
    }
  }

  /** A gesture change in one frame freezes the card for that frame and for every
      later frame of a run that stays within 400 ms of it. */
  lemma GestureChangeFreezesRun(m: CardModel, f: Frame, frames: seq<Frame>, vp: Viewport)
    requires ValidViewport(vp)
    requires GestureChanged(m, f.gestureData)
    requires forall i :: 0 <= i < |frames| ==> f.now <= frames[i].now <= f.now + GestureImmunityMs
    ensures Run(m, [f] + frames, vp).cardState == m.cardState
  {
    var r1 := Step(m, f.gestureData, f.now, f.delta, vp);
    SwipeGuard(m, f.gestureData, f.now, f.delta, vp);
    StabilityTracking(m, f.gestureData, f.now, f.delta, vp);
    assert ([f] + frames)[1..] == frames;
    ImmunityRun(r1, f.now, frames, vp);
  }

  // ---------------------------------------------------------------------------
  // The card object

  /** The card: the refs of the Card component and the mesh transform they drive. */
  class Card {
    var cardState: CardState
    var scale: real
    var targetPos: Vec3
    var lastSwipeTime: real
    var lastIsPointing: bool
    var lastIsOpen: bool
    var gestureStableTime: real
    var position: Vec3
    var rotation: Rotation
    var meshScale: Vec3

    function Model(): CardModel
      reads this
    {
      CardModel(cardState, scale, targetPos, lastSwipeTime, lastIsPointing, lastIsOpen,
                gestureStableTime, position, rotation, meshScale)
    }

    /** The card's invariant: scale within [0.5, 2.5], applied uniformly to the mesh. */
    ghost predicate Valid()
      reads this
    {
      ScaleInRange(scale) && meshScale == Vec3(scale, scale, scale)
    }

    /** A fresh card: visible, scale 1, target at the origin, no swipe and no gesture
        change yet (both times 0), last pair (not pointing, open). */
    constructor ()
      ensures Model() == Initial()
      ensures Valid()
    {
      cardState := Visible;
      scale := 1.0;
      targetPos := Vec3(0.0, 0.0, 0.0);
      lastSwipeTime := 0.0;
      lastIsPointing := false;
      lastIsOpen := true;
      gestureStableTime := 0.0;
      position := Vec3(0.0, 0.0, 0.0);
      rotation := Rotation(0.0, 0.0);
      meshScale := Vec3(1.0, 1.0, 1.0);
    }

    /** One frame: `gestureData` is the latest sample list, `now` the clock in ms,
        `delta` the frame time in s and `viewport` the visible area. */
    method Tick(gestureData: seq<HandGestureData>, now: real, delta: real, viewport: Viewport)
      requires ValidViewport(viewport)
      modifies this
      ensures Model() == Step(old(Model()), gestureData, now, delta, viewport)
      ensures old(Valid()) ==> Valid()
    {
      ghost var before := Model();
      var isHandDetected := |gestureData| > 0 && gestureData[0].detected;
      CheckGestureStability(gestureData, now, isHandDetected);
      ApplySwipeToggle(gestureData, now, isHandDetected);
      UpdateTargetPosition(gestureData, isHandDetected, viewport);
      var speed := if cardState == Visible then FollowFactor else FlyFactor;
      position := LerpVec(position, targetPos, speed);
      UpdateScaleAndRotation(gestureData, delta, isHandDetected, viewport);
      meshScale := Vec3(scale, scale, scale);
      ScaleRule(before, gestureData, now, delta, viewport);
    }

    /** Gesture stability: restart the immunity window when the pair changes. */
    method CheckGestureStability(gestureData: seq<HandGestureData>, now: real, isHandDetected: bool)
      requires isHandDetected == HandDetected(gestureData)
      modifies this
      ensures Model() == TrackGesture(old(Model()), gestureData, now)
    {
      if isHandDetected {
        var data := gestureData[0];
        var gestureChanged := data.isPointing != lastIsPointing || data.isOpen != lastIsOpen;
        if gestureChanged {
          gestureStableTime := now;
          lastIsPointing := data.isPointing;
          lastIsOpen := data.isOpen;
        }
      }
    }

    /** The odd/even toggle: dismiss in the swipe's direction, or summon back. */
    method ApplySwipeToggle(gestureData: seq<HandGestureData>, now: real, isHandDetected: bool)
      requires isHandDetected == HandDetected(gestureData)
      modifies this
      ensures Model() == ToggleCard(old(Model()), gestureData, now)
    {
      var isGestureStable := now - gestureStableTime > GestureImmunityMs;
      if isHandDetected && isGestureStable && now - lastSwipeTime > SwipeCooldown {
        var data := gestureData[0];
        if data.vx * data.vx + data.vy * data.vy > SwipeThreshold * SwipeThreshold {
          if cardState == Visible {
            if Abs(data.vy) > Abs(data.vx) {
              cardState := if data.vy < 0.0 then GoneUp else GoneDown;
            } else {
              cardState := if data.vx < 0.0 then GoneLeft else GoneRight;
            }
            lastSwipeTime := now;
          } else {
            cardState := Visible;
            lastSwipeTime := now;
          }
        }
      }
    }

    /** The target position for the current state and sample. */
    method UpdateTargetPosition(gestureData: seq<HandGestureData>, isHandDetected: bool, viewport: Viewport)
      requires isHandDetected == HandDetected(gestureData)
      modifies this
      ensures Model() == old(Model()).(targetPos := TargetPosition(cardState, gestureData, scale, viewport))
    {
      if cardState == Visible {
        if isHandDetected {
          var data := gestureData[0];
          var handX := (data.x - 0.5) * viewport.width;
          var handY := -(data.y - 0.5) * viewport.height;
          if data.isPointing {
            var verticalOffset := 0.3 + scale * 0.3;
            targetPos := Vec3(handX, handY + verticalOffset, 0.5);
          } else {
            targetPos := Vec3(handX, handY, 0.0);
          }
        } else {
          targetPos := Vec3(0.0, 0.0, 0.0);
        }
      } else if cardState == GoneUp {
        targetPos := Vec3(0.0, FlyDistance, 0.0);
      } else if cardState == GoneDown {
        targetPos := Vec3(0.0, -FlyDistance, 0.0);
      } else if cardState == GoneLeft {
        targetPos := Vec3(-FlyDistance, 0.0, 0.0);
      } else {
        targetPos := Vec3(FlyDistance, 0.0, 0.0);
      }
    }

    /** Spin, tilt or relax the rotation, and ease the scale while following an
        unpointed hand. */
    method UpdateScaleAndRotation(gestureData: seq<HandGestureData>, delta: real, isHandDetected: bool,
                                  viewport: Viewport)
      requires isHandDetected == HandDetected(gestureData)
      requires ValidViewport(viewport)
      modifies this
      ensures Model() == old(Model()).(
                scale := NextScale(cardState, gestureData, old(scale)),
                rotation := NextRotation(cardState, gestureData, old(rotation), position, delta, viewport))
    {
      if cardState == Visible && isHandDetected {
        var data := gestureData[0];
        if data.isPointing {
          rotation := rotation.(x := Lerp(rotation.x, 0.0, EaseFactor));
          rotation := rotation.(y := rotation.y + delta * PointSpinRate);
        } else {
          var targetScale := if data.isOpen then OpenScale else FistScale;
          scale := Lerp(scale, targetScale, EaseFactor);
          var targetTiltX := (position.y / viewport.height) * 0.5;
          var targetTiltY := (position.x / viewport.width) * 0.5;
          rotation := rotation.(x := Lerp(rotation.x, targetTiltX, EaseFactor));
          rotation := rotation.(y := Lerp(rotation.y, targetTiltY, EaseFactor));
        }
      } else {
        rotation := rotation.(x := Lerp(rotation.x, 0.0, EaseFactor));
        if cardState != Visible {
          rotation := rotation.(y := rotation.y + delta * FlySpinRate);
        } else {
          rotation := rotation.(y := Lerp(rotation.y, 0.0, EaseFactor));
        }
      }
    }
  }
}
