# Gesture-controlled card: a Dafny model

This project models the two parts of the gesture-controlled card scene that make decisions.

- **The hand-gesture classifier** (`services/gestureService.ts`) turns the 21 landmarks of one detected hand into a `HandGestureData` sample:
  - the mirrored index-fingertip position;
  - a finite-difference velocity rescaled to a nominal 16.6 ms frame;
  - the open-hand and pointing flags, derived from how many of the middle, ring and pinky fingertips are folded toward the wrist.

  It keeps the previous position and timestamp between calls. Module `GestureService` states this two ways:
  - as pure functions on a `History` value (`Process`, `Detect`);
  - as the class `HandTracker`, whose fields are that memory and whose methods update them in place.
- **The card's per-frame tick** (the `useFrame` callback of `Card` in `components/CardScene.tsx`) runs these phases in order:
  1. gesture-stability tracking with a 400 ms immunity window;
  2. the odd/even swipe toggle, which dismisses the card or summons it back, with a 500 ms cooldown and a 0.08 speed threshold;
  3. the target position;
  4. position easing;
  5. scale and rotation easing.

  Module `CardScene` states the tick as the pure function `Step` on a `CardModel` value. It is also the class `Card`, whose fields are the component's refs plus the mesh transform. `Card.Tick` is proved to leave the object in the state `Step` computes. The properties of the tick are lemmas about `Step`, and about `Run`, its iteration over a sequence of frames.

Module `Types` holds the shared sample type. Module `RealArith` holds a few facts about real arithmetic, among them the equivalence between the source's length comparisons and the squared comparisons the model uses.

The world outside the model comes in as parameters:
- `now` stands for `performance.now()` and `delta` for the frame time React Three Fiber passes.
- `viewport` is the visible viewport size. It is required to be positive.
- The gesture list is the shared gesture ref's contents.
- `ready` says whether the hand landmarker has been initialised.
- `hands` holds the landmark lists the detector returned for the frame.

A hand must have at least 21 landmarks (`IsHand`), because the classifier indexes up to landmark 20.

The dismissal axis test `Math.abs(vy) > Math.abs(vx)` is strict, so a tie (|vx| = |vy|) dismisses horizontally (`CardScene.DismissState`, `CardScene.DismissFollowsMotion`).

## Model

| member | source | states |
|---|---|---|
| GestureService.Mirror | services/gestureService.ts:26-29 | The screen x is `1 - x` of the index fingertip. It maps the unit interval onto itself. |
| GestureService.DistSq | services/gestureService.ts:52 | The squared landmark distance is non-negative and zero between equal points. |
| GestureService.FoldIsLengthTest | services/gestureService.ts:52-60 | For any lengths whose squares are the squared distances, `distToWrist < handSize * 1.2` holds exactly when the model's squared fold test holds. |
| GestureService.ExtensionIsLengthTest | services/gestureService.ts:52-64 | For any lengths whose squares are the squared distances, `indexTipDist > handSize * 1.5` holds exactly when the model's squared extension test holds. |
| GestureService.CountFolded | services/gestureService.ts:54-61 | Counting folded fingertips over a list never exceeds the list's length. |
| GestureService.FoldedCount | services/gestureService.ts:54-61 | The folded count is at most 3. It is the sum of one indicator each for fingertips 12, 16 and 20. It equals 3 exactly when all three are folded. |
| GestureService.CountFoldedFingers | services/gestureService.ts:54-61 | The forEach loop over `[12, 16, 20]` yields exactly `FoldedCount`. |
| GestureService.ClassifyHand | services/gestureService.ts:50-67 | The gesture step of the classifier sets the open and pointing flags to exactly `IsOpenHand` and `IsPointingHand` of the hand. |
| GestureService.Process | services/gestureService.ts:24-78 | A classified sample is always `detected`. Its position is the mirrored index fingertip. The new memory is that position with the call's timestamp. |
| GestureService.VelocityWindow | services/gestureService.ts:31-42 | The velocity is exactly zero unless 0 < dt < 100. Inside the window, velocity × dt = displacement × 16.6, so the velocity is zero exactly when the fingertip did not move. |
| GestureService.ConsecutiveCalls | services/gestureService.ts:32-47 | The second of two calls measures its velocity against the first call's position and timestamp. |
| GestureService.RepeatedClassification | services/gestureService.ts:32-47 | Classifying the same hand twice at one timestamp repeats the sample with zero velocity and leaves the memory unchanged. |
| GestureService.OpenAndPointing | services/gestureService.ts:63-67 | A hand is open exactly when not all of 12/16/20 are folded. It is pointing exactly when the index is extended and all three are folded. The two flags are never both set. |
| GestureService.Detect | services/gestureService.ts:80-91 | There is at most one sample, and exactly one when the landmarker is ready and some hand was found. With no sample the memory is unchanged. Every sample is `detected`. |
| GestureService.HandTracker.constructor | services/gestureService.ts:5-7 | The memory starts at timestamp 0 and position (0, 0). |
| GestureService.HandTracker.ProcessHandLandmarks | services/gestureService.ts:24-78 | The imperative classifier returns `Process`'s sample and overwrites the memory with the new position and timestamp. |
| GestureService.HandTracker.DetectHandGesture | services/gestureService.ts:80-91 | The imperative detection returns `Detect`'s samples and leaves `Detect`'s memory. |
| RealArith.SquareMonotone | services/gestureService.ts:59-60 | For non-negative reals, `a < b` exactly when `a*a < b*b`. |
| RealArith.HypotComparison | services/gestureService.ts:59-64 | For non-negative lengths d, e and factor k, `d < k*e` and `d > k*e` agree with the same comparisons of the squares. |
| CardScene.Lerp | components/CardScene.tsx:164-185 | `MathUtils.lerp(a, b, t)` leaves the remaining gap at `(1 - t)` of the old one. For t in [0, 1] the result lies between a and b. |
| CardScene.Step | components/CardScene.tsx:78-191 | After a tick the mesh scale is the uniform scale `(s, s, s)` of the card's scale. |
| CardScene.FlickIsSpeedTest | components/CardScene.tsx:103-105 | For the Euclidean speed `hypot(vx, vy)`, `speed > 0.08` holds exactly when the model's squared flick test holds. |
| CardScene.StabilityTracking | components/CardScene.tsx:86-95 | A change of the (pointing, open) pair restarts the stability timer at `now` and stores the pair. Otherwise the timer and the pair are kept. After a frame with a hand, the stored pair is the hand's. |
| CardScene.SwipeGuard | components/CardScene.tsx:97-122 | The card state changes exactly when a hand is seen, the pair is unchanged, more than 400 ms have passed since the last gesture change and more than 500 ms since the last swipe, and the speed exceeds 0.08. The swipe time becomes `now` exactly then. |
| CardScene.DismissDirection | components/CardScene.tsx:106-115 | A qualifying swipe on a visible card goes to the state named by the velocity and stamps the swipe time. |
| CardScene.DismissFollowsMotion | components/CardScene.tsx:108-114 | The flight direction points along the hand's on-screen motion, always leaving the visible state. It is vertical exactly when abs(vy) > abs(vx), and it stays in the screen plane. |
| CardScene.SummonBack | components/CardScene.tsx:116-120 | From any flown-off state a qualifying swipe returns the card, whatever its direction, and stamps the swipe time. |
| CardScene.DismissThenSummon | components/CardScene.tsx:99-122 | Two qualifying swipes from the visible state dismiss the card and then bring it back. |
| CardScene.ImmunityWindow | components/CardScene.tsx:86-101 | A frame that changes the gesture pair does not move the card, and neither does the next frame if it comes within 400 ms (`ImmunityRun` covers whole runs). |
| CardScene.CooldownWindow | components/CardScene.tsx:101-119 | After a frame that moved the card, the next frame does not move it again if it comes within 500 ms (`CooldownRun` covers whole runs). |
| CardScene.TargetWhileVisible | components/CardScene.tsx:126-142 | While visible the target is one of three points: the hand plus a hover of 0.3 + 0.3·scale at depth 0.5 when pointing; the hand at depth 0 otherwise; the origin with no hand. |
| CardScene.HandInsideViewport | components/CardScene.tsx:128-129 | A hand in the normalised frame maps inside the viewport, with the y axis flipped. |
| CardScene.TargetWhileGone | components/CardScene.tsx:143-150 | A flown-off card targets 15 units along its state's axis. |
| CardScene.PositionSmoothing | components/CardScene.tsx:155-157 | Each coordinate closes 10% of the gap to the target while visible and 8% otherwise, ending between its old value and the target. |
| CardScene.ScaleRule | components/CardScene.tsx:161-169 | The scale changes only for a visible card with a detected, non-pointing hand. It then closes 10% of the gap to 2.5 (open) or 0.5 (fist), so [0.5, 2.5] is preserved. |
| CardScene.RotationRule | components/CardScene.tsx:161-187 | While pointing, the yaw spins by 6·delta; while flown off, by 15·delta. The pitch relaxes to 90% unless the card follows an unpointed hand, and the yaw does too on a visible card with no hand. Following an unpointed hand, each closes exactly 10% of its gap to the tilt (new position over viewport size, times 0.5), ending between its old value and the tilt. |
| CardScene.ThresholdIsStrict | components/CardScene.tsx:105 | A speed of exactly 0.08 is not a swipe. |
| CardScene.FlickRight | components/CardScene.tsx:101-113 | A flick with vx = 0.2 and vy = 0.01 on a stable visible card sends it right. |
| CardScene.ToggleParity | components/CardScene.tsx:99-121 | Over any run of frames the card is visible exactly when it started visible after an even number of qualifying swipes, or started flown off after an odd number. |
| CardScene.ScaleRangeRun | components/CardScene.tsx:167-169 | Over any run of frames starting in [0.5, 2.5], the scale stays there. |
| CardScene.CooldownRun | components/CardScene.tsx:101-119 | Over any run of frames each at most 500 ms after the last swipe, the card state and the swipe time stay unchanged. |
| CardScene.ImmunityRun | components/CardScene.tsx:86-101 | If the last gesture change is stamped at or after t0, no run of frames whose clocks lie in [t0, t0 + 400] moves the card. |
| CardScene.GestureChangeFreezesRun | components/CardScene.tsx:86-101 | A frame that changes the gesture pair, followed by any frames within 400 ms of it, leaves the card state where it was. |
| CardScene.Card.constructor | components/CardScene.tsx:53-67 | The refs start visible at scale 1, target and position at the origin, timers at 0, last pair (not pointing, open). |
| CardScene.Card.Tick | components/CardScene.tsx:78-191 | One imperative tick leaves the card in exactly the state `Step` computes and preserves the scale range and the uniform mesh scale. |
| CardScene.Card.CheckGestureStability | components/CardScene.tsx:85-95 | The stability phase performs `TrackGesture` on the fields. |
| CardScene.Card.ApplySwipeToggle | components/CardScene.tsx:97-122 | The toggle phase performs `ToggleCard` on the fields. |
| CardScene.Card.UpdateTargetPosition | components/CardScene.tsx:124-151 | The target phase sets only the target, to `TargetPosition`. |
| CardScene.Card.UpdateScaleAndRotation | components/CardScene.tsx:159-187 | The scale and rotation phase sets only scale and rotation, to `NextScale` and `NextRotation`. |

## Left out

- The early return when the mesh is not mounted (`if (!meshRef.current) return;`) is not modelled. The model's card always has a mesh.
- Rendering is left out: textures, SVG encoding, JSX, lighting and the `Scene` wrapper are presentation only.
- `initializeHandLandmarker` and `detectForVideo` load and run a neural network over the network and the GPU. Their outcomes enter as the `ready` flag and the `hands` lists.
- `App.tsx` is not part of this model: the camera loop, the gesture ref plumbing and the UI overlay.
- Arithmetic is on exact reals. IEEE-754 rounding, NaN and infinities are not modelled.
- `Math.hypot` is not modelled as a square root. The model compares squared lengths. `FoldIsLengthTest`, `ExtensionIsLengthTest` and `FlickIsSpeedTest` prove that these agree with the source's comparisons of lengths.
- The landmarks' depth coordinate is never read by the classifier and is omitted. The mesh's z rotation is never written and is omitted.
- The viewport is assumed to have a positive width and height (`Step` and `Card.Tick` require it). The tilt divides by both.
- Missing fields are not modelled. JavaScript would throw on a hand with fewer than 21 landmarks, and `IsHand` excludes such hands. A sample with undefined fields cannot occur, because the sample type's fields are all present.
- GestureService.OpenAndPointing: no lemma states that scaling every landmark about the wrist by a factor c > 0 leaves `isOpen` and `isPointing` unchanged. The fold and extension tests are only related to the raw landmarks, because the solver does not carry the products of a common factor through the squared comparisons.
