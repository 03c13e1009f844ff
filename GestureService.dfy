/** The per-frame gesture classifier (services/gestureService.ts).

    A hand is an ordered list of landmarks (0 = wrist, 8 = index fingertip,
    9 = middle-finger knuckle, 12/16/20 = middle/ring/pinky fingertips). The
    classifier keeps the previous position and timestamp between calls; here that
    memory is the `History` value threaded through `Process`, and the fields of a
    `HandTracker` object in the imperative version. */
module GestureService {
  import opened Types
  import opened RealArith

  /** A normalised landmark; its depth coordinate is never read and is omitted. */
  datatype Landmark = Landmark(x: real, y: real)

  /** The classifier's memory of the previous call. */
  datatype History = History(lastTimestamp: real, lastX: real, lastY: real)

  /** What one classification yields: the new memory and the sample. */
  datatype Classified = Classified(history: History, sample: HandGestureData)

  /** What one detection yields: the new memory and zero or one sample. */
  datatype Detection = Detection(history: History, samples: seq<HandGestureData>)

  const Wrist: nat := 0
  const IndexTip: nat := 8
  const MiddleMcp: nat := 9
  const MiddleTip: nat := 12
  const RingTip: nat := 16
  const PinkyTip: nat := 20
  const FoldTips: seq<nat> := [MiddleTip, RingTip, PinkyTip]
  const LandmarkCount: nat := 21

  /** A fingertip closer to the wrist than FoldRatio hand sizes is folded. */
  const FoldRatio: real := 1.2
  /** The index finger is extended when its tip is farther than ExtendRatio hand sizes. */
  const ExtendRatio: real := 1.5
  /** Velocities are rescaled to displacement per nominal (~60 fps) frame. */
  const NominalFrameMs: real := 16.6
  /** Frame gaps at or beyond this many milliseconds report zero velocity. */
  const MaxFrameGapMs: real := 100.0

  /** The detector yields 21 landmarks per hand; the classifier reads up to index 20. */
  predicate IsHand(lm: seq<Landmark>)
  {
    |lm| >= LandmarkCount
  }

  /** The classifier's memory before the first call. */
  function InitialHistory(): History
  {
    History(0.0, 0.0, 0.0)
  }

  /** The horizontal mirror applied to compensate for a mirrored video feed. */
  function Mirror(x: real): (r: real)
    ensures 0.0 <= x <= 1.0 ==> 0.0 <= r <= 1.0
  {
    1.0 - x
  }

  /** Squared Euclidean distance; every `hypot(..) < k * hypot(..)` test of the source is
      stated on these (see RealArith.HypotComparison). */
  function DistSq(a: Landmark, b: Landmark): (r: real)
    ensures r >= 0.0
    ensures a == b ==> r == 0.0
  {
    var dx := a.x - b.x;
    var dy := a.y - b.y;
    SquareNonNegative(dx);
    SquareNonNegative(dy);
    dx * dx + dy * dy
  }

  /** Squared hand size: wrist to middle-finger knuckle. */
  function HandSizeSq(lm: seq<Landmark>): real
    requires IsHand(lm)
  {
    DistSq(lm[MiddleMcp], lm[Wrist])
  }

  /** Fingertip `tip` is folded when it is closer to the wrist than 1.2 hand sizes. */
  predicate IsFolded(lm: seq<Landmark>, tip: nat)
    requires IsHand(lm) && tip < |lm|
  {
    DistSq(lm[tip], lm[Wrist]) < FoldRatio * FoldRatio * HandSizeSq(lm)
  }

  /** IsFolded is the source's test on Euclidean lengths: `dist` and `handSize` are
      the lengths `hypot` returns for the fingertip and for the hand. */
  lemma FoldIsLengthTest(lm: seq<Landmark>, tip: nat, dist: real, handSize: real)
    requires IsHand(lm) && tip < |lm|
    requires dist >= 0.0 && dist * dist == DistSq(lm[tip], lm[Wrist])
    requires handSize >= 0.0 && handSize * handSize == HandSizeSq(lm)
    ensures dist < handSize * FoldRatio <==> IsFolded(lm, tip)
  {
    HypotComparison(dist, DistSq(lm[tip], lm[Wrist]), handSize, HandSizeSq(lm), FoldRatio);
  }

  /** The index finger is extended when its tip is farther than 1.5 hand sizes from the wrist. */
  predicate IndexExtended(lm: seq<Landmark>)
    requires IsHand(lm)
  {
    DistSq(lm[IndexTip], lm[Wrist]) > ExtendRatio * ExtendRatio * HandSizeSq(lm)
  }

  /** IndexExtended is the source's test on Euclidean lengths. */
  lemma ExtensionIsLengthTest(lm: seq<Landmark>, dist: real, handSize: real)
    requires IsHand(lm)
    requires dist >= 0.0 && dist * dist == DistSq(lm[IndexTip], lm[Wrist])
    requires handSize >= 0.0 && handSize * handSize == HandSizeSq(lm)
    ensures dist > handSize * ExtendRatio <==> IndexExtended(lm)
  {
    HypotComparison(dist, DistSq(lm[IndexTip], lm[Wrist]), handSize, HandSizeSq(lm), ExtendRatio);
  }

  function Indicator(b: bool): nat
  {
    if b then 1 else 0
  }

  predicate TipsInHand(lm: seq<Landmark>, tips: seq<nat>)
  {
    forall i :: 0 <= i < |tips| ==> tips[i] < |lm|
  }

  /** The number of folded fingertips among `tips`, counted in list order. */
  function CountFolded(lm: seq<Landmark>, tips: seq<nat>): (n: nat)
    requires IsHand(lm) && TipsInHand(lm, tips)
    ensures n <= |tips|
    decreases |tips|
  {
    if tips == [] then 0
    else
      var last := |tips| - 1;
      CountFolded(lm, tips[..last]) + Indicator(IsFolded(lm, tips[last]))
  }

  /** The folded-finger count of the source: how many of the middle, ring and pinky
      fingertips are folded. */
  function FoldedCount(lm: seq<Landmark>): (n: nat)
    requires IsHand(lm)
    ensures n <= 3
    ensures n == Indicator(IsFolded(lm, MiddleTip)) + Indicator(IsFolded(lm, RingTip))
                 + Indicator(IsFolded(lm, PinkyTip))
    ensures n == 3 <==> IsFolded(lm, MiddleTip) && IsFolded(lm, RingTip) && IsFolded(lm, PinkyTip)
  {
    var two := FoldTips[..2];
    var one := two[..1];
    assert two == [MiddleTip, RingTip] && one == [MiddleTip] && one[..0] == [];
    assert CountFolded(lm, one) == Indicator(IsFolded(lm, MiddleTip));
    assert CountFolded(lm, two) == CountFolded(lm, one) + Indicator(IsFolded(lm, RingTip));
    CountFolded(lm, FoldTips)
  }

  /** The open-hand test: fewer than three of the watched fingertips are folded. */
  predicate IsOpenHand(lm: seq<Landmark>)
    requires IsHand(lm)
  {
    FoldedCount(lm) < 3
  }

  /** The pointing test: the index finger is extended and the other three are folded. */
  predicate IsPointingHand(lm: seq<Landmark>)
    requires IsHand(lm)
  {
    IndexExtended(lm) && FoldedCount(lm) >= 3
  }

  /** Finite-difference velocity against the stored history, rescaled to a nominal
      frame; zero when the elapsed time is not in (0, 100) ms. */
  function Velocity(h: History, x: real, y: real, timestamp: real): (real, real)
  {
    var dt := timestamp - h.lastTimestamp;
    if 0.0 < dt < MaxFrameGapMs then
      var timeScale := NominalFrameMs / dt;
      ((x - h.lastX) * timeScale, (y - h.lastY) * timeScale)
    else
      (0.0, 0.0)
  }

  /** One classification (processHandLandmarks) as a value: from the memory, one
      hand and the frame timestamp to the new memory and the sample. */
  function Process(h: History, lm: seq<Landmark>, timestamp: real): (r: Classified)
    requires IsHand(lm)
    ensures r.sample.detected
    ensures r.history == History(timestamp, r.sample.x, r.sample.y)
    ensures r.sample.x == Mirror(lm[IndexTip].x) && r.sample.y == lm[IndexTip].y
  {
    var x := Mirror(lm[IndexTip].x);
    var y := lm[IndexTip].y;
    var v := Velocity(h, x, y, timestamp);
    Classified(
      History(timestamp, x, y),
      HandGestureData(x, y, v.0, v.1, IsOpenHand(lm), IsPointingHand(lm), true))
  }

  /** The velocity window: outside (0, 100) ms the velocity is exactly zero; inside it
      the velocity times the elapsed time is the displacement times 16.6, so it is zero
      exactly when the fingertip did not move. */
  lemma VelocityWindow(h: History, lm: seq<Landmark>, timestamp: real)
    requires IsHand(lm)
    ensures var s := Process(h, lm, timestamp).sample;
            var dt := timestamp - h.lastTimestamp;
            && (dt <= 0.0 || dt >= MaxFrameGapMs ==> s.vx == 0.0 && s.vy == 0.0)
            && (0.0 < dt < MaxFrameGapMs ==>
                  && s.vx * dt == (s.x - h.lastX) * NominalFrameMs
                  && s.vy * dt == (s.y - h.lastY) * NominalFrameMs
                  && (s.vx == 0.0 <==> s.x == h.lastX)
                  && (s.vy == 0.0 <==> s.y == h.lastY))
  {
    var s := Process(h, lm, timestamp).sample;
    var dt := timestamp - h.lastTimestamp;
    if 0.0 < dt < MaxFrameGapMs {
      var timeScale := NominalFrameMs / dt;
      assert timeScale * dt == NominalFrameMs;
      assert timeScale > 0.0;
      assert s.vx == (s.x - h.lastX) * timeScale;
      assert s.vy == (s.y - h.lastY) * timeScale;
      assert s.vx * dt == (s.x - h.lastX) * (timeScale * dt);
      assert s.vy * dt == (s.y - h.lastY) * (timeScale * dt);
    }
  }

  /** Two consecutive calls: the second one's velocity is measured against the first
      one's mirrored fingertip and timestamp, whatever the memory was before. */
  lemma ConsecutiveCalls(h: History, lm1: seq<Landmark>, t1: real, lm2: seq<Landmark>, t2: real)
    requires IsHand(lm1) && IsHand(lm2)
    requires 0.0 < t2 - t1 < MaxFrameGapMs
    ensures var first := Process(h, lm1, t1);
            var second := Process(first.history, lm2, t2);
            && second.sample.vx * (t2 - t1) == (second.sample.x - first.sample.x) * NominalFrameMs
            && second.sample.vy * (t2 - t1) == (second.sample.y - first.sample.y) * NominalFrameMs
  {
    var first := Process(h, lm1, t1);
    VelocityWindow(first.history, lm2, t2);
  }

  /** Classifying the same hand twice at the same timestamp leaves the memory where
      the first call put it and repeats the sample, except that the second velocity is
      zero (the elapsed time is 0). */
  lemma RepeatedClassification(h: History, lm: seq<Landmark>, timestamp: real)
    requires IsHand(lm)
    ensures var first := Process(h, lm, timestamp);
            var second := Process(first.history, lm, timestamp);
            && second.history == first.history
            && second.sample == first.sample.(vx := 0.0, vy := 0.0)
  {
  }

  /** The open and pointing flags: open means not all three watched fingertips are
      folded, pointing means the index is extended and all three are folded; so the
      two flags are never both set. */
  lemma OpenAndPointing(h: History, lm: seq<Landmark>, timestamp: real)
    requires IsHand(lm)
    ensures var s := Process(h, lm, timestamp).sample;
            && (s.isOpen <==> !(IsFolded(lm, MiddleTip) && IsFolded(lm, RingTip) && IsFolded(lm, PinkyTip)))
            && (s.isPointing <==> IndexExtended(lm) && IsFolded(lm, MiddleTip) && IsFolded(lm, RingTip) && IsFolded(lm, PinkyTip))
            && !(s.isOpen && s.isPointing)
  {
    var n := FoldedCount(lm);
    assert n <= 3;
  }

  /** Detection as a value (detectHandGesture): nothing when the landmarker is not
      ready or no hand was found; otherwise the classification of the first hand. */
  function Detect(h: History, ready: bool, hands: seq<seq<Landmark>>, timestamp: real): (r: Detection)
    requires ready && |hands| > 0 ==> IsHand(hands[0])
    ensures |r.samples| <= 1
    ensures |r.samples| == 1 <==> ready && |hands| > 0
    ensures |r.samples| == 0 ==> r.history == h
    ensures forall i :: 0 <= i < |r.samples| ==> r.samples[i].detected
  {
    if ready && |hands| > 0 then
      var c := Process(h, hands[0], timestamp);
      Detection(c.history, [c.sample])
    else
      Detection(h, [])
  }

  /** The fold-count loop of processHandLandmarks: visit the watched fingertips in
      order and count those that are folded. */
  method CountFoldedFingers(lm: seq<Landmark>) returns (count: nat)
    requires IsHand(lm)
    ensures count == FoldedCount(lm)
  {
    var tips := FoldTips;
    count := 0;
    var i := 0;
    while i < |tips|
      invariant 0 <= i <= |tips|
      invariant count == CountFolded(lm, tips[..i])
    {
      var tip := tips[i];
      if DistSq(lm[tip], lm[Wrist]) < HandSizeSq(lm) * FoldRatio * FoldRatio {
        count := count + 1;
      }
      assert tips[..i + 1][..i] == tips[..i];
      i := i + 1;
    }
    assert tips[..i] == tips;
  }

  /** The gesture part of processHandLandmarks: the open and pointing flags. */
  method ClassifyHand(lm: seq<Landmark>) returns (isOpen: bool, isPointing: bool)
    requires IsHand(lm)
    ensures isOpen == IsOpenHand(lm) && isPointing == IsPointingHand(lm)
  {
    var foldedFingersCount := CountFoldedFingers(lm);
    var indexTipDist := DistSq(lm[IndexTip], lm[Wrist]);
    var indexIsExtended := indexTipDist > HandSizeSq(lm) * ExtendRatio * ExtendRatio;
    isPointing := indexIsExtended && foldedFingersCount >= 3;
    isOpen := foldedFingersCount < 3;
  }

  /** The classifier with its memory as mutable state (the module-level lastX, lastY
      and lastTimestamp of the source). */
  class HandTracker {
    var lastTimestamp: real
    var lastX: real
    var lastY: real

    function Memory(): History
      reads this
    {
      History(lastTimestamp, lastX, lastY)
    }

    constructor ()
      ensures Memory() == InitialHistory()
    {
      lastTimestamp, lastX, lastY := 0.0, 0.0, 0.0;
    }

    /** processHandLandmarks: classify one hand and overwrite the memory. */
    method ProcessHandLandmarks(lm: seq<Landmark>, timestamp: real) returns (data: HandGestureData)
      requires IsHand(lm)
      modifies this
      ensures data == Process(old(Memory()), lm, timestamp).sample
      ensures Memory() == Process(old(Memory()), lm, timestamp).history
      ensures Memory() == History(timestamp, data.x, data.y)
    {
      var h := Memory();
      // position
      var indexTip := lm[IndexTip];
      var x := 1.0 - indexTip.x;
      var y := indexTip.y;

      // velocity
      var dt := timestamp - lastTimestamp;
      var vx := 0.0;
      var vy := 0.0;
      if 0.0 < dt && dt < MaxFrameGapMs {
        var timeScale := NominalFrameMs / dt;
        vx := (x - lastX) * timeScale;
        vy := (y - lastY) * timeScale;
      }
      assert vx == Velocity(h, x, y, timestamp).0 && vy == Velocity(h, x, y, timestamp).1;

      // history
      lastX := x;
      lastY := y;
      lastTimestamp := timestamp;

      // gesture
      var isOpen, isPointing := ClassifyHand(lm);
      data := HandGestureData(x, y, vx, vy, isOpen, isPointing, true);
    }

    /** detectHandGesture: at most one sample, for the first detected hand.
        `ready` is false while the landmarker is not initialised; `hands` is the
        detector's landmark lists for this frame. */
    method DetectHandGesture(ready: bool, hands: seq<seq<Landmark>>, timestamp: real)
      returns (handsData: seq<HandGestureData>)
      requires ready && |hands| > 0 ==> IsHand(hands[0])
      modifies this
      ensures handsData == Detect(old(Memory()), ready, hands, timestamp).samples
      ensures Memory() == Detect(old(Memory()), ready, hands, timestamp).history
    {
      if !ready {
        return [];
      }
      handsData := [];
      if |hands| > 0 {
        var data := ProcessHandLandmarks(hands[0], timestamp);
        handsData := handsData + [data];
      }
    }
  }
}
