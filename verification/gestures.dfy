/**
  The gesture classifier: the body of the hand-tracking results callback. From
  the 21 normalised landmarks of one hand it derives the palm position, a
  spread factor and one of the labels open, fist, pinch and peace; with no hand
  it keeps the previous label and spread and clears the hand position.
 */
module Gestures {
  import opened Basics

  /** A normalised landmark: x and y in the video frame, y growing downwards. */
  datatype Landmark = Landmark(x: real, y: real)

  /** The landmarks of one detected hand, indexed by their anatomical meaning. */
  type Hand = h: seq<Landmark> | |h| == 21 witness seq(21, _ => Landmark(0.0, 0.0))

  const Wrist := 0
  const ThumbTip := 4
  const IndexPip := 6
  const IndexTip := 8
  const MiddleBase := 9
  const MiddlePip := 10
  const MiddleTip := 12
  const RingPip := 14
  const RingTip := 16
  const PinkyPip := 18
  const PinkyTip := 20

  /** Fingertips and their PIP joints, pairwise: index, middle, ring, pinky. */
  const FingerTips: seq<nat> := [IndexTip, MiddleTip, RingTip, PinkyTip]
  const FingerPips: seq<nat> := [IndexPip, MiddlePip, RingPip, PinkyPip]

  /** The gesture label; `NoGesture` is the label before any hand was seen. */
  datatype Label = NoGesture | Open | Fist | Pinch | Peace

  datatype HandPosition = HandPosition(x: real, y: real)

  datatype GestureState = GestureState(
    gesture: Label,
    handPosition: Option<HandPosition>,
    spread: real,
    isDetecting: bool)

  const InitialGestureState := GestureState(NoGesture, None, 1.0, false)

  /** The pinch threshold on the thumb-to-index distance. */
  const PinchThreshold := 0.08

  /** Euclidean distance in the image plane, through `Math.sqrt` and `Math.pow(_, 2)`. */
  function Distance(a: Landmark, b: Landmark, m: Math): real {
    m.sqrt(Pow(a.x - b.x, 2) + Pow(a.y - b.y, 2))
  }

  /** Thumb tip to pinky tip: how far the hand is spread. */
  function HandSpread(h: Hand, m: Math): real {
    Distance(h[ThumbTip], h[PinkyTip], m)
  }

  /** Thumb tip to index tip. */
  function PinchDistance(h: Hand, m: Math): real {
    Distance(h[ThumbTip], h[IndexTip], m)
  }

  /** Every fingertip is below its PIP joint (the `every` over the two landmark lists). */
  predicate FingersClosed(h: Hand) {
    forall k :: 0 <= k < |FingerTips| ==> h[FingerTips[k]].y > h[FingerPips[k]].y
  }

  /** Index and middle fingers up, ring and pinky fingers down. */
  predicate PeaceSign(h: Hand) {
    && h[IndexTip].y < h[IndexPip].y
    && h[MiddleTip].y < h[MiddlePip].y
    && h[RingTip].y > h[RingPip].y
    && h[PinkyTip].y > h[PinkyPip].y
  }

  predicate Pinched(h: Hand, m: Math) {
    PinchDistance(h, m) < PinchThreshold
  }

  /**
    The label, computed as the callback does: start from open, then let the fist
    test, the pinch test and the peace test each overwrite it in that order.
    The contract is the resulting decision table: peace wins over everything,
    pinch over fist, and open is left only when no test holds.
   */
  function Classify(h: Hand, m: Math): (g: Label)
    ensures g == Peace <==> PeaceSign(h)
    ensures g == Pinch <==> !PeaceSign(h) && Pinched(h, m)
    ensures g == Fist <==> !PeaceSign(h) && !Pinched(h, m) && FingersClosed(h)
    ensures g == Open <==> !PeaceSign(h) && !Pinched(h, m) && !FingersClosed(h)
    ensures g != NoGesture
  {
    var gesture := Open;
    var gesture := if FingersClosed(h) then Fist else gesture;
    var gesture := if Pinched(h, m) then Pinch else gesture;
    if PeaceSign(h) then Peace else gesture
  }

  /** Palm centre: the midpoint of the wrist and the base of the middle finger. */
  function PalmCenter(h: Hand): (c: HandPosition)
    ensures c.x - h[Wrist].x == h[MiddleBase].x - c.x
    ensures c.y - h[Wrist].y == h[MiddleBase].y - c.y
  {
    HandPosition((h[Wrist].x + h[MiddleBase].x) / 2.0, (h[Wrist].y + h[MiddleBase].y) / 2.0)
  }

  /**
    One results callback. `hands` lists the detected hands (empty when the list is
    absent or empty); only the first is used.
   */
  function OnResults(prev: GestureState, hands: seq<Hand>, m: Math): (next: GestureState)
    ensures |hands| == 0 ==>
      next.gesture == prev.gesture && next.spread == prev.spread
      && next.handPosition == None && !next.isDetecting
    ensures |hands| > 0 ==>
      && next.isDetecting
      && next.handPosition == Some(PalmCenter(hands[0]))
      && next.gesture == Classify(hands[0], m)
      && (next.gesture == Fist ==> next.spread == 0.3)
      && (next.gesture != Fist ==> next.spread == 1.0 + HandSpread(hands[0], m) * 5.0)
  {
    if |hands| > 0 then
      var h := hands[0];
      var gesture := Classify(h, m);
      var spreadFactor := 1.0 + HandSpread(h, m) * 5.0;
      GestureState(gesture, Some(PalmCenter(h)), if gesture == Fist then 0.3 else spreadFactor, true)
    else
      prev.(handPosition := None, isDetecting := false)
  }

  /** The fist test spelled out finger by finger. */
  lemma FingersClosedPairwise(h: Hand)
    ensures FingersClosed(h) <==>
      && h[IndexTip].y > h[IndexPip].y
      && h[MiddleTip].y > h[MiddlePip].y
      && h[RingTip].y > h[RingPip].y
      && h[PinkyTip].y > h[PinkyPip].y
  {
    if h[IndexTip].y > h[IndexPip].y && h[MiddleTip].y > h[MiddlePip].y
      && h[RingTip].y > h[RingPip].y && h[PinkyTip].y > h[PinkyPip].y
    {
      forall k | 0 <= k < |FingerTips|
        ensures h[FingerTips[k]].y > h[FingerPips[k]].y
      {
        assert k == 0 || k == 1 || k == 2 || k == 3;
      }
    }
    if FingersClosed(h) {
      assert h[FingerTips[0]].y > h[FingerPips[0]].y;
      assert h[FingerTips[1]].y > h[FingerPips[1]].y;
      assert h[FingerTips[2]].y > h[FingerPips[2]].y;
      assert h[FingerTips[3]].y > h[FingerPips[3]].y;
    }
  }

  /** A closed fist (index tip below its joint) never shows the peace sign (index tip above it). */
  lemma FistExcludesPeace(h: Hand)
    ensures FingersClosed(h) ==> !PeaceSign(h)
  {
    FingersClosedPairwise(h);
  }

  /** Hence the label is fist exactly when the fist test holds and the pinch test does not. */
  lemma FistIffClosedAndNotPinched(h: Hand, m: Math)
    ensures Classify(h, m) == Fist <==> FingersClosed(h) && !Pinched(h, m)
  {
    FistExcludesPeace(h);
  }

  /** With a true square root, the pinch test is `dx² + dy² < 0.0064`, no root needed. */
  lemma PinchBySquaredDistance(h: Hand, m: Math)
    requires SqrtIsRoot(m)
    ensures var dx := h[ThumbTip].x - h[IndexTip].x;
      var dy := h[ThumbTip].y - h[IndexTip].y;
      Pinched(h, m) <==> dx * dx + dy * dy < 0.0064
  {
    var dx := h[ThumbTip].x - h[IndexTip].x;
    var dy := h[ThumbTip].y - h[IndexTip].y;
    var q := dx * dx + dy * dy;
    PowTwo(dx);
    PowTwo(dy);
    assert 0.0 <= q;
    var s := m.sqrt(q);
    assert 0.0 <= s && s * s == q;
    if s < 0.08 {
      assert s * s < 0.0064 by {
        assert s * s <= s * 0.08;
      }
    } else {
      assert 0.0064 <= s * s by {
        assert 0.08 * 0.08 <= s * 0.08;
        assert s * 0.08 <= s * s;
      }
    }
  }

  /**
    With a hand present, the stored spread is 0.3 exactly when the label is fist;
    otherwise it is at least 1 (one plus five times a distance).
   */
  lemma SpreadMarksFist(prev: GestureState, hands: seq<Hand>, m: Math)
    requires SqrtIsRoot(m)
    requires |hands| > 0
    ensures var next := OnResults(prev, hands, m);
      (next.spread == 0.3 <==> next.gesture == Fist)
      && (next.gesture != Fist ==> next.spread >= 1.0)
  {
    var h := hands[0];
    PowTwo(h[ThumbTip].x - h[PinkyTip].x);
    PowTwo(h[ThumbTip].y - h[PinkyTip].y);
    assert HandSpread(h, m) >= 0.0;
  }
}
