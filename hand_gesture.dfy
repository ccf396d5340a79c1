/** The hand-gesture classifier: 21 hand landmarks are reduced to a
    five-entry finger-extension vector (thumb, index, middle, ring, pinky),
    which is matched exactly against a four-row table. */
module HandGesture {
  import opened Signals

  type Bit = b: int | 0 <= b <= 1

  /** Landmark ids of the hand model. */
  const HandSize: nat := 21
  const ThumbTip: nat := 4
  const ThumbIp: nat := 3
  /** Tips and proximal joints of index, middle, ring and pinky, in that order. */
  const Tips: seq<nat> := [8, 12, 16, 20]
  const Pips: seq<nat> := [6, 10, 14, 18]

  /** The classifier handles an empty list; any other list must reach landmark 20. */
  predicate WellFormedHand(lm: seq<Landmark>) {
    |lm| == 0 || |lm| >= HandSize
  }

  /** Finger f (0 = thumb, 1..4 = index..pinky) is extended: the thumb tip
      lies right of its interphalangeal joint, any other tip lies above its
      proximal joint (smaller y). */
  predicate Extended(lm: seq<Landmark>, f: nat)
    requires |lm| >= HandSize && f < 5
  {
    if f == 0 then lm[ThumbTip].x > lm[ThumbIp].x
    else lm[Tips[f - 1]].y < lm[Pips[f - 1]].y
  }

  /** The finger-extension vector, one bit per finger. */
  function FingerVector(lm: seq<Landmark>): (r: seq<Bit>)
    requires |lm| >= HandSize
  {
    seq(5, f requires 0 <= f < 5 => if Extended(lm, f) then 1 else 0)
  }

  /** Builds the vector as the source does: the thumb bit first, then one
      bit per (tip, pip) pair in a loop. */
  method ComputeFingers(lm: seq<Landmark>) returns (fingers: seq<Bit>)
    requires |lm| >= HandSize
    ensures fingers == FingerVector(lm)
  {
    fingers := if lm[ThumbTip].x > lm[ThumbIp].x then [1] else [0];
    var i := 0;
    while i < |Tips|
      invariant 0 <= i <= |Tips|
      invariant fingers == FingerVector(lm)[..i + 1]
    {
      var bit: Bit := if lm[Tips[i]].y < lm[Pips[i]].y then 1 else 0;
      fingers := fingers + [bit];
      i := i + 1;
    }
  }

  /** The gesture table; any vector outside it is undefined at 0.3. */
  function MatchGesture(fingers: seq<Bit>): (r: Observation) {
    if fingers == [0, 1, 1, 1, 1] then Observation(Socorro, 0.95)
    else if fingers == [1, 1, 0, 0, 0] then Observation(EstouBem, 0.90)
    else if fingers == [0, 1, 1, 0, 0] then Observation(PrecisoAjuda, 0.85)
    else if fingers == [1, 1, 1, 1, 1] then Observation(Pare, 0.88)
    else Observation(Indefinido, 0.3)
  }

  /** The classifier as a function of the landmarks. */
  function ClassifyHand(lm: seq<Landmark>): (r: Observation)
    requires WellFormedHand(lm)
  {
    if |lm| == 0 then Observation(NoHand, 0.0) else MatchGesture(FingerVector(lm))
  }

  /** The classifier as the source runs it: the finger loop, then the table. */
  method ClassifyHandLandmarks(lm: seq<Landmark>) returns (r: Observation)
    requires WellFormedHand(lm)
    ensures r == ClassifyHand(lm)
  {
    if |lm| == 0 {
      return Observation(NoHand, 0.0);
    }
    var fingers := ComputeFingers(lm);
    r := MatchGesture(fingers);
  }

  /** Bit f of the vector is 1 exactly when finger f is extended. */
  lemma FingerBits(lm: seq<Landmark>, f: nat)
    requires |lm| >= HandSize && f < 5
    ensures |FingerVector(lm)| == 5
    ensures FingerVector(lm)[f] == 1 <==> Extended(lm, f)
    ensures f == 0 ==> (FingerVector(lm)[0] == 1 <==> lm[4].x > lm[3].x)
    ensures f > 0 ==> (FingerVector(lm)[f] == 1 <==> lm[4 * f + 4].y < lm[4 * f + 2].y)
  {
  }

  /** The whole table, in both directions, and the empty-list case. */
  lemma GestureTable(lm: seq<Landmark>)
    requires WellFormedHand(lm)
    ensures |lm| == 0 ==> ClassifyHand(lm) == Observation(NoHand, 0.0)
    ensures |lm| > 0 ==>
      && (ClassifyHand(lm) == Observation(Socorro, 0.95) <==> FingerVector(lm) == [0, 1, 1, 1, 1])
      && (ClassifyHand(lm) == Observation(EstouBem, 0.90) <==> FingerVector(lm) == [1, 1, 0, 0, 0])
      && (ClassifyHand(lm) == Observation(PrecisoAjuda, 0.85) <==> FingerVector(lm) == [0, 1, 1, 0, 0])
      && (ClassifyHand(lm) == Observation(Pare, 0.88) <==> FingerVector(lm) == [1, 1, 1, 1, 1])
      && (ClassifyHand(lm) == Observation(Indefinido, 0.3) <==>
            FingerVector(lm) !in {[0, 1, 1, 1, 1], [1, 1, 0, 0, 0], [0, 1, 1, 0, 0], [1, 1, 1, 1, 1]})
  {
  }

  /** The ten key points decide the result: two hands that agree on the
      thumb tip and joint x and on the four tip and pip y values are
      classified alike, whatever their other landmarks are. */
  lemma {:induction false} OnlyKeyPointsMatter(a: seq<Landmark>, b: seq<Landmark>)
    requires |a| >= HandSize && |b| >= HandSize
    requires a[ThumbTip].x == b[ThumbTip].x && a[ThumbIp].x == b[ThumbIp].x
    requires forall k | 0 <= k < 4 :: a[Tips[k]].y == b[Tips[k]].y && a[Pips[k]].y == b[Pips[k]].y
    ensures ClassifyHand(a) == ClassifyHand(b)
  {
    forall f | 0 <= f < 5
      ensures FingerVector(a)[f] == FingerVector(b)[f]
    {
      if f > 0 {
        assert a[Tips[f - 1]].y == b[Tips[f - 1]].y && a[Pips[f - 1]].y == b[Pips[f - 1]].y;
      }
    }
    assert FingerVector(a) == FingerVector(b);
  }

  /** Only the four table gestures clear the 0.7 promotion threshold:
      undefined shapes and empty hands never reach the stabilizer. */
  lemma PromotableGestures(lm: seq<Landmark>)
    requires WellFormedHand(lm)
    ensures 0.0 <= ClassifyHand(lm).confidence <= 0.95
    ensures ClassifyHand(lm).confidence > 0.7 <==>
      ClassifyHand(lm).kind in {Socorro, EstouBem, PrecisoAjuda, Pare}
    ensures ClassifyHand(lm).confidence > 0.0 <==> |lm| > 0
  {
  }
}
