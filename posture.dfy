/** The posture classifier: a body is taken as fallen when the nose is
    vertically within a quarter of the frame height of the hips' midpoint. */
module Posture {
  import opened Signals

  /** Landmark ids of the pose model that the decision reads. */
  const PoseSize: nat := 25
  const Nose: nat := 0
  const LeftHip: nat := 23
  const RightHip: nat := 24

  /** The classifier handles an empty list; any other list must reach landmark 24. */
  predicate WellFormedPose(lm: seq<Landmark>) {
    |lm| == 0 || |lm| >= PoseSize
  }

  function Abs(x: real): (r: real) {
    if x < 0.0 then -x else x
  }

  /** Classifies a pose seen in a frame `height` pixels tall. */
  function ClassifyPosture(lm: seq<Landmark>, height: nat): (r: Observation)
    requires WellFormedPose(lm)
  {
    if |lm| == 0 then Observation(PoseNaoDetectada, 0.0)
    else
      var h := height as real;
      var noseY := lm[Nose].y * h;
      var hipY := ((lm[LeftHip].y + lm[RightHip].y) / 2.0) * h;
      if Abs(noseY - hipY) < h * 0.25 then Observation(PessoaCaida, 0.92)
      else Observation(PosturaNormal, 0.80)
  }

  /** The vertical gap between the nose and the hips' midpoint, in
      normalized coordinates. */
  function NormalizedGap(lm: seq<Landmark>): (r: real)
    requires |lm| >= PoseSize
  {
    Abs(lm[Nose].y - (lm[LeftHip].y + lm[RightHip].y) / 2.0)
  }

  lemma {:induction false} AbsScale(d: real, h: real)
    requires h >= 0.0
    ensures Abs(d * h) == Abs(d) * h
  {
    if d < 0.0 {
      assert d * h <= 0.0;
      assert -(d * h) == (-d) * h;
    } else {
      assert d * h >= 0.0;
    }
  }

  /** Multiplying both sides by a positive height keeps a strict comparison. */
  lemma {:induction false} ScaleCompare(g: real, h: real, scaled: real)
    requires h > 0.0 && scaled == g * h
    ensures scaled < h * 0.25 <==> g < 0.25
  {
    assert h * 0.25 - scaled == (0.25 - g) * h;
    if g < 0.25 {
      assert (0.25 - g) * h > 0.0;
    } else {
      assert (0.25 - g) * h <= 0.0;
    }
  }

  /** The pixel-space test against a quarter of the height is the
      normalized test against 0.25. */
  lemma {:induction false} PixelTestIsNormalizedTest(nose: real, hip: real, h: real)
    requires h > 0.0
    ensures Abs(nose * h - hip * h) < h * 0.25 <==> Abs(nose - hip) < 0.25
  {
    var d := nose - hip;
    assert nose * h - hip * h == d * h;
    AbsScale(d, h);
    ScaleCompare(Abs(d), h, Abs(nose * h - hip * h));
  }

  /** The three possible outcomes, and their confidences. */
  lemma PostureOutcomes(lm: seq<Landmark>, height: nat)
    requires WellFormedPose(lm)
    ensures |lm| == 0 <==> ClassifyPosture(lm, height) == Observation(PoseNaoDetectada, 0.0)
    ensures |lm| > 0 ==>
      ClassifyPosture(lm, height) in {Observation(PessoaCaida, 0.92), Observation(PosturaNormal, 0.80)}
  {
  }

  /** For a frame of positive height the rule does not depend on the
      height: the body is fallen exactly when the normalized gap between
      nose and hips is below 0.25. */
  lemma {:induction false} FallenIffCloseNormalized(lm: seq<Landmark>, height: nat)
    requires |lm| >= PoseSize && height > 0
    ensures ClassifyPosture(lm, height).kind == PessoaCaida <==> NormalizedGap(lm) < 0.25
    ensures ClassifyPosture(lm, height) ==
      if NormalizedGap(lm) < 0.25 then Observation(PessoaCaida, 0.92) else Observation(PosturaNormal, 0.80)
  {
    PixelTestIsNormalizedTest(lm[Nose].y, (lm[LeftHip].y + lm[RightHip].y) / 2.0, height as real);
  }

  /** A frame of height zero never shows a fallen body (0 < 0 fails). */
  lemma ZeroHeightNeverFallen(lm: seq<Landmark>)
    requires |lm| >= PoseSize
    ensures ClassifyPosture(lm, 0) == Observation(PosturaNormal, 0.80)
  {
  }

  /** Only the nose and the two hips decide the result; in particular the
      shoulders never do. */
  lemma {:induction false} OnlyNoseAndHipsMatter(a: seq<Landmark>, b: seq<Landmark>, height: nat)
    requires |a| >= PoseSize && |b| >= PoseSize
    requires a[Nose].y == b[Nose].y && a[LeftHip].y == b[LeftHip].y && a[RightHip].y == b[RightHip].y
    ensures ClassifyPosture(a, height) == ClassifyPosture(b, height)
  {
    var h := height as real;
    assert a[Nose].y * h == b[Nose].y * h;
    assert ((a[LeftHip].y + a[RightHip].y) / 2.0) * h == ((b[LeftHip].y + b[RightHip].y) / 2.0) * h;
  }

  /** The worked case of a 720-pixel frame with the nose 72 pixels from the
      hips' midpoint: a fall. */
  lemma FallenAt720(lm: seq<Landmark>)
    requires |lm| >= PoseSize
    requires NormalizedGap(lm) == 0.1
    ensures ClassifyPosture(lm, 720) == Observation(PessoaCaida, 0.92)
  {
    FallenIffCloseNormalized(lm, 720);
  }
}
