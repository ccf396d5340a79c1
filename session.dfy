/** The session: the displayed status, its confidence, the time of the last
    qualifying detection and the stabilizer's history, and the per-frame
    transition that folds one frame's landmarks into them. The pure
    transition `Next` specifies the class `EmergencySystem`, whose methods
    update the same state in place. */
module Session {
  import opened Signals
  import opened HandGesture
  import opened Posture
  import opened Stabilizer

  /** Seconds without any hand or pose after which the status decays to idle. */
  const IdleTimeout: real := 3.0
  /** A fall overrides the hand candidate only above this confidence. */
  const FallThreshold: real := 0.8

  datatype SessionState = SessionState(
    status: Label,
    confidence: real,
    lastDetection: real,
    history: seq<Observation>)

  /** What one camera frame supplies: the landmark lists of every detected
      hand, the pose landmarks if a body was detected, the frame height in
      pixels, and the clock reading taken for this frame. */
  datatype Frame = Frame(
    hands: seq<seq<Landmark>>,
    pose: Option<seq<Landmark>>,
    height: nat,
    now: real)

  predicate WellFormedHands(hands: seq<seq<Landmark>>) {
    forall i | 0 <= i < |hands| :: WellFormedHand(hands[i])
  }

  predicate WellFormedFrame(f: Frame) {
    WellFormedHands(f.hands) && (f.pose.Some? ==> WellFormedPose(f.pose.value))
  }

  function Initial(now: real): (r: SessionState) {
    SessionState(Monitorando, 0.0, now, [])
  }

  /** The classification of every hand, in order. */
  function Scores(hands: seq<seq<Landmark>>): (r: seq<Observation>)
    requires WellFormedHands(hands)
  {
    seq(|hands|, i requires 0 <= i < |hands| => ClassifyHand(hands[i]))
  }

  /** The running maximum: scanning left to right from ("MONITORANDO", 0.0),
      an observation replaces the best one only with a strictly larger
      confidence. */
  function Best(obs: seq<Observation>): (r: Observation)
    decreases |obs|
  {
    if obs == [] then Observation(Monitorando, 0.0)
    else
      var previous := Best(obs[..|obs| - 1]);
      var o := obs[|obs| - 1];
      if o.confidence > previous.confidence then o else previous
  }

  /** The best hand of a frame. */
  function HandCandidate(hands: seq<seq<Landmark>>): (r: Observation)
    requires WellFormedHands(hands)
  {
    Best(Scores(hands))
  }

  /** The running-maximum loop over the hands. */
  method SelectHand(hands: seq<seq<Landmark>>) returns (best: Observation)
    requires WellFormedHands(hands)
    ensures best == HandCandidate(hands)
  {
    ghost var scores := Scores(hands);
    best := Observation(Monitorando, 0.0);
    for i := 0 to |hands|
      invariant best == Best(scores[..i])
    {
      var o := ClassifyHandLandmarks(hands[i]);
      if o.confidence > best.confidence {
        best := o;
      }
      assert scores[..i + 1][..i] == scores[..i];
    }
    assert scores[..|hands|] == scores;
  }

  /** The frame's candidate: the best hand, unless the pose shows a fall
      with confidence above 0.8. */
  function FrameCandidate(f: Frame): (r: Observation)
    requires WellFormedFrame(f)
  {
    var hand := HandCandidate(f.hands);
    if f.pose.Some? then
      var p := ClassifyPosture(f.pose.value, f.height);
      if p.kind == PessoaCaida && p.confidence > FallThreshold then Observation(PessoaCaida, p.confidence)
      else hand
    else hand
  }

  /** Idle decay, checked before anything else in the frame. */
  function Decay(s: SessionState, f: Frame): (r: SessionState) {
    if |f.hands| == 0 && f.pose.None? && f.now - s.lastDetection > IdleTimeout
    then s.(status := Monitorando, confidence := 0.0)
    else s
  }

  /** One frame: decay, then, only when the candidate's confidence exceeds
      0.7, stabilize it and record the detection time. */
  function Next(s: SessionState, f: Frame): (r: SessionState)
    requires WellFormedFrame(f)
  {
    var d := Decay(s, f);
    var c := FrameCandidate(f);
    if c.confidence > PromotionThreshold then
      var h := Enqueue(d.history, c);
      var r := Decide(h, Observation(d.status, d.confidence));
      SessionState(r.kind, r.confidence, f.now, h)
    else d
  }

  /** The reset key: idle status and an empty history; the detection time
      is left as it was. */
  function ResetState(s: SessionState): (r: SessionState) {
    s.(status := Monitorando, confidence := 0.0, history := [])
  }

  /** A history entry or a displayed status that an alert produced. */
  predicate AlertSignal(o: Observation) {
    IsAlert(o.kind) && PromotionThreshold < o.confidence <= 0.95
  }

  predicate AlertEntries(history: seq<Observation>) {
    forall i | 0 <= i < |history| :: AlertSignal(history[i])
  }

  predicate DisplayedOk(o: Observation) {
    o == Observation(Monitorando, 0.0) || AlertSignal(o)
  }

  /** The session invariant: the history is within capacity and holds only
      alerts above the promotion threshold, and the status is either idle at
      0.0 or an alert with a confidence in (0.7, 0.95]. */
  predicate Inv(s: SessionState) {
    && |s.history| <= Capacity
    && AlertEntries(s.history)
    && DisplayedOk(Observation(s.status, s.confidence))
  }

  class EmergencySystem {
    var status: Label
    var confidence: real
    var lastDetection: real
    var history: seq<Observation>

    function State(): (r: SessionState)
      reads this
    {
      SessionState(status, confidence, lastDetection, history)
    }

    /** The start of a session; `now` is the clock reading at start-up. */
    constructor (now: real)
      ensures State() == Initial(now)
    {
      status := Monitorando;
      confidence := 0.0;
      lastDetection := now;
      history := [];
    }

    /** Appends the candidate to the history (dropping the oldest entry
        beyond capacity) and returns the status to display. */
    method Stabilize(gesture: Label, conf: real) returns (r: Observation)
      modifies this`history
      ensures history == Enqueue(old(history), Observation(gesture, conf))
      ensures r == Decide(history, Observation(status, confidence))
    {
      history := history + [Observation(gesture, conf)];
      if |history| > Capacity {
        history := history[1..];
      }
      if |history| >= Window {
        var recent := history[|history| - Window..];
        var top := Max3(recent[0].confidence, recent[1].confidence, recent[2].confidence);
        var common := Majority(recent[0].kind, recent[1].kind, recent[2].kind);
        if common.Some? && top > PromotionThreshold {
          return Observation(common.value, top);
        }
      }
      r := Observation(status, confidence);
    }

    /** Processes one frame's landmarks; drawing and display are not part
        of it. */
    method ProcessFrame(hands: seq<seq<Landmark>>, pose: Option<seq<Landmark>>, height: nat, now: real)
      requires WellFormedFrame(Frame(hands, pose, height, now))
      modifies this
      ensures State() == Next(old(State()), Frame(hands, pose, height, now))
      ensures Inv(old(State())) ==> Inv(State())
    {
      ghost var s := State();
      ghost var f := Frame(hands, pose, height, now);
      if |hands| == 0 && pose.None? && now - lastDetection > IdleTimeout {
        status := Monitorando;
        confidence := 0.0;
      }
      var candidate := SelectHand(hands);
      if pose.Some? {
        var p := ClassifyPosture(pose.value, height);
        if p.kind == PessoaCaida && p.confidence > FallThreshold {
          candidate := Observation(PessoaCaida, p.confidence);
        }
      }
      if candidate.confidence > PromotionThreshold {
        var r := Stabilize(candidate.kind, candidate.confidence);
        status := r.kind;
        confidence := r.confidence;
        lastDetection := now;
      }
      if Inv(s) {
        NextPreservesInv(s, f);
      }
    }

    /** The reset key. */
    method Reset()
      modifies this
      ensures State() == ResetState(old(State()))
    {
      status := Monitorando;
      confidence := 0.0;
      history := [];
    }
  }

  /** The running maximum bounds every confidence from above, is never
      negative, and is the idle ("MONITORANDO", 0.0) when it is zero. */
  lemma {:induction false} BestIsMaximum(obs: seq<Observation>)
    ensures Best(obs).confidence >= 0.0
    ensures forall i | 0 <= i < |obs| :: obs[i].confidence <= Best(obs).confidence
    ensures Best(obs).confidence == 0.0 ==> Best(obs) == Observation(Monitorando, 0.0)
    decreases |obs|
  {
    if obs != [] {
      var n := |obs| - 1;
      var prefix := obs[..n];
      BestIsMaximum(prefix);
      assert forall i | 0 <= i < n :: obs[i] == prefix[i];
    }
  }

  /** A running maximum above zero is the first observation that attains it. */
  lemma {:induction false} BestIsFirst(obs: seq<Observation>) returns (k: nat)
    requires Best(obs).confidence > 0.0
    ensures k < |obs| && Best(obs) == obs[k]
    ensures forall j | 0 <= j < k :: obs[j].confidence < Best(obs).confidence
    decreases |obs|
  {
    var n := |obs| - 1;
    var prefix := obs[..n];
    var p := Best(prefix);
    if obs[n].confidence > p.confidence {
      BestIsMaximum(prefix);
      assert forall j | 0 <= j < n :: obs[j] == prefix[j];
      k := n;
    } else {
      k := BestIsFirst(prefix);
      assert forall j | 0 <= j < n :: obs[j] == prefix[j];
    }
  }

  /** A candidate that clears the gate is an alert of confidence at most
      0.95: undefined hands, empty hands and normal postures never do. */
  lemma {:induction false} GatedCandidateIsAlert(f: Frame)
    requires WellFormedFrame(f)
    ensures FrameCandidate(f).confidence > PromotionThreshold ==>
      IsAlert(FrameCandidate(f).kind) && FrameCandidate(f).confidence <= 0.95
  {
    var scores := Scores(f.hands);
    if Best(scores).confidence > 0.0 {
      var k := BestIsFirst(scores);
      PromotableGestures(f.hands[k]);
    }
  }

  /** A detected fall overrides any hand, however confident; otherwise the
      best hand is the candidate. */
  lemma FallOverridesHands(f: Frame)
    requires WellFormedFrame(f)
    ensures f.pose.Some? && ClassifyPosture(f.pose.value, f.height).kind == PessoaCaida ==>
      FrameCandidate(f) == Observation(PessoaCaida, 0.92)
    ensures !(f.pose.Some? && ClassifyPosture(f.pose.value, f.height).kind == PessoaCaida) ==>
      FrameCandidate(f) == HandCandidate(f.hands)
  {
  }

  /** Enqueueing an alert keeps the history within capacity and made of
      alerts. */
  lemma {:induction false} EnqueueKeepsAlerts(history: seq<Observation>, c: Observation)
    requires |history| <= Capacity && AlertEntries(history) && AlertSignal(c)
    ensures |Enqueue(history, c)| <= Capacity && AlertEntries(Enqueue(history, c))
  {
    if |history| < Capacity {
      assert Enqueue(history, c) == history + [c];
    } else {
      assert Enqueue(history, c) == history[1..] + [c];
    }
  }

  /** Deciding over a history of alerts keeps the displayed status valid. */
  lemma {:induction false} DecideKeepsDisplay(history: seq<Observation>, current: Observation)
    requires AlertEntries(history) && DisplayedOk(current)
    ensures DisplayedOk(Decide(history, current))
  {
    DecideOutcome(history, current);
    if Promotes(history) {
      var w := Suffix(history, Window);
      assert AlertSignal(w[0]) && AlertSignal(w[1]) && AlertSignal(w[2]);
      assert Labels(w) == [w[0].kind, w[1].kind, w[2].kind];
    }
  }

  /** Every frame keeps the session invariant. */
  lemma {:induction false} NextPreservesInv(s: SessionState, f: Frame)
    requires WellFormedFrame(f) && Inv(s)
    ensures Inv(Next(s, f))
  {
    var d := Decay(s, f);
    var c := FrameCandidate(f);
    if c.confidence > PromotionThreshold {
      GatedCandidateIsAlert(f);
      EnqueueKeepsAlerts(d.history, c);
      DecideKeepsDisplay(Enqueue(d.history, c), Observation(d.status, d.confidence));
    }
  }

  /** The initial state and every reset satisfy the invariant. */
  lemma InitialAndResetKeepInv(now: real, s: SessionState)
    ensures Inv(Initial(now))
    ensures Inv(ResetState(s)) && ResetState(s).status == Monitorando && ResetState(s).history == []
  {
  }

  /** Under the invariant the status always has a colour and a banner
      message, so the display's table lookups never fail. */
  lemma StatusIsDisplayable(s: SessionState)
    requires Inv(s)
    ensures s.status in Messages && s.status in Colors
  {
    DisplayTables(s.status);
  }

  /** A frame with neither hands nor pose changes at most the displayed
      status: it decays to idle exactly when more than three seconds have
      passed since the last detection, and the history and detection time
      stay. */
  lemma {:induction false} IdleDecay(s: SessionState, height: nat, now: real)
    ensures var t := Next(s, Frame([], None, height, now));
      && t.history == s.history && t.lastDetection == s.lastDetection
      && (now - s.lastDetection > IdleTimeout ==> t.status == Monitorando && t.confidence == 0.0)
      && (now - s.lastDetection <= IdleTimeout ==> t == s)
  {
    assert HandCandidate([]) == Observation(Monitorando, 0.0);
  }

  /** The gate: the history and the detection time change exactly on
      frames whose candidate exceeds 0.7. Such a frame records `now`, makes
      the candidate the newest history entry, and shows the stabilizer's
      decision over the new history. Any other frame changes nothing but the
      idle decay, and a frame with a hand or a pose but no candidate above
      0.7 (an undefined hand, a normal posture) changes nothing at all. */
  lemma {:induction false} Gating(s: SessionState, f: Frame)
    requires WellFormedFrame(f)
    ensures var t := Next(s, f);
      var c := FrameCandidate(f);
      && (c.confidence > PromotionThreshold ==>
            && t.lastDetection == f.now
            && t.history == Enqueue(s.history, c)
            && t.history[|t.history| - 1] == c
            && Observation(t.status, t.confidence) ==
                 Decide(t.history, Observation(Decay(s, f).status, Decay(s, f).confidence)))
      && (c.confidence <= PromotionThreshold ==>
            t == Decay(s, f) && t.lastDetection == s.lastDetection && t.history == s.history)
      && ((|f.hands| > 0 || f.pose.Some?) && c.confidence <= PromotionThreshold ==> t == s)
  {
    EnqueueShape(s.history, FrameCandidate(f));
  }

  /** Idle decay and the gate never act in the same frame: decay needs a
      frame without hands or pose, whose candidate is ("MONITORANDO", 0.0).
      So one clock reading per frame serves both. */
  lemma {:induction false} DecayAndGateExclusive(s: SessionState, f: Frame)
    requires WellFormedFrame(f)
    ensures |f.hands| == 0 && f.pose.None? ==> FrameCandidate(f) == Observation(Monitorando, 0.0)
    ensures Decay(s, f) != s ==> FrameCandidate(f).confidence <= PromotionThreshold
  {
    if |f.hands| == 0 {
      assert Scores(f.hands) == [];
    }
  }

  /** Three consecutive frames with the same gated candidate display that
      candidate, whatever the session held before. */
  lemma {:induction false} ThreeFramesPromote(s: SessionState, f1: Frame, f2: Frame, f3: Frame, o: Observation)
    requires WellFormedFrame(f1) && WellFormedFrame(f2) && WellFormedFrame(f3)
    requires FrameCandidate(f1) == o && FrameCandidate(f2) == o && FrameCandidate(f3) == o
    requires o.confidence > PromotionThreshold
    ensures var t := Next(Next(Next(s, f1), f2), f3);
      t.status == o.kind && t.confidence == o.confidence
  {
    var t1 := Next(s, f1);
    var t2 := Next(t1, f2);
    var t3 := Next(t2, f3);
    assert t1.history == Enqueue(s.history, o);
    assert t2.history == Enqueue(t1.history, o);
    assert t3.history == Enqueue(t2.history, o);
    ThreeIdenticalPromote(s.history, o, Observation(Decay(t2, f3).status, Decay(t2, f3).confidence));
  }

  /** Three frames showing one "four fingers up" hand and no body display
      ("SOCORRO", 0.95). */
  lemma {:induction false} SocorroScenario(s: SessionState, lm: seq<Landmark>, height: nat, t1: real, t2: real, t3: real)
    requires |lm| >= HandSize && FingerVector(lm) == [0, 1, 1, 1, 1]
    ensures var t := Next(Next(Next(s, Frame([lm], None, height, t1)), Frame([lm], None, height, t2)),
                          Frame([lm], None, height, t3));
      t.status == Socorro && t.confidence == 0.95
  {
    var o := Observation(Socorro, 0.95);
    GestureTable(lm);
    assert Scores([lm]) == [o];
    assert [o][..0] == [];
    assert Best([o]) == o;
    assert HandCandidate([lm]) == o;
    ThreeFramesPromote(s, Frame([lm], None, height, t1), Frame([lm], None, height, t2),
                       Frame([lm], None, height, t3), o);
  }
}
