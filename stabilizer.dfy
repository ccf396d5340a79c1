/** The temporal stabilizer's pure part: the bounded history queue and the
    "two of the last three" promotion rule. The method that updates the
    history in place lives on the session class (module Session). */
module Stabilizer {
  import opened Signals

  const Capacity: nat := 5
  const Window: nat := 3
  const PromotionThreshold: real := 0.7

  /** Appends an observation, then drops the oldest entry if the history
      has grown past its capacity. */
  function Enqueue(history: seq<Observation>, o: Observation): (r: seq<Observation>) {
    var appended := history + [o];
    if |appended| > Capacity then appended[1..] else appended
  }

  /** The last k entries of a sequence. */
  function Suffix<T>(s: seq<T>, k: nat): (r: seq<T>)
    requires k <= |s|
  {
    s[|s| - k..]
  }

  /** The queue discipline: the new entry is last, the entries before it
      are the old history with at most its oldest element dropped, and a
      history within capacity stays within capacity. */
  lemma EnqueueShape(history: seq<Observation>, o: Observation)
    ensures var h := Enqueue(history, o);
      && |h| >= 1 && h[|h| - 1] == o
      && (|history| < Capacity ==> h[..|h| - 1] == history)
      && (|history| >= Capacity ==> h[..|h| - 1] == history[1..])
      && (|history| <= Capacity ==> |h| <= Capacity)
  {
    var h := Enqueue(history, o);
    if |history| >= Capacity {
      assert h == history[1..] + [o];
    }
  }

  /** Enqueueing extends every short enough suffix by the new entry. */
  lemma {:induction false} EnqueueSuffix(history: seq<Observation>, o: Observation, k: nat)
    requires k <= |history| && k < Capacity
    ensures k + 1 <= |Enqueue(history, o)|
    ensures Suffix(Enqueue(history, o), k + 1) == Suffix(history, k) + [o]
  {
    var h := Enqueue(history, o);
    assert history + [o] == history[..|history| - k] + (Suffix(history, k) + [o]);
    if |history| + 1 > Capacity {
      assert h == (history + [o])[1..];
    }
  }

  /** The label seen at least twice among three, if there is one. */
  function Majority(a: Label, b: Label, c: Label): (r: Option<Label>) {
    if a == b || a == c then Some(a)
    else if b == c then Some(b)
    else None
  }

  function Max3(a: real, b: real, c: real): (r: real) {
    var ab := if a >= b then a else b;
    if ab >= c then ab else c
  }

  /** Occurrences of a label in a sequence. */
  function Count(s: seq<Label>, l: Label): (r: nat) {
    if s == [] then 0 else (if s[0] == l then 1 else 0) + Count(s[1..], l)
  }

  /** The decision after the new entry has been enqueued: with three or
      more entries, a label held by two of the last three wins when the
      largest of the last three confidences exceeds 0.7, and is shown with
      that confidence; otherwise the current status stays. */
  function Decide(history: seq<Observation>, current: Observation): (r: Observation) {
    if |history| < Window then current
    else
      var w := Suffix(history, Window);
      var top := Max3(w[0].confidence, w[1].confidence, w[2].confidence);
      match Majority(w[0].kind, w[1].kind, w[2].kind)
      case Some(l) => if top > PromotionThreshold then Observation(l, top) else current
      case None => current
  }

  /** Whether the last three entries promote a label. */
  predicate Promotes(history: seq<Observation>)
  {
    && |history| >= Window
    && var w := Suffix(history, Window);
    && Majority(w[0].kind, w[1].kind, w[2].kind).Some?
    && Max3(w[0].confidence, w[1].confidence, w[2].confidence) > PromotionThreshold
  }

  function Labels(w: seq<Observation>): (r: seq<Label>) {
    seq(|w|, i requires 0 <= i < |w| => w[i].kind)
  }

  /** One step of counting: the head, then the rest. */
  lemma {:induction false} CountCons(x: Label, s: seq<Label>, l: Label)
    ensures Count([x] + s, l) == (if x == l then 1 else 0) + Count(s, l)
  {
    assert ([x] + s)[1..] == s;
  }

  lemma {:induction false} CountThree(a: Label, b: Label, c: Label, l: Label)
    ensures Count([a, b, c], l) ==
      (if a == l then 1 else 0) + (if b == l then 1 else 0) + (if c == l then 1 else 0)
  {
    assert [a, b, c] == [a] + ([b] + ([c] + []));
    CountCons(c, [], l);
    CountCons(b, [c] + [], l);
    CountCons(a, [b] + ([c] + []), l);
  }

  /** The deterministic majority agrees with counting: it names l exactly
      when l occurs at least twice among the three. */
  lemma {:induction false} MajorityIsTwoOfThree(a: Label, b: Label, c: Label, l: Label)
    ensures Majority(a, b, c) == Some(l) <==> Count([a, b, c], l) >= 2
    ensures Majority(a, b, c) == None <==> forall m :: Count([a, b, c], m) < 2
  {
    CountThree(a, b, c, l);
    if Majority(a, b, c) == None {
      forall m ensures Count([a, b, c], m) < 2 {
        CountThree(a, b, c, m);
      }
    } else {
      CountThree(a, b, c, Majority(a, b, c).value);
    }
  }

  /** The source picks any label of maximal count among the three; whatever
      it picks, "that label occurs at least twice" holds exactly when the
      deterministic majority names that label, so the choice never changes
      the outcome. */
  lemma {:induction false} TieBreakIrrelevant(a: Label, b: Label, c: Label, m: Label)
    requires m in [a, b, c]
    requires forall x | x in [a, b, c] :: Count([a, b, c], x) <= Count([a, b, c], m)
    ensures (if Count([a, b, c], m) >= 2 then Some(m) else None) == Majority(a, b, c)
  {
    MajorityIsTwoOfThree(a, b, c, m);
    if Majority(a, b, c).Some? {
      var l := Majority(a, b, c).value;
      MajorityIsTwoOfThree(a, b, c, l);
      assert l in [a, b, c];
    }
  }

  /** The source's whole decision, written with an arbitrary maximal-count
      label m of the last three, is `Decide`: the pick of `max` never shows. */
  lemma {:induction false} AnyPickDecides(history: seq<Observation>, current: Observation, m: Label)
    requires |history| >= Window
    requires var w := Suffix(history, Window);
      m in [w[0].kind, w[1].kind, w[2].kind]
    requires var w := Suffix(history, Window);
      forall x | x in [w[0].kind, w[1].kind, w[2].kind] ::
        Count([w[0].kind, w[1].kind, w[2].kind], x) <= Count([w[0].kind, w[1].kind, w[2].kind], m)
    ensures var w := Suffix(history, Window);
      var top := Max3(w[0].confidence, w[1].confidence, w[2].confidence);
      (if Count([w[0].kind, w[1].kind, w[2].kind], m) >= 2 && top > PromotionThreshold
       then Observation(m, top) else current) == Decide(history, current)
  {
    var w := Suffix(history, Window);
    TieBreakIrrelevant(w[0].kind, w[1].kind, w[2].kind, m);
  }

  /** The decision is either the current status or a promotion of a label
      among the last three, with one of their confidences, above 0.7. */
  lemma DecideOutcome(history: seq<Observation>, current: Observation)
    ensures |history| < Window ==> Decide(history, current) == current
    ensures Promotes(history) ==>
      var w := Suffix(history, Window);
      && Decide(history, current).kind in Labels(w)
      && Decide(history, current).confidence in {w[0].confidence, w[1].confidence, w[2].confidence}
      && Decide(history, current).confidence > PromotionThreshold
    ensures !Promotes(history) ==> Decide(history, current) == current
  {
    if Promotes(history) {
      var w := Suffix(history, Window);
      assert Labels(w) == [w[0].kind, w[1].kind, w[2].kind];
    }
  }

  /** Promotion, stated by counting: the result is (l, max of the last three
      confidences) when l occurs at least twice among the last three labels
      and that maximum exceeds 0.7; with no label twice, or no confidence
      above 0.7, the current status stays. */
  lemma {:induction false} PromotionRule(history: seq<Observation>, current: Observation, l: Label)
    requires |history| >= Window
    ensures var w := Suffix(history, Window);
      var top := Max3(w[0].confidence, w[1].confidence, w[2].confidence);
      Count([w[0].kind, w[1].kind, w[2].kind], l) >= 2 && top > PromotionThreshold ==>
        Decide(history, current) == Observation(l, top)
    ensures var w := Suffix(history, Window);
      (forall m :: Count([w[0].kind, w[1].kind, w[2].kind], m) < 2) ==>
        Decide(history, current) == current
    ensures var w := Suffix(history, Window);
      Max3(w[0].confidence, w[1].confidence, w[2].confidence) <= PromotionThreshold ==>
        Decide(history, current) == current
  {
    var w := Suffix(history, Window);
    MajorityIsTwoOfThree(w[0].kind, w[1].kind, w[2].kind, l);
  }

  /** Three identical inputs above the threshold are shown as they are,
      whatever history preceded them. */
  lemma {:induction false} ThreeIdenticalPromote(history: seq<Observation>, o: Observation, current: Observation)
    requires o.confidence > PromotionThreshold
    ensures Decide(Enqueue(Enqueue(Enqueue(history, o), o), o), current) == o
  {
    var h1 := Enqueue(history, o);
    var h2 := Enqueue(h1, o);
    var h3 := Enqueue(h2, o);
    EnqueueSuffix(history, o, 0);
    EnqueueSuffix(h1, o, 1);
    EnqueueSuffix(h2, o, 2);
    assert Suffix(history, 0) == [];
    assert Suffix(h3, Window) == [o, o, o];
  }

  /** A fourth identical input leaves the shown status as the third made it. */
  lemma {:induction false} FourthIdenticalKeeps(history: seq<Observation>, o: Observation, current: Observation)
    requires o.confidence > PromotionThreshold
    ensures var h3 := Enqueue(Enqueue(Enqueue(history, o), o), o);
      Decide(Enqueue(h3, o), Decide(h3, current)) == Decide(h3, current)
  {
    ThreeIdenticalPromote(history, o, current);
    ThreeIdenticalPromote(Enqueue(history, o), o, Decide(Enqueue(Enqueue(Enqueue(history, o), o), o), current));
  }

  /** Flicker rejection: after A, A, B (with A different from B) the shown
      label is A or the unchanged current one, never a promotion of B; after
      A, B, A it is A. */
  lemma {:induction false} FlickerRejected(history: seq<Observation>, current: Observation)
    requires |history| >= Window
    ensures var w := Suffix(history, Window);
      var top := Max3(w[0].confidence, w[1].confidence, w[2].confidence);
      w[0].kind == w[1].kind != w[2].kind ==>
        Decide(history, current) == if top > PromotionThreshold then Observation(w[0].kind, top) else current
    ensures var w := Suffix(history, Window);
      var top := Max3(w[0].confidence, w[1].confidence, w[2].confidence);
      w[0].kind == w[2].kind != w[1].kind && top > PromotionThreshold ==>
        Decide(history, current) == Observation(w[0].kind, top)
  {
  }

  /** The shown confidence is the largest of the last three, which may
      belong to the outvoted label: two two-finger signs (0.85) followed by
      one four-finger sign (0.95) show the two-finger status at 0.95. */
  lemma ConfidenceMayComeFromMinority()
    ensures var h := [Observation(PrecisoAjuda, 0.85), Observation(PrecisoAjuda, 0.85), Observation(Socorro, 0.95)];
      Decide(h, Observation(Monitorando, 0.0)) == Observation(PrecisoAjuda, 0.95)
  {
  }
}
