/** The arithmetic of the evaluation report, in exact reals. */
module AdvisorScoring {
  import opened Prelude
  import opened Sequences
  import opened Maps
  import opened AdvisorTypes
  import opened AdvisorEvaluation

  /* ---------- counting ---------- */

  lemma {:induction false} EveryVerdictCounts(verdicts: seq<Verdict>)
    ensures Count(verdicts, Agreed) + Count(verdicts, Disagreed) + Count(verdicts, Abstained) + Count(verdicts, Invalid) == |verdicts|
  {
    if verdicts != [] { EveryVerdictCounts(verdicts[..|verdicts| - 1]); }
  }

  ghost predicate AddsUp(score: Score) {
    && score.eligible == score.recommended + score.abstained + score.invalid
    && score.recommended == score.agreed + score.serious
  }

  lemma ScoresAddUp(verdicts: seq<Verdict>)
    ensures AddsUp(ScoreOf(verdicts))
  {
    EveryVerdictCounts(verdicts);
  }

  ghost predicate Tally(verdicts: seq<Verdict>, n: int, agreed: nat, disagreed: nat, abstained: nat, invalid: nat) {
    && 0 <= n <= |verdicts|
    && agreed == Count(verdicts[..n], Agreed) && disagreed == Count(verdicts[..n], Disagreed)
    && abstained == Count(verdicts[..n], Abstained) && invalid == Count(verdicts[..n], Invalid)
  }

  lemma TallyStep(verdicts: seq<Verdict>, n: int, agreed: nat, disagreed: nat, abstained: nat, invalid: nat)
    requires Tally(verdicts, n, agreed, disagreed, abstained, invalid) && n < |verdicts|
    ensures var v := verdicts[n];
            Tally(verdicts, n + 1, agreed + (if v == Agreed then 1 else 0), disagreed + (if v == Disagreed then 1 else 0),
                  abstained + (if v == Abstained then 1 else 0), invalid + (if v == Invalid then 1 else 0))
  {
    assert verdicts[..n + 1][..n] == verdicts[..n];
  }

  /** Filter and sort the invocations for a case. */
  method ListNewestFirst(s: State, order: seq<Id>, subjectId: Id, caseId: Id) returns (sorted: seq<Id>)
    requires order == Enumerate(s.records.invocations.Keys)
    ensures sorted == NewestFirst(s, subjectId, caseId)
  {
    var mine := Select(s.records.invocations, order, AboutCase(subjectId, caseId));
    sorted := SortDescending(mine, Age(s));
  }

  /** Find the first that succeeded with a recommendation. */
  method FindCompleted(s: State, ids: seq<Id>, subjectId: Id, caseId: Id) returns (found: Option<StoredInvocation>)
    requires AllAbout(s, ids, subjectId, caseId)
    ensures found == FirstCompleted(s, ids, subjectId, caseId)
  {
    var n := 0;
    while n < |ids|
      invariant 0 <= n <= |ids|
      invariant FirstCompleted(s, ids, subjectId, caseId) == FirstCompleted(s, ids[n..], subjectId, caseId)
    {
      var stored := s.records.invocations[ids[n]];
      assert ids[n..][0] == ids[n] && ids[n..][1..] == ids[n + 1..];
      if stored.invocation.status == Succeeded && stored.invocation.recommendationId.Some? { return Some(stored); }
      n := n + 1;
    }
    return None;
  }

  /** The output of the newest completed invocation of a case. */
  method NewestAnswer(s: State, order: seq<Id>, subjectId: Id, caseId: Id) returns (output: Option<Output>)
    requires order == Enumerate(s.records.invocations.Keys)
    ensures output == LatestOutput(s, subjectId, caseId)
  {
    var sorted := ListNewestFirst(s, order, subjectId, caseId);
    var completed := FindCompleted(s, sorted, subjectId, caseId);
    output := OutputOf(s.records, completed);
  }

  /** How the newest answer compares with the option the operator selected. */
  method JudgeCase(s: State, order: seq<Id>, subjectId: Id, c: StoredCase) returns (v: Verdict)
    requires order == Enumerate(s.records.invocations.Keys)
    ensures v == VerdictOn(s, subjectId, c)
  {
    var output := NewestAnswer(s, order, subjectId, c.kase.caseId);
    if output.None? { return Invalid; }
    if output.value.Abstain? { return Abstained; }
    return if output.value.optionId == c.kase.selectedOptionId then Agreed else Disagreed;
  }

  /** One pass over the cases with five counters (`evaluationForCases`). */
  method EvaluationForCases(s: State, order: seq<Id>, subjectId: Id, cases: seq<StoredCase>) returns (score: Score, coverage: real, agreement: real)
    requires order == Enumerate(s.records.invocations.Keys)
    ensures score == ScoreOf(Verdicts(s, subjectId, cases))
    ensures AddsUp(score)
    ensures 0.0 <= coverage <= 1.0 && 0.0 <= agreement <= 1.0
    ensures coverage < 0.8 <==> CoverageBelow80(score)
    ensures score.serious == 0 && score.recommended > 0 ==> agreement == 1.0
  {
    var recommended, agreed, abstained, invalid, serious := 0, 0, 0, 0, 0;
    ghost var verdicts := Verdicts(s, subjectId, cases);
    var i := 0;
    while i < |cases|
      invariant Tally(verdicts, i, agreed, serious, abstained, invalid)
      invariant recommended == agreed + serious
    {
      TallyStep(verdicts, i, agreed, serious, abstained, invalid);
      var verdict := JudgeCase(s, order, subjectId, cases[i]);
      match verdict {
        case Invalid => invalid := invalid + 1;
        case Abstained => abstained := abstained + 1;
        case Agreed => recommended, agreed := recommended + 1, agreed + 1;
        case Disagreed => recommended, serious := recommended + 1, serious + 1;
      }
      i := i + 1;
    }
    assert verdicts[..i] == verdicts;
    ScoresAddUp(verdicts);
    score := Score(|cases|, recommended, agreed, abstained, invalid, serious);
    coverage, agreement := Ratio(recommended, |cases|), Ratio(agreed, recommended);
    Ratios(score);
  }

  function Ratio(part: nat, whole: nat): (r: real)
    requires part <= whole
    ensures 0.0 <= r <= 1.0
  {
    if whole == 0 then 0.0 else RatioBounds(part, whole); part as real / whole as real
  }

  lemma RatioBounds(part: nat, whole: nat)
    requires part <= whole && whole > 0
    ensures 0.0 <= part as real / whole as real <= 1.0
  {
  }

  lemma Scale(x: real, y: real, w: real)
    requires x < y && w > 0.0
    ensures x * w < y * w
  {
  }

  lemma RatioBelow(part: nat, whole: nat)
    requires part <= whole
    ensures Ratio(part, whole) < 0.8 <==> whole == 0 || 5 * part < 4 * whole
  {
    if whole > 0 {
      var q, w := part as real / whole as real, whole as real;
      assert q * w == part as real;
      assert (5 * part) as real == 5.0 * part as real && (4 * whole) as real == 4.0 * w;
      if q < 0.8 { Scale(q, 0.8, w); }
      if q > 0.8 { Scale(0.8, q, w); }
    }
  }

  lemma Ratios(score: Score)
    requires AddsUp(score)
    ensures Ratio(score.recommended, score.eligible) < 0.8 <==> CoverageBelow80(score)
    ensures score.serious == 0 && score.recommended > 0 ==> Ratio(score.agreed, score.recommended) == 1.0
  {
    RatioBelow(score.recommended, score.eligible);
  }

  /* ---------- the Wilson score interval ---------- */

  ghost predicate IsRoot(root: real, square: real) {
    root >= 0.0 && root * root == square
  }

  /** The bound before it is clamped at 0, with `root` standing for `Math.sqrt` of the variance. */
  ghost function Lower(p: real, n: real, root: real): real
    requires n > 0.0
  {
    (p + Z * Z / (2.0 * n) - Z * root) / (1.0 + Z * Z / n)
  }

  ghost function WilsonLowerBound(successes: int, trials: int, root: real): real {
    if trials <= 0 || successes < 0 || successes > trials then 0.0
    else
      var n := trials as real;
      var x := Lower(successes as real / n, n, root);
      if x > 0.0 then x else 0.0
  }

  ghost predicate ValidRoot(successes: int, trials: int, root: real) {
    0 < trials && 0 <= successes <= trials && IsRoot(root, Variance(successes as real / trials as real, trials as real))
  }

  /*
   With h = z*z/n and m = z*root the bound is x = (p + h/2 - m) / (1 + h), where m*m = h*p*(1-p) + h*h/4.
   It is the smaller root of (x - p)^2 = h*x*(1 - x).
   */

  ghost predicate Interval(p: real, h: real, m: real, x: real) {
    && 0.0 <= p <= 1.0 && h > 0.0 && m >= 0.0 && m * m == h * p * (1.0 - p) + h * h / 4.0
    && (1.0 + h) * x == p + h / 2.0 - m
  }

  lemma Product(x: real, y: real)
    requires x >= 0.0 && y >= 0.0
    ensures x * y >= 0.0
    ensures x > 0.0 && y > 0.0 ==> x * y > 0.0
  {
  }

  lemma Sign(x: real, y: real, product: real)
    requires x > 0.0 && x * y == product <= 0.0
    ensures y <= 0.0
  {
  }

  lemma SquareOrder(a: real, b: real)
    requires a >= 0.0 && b >= 0.0 && a * a <= b * b
    ensures a <= b
  {
    if a > b { SquareStrict(b, a); }
  }

  lemma SquareStrict(a: real, b: real)
    requires 0.0 <= a < b
    ensures a * a < b * b
  {
    Product(b - a, b + a);
    calc { (b - a) * (b + a); b * (b + a) - a * (b + a); b * b - a * a; }
  }

  lemma NonNegative(p: real, h: real, m: real, x: real)
    requires Interval(p, h, m, x)
    ensures 0.0 <= x
  {
    var c := p + h / 2.0;
    assert c * c - m * m == p * p * (1.0 + h);
    Product(p, p);
    Product(p * p, 1.0 + h);
    SquareOrder(m, c);
    if x < 0.0 { Product(1.0 + h, -x); }
  }

  lemma AtMostProportion(p: real, h: real, m: real, x: real)
    requires Interval(p, h, m, x)
    ensures x <= p
  {
    var d := h * (1.0 - 2.0 * p) / 2.0;
    assert (1.0 + h) * (x - p) == d - m;
    if d > 0.0 {
      assert m * m - d * d == h * p * (1.0 - p) * (1.0 + h);
      Product(h, p);
      Product(h * p, 1.0 - p);
      Product(h * p * (1.0 - p), 1.0 + h);
      SquareOrder(d, m);
    }
    assert d <= m;
    Sign(1.0 + h, x - p, d - m);
  }

  lemma SolvesQuadratic(p: real, h: real, m: real, x: real)
    requires Interval(p, h, m, x)
    ensures (p - x) * (p - x) == h * x * (1.0 - x)
  {
    var d, c := 1.0 + h, p + h / 2.0;
    assert m == c - d * x;
    assert m * m == c * c - 2.0 * c * (d * x) + (d * x) * (d * x);
    assert c * c - m * m == p * p * d;
    assert d * (p * p - 2.0 * c * x + d * x * x) == 0.0;
    assert p * p - 2.0 * c * x + d * x * x == 0.0;
  }

  /** Below the smaller root the parabola is not negative. */
  lemma LeftOfRoot(p: real, h: real, m: real, x: real, y: real)
    requires Interval(p, h, m, x) && y <= x
    ensures (p - y) * (p - y) >= h * y * (1.0 - y)
  {
    var d, c := 1.0 + h, p + h / 2.0;
    var g := c - d * y;
    assert d * (x - y) >= 0.0;
    assert g >= m;
    assert g * g >= m * m;
    assert c * c - m * m == p * p * d;
    assert g * g - m * m == d * (p * p - 2.0 * c * y + d * y * y);
    assert p * p - 2.0 * c * y + d * y * y >= 0.0;
  }

  lemma LeftAndRoot(p: real, q: real, h: real, m: real, k: real, x: real, y: real)
    requires Interval(p, h, m, x) && Interval(q, h, k, y) && y <= x
    ensures (p - y) * (p - y) >= (q - y) * (q - y)
  {
    LeftOfRoot(p, h, m, x, y);
    SolvesQuadratic(q, h, k, y);
  }

  lemma StrictlyGrows(p: real, q: real, h: real, m: real, k: real, x: real, y: real)
    requires Interval(p, h, m, x) && Interval(q, h, k, y) && p < q
    ensures x < y
  {
    AtMostProportion(p, h, m, x);
    if y <= x {
      SquareStrict(p - y, q - y);
      LeftAndRoot(p, q, h, m, k, x, y);
    }
  }

  lemma BoundInterval(successes: nat, trials: nat, root: real)
    requires ValidRoot(successes, trials, root)
    ensures var n := trials as real; var p := successes as real / n;
            Interval(p, Z * Z / n, Z * root, Lower(p, n, root))
  {
    var n := trials as real;
    var p, h, v := successes as real / n, Z * Z / n, root * root;
    RatioBounds(successes, trials);
    assert Z * Z > 0.0;
    assert h > 0.0 && h / 2.0 == Z * Z / (2.0 * n);
    assert (Z * root) * (Z * root) == (Z * Z) * v;
    VarianceForm(p, n);
    assert 1.0 + h > 0.0;
    var top := p + Z * Z / (2.0 * n) - Z * root;
    assert (1.0 + h) * (top / (1.0 + h)) == top;
  }

  lemma VarianceForm(p: real, n: real)
    requires n > 0.0
    ensures var h := Z * Z / n; Z * Z * Variance(p, n) == h * p * (1.0 - p) + h * h / 4.0
  {
    var zz, t := Z * Z, p * (1.0 - p);
    var h := zz / n;
    assert zz == h * n;
    assert zz / (4.0 * n) == h / 4.0;
    var w := (t + h / 4.0) / n;
    assert w * n == t + h / 4.0;
    assert zz * w == h * (n * w);
    assert h * (t + h / 4.0) == h * t + h * h / 4.0;
    assert h * t == h * p * (1.0 - p);
  }

  /** The bound lies between 0 and the observed proportion, so the clamp at 0 never engages. */
  lemma WilsonInRange(successes: nat, trials: nat, root: real)
    requires ValidRoot(successes, trials, root)
    ensures var p := successes as real / trials as real;
            0.0 <= WilsonLowerBound(successes, trials, root) == Lower(p, trials as real, root) <= p
  {
    var n := trials as real;
    var p := successes as real / n;
    BoundInterval(successes, trials, root);
    NonNegative(p, Z * Z / n, Z * root, Lower(p, n, root));
    AtMostProportion(p, Z * Z / n, Z * root, Lower(p, n, root));
  }

  lemma LargerShare(fewer: nat, more: nat, trials: nat)
    requires fewer < more && trials > 0
    ensures fewer as real / trials as real < more as real / trials as real
  {
  }

  /** More successes among the same trials give a strictly larger bound. */
  lemma WilsonGrows(fewer: nat, more: nat, trials: nat, root: real, root2: real)
    requires fewer < more && ValidRoot(fewer, trials, root) && ValidRoot(more, trials, root2)
    ensures WilsonLowerBound(fewer, trials, root) < WilsonLowerBound(more, trials, root2)
  {
    var n := trials as real;
    var p, q, h := fewer as real / n, more as real / n, Z * Z / n;
    LargerShare(fewer, more, trials);
    BoundInterval(fewer, trials, root);
    BoundInterval(more, trials, root2);
    StrictlyGrows(p, q, h, Z * root, Z * root2, Lower(p, n, root), Lower(q, n, root2));
    WilsonInRange(fewer, trials, root);
    WilsonInRange(more, trials, root2);
  }

  /* ---------- the rational form used by the blocker ---------- */

  lemma BelowByMargin(slack: real, m: real)
    requires m >= 0.0
    ensures slack < m <==> LessThanRoot(slack, m * m)
  {
    if slack >= 0.0 {
      if slack < m { SquareStrict(slack, m); } else { SquareGrows(m, slack); }
    }
  }

  lemma SquareGrows(a: real, b: real)
    requires 0.0 <= a <= b
    ensures a * a <= b * b
  {
    if a < b { SquareStrict(a, b); }
  }

  lemma ScaledBound(d: real, x: real, top: real, threshold: real)
    requires d > 0.0 && d * x == top
    ensures x < threshold <==> top < threshold * d
  {
    if x < threshold { Scale(x, threshold, d); }
    if x > threshold { Scale(threshold, x, d); }
  }

  lemma BelowInterval(p: real, h: real, m: real, x: real, threshold: real)
    requires Interval(p, h, m, x)
    ensures x < threshold <==> LessThanRoot(p + h / 2.0 - threshold * (1.0 + h), m * m)
  {
    ScaledBound(1.0 + h, x, p + h / 2.0 - m, threshold);
    BelowByMargin(p + h / 2.0 - threshold * (1.0 + h), m);
  }

  lemma SlackForm(p: real, n: real, threshold: real)
    requires n > 0.0
    ensures Slack(p, n, threshold) == p + Z * Z / n / 2.0 - threshold * (1.0 + Z * Z / n)
  {
    Halved(n);
  }

  lemma MarginSquare(p: real, n: real, root: real)
    requires n > 0.0 && root * root == Variance(p, n)
    ensures (Z * root) * (Z * root) == Z * Z * Variance(p, n)
  {
  }

  lemma Halved(n: real)
    requires n > 0.0
    ensures Z * Z / n / 2.0 == Z * Z / (2.0 * n)
  {
  }

  lemma BelowCore(p: real, n: real, root: real, threshold: real)
    requires n > 0.0 && root * root == Variance(p, n) && Interval(p, Z * Z / n, Z * root, Lower(p, n, root))
    ensures Lower(p, n, root) < threshold <==> LessThanRoot(Slack(p, n, threshold), Z * Z * Variance(p, n))
  {
    var h, m, x := Z * Z / n, Z * root, Lower(p, n, root);
    var square, slack := Z * Z * Variance(p, n), Slack(p, n, threshold);
    assert m * m == square by { MarginSquare(p, n, root); }
    assert slack == p + h / 2.0 - threshold * (1.0 + h) by { SlackForm(p, n, threshold); }
    BelowSquare(p, h, m, x, threshold, slack, square);
  }

  lemma BelowSquare(p: real, h: real, m: real, x: real, threshold: real, slack: real, square: real)
    requires Interval(p, h, m, x) && m * m == square && slack == p + h / 2.0 - threshold * (1.0 + h)
    ensures x < threshold <==> LessThanRoot(slack, square)
  {
    BelowInterval(p, h, m, x, threshold);
  }

  /** The comparison without a square root decides exactly whether the bound is below the threshold. */
  lemma BelowWilsonIsExact(successes: nat, trials: nat, root: real, threshold: real)
    requires threshold > 0.0
    requires 0 < trials && successes <= trials ==> ValidRoot(successes, trials, root)
    ensures BelowWilson(successes, trials, threshold) <==> WilsonLowerBound(successes, trials, root) < threshold
  {
    if 0 < trials && successes <= trials {
      var n := trials as real;
      var p := successes as real / n;
      WilsonInRange(successes, trials, root);
      BoundInterval(successes, trials, root);
      BelowCore(p, n, root, threshold);
    }
  }

  /* ---------- blockers ---------- */

  lemma PerfectIsAbove(n: real)
    requires n >= 80.0
    ensures !LessThanRoot(Slack(1.0, n, 0.95), Z * Z * Variance(1.0, n))
  {
    var h := Z * Z / n;
    assert h * n == Z * Z;
    assert Z * Z < 3.0;
    if h > 0.0375 { Scale(0.0375, h, n); }
    SlackForm(1.0, n, 0.95);
    VarianceForm(1.0, n);
    SquareGrows(h / 2.0, 1.0 + h / 2.0 - 0.95 * (1.0 + h));
  }

  /** Eighty or more recommendations without a disagreement are above the Wilson floor. */
  lemma PerfectAgreement(trials: nat)
    requires trials >= 80
    ensures !BelowWilson(trials, trials, 0.95)
  {
    var n := trials as real;
    assert n / n == 1.0;
    PerfectIsAbove(n);
  }

  lemma WilsonBlocker(calibration: nat, holdout: nat, adversarial: nat, recentCount: nat, holdoutScore: Score, recentScore: Score,
                      outside: bool, contaminated: bool, missing: bool)
    requires AddsUp(holdoutScore) && holdoutScore.eligible == holdout
    ensures var r := Blockers(calibration, holdout, adversarial, recentCount, holdoutScore, recentScore, outside, contaminated, missing);
            WilsonBelow95 in r ==> SeriousDisagreement in r || HoldoutBelow100 in r || HoldoutCoverage in r
  {
    if holdout >= 100 && !CoverageBelow80(holdoutScore) && holdoutScore.serious == 0 {
      PerfectAgreement(holdoutScore.recommended);
    }
  }

  /** A report that meets the evidence floor is above the Wilson floor too. */
  lemma FloorClearsWilson(r: Report)
    requires FloorMet(r)
    ensures !BelowWilson(r.holdout.agreed, r.holdout.recommended, 0.95)
  {
    PerfectAgreement(r.holdout.recommended);
  }

  /** In every compiled report the Wilson blocker never stands alone. */
  lemma WilsonNeverAlone(s: State, reportId: Id, subject: StoredSubject, policy: StoredPolicy, corpus: StoredCorpus, recent: seq<Id>, now: Time)
    ensures var r := Evaluate(s, reportId, subject, policy, corpus, recent, now);
            WilsonBelow95 in r.blockers ==> SeriousDisagreement in r.blockers || HoldoutBelow100 in r.blockers || HoldoutCoverage in r.blockers
  {
    var r := Evaluate(s, reportId, subject, policy, corpus, recent, now);
    ReportsAddUp(s, reportId, subject, policy, corpus, recent, now);
    var contaminated := ContaminatedCases(s, corpus.corpus.corpusRevisionId);
    var calibration := Clean(s, corpus.corpus.calibration, contaminated, policy);
    var holdout := Clean(s, corpus.corpus.holdout, contaminated, policy);
    var adversarial := AdversarialOf(holdout);
    WilsonBlocker(|calibration|, |holdout|, |adversarial|, |RecentCases(s, policy, recent, now)|, r.holdout, r.recent,
                  subject.subject.conformance && policy.policy.live, contaminated != {}, CategoryAbsent(corpus, adversarial));
  }

  /** The scores of every compiled report add up. */
  lemma ReportsAddUp(s: State, reportId: Id, subject: StoredSubject, policy: StoredPolicy, corpus: StoredCorpus, recent: seq<Id>, now: Time)
    ensures var r := Evaluate(s, reportId, subject, policy, corpus, recent, now); AddsUp(r.holdout) && AddsUp(r.recent)
  {
    var contaminated := ContaminatedCases(s, corpus.corpus.corpusRevisionId);
    ScoresAddUp(Verdicts(s, subject.subject.subjectId, Clean(s, corpus.corpus.holdout, contaminated, policy)));
    ScoresAddUp(Verdicts(s, subject.subject.subjectId, RecentCases(s, policy, recent, now)));
  }
}
