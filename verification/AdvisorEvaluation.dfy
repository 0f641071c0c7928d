/** Matching, scoring and the evaluation report that gates promotion. */
module AdvisorEvaluation {
  import opened Prelude
  import opened Maps
  import opened Sequences
  import opened AdvisorTypes

  /* ---------- matching ---------- */

  ghost function FindOption(options: seq<CaseOption>, optionId: Id): (r: Option<CaseOption>)
    ensures r.Some? ==> r.value in options && r.value.optionId == optionId
    ensures r.None? ==> forall i :: 0 <= i < |options| ==> options[i].optionId != optionId
  {
    if options == [] then None
    else if options[0].optionId == optionId then Some(options[0])
    else FindOption(options[1..], optionId)
  }

  ghost predicate HasKind(refs: seq<Ref>, kind: RefKind) {
    exists i :: 0 <= i < |refs| && refs[i].kind == kind
  }

  ghost predicate MatcherAccepts(m: Matcher, input: CaseInput, optionId: Id) {
    var found := FindOption(input.options, optionId);
    && input.promotionEligible && input.sourceKind == m.sourceKind
    && input.risk == Low && input.safety == Routine && input.reversibility == Reversible
    && found.Some? && found.value.actionKind == m.actionKind && found.value.targetKind == m.targetKind
    && (forall i :: 0 <= i < |m.policyKinds| ==> HasKind(input.policyRefs, m.policyKinds[i]))
    && (forall i :: 0 <= i < |m.evidenceKinds| ==> HasKind(input.evidenceRefs, m.evidenceKinds[i]))
    && (m.targetKind != AttentionPriority ||
        (found.value.parameters.PriorityParameter? && found.value.parameters.priority != P0
         && found.value.parameters.priority in m.allowedPriorities))
  }

  ghost predicate PolicyMatchesCase(policy: StoredPolicy, c: StoredCase) {
    var m, input := policy.policy.matcher, c.kase.input;
    && input.sourceKind == m.sourceKind && input.risk == Low && input.safety == Routine && input.reversibility == Reversible
    && input.promotionEligible
    && var matching := Keep(input.options, (o: CaseOption) => MatcherAccepts(m, input, o.optionId));
    |matching| == 1 && matching[0].optionId == c.kase.selectedOptionId
  }

  /** Cases or invocations that matter to the policy and arrived after the report was compiled. */
  ghost predicate EvidenceChanged(s: State, policy: StoredPolicy, report: Report) {
    || (exists k :: k in s.records.cases && s.records.cases[k].position > report.throughPosition && PolicyMatchesCase(policy, s.records.cases[k]))
    || (exists k :: k in s.records.invocations && Relevant(s, policy, s.records.invocations[k], report.throughPosition))
  }

  ghost predicate Relevant(s: State, policy: StoredPolicy, i: StoredInvocation, through: nat) {
    && i.queuedPosition > through && i.invocation.subjectRef.id == policy.policy.subjectRef.id && i.invocation.caseRef.Some?
    && exists k :: k in s.records.cases && s.records.cases[k].kase.caseId == i.invocation.caseRef.value.id && PolicyMatchesCase(policy, s.records.cases[k])
  }

  /* ---------- scoring ---------- */

  datatype Verdict = Agreed | Disagreed | Abstained | Invalid

  predicate About(i: StoredInvocation, subjectId: Id, caseId: Id) {
    i.invocation.subjectRef.id == subjectId && i.invocation.caseRef.Some? && i.invocation.caseRef.value.id == caseId
  }

  /** The test of the filter over the invocations. */
  function AboutCase(subjectId: Id, caseId: Id): StoredInvocation -> bool {
    (i: StoredInvocation) => About(i, subjectId, caseId)
  }

  /** The key of the sort: when an invocation was created. */
  function Age(s: State): Id -> int {
    (k: Id) => if k in s.records.invocations then s.records.invocations[k].invocation.createdAt else 0
  }

  ghost predicate AllAbout(s: State, ids: seq<Id>, subjectId: Id, caseId: Id) {
    forall i :: 0 <= i < |ids| ==> ids[i] in s.records.invocations && About(s.records.invocations[ids[i]], subjectId, caseId)
  }

  /** The invocations for a case, newest first. */
  ghost function NewestFirst(s: State, subjectId: Id, caseId: Id): (r: seq<Id>)
    ensures AllAbout(s, r, subjectId, caseId)
    ensures forall k :: k in s.records.invocations && About(s.records.invocations[k], subjectId, caseId) ==> k in r
  {
    SortDescending(Filter(s.records.invocations, AboutCase(subjectId, caseId)), Age(s))
  }

  /** The newest successful invocation for a case, or none. */
  ghost function LatestCompleted(s: State, subjectId: Id, caseId: Id): (r: Option<StoredInvocation>)
    ensures r.Some? ==> r.value.invocation.status == Succeeded && r.value.invocation.recommendationId.Some? && About(r.value, subjectId, caseId)
  {
    FirstCompleted(s, NewestFirst(s, subjectId, caseId), subjectId, caseId)
  }

  ghost function FirstCompleted(s: State, ids: seq<Id>, subjectId: Id, caseId: Id): (r: Option<StoredInvocation>)
    requires AllAbout(s, ids, subjectId, caseId)
    ensures r.Some? ==> r.value.invocation.status == Succeeded && r.value.invocation.recommendationId.Some? && About(r.value, subjectId, caseId)
  {
    if ids == [] then None
    else
      var i := s.records.invocations[ids[0]];
      if i.invocation.status == Succeeded && i.invocation.recommendationId.Some? then Some(i)
      else FirstCompleted(s, ids[1..], subjectId, caseId)
  }

  /** The output of a completed invocation, when its recommendation is stored. */
  function OutputOf(r: Records, completed: Option<StoredInvocation>): Option<Output> {
    if completed.None? || completed.value.invocation.recommendationId.None? || completed.value.invocation.recommendationId.value !in r.recommendations
    then None
    else Some(r.recommendations[completed.value.invocation.recommendationId.value].recommendation.output)
  }

  ghost function LatestOutput(s: State, subjectId: Id, caseId: Id): Option<Output> {
    OutputOf(s.records, LatestCompleted(s, subjectId, caseId))
  }

  /** How an output compares with the option the operator selected. */
  function Judge(output: Option<Output>, selected: Id): Verdict {
    if output.None? then Invalid
    else if output.value.Abstain? then Abstained
    else if output.value.optionId == selected then Agreed
    else Disagreed
  }

  ghost function VerdictOn(s: State, subjectId: Id, c: StoredCase): Verdict {
    Judge(LatestOutput(s, subjectId, c.kase.caseId), c.kase.selectedOptionId)
  }

  ghost function Verdicts(s: State, subjectId: Id, cases: seq<StoredCase>): (r: seq<Verdict>)
    ensures |r| == |cases|
  {
    seq(|cases|, i requires 0 <= i < |cases| => VerdictOn(s, subjectId, cases[i]))
  }

  ghost function Count(verdicts: seq<Verdict>, v: Verdict): nat {
    if verdicts == [] then 0 else (if verdicts[|verdicts| - 1] == v then 1 else 0) + Count(verdicts[..|verdicts| - 1], v)
  }

  ghost function ScoreOf(verdicts: seq<Verdict>): Score {
    Score(|verdicts|, Count(verdicts, Agreed) + Count(verdicts, Disagreed), Count(verdicts, Agreed),
          Count(verdicts, Abstained), Count(verdicts, Invalid), Count(verdicts, Disagreed))
  }

  /** Coverage below 80 percent, in exact arithmetic; no cases count as no coverage. */
  ghost predicate CoverageBelow80(score: Score) {
    score.eligible == 0 || 5 * score.recommended < 4 * score.eligible
  }

  /* ---------- Wilson score interval ---------- */

  const Z: real := 1.6448536269514722

  /** What stands under the square root of the margin. */
  ghost function Variance(p: real, n: real): real
    requires n > 0.0
  {
    (p * (1.0 - p) + Z * Z / (4.0 * n)) / n
  }

  /** How far the centre of the interval clears the threshold, before the margin is taken off. */
  ghost function Slack(p: real, n: real, threshold: real): real
    requires n > 0.0
  {
    p + Z * Z / (2.0 * n) - threshold * (1.0 + Z * Z / n)
  }

  ghost predicate LessThanRoot(x: real, square: real) {
    x < 0.0 || x * x < square
  }

  /** The lower bound is under a positive threshold, decided without taking the root. */
  ghost predicate BelowWilson(successes: nat, trials: nat, threshold: real) {
    if trials == 0 || successes > trials then threshold > 0.0
    else
      var n := trials as real;
      LessThanRoot(Slack(successes as real / n, n, threshold), Z * Z * Variance(successes as real / n, n))
  }

  /* ---------- the report ---------- */

  ghost function StoredCases(s: State, refs: seq<Ref>): seq<StoredCase> {
    if refs == [] then []
    else (if refs[0].id in s.records.cases then [s.records.cases[refs[0].id]] else []) + StoredCases(s, refs[1..])
  }

  ghost function ContaminatedCases(s: State, corpusRevisionId: Id): set<Id> {
    set k | k in s.auth.contaminations && s.auth.contaminations[k].contamination.corpusRef.id == corpusRevisionId
      :: s.auth.contaminations[k].contamination.caseRef.id
  }

  ghost predicate Usable(c: StoredCase, contaminated: set<Id>, policy: StoredPolicy) {
    c.kase.caseId !in contaminated && PolicyMatchesCase(policy, c)
  }

  ghost function Clean(s: State, refs: seq<Ref>, contaminated: set<Id>, policy: StoredPolicy): seq<StoredCase> {
    Keep(StoredCases(s, refs), (c: StoredCase) => Usable(c, contaminated, policy))
  }

  /** The case is named, natural (or a fixture, for a policy that is not live), labelled in the last thirty days, and matches. */
  ghost predicate Recent(policy: StoredPolicy, c: StoredCase, explicit: seq<Id>, now: Time) {
    && c.kase.caseId in explicit
    && (c.kase.provenance == Natural || (!policy.policy.live && c.kase.provenance == Fixture))
    && now - 30 * DAY_MS <= c.kase.labeledAt <= now
    && PolicyMatchesCase(policy, c)
  }

  /** The recent cases, newest label first. */
  ghost function RecentIds(s: State, policy: StoredPolicy, explicit: seq<Id>, now: Time): (r: seq<Id>)
    ensures forall k :: k in r <==> k in s.records.cases && Recent(policy, s.records.cases[k], explicit, now)
    ensures forall i :: 0 <= i < |r| ==> r[i] in s.records.cases
  {
    var ids := Filter(s.records.cases, (c: StoredCase) => Recent(policy, c, explicit, now));
    SortDescending(ids, (k: Id) => if k in s.records.cases then s.records.cases[k].kase.labeledAt else 0)
  }

  ghost function RecentCases(s: State, policy: StoredPolicy, explicit: seq<Id>, now: Time): seq<StoredCase> {
    var sorted := RecentIds(s, policy, explicit, now);
    seq(if |sorted| <= 50 then |sorted| else 50, i requires 0 <= i < |sorted| => s.records.cases[sorted[i]])
  }

  ghost predicate CoversCategory(cases: seq<StoredCase>, category: string) {
    exists i :: 0 <= i < |cases| && category in cases[i].kase.adversarial
  }

  ghost function AdversarialOf(holdout: seq<StoredCase>): seq<StoredCase> {
    Keep(holdout, (c: StoredCase) => |c.kase.adversarial| > 0)
  }

  ghost predicate CategoryAbsent(corpus: StoredCorpus, adversarial: seq<StoredCase>) {
    exists i :: 0 <= i < |corpus.corpus.requirements| && !CoversCategory(adversarial, corpus.corpus.requirements[i])
  }

  ghost function Blockers(calibration: nat, holdout: nat, adversarial: nat, recentCount: nat, holdoutScore: Score, recentScore: Score,
                    conformanceOutsideFixture: bool, contaminated: bool, categoryMissing: bool): (r: set<Blocker>)
  {
    (if calibration < 50 then {CalibrationBelow50} else {}) +
    (if holdout < 100 then {HoldoutBelow100} else {}) +
    (if adversarial < 25 then {AdversarialBelow25} else {}) +
    (if recentCount < 50 then {RecentBelow50} else {}) +
    (if CoverageBelow80(holdoutScore) then {HoldoutCoverage} else {}) +
    (if CoverageBelow80(recentScore) then {RecentCoverage} else {}) +
    (if BelowWilson(holdoutScore.agreed, holdoutScore.recommended, 0.95) then {WilsonBelow95} else {}) +
    (if holdoutScore.serious > 0 || recentScore.serious > 0 then {SeriousDisagreement} else {}) +
    (if recentScore.invalid > 0 then {RecentInvalid} else {}) +
    (if conformanceOutsideFixture then {ConformanceScope} else {}) +
    (if contaminated then {UnresolvedContamination} else {}) +
    (if categoryMissing then {CategoryMissing} else {})
  }

  /** The evidence floor for promotion, in the numbers of the report itself; it implies the Wilson floor. */
  ghost predicate FloorMet(r: Report) {
    && r.calibrationCount >= 50 && r.holdout.eligible >= 100 && r.adversarialCount >= 25 && r.recent.eligible >= 50
    && !CoverageBelow80(r.holdout) && !CoverageBelow80(r.recent)
    && r.holdout.agreed == r.holdout.recommended && r.recent.agreed == r.recent.recommended
    && r.recent.invalid == 0 && r.contaminationCount == 0
  }

  /** A report without blockers meets the floor. */
  ghost predicate Honest(r: Report) {
    r.blockers == {} ==> FloorMet(r)
  }

  lemma NoBlockers(calibration: nat, holdout: nat, adversarial: nat, recentCount: nat, holdoutScore: Score, recentScore: Score,
                   outside: bool, contaminated: bool, missing: bool)
    requires Blockers(calibration, holdout, adversarial, recentCount, holdoutScore, recentScore, outside, contaminated, missing) == {}
    ensures calibration >= 50 && holdout >= 100 && adversarial >= 25 && recentCount >= 50 && !contaminated && !missing && !outside
    ensures !CoverageBelow80(holdoutScore) && !CoverageBelow80(recentScore)
    ensures holdoutScore.serious == 0 && recentScore.serious == 0 && recentScore.invalid == 0
  {
    var r := Blockers(calibration, holdout, adversarial, recentCount, holdoutScore, recentScore, outside, contaminated, missing);
    assert CalibrationBelow50 !in r && HoldoutBelow100 !in r && AdversarialBelow25 !in r && RecentBelow50 !in r && HoldoutCoverage !in r;
    assert RecentCoverage !in r && SeriousDisagreement !in r && RecentInvalid !in r && ConformanceScope !in r;
    assert UnresolvedContamination !in r && CategoryMissing !in r;
  }

  ghost function Evaluate(s: State, reportId: Id, subject: StoredSubject, policy: StoredPolicy, corpus: StoredCorpus,
                    recentCaseIds: seq<Id>, now: Time): (r: Report)
    ensures r.policyRef.id == policy.policy.policyRevisionId
    ensures r.corpusRef.id == corpus.corpus.corpusRevisionId
    ensures r.reportId == reportId && r.throughPosition == s.position
  {
    var contaminated := ContaminatedCases(s, corpus.corpus.corpusRevisionId);
    var calibration := Clean(s, corpus.corpus.calibration, contaminated, policy);
    var holdout := Clean(s, corpus.corpus.holdout, contaminated, policy);
    var recent := RecentCases(s, policy, recentCaseIds, now);
    var holdoutScore := ScoreOf(Verdicts(s, subject.subject.subjectId, holdout));
    var recentScore := ScoreOf(Verdicts(s, subject.subject.subjectId, recent));
    var adversarial := AdversarialOf(holdout);
    Report(reportId, Ref(SubjectKind, subject.subject.subjectId, subject.digest),
           Ref(PolicyKind, policy.policy.policyRevisionId, policy.digest), Ref(CorpusKind, corpus.corpus.corpusRevisionId, corpus.digest),
           |calibration|, holdoutScore, |adversarial|, recentScore, |contaminated|,
           Blockers(|calibration|, |holdout|, |adversarial|, |recent|, holdoutScore, recentScore,
                    subject.subject.conformance && policy.policy.live, contaminated != {}, CategoryAbsent(corpus, adversarial)),
           now, s.position)
  }

  lemma EvaluateIsHonest(s: State, reportId: Id, subject: StoredSubject, policy: StoredPolicy, corpus: StoredCorpus, recentCaseIds: seq<Id>, now: Time)
    ensures Honest(Evaluate(s, reportId, subject, policy, corpus, recentCaseIds, now))
  {
    var r := Evaluate(s, reportId, subject, policy, corpus, recentCaseIds, now);
    if r.blockers == {} {
      var contaminated := ContaminatedCases(s, corpus.corpus.corpusRevisionId);
      var holdout := Clean(s, corpus.corpus.holdout, contaminated, policy);
      var adversarial := AdversarialOf(holdout);
      NoBlockers(|Clean(s, corpus.corpus.calibration, contaminated, policy)|, |holdout|, |adversarial|, |RecentCases(s, policy, recentCaseIds, now)|,
                 r.holdout, r.recent, subject.subject.conformance && policy.policy.live, contaminated != {}, CategoryAbsent(corpus, adversarial));
    }
  }
}
