/** Every stored advisor record sits under its own id and matches its digest, so the reader of the projection never objects. */
module AdvisorDigests {
  import opened Prelude
  import opened AdvisorTypes
  import opened AdvisorEvolve
  import opened AdvisorKernel
  import opened TableReader

  /* ---------- what the reader checks ---------- */

  predicate SubjectOk(k: Id, v: StoredSubject) { v.subject.subjectId == k && v.digest == Hash(OfSubject(v.subject)) }
  predicate CaseOk(k: Id, v: StoredCase) {
    v.kase.caseId == k && v.digest == Hash(OfCase(v.kase)) && v.kase.inputDigest == Hash(OfInput(v.kase.input))
  }
  predicate CorpusOk(k: Id, v: StoredCorpus) { v.corpus.corpusRevisionId == k && v.digest == Hash(OfCorpus(v.corpus)) }
  predicate InvocationOk(k: Id, v: StoredInvocation) {
    v.invocation.invocationId == k && v.digest == Hash(OfInvocation(v.invocation)) && v.invocation.inputDigest == Hash(OfInput(v.invocation.input))
  }
  predicate RecommendationOk(k: Id, v: StoredRecommendation) {
    v.recommendation.recommendationId == k && v.digest == Hash(OfRecommendation(v.recommendation))
  }
  predicate ContaminationOk(k: Id, v: StoredContamination) { v.contamination.contaminationId == k && v.digest == Hash(OfContamination(v.contamination)) }
  predicate ReportOk(k: Id, v: StoredReport) { v.report.reportId == k && v.digest == Hash(OfReport(v.report)) }
  predicate PolicyOk(k: Id, v: StoredPolicy) { v.policy.policyRevisionId == k && v.digest == Hash(OfPolicy(v.policy)) }
  predicate PromotionOk(k: Id, v: StoredPromotion) { v.promotion.promotionId == k && v.digest == Hash(OfPromotion(v.promotion)) }
  predicate ResolutionOk(k: Id, v: StoredResolution) { v.resolution.resolutionId == k && v.digest == Hash(OfResolution(v.resolution)) }
  predicate AuditOk(k: Id, v: StoredAudit) { v.audit.auditId == k && v.digest == Hash(OfAudit(v.audit)) }
  predicate IncidentOk(k: Id, v: StoredIncident) { v.incident.incidentId == k && v.digest == Hash(OfIncident(v.incident)) }

  ghost predicate CaseDigests(r: Records) {
    && (forall k :: k in r.subjects ==> SubjectOk(k, r.subjects[k]))
    && (forall k :: k in r.cases ==> CaseOk(k, r.cases[k]))
  }

  ghost predicate CorpusDigests(r: Records) {
    forall k :: k in r.corpora ==> CorpusOk(k, r.corpora[k])
  }

  ghost predicate QueueDigests(r: Records) {
    && (forall k :: k in r.invocations ==> InvocationOk(k, r.invocations[k]))
    && (forall k :: k in r.recommendations ==> RecommendationOk(k, r.recommendations[k]))
  }

  ghost predicate ReportDigests(a: Auth) {
    && (forall k :: k in a.contaminations ==> ContaminationOk(k, a.contaminations[k]))
    && (forall k :: k in a.reports ==> ReportOk(k, a.reports[k]))
  }

  ghost predicate PolicyDigests(a: Auth) {
    forall k :: k in a.policies ==> PolicyOk(k, a.policies[k])
  }

  ghost predicate PromotionDigests(a: Auth) {
    forall k :: k in a.promotions ==> PromotionOk(k, a.promotions[k])
  }

  ghost predicate AuditDigests(a: Auth) {
    forall k :: k in a.audits ==> AuditOk(k, a.audits[k])
  }

  ghost predicate FindingDigests(a: Auth) {
    && (forall k :: k in a.resolutions ==> ResolutionOk(k, a.resolutions[k]))
    && (forall k :: k in a.incidents ==> IncidentOk(k, a.incidents[k]))
  }

  ghost predicate RecordDigests(r: Records) {
    CaseDigests(r) && CorpusDigests(r) && QueueDigests(r)
  }

  ghost predicate AuthDigests(a: Auth) {
    ReportDigests(a) && PolicyDigests(a) && PromotionDigests(a) && AuditDigests(a) && FindingDigests(a)
  }

  ghost predicate DigestsHold(s: State) {
    RecordDigests(s.records) && AuthDigests(s.auth)
  }

  /* ---------- every event keeps that ---------- */

  lemma CaseStep(r: Records, e: Event, position: nat, at: Time)
    requires CaseDigests(r)
    ensures var n := EvolveRecords(r, e, position, at); n.Success? ==> CaseDigests(n.value)
  {
  }

  lemma CorpusStep(r: Records, e: Event, position: nat, at: Time)
    requires CorpusDigests(r)
    ensures var n := EvolveRecords(r, e, position, at); n.Success? ==> CorpusDigests(n.value)
  {
  }

  lemma QueueStep(r: Records, e: Event, position: nat, at: Time)
    requires QueueDigests(r)
    ensures var n := EvolveRecords(r, e, position, at); n.Success? ==> QueueDigests(n.value)
  {
  }

  lemma ReportStep(a: Auth, e: Event, at: Time)
    requires ReportDigests(a)
    ensures var n := EvolveAuth(a, e, at); n.Success? ==> ReportDigests(n.value)
  {
  }

  lemma PolicyStep(a: Auth, e: Event, at: Time)
    requires PolicyDigests(a)
    ensures var n := EvolveAuth(a, e, at); n.Success? ==> PolicyDigests(n.value)
  {
  }

  lemma PromotionStep(a: Auth, e: Event, at: Time)
    requires PromotionDigests(a)
    ensures var n := EvolveAuth(a, e, at); n.Success? ==> PromotionDigests(n.value)
  {
  }

  lemma AuditStep(a: Auth, e: Event, at: Time)
    requires AuditDigests(a)
    ensures var n := EvolveAuth(a, e, at); n.Success? ==> AuditDigests(n.value)
  {
  }

  lemma FindingStep(a: Auth, e: Event, at: Time)
    requires FindingDigests(a)
    ensures var n := EvolveAuth(a, e, at); n.Success? ==> FindingDigests(n.value)
  {
  }

  lemma RecordsStep(r: Records, e: Event, position: nat, at: Time)
    requires RecordDigests(r)
    ensures var n := EvolveRecords(r, e, position, at); n.Success? ==> RecordDigests(n.value)
  {
    CaseStep(r, e, position, at);
    CorpusStep(r, e, position, at);
    QueueStep(r, e, position, at);
  }

  lemma AuthStep(a: Auth, e: Event, at: Time)
    requires AuthDigests(a)
    ensures var n := EvolveAuth(a, e, at); n.Success? ==> AuthDigests(n.value)
  {
    ReportStep(a, e, at);
    PolicyStep(a, e, at);
    PromotionStep(a, e, at);
    AuditStep(a, e, at);
    FindingStep(a, e, at);
  }

  lemma RecordsHold(s: State, e: Event, at: Time)
    requires RecordDigests(s.records) && Evolve(s, e, at).Success?
    ensures RecordDigests(Evolve(s, e, at).value.records)
  {
    RecordsStep(s.records, e, s.position + 1, at);
  }

  lemma AuthHolds(s: State, e: Event, at: Time)
    requires AuthDigests(s.auth) && Evolve(s, e, at).Success?
    ensures AuthDigests(Evolve(s, e, at).value.auth)
  {
    AuthStep(s.auth, e, at);
  }

  lemma EvolveKeepsDigests(s: State, e: Event, at: Time)
    requires DigestsHold(s) && Evolve(s, e, at).Success?
    ensures DigestsHold(Evolve(s, e, at).value)
  {
    RecordsHold(s, e, at);
    AuthHolds(s, e, at);
  }

  /* ---------- every log ---------- */

  /** A stored advisor event with its time, or events of the rest of the kernel, which may rewrite the host part. */
  datatype Stored = Advisor(event: Event, at: Time) | Other(host: Host, positions: nat)

  function Folded(s: State, last: Stored): Result<State> {
    match last
    case Advisor(event, at) => Evolve(s, event, at)
    case Other(host, positions) => Success(s.(host := host, position := s.position + positions))
  }

  /** `replayEvents`; an event that does not fold ends it. */
  function Replay(log: seq<Stored>): Result<State> {
    if log == [] then Success(EmptyState())
    else
      var before := Replay(log[..|log| - 1]);
      if before.Failure? then before else Folded(before.value, log[|log| - 1])
  }

  /** In every projection replayed from a log that folds, each advisor record sits under its own id and matches its digest. */
  lemma {:induction false} ReplayedDigestsHold(log: seq<Stored>)
    requires Replay(log).Success?
    ensures DigestsHold(Replay(log).value)
  {
    if log != [] {
      var before, last := log[..|log| - 1], log[|log| - 1];
      ReplayedDigestsHold(before);
      if last.Advisor? { EvolveKeepsDigests(Replay(before).value, last.event, last.at); }
    }
  }

  lemma {:induction false} FoldKeepsDigests(s: State, events: seq<Event>, at: Time)
    requires DigestsHold(s) && EvolveAll(s, events, at).Success?
    ensures DigestsHold(EvolveAll(s, events, at).value)
    decreases |events|
  {
    if events != [] {
      EvolveKeepsDigests(s, events[0], at);
      FoldKeepsDigests(Evolve(s, events[0], at).value, events[1..], at);
    }
  }

  lemma CommitKeepsDigests(s: State, actor: Actor, command: Command, now: Time, done: Option<(seq<Event>, State)>)
    requires DigestsHold(s) && done == Commit(s, actor, command, now)
    ensures done.Some? ==> DigestsHold(done.value.1)
  {
    CommitFolds(s, actor, command, now);
    if done.Some? { FoldKeepsDigests(s, done.value.0, now); }
  }

  lemma NextKeepsDigests(k: Kernel, step: Step, n: Kernel)
    requires DigestsHold(k.state) && n == Next(k, step)
    ensures DigestsHold(n.state)
  {
    if step.Execute? {
      var now := k.clock + step.elapsed;
      var done := Commit(k.state, step.actor, step.command, now);
      NextCommits(k, step.actor, step.command, step.elapsed, now, done);
      CommitKeepsDigests(k.state, step.actor, step.command, now, done);
    }
  }

  /** The same for every run of the kernel, priority changes and policies drafted from proposals included. */
  lemma {:induction false} RunDigestsHold(clock: Time, steps: seq<Step>)
    ensures DigestsHold(Run(Genesis(clock), steps).state)
  {
    if steps != [] {
      RunDigestsHold(clock, steps[..|steps| - 1]);
      NextKeepsDigests(Run(Genesis(clock), steps[..|steps| - 1]), steps[|steps| - 1], Run(Genesis(clock), steps));
    }
  }

  /* ---------- reading back ---------- */

  /** The rows of the twelve advisor tables. */
  datatype Tables = Tables(
    subjects: seq<StoredSubject>, cases: seq<StoredCase>, corpora: seq<StoredCorpus>, invocations: seq<StoredInvocation>,
    recommendations: seq<StoredRecommendation>, contaminations: seq<StoredContamination>, reports: seq<StoredReport>,
    policies: seq<StoredPolicy>, promotions: seq<StoredPromotion>, resolutions: seq<StoredResolution>, audits: seq<StoredAudit>,
    incidents: seq<StoredIncident>)

  ghost predicate WrittenRecords(t: Tables, r: Records) {
    && Lists(t.subjects, r.subjects) && Lists(t.cases, r.cases) && Lists(t.corpora, r.corpora)
    && Lists(t.invocations, r.invocations) && Lists(t.recommendations, r.recommendations)
  }

  ghost predicate WrittenAuth(t: Tables, a: Auth) {
    && Lists(t.contaminations, a.contaminations) && Lists(t.reports, a.reports) && Lists(t.policies, a.policies) && Lists(t.promotions, a.promotions)
    && Lists(t.resolutions, a.resolutions) && Lists(t.audits, a.audits) && Lists(t.incidents, a.incidents)
  }

  ghost predicate RecordsRead(t: Tables, r: Records) {
    && ReadTable(t.subjects, (v: StoredSubject) => v.subject.subjectId, SubjectOk) == Success(r.subjects)
    && ReadTable(t.cases, (v: StoredCase) => v.kase.caseId, CaseOk) == Success(r.cases)
    && ReadTable(t.corpora, (v: StoredCorpus) => v.corpus.corpusRevisionId, CorpusOk) == Success(r.corpora)
    && ReadTable(t.invocations, (v: StoredInvocation) => v.invocation.invocationId, InvocationOk) == Success(r.invocations)
    && ReadTable(t.recommendations, (v: StoredRecommendation) => v.recommendation.recommendationId, RecommendationOk) == Success(r.recommendations)
  }

  ghost predicate PoliciesRead(t: Tables, a: Auth) {
    && ReadTable(t.contaminations, (v: StoredContamination) => v.contamination.contaminationId, ContaminationOk) == Success(a.contaminations)
    && ReadTable(t.reports, (v: StoredReport) => v.report.reportId, ReportOk) == Success(a.reports)
    && ReadTable(t.policies, (v: StoredPolicy) => v.policy.policyRevisionId, PolicyOk) == Success(a.policies)
    && ReadTable(t.promotions, (v: StoredPromotion) => v.promotion.promotionId, PromotionOk) == Success(a.promotions)
  }

  ghost predicate FindingsRead(t: Tables, a: Auth) {
    && ReadTable(t.resolutions, (v: StoredResolution) => v.resolution.resolutionId, ResolutionOk) == Success(a.resolutions)
    && ReadTable(t.audits, (v: StoredAudit) => v.audit.auditId, AuditOk) == Success(a.audits)
    && ReadTable(t.incidents, (v: StoredIncident) => v.incident.incidentId, IncidentOk) == Success(a.incidents)
  }

  lemma RecordsReadBack(t: Tables, r: Records)
    requires RecordDigests(r) && WrittenRecords(t, r)
    ensures RecordsRead(t, r)
  {
    ReadsBack(t.subjects, r.subjects, (v: StoredSubject) => v.subject.subjectId, SubjectOk);
    ReadsBack(t.cases, r.cases, (v: StoredCase) => v.kase.caseId, CaseOk);
    ReadsBack(t.corpora, r.corpora, (v: StoredCorpus) => v.corpus.corpusRevisionId, CorpusOk);
    ReadsBack(t.invocations, r.invocations, (v: StoredInvocation) => v.invocation.invocationId, InvocationOk);
    ReadsBack(t.recommendations, r.recommendations, (v: StoredRecommendation) => v.recommendation.recommendationId, RecommendationOk);
  }

  lemma PoliciesReadBack(t: Tables, a: Auth)
    requires ReportDigests(a) && PolicyDigests(a) && PromotionDigests(a) && WrittenAuth(t, a)
    ensures PoliciesRead(t, a)
  {
    ReadsBack(t.contaminations, a.contaminations, (v: StoredContamination) => v.contamination.contaminationId, ContaminationOk);
    ReadsBack(t.reports, a.reports, (v: StoredReport) => v.report.reportId, ReportOk);
    ReadsBack(t.policies, a.policies, (v: StoredPolicy) => v.policy.policyRevisionId, PolicyOk);
    ReadsBack(t.promotions, a.promotions, (v: StoredPromotion) => v.promotion.promotionId, PromotionOk);
  }

  lemma FindingsReadBack(t: Tables, a: Auth)
    requires AuditDigests(a) && FindingDigests(a) && WrittenAuth(t, a)
    ensures FindingsRead(t, a)
  {
    ReadsBack(t.resolutions, a.resolutions, (v: StoredResolution) => v.resolution.resolutionId, ResolutionOk);
    ReadsBack(t.audits, a.audits, (v: StoredAudit) => v.audit.auditId, AuditOk);
    ReadsBack(t.incidents, a.incidents, (v: StoredIncident) => v.incident.incidentId, IncidentOk);
  }

  /** For every log that folds and every row order, reading the advisor tables fires no digest check and gives back every record. */
  lemma ReplayedReadsBack(log: seq<Stored>, t: Tables)
    requires Replay(log).Success? && WrittenRecords(t, Replay(log).value.records) && WrittenAuth(t, Replay(log).value.auth)
    ensures RecordsRead(t, Replay(log).value.records) && PoliciesRead(t, Replay(log).value.auth) && FindingsRead(t, Replay(log).value.auth)
  {
    ReplayedDigestsHold(log);
    RecordsReadBack(t, Replay(log).value.records);
    PoliciesReadBack(t, Replay(log).value.auth);
    FindingsReadBack(t, Replay(log).value.auth);
  }
}
