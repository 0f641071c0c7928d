/** The pure deciders: state, command and time in, events or a rejection out (`decideAdvisor`). */
module AdvisorDecide {
  import opened Prelude
  import opened Maps
  import opened Sequences
  import opened AdvisorTypes
  import opened AdvisorEvaluation

  /* ---------- references ---------- */

  /** The digest the projection holds for an entity, if it knows it. */
  ghost function Authority(s: State, kind: RefKind, id: Id): Option<Digest> {
    match kind
    case SubjectKind => if id in s.records.subjects then Some(s.records.subjects[id].digest) else None
    case CaseKind => if id in s.records.cases then Some(s.records.cases[id].digest) else None
    case CorpusKind => if id in s.records.corpora then Some(s.records.corpora[id].digest) else None
    case RecommendationKind => if id in s.records.recommendations then Some(s.records.recommendations[id].digest) else None
    case EvaluationKind => if id in s.auth.reports then Some(s.auth.reports[id].digest) else None
    case ProposalKind => if id in s.host.proposals then Some(s.host.proposals[id].digest) else None
    case PolicyKind => if id in s.auth.policies then Some(s.auth.policies[id].digest) else None
    case PromotionKind => if id in s.auth.promotions then Some(s.auth.promotions[id].digest) else None
    case ResolutionKind => if id in s.auth.resolutions then Some(s.auth.resolutions[id].digest) else None
    case AuditKind => if id in s.auth.audits then Some(s.auth.audits[id].digest) else None
    case IncidentKind => if id in s.auth.incidents then Some(s.auth.incidents[id].digest) else None
    case RevisionKind => if id in s.host.revisions then Some(s.host.revisions[id].digest) else None
    case BundleKind => if id in s.host.bundles then Some(s.host.bundles[id].digest) else None
    case ActionResultKind => if id in s.host.actionResults then Some(s.host.actionResults[id].digest) else None
    case AttentionPolicyKind => if (kind, id) in s.host.foreign then Some(s.host.foreign[(kind, id)]) else None
    case HostKind(_) => if (kind, id) in s.host.foreign then Some(s.host.foreign[(kind, id)]) else None
  }

  ghost predicate Exact(s: State, r: Ref) {
    Authority(s, r.kind, r.id) == Some(r.digest)
  }

  ghost predicate NoRepeat(refs: seq<Ref>) {
    forall i, j :: 0 <= i < j < |refs| ==> (refs[i].kind, refs[i].id) != (refs[j].kind, refs[j].id)
  }

  ghost predicate UniqueAndExact(s: State, refs: seq<Ref>) {
    NoRepeat(refs) && forall i :: 0 <= i < |refs| ==> Exact(s, refs[i])
  }

  ghost predicate CitesOnly(actual: seq<Ref>, allowed: seq<Ref>) {
    Distinct(actual) && forall i :: 0 <= i < |actual| ==> actual[i] in allowed
  }

  ghost predicate CitationsMatch(output: Output, input: CaseInput) {
    && CitesOnly(output.policyCitations, input.policyRefs)
    && CitesOnly(output.precedentCitations, input.precedentRefs)
    && CitesOnly(output.evidenceCitations, input.evidenceRefs)
  }

  /* ---------- packets ---------- */

  ghost predicate PromotionAllowed(a: Action) {
    (a.Reprioritize? && a.priority != P0) || a.ApproveRecord?
  }

  ghost function CompiledOption(o: PacketOption): CaseOption {
    CaseOption(o.optionId, KindOfAction(o.action), KindOfTarget(o.action),
               match o.action {
                 case Reprioritize(_, _, priority) => PriorityParameter(priority)
                 case ApproveRecord(_) => RecordOnlyParameter
                 case ApproveOther(_) => ExcludedParameter
                 case OtherAction(_, _) => ExcludedParameter
               },
               Hash(OfTarget(o.action)))
  }

  ghost predicate AllAllowed(options: seq<PacketOption>) {
    forall i :: 0 <= i < |options| ==> PromotionAllowed(options[i].action)
  }

  /** What the advisor may see of the exact current V1 packet (`compileAdvisorCaseInput`). */
  ghost function CompileInput(s: State, packetId: Id, revisionId: Id, revisionDigest: Digest, now: Time): Result<CaseInput> {
    if packetId !in s.host.packets || revisionId !in s.host.revisions then Failure("DECISION_PACKET_STALE") else
    var packet := s.host.packets[packetId];
    var stored := s.host.revisions[revisionId];
    if !stored.revision.V1? || stored.digest != revisionDigest || Hash(OfRevision(stored.revision)) != stored.digest
       || packet.currentRevisionId != revisionId || packet.currentRevisionDigest != revisionDigest
    then Failure("DECISION_PACKET_STALE") else
    var revision := stored.revision;
    if revision.bundleRef.id !in s.host.bundles then Failure("EVIDENCE_DIGEST_MISMATCH") else
    var bundle := s.host.bundles[revision.bundleRef.id];
    if !bundle.bundle.BundleV1? || bundle.digest != revision.bundleRef.digest || Hash(OfBundle(bundle.bundle)) != bundle.digest
    then Failure("EVIDENCE_DIGEST_MISMATCH") else
    var eligible := revision.risk == Low && revision.safety == Routine && revision.reversibility == Reversible && AllAllowed(revision.options);
    var policyRefs := if revision.policyBinding.Some? then [revision.policyBinding.value] else [];
    var evidenceRefs := [revision.bundleRef] + bundle.bundle.refs;
    if !UniqueAndExact(s, policyRefs) || !UniqueAndExact(s, revision.precedentRefs) || !UniqueAndExact(s, evidenceRefs)
    then Failure("EVIDENCE_DIGEST_MISMATCH")
    else Success(CaseInput(
      Ref(RevisionKind, revision.revisionId, stored.digest), revision.programId, revision.sourceKind, revision.risk, revision.safety,
      revision.reversibility, eligible, seq(|revision.options|, i requires 0 <= i < |revision.options| => CompiledOption(revision.options[i])),
      policyRefs, revision.precedentRefs, evidenceRefs, now))
  }

  /* ---------- suspension ---------- */

  ghost function IncidentKindOf(reason: Reason): IncidentKind {
    match reason
    case AuditOverdue => AuditOverdueIncident
    case ExpiredOrLimit => PolicyExpiredIncident
    case CorpusContamination => ContaminationIncident
    case SubjectDrift => SubjectDriftIncident
    case EvaluationFloorOrDrift => SubjectDriftIncident
    case FoundInAudit(finding) => FindingIncident(finding)
    case NoReason => EvaluationFloorIncident
    case Stated(_) => EvaluationFloorIncident
  }

  ghost function PolicyRef(stored: StoredPolicy): Ref {
    Ref(PolicyKind, stored.policy.policyRevisionId, stored.digest)
  }

  ghost function SuspensionEvents(stored: StoredPolicy, source: Ref, reason: Reason, now: Time): (r: seq<Event>)
    ensures |r| == 2
  {
    var id := stored.policy.policyRevisionId;
    var incident := Incident(Derived("advisor-incident", [id, source.id], reason), PolicyRef(stored), IncidentKindOf(reason), source, true, now);
    [IncidentRecorded(incident, Hash(OfIncident(incident))), PolicySuspended(id, reason, source, now)]
  }

  /** The active policies a new revision of the subject `prior` overtakes. */
  ghost function ActiveUnder(a: Auth, prior: Ref): (r: seq<Id>)
    ensures forall p :: p in r <==> p in a.policies && a.policies[p].status == Active
                                    && a.policies[p].policy.subjectRef.id == prior.id && a.policies[p].policy.subjectRef.digest == prior.digest
  {
    Filter(a.policies, (p: StoredPolicy) => p.status == Active && p.policy.subjectRef.id == prior.id && p.policy.subjectRef.digest == prior.digest)
  }

  /** The active policies bound to a corpus revision. */
  ghost function ActiveOn(a: Auth, corpusRevisionId: Id): (r: seq<Id>)
    ensures forall p :: p in r <==> p in a.policies && a.policies[p].status == Active && a.policies[p].policy.corpusRef.id == corpusRevisionId
  {
    Filter(a.policies, (p: StoredPolicy) => p.status == Active && p.policy.corpusRef.id == corpusRevisionId)
  }

  /** The suspensions pushed by a loop over the policies named by `ids`. */
  ghost function SuspendEach(a: Auth, ids: seq<Id>, source: Ref, reason: Reason, now: Time): seq<Event>
    requires forall i :: 0 <= i < |ids| ==> ids[i] in a.policies
  {
    if ids == [] then []
    else SuspensionEvents(a.policies[ids[0]], source, reason, now) + SuspendEach(a, ids[1..], source, reason, now)
  }

  /* ---------- subjects, cases, corpora, contamination ---------- */

  ghost function DecideSubject(s: State, actor: Actor, input: Subject, now: Time): Decision {
    if !actor.Operator? then Rejected("APPROVAL_REQUIRES_OPERATOR")
    else if input.subjectId in s.records.subjects then Rejected("ADVISOR_SUBJECT_CONFLICT")
    else if (!input.conformance && input.model.None?) || (input.conformance && input.model.Some?)
            || (input.revision == 1 && input.prior.Some?)
            || (input.revision > 1 && (input.prior.None? || input.prior.value.kind != SubjectKind || !Exact(s, input.prior.value)))
    then Rejected("ADVISOR_SUBJECT_CONFLICT")
    else
      var subject := input.(approvedAt := now);
      Accepted([SubjectApproved(subject, Hash(OfSubject(subject)))] +
               (if input.prior.None? then [] else SuspendEach(s.auth, ActiveUnder(s.auth, input.prior.value), input.prior.value, SubjectDrift, now)))
  }

  ghost function DecideCase(s: State, actor: Actor, input: Case, now: Time): Decision {
    if !actor.Operator? then Rejected("APPROVAL_REQUIRES_OPERATOR")
    else if input.caseId in s.records.cases || Hash(OfInput(input.input)) != input.inputDigest
            || !(exists i :: 0 <= i < |input.input.options| && input.input.options[i].optionId == input.selectedOptionId)
    then Rejected("ADVISOR_CASE_INVALID")
    else
      var refs := input.input.policyRefs + input.input.precedentRefs + input.input.evidenceRefs;
      if !NoRepeat(refs) then Rejected("ADVISOR_CASE_INVALID")
      else if input.provenance == Natural && !NaturalAuthority(s, input, refs) then Rejected("ADVISOR_CASE_INVALID")
      else
        var recorded := input.(recordedAt := now);
        Accepted([CaseRecorded(recorded, Hash(OfCase(recorded)))])
  }

  /** A natural case needs the operator's own resolution and its exact action result. */
  ghost predicate NaturalAuthority(s: State, input: Case, refs: seq<Ref>) {
    var packet := input.input.packetRevisionRef;
    var chosen := (c: Choice) => c.packetRevisionId == packet.id && c.optionId == input.selectedOptionId;
    var result := Find(s.host.actionResults, chosen);
    && packet.id in s.host.revisions && s.host.revisions[packet.id].digest == packet.digest
    && Find(s.host.decisions, chosen).Some?
    && result.Some?
    && input.actionResultRef.Some?
    && input.actionResultRef.value == Ref(ActionResultKind, result.value, s.host.actionResults[result.value].digest)
    && UniqueAndExact(s, refs)
  }

  ghost function Ids(refs: seq<Ref>): seq<Id> {
    seq(|refs|, i requires 0 <= i < |refs| => refs[i].id)
  }

  ghost function DecideCorpus(s: State, actor: Actor, input: Corpus, now: Time): Decision {
    if !actor.Operator? then Rejected("APPROVAL_REQUIRES_OPERATOR") else
    var current := Find(s.records.corpora, (c: StoredCorpus) => c.corpus.corpusId == input.corpusId && c.supersededAt.None?);
    if input.corpusRevisionId in s.records.corpora
       || (if current.Some? then
             var prior := s.records.corpora[current.value];
             input.revision != prior.corpus.revision + 1 || input.prior != Some(Ref(CorpusKind, prior.corpus.corpusRevisionId, prior.digest))
           else input.revision != 1 || input.prior.Some?)
    then Rejected("ADVISOR_CORPUS_INVALID") else
    var all := input.calibration + input.holdout;
    if !Distinct(Ids(input.calibration)) || !Distinct(Ids(input.holdout))
       || (exists i :: 0 <= i < |input.calibration| && input.calibration[i].id in Ids(input.holdout))
       || !(forall i :: 0 <= i < |all| ==> all[i].kind == CaseKind && Exact(s, all[i]))
    then Rejected("ADVISOR_CORPUS_INVALID")
    else if exists i, j :: 0 <= i < |input.calibration| && 0 <= j < |input.holdout|
                           && Family(s, input.calibration[i].id) == Family(s, input.holdout[j].id)
    then Rejected("ADVISOR_CORPUS_INVALID")
    else
      var corpus := input.(approvedAt := now);
      Accepted([CorpusApproved(corpus, Hash(OfCorpus(corpus)), if current.Some? then Some(s.records.corpora[current.value].corpus.corpusRevisionId) else None)])
  }

  ghost function Family(s: State, caseId: Id): Option<string> {
    if caseId in s.records.cases then Some(s.records.cases[caseId].kase.family) else None
  }

  ghost function DecideContamination(s: State, actor: Actor, input: Contamination, now: Time): Decision {
    if !actor.Operator? then Rejected("APPROVAL_REQUIRES_OPERATOR")
    else if input.contaminationId in s.auth.contaminations || input.corpusRef.id !in s.records.corpora
    then Rejected("ADVISOR_CORPUS_INVALID")
    else
      var corpus := s.records.corpora[input.corpusRef.id];
      var partition := if input.caseRef.id in Ids(corpus.corpus.calibration) then Some(CalibrationPart)
                       else if input.caseRef.id in Ids(corpus.corpus.holdout) then Some(HoldoutPart) else None;
      if corpus.digest != input.corpusRef.digest || input.caseRef.kind != CaseKind || !Exact(s, input.caseRef)
         || partition != Some(input.partition) || (input.subjectRef.Some? && !Exact(s, input.subjectRef.value))
      then Rejected("ADVISOR_CORPUS_INVALID")
      else
        var contamination := input.(recordedAt := now);
        Accepted([ContaminationRecorded(contamination, Hash(OfContamination(contamination)))] +
                 SuspendEach(s.auth, ActiveOn(s.auth, corpus.corpus.corpusRevisionId), Ref(CorpusKind, corpus.corpus.corpusRevisionId, corpus.digest), CorpusContamination, now))
  }

  /* ---------- the invocation queue ---------- */

  ghost function Queued(s: State, invocationId: Id, subject: StoredSubject, purpose: Purpose, input: CaseInput, caseRef: Option<Ref>, now: Time): Decision {
    var invocation := Invocation(
      invocationId, Ref(SubjectKind, subject.subject.subjectId, subject.digest), input, Hash(OfInput(input)), purpose, caseRef,
      Pending, now, 0, None, 0, None, None, now, None);
    Accepted([InvocationQueued(invocation, Hash(OfInvocation(invocation)))])
  }

  ghost function DecideQueueForCase(s: State, actor: Actor, invocationId: Id, subjectId: Id, purpose: Purpose, caseId: Id, now: Time): Decision {
    if !actor.System? || invocationId in s.records.invocations then Rejected("ADVISOR_INVOCATION_NOT_CLAIMABLE")
    else if subjectId !in s.records.subjects then Rejected("ADVISOR_SUBJECT_CONFLICT")
    else if caseId !in s.records.cases then Rejected("ADVISOR_CASE_INVALID")
    else
      var c := s.records.cases[caseId];
      Queued(s, invocationId, s.records.subjects[subjectId], purpose, c.kase.input, Some(Ref(CaseKind, c.kase.caseId, c.digest)), now)
  }

  ghost function DecideQueueForPacket(s: State, actor: Actor, invocationId: Id, subjectId: Id, purpose: Purpose,
                                packetId: Id, revisionId: Id, revisionDigest: Digest, now: Time): Decision {
    if !actor.System? || invocationId in s.records.invocations then Rejected("ADVISOR_INVOCATION_NOT_CLAIMABLE")
    else if subjectId !in s.records.subjects then Rejected("ADVISOR_SUBJECT_CONFLICT")
    else
      var input := CompileInput(s, packetId, revisionId, revisionDigest, now);
      if input.Failure? then Rejected(input.error)
      else Queued(s, invocationId, s.records.subjects[subjectId], purpose, input.value, None, now)
  }

  ghost function DecideAcquire(s: State, actor: Actor, invocationId: Id, ownerId: Id, durationMs: int, now: Time): Decision {
    if !actor.System? || invocationId !in s.records.invocations then Rejected("ADVISOR_INVOCATION_NOT_CLAIMABLE")
    else
      var i := s.records.invocations[invocationId].invocation;
      var reclaiming := i.status == Leased && i.leaseExpiresAt.Some? && i.leaseExpiresAt.value <= now;
      if !((i.status == Pending && i.availableAt <= now) || reclaiming) then Rejected("ADVISOR_INVOCATION_NOT_CLAIMABLE")
      else Accepted([LeaseAcquired(i.invocationId, ownerId, i.fencingToken + 1, i.attempt + 1, now + durationMs)])
  }

  ghost predicate HoldsLease(i: Invocation, ownerId: Id, fencingToken: nat) {
    i.status == Leased && i.ownerId == Some(ownerId) && i.fencingToken == fencingToken
  }

  ghost function DecideComplete(s: State, actor: Actor, invocationId: Id, recommendationId: Id, ownerId: Id, fencingToken: nat,
                          output: Output, receipt: Receipt, now: Time): Decision {
    if !actor.System? || invocationId !in s.records.invocations then Rejected("ADVISOR_INVOCATION_LEASE_CONFLICT")
    else
      var i := s.records.invocations[invocationId].invocation;
      if !HoldsLease(i, ownerId, fencingToken) || i.leaseExpiresAt.None? || i.leaseExpiresAt.value <= now
      then Rejected("ADVISOR_INVOCATION_LEASE_CONFLICT")
      else if i.subjectRef.id !in s.records.subjects then Rejected("ADVISOR_OUTPUT_INVALID")
      else
        var subject := s.records.subjects[i.subjectRef.id];
        if subject.digest != i.subjectRef.digest || receipt.subjectRef.id != subject.subject.subjectId
           || receipt.subjectRef.digest != subject.digest || receipt.inputDigest != i.inputDigest
           || receipt.outputDigest != Hash(OfOutput(output)) || receipt.exitCode != 0
           || receipt.completedAt > now || receipt.startedAt > receipt.completedAt || !CitationsMatch(output, i.input)
           || (output.Recommend? && !(exists k :: 0 <= k < |i.input.options| && i.input.options[k].optionId == output.optionId))
        then Rejected("ADVISOR_OUTPUT_INVALID")
        else
          var recommendation := Recommendation(recommendationId, i.invocationId, i.subjectRef, i.input.packetRevisionRef,
                                               i.input.programId, i.purpose, output, receipt, now);
          Accepted([InvocationSucceeded(i.invocationId, ownerId, fencingToken, recommendation, Hash(OfRecommendation(recommendation)), now)])
  }

  /** `ADVISOR_RETRY_DELAYS_MS[attempt - 1]`. */
  ghost function RetryDelay(attempt: nat): Option<int> {
    if attempt == 1 then Some(1_000) else if attempt == 2 then Some(5_000) else None
  }

  ghost function DecideFail(s: State, actor: Actor, invocationId: Id, ownerId: Id, fencingToken: nat, permanent: bool, now: Time): Decision {
    if !actor.System? || invocationId !in s.records.invocations then Rejected("ADVISOR_INVOCATION_LEASE_CONFLICT")
    else
      var i := s.records.invocations[invocationId].invocation;
      if !HoldsLease(i, ownerId, fencingToken) then Rejected("ADVISOR_INVOCATION_LEASE_CONFLICT")
      else
        var delay := RetryDelay(i.attempt);
        var final := permanent || delay.None?;
        Accepted([InvocationFailed(i.invocationId, ownerId, fencingToken, final,
                                   if final then now else now + delay.value, if final then Some(now) else None)])
  }

  ghost function DecideCancel(s: State, invocationId: Id, now: Time): Decision {
    if invocationId !in s.records.invocations then Rejected("ADVISOR_INVOCATION_NOT_CLAIMABLE")
    else
      var i := s.records.invocations[invocationId].invocation;
      if i.status != Pending && i.status != Leased then Rejected("ADVISOR_INVOCATION_NOT_CLAIMABLE")
      else Accepted([InvocationCancelled(i.invocationId, now)])
  }

  /* ---------- policies and promotion ---------- */

  ghost function DecidePolicy(s: State, actor: Actor, input: Policy, now: Time): Decision {
    if !actor.Operator? then Rejected("APPROVAL_REQUIRES_OPERATOR") else
    var current := Find(s.auth.policies, (p: StoredPolicy) => p.policy.policyId == input.policyId && p.status != Superseded);
    if input.policyRevisionId in s.auth.policies
       || Authority(s, SubjectKind, input.subjectRef.id) != Some(input.subjectRef.digest)
       || Authority(s, CorpusKind, input.corpusRef.id) != Some(input.corpusRef.digest)
       || s.records.corpora[input.corpusRef.id].supersededAt.Some?
       || (!input.live && |input.fixturePrograms| == 0) || (input.live && |input.fixturePrograms| > 0)
       || !Distinct(input.fixturePrograms) || input.expiresAt <= now
       || (if current.Some? then
             var prior := s.auth.policies[current.value];
             input.revision != prior.policy.revision + 1 || input.prior.None?
             || input.prior.value.id != prior.policy.policyRevisionId || input.prior.value.digest != prior.digest
           else input.revision != 1 || input.prior.Some?)
       || (input.matcher.actionKind == Reprioritizing && (input.matcher.targetKind != AttentionPriority || |input.matcher.allowedPriorities| == 0))
       || (input.matcher.actionKind == Approving && input.matcher.targetKind != RecordOnlyTarget)
       || (input.proposal.Some? && (!Exact(s, input.proposal.value) || input.proposal.value.id !in s.host.proposals
                                    || !s.host.proposals[input.proposal.value.id].open))
    then Rejected("DECISION_POLICY_CONFLICT")
    else
      var policy := input.(approvedAt := now);
      Accepted([PolicyApproved(policy, Hash(OfPolicy(policy)),
                               if current.Some? then Some(s.auth.policies[current.value].policy.policyRevisionId) else None)])
  }

  ghost predicate Contaminated(a: Auth, corpusRevisionId: Id) {
    exists k :: k in a.contaminations && a.contaminations[k].contamination.corpusRef.id == corpusRevisionId
  }

  ghost predicate HasOpenIncident(a: Auth, policyRevisionId: Id) {
    exists k :: k in a.incidents && a.incidents[k].incident.policyRef.id == policyRevisionId && a.incidents[k].incident.open
  }

  ghost function DecideEvaluation(s: State, actor: Actor, reportId: Id, subjectId: Id, policyRevisionId: Id, corpusRevisionId: Id,
                            recentCaseIds: seq<Id>, expectedPosition: nat, now: Time): (r: Decision)
    ensures r.Accepted? ==> |r.events| == 1 && r.events[0].EvaluationCompiled?
  {
    if !actor.System? || expectedPosition != s.position
       || subjectId !in s.records.subjects || policyRevisionId !in s.auth.policies || corpusRevisionId !in s.records.corpora
    then Rejected("ADVISOR_EVALUATION_BLOCKED")
    else
      var subject, policy, corpus := s.records.subjects[subjectId], s.auth.policies[policyRevisionId], s.records.corpora[corpusRevisionId];
      if policy.policy.subjectRef.id != subject.subject.subjectId || policy.policy.subjectRef.digest != subject.digest
         || policy.policy.corpusRef.id != corpus.corpus.corpusRevisionId || policy.policy.corpusRef.digest != corpus.digest
         || corpus.supersededAt.Some?
      then Rejected("ADVISOR_EVALUATION_BLOCKED")
      else
        var report := Evaluate(s, reportId, subject, policy, corpus, recentCaseIds, now);
        Accepted([EvaluationCompiled(report, Hash(OfReport(report)))])
  }

  ghost function LatestThrough(s: State, policyRevisionId: Id): nat {
    var mine := Filter(s.auth.reports, (r: StoredReport) => r.report.policyRef.id == policyRevisionId);
    var sorted := SortDescending(mine, (k: Id) => if k in s.auth.reports then s.auth.reports[k].report.throughPosition else 0);
    if sorted == [] then 0 else s.auth.reports[sorted[0]].report.throughPosition
  }

  ghost function Anchor(s: State, refs: seq<Ref>): Option<ProgramId> {
    if refs == [] then None
    else
      var rest := Anchor(s, refs[1..]);
      if refs[0].id !in s.records.cases then rest
      else
        var mine := s.records.cases[refs[0].id].kase.input.programId;
        Some(if rest.Some? && rest.value < mine then rest.value else mine)
  }

  ghost predicate Compilable(s: State, policy: StoredPolicy, report: Report, now: Time) {
    && policy.status == Shadow && report.blockers == {} && report.policyRef.id == policy.policy.policyRevisionId
    && report.policyRef.digest == policy.digest
    && Authority(s, SubjectKind, policy.policy.subjectRef.id) == Some(policy.policy.subjectRef.digest)
    && Authority(s, CorpusKind, policy.policy.corpusRef.id) == Some(policy.policy.corpusRef.digest)
    && s.records.corpora[policy.policy.corpusRef.id].supersededAt.None?
    && !Contaminated(s.auth, policy.policy.corpusRef.id) && !HasOpenIncident(s.auth, policy.policy.policyRevisionId)
    && report.throughPosition == LatestThrough(s, policy.policy.policyRevisionId)
    && !EvidenceChanged(s, policy, report) && policy.policy.expiresAt > now
  }

  ghost predicate OpensPacket(r: seq<Event>) {
    |r| == 3 && r[0].BundleRecorded? && r[1].PacketOpened? && r[2].RevisionRecorded?
  }

  /** The bundle, packet and single-option revision that put a promotion before the operator. */
  ghost function PromotionPacket(packetId: Id, revisionId: Id, bundleId: Id, policy: StoredPolicy, subject: StoredSubject, corpus: StoredCorpus,
                                 report: StoredReport, anchor: ProgramId, now: Time): (r: seq<Event>)
    ensures OpensPacket(r)
  {
    var policyRef := PolicyRef(policy);
    var subjectRef := Ref(SubjectKind, subject.subject.subjectId, subject.digest);
    var corpusRef := Ref(CorpusKind, corpus.corpus.corpusRevisionId, corpus.digest);
    var reportRef := Ref(EvaluationKind, report.report.reportId, report.digest);
    var expiresAt := if policy.policy.expiresAt < now + 30 * DAY_MS then policy.policy.expiresAt else now + 30 * DAY_MS;
    var precondition := Hash(OfPrecondition(policyRef, subjectRef, corpusRef, reportRef, expiresAt, AUTOMATIC_LIMIT));
    var optionId := Derived("advisor-promotion-option", [policy.policy.policyRevisionId, report.report.reportId], NoReason);
    var bundle := BundleV3(bundleId, [policyRef, subjectRef, corpusRef, reportRef]);
    var revision := V3(revisionId, packetId, anchor, optionId,
                       PromotionTarget(policyRef, subjectRef, corpusRef, reportRef, expiresAt, precondition),
                       Ref(BundleKind, bundleId, Hash(OfBundle(bundle))), expiresAt);
    [BundleRecorded(bundle, Hash(OfBundle(bundle))),
     PacketOpened(packetId, revisionId, Hash(OfRevision(revision))),
     RevisionRecorded(revision, Hash(OfRevision(revision)))]
  }

  ghost function DecideCompilePromotion(s: State, actor: Actor, packetId: Id, revisionId: Id, bundleId: Id, policyRevisionId: Id,
                                        reportId: Id, expectedPosition: nat, now: Time): (r: Decision)
    ensures r.Accepted? ==> OpensPacket(r.events)
  {
    if !actor.System? || expectedPosition != s.position || policyRevisionId !in s.auth.policies || reportId !in s.auth.reports
    then Rejected("DECISION_POLICY_NOT_PROMOTABLE")
    else
      var policy, report := s.auth.policies[policyRevisionId], s.auth.reports[reportId];
      if !Compilable(s, policy, report.report, now) then Rejected("DECISION_POLICY_NOT_PROMOTABLE")
      else
        var subject, corpus := s.records.subjects[policy.policy.subjectRef.id], s.records.corpora[policy.policy.corpusRef.id];
        var anchor := Anchor(s, corpus.corpus.holdout);
        if anchor.None? then Rejected("DECISION_POLICY_NOT_PROMOTABLE")
        else Accepted(PromotionPacket(packetId, revisionId, bundleId, policy, subject, corpus, report, anchor.value, now))
  }

  ghost function DecidePromote(s: State, actor: Actor, promotionId: Id, packetId: Id, revisionId: Id, revisionDigest: Digest,
                         optionId: Id, preconditionDigest: Digest, now: Time): Decision {
    if !actor.Operator? then Rejected("APPROVAL_REQUIRES_OPERATOR")
    else if packetId !in s.host.packets || revisionId !in s.host.revisions then Rejected("DECISION_PACKET_STALE")
    else
      var packet, stored := s.host.packets[packetId], s.host.revisions[revisionId];
      if packet.status != PacketOpen || packet.currentRevisionId != revisionId || packet.currentRevisionDigest != revisionDigest
         || !stored.revision.V3? || stored.digest != revisionDigest || stored.revision.deadlineAt <= now
         || Hash(OfRevision(stored.revision)) != stored.digest
      then Rejected("DECISION_PACKET_STALE")
      else
        var target := stored.revision.target;
        if stored.revision.optionId != optionId || target.preconditionDigest != preconditionDigest then Rejected("DECISION_ACTION_MISMATCH")
        else if !Promotable(s, target, now) then Rejected("DECISION_POLICY_NOT_PROMOTABLE")
        else
          var promotion := Promotion(promotionId, target.policyRef, target.subjectRef, target.corpusRef, target.reportRef,
                                     Ref(RevisionKind, stored.revision.revisionId, stored.digest), target.preconditionDigest, target.expiresAt, now);
          Accepted([PromotionAuthorized(promotion, Hash(OfPromotion(promotion)))] +
                   Decided(stored.revision.packetId, stored.revision.revisionId, optionId, target.policyRef, now))
  }

  /** The evidence checks an operator promotion repeats against the current state. */
  ghost predicate Promotable(s: State, target: PromotionTarget, now: Time) {
    && target.policyRef.id in s.auth.policies && target.subjectRef.id in s.records.subjects
    && target.corpusRef.id in s.records.corpora && target.reportRef.id in s.auth.reports
    && var policy, subject := s.auth.policies[target.policyRef.id], s.records.subjects[target.subjectRef.id];
       var corpus, report := s.records.corpora[target.corpusRef.id], s.auth.reports[target.reportRef.id];
    && policy.status == Shadow && policy.digest == target.policyRef.digest
    && subject.digest == target.subjectRef.digest
    && corpus.digest == target.corpusRef.digest && corpus.supersededAt.None?
    && report.digest == target.reportRef.digest && report.report.blockers == {}
    && report.report.policyRef.id == policy.policy.policyRevisionId
    && report.report.subjectRef.id == subject.subject.subjectId
    && report.report.corpusRef.id == corpus.corpus.corpusRevisionId
    && !Contaminated(s.auth, target.corpusRef.id) && !HasOpenIncident(s.auth, target.policyRef.id)
    && target.expiresAt > now && policy.policy.expiresAt > now
    && !EvidenceChanged(s, policy, report.report)
    && Hash(OfPrecondition(target.policyRef, target.subjectRef, target.corpusRef, target.reportRef, target.expiresAt, AUTOMATIC_LIMIT)) == target.preconditionDigest
  }

  /** The three records every decided packet leaves. */
  ghost function Decided(packetId: Id, revisionId: Id, optionId: Id, policyRef: Ref, now: Time): seq<Event> {
    var resultId := Derived("decision-action-result", [revisionId, optionId], NoReason);
    var decisionId := Derived("decision-resolution", [revisionId, optionId], NoReason);
    var precedentId := Derived("decision-precedent", [revisionId, optionId], NoReason);
    var digest := Hash(OfActionResult(resultId, revisionId, optionId, policyRef, now));
    [ActionApplied(resultId, revisionId, optionId, digest), DecisionResolved(decisionId, packetId, revisionId, optionId, digest), PrecedentRecorded(precedentId, digest)]
  }

  /* ---------- automatic resolution ---------- */

  ghost predicate AuditSelectedFor(count: nat, sample: real, rate: real) {
    count < ALWAYS_AUDITED || sample < rate
  }

  ghost predicate Unhealthy(s: State, policy: StoredPolicy) {
    var id := policy.policy.policyRevisionId;
    var mine := Filter(s.auth.reports, (r: StoredReport) => r.report.policyRef.id == id);
    var sorted := SortDescending(mine, (k: Id) => if k in s.auth.reports then s.auth.reports[k].report.throughPosition else 0);
    || sorted == []
    || (var latest := s.auth.reports[sorted[0]].report;
        || latest.blockers != {} || latest.policyRef.digest != policy.digest
        || latest.subjectRef.digest != policy.policy.subjectRef.digest
        || latest.corpusRef.digest != policy.policy.corpusRef.digest
        || Authority(s, SubjectKind, policy.policy.subjectRef.id) != Some(policy.policy.subjectRef.digest)
        || Authority(s, CorpusKind, policy.policy.corpusRef.id) != Some(policy.policy.corpusRef.digest)
        || s.records.corpora[policy.policy.corpusRef.id].supersededAt.Some?
        || EvidenceChanged(s, policy, latest)
        || HasOpenIncident(s.auth, id))
  }

  ghost predicate Overdue(a: StoredAudit, policyRevisionId: Id, now: Time) {
    a.audit.policyRef.id == policyRevisionId && !a.audit.completed && a.audit.dueAt <= now
  }

  /** Why an active policy must be suspended instead of acting, with the record to blame; checked in this order. */
  ghost function LossOf(s: State, policy: StoredPolicy, recommendationRef: Ref, now: Time): (r: Option<(Ref, Reason)>)
    requires policy.promotionId.Some?
    ensures r.None? ==> policy.promotionId.value in s.auth.promotions && policy.resolutionCount < AUTOMATIC_LIMIT
                        && forall k :: k in s.auth.audits ==> !Overdue(s.auth.audits[k], policy.policy.policyRevisionId, now)
  {
    if policy.promotionId.value !in s.auth.promotions || s.auth.promotions[policy.promotionId.value].promotion.expiresAt <= now
       || policy.policy.expiresAt <= now || policy.resolutionCount >= AUTOMATIC_LIMIT
    then Some((recommendationRef, ExpiredOrLimit))
    else if Unhealthy(s, policy) then Some((recommendationRef, EvaluationFloorOrDrift))
    else
      var overdue := Find(s.auth.audits, (a: StoredAudit) => Overdue(a, policy.policy.policyRevisionId, now));
      if overdue.Some? then Some((Ref(AuditKind, s.auth.audits[overdue.value].audit.auditId, s.auth.audits[overdue.value].digest), AuditOverdue))
      else None
  }

  ghost function DecideResolve(s: State, actor: Actor, c: Command, now: Time): Decision
    requires c.Resolve?
  {
    if !actor.System? || c.recommendationId !in s.records.recommendations || c.policyRevisionId !in s.auth.policies
    then Rejected("DECISION_POLICY_INACTIVE")
    else
      var recommendation, policy := s.records.recommendations[c.recommendationId], s.auth.policies[c.policyRevisionId];
      if policy.status != Active || policy.promotionId.None? then Rejected("DECISION_POLICY_INACTIVE")
      else if !policy.policy.live && recommendation.recommendation.programId !in policy.policy.fixturePrograms
      then Rejected("DECISION_POLICY_INACTIVE")
      else
        var recommendationRef := Ref(RecommendationKind, recommendation.recommendation.recommendationId, recommendation.digest);
        var loss := LossOf(s, policy, recommendationRef, now);
        if loss.Some? then Accepted(SuspensionEvents(policy, loss.value.0, loss.value.1, now))
        else DecideFreshResolve(s, c, recommendation.recommendation, policy, recommendationRef, now)
  }

  /** The last stage of `advisor.resolve`: authority is intact, so check the packet and act. */
  ghost function DecideFreshResolve(s: State, c: Command, r: Recommendation, policy: StoredPolicy, recommendationRef: Ref, now: Time): Decision
    requires c.Resolve?
    requires policy.promotionId.Some? && policy.promotionId.value in s.auth.promotions
  {
    var chosen := ChosenOption(s, c, r, policy, now);
    if chosen.Failure? then Rejected(chosen.error)
    else Accepted(ActionEvents(s, c.revisionId, chosen.value, policy, now) +
                  ResolutionEvents(ResolutionOf(s, c, policy, recommendationRef, chosen.value, now), policy, now))
  }

  ghost predicate MatchesOnly(m: Matcher, input: CaseInput) {
    |Keep(input.options, (o: CaseOption) => MatcherAccepts(m, input, o.optionId))| == 1
  }

  /** The packet option a recommendation may act on, after every check on packet, matcher and preconditions. */
  ghost function ChosenOption(s: State, c: Command, r: Recommendation, policy: StoredPolicy, now: Time): (o: Result<PacketOption>)
    requires c.Resolve?
    ensures o.Success? ==> c.revisionId in s.host.revisions && s.host.revisions[c.revisionId].revision.V1?
  {
    if !r.output.Recommend? || r.output.optionId != c.optionId || r.purpose != ForPromoted
       || r.subjectRef.id != policy.policy.subjectRef.id || r.subjectRef.digest != policy.policy.subjectRef.digest
       || r.packetRevisionRef.id != c.revisionId || r.packetRevisionRef.digest != c.revisionDigest
       || c.packetId !in s.host.packets || c.revisionId !in s.host.revisions
    then Failure("DECISION_PACKET_STALE")
    else
      var packet, stored := s.host.packets[c.packetId], s.host.revisions[c.revisionId];
      if packet.status != PacketOpen || packet.currentRevisionId != c.revisionId || packet.currentRevisionDigest != c.revisionDigest
         || !stored.revision.V1? || stored.digest != c.revisionDigest
      then Failure("DECISION_PACKET_STALE")
      else
        var compiled := CompileInput(s, packet.packetId, stored.revision.revisionId, stored.digest, now);
        if compiled.Failure? then Failure(compiled.error)
        else
          var matcher := policy.policy.matcher;
          var found := FirstOption(stored.revision.options, r.output.optionId);
          if found.None? || Hash(OfTarget(found.value.action)) != c.preconditionDigest
             || !MatcherAccepts(matcher, compiled.value, found.value.optionId) || !MatchesOnly(matcher, compiled.value)
             || !PromotionAllowed(found.value.action)
          then Failure("DECISION_ACTION_MISMATCH")
          else if StalePriority(s, found.value.action, matcher) then Failure("DECISION_PACKET_STALE")
          else Success(found.value)
  }

  ghost predicate StalePriority(s: State, action: Action, matcher: Matcher) {
    action.Reprioritize? && (action.priority == P0 || action.programId !in s.host.programs
                             || s.host.programs[action.programId].version != action.expectedVersion
                             || action.priority !in matcher.allowedPriorities)
  }

  ghost function ActionEvents(s: State, revisionId: Id, option: PacketOption, policy: StoredPolicy, now: Time): seq<Event>
    requires revisionId in s.host.revisions && s.host.revisions[revisionId].revision.V1?
  {
    var revision := s.host.revisions[revisionId].revision;
    (if option.action.Reprioritize? then [PriorityChanged(option.action.programId, option.action.priority)] else []) +
    Decided(revision.packetId, revision.revisionId, option.optionId, PolicyRef(policy), now)
  }

  ghost function ResolutionOf(s: State, c: Command, policy: StoredPolicy, recommendationRef: Ref, option: PacketOption, now: Time): Resolution
    requires c.Resolve? && c.revisionId in s.host.revisions && s.host.revisions[c.revisionId].revision.V1?
    requires policy.promotionId.Some? && policy.promotionId.value in s.auth.promotions
  {
    var stored, promotion := s.host.revisions[c.revisionId], s.auth.promotions[policy.promotionId.value];
    Resolution(c.resolutionId, PolicyRef(policy), Ref(PromotionKind, promotion.promotion.promotionId, promotion.digest), recommendationRef,
               Ref(RevisionKind, stored.revision.revisionId, stored.digest), stored.revision.programId, option.optionId,
               KindOfAction(option.action), c.preconditionDigest,
               AuditSelectedFor(policy.resolutionCount, c.sample, policy.policy.auditRate), now)
  }

  ghost function ResolutionEvents(resolution: Resolution, policy: StoredPolicy, now: Time): seq<Event> {
    [ResolutionRecorded(resolution, Hash(OfResolution(resolution)))] +
    (if resolution.auditSelected then [SelectedAudit(resolution, policy, now)] else [])
  }

  ghost function AuditIdFor(resolutionId: Id): Id {
    Derived("advisor-audit", [resolutionId], NoReason)
  }

  ghost function SelectedAudit(resolution: Resolution, policy: StoredPolicy, now: Time): Event {
    var audit := Audit(AuditIdFor(resolution.resolutionId), Ref(ResolutionKind, resolution.resolutionId, Hash(OfResolution(resolution))),
                       PolicyRef(policy), false, None, [], now, now + 7 * DAY_MS, None);
    AuditSelected(audit, Hash(OfAudit(audit)))
  }

  ghost function FirstOption(options: seq<PacketOption>, optionId: Id): (r: Option<PacketOption>)
    ensures r.Some? ==> r.value in options && r.value.optionId == optionId
  {
    if options == [] then None
    else if options[0].optionId == optionId then Some(options[0])
    else FirstOption(options[1..], optionId)
  }

  /* ---------- audits and explicit suspension ---------- */

  ghost predicate Damning(finding: Finding) {
    finding == SeriousFinding || finding == Harm
  }

  ghost function Reviewed(audit: Audit, finding: Finding, evidenceRefs: seq<Ref>, now: Time): Audit {
    audit.(completed := true, finding := Some(finding), evidenceRefs := evidenceRefs, reviewedAt := Some(now))
  }

  ghost function IncidentOf(audit: Audit, finding: Finding, now: Time): Incident {
    Incident(Derived("advisor-incident", [audit.auditId], FoundInAudit(finding)), audit.policyRef, FindingIncident(finding),
             Ref(AuditKind, audit.auditId, Hash(OfAudit(audit))), true, now)
  }

  /** What a damning finding costs at once: an incident and the suspension of the policy. */
  ghost function Fallout(audit: Audit, policyRevisionId: Id, finding: Finding, now: Time): seq<Event> {
    var incident := IncidentOf(audit, finding, now);
    [IncidentRecorded(incident, Hash(OfIncident(incident))), PolicySuspended(policyRevisionId, FoundInAudit(finding), incident.sourceRef, now)]
  }

  ghost function DecideAudit(s: State, actor: Actor, auditId: Id, finding: Finding, evidenceRefs: seq<Ref>, now: Time): Decision {
    if !actor.Operator? then Rejected("APPROVAL_REQUIRES_OPERATOR")
    else if auditId !in s.auth.audits || s.auth.audits[auditId].audit.completed then Rejected("ADVISOR_AUDIT_NOT_FOUND")
    else if !UniqueAndExact(s, evidenceRefs) then Rejected("EVIDENCE_DIGEST_MISMATCH")
    else
      var audit := Reviewed(s.auth.audits[auditId].audit, finding, evidenceRefs, now);
      var done := AuditCompleted(audit, Hash(OfAudit(audit)));
      if !Damning(finding) then Accepted([done])
      else if audit.policyRef.id !in s.auth.policies then Rejected("DECISION_POLICY_CONFLICT")
      else Accepted([done] + Fallout(audit, s.auth.policies[audit.policyRef.id].policy.policyRevisionId, finding, now) +
                    IncidentPacket(s, IncidentOf(audit, finding, now).incidentId, audit.resolutionRef.id, now))
  }

  /** The record of a request, its packet or its page. */
  ghost predicate Paging(e: Event) {
    e.RequestRecorded? || e.BundleRecorded? || e.PacketOpened? || e.RevisionRecorded? || e.DeliveryQueued?
  }

  ghost function IncidentName(part: string, incidentId: Id): Id {
    Derived("advisor-incident-" + part, [incidentId], NoReason)
  }

  /** The packet that puts an incident before the operator: reserved, safety critical, one option that only records. */
  ghost function IncidentRevision(incidentId: Id, programId: ProgramId, bundle: Bundle): Revision {
    V1(IncidentName("revision", incidentId), IncidentName("packet", incidentId), programId, "operator_decision_request", Reserved, SafetyCritical, Reversible,
       [PacketOption(IncidentName("option", incidentId), ApproveRecord("Review advisor incident"))], Ref(BundleKind, bundle.bundleId, Hash(OfBundle(bundle))), None, [])
  }

  /** The request, packet and page a safety incident brings, when the resolution and its action result are on record. */
  ghost function IncidentPacket(s: State, incidentId: Id, resolutionId: Id, now: Time): (r: seq<Event>)
    ensures forall i :: 0 <= i < |r| ==> Paging(r[i])
  {
    if resolutionId !in s.auth.resolutions then []
    else
      var automatic := s.auth.resolutions[resolutionId].resolution;
      var result := Find(s.host.actionResults, (c: Choice) => c.packetRevisionId == automatic.packetRevisionRef.id && c.advisor);
      if result.None? then []
      else
        var target := Ref(ActionResultKind, result.value, s.host.actionResults[result.value].digest);
        var requestId := IncidentName("request", incidentId);
        var request := Hash(OfRequest(requestId, automatic.programId, IncidentName("option", incidentId), target, now));
        var bundle := BundleV1(IncidentName("evidence", incidentId), [Ref(HostKind("operator_decision_request"), requestId, request), target]);
        var revision := IncidentRevision(incidentId, automatic.programId, bundle);
        [RequestRecorded(requestId, request), BundleRecorded(bundle, Hash(OfBundle(bundle))),
         PacketOpened(revision.packetId, revision.revisionId, Hash(OfRevision(revision))), RevisionRecorded(revision, Hash(OfRevision(revision))),
         DeliveryQueued(IncidentName("delivery", incidentId), revision.packetId, revision.revisionId, Hash(OfRevision(revision)))]
  }

  ghost function DecideSuspend(s: State, actor: Actor, policyRevisionId: Id, reason: string, sourceRef: Ref, now: Time): Decision {
    if policyRevisionId !in s.auth.policies || (actor.System? && !Exact(s, sourceRef)) then Rejected("DECISION_POLICY_CONFLICT")
    else
      var policy := s.auth.policies[policyRevisionId];
      if policy.status != Active && policy.status != Shadow then Rejected("DECISION_POLICY_INACTIVE")
      else Accepted([PolicySuspended(policy.policy.policyRevisionId, Stated(reason), sourceRef, now)])
  }

  /* ---------- dispatch ---------- */

  ghost function Decide(s: State, actor: Actor, c: Command, now: Time): Decision {
    match c
    case ApproveSubject(subject) => DecideSubject(s, actor, subject, now)
    case RecordCase(kase) => DecideCase(s, actor, kase, now)
    case ApproveCorpus(corpus) => DecideCorpus(s, actor, corpus, now)
    case RecordContamination(contamination) => DecideContamination(s, actor, contamination, now)
    case QueueForCase(id, subjectId, purpose, caseId) => DecideQueueForCase(s, actor, id, subjectId, purpose, caseId, now)
    case QueueForPacket(id, subjectId, purpose, packetId, revisionId, digest) =>
      DecideQueueForPacket(s, actor, id, subjectId, purpose, packetId, revisionId, digest, now)
    case AcquireLease(id, ownerId, durationMs) => DecideAcquire(s, actor, id, ownerId, durationMs, now)
    case CompleteInvocation(id, recommendationId, ownerId, token, output, receipt) =>
      DecideComplete(s, actor, id, recommendationId, ownerId, token, output, receipt, now)
    case FailInvocation(id, ownerId, token, permanent) => DecideFail(s, actor, id, ownerId, token, permanent, now)
    case CancelInvocation(id) => DecideCancel(s, id, now)
    case ApprovePolicy(policy) => DecidePolicy(s, actor, policy, now)
    case CompileEvaluation(reportId, subjectId, policyId, corpusId, recent, position) =>
      DecideEvaluation(s, actor, reportId, subjectId, policyId, corpusId, recent, position, now)
    case CompilePromotion(packetId, revisionId, bundleId, policyId, reportId, position) =>
      DecideCompilePromotion(s, actor, packetId, revisionId, bundleId, policyId, reportId, position, now)
    case PromotePolicy(promotionId, packetId, revisionId, digest, optionId, precondition) =>
      DecidePromote(s, actor, promotionId, packetId, revisionId, digest, optionId, precondition, now)
    case Resolve(_, _, _, _, _, _, _, _, _) => DecideResolve(s, actor, c, now)
    case RecordAudit(auditId, finding, evidenceRefs) => DecideAudit(s, actor, auditId, finding, evidenceRefs, now)
    case SuspendPolicy(policyId, reason, sourceRef) => DecideSuspend(s, actor, policyId, reason, sourceRef, now)
  }
}
