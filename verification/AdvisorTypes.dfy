/**
 Records, events and projection of the advisor part of the kernel.

 `canonicalDigest` is the free constructor `Hash`: equal digests mean equal content. A digest a
 caller makes up is `Foreign`. `deterministicUuid` is the free constructor `Derived`. Instants are
 integers (milliseconds). Free text that no branch reads is not carried.
 */
module AdvisorTypes {
  import opened Prelude

  type Time = int
  type ProgramId = nat

  const DAY_MS: int := 86_400_000
  const AUTOMATIC_LIMIT: nat := 200
  const ALWAYS_AUDITED: nat := 20

  datatype Id = Given(value: nat) | Derived(space: string, parts: seq<Id>, detail: Reason)

  datatype Digest = Hash(content: Content) | Foreign(text: string)

  datatype Content =
    | OfSubject(subject: Subject)
    | OfCase(kase: Case)
    | OfInput(input: CaseInput)
    | OfCorpus(corpus: Corpus)
    | OfContamination(contamination: Contamination)
    | OfInvocation(invocation: Invocation)
    | OfOutput(output: Output)
    | OfRecommendation(recommendation: Recommendation)
    | OfReport(report: Report)
    | OfPolicy(policy: Policy)
    | OfPrecondition(policyRef: Ref, subjectRef: Ref, corpusRef: Ref, reportRef: Ref, expiresAt: Time, limit: nat)
    | OfPromotion(promotion: Promotion)
    | OfTarget(action: Action)
    | OfRevision(revision: Revision)
    | OfBundle(bundle: Bundle)
    | OfActionResult(resultId: Id, packetRevisionId: Id, optionId: Id, policyRef: Ref, appliedAt: Time)
    | OfRequest(requestId: Id, programId: ProgramId, optionId: Id, targetRef: Ref, requestedAt: Time)
    | OfResolution(resolution: Resolution)
    | OfAudit(audit: Audit)
    | OfIncident(incident: Incident)

  datatype RefKind =
    | SubjectKind | CaseKind | CorpusKind | RecommendationKind | EvaluationKind | ProposalKind | PolicyKind
    | PromotionKind | ResolutionKind | AuditKind | IncidentKind | RevisionKind | BundleKind | ActionResultKind
    | AttentionPolicyKind | HostKind(name: string)

  /** An `AdvisorReferenceV1`: an entity named by kind and id, pinned to one content by its digest. */
  datatype Ref = Ref(kind: RefKind, id: Id, digest: Digest)

  datatype Actor = Operator | System

  /* ---------- decision packets, as the advisor sees them ---------- */

  datatype Priority = P0 | P1 | P2 | P3
  datatype Risk = Low | Normal | High | Reserved
  datatype Safety = Routine | SafetyCritical
  datatype Reversibility = Reversible | Costly | OneWay
  datatype ActionKind = Reprioritizing | Approving | Promoting | OtherActionKind(name: string)
  datatype TargetKind = AttentionPriority | RecordOnlyTarget | OtherTargetKind(name: string)

  datatype Action =
    | Reprioritize(programId: ProgramId, expectedVersion: nat, priority: Priority)
    | ApproveRecord(text: string)
    | ApproveOther(target: string)
    | OtherAction(kind: string, target: string)

  function KindOfAction(a: Action): ActionKind {
    match a
    case Reprioritize(_, _, _) => Reprioritizing
    case ApproveRecord(_) => Approving
    case ApproveOther(_) => Approving
    case OtherAction(kind, _) => OtherActionKind(kind)
  }

  function KindOfTarget(a: Action): TargetKind {
    match a
    case Reprioritize(_, _, _) => AttentionPriority
    case ApproveRecord(_) => RecordOnlyTarget
    case ApproveOther(target) => OtherTargetKind(target)
    case OtherAction(_, target) => OtherTargetKind(target)
  }

  datatype PacketOption = PacketOption(optionId: Id, action: Action)

  /** The target of the one option a V3 (promotion) packet carries. */
  datatype PromotionTarget = PromotionTarget(
    policyRef: Ref, subjectRef: Ref, corpusRef: Ref, reportRef: Ref, expiresAt: Time, preconditionDigest: Digest)

  datatype Revision =
    | V1(revisionId: Id, packetId: Id, programId: ProgramId, sourceKind: string, risk: Risk, safety: Safety,
         reversibility: Reversibility, options: seq<PacketOption>, bundleRef: Ref,
         policyBinding: Option<Ref>, precedentRefs: seq<Ref>)
    | V3(revisionId: Id, packetId: Id, programId: ProgramId, optionId: Id, target: PromotionTarget, bundleRef: Ref, deadlineAt: Time)
    | OtherRevision(revisionId: Id)

  datatype Bundle = BundleV1(bundleId: Id, refs: seq<Ref>) | BundleV3(bundleId: Id, refs: seq<Ref>) | OtherBundle(bundleId: Id)

  datatype PacketStatus = PacketOpen | PacketResolved | PacketExpired
  datatype Packet = Packet(packetId: Id, currentRevisionId: Id, currentRevisionDigest: Digest, status: PacketStatus)
  datatype StoredRevision = StoredRevision(revision: Revision, digest: Digest)
  datatype StoredBundle = StoredBundle(bundle: Bundle, digest: Digest)
  /** `advisor` marks the version of the record that only advisor commands write. */
  datatype Choice = Choice(packetRevisionId: Id, optionId: Id, digest: Digest, advisor: bool)
  datatype Program = Program(version: nat, priority: Priority)
  datatype StoredProposal = StoredProposal(open: bool, digest: Digest)

  /** The part of the projection that other commands of the kernel own. */
  datatype Host = Host(
    packets: map<Id, Packet>, revisions: map<Id, StoredRevision>, bundles: map<Id, StoredBundle>,
    decisions: map<Id, Choice>, actionResults: map<Id, Choice>, programs: map<ProgramId, Program>,
    proposals: map<Id, StoredProposal>, foreign: map<(RefKind, Id), Digest>)

  /* ---------- advisor records ---------- */

  datatype Subject = Subject(subjectId: Id, revision: nat, prior: Option<Ref>, conformance: bool, model: Option<string>, approvedAt: Time)

  datatype TargetParameters = PriorityParameter(priority: Priority) | RecordOnlyParameter | ExcludedParameter
  datatype CaseOption = CaseOption(optionId: Id, actionKind: ActionKind, targetKind: TargetKind, parameters: TargetParameters, preconditionDigest: Digest)

  datatype CaseInput = CaseInput(
    packetRevisionRef: Ref, programId: ProgramId, sourceKind: string, risk: Risk, safety: Safety,
    reversibility: Reversibility, promotionEligible: bool, options: seq<CaseOption>,
    policyRefs: seq<Ref>, precedentRefs: seq<Ref>, evidenceRefs: seq<Ref>, compiledAt: Time)

  datatype Provenance = Natural | Synthetic | Fixture
  datatype Case = Case(caseId: Id, input: CaseInput, inputDigest: Digest, provenance: Provenance, family: string,
                       adversarial: seq<string>, selectedOptionId: Id, actionResultRef: Option<Ref>, labeledAt: Time, recordedAt: Time)

  datatype Corpus = Corpus(corpusId: Id, corpusRevisionId: Id, revision: nat, prior: Option<Ref>,
                           calibration: seq<Ref>, holdout: seq<Ref>, requirements: seq<string>, approvedAt: Time)

  datatype Partition = CalibrationPart | HoldoutPart
  datatype Contamination = Contamination(contaminationId: Id, corpusRef: Ref, caseRef: Ref, subjectRef: Option<Ref>, partition: Partition, recordedAt: Time)

  datatype Output = Recommend(optionId: Id, policyCitations: seq<Ref>, precedentCitations: seq<Ref>, evidenceCitations: seq<Ref>)
                  | Abstain(policyCitations: seq<Ref>, precedentCitations: seq<Ref>, evidenceCitations: seq<Ref>)

  datatype Purpose = ForCalibration | ForHoldout | ForShadow | ForPromoted
  datatype InvocationStatus = Pending | Leased | Succeeded | Failed | Cancelled
  datatype Invocation = Invocation(
    invocationId: Id, subjectRef: Ref, input: CaseInput, inputDigest: Digest, purpose: Purpose, caseRef: Option<Ref>,
    status: InvocationStatus, availableAt: Time, attempt: nat, ownerId: Option<Id>, fencingToken: nat,
    leaseExpiresAt: Option<Time>, recommendationId: Option<Id>, createdAt: Time, completedAt: Option<Time>)

  datatype Receipt = Receipt(subjectRef: Ref, inputDigest: Digest, outputDigest: Digest, exitCode: nat, startedAt: Time, completedAt: Time)
  datatype Recommendation = Recommendation(
    recommendationId: Id, invocationId: Id, subjectRef: Ref, packetRevisionRef: Ref, programId: ProgramId,
    purpose: Purpose, output: Output, receipt: Receipt, recordedAt: Time)

  datatype Score = Score(eligible: nat, recommended: nat, agreed: nat, abstained: nat, invalid: nat, serious: nat)
  datatype Blocker =
    | CalibrationBelow50 | HoldoutBelow100 | AdversarialBelow25 | RecentBelow50 | HoldoutCoverage | RecentCoverage
    | WilsonBelow95 | SeriousDisagreement | RecentInvalid | ConformanceScope | UnresolvedContamination | CategoryMissing
  datatype Report = Report(
    reportId: Id, subjectRef: Ref, policyRef: Ref, corpusRef: Ref, calibrationCount: nat, holdout: Score,
    adversarialCount: nat, recent: Score, contaminationCount: nat, blockers: set<Blocker>, compiledAt: Time, throughPosition: nat)

  datatype Matcher = Matcher(sourceKind: string, actionKind: ActionKind, targetKind: TargetKind,
                             allowedPriorities: seq<Priority>, policyKinds: seq<RefKind>, evidenceKinds: seq<RefKind>)
  datatype Policy = Policy(
    policyId: Id, policyRevisionId: Id, revision: nat, prior: Option<Ref>, proposal: Option<Ref>, live: bool,
    fixturePrograms: seq<ProgramId>, matcher: Matcher, subjectRef: Ref, corpusRef: Ref, auditRate: real, expiresAt: Time, approvedAt: Time)
  datatype PolicyStatus = Shadow | Active | Suspended | Superseded

  datatype Promotion = Promotion(promotionId: Id, policyRef: Ref, subjectRef: Ref, corpusRef: Ref, reportRef: Ref,
                                 packetRevisionRef: Ref, preconditionDigest: Digest, expiresAt: Time, approvedAt: Time)

  datatype Resolution = Resolution(resolutionId: Id, policyRef: Ref, promotionRef: Ref, recommendationRef: Ref, packetRevisionRef: Ref,
                                   programId: ProgramId, optionId: Id, actionKind: ActionKind, preconditionDigest: Digest,
                                   auditSelected: bool, appliedAt: Time)

  datatype Finding = Agree | BenignDisagreement | SeriousFinding | Harm
  datatype Audit = Audit(auditId: Id, resolutionRef: Ref, policyRef: Ref, completed: bool, finding: Option<Finding>,
                         evidenceRefs: seq<Ref>, selectedAt: Time, dueAt: Time, reviewedAt: Option<Time>)

  datatype Reason = NoReason | SubjectDrift | CorpusContamination | ExpiredOrLimit | EvaluationFloorOrDrift | AuditOverdue
                  | FoundInAudit(finding: Finding) | Stated(text: string)
  datatype IncidentKind = AuditOverdueIncident | PolicyExpiredIncident | ContaminationIncident | SubjectDriftIncident
                        | EvaluationFloorIncident | FindingIncident(finding: Finding)
  datatype Incident = Incident(incidentId: Id, policyRef: Ref, kind: IncidentKind, sourceRef: Ref, open: bool, recordedAt: Time)

  /* ---------- stored forms ---------- */

  datatype StoredSubject = StoredSubject(subject: Subject, digest: Digest)
  datatype StoredCase = StoredCase(kase: Case, digest: Digest, position: nat)
  datatype StoredCorpus = StoredCorpus(corpus: Corpus, digest: Digest, supersededAt: Option<Time>)
  datatype StoredContamination = StoredContamination(contamination: Contamination, digest: Digest)
  datatype StoredInvocation = StoredInvocation(invocation: Invocation, digest: Digest, queuedPosition: nat)
  datatype StoredRecommendation = StoredRecommendation(recommendation: Recommendation, digest: Digest)
  datatype StoredReport = StoredReport(report: Report, digest: Digest)
  datatype StoredPolicy = StoredPolicy(policy: Policy, digest: Digest, status: PolicyStatus, promotionId: Option<Id>,
                                       resolutionCount: nat, suspendedAt: Option<Time>, suspensionReason: Reason, supersededAt: Option<Time>)
  datatype StoredPromotion = StoredPromotion(promotion: Promotion, digest: Digest)
  datatype StoredResolution = StoredResolution(resolution: Resolution, digest: Digest)
  datatype StoredAudit = StoredAudit(audit: Audit, digest: Digest)
  datatype StoredIncident = StoredIncident(incident: Incident, digest: Digest)

  /** What the advisor knows and asks: subjects, cases, corpora and the invocation queue. */
  datatype Records = Records(
    subjects: map<Id, StoredSubject>, cases: map<Id, StoredCase>, corpora: map<Id, StoredCorpus>,
    invocations: map<Id, StoredInvocation>, recommendations: map<Id, StoredRecommendation>)

  /** What decides whether a policy may act. */
  datatype Auth = Auth(
    contaminations: map<Id, StoredContamination>, reports: map<Id, StoredReport>, policies: map<Id, StoredPolicy>,
    promotions: map<Id, StoredPromotion>, resolutions: map<Id, StoredResolution>, audits: map<Id, StoredAudit>,
    incidents: map<Id, StoredIncident>)

  datatype State = State(host: Host, records: Records, auth: Auth, position: nat)

  /* ---------- events ---------- */

  datatype Event =
    | SubjectApproved(subject: Subject, digest: Digest)
    | CaseRecorded(kase: Case, digest: Digest)
    | CorpusApproved(corpus: Corpus, digest: Digest, supersededCorpus: Option<Id>)
    | ContaminationRecorded(contamination: Contamination, digest: Digest)
    | InvocationQueued(invocation: Invocation, digest: Digest)
    | LeaseAcquired(invocationId: Id, ownerId: Id, fencingToken: nat, attempt: nat, leaseExpiresAt: Time)
    | InvocationSucceeded(invocationId: Id, ownerId: Id, fencingToken: nat, recommendation: Recommendation, digest: Digest, at: Time)
    | InvocationFailed(invocationId: Id, ownerId: Id, fencingToken: nat, permanent: bool, availableAt: Time, completedAt: Option<Time>)
    | InvocationCancelled(invocationId: Id, at: Time)
    | EvaluationCompiled(report: Report, digest: Digest)
    | PolicyApproved(policy: Policy, digest: Digest, supersededPolicy: Option<Id>)
    | PromotionAuthorized(promotion: Promotion, digest: Digest)
    | PolicySuspended(policyRevisionId: Id, reason: Reason, sourceRef: Ref, at: Time)
    | ResolutionRecorded(resolution: Resolution, digest: Digest)
    | AuditSelected(audit: Audit, digest: Digest)
    | AuditCompleted(audit: Audit, digest: Digest)
    | IncidentRecorded(incident: Incident, digest: Digest)
    | BundleRecorded(bundle: Bundle, digest: Digest)
    | PacketOpened(packetId: Id, revisionId: Id, revisionDigest: Digest)
    | RevisionRecorded(revision: Revision, digest: Digest)
    | ActionApplied(resultId: Id, packetRevisionId: Id, optionId: Id, digest: Digest)
    | DecisionResolved(decisionId: Id, packetId: Id, packetRevisionId: Id, optionId: Id, digest: Digest)
    | PrecedentRecorded(precedentId: Id, digest: Digest)
    | PriorityChanged(programId: ProgramId, priority: Priority)
    | RequestRecorded(requestId: Id, digest: Digest)
    | DeliveryQueued(deliveryId: Id, packetId: Id, revisionId: Id, revisionDigest: Digest)

  /* ---------- commands ---------- */

  datatype Command =
    | ApproveSubject(subject: Subject)
    | RecordCase(kase: Case)
    | ApproveCorpus(corpus: Corpus)
    | RecordContamination(contamination: Contamination)
    | QueueForCase(invocationId: Id, subjectId: Id, purpose: Purpose, caseId: Id)
    | QueueForPacket(invocationId: Id, subjectId: Id, purpose: Purpose, packetId: Id, revisionId: Id, revisionDigest: Digest)
    | AcquireLease(invocationId: Id, ownerId: Id, durationMs: int)
    | CompleteInvocation(invocationId: Id, recommendationId: Id, ownerId: Id, fencingToken: nat, output: Output, receipt: Receipt)
    | FailInvocation(invocationId: Id, ownerId: Id, fencingToken: nat, permanent: bool)
    | CancelInvocation(invocationId: Id)
    | ApprovePolicy(policy: Policy)
    | CompileEvaluation(reportId: Id, subjectId: Id, policyRevisionId: Id, corpusRevisionId: Id, recentCaseIds: seq<Id>, expectedPosition: nat)
    | CompilePromotion(packetId: Id, revisionId: Id, bundleId: Id, policyRevisionId: Id, reportId: Id, expectedPosition: nat)
    | PromotePolicy(promotionId: Id, packetId: Id, revisionId: Id, revisionDigest: Digest, optionId: Id, preconditionDigest: Digest)
    | Resolve(resolutionId: Id, recommendationId: Id, policyRevisionId: Id, packetId: Id, revisionId: Id, revisionDigest: Digest,
              optionId: Id, preconditionDigest: Digest, sample: real)
    | RecordAudit(auditId: Id, finding: Finding, evidenceRefs: seq<Ref>)
    | SuspendPolicy(policyRevisionId: Id, reason: string, sourceRef: Ref)

  datatype Decision = Accepted(events: seq<Event>) | Rejected(code: string)

  function EmptyState(): State {
    State(Host(map[], map[], map[], map[], map[], map[], map[], map[]), Records(map[], map[], map[], map[], map[]),
          Auth(map[], map[], map[], map[], map[], map[], map[]), 0)
  }
}
