/** Outcome packets: evidence is compiled into a packet, recorded through `evolve`, and rebuilt by an independent verifier. */
module Outcome {
  import opened Prelude
  import opened Sequences
  import opened Maps

  type Id = nat
  type Time = int

  /** `outcomePacketId` is a hash of milestone and run. */
  datatype PacketId = PacketId(milestoneId: Id, runId: Id)

  /** Digests are free constructors: equal digests mean equal content. */
  datatype Digest =
    | RevisionHash(repositoryId: Id, objectFormat: string, commitOid: string, treeOid: string)
    | DriverHash(driver: DriverContent)
    | ManifestHash(entries: seq<string>)
    | ResultHash(result: string)
    | ReceiptHash(identity: ReceiptIdentity)
    | ContextHash(context: Context)
    | ValidationHash(validation: Validation)
    | PacketHash(packet: Packet)
    | AdmissionHash(admission: Admission)
    | LeaseHash(lease: Lease)
    | Other(text: string)

  datatype RefKind = DriverRef | VerificationRef | ManifestRef | OutcomeRef | ValidationRef
  datatype Ref = Ref(kind: RefKind, id: Id, digest: Digest)
  datatype OutcomeReference = OutcomeReference(id: PacketId, digest: Digest)

  /* ---------- evidence ---------- */

  datatype Revision = Revision(repositoryId: Id, objectFormat: string, commitOid: string, treeOid: string, digest: Digest)
  datatype DriverContent = DriverContent(outcome: string, capabilities: seq<string>)
  datatype DriverReceipt = DriverReceipt(id: Id, runId: Id, jobId: Id, content: DriverContent, digest: Digest, recordedAt: Time)
  datatype Manifest = Manifest(id: Id, runId: Id, jobId: Id, entries: seq<string>, digest: Digest, createdAt: Time)
  datatype VerificationStatus = Requested | Passed | FailedVerification | InvalidVerification | CancelledVerification
  datatype ReceiptIdentity = ReceiptIdentity(verificationId: Id, runId: Id, jobId: Id, contract: string, manifestId: Id, manifestDigest: Digest, resultDigest: Digest)
  datatype Verification = Verification(
    id: Id, runId: Id, jobId: Id, contract: string, status: VerificationStatus, manifestId: Option<Id>, result: Option<string>,
    resultDigest: Option<Digest>, receiptDigest: Option<Digest>, requestedAt: Time)
  datatype Attempt = Attempt(id: Id, runId: Id, jobId: Id, ordinal: nat, status: string, terminationReason: Option<string>)
  datatype Context = Context(id: Id, dependencies: seq<OutcomeReference>)
  datatype StoredContext = StoredContext(context: Context, digest: Digest)
  datatype Validation = Validation(id: Id, packetId: PacketId, verdict: string)
  datatype StoredValidation = StoredValidation(validation: Validation, digest: Digest)
  datatype Graph = Graph(id: Id, intentDigest: Digest, digest: Digest)

  /* ---------- programs, milestones, runs, jobs ---------- */

  datatype Program = Program(id: Id, intentDigest: Option<Digest>, graphV2: bool, phase: string)
  datatype MilestoneStatus = MilestoneRunning | MilestonePaused | OutcomeReady | OtherMilestone(name: string)
  datatype Milestone = Milestone(
    id: Id, programId: Id, criteria: seq<string>, contractDigest: Digest, workflowDigest: Digest, status: MilestoneStatus, pauseReason: Option<string>,
    jobId: Option<Id>, baseRevisionId: Option<Id>, outcomePacketId: Option<PacketId>, recommendation: Option<Recommendation>)
  datatype RunStatus = RunSucceeded | RunFailed | RunCancelled | OtherRun(name: string)
  datatype Run = Run(id: Id, milestoneId: Option<Id>, status: RunStatus, failureReason: Option<string>, cancellationReason: Option<string>,
                     completedAt: Option<Time>, cancelledAt: Option<Time>, createdAt: Time)
  datatype Job = Job(id: Id, candidateRevisionId: Option<Id>)
  datatype Generation = Generation(id: Id, milestoneId: Id, graphRevisionId: Id, number: nat, runId: Id, jobId: Id, contextPacketId: Id, baseRevisionId: Id,
                                   paused: bool, outcomePacketId: Option<PacketId>, recommendation: Option<Recommendation>)

  /* ---------- portfolio admissions ---------- */

  datatype HoldStatus = Active | Released | Fenced
  datatype Admission = Admission(id: Id, programId: Id, generationId: Id, releasedAt: Option<Time>)
  datatype StoredAdmission = StoredAdmission(admission: Admission, digest: Digest, status: HoldStatus, reason: Option<string>)
  /** A fencing token is positive. */
  type Token = t: nat | t > 0 witness 1
  datatype Lease = Lease(id: Id, admissionId: Id, fencingToken: Token, releasedAt: Option<Time>)
  datatype StoredLease = StoredLease(lease: Lease, digest: Digest, status: HoldStatus)

  /* ---------- packets ---------- */

  datatype Recommendation = Merge | Reject | Investigate
  datatype CriterionResult = Pass | Fail | Unverified
  datatype Criterion = Criterion(statement: string, result: CriterionResult, evidence: seq<Ref>)
  datatype Extension = NoExtension | V2(generationId: Id, generation: nat, graphRevisionId: Id, graphDigest: Digest, contextPacketId: Id,
                                        contextPacketDigest: Digest, dependencyOutcomes: seq<OutcomeReference>, dependencyValidations: seq<Ref>)
  datatype Packet = Packet(
    id: PacketId, programId: Id, milestoneId: Id, runId: Id, baseRevisionId: Id, candidateRevisionId: Option<Id>, intentDigest: Digest,
    contractDigest: Digest, workflowDigest: Digest, criteria: seq<Criterion>, attempts: seq<Attempt>, driverReceipts: seq<Ref>,
    verificationReceipts: seq<Ref>, manifests: seq<Ref>, capabilities: set<string>, terminalReason: string, deviations: set<string>,
    recommendation: Recommendation, generatedAt: Time, extension: Extension)
  datatype StoredPacket = StoredPacket(id: PacketId, milestoneId: Id, runId: Id, packet: Packet, digest: Digest)

  /** What packets are built from; nothing in here is changed by recording an outcome. */
  datatype Evidence = Evidence(
    runs: map<Id, Run>, jobs: map<Id, Job>, graphs: map<Id, Graph>, contexts: map<Id, StoredContext>, attempts: map<Id, Attempt>,
    receipts: map<Id, DriverReceipt>, verifications: map<Id, Verification>, manifests: map<Id, Manifest>, revisions: map<Id, Revision>,
    validations: map<Id, StoredValidation>)

  /** Generations, admissions and leases are searched in insertion order, so they are sequences. */
  datatype State = State(
    evidence: Evidence, programs: map<Id, Program>, milestones: map<Id, Milestone>, generations: seq<Generation>,
    packets: map<PacketId, StoredPacket>, admissions: seq<StoredAdmission>, leases: seq<StoredLease>)

  /* ---------- lookups ---------- */

  function GenerationOf(generations: seq<Generation>, runId: Id): Option<Generation> {
    if generations == [] then None else if generations[0].runId == runId then Some(generations[0]) else GenerationOf(generations[1..], runId)
  }

  function GenerationById(generations: seq<Generation>, id: Id): Option<Generation> {
    if generations == [] then None else if generations[0].id == id then Some(generations[0]) else GenerationById(generations[1..], id)
  }

  /* ---------- building a packet ---------- */

  ghost function OrderedBy<V>(m: map<Id, V>, keep: V -> bool, key: V -> int): (r: seq<V>)
    ensures forall i :: 0 <= i < |r| ==> r[i] in m.Values && keep(r[i])
  {
    var ids := SortDescending(Filter(m, keep), (k: Id) => if k in m then -key(m[k]) else 0);
    seq(|ids|, i requires 0 <= i < |ids| => assert ids[i] in ids; m[ids[i]])
  }

  ghost function AttemptsOf(e: Evidence, runId: Id, jobId: Id): seq<Attempt> {
    OrderedBy(e.attempts, (a: Attempt) => a.runId == runId && a.jobId == jobId, (a: Attempt) => a.ordinal)
  }

  ghost function ReceiptsOf(e: Evidence, runId: Id, jobId: Id): (r: seq<DriverReceipt>)
    ensures forall i :: 0 <= i < |r| ==> r[i] in e.receipts.Values
  {
    OrderedBy(e.receipts, (a: DriverReceipt) => a.runId == runId && a.jobId == jobId, (a: DriverReceipt) => a.recordedAt)
  }

  ghost function VerificationsOf(e: Evidence, runId: Id, jobId: Id): (r: seq<Verification>)
    ensures forall i :: 0 <= i < |r| ==> r[i] in e.verifications.Values
  {
    OrderedBy(e.verifications, (a: Verification) => a.runId == runId && a.jobId == jobId, (a: Verification) => a.requestedAt)
  }

  ghost function ManifestsOf(e: Evidence, runId: Id, jobId: Id): (r: seq<Manifest>)
    ensures forall i :: 0 <= i < |r| ==> r[i] in e.manifests.Values
  {
    OrderedBy(e.manifests, (a: Manifest) => a.runId == runId && a.jobId == jobId, (a: Manifest) => a.createdAt)
  }

  ghost predicate Depends(dependencies: seq<OutcomeReference>, id: PacketId) {
    exists i :: 0 <= i < |dependencies| && dependencies[i].id == id
  }

  ghost function ValidationsOf(e: Evidence, dependencies: seq<OutcomeReference>): (r: seq<StoredValidation>)
    ensures forall i :: 0 <= i < |r| ==> r[i] in e.validations.Values
  {
    OrderedBy(e.validations, (v: StoredValidation) => Depends(dependencies, v.validation.packetId), (v: StoredValidation) => v.validation.id)
  }

  function DriverRefs(xs: seq<DriverReceipt>): (r: seq<Ref>)
    ensures |r| == |xs| && forall i :: 0 <= i < |r| ==> r[i] == Ref(DriverRef, xs[i].id, xs[i].digest)
  {
    seq(|xs|, i requires 0 <= i < |xs| => Ref(DriverRef, xs[i].id, xs[i].digest))
  }

  function ManifestRefs(xs: seq<Manifest>): (r: seq<Ref>)
    ensures |r| == |xs| && forall i :: 0 <= i < |r| ==> r[i] == Ref(ManifestRef, xs[i].id, xs[i].digest)
  {
    seq(|xs|, i requires 0 <= i < |xs| => Ref(ManifestRef, xs[i].id, xs[i].digest))
  }

  /** Only verifications with a receipt can be referenced. */
  function WithReceipt(xs: seq<Verification>): (r: seq<Verification>)
    ensures forall i :: 0 <= i < |r| ==> r[i] in xs && r[i].receiptDigest.Some?
  {
    Keep(xs, (v: Verification) => v.receiptDigest.Some?)
  }

  function VerificationRefs(xs: seq<Verification>): (r: seq<Ref>)
    requires forall i :: 0 <= i < |xs| ==> xs[i].receiptDigest.Some?
    ensures |r| == |xs| && forall i :: 0 <= i < |r| ==> r[i] == Ref(VerificationRef, xs[i].id, xs[i].receiptDigest.value)
  {
    seq(|xs|, i requires 0 <= i < |xs| => Ref(VerificationRef, xs[i].id, xs[i].receiptDigest.value))
  }

  function ValidationRefs(xs: seq<StoredValidation>): (r: seq<Ref>)
    ensures |r| == |xs| && forall i :: 0 <= i < |r| ==> r[i] == Ref(ValidationRef, xs[i].validation.id, xs[i].digest)
  {
    seq(|xs|, i requires 0 <= i < |xs| => Ref(ValidationRef, xs[i].validation.id, xs[i].digest))
  }

  /* ---------- the judgement ---------- */

  function ResultFor(final: Option<Verification>): CriterionResult {
    if final.None? then Unverified
    else if final.value.status == Passed then Pass
    else if final.value.status == FailedVerification then Fail
    else Unverified
  }

  function PrimaryEvidence(final: Option<Verification>): seq<Ref> {
    if final.None? || final.value.receiptDigest.None? then [] else [Ref(VerificationRef, final.value.id, final.value.receiptDigest.value)]
  }

  /** Every criterion carries the result of the last verification; with no criteria, all pass vacuously. */
  function CriteriaFor(statements: seq<string>, final: Option<Verification>): seq<Criterion> {
    seq(|statements|, i requires 0 <= i < |statements| => Criterion(statements[i], ResultFor(final), PrimaryEvidence(final)))
  }

  function RecommendationFor(statements: seq<string>, final: Option<Verification>, status: RunStatus, candidate: Option<Id>): Recommendation {
    if statements != [] && ResultFor(final) == Fail then Reject
    else if (statements == [] || ResultFor(final) == Pass) && status == RunSucceeded && candidate.Some? then Merge
    else Investigate
  }

  ghost function DeviationsFor(job: Job, final: Option<Verification>, anyFailed: bool, receipts: seq<DriverReceipt>, attempts: seq<Attempt>, status: RunStatus): set<string> {
    (if job.candidateRevisionId.None? then {"candidate_missing"} else {}) +
    (if final.None? then {"verification_missing"} else {}) +
    (if final.Some? && final.value.status == InvalidVerification then {"verification_invalid"} else {}) +
    (if final.Some? && (final.value.status == CancelledVerification || final.value.status == Requested) then {"verification_incomplete"} else {}) +
    (if anyFailed then {"criterion_failed"} else {}) +
    (set i | 0 <= i < |receipts| && receipts[i].content.outcome != "succeeded" :: receipts[i].content.outcome) +
    (set i | 0 <= i < |attempts| && attempts[i].terminationReason.Some? :: attempts[i].terminationReason.value) +
    (if status == RunCancelled then {"operator_cancelled"} else {}) +
    (if status == RunFailed && !anyFailed then {"run_failed"} else {})
  }

  function TerminalReasonFor(run: Run): string {
    if run.status == RunSucceeded then "verified_success"
    else if run.status == RunFailed then (if run.failureReason.Some? then run.failureReason.value else "run_failed")
    else (if run.cancellationReason.Some? then run.cancellationReason.value else "operator_cancelled")
  }

  ghost function CapabilitiesOf(receipts: seq<DriverReceipt>): set<string> {
    set i, c | 0 <= i < |receipts| && c in receipts[i].content.capabilities :: c
  }

  /* ---------- buildOutcomePacket ---------- */

  /** What of a milestone goes into a packet. */
  datatype Charter = Charter(id: Id, programId: Id, criteria: seq<string>, contractDigest: Digest, workflowDigest: Digest, jobId: Option<Id>, baseRevisionId: Option<Id>)

  function CharterOf(m: Milestone): Charter {
    Charter(m.id, m.programId, m.criteria, m.contractDigest, m.workflowDigest, m.jobId, m.baseRevisionId)
  }

  /** What of a generation goes into a packet. */
  datatype Launch = Launch(id: Id, graphRevisionId: Id, number: nat, runId: Id, jobId: Id, contextPacketId: Id, baseRevisionId: Id)

  function LaunchOf(g: Generation): Launch {
    Launch(g.id, g.graphRevisionId, g.number, g.runId, g.jobId, g.contextPacketId, g.baseRevisionId)
  }

  ghost function Build(s: State, milestoneId: Id, runId: Id): (r: Result<Packet>)
    ensures r.Success? ==> milestoneId in s.milestones && r.value.id == PacketId(s.milestones[milestoneId].id, runId) && r.value.runId == runId
  {
    if milestoneId !in s.milestones then Failure("Milestone is missing")
    else if s.milestones[milestoneId].programId !in s.programs then Failure("Program is missing")
    else
      var generation := GenerationOf(s.generations, runId);
      Compile(s.evidence, CharterOf(s.milestones[milestoneId]), s.programs[s.milestones[milestoneId].programId].id,
              s.programs[s.milestones[milestoneId].programId].intentDigest,
              if generation.Some? then Some(LaunchOf(generation.value)) else None, runId)
  }

  ghost function Compile(e: Evidence, m: Charter, programId: Id, intent: Option<Digest>, generation: Option<Launch>, runId: Id): (r: Result<Packet>)
    ensures r.Success? ==> r.value.id == PacketId(m.id, runId) && r.value.runId == runId && r.value.milestoneId == m.id
  {
    if runId !in e.runs then Failure("Milestone run is missing")
    else if generation.None? && m.jobId.None? then Failure("Milestone job is missing")
    else
      var run, jobId := e.runs[runId], if generation.Some? then generation.value.jobId else m.jobId.value;
      if jobId !in e.jobs then Failure("Milestone job is missing")
      else if generation.None? && m.baseRevisionId.None? then Failure("Milestone base revision is missing")
      else if run.completedAt.None? then Failure("Milestone run is not terminal")
      else
        var hasGraph := generation.Some? && generation.value.graphRevisionId in e.graphs;
        if !hasGraph && intent.None? then Failure("Approved program intent is missing")
        else
          var first := Assemble(e, m, programId, if hasGraph then e.graphs[generation.value.graphRevisionId].intentDigest else intent.value,
                                run, e.jobs[jobId], jobId, if generation.Some? then generation.value.baseRevisionId else m.baseRevisionId.value, runId);
          if !hasGraph then Success(first)
          else if generation.value.contextPacketId !in e.contexts then Failure("Milestone context packet is missing")
          else Success(first.(extension := ExtensionOf(e, generation.value)))
  }

  ghost function ExtensionOf(e: Evidence, g: Launch): Extension
    requires g.graphRevisionId in e.graphs && g.contextPacketId in e.contexts
  {
    var context := e.contexts[g.contextPacketId];
    V2(g.id, g.number, e.graphs[g.graphRevisionId].id, e.graphs[g.graphRevisionId].digest, context.context.id, context.digest,
       context.context.dependencies, ValidationRefs(ValidationsOf(e, context.context.dependencies)))
  }

  ghost function Assemble(e: Evidence, m: Charter, programId: Id, intent: Digest, run: Run, job: Job, jobId: Id, base: Id, runId: Id): Packet
    requires run.completedAt.Some?
  {
    var attempts, receipts := AttemptsOf(e, runId, jobId), ReceiptsOf(e, runId, jobId);
    var verifications, manifests := VerificationsOf(e, runId, jobId), ManifestsOf(e, runId, jobId);
    var final := if verifications == [] then None else Some(verifications[|verifications| - 1]);
    var anyFailed := m.criteria != [] && ResultFor(final) == Fail;
    Packet(PacketId(m.id, runId), programId, m.id, runId, base, job.candidateRevisionId, intent, m.contractDigest, m.workflowDigest,
           CriteriaFor(m.criteria, final), attempts, DriverRefs(receipts), VerificationRefs(WithReceipt(verifications)), ManifestRefs(manifests),
           CapabilitiesOf(receipts), TerminalReasonFor(run), DeviationsFor(job, final, anyFailed, receipts, attempts, run.status),
           RecommendationFor(m.criteria, final, run.status, job.candidateRevisionId), run.completedAt.value, NoExtension)
  }
}
