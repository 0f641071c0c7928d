/**
 Portfolio records: admissions, leases, integration candidates and the work items that are rewritten in place.
 `evolve` folds their events; a reader later rebuilds the projection and throws where a digest does not match.
 */
module Portfolio {
  import opened Prelude

  type Id = nat
  type Time = int

  /** Fencing tokens are positive. */
  type Token = n: nat | n > 0 witness 1

  /** Digests are free constructors: equal digests mean equal content; `Foreign` is one nobody computed. */
  datatype Digest = Hash(content: Content) | Foreign(text: string)

  datatype Content =
    | OfPolicy(policy: Policy) | OfContract(contract: string) | OfTarget(target: Target) | OfAdmission(admission: Admission)
    | OfLease(lease: Lease) | OfManifest(manifest: DiffManifest) | OfCandidate(candidate: Candidate) | OfWork(work: Work)
    | OfConflict(conflict: Conflict) | OfVerification(verification: Verification) | OfReceipt(receipt: Receipt)
    | OfIncident(incident: Incident) | OfReport(report: Report)

  datatype Policy = Policy(id: Id, body: string)
  datatype Target = Target(id: Id, contract: string, contractDigest: Digest, initialHead: Digest)
  datatype Admission = Admission(id: Id, programId: Id, generationId: Id, releasedAt: Option<Time>, fencedAt: Option<Time>)
  datatype Lease = Lease(id: Id, admissionId: Id, fencingToken: Token, expiresAt: Time, renewedAt: Option<Time>,
                         releasedAt: Option<Time>, fencedAt: Option<Time>)
  datatype DiffManifest = DiffManifest(id: Id, entries: seq<string>, eligible: bool)
  datatype Candidate = Candidate(id: Id, programId: Id, body: string)
  datatype WorkStatus = WorkPending | WorkLeased | WorkPrepared | WorkConflicted | WorkVerified | WorkFailed | WorkAuthorized | WorkPromoted
  datatype Work = Work(
    id: Id, candidateId: Id, status: WorkStatus, owner: Option<Id>, fencingToken: nat, acquiredAt: Option<Time>, expiresAt: Option<Time>,
    expectedHead: Option<Digest>, rebased: Option<Digest>, verification: Option<Verification>, authorization: Option<Digest>,
    lastError: Option<Fault>, completedAt: Option<Time>)
  datatype Fault = ConflictFault(conflictId: Id) | StatedFault(reason: Option<string>)
  datatype Conflict = Conflict(id: Id, body: string)
  datatype Verification = Verification(id: Id, passed: bool, failureReason: Option<string>)
  datatype Receipt = Receipt(id: Id, candidateId: Id, targetId: Id, programId: Id, newHead: Digest, promotedAt: Time)
  datatype Incident = Incident(id: Id, body: string)
  datatype Report = Report(id: Id, body: string)

  /* ---------- stored forms ---------- */

  datatype Hold = Active | Released | Fenced
  datatype CandidateStatus = Pending | Preparing | Verifying | Conflicted | AwaitingAuthorization | Ineligible | Authorized | Promoted

  datatype StoredPolicy = StoredPolicy(policy: Policy, digest: Digest, supersededAt: Option<Time>)
  datatype StoredTarget = StoredTarget(target: Target, digest: Digest, supersededAt: Option<Time>, currentHead: Digest)
  datatype StoredAdmission = StoredAdmission(admission: Admission, digest: Digest, status: Hold, reason: Option<string>)
  datatype StoredLease = StoredLease(lease: Lease, digest: Digest, status: Hold)
  datatype StoredManifest = StoredManifest(manifest: DiffManifest, digest: Digest)
  datatype StoredCandidate = StoredCandidate(candidate: Candidate, digest: Digest, status: CandidateStatus)
  datatype StoredWork = StoredWork(work: Work, digest: Digest)
  datatype StoredConflict = StoredConflict(conflict: Conflict, digest: Digest)
  datatype StoredVerification = StoredVerification(verification: Verification, digest: Digest)
  datatype StoredReceipt = StoredReceipt(receipt: Receipt, digest: Digest)
  datatype StoredIncident = StoredIncident(incident: Incident, digest: Digest)
  datatype StoredReport = StoredReport(report: Report, digest: Digest)

  datatype Program = Program(graphV2: bool, phase: string)

  /** What was approved or compiled once. */
  datatype Plans = Plans(policies: map<Id, StoredPolicy>, targets: map<Id, StoredTarget>, incidents: map<Id, StoredIncident>,
                         reports: map<Id, StoredReport>)

  /** What an admitted generation holds. */
  datatype Holds = Holds(admissions: map<Id, StoredAdmission>, leases: map<Id, StoredLease>)

  /** The way of a candidate into its target; `order` is the insertion order of the work items. */
  datatype Queue = Queue(manifests: map<Id, StoredManifest>, candidates: map<Id, StoredCandidate>, work: map<Id, StoredWork>, order: seq<Id>,
                         conflicts: map<Id, StoredConflict>, verifications: map<Id, StoredVerification>, receipts: map<Id, StoredReceipt>)

  datatype State = State(plans: Plans, holds: Holds, queue: Queue, programs: map<Id, Program>)

  function Empty(): State {
    State(Plans(map[], map[], map[], map[]), Holds(map[], map[]), Queue(map[], map[], map[], [], map[], map[], map[]), map[])
  }

  /* ---------- events ---------- */

  datatype Grant = Grant(lease: Lease, digest: Digest)

  datatype Event =
    | PolicyApproved(policy: Policy, digest: Digest, superseded: Option<Id>)
    | TargetApproved(target: Target, digest: Digest, superseded: Option<Id>)
    | AdmissionGranted(admission: Admission, digest: Digest, grants: seq<Grant>)
    | LeaseRenewed(lease: Lease, digest: Digest)
    | AdmissionReleased(admissionId: Id, reason: string, leaseIds: seq<Id>, releasedAt: Time)
    | AdmissionFenced(admissionId: Id, reason: string, leaseIds: seq<Id>, fencedAt: Time)
    | ManifestRecorded(manifest: DiffManifest, digest: Digest)
    | CandidateQueued(candidate: Candidate, candidateDigest: Digest, work: Work, workDigest: Digest)
    | WorkLeaseAcquired(workId: Id, ownerId: Id, fencingToken: nat, leaseExpiresAt: Time)
    | CandidatePrepared(workId: Id, expectedHead: Digest, rebased: Digest)
    | ConflictRecorded(workId: Id, conflict: Conflict, digest: Digest)
    | VerificationRecorded(workId: Id, verification: Verification, digest: Digest)
    | PromotionAuthorized(workId: Id, candidateId: Id, actionResult: Digest)
    | PromotionRecorded(receipt: Receipt, digest: Digest)
    | IncidentRecorded(incident: Incident, digest: Digest)
    | ReportCompiled(report: Report, digest: Digest)
    | ProgramChanged(programId: Id, program: Program)

  /* ---------- evolve ---------- */

  function EvolvePlans(p: Plans, e: Event, at: Time): Result<Plans> {
    match e
    case PolicyApproved(policy, digest, superseded) =>
      if Hash(OfPolicy(policy)) != digest then Failure("digest")
      else if superseded.Some? && superseded.value !in p.policies then Failure("missing policy")
      else
        var earlier := if superseded.None? then p.policies
                       else p.policies[superseded.value := p.policies[superseded.value].(supersededAt := Some(at))];
        Success(p.(policies := earlier[policy.id := StoredPolicy(policy, digest, None)]))
    case TargetApproved(target, digest, superseded) =>
      if Hash(OfTarget(target)) != digest || Hash(OfContract(target.contract)) != target.contractDigest then Failure("digest")
      else if superseded.Some? && superseded.value !in p.targets then Failure("missing target")
      else
        var earlier := if superseded.None? then p.targets
                       else p.targets[superseded.value := p.targets[superseded.value].(supersededAt := Some(at))];
        Success(p.(targets := earlier[target.id := StoredTarget(target, digest, None, target.initialHead)]))
    case PromotionRecorded(receipt, _) =>
      if receipt.targetId !in p.targets then Failure("missing target")
      else
        var stored := p.targets[receipt.targetId];
        Success(p.(targets := p.targets[stored.target.id := stored.(currentHead := receipt.newHead)]))
    case IncidentRecorded(incident, digest) =>
      if Hash(OfIncident(incident)) != digest then Failure("digest")
      else Success(p.(incidents := p.incidents[incident.id := StoredIncident(incident, digest)]))
    case ReportCompiled(report, digest) =>
      if Hash(OfReport(report)) != digest then Failure("digest")
      else Success(p.(reports := p.reports[report.id := StoredReport(report, digest)]))
    case _ => Success(p)
  }

  /** The leases of a grant, one after another. */
  function Admit(leases: map<Id, StoredLease>, grants: seq<Grant>): Result<map<Id, StoredLease>>
    decreases |grants|
  {
    if grants == [] then Success(leases)
    else if Hash(OfLease(grants[0].lease)) != grants[0].digest then Failure("digest")
    else Admit(leases[grants[0].lease.id := StoredLease(grants[0].lease, grants[0].digest, Active)], grants[1..])
  }

  function EndedLease(lease: Lease, status: Hold, at: Time): Lease {
    if status == Released then lease.(releasedAt := Some(at)) else lease.(fencedAt := Some(at))
  }

  /** The leases of a release or fencing, one after another. */
  function EndLeases(leases: map<Id, StoredLease>, ids: seq<Id>, status: Hold, at: Time): Result<map<Id, StoredLease>>
    decreases |ids|
  {
    if ids == [] then Success(leases)
    else if ids[0] !in leases then Failure("missing lease")
    else
      var lease := EndedLease(leases[ids[0]].lease, status, at);
      EndLeases(leases[ids[0] := StoredLease(lease, Hash(OfLease(lease)), status)], ids[1..], status, at)
  }

  function EndAdmission(h: Holds, id: Id, status: Hold, reason: string, leaseIds: seq<Id>, at: Time): Result<Holds> {
    if id !in h.admissions then Failure("missing admission")
    else
      var stored := h.admissions[id];
      var admission := if status == Released then stored.admission.(releasedAt := Some(at)) else stored.admission.(fencedAt := Some(at));
      var leases := EndLeases(h.leases, leaseIds, status, at);
      if leases.Failure? then Failure(leases.error)
      else Success(Holds(h.admissions[id := StoredAdmission(admission, Hash(OfAdmission(admission)), status, Some(reason))], leases.value))
  }

  function EvolveHolds(h: Holds, e: Event): Result<Holds> {
    match e
    case AdmissionGranted(admission, digest, grants) =>
      if Hash(OfAdmission(admission)) != digest then Failure("digest")
      else
        var leases := Admit(h.leases, grants);
        if leases.Failure? then Failure(leases.error)
        else Success(Holds(h.admissions[admission.id := StoredAdmission(admission, digest, Active, None)], leases.value))
    case LeaseRenewed(lease, digest) =>
      if Hash(OfLease(lease)) != digest then Failure("digest")
      else if lease.id !in h.leases then Failure("missing lease")
      else Success(h.(leases := h.leases[lease.id := h.leases[lease.id].(lease := lease, digest := digest)]))
    case AdmissionReleased(id, reason, leaseIds, at) => EndAdmission(h, id, Released, reason, leaseIds, at)
    case AdmissionFenced(id, reason, leaseIds, at) => EndAdmission(h, id, Fenced, reason, leaseIds, at)
    case _ => Success(h)
  }

  /** Rewrite a work item in place, restate its digest, and move its candidate along. */
  function Rework(q: Queue, workId: Id, work: Work, candidateId: Id, status: CandidateStatus): Result<Queue>
    requires workId in q.work
  {
    if candidateId !in q.candidates then Failure("missing candidate")
    else Success(q.(work := q.work[workId := StoredWork(work, Hash(OfWork(work)))],
                    candidates := q.candidates[candidateId := q.candidates[candidateId].(status := status)]))
  }

  /** The first work item, in insertion order, of a candidate. */
  function FirstWorkOf(q: Queue, order: seq<Id>, candidateId: Id): (r: Option<Id>)
    ensures r.Some? ==> r.value in q.work && q.work[r.value].work.candidateId == candidateId
  {
    if order == [] then None
    else if order[0] in q.work && q.work[order[0]].work.candidateId == candidateId then Some(order[0])
    else FirstWorkOf(q, order[1..], candidateId)
  }

  function EvolveQueue(q: Queue, e: Event, at: Time): Result<Queue> {
    match e
    case ManifestRecorded(manifest, digest) =>
      if Hash(OfManifest(manifest)) != digest then Failure("digest")
      else Success(q.(manifests := q.manifests[manifest.id := StoredManifest(manifest, digest)]))
    case CandidateQueued(candidate, candidateDigest, work, workDigest) =>
      if Hash(OfCandidate(candidate)) != candidateDigest || Hash(OfWork(work)) != workDigest then Failure("digest")
      else Success(q.(candidates := q.candidates[candidate.id := StoredCandidate(candidate, candidateDigest, Pending)],
                      work := q.work[work.id := StoredWork(work, workDigest)],
                      order := if work.id in q.work then q.order else q.order + [work.id]))
    case WorkLeaseAcquired(workId, owner, token, expires) =>
      if workId !in q.work then Failure("missing work")
      else
        var w := q.work[workId].work;
        Rework(q, workId, w.(status := WorkLeased, owner := Some(owner), fencingToken := token, acquiredAt := Some(at), expiresAt := Some(expires)),
               w.candidateId, Preparing)
    case CandidatePrepared(workId, expectedHead, rebased) =>
      if workId !in q.work then Failure("missing work")
      else
        var w := q.work[workId].work;
        Rework(q, workId, w.(status := WorkPrepared, expectedHead := Some(expectedHead), rebased := Some(rebased)), w.candidateId, Verifying)
    case ConflictRecorded(workId, conflict, digest) =>
      if Hash(OfConflict(conflict)) != digest then Failure("digest")
      else if workId !in q.work then Failure("missing work")
      else
        var w := q.work[workId].work;
        Rework(q.(conflicts := q.conflicts[conflict.id := StoredConflict(conflict, digest)]), workId,
               w.(status := WorkConflicted, owner := None, acquiredAt := None, expiresAt := None, lastError := Some(ConflictFault(conflict.id))),
               w.candidateId, Conflicted)
    case VerificationRecorded(workId, verification, digest) =>
      if Hash(OfVerification(verification)) != digest then Failure("digest")
      else if workId !in q.work then Failure("missing work")
      else
        var w := q.work[workId].work;
        Rework(q.(verifications := q.verifications[verification.id := StoredVerification(verification, digest)]), workId,
               w.(status := if verification.passed then WorkVerified else WorkFailed, verification := Some(verification),
                  owner := None, acquiredAt := None, expiresAt := None,
                  lastError := if verification.passed then None else Some(StatedFault(verification.failureReason))),
               w.candidateId, if verification.passed then AwaitingAuthorization else Ineligible)
    case PromotionAuthorized(workId, candidateId, actionResult) =>
      if workId !in q.work then Failure("missing work")
      else Rework(q, workId, q.work[workId].work.(status := WorkAuthorized, authorization := Some(actionResult)), candidateId, Authorized)
    case PromotionRecorded(receipt, digest) =>
      if Hash(OfReceipt(receipt)) != digest then Failure("digest")
      else if receipt.candidateId !in q.candidates then Failure("missing candidate")
      else
        var filed := q.(receipts := q.receipts[receipt.id := StoredReceipt(receipt, digest)],
                        candidates := q.candidates[receipt.candidateId := q.candidates[receipt.candidateId].(status := Promoted)]);
        var found := FirstWorkOf(q, q.order, receipt.candidateId);
        if found.None? then Success(filed)
        else
          var work := q.work[found.value].work.(status := WorkPromoted, completedAt := Some(receipt.promotedAt));
          Success(filed.(work := q.work[work.id := StoredWork(work, Hash(OfWork(work)))]))
    case _ => Success(q)
  }

  function SetPhase(programs: map<Id, Program>, id: Id, phase: string): Result<map<Id, Program>> {
    if id !in programs then Failure("missing program") else Success(programs[id := programs[id].(phase := phase)])
  }

  /** A graph_v2 program that was running becomes eligible again when its admission ends. */
  function Yield(programs: map<Id, Program>, id: Id): map<Id, Program> {
    if id in programs && programs[id].graphV2 && programs[id].phase == "running" then programs[id := programs[id].(phase := "eligible")] else programs
  }

  function EvolvePrograms(programs: map<Id, Program>, h: Holds, e: Event): Result<map<Id, Program>> {
    match e
    case AdmissionGranted(admission, _, _) => SetPhase(programs, admission.programId, "running")
    case AdmissionReleased(id, _, _, _) => Success(if id in h.admissions then Yield(programs, h.admissions[id].admission.programId) else programs)
    case AdmissionFenced(id, _, _, _) => Success(if id in h.admissions then Yield(programs, h.admissions[id].admission.programId) else programs)
    case PromotionRecorded(receipt, _) => SetPhase(programs, receipt.programId, "completed")
    case ProgramChanged(id, program) => Success(programs[id := program])
    case _ => Success(programs)
  }

  function Evolve(s: State, e: Event, at: Time): Result<State> {
    var plans, holds := EvolvePlans(s.plans, e, at), EvolveHolds(s.holds, e);
    var queue, programs := EvolveQueue(s.queue, e, at), EvolvePrograms(s.programs, s.holds, e);
    if plans.Failure? then Failure(plans.error)
    else if holds.Failure? then Failure(holds.error)
    else if queue.Failure? then Failure(queue.error)
    else if programs.Failure? then Failure(programs.error)
    else Success(State(plans.value, holds.value, queue.value, programs.value))
  }

  /** A stored event and the time it occurred. */
  datatype Stored = Stored(event: Event, at: Time)

  /** `replayEvents`: fold a log from the empty projection. */
  function Replay(log: seq<Stored>): Result<State> {
    if log == [] then Success(Empty())
    else
      var before := Replay(log[..|log| - 1]);
      if before.Failure? then before else Evolve(before.value, log[|log| - 1].event, log[|log| - 1].at)
  }
}
