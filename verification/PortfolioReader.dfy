/** Reading the portfolio tables back: every digest is checked, and none fires on a replayed projection. */
module PortfolioReader {
  import opened Prelude
  import opened Portfolio
  import opened TableReader

  /* ---------- records match their digests and their keys ---------- */

  predicate PolicyOk(k: Id, v: StoredPolicy) { v.policy.id == k && v.digest == Hash(OfPolicy(v.policy)) }
  predicate TargetOk(k: Id, v: StoredTarget) { v.target.id == k && v.digest == Hash(OfTarget(v.target)) }
  predicate IncidentOk(k: Id, v: StoredIncident) { v.incident.id == k && v.digest == Hash(OfIncident(v.incident)) }
  predicate ReportOk(k: Id, v: StoredReport) { v.report.id == k && v.digest == Hash(OfReport(v.report)) }
  predicate AdmissionOk(k: Id, v: StoredAdmission) { v.admission.id == k && v.digest == Hash(OfAdmission(v.admission)) }
  predicate LeaseOk(k: Id, v: StoredLease) { v.lease.id == k && v.digest == Hash(OfLease(v.lease)) }
  predicate ManifestOk(k: Id, v: StoredManifest) { v.manifest.id == k && v.digest == Hash(OfManifest(v.manifest)) }
  predicate CandidateOk(k: Id, v: StoredCandidate) { v.candidate.id == k && v.digest == Hash(OfCandidate(v.candidate)) }
  predicate WorkOk(k: Id, v: StoredWork) { v.work.id == k && v.digest == Hash(OfWork(v.work)) }
  predicate ConflictOk(k: Id, v: StoredConflict) { v.conflict.id == k && v.digest == Hash(OfConflict(v.conflict)) }
  predicate VerificationOk(k: Id, v: StoredVerification) { v.verification.id == k && v.digest == Hash(OfVerification(v.verification)) }
  predicate ReceiptOk(k: Id, v: StoredReceipt) { v.receipt.id == k && v.digest == Hash(OfReceipt(v.receipt)) }

  ghost predicate PlansOk(p: Plans) {
    && (forall k :: k in p.policies ==> PolicyOk(k, p.policies[k])) && (forall k :: k in p.targets ==> TargetOk(k, p.targets[k]))
    && (forall k :: k in p.incidents ==> IncidentOk(k, p.incidents[k])) && (forall k :: k in p.reports ==> ReportOk(k, p.reports[k]))
  }

  ghost predicate LeasesOk(leases: map<Id, StoredLease>) {
    forall k :: k in leases ==> LeaseOk(k, leases[k])
  }

  ghost predicate HoldsOk(h: Holds) {
    (forall k :: k in h.admissions ==> AdmissionOk(k, h.admissions[k])) && LeasesOk(h.leases)
  }

  ghost predicate WayOk(q: Queue) {
    && (forall k :: k in q.candidates ==> CandidateOk(k, q.candidates[k])) && (forall k :: k in q.work ==> WorkOk(k, q.work[k]))
    && (forall k :: k in q.work <==> k in q.order)
  }

  ghost predicate FiledOk(q: Queue) {
    && (forall k :: k in q.manifests ==> ManifestOk(k, q.manifests[k])) && (forall k :: k in q.conflicts ==> ConflictOk(k, q.conflicts[k]))
    && (forall k :: k in q.verifications ==> VerificationOk(k, q.verifications[k])) && (forall k :: k in q.receipts ==> ReceiptOk(k, q.receipts[k]))
  }

  /** Every stored record sits under its own id and matches its digest. */
  ghost predicate Digested(s: State) {
    PlansOk(s.plans) && HoldsOk(s.holds) && WayOk(s.queue) && FiledOk(s.queue)
  }

  /* ---------- every event keeps that ---------- */

  lemma PlansKept(p: Plans, e: Event, at: Time)
    requires PlansOk(p) && EvolvePlans(p, e, at).Success?
    ensures PlansOk(EvolvePlans(p, e, at).value)
  {
  }

  lemma {:induction false} AdmitKept(leases: map<Id, StoredLease>, grants: seq<Grant>)
    requires LeasesOk(leases) && Admit(leases, grants).Success?
    ensures LeasesOk(Admit(leases, grants).value)
    decreases |grants|
  {
    if grants != [] {
      AdmitKept(leases[grants[0].lease.id := StoredLease(grants[0].lease, grants[0].digest, Active)], grants[1..]);
    }
  }

  lemma {:induction false} EndLeasesKept(leases: map<Id, StoredLease>, ids: seq<Id>, status: Hold, at: Time)
    requires LeasesOk(leases) && EndLeases(leases, ids, status, at).Success?
    ensures LeasesOk(EndLeases(leases, ids, status, at).value)
    decreases |ids|
  {
    if ids != [] {
      var lease := EndedLease(leases[ids[0]].lease, status, at);
      EndLeasesKept(leases[ids[0] := StoredLease(lease, Hash(OfLease(lease)), status)], ids[1..], status, at);
    }
  }

  lemma HoldsKept(h: Holds, e: Event)
    requires HoldsOk(h) && EvolveHolds(h, e).Success?
    ensures HoldsOk(EvolveHolds(h, e).value)
  {
    match e
    case AdmissionGranted(_, _, grants) => AdmitKept(h.leases, grants);
    case AdmissionReleased(_, _, leaseIds, at) => EndLeasesKept(h.leases, leaseIds, Released, at);
    case AdmissionFenced(_, _, leaseIds, at) => EndLeasesKept(h.leases, leaseIds, Fenced, at);
    case _ =>
  }

  lemma ReworkKept(q: Queue, workId: Id, work: Work, candidateId: Id, status: CandidateStatus)
    requires WayOk(q) && workId in q.work && work.id == workId && Rework(q, workId, work, candidateId, status).Success?
    ensures WayOk(Rework(q, workId, work, candidateId, status).value)
  {
  }

  lemma QueuedKept(q: Queue, e: Event, at: Time)
    requires WayOk(q) && e.CandidateQueued? && EvolveQueue(q, e, at).Success?
    ensures WayOk(EvolveQueue(q, e, at).value)
  {
  }

  lemma PromotedKept(q: Queue, e: Event, at: Time)
    requires WayOk(q) && e.PromotionRecorded? && EvolveQueue(q, e, at).Success?
    ensures WayOk(EvolveQueue(q, e, at).value)
  {
  }

  lemma WayKept(q: Queue, e: Event, at: Time)
    requires WayOk(q) && EvolveQueue(q, e, at).Success?
    ensures WayOk(EvolveQueue(q, e, at).value)
  {
    var n := EvolveQueue(q, e, at).value;
    match e
    case WorkLeaseAcquired(workId, _, _, _) => ReworkKept(q, workId, n.work[workId].work, q.work[workId].work.candidateId, Preparing);
    case CandidatePrepared(workId, _, _) => ReworkKept(q, workId, n.work[workId].work, q.work[workId].work.candidateId, Verifying);
    case ConflictRecorded(workId, _, _) =>
      ReworkKept(q.(conflicts := n.conflicts), workId, n.work[workId].work, q.work[workId].work.candidateId, Conflicted);
    case VerificationRecorded(workId, verification, _) =>
      ReworkKept(q.(verifications := n.verifications), workId, n.work[workId].work, q.work[workId].work.candidateId,
                 if verification.passed then AwaitingAuthorization else Ineligible);
    case PromotionAuthorized(workId, candidateId, _) => ReworkKept(q, workId, n.work[workId].work, candidateId, Authorized);
    case CandidateQueued(_, _, _, _) => QueuedKept(q, e, at);
    case PromotionRecorded(_, _) => PromotedKept(q, e, at);
    case _ =>
  }

  lemma FiledKept(q: Queue, e: Event, at: Time)
    requires FiledOk(q) && EvolveQueue(q, e, at).Success?
    ensures FiledOk(EvolveQueue(q, e, at).value)
  {
  }

  lemma EvolveKept(s: State, e: Event, at: Time)
    requires Digested(s) && Evolve(s, e, at).Success?
    ensures Digested(Evolve(s, e, at).value)
  {
    PlansKept(s.plans, e, at);
    HoldsKept(s.holds, e);
    WayKept(s.queue, e, at);
    FiledKept(s.queue, e, at);
  }

  /** In every projection replayed from a log that folds, each record sits under its own id and matches its digest. */
  lemma {:induction false} ReplayedIsDigested(log: seq<Stored>)
    requires Replay(log).Success?
    ensures Digested(Replay(log).value)
  {
    if log != [] {
      var before, last := log[..|log| - 1], log[|log| - 1];
      ReplayedIsDigested(before);
      EvolveKept(Replay(before).value, last.event, last.at);
    }
  }

  /* ---------- the reader ---------- */

  /** The rows of the twelve tables. */
  datatype Tables = Tables(
    policies: seq<StoredPolicy>, targets: seq<StoredTarget>, incidents: seq<StoredIncident>, reports: seq<StoredReport>,
    admissions: seq<StoredAdmission>, leases: seq<StoredLease>, manifests: seq<StoredManifest>, candidates: seq<StoredCandidate>,
    work: seq<StoredWork>, conflicts: seq<StoredConflict>, verifications: seq<StoredVerification>, receipts: seq<StoredReceipt>)

  ghost predicate Written(t: Tables, s: State) {
    && Lists(t.policies, s.plans.policies) && Lists(t.targets, s.plans.targets) && Lists(t.incidents, s.plans.incidents)
    && Lists(t.reports, s.plans.reports) && Lists(t.admissions, s.holds.admissions) && Lists(t.leases, s.holds.leases)
    && Lists(t.manifests, s.queue.manifests) && Lists(t.candidates, s.queue.candidates) && Lists(t.work, s.queue.work)
    && Lists(t.conflicts, s.queue.conflicts) && Lists(t.verifications, s.queue.verifications) && Lists(t.receipts, s.queue.receipts)
  }

  /** Every table read gives back the map that was written, so no digest check fires. */
  ghost predicate ReadsAs(t: Tables, s: State) {
    && ReadTable(t.policies, (v: StoredPolicy) => v.policy.id, PolicyOk) == Success(s.plans.policies)
    && ReadTable(t.targets, (v: StoredTarget) => v.target.id, TargetOk) == Success(s.plans.targets)
    && ReadTable(t.incidents, (v: StoredIncident) => v.incident.id, IncidentOk) == Success(s.plans.incidents)
    && ReadTable(t.reports, (v: StoredReport) => v.report.id, ReportOk) == Success(s.plans.reports)
    && ReadTable(t.admissions, (v: StoredAdmission) => v.admission.id, AdmissionOk) == Success(s.holds.admissions)
    && ReadTable(t.leases, (v: StoredLease) => v.lease.id, LeaseOk) == Success(s.holds.leases)
    && ReadTable(t.manifests, (v: StoredManifest) => v.manifest.id, ManifestOk) == Success(s.queue.manifests)
    && ReadTable(t.candidates, (v: StoredCandidate) => v.candidate.id, CandidateOk) == Success(s.queue.candidates)
    && ReadTable(t.work, (v: StoredWork) => v.work.id, WorkOk) == Success(s.queue.work)
    && ReadTable(t.conflicts, (v: StoredConflict) => v.conflict.id, ConflictOk) == Success(s.queue.conflicts)
    && ReadTable(t.verifications, (v: StoredVerification) => v.verification.id, VerificationOk) == Success(s.queue.verifications)
    && ReadTable(t.receipts, (v: StoredReceipt) => v.receipt.id, ReceiptOk) == Success(s.queue.receipts)
  }

  lemma PlansRead(t: Tables, s: State)
    requires Digested(s) && Written(t, s)
    ensures ReadTable(t.policies, (v: StoredPolicy) => v.policy.id, PolicyOk) == Success(s.plans.policies)
    ensures ReadTable(t.targets, (v: StoredTarget) => v.target.id, TargetOk) == Success(s.plans.targets)
    ensures ReadTable(t.incidents, (v: StoredIncident) => v.incident.id, IncidentOk) == Success(s.plans.incidents)
    ensures ReadTable(t.reports, (v: StoredReport) => v.report.id, ReportOk) == Success(s.plans.reports)
  {
    ReadsBack(t.policies, s.plans.policies, (v: StoredPolicy) => v.policy.id, PolicyOk);
    ReadsBack(t.targets, s.plans.targets, (v: StoredTarget) => v.target.id, TargetOk);
    ReadsBack(t.incidents, s.plans.incidents, (v: StoredIncident) => v.incident.id, IncidentOk);
    ReadsBack(t.reports, s.plans.reports, (v: StoredReport) => v.report.id, ReportOk);
  }

  lemma HoldsRead(t: Tables, s: State)
    requires Digested(s) && Written(t, s)
    ensures ReadTable(t.admissions, (v: StoredAdmission) => v.admission.id, AdmissionOk) == Success(s.holds.admissions)
    ensures ReadTable(t.leases, (v: StoredLease) => v.lease.id, LeaseOk) == Success(s.holds.leases)
    ensures ReadTable(t.manifests, (v: StoredManifest) => v.manifest.id, ManifestOk) == Success(s.queue.manifests)
    ensures ReadTable(t.candidates, (v: StoredCandidate) => v.candidate.id, CandidateOk) == Success(s.queue.candidates)
  {
    ReadsBack(t.admissions, s.holds.admissions, (v: StoredAdmission) => v.admission.id, AdmissionOk);
    ReadsBack(t.leases, s.holds.leases, (v: StoredLease) => v.lease.id, LeaseOk);
    ReadsBack(t.manifests, s.queue.manifests, (v: StoredManifest) => v.manifest.id, ManifestOk);
    ReadsBack(t.candidates, s.queue.candidates, (v: StoredCandidate) => v.candidate.id, CandidateOk);
  }

  lemma QueueRead(t: Tables, s: State)
    requires Digested(s) && Written(t, s)
    ensures ReadTable(t.work, (v: StoredWork) => v.work.id, WorkOk) == Success(s.queue.work)
    ensures ReadTable(t.conflicts, (v: StoredConflict) => v.conflict.id, ConflictOk) == Success(s.queue.conflicts)
    ensures ReadTable(t.verifications, (v: StoredVerification) => v.verification.id, VerificationOk) == Success(s.queue.verifications)
    ensures ReadTable(t.receipts, (v: StoredReceipt) => v.receipt.id, ReceiptOk) == Success(s.queue.receipts)
  {
    ReadsBack(t.work, s.queue.work, (v: StoredWork) => v.work.id, WorkOk);
    ReadsBack(t.conflicts, s.queue.conflicts, (v: StoredConflict) => v.conflict.id, ConflictOk);
    ReadsBack(t.verifications, s.queue.verifications, (v: StoredVerification) => v.verification.id, VerificationOk);
    ReadsBack(t.receipts, s.queue.receipts, (v: StoredReceipt) => v.receipt.id, ReceiptOk);
  }

  /**
   For every log that folds and every row order: reading the written tables fires no digest check and gives back
   every admission, lease, candidate, work item and the records around them.
   */
  lemma ReplayedReadsBack(log: seq<Stored>, t: Tables)
    requires Replay(log).Success? && Written(t, Replay(log).value)
    ensures ReadsAs(t, Replay(log).value)
  {
    ReplayedIsDigested(log);
    PlansRead(t, Replay(log).value);
    HoldsRead(t, Replay(log).value);
    QueueRead(t, Replay(log).value);
  }
}
