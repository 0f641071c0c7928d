/** Deriving outcome events, folding them, and verifying what was recorded. */
module OutcomeFlow {
  import opened Prelude
  import opened Outcome

  datatype Event =
    | PacketRecorded(packet: Packet, digest: Digest)
    | MilestoneReady(milestoneId: Id, packetId: PacketId, recommendation: Recommendation)
    | GenerationReady(generationId: Id, packetId: PacketId, recommendation: Recommendation)
    | AdmissionReleased(admissionId: Id, fencingToken: Token, reason: RunStatus, at: Time, leaseIds: seq<Id>)

  /* ---------- evolve ---------- */

  function MarkGenerations(gs: seq<Generation>, id: Id, packetId: PacketId, recommendation: Recommendation): (r: seq<Generation>)
    ensures |r| == |gs|
  {
    seq(|gs|, i requires 0 <= i < |gs| =>
      if gs[i].id == id then gs[i].(outcomePacketId := Some(packetId), recommendation := Some(recommendation)) else gs[i])
  }

  function ReleaseAdmission(xs: seq<StoredAdmission>, id: Id, at: Time): (r: seq<StoredAdmission>)
    ensures |r| == |xs|
  {
    seq(|xs|, i requires 0 <= i < |xs| =>
      if xs[i].admission.id == id
      then
        var admission := xs[i].admission.(releasedAt := Some(at));
        xs[i].(admission := admission, digest := AdmissionHash(admission), status := Released, reason := Some("terminal_run"))
      else xs[i])
  }

  function ReleaseLeases(xs: seq<StoredLease>, ids: seq<Id>, at: Time): (r: seq<StoredLease>)
    ensures |r| == |xs|
  {
    seq(|xs|, i requires 0 <= i < |xs| =>
      if xs[i].lease.id in ids
      then
        var lease := xs[i].lease.(releasedAt := Some(at));
        StoredLease(lease, LeaseHash(lease), Released)
      else xs[i])
  }

  predicate HasGeneration(gs: seq<Generation>, id: Id) {
    exists i :: 0 <= i < |gs| && gs[i].id == id
  }

  predicate HasAdmission(xs: seq<StoredAdmission>, id: Id) {
    exists i :: 0 <= i < |xs| && xs[i].admission.id == id
  }

  predicate HasLease(xs: seq<StoredLease>, id: Id) {
    exists i :: 0 <= i < |xs| && xs[i].lease.id == id
  }

  function MakeEligible(programs: map<Id, Program>, id: Id): map<Id, Program> {
    if id in programs && programs[id].graphV2 && programs[id].phase == "running" then programs[id := programs[id].(phase := "eligible")] else programs
  }

  function ProgramOfAdmission(xs: seq<StoredAdmission>, id: Id): Option<Id> {
    if xs == [] then None else if xs[0].admission.id == id then Some(xs[0].admission.programId) else ProgramOfAdmission(xs[1..], id)
  }

  function Evolve(s: State, e: Event): Result<State> {
    match e
    case PacketRecorded(packet, digest) =>
      if PacketHash(packet) != digest then Failure("Outcome packet event digest does not match its content")
      else Success(s.(packets := s.packets[packet.id := StoredPacket(packet.id, packet.milestoneId, packet.runId, packet, digest)]))
    case MilestoneReady(milestoneId, packetId, recommendation) =>
      if milestoneId !in s.milestones then Failure("Missing milestone")
      else
        var m := s.milestones[milestoneId];
        Success(s.(milestones := s.milestones[m.id := m.(
          status := if m.pauseReason.Some? then MilestonePaused else OutcomeReady, outcomePacketId := Some(packetId), recommendation := Some(recommendation))]))
    case GenerationReady(generationId, packetId, recommendation) =>
      if !HasGeneration(s.generations, generationId) then Failure("Missing generation")
      else Success(s.(generations := MarkGenerations(s.generations, generationId, packetId, recommendation)))
    case AdmissionReleased(admissionId, _, _, at, leaseIds) =>
      if !HasAdmission(s.admissions, admissionId) then Failure("Missing portfolio admission")
      else if exists i :: 0 <= i < |leaseIds| && !HasLease(s.leases, leaseIds[i]) then Failure("Missing concurrency lease")
      else
        var program := ProgramOfAdmission(s.admissions, admissionId);
        Success(s.(admissions := ReleaseAdmission(s.admissions, admissionId, at), leases := ReleaseLeases(s.leases, leaseIds, at),
                   programs := if program.Some? then MakeEligible(s.programs, program.value) else s.programs))
  }

  function EvolveAll(s: State, events: seq<Event>): Result<State>
    decreases |events|
  {
    if events == [] then Success(s)
    else
      var r := Evolve(s, events[0]);
      if r.Failure? then r else EvolveAll(r.value, events[1..])
  }

  lemma {:induction false} EvolveConcat(s: State, first: seq<Event>, second: seq<Event>)
    requires EvolveAll(s, first).Success?
    ensures EvolveAll(s, first + second) == EvolveAll(EvolveAll(s, first).value, second)
    decreases |first|
  {
    if first == [] {
      assert first + second == second;
    } else {
      assert (first + second)[1..] == first[1..] + second;
      EvolveConcat(Evolve(s, first[0]).value, first[1..], second);
    }
  }

  /* ---------- deriveOutcomeEvents ---------- */

  function FirstActive(xs: seq<StoredAdmission>, generationId: Id): (r: Option<StoredAdmission>)
    ensures r.Some? ==> r.value in xs && r.value.status == Active && r.value.admission.generationId == generationId
    ensures r.None? ==> forall i :: 0 <= i < |xs| ==> !(xs[i].status == Active && xs[i].admission.generationId == generationId)
  {
    if xs == [] then None
    else if xs[0].status == Active && xs[0].admission.generationId == generationId then Some(xs[0])
    else FirstActive(xs[1..], generationId)
  }

  /** The active leases of an admission, in insertion order. */
  function ActiveLeases(xs: seq<StoredLease>, admissionId: Id): (r: seq<StoredLease>)
    ensures forall x :: x in r <==> x in xs && x.status == Active && x.lease.admissionId == admissionId
  {
    if xs == [] then []
    else
      var rest := ActiveLeases(xs[1..], admissionId);
      assert xs == [xs[0]] + xs[1..];
      if xs[0].status == Active && xs[0].lease.admissionId == admissionId then [xs[0]] + rest else rest
  }

  function LeaseIds(xs: seq<StoredLease>): (r: seq<Id>)
    ensures |r| == |xs| && forall i :: 0 <= i < |r| ==> r[i] == xs[i].lease.id
  {
    seq(|xs|, i requires 0 <= i < |xs| => xs[i].lease.id)
  }

  predicate ShareToken(xs: seq<StoredLease>, token: Token) {
    forall i :: 0 <= i < |xs| ==> xs[i].lease.fencingToken == token
  }

  /** The release an outcome of a generation brings, when its admission and leases allow it. */
  function ReleaseFor(s: State, generationId: Id, run: Run): seq<Event> {
    var admission := FirstActive(s.admissions, generationId);
    if admission.None? then []
    else
      var leases := ActiveLeases(s.leases, admission.value.admission.id);
      if leases == [] || !ShareToken(leases, leases[0].lease.fencingToken) then []
      else [AdmissionReleased(admission.value.admission.id, leases[0].lease.fencingToken, run.status,
                              if run.completedAt.Some? then run.completedAt.value else if run.cancelledAt.Some? then run.cancelledAt.value else run.createdAt,
                              LeaseIds(leases))]
  }

  /** The run has a milestone that still waits for its outcome. */
  predicate Awaits(s: State, runId: Id) {
    && runId in s.evidence.runs && s.evidence.runs[runId].milestoneId.Some? && s.evidence.runs[runId].milestoneId.value in s.milestones
    && var m := s.milestones[s.evidence.runs[runId].milestoneId.value];
    (m.status == MilestoneRunning || m.status == MilestonePaused) && m.outcomePacketId.None?
  }

  function EventsOf(s: State, run: Run, packet: Packet): seq<Event> {
    [PacketRecorded(packet, PacketHash(packet)), MilestoneReady(packet.milestoneId, packet.id, packet.recommendation)] +
    (if packet.extension.NoExtension? then []
     else [GenerationReady(packet.extension.generationId, packet.id, packet.recommendation)] + ReleaseFor(s, packet.extension.generationId, run))
  }

  ghost function EventsFor(s: State, runId: Id): Result<seq<Event>> {
    if !Awaits(s, runId) then Success([])
    else
      var run := s.evidence.runs[runId];
      var packet := Build(s, s.milestones[run.milestoneId.value].id, runId);
      if packet.Failure? then Failure(packet.error)
      else if packet.value.id in s.packets then Success([])
      else Success(EventsOf(s, run, packet.value))
  }

  /** One pass over the runs (sorted, each once), every packet built against the same state. */
  ghost function Derive(s: State, runs: seq<Id>): Result<seq<Event>> {
    if runs == [] then Success([])
    else
      var first := EventsFor(s, runs[0]);
      if first.Failure? then first
      else
        var rest := Derive(s, runs[1..]);
        if rest.Failure? then rest else Success(first.value + rest.value)
  }

  /* ---------- verifyOutcomePacketState ---------- */

  datatype Complaint =
    | PacketMissing | DigestMismatch | GraphMismatch | ContextMismatch | GenerationMismatch | DependencyMismatch(packetId: PacketId)
    | ReferenceMissing(kind: RefKind, id: Id) | ReferenceMismatch(kind: RefKind, id: Id)
    | BaseMissing | BaseMismatch | CandidateMissing | CandidateMismatch | EvidenceMismatch | NotDerivable(error: string)

  function RevisionComplaints(e: Evidence, id: Id, missing: Complaint, mismatch: Complaint): seq<Complaint> {
    if id !in e.revisions then [missing]
    else
      var r := e.revisions[id];
      if RevisionHash(r.repositoryId, r.objectFormat, r.commitOid, r.treeOid) != r.digest then [mismatch] else []
  }

  function IdentityOf(v: Verification, manifest: Manifest, resultDigest: Digest): ReceiptIdentity {
    ReceiptIdentity(v.id, v.runId, v.jobId, v.contract, manifest.id, manifest.digest, resultDigest)
  }

  /** The check of one reference of the packet against the record it names. */
  function ReferenceComplaints(e: Evidence, ref: Ref): seq<Complaint> {
    match ref.kind
    case DriverRef =>
      if ref.id !in e.receipts then [ReferenceMissing(DriverRef, ref.id)]
      else
        var r := e.receipts[ref.id];
        if r.digest != ref.digest || DriverHash(r.content) != r.digest then [ReferenceMismatch(DriverRef, ref.id)] else []
    case ManifestRef =>
      if ref.id !in e.manifests then [ReferenceMissing(ManifestRef, ref.id)]
      else
        var m := e.manifests[ref.id];
        if m.digest != ref.digest || ManifestHash(m.entries) != m.digest then [ReferenceMismatch(ManifestRef, ref.id)] else []
    case VerificationRef =>
      if ref.id !in e.verifications then [ReferenceMissing(VerificationRef, ref.id)]
      else
        var v := e.verifications[ref.id];
        if v.manifestId.None? || v.manifestId.value !in e.manifests || v.result.None? || v.resultDigest.None? || v.receiptDigest.None?
        then [ReferenceMissing(VerificationRef, ref.id)]
        else if v.receiptDigest.value != ref.digest || ResultHash(v.result.value) != v.resultDigest.value
                || ReceiptHash(IdentityOf(v, e.manifests[v.manifestId.value], v.resultDigest.value)) != v.receiptDigest.value
        then [ReferenceMismatch(VerificationRef, ref.id)]
        else []
    case ValidationRef => if ref.id !in e.validations || e.validations[ref.id].digest != ref.digest then [ReferenceMismatch(ValidationRef, ref.id)] else []
    case OutcomeRef => [ReferenceMismatch(OutcomeRef, ref.id)]
  }

  function AllReferenceComplaints(e: Evidence, refs: seq<Ref>): seq<Complaint> {
    if refs == [] then [] else ReferenceComplaints(e, refs[0]) + AllReferenceComplaints(e, refs[1..])
  }

  function DependencyComplaints(packets: map<PacketId, StoredPacket>, refs: seq<OutcomeReference>): seq<Complaint> {
    if refs == [] then []
    else (if refs[0].id !in packets || packets[refs[0].id].digest != refs[0].digest then [DependencyMismatch(refs[0].id)] else []) +
         DependencyComplaints(packets, refs[1..])
  }

  function ExtensionComplaints(s: State, packet: Packet): seq<Complaint> {
    match packet.extension
    case NoExtension => []
    case V2(generationId, number, graphRevisionId, graphDigest, contextPacketId, contextDigest, outcomes, validations) =>
      var g := GenerationById(s.generations, generationId);
      (if graphRevisionId !in s.evidence.graphs || s.evidence.graphs[graphRevisionId].digest != graphDigest then [GraphMismatch] else []) +
      (if contextPacketId !in s.evidence.contexts || s.evidence.contexts[contextPacketId].digest != contextDigest then [ContextMismatch] else []) +
      (if g.None? || g.value.runId != packet.runId || g.value.contextPacketId != contextPacketId || g.value.number != number then [GenerationMismatch] else []) +
      DependencyComplaints(s.packets, outcomes) + AllReferenceComplaints(s.evidence, validations)
  }

  ghost function Verify(s: State, stored: Option<StoredPacket>): seq<Complaint> {
    if stored.None? then [PacketMissing]
    else
      var packet := stored.value.packet;
      (if PacketHash(packet) != stored.value.digest then [DigestMismatch] else []) +
      ExtensionComplaints(s, packet) +
      RevisionComplaints(s.evidence, packet.baseRevisionId, BaseMissing, BaseMismatch) +
      (if packet.candidateRevisionId.Some? then RevisionComplaints(s.evidence, packet.candidateRevisionId.value, CandidateMissing, CandidateMismatch) else []) +
      AllReferenceComplaints(s.evidence, packet.driverReceipts) +
      AllReferenceComplaints(s.evidence, packet.manifests) +
      AllReferenceComplaints(s.evidence, packet.verificationReceipts) +
      (var expected := Build(s, stored.value.milestoneId, stored.value.runId);
       if expected.Failure? then [NotDerivable(expected.error)] else if expected.value != packet then [EvidenceMismatch] else [])
  }
}
