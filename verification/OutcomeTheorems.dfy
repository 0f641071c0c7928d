/** Build-then-verify, idempotence and release of admissions. */
module OutcomeTheorems {
  import opened Prelude
  import opened Sequences
  import opened Outcome
  import opened OutcomeFlow
  import opened OutcomeVerified
  import opened OutcomeEvidence

  /* ---------- idempotence ---------- */

  lemma {:induction false} EachDerives(s: State, runs: seq<Id>, i: int)
    requires Derive(s, runs).Success? && 0 <= i < |runs|
    ensures EventsFor(s, runs[i]).Success?
    decreases |runs|
  {
    if i > 0 {
      EachDerives(s, runs[1..], i - 1);
      assert runs[1..][i - 1] == runs[i];
    }
  }

  lemma AwaitsBefore(s: State, u: State, runId: Id)
    requires Framed(s, u) && Awaits(u, runId)
    ensures Awaits(s, runId) && s.milestones[s.evidence.runs[runId].milestoneId.value].id == u.milestones[s.evidence.runs[runId].milestoneId.value].id
  {
    var k := s.evidence.runs[runId].milestoneId.value;
    assert u.milestones[k] == s.milestones[k];
  }

  lemma NothingLeft(s: State, u: State, runId: Id)
    requires Keyed(s) && Framed(s, u) && OldPacketsKept(s, u) && EventsFor(s, runId).Success? && Concluded(s, u, runId)
    ensures EventsFor(u, runId) == Success([])
  {
    if Awaits(u, runId) {
      AwaitsBefore(s, u, runId);
      var milestoneId := s.milestones[s.evidence.runs[runId].milestoneId.value].id;
      BuildKept(s, u, milestoneId, runId);
      if Build(s, milestoneId, runId).Success? { BuiltNames(s, milestoneId, runId); }
    }
  }

  lemma {:induction false} NothingDerived(u: State, runs: seq<Id>)
    requires forall i :: 0 <= i < |runs| ==> EventsFor(u, runs[i]) == Success([])
    ensures Derive(u, runs) == Success([])
    decreases |runs|
  {
    if runs != [] {
      NothingDerived(u, runs[1..]);
      var first, rest := EventsFor(u, runs[0]).value, Derive(u, runs[1..]).value;
      assert first == [] && rest == [] && first + rest == [];
    }
  }

  lemma SelfFramed(s: State)
    ensures Framed(s, s) && OldPacketsKept(s, s)
  {
  }

  lemma DerivedState(s: State, runs: seq<Id>) returns (u: State)
    requires Keyed(s) && Distinct(runs) && Derive(s, runs).Success?
    ensures EvolveAll(s, Derive(s, runs).value) == Success(u) && PassLeaves(s, s, u, runs)
  {
    SelfFramed(s);
    PassApplies(s, s, runs);
    u := EvolveAll(s, Derive(s, runs).value).value;
  }

  /** Folding the derived events never throws, and deriving again over the same runs yields nothing. */
  lemma DerivingIsIdempotent(s: State, runs: seq<Id>)
    requires Keyed(s) && Distinct(runs) && Derive(s, runs).Success?
    ensures var u := EvolveAll(s, Derive(s, runs).value); u.Success? && Derive(u.value, runs) == Success([])
  {
    var u := DerivedState(s, runs);
    forall i | 0 <= i < |runs| ensures EventsFor(u, runs[i]) == Success([]) {
      EachDerives(s, runs, i);
      NothingLeft(s, u, runs[i]);
    }
    NothingDerived(u, runs);
  }

  /* ---------- admissions ---------- */

  /** The packet a run gets. */
  ghost predicate Yields(s: State, runId: Id, packet: Packet) {
    && EventsFor(s, runId).Success? && EventsFor(s, runId).value != [] && Awaits(s, runId)
    && Build(s, s.milestones[s.evidence.runs[runId].milestoneId.value].id, runId) == Success(packet)
  }

  /**
   When the generation of an outcome has an active admission whose active leases are non-empty and share a
   fencing token, the admission ends released with no active lease left.
   */
  lemma OutcomeFreesAdmission(s: State, runs: seq<Id>, i: int, packet: Packet)
    requires Keyed(s) && Distinct(runs) && Derive(s, runs).Success? && 0 <= i < |runs| && Yields(s, runs[i], packet)
    requires packet.extension.V2? && Releasable(s, packet.extension.generationId)
    ensures var u := EvolveAll(s, Derive(s, runs).value);
            u.Success? && Freed(u.value, FirstActive(s.admissions, packet.extension.generationId).value.admission.id)
  {
    var u := DerivedState(s, runs);
    assert Concluded(s, u, runs[i]);
  }

  /* ---------- evidence ---------- */

  /** What the packet refers to outside its own evidence is there. */
  ghost predicate Present(s: State, packet: Packet) {
    && packet.baseRevisionId in s.evidence.revisions
    && (packet.candidateRevisionId.Some? ==> packet.candidateRevisionId.value in s.evidence.revisions)
    && (packet.extension.V2? ==> DependencyComplaints(s.packets, packet.extension.dependencyOutcomes) == [])
  }

  lemma {:induction false} NoComplaints(e: Evidence, refs: seq<Ref>)
    requires forall i :: 0 <= i < |refs| ==> ReferenceComplaints(e, refs[i]) == []
    ensures AllReferenceComplaints(e, refs) == []
  {
    if refs != [] { NoComplaints(e, refs[1..]); }
  }

  lemma DriverRefsHold(e: Evidence, runId: Id, jobId: Id)
    requires EvidenceSound(e)
    ensures AllReferenceComplaints(e, DriverRefs(ReceiptsOf(e, runId, jobId))) == []
  {
    var xs := ReceiptsOf(e, runId, jobId);
    forall i | 0 <= i < |xs| ensures ReferenceComplaints(e, DriverRefs(xs)[i]) == [] {
      assert xs[i] in e.receipts.Values;
    }
    NoComplaints(e, DriverRefs(xs));
  }

  lemma ManifestRefsHold(e: Evidence, runId: Id, jobId: Id)
    requires EvidenceSound(e)
    ensures AllReferenceComplaints(e, ManifestRefs(ManifestsOf(e, runId, jobId))) == []
  {
    var xs := ManifestsOf(e, runId, jobId);
    forall i | 0 <= i < |xs| ensures ReferenceComplaints(e, ManifestRefs(xs)[i]) == [] {
      assert xs[i] in e.manifests.Values;
    }
    NoComplaints(e, ManifestRefs(xs));
  }

  lemma VerificationRefHolds(e: Evidence, v: Verification)
    requires VerificationsSound(e) && v in e.verifications.Values && v.receiptDigest.Some?
    ensures ReferenceComplaints(e, Ref(VerificationRef, v.id, v.receiptDigest.value)) == []
  {
    var k :| k in e.verifications && e.verifications[k] == v;
    assert VerificationSound(e, e.verifications[k]);
  }

  lemma VerificationRefsHold(e: Evidence, runId: Id, jobId: Id)
    requires EvidenceSound(e)
    ensures AllReferenceComplaints(e, VerificationRefs(WithReceipt(VerificationsOf(e, runId, jobId)))) == []
  {
    var all := VerificationsOf(e, runId, jobId);
    var xs := WithReceipt(all);
    forall i | 0 <= i < |xs| ensures ReferenceComplaints(e, VerificationRefs(xs)[i]) == [] {
      assert xs[i] in all;
      VerificationRefHolds(e, xs[i]);
    }
    NoComplaints(e, VerificationRefs(xs));
  }

  lemma ValidationRefsHold(e: Evidence, dependencies: seq<OutcomeReference>)
    requires EvidenceSound(e)
    ensures AllReferenceComplaints(e, ValidationRefs(ValidationsOf(e, dependencies))) == []
  {
    var xs := ValidationsOf(e, dependencies);
    forall i | 0 <= i < |xs| ensures ReferenceComplaints(e, ValidationRefs(xs)[i]) == [] {
      assert xs[i] in e.validations.Values;
    }
    NoComplaints(e, ValidationRefs(xs));
  }

  /* ---------- build, record, verify ---------- */

  /** Where the references of a compiled packet come from. */
  lemma CompiledReferences(e: Evidence, m: Charter, programId: Id, intent: Option<Digest>, generation: Option<Launch>, runId: Id) returns (jobId: Id)
    requires Compile(e, m, programId, intent, generation, runId).Success?
    ensures var packet := Compile(e, m, programId, intent, generation, runId).value;
            && packet.driverReceipts == DriverRefs(ReceiptsOf(e, runId, jobId))
            && packet.manifests == ManifestRefs(ManifestsOf(e, runId, jobId))
            && packet.verificationReceipts == VerificationRefs(WithReceipt(VerificationsOf(e, runId, jobId)))
            && (packet.extension.V2? ==>
                  && generation.Some? && generation.value.graphRevisionId in e.graphs && generation.value.contextPacketId in e.contexts
                  && packet.extension == ExtensionOf(e, generation.value))
  {
    jobId := if generation.Some? then generation.value.jobId else m.jobId.value;
  }

  ghost predicate ReferencesHold(e: Evidence, packet: Packet) {
    && AllReferenceComplaints(e, packet.driverReceipts) == [] && AllReferenceComplaints(e, packet.manifests) == []
    && AllReferenceComplaints(e, packet.verificationReceipts) == []
  }

  lemma CompiledReferencesHold(e: Evidence, m: Charter, programId: Id, intent: Option<Digest>, generation: Option<Launch>, runId: Id)
    requires EvidenceSound(e) && Compile(e, m, programId, intent, generation, runId).Success?
    ensures ReferencesHold(e, Compile(e, m, programId, intent, generation, runId).value)
  {
    var jobId := CompiledReferences(e, m, programId, intent, generation, runId);
    DriverRefsHold(e, runId, jobId);
    ManifestRefsHold(e, runId, jobId);
    VerificationRefsHold(e, runId, jobId);
  }

  predicate DistinctGenerations(gs: seq<Generation>) {
    forall i, j :: 0 <= i < j < |gs| ==> gs[i].id != gs[j].id
  }

  lemma {:induction false} ByIdFindsIt(gs: seq<Generation>, runId: Id)
    requires DistinctGenerations(gs) && GenerationOf(gs, runId).Some?
    ensures GenerationById(gs, GenerationOf(gs, runId).value.id) == GenerationOf(gs, runId)
    ensures GenerationOf(gs, runId).value.runId == runId
    ensures GenerationOf(gs, runId).value in gs
  {
    if gs[0].runId != runId { ByIdFindsIt(gs[1..], runId); }
  }

  lemma GenerationsStayDistinct(a: seq<Generation>, b: seq<Generation>)
    requires GenerationsKept(a, b) && DistinctGenerations(a)
    ensures DistinctGenerations(b)
  {
    forall i, j | 0 <= i < j < |b| ensures b[i].id != b[j].id {
      assert LaunchOf(b[i]) == LaunchOf(a[i]) && LaunchOf(b[j]) == LaunchOf(a[j]);
    }
  }

  lemma ExtensionHolds(u: State, launch: Launch, packet: Packet)
    requires EvidenceSound(u.evidence) && DistinctGenerations(u.generations)
    requires GenerationOf(u.generations, packet.runId).Some? && LaunchOf(GenerationOf(u.generations, packet.runId).value) == launch
    requires launch.graphRevisionId in u.evidence.graphs && launch.contextPacketId in u.evidence.contexts
    requires packet.extension == ExtensionOf(u.evidence, launch) && DependencyComplaints(u.packets, packet.extension.dependencyOutcomes) == []
    ensures ExtensionComplaints(u, packet) == []
  {
    ByIdFindsIt(u.generations, packet.runId);
    ValidationRefsHold(u.evidence, u.evidence.contexts[launch.contextPacketId].context.dependencies);
  }

  lemma RecordedExtensionHolds(s: State, u: State, milestoneId: Id, runId: Id)
    requires Keyed(s) && Framed(s, u) && OldPacketsKept(s, u) && EvidenceSound(s.evidence) && DistinctGenerations(s.generations)
    requires Build(s, milestoneId, runId).Success? && Present(u, Build(s, milestoneId, runId).value)
    ensures ExtensionComplaints(u, Build(s, milestoneId, runId).value) == []
  {
    var packet := Build(s, milestoneId, runId).value;
    if packet.extension.V2? {
      BuiltNames(s, milestoneId, runId);
      var g := GenerationOf(s.generations, runId);
      var m := s.milestones[milestoneId];
      var jobId := CompiledReferences(s.evidence, CharterOf(m), s.programs[m.programId].id, s.programs[m.programId].intentDigest, Some(LaunchOf(g.value)), runId);
      GenerationOfKept(s.generations, u.generations, runId);
      GenerationsStayDistinct(s.generations, u.generations);
      ExtensionHolds(u, LaunchOf(g.value), packet);
    }
  }

  lemma RecordedReferencesHold(s: State, milestoneId: Id, runId: Id)
    requires EvidenceSound(s.evidence) && Build(s, milestoneId, runId).Success?
    ensures ReferencesHold(s.evidence, Build(s, milestoneId, runId).value)
  {
    var m, g := s.milestones[milestoneId], GenerationOf(s.generations, runId);
    CompiledReferencesHold(s.evidence, CharterOf(m), s.programs[m.programId].id, s.programs[m.programId].intentDigest,
                           if g.Some? then Some(LaunchOf(g.value)) else None, runId);
  }

  lemma RevisionsHold(s: State, packet: Packet)
    requires EvidenceSound(s.evidence)
    ensures RevisionComplaints(s.evidence, packet.baseRevisionId, BaseMissing, BaseMismatch) == [] <==> packet.baseRevisionId in s.evidence.revisions
    ensures packet.candidateRevisionId.Some? ==>
              (RevisionComplaints(s.evidence, packet.candidateRevisionId.value, CandidateMissing, CandidateMismatch) == []
               <==> packet.candidateRevisionId.value in s.evidence.revisions)
  {
  }

  /** The verifier's verdict, from its parts. */
  lemma CleanParts(u: State, stored: StoredPacket)
    requires stored.digest == PacketHash(stored.packet) && ExtensionComplaints(u, stored.packet) == [] && ReferencesHold(u.evidence, stored.packet)
    requires RevisionComplaints(u.evidence, stored.packet.baseRevisionId, BaseMissing, BaseMismatch) == []
    requires stored.packet.candidateRevisionId.Some? ==>
               RevisionComplaints(u.evidence, stored.packet.candidateRevisionId.value, CandidateMissing, CandidateMismatch) == []
    requires Build(u, stored.milestoneId, stored.runId) == Success(stored.packet)
    ensures Verify(u, Some(stored)) == []
  {
  }

  lemma RecordedVerifies(s: State, u: State, milestoneId: Id, runId: Id)
    requires Keyed(s) && Framed(s, u) && OldPacketsKept(s, u) && EvidenceSound(s.evidence) && DistinctGenerations(s.generations)
    requires Build(s, milestoneId, runId).Success? && Recorded(u, Build(s, milestoneId, runId).value)
    ensures var packet := Build(s, milestoneId, runId).value; Verify(u, Some(u.packets[packet.id])) == [] <==> Present(u, packet)
  {
    var packet := Build(s, milestoneId, runId).value;
    BuiltNames(s, milestoneId, runId);
    RevisionsHold(u, packet);
    if Present(u, packet) {
      RecordedExtensionHolds(s, u, milestoneId, runId);
      RecordedReferencesHold(s, milestoneId, runId);
      BuildKept(s, u, milestoneId, runId);
      CleanParts(u, u.packets[packet.id]);
    } else {
      SomethingMissing(u, u.packets[packet.id]);
    }
  }

  lemma SomethingMissing(u: State, stored: StoredPacket)
    requires !Present(u, stored.packet)
    ensures Verify(u, Some(stored)) != []
  {
    if stored.packet.extension.V2? && DependencyComplaints(u.packets, stored.packet.extension.dependencyOutcomes) != [] {
      assert ExtensionComplaints(u, stored.packet) != [];
    }
  }

  /**
   After folding the events a pass derives, the independent verifier reports no failure for a packet the pass recorded
   exactly when the revisions and dependency outcomes the packet names are there, for any evidence recorded by a log
   that undermined none of its receipts and with generation ids used once.
   */
  lemma BuildThenVerify(log: seq<Recording>, s: State, runs: seq<Id>, i: int, packet: Packet)
    requires Keyed(s) && Distinct(runs) && Derive(s, runs).Success? && 0 <= i < |runs| && Yields(s, runs[i], packet)
    requires EvidenceOf(log) == Success(s.evidence) && NeverUndermined(log) && DistinctGenerations(s.generations)
    ensures var u := EvolveAll(s, Derive(s, runs).value);
            && u.Success? && packet.id in u.value.packets
            && (Verify(u.value, Some(u.value.packets[packet.id])) == [] <==> Present(u.value, packet))
  {
    NeverUnderminedIsSound(log);
    var u := DerivedState(s, runs);
    assert Concluded(s, u, runs[i]);
    var milestoneId := s.milestones[s.evidence.runs[runs[i]].milestoneId.value].id;
    RecordedVerifies(s, u, milestoneId, runs[i]);
  }
}
