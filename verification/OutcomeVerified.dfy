/** What deriving, recording and verifying an outcome guarantee together. */
module OutcomeVerified {
  import opened Prelude
  import opened Sequences
  import opened Outcome
  import opened OutcomeFlow

  /* ---------- the frame: what recording an outcome leaves alone ---------- */

  ghost predicate MilestonesKept(a: map<Id, Milestone>, b: map<Id, Milestone>) {
    && a.Keys == b.Keys
    && forall k :: k in a ==> CharterOf(b[k]) == CharterOf(a[k]) && (b[k].outcomePacketId.None? ==> b[k] == a[k])
  }

  ghost predicate ProgramsKept(a: map<Id, Program>, b: map<Id, Program>) {
    a.Keys == b.Keys && forall k :: k in a ==> b[k].id == a[k].id && b[k].intentDigest == a[k].intentDigest
  }

  ghost predicate GenerationsKept(a: seq<Generation>, b: seq<Generation>) {
    |a| == |b| && forall i :: 0 <= i < |a| ==> LaunchOf(b[i]) == LaunchOf(a[i])
  }

  /** Admissions and leases keep their identity and only ever stop being active. */
  ghost predicate HoldsKept(s: State, t: State) {
    && |s.admissions| == |t.admissions| && |s.leases| == |t.leases|
    && (forall i :: 0 <= i < |s.admissions| ==> AdmissionKept(s.admissions[i], t.admissions[i]))
    && (forall i :: 0 <= i < |s.leases| ==> LeaseKept(s.leases[i], t.leases[i]))
  }

  ghost predicate AdmissionKept(a: StoredAdmission, b: StoredAdmission) {
    && b.admission.id == a.admission.id && b.admission.generationId == a.admission.generationId && b.admission.programId == a.admission.programId
    && (b.status == a.status || b.status == Released)
  }

  ghost predicate LeaseKept(a: StoredLease, b: StoredLease) {
    && b.lease.id == a.lease.id && b.lease.admissionId == a.lease.admissionId && b.lease.fencingToken == a.lease.fencingToken
    && (b.status == a.status || b.status == Released)
  }

  ghost predicate Framed(s: State, t: State) {
    && t.evidence == s.evidence && MilestonesKept(s.milestones, t.milestones) && ProgramsKept(s.programs, t.programs)
    && GenerationsKept(s.generations, t.generations) && HoldsKept(s, t)
  }

  ghost predicate Keyed(s: State) {
    forall k :: k in s.milestones ==> s.milestones[k].id == k
  }

  /** No packet but the given one was written. */
  ghost predicate OnlyPacket(s: State, t: State, only: PacketId) {
    forall id :: id != only ==> (id in s.packets <==> id in t.packets) && (id in s.packets ==> t.packets[id] == s.packets[id])
  }

  ghost predicate Later(s: State, t: State, only: PacketId) {
    Framed(s, t) && Keyed(t) && OnlyPacket(s, t, only)
  }

  lemma LaterTransitive(s: State, t: State, u: State, only: PacketId)
    requires Later(s, t, only) && Later(t, u, only)
    ensures Later(s, u, only)
  {
    FramedTransitive(s, t, u);
  }

  lemma FramedTransitive(s: State, t: State, u: State)
    requires Framed(s, t) && Framed(t, u)
    ensures Framed(s, u)
  {
    forall i | 0 <= i < |s.admissions| ensures AdmissionKept(s.admissions[i], u.admissions[i]) {
      assert AdmissionKept(s.admissions[i], t.admissions[i]) && AdmissionKept(t.admissions[i], u.admissions[i]);
    }
    forall i | 0 <= i < |s.leases| ensures LeaseKept(s.leases[i], u.leases[i]) {
      assert LeaseKept(s.leases[i], t.leases[i]) && LeaseKept(t.leases[i], u.leases[i]);
    }
  }

  lemma {:induction false} GenerationOfKept(a: seq<Generation>, b: seq<Generation>, runId: Id)
    requires GenerationsKept(a, b)
    ensures GenerationOf(a, runId).Some? <==> GenerationOf(b, runId).Some?
    ensures GenerationOf(a, runId).Some? ==> LaunchOf(GenerationOf(b, runId).value) == LaunchOf(GenerationOf(a, runId).value)
  {
    if a != [] {
      assert LaunchOf(b[0]) == LaunchOf(a[0]);
      GenerationOfKept(a[1..], b[1..], runId);
    }
  }

  /** Packets are built from what the frame keeps. */
  lemma BuildKept(s: State, t: State, milestoneId: Id, runId: Id)
    requires Framed(s, t)
    ensures Build(t, milestoneId, runId) == Build(s, milestoneId, runId)
  {
    GenerationOfKept(s.generations, t.generations, runId);
  }

  /* ---------- single events ---------- */

  lemma PacketStep(s: State, packet: Packet)
    requires Keyed(s)
    ensures var t := Evolve(s, PacketRecorded(packet, PacketHash(packet)));
            t.Success? && Later(s, t.value, packet.id) && packet.id in t.value.packets
            && t.value.packets[packet.id] == StoredPacket(packet.id, packet.milestoneId, packet.runId, packet, PacketHash(packet))
  {
  }

  lemma MilestoneStep(s: State, milestoneId: Id, packetId: PacketId, recommendation: Recommendation)
    requires Keyed(s) && milestoneId in s.milestones
    ensures var t := Evolve(s, MilestoneReady(milestoneId, packetId, recommendation));
            t.Success? && Later(s, t.value, packetId) && t.value.packets == s.packets && t.value.milestones[milestoneId].outcomePacketId.Some?
  {
  }

  lemma GenerationStep(s: State, generationId: Id, packetId: PacketId, recommendation: Recommendation)
    requires Keyed(s) && HasGeneration(s.generations, generationId)
    ensures var t := Evolve(s, GenerationReady(generationId, packetId, recommendation));
            t.Success? && Later(s, t.value, packetId) && t.value.packets == s.packets && t.value.milestones == s.milestones
  {
  }

  /** Every lease and the admission named are released, and nothing else changes. */
  lemma ReleaseStep(s: State, admissionId: Id, token: Token, reason: RunStatus, at: Time, leaseIds: seq<Id>, only: PacketId)
    requires Keyed(s) && HasAdmission(s.admissions, admissionId) && forall i :: 0 <= i < |leaseIds| ==> HasLease(s.leases, leaseIds[i])
    ensures var t := Evolve(s, AdmissionReleased(admissionId, token, reason, at, leaseIds));
            && t.Success? && Later(s, t.value, only) && t.value.packets == s.packets && t.value.milestones == s.milestones
            && (forall i :: 0 <= i < |t.value.admissions| && t.value.admissions[i].admission.id == admissionId ==> t.value.admissions[i].status == Released)
            && (forall i :: 0 <= i < |t.value.leases| && t.value.leases[i].lease.id in leaseIds ==> t.value.leases[i].status == Released)
  {
  }

  /* ---------- the events of one run ---------- */

  lemma One(s: State, e: Event, rest: seq<Event>)
    requires Evolve(s, e).Success?
    ensures EvolveAll(s, [e] + rest) == EvolveAll(Evolve(s, e).value, rest)
  {
    assert ([e] + rest)[1..] == rest;
  }

  lemma Nothing(s: State, only: PacketId)
    requires Keyed(s)
    ensures EvolveAll(s, []) == Success(s) && Later(s, s, only)
  {
  }

  /** The packet is stored and its milestone no longer waits. */
  ghost predicate Recorded(t: State, packet: Packet) {
    && packet.id in t.packets && t.packets[packet.id] == StoredPacket(packet.id, packet.milestoneId, packet.runId, packet, PacketHash(packet))
    && packet.milestoneId in t.milestones && t.milestones[packet.milestoneId].outcomePacketId.Some?
  }

  /** The admission is released and none of its leases is active. */
  ghost predicate Freed(t: State, admissionId: Id) {
    && (forall i :: 0 <= i < |t.admissions| && t.admissions[i].admission.id == admissionId ==> t.admissions[i].status == Released)
    && (forall i :: 0 <= i < |t.leases| && t.leases[i].lease.admissionId == admissionId ==> t.leases[i].status != Active)
  }

  /** The condition under which the outcome of a generation frees its admission. */
  ghost predicate Releasable(s: State, generationId: Id) {
    var admission := FirstActive(s.admissions, generationId);
    && admission.Some?
    && var leases := ActiveLeases(s.leases, admission.value.admission.id);
    leases != [] && ShareToken(leases, leases[0].lease.fencingToken)
  }

  ghost predicate FreedFor(s: State, t: State, generationId: Id) {
    Releasable(s, generationId) ==> Freed(t, FirstActive(s.admissions, generationId).value.admission.id)
  }

  lemma HeldIdsKept(s: State, t: State, admissionId: Id)
    requires HoldsKept(s, t)
    ensures HasAdmission(s.admissions, admissionId) ==> HasAdmission(t.admissions, admissionId)
    ensures forall id :: HasLease(s.leases, id) ==> HasLease(t.leases, id)
  {
    if HasAdmission(s.admissions, admissionId) {
      var i :| 0 <= i < |s.admissions| && s.admissions[i].admission.id == admissionId;
      assert AdmissionKept(s.admissions[i], t.admissions[i]);
    }
    forall id | HasLease(s.leases, id) ensures HasLease(t.leases, id) {
      var i :| 0 <= i < |s.leases| && s.leases[i].lease.id == id;
      assert LeaseKept(s.leases[i], t.leases[i]);
    }
  }

  lemma LeaseIdsKnown(xs: seq<StoredLease>, admissionId: Id)
    ensures forall i :: 0 <= i < |LeaseIds(ActiveLeases(xs, admissionId))| ==> HasLease(xs, LeaseIds(ActiveLeases(xs, admissionId))[i])
  {
    var leases := ActiveLeases(xs, admissionId);
    forall i | 0 <= i < |leases| ensures HasLease(xs, LeaseIds(leases)[i]) {
      assert leases[i] in leases;
      assert leases[i] in xs;
    }
  }

  lemma ActiveIsListed(xs: seq<StoredLease>, i: int, admissionId: Id)
    requires 0 <= i < |xs| && xs[i].status == Active && xs[i].lease.admissionId == admissionId
    ensures xs[i].lease.id in LeaseIds(ActiveLeases(xs, admissionId))
  {
    var leases := ActiveLeases(xs, admissionId);
    assert xs[i] in leases;
    var j :| 0 <= j < |leases| && leases[j] == xs[i];
    assert LeaseIds(leases)[j] == xs[i].lease.id;
  }

  /** A lease still active after the release was active before it, so it was among those released. */
  lemma NoActiveLeft(s: State, t: State, u: State, admissionId: Id)
    requires HoldsKept(s, t) && HoldsKept(t, u)
    requires forall i :: 0 <= i < |u.leases| && u.leases[i].lease.id in LeaseIds(ActiveLeases(s.leases, admissionId)) ==> u.leases[i].status == Released
    ensures forall i :: 0 <= i < |u.leases| && u.leases[i].lease.admissionId == admissionId ==> u.leases[i].status != Active
  {
    forall i | 0 <= i < |u.leases| && u.leases[i].lease.admissionId == admissionId ensures u.leases[i].status != Active {
      assert LeaseKept(s.leases[i], t.leases[i]) && LeaseKept(t.leases[i], u.leases[i]);
      if s.leases[i].status == Active { ActiveIsListed(s.leases, i, admissionId); }
    }
  }

  lemma ReleaseApplies(s: State, t: State, generationId: Id, run: Run, only: PacketId)
    requires Framed(s, t) && Keyed(t)
    ensures var u := EvolveAll(t, ReleaseFor(s, generationId, run));
            && u.Success? && Later(t, u.value, only) && u.value.packets == t.packets && u.value.milestones == t.milestones
            && FreedFor(s, u.value, generationId)
  {
    var events := ReleaseFor(s, generationId, run);
    if events == [] {
      Nothing(t, only);
    } else {
      var a := FirstActive(s.admissions, generationId).value.admission.id;
      var e := events[0];
      assert HasAdmission(s.admissions, a);
      HeldIdsKept(s, t, a);
      LeaseIdsKnown(s.leases, a);
      ReleaseStep(t, a, e.fencingToken, e.reason, e.at, e.leaseIds, only);
      var u := Evolve(t, e).value;
      One(t, e, []);
      assert events == [e] + [];
      NoActiveLeft(s, t, u, a);
    }
  }

  lemma PacketAndMilestone(t: State, packet: Packet)
    requires Keyed(t) && packet.milestoneId in t.milestones
    ensures var events := [PacketRecorded(packet, PacketHash(packet)), MilestoneReady(packet.milestoneId, packet.id, packet.recommendation)];
            var u := EvolveAll(t, events);
            u.Success? && Later(t, u.value, packet.id) && Recorded(u.value, packet)
  {
    var first, second := PacketRecorded(packet, PacketHash(packet)), MilestoneReady(packet.milestoneId, packet.id, packet.recommendation);
    PacketStep(t, packet);
    var mid := Evolve(t, first).value;
    MilestoneStep(mid, packet.milestoneId, packet.id, packet.recommendation);
    One(t, first, [second]);
    One(mid, second, []);
    assert [first, second] == [first] + [second] && [second] == [second] + [];
    LaterTransitive(t, mid, Evolve(mid, second).value, packet.id);
  }

  lemma RecordedStays(t: State, u: State, packet: Packet)
    requires Recorded(t, packet) && Framed(t, u) && u.packets == t.packets
    ensures Recorded(u, packet)
  {
  }

  lemma GenerationAndRelease(s: State, t: State, run: Run, packet: Packet)
    requires Framed(s, t) && Keyed(t) && packet.extension.V2? && HasGeneration(t.generations, packet.extension.generationId) && Recorded(t, packet)
    ensures var g := packet.extension.generationId;
            var u := EvolveAll(t, [GenerationReady(g, packet.id, packet.recommendation)] + ReleaseFor(s, g, run));
            u.Success? && Later(t, u.value, packet.id) && Recorded(u.value, packet) && FreedFor(s, u.value, g)
  {
    var g := packet.extension.generationId;
    var e := GenerationReady(g, packet.id, packet.recommendation);
    GenerationStep(t, g, packet.id, packet.recommendation);
    var mid := Evolve(t, e).value;
    FramedTransitive(s, t, mid);
    One(t, e, ReleaseFor(s, g, run));
    ReleaseApplies(s, mid, g, run, packet.id);
    var u := EvolveAll(mid, ReleaseFor(s, g, run)).value;
    LaterTransitive(t, mid, u, packet.id);
    RecordedStays(t, mid, packet);
    RecordedStays(mid, u, packet);
  }

  /** All the events of one run fold without a throw, whatever other runs were folded before. */
  lemma EventsApply(s: State, t: State, run: Run, packet: Packet)
    requires Framed(s, t) && Keyed(t) && packet.milestoneId in t.milestones
    requires packet.extension.V2? ==> HasGeneration(t.generations, packet.extension.generationId)
    ensures var u := EvolveAll(t, EventsOf(s, run, packet));
            && u.Success? && Later(t, u.value, packet.id) && Recorded(u.value, packet)
            && (packet.extension.V2? ==> FreedFor(s, u.value, packet.extension.generationId))
  {
    var first := [PacketRecorded(packet, PacketHash(packet)), MilestoneReady(packet.milestoneId, packet.id, packet.recommendation)];
    PacketAndMilestone(t, packet);
    var mid := EvolveAll(t, first).value;
    if packet.extension.NoExtension? {
      assert EventsOf(s, run, packet) == first;
    } else {
      var g := packet.extension.generationId;
      var second := [GenerationReady(g, packet.id, packet.recommendation)] + ReleaseFor(s, g, run);
      FramedTransitive(s, t, mid);
      GenerationsStay(t, mid, g);
      GenerationAndRelease(s, mid, run, packet);
      EvolveConcat(t, first, second);
      LaterTransitive(t, mid, EvolveAll(mid, second).value, packet.id);
      assert EventsOf(s, run, packet) == first + second;
    }
  }

  lemma GenerationsStay(s: State, t: State, id: Id)
    requires GenerationsKept(s.generations, t.generations) && HasGeneration(s.generations, id)
    ensures HasGeneration(t.generations, id)
  {
    var i :| 0 <= i < |s.generations| && s.generations[i].id == id;
    assert LaunchOf(t.generations[i]) == LaunchOf(s.generations[i]);
  }

  lemma {:induction false} GenerationOfHas(gs: seq<Generation>, runId: Id)
    requires GenerationOf(gs, runId).Some?
    ensures HasGeneration(gs, GenerationOf(gs, runId).value.id)
  {
    if gs[0].runId != runId {
      GenerationOfHas(gs[1..], runId);
      var i :| 0 <= i < |gs[1..]| && gs[1..][i].id == GenerationOf(gs[1..], runId).value.id;
      assert gs[i + 1].id == GenerationOf(gs, runId).value.id;
    }
  }

  /** A built packet names the milestone it was built for and, if it has one, an existing generation. */
  lemma BuiltNames(s: State, milestoneId: Id, runId: Id)
    requires Keyed(s) && Build(s, milestoneId, runId).Success?
    ensures var packet := Build(s, milestoneId, runId).value;
            && packet.milestoneId == milestoneId && milestoneId in s.milestones && packet.id == PacketId(milestoneId, runId) && packet.runId == runId
            && (packet.extension.V2? ==> GenerationOf(s.generations, runId).Some?
                                         && packet.extension.generationId == GenerationOf(s.generations, runId).value.id
                                         && HasGeneration(s.generations, packet.extension.generationId))
  {
    if GenerationOf(s.generations, runId).Some? { GenerationOfHas(s.generations, runId); }
  }

  /* ---------- all runs of one pass ---------- */

  /** What a run for which events were derived leaves behind. */
  ghost predicate Concluded(s: State, u: State, runId: Id) {
    EventsFor(s, runId).Success? && EventsFor(s, runId).value != [] ==>
      && Awaits(s, runId)
      && var packet := Build(s, s.milestones[s.evidence.runs[runId].milestoneId.value].id, runId);
      && packet.Success? && Recorded(u, packet.value)
      && (packet.value.extension.V2? ==> FreedFor(s, u, packet.value.extension.generationId))
  }

  ghost predicate OldPacketsKept(s: State, t: State) {
    forall id :: id in s.packets ==> id in t.packets && t.packets[id] == s.packets[id]
  }

  /** Packets of runs outside the pass are untouched. */
  ghost predicate OtherRunsKept(t: State, u: State, runs: seq<Id>) {
    forall id: PacketId :: id.runId !in runs ==> (id in t.packets <==> id in u.packets) && (id in t.packets ==> u.packets[id] == t.packets[id])
  }

  lemma RunApplies(s: State, t: State, runId: Id)
    requires Keyed(s) && Framed(s, t) && Keyed(t) && OldPacketsKept(s, t) && EventsFor(s, runId).Success?
    ensures var u := EvolveAll(t, EventsFor(s, runId).value);
            && u.Success? && Framed(t, u.value) && Keyed(u.value) && OldPacketsKept(s, u.value) && OtherRunsKept(t, u.value, [runId])
            && Concluded(s, u.value, runId)
  {
    var events := EventsFor(s, runId).value;
    if events == [] {
      Nothing(t, PacketId(0, runId));
    } else {
      var run := s.evidence.runs[runId];
      var milestoneId := s.milestones[run.milestoneId.value].id;
      BuiltNames(s, milestoneId, runId);
      var packet := Build(s, milestoneId, runId).value;
      if packet.extension.V2? { GenerationsStay(s, t, packet.extension.generationId); }
      EventsApply(s, t, run, packet);
    }
  }

  lemma FreedStays(t: State, u: State, admissionId: Id)
    requires Freed(t, admissionId) && HoldsKept(t, u)
    ensures Freed(u, admissionId)
  {
    forall i | 0 <= i < |u.admissions| && u.admissions[i].admission.id == admissionId ensures u.admissions[i].status == Released {
      assert AdmissionKept(t.admissions[i], u.admissions[i]);
    }
    forall i | 0 <= i < |u.leases| && u.leases[i].lease.admissionId == admissionId ensures u.leases[i].status != Active {
      assert LeaseKept(t.leases[i], u.leases[i]);
    }
  }

  lemma ConcludedStays(s: State, t: State, u: State, runId: Id, runs: seq<Id>)
    requires Keyed(s) && Concluded(s, t, runId) && Framed(t, u) && OtherRunsKept(t, u, runs) && runId !in runs
    ensures Concluded(s, u, runId)
  {
    if EventsFor(s, runId).Success? && EventsFor(s, runId).value != [] {
      var milestoneId := s.milestones[s.evidence.runs[runId].milestoneId.value].id;
      BuiltNames(s, milestoneId, runId);
      var packet := Build(s, milestoneId, runId).value;
      if packet.extension.V2? && Releasable(s, packet.extension.generationId) {
        FreedStays(t, u, FirstActive(s.admissions, packet.extension.generationId).value.admission.id);
      }
    }
  }

  ghost predicate AllConcluded(s: State, u: State, runs: seq<Id>) {
    forall i :: 0 <= i < |runs| ==> Concluded(s, u, runs[i])
  }

  ghost predicate PassLeaves(s: State, t: State, u: State, runs: seq<Id>) {
    Framed(t, u) && Keyed(u) && OldPacketsKept(s, u) && OtherRunsKept(t, u, runs) && AllConcluded(s, u, runs)
  }

  lemma PassStep(s: State, t: State, mid: State, u: State, runs: seq<Id>)
    requires runs != [] && Distinct(runs) && Keyed(s)
    requires Framed(t, mid) && OtherRunsKept(t, mid, [runs[0]]) && Concluded(s, mid, runs[0])
    requires PassLeaves(s, mid, u, runs[1..])
    ensures PassLeaves(s, t, u, runs)
  {
    FramedTransitive(t, mid, u);
    assert runs[0] !in runs[1..];
    ConcludedStays(s, mid, u, runs[0], runs[1..]);
    forall i | 0 <= i < |runs| ensures Concluded(s, u, runs[i]) {
      if i > 0 { assert runs[1..][i - 1] == runs[i]; }
    }
    forall id: PacketId | id.runId !in runs ensures (id in t.packets <==> id in u.packets) && (id in t.packets ==> u.packets[id] == t.packets[id]) {
      assert id.runId != runs[0] && id.runId !in runs[1..];
      assert id.runId !in [runs[0]];
    }
  }

  /** The whole pass folds without a throw. */
  lemma {:induction false} PassApplies(s: State, t: State, runs: seq<Id>)
    requires Keyed(s) && Framed(s, t) && Keyed(t) && OldPacketsKept(s, t) && Distinct(runs) && Derive(s, runs).Success?
    ensures var u := EvolveAll(t, Derive(s, runs).value); u.Success? && PassLeaves(s, t, u.value, runs)
    decreases |runs|
  {
    if runs == [] {
      Nothing(t, PacketId(0, 0));
    } else {
      var first, rest := EventsFor(s, runs[0]).value, Derive(s, runs[1..]).value;
      RunApplies(s, t, runs[0]);
      var mid := EvolveAll(t, first).value;
      FramedTransitive(s, t, mid);
      PassApplies(s, mid, runs[1..]);
      EvolveConcat(t, first, rest);
      PassStep(s, t, mid, EvolveAll(mid, rest).value, runs);
    }
  }
}
