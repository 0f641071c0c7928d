/** A run in which a resolution id is reused: a pending audit is selected anew, and a resolution passes its first due date. */
module AdvisorRearmed {
  import opened Prelude
  import opened AdvisorTypes
  import opened AdvisorEvolve
  import opened AdvisorEvaluation
  import opened AdvisorDecide
  import opened AdvisorKernel
  import opened AdvisorSample
  import opened AdvisorPromoted
  import opened AdvisorAuthority

  /* ---------- three routine packets ---------- */

  function PacketAt(j: nat): Id {
    Given(ALL + j)
  }

  function RoutineOption(): PacketOption {
    PacketOption(Opt(), ApproveRecord("text"))
  }

  function BundleAt(j: nat): Bundle {
    BundleV1(PacketAt(j), [])
  }

  function BundleRefAt(j: nat): Ref {
    Ref(BundleKind, PacketAt(j), Hash(OfBundle(BundleAt(j))))
  }

  function RevisionAt(j: nat): Revision {
    V1(PacketAt(j), PacketAt(j), 0, "sample", Low, Routine, Reversible, [RoutineOption()], BundleRefAt(j), None, [])
  }

  function DigestAt(j: nat): Digest {
    Hash(OfRevision(RevisionAt(j)))
  }

  ghost predicate Ready(h: Host, j: nat) {
    && PacketAt(j) in h.packets && h.packets[PacketAt(j)] == Packet(PacketAt(j), PacketAt(j), DigestAt(j), PacketOpen)
    && PacketAt(j) in h.revisions && h.revisions[PacketAt(j)] == StoredRevision(RevisionAt(j), DigestAt(j))
    && PacketAt(j) in h.bundles && h.bundles[PacketAt(j)] == StoredBundle(BundleAt(j), Hash(OfBundle(BundleAt(j))))
  }

  function WithPacket(h: Host, j: nat): Host {
    h.(packets := h.packets[PacketAt(j) := Packet(PacketAt(j), PacketAt(j), DigestAt(j), PacketOpen)],
       revisions := h.revisions[PacketAt(j) := StoredRevision(RevisionAt(j), DigestAt(j))],
       bundles := h.bundles[PacketAt(j) := StoredBundle(BundleAt(j), Hash(OfBundle(BundleAt(j))))])
  }

  lemma PacketsReady(h: Host)
    ensures forall j: nat :: j < 3 ==> Ready(WithPacket(WithPacket(WithPacket(h, 0), 1), 2), j)
  {
  }

  ghost function InputAt(j: nat, now: Time): CaseInput {
    CaseInput(Ref(RevisionKind, PacketAt(j), DigestAt(j)), 0, "sample", Low, Routine, Reversible, true, [CompiledOption(RoutineOption())],
              [], [], [BundleRefAt(j)], now)
  }

  lemma InputIs(s: State, j: nat, now: Time)
    requires Ready(s.host, j)
    ensures CompileInput(s, PacketAt(j), PacketAt(j), DigestAt(j), now) == Success(InputAt(j, now))
  {
    var revision := RevisionAt(j);
    assert [BundleRefAt(j)] + BundleAt(j).refs == [BundleRefAt(j)];
    assert UniqueAndExact(s, [BundleRefAt(j)]) && UniqueAndExact(s, []);
    assert seq(|revision.options|, i requires 0 <= i < |revision.options| => CompiledOption(revision.options[i])) == [CompiledOption(RoutineOption())];
  }

  /* ---------- their recommendations ---------- */

  ghost function QuestionAt(j: nat): Question {
    Question(PacketAt(j), InputAt(j, 0), ForPromoted, None)
  }

  ghost predicate Advised(s: State, j: nat) {
    && PacketAt(j) in s.records.recommendations
    && s.records.recommendations[PacketAt(j)] == StoredRecommendation(Reply(QuestionAt(j)), Hash(OfRecommendation(Reply(QuestionAt(j)))))
  }

  lemma QuestionAccepted(s: State, j: nat)
    requires Ready(s.host, j) && PacketAt(j) !in s.records.invocations && Given(0) in s.records.subjects && s.records.subjects[Given(0)] == TheStoredSubject()
    ensures DecideQueueForPacket(s, System, PacketAt(j), Given(0), ForPromoted, PacketAt(j), PacketAt(j), DigestAt(j), 0)
            == Accepted([InvocationQueued(Asked(QuestionAt(j)), Hash(OfInvocation(Asked(QuestionAt(j)))))])
    ensures Answerable(s, QuestionAt(j))
  {
    InputIs(s, j, 0);
  }

  lemma PacketDispatch(s: State, actor: Actor, c: Command, now: Time)
    requires c.QueueForPacket?
    ensures Decide(s, actor, c, now)
            == DecideQueueForPacket(s, actor, c.invocationId, c.subjectId, c.purpose, c.packetId, c.revisionId, c.revisionDigest, now)
  {
  }

  lemma ReachPacketQueued(steps: seq<AdvisorKernel.Step>, s: State, c: Command, q: Question) returns (more: seq<AdvisorKernel.Step>)
    requires Reaches(steps, s) && c.QueueForPacket?
    requires DecideQueueForPacket(s, System, c.invocationId, c.subjectId, c.purpose, c.packetId, c.revisionId, c.revisionDigest, 0)
             == Accepted([InvocationQueued(Asked(q), Hash(OfInvocation(Asked(q))))])
    ensures Reaches(more, AskedState(s, q))
  {
    PacketDispatch(s, System, c, 0);
    more := ReachAsked(steps, s, q, c);
  }

  lemma ReachAdvice(steps: seq<AdvisorKernel.Step>, s: State, j: nat) returns (more: seq<AdvisorKernel.Step>)
    requires Reaches(steps, s)
    requires Ready(s.host, j) && PacketAt(j) !in s.records.invocations && Given(0) in s.records.subjects && s.records.subjects[Given(0)] == TheStoredSubject()
    ensures Reaches(more, AnsweredState(s, QuestionAt(j)))
  {
    QuestionAccepted(s, j);
    more := ReachPacketQueued(steps, s, QueueForPacket(PacketAt(j), Given(0), ForPromoted, PacketAt(j), PacketAt(j), DigestAt(j)), QuestionAt(j));
    more := ReachLease(more, s, QuestionAt(j));
    more := ReachAnswer(more, s, QuestionAt(j));
  }

  /** The policy has authority, the three packets are open, and the first `n` have a recommendation. */
  ghost predicate Poised(s: State, r: Report, n: nat) {
    && Trusted(s, r, 0) && s.auth.audits == map[] && (forall j: nat :: j < 3 ==> Ready(s.host, j))
    && (forall j: nat :: j < n ==> Advised(s, j)) && (forall j: nat :: j >= n ==> PacketAt(j) !in s.records.invocations)
  }

  lemma AdviceKeeps(s: State, r: Report, n: nat)
    requires Poised(s, r, n)
    ensures Poised(AnsweredState(s, QuestionAt(n)), r, n + 1)
  {
    var t := AnsweredState(s, QuestionAt(n));
    forall j: nat | j < n + 1 ensures Advised(t, j) {
      if j < n { assert Advised(s, j); }
    }
    assert NothingNewer(t.records, r.throughPosition);
  }

  lemma ReachElsewhere(steps: seq<AdvisorKernel.Step>, s: State, h: Host)
    requires Reaches(steps, s)
    ensures Reaches(steps + [Elsewhere(h, 0)], s.(host := h))
  {
    assert (steps + [Elsewhere(h, 0)])[..|steps|] == steps;
  }

  lemma ReachPackets() returns (steps: seq<AdvisorKernel.Step>, s: State, r: Report)
    ensures Reaches(steps, s) && Poised(s, r, 0)
  {
    var before, prior, report := AuthorityIsAttainable();
    var up := WithPacket(WithPacket(WithPacket(prior.host, 0), 1), 2);
    r := report;
    PacketsReady(prior.host);
    ReachElsewhere(before, prior, up);
    steps, s := before + [Elsewhere(up, 0)], prior.(host := up);
  }

  lemma CanAsk(s: State, r: Report, n: nat)
    requires Poised(s, r, n) && n < 3
    ensures Ready(s.host, n) && PacketAt(n) !in s.records.invocations && Given(0) in s.records.subjects && s.records.subjects[Given(0)] == TheStoredSubject()
  {
  }

  lemma ReachOneMore(before: seq<AdvisorKernel.Step>, prior: State, r: Report, n: nat) returns (steps: seq<AdvisorKernel.Step>, s: State)
    requires Reaches(before, prior) && Poised(prior, r, n) && n < 3
    ensures Reaches(steps, s) && Poised(s, r, n + 1)
  {
    CanAsk(prior, r, n);
    steps := ReachAdvice(before, prior, n);
    s := AnsweredState(prior, QuestionAt(n));
    AdviceKeeps(prior, r, n);
  }

  lemma {:induction false} ReachPoised(n: nat) returns (steps: seq<AdvisorKernel.Step>, s: State, r: Report)
    requires n <= 3
    ensures Reaches(steps, s) && Poised(s, r, n)
  {
    if n == 0 {
      steps, s, r := ReachPackets();
    } else {
      steps, s, r := ReachPoised(n - 1);
      steps, s := ReachOneMore(steps, s, r, n - 1);
    }
  }

  /* ---------- one resolution ---------- */

  function ResolveAt(j: nat, id: Id): Command {
    Resolve(id, PacketAt(j), Given(0), PacketAt(j), PacketAt(j), DigestAt(j), Opt(), Hash(OfTarget(RoutineOption().action)), 0.0)
  }

  function PolicyNow(count: nat): StoredPolicy {
    TheStoredPolicy().(status := Active, promotionId := Some(Given(0)), resolutionCount := count)
  }

  ghost predicate NoneOverdue(a: Auth, now: Time) {
    forall k :: k in a.audits ==> !Overdue(a.audits[k], Given(0), now)
  }

  /** The packet can be resolved under the policy now. */
  ghost predicate Resolvable(s: State, r: Report, count: nat, j: nat, now: Time) {
    Trusted(s, r, count) && Ready(s.host, j) && Advised(s, j) && NoneOverdue(s.auth, now) && count < ALWAYS_AUDITED && 0 <= now < 30 * DAY_MS
  }

  lemma NoLoss(s: State, r: Report, count: nat, j: nat, now: Time, recommendationRef: Ref)
    requires Resolvable(s, r, count, j, now)
    ensures LossOf(s, PolicyNow(count), recommendationRef, now).None?
  {
    PolicyIsHealthy(s, PolicyNow(count), r);
  }

  lemma OnlyMatch(j: nat, now: Time)
    ensures MatcherAccepts(TheMatcher(), InputAt(j, now), Opt()) && MatchesOnly(TheMatcher(), InputAt(j, now))
  {
    var input := InputAt(j, now);
    assert MatcherAccepts(TheMatcher(), input, Opt());
    AdvisorMerit.KeepAll(input.options, (o: CaseOption) => MatcherAccepts(TheMatcher(), input, o.optionId));
  }

  lemma OptionChosen(s: State, count: nat, j: nat, id: Id, now: Time)
    requires Ready(s.host, j)
    ensures ChosenOption(s, ResolveAt(j, id), Reply(QuestionAt(j)), PolicyNow(count), now) == Success(RoutineOption())
  {
    InputIs(s, j, now);
    OnlyMatch(j, now);
  }

  ghost function ResolutionAt(s: State, count: nat, j: nat, id: Id, now: Time): (x: Resolution)
    requires Ready(s.host, j) && Given(0) in s.auth.promotions
    ensures x.resolutionId == id && x.policyRef == PolicyRefOf()
  {
    ResolutionOf(s, ResolveAt(j, id), PolicyNow(count), Ref(RecommendationKind, PacketAt(j), Hash(OfRecommendation(Reply(QuestionAt(j))))), RoutineOption(), now)
  }

  /** What the resolution writes after the records of the decided packet. */
  ghost function Closing(x: Resolution, count: nat, now: Time): seq<Event> {
    [ResolutionRecorded(x, Hash(OfResolution(x))), SelectedAudit(x, PolicyNow(count), now)]
  }

  lemma ResolvesFresh(s: State, r: Report, count: nat, j: nat, id: Id, now: Time)
    requires Resolvable(s, r, count, j, now)
    ensures var reference := Ref(RecommendationKind, PacketAt(j), Hash(OfRecommendation(Reply(QuestionAt(j)))));
            DecideResolve(s, System, ResolveAt(j, id), now) == DecideFreshResolve(s, ResolveAt(j, id), Reply(QuestionAt(j)), PolicyNow(count), reference, now)
  {
    NoLoss(s, r, count, j, now, Ref(RecommendationKind, PacketAt(j), Hash(OfRecommendation(Reply(QuestionAt(j))))));
  }

  lemma FreshAccepted(s: State, count: nat, j: nat, id: Id, now: Time)
    requires Ready(s.host, j) && Given(0) in s.auth.promotions && count < ALWAYS_AUDITED
    ensures var reference := Ref(RecommendationKind, PacketAt(j), Hash(OfRecommendation(Reply(QuestionAt(j)))));
            DecideFreshResolve(s, ResolveAt(j, id), Reply(QuestionAt(j)), PolicyNow(count), reference, now)
            == Accepted(Decided(PacketAt(j), PacketAt(j), Opt(), PolicyRefOf(), now) + Closing(ResolutionAt(s, count, j, id, now), count, now))
  {
    OptionChosen(s, count, j, id, now);
    var x := ResolutionAt(s, count, j, id, now);
    assert ResolutionEvents(x, PolicyNow(count), now) == Closing(x, count, now);
    assert ActionEvents(s, PacketAt(j), RoutineOption(), PolicyNow(count), now) == Decided(PacketAt(j), PacketAt(j), Opt(), PolicyRefOf(), now);
  }

  lemma ResolveAccepted(s: State, r: Report, count: nat, j: nat, id: Id, now: Time)
    requires Resolvable(s, r, count, j, now)
    ensures DecideResolve(s, System, ResolveAt(j, id), now)
            == Accepted(Decided(PacketAt(j), PacketAt(j), Opt(), PolicyRefOf(), now) + Closing(ResolutionAt(s, count, j, id, now), count, now))
  {
    ResolvesFresh(s, r, count, j, id, now);
    FreshAccepted(s, count, j, id, now);
  }

  lemma {:induction false} FoldConcat(s: State, first: seq<Event>, t: State, second: seq<Event>, at: Time)
    requires EvolveAll(s, first, at) == Success(t)
    ensures EvolveAll(s, first + second, at) == EvolveAll(t, second, at)
    decreases |first|
  {
    if first == [] {
      assert first + second == second;
    } else {
      assert (first + second)[1..] == first[1..] + second;
      FoldConcat(Evolve(s, first[0], at).value, first[1..], t, second, at);
    }
  }

  ghost function AuditAt(x: Resolution, count: nat, now: Time): (a: Audit)
    ensures a.auditId == AuditIdFor(x.resolutionId) && a.dueAt == now + 7 * DAY_MS && a.policyRef.id == Given(0)
  {
    SelectedAudit(x, PolicyNow(count), now).audit
  }

  ghost function ResolvedAuth(a: Auth, x: Resolution, count: nat, now: Time): Auth {
    var audit := AuditAt(x, count, now);
    a.(resolutions := a.resolutions[x.resolutionId := StoredResolution(x, Hash(OfResolution(x)))],
       policies := map[Given(0) := PolicyNow(count + 1)], audits := a.audits[audit.auditId := StoredAudit(audit, Hash(OfAudit(audit)))])
  }

  lemma ResolutionFolds(t: State, x: Resolution, count: nat, now: Time)
    requires t.auth.policies == map[Given(0) := PolicyNow(count)] && x.policyRef == PolicyRefOf()
    ensures Evolve(t, ResolutionRecorded(x, Hash(OfResolution(x))), now)
            == Success(t.(auth := ResolvedAuth(t.auth, x, count, now).(audits := t.auth.audits), position := t.position + 1))
  {
    assert t.auth.policies[Given(0) := PolicyNow(count + 1)] == map[Given(0) := PolicyNow(count + 1)];
  }

  lemma ClosingFolds(t: State, x: Resolution, count: nat, now: Time)
    requires t.auth.policies == map[Given(0) := PolicyNow(count)] && x.policyRef == PolicyRefOf()
    ensures EvolveAll(t, Closing(x, count, now), now) == Success(t.(auth := ResolvedAuth(t.auth, x, count, now), position := t.position + 2))
  {
    var u := t.(auth := ResolvedAuth(t.auth, x, count, now).(audits := t.auth.audits), position := t.position + 1);
    ResolutionFolds(t, x, count, now);
    var closing := Closing(x, count, now);
    assert closing == [closing[0]] + [closing[1]] && [closing[1]][1..] == [];
    FoldFirst(t, closing[0], u, [closing[1]], now);
    assert EvolveAll(u, [closing[1]], now) == Evolve(u, closing[1], now);
  }

  ghost function ResolvedState(s: State, count: nat, j: nat, id: Id, now: Time): State
    requires Ready(s.host, j) && Given(0) in s.auth.promotions
  {
    s.(host := DecidedHost(s.host, PacketAt(j), PacketAt(j), Opt(), PolicyRefOf(), now),
       auth := ResolvedAuth(s.auth, ResolutionAt(s, count, j, id, now), count, now), position := s.position + 5)
  }

  lemma ClosedPacketFolds(s: State, p: Id, option: Id, policyRef: Ref, x: Resolution, count: nat, now: Time)
    requires p in s.host.packets && s.auth.policies == map[Given(0) := PolicyNow(count)] && x.policyRef == PolicyRefOf()
    ensures EvolveAll(s, Decided(p, p, option, policyRef, now) + Closing(x, count, now), now)
            == Success(s.(host := DecidedHost(s.host, p, p, option, policyRef, now), auth := ResolvedAuth(s.auth, x, count, now), position := s.position + 5))
  {
    var t := s.(host := DecidedHost(s.host, p, p, option, policyRef, now), position := s.position + 3);
    DecidedFolds(s, p, p, option, policyRef, now);
    FoldConcat(s, Decided(p, p, option, policyRef, now), t, Closing(x, count, now), now);
    ClosingFolds(t, x, count, now);
  }

  lemma ResolvedKeeps(s: State, r: Report, count: nat, j: nat, id: Id, now: Time, other: nat)
    requires Resolvable(s, r, count, j, now) && other != j
    ensures var t := ResolvedState(s, count, j, id, now);
            Trusted(t, r, count + 1) && (Ready(s.host, other) ==> Ready(t.host, other)) && (Advised(s, other) ==> Advised(t, other))
  {
  }

  /* ---------- three resolutions ---------- */

  lemma ResolveDispatch(s: State, actor: Actor, c: Command, now: Time)
    requires c.Resolve?
    ensures Decide(s, actor, c, now) == DecideResolve(s, actor, c, now)
  {
  }

  lemma ResolveCommits(k: Kernel, c: Command, elapsed: nat, now: Time, events: seq<Event>, t: State)
    requires now == k.clock + elapsed && c.Resolve? && DecideResolve(k.state, System, c, now) == Accepted(events) && EvolveAll(k.state, events, now) == Success(t)
    ensures Next(k, Execute(System, c, elapsed)) == Kernel(t, k.log + [Batch(c, now, k.state, events)], now)
  {
    ResolveDispatch(k.state, System, c, now);
    NextCommits(k, System, c, elapsed, now, Some((events, t)));
  }

  /** The batch records the resolution, selects its audit, and completes none. */
  ghost predicate Settles(b: Batch, x: Resolution, audit: Audit, now: Time) {
    b.now == now && RecordsResolution(b.events, x) && Selects(b.events, audit) && forall a :: !CompletesAudit(b.events, a)
  }

  lemma EventsSettle(c: Command, s: State, p: Id, option: Id, policyRef: Ref, x: Resolution, count: nat, now: Time)
    ensures Settles(Batch(c, now, s, Decided(p, p, option, policyRef, now) + Closing(x, count, now)), x, AuditAt(x, count, now), now)
  {
    var decided := Decided(p, p, option, policyRef, now);
    var events := decided + Closing(x, count, now);
    assert |decided| == 3 && events[3] == ResolutionRecorded(x, Hash(OfResolution(x))) && events[4] == SelectedAudit(x, PolicyNow(count), now);
  }

  ghost function EventsAt(s: State, count: nat, j: nat, id: Id, now: Time): seq<Event>
    requires Ready(s.host, j) && Given(0) in s.auth.promotions
  {
    Decided(PacketAt(j), PacketAt(j), Opt(), PolicyRefOf(), now) + Closing(ResolutionAt(s, count, j, id, now), count, now)
  }

  lemma ResolveFolds(s: State, r: Report, count: nat, j: nat, id: Id, now: Time)
    requires Resolvable(s, r, count, j, now)
    ensures EvolveAll(s, EventsAt(s, count, j, id, now), now) == Success(ResolvedState(s, count, j, id, now))
  {
    ClosedPacketFolds(s, PacketAt(j), Opt(), PolicyRefOf(), ResolutionAt(s, count, j, id, now), count, now);
  }

  /** The log records, at the position, a resolution with this id and selects its audit, at this time. */
  ghost predicate Shows(log: seq<Batch>, i: int, id: Id, count: nat, now: Time) {
    0 <= i < |log| && exists x: Resolution :: x.resolutionId == id && x.policyRef.id == Given(0) && Settles(log[i], x, AuditAt(x, count, now), now)
  }

  /** From one kernel to the next by a batch that settles a resolution with this id. */
  ghost predicate Steps(k: Kernel, n: Kernel, id: Id, count: nat, now: Time) {
    n.clock == now && |n.log| == |k.log| + 1 && k.log <= n.log && Shows(n.log, |k.log|, id, count, now)
  }

  lemma EventsShow(k: Kernel, n: Kernel, c: Command, count: nat, j: nat, id: Id, now: Time)
    requires Ready(k.state.host, j) && Given(0) in k.state.auth.promotions
    requires n.log == k.log + [Batch(c, now, k.state, EventsAt(k.state, count, j, id, now))] && n.clock == now
    ensures Steps(k, n, id, count, now)
  {
    var x := ResolutionAt(k.state, count, j, id, now);
    EventsSettle(c, k.state, PacketAt(j), Opt(), PolicyRefOf(), x, count, now);
    assert Settles(n.log[|k.log|], x, AuditAt(x, count, now), now);
  }

  lemma ResolveStep(k: Kernel, r: Report, count: nat, j: nat, id: Id, elapsed: nat, now: Time) returns (n: Kernel)
    requires now == k.clock + elapsed && Resolvable(k.state, r, count, j, now)
    ensures n == Next(k, Execute(System, ResolveAt(j, id), elapsed))
    ensures Steps(k, n, id, count, now) && n.state == ResolvedState(k.state, count, j, id, now)
  {
    ResolveAccepted(k.state, r, count, j, id, now);
    ResolveFolds(k.state, r, count, j, id, now);
    var events, t := EventsAt(k.state, count, j, id, now), ResolvedState(k.state, count, j, id, now);
    ResolveCommits(k, ResolveAt(j, id), elapsed, now, events, t);
    n := Kernel(t, k.log + [Batch(ResolveAt(j, id), now, k.state, events)], now);
    EventsShow(k, n, ResolveAt(j, id), count, j, id, now);
  }

  /** No audit is stored but perhaps the one of this resolution id. */
  ghost predicate OnlyAuditOf(a: Auth, id: Id) {
    forall k :: k in a.audits ==> k == AuditIdFor(id)
  }

  /** Resolving under a reused id leaves one audit, due seven days from now, and the policy free to resolve until then. */
  lemma NextResolvable(s: State, r: Report, count: nat, j: nat, id: Id, now: Time, other: nat, later: Time)
    requires Resolvable(s, r, count, j, now) && OnlyAuditOf(s.auth, id) && count + 1 < ALWAYS_AUDITED
    requires other != j && Ready(s.host, other) && Advised(s, other) && now <= later < now + 7 * DAY_MS && later < 30 * DAY_MS
    ensures Resolvable(ResolvedState(s, count, j, id, now), r, count + 1, other, later)
    ensures OnlyAuditOf(ResolvedState(s, count, j, id, now).auth, id)
  {
    ResolvedKeeps(s, r, count, j, id, now, other);
  }

  const REUSED: Id := Given(0)
  const NEW: Id := Given(1)

  lemma FirstResolvable(s: State, r: Report)
    requires Poised(s, r, 3)
    ensures Resolvable(s, r, 0, 0, 0) && OnlyAuditOf(s.auth, REUSED)
  {
  }

  /** What the log of the run shows. */
  ghost predicate PassesDueDate(log: seq<Batch>, i: int, audit: Audit) {
    ResolvesPastDue(log, i, i + 2, audit) && RearmedBetween(log, i, i + 2, audit.auditId) && !CompletedBetween(log, i, i + 2, audit.auditId)
  }

  /** The second packet can be resolved at day six, and after that the third at day eight. */
  ghost predicate Onward(s: State, r: Report) {
    Resolvable(s, r, 1, 1, 6 * DAY_MS) && Resolvable(ResolvedState(s, 1, 1, REUSED, 6 * DAY_MS), r, 2, 2, 8 * DAY_MS)
  }

  lemma FinaleStates(s: State, r: Report)
    requires Poised(s, r, 3)
    ensures Resolvable(s, r, 0, 0, 0) && Onward(ResolvedState(s, 0, 0, REUSED, 0), r)
  {
    FirstResolvable(s, r);
    NextResolvable(s, r, 0, 0, REUSED, 0, 1, 6 * DAY_MS);
    ResolvedKeeps(s, r, 0, 0, REUSED, 0, 2);
    NextResolvable(ResolvedState(s, 0, 0, REUSED, 0), r, 1, 1, REUSED, 6 * DAY_MS, 2, 8 * DAY_MS);
  }

  lemma RunOneMore(steps: seq<AdvisorKernel.Step>, k: Kernel, step: AdvisorKernel.Step, n: Kernel)
    requires Run(Genesis(0), steps) == k && n == Next(k, step)
    ensures Run(Genesis(0), steps + [step]) == n
  {
    assert (steps + [step])[..|steps|] == steps;
  }

  /** The run goes on with one resolution. */
  lemma RunResolves(steps: seq<AdvisorKernel.Step>, k: Kernel, r: Report, count: nat, j: nat, id: Id, elapsed: nat, now: Time)
    returns (more: seq<AdvisorKernel.Step>, n: Kernel)
    requires Run(Genesis(0), steps) == k && now == k.clock + elapsed && Resolvable(k.state, r, count, j, now)
    ensures Run(Genesis(0), more) == n && Steps(k, n, id, count, now) && n.state == ResolvedState(k.state, count, j, id, now)
  {
    n := ResolveStep(k, r, count, j, id, elapsed, now);
    RunOneMore(steps, k, Execute(System, ResolveAt(j, id), elapsed), n);
    more := steps + [Execute(System, ResolveAt(j, id), elapsed)];
  }

  lemma PoisedKernel() returns (steps: seq<AdvisorKernel.Step>, k: Kernel, r: Report)
    ensures Run(Genesis(0), steps) == k && k.clock == 0 && Poised(k.state, r, 3)
  {
    var s;
    steps, s, r := ReachPoised(3);
    k := Run(Genesis(0), steps);
  }

  /** Under a new id, at day zero. */
  lemma FirstResolution() returns (steps: seq<AdvisorKernel.Step>, k: Kernel, r: Report, i: int)
    ensures Run(Genesis(0), steps) == k && k.clock == 0 && |k.log| == i + 1 && Shows(k.log, i, REUSED, 0, 0) && Onward(k.state, r)
  {
    var before, start;
    before, start, r := PoisedKernel();
    FinaleStates(start.state, r);
    steps, k := RunResolves(before, start, r, 0, 0, REUSED, 0, 0);
    i := |start.log|;
  }

  /** Under the same id, at day six. */
  lemma SecondResolution() returns (steps: seq<AdvisorKernel.Step>, k: Kernel, r: Report, i: int)
    ensures Run(Genesis(0), steps) == k && k.clock == 6 * DAY_MS && |k.log| == i + 2
    ensures Shows(k.log, i, REUSED, 0, 0) && Shows(k.log, i + 1, REUSED, 1, 6 * DAY_MS) && Resolvable(k.state, r, 2, 2, 8 * DAY_MS)
  {
    var before, first;
    before, first, r, i := FirstResolution();
    steps, k := RunResolves(before, first, r, 1, 1, REUSED, 6 * DAY_MS, 6 * DAY_MS);
  }

  lemma LogShows(log: seq<Batch>, i: int) returns (audit: Audit)
    requires Shows(log, i, REUSED, 0, 0) && Shows(log, i + 1, REUSED, 1, 6 * DAY_MS) && Shows(log, i + 2, NEW, 2, 8 * DAY_MS)
    ensures PassesDueDate(log, i, audit)
  {
    var x: Resolution :| x.resolutionId == REUSED && x.policyRef.id == Given(0) && Settles(log[i], x, AuditAt(x, 0, 0), 0);
    var y: Resolution :| y.resolutionId == REUSED && y.policyRef.id == Given(0) && Settles(log[i + 1], y, AuditAt(y, 1, 6 * DAY_MS), 6 * DAY_MS);
    audit := AuditAt(x, 0, 0);
    assert SelectsAgain(log[i + 1].events, audit.auditId);
  }

  /** Under another id, at day eight. */
  lemma ThirdResolution() returns (steps: seq<AdvisorKernel.Step>, k: Kernel, i: int)
    ensures Run(Genesis(0), steps) == k
    ensures Shows(k.log, i, REUSED, 0, 0) && Shows(k.log, i + 1, REUSED, 1, 6 * DAY_MS) && Shows(k.log, i + 2, NEW, 2, 8 * DAY_MS)
  {
    var before, second, r;
    before, second, r, i := SecondResolution();
    steps, k := RunResolves(before, second, r, 2, 2, NEW, 2 * DAY_MS, 8 * DAY_MS);
    assert k.log[i] == second.log[i] && k.log[i + 1] == second.log[i + 1];
  }

  /**
   A run of the kernel from nothing in which a pending audit is selected anew under a reused resolution id, is completed
   by nobody, and a resolution under its policy passes its first due date.
   */
  lemma ReusedIdPassesDueDate() returns (steps: seq<AdvisorKernel.Step>, i: int, audit: Audit)
    ensures PassesDueDate(Run(Genesis(0), steps).log, i, audit)
  {
    var k;
    steps, k, i := ThirdResolution();
    audit := LogShows(k.log, i);
  }
}
