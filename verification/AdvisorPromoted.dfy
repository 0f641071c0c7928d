/** The sample run goes on: evaluation, promotion packet and promotion. */
module AdvisorPromoted {
  import opened Prelude
  import opened Maps
  import opened Sequences
  import opened AdvisorTypes
  import opened AdvisorEvolve
  import opened AdvisorEvaluation
  import opened AdvisorDecide
  import opened AdvisorSample
  import opened AdvisorMerit

  /* ---------- evaluation ---------- */

  function EvaluatedState(s: State): State {
    s.(auth := s.auth.(reports := s.auth.reports[Given(0) := StoredReport(TheReport(s), Hash(OfReport(TheReport(s))))]), position := s.position + 1)
  }

  lemma EvaluationAccepted(s: State)
    requires Prepared(s, HOLDOUT)
    ensures DecideEvaluation(s, System, Given(0), Given(0), Given(0), Given(0), HoldoutIds(), s.position, 0)
            == Accepted([EvaluationCompiled(TheReport(s), Hash(OfReport(TheReport(s))))])
  {
    EvaluationPasses(s);
  }

  lemma EvaluationFolds(s: State)
    ensures Evolve(s, EvaluationCompiled(TheReport(s), Hash(OfReport(TheReport(s)))), 0) == Success(EvaluatedState(s))
  {
  }

  lemma EvaluationDispatch(s: State, actor: Actor, c: Command, now: Time)
    requires c.CompileEvaluation?
    ensures Decide(s, actor, c, now)
            == DecideEvaluation(s, actor, c.reportId, c.subjectId, c.policyRevisionId, c.corpusRevisionId, c.recentCaseIds, c.expectedPosition, now)
  {
  }

  lemma ReachReport(steps: seq<AdvisorKernel.Step>, s: State, c: Command, e: Event, t: State)
    requires Reaches(steps, s) && Evolve(s, e, 0) == Success(t) && c.CompileEvaluation?
    requires DecideEvaluation(s, System, c.reportId, c.subjectId, c.policyRevisionId, c.corpusRevisionId, c.recentCaseIds, c.expectedPosition, 0) == Accepted([e])
    ensures Reaches(steps + [AdvisorSample.Step(System, c)], t)
  {
    EvaluationDispatch(s, System, c, 0);
    ReachOne(steps, s, System, c, e, t);
  }

  lemma ReachEvaluation() returns (steps: seq<AdvisorKernel.Step>, s: State)
    ensures Prepared(s, HOLDOUT) && Reaches(steps, EvaluatedState(s))
  {
    var before;
    before, s := ReachAnswers(HOLDOUT);
    EvaluationAccepted(s);
    EvaluationFolds(s);
    ReachReport(before, s, CompileEvaluation(Given(0), Given(0), Given(0), Given(0), HoldoutIds(), s.position), EvaluationCompiled(TheReport(s), Hash(OfReport(TheReport(s)))), EvaluatedState(s));
    steps := before + [AdvisorSample.Step(System, CompileEvaluation(Given(0), Given(0), Given(0), Given(0), HoldoutIds(), s.position))];
  }

  /* ---------- the report vouches for the policy ---------- */

  /** Nothing that matters to the policy arrived after the report. */
  ghost predicate NothingNewer(r: Records, through: nat) {
    && (forall k :: k in r.cases ==> r.cases[k].position <= through)
    && (forall k :: k in r.invocations ==> r.invocations[k].queuedPosition <= through || r.invocations[k].invocation.caseRef.None?)
  }

  function PolicyRefOf(): Ref {
    Ref(PolicyKind, Given(0), Hash(OfPolicy(ThePolicy())))
  }

  ghost predicate Clean(r: Report) {
    r.reportId == Given(0) && r.subjectRef == SubjectRef() && r.policyRef == PolicyRefOf() && r.corpusRef == CorpusRef() && r.blockers == {}
  }

  ghost predicate Vouched(s: State, r: Report) {
    && Given(0) in s.records.subjects && s.records.subjects[Given(0)] == TheStoredSubject()
    && Given(0) in s.records.corpora && s.records.corpora[Given(0)] == TheStoredCorpus()
    && s.auth.contaminations == map[] && s.auth.incidents == map[]
    && s.auth.reports == map[Given(0) := StoredReport(r, Hash(OfReport(r)))] && Clean(r) && NothingNewer(s.records, r.throughPosition)
  }

  lemma EvaluationVouches(s: State)
    requires Prepared(s, HOLDOUT)
    ensures Vouched(EvaluatedState(s), TheReport(s))
  {
  }

  lemma NothingChanged(s: State, policy: StoredPolicy, r: Report)
    requires NothingNewer(s.records, r.throughPosition)
    ensures !EvidenceChanged(s, policy, r)
  {
  }

  lemma AloneInListing<T>(xs: seq<T>, x: T)
    requires Distinct(xs) && x in xs && forall y :: y in xs ==> y == x
    ensures xs == [x]
  {
    forall i | 0 <= i < |xs| ensures xs[i] == x { assert xs[i] in xs; }
    NoLonger(xs, [x]);
  }

  lemma OnlyReport(s: State, r: Report)
    requires Vouched(s, r)
    ensures var mine := Filter(s.auth.reports, (x: StoredReport) => x.report.policyRef.id == Given(0)); mine == [Given(0)]
  {
    var mine := Filter(s.auth.reports, (x: StoredReport) => x.report.policyRef.id == Given(0));
    assert Given(0) in mine;
    AloneInListing(mine, Given(0));
  }

  lemma LatestIsReport(s: State, r: Report)
    requires Vouched(s, r)
    ensures LatestThrough(s, Given(0)) == r.throughPosition
  {
    OnlyReport(s, r);
  }

  lemma PolicyIsHealthy(s: State, policy: StoredPolicy, r: Report)
    requires Vouched(s, r) && policy.policy == ThePolicy() && policy.digest == Hash(OfPolicy(ThePolicy()))
    ensures !Unhealthy(s, policy)
  {
    OnlyReport(s, r);
    NothingChanged(s, policy, r);
  }

  /* ---------- the promotion packet ---------- */

  function ReportRef(r: Report): Ref {
    Ref(EvaluationKind, Given(0), Hash(OfReport(r)))
  }

  function Precondition(r: Report): Digest {
    Hash(OfPrecondition(PolicyRefOf(), SubjectRef(), CorpusRef(), ReportRef(r), 30 * DAY_MS, AUTOMATIC_LIMIT))
  }

  function TheOption(): Id {
    Derived("advisor-promotion-option", [Given(0), Given(0)], NoReason)
  }

  function TheBundle(r: Report): Bundle {
    BundleV3(Given(0), [PolicyRefOf(), SubjectRef(), CorpusRef(), ReportRef(r)])
  }

  function TheRevision(r: Report, anchor: ProgramId): Revision {
    V3(Given(0), Given(0), anchor, TheOption(),
       PromotionTarget(PolicyRefOf(), SubjectRef(), CorpusRef(), ReportRef(r), 30 * DAY_MS, Precondition(r)),
       Ref(BundleKind, Given(0), Hash(OfBundle(TheBundle(r)))), 30 * DAY_MS)
  }

  function CompiledHost(h: Host, r: Report, anchor: ProgramId): Host {
    var revision := TheRevision(r, anchor);
    h.(bundles := h.bundles[Given(0) := StoredBundle(TheBundle(r), Hash(OfBundle(TheBundle(r))))],
       packets := h.packets[Given(0) := Packet(Given(0), Given(0), Hash(OfRevision(revision)), PacketOpen)],
       revisions := h.revisions[Given(0) := StoredRevision(revision, Hash(OfRevision(revision)))])
  }

  /** The report vouches for a policy still in shadow. */
  ghost predicate Recommended(s: State, r: Report) {
    Vouched(s, r) && s.auth.policies == map[Given(0) := TheStoredPolicy()]
  }

  lemma PolicyIsCompilable(s: State, r: Report)
    requires Recommended(s, r)
    ensures Compilable(s, TheStoredPolicy(), r, 0)
  {
    LatestIsReport(s, r);
    NothingChanged(s, TheStoredPolicy(), r);
  }

  lemma PacketAccepted(s: State, r: Report) returns (anchor: ProgramId)
    requires Recommended(s, r) && s.records.cases == Cases(ALL)
    ensures DecideCompilePromotion(s, System, Given(0), Given(0), Given(0), Given(0), Given(0), s.position, 0)
            == Accepted(PromotionPacket(Given(0), Given(0), Given(0), TheStoredPolicy(), TheStoredSubject(), TheStoredCorpus(),
                                        StoredReport(r, Hash(OfReport(r))), anchor, 0))
  {
    PolicyIsCompilable(s, r);
    assert TheCorpus().holdout[0].id in s.records.cases;
    anchor := Anchor(s, TheCorpus().holdout).value;
  }

  lemma FoldFirst(s: State, e: Event, t: State, rest: seq<Event>, at: Time)
    requires Evolve(s, e, at) == Success(t)
    ensures EvolveAll(s, [e] + rest, at) == EvolveAll(t, rest, at)
  {
    assert ([e] + rest)[1..] == rest;
  }

  /** Events that only the rest of the kernel folds. */
  ghost predicate HostOnly(e: Event) {
    e.BundleRecorded? || e.PacketOpened? || e.RevisionRecorded? || e.ActionApplied? || e.DecisionResolved? || e.PrecedentRecorded?
  }

  lemma HostFolds(s: State, e: Event, h: Host, at: Time)
    requires HostOnly(e) && EvolveHost(s.host, e) == Success(h)
    ensures Evolve(s, e, at) == Success(s.(host := h, position := s.position + 1))
  {
  }

  lemma ThreeHostFolds(s: State, a: Event, b: Event, c: Event, h1: Host, h2: Host, h3: Host, at: Time)
    requires HostOnly(a) && HostOnly(b) && HostOnly(c)
    requires EvolveHost(s.host, a) == Success(h1) && EvolveHost(h1, b) == Success(h2) && EvolveHost(h2, c) == Success(h3)
    ensures EvolveAll(s, [a, b, c], at) == Success(s.(host := h3, position := s.position + 3))
  {
    var s1, s2 := s.(host := h1, position := s.position + 1), s.(host := h2, position := s.position + 2);
    var s3 := s.(host := h3, position := s.position + 3);
    HostFolds(s, a, h1, at);
    HostFolds(s1, b, h2, at);
    HostFolds(s2, c, h3, at);
    FoldFirst(s, a, s1, [b, c], at);
    FoldFirst(s1, b, s2, [c], at);
    FoldFirst(s2, c, s3, [], at);
    assert [a, b, c] == [a] + [b, c] && [b, c] == [b] + [c] && [c] == [c] + [];
  }

  lemma PacketEvents(r: Report, anchor: ProgramId)
    requires r.reportId == Given(0)
    ensures PromotionPacket(Given(0), Given(0), Given(0), TheStoredPolicy(), TheStoredSubject(), TheStoredCorpus(), StoredReport(r, Hash(OfReport(r))), anchor, 0)
            == [BundleRecorded(TheBundle(r), Hash(OfBundle(TheBundle(r)))),
                PacketOpened(Given(0), Given(0), Hash(OfRevision(TheRevision(r, anchor)))),
                RevisionRecorded(TheRevision(r, anchor), Hash(OfRevision(TheRevision(r, anchor))))]
  {
    var events := PromotionPacket(Given(0), Given(0), Given(0), TheStoredPolicy(), TheStoredSubject(), TheStoredCorpus(), StoredReport(r, Hash(OfReport(r))), anchor, 0);
    assert events == [events[0], events[1], events[2]];
    assert events[0].bundle == TheBundle(r);
    assert events[2].revision.target == TheRevision(r, anchor).target;
    assert events[2].revision.optionId == TheOption();
    assert events[2].revision == TheRevision(r, anchor);
  }

  lemma PacketFolds(s: State, r: Report, anchor: ProgramId)
    ensures EvolveAll(s, [BundleRecorded(TheBundle(r), Hash(OfBundle(TheBundle(r)))),
                          PacketOpened(Given(0), Given(0), Hash(OfRevision(TheRevision(r, anchor)))),
                          RevisionRecorded(TheRevision(r, anchor), Hash(OfRevision(TheRevision(r, anchor))))], 0)
            == Success(s.(host := CompiledHost(s.host, r, anchor), position := s.position + 3))
  {
    var h := CompiledHost(s.host, r, anchor);
    var h1 := s.host.(bundles := h.bundles);
    ThreeHostFolds(s, BundleRecorded(TheBundle(r), Hash(OfBundle(TheBundle(r)))),
                   PacketOpened(Given(0), Given(0), Hash(OfRevision(TheRevision(r, anchor)))),
                   RevisionRecorded(TheRevision(r, anchor), Hash(OfRevision(TheRevision(r, anchor)))), h1, h1.(packets := h.packets), h, 0);
  }

  lemma ReachCompiling(steps: seq<AdvisorKernel.Step>, s: State, c: Command, events: seq<Event>, t: State)
    requires Reaches(steps, s) && EvolveAll(s, events, 0) == Success(t) && c.CompilePromotion?
    requires DecideCompilePromotion(s, System, c.packetId, c.revisionId, c.bundleId, c.policyRevisionId, c.reportId, c.expectedPosition, 0) == Accepted(events)
    ensures Reaches(steps + [AdvisorSample.Step(System, c)], t)
  {
    CompilingDispatch(s, System, c, 0);
    Reach(steps, s, System, c, events, t);
  }

  lemma CompilingDispatch(s: State, actor: Actor, c: Command, now: Time)
    requires c.CompilePromotion?
    ensures Decide(s, actor, c, now)
            == DecideCompilePromotion(s, actor, c.packetId, c.revisionId, c.bundleId, c.policyRevisionId, c.reportId, c.expectedPosition, now)
  {
  }

  lemma ReachPacket(before: seq<AdvisorKernel.Step>, s: State, r: Report) returns (steps: seq<AdvisorKernel.Step>, anchor: ProgramId)
    requires Reaches(before, s) && Recommended(s, r) && s.records.cases == Cases(ALL)
    ensures Reaches(steps, s.(host := CompiledHost(s.host, r, anchor), position := s.position + 3))
  {
    anchor := PacketAccepted(s, r);
    PacketEvents(r, anchor);
    PacketFolds(s, r, anchor);
    var c := CompilePromotion(Given(0), Given(0), Given(0), Given(0), Given(0), s.position);
    ReachCompiling(before, s, c, PromotionPacket(Given(0), Given(0), Given(0), TheStoredPolicy(), TheStoredSubject(), TheStoredCorpus(),
                                                 StoredReport(r, Hash(OfReport(r))), anchor, 0),
                   s.(host := CompiledHost(s.host, r, anchor), position := s.position + 3));
    steps := before + [AdvisorSample.Step(System, c)];
  }

  /* ---------- promotion ---------- */

  /** What a decided packet leaves in the rest of the kernel. */
  ghost function DecidedHost(h: Host, packetId: Id, revisionId: Id, optionId: Id, policyRef: Ref, now: Time): Host
    requires packetId in h.packets
  {
    var resultId := Derived("decision-action-result", [revisionId, optionId], NoReason);
    var choice := Choice(revisionId, optionId, Hash(OfActionResult(resultId, revisionId, optionId, policyRef, now)), true);
    h.(actionResults := h.actionResults[resultId := choice],
       decisions := h.decisions[Derived("decision-resolution", [revisionId, optionId], NoReason) := choice],
       packets := h.packets[packetId := h.packets[packetId].(status := PacketResolved)],
       foreign := h.foreign[(HostKind("decision_precedent"), Derived("decision-precedent", [revisionId, optionId], NoReason)) := choice.digest])
  }

  lemma DecidedFolds(s: State, packetId: Id, revisionId: Id, optionId: Id, policyRef: Ref, now: Time)
    requires packetId in s.host.packets
    ensures EvolveAll(s, Decided(packetId, revisionId, optionId, policyRef, now), now)
            == Success(s.(host := DecidedHost(s.host, packetId, revisionId, optionId, policyRef, now), position := s.position + 3))
  {
    var events, h := Decided(packetId, revisionId, optionId, policyRef, now), DecidedHost(s.host, packetId, revisionId, optionId, policyRef, now);
    var h1 := s.host.(actionResults := h.actionResults);
    assert events == [events[0], events[1], events[2]];
    ThreeHostFolds(s, events[0], events[1], events[2], h1, h1.(decisions := h.decisions, packets := h.packets), h, now);
  }

  function ThePromotion(r: Report, anchor: ProgramId): Promotion {
    Promotion(Given(0), PolicyRefOf(), SubjectRef(), CorpusRef(), ReportRef(r), Ref(RevisionKind, Given(0), Hash(OfRevision(TheRevision(r, anchor)))),
              Precondition(r), 30 * DAY_MS, 0)
  }

  function PromotedAuth(a: Auth, r: Report, anchor: ProgramId): Auth {
    a.(policies := map[Given(0) := TheStoredPolicy().(status := Active, promotionId := Some(Given(0)))],
       promotions := a.promotions[Given(0) := StoredPromotion(ThePromotion(r, anchor), Hash(OfPromotion(ThePromotion(r, anchor))))])
  }

  ghost predicate PacketUp(s: State, r: Report, anchor: ProgramId) {
    && Given(0) in s.host.packets && Given(0) in s.host.revisions
    && s.host.packets[Given(0)] == Packet(Given(0), Given(0), Hash(OfRevision(TheRevision(r, anchor))), PacketOpen)
    && s.host.revisions[Given(0)] == StoredRevision(TheRevision(r, anchor), Hash(OfRevision(TheRevision(r, anchor))))
  }

  lemma PolicyIsPromotable(s: State, r: Report, anchor: ProgramId)
    requires Recommended(s, r)
    ensures Promotable(s, TheRevision(r, anchor).target, 0)
  {
    NothingChanged(s, TheStoredPolicy(), r);
  }

  lemma PromotionAccepted(s: State, r: Report, anchor: ProgramId)
    requires Recommended(s, r) && PacketUp(s, r, anchor)
    ensures DecidePromote(s, Operator, Given(0), Given(0), Given(0), Hash(OfRevision(TheRevision(r, anchor))), TheOption(), Precondition(r), 0)
            == Accepted([PromotionAuthorized(ThePromotion(r, anchor), Hash(OfPromotion(ThePromotion(r, anchor))))]
                        + Decided(Given(0), Given(0), TheOption(), PolicyRefOf(), 0))
  {
    PolicyIsPromotable(s, r, anchor);
  }

  lemma AuthorizationFolds(s: State, r: Report, anchor: ProgramId)
    requires s.auth.policies == map[Given(0) := TheStoredPolicy()]
    ensures Evolve(s, PromotionAuthorized(ThePromotion(r, anchor), Hash(OfPromotion(ThePromotion(r, anchor)))), 0)
            == Success(s.(auth := PromotedAuth(s.auth, r, anchor), position := s.position + 1))
  {
    var active := TheStoredPolicy().(status := Active, promotionId := Some(Given(0)));
    assert s.auth.policies[Given(0) := active] == map[Given(0) := active];
  }

  ghost function PromotedState(s: State, r: Report, anchor: ProgramId): State
    requires Given(0) in s.host.packets
  {
    s.(auth := PromotedAuth(s.auth, r, anchor), host := DecidedHost(s.host, Given(0), Given(0), TheOption(), PolicyRefOf(), 0), position := s.position + 4)
  }

  lemma DecidedAfter(s: State, e: Event, auth: Auth, packetId: Id, revisionId: Id, optionId: Id, policyRef: Ref, now: Time)
    requires packetId in s.host.packets && Evolve(s, e, now) == Success(s.(auth := auth, position := s.position + 1))
    ensures EvolveAll(s, [e] + Decided(packetId, revisionId, optionId, policyRef, now), now)
            == Success(s.(auth := auth, host := DecidedHost(s.host, packetId, revisionId, optionId, policyRef, now), position := s.position + 4))
  {
    var t := s.(auth := auth, position := s.position + 1);
    FoldFirst(s, e, t, Decided(packetId, revisionId, optionId, policyRef, now), now);
    DecidedFolds(t, packetId, revisionId, optionId, policyRef, now);
  }

  lemma PromotingDispatch(s: State, actor: Actor, c: Command, now: Time)
    requires c.PromotePolicy?
    ensures Decide(s, actor, c, now)
            == DecidePromote(s, actor, c.promotionId, c.packetId, c.revisionId, c.revisionDigest, c.optionId, c.preconditionDigest, now)
  {
  }

  lemma ReachPromoting(steps: seq<AdvisorKernel.Step>, s: State, c: Command, e: Event, auth: Auth, policyRef: Ref)
    requires Reaches(steps, s) && c.PromotePolicy? && c.packetId in s.host.packets
    requires Evolve(s, e, 0) == Success(s.(auth := auth, position := s.position + 1))
    requires DecidePromote(s, Operator, c.promotionId, c.packetId, c.revisionId, c.revisionDigest, c.optionId, c.preconditionDigest, 0)
             == Accepted([e] + Decided(c.packetId, c.revisionId, c.optionId, policyRef, 0))
    ensures Reaches(steps + [AdvisorSample.Step(Operator, c)],
                    s.(auth := auth, host := DecidedHost(s.host, c.packetId, c.revisionId, c.optionId, policyRef, 0), position := s.position + 4))
  {
    PromotingDispatch(s, Operator, c, 0);
    DecidedAfter(s, e, auth, c.packetId, c.revisionId, c.optionId, policyRef, 0);
    Reach(steps, s, Operator, c, [e] + Decided(c.packetId, c.revisionId, c.optionId, policyRef, 0),
          s.(auth := auth, host := DecidedHost(s.host, c.packetId, c.revisionId, c.optionId, policyRef, 0), position := s.position + 4));
  }

  lemma ReachPromotion(before: seq<AdvisorKernel.Step>, s: State, r: Report, anchor: ProgramId) returns (steps: seq<AdvisorKernel.Step>)
    requires Reaches(before, s) && Recommended(s, r) && PacketUp(s, r, anchor)
    ensures Reaches(steps, PromotedState(s, r, anchor))
  {
    var e := PromotionAuthorized(ThePromotion(r, anchor), Hash(OfPromotion(ThePromotion(r, anchor))));
    var c := PromotePolicy(Given(0), Given(0), Given(0), Hash(OfRevision(TheRevision(r, anchor))), TheOption(), Precondition(r));
    PromotionAccepted(s, r, anchor);
    AuthorizationFolds(s, r, anchor);
    ReachPromoting(before, s, c, e, PromotedAuth(s.auth, r, anchor), PolicyRefOf());
    steps := before + [AdvisorSample.Step(Operator, c)];
  }

  /* ---------- a policy with authority ---------- */

  /** The policy is active, promoted until day thirty, and its report stands; `count` resolutions were made under it. */
  ghost predicate Trusted(s: State, r: Report, count: nat) {
    && Vouched(s, r)
    && s.auth.policies == map[Given(0) := TheStoredPolicy().(status := Active, promotionId := Some(Given(0)), resolutionCount := count)]
    && Given(0) in s.auth.promotions && s.auth.promotions[Given(0)].promotion.expiresAt == 30 * DAY_MS
  }

  lemma PromotedIsTrusted(s: State, r: Report, anchor: ProgramId)
    requires Recommended(s, r) && Given(0) in s.host.packets
    ensures Trusted(PromotedState(s, r, anchor), r, 0)
  {
  }

  /** The ids from `ALL` on are free. */
  ghost predicate Room(s: State) {
    forall i: nat :: i >= ALL ==> Given(i) !in s.records.invocations && Given(i) !in s.host.packets
  }

  lemma ReachCompiled() returns (steps: seq<AdvisorKernel.Step>, s: State, r: Report, anchor: ProgramId)
    ensures Reaches(steps, s) && Recommended(s, r) && PacketUp(s, r, anchor) && s.auth.audits == map[] && Room(s)
  {
    var before, prior := ReachEvaluation();
    r := TheReport(prior);
    var e := EvaluatedState(prior);
    assert Recommended(e, r) by { EvaluationVouches(prior); }
    steps, anchor := ReachPacket(before, e, r);
    s := e.(host := CompiledHost(e.host, r, anchor), position := e.position + 3);
    PacketIsUp(e, r, anchor);
  }

  lemma PacketIsUp(e: State, r: Report, anchor: ProgramId)
    requires Recommended(e, r) && Room(e)
    ensures var s := e.(host := CompiledHost(e.host, r, anchor), position := e.position + 3); Recommended(s, r) && PacketUp(s, r, anchor) && Room(s)
  {
  }

  /** Automatic authority can be earned: some run from the empty kernel leads to an active policy. */
  lemma AuthorityIsAttainable() returns (steps: seq<AdvisorKernel.Step>, s: State, r: Report)
    ensures Reaches(steps, s) && Trusted(s, r, 0) && s.auth.audits == map[] && Room(s)
  {
    var before, c, report, anchor := ReachCompiled();
    r := report;
    steps := ReachPromotion(before, c, r, anchor);
    s := PromotedState(c, r, anchor);
    PromotedIsTrusted(c, r, anchor);
  }
}
