/** Each command, one lemma: its accepted events keep the authority invariant and move policies only as allowed. */
module AdvisorSoundness {
  import opened Prelude
  import opened AdvisorTypes
  import opened AdvisorEvolve
  import opened AdvisorEvaluation
  import opened AdvisorDecide
  import opened AdvisorInvariants

  /* ---------- fail-safe suspension ---------- */

  /** `b` is `a` after exactly the policies in `ids` were suspended, with incidents only for them. */
  ghost predicate SuspendedExactly(a: Auth, ids: seq<Id>, b: Auth) {
    && b == a.(policies := b.policies, incidents := b.incidents)
    && b.policies.Keys == a.policies.Keys
    && (forall p :: p in a.policies && p !in ids ==> b.policies[p] == a.policies[p])
    && (forall p :: p in a.policies && p in ids ==> Standing(a.policies[p], b.policies[p]))
    && (forall k :: k in b.incidents ==>
          (k in a.incidents && b.incidents[k] == a.incidents[k]) || b.incidents[k].incident.policyRef.id in ids)
  }

  ghost predicate Standing(before: StoredPolicy, after: StoredPolicy) {
    after == before.(status := Suspended, suspendedAt := after.suspendedAt, suspensionReason := after.suspensionReason)
  }

  ghost predicate Names(a: Auth, ids: seq<Id>) {
    forall i :: 0 <= i < |ids| ==> ids[i] in a.policies && a.policies[ids[i]].policy.policyRevisionId == ids[i]
  }

  lemma TwoFold(a: Auth, first: Event, second: Event, at: Time)
    ensures AuthAll(a, [first, second], at) == (var r := EvolveAuth(a, first, at); if r.Failure? then r else EvolveAuth(r.value, second, at))
  {
    assert [first, second] == [first] + [second];
    AuthCons(a, first, [second], at);
    var r := EvolveAuth(a, first, at);
    if r.Success? { AuthCons(r.value, second, [], at); }
  }

  ghost function SuspendedIn(a: Auth, p: Id, reason: Reason, now: Time): Auth
    requires p in a.policies
  {
    a.(policies := a.policies[p := a.policies[p].(status := Suspended, suspendedAt := Some(now), suspensionReason := reason)])
  }

  ghost function WithIncident(a: Auth, incident: Incident): Auth {
    a.(incidents := a.incidents[incident.incidentId := StoredIncident(incident, Hash(OfIncident(incident)))])
  }

  lemma FoldSuspension(a: Auth, p: Id, reason: Reason, source: Ref, now: Time)
    requires p in a.policies
    ensures EvolveAuth(a, PolicySuspended(p, reason, source, now), now) == Success(SuspendedIn(a, p, reason, now))
  {
  }

  lemma FoldIncident(a: Auth, incident: Incident, now: Time)
    ensures EvolveAuth(a, IncidentRecorded(incident, Hash(OfIncident(incident))), now) == Success(WithIncident(a, incident))
  {
  }

  lemma SuspendedShape(a: Auth, p: Id, reason: Reason, now: Time)
    requires p in a.policies
    ensures SuspendedExactly(a, [p], SuspendedIn(a, p, reason, now))
  {
  }

  lemma IncidentShape(a: Auth, incident: Incident, reason: Reason, now: Time)
    requires incident.policyRef.id in a.policies
    ensures SuspendedExactly(a, [incident.policyRef.id], SuspendedIn(WithIncident(a, incident), incident.policyRef.id, reason, now))
  {
  }

  /** An incident for the policy followed by its suspension, folded. */
  lemma SuspendPair(a: Auth, incident: Incident, reason: Reason, source: Ref, now: Time)
    requires incident.policyRef.id in a.policies
    ensures var r := AuthAll(a, [IncidentRecorded(incident, Hash(OfIncident(incident))), PolicySuspended(incident.policyRef.id, reason, source, now)], now);
            r.Success? && SuspendedExactly(a, [incident.policyRef.id], r.value)
  {
    var p := incident.policyRef.id;
    var first, second := IncidentRecorded(incident, Hash(OfIncident(incident))), PolicySuspended(p, reason, source, now);
    FoldIncident(a, incident, now);
    FoldSuspension(WithIncident(a, incident), p, reason, source, now);
    IncidentShape(a, incident, reason, now);
    TwoFold(a, first, second, now);
  }

  lemma SuspendOne(a: Auth, stored: StoredPolicy, source: Ref, reason: Reason, now: Time)
    requires stored.policy.policyRevisionId in a.policies
    ensures var r := AuthAll(a, SuspensionEvents(stored, source, reason, now), now);
            r.Success? && SuspendedExactly(a, [stored.policy.policyRevisionId], r.value)
  {
    var events := SuspensionEvents(stored, source, reason, now);
    SuspendPair(a, events[0].incident, reason, source, now);
    assert events == [events[0], events[1]];
  }

  lemma SuspendedCompose(a: Auth, mid: Auth, b: Auth, first: Id, rest: seq<Id>)
    requires SuspendedExactly(a, [first], mid) && SuspendedExactly(mid, rest, b)
    ensures SuspendedExactly(a, [first] + rest, b)
  {
  }

  lemma NamesStay(a: Auth, first: Id, mid: Auth, rest: seq<Id>)
    requires Names(a, rest) && SuspendedExactly(a, [first], mid)
    ensures Names(mid, rest)
  {
    forall i | 0 <= i < |rest| ensures rest[i] in mid.policies && mid.policies[rest[i]].policy.policyRevisionId == rest[i] {
      if rest[i] in [first] { assert Standing(a.policies[rest[i]], mid.policies[rest[i]]); }
    }
  }

  /** One more suspension in front of a loop of them. */
  lemma SuspendFirst(a: Auth, stored: StoredPolicy, rest: seq<Event>, ids: seq<Id>, source: Ref, reason: Reason, now: Time)
    requires ids != [] && stored.policy.policyRevisionId == ids[0] && ids[0] in a.policies
    requires var mid := AuthAll(a, SuspensionEvents(stored, source, reason, now), now);
             mid.Success? && AuthAll(mid.value, rest, now).Success? && SuspendedExactly(a, [ids[0]], mid.value)
             && SuspendedExactly(mid.value, ids[1..], AuthAll(mid.value, rest, now).value)
    ensures var r := AuthAll(a, SuspensionEvents(stored, source, reason, now) + rest, now); r.Success? && SuspendedExactly(a, ids, r.value)
  {
    var first := SuspensionEvents(stored, source, reason, now);
    var mid := AuthAll(a, first, now).value;
    AuthConcat(a, first, rest, now);
    SuspendedCompose(a, mid, AuthAll(mid, rest, now).value, ids[0], ids[1..]);
    assert [ids[0]] + ids[1..] == ids;
  }

  /** Folding a whole loop of suspensions never throws and touches nothing else. */
  lemma {:induction false} SuspendEachFold(origin: Auth, a: Auth, ids: seq<Id>, source: Ref, reason: Reason, now: Time)
    requires Names(origin, ids) && Names(a, ids)
    ensures var r := AuthAll(a, SuspendEach(origin, ids, source, reason, now), now);
            r.Success? && SuspendedExactly(a, ids, r.value)
    decreases |ids|
  {
    if ids != [] {
      var stored := origin.policies[ids[0]];
      SuspendOne(a, stored, source, reason, now);
      var mid := AuthAll(a, SuspensionEvents(stored, source, reason, now), now).value;
      NamesStay(a, ids[0], mid, ids[1..]);
      SuspendEachFold(origin, mid, ids[1..], source, reason, now);
      SuspendFirst(a, stored, SuspendEach(origin, ids[1..], source, reason, now), ids, source, reason, now);
    }
  }

  /** The events cost only the policies in `ids` their authority, and grant nothing. */
  ghost predicate CostsOnly(a: Auth, events: seq<Event>, ids: seq<Id>) {
    forall i :: 0 <= i < |events| ==>
      && !events[i].ResolutionRecorded? && !events[i].PromotionAuthorized?
      && (forall p :: Costs(events[i], p) ==> p in ids)
      && (events[i].ContaminationRecorded? ==> Contaminated(a, events[i].contamination.corpusRef.id))
  }

  lemma CostsOnlyConcat(a: Auth, first: seq<Event>, second: seq<Event>, ids: seq<Id>)
    requires CostsOnly(a, first, ids) && CostsOnly(a, second, ids)
    ensures CostsOnly(a, first + second, ids)
  {
  }

  lemma SuspensionCosts(a: Auth, stored: StoredPolicy, source: Ref, reason: Reason, now: Time)
    ensures CostsOnly(a, SuspensionEvents(stored, source, reason, now), [stored.policy.policyRevisionId])
  {
  }

  lemma {:induction false} SuspendEachCosts(a: Auth, origin: Auth, ids: seq<Id>, source: Ref, reason: Reason, now: Time)
    requires Names(origin, ids)
    ensures CostsOnly(a, SuspendEach(origin, ids, source, reason, now), ids)
    decreases |ids|
  {
    if ids != [] {
      var first := SuspensionEvents(origin.policies[ids[0]], source, reason, now);
      var rest := SuspendEach(origin, ids[1..], source, reason, now);
      SuspendEachCosts(a, origin, ids[1..], source, reason, now);
      SuspensionCosts(a, origin.policies[ids[0]], source, reason, now);
      assert CostsOnly(a, rest, ids) && CostsOnly(a, first, ids);
      CostsOnlyConcat(a, first, rest, ids);
    }
  }

  /** `pre` is `a` with contaminations or audits added that concern no active policy outside `ids`. */
  ghost predicate ReadyToSuspend(a: Auth, pre: Auth, ids: seq<Id>) {
    && pre.policies == a.policies && pre.incidents == a.incidents && pre.reports == a.reports
    && Keyed(pre) && Names(pre, ids)
    && (forall k :: k in pre.audits ==> (k in a.audits && pre.audits[k] == a.audits[k]) || pre.audits[k].audit.policyRef.id in ids)
    && (forall k :: k in a.contaminations ==> k in pre.contaminations && pre.contaminations[k] == a.contaminations[k])
    && (forall p :: p in pre.policies && pre.policies[p].status == Active && p !in ids ==> !Contaminated(pre, pre.policies[p].policy.corpusRef.id))
  }

  lemma SuspendedAdvances(a: Auth, pre: Auth, ids: seq<Id>, b: Auth)
    requires ReadyToSuspend(a, pre, ids) && SuspendedExactly(pre, ids, b)
    ensures Advances(a, b) && Keyed(b)
  {
  }

  lemma SuspendedActive(pre: Auth, ids: seq<Id>, b: Auth)
    requires SuspendedExactly(pre, ids, b)
    requires forall p :: p in pre.policies && pre.policies[p].status == Active && p !in ids ==> !Contaminated(pre, pre.policies[p].policy.corpusRef.id)
    ensures ActiveUncontaminated(b)
  {
    assert b.contaminations == pre.contaminations;
    assert forall c :: Contaminated(b, c) == Contaminated(pre, c);
  }

  lemma SuspendedInv(a: Auth, pre: Auth, ids: seq<Id>, b: Auth)
    requires AuthInv(a) && ReadyToSuspend(a, pre, ids) && SuspendedExactly(pre, ids, b)
    ensures AuthInv(b)
  {
    SuspendedAdvances(a, pre, ids, b);
    SuspendedActive(pre, ids, b);
    AdvanceReports(a, b);
    AdvanceIncidents(a, b);
    AdvanceAudits(a, b);
  }

  lemma SuspendedEffect(a: Auth, pre: Auth, events: seq<Event>, ids: seq<Id>, b: Auth)
    requires ReadyToSuspend(a, pre, ids) && SuspendedExactly(pre, ids, b) && CostsOnly(pre, events, ids)
    ensures Effect(a, events, b)
  {
    NoneCounted(events);
    SuspendedAdvances(a, pre, ids, b);
    assert b.contaminations == pre.contaminations;
    assert forall c :: Contaminated(b, c) == Contaminated(pre, c);
  }

  /** Whatever prepared the ground, a batch that ends in the suspensions of `ids` is sound. */
  lemma SuspendingSound(a: Auth, pre: Auth, head: seq<Event>, tail: seq<Event>, ids: seq<Id>, now: Time)
    requires AuthInv(a) && ReadyToSuspend(a, pre, ids)
    requires AuthAll(a, head, now) == Success(pre)
    requires AuthAll(pre, tail, now).Success? && SuspendedExactly(pre, ids, AuthAll(pre, tail, now).value)
    requires CostsOnly(pre, head, ids) && CostsOnly(pre, tail, ids)
    ensures Sound(a, head + tail, now) && AuthAll(a, head + tail, now).Success?
  {
    AuthConcat(a, head, tail, now);
    CostsOnlyConcat(pre, head, tail, ids);
    SuspendedInv(a, pre, ids, AuthAll(pre, tail, now).value);
    SuspendedEffect(a, pre, head + tail, ids, AuthAll(pre, tail, now).value);
  }

  lemma AlreadyReady(a: Auth, ids: seq<Id>)
    requires AuthInv(a) && Names(a, ids)
    ensures ReadyToSuspend(a, a, ids)
  {
  }

  /** A batch of nothing but suspensions is sound. */
  lemma OnlySuspendingSound(a: Auth, events: seq<Event>, ids: seq<Id>, now: Time)
    requires AuthInv(a) && Names(a, ids) && CostsOnly(a, events, ids)
    requires AuthAll(a, events, now).Success? && SuspendedExactly(a, ids, AuthAll(a, events, now).value)
    ensures Sound(a, events, now)
  {
    AlreadyReady(a, ids);
    SuspendedInv(a, a, ids, AuthAll(a, events, now).value);
    SuspendedEffect(a, a, events, ids, AuthAll(a, events, now).value);
  }

  lemma SuspendOneSound(a: Auth, p: Id, source: Ref, reason: Reason, now: Time)
    requires AuthInv(a) && p in a.policies
    ensures var events := SuspensionEvents(a.policies[p], source, reason, now);
            Sound(a, events, now) && AuthAll(a, events, now).Success?
  {
    var events := SuspensionEvents(a.policies[p], source, reason, now);
    SuspendOne(a, a.policies[p], source, reason, now);
    SuspensionCosts(a, a.policies[p], source, reason, now);
    OnlySuspendingSound(a, events, [p], now);
  }

  /* ---------- subjects and contamination ---------- */

  lemma OvertakenSound(a: Auth, subject: Subject, prior: Ref, now: Time)
    requires AuthInv(a)
    ensures var events := [SubjectApproved(subject, Hash(OfSubject(subject)))] + SuspendEach(a, ActiveUnder(a, prior), prior, SubjectDrift, now);
            Sound(a, events, now)
  {
    var head := [SubjectApproved(subject, Hash(OfSubject(subject)))];
    var ids := ActiveUnder(a, prior);
    QuietFold(a, head, now);
    SuspendEachFold(a, a, ids, prior, SubjectDrift, now);
    SuspendEachCosts(a, a, ids, prior, SubjectDrift, now);
    AlreadyReady(a, ids);
    SuspendingSound(a, a, head, SuspendEach(a, ids, prior, SubjectDrift, now), ids, now);
  }

  lemma SubjectSound(s: State, actor: Actor, input: Subject, now: Time)
    requires Inv(s)
    ensures var d := DecideSubject(s, actor, input, now); d.Accepted? ==> Sound(s.auth, d.events, now)
  {
    var d := DecideSubject(s, actor, input, now);
    if d.Accepted? {
      if input.prior.Some? {
        OvertakenSound(s.auth, input.(approvedAt := now), input.prior.value, now);
      } else {
        QuietSound(s.auth, d.events, now);
      }
    }
  }

  lemma ContaminationReady(a: Auth, contamination: Contamination, pre: Auth)
    requires AuthInv(a) && contamination.contaminationId !in a.contaminations
    requires pre == a.(contaminations := a.contaminations[contamination.contaminationId := StoredContamination(contamination, Hash(OfContamination(contamination)))])
    ensures ReadyToSuspend(a, pre, ActiveOn(a, contamination.corpusRef.id)) && Contaminated(pre, contamination.corpusRef.id)
  {
    assert pre.contaminations[contamination.contaminationId].contamination == contamination;
    forall p | p in pre.policies && pre.policies[p].status == Active && p !in ActiveOn(a, contamination.corpusRef.id)
      ensures !Contaminated(pre, pre.policies[p].policy.corpusRef.id)
    {
      assert !Contaminated(a, a.policies[p].policy.corpusRef.id);
    }
  }

  lemma ContaminationFold(a: Auth, contamination: Contamination, pre: Auth, now: Time)
    requires pre == a.(contaminations := a.contaminations[contamination.contaminationId := StoredContamination(contamination, Hash(OfContamination(contamination)))])
    ensures AuthAll(a, [ContaminationRecorded(contamination, Hash(OfContamination(contamination)))], now) == Success(pre)
  {
    AuthCons(a, ContaminationRecorded(contamination, Hash(OfContamination(contamination))), [], now);
  }

  lemma ContaminationCosts(pre: Auth, contamination: Contamination, ids: seq<Id>)
    requires Contaminated(pre, contamination.corpusRef.id)
    ensures CostsOnly(pre, [ContaminationRecorded(contamination, Hash(OfContamination(contamination)))], ids)
  {
  }

  /** The batch of a contamination: the record, then the suspension of every active policy on the corpus. */
  lemma ContaminatingSound(a: Auth, contamination: Contamination, source: Ref, now: Time)
    requires AuthInv(a) && contamination.contaminationId !in a.contaminations
    ensures var events := [ContaminationRecorded(contamination, Hash(OfContamination(contamination)))] +
                          SuspendEach(a, ActiveOn(a, contamination.corpusRef.id), source, CorpusContamination, now);
            Sound(a, events, now) && AuthAll(a, events, now).Success?
  {
    var head := [ContaminationRecorded(contamination, Hash(OfContamination(contamination)))];
    var ids := ActiveOn(a, contamination.corpusRef.id);
    var pre := a.(contaminations := a.contaminations[contamination.contaminationId := StoredContamination(contamination, Hash(OfContamination(contamination)))]);
    ContaminationFold(a, contamination, pre, now);
    ContaminationReady(a, contamination, pre);
    ContaminationCosts(pre, contamination, ids);
    SuspendEachFold(a, pre, ids, source, CorpusContamination, now);
    SuspendEachCosts(pre, a, ids, source, CorpusContamination, now);
    SuspendingSound(a, pre, head, SuspendEach(a, ids, source, CorpusContamination, now), ids, now);
  }

  /** Recording a contamination suspends every active policy bound to the corpus in the same batch. */
  lemma ContaminationSound(s: State, actor: Actor, input: Contamination, now: Time)
    requires Inv(s)
    ensures var d := DecideContamination(s, actor, input, now);
            d.Accepted? ==> Sound(s.auth, d.events, now) && AuthAll(s.auth, d.events, now).Success?
  {
    var d := DecideContamination(s, actor, input, now);
    if d.Accepted? {
      var corpus := s.records.corpora[input.corpusRef.id];
      var source := Ref(CorpusKind, corpus.corpus.corpusRevisionId, corpus.digest);
      ContaminatingSound(s.auth, input.(recordedAt := now), source, now);
    }
  }

  lemma PlainCosts(a: Auth, p: Id, reason: Reason, source: Ref, now: Time)
    ensures CostsOnly(a, [PolicySuspended(p, reason, source, now)], [p])
  {
  }

  lemma PlainSuspendSound(a: Auth, p: Id, reason: Reason, source: Ref, now: Time)
    requires AuthInv(a) && p in a.policies
    ensures Sound(a, [PolicySuspended(p, reason, source, now)], now) && AuthAll(a, [PolicySuspended(p, reason, source, now)], now).Success?
  {
    var e := PolicySuspended(p, reason, source, now);
    AuthCons(a, e, [], now);
    FoldSuspension(a, p, reason, source, now);
    SuspendedShape(a, p, reason, now);
    PlainCosts(a, p, reason, source, now);
    OnlySuspendingSound(a, [e], [p], now);
  }

  lemma ExplicitSuspendSound(s: State, actor: Actor, policyRevisionId: Id, reason: string, sourceRef: Ref, now: Time)
    requires Inv(s)
    ensures var d := DecideSuspend(s, actor, policyRevisionId, reason, sourceRef, now);
            d.Accepted? ==> Sound(s.auth, d.events, now) && AuthAll(s.auth, d.events, now).Success?
  {
    var d := DecideSuspend(s, actor, policyRevisionId, reason, sourceRef, now);
    if d.Accepted? {
      PlainSuspendSound(s.auth, policyRevisionId, Stated(reason), sourceRef, now);
    }
  }

  /* ---------- evaluation and approval ---------- */

  lemma EvaluationSound(s: State, actor: Actor, reportId: Id, subjectId: Id, policyId: Id, corpusId: Id, recent: seq<Id>, position: nat, now: Time)
    requires Inv(s)
    ensures var d := DecideEvaluation(s, actor, reportId, subjectId, policyId, corpusId, recent, position, now);
            d.Accepted? ==> Sound(s.auth, d.events, now)
  {
    var d := DecideEvaluation(s, actor, reportId, subjectId, policyId, corpusId, recent, position, now);
    if d.Accepted? {
      EvaluateIsHonest(s, reportId, s.records.subjects[subjectId], s.auth.policies[policyId], s.records.corpora[corpusId], recent, now);
      ReportSound(s.auth, d.events[0], now);
      assert d.events == [d.events[0]];
    }
  }

  lemma ReportSound(a: Auth, e: Event, now: Time)
    requires AuthInv(a) && e.EvaluationCompiled? && ReportBound(a, e.report)
    ensures Sound(a, [e], now)
  {
    AuthCons(a, e, [], now);
    var r := EvolveAuth(a, e, now);
    if r.Success? {
      UntouchedEffect(a, [e], r.value);
      AdvanceReports(a, r.value);
      AdvanceActive(a, r.value);
    }
  }

  /** A new revision enters in shadow; the one it replaces, if any, is retired. */
  ghost predicate PolicyAdded(a: Auth, policy: Policy, superseded: Option<Id>, b: Auth) {
    && policy.policyRevisionId !in a.policies
    && b == a.(policies := b.policies)
    && b.policies.Keys == a.policies.Keys + {policy.policyRevisionId}
    && b.policies[policy.policyRevisionId] == StoredPolicy(policy, Hash(OfPolicy(policy)), Shadow, None, 0, None, NoReason, None)
    && (forall p :: p in a.policies && superseded != Some(p) ==> b.policies[p] == a.policies[p])
    && (forall p :: p in a.policies && superseded == Some(p) ==>
          b.policies[p] == a.policies[p].(status := Superseded, supersededAt := b.policies[p].supersededAt))
  }

  lemma PolicyAddedAdvances(a: Auth, policy: Policy, superseded: Option<Id>, b: Auth)
    requires Keyed(a) && CountsBounded(a) && PolicyAdded(a, policy, superseded, b)
    ensures Advances(a, b) && Keyed(b) && CountsBounded(b)
  {
  }

  lemma PolicyAddedInv(a: Auth, policy: Policy, superseded: Option<Id>, b: Auth)
    requires AuthInv(a) && PolicyAdded(a, policy, superseded, b)
    ensures AuthInv(b)
  {
    PolicyAddedAdvances(a, policy, superseded, b);
    AdvanceReports(a, b);
    AdvanceIncidents(a, b);
    AdvanceAudits(a, b);
    AdvanceActive(a, b);
  }

  lemma PolicyAddedEffect(a: Auth, e: Event, b: Auth)
    requires CountsBounded(a) && e.PolicyApproved? && PolicyAdded(a, e.policy, e.supersededPolicy, b)
    ensures Effect(a, [e], b)
  {
    NoneCounted([e]);
  }

  lemma ApprovalFold(a: Auth, e: Event, now: Time)
    requires e.PolicyApproved? && e.policy.policyRevisionId !in a.policies
    ensures var r := EvolveAuth(a, e, now); r.Success? ==> PolicyAdded(a, e.policy, e.supersededPolicy, r.value)
  {
  }

  lemma ApprovalSound(a: Auth, e: Event, now: Time)
    requires AuthInv(a) && e.PolicyApproved? && e.policy.policyRevisionId !in a.policies
    ensures Sound(a, [e], now)
  {
    AuthCons(a, e, [], now);
    ApprovalFold(a, e, now);
    var r := EvolveAuth(a, e, now);
    if r.Success? {
      PolicyAddedInv(a, e.policy, e.supersededPolicy, r.value);
      PolicyAddedEffect(a, e, r.value);
    }
  }

  lemma PolicySound(s: State, actor: Actor, input: Policy, now: Time)
    requires Inv(s)
    ensures var d := DecidePolicy(s, actor, input, now); d.Accepted? ==> Sound(s.auth, d.events, now)
  {
    var d := DecidePolicy(s, actor, input, now);
    if d.Accepted? {
      ApprovalSound(s.auth, d.events[0], now);
      assert d.events == [d.events[0]];
    }
  }

  /* ---------- audits ---------- */

  lemma AuditWriteSound(a: Auth, e: Event, now: Time)
    requires AuthInv(a) && (e.AuditCompleted? || e.AuditSelected?) && e.audit.policyRef.id in a.policies
    requires e.audit.finding.Some? ==> !Damning(e.audit.finding.value)
    ensures Sound(a, [e], now)
  {
    AuthCons(a, e, [], now);
    var r := EvolveAuth(a, e, now);
    if r.Success? {
      UntouchedEffect(a, [e], r.value);
      AdvanceAudits(a, r.value);
      AdvanceActive(a, r.value);
    }
  }

  ghost function WithAudit(a: Auth, audit: Audit): Auth {
    a.(audits := a.audits[audit.auditId := StoredAudit(audit, Hash(OfAudit(audit)))])
  }

  lemma AuditReady(a: Auth, audit: Audit)
    requires AuthInv(a) && audit.policyRef.id in a.policies
    ensures ReadyToSuspend(a, WithAudit(a, audit), [audit.policyRef.id])
  {
    var pre := WithAudit(a, audit);
    assert forall c :: Contaminated(pre, c) == Contaminated(a, c);
  }

  lemma PairCosts(a: Auth, incident: Incident, reason: Reason, source: Ref, now: Time)
    ensures CostsOnly(a, [IncidentRecorded(incident, Hash(OfIncident(incident))), PolicySuspended(incident.policyRef.id, reason, source, now)], [incident.policyRef.id])
  {
  }

  lemma AuditFold(a: Auth, audit: Audit, now: Time)
    ensures AuthAll(a, [AuditCompleted(audit, Hash(OfAudit(audit)))], now) == Success(WithAudit(a, audit))
  {
    var e := AuditCompleted(audit, Hash(OfAudit(audit)));
    AuthCons(a, e, [], now);
    assert EvolveAuth(a, e, now) == Success(WithAudit(a, audit));
  }

  lemma AuditCosts(a: Auth, audit: Audit)
    ensures CostsOnly(a, [AuditCompleted(audit, Hash(OfAudit(audit)))], [audit.policyRef.id])
  {
  }

  lemma DamningSound(a: Auth, audit: Audit, incident: Incident, reason: Reason, source: Ref, now: Time)
    requires AuthInv(a) && audit.policyRef.id in a.policies && incident.policyRef == audit.policyRef
    ensures var events := [AuditCompleted(audit, Hash(OfAudit(audit)))] +
                          [IncidentRecorded(incident, Hash(OfIncident(incident))), PolicySuspended(incident.policyRef.id, reason, source, now)];
            Sound(a, events, now) && AuthAll(a, events, now).Success?
  {
    var head := [AuditCompleted(audit, Hash(OfAudit(audit)))];
    var tail := [IncidentRecorded(incident, Hash(OfIncident(incident))), PolicySuspended(incident.policyRef.id, reason, source, now)];
    var pre := WithAudit(a, audit);
    AuditFold(a, audit, now);
    AuditCosts(pre, audit);
    AuditReady(a, audit);
    SuspendPair(pre, incident, reason, source, now);
    PairCosts(pre, incident, reason, source, now);
    SuspendingSound(a, pre, head, tail, [audit.policyRef.id], now);
  }

  lemma PagingSound(a: Auth, core: seq<Event>, packet: seq<Event>, now: Time)
    requires Sound(a, core, now) && AuthAll(a, core, now).Success? && forall i :: 0 <= i < |packet| ==> Paging(packet[i])
    ensures Sound(a, core + packet, now) && AuthAll(a, core + packet, now).Success?
  {
    assert AllQuiet(packet);
    SoundPad(a, [], core, packet, now);
    assert [] + core + packet == core + packet;
  }

  lemma FindingSound(a: Auth, audit: Audit, finding: Finding, now: Time)
    requires AuthInv(a) && audit.policyRef.id in a.policies
    ensures var core := [AuditCompleted(audit, Hash(OfAudit(audit)))] + Fallout(audit, audit.policyRef.id, finding, now);
            Sound(a, core, now) && AuthAll(a, core, now).Success?
  {
    var incident := IncidentOf(audit, finding, now);
    DamningSound(a, audit, incident, FoundInAudit(finding), incident.sourceRef, now);
  }

  /** A serious or harmful finding suspends the policy in the same batch, whatever its status was. */
  lemma AuditSound(s: State, actor: Actor, auditId: Id, finding: Finding, evidenceRefs: seq<Ref>, now: Time)
    requires Inv(s)
    ensures var d := DecideAudit(s, actor, auditId, finding, evidenceRefs, now);
            d.Accepted? ==> Sound(s.auth, d.events, now) && AuthAll(s.auth, d.events, now).Success?
  {
    var d := DecideAudit(s, actor, auditId, finding, evidenceRefs, now);
    if d.Accepted? {
      var audit := Reviewed(s.auth.audits[auditId].audit, finding, evidenceRefs, now);
      if Damning(finding) {
        FindingSound(s.auth, audit, finding, now);
        PagingSound(s.auth, [AuditCompleted(audit, Hash(OfAudit(audit)))] + Fallout(audit, audit.policyRef.id, finding, now),
                    IncidentPacket(s, IncidentOf(audit, finding, now).incidentId, audit.resolutionRef.id, now), now);
      } else {
        AuditWriteSound(s.auth, d.events[0], now);
        AuthCons(s.auth, d.events[0], [], now);
        assert d.events == [d.events[0]];
      }
    }
  }
}
