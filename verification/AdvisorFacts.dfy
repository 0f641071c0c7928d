/** What every accepted batch does to authority, audits and the invocation queue, whatever the command. */
module AdvisorFacts {
  import opened Prelude
  import opened AdvisorTypes
  import opened AdvisorEvolve
  import opened AdvisorDecide
  import opened AdvisorInvariants
  import opened AdvisorSoundness
  import opened AdvisorGrants

  /* ---------- records stay under their ids ---------- */

  lemma KeyedStep(r: Records, e: Event, position: nat, at: Time)
    requires RecordsKeyed(r)
    ensures var n := EvolveRecords(r, e, position, at); n.Success? ==> RecordsKeyed(n.value)
  {
  }

  lemma {:induction false} KeyedAll(r: Records, events: seq<Event>, position: nat, at: Time)
    requires RecordsKeyed(r)
    ensures var n := RecordsAll(r, events, position, at); n.Success? ==> RecordsKeyed(n.value)
    decreases |events|
  {
    if events != [] {
      KeyedStep(r, events[0], position + 1, at);
      var n := EvolveRecords(r, events[0], position + 1, at);
      if n.Success? { KeyedAll(n.value, events[1..], position + 1, at); }
    }
  }

  /* ---------- audits ---------- */

  ghost predicate Audits(e: Event) {
    e.AuditSelected? || e.AuditCompleted? || e.ResolutionRecorded?
  }

  /** Neither an audit nor a resolution is written. */
  ghost predicate NoAudits(events: seq<Event>) {
    forall i :: 0 <= i < |events| ==> !Audits(events[i])
  }

  lemma AuditsStay(a: Auth, e: Event, at: Time)
    requires !Audits(e)
    ensures var r := EvolveAuth(a, e, at); r.Success? ==> r.value.audits == a.audits
  {
  }

  lemma {:induction false} AuditsUntouched(a: Auth, events: seq<Event>, at: Time)
    requires NoAudits(events)
    ensures var r := AuthAll(a, events, at); r.Success? ==> r.value.audits == a.audits
    decreases |events|
  {
    if events != [] {
      var r := EvolveAuth(a, events[0], at);
      AuditsStay(a, events[0], at);
      if r.Success? {
        AuditsUntouched(r.value, events[1..], at);
      }
    }
  }

  /** A pending audit is completed in place. */
  ghost predicate Completes(a: Auth, auditId: Id, events: seq<Event>, b: Auth) {
    && auditId in a.audits && !a.audits[auditId].audit.completed
    && |events| > 0 && events[0].AuditCompleted? && NoAudits(events[1..])
    && var audit := events[0].audit;
    && audit.auditId == auditId && audit.completed && audit.policyRef == a.audits[auditId].audit.policyRef
    && b.audits == a.audits[auditId := StoredAudit(audit, events[0].digest)]
  }

  /** A resolution is recorded, with an audit where one is selected. */
  ghost predicate ResolvesWith(a: Auth, c: Command, now: Time, events: seq<Event>, b: Auth, before: seq<Event>, resolution: Resolution)
    requires c.Resolve?
  {
    && Acted(a, c, now, before, resolution, events)
    && var audit := SelectedAudit(resolution, a.policies[c.policyRevisionId], now).audit;
    b.audits == if resolution.auditSelected then a.audits[audit.auditId := StoredAudit(audit, Hash(OfAudit(audit)))] else a.audits
  }

  ghost predicate Resolved(a: Auth, c: Command, now: Time, events: seq<Event>, b: Auth)
    requires c.Resolve?
  {
    exists before, resolution :: ResolvesWith(a, c, now, events, b, before, resolution)
  }

  ghost predicate AuditFacts(a: Auth, c: Command, now: Time, events: seq<Event>, b: Auth) {
    || (c.RecordAudit? && Completes(a, c.auditId, events, b))
    || (c.Resolve? && Resolved(a, c, now, events, b))
    || (NoAudits(events) && b.audits == a.audits)
  }

  /* ---------- the invocation queue ---------- */

  ghost predicate LeaseEvent(e: Event) {
    e.InvocationQueued? || e.LeaseAcquired? || e.InvocationSucceeded? || e.InvocationFailed? || e.InvocationCancelled?
  }

  ghost function Invoked(e: Event): Id
    requires LeaseEvent(e)
  {
    if e.InvocationQueued? then e.invocation.invocationId else e.invocationId
  }

  ghost predicate NoLeases(events: seq<Event>) {
    forall i :: 0 <= i < |events| ==> !LeaseEvent(events[i])
  }

  /** When an event may hit the invocation it is about. */
  ghost predicate LeaseAllowed(before: Option<Invocation>, e: Event, now: Time)
    requires LeaseEvent(e)
  {
    match e
    case InvocationQueued(i, _) => before.None? && i.status == Pending && i.attempt == 0 && i.fencingToken == 0
    case LeaseAcquired(_, _, token, attempt, _) =>
      && before.Some? && token == before.value.fencingToken + 1 && attempt == before.value.attempt + 1
      && ((before.value.status == Pending && before.value.availableAt <= now) || Lapsed(before.value, now))
    case InvocationSucceeded(_, owner, token, _, _, _) =>
      before.Some? && HoldsLease(before.value, owner, token) && !Lapsed(before.value, now)
    case InvocationFailed(_, owner, token, permanent, availableAt, _) =>
      && before.Some? && HoldsLease(before.value, owner, token)
      && (!permanent ==> RetryDelay(before.value.attempt).Some? && availableAt == now + RetryDelay(before.value.attempt).value)
    case InvocationCancelled(_, _) => before.Some? && (before.value.status == Pending || before.value.status == Leased)
  }

  ghost predicate Lapsed(i: Invocation, now: Time) {
    i.status == Leased && i.leaseExpiresAt.Some? && i.leaseExpiresAt.value <= now
  }

  /** What the event leaves of the invocation, as far as leases go. */
  ghost predicate LeaseResult(before: Option<Invocation>, e: Event, after: Invocation)
    requires LeaseEvent(e)
  {
    match e
    case InvocationQueued(i, _) => after == i
    case LeaseAcquired(_, owner, token, attempt, expires) =>
      && after.status == Leased && after.attempt == attempt && after.fencingToken == token
      && after.ownerId == Some(owner) && after.leaseExpiresAt == Some(expires)
    case InvocationSucceeded(_, _, _, _, _, _) => before.Some? && Ends(before.value, after, Succeeded)
    case InvocationFailed(_, _, _, permanent, availableAt, _) =>
      before.Some? && Ends(before.value, after, if permanent then Failed else Pending) && after.availableAt == availableAt
    case InvocationCancelled(_, _) => before.Some? && Ends(before.value, after, Cancelled)
  }

  ghost predicate Ends(before: Invocation, after: Invocation, status: InvocationStatus) {
    after.status == status && after.attempt == before.attempt && after.fencingToken == before.fencingToken
  }

  ghost function Stored(r: Records, id: Id): Option<Invocation> {
    if id in r.invocations then Some(r.invocations[id].invocation) else None
  }

  /** The event is the only one of its batch, was allowed, and touched only its own invocation. */
  ghost predicate LeaseStep(r: Records, e: Event, now: Time, after: Records) {
    && LeaseEvent(e)
    && var id := Invoked(e);
    && LeaseAllowed(Stored(r, id), e, now)
    && id in after.invocations && LeaseResult(Stored(r, id), e, after.invocations[id].invocation)
    && forall k :: k != id ==> Stored(after, k) == Stored(r, k)
  }

  ghost predicate LeaseFacts(r: Records, now: Time, events: seq<Event>, after: Records) {
    || (NoLeases(events) && after.invocations == r.invocations)
    || (|events| == 1 && LeaseStep(r, events[0], now, after))
  }

  /* ---------- corpora ---------- */

  ghost predicate NoCorpora(events: seq<Event>) {
    forall i :: 0 <= i < |events| ==> !events[i].CorpusApproved?
  }

  /** A first revision of an unknown corpus, or the successor of the one revision that is not superseded. */
  ghost predicate CorpusAllowed(r: Records, e: Event)
    requires e.CorpusApproved?
  {
    && e.corpus.corpusRevisionId !in r.corpora
    && match e.supersededCorpus {
         case None =>
           && e.corpus.revision == 1
           && forall k :: k in r.corpora && r.corpora[k].corpus.corpusId == e.corpus.corpusId ==> r.corpora[k].supersededAt.Some?
         case Some(earlier) =>
           && earlier in r.corpora && r.corpora[earlier].corpus.corpusId == e.corpus.corpusId && r.corpora[earlier].supersededAt.None?
           && e.corpus.revision == r.corpora[earlier].corpus.revision + 1
       }
  }

  ghost predicate CorpusStep(r: Records, e: Event, after: Records) {
    && e.CorpusApproved? && CorpusAllowed(r, e)
    && after.corpora.Keys == r.corpora.Keys + {e.corpus.corpusRevisionId}
    && after.corpora[e.corpus.corpusRevisionId].corpus == e.corpus && after.corpora[e.corpus.corpusRevisionId].supersededAt.None?
    && forall k :: k in r.corpora ==>
         && after.corpora[k].corpus == r.corpora[k].corpus
         && (after.corpora[k].supersededAt.Some? <==> r.corpora[k].supersededAt.Some? || e.supersededCorpus == Some(k))
  }

  ghost predicate CorporaFacts(r: Records, events: seq<Event>, after: Records) {
    || (NoCorpora(events) && after.corpora == r.corpora)
    || (|events| == 1 && CorpusStep(r, events[0], after))
  }

  ghost predicate RecordFacts(r: Records, now: Time, events: seq<Event>, after: Records) {
    LeaseFacts(r, now, events, after) && CorporaFacts(r, events, after)
  }

  lemma {:induction false} RecordsUntouched(r: Records, events: seq<Event>, position: nat, at: Time)
    requires NoLeases(events) && NoCorpora(events)
    ensures var n := RecordsAll(r, events, position, at); n.Success? ==> n.value.invocations == r.invocations && n.value.corpora == r.corpora
    decreases |events|
  {
    if events != [] {
      var n := EvolveRecords(r, events[0], position + 1, at);
      if n.Success? {
        assert n.value.invocations == r.invocations && n.value.corpora == r.corpora;
        RecordsUntouched(n.value, events[1..], position + 1, at);
      }
    }
  }

  lemma OneRecord(r: Records, e: Event, position: nat, at: Time)
    ensures RecordsAll(r, [e], position, at) == EvolveRecords(r, e, position + 1, at)
  {
    assert [e][1..] == [];
  }

  lemma LeaseFold(r: Records, e: Event, position: nat, now: Time)
    requires RecordsKeyed(r) && LeaseEvent(e) && LeaseAllowed(Stored(r, Invoked(e)), e, now)
    ensures var n := RecordsAll(r, [e], position, now); n.Success? ==> LeaseStep(r, e, now, n.value) && n.value.corpora == r.corpora
  {
    OneRecord(r, e, position, now);
  }

  lemma CorpusFold(r: Records, e: Event, position: nat, now: Time)
    requires e.CorpusApproved? && CorpusAllowed(r, e)
    ensures var n := RecordsAll(r, [e], position, now); n.Success? ==> CorpusStep(r, e, n.value) && n.value.invocations == r.invocations
  {
    OneRecord(r, e, position, now);
  }

  /* ---------- all of it together ---------- */

  /** Accepted events that fold keep the invariant, and touch audits, the queue and corpora only as allowed. */
  ghost predicate Facts(s: State, c: Command, now: Time, events: seq<Event>) {
    && Sound(s.auth, events, now)
    && (AuthAll(s.auth, events, now).Success? ==> AuditFacts(s.auth, c, now, events, AuthAll(s.auth, events, now).value))
    && (RecordsAll(s.records, events, s.position, now).Success? ==>
          RecordFacts(s.records, now, events, RecordsAll(s.records, events, s.position, now).value))
  }

  /** Neither audits nor the invocation queue nor corpora are written. */
  ghost predicate Plain(events: seq<Event>) {
    forall i :: 0 <= i < |events| ==> !Audits(events[i]) && !LeaseEvent(events[i]) && !events[i].CorpusApproved?
  }

  lemma SuspendEachPlain(a: Auth, ids: seq<Id>, source: Ref, reason: Reason, now: Time)
    requires forall i :: 0 <= i < |ids| ==> ids[i] in a.policies
    ensures Plain(SuspendEach(a, ids, source, reason, now))
  {
  }

  lemma PlainFacts(s: State, c: Command, now: Time, events: seq<Event>)
    requires Sound(s.auth, events, now) && Plain(events)
    ensures Facts(s, c, now, events)
  {
    AuditsUntouched(s.auth, events, now);
    RecordsUntouched(s.records, events, s.position, now);
  }

  lemma QuietFacts(s: State, c: Command, now: Time, events: seq<Event>)
    requires Inv(s) && AllQuiet(events) && Plain(events)
    ensures Facts(s, c, now, events)
  {
    QuietSound(s.auth, events, now);
    PlainFacts(s, c, now, events);
  }

  lemma LeaseEventFacts(s: State, c: Command, now: Time, e: Event)
    requires Inv(s) && LeaseEvent(e) && LeaseAllowed(Stored(s.records, Invoked(e)), e, now)
    ensures Facts(s, c, now, [e])
  {
    QuietSound(s.auth, [e], now);
    AuditsUntouched(s.auth, [e], now);
    LeaseFold(s.records, e, s.position, now);
  }

  /* ---------- one lemma per decider ---------- */

  lemma SubjectPlain(s: State, actor: Actor, input: Subject, now: Time)
    ensures var d := DecideSubject(s, actor, input, now); d.Accepted? ==> Plain(d.events)
  {
    if input.prior.Some? { SuspendEachPlain(s.auth, ActiveUnder(s.auth, input.prior.value), input.prior.value, SubjectDrift, now); }
  }

  lemma ContaminationPlain(s: State, actor: Actor, input: Contamination, now: Time)
    ensures var d := DecideContamination(s, actor, input, now); d.Accepted? ==> Plain(d.events)
  {
    if input.corpusRef.id in s.records.corpora {
      var corpus := s.records.corpora[input.corpusRef.id];
      var id := corpus.corpus.corpusRevisionId;
      SuspendEachPlain(s.auth, ActiveOn(s.auth, id), Ref(CorpusKind, id, corpus.digest), CorpusContamination, now);
    }
  }

  lemma SubjectFacts(s: State, actor: Actor, c: Command, input: Subject, now: Time)
    requires Inv(s) && DecideSubject(s, actor, input, now).Accepted?
    ensures Facts(s, c, now, DecideSubject(s, actor, input, now).events)
  {
    SubjectSound(s, actor, input, now);
    SubjectPlain(s, actor, input, now);
    PlainFacts(s, c, now, DecideSubject(s, actor, input, now).events);
  }

  lemma ContaminationFacts(s: State, actor: Actor, c: Command, input: Contamination, now: Time)
    requires Inv(s) && DecideContamination(s, actor, input, now).Accepted?
    ensures Facts(s, c, now, DecideContamination(s, actor, input, now).events)
  {
    ContaminationSound(s, actor, input, now);
    ContaminationPlain(s, actor, input, now);
    PlainFacts(s, c, now, DecideContamination(s, actor, input, now).events);
  }

  lemma CaseFacts(s: State, actor: Actor, c: Command, input: Case, now: Time)
    requires Inv(s) && DecideCase(s, actor, input, now).Accepted?
    ensures Facts(s, c, now, DecideCase(s, actor, input, now).events)
  {
    QuietFacts(s, c, now, DecideCase(s, actor, input, now).events);
  }

  lemma CorpusFacts(s: State, actor: Actor, c: Command, input: Corpus, now: Time)
    requires Inv(s) && DecideCorpus(s, actor, input, now).Accepted?
    ensures Facts(s, c, now, DecideCorpus(s, actor, input, now).events)
  {
    var events := DecideCorpus(s, actor, input, now).events;
    CorpusChecked(s, actor, input, now);
    QuietSound(s.auth, events, now);
    AuditsUntouched(s.auth, events, now);
    CorpusFold(s.records, events[0], s.position, now);
    assert events == [events[0]];
  }

  lemma CorpusChecked(s: State, actor: Actor, input: Corpus, now: Time)
    requires Inv(s) && DecideCorpus(s, actor, input, now).Accepted?
    ensures var events := DecideCorpus(s, actor, input, now).events;
            |events| == 1 && events[0].CorpusApproved? && CorpusAllowed(s.records, events[0])
  {
  }

  lemma PolicyFacts(s: State, actor: Actor, c: Command, input: Policy, now: Time)
    requires Inv(s) && DecidePolicy(s, actor, input, now).Accepted?
    ensures Facts(s, c, now, DecidePolicy(s, actor, input, now).events)
  {
    PolicySound(s, actor, input, now);
    PlainFacts(s, c, now, DecidePolicy(s, actor, input, now).events);
  }

  lemma ReportPlain(events: seq<Event>)
    requires |events| == 1 && events[0].EvaluationCompiled?
    ensures Plain(events)
  {
  }

  lemma PacketPlain(events: seq<Event>)
    requires OpensPacket(events)
    ensures Plain(events) && AllQuiet(events)
  {
  }

  lemma ExplicitSuspendFacts(s: State, actor: Actor, c: Command, policyRevisionId: Id, reason: string, sourceRef: Ref, now: Time)
    requires Inv(s) && DecideSuspend(s, actor, policyRevisionId, reason, sourceRef, now).Accepted?
    ensures Facts(s, c, now, DecideSuspend(s, actor, policyRevisionId, reason, sourceRef, now).events)
  {
    ExplicitSuspendSound(s, actor, policyRevisionId, reason, sourceRef, now);
    PlainFacts(s, c, now, DecideSuspend(s, actor, policyRevisionId, reason, sourceRef, now).events);
  }

  lemma QueuedFacts(s: State, c: Command, invocationId: Id, subject: StoredSubject, purpose: Purpose, input: CaseInput, caseRef: Option<Ref>, now: Time)
    requires Inv(s) && invocationId !in s.records.invocations
    ensures Facts(s, c, now, Queued(s, invocationId, subject, purpose, input, caseRef, now).events)
  {
    LeaseEventFacts(s, c, now, Queued(s, invocationId, subject, purpose, input, caseRef, now).events[0]);
  }

  lemma QueueForCaseFacts(s: State, actor: Actor, c: Command, id: Id, subjectId: Id, purpose: Purpose, caseId: Id, now: Time)
    requires Inv(s) && DecideQueueForCase(s, actor, id, subjectId, purpose, caseId, now).Accepted?
    ensures Facts(s, c, now, DecideQueueForCase(s, actor, id, subjectId, purpose, caseId, now).events)
  {
    var kase := s.records.cases[caseId];
    QueuedFacts(s, c, id, s.records.subjects[subjectId], purpose, kase.kase.input, Some(Ref(CaseKind, kase.kase.caseId, kase.digest)), now);
  }

  lemma QueueForPacketFacts(s: State, actor: Actor, c: Command, id: Id, subjectId: Id, purpose: Purpose, packetId: Id, revisionId: Id, digest: Digest, now: Time)
    requires Inv(s) && DecideQueueForPacket(s, actor, id, subjectId, purpose, packetId, revisionId, digest, now).Accepted?
    ensures Facts(s, c, now, DecideQueueForPacket(s, actor, id, subjectId, purpose, packetId, revisionId, digest, now).events)
  {
    QueuedFacts(s, c, id, s.records.subjects[subjectId], purpose, CompileInput(s, packetId, revisionId, digest, now).value, None, now);
  }

  lemma CompilePromotionFacts(s: State, actor: Actor, c: Command, packetId: Id, revisionId: Id, bundleId: Id, policyId: Id, reportId: Id, position: nat, now: Time)
    requires Inv(s) && DecideCompilePromotion(s, actor, packetId, revisionId, bundleId, policyId, reportId, position, now).Accepted?
    ensures Facts(s, c, now, DecideCompilePromotion(s, actor, packetId, revisionId, bundleId, policyId, reportId, position, now).events)
  {
    var events := DecideCompilePromotion(s, actor, packetId, revisionId, bundleId, policyId, reportId, position, now).events;
    PacketPlain(events);
    QuietFacts(s, c, now, events);
  }

  lemma AcquireFacts(s: State, actor: Actor, c: Command, invocationId: Id, ownerId: Id, durationMs: int, now: Time)
    requires Inv(s) && DecideAcquire(s, actor, invocationId, ownerId, durationMs, now).Accepted?
    ensures Facts(s, c, now, DecideAcquire(s, actor, invocationId, ownerId, durationMs, now).events)
  {
    LeaseEventFacts(s, c, now, DecideAcquire(s, actor, invocationId, ownerId, durationMs, now).events[0]);
  }

  lemma CompleteFacts(s: State, actor: Actor, c: Command, id: Id, recommendationId: Id, ownerId: Id, token: nat, output: Output, receipt: Receipt, now: Time)
    requires Inv(s) && DecideComplete(s, actor, id, recommendationId, ownerId, token, output, receipt, now).Accepted?
    ensures Facts(s, c, now, DecideComplete(s, actor, id, recommendationId, ownerId, token, output, receipt, now).events)
  {
    LeaseEventFacts(s, c, now, DecideComplete(s, actor, id, recommendationId, ownerId, token, output, receipt, now).events[0]);
  }

  lemma FailFacts(s: State, actor: Actor, c: Command, invocationId: Id, ownerId: Id, token: nat, permanent: bool, now: Time)
    requires Inv(s) && DecideFail(s, actor, invocationId, ownerId, token, permanent, now).Accepted?
    ensures Facts(s, c, now, DecideFail(s, actor, invocationId, ownerId, token, permanent, now).events)
  {
    LeaseEventFacts(s, c, now, DecideFail(s, actor, invocationId, ownerId, token, permanent, now).events[0]);
  }

  lemma CancelFacts(s: State, c: Command, invocationId: Id, now: Time)
    requires Inv(s) && DecideCancel(s, invocationId, now).Accepted?
    ensures Facts(s, c, now, DecideCancel(s, invocationId, now).events)
  {
    LeaseEventFacts(s, c, now, DecideCancel(s, invocationId, now).events[0]);
  }

  lemma PromotePlain(s: State, actor: Actor, promotionId: Id, packetId: Id, revisionId: Id, digest: Digest, optionId: Id, precondition: Digest, now: Time)
    requires DecidePromote(s, actor, promotionId, packetId, revisionId, digest, optionId, precondition, now).Accepted?
    ensures Plain(DecidePromote(s, actor, promotionId, packetId, revisionId, digest, optionId, precondition, now).events)
  {
  }

  lemma PromoteFacts(s: State, actor: Actor, c: Command, promotionId: Id, packetId: Id, revisionId: Id, digest: Digest, optionId: Id, precondition: Digest, now: Time)
    requires Inv(s) && DecidePromote(s, actor, promotionId, packetId, revisionId, digest, optionId, precondition, now).Accepted?
    ensures Facts(s, c, now, DecidePromote(s, actor, promotionId, packetId, revisionId, digest, optionId, precondition, now).events)
  {
    PromoteSound(s, actor, promotionId, packetId, revisionId, digest, optionId, precondition, now);
    PromotePlain(s, actor, promotionId, packetId, revisionId, digest, optionId, precondition, now);
    PlainFacts(s, c, now, DecidePromote(s, actor, promotionId, packetId, revisionId, digest, optionId, precondition, now).events);
  }

  lemma EvaluationFacts(s: State, actor: Actor, c: Command, reportId: Id, subjectId: Id, policyId: Id, corpusId: Id, recent: seq<Id>, position: nat, now: Time)
    requires Inv(s) && DecideEvaluation(s, actor, reportId, subjectId, policyId, corpusId, recent, position, now).Accepted?
    ensures Facts(s, c, now, DecideEvaluation(s, actor, reportId, subjectId, policyId, corpusId, recent, position, now).events)
  {
    var events := DecideEvaluation(s, actor, reportId, subjectId, policyId, corpusId, recent, position, now).events;
    EvaluationSound(s, actor, reportId, subjectId, policyId, corpusId, recent, position, now);
    ReportPlain(events);
    PlainFacts(s, c, now, events);
  }

  lemma ActedAudits(a: Auth, c: Command, now: Time, before: seq<Event>, resolution: Resolution, events: seq<Event>)
    requires AuthInv(a) && c.Resolve? && Acted(a, c, now, before, resolution, events)
    ensures var r := AuthAll(a, events, now); r.Success? && ResolvesWith(a, c, now, events, r.value, before, resolution)
  {
    var policy := a.policies[c.policyRevisionId];
    var tail := ResolutionEvents(resolution, policy, now);
    ResolutionEventsSound(a, resolution, policy, now);
    SoundPad(a, before, tail, [], now);
    assert events == before + tail + [];
    ResolutionSound(a, resolution, now);
    var audit := SelectedAudit(resolution, policy, now).audit;
    if resolution.auditSelected {
      AuditedFold(a, resolution, audit, now);
      assert tail == [ResolutionRecorded(resolution, Hash(OfResolution(resolution)))] + [AuditSelected(audit, Hash(OfAudit(audit)))];
    } else {
      assert tail == [ResolutionRecorded(resolution, Hash(OfResolution(resolution)))];
    }
  }

  lemma ActedNoLeases(a: Auth, c: Command, now: Time, before: seq<Event>, resolution: Resolution, events: seq<Event>)
    requires c.Resolve? && Acted(a, c, now, before, resolution, events)
    ensures NoLeases(events) && NoCorpora(events)
  {
  }

  lemma SuspensionPlain(stored: StoredPolicy, source: Ref, reason: Reason, now: Time)
    ensures Plain(SuspensionEvents(stored, source, reason, now))
  {
  }

  lemma ResolveFacts(s: State, actor: Actor, c: Command, now: Time)
    requires Inv(s) && c.Resolve? && DecideResolve(s, actor, c, now).Accepted?
    ensures Facts(s, c, now, DecideResolve(s, actor, c, now).events)
  {
    var events := DecideResolve(s, actor, c, now).events;
    ResolveSound(s, actor, c, now);
    var loss, before, resolution := ResolveCases(s, actor, c, now);
    if loss.Some? {
      SuspensionPlain(s.auth.policies[c.policyRevisionId], loss.value.0, loss.value.1, now);
      PlainFacts(s, c, now, events);
    } else {
      ActedAudits(s.auth, c, now, before, resolution.value, events);
      ActedNoLeases(s.auth, c, now, before, resolution.value, events);
      RecordsUntouched(s.records, events, s.position, now);
    }
  }

  lemma CompleteFold(a: Auth, e: Event, tail: seq<Event>, now: Time)
    requires e.AuditCompleted? && NoAudits(tail)
    ensures var r := AuthAll(a, [e] + tail, now);
            r.Success? ==> r.value.audits == a.audits[e.audit.auditId := StoredAudit(e.audit, e.digest)]
  {
    AuthCons(a, e, tail, now);
    var r := EvolveAuth(a, e, now);
    if r.Success? { AuditsUntouched(r.value, tail, now); }
  }

  /** Events that follow the completion of an audit. */
  ghost predicate Following(e: Event) {
    e.IncidentRecorded? || e.PolicySuspended? || Paging(e)
  }

  lemma FollowingIsPlain(e: Event, tail: seq<Event>)
    requires e.AuditCompleted? && forall i :: 0 <= i < |tail| ==> Following(tail[i])
    ensures NoAudits(tail) && NoLeases([e] + tail) && NoCorpora([e] + tail)
  {
  }

  lemma AuditEvents(s: State, actor: Actor, auditId: Id, finding: Finding, evidenceRefs: seq<Ref>, now: Time) returns (e: Event, tail: seq<Event>)
    requires Inv(s) && DecideAudit(s, actor, auditId, finding, evidenceRefs, now).Accepted?
    ensures DecideAudit(s, actor, auditId, finding, evidenceRefs, now).events == [e] + tail && e.AuditCompleted?
    ensures forall i :: 0 <= i < |tail| ==> Following(tail[i])
    ensures auditId in s.auth.audits && !s.auth.audits[auditId].audit.completed
    ensures e.audit.auditId == auditId && e.audit.completed && e.audit.policyRef == s.auth.audits[auditId].audit.policyRef
  {
    var audit := Reviewed(s.auth.audits[auditId].audit, finding, evidenceRefs, now);
    e, tail := AuditCompleted(audit, Hash(OfAudit(audit))), [];
    if Damning(finding) {
      var fallout := Fallout(audit, s.auth.policies[audit.policyRef.id].policy.policyRevisionId, finding, now);
      var packet := IncidentPacket(s, IncidentOf(audit, finding, now).incidentId, audit.resolutionRef.id, now);
      tail := fallout + packet;
      assert [e] + tail == [e] + fallout + packet;
    } else {
      assert [e] + tail == [e];
    }
  }

  lemma AuditFactsOf(s: State, actor: Actor, c: Command, finding: Finding, evidenceRefs: seq<Ref>, now: Time)
    requires Inv(s) && c.RecordAudit? && DecideAudit(s, actor, c.auditId, finding, evidenceRefs, now).Accepted?
    ensures Facts(s, c, now, DecideAudit(s, actor, c.auditId, finding, evidenceRefs, now).events)
  {
    var events := DecideAudit(s, actor, c.auditId, finding, evidenceRefs, now).events;
    AuditSound(s, actor, c.auditId, finding, evidenceRefs, now);
    var e, tail := AuditEvents(s, actor, c.auditId, finding, evidenceRefs, now);
    FollowingIsPlain(e, tail);
    assert events[0] == e && events[1..] == tail;
    CompleteFold(s.auth, e, tail, now);
    RecordsUntouched(s.records, events, s.position, now);
  }

  ghost predicate FeedsQueue(c: Command) {
    || c.RecordCase? || c.ApproveCorpus? || c.QueueForCase? || c.QueueForPacket? || c.AcquireLease? || c.CompleteInvocation?
    || c.FailInvocation? || c.CancelInvocation?
  }

  lemma QueueCommandFacts(s: State, actor: Actor, c: Command, now: Time)
    requires Inv(s) && FeedsQueue(c) && Decide(s, actor, c, now).Accepted?
    ensures Facts(s, c, now, Decide(s, actor, c, now).events)
  {
    match c
    case RecordCase(kase) => CaseFacts(s, actor, c, kase, now);
    case ApproveCorpus(corpus) => CorpusFacts(s, actor, c, corpus, now);
    case QueueForCase(id, subjectId, purpose, caseId) => QueueForCaseFacts(s, actor, c, id, subjectId, purpose, caseId, now);
    case QueueForPacket(id, subjectId, purpose, packetId, revisionId, digest) =>
      QueueForPacketFacts(s, actor, c, id, subjectId, purpose, packetId, revisionId, digest, now);
    case AcquireLease(id, ownerId, durationMs) => AcquireFacts(s, actor, c, id, ownerId, durationMs, now);
    case CompleteInvocation(id, recommendationId, ownerId, token, output, receipt) =>
      CompleteFacts(s, actor, c, id, recommendationId, ownerId, token, output, receipt, now);
    case FailInvocation(id, ownerId, token, permanent) => FailFacts(s, actor, c, id, ownerId, token, permanent, now);
    case CancelInvocation(id) => CancelFacts(s, c, id, now);
  }

  ghost predicate MovesPolicies(c: Command) {
    c.CompilePromotion? || c.PromotePolicy? || c.Resolve? || c.RecordAudit? || c.SuspendPolicy?
  }

  lemma PolicyCommandFacts(s: State, actor: Actor, c: Command, now: Time)
    requires Inv(s) && MovesPolicies(c) && Decide(s, actor, c, now).Accepted?
    ensures Facts(s, c, now, Decide(s, actor, c, now).events)
  {
    match c
    case CompilePromotion(packetId, revisionId, bundleId, policyId, reportId, position) =>
      CompilePromotionFacts(s, actor, c, packetId, revisionId, bundleId, policyId, reportId, position, now);
    case PromotePolicy(promotionId, packetId, revisionId, digest, optionId, precondition) =>
      PromoteFacts(s, actor, c, promotionId, packetId, revisionId, digest, optionId, precondition, now);
    case Resolve(_, _, _, _, _, _, _, _, _) => ResolveFacts(s, actor, c, now);
    case RecordAudit(_, finding, evidenceRefs) => AuditFactsOf(s, actor, c, finding, evidenceRefs, now);
    case SuspendPolicy(policyId, reason, sourceRef) => ExplicitSuspendFacts(s, actor, c, policyId, reason, sourceRef, now);
  }

  /** For every command: what its accepted events do. */
  lemma DecideFacts(s: State, actor: Actor, c: Command, now: Time)
    requires Inv(s) && Decide(s, actor, c, now).Accepted?
    ensures Facts(s, c, now, Decide(s, actor, c, now).events)
  {
    if FeedsQueue(c) {
      QueueCommandFacts(s, actor, c, now);
    } else if MovesPolicies(c) {
      PolicyCommandFacts(s, actor, c, now);
    } else {
      match c
      case ApproveSubject(subject) => SubjectFacts(s, actor, c, subject, now);
      case RecordContamination(contamination) => ContaminationFacts(s, actor, c, contamination, now);
      case ApprovePolicy(policy) => PolicyFacts(s, actor, c, policy, now);
      case CompileEvaluation(reportId, subjectId, policyId, corpusId, recent, position) =>
        EvaluationFacts(s, actor, c, reportId, subjectId, policyId, corpusId, recent, position, now);
    }
  }
}
