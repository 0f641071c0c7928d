/**
 Folding advisor events into the projection (`evolve`), one function per part of the projection.
 A digest that does not match its content, or a missing record, throws.
 */
module AdvisorEvolve {
  import opened Prelude
  import opened AdvisorTypes

  /* ---------- authority ---------- */

  function EvolveAuth(a: Auth, e: Event, at: Time): Result<Auth> {
    match e
    case ContaminationRecorded(contamination, digest) =>
      if Hash(OfContamination(contamination)) != digest then Failure("digest")
      else Success(a.(contaminations := a.contaminations[contamination.contaminationId := StoredContamination(contamination, digest)]))

    case EvaluationCompiled(report, digest) =>
      if Hash(OfReport(report)) != digest then Failure("digest")
      else Success(a.(reports := a.reports[report.reportId := StoredReport(report, digest)]))

    case PolicyApproved(policy, digest, superseded) =>
      if Hash(OfPolicy(policy)) != digest then Failure("digest")
      else if superseded.Some? && superseded.value !in a.policies then Failure("missing policy")
      else
        var policies := if superseded.Some?
                        then a.policies[superseded.value := a.policies[superseded.value].(status := Superseded, supersededAt := Some(at))]
                        else a.policies;
        Success(a.(policies := policies[policy.policyRevisionId := StoredPolicy(policy, digest, Shadow, None, 0, None, NoReason, None)]))

    case PromotionAuthorized(promotion, digest) =>
      if Hash(OfPromotion(promotion)) != digest then Failure("digest")
      else if promotion.policyRef.id !in a.policies then Failure("missing policy")
      else
        var stored := a.policies[promotion.policyRef.id];
        Success(a.(policies := a.policies[stored.policy.policyRevisionId := stored.(
                     status := Active, promotionId := Some(promotion.promotionId), suspendedAt := None, suspensionReason := NoReason)],
                   promotions := a.promotions[promotion.promotionId := StoredPromotion(promotion, digest)]))

    case PolicySuspended(id, reason, _, suspendedAt) =>
      if id !in a.policies then Failure("missing policy")
      else Success(a.(policies := a.policies[id := a.policies[id].(
        status := Suspended, suspendedAt := Some(suspendedAt), suspensionReason := reason)]))

    case ResolutionRecorded(resolution, digest) =>
      if Hash(OfResolution(resolution)) != digest then Failure("digest")
      else if resolution.policyRef.id !in a.policies then Failure("missing policy")
      else
        var stored := a.policies[resolution.policyRef.id];
        Success(a.(resolutions := a.resolutions[resolution.resolutionId := StoredResolution(resolution, digest)],
                   policies := a.policies[stored.policy.policyRevisionId := stored.(resolutionCount := stored.resolutionCount + 1)]))

    case AuditSelected(audit, digest) =>
      if Hash(OfAudit(audit)) != digest then Failure("digest")
      else Success(a.(audits := a.audits[audit.auditId := StoredAudit(audit, digest)]))

    case AuditCompleted(audit, digest) =>
      if Hash(OfAudit(audit)) != digest then Failure("digest")
      else Success(a.(audits := a.audits[audit.auditId := StoredAudit(audit, digest)]))

    case IncidentRecorded(incident, digest) =>
      if Hash(OfIncident(incident)) != digest then Failure("digest")
      else Success(a.(incidents := a.incidents[incident.incidentId := StoredIncident(incident, digest)]))

    case _ => Success(a)
  }

  /* ---------- subjects, cases, corpora and the queue ---------- */

  function EvolveRecords(r: Records, e: Event, position: nat, at: Time): Result<Records> {
    match e
    case SubjectApproved(subject, digest) =>
      if Hash(OfSubject(subject)) != digest then Failure("digest")
      else Success(r.(subjects := r.subjects[subject.subjectId := StoredSubject(subject, digest)]))

    case CaseRecorded(kase, digest) =>
      if Hash(OfCase(kase)) != digest || Hash(OfInput(kase.input)) != kase.inputDigest then Failure("digest")
      else Success(r.(cases := r.cases[kase.caseId := StoredCase(kase, digest, position)]))

    case CorpusApproved(corpus, digest, superseded) =>
      if Hash(OfCorpus(corpus)) != digest then Failure("digest")
      else if superseded.Some? && superseded.value !in r.corpora then Failure("missing corpus")
      else
        var corpora := if superseded.Some?
                       then r.corpora[superseded.value := r.corpora[superseded.value].(supersededAt := Some(at))]
                       else r.corpora;
        Success(r.(corpora := corpora[corpus.corpusRevisionId := StoredCorpus(corpus, digest, None)]))

    case InvocationQueued(invocation, digest) =>
      if Hash(OfInvocation(invocation)) != digest || Hash(OfInput(invocation.input)) != invocation.inputDigest then Failure("digest")
      else Success(r.(invocations := r.invocations[invocation.invocationId := StoredInvocation(invocation, digest, position)]))

    case LeaseAcquired(id, owner, token, attempt, expires) =>
      if id !in r.invocations then Failure("missing invocation")
      else Success(Rewrite(r, id, r.invocations[id].invocation.(
        status := Leased, attempt := attempt, ownerId := Some(owner), fencingToken := token, leaseExpiresAt := Some(expires))))

    case InvocationSucceeded(id, _, _, recommendation, digest, completedAt) =>
      if Hash(OfRecommendation(recommendation)) != digest then Failure("digest")
      else if id !in r.invocations then Failure("missing invocation")
      else
        var r1 := Rewrite(r, id, r.invocations[id].invocation.(
          status := Succeeded, ownerId := None, leaseExpiresAt := None,
          recommendationId := Some(recommendation.recommendationId), completedAt := Some(completedAt)));
        Success(r1.(recommendations := r1.recommendations[recommendation.recommendationId := StoredRecommendation(recommendation, digest)]))

    case InvocationFailed(id, _, _, permanent, availableAt, completedAt) =>
      if id !in r.invocations then Failure("missing invocation")
      else Success(Rewrite(r, id, r.invocations[id].invocation.(
        status := if permanent then Failed else Pending, availableAt := availableAt,
        ownerId := None, leaseExpiresAt := None, completedAt := completedAt)))

    case InvocationCancelled(id, cancelledAt) =>
      if id !in r.invocations then Failure("missing invocation")
      else Success(Rewrite(r, id, r.invocations[id].invocation.(
        status := Cancelled, ownerId := None, leaseExpiresAt := None, completedAt := Some(cancelledAt))))

    case _ => Success(r)
  }

  /** Replace an invocation in place and restate its digest. */
  function Rewrite(r: Records, id: Id, invocation: Invocation): Records
    requires id in r.invocations
  {
    r.(invocations := r.invocations[id := StoredInvocation(invocation, Hash(OfInvocation(invocation)), r.invocations[id].queuedPosition)])
  }

  /* ---------- what the rest of the kernel shares with the advisor ---------- */

  function EvolveHost(h: Host, e: Event): Result<Host> {
    match e
    case PolicyApproved(policy, _, _) =>
      if policy.proposal.None? then Success(h)
      else if policy.proposal.value.id !in h.proposals then Failure("missing proposal")
      else Success(h.(proposals := h.proposals[policy.proposal.value.id := h.proposals[policy.proposal.value.id].(open := false)]))

    case BundleRecorded(bundle, digest) =>
      if Hash(OfBundle(bundle)) != digest then Failure("digest")
      else Success(h.(bundles := h.bundles[bundle.bundleId := StoredBundle(bundle, digest)]))

    case PacketOpened(packetId, revisionId, revisionDigest) =>
      Success(h.(packets := h.packets[packetId := Packet(packetId, revisionId, revisionDigest, PacketOpen)]))

    case RevisionRecorded(revision, digest) =>
      if Hash(OfRevision(revision)) != digest then Failure("digest")
      else Success(h.(revisions := h.revisions[revision.revisionId := StoredRevision(revision, digest)]))

    case ActionApplied(resultId, packetRevisionId, optionId, digest) =>
      Success(h.(actionResults := h.actionResults[resultId := Choice(packetRevisionId, optionId, digest, true)]))

    case DecisionResolved(decisionId, packetId, packetRevisionId, optionId, digest) =>
      if packetId !in h.packets then Failure("missing packet")
      else Success(h.(decisions := h.decisions[decisionId := Choice(packetRevisionId, optionId, digest, true)],
                      packets := h.packets[packetId := h.packets[packetId].(status := PacketResolved)]))

    case PrecedentRecorded(precedentId, digest) =>
      Success(h.(foreign := h.foreign[(HostKind("decision_precedent"), precedentId) := digest]))

    case RequestRecorded(requestId, digest) =>
      Success(h.(foreign := h.foreign[(HostKind("operator_decision_request"), requestId) := digest]))

    case PriorityChanged(programId, priority) =>
      if programId !in h.programs then Failure("missing program")
      else Success(h.(programs := h.programs[programId := Program(h.programs[programId].version + 1, priority)]))

    case _ => Success(h)
  }

  /* ---------- the whole projection ---------- */

  function Evolve(s: State, e: Event, at: Time): Result<State> {
    var host, records, auth := EvolveHost(s.host, e), EvolveRecords(s.records, e, s.position + 1, at), EvolveAuth(s.auth, e, at);
    if host.Failure? then Failure(host.error)
    else if records.Failure? then Failure(records.error)
    else if auth.Failure? then Failure(auth.error)
    else Success(State(host.value, records.value, auth.value, s.position + 1))
  }

  function EvolveAll(s: State, events: seq<Event>, at: Time): Result<State>
    decreases |events|
  {
    if events == [] then Success(s)
    else
      var r := Evolve(s, events[0], at);
      if r.Failure? then r else EvolveAll(r.value, events[1..], at)
  }

  function AuthAll(a: Auth, events: seq<Event>, at: Time): Result<Auth>
    decreases |events|
  {
    if events == [] then Success(a)
    else
      var r := EvolveAuth(a, events[0], at);
      if r.Failure? then r else AuthAll(r.value, events[1..], at)
  }

  function RecordsAll(r: Records, events: seq<Event>, position: nat, at: Time): Result<Records>
    decreases |events|
  {
    if events == [] then Success(r)
    else
      var r1 := EvolveRecords(r, events[0], position + 1, at);
      if r1.Failure? then r1 else RecordsAll(r1.value, events[1..], position + 1, at)
  }

  /** The parts of the projection fold independently of each other. */
  lemma {:induction false} PartsFold(s: State, events: seq<Event>, at: Time)
    requires EvolveAll(s, events, at).Success?
    ensures var t := EvolveAll(s, events, at).value;
            && AuthAll(s.auth, events, at) == Success(t.auth)
            && RecordsAll(s.records, events, s.position, at) == Success(t.records)
            && t.position == s.position + |events|
    decreases |events|
  {
    if events != [] {
      PartsFold(Evolve(s, events[0], at).value, events[1..], at);
    }
  }

  lemma {:induction false} AuthConcat(a: Auth, first: seq<Event>, second: seq<Event>, at: Time)
    ensures AuthAll(a, first + second, at) ==
            (var r := AuthAll(a, first, at); if r.Failure? then r else AuthAll(r.value, second, at))
    decreases |first|
  {
    if first == [] {
      assert first + second == second;
    } else {
      assert (first + second)[1..] == first[1..] + second;
      var r := EvolveAuth(a, first[0], at);
      if r.Success? {
        AuthConcat(r.value, first[1..], second, at);
      }
    }
  }

  lemma AuthCons(a: Auth, e: Event, rest: seq<Event>, at: Time)
    ensures AuthAll(a, [e] + rest, at) == (var r := EvolveAuth(a, e, at); if r.Failure? then r else AuthAll(r.value, rest, at))
    ensures AuthAll(a, [e], at) == EvolveAuth(a, e, at)
  {
    assert ([e] + rest)[1..] == rest;
    assert [e][1..] == [];
  }
}
