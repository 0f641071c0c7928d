/** What an automatic resolution may do, and that the recommendation has no say in it. */
module AdvisorResolution {
  import opened Prelude
  import opened Sequences
  import opened AdvisorTypes
  import opened AdvisorEvaluation
  import opened AdvisorDecide
  import opened AdvisorEvolve
  import opened AdvisorKernel

  /** What the matcher reads of an input does not depend on when it was compiled. */
  lemma MatcherIgnoresTime(m: Matcher, input: CaseInput, later: Time, optionId: Id)
    ensures MatcherAccepts(m, input, optionId) == MatcherAccepts(m, input.(compiledAt := later), optionId)
  {
  }

  lemma CompiledLater(s: State, packetId: Id, revisionId: Id, digest: Digest, one: Time, two: Time)
    requires CompileInput(s, packetId, revisionId, digest, one).Success?
    ensures CompileInput(s, packetId, revisionId, digest, two) ==
            Success(CompileInput(s, packetId, revisionId, digest, one).value.(compiledAt := two))
  {
  }

  /** A matcher that accepts exactly one option of the input leaves no choice. */
  lemma OnlyOption(m: Matcher, input: CaseInput, one: Id, two: Id)
    requires MatchesOnly(m, input) && MatcherAccepts(m, input, one) && MatcherAccepts(m, input, two)
    ensures one == two
  {
    var kept := Keep(input.options, (o: CaseOption) => MatcherAccepts(m, input, o.optionId));
    var first, second := FindOption(input.options, one).value, FindOption(input.options, two).value;
    assert first in kept && second in kept;
    assert kept == [kept[0]];
  }

  /** What a chosen option is known to satisfy. */
  ghost predicate Permitted(s: State, c: Command, policy: StoredPolicy, now: Time, option: PacketOption)
    requires c.Resolve?
  {
    && c.packetId in s.host.packets && c.revisionId in s.host.revisions
    && var packet, revision := s.host.packets[c.packetId], s.host.revisions[c.revisionId].revision;
    && packet.currentRevisionId == c.revisionId && revision.V1? && PromotionAllowed(option.action)
    && revision.revisionId in s.host.revisions && var compiledFrom := s.host.revisions[revision.revisionId].revision;
    && compiledFrom.V1? && AllAllowed(compiledFrom.options)
    && FirstOption(revision.options, option.optionId) == Some(option)
    && (option.action.Reprioritize? ==> option.action.priority != P0 && option.action.priority in policy.policy.matcher.allowedPriorities)
    && var compiled := CompileInput(s, packet.packetId, revision.revisionId, s.host.revisions[c.revisionId].digest, now);
    && compiled.Success? && MatchesOnly(policy.policy.matcher, compiled.value)
    && MatcherAccepts(policy.policy.matcher, compiled.value, option.optionId)
  }

  lemma EligibleMeansAllowed(s: State, packetId: Id, revisionId: Id, digest: Digest, now: Time)
    requires var r := CompileInput(s, packetId, revisionId, digest, now); r.Success? && r.value.promotionEligible
    ensures revisionId in s.host.revisions && s.host.revisions[revisionId].revision.V1? && AllAllowed(s.host.revisions[revisionId].revision.options)
  {
  }

  /** The host keeps revisions under their own ids. */
  ghost predicate RevisionsKeyed(h: Host) {
    forall k :: k in h.revisions ==> h.revisions[k].revision.revisionId == k
  }

  lemma ChosenIsPermitted(s: State, c: Command, r: Recommendation, policy: StoredPolicy, now: Time)
    requires c.Resolve? && ChosenOption(s, c, r, policy, now).Success?
    ensures Permitted(s, c, policy, now, ChosenOption(s, c, r, policy, now).value)
  {
    var packet, stored := s.host.packets[c.packetId], s.host.revisions[c.revisionId];
    EligibleMeansAllowed(s, packet.packetId, stored.revision.revisionId, stored.digest, now);
  }

  lemma SameChoice(s: State, c: Command, d: Command, policy: StoredPolicy, one: Time, two: Time, first: PacketOption, second: PacketOption)
    requires c.Resolve? && d.Resolve? && c.packetId == d.packetId
    requires Permitted(s, c, policy, one, first) && Permitted(s, d, policy, two, second)
    ensures first == second
  {
    var packet, stored := s.host.packets[c.packetId], s.host.revisions[c.revisionId];
    CompiledLater(s, packet.packetId, stored.revision.revisionId, stored.digest, two, one);
    var input := CompileInput(s, packet.packetId, stored.revision.revisionId, stored.digest, two).value;
    MatcherIgnoresTime(policy.policy.matcher, input, one, second.optionId);
    OnlyOption(policy.policy.matcher, input.(compiledAt := one), first.optionId, second.optionId);
  }

  ghost predicate ActsOn(events: seq<Event>, option: PacketOption) {
    forall y :: 0 <= y < |events| ==>
      && (events[y].ResolutionRecorded? ==> events[y].resolution.optionId == option.optionId)
      && (events[y].PriorityChanged? ==> option.action.Reprioritize? && option.action.priority == events[y].priority)
  }

  lemma FreshActsOn(s: State, c: Command, policy: StoredPolicy, reference: Ref, option: PacketOption, now: Time)
    requires c.Resolve? && c.revisionId in s.host.revisions && s.host.revisions[c.revisionId].revision.V1?
    requires policy.promotionId.Some? && policy.promotionId.value in s.auth.promotions
    ensures ActsOn(ActionEvents(s, c.revisionId, option, policy, now) +
                   ResolutionEvents(ResolutionOf(s, c, policy, reference, option, now), policy, now), option)
  {
  }

  /** A resolve that recorded a resolution acted on a permitted option, and on nothing else. */
  lemma ActsOnPermitted(s: State, actor: Actor, c: Command, now: Time, x: int) returns (option: PacketOption)
    requires c.Resolve? && DecideResolve(s, actor, c, now).Accepted?
    requires 0 <= x < |DecideResolve(s, actor, c, now).events| && DecideResolve(s, actor, c, now).events[x].ResolutionRecorded?
    ensures c.policyRevisionId in s.auth.policies && Permitted(s, c, s.auth.policies[c.policyRevisionId], now, option)
    ensures ActsOn(DecideResolve(s, actor, c, now).events, option)
  {
    var recommendation, policy := s.records.recommendations[c.recommendationId], s.auth.policies[c.policyRevisionId];
    var reference := Ref(RecommendationKind, recommendation.recommendation.recommendationId, recommendation.digest);
    assert LossOf(s, policy, reference, now).None?;
    option := ChosenOption(s, c, recommendation.recommendation, policy, now).value;
    ChosenIsPermitted(s, c, recommendation.recommendation, policy, now);
    FreshActsOn(s, c, policy, reference, option, now);
  }

  /**
   For a fixed state, any two resolves of one packet under one policy that act pick the same option, whatever
   recommendations they carry; every option of the revision the policy matched is on the allowlist, which is the
   packet's own revision where revisions sit under their own ids; a priority change is never to P0 and stays inside the
   matcher's allowed set.
   */
  lemma ResolutionIsDetermined(s: State, actor: Actor, c: Command, one: Time, x: int, actor2: Actor, d: Command, two: Time, y: int)
    requires c.Resolve? && d.Resolve? && c.packetId == d.packetId && c.policyRevisionId == d.policyRevisionId
    requires var e := DecideResolve(s, actor, c, one); e.Accepted? && 0 <= x < |e.events| && e.events[x].ResolutionRecorded?
    requires var e := DecideResolve(s, actor2, d, two); e.Accepted? && 0 <= y < |e.events| && e.events[y].ResolutionRecorded?
    ensures DecideResolve(s, actor, c, one).events[x].resolution.optionId == DecideResolve(s, actor2, d, two).events[y].resolution.optionId
    ensures c.revisionId in s.host.revisions && AllowedFrom(s.host, s.host.revisions[c.revisionId].revision.revisionId)
    ensures RevisionsKeyed(s.host) ==> AllowedFrom(s.host, c.revisionId)
    ensures c.policyRevisionId in s.auth.policies && forall z :: 0 <= z < |DecideResolve(s, actor, c, one).events| ==>
              PriorityWithin(DecideResolve(s, actor, c, one).events[z], s.auth.policies[c.policyRevisionId].policy.matcher)
  {
    var first := ActsOnPermitted(s, actor, c, one, x);
    var second := ActsOnPermitted(s, actor2, d, two, y);
    SameChoice(s, c, d, s.auth.policies[c.policyRevisionId], one, two, first, second);
  }

  /** All options of the stored revision are on the allowlist. */
  ghost predicate AllowedFrom(h: Host, revisionId: Id) {
    revisionId in h.revisions && h.revisions[revisionId].revision.V1? && AllAllowed(h.revisions[revisionId].revision.options)
  }

  ghost predicate PriorityWithin(e: Event, matcher: Matcher) {
    e.PriorityChanged? ==> e.priority != P0 && e.priority in matcher.allowedPriorities
  }

  /* ---------- safety incidents ---------- */

  /** The events put the packet of the incident before the operator. */
  ghost predicate Pages(events: seq<Event>, incidentId: Id, programId: ProgramId) {
    exists i, bundle :: 0 <= i < |events| && events[i] == RevisionRecorded(IncidentRevision(incidentId, programId, bundle), Hash(OfRevision(IncidentRevision(incidentId, programId, bundle))))
  }

  lemma PagesLater(before: seq<Event>, events: seq<Event>, incidentId: Id, programId: ProgramId)
    requires Pages(events, incidentId, programId)
    ensures Pages(before + events, incidentId, programId)
  {
    var i, bundle :| 0 <= i < |events| && events[i] == RevisionRecorded(IncidentRevision(incidentId, programId, bundle), Hash(OfRevision(IncidentRevision(incidentId, programId, bundle))));
    assert (before + events)[|before| + i] == events[i];
  }

  lemma PacketPages(s: State, incidentId: Id, resolutionId: Id, now: Time)
    requires resolutionId in s.auth.resolutions
    requires exists k :: k in s.host.actionResults && s.host.actionResults[k].advisor
                         && s.host.actionResults[k].packetRevisionId == s.auth.resolutions[resolutionId].resolution.packetRevisionRef.id
    ensures Pages(IncidentPacket(s, incidentId, resolutionId, now), incidentId, s.auth.resolutions[resolutionId].resolution.programId)
  {
    var events, programId := IncidentPacket(s, incidentId, resolutionId, now), s.auth.resolutions[resolutionId].resolution.programId;
    var bundle := events[1].bundle;
    assert events[3] == RevisionRecorded(IncidentRevision(incidentId, programId, bundle), Hash(OfRevision(IncidentRevision(incidentId, programId, bundle))));
  }

  /** A damning finding on an automatic resolution whose action is on record puts a packet before the operator in the same batch. */
  lemma DamningAuditPages(s: State, actor: Actor, auditId: Id, finding: Finding, evidenceRefs: seq<Ref>, now: Time)
    requires DecideAudit(s, actor, auditId, finding, evidenceRefs, now).Accepted? && Damning(finding)
    requires s.auth.audits[auditId].audit.resolutionRef.id in s.auth.resolutions
    requires exists k :: k in s.host.actionResults && s.host.actionResults[k].advisor
                         && s.host.actionResults[k].packetRevisionId
                            == s.auth.resolutions[s.auth.audits[auditId].audit.resolutionRef.id].resolution.packetRevisionRef.id
    ensures var audit := Reviewed(s.auth.audits[auditId].audit, finding, evidenceRefs, now);
            Pages(DecideAudit(s, actor, auditId, finding, evidenceRefs, now).events, IncidentOf(audit, finding, now).incidentId,
                  s.auth.resolutions[audit.resolutionRef.id].resolution.programId)
  {
    var audit := Reviewed(s.auth.audits[auditId].audit, finding, evidenceRefs, now);
    var incidentId, programId := IncidentOf(audit, finding, now).incidentId, s.auth.resolutions[audit.resolutionRef.id].resolution.programId;
    PacketPages(s, incidentId, audit.resolutionRef.id, now);
    PagesLater([AuditCompleted(audit, Hash(OfAudit(audit)))] + Fallout(audit, s.auth.policies[audit.policyRef.id].policy.policyRevisionId, finding, now),
               IncidentPacket(s, incidentId, audit.resolutionRef.id, now), incidentId, programId);
  }

  /** No policy, whatever it matches, can resolve the packet of a safety incident. */
  lemma IncidentsNeedTheOperator(s: State, c: Command, r: Recommendation, policy: StoredPolicy, now: Time, incidentId: Id, programId: ProgramId, bundle: Bundle)
    requires c.Resolve? && c.revisionId == IncidentName("revision", incidentId) && c.revisionId in s.host.revisions
    requires s.host.revisions[c.revisionId].revision == IncidentRevision(incidentId, programId, bundle)
    ensures ChosenOption(s, c, r, policy, now).Failure?
  {
  }

  /* ---------- revisions under their own ids ---------- */

  lemma HostKeepsKeyed(h: Host, e: Event)
    requires RevisionsKeyed(h) && EvolveHost(h, e).Success?
    ensures RevisionsKeyed(EvolveHost(h, e).value)
  {
  }

  lemma {:induction false} FoldKeepsKeyed(s: State, events: seq<Event>, at: Time)
    requires RevisionsKeyed(s.host) && EvolveAll(s, events, at).Success?
    ensures RevisionsKeyed(EvolveAll(s, events, at).value.host)
    decreases |events|
  {
    if events != [] {
      HostKeepsKeyed(s.host, events[0]);
      FoldKeepsKeyed(Evolve(s, events[0], at).value, events[1..], at);
    }
  }

  lemma CommitKeepsKeyed(s: State, actor: Actor, command: Command, now: Time, done: Option<(seq<Event>, State)>)
    requires RevisionsKeyed(s.host) && done == Commit(s, actor, command, now)
    ensures done.Some? ==> RevisionsKeyed(done.value.1.host)
  {
    CommitFolds(s, actor, command, now);
    if done.Some? { FoldKeepsKeyed(s, done.value.0, now); }
  }

  lemma NextKeepsKeyed(k: Kernel, step: Step, n: Kernel)
    requires RevisionsKeyed(k.state.host) && (step.Elsewhere? ==> RevisionsKeyed(step.host)) && n == Next(k, step)
    ensures RevisionsKeyed(n.state.host)
  {
    if step.Execute? {
      var now := k.clock + step.elapsed;
      var done := Commit(k.state, step.actor, step.command, now);
      NextCommits(k, step.actor, step.command, step.elapsed, now, done);
      CommitKeepsKeyed(k.state, step.actor, step.command, now, done);
    }
  }

  /** In every run in which the rest of the kernel stores packet revisions under their own ids, they stay so. */
  lemma {:induction false} RevisionsStayKeyed(clock: Time, steps: seq<Step>)
    requires forall i :: 0 <= i < |steps| && steps[i].Elsewhere? ==> RevisionsKeyed(steps[i].host)
    ensures RevisionsKeyed(Run(Genesis(clock), steps).state.host)
  {
    if steps != [] {
      RevisionsStayKeyed(clock, steps[..|steps| - 1]);
      NextKeepsKeyed(Run(Genesis(clock), steps[..|steps| - 1]), steps[|steps| - 1], Run(Genesis(clock), steps));
    }
  }
}
