/** Promotion and automatic resolution: the two commands that grant or use authority. */
module AdvisorGrants {
  import opened Prelude
  import opened AdvisorTypes
  import opened AdvisorEvolve
  import opened AdvisorDecide
  import opened AdvisorInvariants
  import opened AdvisorSoundness

  /* ---------- events without bearing on authority ---------- */

  /** Only the records of the decided packet are written. */
  ghost predicate Bookkeeping(events: seq<Event>) {
    forall i :: 0 <= i < |events| ==>
      events[i].PriorityChanged? || events[i].ActionApplied? || events[i].DecisionResolved? || events[i].PrecedentRecorded?
  }

  /* ---------- promotion ---------- */

  ghost function WithPromotion(a: Auth, promotion: Promotion): Auth
    requires promotion.policyRef.id in a.policies
  {
    var p := promotion.policyRef.id;
    a.(policies := a.policies[p := a.policies[p].(status := Active, promotionId := Some(promotion.promotionId), suspendedAt := None, suspensionReason := NoReason)],
       promotions := a.promotions[promotion.promotionId := StoredPromotion(promotion, Hash(OfPromotion(promotion)))])
  }

  ghost predicate MayPromote(a: Auth, p: Id) {
    p in a.policies && a.policies[p].status == Shadow && !Contaminated(a, a.policies[p].policy.corpusRef.id) && Evaluated(a, p)
  }

  lemma PromotionAdvances(a: Auth, promotion: Promotion)
    requires Keyed(a) && CountsBounded(a) && MayPromote(a, promotion.policyRef.id)
    ensures var b := WithPromotion(a, promotion); Advances(a, b) && Keyed(b) && CountsBounded(b)
  {
  }

  lemma PromotionInv(a: Auth, promotion: Promotion)
    requires AuthInv(a) && MayPromote(a, promotion.policyRef.id)
    ensures AuthInv(WithPromotion(a, promotion))
  {
    var b := WithPromotion(a, promotion);
    PromotionAdvances(a, promotion);
    AdvanceReports(a, b);
    AdvanceIncidents(a, b);
    AdvanceAudits(a, b);
    AdvanceActive(a, b);
  }

  lemma OnePromotion(promotion: Promotion, digest: Digest, p: Id)
    ensures Promotions([PromotionAuthorized(promotion, digest)], p) == if promotion.policyRef.id == p then 1 else 0
    ensures Resolutions([PromotionAuthorized(promotion, digest)], p) == 0
  {
    var e := PromotionAuthorized(promotion, digest);
    assert [e][1..] == [];
  }

  lemma PromotionEffectOn(a: Auth, promotion: Promotion, digest: Digest, p: Id)
    requires CountsBounded(a) && MayPromote(a, promotion.policyRef.id)
    ensures Promotes(a, [PromotionAuthorized(promotion, digest)], WithPromotion(a, promotion), p)
    ensures Resolves(a, [PromotionAuthorized(promotion, digest)], WithPromotion(a, promotion), p)
  {
    OnePromotion(promotion, digest, p);
  }

  lemma PromotionEffect(a: Auth, promotion: Promotion, digest: Digest)
    requires AuthInv(a) && MayPromote(a, promotion.policyRef.id)
    ensures Effect(a, [PromotionAuthorized(promotion, digest)], WithPromotion(a, promotion))
  {
    PromotionAdvances(a, promotion);
    forall p ensures Promotes(a, [PromotionAuthorized(promotion, digest)], WithPromotion(a, promotion), p)
                     && Resolves(a, [PromotionAuthorized(promotion, digest)], WithPromotion(a, promotion), p) {
      PromotionEffectOn(a, promotion, digest, p);
    }
  }

  lemma PromotionSound(a: Auth, promotion: Promotion, now: Time)
    requires AuthInv(a) && MayPromote(a, promotion.policyRef.id)
    ensures Sound(a, [PromotionAuthorized(promotion, Hash(OfPromotion(promotion)))], now)
  {
    var e := PromotionAuthorized(promotion, Hash(OfPromotion(promotion)));
    AuthCons(a, e, [], now);
    assert EvolveAuth(a, e, now) == Success(WithPromotion(a, promotion));
    PromotionInv(a, promotion);
    PromotionEffect(a, promotion, e.digest);
  }

  /** The link no branch checks: the report ties the policy to the corpus whose cleanliness was checked. */
  lemma PromotableMayPromote(s: State, target: PromotionTarget, now: Time)
    requires Inv(s) && Promotable(s, target, now)
    ensures MayPromote(s.auth, target.policyRef.id)
  {
    var report := s.auth.reports[target.reportRef.id].report;
    assert ReportBound(s.auth, report);
  }

  lemma DecidedBookkeeping(packetId: Id, revisionId: Id, optionId: Id, policyRef: Ref, now: Time)
    ensures Bookkeeping(Decided(packetId, revisionId, optionId, policyRef, now))
  {
  }

  lemma PromotionPadded(a: Auth, promotion: Promotion, tail: seq<Event>, now: Time)
    requires AuthInv(a) && MayPromote(a, promotion.policyRef.id) && Bookkeeping(tail)
    ensures Sound(a, [PromotionAuthorized(promotion, Hash(OfPromotion(promotion)))] + tail, now)
  {
    var e := PromotionAuthorized(promotion, Hash(OfPromotion(promotion)));
    PromotionSound(a, promotion, now);
    SoundPad(a, [], [e], tail, now);
    assert [] + [e] + tail == [e] + tail;
  }

  lemma PromoteSound(s: State, actor: Actor, promotionId: Id, packetId: Id, revisionId: Id, revisionDigest: Digest,
                     optionId: Id, preconditionDigest: Digest, now: Time)
    requires Inv(s)
    ensures var d := DecidePromote(s, actor, promotionId, packetId, revisionId, revisionDigest, optionId, preconditionDigest, now);
            d.Accepted? ==> Sound(s.auth, d.events, now)
  {
    var d := DecidePromote(s, actor, promotionId, packetId, revisionId, revisionDigest, optionId, preconditionDigest, now);
    if d.Accepted? {
      var revision := s.host.revisions[revisionId].revision;
      var promotion := d.events[0].promotion;
      var tail := Decided(revision.packetId, revision.revisionId, optionId, revision.target.policyRef, now);
      PromotableMayPromote(s, revision.target, now);
      DecidedBookkeeping(revision.packetId, revision.revisionId, optionId, revision.target.policyRef, now);
      PromotionPadded(s.auth, promotion, tail, now);
    }
  }

  /* ---------- automatic resolution ---------- */

  ghost function WithResolution(a: Auth, resolution: Resolution): Auth
    requires resolution.policyRef.id in a.policies
  {
    var p := resolution.policyRef.id;
    a.(resolutions := a.resolutions[resolution.resolutionId := StoredResolution(resolution, Hash(OfResolution(resolution)))],
       policies := a.policies[p := a.policies[p].(resolutionCount := a.policies[p].resolutionCount + 1)])
  }

  ghost predicate MayResolve(a: Auth, p: Id) {
    p in a.policies && a.policies[p].status == Active && a.policies[p].resolutionCount < AUTOMATIC_LIMIT
  }

  lemma ResolutionInv(a: Auth, resolution: Resolution)
    requires AuthInv(a) && MayResolve(a, resolution.policyRef.id)
    ensures AuthInv(WithResolution(a, resolution)) && Advances(a, WithResolution(a, resolution))
  {
    var b := WithResolution(a, resolution);
    assert Advances(a, b);
    AdvanceReports(a, b);
    AdvanceIncidents(a, b);
    AdvanceAudits(a, b);
    AdvanceActive(a, b);
  }

  lemma OneResolution(resolution: Resolution, digest: Digest, p: Id)
    ensures Resolutions([ResolutionRecorded(resolution, digest)], p) == if resolution.policyRef.id == p then 1 else 0
    ensures Promotions([ResolutionRecorded(resolution, digest)], p) == 0
  {
    var e := ResolutionRecorded(resolution, digest);
    assert [e][1..] == [];
  }

  lemma ResolutionEffect(a: Auth, resolution: Resolution, digest: Digest)
    requires AuthInv(a) && MayResolve(a, resolution.policyRef.id)
    ensures Effect(a, [ResolutionRecorded(resolution, digest)], WithResolution(a, resolution))
  {
    ResolutionInv(a, resolution);
    forall p ensures Promotes(a, [ResolutionRecorded(resolution, digest)], WithResolution(a, resolution), p)
                     && Resolves(a, [ResolutionRecorded(resolution, digest)], WithResolution(a, resolution), p) {
      OneResolution(resolution, digest, p);
    }
  }

  lemma AuditKeeps(a: Auth, audit: Audit)
    requires AuthInv(a) && audit.policyRef.id in a.policies && audit.finding.None?
    ensures AuthInv(WithAudit(a, audit))
  {
    AdvanceAudits(a, WithAudit(a, audit));
    AdvanceActive(a, WithAudit(a, audit));
  }

  lemma EffectCarries(a: Auth, events: seq<Event>, b: Auth, audit: Audit)
    requires Effect(a, events, b)
    ensures Effect(a, events, WithAudit(b, audit))
  {
    var c := WithAudit(b, audit);
    assert c.policies == b.policies && c.contaminations == b.contaminations;
    assert forall x :: Contaminated(c, x) == Contaminated(b, x);
    assert Advances(a, c);
    forall p ensures Promotes(a, events, c, p) && Resolves(a, events, c, p) {
      assert Promotes(a, events, b, p) && Resolves(a, events, b, p);
    }
    assert CostsRetire(events, c) by {
      assert forall p :: PolicyRetired(b, p) ==> PolicyRetired(c, p);
    }
    assert ContaminationsKept(a, events, c);
  }

  lemma ResolutionSound(a: Auth, resolution: Resolution, now: Time)
    requires AuthInv(a) && MayResolve(a, resolution.policyRef.id)
    ensures var events := [ResolutionRecorded(resolution, Hash(OfResolution(resolution)))];
            AuthAll(a, events, now) == Success(WithResolution(a, resolution)) && Sound(a, events, now)
  {
    var e := ResolutionRecorded(resolution, Hash(OfResolution(resolution)));
    AuthCons(a, e, [], now);
    assert EvolveAuth(a, e, now) == Success(WithResolution(a, resolution));
    ResolutionInv(a, resolution);
    ResolutionEffect(a, resolution, e.digest);
  }

  lemma AuditedFold(a: Auth, resolution: Resolution, audit: Audit, now: Time)
    requires resolution.policyRef.id in a.policies
    requires AuthAll(a, [ResolutionRecorded(resolution, Hash(OfResolution(resolution)))], now) == Success(WithResolution(a, resolution))
    ensures AuthAll(a, [ResolutionRecorded(resolution, Hash(OfResolution(resolution)))] + [AuditSelected(audit, Hash(OfAudit(audit)))], now)
            == Success(WithAudit(WithResolution(a, resolution), audit))
  {
    var first, second := [ResolutionRecorded(resolution, Hash(OfResolution(resolution)))], [AuditSelected(audit, Hash(OfAudit(audit)))];
    AuthConcat(a, first, second, now);
    AuthCons(WithResolution(a, resolution), second[0], [], now);
  }

  lemma AuditedEffect(a: Auth, e: Event, b: Auth, audit: Audit)
    requires Effect(a, [e], b)
    ensures Effect(a, [e] + [AuditSelected(audit, Hash(OfAudit(audit)))], WithAudit(b, audit))
  {
    var second := [AuditSelected(audit, Hash(OfAudit(audit)))];
    EffectCarries(a, [e], b, audit);
    EffectPad(a, [], [e], second, WithAudit(b, audit));
    assert [] + [e] + second == [e] + second;
  }

  lemma AuditedResolutionSound(a: Auth, resolution: Resolution, audit: Audit, now: Time)
    requires AuthInv(a) && MayResolve(a, resolution.policyRef.id) && audit.policyRef.id in a.policies && audit.finding.None?
    ensures Sound(a, [ResolutionRecorded(resolution, Hash(OfResolution(resolution)))] + [AuditSelected(audit, Hash(OfAudit(audit)))], now)
  {
    ResolutionSound(a, resolution, now);
    AuditedFold(a, resolution, audit, now);
    ResolutionInv(a, resolution);
    AuditKeeps(WithResolution(a, resolution), audit);
    ResolutionEffect(a, resolution, Hash(OfResolution(resolution)));
    AuditedEffect(a, ResolutionRecorded(resolution, Hash(OfResolution(resolution))), WithResolution(a, resolution), audit);
  }

  /* ---------- what an accepted resolve leaves ---------- */

  lemma ActionBookkeeping(s: State, revisionId: Id, option: PacketOption, policy: StoredPolicy, now: Time)
    requires revisionId in s.host.revisions && s.host.revisions[revisionId].revision.V1?
    ensures Bookkeeping(ActionEvents(s, revisionId, option, policy, now))
  {
    var revision := s.host.revisions[revisionId].revision;
    DecidedBookkeeping(revision.packetId, revision.revisionId, option.optionId, PolicyRef(policy), now);
  }

  /** A resolve acted: bookkeeping first, then the resolution and perhaps its audit. */
  ghost predicate Acted(a: Auth, c: Command, now: Time, before: seq<Event>, resolution: Resolution, events: seq<Event>)
    requires c.Resolve?
  {
    && Bookkeeping(before) && MayResolve(a, c.policyRevisionId)
    && var policy := a.policies[c.policyRevisionId];
    && (forall k :: k in a.audits ==> !Overdue(a.audits[k], policy.policy.policyRevisionId, now))
    && resolution.resolutionId == c.resolutionId && resolution.policyRef == PolicyRef(policy)
    && resolution.auditSelected == AuditSelectedFor(policy.resolutionCount, c.sample, policy.policy.auditRate)
    && events == before + ResolutionEvents(resolution, policy, now)
  }

  /** An accepted resolve either suspends its policy or acts under an active, unexhausted one with no audit overdue. */
  lemma ResolveCases(s: State, actor: Actor, c: Command, now: Time)
    returns (loss: Option<(Ref, Reason)>, before: seq<Event>, resolution: Option<Resolution>)
    requires c.Resolve? && DecideResolve(s, actor, c, now).Accepted?
    ensures c.policyRevisionId in s.auth.policies && s.auth.policies[c.policyRevisionId].status == Active
    ensures loss.Some? ==>
              DecideResolve(s, actor, c, now).events == SuspensionEvents(s.auth.policies[c.policyRevisionId], loss.value.0, loss.value.1, now)
    ensures loss.None? ==> resolution.Some? && Acted(s.auth, c, now, before, resolution.value, DecideResolve(s, actor, c, now).events)
  {
    var recommendation, policy := s.records.recommendations[c.recommendationId], s.auth.policies[c.policyRevisionId];
    var recommendationRef := Ref(RecommendationKind, recommendation.recommendation.recommendationId, recommendation.digest);
    loss, before, resolution := LossOf(s, policy, recommendationRef, now), [], None;
    if loss.None? {
      var option := ChosenOption(s, c, recommendation.recommendation, policy, now).value;
      ActionBookkeeping(s, c.revisionId, option, policy, now);
      before, resolution := ActionEvents(s, c.revisionId, option, policy, now), Some(ResolutionOf(s, c, policy, recommendationRef, option, now));
    }
  }

  lemma ResolutionEventsSound(a: Auth, resolution: Resolution, policy: StoredPolicy, now: Time)
    requires AuthInv(a) && MayResolve(a, resolution.policyRef.id) && policy.policy.policyRevisionId in a.policies
    ensures Sound(a, ResolutionEvents(resolution, policy, now), now)
  {
    if resolution.auditSelected {
      AuditedResolutionSound(a, resolution, SelectedAudit(resolution, policy, now).audit, now);
    } else {
      var events := [ResolutionRecorded(resolution, Hash(OfResolution(resolution)))];
      ResolutionSound(a, resolution, now);
      assert ResolutionEvents(resolution, policy, now) == events + [] == events;
    }
  }

  lemma ActedSound(a: Auth, c: Command, now: Time, before: seq<Event>, resolution: Resolution, events: seq<Event>)
    requires AuthInv(a) && c.Resolve? && Acted(a, c, now, before, resolution, events)
    ensures Sound(a, events, now)
  {
    var policy := a.policies[c.policyRevisionId];
    ResolutionEventsSound(a, resolution, policy, now);
    SoundPad(a, before, ResolutionEvents(resolution, policy, now), [], now);
    assert events == before + ResolutionEvents(resolution, policy, now) + [];
  }

  lemma ResolveSound(s: State, actor: Actor, c: Command, now: Time)
    requires Inv(s) && c.Resolve?
    ensures var d := DecideResolve(s, actor, c, now); d.Accepted? ==> Sound(s.auth, d.events, now)
  {
    var d := DecideResolve(s, actor, c, now);
    if d.Accepted? {
      var loss, before, resolution := ResolveCases(s, actor, c, now);
      if loss.Some? {
        SuspendOneSound(s.auth, c.policyRevisionId, loss.value.0, loss.value.1, now);
      } else {
        ActedSound(s.auth, c, now, before, resolution.value, d.events);
      }
    }
  }
}
