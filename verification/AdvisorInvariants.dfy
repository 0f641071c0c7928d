/** The authority invariant, and exactly how a batch of events may move a policy. */
module AdvisorInvariants {
  import opened Prelude
  import opened AdvisorTypes
  import opened AdvisorEvolve
  import opened AdvisorEvaluation
  import opened AdvisorDecide

  /* ---------- the invariant ---------- */

  ghost predicate Retired(status: PolicyStatus) {
    status == Suspended || status == Superseded
  }

  /** Policies and audits sit under their own ids. */
  ghost predicate Keyed(a: Auth) {
    && (forall k :: k in a.policies ==> a.policies[k].policy.policyRevisionId == k)
    && (forall k :: k in a.audits ==> a.audits[k].audit.auditId == k)
  }

  ghost predicate ReportBound(a: Auth, r: Report) {
    r.policyRef.id in a.policies && a.policies[r.policyRef.id].policy.corpusRef.id == r.corpusRef.id && Honest(r)
  }

  /** A stored report names a known policy and the very corpus that policy is bound to, and means what it says. */
  ghost predicate ReportsBound(a: Auth) {
    forall k :: k in a.reports ==> ReportBound(a, a.reports[k].report)
  }

  /** No active policy is bound to a contaminated corpus revision. */
  ghost predicate ActiveUncontaminated(a: Auth) {
    forall p :: p in a.policies && a.policies[p].status == Active ==> !Contaminated(a, a.policies[p].policy.corpusRef.id)
  }

  ghost predicate PolicyRetired(a: Auth, p: Id) {
    p in a.policies && Retired(a.policies[p].status)
  }

  /** Every policy with a recorded incident, open or not, has lost its authority. */
  ghost predicate IncidentsRetire(a: Auth) {
    forall k :: k in a.incidents ==> PolicyRetired(a, a.incidents[k].incident.policyRef.id)
  }

  ghost predicate AuditBound(a: Auth, audit: Audit) {
    && audit.policyRef.id in a.policies
    && (audit.finding.Some? && Damning(audit.finding.value) ==> PolicyRetired(a, audit.policyRef.id))
  }

  /** Audits point at known policies; a damning finding has cost its policy the authority. */
  ghost predicate AuditsBound(a: Auth) {
    forall k :: k in a.audits ==> AuditBound(a, a.audits[k].audit)
  }

  /** The counter respects the cap and never moves before promotion. */
  ghost predicate CountsBounded(a: Auth) {
    forall p :: p in a.policies ==>
      a.policies[p].resolutionCount <= AUTOMATIC_LIMIT && (a.policies[p].status == Shadow ==> a.policies[p].resolutionCount == 0)
  }

  ghost predicate AuthInv(a: Auth) {
    Keyed(a) && ReportsBound(a) && ActiveUncontaminated(a) && IncidentsRetire(a) && AuditsBound(a) && CountsBounded(a)
  }

  /** Corpora and invocations sit under their own ids. */
  ghost predicate RecordsKeyed(r: Records) {
    && (forall k :: k in r.corpora ==> r.corpora[k].corpus.corpusRevisionId == k)
    && (forall k :: k in r.invocations ==> r.invocations[k].invocation.invocationId == k)
  }

  ghost predicate Inv(s: State) {
    RecordsKeyed(s.records) && AuthInv(s.auth)
  }

  /* ---------- counting events ---------- */

  ghost function Resolutions(events: seq<Event>, p: Id): nat {
    if events == [] then 0
    else (if events[0].ResolutionRecorded? && events[0].resolution.policyRef.id == p then 1 else 0) + Resolutions(events[1..], p)
  }

  ghost function Promotions(events: seq<Event>, p: Id): nat {
    if events == [] then 0
    else (if events[0].PromotionAuthorized? && events[0].promotion.policyRef.id == p then 1 else 0) + Promotions(events[1..], p)
  }

  lemma NoneCounted(events: seq<Event>)
    requires forall i :: 0 <= i < |events| ==> !events[i].ResolutionRecorded? && !events[i].PromotionAuthorized?
    ensures forall p :: Resolutions(events, p) == 0 && Promotions(events, p) == 0
  {
    forall p ensures Resolutions(events, p) == 0 && Promotions(events, p) == 0 { NoneCountedFor(events, p); }
  }

  lemma {:induction false} NoneCountedFor(events: seq<Event>, p: Id)
    requires forall i :: 0 <= i < |events| ==> !events[i].ResolutionRecorded? && !events[i].PromotionAuthorized?
    ensures Resolutions(events, p) == 0 && Promotions(events, p) == 0
  {
    if events != [] { NoneCountedFor(events[1..], p); }
  }

  lemma {:induction false} CountsConcat(a: seq<Event>, b: seq<Event>, p: Id)
    ensures Resolutions(a + b, p) == Resolutions(a, p) + Resolutions(b, p)
    ensures Promotions(a + b, p) == Promotions(a, p) + Promotions(b, p)
  {
    if a == [] {
      assert a + b == b;
    } else {
      assert (a + b)[1..] == a[1..] + b;
      CountsConcat(a[1..], b, p);
    }
  }

  /** Events after which the policy may never act again. */
  ghost predicate Costs(e: Event, p: Id) {
    || (e.PolicySuspended? && e.policyRevisionId == p)
    || (e.IncidentRecorded? && e.incident.policyRef.id == p)
    || (e.AuditCompleted? && e.audit.policyRef.id == p && e.audit.finding.Some? && Damning(e.audit.finding.value))
  }

  /* ---------- the effect of a batch ---------- */

  ghost predicate StatusMove(before: PolicyStatus, after: PolicyStatus) {
    match before
    case Shadow => true
    case Active => after != Shadow
    case Suspended => Retired(after)
    case Superseded => Retired(after)
  }

  ghost function CountOf(a: Auth, p: Id): nat {
    if p in a.policies then a.policies[p].resolutionCount else 0
  }

  /** Policies are never dropped or rewritten, and statuses only move as allowed. */
  ghost predicate Advances(a: Auth, b: Auth) {
    forall p :: p in a.policies ==>
      p in b.policies && b.policies[p].policy == a.policies[p].policy && StatusMove(a.policies[p].status, b.policies[p].status)
  }

  /** A report for the policy is on file that meets the evidence floor. */
  ghost predicate Evaluated(a: Auth, p: Id) {
    exists k :: k in a.reports && a.reports[k].report.policyRef.id == p && FloorMet(a.reports[k].report)
  }

  /** Policies enter in shadow, and reach activity from elsewhere only through a promotion event. */
  ghost predicate Promotes(a: Auth, events: seq<Event>, b: Auth, p: Id) {
    && Promotions(events, p) <= 1
    && (Promotions(events, p) == 1 ==>
          p in a.policies && a.policies[p].status == Shadow && p in b.policies && b.policies[p].status == Active && Evaluated(a, p))
    && (p in b.policies && b.policies[p].status == Active ==>
          p in a.policies && (a.policies[p].status == Active || Promotions(events, p) == 1))
    && (p in b.policies && b.policies[p].status == Shadow ==> p !in a.policies || a.policies[p].status == Shadow)
  }

  /** The counter moves with resolution events, which only an active policy below the cap produces. */
  ghost predicate Resolves(a: Auth, events: seq<Event>, b: Auth, p: Id) {
    && CountOf(b, p) == CountOf(a, p) + Resolutions(events, p)
    && Resolutions(events, p) <= 1
    && (Resolutions(events, p) == 1 ==>
          && p in a.policies && a.policies[p].status == Active && CountOf(a, p) < AUTOMATIC_LIMIT
          && p in b.policies && b.policies[p].status == Active)
  }

  ghost predicate CostsRetire(events: seq<Event>, b: Auth) {
    forall i, p :: 0 <= i < |events| && Costs(events[i], p) ==> PolicyRetired(b, p)
  }

  ghost predicate ContaminationsKept(a: Auth, events: seq<Event>, b: Auth) {
    && (forall k :: k in a.contaminations ==> k in b.contaminations && b.contaminations[k] == a.contaminations[k])
    && (forall i :: 0 <= i < |events| && events[i].ContaminationRecorded? ==> Contaminated(b, events[i].contamination.corpusRef.id))
  }

  ghost predicate Effect(a: Auth, events: seq<Event>, b: Auth) {
    && Advances(a, b)
    && (forall p :: Promotes(a, events, b, p) && Resolves(a, events, b, p))
    && CostsRetire(events, b)
    && ContaminationsKept(a, events, b)
  }

  /** An accepted batch that folds keeps the invariant and has only the allowed effect. */
  ghost predicate Sound(a: Auth, events: seq<Event>, now: Time) {
    var r := AuthAll(a, events, now);
    r.Success? ==> AuthInv(r.value) && Effect(a, events, r.value)
  }

  /* ---------- re-establishing the invariant from what changed ---------- */

  lemma AdvanceReports(a: Auth, b: Auth)
    requires ReportsBound(a) && Advances(a, b)
    requires forall k :: k in b.reports ==> (k in a.reports && b.reports[k] == a.reports[k]) || ReportBound(b, b.reports[k].report)
    ensures ReportsBound(b)
  {
  }

  lemma AdvanceIncidents(a: Auth, b: Auth)
    requires IncidentsRetire(a) && Advances(a, b)
    requires forall k :: k in b.incidents ==> (k in a.incidents && b.incidents[k] == a.incidents[k]) || PolicyRetired(b, b.incidents[k].incident.policyRef.id)
    ensures IncidentsRetire(b)
  {
  }

  lemma AdvanceAudits(a: Auth, b: Auth)
    requires AuditsBound(a) && Advances(a, b)
    requires forall k :: k in b.audits ==> (k in a.audits && b.audits[k] == a.audits[k]) || AuditBound(b, b.audits[k].audit)
    ensures AuditsBound(b)
  {
  }

  /** Unchanged contaminations stay harmless unless a policy newly became active. */
  lemma AdvanceActive(a: Auth, b: Auth)
    requires ActiveUncontaminated(a) && Advances(a, b) && b.contaminations == a.contaminations
    requires forall p :: p in b.policies && b.policies[p].status == Active ==>
               (p in a.policies && a.policies[p].status == Active) || !Contaminated(a, b.policies[p].policy.corpusRef.id)
    ensures ActiveUncontaminated(b)
  {
    assert forall c :: Contaminated(b, c) == Contaminated(a, c);
  }

  /** Events that write no part of the authority state. */
  ghost predicate Quiet(e: Event) {
    && !e.ContaminationRecorded? && !e.EvaluationCompiled? && !e.PolicyApproved? && !e.PromotionAuthorized? && !e.PolicySuspended?
    && !e.ResolutionRecorded? && !e.AuditSelected? && !e.AuditCompleted? && !e.IncidentRecorded?
  }

  lemma {:induction false} QuietFold(a: Auth, events: seq<Event>, now: Time)
    requires forall i :: 0 <= i < |events| ==> Quiet(events[i])
    ensures AuthAll(a, events, now) == Success(a)
    decreases |events|
  {
    if events != [] {
      assert EvolveAuth(a, events[0], now) == Success(a);
      QuietFold(a, events[1..], now);
    }
  }

  /** A batch that leaves policies and contaminations alone has no effect on authority. */
  lemma UntouchedEffect(a: Auth, events: seq<Event>, b: Auth)
    requires b.policies == a.policies && b.contaminations == a.contaminations
    requires forall i :: 0 <= i < |events| ==>
               && !events[i].ResolutionRecorded? && !events[i].PromotionAuthorized? && !events[i].ContaminationRecorded?
               && (forall p :: !Costs(events[i], p))
    ensures Effect(a, events, b)
  {
    NoneCounted(events);
  }

  lemma QuietSound(a: Auth, events: seq<Event>, now: Time)
    requires AuthInv(a)
    requires forall i :: 0 <= i < |events| ==> Quiet(events[i])
    ensures Sound(a, events, now)
  {
    QuietFold(a, events, now);
    UntouchedEffect(a, events, a);
  }

  ghost predicate Silent(e: Event) {
    && !e.ResolutionRecorded? && !e.PromotionAuthorized? && !e.ContaminationRecorded? && !e.PolicySuspended? && !e.IncidentRecorded?
    && (e.AuditCompleted? ==> e.audit.finding.Some? ==> !Damning(e.audit.finding.value))
  }

  ghost predicate AllSilent(events: seq<Event>) {
    forall i :: 0 <= i < |events| ==> Silent(events[i])
  }

  ghost predicate AllQuiet(events: seq<Event>) {
    forall i :: 0 <= i < |events| ==> Quiet(events[i])
  }

  lemma EffectPad(a: Auth, before: seq<Event>, events: seq<Event>, after: seq<Event>, b: Auth)
    requires AllSilent(before) && AllSilent(after) && Effect(a, events, b)
    ensures Effect(a, before + events + after, b)
  {
    var all := before + events + after;
    NoneCounted(before);
    NoneCounted(after);
    forall p ensures Promotes(a, all, b, p) && Resolves(a, all, b, p) {
      CountsConcat(before + events, after, p);
      CountsConcat(before, events, p);
      assert Promotes(a, events, b, p) && Resolves(a, events, b, p);
    }
    forall i, p | 0 <= i < |all| && Costs(all[i], p) ensures PolicyRetired(b, p) {
      PadIndex(before, events, after, i);
    }
    forall i | 0 <= i < |all| && all[i].ContaminationRecorded? ensures Contaminated(b, all[i].contamination.corpusRef.id) {
      PadIndex(before, events, after, i);
    }
  }

  lemma PadIndex(before: seq<Event>, events: seq<Event>, after: seq<Event>, i: int)
    requires 0 <= i < |before + events + after|
    ensures (before + events + after)[i] in events || (before + events + after)[i] in before || (before + events + after)[i] in after
  {
  }

  /** Quiet events around a sound batch change nothing. */
  lemma SoundPad(a: Auth, before: seq<Event>, events: seq<Event>, after: seq<Event>, now: Time)
    requires AllQuiet(before) && AllQuiet(after) && Sound(a, events, now)
    ensures Sound(a, before + events + after, now)
    ensures AuthAll(a, before + events + after, now) == AuthAll(a, events, now)
  {
    QuietFold(a, before, now);
    AuthConcat(a, before + events, after, now);
    AuthConcat(a, before, events, now);
    var r := AuthAll(a, events, now);
    if r.Success? {
      QuietFold(r.value, after, now);
      EffectPad(a, before, events, after, r.value);
    }
  }
}
