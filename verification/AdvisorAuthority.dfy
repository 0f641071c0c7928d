/** Safety of automatic authority over every run of the kernel. */
module AdvisorAuthority {
  import opened AdvisorTypes
  import opened AdvisorDecide
  import opened AdvisorInvariants
  import opened AdvisorGrants
  import opened AdvisorFacts
  import opened AdvisorKernel

  /* ---------- what persists from one batch to the next ---------- */

  ghost predicate PolicyKept(a: Auth, p: Id, b: Auth) {
    p in a.policies ==> p in b.policies && b.policies[p].policy == a.policies[p].policy && (PolicyRetired(a, p) ==> PolicyRetired(b, p))
  }

  lemma StepKeeps(s: State, b: Batch, t: State, p: Id, corpus: Id)
    requires Explains(s, b, t)
    ensures PolicyKept(s.auth, p, t.auth)
    ensures Contaminated(s.auth, corpus) ==> Contaminated(t.auth, corpus)
  {
    assert Advances(s.auth, t.auth) && ContaminationsKept(s.auth, b.events, t.auth);
  }

  lemma {:induction false} Persists(k: Kernel, i: int, j: int, p: Id, corpus: Id)
    requires Linked(k) && 0 <= i <= j <= |k.log|
    ensures PolicyKept(At(k, i).auth, p, At(k, j).auth)
    ensures Contaminated(At(k, i).auth, corpus) ==> Contaminated(At(k, j).auth, corpus)
    decreases j - i
  {
    if i < j {
      Persists(k, i, j - 1, p, corpus);
      assert ExplainedAt(k, j - 1);
      StepKeeps(At(k, j - 1), k.log[j - 1], At(k, j), p, corpus);
    }
  }

  /* ---------- the present state ---------- */

  /**
   No active policy is bound to a contaminated corpus revision, every policy with any recorded incident is
   suspended or superseded, and so is one with a serious or harmful finding.
   */
  ghost predicate StandingIsClean(k: Kernel) {
    ActiveUncontaminated(k.state.auth) && IncidentsRetire(k.state.auth) && AuditsBound(k.state.auth) && ReportsBound(k.state.auth)
  }

  lemma StandingAlwaysClean(k: Kernel)
    requires Linked(k)
    ensures StandingIsClean(k)
  {
    assert GoodAt(k, |k.log|);
  }

  /* ---------- lost authority is lost for good ---------- */

  /** The batch suspends the policy, records an incident or damning finding on it, or contaminates its corpus. */
  ghost predicate Costly(events: seq<Event>, p: Id, corpus: Id) {
    exists x :: 0 <= x < |events| && (Costs(events[x], p) || (events[x].ContaminationRecorded? && events[x].contamination.corpusRef.id == corpus))
  }

  ghost predicate LossIsFinal(k: Kernel) {
    forall i, j, p :: 0 <= i <= j < |k.log| && p in k.state.auth.policies
                      && Costly(k.log[i].events, p, k.state.auth.policies[p].policy.corpusRef.id)
                      ==> Resolutions(k.log[j].events, p) == 0
  }

  lemma CostlyLeaves(s: State, b: Batch, t: State, p: Id, corpus: Id)
    requires Explains(s, b, t) && Costly(b.events, p, corpus)
    ensures PolicyRetired(t.auth, p) || Contaminated(t.auth, corpus)
  {
    assert CostsRetire(b.events, t.auth) && ContaminationsKept(s.auth, b.events, t.auth);
  }

  lemma ResolvingIsActive(s: State, b: Batch, t: State, p: Id)
    requires Explains(s, b, t) && Resolutions(b.events, p) != 0
    ensures p in t.auth.policies && t.auth.policies[p].status == Active
  {
    assert Resolves(s.auth, b.events, t.auth, p);
  }

  /** A policy that resolves comes out of the batch in standing, and its corpus clean. */
  lemma ResolvingIsClean(k: Kernel, j: int, p: Id)
    requires Linked(k) && 0 <= j < |k.log| && p in k.state.auth.policies && Resolutions(k.log[j].events, p) != 0
    ensures !PolicyRetired(At(k, j + 1).auth, p)
    ensures !Contaminated(At(k, j + 1).auth, k.state.auth.policies[p].policy.corpusRef.id)
  {
    var late := At(k, j + 1);
    assert ExplainedAt(k, j) && GoodAt(k, j + 1);
    ResolvingIsActive(At(k, j), k.log[j], late, p);
    Persists(k, j + 1, |k.log|, p, p);
  }

  lemma LossAt(k: Kernel, i: int, p: Id, corpus: Id)
    requires Linked(k) && 0 <= i < |k.log| && Costly(k.log[i].events, p, corpus)
    ensures PolicyRetired(At(k, i + 1).auth, p) || Contaminated(At(k, i + 1).auth, corpus)
  {
    assert ExplainedAt(k, i);
    CostlyLeaves(At(k, i), k.log[i], At(k, i + 1), p, corpus);
  }

  lemma LossLasts(k: Kernel, i: int, j: int, p: Id, corpus: Id)
    requires Linked(k) && 0 <= i <= j < |k.log| && Costly(k.log[i].events, p, corpus)
    ensures PolicyRetired(At(k, j + 1).auth, p) || Contaminated(At(k, j + 1).auth, corpus)
  {
    LossAt(k, i, p, corpus);
    Persists(k, i + 1, j + 1, p, corpus);
  }

  lemma NoResolutionAfterLoss(k: Kernel, i: int, j: int, p: Id)
    requires Linked(k) && 0 <= i <= j < |k.log| && p in k.state.auth.policies
    requires Costly(k.log[i].events, p, k.state.auth.policies[p].policy.corpusRef.id)
    ensures Resolutions(k.log[j].events, p) == 0
  {
    LossLasts(k, i, j, p, k.state.auth.policies[p].policy.corpusRef.id);
    if Resolutions(k.log[j].events, p) != 0 {
      ResolvingIsClean(k, j, p);
    }
  }

  /** After a suspension, incident, damning finding or contamination no resolution under the policy ever follows. */
  lemma LostAuthorityIsFinal(k: Kernel)
    requires Linked(k)
    ensures LossIsFinal(k)
  {
    forall i, j, p | 0 <= i <= j < |k.log| && p in k.state.auth.policies
                     && Costly(k.log[i].events, p, k.state.auth.policies[p].policy.corpusRef.id)
      ensures Resolutions(k.log[j].events, p) == 0
    {
      NoResolutionAfterLoss(k, i, j, p);
    }
  }

  /* ---------- promoted at most once, counted exactly ---------- */

  ghost function ResolutionsBefore(log: seq<Batch>, n: int, p: Id): nat
    requires 0 <= n <= |log|
  {
    if n == 0 then 0 else ResolutionsBefore(log, n - 1, p) + Resolutions(log[n - 1].events, p)
  }

  ghost function PromotionsBefore(log: seq<Batch>, n: int, p: Id): nat
    requires 0 <= n <= |log|
  {
    if n == 0 then 0 else PromotionsBefore(log, n - 1, p) + Promotions(log[n - 1].events, p)
  }

  ghost predicate PromotionCount(a: Auth, p: Id, count: nat) {
    && count <= 1
    && (p !in a.policies || a.policies[p].status == Shadow ==> count == 0)
    && (p in a.policies && a.policies[p].status == Active ==> count == 1)
  }

  lemma PromotionStep(s: State, b: Batch, t: State, p: Id, count: nat)
    requires Explains(s, b, t) && PromotionCount(s.auth, p, count)
    ensures PromotionCount(t.auth, p, count + Promotions(b.events, p))
    ensures CountOf(t.auth, p) == CountOf(s.auth, p) + Resolutions(b.events, p)
  {
    assert Promotes(s.auth, b.events, t.auth, p) && Resolves(s.auth, b.events, t.auth, p);
    assert Advances(s.auth, t.auth);
  }

  lemma {:induction false} Counted(k: Kernel, n: int, p: Id)
    requires Linked(k) && 0 <= n <= |k.log|
    ensures CountOf(At(k, n).auth, p) == ResolutionsBefore(k.log, n, p)
    ensures PromotionCount(At(k, n).auth, p, PromotionsBefore(k.log, n, p))
  {
    if n > 0 {
      Counted(k, n - 1, p);
      assert ExplainedAt(k, n - 1);
      PromotionStep(At(k, n - 1), k.log[n - 1], At(k, n), p, PromotionsBefore(k.log, n - 1, p));
    }
  }

  /**
   Each policy revision is promoted at most once, is active only after that promotion, and its counter is the
   number of its resolution events, never above the limit.
   */
  ghost predicate AuthorityIsCounted(k: Kernel) {
    forall p :: CountedFor(k, p)
  }

  ghost predicate CountedFor(k: Kernel, p: Id) {
    && PromotionCount(k.state.auth, p, PromotionsBefore(k.log, |k.log|, p))
    && CountOf(k.state.auth, p) == ResolutionsBefore(k.log, |k.log|, p) <= AUTOMATIC_LIMIT
  }

  lemma AuthorityAlwaysCounted(k: Kernel)
    requires Linked(k)
    ensures AuthorityIsCounted(k)
  {
    assert GoodAt(k, |k.log|);
    forall p ensures CountedFor(k, p) { Counted(k, |k.log|, p); }
  }

  /* ---------- promoted on merit ---------- */

  /** Whenever a policy is promoted, a report on it that meets the evidence floor is on file. */
  ghost predicate PromotedOnMerit(k: Kernel) {
    forall j, p :: 0 <= j < |k.log| && Promotions(k.log[j].events, p) > 0 ==> Evaluated(k.log[j].before.auth, p)
  }

  lemma PromotionsNeedMerit(k: Kernel)
    requires Linked(k)
    ensures PromotedOnMerit(k)
  {
    forall j, p | 0 <= j < |k.log| && Promotions(k.log[j].events, p) > 0 ensures Evaluated(k.log[j].before.auth, p) {
      assert ExplainedAt(k, j);
      PromotionHasMerit(At(k, j), k.log[j], At(k, j + 1), p);
    }
  }

  lemma PromotionHasMerit(s: State, b: Batch, t: State, p: Id)
    requires Explains(s, b, t) && Promotions(b.events, p) > 0
    ensures Evaluated(s.auth, p)
  {
    assert Promotes(s.auth, b.events, t.auth, p);
  }

  /* ---------- audits ---------- */

  /** The batch records a resolution and selects its audit. */
  ghost predicate SelectsFor(events: seq<Event>, resolution: Resolution) {
    exists y :: 0 <= y < |events| && events[y].AuditSelected? && events[y].audit.policyRef == resolution.policyRef
                && events[y].audit.resolutionRef == Ref(ResolutionKind, resolution.resolutionId, Hash(OfResolution(resolution)))
                && !events[y].audit.completed
  }

  ghost predicate RecordsResolution(events: seq<Event>, resolution: Resolution) {
    exists x :: 0 <= x < |events| && events[x].ResolutionRecorded? && events[x].resolution == resolution
  }

  ghost predicate EarlyResolutionsAudited(log: seq<Batch>) {
    forall j, resolution :: 0 <= j < |log| && RecordsResolution(log[j].events, resolution)
                            && ResolutionsBefore(log, j, resolution.policyRef.id) < ALWAYS_AUDITED
                            ==> SelectsFor(log[j].events, resolution)
  }

  /** A batch with a resolution came from a resolve that acted. */
  lemma RecordedByResolve(s: State, b: Batch, t: State, resolution: Resolution) returns (before: seq<Event>)
    requires Explains(s, b, t) && RecordsResolution(b.events, resolution)
    ensures b.command.Resolve? && ResolvesWith(s.auth, b.command, b.now, b.events, t.auth, before, resolution)
  {
    var x :| 0 <= x < |b.events| && b.events[x].ResolutionRecorded? && b.events[x].resolution == resolution;
    assert Audits(b.events[x]) && !NoAudits(b.events);
    if b.command.RecordAudit? && Completes(s.auth, b.command.auditId, b.events, t.auth) {
      assert false;
    }
    var early, found :| ResolvesWith(s.auth, b.command, b.now, b.events, t.auth, early, found);
    before := early;
    ActedRecords(s.auth, b.command, b.now, early, found, b.events, x);
  }

  lemma ActedRecords(a: Auth, c: Command, now: Time, before: seq<Event>, resolution: Resolution, events: seq<Event>, x: int)
    requires c.Resolve? && Acted(a, c, now, before, resolution, events) && 0 <= x < |events| && events[x].ResolutionRecorded?
    ensures events[x].resolution == resolution
  {
  }

  lemma SelectedInBatch(a: Auth, c: Command, now: Time, before: seq<Event>, resolution: Resolution, events: seq<Event>)
    requires c.Resolve? && Acted(a, c, now, before, resolution, events) && resolution.auditSelected
    ensures SelectsFor(events, resolution)
  {
    assert events[|before| + 1] == SelectedAudit(resolution, a.policies[c.policyRevisionId], now);
  }

  /** The first twenty resolutions of every policy revision each carry an audit selected by the same command. */
  lemma FirstResolutionsAudited(k: Kernel)
    requires Linked(k)
    ensures EarlyResolutionsAudited(k.log)
  {
    forall j, resolution | 0 <= j < |k.log| && RecordsResolution(k.log[j].events, resolution)
                           && ResolutionsBefore(k.log, j, resolution.policyRef.id) < ALWAYS_AUDITED
      ensures SelectsFor(k.log[j].events, resolution)
    {
      EarlyAudited(k, j, resolution);
    }
  }

  lemma EarlyAudited(k: Kernel, j: int, resolution: Resolution)
    requires Linked(k) && 0 <= j < |k.log| && RecordsResolution(k.log[j].events, resolution)
    requires ResolutionsBefore(k.log, j, resolution.policyRef.id) < ALWAYS_AUDITED
    ensures SelectsFor(k.log[j].events, resolution)
  {
    assert ExplainedAt(k, j) && GoodAt(k, j);
    var before := RecordedByResolve(At(k, j), k.log[j], At(k, j + 1), resolution);
    Counted(k, j, resolution.policyRef.id);
    SelectedInBatch(At(k, j).auth, k.log[j].command, k.log[j].now, before, resolution, k.log[j].events);
  }

  /* ---------- due audits ---------- */

  ghost predicate Selects(events: seq<Event>, audit: Audit) {
    exists y :: 0 <= y < |events| && events[y].AuditSelected? && events[y].audit == audit
  }

  ghost predicate CompletesAudit(events: seq<Event>, auditId: Id) {
    exists y :: 0 <= y < |events| && events[y].AuditCompleted? && events[y].audit.auditId == auditId
  }

  ghost predicate SelectsAgain(events: seq<Event>, auditId: Id) {
    exists audit :: Selects(events, audit) && audit.auditId == auditId
  }

  ghost predicate CompletedBetween(log: seq<Batch>, i: int, j: int, auditId: Id) {
    exists m :: i < m < j && 0 <= m < |log| && CompletesAudit(log[m].events, auditId)
  }

  /** A resolution with the same id was recorded and selected for audit in between. */
  ghost predicate RearmedBetween(log: seq<Batch>, i: int, j: int, auditId: Id) {
    exists m :: i < m < j && 0 <= m < |log| && SelectsAgain(log[m].events, auditId)
  }

  ghost predicate StillPending(a: Auth, audit: Audit) {
    audit.auditId in a.audits && a.audits[audit.auditId].audit == audit && !audit.completed
  }

  /** An audit is selected by the resolve it belongs to, and is pending afterwards. */
  lemma SelectedByResolve(s: State, b: Batch, t: State, audit: Audit) returns (resolution: Resolution)
    requires Explains(s, b, t) && Selects(b.events, audit)
    ensures RecordsResolution(b.events, resolution) && audit.auditId == AuditIdFor(resolution.resolutionId)
    ensures StillPending(t.auth, audit)
  {
    var y :| 0 <= y < |b.events| && b.events[y].AuditSelected? && b.events[y].audit == audit;
    assert Audits(b.events[y]) && !NoAudits(b.events);
    if b.command.RecordAudit? && Completes(s.auth, b.command.auditId, b.events, t.auth) {
      assert false;
    }
    var early, found :| ResolvesWith(s.auth, b.command, b.now, b.events, t.auth, early, found);
    resolution := found;
    ActedSelects(s.auth, b.command, b.now, early, found, b.events, y);
    ActedRecorded(s.auth, b.command, b.now, early, found, b.events);
  }

  lemma ActedSelects(a: Auth, c: Command, now: Time, before: seq<Event>, resolution: Resolution, events: seq<Event>, y: int)
    requires c.Resolve? && Acted(a, c, now, before, resolution, events) && 0 <= y < |events| && events[y].AuditSelected?
    ensures resolution.auditSelected && events[y] == SelectedAudit(resolution, a.policies[c.policyRevisionId], now)
  {
  }

  lemma ActedRecorded(a: Auth, c: Command, now: Time, before: seq<Event>, resolution: Resolution, events: seq<Event>)
    requires c.Resolve? && Acted(a, c, now, before, resolution, events)
    ensures RecordsResolution(events, resolution)
    ensures resolution.auditSelected ==> Selects(events, SelectedAudit(resolution, a.policies[c.policyRevisionId], now).audit)
  {
    assert events[|before|] == ResolutionRecorded(resolution, Hash(OfResolution(resolution)));
    if resolution.auditSelected { assert events[|before| + 1] == SelectedAudit(resolution, a.policies[c.policyRevisionId], now); }
  }

  /** A pending audit survives a batch unless the batch completes it or selects an audit under its id again. */
  lemma PendingStep(s: State, b: Batch, t: State, audit: Audit)
    requires Explains(s, b, t) && StillPending(s.auth, audit)
    ensures StillPending(t.auth, audit) || CompletesAudit(b.events, audit.auditId) || SelectsAgain(b.events, audit.auditId)
  {
    if b.command.Resolve? && Resolved(s.auth, b.command, b.now, b.events, t.auth) {
      var early, found :| ResolvesWith(s.auth, b.command, b.now, b.events, t.auth, early, found);
      ActedRecorded(s.auth, b.command, b.now, early, found, b.events);
    }
  }

  lemma SelectedAt(k: Kernel, i: int, audit: Audit) returns (resolution: Resolution)
    requires Linked(k) && 0 <= i < |k.log| && Selects(k.log[i].events, audit)
    ensures RecordsResolution(k.log[i].events, resolution) && audit.auditId == AuditIdFor(resolution.resolutionId)
    ensures StillPending(At(k, i + 1).auth, audit)
  {
    assert ExplainedAt(k, i);
    resolution := SelectedByResolve(At(k, i), k.log[i], At(k, i + 1), audit);
  }

  /** A selected audit stays pending, exactly as selected, until it is completed or selected again. */
  lemma {:induction false} PendingOrCompleted(k: Kernel, i: int, j: int, audit: Audit)
    requires Linked(k) && 0 <= i < j <= |k.log| && Selects(k.log[i].events, audit)
    ensures StillPending(At(k, j).auth, audit) || CompletedBetween(k.log, i, j, audit.auditId) || RearmedBetween(k.log, i, j, audit.auditId)
    decreases j
  {
    if i + 1 == j {
      var resolution := SelectedAt(k, i, audit);
    } else {
      PendingOrCompleted(k, i, j - 1, audit);
      if StillPending(At(k, j - 1).auth, audit) {
        assert ExplainedAt(k, j - 1);
        PendingStep(At(k, j - 1), k.log[j - 1], At(k, j), audit);
      }
    }
  }

  lemma DueSettled(k: Kernel, i: int, j: int, audit: Audit, resolution: Resolution)
    requires Linked(k) && 0 <= i < j < |k.log| && Selects(k.log[i].events, audit)
    requires RecordsResolution(k.log[j].events, resolution) && audit.policyRef.id == resolution.policyRef.id && audit.dueAt <= k.log[j].now
    ensures CompletedBetween(k.log, i, j, audit.auditId) || RearmedBetween(k.log, i, j, audit.auditId)
  {
    PendingOrCompleted(k, i, j, audit);
    assert ExplainedAt(k, j) && GoodAt(k, j);
    var before := RecordedByResolve(At(k, j), k.log[j], At(k, j + 1), resolution);
  }

  /** A resolution is recorded under the policy of an audit selected earlier and already due. */
  ghost predicate ResolvesPastDue(log: seq<Batch>, i: int, j: int, audit: Audit) {
    && 0 <= i < j < |log| && Selects(log[i].events, audit) && audit.dueAt <= log[j].now
    && exists resolution :: RecordsResolution(log[j].events, resolution) && audit.policyRef.id == resolution.policyRef.id
  }

  ghost predicate DueAuditsSettled(log: seq<Batch>) {
    forall i, j, audit :: ResolvesPastDue(log, i, j, audit)
                          ==> CompletedBetween(log, i, j, audit.auditId) || RearmedBetween(log, i, j, audit.auditId)
  }

  /** At each resolution every audit of its policy already due was completed, or selected again under its id, in between. */
  lemma ResolutionsAwaitDueAudits(k: Kernel)
    requires Linked(k)
    ensures DueAuditsSettled(k.log)
  {
    forall i, j, audit | ResolvesPastDue(k.log, i, j, audit)
      ensures CompletedBetween(k.log, i, j, audit.auditId) || RearmedBetween(k.log, i, j, audit.auditId)
    {
      var resolution :| RecordsResolution(k.log[j].events, resolution) && audit.policyRef.id == resolution.policyRef.id;
      DueSettled(k, i, j, audit, resolution);
    }
  }

  /** No two batches record resolutions under the same id. */
  ghost predicate FreshResolutions(log: seq<Batch>) {
    forall i, j, one, two :: 0 <= i < j < |log| && RecordsResolution(log[i].events, one) && RecordsResolution(log[j].events, two)
                             ==> one.resolutionId != two.resolutionId
  }

  lemma RearmingReusesId(k: Kernel, i: int, j: int, audit: Audit)
    requires Linked(k) && 0 <= i < |k.log| && Selects(k.log[i].events, audit) && RearmedBetween(k.log, i, j, audit.auditId)
    ensures !FreshResolutions(k.log)
  {
    var m :| i < m < j && 0 <= m < |k.log| && SelectsAgain(k.log[m].events, audit.auditId);
    var again :| Selects(k.log[m].events, again) && again.auditId == audit.auditId;
    var one := SelectedAt(k, i, audit);
    var two := SelectedAt(k, m, again);
    assert one.resolutionId == two.resolutionId;
  }

  /** With fresh resolution ids every audit already due has been completed before each resolution under its policy. */
  lemma FreshResolutionsAwaitCompletion(k: Kernel, i: int, j: int, audit: Audit)
    requires Linked(k) && FreshResolutions(k.log) && ResolvesPastDue(k.log, i, j, audit)
    ensures CompletedBetween(k.log, i, j, audit.auditId)
  {
    ResolutionsAwaitDueAudits(k);
    if RearmedBetween(k.log, i, j, audit.auditId) { RearmingReusesId(k, i, j, audit); }
  }

  /* ---------- every run ---------- */

  /** Everything above, for one kernel. */
  ghost predicate AuthorityIsSafe(k: Kernel) {
    && StandingIsClean(k) && LossIsFinal(k) && AuthorityIsCounted(k) && PromotedOnMerit(k) && EarlyResolutionsAudited(k.log)
    && DueAuditsSettled(k.log)
  }

  lemma LinkedIsSafe(k: Kernel)
    requires Linked(k)
    ensures AuthorityIsSafe(k)
  {
    StandingAlwaysClean(k);
    LostAuthorityIsFinal(k);
    AuthorityAlwaysCounted(k);
    PromotionsNeedMerit(k);
    FirstResolutionsAudited(k);
    ResolutionsAwaitDueAudits(k);
  }

  /** Automatic authority is safe in every run of the kernel, from any start, under any commands at any times. */
  lemma AuthorityIsSafeInEveryRun(clock: Time, steps: seq<Step>)
    ensures AuthorityIsSafe(Run(Genesis(clock), steps))
  {
    RunLinked(clock, steps);
    LinkedIsSafe(Run(Genesis(clock), steps));
  }
}
