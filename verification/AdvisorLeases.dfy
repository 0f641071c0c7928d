/** The leased, fenced invocation queue over every run of the kernel. */
module AdvisorLeases {
  import opened Prelude
  import opened AdvisorTypes
  import opened AdvisorDecide
  import opened AdvisorFacts
  import opened AdvisorKernel

  /* ---------- the lease history of one invocation ---------- */

  /** The lease event of a batch about invocation `id`, if any; a batch holds at most one. */
  ghost function LeaseOf(events: seq<Event>, id: Id): Option<Event> {
    if |events| == 1 && LeaseEvent(events[0]) && Invoked(events[0]) == id then Some(events[0]) else None
  }

  ghost function Acquired(log: seq<Batch>, n: int, id: Id): nat
    requires 0 <= n <= |log|
  {
    if n == 0 then 0
    else
      var e := LeaseOf(log[n - 1].events, id);
      Acquired(log, n - 1, id) + (if e.Some? && e.value.LeaseAcquired? then 1 else 0)
  }

  ghost function Failures(log: seq<Batch>, n: int, id: Id): nat
    requires 0 <= n <= |log|
  {
    if n == 0 then 0
    else
      var e := LeaseOf(log[n - 1].events, id);
      Failures(log, n - 1, id) + (if e.Some? && e.value.InvocationFailed? then 1 else 0)
  }

  ghost predicate Terminal(i: Invocation) {
    i.status == Succeeded || i.status == Failed || i.status == Cancelled
  }

  /** What the stored invocation says about its history: token = attempt = acquisitions, and failures stay few. */
  ghost predicate Tallies(i: Option<Invocation>, acquired: nat, failures: nat) {
    if i.None? then acquired == 0 && failures == 0
    else
      && i.value.fencingToken == i.value.attempt == acquired
      && failures <= acquired
      && (i.value.status == Leased ==> failures < acquired && failures <= 2)
      && (i.value.status == Pending ==> failures <= 2)
      && failures <= 3
  }

  /** One batch, seen from one invocation. */
  ghost predicate Moves(before: Option<Invocation>, e: Option<Event>, now: Time, after: Option<Invocation>) {
    if e.None? then after == before
    else LeaseEvent(e.value) && after.Some? && LeaseAllowed(before, e.value, now) && LeaseResult(before, e.value, after.value)
  }

  lemma StepMoves(r: Records, now: Time, events: seq<Event>, t: Records, id: Id)
    requires LeaseFacts(r, now, events, t)
    ensures Moves(Stored(r, id), LeaseOf(events, id), now, Stored(t, id))
  {
  }

  lemma BatchMoves(k: Kernel, n: int, id: Id)
    requires Linked(k) && 0 <= n < |k.log|
    ensures Moves(Stored(At(k, n).records, id), LeaseOf(k.log[n].events, id), k.log[n].now, Stored(At(k, n + 1).records, id))
  {
    assert ExplainedAt(k, n);
    StepMoves(At(k, n).records, k.log[n].now, k.log[n].events, At(k, n + 1).records, id);
  }

  lemma TallyStep(before: Option<Invocation>, e: Option<Event>, now: Time, after: Option<Invocation>, acquired: nat, failures: nat)
    requires Tallies(before, acquired, failures) && Moves(before, e, now, after)
    ensures Tallies(after, acquired + (if e.Some? && e.value.LeaseAcquired? then 1 else 0),
                    failures + (if e.Some? && e.value.InvocationFailed? then 1 else 0))
  {
  }

  lemma {:induction false} Tallied(k: Kernel, n: int, id: Id)
    requires Linked(k) && 0 <= n <= |k.log|
    ensures Tallies(Stored(At(k, n).records, id), Acquired(k.log, n, id), Failures(k.log, n, id))
  {
    if n > 0 {
      Tallied(k, n - 1, id);
      BatchMoves(k, n - 1, id);
      TallyStep(Stored(At(k, n - 1).records, id), LeaseOf(k.log[n - 1].events, id), k.log[n - 1].now, Stored(At(k, n).records, id),
                Acquired(k.log, n - 1, id), Failures(k.log, n - 1, id));
    }
  }

  /** Token = attempt = number of acquisitions, and no invocation has failed more than three times. */
  ghost predicate TokensCount(k: Kernel, id: Id) {
    && Failures(k.log, |k.log|, id) <= 3
    && (id in k.state.records.invocations ==>
          var i := k.state.records.invocations[id].invocation;
          i.fencingToken == i.attempt == Acquired(k.log, |k.log|, id))
  }

  lemma TokensCountAcquisitions(k: Kernel, id: Id)
    requires Linked(k)
    ensures TokensCount(k, id)
  {
    Tallied(k, |k.log|, id);
  }

  /* ---------- fencing ---------- */

  /** The token a lease event carries or is checked against. */
  ghost predicate Fenced(e: Event, acquired: nat) {
    && (e.LeaseAcquired? ==> e.fencingToken == e.attempt == acquired + 1)
    && (e.InvocationSucceeded? || e.InvocationFailed? ==> e.fencingToken == acquired > 0)
  }

  ghost predicate FencedAt(log: seq<Batch>, j: int, id: Id)
    requires 0 <= j < |log|
  {
    var e := LeaseOf(log[j].events, id);
    e.Some? ==> Fenced(e.value, Acquired(log, j, id))
  }

  /**
   Acquisitions hand out the tokens 1, 2, 3, ...; a completion or failure is only ever accepted with the
   newest of them, so once a newer token exists no command with an older one succeeds.
   */
  ghost predicate OnlyNewestAccepted(log: seq<Batch>, id: Id) {
    forall j :: 0 <= j < |log| ==> FencedAt(log, j, id)
  }

  lemma OnlyNewestTokenAccepted(k: Kernel, id: Id)
    requires Linked(k)
    ensures OnlyNewestAccepted(k.log, id)
  {
    forall j | 0 <= j < |k.log| ensures FencedAt(k.log, j, id) {
      Tallied(k, j, id);
      BatchMoves(k, j, id);
    }
  }

  /* ---------- terminal statuses ---------- */

  lemma {:induction false} TerminalStays(k: Kernel, i: int, j: int, id: Id)
    requires Linked(k) && 0 <= i <= j <= |k.log|
    requires var v := Stored(At(k, i).records, id); v.Some? && Terminal(v.value)
    ensures Stored(At(k, j).records, id) == Stored(At(k, i).records, id)
    ensures forall m :: i <= m < j ==> LeaseOf(k.log[m].events, id).None?
    decreases j - i
  {
    if i < j {
      TerminalStays(k, i, j - 1, id);
      BatchMoves(k, j - 1, id);
    }
  }

  ghost predicate Finishes(e: Event) {
    e.InvocationSucceeded? || e.InvocationCancelled? || (e.InvocationFailed? && e.permanent)
  }

  ghost predicate FinishesAt(log: seq<Batch>, i: int, id: Id) {
    0 <= i < |log| && var e := LeaseOf(log[i].events, id); e.Some? && Finishes(e.value)
  }

  lemma NothingAfter(k: Kernel, i: int, j: int, id: Id)
    requires Linked(k) && 0 <= i < j < |k.log| && FinishesAt(k.log, i, id)
    ensures LeaseOf(k.log[j].events, id).None?
  {
    BatchMoves(k, i, id);
    TerminalStays(k, i + 1, j + 1, id);
  }

  /** After success, cancellation or final failure there is never another lease event for the invocation. */
  ghost predicate FinishedForGood(log: seq<Batch>, id: Id) {
    forall i, j :: 0 <= i < j < |log| && FinishesAt(log, i, id) ==> LeaseOf(log[j].events, id).None?
  }

  lemma FinishedIsFinal(k: Kernel, id: Id)
    requires Linked(k)
    ensures FinishedForGood(k.log, id)
  {
    forall i, j | 0 <= i < j < |k.log| && FinishesAt(k.log, i, id) ensures LeaseOf(k.log[j].events, id).None? {
      NothingAfter(k, i, j, id);
    }
  }

  /* ---------- leases never overlap ---------- */

  ghost predicate FailedBetween(log: seq<Batch>, i: int, j: int, id: Id, token: nat) {
    exists m :: i < m < j && 0 <= m < |log| && FailsWith(log[m].events, id, token)
  }

  ghost predicate FailsWith(events: seq<Event>, id: Id, token: nat) {
    var e := LeaseOf(events, id);
    e.Some? && e.value.InvocationFailed? && e.value.fencingToken == token
  }

  /** The lease taken with `token` still runs until `expires`. */
  ghost predicate Running(v: Option<Invocation>, token: nat, expires: Time) {
    v.Some? && v.value.status == Leased && v.value.fencingToken == token && v.value.leaseExpiresAt == Some(expires)
  }

  ghost predicate Over(v: Option<Invocation>) {
    v.Some? && Terminal(v.value)
  }

  lemma RunningStep(before: Option<Invocation>, e: Option<Event>, now: Time, after: Option<Invocation>, token: nat, expires: Time)
    requires Running(before, token, expires) && Moves(before, e, now, after)
    ensures Running(after, token, expires) || Over(after) || (e.Some? && e.value.InvocationFailed? && e.value.fencingToken == token)
            || (e.Some? && e.value.LeaseAcquired? && expires <= now)
  {
  }

  /** Until the next acquisition a lease runs on, was given back by a failure, or the invocation is over. */
  lemma {:induction false} LeaseFate(k: Kernel, i: int, j: int, id: Id, token: nat, expires: Time)
    requires Linked(k) && 0 <= i < j <= |k.log| && Running(Stored(At(k, i + 1).records, id), token, expires)
    requires forall m :: i < m < j ==> !Acquires(k.log[m].events, id)
    ensures Running(Stored(At(k, j).records, id), token, expires) || Over(Stored(At(k, j).records, id)) || FailedBetween(k.log, i, j, id, token)
    decreases j
  {
    if i + 1 < j {
      LeaseFate(k, i, j - 1, id, token, expires);
      BatchMoves(k, j - 1, id);
      if Running(Stored(At(k, j - 1).records, id), token, expires) {
        RunningStep(Stored(At(k, j - 1).records, id), LeaseOf(k.log[j - 1].events, id), k.log[j - 1].now, Stored(At(k, j).records, id), token, expires);
        assert !Acquires(k.log[j - 1].events, id);
        if FailsWith(k.log[j - 1].events, id, token) { assert FailedBetween(k.log, i, j, id, token); }
      }
    }
  }

  ghost predicate Acquires(events: seq<Event>, id: Id) {
    LeaseOf(events, id).Some? && LeaseOf(events, id).value.LeaseAcquired?
  }

  /** The first acquisition after batch `i`, at or before `j`. */
  lemma NextAcquisition(log: seq<Batch>, i: int, j: int, id: Id) returns (m: int)
    requires 0 <= i < j < |log| && Acquires(log[j].events, id)
    ensures i < m <= j && Acquires(log[m].events, id) && forall x :: i < x < m ==> !Acquires(log[x].events, id)
  {
    m := i + 1;
    while !Acquires(log[m].events, id)
      invariant i < m <= j
      invariant forall x :: i < x < m ==> !Acquires(log[x].events, id)
      decreases j - m
    {
      m := m + 1;
    }
  }

  lemma ReleasedBefore(k: Kernel, i: int, j: int, id: Id)
    requires Linked(k) && 0 <= i < j < |k.log| && Acquires(k.log[i].events, id) && Acquires(k.log[j].events, id)
    requires forall x :: i < x < j ==> !Acquires(k.log[x].events, id)
    ensures var e := LeaseOf(k.log[i].events, id).value;
            e.leaseExpiresAt <= k.log[j].now || FailedBetween(k.log, i, j, id, e.fencingToken)
  {
    var e := LeaseOf(k.log[i].events, id).value;
    BatchMoves(k, i, id);
    LeaseFate(k, i, j, id, e.fencingToken, e.leaseExpiresAt);
    BatchMoves(k, j, id);
  }

  ghost predicate EndedBy(log: seq<Batch>, i: int, j: int, id: Id)
    requires 0 <= i < j < |log| && Acquires(log[i].events, id)
  {
    var e := LeaseOf(log[i].events, id).value;
    e.leaseExpiresAt <= log[j].now || FailedBetween(log, i, j, id, e.fencingToken)
  }

  lemma Disjoint(k: Kernel, i: int, j: int, id: Id)
    requires Linked(k) && 0 <= i < j < |k.log| && Acquires(k.log[i].events, id) && Acquires(k.log[j].events, id)
    ensures EndedBy(k.log, i, j, id)
  {
    var m := NextAcquisition(k.log, i, j, id);
    ReleasedBefore(k, i, m, id);
  }

  /**
   Lease intervals of one invocation never overlap: by the time of any later acquisition the earlier lease
   has expired or its own holder has reported a failure in between.
   */
  ghost predicate NoOverlap(log: seq<Batch>, id: Id) {
    forall i, j :: 0 <= i < j < |log| && Acquires(log[i].events, id) && Acquires(log[j].events, id) ==> EndedBy(log, i, j, id)
  }

  lemma LeasesNeverOverlap(k: Kernel, id: Id)
    requires Linked(k)
    ensures NoOverlap(k.log, id)
  {
    forall i, j | 0 <= i < j < |k.log| && Acquires(k.log[i].events, id) && Acquires(k.log[j].events, id) ensures EndedBy(k.log, i, j, id) {
      Disjoint(k, i, j, id);
    }
  }

  /* ---------- completions come from a holder in time ---------- */

  /** The acquisition at `i` handed out this lease. */
  ghost predicate HandsOut(events: seq<Event>, id: Id, owner: Option<Id>, token: nat, expires: Option<Time>) {
    Acquires(events, id) && var e := LeaseOf(events, id).value; Some(e.ownerId) == owner && e.fencingToken == token && Some(e.leaseExpiresAt) == expires
  }

  ghost predicate HandedOut(log: seq<Batch>, n: int, id: Id, v: Invocation) {
    exists i :: 0 <= i < n && i < |log| && HandsOut(log[i].events, id, v.ownerId, v.fencingToken, v.leaseExpiresAt)
  }

  lemma {:induction false} LeasedWasHandedOut(k: Kernel, n: int, id: Id)
    requires Linked(k) && 0 <= n <= |k.log|
    ensures var v := Stored(At(k, n).records, id); v.Some? && v.value.status == Leased ==> HandedOut(k.log, n, id, v.value)
  {
    if n > 0 {
      LeasedWasHandedOut(k, n - 1, id);
      BatchMoves(k, n - 1, id);
      var v := Stored(At(k, n).records, id);
      if v.Some? && v.value.status == Leased {
        if LeaseOf(k.log[n - 1].events, id).None? {
          assert HandedOut(k.log, n - 1, id, v.value);
        } else {
          assert HandsOut(k.log[n - 1].events, id, v.value.ownerId, v.value.fencingToken, v.value.leaseExpiresAt);
        }
      }
    }
  }

  /** The success at `j` answers an earlier acquisition by the same owner whose lease has not expired. */
  ghost predicate AnswersInTime(log: seq<Batch>, j: int, id: Id)
    requires 0 <= j < |log|
  {
    var e := LeaseOf(log[j].events, id);
    e.Some? && e.value.InvocationSucceeded? ==>
      exists i, expires :: 0 <= i < j && log[j].now < expires && HandsOut(log[i].events, id, Some(e.value.ownerId), e.value.fencingToken, Some(expires))
  }

  lemma SuccessInTime(k: Kernel, j: int, id: Id)
    requires Linked(k) && 0 <= j < |k.log|
    ensures AnswersInTime(k.log, j, id)
  {
    var e := LeaseOf(k.log[j].events, id);
    if e.Some? && e.value.InvocationSucceeded? {
      LeasedWasHandedOut(k, j, id);
      BatchMoves(k, j, id);
      var v := Stored(At(k, j).records, id).value;
      var i :| 0 <= i < j && i < |k.log| && HandsOut(k.log[i].events, id, v.ownerId, v.fencingToken, v.leaseExpiresAt);
      assert k.log[j].now < v.leaseExpiresAt.value;
    }
  }

  ghost predicate SuccessesInTime(log: seq<Batch>, id: Id) {
    forall j :: 0 <= j < |log| ==> AnswersInTime(log, j, id)
  }

  /* ---------- retries back off ---------- */

  ghost predicate Retries(events: seq<Event>, id: Id) {
    LeaseOf(events, id).Some? && LeaseOf(events, id).value.InvocationFailed? && !LeaseOf(events, id).value.permanent
  }

  ghost predicate WaitsUntil(v: Option<Invocation>, at: Time) {
    v.Some? && v.value.status == Pending && v.value.availableAt == at
  }

  lemma {:induction false} KeepsWaiting(k: Kernel, i: int, j: int, id: Id, at: Time)
    requires Linked(k) && 0 <= i <= j <= |k.log| && WaitsUntil(Stored(At(k, i).records, id), at)
    requires forall m :: i <= m < j ==> !Acquires(k.log[m].events, id)
    ensures WaitsUntil(Stored(At(k, j).records, id), at) || Over(Stored(At(k, j).records, id))
    decreases j
  {
    if i < j {
      KeepsWaiting(k, i, j - 1, id, at);
      BatchMoves(k, j - 1, id);
      assert !Acquires(k.log[j - 1].events, id);
    }
  }

  /** The first acquisition after a retryable failure waits out the delay of that attempt. */
  lemma NextWaits(k: Kernel, i: int, j: int, id: Id)
    requires Linked(k) && 0 <= i < j < |k.log| && Retries(k.log[i].events, id) && Acquires(k.log[j].events, id)
    requires forall m :: i < m < j ==> !Acquires(k.log[m].events, id)
    ensures var delay := RetryDelay(LeaseOf(k.log[i].events, id).value.fencingToken); delay.Some? && k.log[i].now + delay.value <= k.log[j].now
  {
    var e := LeaseOf(k.log[i].events, id).value;
    Tallied(k, i, id);
    BatchMoves(k, i, id);
    KeepsWaiting(k, i + 1, j, id, e.availableAt);
    BatchMoves(k, j, id);
  }

  ghost predicate WaitsOut(log: seq<Batch>, i: int, j: int, id: Id)
    requires 0 <= i < j < |log| && Retries(log[i].events, id)
  {
    var delay := RetryDelay(LeaseOf(log[i].events, id).value.fencingToken);
    delay.Some? && log[i].now + delay.value <= log[j].now
  }

  lemma RetryWaits(k: Kernel, i: int, j: int, id: Id)
    requires Linked(k) && 0 <= i < j < |k.log| && Retries(k.log[i].events, id) && Acquires(k.log[j].events, id)
    ensures WaitsOut(k.log, i, j, id)
  {
    var m := NextAcquisition(k.log, i, j, id);
    NextWaits(k, i, m, id);
  }

  /** After a retryable failure of attempt 1 or 2 no acquisition comes before one or five seconds have passed. */
  ghost predicate RetriesBackOff(log: seq<Batch>, id: Id) {
    forall i, j :: 0 <= i < j < |log| && Retries(log[i].events, id) && Acquires(log[j].events, id) ==> WaitsOut(log, i, j, id)
  }

  lemma PunctualAndPatient(k: Kernel, id: Id)
    requires Linked(k)
    ensures SuccessesInTime(k.log, id) && RetriesBackOff(k.log, id)
  {
    forall j | 0 <= j < |k.log| ensures AnswersInTime(k.log, j, id) { SuccessInTime(k, j, id); }
    forall i, j | 0 <= i < j < |k.log| && Retries(k.log[i].events, id) && Acquires(k.log[j].events, id) ensures WaitsOut(k.log, i, j, id) {
      RetryWaits(k, i, j, id);
    }
  }

  /* ---------- every run ---------- */

  ghost predicate LeasesAreFenced(k: Kernel, id: Id) {
    && TokensCount(k, id) && OnlyNewestAccepted(k.log, id) && FinishedForGood(k.log, id) && NoOverlap(k.log, id)
    && SuccessesInTime(k.log, id) && RetriesBackOff(k.log, id)
  }

  lemma LinkedIsFenced(k: Kernel, id: Id)
    requires Linked(k)
    ensures LeasesAreFenced(k, id)
  {
    TokensCountAcquisitions(k, id);
    OnlyNewestTokenAccepted(k, id);
    FinishedIsFinal(k, id);
    LeasesNeverOverlap(k, id);
    PunctualAndPatient(k, id);
  }

  /** The queue is fenced in every run of the kernel, from any start, under any commands at any times. */
  lemma LeasesAreFencedInEveryRun(clock: Time, steps: seq<Step>, id: Id)
    ensures LeasesAreFenced(Run(Genesis(clock), steps), id)
  {
    RunLinked(clock, steps);
    LinkedIsFenced(Run(Genesis(clock), steps), id);
  }
}
