/** Whole runs of the kernel: commands executed one after another against the event log. */
module AdvisorKernel {
  import opened Prelude
  import opened AdvisorTypes
  import opened AdvisorEvolve
  import opened AdvisorDecide
  import opened AdvisorInvariants
  import opened AdvisorFacts

  /** What one committed command saw and wrote. */
  datatype Batch = Batch(command: Command, now: Time, before: State, events: seq<Event>)

  /** The projection, the log that produced it, and the clock. */
  datatype Kernel = Kernel(state: State, log: seq<Batch>, clock: Time)

  /**
   One step of a run: an advisor command `elapsed` milliseconds after the last step, or a command of
   the rest of the kernel, which may rewrite the host part and take log positions but owns no advisor map.
   */
  datatype Step = Execute(actor: Actor, command: Command, elapsed: nat) | Elsewhere(host: Host, positions: nat)

  /** Decide, then fold: what a command commits, or nothing when it is rejected or the fold throws. */
  ghost function Commit(s: State, actor: Actor, command: Command, now: Time): Option<(seq<Event>, State)> {
    var d := Decide(s, actor, command, now);
    if d.Rejected? then None
    else
      var folded := EvolveAll(s, d.events, now);
      if folded.Failure? then None else Some((d.events, folded.value))
  }

  ghost function Committed(k: Kernel, command: Command, now: Time, done: Option<(seq<Event>, State)>): Kernel {
    if done.None? then k.(clock := now)
    else Kernel(done.value.1, k.log + [Batch(command, now, k.state, done.value.0)], now)
  }

  ghost function Next(k: Kernel, step: Step): Kernel {
    match step
    case Elsewhere(host, positions) => k.(state := k.state.(host := host, position := k.state.position + positions))
    case Execute(actor, command, elapsed) => Committed(k, command, k.clock + elapsed, Commit(k.state, actor, command, k.clock + elapsed))
  }

  lemma CommitFolds(s: State, actor: Actor, command: Command, now: Time)
    ensures var done := Commit(s, actor, command, now); done.Some? ==> EvolveAll(s, done.value.0, now) == Success(done.value.1)
  {
  }

  /** A command leaves the state alone or replaces it with what it commits. */
  lemma NextCommits(k: Kernel, actor: Actor, command: Command, elapsed: nat, now: Time, done: Option<(seq<Event>, State)>)
    requires now == k.clock + elapsed && done == Commit(k.state, actor, command, now)
    ensures Next(k, Execute(actor, command, elapsed)) == Committed(k, command, now, done)
  {
  }

  ghost function Run(k: Kernel, steps: seq<Step>): Kernel {
    if steps == [] then k else Next(Run(k, steps[..|steps| - 1]), steps[|steps| - 1])
  }

  ghost function Genesis(clock: Time): Kernel {
    Kernel(EmptyState(), [], clock)
  }

  /* ---------- a log explains its projection ---------- */

  /** The state in which batch `i` was decided; after the last batch, the current one. */
  ghost function At(k: Kernel, i: int): State
    requires 0 <= i <= |k.log|
  {
    if i < |k.log| then k.log[i].before else k.state
  }

  ghost predicate Explains(before: State, b: Batch, after: State) {
    && Effect(before.auth, b.events, after.auth)
    && AuditFacts(before.auth, b.command, b.now, b.events, after.auth)
    && RecordFacts(before.records, b.now, b.events, after.records)
  }

  ghost predicate GoodAt(k: Kernel, i: int) {
    0 <= i <= |k.log| && Inv(At(k, i))
  }

  ghost predicate ExplainedAt(k: Kernel, i: int) {
    0 <= i < |k.log| && Explains(At(k, i), k.log[i], At(k, i + 1))
  }

  /** Every batch was decided in a good state and explains the next one. */
  ghost predicate Linked(k: Kernel) {
    && At(k, 0).auth == EmptyState().auth && At(k, 0).records.invocations == map[] && At(k, 0).records.corpora == map[]
    && (forall i :: 0 <= i <= |k.log| ==> GoodAt(k, i))
    && (forall i :: 0 <= i < |k.log| ==> ExplainedAt(k, i))
    && (forall i, j :: 0 <= i < j < |k.log| ==> k.log[i].now <= k.log[j].now)
    && (forall i :: 0 <= i < |k.log| ==> k.log[i].now <= k.clock)
  }

  lemma CommitKeeps(s: State, actor: Actor, command: Command, now: Time)
    requires Inv(s)
    ensures var done := Commit(s, actor, command, now);
            done.Some? ==> Inv(done.value.1) && Explains(s, Batch(command, now, s, done.value.0), done.value.1)
  {
    var done := Commit(s, actor, command, now);
    if done.Some? {
      var events := done.value.0;
      PartsFold(s, events, now);
      KeyedAll(s.records, events, s.position, now);
      DecideFacts(s, actor, command, now);
    }
  }

  ghost predicate SameAdvisor(s: State, t: State) {
    s.auth == t.auth && s.records == t.records
  }

  lemma LinkedElsewhere(k: Kernel, t: State, clock: Time)
    requires Linked(k) && SameAdvisor(k.state, t) && k.clock <= clock
    ensures Linked(k.(state := t, clock := clock))
  {
    var m := k.(state := t, clock := clock);
    assert forall i :: 0 <= i <= |k.log| ==> SameAdvisor(At(m, i), At(k, i));
    forall i | 0 <= i <= |k.log| ensures GoodAt(m, i) { assert GoodAt(k, i); }
    forall i | 0 <= i < |k.log| ensures ExplainedAt(m, i) { assert ExplainedAt(k, i); }
  }

  lemma LinkedCommit(k: Kernel, b: Batch, after: State)
    requires Linked(k) && b.before == k.state && k.clock <= b.now && Inv(after) && Explains(k.state, b, after)
    ensures Linked(Kernel(after, k.log + [b], b.now))
  {
    var m := Kernel(after, k.log + [b], b.now);
    assert forall i :: 0 <= i <= |k.log| ==> At(m, i) == At(k, i);
    assert At(m, |k.log| + 1) == after;
    forall i | 0 <= i <= |m.log| ensures GoodAt(m, i) {
      if i <= |k.log| { assert GoodAt(k, i); }
    }
    forall i | 0 <= i < |m.log| ensures ExplainedAt(m, i) {
      if i < |k.log| { assert ExplainedAt(k, i); }
    }
  }

  lemma CommitLinked(k: Kernel, actor: Actor, command: Command, now: Time, events: seq<Event>, after: State)
    requires Linked(k) && k.clock <= now && Commit(k.state, actor, command, now) == Some((events, after))
    ensures Linked(Kernel(after, k.log + [Batch(command, now, k.state, events)], now))
  {
    assert GoodAt(k, |k.log|);
    CommitKeeps(k.state, actor, command, now);
    LinkedCommit(k, Batch(command, now, k.state, events), after);
  }

  lemma StepLinked(k: Kernel, step: Step)
    requires Linked(k)
    ensures Linked(Next(k, step))
  {
    match step
    case Elsewhere(host, positions) => LinkedElsewhere(k, Next(k, step).state, k.clock);
    case Execute(actor, command, elapsed) =>
      var now := k.clock + elapsed;
      var done := Commit(k.state, actor, command, now);
      NextCommits(k, actor, command, elapsed, now, done);
      CommittedLinked(k, actor, command, now, done);
  }

  lemma CommittedLinked(k: Kernel, actor: Actor, command: Command, now: Time, done: Option<(seq<Event>, State)>)
    requires Linked(k) && k.clock <= now && done == Commit(k.state, actor, command, now)
    ensures Linked(Committed(k, command, now, done))
  {
    if done.Some? { CommitLinked(k, actor, command, now, done.value.0, done.value.1); } else { LinkedElsewhere(k, k.state, now); }
  }

  lemma {:induction false} RunLinked(clock: Time, steps: seq<Step>)
    ensures Linked(Run(Genesis(clock), steps))
  {
    if steps != [] {
      RunLinked(clock, steps[..|steps| - 1]);
      StepLinked(Run(Genesis(clock), steps[..|steps| - 1]), steps[|steps| - 1]);
    }
  }
}
