/** How a program's mode, phase and resume phase are spread over six columns, and read back. */
module ProgramColumns {
  import opened Prelude

  datatype Mode = LegacyV1 | GraphV1 | GraphV2
  datatype Phase = LegacyActive | Draft | Approved | Eligible | Running | Parked | IntegrationPending | Completed

  /** Mode and phase are optional in the schema; `evolve` always sets both. */
  datatype Program = Program(mode: Option<Mode>, phase: Option<Phase>, resume: Option<Phase>)

  datatype Row = Row(programMode: Mode, phase: Phase, attentionPhase: Option<Phase>, portfolioMode: Option<Mode>,
                     portfolioPhase: Option<Phase>, portfolioResumePhase: Option<Phase>)

  function Write(p: Program): Row {
    var v2 := p.mode == Some(GraphV2);
    Row(if v2 then GraphV1 else if p.mode.Some? then p.mode.value else LegacyV1,
        if v2 then (if p.phase == Some(Completed) then Completed else if p.phase == Some(Running) then Running else Approved)
        else if p.phase == Some(Parked) then Running
        else if p.phase.Some? then p.phase.value else LegacyActive,
        if p.phase == Some(Parked) then Some(Parked) else None,
        if v2 then Some(GraphV2) else None,
        if v2 && p.phase != Some(Parked) then p.phase else None,
        p.resume)
  }

  function Read(r: Row): Program {
    Program(Some(if r.portfolioMode == Some(GraphV2) then GraphV2 else r.programMode),
            Some(if r.attentionPhase == Some(Parked) then Parked else if r.portfolioPhase.Some? then r.portfolioPhase.value else r.phase),
            r.portfolioResumePhase)
  }

  /** The CHECK constraints of the table. */
  predicate Accepts(r: Row) {
    && r.programMode != GraphV2
    && (r.phase == LegacyActive || r.phase == Draft || r.phase == Approved || r.phase == Running || r.phase == Completed)
    && (r.attentionPhase.None? || r.attentionPhase.value == Parked)
    && (r.portfolioMode.None? || r.portfolioMode.value == GraphV2)
    && (r.portfolioPhase.None? || r.portfolioPhase.value == Approved || r.portfolioPhase.value == Eligible || r.portfolioPhase.value == Running
        || r.portfolioPhase.value == IntegrationPending || r.portfolioPhase.value == Completed)
    && (r.portfolioResumePhase.None? || r.portfolioResumePhase.value == Eligible || r.portfolioResumePhase.value == Running
        || r.portfolioResumePhase.value == IntegrationPending)
  }

  /** Writing and reading back is the identity exactly on programs that have a mode and a phase. */
  lemma ColumnsRoundTrip(p: Program)
    ensures Read(Write(p)) == p <==> p.mode.Some? && p.phase.Some?
  {
  }

  /** Phases that only the portfolio columns can hold belong to graph_v2, draft and legacy phases to the others. */
  predicate Storable(p: Program) {
    && p.mode.Some? && p.phase.Some?
    && (p.mode.value == GraphV2 ==> p.phase.value != Draft && p.phase.value != LegacyActive)
    && (p.mode.value != GraphV2 ==> p.phase.value != Eligible && p.phase.value != IntegrationPending)
    && (p.resume.None? || p.resume.value == Eligible || p.resume.value == Running || p.resume.value == IntegrationPending)
  }

  /** The table takes the row exactly when mode and phase fit together. */
  lemma TableAccepts(p: Program)
    requires p.mode.Some? && p.phase.Some?
    ensures Accepts(Write(p)) <==> Storable(p)
  {
  }

  /* ---------- programs over a whole log ---------- */

  datatype Event =
    | Created
    | KickedOff
    | GraphApproved(schemaV2: bool)
    | Started
    | ExecutionRequested
    | IntegrationBecamePending
    | CompletedNow
    | ParkedNow
    | Resumed
    | AdmissionGranted
    | AdmissionEnded

  /** The cases of `evolve` that touch mode, phase or resume phase; `None` is a program that does not exist yet. */
  function Evolve(p: Option<Program>, e: Event): Result<Option<Program>> {
    match e
    case Created => Success(Some(Program(Some(LegacyV1), Some(LegacyActive), None)))
    case KickedOff => Success(Some(Program(Some(GraphV1), Some(Draft), None)))
    case AdmissionEnded =>
      if p.Some? && p.value.mode == Some(GraphV2) && p.value.phase == Some(Running) then Success(Some(p.value.(phase := Some(Eligible)))) else Success(p)
    case _ => if p.None? then Failure("Missing program") else Success(Some(Changed(p.value, e)))
  }

  function Changed(p: Program, e: Event): Program {
    match e
    case GraphApproved(schemaV2) =>
      p.(mode := if schemaV2 then Some(GraphV2) else p.mode, phase := if p.phase == Some(Running) then Some(Running) else Some(Approved))
    case Started => p.(phase := Some(Running))
    case ExecutionRequested => Program(Some(GraphV2), Some(Eligible), None)
    case IntegrationBecamePending => p.(phase := Some(IntegrationPending))
    case CompletedNow => p.(phase := Some(Completed))
    case ParkedNow =>
      p.(phase := Some(Parked),
         resume := if p.mode == Some(GraphV2)
                   then (if p.phase == Some(Running) then Some(Eligible)
                         else if p.phase == Some(Eligible) || p.phase == Some(IntegrationPending) then p.phase else None)
                   else None)
    case Resumed => p.(phase := if p.mode == Some(GraphV2) then (if p.resume.Some? then p.resume else Some(Eligible)) else Some(Running), resume := None)
    case AdmissionGranted => p.(phase := Some(Running))
    case _ => p
  }

  /** Integration only becomes pending for programs of the portfolio kind; the deciding command is elsewhere. */
  predicate Sensible(p: Option<Program>, e: Event) {
    e.IntegrationBecamePending? && p.Some? ==> p.value.mode == Some(GraphV2)
  }

  function Fold(events: seq<Event>): Result<Option<Program>> {
    if events == [] then Success(None)
    else
      var before := Fold(events[..|events| - 1]);
      if before.Failure? then before else Evolve(before.value, events[|events| - 1])
  }

  /** The program the log folds to by position `n` is one the table accepts and gives back unchanged. */
  ghost predicate SurvivesAt(events: seq<Event>, n: nat)
    requires n <= |events|
  {
    var r := Fold(events[..n]);
    r.Success? && (r.value.Some? ==> Accepts(Write(r.value.value)) && Read(Write(r.value.value)) == r.value.value)
  }

  ghost predicate SensibleAt(events: seq<Event>, n: nat)
    requires n < |events|
  {
    Fold(events[..n]).Success? ==> Sensible(Fold(events[..n]).value, events[n])
  }

  /** Among storable programs exactly the sensible events lead to storable programs. */
  lemma ChangedKeeps(p: Program, e: Event)
    requires Storable(p)
    ensures Storable(Changed(p, e)) <==> Sensible(Some(p), e)
  {
  }

  lemma EvolvedKeeps(p: Option<Program>, e: Event)
    requires (p.Some? ==> Storable(p.value)) && Evolve(p, e).Success?
    ensures var q := Evolve(p, e).value; (q.Some? ==> Storable(q.value)) <==> Sensible(p, e)
  {
    if p.Some? { ChangedKeeps(p.value, e); }
  }

  /** A stored program comes back unchanged and fits the table exactly when it is storable. */
  lemma SurvivesWhenStorable(events: seq<Event>, n: nat)
    requires n <= |events| && Fold(events[..n]).Success?
    ensures var p := Fold(events[..n]).value; SurvivesAt(events, n) <==> (p.Some? ==> Storable(p.value))
  {
    var p := Fold(events[..n]).value;
    if p.Some? {
      ColumnsRoundTrip(p.value);
      if p.value.mode.Some? && p.value.phase.Some? { TableAccepts(p.value); }
    }
  }

  lemma {:induction false} PrefixFolds(events: seq<Event>, n: nat)
    requires Fold(events).Success? && n <= |events|
    ensures Fold(events[..n]).Success?
    decreases |events|
  {
    if n == |events| { assert events[..n] == events; } else {
      PrefixFolds(events[..|events| - 1], n);
      assert events[..|events| - 1][..n] == events[..n];
    }
  }

  lemma NextSurvives(events: seq<Event>, n: nat)
    requires Fold(events).Success? && n < |events| && SurvivesAt(events, n)
    ensures SurvivesAt(events, n + 1) <==> SensibleAt(events, n)
  {
    PrefixFolds(events, n + 1);
    assert events[..n + 1][..n] == events[..n] && events[..n + 1][n] == events[n];
    SurvivesWhenStorable(events, n);
    SurvivesWhenStorable(events, n + 1);
    EvolvedKeeps(Fold(events[..n]).value, events[n]);
  }

  lemma {:induction false} SurvivesSoFar(events: seq<Event>, n: nat)
    requires Fold(events).Success? && n <= |events| && forall i: nat :: i < n ==> SensibleAt(events, i)
    ensures SurvivesAt(events, n)
  {
    if n > 0 {
      SurvivesSoFar(events, n - 1);
      NextSurvives(events, n - 1);
    }
  }

  /**
   Along a log that folds, the program is accepted by the table and read back unchanged at every position if and only
   if integration becomes pending for graph_v2 programs alone.
   */
  lemma ReplayedProgramsSurvive(events: seq<Event>)
    requires Fold(events).Success?
    ensures (forall n: nat :: n <= |events| ==> SurvivesAt(events, n)) <==> (forall n: nat :: n < |events| ==> SensibleAt(events, n))
  {
    if forall n: nat :: n < |events| ==> SensibleAt(events, n) {
      forall n: nat | n <= |events| ensures SurvivesAt(events, n) { SurvivesSoFar(events, n); }
    }
    if forall n: nat :: n <= |events| ==> SurvivesAt(events, n) {
      forall n: nat | n < |events| ensures SensibleAt(events, n) {
        assert SurvivesAt(events, n) && SurvivesAt(events, n + 1);
        NextSurvives(events, n);
      }
    }
  }

  /** Without that condition the row is refused: integration pending on a graph_v1 program. */
  lemma PendingGraphV1IsRefused()
    ensures Fold([KickedOff, IntegrationBecamePending]).Success?
    ensures Fold([KickedOff, IntegrationBecamePending]).value.Some?
    ensures !Accepts(Write(Fold([KickedOff, IntegrationBecamePending]).value.value))
  {
    var log := [KickedOff, IntegrationBecamePending];
    assert log[..1] == [KickedOff] && [KickedOff][..0] == [];
    assert Fold([KickedOff]) == Success(Some(Program(Some(GraphV1), Some(Draft), None)));
  }
}
