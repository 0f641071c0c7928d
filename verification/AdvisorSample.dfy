/** A run that earns automatic authority: subject, cases, corpus, policy, answers, evaluation and promotion. */
module AdvisorSample {
  import opened Prelude
  import opened AdvisorTypes
  import opened AdvisorEvolve
  import opened AdvisorDecide
  import opened AdvisorKernel

  /* ---------- running step by step ---------- */

  /** The steps lead from the empty kernel, at time 0 and without time passing, to the state. */
  ghost predicate Reaches(steps: seq<Step>, s: State) {
    Run(Genesis(0), steps).state == s && Run(Genesis(0), steps).clock == 0
  }

  ghost function Step(actor: Actor, command: Command): AdvisorKernel.Step {
    Execute(actor, command, 0)
  }

  lemma Reach(steps: seq<AdvisorKernel.Step>, s: State, actor: Actor, command: Command, events: seq<Event>, t: State)
    requires Reaches(steps, s) && Decide(s, actor, command, 0) == Accepted(events) && EvolveAll(s, events, 0) == Success(t)
    ensures Reaches(steps + [Step(actor, command)], t)
  {
    assert (steps + [Step(actor, command)])[..|steps|] == steps;
  }

  lemma ReachOne(steps: seq<AdvisorKernel.Step>, s: State, actor: Actor, command: Command, e: Event, t: State)
    requires Reaches(steps, s) && Decide(s, actor, command, 0) == Accepted([e]) && Evolve(s, e, 0) == Success(t)
    ensures Reaches(steps + [Step(actor, command)], t)
  {
    assert [e][1..] == [];
    Reach(steps, s, actor, command, [e], t);
  }

  /* ---------- what is recorded ---------- */

  function Opt(): Id {
    Given(0)
  }

  function TheSubject(): Subject {
    Subject(Given(0), 1, None, false, Some("model"), 0)
  }
  function TheStoredSubject(): StoredSubject {
    StoredSubject(TheSubject(), Hash(OfSubject(TheSubject())))
  }
  function SubjectRef(): Ref {
    Ref(SubjectKind, Given(0), Hash(OfSubject(TheSubject())))
  }

  function TheInput(): CaseInput {
    CaseInput(
    Ref(HostKind("packet"), Given(0), Foreign("packet")), 0, "sample", Low, Routine, Reversible, true,
    [CaseOption(Opt(), Approving, RecordOnlyTarget, RecordOnlyParameter, Foreign("option"))], [], [], [], 0)
  }

  const CALIBRATION: nat := 50
  const HOLDOUT: nat := 100

  function CaseOf(i: nat): Case {
    Case(Given(i), TheInput(), Hash(OfInput(TheInput())), Fixture, if i < CALIBRATION then "calibration" else "holdout", ["adversarial"], Opt(), None, 0, 0)
  }

  function CaseRef(i: nat): Ref {
    Ref(CaseKind, Given(i), Hash(OfCase(CaseOf(i))))
  }

  function StoredCaseOf(i: nat): StoredCase {
    StoredCase(CaseOf(i), Hash(OfCase(CaseOf(i))), i + 2)
  }

  function Cases(n: nat): (r: map<Id, StoredCase>)
    ensures forall i: nat :: Given(i) in r <==> i < n
    ensures forall k :: k in r ==> k.Given? && r[k] == StoredCaseOf(k.value)
  {
    if n == 0 then map[] else Cases(n - 1)[Given(n - 1) := StoredCaseOf(n - 1)]
  }

  function Refs(first: nat, count: nat): (r: seq<Ref>)
    ensures |r| == count && forall i :: 0 <= i < count ==> r[i] == CaseRef(first + i)
  {
    seq(count, i requires 0 <= i < count => CaseRef(first + i))
  }

  function TheCorpus(): Corpus {
    Corpus(Given(0), Given(0), 1, None, Refs(0, CALIBRATION), Refs(CALIBRATION, HOLDOUT), [], 0)
  }
  function TheStoredCorpus(): StoredCorpus {
    StoredCorpus(TheCorpus(), Hash(OfCorpus(TheCorpus())), None)
  }
  function CorpusRef(): Ref {
    Ref(CorpusKind, Given(0), Hash(OfCorpus(TheCorpus())))
  }

  function TheMatcher(): Matcher {
    Matcher("sample", Approving, RecordOnlyTarget, [], [], [])
  }
  function ThePolicy(): Policy {
    Policy(Given(0), Given(0), 1, None, None, false, [0], TheMatcher(), SubjectRef(), CorpusRef(), 1.0, 100 * DAY_MS, 0)
  }
  function TheStoredPolicy(): StoredPolicy {
    StoredPolicy(ThePolicy(), Hash(OfPolicy(ThePolicy())), Shadow, None, 0, None, NoReason, None)
  }

  /* ---------- subject, cases, corpus, policy ---------- */

  function CasesState(n: nat): State {
    EmptyState().(records := Records(map[Given(0) := TheStoredSubject()], Cases(n), map[], map[], map[]), position := n + 1)
  }

  lemma ReachSubject() returns (steps: seq<AdvisorKernel.Step>)
    ensures Reaches(steps, CasesState(0))
  {
    assert Reaches([], EmptyState());
    var e := SubjectApproved(TheSubject(), Hash(OfSubject(TheSubject())));
    assert Decide(EmptyState(), Operator, ApproveSubject(TheSubject()), 0) == Accepted([e]);
    ReachOne([], EmptyState(), Operator, ApproveSubject(TheSubject()), e, CasesState(0));
    steps := [] + [Step(Operator, ApproveSubject(TheSubject()))];
  }

  lemma CaseAccepted(n: nat)
    ensures DecideCase(CasesState(n), Operator, CaseOf(n), 0) == Accepted([CaseRecorded(CaseOf(n), Hash(OfCase(CaseOf(n))))])
  {
    assert TheInput().options[0].optionId == Opt();
    assert CaseOf(n).(recordedAt := 0) == CaseOf(n);
  }

  lemma CaseFolds(n: nat)
    ensures Evolve(CasesState(n), CaseRecorded(CaseOf(n), Hash(OfCase(CaseOf(n)))), 0) == Success(CasesState(n + 1))
  {
  }

  lemma {:induction false} ReachCases(n: nat) returns (steps: seq<AdvisorKernel.Step>)
    ensures Reaches(steps, CasesState(n))
  {
    if n == 0 {
      steps := ReachSubject();
    } else {
      var before := ReachCases(n - 1);
      CaseAccepted(n - 1);
      CaseFolds(n - 1);
      ReachOne(before, CasesState(n - 1), Operator, RecordCase(CaseOf(n - 1)), CaseRecorded(CaseOf(n - 1), Hash(OfCase(CaseOf(n - 1)))), CasesState(n));
      steps := before + [Step(Operator, RecordCase(CaseOf(n - 1)))];
    }
  }

  const ALL: nat := CALIBRATION + HOLDOUT

  function CorpusState(): State {
    var s := CasesState(ALL);
    s.(records := s.records.(corpora := map[Given(0) := TheStoredCorpus()]), position := s.position + 1)
  }

  lemma RefsAreExact(s: State, first: nat, count: nat)
    requires s.records.cases == Cases(ALL) && first + count <= ALL
    ensures forall i :: 0 <= i < count ==> Refs(first, count)[i].kind == CaseKind && Exact(s, Refs(first, count)[i])
    ensures forall i :: 0 <= i < count ==> Ids(Refs(first, count))[i] == Given(first + i)
  {
  }

  lemma FamiliesDiffer(s: State, i: int, j: int)
    requires s.records.cases == Cases(ALL) && 0 <= i < CALIBRATION && 0 <= j < HOLDOUT
    ensures Family(s, TheCorpus().calibration[i].id) != Family(s, TheCorpus().holdout[j].id)
  {
    assert Family(s, Given(i)) == Some("calibration") && Family(s, Given(CALIBRATION + j)) == Some("holdout");
    assert |"calibration"| != |"holdout"|;
  }

  lemma CorpusAccepted()
    ensures DecideCorpus(CasesState(ALL), Operator, TheCorpus(), 0) == Accepted([CorpusApproved(TheCorpus(), Hash(OfCorpus(TheCorpus())), None)])
  {
    var s := CasesState(ALL);
    RefsAreExact(s, 0, CALIBRATION);
    RefsAreExact(s, CALIBRATION, HOLDOUT);
    forall i, j | 0 <= i < CALIBRATION && 0 <= j < HOLDOUT ensures Family(s, TheCorpus().calibration[i].id) != Family(s, TheCorpus().holdout[j].id) {
      FamiliesDiffer(s, i, j);
    }
    assert TheCorpus().(approvedAt := 0) == TheCorpus();
  }

  lemma ReachCorpus() returns (steps: seq<AdvisorKernel.Step>)
    ensures Reaches(steps, CorpusState())
  {
    var before := ReachCases(ALL);
    CorpusAccepted();
    ReachOne(before, CasesState(ALL), Operator, ApproveCorpus(TheCorpus()), CorpusApproved(TheCorpus(), Hash(OfCorpus(TheCorpus())), None), CorpusState());
    steps := before + [Step(Operator, ApproveCorpus(TheCorpus()))];
  }

  function PolicyState(): State {
    var s := CorpusState();
    s.(auth := s.auth.(policies := map[Given(0) := TheStoredPolicy()]), position := s.position + 1)
  }

  lemma PolicyAccepted()
    ensures DecidePolicy(CorpusState(), Operator, ThePolicy(), 0) == Accepted([PolicyApproved(ThePolicy(), Hash(OfPolicy(ThePolicy())), None)])
  {
    assert ThePolicy().(approvedAt := 0) == ThePolicy();
  }

  lemma PolicyFolds()
    ensures Evolve(CorpusState(), PolicyApproved(ThePolicy(), Hash(OfPolicy(ThePolicy())), None), 0) == Success(PolicyState())
  {
  }

  lemma ReachPolicy() returns (steps: seq<AdvisorKernel.Step>)
    ensures Reaches(steps, PolicyState())
  {
    var before := ReachCorpus();
    var s, e := CorpusState(), PolicyApproved(ThePolicy(), Hash(OfPolicy(ThePolicy())), None);
    assert Decide(s, Operator, ApprovePolicy(ThePolicy()), 0) == Accepted([e]) by { PolicyAccepted(); }
    assert Evolve(s, e, 0) == Success(PolicyState()) by { PolicyFolds(); }
    ReachOne(before, s, Operator, ApprovePolicy(ThePolicy()), e, PolicyState());
    steps := before + [Step(Operator, ApprovePolicy(ThePolicy()))];
  }

  /* ---------- answering an invocation ---------- */

  function TheOutput(): Output {
    Recommend(Opt(), [], [], [])
  }

  /** What an invocation is about. */
  datatype Question = Question(id: Id, input: CaseInput, purpose: Purpose, caseRef: Option<Ref>)

  function Asked(q: Question): Invocation {
    Invocation(q.id, SubjectRef(), q.input, Hash(OfInput(q.input)), q.purpose, q.caseRef, Pending, 0, 0, None, 0, None, None, 0, None)
  }

  function LeasedTo(q: Question): Invocation {
    Asked(q).(status := Leased, attempt := 1, ownerId := Some(Given(0)), fencingToken := 1, leaseExpiresAt := Some(1_000))
  }

  function Answered(q: Question): Invocation {
    LeasedTo(q).(status := Succeeded, ownerId := None, leaseExpiresAt := None, recommendationId := Some(q.id), completedAt := Some(0))
  }

  function TheReceipt(q: Question): Receipt {
    Receipt(SubjectRef(), Hash(OfInput(q.input)), Hash(OfOutput(TheOutput())), 0, 0, 0)
  }

  function Reply(q: Question): Recommendation {
    Recommendation(q.id, q.id, SubjectRef(), q.input.packetRevisionRef, q.input.programId, q.purpose, TheOutput(), TheReceipt(q), 0)
  }

  function WithInvocation(s: State, q: Question, invocation: Invocation, queued: nat): State {
    s.(records := s.records.(invocations := s.records.invocations[q.id := StoredInvocation(invocation, Hash(OfInvocation(invocation)), queued)]))
  }

  function AskedState(s: State, q: Question): State {
    WithInvocation(s, q, Asked(q), s.position + 1).(position := s.position + 1)
  }

  function LeasedState(s: State, q: Question): State {
    WithInvocation(s, q, LeasedTo(q), s.position + 1).(position := s.position + 2)
  }

  function AnsweredState(s: State, q: Question): State {
    var t := WithInvocation(s, q, Answered(q), s.position + 1);
    t.(records := t.records.(recommendations := t.records.recommendations[q.id := StoredRecommendation(Reply(q), Hash(OfRecommendation(Reply(q))))]),
       position := s.position + 3)
  }

  ghost predicate Answerable(s: State, q: Question) {
    && Given(0) in s.records.subjects && s.records.subjects[Given(0)] == TheStoredSubject()
    && |q.input.options| > 0 && q.input.options[0].optionId == Opt()
  }

  lemma Overwrites<K, V>(m: map<K, V>, k: K, one: V, two: V)
    ensures m[k := one][k := two] == m[k := two]
  {
  }

  lemma LeaseCommits(s: State, q: Question)
    ensures DecideAcquire(AskedState(s, q), System, q.id, Given(0), 1_000, 0) == Accepted([LeaseAcquired(q.id, Given(0), 1, 1, 1_000)])
    ensures Evolve(AskedState(s, q), LeaseAcquired(q.id, Given(0), 1, 1, 1_000), 0) == Success(LeasedState(s, q))
  {
    Overwrites(s.records.invocations, q.id, AskedState(s, q).records.invocations[q.id], LeasedState(s, q).records.invocations[q.id]);
  }

  function AnswerEvent(q: Question): Event {
    InvocationSucceeded(q.id, Given(0), 1, Reply(q), Hash(OfRecommendation(Reply(q))), 0)
  }

  lemma AnswerCommits(s: State, q: Question)
    requires Answerable(s, q)
    ensures DecideComplete(LeasedState(s, q), System, q.id, q.id, Given(0), 1, TheOutput(), TheReceipt(q), 0) == Accepted([AnswerEvent(q)])
    ensures Evolve(LeasedState(s, q), AnswerEvent(q), 0) == Success(AnsweredState(s, q))
  {
    Overwrites(s.records.invocations, q.id, LeasedState(s, q).records.invocations[q.id], AnsweredState(s, q).records.invocations[q.id]);
  }

  lemma ReachLease(steps: seq<AdvisorKernel.Step>, s: State, q: Question) returns (more: seq<AdvisorKernel.Step>)
    requires Reaches(steps, AskedState(s, q))
    ensures Reaches(more, LeasedState(s, q))
  {
    var c := AcquireLease(q.id, Given(0), 1_000);
    LeaseCommits(s, q);
    ReachOne(steps, AskedState(s, q), System, c, LeaseAcquired(q.id, Given(0), 1, 1, 1_000), LeasedState(s, q));
    more := steps + [Step(System, c)];
  }

  lemma ReachAnswer(steps: seq<AdvisorKernel.Step>, s: State, q: Question) returns (more: seq<AdvisorKernel.Step>)
    requires Reaches(steps, LeasedState(s, q)) && Answerable(s, q)
    ensures Reaches(more, AnsweredState(s, q))
  {
    var c := CompleteInvocation(q.id, q.id, Given(0), 1, TheOutput(), TheReceipt(q));
    AnswerCommits(s, q);
    ReachOne(steps, LeasedState(s, q), System, c, AnswerEvent(q), AnsweredState(s, q));
    more := steps + [Step(System, c)];
  }

  lemma ReachAsked(steps: seq<AdvisorKernel.Step>, s: State, q: Question, c: Command) returns (more: seq<AdvisorKernel.Step>)
    requires Reaches(steps, s) && Decide(s, System, c, 0) == Accepted([InvocationQueued(Asked(q), Hash(OfInvocation(Asked(q))))])
    ensures Reaches(more, AskedState(s, q))
  {
    ReachOne(steps, s, System, c, InvocationQueued(Asked(q), Hash(OfInvocation(Asked(q)))), AskedState(s, q));
    more := steps + [Step(System, c)];
  }

  /* ---------- answers to the holdout ---------- */

  function CaseQuestion(i: nat): Question {
    Question(Given(i), TheInput(), ForHoldout, Some(CaseRef(i)))
  }

  /** Everything but the queue is as it was when the policy was approved. */
  ghost predicate Standing(s: State) {
    && s.host == EmptyState().host && s.auth == EmptyState().auth.(policies := map[Given(0) := TheStoredPolicy()])
    && s.records.subjects == map[Given(0) := TheStoredSubject()] && s.records.cases == Cases(ALL) && s.records.corpora == map[Given(0) := TheStoredCorpus()]
  }

  /** Exactly the questions on the first `n` holdout cases are answered. */
  ghost predicate AnswersStored(r: Records, n: nat, position: nat) {
    && (forall i: nat :: Given(i) in r.invocations <==> CALIBRATION <= i < CALIBRATION + n)
    && (forall k :: k in r.invocations ==>
          && k.Given? && r.invocations[k].invocation == Answered(CaseQuestion(k.value)) && r.invocations[k].queuedPosition <= position
          && k in r.recommendations && r.recommendations[k].recommendation == Reply(CaseQuestion(k.value)))
  }

  ghost predicate Prepared(s: State, n: nat) {
    Standing(s) && AnswersStored(s.records, n, s.position) && s.position == ALL + 3 + 3 * n
  }

  lemma PolicyPrepared()
    ensures Prepared(PolicyState(), 0)
  {
  }

  lemma OneMoreStored(s: State, n: nat)
    requires AnswersStored(s.records, n, s.position)
    ensures AnswersStored(AnsweredState(s, CaseQuestion(CALIBRATION + n)).records, n + 1, s.position + 3)
  {
  }

  lemma AnswerLeavesStanding(s: State, q: Question)
    requires Standing(s)
    ensures Standing(AnsweredState(s, q))
  {
  }

  lemma OneMoreAnswer(s: State, n: nat)
    requires Prepared(s, n)
    ensures Prepared(AnsweredState(s, CaseQuestion(CALIBRATION + n)), n + 1)
  {
    var q := CaseQuestion(CALIBRATION + n);
    assert Standing(AnsweredState(s, q)) by { AnswerLeavesStanding(s, q); }
    assert AnswersStored(AnsweredState(s, q).records, n + 1, s.position + 3) by { OneMoreStored(s, n); }
  }

  lemma CaseIsQueued(s: State, n: nat)
    requires n < HOLDOUT && Prepared(s, n)
    ensures var q := CaseQuestion(CALIBRATION + n);
            DecideQueueForCase(s, System, q.id, Given(0), ForHoldout, q.id, 0) == Accepted([InvocationQueued(Asked(q), Hash(OfInvocation(Asked(q))))])
    ensures Answerable(s, CaseQuestion(CALIBRATION + n))
  {
  }

  lemma QueueDispatch(s: State, actor: Actor, c: Command, now: Time)
    requires c.QueueForCase?
    ensures Decide(s, actor, c, now) == DecideQueueForCase(s, actor, c.invocationId, c.subjectId, c.purpose, c.caseId, now)
  {
  }

  lemma ReachQueued(steps: seq<AdvisorKernel.Step>, s: State, c: Command, q: Question) returns (more: seq<AdvisorKernel.Step>)
    requires Reaches(steps, s) && c.QueueForCase?
    requires DecideQueueForCase(s, System, c.invocationId, c.subjectId, c.purpose, c.caseId, 0) == Accepted([InvocationQueued(Asked(q), Hash(OfInvocation(Asked(q))))])
    ensures Reaches(more, AskedState(s, q))
  {
    QueueDispatch(s, System, c, 0);
    more := ReachAsked(steps, s, q, c);
  }

  lemma ReachOneAnswer(steps: seq<AdvisorKernel.Step>, s: State, n: nat) returns (more: seq<AdvisorKernel.Step>)
    requires n < HOLDOUT && Reaches(steps, s) && Prepared(s, n)
    ensures Reaches(more, AnsweredState(s, CaseQuestion(CALIBRATION + n)))
  {
    var q := CaseQuestion(CALIBRATION + n);
    CaseIsQueued(s, n);
    more := ReachQueued(steps, s, QueueForCase(q.id, Given(0), ForHoldout, q.id), q);
    more := ReachLease(more, s, q);
    more := ReachAnswer(more, s, q);
  }

  lemma {:induction false} ReachAnswers(n: nat) returns (steps: seq<AdvisorKernel.Step>, s: State)
    requires n <= HOLDOUT
    ensures Reaches(steps, s) && Prepared(s, n)
  {
    if n == 0 {
      steps := ReachPolicy();
      s := PolicyState();
      PolicyPrepared();
    } else {
      var before, prior := ReachAnswers(n - 1);
      steps := ReachOneAnswer(before, prior, n - 1);
      s := AnsweredState(prior, CaseQuestion(CALIBRATION + n - 1));
      OneMoreAnswer(prior, n - 1);
    }
  }
}
