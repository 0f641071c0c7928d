/** The answers of the sample run clear every floor of the evaluation. */
module AdvisorMerit {
  import opened Prelude
  import opened Sequences
  import opened AdvisorTypes
  import opened AdvisorEvaluation
  import opened AdvisorScoring
  import opened AdvisorSample

  lemma {:induction false} KeepAll<T>(xs: seq<T>, test: T -> bool)
    requires forall i :: 0 <= i < |xs| ==> test(xs[i])
    ensures Keep(xs, test) == xs
  {
    if xs != [] { KeepAll(xs[1..], test); }
  }

  /** A listing without repetition is no longer than one that holds all its elements. */
  lemma {:induction false} NoLonger<T>(xs: seq<T>, ys: seq<T>)
    requires Distinct(xs) && forall i :: 0 <= i < |xs| ==> xs[i] in ys
    ensures |xs| <= |ys|
  {
    if xs != [] {
      var j :| 0 <= j < |ys| && ys[j] == xs[0];
      var rest := ys[..j] + ys[j + 1..];
      forall i | 0 <= i < |xs[1..]| ensures xs[1..][i] in rest {
        var m :| 0 <= m < |ys| && ys[m] == xs[i + 1];
        if m < j { assert rest[m] == ys[m]; } else { assert rest[m - 1] == ys[m]; }
      }
      NoLonger(xs[1..], rest);
    }
  }

  /* ---------- cases ---------- */

  lemma {:induction false} AllStored(s: State, refs: seq<Ref>)
    requires forall i :: 0 <= i < |refs| ==> refs[i].id in s.records.cases
    ensures |StoredCases(s, refs)| == |refs| && forall i :: 0 <= i < |refs| ==> StoredCases(s, refs)[i] == s.records.cases[refs[i].id]
  {
    if refs != [] { AllStored(s, refs[1..]); }
  }

  lemma EveryCaseMatches(policy: StoredPolicy, i: nat)
    requires policy.policy == ThePolicy()
    ensures PolicyMatchesCase(policy, StoredCaseOf(i))
  {
    var input := TheInput();
    assert MatcherAccepts(TheMatcher(), input, Opt());
    KeepAll(input.options, (o: CaseOption) => MatcherAccepts(TheMatcher(), input, o.optionId));
  }

  lemma AllClean(s: State, refs: seq<Ref>, policy: StoredPolicy)
    requires forall i :: 0 <= i < |refs| ==> refs[i].id in s.records.cases && Usable(s.records.cases[refs[i].id], {}, policy)
    ensures Clean(s, refs, {}, policy) == StoredCases(s, refs)
  {
    AllStored(s, refs);
    KeepAll(StoredCases(s, refs), (c: StoredCase) => Usable(c, {}, policy));
  }

  ghost predicate IsCase(c: StoredCase, first: nat) {
    exists n: nat :: first <= n < ALL && c == StoredCaseOf(n)
  }

  lemma CleanCases(s: State, policy: StoredPolicy, first: nat, count: nat)
    requires s.records.cases == Cases(ALL) && first + count <= ALL && policy.policy == ThePolicy()
    ensures var r := Clean(s, Refs(first, count), {}, policy); |r| == count && forall i :: 0 <= i < count ==> IsCase(r[i], first)
  {
    var refs := Refs(first, count);
    forall i | 0 <= i < count ensures refs[i].id in s.records.cases && Usable(s.records.cases[refs[i].id], {}, policy) {
      EveryCaseMatches(policy, first + i);
    }
    AllClean(s, refs, policy);
    AllStored(s, refs);
    forall i | 0 <= i < count ensures IsCase(Clean(s, refs, {}, policy)[i], first) {
      assert s.records.cases[refs[i].id] == StoredCaseOf(first + i);
    }
  }

  /* ---------- verdicts ---------- */

  lemma NewestIsAnswer(s: State, i: nat)
    requires AnswersStored(s.records, HOLDOUT, s.position) && CALIBRATION <= i < ALL
    ensures var sorted := NewestFirst(s, Given(0), Given(i)); sorted != [] && sorted[0] == Given(i)
  {
    var sorted := NewestFirst(s, Given(0), Given(i));
    assert About(s.records.invocations[Given(i)], Given(0), Given(i));
    assert Given(i) in sorted;
    assert About(s.records.invocations[sorted[0]], Given(0), Given(i));
  }

  lemma AnswerSays(r: Records, i: nat, position: nat)
    requires AnswersStored(r, HOLDOUT, position) && CALIBRATION <= i < ALL
    ensures Judge(OutputOf(r, Some(r.invocations[Given(i)])), Opt()) == Agreed
    ensures r.invocations[Given(i)].invocation.status == Succeeded && r.invocations[Given(i)].invocation.recommendationId.Some?
  {
    assert r.invocations[Given(i)].invocation == Answered(CaseQuestion(i));
  }

  lemma AnsweredAgrees(s: State, i: nat)
    requires AnswersStored(s.records, HOLDOUT, s.position) && CALIBRATION <= i < ALL
    ensures VerdictOn(s, Given(0), StoredCaseOf(i)) == Agreed
  {
    NewestIsAnswer(s, i);
    AnswerSays(s.records, i, s.position);
    assert LatestCompleted(s, Given(0), Given(i)) == Some(s.records.invocations[Given(i)]);
  }

  lemma {:induction false} AllAgreed(verdicts: seq<Verdict>)
    requires forall i :: 0 <= i < |verdicts| ==> verdicts[i] == Agreed
    ensures ScoreOf(verdicts) == Score(|verdicts|, |verdicts|, |verdicts|, 0, 0, 0)
  {
    if verdicts != [] { AllAgreed(verdicts[..|verdicts| - 1]); }
  }

  lemma HoldoutScore(s: State, cases: seq<StoredCase>)
    requires Prepared(s, HOLDOUT)
    requires forall i :: 0 <= i < |cases| ==> IsCase(cases[i], CALIBRATION)
    ensures ScoreOf(Verdicts(s, Given(0), cases)) == Score(|cases|, |cases|, |cases|, 0, 0, 0)
  {
    forall i | 0 <= i < |cases| ensures Verdicts(s, Given(0), cases)[i] == Agreed {
      var n: nat :| CALIBRATION <= n < ALL && cases[i] == StoredCaseOf(n);
      AnsweredAgrees(s, n);
    }
    AllAgreed(Verdicts(s, Given(0), cases));
  }

  /* ---------- recent cases ---------- */

  function HoldoutIds(): (r: seq<Id>)
    ensures |r| == HOLDOUT && Distinct(r) && forall i :: 0 <= i < HOLDOUT ==> r[i] == Given(CALIBRATION + i)
  {
    seq(HOLDOUT, i requires 0 <= i < HOLDOUT => Given(CALIBRATION + i))
  }

  lemma HoldoutIsRecent(s: State, policy: StoredPolicy, i: nat)
    requires s.records.cases == Cases(ALL) && policy.policy == ThePolicy() && i < HOLDOUT
    ensures HoldoutIds()[i] in RecentIds(s, policy, HoldoutIds(), 0)
  {
    EveryCaseMatches(policy, CALIBRATION + i);
    assert HoldoutIds()[i] in HoldoutIds();
  }

  lemma EnoughAreRecent(s: State, policy: StoredPolicy)
    requires s.records.cases == Cases(ALL) && policy.policy == ThePolicy()
    ensures |RecentIds(s, policy, HoldoutIds(), 0)| >= HOLDOUT
  {
    var sorted := RecentIds(s, policy, HoldoutIds(), 0);
    forall i | 0 <= i < HOLDOUT ensures HoldoutIds()[i] in sorted { HoldoutIsRecent(s, policy, i); }
    NoLonger(HoldoutIds(), sorted);
  }

  lemma RecentIsHoldout(s: State, policy: StoredPolicy, k: Id)
    requires s.records.cases == Cases(ALL) && k in RecentIds(s, policy, HoldoutIds(), 0)
    ensures k in s.records.cases && IsCase(s.records.cases[k], CALIBRATION)
  {
    assert s.records.cases[k] == StoredCaseOf(k.value);
  }

  lemma RecentAreHoldout(s: State, policy: StoredPolicy)
    requires s.records.cases == Cases(ALL) && policy.policy == ThePolicy()
    ensures var recent := RecentCases(s, policy, HoldoutIds(), 0); |recent| == 50 && forall i :: 0 <= i < |recent| ==> IsCase(recent[i], CALIBRATION)
  {
    var sorted, recent := RecentIds(s, policy, HoldoutIds(), 0), RecentCases(s, policy, HoldoutIds(), 0);
    assert |recent| == 50 by { EnoughAreRecent(s, policy); }
    forall i | 0 <= i < 50 ensures IsCase(recent[i], CALIBRATION) {
      RecentIsHoldout(s, policy, sorted[i]);
      assert recent[i] == s.records.cases[sorted[i]];
    }
  }

  /* ---------- the report ---------- */

  lemma NothingBlocks(calibration: nat, holdout: nat, adversarial: nat, recent: nat)
    requires calibration >= 50 && holdout >= 100 && adversarial >= 25 && recent >= 50
    ensures Blockers(calibration, holdout, adversarial, recent, Score(holdout, holdout, holdout, 0, 0, 0), Score(recent, recent, recent, 0, 0, 0),
                     false, false, false) == {}
  {
    PerfectAgreement(holdout);
  }

  lemma AllAdversarial(cases: seq<StoredCase>, first: nat)
    requires forall i :: 0 <= i < |cases| ==> IsCase(cases[i], first)
    ensures AdversarialOf(cases) == cases
  {
    KeepAll(cases, (c: StoredCase) => |c.kase.adversarial| > 0);
  }

  function TheReport(s: State): Report
  {
    Report(Given(0), SubjectRef(), Ref(PolicyKind, Given(0), Hash(OfPolicy(ThePolicy()))), CorpusRef(), CALIBRATION,
           Score(HOLDOUT, HOLDOUT, HOLDOUT, 0, 0, 0), HOLDOUT, Score(50, 50, 50, 0, 0, 0), 0, {}, 0, s.position)
  }

  lemma HoldoutFacts(s: State)
    requires Prepared(s, HOLDOUT)
    ensures var holdout := Clean(s, TheCorpus().holdout, {}, TheStoredPolicy());
            && |holdout| == HOLDOUT && |AdversarialOf(holdout)| == HOLDOUT
            && ScoreOf(Verdicts(s, Given(0), holdout)) == Score(HOLDOUT, HOLDOUT, HOLDOUT, 0, 0, 0)
  {
    CleanCases(s, TheStoredPolicy(), CALIBRATION, HOLDOUT);
    var holdout := Clean(s, Refs(CALIBRATION, HOLDOUT), {}, TheStoredPolicy());
    HoldoutScore(s, holdout);
    AllAdversarial(holdout, CALIBRATION);
  }

  lemma RecentFacts(s: State)
    requires Prepared(s, HOLDOUT)
    ensures var recent := RecentCases(s, TheStoredPolicy(), HoldoutIds(), 0);
            |recent| == 50 && ScoreOf(Verdicts(s, Given(0), recent)) == Score(50, 50, 50, 0, 0, 0)
  {
    RecentAreHoldout(s, TheStoredPolicy());
    HoldoutScore(s, RecentCases(s, TheStoredPolicy(), HoldoutIds(), 0));
  }

  /** A report on enough agreeing cases has no blockers, whatever it is about. */
  lemma CleanReport(s: State, subject: StoredSubject, policy: StoredPolicy, corpus: StoredCorpus, ids: seq<Id>)
    requires ContaminatedCases(s, corpus.corpus.corpusRevisionId) == {} && !policy.policy.live && corpus.corpus.requirements == []
    requires |Clean(s, corpus.corpus.calibration, {}, policy)| == CALIBRATION
    requires var holdout := Clean(s, corpus.corpus.holdout, {}, policy);
             && |holdout| == HOLDOUT && |AdversarialOf(holdout)| == HOLDOUT
             && ScoreOf(Verdicts(s, subject.subject.subjectId, holdout)) == Score(HOLDOUT, HOLDOUT, HOLDOUT, 0, 0, 0)
    requires var recent := RecentCases(s, policy, ids, 0);
             |recent| == 50 && ScoreOf(Verdicts(s, subject.subject.subjectId, recent)) == Score(50, 50, 50, 0, 0, 0)
    ensures Evaluate(s, Given(0), subject, policy, corpus, ids, 0) ==
            Report(Given(0), Ref(SubjectKind, subject.subject.subjectId, subject.digest), Ref(PolicyKind, policy.policy.policyRevisionId, policy.digest),
                   Ref(CorpusKind, corpus.corpus.corpusRevisionId, corpus.digest), CALIBRATION,
                   Score(HOLDOUT, HOLDOUT, HOLDOUT, 0, 0, 0), HOLDOUT, Score(50, 50, 50, 0, 0, 0), 0, {}, 0, s.position)
  {
    var holdout := Clean(s, corpus.corpus.holdout, {}, policy);
    NothingBlocks(CALIBRATION, HOLDOUT, HOLDOUT, 50);
    assert !CategoryAbsent(corpus, AdversarialOf(holdout));
    assert |ContaminatedCases(s, corpus.corpus.corpusRevisionId)| == 0;
  }

  /** The evaluation of the sample run finds nothing to object to. */
  lemma EvaluationPasses(s: State)
    requires Prepared(s, HOLDOUT)
    ensures Evaluate(s, Given(0), TheStoredSubject(), TheStoredPolicy(), TheStoredCorpus(), HoldoutIds(), 0) == TheReport(s)
  {
    assert |Clean(s, TheCorpus().calibration, {}, TheStoredPolicy())| == CALIBRATION by { CleanCases(s, TheStoredPolicy(), 0, CALIBRATION); }
    HoldoutFacts(s);
    RecentFacts(s);
    CleanReport(s, TheStoredSubject(), TheStoredPolicy(), TheStoredCorpus(), HoldoutIds());
  }
}
