/** Reading these tables back: no digest check fires on a replayed projection, except for a workflow registered with a wrong one. */
module ArchiveReader {
  import opened Prelude
  import opened Archive
  import opened TableReader

  /* ---------- what the reader checks ---------- */

  predicate DocumentOk(k: (Kind, Id), v: StoredDocument) { (v.document.kind, v.document.id) == k && v.digest == Hash(OfDocument(v.document)) }
  predicate InterviewOk(k: Id, v: Interview) {
    v.id == k && v.transcriptDigest == Hash(OfText(v.transcript)) && v.playbackDigest == Hash(OfText(v.playback))
  }
  predicate MilestoneOk(k: Id, v: Milestone) { v.id == k && v.digest == Hash(OfText(v.contract)) }
  predicate IssueOk(k: Id, v: StoredIssue) { v.issue.id == k && v.digest == Hash(OfIssue(v.issue)) }
  predicate WorkflowOk(k: (Id, nat), v: StoredWorkflow) {
    (v.definition.workflowId, v.definition.version) == k && v.digest == Hash(OfDefinition(v.definition))
  }

  ghost predicate DocumentsOk(s: State) {
    forall k :: k in s.documents ==> DocumentOk(k, s.documents[k])
  }

  ghost predicate InterviewsOk(s: State) {
    forall k :: k in s.interviews ==> InterviewOk(k, s.interviews[k])
  }

  ghost predicate MilestonesOk(s: State) {
    forall k :: k in s.milestones ==> MilestoneOk(k, s.milestones[k])
  }

  ghost predicate IssuesOk(s: State) {
    forall k :: k in s.issues ==> IssueOk(k, s.issues[k])
  }

  ghost predicate WorkflowsKeyed(s: State) {
    forall k :: k in s.workflows ==> (s.workflows[k].definition.workflowId, s.workflows[k].definition.version) == k
  }

  /** Every record sits under its own id, and every document, interview, milestone and issue matches its digest. */
  ghost predicate Digested(s: State) {
    DocumentsOk(s) && InterviewsOk(s) && MilestonesOk(s) && IssuesOk(s) && WorkflowsKeyed(s)
  }

  /* ---------- every event keeps that ---------- */

  /** The step leaves documents, interviews and workflows alone. */
  ghost predicate SameShelf(s: State, t: State) {
    t.documents == s.documents && t.interviews == s.interviews && t.workflows == s.workflows
  }

  lemma {:induction false} PauseKeeps(s: State, ids: seq<Id>, issueId: Id)
    requires MilestonesOk(s) && PauseAll(s, ids, issueId).Success?
    ensures var t := PauseAll(s, ids, issueId).value; MilestonesOk(t) && SameShelf(s, t) && t.issues == s.issues
    decreases |ids|
  {
    if ids != [] {
      var m := s.milestones[ids[0]];
      var t := Rewrite(s, ids[0], m.(status := "paused", pausedBy := Some(issueId)));
      var u := if m.generation.Some? && m.generation.value in s.generations then t.(generations := s.generations[m.generation.value := "paused"]) else t;
      PauseKeeps(u, ids[1..], issueId);
    }
  }

  lemma {:induction false} ResumeKeeps(s: State, ids: seq<Id>)
    requires MilestonesOk(s) && ResumeAll(s, ids).Success?
    ensures var t := ResumeAll(s, ids).value; MilestonesOk(t) && SameShelf(s, t) && t.issues == s.issues
    decreases |ids|
  {
    if ids != [] {
      ResumeKeeps(Rewrite(s, ids[0], s.milestones[ids[0]].(status := "approved", generation := None, pausedBy := None)), ids[1..]);
    }
  }

  lemma IssueKeeps(s: State, e: Event, at: Time)
    requires Digested(s) && (e.IssueRaised? || e.IssueSettled? || e.IssueSatisfied?) && EvolveIssue(s, e, at).Success?
    ensures Digested(EvolveIssue(s, e, at).value) && EvolveIssue(s, e, at).value.workflows == s.workflows
  {
    match e
    case IssueRaised(issue, digest, paused) => PauseKeeps(s.(issues := s.issues[issue.id := StoredIssue(issue, digest)]), paused, issue.id);
    case IssueSettled(id, action, text, author, resumed) => ResumeKeeps(Reissue(s, id, Settled(s.issues[id].issue, action, text, author, at)), resumed);
    case IssueSatisfied(id, programId, graphId) =>
  }

  lemma MilestoneKeeps(s: State, e: Event)
    requires Digested(s) && (e.MilestoneApproved? || e.GenerationStarted? || e.MilestoneStarted? || e.OutcomeReady?) && EvolveMilestone(s, e).Success?
    ensures Digested(EvolveMilestone(s, e).value) && EvolveMilestone(s, e).value.workflows == s.workflows
  {
  }

  lemma RewriteKeeps(s: State, id: Id, m: Milestone)
    requires MilestonesOk(s) && MilestoneOk(id, m)
    ensures MilestonesOk(Rewrite(s, id, m))
  {
  }

  lemma NotedKeeps(s: State, d: Document)
    requires MilestonesOk(s) && Anchored(s, d)
    ensures MilestonesOk(Noted(s, d)) && SameShelf(s, Noted(s, d)) && Noted(s, d).issues == s.issues
  {
    if d.kind == OutcomeValidation { RewriteKeeps(s, d.about, s.milestones[d.about].(validated := Some(d.id))); }
    else { assert Noted(s, d).milestones == s.milestones; }
  }

  lemma ShelfKeeps(documents: map<(Kind, Id), StoredDocument>, s: State, d: Document, digest: Digest)
    requires Digested(s) && digest == Hash(OfDocument(d)) && forall k :: k in documents ==> DocumentOk(k, documents[k])
    ensures Digested(s.(documents := documents[(d.kind, d.id) := StoredDocument(d, digest, Open)]))
  {
  }

  lemma FileKeeps(s: State, d: Document, digest: Digest, supersedes: Option<Id>, at: Time)
    requires Digested(s) && File(s, d, digest, supersedes, at).Success?
    ensures Digested(File(s, d, digest, supersedes, at).value) && File(s, d, digest, supersedes, at).value.workflows == s.workflows
  {
    var earlier := if d.kind == AttentionPolicy && supersedes.Some?
                   then Mark(s.documents, AttentionPolicy, supersedes.value, Superseded(at)) else s.documents;
    NotedKeeps(s, d);
    ShelfKeeps(earlier, Noted(s, d), d, digest);
  }

  /** A workflow is registered with a digest that is not that of its definition. */
  ghost predicate MismatchedWorkflow(e: Event) {
    e.WorkflowRegistered? && e.digest != Hash(OfDefinition(e.definition))
  }

  lemma EvolveKeeps(s: State, e: Event, at: Time)
    requires Digested(s) && Evolve(s, e, at).Success?
    ensures var t := Evolve(s, e, at).value;
            && Digested(t) && (!e.WorkflowRegistered? ==> t.workflows == s.workflows)
            && (e.WorkflowRegistered? ==> t.workflows == s.workflows[(e.definition.workflowId, e.definition.version) := StoredWorkflow(e.definition, e.digest)])
  {
    if e.Filed? { FileKeeps(s, e.document, e.digest, e.supersedes, at); }
    else if e.IssueRaised? || e.IssueSettled? || e.IssueSatisfied? { IssueKeeps(s, e, at); }
    else if e.MilestoneApproved? || e.GenerationStarted? || e.MilestoneStarted? || e.OutcomeReady? { MilestoneKeeps(s, e); }
  }

  /** In every projection replayed from a log that folds, these records match their digests, also those rewritten in place. */
  lemma {:induction false} ReplayedIsDigested(log: seq<Stored>)
    requires Replay(log).Success?
    ensures Digested(Replay(log).value)
  {
    if log != [] {
      ReplayedIsDigested(log[..|log| - 1]);
      EvolveKeeps(Replay(log[..|log| - 1]).value, log[|log| - 1].event, log[|log| - 1].at);
    }
  }

  /* ---------- workflows ---------- */

  ghost predicate WorkflowsOk(s: State) {
    forall k :: k in s.workflows ==> WorkflowOk(k, s.workflows[k])
  }

  lemma WorkflowStep(s: State, e: Event, at: Time)
    requires Digested(s) && WorkflowsOk(s) && Evolve(s, e, at).Success?
    ensures WorkflowsOk(Evolve(s, e, at).value) <==> !MismatchedWorkflow(e)
  {
    EvolveKeeps(s, e, at);
    if MismatchedWorkflow(e) {
      var k := (e.definition.workflowId, e.definition.version);
      assert !WorkflowOk(k, Evolve(s, e, at).value.workflows[k]);
    }
  }

  lemma {:induction false} PrefixReplays(log: seq<Stored>, n: nat)
    requires Replay(log).Success? && n <= |log|
    ensures Replay(log[..n]).Success?
    decreases |log|
  {
    if n == |log| { assert log[..n] == log; } else {
      PrefixReplays(log[..|log| - 1], n);
      assert log[..|log| - 1][..n] == log[..n];
    }
  }

  ghost predicate WorkflowsOkAt(log: seq<Stored>, n: nat)
    requires n <= |log|
  {
    Replay(log[..n]).Success? && WorkflowsOk(Replay(log[..n]).value)
  }

  lemma WorkflowsNext(log: seq<Stored>, n: nat)
    requires Replay(log).Success? && n < |log| && WorkflowsOkAt(log, n)
    ensures WorkflowsOkAt(log, n + 1) <==> !MismatchedWorkflow(log[n].event)
  {
    PrefixReplays(log, n + 1);
    assert log[..n + 1][..n] == log[..n] && log[..n + 1][n] == log[n];
    ReplayedIsDigested(log[..n]);
    WorkflowStep(Replay(log[..n]).value, log[n].event, log[n].at);
  }

  lemma {:induction false} WorkflowsSoFar(log: seq<Stored>, n: nat)
    requires Replay(log).Success? && n <= |log| && forall m: nat :: m < n ==> !MismatchedWorkflow(log[m].event)
    ensures WorkflowsOkAt(log, n)
  {
    if n > 0 {
      WorkflowsSoFar(log, n - 1);
      WorkflowsNext(log, n - 1);
    }
  }

  /**
   Folding a workflow does not check its digest, so the reader objects to none at every position of a log that folds if
   and only if each was registered with the digest of its definition, which the reader of the log itself checks.
   */
  lemma WorkflowsReadExactly(log: seq<Stored>)
    requires Replay(log).Success?
    ensures (forall n: nat :: n <= |log| ==> WorkflowsOkAt(log, n)) <==> (forall n: nat :: n < |log| ==> !MismatchedWorkflow(log[n].event))
  {
    if forall n: nat :: n < |log| ==> !MismatchedWorkflow(log[n].event) {
      forall n: nat | n <= |log| ensures WorkflowsOkAt(log, n) { WorkflowsSoFar(log, n); }
    }
    if forall n: nat :: n <= |log| ==> WorkflowsOkAt(log, n) {
      forall n: nat | n < |log| ensures !MismatchedWorkflow(log[n].event) {
        assert WorkflowsOkAt(log, n) && WorkflowsOkAt(log, n + 1);
        WorkflowsNext(log, n);
      }
    }
  }

  /* ---------- reading back ---------- */

  datatype Tables = Tables(documents: seq<StoredDocument>, interviews: seq<Interview>, milestones: seq<Milestone>, issues: seq<StoredIssue>,
                           workflows: seq<StoredWorkflow>)

  ghost predicate Written(t: Tables, s: State) {
    && Lists(t.documents, s.documents) && Lists(t.interviews, s.interviews) && Lists(t.milestones, s.milestones) && Lists(t.issues, s.issues)
    && Lists(t.workflows, s.workflows)
  }

  ghost predicate ReadsAs(t: Tables, s: State) {
    && ReadTable(t.documents, (v: StoredDocument) => (v.document.kind, v.document.id), DocumentOk) == Success(s.documents)
    && ReadTable(t.interviews, (v: Interview) => v.id, InterviewOk) == Success(s.interviews)
    && ReadTable(t.milestones, (v: Milestone) => v.id, MilestoneOk) == Success(s.milestones)
    && ReadTable(t.issues, (v: StoredIssue) => v.issue.id, IssueOk) == Success(s.issues)
  }

  /** For every log that folds and every row order, reading these tables fires no digest check and gives back every record. */
  lemma ReplayedReadsBack(log: seq<Stored>, t: Tables)
    requires Replay(log).Success? && Written(t, Replay(log).value)
    ensures ReadsAs(t, Replay(log).value)
  {
    var s := Replay(log).value;
    ReplayedIsDigested(log);
    ReadsBack(t.documents, s.documents, (v: StoredDocument) => (v.document.kind, v.document.id), DocumentOk);
    ReadsBack(t.interviews, s.interviews, (v: Interview) => v.id, InterviewOk);
    ReadsBack(t.milestones, s.milestones, (v: Milestone) => v.id, MilestoneOk);
    ReadsBack(t.issues, s.issues, (v: StoredIssue) => v.issue.id, IssueOk);
  }

  /** The workflow table reads back exactly when every stored workflow matches its digest; otherwise the reader throws. */
  lemma WorkflowTableReads(log: seq<Stored>, t: Tables)
    requires Replay(log).Success? && Written(t, Replay(log).value)
    ensures var s, r := Replay(log).value, ReadTable(t.workflows, (v: StoredWorkflow) => (v.definition.workflowId, v.definition.version), WorkflowOk);
            if WorkflowsOk(s) then r == Success(s.workflows) else r.Failure?
  {
    var s := Replay(log).value;
    var id := (v: StoredWorkflow) => (v.definition.workflowId, v.definition.version);
    ReplayedIsDigested(log);
    if WorkflowsOk(s) {
      ReadsBack(t.workflows, s.workflows, id, WorkflowOk);
    } else {
      var k :| k in s.workflows && !WorkflowOk(k, s.workflows[k]);
      assert s.workflows[k] in s.workflows.Values;
      BadRowStops(t.workflows, id, WorkflowOk, s.workflows[k]);
    }
  }

  /** A log that folds to a workflow the reader refuses. */
  lemma MismatchedWorkflowFolds(definition: Definition, text: string, at: Time)
    ensures var log := [Stored(WorkflowRegistered(definition, Foreign(text), definition.version), at)];
            Replay(log).Success? && !WorkflowsOk(Replay(log).value)
  {
    var e := WorkflowRegistered(definition, Foreign(text), definition.version);
    var log := [Stored(e, at)];
    assert log[..0] == [];
    WorkflowStep(Empty(), e, at);
  }
}
