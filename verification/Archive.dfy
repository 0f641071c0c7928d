/**
 The records of the kernel outside portfolio and advisor whose digests the reader checks: documents filed once, and
 milestones, routed issues, graphs, policies, proposals and packets that later events rewrite in place.
 */
module Archive {
  import opened Prelude

  type Id = nat
  type Time = int

  /** Digests are free constructors: equal digests mean equal content; `Foreign` is one nobody computed. */
  datatype Digest = Hash(content: Content) | Foreign(text: string)

  datatype Content =
    | OfDocument(document: Document) | OfText(text: string) | OfIssue(issue: Issue) | OfDefinition(definition: Definition)

  datatype Kind =
    | Graph | ContextPacket | OutcomePacket | OutcomeValidation | MeasurementReport | AttentionPolicy | DecisionRequest | EvidenceBundle
    | PacketRevision | Acknowledgement | ActionResult | DecisionResolution | Precedent | BudgetIncident | AttentionReport | DigestArtifact | Proposal

  /** `about` is the program of a graph, the milestone of a validation, the packet of an acknowledgement or resolution. */
  datatype Document = Document(kind: Kind, id: Id, about: Id, body: string)
  datatype Standing = Open | Superseded(at: Time) | Closed(outcome: string)
  datatype StoredDocument = StoredDocument(document: Document, digest: Digest, standing: Standing)

  datatype Interview = Interview(id: Id, transcript: string, transcriptDigest: Digest, playback: string, playbackDigest: Digest)

  datatype Definition = Definition(workflowId: Id, version: nat, body: string)
  datatype StoredWorkflow = StoredWorkflow(definition: Definition, digest: Digest)

  datatype Milestone = Milestone(id: Id, contract: string, digest: Digest, status: string, generation: Option<Id>, pausedBy: Option<Id>,
                                 outcome: Option<Id>, validated: Option<Id>)

  datatype IssueStatus = IssueOpen | NeedsGraphRevision | IssueResolved
  datatype Remedy = Remedy(action: string, text: string, author: string, at: Time, satisfiedBy: Option<Id>)
  datatype Issue = Issue(id: Id, programId: Id, status: IssueStatus, remedy: Option<Remedy>, body: string)
  datatype StoredIssue = StoredIssue(issue: Issue, digest: Digest)

  datatype PacketStatus = PacketOpen | PacketResolved | PacketExpired
  datatype Packet = Packet(current: Id, status: PacketStatus, acknowledgement: Option<Id>, resolution: Option<Id>)

  datatype State = State(
    documents: map<(Kind, Id), StoredDocument>, interviews: map<Id, Interview>, workflows: map<(Id, nat), StoredWorkflow>,
    milestones: map<Id, Milestone>, generations: map<Id, string>, issues: map<Id, StoredIssue>, packets: map<Id, Packet>, programs: set<Id>)

  function Empty(): State {
    State(map[], map[], map[], map[], map[], map[], map[], {})
  }

  datatype Event =
    | ProgramAppeared(programId: Id)
    | Filed(document: Document, digest: Digest, supersedes: Option<Id>)
    | GraphSuperseded(graphId: Id)
    | ProposalClosed(proposalId: Id, outcome: string)
    | InterviewCaptured(interview: Interview)
    | WorkflowRegistered(definition: Definition, digest: Digest, streamVersion: nat)
    | MilestoneApproved(milestoneId: Id, contract: string, digest: Digest)
    | GenerationStarted(generationId: Id, milestoneId: Id)
    | MilestoneStarted(milestoneId: Id)
    | OutcomeReady(milestoneId: Id, packetId: Id)
    | IssueRaised(issue: Issue, digest: Digest, paused: seq<Id>)
    | IssueSettled(issueId: Id, action: string, text: string, author: string, resumed: seq<Id>)
    | IssueSatisfied(issueId: Id, programId: Id, graphId: Id)
    | PacketOpened(packetId: Id, revisionId: Id)
    | PacketRevised(packetId: Id, prior: Id, revisionId: Id)
    | PacketLapsed(packetId: Id)

  /* ---------- documents ---------- */

  /** What the record a document is about must be for the event to fold. */
  predicate Anchored(s: State, d: Document) {
    && (d.kind == Graph ==> d.about in s.programs)
    && (d.kind == OutcomeValidation ==> d.about in s.milestones)
    && (d.kind == Acknowledgement || d.kind == DecisionResolution ==> d.about in s.packets)
  }

  /** A document with a matching digest is filed under its id; an attention policy marks the one it supersedes. */
  function File(s: State, d: Document, digest: Digest, supersedes: Option<Id>, at: Time): Result<State> {
    if Hash(OfDocument(d)) != digest then Failure("digest")
    else if !Anchored(s, d) then Failure("missing record")
    else if d.kind == AttentionPolicy && supersedes.Some? && (AttentionPolicy, supersedes.value) !in s.documents then Failure("missing policy")
    else
      var earlier := if d.kind == AttentionPolicy && supersedes.Some?
                     then Mark(s.documents, AttentionPolicy, supersedes.value, Superseded(at)) else s.documents;
      Success(Noted(s, d).(documents := earlier[(d.kind, d.id) := StoredDocument(d, digest, Open)]))
  }

  function Mark(documents: map<(Kind, Id), StoredDocument>, kind: Kind, id: Id, standing: Standing): map<(Kind, Id), StoredDocument>
    requires (kind, id) in documents
  {
    documents[(kind, id) := documents[(kind, id)].(standing := standing)]
  }

  /** What a filed document changes in the record it is about. */
  function Noted(s: State, d: Document): State
    requires Anchored(s, d)
  {
    if d.kind == OutcomeValidation then Rewrite(s, d.about, s.milestones[d.about].(validated := Some(d.id)))
    else if d.kind == Acknowledgement then s.(packets := s.packets[d.about := s.packets[d.about].(acknowledgement := Some(d.id))])
    else if d.kind == DecisionResolution then s.(packets := s.packets[d.about := s.packets[d.about].(status := PacketResolved, resolution := Some(d.id))])
    else s
  }

  function Restand(s: State, kind: Kind, id: Id, standing: Standing): Result<State> {
    if (kind, id) !in s.documents then Failure("missing record") else Success(s.(documents := Mark(s.documents, kind, id, standing)))
  }

  /* ---------- milestones and issues ---------- */

  function Rewrite(s: State, id: Id, m: Milestone): State {
    s.(milestones := s.milestones[id := m])
  }

  /** The milestones an issue pauses, one after another, each with its generation in progress. */
  function PauseAll(s: State, ids: seq<Id>, issueId: Id): Result<State>
    decreases |ids|
  {
    if ids == [] then Success(s)
    else if ids[0] !in s.milestones then Failure("missing milestone")
    else
      var m := s.milestones[ids[0]];
      var t := Rewrite(s, ids[0], m.(status := "paused", pausedBy := Some(issueId)));
      var u := if m.generation.Some? && m.generation.value in s.generations then t.(generations := s.generations[m.generation.value := "paused"]) else t;
      PauseAll(u, ids[1..], issueId)
  }

  function ResumeAll(s: State, ids: seq<Id>): Result<State>
    decreases |ids|
  {
    if ids == [] then Success(s)
    else if ids[0] !in s.milestones then Failure("missing milestone")
    else ResumeAll(Rewrite(s, ids[0], s.milestones[ids[0]].(status := "approved", generation := None, pausedBy := None)), ids[1..])
  }

  /** Rewrite an issue in place and restate its digest. */
  function Reissue(s: State, id: Id, issue: Issue): State {
    s.(issues := s.issues[id := StoredIssue(issue, Hash(OfIssue(issue)))])
  }

  function Settled(issue: Issue, action: string, text: string, author: string, at: Time): Issue {
    issue.(status := if action == "requires_graph_revision" then NeedsGraphRevision else IssueResolved, remedy := Some(Remedy(action, text, author, at, None)))
  }

  function EvolveIssue(s: State, e: Event, at: Time): Result<State>
    requires e.IssueRaised? || e.IssueSettled? || e.IssueSatisfied?
  {
    match e
    case IssueRaised(issue, digest, paused) =>
      if Hash(OfIssue(issue)) != digest then Failure("digest")
      else PauseAll(s.(issues := s.issues[issue.id := StoredIssue(issue, digest)]), paused, issue.id)
    case IssueSettled(id, action, text, author, resumed) =>
      if id !in s.issues then Failure("missing issue")
      else ResumeAll(Reissue(s, id, Settled(s.issues[id].issue, action, text, author, at)), resumed)
    case IssueSatisfied(id, programId, graphId) =>
      if id !in s.issues then Failure("missing issue")
      else
        var issue := s.issues[id].issue;
        if issue.programId != programId || issue.status != NeedsGraphRevision || issue.remedy.None? then Failure("cannot satisfy this issue")
        else Success(Reissue(s, id, issue.(status := IssueResolved, remedy := Some(issue.remedy.value.(satisfiedBy := Some(graphId))))))
  }

  function EvolveMilestone(s: State, e: Event): Result<State>
    requires e.MilestoneApproved? || e.GenerationStarted? || e.MilestoneStarted? || e.OutcomeReady?
  {
    match e
    case MilestoneApproved(id, contract, digest) =>
      if Hash(OfText(contract)) != digest then Failure("digest")
      else Success(Rewrite(s, id, Milestone(id, contract, digest, "approved", None, None, None, None)))
    case GenerationStarted(generationId, id) =>
      if id !in s.milestones then Failure("missing milestone")
      else Success(Rewrite(s, s.milestones[id].id, s.milestones[id].(status := "running", generation := Some(generationId), outcome := None, pausedBy := None))
                   .(generations := s.generations[generationId := "running"]))
    case MilestoneStarted(id) =>
      if id !in s.milestones then Failure("missing milestone") else Success(Rewrite(s, s.milestones[id].id, s.milestones[id].(status := "running")))
    case OutcomeReady(id, packetId) =>
      if id !in s.milestones then Failure("missing milestone")
      else
        var m := s.milestones[id];
        Success(Rewrite(s, m.id, m.(status := if m.pausedBy.Some? then "paused" else "outcome_ready", generation := None, outcome := Some(packetId))))
  }

  function EvolvePacket(s: State, e: Event): Result<State>
    requires e.PacketOpened? || e.PacketRevised? || e.PacketLapsed?
  {
    match e
    case PacketOpened(id, revisionId) => Success(s.(packets := s.packets[id := Packet(revisionId, PacketOpen, None, None)]))
    case PacketRevised(id, prior, revisionId) =>
      if id !in s.packets then Failure("missing packet")
      else if s.packets[id].current != prior || s.packets[id].status != PacketOpen then Failure("stale revision")
      else Success(s.(packets := s.packets[id := s.packets[id].(current := revisionId, acknowledgement := None)]))
    case PacketLapsed(id) =>
      if id !in s.packets then Failure("missing packet") else Success(s.(packets := s.packets[id := s.packets[id].(status := PacketExpired)]))
  }

  /** These cases of `evolve`; registering a workflow checks its version but not its digest. */
  function Evolve(s: State, e: Event, at: Time): Result<State> {
    match e
    case ProgramAppeared(id) => Success(s.(programs := s.programs + {id}))
    case Filed(document, digest, supersedes) => File(s, document, digest, supersedes, at)
    case GraphSuperseded(id) => Restand(s, Graph, id, Superseded(at))
    case ProposalClosed(id, outcome) => Restand(s, Proposal, id, Closed(outcome))
    case InterviewCaptured(i) =>
      if Hash(OfText(i.transcript)) != i.transcriptDigest || Hash(OfText(i.playback)) != i.playbackDigest then Failure("digest")
      else Success(s.(interviews := s.interviews[i.id := i]))
    case WorkflowRegistered(definition, digest, streamVersion) =>
      if streamVersion != definition.version then Failure("version")
      else Success(s.(workflows := s.workflows[(definition.workflowId, definition.version) := StoredWorkflow(definition, digest)]))
    case MilestoneApproved(_, _, _) => EvolveMilestone(s, e)
    case GenerationStarted(_, _) => EvolveMilestone(s, e)
    case MilestoneStarted(_) => EvolveMilestone(s, e)
    case OutcomeReady(_, _) => EvolveMilestone(s, e)
    case IssueRaised(_, _, _) => EvolveIssue(s, e, at)
    case IssueSettled(_, _, _, _, _) => EvolveIssue(s, e, at)
    case IssueSatisfied(_, _, _) => EvolveIssue(s, e, at)
    case PacketOpened(_, _) => EvolvePacket(s, e)
    case PacketRevised(_, _, _) => EvolvePacket(s, e)
    case PacketLapsed(_) => EvolvePacket(s, e)
  }

  /** A stored event and the time it occurred. */
  datatype Stored = Stored(event: Event, at: Time)

  /** `replayEvents`: fold a log from the empty projection. */
  function Replay(log: seq<Stored>): Result<State> {
    if log == [] then Success(Empty())
    else
      var before := Replay(log[..|log| - 1]);
      if before.Failure? then before else Evolve(before.value, log[|log| - 1].event, log[|log| - 1].at)
  }
}
