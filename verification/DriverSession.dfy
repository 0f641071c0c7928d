/** Provider sessions (Codex and Claude drivers): an event stream shared by a consume loop, cancellation, close and a timer. */
module DriverSession {
  type Time = int

  datatype Status = Running | Succeeded | Failed | ApprovalRequired | CapabilityViolation | ProtocolInvalid | OperatorCancelled | TimedOut

  datatype Body =
    | Started
    | Checkpoint(checkpointDigest: CheckpointDigest)
    | Usage(provider: string, inputTokens: nat, cachedInputTokens: nat, outputTokens: nat)
    | ArtifactDeclared(path: string, size: nat, sha256: string)
    | ApprovalRequested(requestId: string)
    | Terminal(outcome: Status, reason: string)

  datatype Event = Event(sequence: nat, at: Time, body: Body)

  /* ---------- what a provider message makes the handler do ---------- */

  /** What the provider sent. */
  datatype Message =
    | CodexThreadStarted(threadId: string)
    | CodexTurnCompleted(input: nat, cached: nat, output: nat)
    | CodexTurnFailed
    | CodexError
    | ClaudeInit(sessionId: string, model: string)
    | ClaudeResult(models: seq<string>, input: nat, cached: nat, output: nat, denials: nat, success: bool, subtype: string)
    | OtherMessage(text: string)

  /** A digest over the provider's session and the launch, which is fixed for a session. */
  datatype CheckpointDigest = CheckpointHash(provider: string, providerSessionId: string)

  datatype Artifact = Artifact(path: string, size: nat, sha256: string)

  /** What the handler finds besides the message: files in the workspace and a random id. */
  datatype Found = Found(artifacts: seq<Artifact>, requestId: string)

  /** `Save` schedules the writing of the session to its file, as every handler does at its end. */
  datatype Effect = Emit(body: Body) | Finish(outcome: Status, reason: string) | Save

  /** An emitted body is never a terminal one: that only `#terminal` appends. */
  predicate Tame(e: Effect) {
    e.Emit? ==> !e.body.Terminal?
  }

  predicate AllTame(effects: seq<Effect>) {
    forall i :: 0 <= i < |effects| ==> Tame(effects[i])
  }

  function Declare(artifacts: seq<Artifact>): (r: seq<Effect>)
    ensures AllTame(r)
  {
    if artifacts == [] then []
    else [Emit(ArtifactDeclared(artifacts[0].path, artifacts[0].size, artifacts[0].sha256))] + Declare(artifacts[1..])
  }

  /** What a handler does with a message that was not seen before, in order, up to the final save. */
  function ActionsOf(message: Message, found: Found): (r: seq<Effect>)
    ensures AllTame(r)
  {
    match message
    case CodexThreadStarted(threadId) => [Emit(Checkpoint(CheckpointHash("openai", threadId)))]
    case CodexTurnCompleted(input, cached, output) =>
      Declare(found.artifacts) + [Emit(Usage("openai", input, cached, output)), Finish(Succeeded, "Codex turn completed")]
    case CodexTurnFailed => [Finish(Failed, "codex_turn_failed")]
    case CodexError => [Finish(Failed, "codex_stream_error")]
    case ClaudeInit(sessionId, _) => [Emit(Checkpoint(CheckpointHash("anthropic", sessionId)))]
    case ClaudeResult(_, input, cached, output, denials, success, subtype) =>
      [Emit(Usage("anthropic", input, cached, output))] + Declare(found.artifacts) +
      (if denials > 0 then [Emit(ApprovalRequested(found.requestId)), Finish(ApprovalRequired, "Claude reported one or more permission denials")]
       else if success then [Finish(Succeeded, "Claude turn completed")]
       else [Finish(Failed, "claude_" + subtype)])
    case OtherMessage(_) => []
  }

  function EffectsOf(message: Message, found: Found): (r: seq<Effect>)
    ensures AllTame(r) && r != [] && r[|r| - 1] == Save
  {
    ActionsOf(message, found) + [Save]
  }

  /* ---------- the stream ---------- */

  function Append(events: seq<Event>, body: Body, at: Time): seq<Event> {
    events + [Event(|events| + 1, at, body)]
  }

  /** Sequences are exactly 1..n. */
  ghost predicate Numbered(events: seq<Event>) {
    forall i :: 0 <= i < |events| ==> events[i].sequence == i + 1
  }

  function Terminals(events: seq<Event>): nat {
    if events == [] then 0 else Terminals(events[..|events| - 1]) + (if events[|events| - 1].body.Terminal? then 1 else 0)
  }

  /** A terminal event exists, exactly one and with the status as outcome, if and only if the session is not running. */
  ghost predicate Consistent(events: seq<Event>, status: Status) {
    && Numbered(events)
    && Terminals(events) == (if status == Running then 0 else 1)
    && (forall i :: 0 <= i < |events| && events[i].body.Terminal? ==> events[i].body.outcome == status)
  }

  lemma TerminalsAppend(events: seq<Event>, e: Event)
    ensures Terminals(events + [e]) == Terminals(events) + (if e.body.Terminal? then 1 else 0)
  {
    assert (events + [e])[..|events|] == events;
  }

  lemma {:induction false} TerminalsConcat(a: seq<Event>, b: seq<Event>)
    ensures Terminals(a + b) == Terminals(a) + Terminals(b)
  {
    if b == [] {
      assert a + b == a;
    } else {
      var n := |b| - 1;
      TerminalsConcat(a, b[..n]);
      assert a + b == (a + b[..n]) + [b[n]];
      TerminalsAppend(a + b[..n], b[n]);
    }
  }

  lemma {:induction false} NoneMeansNone(events: seq<Event>)
    requires Terminals(events) == 0
    ensures forall i :: 0 <= i < |events| ==> !events[i].body.Terminal?
  {
    if events != [] { NoneMeansNone(events[..|events| - 1]); }
  }

  /* ---------- batches ---------- */

  const MAX_BATCH: nat := 4096

  datatype Batch = Batch(afterSequence: nat, events: seq<Event>, status: Status)

  ghost predicate Ordered(after: nat, events: seq<Event>) {
    forall i :: 0 <= i < |events| ==> events[i].sequence == after + i + 1
  }

  /** The refinement every batch must meet. */
  ghost predicate Refined(b: Batch) {
    && Ordered(b.afterSequence, b.events)
    && Terminals(b.events) <= 1
    && (b.status == Running ==> Terminals(b.events) == 0)
  }

  datatype Issue = WrongSequence(index: nat, expected: nat) | MultipleTerminals | RunningWithTerminal

  /** The `superRefine` of the batch schema: a loop with an `expected` counter. */
  method CheckBatch(b: Batch) returns (issues: seq<Issue>)
    ensures issues == [] <==> Refined(b)
  {
    issues := [];
    var expected, i := b.afterSequence + 1, 0;
    while i < |b.events|
      invariant 0 <= i <= |b.events| && expected == b.afterSequence + 1 + i
      invariant issues == [] <==> Ordered(b.afterSequence, b.events[..i])
    {
      assert b.events[..i + 1] == b.events[..i] + [b.events[i]];
      if b.events[i].sequence != expected {
        issues := issues + [WrongSequence(i, expected)];
        assert !Ordered(b.afterSequence, b.events[..i + 1]) by { assert b.events[..i + 1][i] == b.events[i]; }
      }
      expected := expected + 1;
      i := i + 1;
    }
    assert b.events[..i] == b.events;
    var terminals := Terminals(b.events);
    if terminals > 1 { issues := issues + [MultipleTerminals]; }
    if b.status == Running && terminals != 0 { issues := issues + [RunningWithTerminal]; }
  }

  /** The events after a cursor: `filter(sequence > afterSequence)`. */
  function After(events: seq<Event>, cursor: nat): seq<Event> {
    if events == [] then []
    else if events[0].sequence > cursor then [events[0]] + After(events[1..], cursor)
    else After(events[1..], cursor)
  }

  lemma {:induction false} AfterIsSuffix(events: seq<Event>, first: nat, cursor: nat)
    requires forall i :: 0 <= i < |events| ==> events[i].sequence == first + i
    ensures After(events, cursor) == if cursor < first then events else if cursor - first + 1 <= |events| then events[cursor - first + 1..] else []
  {
    if events != [] {
      AfterIsSuffix(events[1..], first + 1, cursor);
      assert events == [events[0]] + events[1..];
    }
  }

  /** In a numbered stream the filter is the suffix after the cursor. */
  lemma AfterNumbered(events: seq<Event>, cursor: nat)
    requires Numbered(events)
    ensures After(events, cursor) == if cursor <= |events| then events[cursor..] else []
  {
    AfterIsSuffix(events, 1, cursor);
  }

  lemma {:induction false} AfterAppend(events: seq<Event>, e: Event, cursor: nat)
    ensures After(events + [e], cursor) == After(events, cursor) + (if e.sequence > cursor then [e] else [])
  {
    if events != [] {
      assert (events + [e])[1..] == events[1..] + [e];
      AfterAppend(events[1..], e, cursor);
    }
  }

  /** The filter of `inspect`, as the loop it is. */
  method EventsAfter(events: seq<Event>, cursor: nat) returns (found: seq<Event>)
    ensures found == After(events, cursor)
    ensures Numbered(events) && cursor <= |events| ==> found == events[cursor..]
  {
    found := [];
    for i := 0 to |events|
      invariant found == After(events[..i], cursor)
    {
      assert events[..i + 1] == events[..i] + [events[i]];
      AfterAppend(events[..i], events[i], cursor);
      if events[i].sequence > cursor { found := found + [events[i]]; }
    }
    assert events[..|events|] == events;
    if Numbered(events) { AfterNumbered(events, cursor); }
  }
}
