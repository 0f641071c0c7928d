/** Every interleaving of provider messages, cancel, close, timeout and resume, and a reader that follows the stream. */
module SessionRuns {
  import opened Prelude
  import opened DriverSession

  /**
   A session; `tasks` are the handlers of received messages that still have effects to perform, `saves` the writings
   to the session file that are scheduled and have not begun.
   */
  datatype Session = Session(
    events: seq<Event>, status: Status, reason: Option<string>, completedAt: Option<Time>,
    seen: seq<Message>, rawCount: nat, providerId: Option<string>, checkpoint: Option<CheckpointDigest>, models: seq<string>, tasks: seq<seq<Effect>>, saves: nat)

  function Begin(at: Time): Session {
    Session(Append([], Started, at), Running, None, None, [], 0, None, None, [], [], 0)
  }

  function Clip(reason: string): (r: string)
    ensures r != [] && |r| <= 1000
  {
    var cut := if |reason| <= 1000 then reason else reason[..1000];
    if cut == [] then "No terminal reason supplied" else cut
  }

  /** `#terminal`: guarded by the status, so only the first call has an effect. */
  function Terminate(s: Session, outcome: Status, reason: string, at: Time): Session {
    if s.status != Running then s
    else
      var final := if outcome == Running then ProtocolInvalid else outcome;
      s.(status := final, reason := Some(Clip(reason)), completedAt := Some(at), events := Append(s.events, Terminal(final, Clip(reason)), at))
  }

  function Perform(s: Session, e: Effect, at: Time): Session {
    match e
    case Emit(body) => s.(events := Append(s.events, body, at))
    case Finish(outcome, reason) => Terminate(s, outcome, reason, at)
    case Save => Saving(s)
  }

  /** `#persist` puts one more writing on the chain. */
  function Saving(s: Session): Session {
    s.(saves := s.saves + 1)
  }

  /** What cancel, close and the timer do: only a running session is ended, and then saved. */
  function Stop(s: Session, outcome: Status, reason: string, at: Time): Session {
    if s.status != Running then s else Saving(Terminate(s, outcome, reason, at))
  }

  function AddModel(models: seq<string>, model: string): seq<string> {
    if model in models then models else models + [model]
  }

  function AddModels(models: seq<string>, more: seq<string>): seq<string> {
    if more == [] then models else AddModel(AddModels(models, more[..|more| - 1]), more[|more| - 1])
  }

  datatype Step =
    | Receive(message: Message, found: Found)
    | Advance(task: nat)
    | Cancel(why: Status, because: string)
    | Expire
    | Close
    | StreamEnds
    | StreamFails(protocolInvalid: bool, aborted: bool)
    | Resume
    | Flush

  function Noted(s: Session, message: Message): Session {
    match message
    case CodexThreadStarted(threadId) => s.(providerId := Some(threadId), checkpoint := Some(CheckpointHash("openai", threadId)))
    case ClaudeInit(sessionId, model) =>
      s.(providerId := Some(sessionId), checkpoint := Some(CheckpointHash("anthropic", sessionId)), models := AddModel(s.models, model))
    case ClaudeResult(models, _, _, _, _, _, _) => s.(models := AddModels(s.models, models))
    case _ => s
  }

  /** A message that was seen before is counted and dropped; a new one schedules its handler. */
  function OnReceive(s: Session, message: Message, found: Found): Session {
    var counted := s.(rawCount := s.rawCount + 1);
    if message in s.seen then Saving(counted)
    else Noted(counted.(seen := s.seen + [message], tasks := s.tasks + [EffectsOf(message, found)]), message)
  }

  function OnAdvance(s: Session, task: nat, at: Time): Session {
    if task < |s.tasks| && s.tasks[task] != [] then
      Perform(s, s.tasks[task][0], at).(tasks := s.tasks[task := s.tasks[task][1..]])
    else s
  }

  function Next(s: Session, step: Step, at: Time): Session {
    match step
    case Receive(message, found) => OnReceive(s, message, found)
    case Advance(task) => OnAdvance(s, task, at)
    case Cancel(why, because) => Stop(s, why, because, at)
    case Expire => Stop(s, TimedOut, "provider_wall_time_expired", at)
    case Close => Stop(s, OperatorCancelled, "Driver closed", at)
    case StreamEnds => Saving(Terminate(s, ProtocolInvalid, "Stream ended without terminal event", at))
    case StreamFails(protocolInvalid, aborted) =>
      Saving(if aborted then Terminate(s, OperatorCancelled, "operator_cancelled", at)
             else if protocolInvalid then Terminate(s, ProtocolInvalid, "provider_event_protocol_invalid", at)
             else Terminate(s, Failed, "provider_execution_failed", at))
    case Flush => Saving(s)
    case Resume => s
  }

  /* ---------- the invariant ---------- */

  ghost predicate AllTasksTame(tasks: seq<seq<Effect>>) {
    forall i :: 0 <= i < |tasks| ==> AllTame(tasks[i])
  }

  ghost predicate Sound(s: Session) {
    && Consistent(s.events, s.status) && AllTasksTame(s.tasks)
    && (s.status == Running <==> s.reason.None?) && (s.status == Running <==> s.completedAt.None?)
  }

  lemma TerminateKeeps(s: Session, outcome: Status, reason: string, at: Time)
    requires Sound(s)
    ensures Sound(Terminate(s, outcome, reason, at)) && s.events <= Terminate(s, outcome, reason, at).events
  {
    if s.status == Running {
      var t := Terminate(s, outcome, reason, at);
      TerminalsAppend(s.events, t.events[|s.events|]);
      NoneMeansNone(s.events);
    }
  }

  lemma PerformKeeps(s: Session, e: Effect, at: Time)
    requires Sound(s) && Tame(e)
    ensures Sound(Perform(s, e, at)) && s.events <= Perform(s, e, at).events
  {
    match e
    case Emit(body) => TerminalsAppend(s.events, Event(|s.events| + 1, at, body));
    case Finish(outcome, reason) => TerminateKeeps(s, outcome, reason, at);
    case Save =>
  }

  lemma ReceiveKeeps(s: Session, message: Message, found: Found)
    requires Sound(s)
    ensures Sound(OnReceive(s, message, found)) && OnReceive(s, message, found).events == s.events
  {
  }

  lemma NextKeeps(s: Session, step: Step, at: Time)
    requires Sound(s)
    ensures Sound(Next(s, step, at)) && Follows(s, Next(s, step, at))
  {
    match step
    case Receive(message, found) => ReceiveKeeps(s, message, found);
    case Advance(task) =>
      if task < |s.tasks| && s.tasks[task] != [] { PerformKeeps(s, s.tasks[task][0], at); }
    case Cancel(why, because) => TerminateKeeps(s, why, because, at);
    case Expire => TerminateKeeps(s, TimedOut, "provider_wall_time_expired", at);
    case Close => TerminateKeeps(s, OperatorCancelled, "Driver closed", at);
    case StreamEnds => TerminateKeeps(s, ProtocolInvalid, "Stream ended without terminal event", at);
    case StreamFails(protocolInvalid, aborted) =>
      TerminateKeeps(s, OperatorCancelled, "operator_cancelled", at);
      TerminateKeeps(s, ProtocolInvalid, "provider_event_protocol_invalid", at);
      TerminateKeeps(s, Failed, "provider_execution_failed", at);
    case Resume =>
    case Flush =>
  }

  /* ---------- runs with a reader ---------- */

  /**
   The session moves, a writing of it begins or is done, the process dies and reloads the file, or the reader asks for
   everything after the last sequence it holds.
   */
  datatype Turn = Act(step: Step, at: Time) | WriteBegins | WriteEnds | Restart | Read

  /** The live session, the copy in its file, the copy being written, and what the reader has. */
  datatype World = World(session: Session, disk: Session, writing: Option<Session>, collected: seq<Event>, batches: seq<Batch>)

  /** What goes into the file: handlers and scheduled writings die with the process. */
  function Copy(s: Session): Session {
    s.(tasks := [], saves := 0)
  }

  function LastSequence(events: seq<Event>): nat {
    if events == [] then 0 else events[|events| - 1].sequence
  }

  /** `inspect`: refused when the batch would break the schema. */
  function Inspect(s: Session, cursor: nat): Result<Batch> {
    var b := Batch(cursor, After(s.events, cursor), s.status);
    if |b.events| > MAX_BATCH then Failure("Too big") else Success(b)
  }

  /** `inspect` waits until no writing is under way or scheduled. */
  function Turned(w: World, turn: Turn): World {
    match turn
    case Act(step, at) => w.(session := Next(w.session, step, at))
    case WriteBegins =>
      if w.session.saves > 0 && w.writing.None? then w.(session := w.session.(saves := w.session.saves - 1), writing := Some(Copy(w.session))) else w
    case WriteEnds => if w.writing.Some? then w.(disk := w.writing.value, writing := None) else w
    case Restart => w.(session := w.disk, writing := None)
    case Read =>
      var r := Inspect(w.session, LastSequence(w.collected));
      if w.session.saves > 0 || w.writing.Some? || r.Failure? then w
      else w.(collected := w.collected + r.value.events, batches := w.batches + [r.value])
  }

  /** A session is handed out once its first writing is done. */
  function Run(start: Time, turns: seq<Turn>): World {
    if turns == [] then World(Begin(start), Begin(start), None, [], [])
    else Turned(Run(start, turns[..|turns| - 1]), turns[|turns| - 1])
  }

  ghost predicate IsCopy(s: Session) {
    Sound(s) && s.tasks == [] && s.saves == 0
  }

  /** The copy that will be in the file once the writing under way is done. */
  function Latest(w: World): Session {
    if w.writing.Some? then w.writing.value else w.disk
  }

  /** An end once reached is the end later on. */
  ghost predicate SameOutcome(s: Session, t: Session) {
    t.status == s.status && t.reason == s.reason && t.completedAt == s.completedAt
  }

  /** The later state of one session: its stream is longer, and it is over if the earlier one was. */
  ghost predicate Follows(s: Session, t: Session) {
    s.events <= t.events && (s.status != Running ==> SameOutcome(s, t))
  }

  /** The file, the copy being written and the live session are states of one session, one after another. */
  ghost predicate Good(w: World) {
    && Sound(w.session) && IsCopy(w.disk) && IsCopy(Latest(w))
    && Follows(w.disk, Latest(w)) && Follows(Latest(w), w.session)
    && Numbered(w.collected) && (forall i :: 0 <= i < |w.batches| ==> Refined(w.batches[i]))
  }

  lemma BeginIsSound(at: Time)
    ensures Sound(Begin(at))
  {
    TerminalsAppend([], Event(1, at, Started));
    assert [] + [Event(1, at, Started)] == [Event(1, at, Started)];
  }

  /** A suffix of a consistent stream, given out with the status, meets the refinement. */
  lemma SuffixRefined(s: Session, cursor: nat)
    requires Sound(s) && cursor <= |s.events|
    ensures Refined(Batch(cursor, s.events[cursor..], s.status))
  {
    TerminalsConcat(s.events[..cursor], s.events[cursor..]);
    assert s.events == s.events[..cursor] + s.events[cursor..];
  }

  /** What `inspect` returns is the missing part of the stream, and meets the refinement. */
  lemma InspectGivesRest(s: Session, cursor: nat)
    requires Sound(s) && cursor <= |s.events|
    ensures Inspect(s, cursor).Success? <==> |s.events| - cursor <= MAX_BATCH
    ensures Inspect(s, cursor).Success? ==>
              var b := Inspect(s, cursor).value;
              b.events == s.events[cursor..] && b.status == s.status && Refined(b)
  {
    AfterNumbered(s.events, cursor);
    SuffixRefined(s, cursor);
  }

  lemma NumberedLast(collected: seq<Event>)
    requires Numbered(collected)
    ensures LastSequence(collected) == |collected|
  {
  }

  /** Whatever the reader holds, what it is given next continues its numbering and meets the refinement. */
  lemma ReadKeeps(s: Session, collected: seq<Event>)
    requires Sound(s) && Numbered(collected) && Inspect(s, |collected|).Success?
    ensures Numbered(collected + Inspect(s, |collected|).value.events) && Refined(Inspect(s, |collected|).value)
  {
    if |collected| <= |s.events| { InspectGivesRest(s, |collected|); } else { AfterNumbered(s.events, |collected|); }
  }

  lemma TurnKeeps(w: World, turn: Turn)
    requires Good(w)
    ensures Good(Turned(w, turn))
  {
    match turn
    case Act(step, at) => NextKeeps(w.session, step, at);
    case WriteBegins =>
    case WriteEnds =>
    case Restart =>
    case Read =>
      NumberedLast(w.collected);
      if Inspect(w.session, |w.collected|).Success? { ReadKeeps(w.session, w.collected); }
  }

  lemma {:induction false} RunsAreGood(start: Time, turns: seq<Turn>)
    ensures Good(Run(start, turns))
  {
    if turns == [] {
      BeginIsSound(start);
    } else {
      RunsAreGood(start, turns[..|turns| - 1]);
      TurnKeeps(Run(start, turns[..|turns| - 1]), turns[|turns| - 1]);
    }
  }

  /* ---------- main results ---------- */

  /**
   Under every interleaving, restarts included, the sequences are exactly 1..n, there is a terminal event, exactly one
   and with the status as its outcome, if and only if the status is not running, and every batch handed out meets the
   ordering and terminal refinement.
   */
  lemma StreamsAreConsistent(start: Time, turns: seq<Turn>)
    ensures var w := Run(start, turns);
            && Consistent(w.session.events, w.session.status)
            && Numbered(w.collected) && (forall i :: 0 <= i < |w.batches| ==> Refined(w.batches[i]))
  {
    RunsAreGood(start, turns);
  }

  lemma RunNext(start: Time, turns: seq<Turn>, n: nat)
    requires n < |turns|
    ensures Run(start, turns[..n + 1]) == Turned(Run(start, turns[..n]), turns[n])
  {
    assert turns[..n + 1][..n] == turns[..n];
  }
}
