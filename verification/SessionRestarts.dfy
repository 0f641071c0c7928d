/** What a reader, a redelivered message and an ended session survive when the process dies and reloads its file. */
module SessionRestarts {
  import opened Prelude
  import opened DriverSession
  import opened SessionRuns

  /* ---------- the reader ---------- */

  ghost predicate HoldsPrefix(w: World) {
    w.collected <= w.session.events
  }

  /** The process dies while the reader holds more than the file does. */
  ghost predicate Loses(w: World, turn: Turn) {
    turn.Restart? && |w.collected| > |w.disk.events|
  }

  lemma HoldsOn(w: World, turn: Turn)
    requires Good(w) && HoldsPrefix(w)
    ensures HoldsPrefix(Turned(w, turn)) <==> !Loses(w, turn)
  {
    TurnKeeps(w, turn);
    NumberedLast(w.collected);
    match turn
    case Act(step, at) => NextKeeps(w.session, step, at);
    case WriteBegins =>
    case WriteEnds =>
    case Restart => assert w.collected <= w.disk.events <==> |w.collected| <= |w.disk.events|;
    case Read =>
      InspectGivesRest(w.session, |w.collected|);
      assert w.collected + w.session.events[|w.collected|..] == w.session.events;
  }

  ghost predicate HoldsAt(start: Time, turns: seq<Turn>, n: nat)
    requires n <= |turns|
  {
    HoldsPrefix(Run(start, turns[..n]))
  }

  ghost predicate LosesAt(start: Time, turns: seq<Turn>, n: nat)
    requires n < |turns|
  {
    Loses(Run(start, turns[..n]), turns[n])
  }

  lemma HoldsNext(start: Time, turns: seq<Turn>, n: nat)
    requires n < |turns| && HoldsAt(start, turns, n)
    ensures HoldsAt(start, turns, n + 1) <==> !LosesAt(start, turns, n)
  {
    RunsAreGood(start, turns[..n]);
    RunNext(start, turns, n);
    HoldsOn(Run(start, turns[..n]), turns[n]);
  }

  lemma {:induction false} HoldsSoFar(start: Time, turns: seq<Turn>, n: nat)
    requires n <= |turns| && forall m: nat :: m < n ==> !LosesAt(start, turns, m)
    ensures HoldsAt(start, turns, n)
  {
    if n > 0 {
      HoldsSoFar(start, turns, n - 1);
      HoldsNext(start, turns, n - 1);
    }
  }

  /**
   A reader that passes its last sequence holds a prefix of the stream at every point of a run if and only if the
   process never dies while the reader holds more than the session file.
   */
  lemma ReaderHoldsExactly(start: Time, turns: seq<Turn>)
    ensures (forall n: nat :: n <= |turns| ==> HoldsAt(start, turns, n)) <==> (forall n: nat :: n < |turns| ==> !LosesAt(start, turns, n))
  {
    if forall n: nat :: n < |turns| ==> !LosesAt(start, turns, n) {
      forall n: nat | n <= |turns| ensures HoldsAt(start, turns, n) { HoldsSoFar(start, turns, n); }
    }
    if forall n: nat :: n <= |turns| ==> HoldsAt(start, turns, n) {
      forall n: nat | n < |turns| ensures !LosesAt(start, turns, n) {
        assert HoldsAt(start, turns, n) && HoldsAt(start, turns, n + 1);
        HoldsNext(start, turns, n);
      }
    }
  }

  lemma ReadLeaves(w: World)
    ensures Turned(w, Read).disk == w.disk && Turned(w, Read).session == w.session
  {
  }

  lemma ReadReassembles(w: World)
    requires Good(w) && HoldsPrefix(w) && w.session.saves == 0 && w.writing.None? && |w.session.events| - |w.collected| <= MAX_BATCH
    ensures Turned(w, Read).collected == w.session.events
  {
    NumberedLast(w.collected);
    InspectGivesRest(w.session, |w.collected|);
    assert w.collected + w.session.events[|w.collected|..] == w.session.events;
  }

  /** A reader that holds a prefix holds the whole stream after a read of at most 4096 events that need not wait. */
  lemma ReaderReassembles(start: Time, turns: seq<Turn>)
    requires HoldsPrefix(Run(start, turns))
    ensures var w := Run(start, turns);
            w.session.saves == 0 && w.writing.None? && |w.session.events| - |w.collected| <= MAX_BATCH
            ==> Run(start, turns + [Read]).collected == w.session.events
  {
    var w := Run(start, turns);
    RunsAreGood(start, turns);
    assert (turns + [Read])[..|turns|] == turns;
    if w.session.saves == 0 && w.writing.None? && |w.session.events| - |w.collected| <= MAX_BATCH { ReadReassembles(w); }
  }

  /* ---------- reading between handlers ---------- */

  ghost predicate Idle(s: Session) {
    forall i :: 0 <= i < |s.tasks| ==> s.tasks[i] == []
  }

  /** Every handler that is not done still has its save to come. */
  ghost predicate WillSave(s: Session) {
    forall i :: 0 <= i < |s.tasks| && s.tasks[i] != [] ==> s.tasks[i][|s.tasks[i]| - 1] == Save
  }

  /** With no handler under way and no writing scheduled, the newest copy is the session. */
  ghost predicate Saved(w: World) {
    WillSave(w.session) && (Idle(w.session) && w.session.saves == 0 ==> Copy(w.session) == Latest(w))
  }

  /** A message is saved at once if it was seen, and by its handler if not. */
  lemma ReceiveSaves(s: Session, message: Message, found: Found)
    requires WillSave(s)
    ensures var t := OnReceive(s, message, found); WillSave(t) && !(Idle(t) && t.saves == 0)
  {
    var t, n := OnReceive(s, message, found), |s.tasks|;
    if message !in s.seen {
      assert t.tasks == s.tasks + [EffectsOf(message, found)];
      assert t.tasks[n] != [] && forall i :: 0 <= i < n ==> t.tasks[i] == s.tasks[i];
    }
  }

  lemma ActSaves(w: World, step: Step, at: Time)
    requires Saved(w)
    ensures Saved(Turned(w, Act(step, at)))
  {
    var s, t := w.session, Next(w.session, step, at);
    match step
    case Receive(message, found) => ReceiveSaves(s, message, found);
    case Advance(task) =>
      if task < |s.tasks| && s.tasks[task] != [] { AdvanceSaves(s, task, at); }
    case Cancel(why, because) =>
    case Expire =>
    case Close =>
    case StreamEnds =>
    case StreamFails(protocolInvalid, aborted) =>
    case Resume =>
    case Flush =>
  }

  /** A handler that performs its last effect performs its save. */
  lemma AdvanceSaves(s: Session, task: nat, at: Time)
    requires WillSave(s) && task < |s.tasks| && s.tasks[task] != []
    ensures var t := OnAdvance(s, task, at); WillSave(t) && !(Idle(t) && t.saves == 0)
  {
    var t := OnAdvance(s, task, at);
    var left := s.tasks[task][1..];
    assert t.tasks[task] == left;
    if left != [] { assert left[|left| - 1] == s.tasks[task][|s.tasks[task]| - 1]; }
  }

  lemma {:induction false} RunsSave(start: Time, turns: seq<Turn>)
    ensures Saved(Run(start, turns))
  {
    if turns != [] {
      var w, turn := Run(start, turns[..|turns| - 1]), turns[|turns| - 1];
      RunsSave(start, turns[..|turns| - 1]);
      RunsAreGood(start, turns[..|turns| - 1]);
      if turn.Act? { ActSaves(w, turn.step, turn.at); }
    }
  }

  /** No read comes while a handler is under way. */
  ghost predicate ReadsBetweenHandlers(start: Time, turns: seq<Turn>, n: nat)
    requires n < |turns|
  {
    turns[n].Read? ==> Idle(Run(start, turns[..n]).session)
  }

  /** The reader holds nothing that is not in the file. */
  ghost predicate Durable(w: World) {
    w.collected <= w.disk.events
  }

  lemma DurableOn(w: World, turn: Turn)
    requires Good(w) && Saved(w) && Durable(w) && (turn.Read? ==> Idle(w.session))
    ensures Durable(Turned(w, turn))
  {
    if turn.Read? {
      NumberedLast(w.collected);
      InspectGivesRest(w.session, |w.collected|);
      assert w.collected + w.session.events[|w.collected|..] == w.session.events;
    }
  }

  lemma DurableNext(start: Time, turns: seq<Turn>, n: nat)
    requires n < |turns| && Durable(Run(start, turns[..n])) && ReadsBetweenHandlers(start, turns, n)
    ensures Durable(Run(start, turns[..n + 1]))
  {
    RunsAreGood(start, turns[..n]);
    RunsSave(start, turns[..n]);
    RunNext(start, turns, n);
    DurableOn(Run(start, turns[..n]), turns[n]);
  }

  lemma {:induction false} DurableSoFar(start: Time, turns: seq<Turn>, n: nat)
    requires n <= |turns| && forall m: nat :: m < n ==> ReadsBetweenHandlers(start, turns, m)
    ensures Durable(Run(start, turns[..n]))
  {
    if n > 0 {
      DurableSoFar(start, turns, n - 1);
      DurableNext(start, turns, n - 1);
    }
  }

  /** A reader that only reads between handlers holds a prefix of the stream, and of the file, through any restarts. */
  lemma ReadsBetweenHandlersHold(start: Time, turns: seq<Turn>, n: nat)
    requires n <= |turns| && forall m: nat :: m < n ==> ReadsBetweenHandlers(start, turns, m)
    ensures HoldsAt(start, turns, n) && Durable(Run(start, turns[..n]))
  {
    DurableSoFar(start, turns, n);
    RunsAreGood(start, turns[..n]);
  }

  /* ---------- a reader that is misled ---------- */

  const TwoFiles: Found := Found([Artifact("a", 1, "a"), Artifact("b", 1, "b")], "request")

  function Finished(): Step {
    Receive(CodexTurnCompleted(0, 0, 0), TwoFiles)
  }

  /** The reader is given the first of two artifacts, the process dies before the handler saves, and another message follows. */
  function MisledTurns(): seq<Turn> {
    [Act(Finished(), 1), Act(Advance(0), 1), Read, Restart, Act(Receive(CodexThreadStarted("thread"), TwoFiles), 2), Act(Advance(0), 2)]
  }

  /** The session with its first artifact declared, and the file still as it began. */
  lemma FirstArtifactDeclared(start: Time) returns (tasks: seq<seq<Effect>>)
    ensures var events := [Event(1, start, Started), Event(2, 1, ArtifactDeclared("a", 1, "a"))];
            Run(start, MisledTurns()[..2]) == World(Begin(start).(rawCount := 1, seen := [CodexTurnCompleted(0, 0, 0)], events := events, tasks := tasks), Begin(start), None, [], [])
  {
    var turns := MisledTurns();
    var effects := EffectsOf(CodexTurnCompleted(0, 0, 0), TwoFiles);
    var w0 := World(Begin(start), Begin(start), None, [], []);
    assert Run(start, turns[..0]) == w0;
    RunNext(start, turns, 0);
    assert Run(start, turns[..1]) == w0.(session := Begin(start).(rawCount := 1, seen := [CodexTurnCompleted(0, 0, 0)], tasks := [effects]));
    RunNext(start, turns, 1);
    assert effects[0] == Emit(ArtifactDeclared("a", 1, "a"));
    tasks := [effects[1..]];
  }

  /** What the reader holds after the first three turns. */
  lemma FirstArtifactRead(start: Time)
    ensures var w := Run(start, MisledTurns()[..3]);
            w.collected == [Event(1, start, Started), Event(2, 1, ArtifactDeclared("a", 1, "a"))] && w.disk == Begin(start)
  {
    var turns := MisledTurns();
    var tasks := FirstArtifactDeclared(start);
    var w := Run(start, turns[..2]);
    RunsAreGood(start, turns[..2]);
    ReadReassembles(w);
    ReadLeaves(w);
    RunNext(start, turns, 2);
    assert turns[2] == Read;
  }

  /** A session that starts over and receives another message reuses the second sequence number. */
  lemma NumberReused(w: World, start: Time)
    requires w.session == Begin(start)
    ensures var message := CodexThreadStarted("thread");
            var u := Turned(Turned(w, Act(Receive(message, TwoFiles), 2)), Act(Advance(0), 2));
            u.collected == w.collected && u.session.events == [Event(1, start, Started), Event(2, 2, Checkpoint(CheckpointHash("openai", "thread")))]
  {
    var effects := EffectsOf(CodexThreadStarted("thread"), TwoFiles);
    var t := Turned(w, Act(Receive(CodexThreadStarted("thread"), TwoFiles), 2));
    assert t.session.tasks == [effects] && effects[0] == Emit(Checkpoint(CheckpointHash("openai", "thread")));
  }

  /** The same sequence number names one event for the reader and another in the session. */
  lemma LostArtifactMisleads(start: Time)
    ensures var w := Run(start, MisledTurns());
            && |w.collected| == |w.session.events| == 2 && w.collected[1].sequence == w.session.events[1].sequence
            && w.collected[1] != w.session.events[1] && !HoldsPrefix(w)
  {
    var turns := MisledTurns();
    assert turns[..6] == turns;
    FirstArtifactRead(start);
    RunNext(start, turns, 3);
    RunNext(start, turns, 4);
    RunNext(start, turns, 5);
    NumberReused(Run(start, turns[..4]), start);
  }

  /* ---------- redelivery and the end of a session ---------- */

  /** The process died and reloaded a copy in which the message had not been received. */
  ghost predicate Forgotten(start: Time, turns: seq<Turn>, n: nat, message: Message)
    requires n < |turns|
  {
    turns[n].Restart? && message !in Run(start, turns[..n]).disk.seen
  }

  lemma SeenOn(w: World, turn: Turn, message: Message)
    requires message in w.session.seen && !(turn.Restart? && message !in w.disk.seen)
    ensures message in Turned(w, turn).session.seen
  {
  }

  lemma ReceivedIsSeen(w: World, turn: Turn)
    requires turn.Act? && turn.step.Receive?
    ensures turn.step.message in Turned(w, turn).session.seen
  {
  }

  lemma {:induction false} SeenStays(start: Time, turns: seq<Turn>, i: nat, n: nat)
    requires i < n <= |turns| && turns[i].Act? && turns[i].step.Receive?
    requires forall m: nat :: i < m < n ==> !Forgotten(start, turns, m, turns[i].step.message)
    ensures turns[i].step.message in Run(start, turns[..n]).session.seen
  {
    RunNext(start, turns, n - 1);
    var w := Run(start, turns[..n - 1]);
    if i == n - 1 {
      ReceivedIsSeen(w, turns[i]);
    } else {
      SeenStays(start, turns, i, n - 1);
      assert !Forgotten(start, turns, n - 1, turns[i].step.message);
      SeenOn(w, turns[n - 1], turns[i].step.message);
    }
  }

  /**
   A message received before adds nothing, whatever the workspace holds by now (no event, no handler that could add one
   later, no change of status), unless the process has since reloaded a copy from before the message.
   */
  lemma RedeliveryAddsNothing(start: Time, turns: seq<Turn>, i: nat, found: Found)
    requires i < |turns| && turns[i].Act? && turns[i].step.Receive?
    ensures var s := Run(start, turns).session;
            || OnReceive(s, turns[i].step.message, found) == s.(rawCount := s.rawCount + 1, saves := s.saves + 1)
            || exists m: nat :: i < m < |turns| && Forgotten(start, turns, m, turns[i].step.message)
  {
    assert turns[..|turns|] == turns;
    if forall m: nat :: i < m < |turns| ==> !Forgotten(start, turns, m, turns[i].step.message) {
      SeenStays(start, turns, i, |turns|);
    }
  }

  /** The process died and reloaded a copy in which the session was still running. */
  ghost predicate Revived(start: Time, turns: seq<Turn>, n: nat)
    requires n < |turns|
  {
    turns[n].Restart? && Run(start, turns[..n]).disk.status == Running
  }

  lemma OverOn(w: World, turn: Turn)
    requires Good(w) && w.session.status != Running && !(turn.Restart? && w.disk.status == Running)
    ensures SameOutcome(w.session, Turned(w, turn).session) && (!turn.Restart? ==> w.session.events <= Turned(w, turn).session.events)
  {
    if turn.Act? { NextKeeps(w.session, turn.step, turn.at); }
  }

  ghost predicate NoRestart(turns: seq<Turn>, n: nat, m: nat)
    requires n <= m <= |turns|
  {
    forall k :: n <= k < m ==> !turns[k].Restart?
  }

  /** The end is that of an earlier state, and so far without a restart the stream has only grown. */
  ghost predicate StaysOver(s: Session, t: Session, steady: bool) {
    SameOutcome(s, t) && (steady ==> s.events <= t.events)
  }

  lemma OverNext(start: Time, turns: seq<Turn>, s: Session, n: nat, m: nat)
    requires n <= m < |turns| && s.status != Running && StaysOver(s, Run(start, turns[..m]).session, NoRestart(turns, n, m)) && !Revived(start, turns, m)
    ensures StaysOver(s, Run(start, turns[..m + 1]).session, NoRestart(turns, n, m + 1))
  {
    RunsAreGood(start, turns[..m]);
    RunNext(start, turns, m);
    OverOn(Run(start, turns[..m]), turns[m]);
  }

  lemma {:induction false} OverSoFar(start: Time, turns: seq<Turn>, s: Session, n: nat, m: nat)
    requires n <= m <= |turns| && s == Run(start, turns[..n]).session && s.status != Running
    requires forall k: nat :: n <= k < m ==> !Revived(start, turns, k)
    ensures StaysOver(s, Run(start, turns[..m]).session, NoRestart(turns, n, m))
    decreases m
  {
    if n < m {
      OverSoFar(start, turns, s, n, m - 1);
      OverNext(start, turns, s, n, m - 1);
    }
  }

  /**
   Status, reason and completion time never change once the session is over, and without a restart the stream only
   grows, unless the process reloads a copy in which the session was still running.
   */
  lemma OverIsOver(start: Time, turns: seq<Turn>, n: nat)
    requires n <= |turns| && Run(start, turns[..n]).session.status != Running
    ensures StaysOver(Run(start, turns[..n]).session, Run(start, turns).session, NoRestart(turns, n, |turns|))
            || exists k: nat :: n <= k < |turns| && Revived(start, turns, k)
  {
    assert turns[..|turns|] == turns;
    if forall k: nat :: n <= k < |turns| ==> !Revived(start, turns, k) {
      OverSoFar(start, turns, Run(start, turns[..n]).session, n, |turns|);
    }
  }
}
