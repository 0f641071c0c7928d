/** The session object itself, changed in place by its handlers. */
module LiveSession {
  import opened Prelude
  import opened DriverSession
  import opened SessionRuns

  class Live {
    var events: seq<Event>
    var status: Status
    var reason: Option<string>
    var completedAt: Option<Time>
    var seen: seq<Message>
    var rawCount: nat
    var providerId: Option<string>
    var checkpoint: Option<CheckpointDigest>
    var models: seq<string>
    var tasks: seq<seq<Effect>>
    var saves: nat

    ghost function Value(): Session
      reads this
    {
      Session(events, status, reason, completedAt, seen, rawCount, providerId, checkpoint, models, tasks, saves)
    }

    ghost predicate Valid()
      reads this
    {
      Sound(Value())
    }

    constructor (at: Time)
      ensures Valid() && Value() == Begin(at)
    {
      events, status, reason, completedAt := [Event(1, at, Started)], Running, None, None;
      seen, rawCount, providerId, checkpoint, models, tasks, saves := [], 0, None, None, [], [], 0;
      new;
      BeginIsSound(at);
      assert events == Append([], Started, at);
    }

    /** `#append`: unguarded, numbered by the length of the stream. */
    method AppendEvent(body: Body, at: Time)
      modifies this`events
      ensures events == Append(old(events), body, at)
    {
      events := events + [Event(|events| + 1, at, body)];
    }

    /** `#terminal`: only the first call on a running session has an effect. */
    method EnterTerminal(outcome: Status, why: string, at: Time)
      requires Valid()
      modifies this
      ensures Valid() && Value() == Terminate(old(Value()), outcome, why, at)
      ensures status != Running
    {
      TerminateKeeps(Value(), outcome, why, at);
      if status != Running { return; }
      var final := if outcome == Running then ProtocolInvalid else outcome;
      status := final;
      var cut := if |why| <= 1000 then why else why[..1000];
      if cut == [] { cut := "No terminal reason supplied"; }
      reason := Some(cut);
      completedAt := Some(at);
      AppendEvent(Terminal(final, cut), at);
    }

    /** One turn of the consume loop: count, drop if seen, else note it and schedule its effects. */
    method ReceiveMessage(message: Message, found: Found, at: Time)
      requires Valid()
      modifies this
      ensures Valid() && Value() == Next(old(Value()), Receive(message, found), at)
      ensures message in old(seen) ==> events == old(events) && tasks == old(tasks) && status == old(status)
    {
      NextKeeps(Value(), Receive(message, found), at);
      rawCount := rawCount + 1;
      if message in seen {
        Persist();
        return;
      }
      seen := seen + [message];
      tasks := tasks + [EffectsOf(message, found)];
      NoteIdentity(message);
    }

    /** What a new message says of the provider's session and its models. */
    method NoteIdentity(message: Message)
      modifies this`providerId, this`checkpoint, this`models
      ensures Value() == Noted(old(Value()), message)
    {
      match message {
        case CodexThreadStarted(threadId) =>
          providerId, checkpoint := Some(threadId), Some(CheckpointHash("openai", threadId));
        case ClaudeInit(sessionId, model) =>
          providerId, checkpoint := Some(sessionId), Some(CheckpointHash("anthropic", sessionId));
          if model !in models { models := models + [model]; }
        case ClaudeResult(used, _, _, _, _, _, _) =>
          ObserveModels(used);
        case _ =>
      }
    }

    method ObserveModels(used: seq<string>)
      modifies this`models
      ensures models == AddModels(old(models), used)
    {
      for i := 0 to |used|
        invariant models == AddModels(old(models), used[..i])
      {
        assert used[..i + 1][..i] == used[..i];
        if used[i] !in models { models := models + [used[i]]; }
      }
      assert used[..|used|] == used;
    }

    /** A handler performs its next effect, whatever happened while it was waiting. */
    method AdvanceTask(task: nat, at: Time)
      requires Valid()
      modifies this
      ensures Valid() && Value() == Next(old(Value()), Advance(task), at)
    {
      NextKeeps(Value(), Advance(task), at);
      if task >= |tasks| || tasks[task] == [] { return; }
      var effect := tasks[task][0];
      match effect {
        case Emit(body) => AppendEvent(body, at);
        case Finish(outcome, why) => EnterTerminal(outcome, why, at);
        case Save => Persist();
      }
      tasks := tasks[task := tasks[task][1..]];
    }

    /** `#persist`: one more writing goes onto the chain. */
    method Persist()
      modifies this`saves
      ensures saves == old(saves) + 1
    {
      saves := saves + 1;
    }

    /** End a running session and save it; leave one that is over alone. */
    method StopSession(why: Status, because: string, at: Time)
      requires Valid()
      modifies this
      ensures Valid() && Value() == Stop(old(Value()), why, because, at)
      ensures status != Running
    {
      if status != Running { return; }
      EnterTerminal(why, because, at);
      Persist();
    }

    method CancelSession(why: Status, because: string, at: Time)
      requires Valid()
      modifies this
      ensures Valid() && Value() == Next(old(Value()), Cancel(why, because), at)
      ensures status != Running
    {
      StopSession(why, because, at);
    }

    method CloseSession(at: Time)
      requires Valid()
      modifies this
      ensures Valid() && Value() == Next(old(Value()), Close, at)
      ensures status != Running
    {
      StopSession(OperatorCancelled, "Driver closed", at);
    }

    method TimeoutFires(at: Time)
      requires Valid()
      modifies this
      ensures Valid() && Value() == Next(old(Value()), Expire, at)
      ensures status != Running
    {
      StopSession(TimedOut, "provider_wall_time_expired", at);
    }

    /** The next writing on the chain begins: what the session holds now is what will be in its file. */
    method BeginWriting() returns (copy: Session)
      requires Valid() && saves > 0
      modifies this`saves
      ensures Valid() && Value() == old(Value()).(saves := old(saves) - 1)
      ensures copy == Copy(old(Value())) && IsCopy(copy)
    {
      copy := Session(events, status, reason, completedAt, seen, rawCount, providerId, checkpoint, models, [], 0);
      saves := saves - 1;
    }

    /** `#get` after a restart: the session as it was last written. */
    constructor Reload(copy: Session)
      requires IsCopy(copy)
      ensures Valid() && Value() == copy
    {
      events, status, reason, completedAt := copy.events, copy.status, copy.reason, copy.completedAt;
      seen, rawCount, providerId, checkpoint := copy.seen, copy.rawCount, copy.providerId, copy.checkpoint;
      models, tasks, saves := copy.models, [], 0;
    }

    method InspectAfter(cursor: nat) returns (r: Result<Batch>)
      requires Valid()
      ensures r == Inspect(Value(), cursor)
      ensures r.Success? && cursor <= |events| ==> r.value.events == events[cursor..] && Refined(r.value)
    {
      if cursor <= |events| { InspectGivesRest(Value(), cursor); }
      var found := EventsAfter(events, cursor);
      if |found| > MAX_BATCH { return Failure("Too big"); }
      return Success(Batch(cursor, found, status));
    }
  }
}
