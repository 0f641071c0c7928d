/** The generic command session object: interpretation as loops over the log, rewriting the stored state in place. */
module GenericDriver {
  import opened Prelude
  import opened GenericCommand

  /** The line loop of `#events`: push events, reassign `forced`, break. */
  method ScanLines(c: Config, lines: seq<Line>, files: Files, initial: Option<Forced>) returns (events: seq<Event>, forced: Option<Forced>, thrown: bool)
    ensures var scan := ScanFrom(c, lines, files, 0);
            && thrown == scan.end.Thrown?
            && (!thrown ==> events == scan.events && forced == if scan.end.Stopped? then Some(scan.end.forced) else initial)
  {
    events, forced, thrown := [], initial, false;
    ghost var whole := ScanFrom(c, lines, files, 0);
    var i := 0;
    while i < |lines|
      invariant 0 <= i <= |lines|
      invariant whole == Scan(events + ScanFrom(c, lines, files, i).events, ScanFrom(c, lines, files, i).end)
      invariant forced == initial && !thrown
    {
      ghost var here := ScanFrom(c, lines, files, i);
      var verdict := Judge(c, lines[i], i, ReadAt(files, i));
      match verdict {
        case Go(body) =>
          events := events + [Event(i + 1, body)];
        case Last(body) =>
          events := events + [Event(i + 1, body)];
          return;
        case Approval(body, f) =>
          events, forced := events + [Event(i + 1, body)], Some(f);
          return;
        case Force(f) =>
          forced := Some(f);
          return;
        case Throw =>
          thrown := true;
          return;
      }
      i := i + 1;
    }
  }

  predicate HasTerminal(events: seq<Event>) {
    exists i :: 0 <= i < |events| && events[i].body.Terminal?
  }

  class Session {
    const config: Config
    var forcedTerminal: Option<Forced>
    var completedAt: Option<Time>

    ghost function Value(): Stored
      reads this
    {
      Stored(forcedTerminal, completedAt)
    }

    constructor (config: Config)
      ensures this.config == config && Value() == Stored(None, None)
    {
      this.config, forcedTerminal, completedAt := config, None, None;
    }

    method Force(terminal: Forced, now: Time)
      modifies this
      ensures Value() == Stored(Some(terminal), Stamp(old(completedAt), now))
    {
      forcedTerminal := Some(terminal);
      if completedAt.None? { completedAt := Some(now); }
    }

    method CheckTimeout(now: Time)
      modifies this
      ensures Value() == EnforceTimeout(config, old(Value()), now)
    {
      if forcedTerminal.Some? { return; }
      if now >= config.startedAt + config.wallTimeMs {
        Force(Forced(TimedOut, "Generic command wall time expired"), now);
      }
    }

    method CancelSession(reason: Forced, now: Time)
      modifies this
      ensures Value() == Cancel(old(Value()), reason, now)
    {
      if forcedTerminal.None? {
        forcedTerminal, completedAt := Some(reason), Some(now);
      }
    }

    /** A cancellation lands while a reading waits. */
    method Interrupt(call: Option<Cancellation>)
      modifies this
      ensures Value() == Interrupted(old(Value()), call)
    {
      if call.Some? { CancelSession(call.value.forced, call.value.at); }
    }

    /** `#events`, settling an exited container by looking again. */
    method Events(sights: Sights, attempt: nat, now: Time) returns (r: Result<seq<Event>>)
      requires attempt <= SETTLE_ATTEMPTS
      modifies this
      ensures Reading(r, Value()) == Interpret(config, old(Value()), sights, attempt, now)
      ensures r.Success? ==> WellShaped(r.value)
      decreases SETTLE_ATTEMPTS - attempt
    {
      ReadingsAreWellShaped(config, Value(), sights, attempt, now);
      var sight := sights[attempt];
      ScanShape(config, sight.lines, sight.files, 0);
      Interrupt(sight.waiting);
      var events, forced, thrown := ScanLines(config, sight.lines, sight.files, forcedTerminal);
      Interrupt(sight.meanwhile);
      if thrown { return Failure("Driver line could not be read"); }
      if !HasTerminal(events) {
        if !sight.running && forced.None? {
          if attempt < SETTLE_ATTEMPTS {
            r := Events(sights, attempt + 1, now);
            return;
          }
          forced := Some(Forced(ProtocolInvalid, "Driver exited without a terminal event"));
        }
        if forced.Some? {
          Force(forced.value, now);
          events := events + [Event(|events| + 1, Terminal(forced.value.outcome, forced.value.reason))];
        }
      } else if completedAt.None? {
        completedAt := Some(now);
      }
      return Success(events);
    }

    method InspectAll(sights: Sights, now: Time) returns (r: Result<seq<Event>>)
      modifies this
      ensures Reading(r, Value()) == Inspect(config, old(Value()), sights, now)
      ensures r.Success? ==> WellShaped(r.value)
    {
      CheckTimeout(now);
      r := Events(sights, 0, now);
    }
  }
}
