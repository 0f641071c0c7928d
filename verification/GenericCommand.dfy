/** Interpreting the log of a generic command container (`#events`), with the stored `forcedTerminal` it rewrites. */
module GenericCommand {
  import opened Prelude

  type Time = int

  datatype Outcome = Succeeded | Failed | ApprovalRequired | CapabilityViolation | ProtocolInvalid | OperatorCancelled | TimedOut

  datatype Forced = Forced(outcome: Outcome, reason: string)

  datatype Body =
    | Started
    | CapabilityUsed(capability: string)
    | ArtifactDeclared(path: string, role: string, size: nat, sha256: string)
    | Usage
    | ApprovalRequested(requestId: string, capability: string, reason: string)
    | Terminal(outcome: Outcome, reason: string)

  /** `occurredAt` is the start of the session plus the sequence, so it carries no more than these two. */
  datatype Event = Event(sequence: nat, body: Body)

  /** A non-empty line of the log, as far as it parses; `Broken` is one whose inner parse throws. */
  datatype Line =
    | Oversized
    | Malformed
    | Broken(sequence: nat)
    | Raw(sequence: nat, message: Message)

  datatype Message =
    | SaysStarted
    | SaysCapability(capability: string)
    | SaysArtifact(path: string, escapes: bool, role: string)
    | SaysUsage
    | SaysApproval(requestId: string, capability: string, reason: string)
    | SaysTerminal(succeeded: bool, detail: Option<string>)
    | SaysOther

  /** What a reading of a file found. */
  datatype Content = Content(size: nat, sha256: string)

  datatype Config = Config(readWrite: bool, startedAt: Time, wallTimeMs: int)

  predicate CapabilityAllowed(c: Config, capability: string) {
    (c.readWrite && capability == "workspace.write") || capability == "artifact.write"
  }

  /* ---------- one line ---------- */

  /** What a line does: an event and go on, an event and stop, stop and force, or throw. */
  datatype Verdict = Go(body: Body) | Last(body: Body) | Approval(body: Body, forced: Forced) | Force(forced: Forced) | Throw

  /** `read` is what the file the line may name holds just now, or nothing if it cannot be read. */
  function Judge(c: Config, line: Line, index: nat, read: Option<Content>): Verdict {
    match line
    case Oversized => Force(Forced(ProtocolInvalid, "Driver event exceeded the size limit"))
    case Malformed => Force(Forced(ProtocolInvalid, "Driver emitted malformed structured output"))
    case Broken(sequence) => if sequence != index + 1 then Force(Forced(ProtocolInvalid, "Driver event ordering is invalid")) else Throw
    case Raw(sequence, message) =>
      if sequence != index + 1 then Force(Forced(ProtocolInvalid, "Driver event ordering is invalid"))
      else
        match message
        case SaysStarted => Go(Started)
        case SaysCapability(capability) =>
          if CapabilityAllowed(c, capability) then Go(CapabilityUsed(capability))
          else Force(Forced(CapabilityViolation, "Driver used an undeclared capability"))
        case SaysArtifact(path, escapes, role) =>
          if escapes then Force(Forced(ProtocolInvalid, "Artifact path escaped its root"))
          else if read.None? then Throw
          else Go(ArtifactDeclared(path, role, read.value.size, read.value.sha256))
        case SaysUsage => Go(Usage)
        case SaysApproval(requestId, capability, reason) =>
          Approval(ApprovalRequested(requestId, capability, reason), Forced(ApprovalRequired, "Driver requested additional authority"))
        case SaysTerminal(succeeded, detail) =>
          var outcome := if succeeded then Succeeded else Failed;
          Last(Terminal(outcome, if detail.Some? then Clip(detail.value) else if succeeded then "Generic command succeeded" else "Generic command failed"))
        case SaysOther => Force(Forced(ProtocolInvalid, "Driver emitted an unknown event type"))
  }

  function Clip(reason: string): string {
    if |reason| <= 1000 then reason else reason[..1000]
  }

  /* ---------- the scan ---------- */

  /** Events read so far, and how the scan ended. */
  datatype Scan = Scan(events: seq<Event>, end: End)
  datatype End = Open | Stopped(forced: Forced) | Finished | Thrown

  /** `files` holds, by line, what the file named there read as when the scan came to it. */
  function ScanFrom(c: Config, lines: seq<Line>, files: Files, index: nat): Scan
    requires index <= |lines|
    decreases |lines| - index
  {
    if index == |lines| then Scan([], Open)
    else
      match Judge(c, lines[index], index, ReadAt(files, index))
      case Go(body) =>
        var rest := ScanFrom(c, lines, files, index + 1);
        Scan([Event(index + 1, body)] + rest.events, rest.end)
      case Last(body) => Scan([Event(index + 1, body)], Finished)
      case Approval(body, forced) => Scan([Event(index + 1, body)], Stopped(forced))
      case Force(forced) => Scan([], Stopped(forced))
      case Throw => Scan([], Thrown)
  }

  type Files = map<nat, Content>

  function ReadAt(files: Files, index: nat): Option<Content> {
    if index in files then Some(files[index]) else None
  }

  /* ---------- the interpreter ---------- */

  /** The stored part of a session that interpretation rewrites. */
  datatype Stored = Stored(forced: Option<Forced>, completedAt: Option<Time>)

  function Stamp(completedAt: Option<Time>, now: Time): Option<Time> {
    if completedAt.Some? then completedAt else Some(now)
  }

  /** A call of `cancel` that lands while a reading waits. */
  datatype Cancellation = Cancellation(forced: Forced, at: Time)

  /**
   What an attempt sees: the log, the files it names, whether the container still runs, and a cancellation that came
   before the attempt took its copy of `forcedTerminal` or after.
   */
  datatype Sight = Sight(lines: seq<Line>, files: Files, running: bool, waiting: Option<Cancellation>, meanwhile: Option<Cancellation>)

  /** One sight for the first attempt and one for each time it is repeated. */
  type Sights = s: seq<Sight> | |s| == SETTLE_ATTEMPTS + 1 witness seq(SETTLE_ATTEMPTS + 1, i => Sight([], map[], true, None, None))

  datatype Reading = Reading(events: Result<seq<Event>>, stored: Stored)

  const SETTLE_ATTEMPTS: nat := 3

  function Cancel(stored: Stored, forced: Forced, now: Time): Stored {
    if stored.forced.Some? then stored else Stored(Some(forced), Some(now))
  }

  function Interrupted(stored: Stored, call: Option<Cancellation>): Stored {
    if call.None? then stored else Cancel(stored, call.value.forced, call.value.at)
  }

  /** `#events`: scan, then settle an exited container a few times, then force a terminal event where none was read. */
  function Interpret(c: Config, stored: Stored, sights: Sights, attempt: nat, now: Time): Reading
    requires attempt <= SETTLE_ATTEMPTS
    decreases SETTLE_ATTEMPTS - attempt
  {
    var sight := sights[attempt];
    var scan := ScanFrom(c, sight.lines, sight.files, 0);
    var taken := Interrupted(stored, sight.waiting);
    var held := Interrupted(taken, sight.meanwhile);
    match scan.end
    case Thrown => Reading(Failure("Driver line could not be read"), held)
    case Finished => Reading(Success(scan.events), held.(completedAt := Stamp(held.completedAt, now)))
    case Stopped(forced) => ForceTerminal(scan.events, forced, held, now)
    case Open =>
      if taken.forced.Some? then ForceTerminal(scan.events, taken.forced.value, held, now)
      else if sight.running then Reading(Success(scan.events), held)
      else if attempt < SETTLE_ATTEMPTS then Interpret(c, held, sights, attempt + 1, now)
      else ForceTerminal(scan.events, Forced(ProtocolInvalid, "Driver exited without a terminal event"), held, now)
  }

  function TerminalEvent(events: seq<Event>, forced: Forced): Event {
    Event(|events| + 1, Terminal(forced.outcome, forced.reason))
  }

  function ForceTerminal(events: seq<Event>, forced: Forced, stored: Stored, now: Time): Reading {
    Reading(Success(events + [TerminalEvent(events, forced)]), Stored(Some(forced), Stamp(stored.completedAt, now)))
  }

  /** `#enforceTimeout`. */
  function EnforceTimeout(c: Config, stored: Stored, now: Time): Stored {
    if stored.forced.None? && now >= c.startedAt + c.wallTimeMs
    then Stored(Some(Forced(TimedOut, "Generic command wall time expired")), Stamp(stored.completedAt, now))
    else stored
  }

  function Inspect(c: Config, stored: Stored, sights: Sights, now: Time): Reading {
    Interpret(c, EnforceTimeout(c, stored, now), sights, 0, now)
  }

  /* ---------- shape of every reading ---------- */

  ghost predicate NumberedFrom(events: seq<Event>, first: nat) {
    forall i :: 0 <= i < |events| ==> events[i].sequence == first + i
  }

  /** Numbered 1..n, and a terminal event only at the very end. */
  ghost predicate WellShaped(events: seq<Event>) {
    NumberedFrom(events, 1) && forall i :: 0 <= i < |events| - 1 ==> !events[i].body.Terminal?
  }

  ghost predicate EndsTerminal(events: seq<Event>) {
    events != [] && events[|events| - 1].body.Terminal?
  }

  lemma {:induction false} ScanShape(c: Config, lines: seq<Line>, files: Files, index: nat)
    requires index <= |lines|
    ensures var scan := ScanFrom(c, lines, files, index);
            && NumberedFrom(scan.events, index + 1)
            && (scan.end.Finished? ==> EndsTerminal(scan.events))
            && forall i :: 0 <= i < |scan.events| && scan.events[i].body.Terminal? ==> scan.end.Finished? && i == |scan.events| - 1
    decreases |lines| - index
  {
    if index < |lines| && Judge(c, lines[index], index, ReadAt(files, index)).Go? { ScanShape(c, lines, files, index + 1); }
  }

  /** The attempt whose sight a reading was made from. */
  function Taken(c: Config, stored: Stored, sights: Sights, attempt: nat): (k: nat)
    requires attempt <= SETTLE_ATTEMPTS
    ensures attempt <= k <= SETTLE_ATTEMPTS
    decreases SETTLE_ATTEMPTS - attempt
  {
    var sight := sights[attempt];
    var taken := Interrupted(stored, sight.waiting);
    if ScanFrom(c, sight.lines, sight.files, 0).end.Open? && taken.forced.None? && !sight.running && attempt < SETTLE_ATTEMPTS
    then Taken(c, Interrupted(taken, sight.meanwhile), sights, attempt + 1)
    else attempt
  }

  /** The scan a reading was made from. */
  function TakenScan(c: Config, stored: Stored, sights: Sights, attempt: nat): Scan
    requires attempt <= SETTLE_ATTEMPTS
  {
    var sight := sights[Taken(c, stored, sights, attempt)];
    ScanFrom(c, sight.lines, sight.files, 0)
  }

  /** A reading fails exactly when its scan throws; otherwise it is the scan, ended where the log or the stored state ends it. */
  lemma {:induction false} ReadingIsTakenScan(c: Config, stored: Stored, sights: Sights, attempt: nat, now: Time)
    requires attempt <= SETTLE_ATTEMPTS
    ensures var r, scan := Interpret(c, stored, sights, attempt, now), TakenScan(c, stored, sights, attempt);
            match scan.end
            case Thrown => r.events.Failure?
            case Finished => r.events == Success(scan.events)
            case Stopped(forced) => r.events == Success(scan.events + [TerminalEvent(scan.events, forced)])
            case Open => || r.events == Success(scan.events)
                         || (r.stored.forced.Some? && r.events == Success(scan.events + [TerminalEvent(scan.events, r.stored.forced.value)]))
    decreases SETTLE_ATTEMPTS - attempt
  {
    if Taken(c, stored, sights, attempt) != attempt {
      var taken := Interrupted(stored, sights[attempt].waiting);
      ReadingIsTakenScan(c, Interrupted(taken, sights[attempt].meanwhile), sights, attempt + 1, now);
    }
  }

  /** For every log the events are numbered exactly 1..n, with at most one terminal event and that one last. */
  lemma ReadingsAreWellShaped(c: Config, stored: Stored, sights: Sights, attempt: nat, now: Time)
    requires attempt <= SETTLE_ATTEMPTS
    ensures var r := Interpret(c, stored, sights, attempt, now); r.events.Success? ==> WellShaped(r.events.value)
  {
    var sight := sights[Taken(c, stored, sights, attempt)];
    ScanShape(c, sight.lines, sight.files, 0);
    ReadingIsTakenScan(c, stored, sights, attempt, now);
  }

  /* ---------- what the log alone decides ---------- */

  predicate Declares(line: Line) {
    line.Raw? && line.message.SaysArtifact?
  }

  /** The line lets the scan go on, if the file it may name can be read. */
  predicate Passes(c: Config, line: Line, index: nat) {
    Judge(c, line, index, Some(Content(0, ""))).Go?
  }

  /** The lines whose files a scan has to read, whatever the files hold. */
  function Declared(c: Config, lines: seq<Line>, index: nat): (r: set<nat>)
    requires index <= |lines|
    ensures forall i :: i in r ==> index <= i < |lines|
    decreases |lines| - index
  {
    if index == |lines| || !Passes(c, lines[index], index) then {}
    else (if Declares(lines[index]) then {index} else {}) + Declared(c, lines, index + 1)
  }

  /** The line a scan stops at cannot be parsed any further. */
  predicate StopsBroken(c: Config, lines: seq<Line>, index: nat)
    requires index <= |lines|
    decreases |lines| - index
  {
    && index < |lines|
    && if Passes(c, lines[index], index) then StopsBroken(c, lines, index + 1) else lines[index] == Broken(index + 1)
  }

  predicate Readable(c: Config, lines: seq<Line>, files: Files, index: nat)
    requires index <= |lines|
  {
    !StopsBroken(c, lines, index) && Declared(c, lines, index) <= files.Keys
  }

  predicate SameReads(at: set<nat>, one: Files, two: Files) {
    forall i :: i in at ==> ReadAt(one, i) == ReadAt(two, i)
  }

  /** A scan throws exactly when it stops at a line that cannot be parsed or some declared file cannot be read. */
  lemma {:induction false} ThrowsUnreadable(c: Config, lines: seq<Line>, files: Files, index: nat)
    requires index <= |lines|
    ensures ScanFrom(c, lines, files, index).end.Thrown? <==> !Readable(c, lines, files, index)
    decreases |lines| - index
  {
    if index < |lines| && Passes(c, lines[index], index) {
      ThrowsUnreadable(c, lines, files, index + 1);
    }
  }

  /* ---------- prefix stability ---------- */

  /** One step of a scan at a line that lets it go on. */
  lemma PassingStep(c: Config, lines: seq<Line>, files: Files, index: nat) returns (event: Event)
    requires index < |lines| && Passes(c, lines[index], index) && (Declares(lines[index]) ==> index in files)
    ensures var rest := ScanFrom(c, lines, files, index + 1); ScanFrom(c, lines, files, index) == Scan([event] + rest.events, rest.end)
    ensures Judge(c, lines[index], index, ReadAt(files, index)) == Go(event.body) && event.sequence == index + 1
  {
    event := Event(index + 1, Judge(c, lines[index], index, ReadAt(files, index)).body);
  }

  /** A file matters only to a line that names it. */
  lemma SameJudgement(c: Config, line: Line, index: nat, one: Option<Content>, two: Option<Content>)
    requires Declares(line) ==> one == two
    ensures Judge(c, line, index, one) == Judge(c, line, index, two)
  {
  }

  /** At a line that ends the scan, nothing else matters. */
  lemma StoppingStep(c: Config, lines: seq<Line>, files: Files, others: seq<Line>, later: Files, index: nat)
    requires index < |lines| && index < |others| && lines[index] == others[index] && !Passes(c, lines[index], index)
    ensures ScanFrom(c, lines, files, index) == ScanFrom(c, others, later, index) && !ScanFrom(c, lines, files, index).end.Open?
  {
    assert Judge(c, lines[index], index, ReadAt(files, index)) == Judge(c, lines[index], index, ReadAt(later, index));
  }

  /** If the declared files read the same again, the scan of the grown log extends the scan. */
  lemma {:induction false} SameFilesExtend(c: Config, lines: seq<Line>, files: Files, more: seq<Line>, later: Files, index: nat)
    requires index <= |lines| && !ScanFrom(c, lines, files, index).end.Thrown? && SameReads(Declared(c, lines, index), files, later)
    ensures var before, after := ScanFrom(c, lines, files, index), ScanFrom(c, lines + more, later, index);
            before.events <= after.events && (!before.end.Open? ==> after == before)
    decreases |lines| - index
  {
    if index < |lines| {
      assert (lines + more)[index] == lines[index];
      if Passes(c, lines[index], index) {
        assert Declares(lines[index]) ==> index in Declared(c, lines, index);
        var one := PassingStep(c, lines, files, index);
        var two := PassingStep(c, lines + more, later, index);
        SameJudgement(c, lines[index], index, ReadAt(files, index), ReadAt(later, index));
        SameFilesExtend(c, lines, files, more, later, index + 1);
      } else {
        StoppingStep(c, lines, files, lines + more, later, index);
      }
    }
  }

  /** What the files hold decides what is read, or that nothing is, but not how much is read or where the log ends it. */
  lemma {:induction false} FilesDoNotEnd(c: Config, lines: seq<Line>, files: Files, more: seq<Line>, later: Files, index: nat)
    requires index <= |lines| && !ScanFrom(c, lines, files, index).end.Thrown? && !ScanFrom(c, lines + more, later, index).end.Thrown?
    ensures var before, after := ScanFrom(c, lines, files, index), ScanFrom(c, lines + more, later, index);
            |before.events| <= |after.events| && (!before.end.Open? ==> after.end == before.end && |after.events| == |before.events|)
    decreases |lines| - index
  {
    if index < |lines| {
      assert (lines + more)[index] == lines[index];
      if Passes(c, lines[index], index) {
        var one := PassingStep(c, lines, files, index);
        var two := PassingStep(c, lines + more, later, index);
        FilesDoNotEnd(c, lines, files, more, later, index + 1);
      } else {
        StoppingStep(c, lines, files, lines + more, later, index);
      }
    }
  }

  /** If the scan of the grown log extends the scan, the declared files read the same again. */
  lemma {:induction false} ExtensionsReadTheSame(c: Config, lines: seq<Line>, files: Files, more: seq<Line>, later: Files, index: nat)
    requires index <= |lines| && !ScanFrom(c, lines, files, index).end.Thrown?
    requires ScanFrom(c, lines, files, index).events <= ScanFrom(c, lines + more, later, index).events
    ensures SameReads(Declared(c, lines, index), files, later)
    decreases |lines| - index
  {
    if index < |lines| && Passes(c, lines[index], index) {
      assert (lines + more)[index] == lines[index];
      var before, after := ScanFrom(c, lines, files, index).events, ScanFrom(c, lines + more, later, index).events;
      var one := PassingStep(c, lines, files, index);
      var two := PassingStep(c, lines + more, later, index);
      assert one == before[0] == after[0] == two;
      assert ScanFrom(c, lines, files, index + 1).events == before[1..] <= after[1..] == ScanFrom(c, lines + more, later, index + 1).events;
      ExtensionsReadTheSame(c, lines, files, more, later, index + 1);
    }
  }

  /** A scan is extended by the scan of the grown log exactly when the files it declared read the same again. */
  lemma ScanGrows(c: Config, lines: seq<Line>, files: Files, more: seq<Line>, later: Files)
    requires !ScanFrom(c, lines, files, 0).end.Thrown?
    ensures var before, after := ScanFrom(c, lines, files, 0), ScanFrom(c, lines + more, later, 0);
            before.events <= after.events <==> SameReads(Declared(c, lines, 0), files, later)
  {
    var before, after := ScanFrom(c, lines, files, 0), ScanFrom(c, lines + more, later, 0);
    if before.events <= after.events { ExtensionsReadTheSame(c, lines, files, more, later, 0); }
    if SameReads(Declared(c, lines, 0), files, later) { SameFilesExtend(c, lines, files, more, later, 0); }
  }

  /** The log had grown by whole lines, if at all, from the sight of one reading to the sight of another. */
  ghost predicate Appended(early: Sight, late: Sight) {
    early.lines <= late.lines
  }

  /** The reading ends where its log does: it was not cut short by a stored terminal or an exited container. */
  predicate EndedByLog(c: Config, stored: Stored, sights: Sights, now: Time) {
    var scan := TakenScan(c, stored, sights, 0);
    scan.end.Open? ==> Interpret(c, stored, sights, 0, now).events == Success(scan.events)
  }

  /**
   A reading that nothing outside the log cut short is a prefix of a later reading of the grown log exactly when the
   files it declared read the same again and the later log can be read at all, whatever has happened to the container
   or the stored state in between.
   */
  lemma ReadingsGrow(c: Config, stored: Stored, early: Sights, now: Time, later: Stored, late: Sights, at: Time)
    requires Interpret(c, stored, early, 0, now).events.Success? && EndedByLog(c, stored, early, now)
    requires Appended(early[Taken(c, stored, early, 0)], late[Taken(c, later, late, 0)])
    ensures var one, two := early[Taken(c, stored, early, 0)], late[Taken(c, later, late, 0)];
            var r, s := Interpret(c, stored, early, 0, now).events, Interpret(c, later, late, 0, at).events;
            s.Success? && r.value <= s.value <==> SameReads(Declared(c, one.lines, 0), one.files, two.files) && Readable(c, two.lines, two.files, 0)
  {
    var one, two := early[Taken(c, stored, early, 0)], late[Taken(c, later, late, 0)];
    var more := two.lines[|one.lines|..];
    assert two.lines == one.lines + more;
    ReadingIsTakenScan(c, stored, early, 0, now);
    ReadingIsTakenScan(c, later, late, 0, at);
    ThrowsUnreadable(c, two.lines, two.files, 0);
    if Readable(c, two.lines, two.files, 0) {
      ClosedExtends(c, one.lines, one.files, more, two.files, Interpret(c, stored, early, 0, now).events.value, Interpret(c, later, late, 0, at).events.value);
    }
  }

  /** The events of a scan, with the terminal event its own log forces. */
  function Closed(scan: Scan): seq<Event> {
    if scan.end.Stopped? then scan.events + [TerminalEvent(scan.events, scan.end.forced)] else scan.events
  }

  lemma ClosedExtends(c: Config, lines: seq<Line>, files: Files, more: seq<Line>, later: Files, r: seq<Event>, s: seq<Event>)
    requires !ScanFrom(c, lines, files, 0).end.Thrown? && !ScanFrom(c, lines + more, later, 0).end.Thrown?
    requires r == Closed(ScanFrom(c, lines, files, 0))
    requires var after := ScanFrom(c, lines + more, later, 0); if after.end.Open? then after.events <= s else s == Closed(after)
    ensures r <= s <==> SameReads(Declared(c, lines, 0), files, later)
  {
    var before, after := ScanFrom(c, lines, files, 0), ScanFrom(c, lines + more, later, 0);
    ScanGrows(c, lines, files, more, later);
    FilesDoNotEnd(c, lines, files, more, later, 0);
    if r <= s {
      assert before.events == r[..|before.events|] == s[..|before.events|];
      assert after.events == s[..|after.events|];
    }
    if before.events <= after.events && !before.end.Open? { assert after.events == before.events; }
  }

  /* ---------- once terminal, a fixpoint ---------- */

  /** What may happen to the stored state between two readings. */
  datatype Touch = TimerChecks(at: Time) | Cancelled(forced: Forced, at: Time) | ReadAgain(sights: Sights, at: Time)

  function Touched(c: Config, stored: Stored, touch: Touch): Stored {
    match touch
    case TimerChecks(at) => EnforceTimeout(c, stored, at)
    case Cancelled(forced, at) => Cancel(stored, forced, at)
    case ReadAgain(sights, at) => Inspect(c, stored, sights, at).stored
  }

  function After(c: Config, stored: Stored, touches: seq<Touch>): Stored {
    if touches == [] then stored else Touched(c, After(c, stored, touches[..|touches| - 1]), touches[|touches| - 1])
  }

  /** Readings in between find the same log; the files may have changed. */
  ghost predicate SameLog(touches: seq<Touch>, lines: seq<Line>) {
    forall t :: t in touches && t.ReadAgain? ==> t.sights[0].lines == lines
  }

  /** Nothing but a stored terminal ends the readings of a log whose scan stays open. */
  ghost predicate Held(c: Config, lines: seq<Line>, files: Files, stored: Stored, forced: Option<Forced>) {
    ScanFrom(c, lines, files, 0).end.Open? ==> forced.Some? && stored.forced == forced
  }

  lemma HeldTouched(c: Config, lines: seq<Line>, files: Files, stored: Stored, forced: Option<Forced>, touch: Touch)
    requires Held(c, lines, files, stored, forced) && SameLog([touch], lines)
    ensures Held(c, lines, files, Touched(c, stored, touch), forced)
  {
    if touch.ReadAgain? && ScanFrom(c, lines, files, 0).end.Open? {
      assert touch in [touch];
      OpenStaysOpen(c, lines, files, touch.sights[0].files, 0);
    }
  }

  lemma {:induction false} OpenStaysOpen(c: Config, lines: seq<Line>, files: Files, later: Files, index: nat)
    requires index <= |lines| && ScanFrom(c, lines, files, index).end.Open?
    ensures var end := ScanFrom(c, lines, later, index).end; end.Open? || end.Thrown?
    decreases |lines| - index
  {
    if index < |lines| { OpenStaysOpen(c, lines, files, later, index + 1); }
  }

  lemma {:induction false} HeldAfter(c: Config, lines: seq<Line>, files: Files, stored: Stored, forced: Option<Forced>, touches: seq<Touch>)
    requires Held(c, lines, files, stored, forced) && SameLog(touches, lines)
    ensures Held(c, lines, files, After(c, stored, touches), forced)
  {
    if touches != [] {
      HeldAfter(c, lines, files, stored, forced, touches[..|touches| - 1]);
      HeldTouched(c, lines, files, After(c, stored, touches[..|touches| - 1]), forced, touches[|touches| - 1]);
    }
  }

  lemma LostFileDiffers(c: Config, lines: seq<Line>, files: Files, later: Files)
    requires !ScanFrom(c, lines, files, 0).end.Thrown? && ScanFrom(c, lines, later, 0).end.Thrown?
    ensures !SameReads(Declared(c, lines, 0), files, later)
  {
    ThrowsUnreadable(c, lines, files, 0);
    ThrowsUnreadable(c, lines, later, 0);
    var i :| i in Declared(c, lines, 0) && i !in later;
    assert ReadAt(files, i) != ReadAt(later, i);
  }

  lemma SameLength(one: seq<Event>, two: seq<Event>, r: seq<Event>, s: seq<Event>)
    requires |one| == |two| && |r| == |s| && one <= r && two <= s && r[|one|..] == s[|two|..]
    ensures r == s <==> one <= two
  {
    assert r == one + r[|one|..] && s == two + s[|two|..];
  }

  /** The events of a scan, ended by its log or, where that stays open, by the stored terminal. */
  function Ended(scan: Scan, forced: Option<Forced>): seq<Event> {
    if scan.end.Open? && forced.Some? then scan.events + [TerminalEvent(scan.events, forced.value)] else Closed(scan)
  }

  lemma SameEnding(c: Config, lines: seq<Line>, files: Files, later: Files, forced: Option<Forced>)
    requires !ScanFrom(c, lines, files, 0).end.Thrown? && !ScanFrom(c, lines, later, 0).end.Thrown?
    ensures Ended(ScanFrom(c, lines, files, 0), forced) == Ended(ScanFrom(c, lines, later, 0), forced) <==> SameReads(Declared(c, lines, 0), files, later)
  {
    var before, after := ScanFrom(c, lines, files, 0), ScanFrom(c, lines, later, 0);
    assert lines + [] == lines;
    ScanGrows(c, lines, files, [], later);
    FilesDoNotEnd(c, lines, files, [], later, 0);
    FilesDoNotEnd(c, lines, later, [], files, 0);
    SameLength(before.events, after.events, Ended(before, forced), Ended(after, forced));
  }

  lemma TerminalIsEnded(c: Config, stored: Stored, sights: Sights, now: Time)
    requires var r := Interpret(c, stored, sights, 0, now); r.events.Success? && EndsTerminal(r.events.value)
    ensures var r, one, scan := Interpret(c, stored, sights, 0, now), sights[Taken(c, stored, sights, 0)], TakenScan(c, stored, sights, 0);
            !scan.end.Thrown? && r.events.value == Ended(scan, r.stored.forced) && Held(c, one.lines, one.files, r.stored, r.stored.forced)
  {
    var one := sights[Taken(c, stored, sights, 0)];
    ReadingIsTakenScan(c, stored, sights, 0, now);
    ScanShape(c, one.lines, one.files, 0);
  }

  lemma HeldReads(c: Config, lines: seq<Line>, files: Files, stored: Stored, forced: Option<Forced>, late: Sights, at: Time)
    requires Held(c, lines, files, stored, forced) && !ScanFrom(c, lines, files, 0).end.Thrown? && late[0].lines == lines
    ensures var r, scan := Interpret(c, stored, late, 0, at), ScanFrom(c, lines, late[0].files, 0);
            if scan.end.Thrown? then r.events.Failure? else r.events == Success(Ended(scan, forced))
  {
    var before, after := ScanFrom(c, lines, files, 0), ScanFrom(c, lines, late[0].files, 0);
    assert lines + [] == lines;
    if !after.end.Thrown? {
      FilesDoNotEnd(c, lines, files, [], late[0].files, 0);
      FilesDoNotEnd(c, lines, late[0].files, [], files, 0);
    }
  }

  /**
   Once a reading of a log is terminal, a later reading of the same log gives the same events exactly when the files
   it declared read the same again, after any number of cancellations, expired timers and readings in between.
   */
  lemma TerminalIsFixpoint(c: Config, stored: Stored, sights: Sights, now: Time, touches: seq<Touch>, late: Sights, at: Time)
    requires var r := Interpret(c, stored, sights, 0, now); r.events.Success? && EndsTerminal(r.events.value)
    requires var lines := sights[Taken(c, stored, sights, 0)].lines; SameLog(touches, lines) && late[0].lines == lines
    ensures var r, one := Interpret(c, stored, sights, 0, now), sights[Taken(c, stored, sights, 0)];
            Inspect(c, After(c, r.stored, touches), late, at).events == r.events
            <==> SameReads(Declared(c, one.lines, 0), one.files, late[0].files)
  {
    var r, one := Interpret(c, stored, sights, 0, now), sights[Taken(c, stored, sights, 0)];
    TerminalIsEnded(c, stored, sights, now);
    HeldAfter(c, one.lines, one.files, r.stored, r.stored.forced, touches);
    var s := EnforceTimeout(c, After(c, r.stored, touches), at);
    HeldReads(c, one.lines, one.files, s, r.stored.forced, late, at);
    if ScanFrom(c, one.lines, late[0].files, 0).end.Thrown? {
      LostFileDiffers(c, one.lines, one.files, late[0].files);
    } else {
      SameEnding(c, one.lines, one.files, late[0].files, r.stored.forced);
    }
  }

  /* ---------- how it fails ---------- */

  const Declaring: seq<Line> := [Raw(1, SaysArtifact("report.json", false, "report")), Raw(2, SaysTerminal(true, None))]

  function Looking(files: Files): Sights {
    var sight := Sight(Declaring, files, false, None, None);
    [sight, sight, sight, sight]
  }

  /** A declared file that is rewritten after a terminal reading changes the next one, and a deleted file makes it throw. */
  lemma RewrittenFileChangesTerminalReading(c: Config, stored: Stored, now: Time, at: Time)
    ensures var first := Inspect(c, stored, Looking(map[0 := Content(1, "a")]), now);
            && first.events.Success? && EndsTerminal(first.events.value)
            && Inspect(c, first.stored, Looking(map[0 := Content(2, "b")]), at).events != first.events
            && Inspect(c, first.stored, Looking(map[]), at).events.Failure?
  {
    assert Judge(c, Declaring[0], 0, Some(Content(1, "a"))) == Go(ArtifactDeclared("report.json", "report", 1, "a"));
    var one, two, none: Files := map[0 := Content(1, "a")], map[0 := Content(2, "b")], map[];
    assert ScanFrom(c, Declaring, one, 1).end.Finished?;
    assert ScanFrom(c, Declaring, two, 1).end.Finished?;
    var s := EnforceTimeout(c, stored, now);
    ReadingIsTakenScan(c, s, Looking(one), 0, now);
    ScanShape(c, Declaring, one, 0);
    var first := Inspect(c, stored, Looking(one), now);
    assert Taken(c, s, Looking(one), 0) == 0;
    TerminalIsFixpoint(c, s, Looking(one), now, [], Looking(two), at);
    assert 0 in Declared(c, Declaring, 0);
    assert ScanFrom(c, Declaring, none, 0).end.Thrown?;
  }

  /* ---------- what becomes of a cancellation ---------- */

  /** The stored state as the attempt the reading is made from begins. */
  function Entering(c: Config, stored: Stored, sights: Sights, attempt: nat): Stored
    requires attempt <= SETTLE_ATTEMPTS
    decreases SETTLE_ATTEMPTS - attempt
  {
    if Taken(c, stored, sights, attempt) == attempt then stored
    else Entering(c, Interrupted(Interrupted(stored, sights[attempt].waiting), sights[attempt].meanwhile), sights, attempt + 1)
  }

  /** The stored state of which that attempt took its copy of `forcedTerminal`. */
  function Copied(c: Config, stored: Stored, sights: Sights, attempt: nat): Stored
    requires attempt <= SETTLE_ATTEMPTS
  {
    Interrupted(Entering(c, stored, sights, attempt), sights[Taken(c, stored, sights, attempt)].waiting)
  }

  /** The stored state with every cancellation of the reading, before the reading itself writes to it. */
  function AfterCancels(c: Config, stored: Stored, sights: Sights, attempt: nat): Stored
    requires attempt <= SETTLE_ATTEMPTS
  {
    Interrupted(Copied(c, stored, sights, attempt), sights[Taken(c, stored, sights, attempt)].meanwhile)
  }

  const ExitedSilently: Forced := Forced(ProtocolInvalid, "Driver exited without a terminal event")

  /** What the reading leaves stored, from the scan it was made from. */
  lemma {:induction false} ReadingStores(c: Config, stored: Stored, sights: Sights, attempt: nat, now: Time)
    requires attempt <= SETTLE_ATTEMPTS
    ensures var forced, k := Interpret(c, stored, sights, attempt, now).stored.forced, Taken(c, stored, sights, attempt);
            var copied, held := Copied(c, stored, sights, attempt).forced, AfterCancels(c, stored, sights, attempt).forced;
            match TakenScan(c, stored, sights, attempt).end
            case Thrown => forced == held
            case Finished => forced == held
            case Stopped(own) => forced == Some(own)
            case Open => forced == if copied.Some? then copied else if sights[k].running then held else Some(ExitedSilently)
    decreases SETTLE_ATTEMPTS - attempt
  {
    if Taken(c, stored, sights, attempt) != attempt {
      ReadingStores(c, Interrupted(Interrupted(stored, sights[attempt].waiting), sights[attempt].meanwhile), sights, attempt + 1, now);
    }
  }

  /**
   A terminal that cancellation had stored by the end of a reading, whether before it began or while it waited, is still
   stored afterwards exactly when the scan threw, finished or stayed open, and in the open case the copy of
   `forcedTerminal` was taken after the cancellation or the container still ran; or when what replaces it says the same.
   */
  lemma CancellationSurvives(c: Config, stored: Stored, sights: Sights, now: Time)
    requires AfterCancels(c, stored, sights, 0).forced.Some?
    ensures var forced, k := AfterCancels(c, stored, sights, 0).forced.value, Taken(c, stored, sights, 0);
            Interpret(c, stored, sights, 0, now).stored.forced == Some(forced) <==>
            match TakenScan(c, stored, sights, 0).end
            case Thrown => true
            case Finished => true
            case Stopped(own) => own == forced
            case Open => Copied(c, stored, sights, 0).forced.Some? || sights[k].running || forced == ExitedSilently
  {
    ReadingStores(c, stored, sights, 0, now);
  }

  /** One that is stored before the reading begins is replaced by what a malformed line forces. */
  lemma MalformedLineReplacesCancellation(c: Config, cancelled: Forced, at: Time, running: bool, now: Time)
    requires cancelled != Forced(ProtocolInvalid, "Driver emitted malformed structured output")
    ensures var sight := Sight([Malformed], map[], running, None, None);
            Interpret(c, Cancel(Stored(None, None), cancelled, at), [sight, sight, sight, sight], 0, now).stored.forced != Some(cancelled)
  {
  }
}
