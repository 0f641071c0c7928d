/** Delivering a GitHub effect: observe, authorize, perform, observe again, record; a crash may come anywhere. */
module GitHubDelivery {
  import opened Prelude
  import opened OutboundLog
  import opened OutboundSafety
  import opened OutboundRuns
  import opened OutboundAuthority

  /* ---------- the external world ---------- */

  datatype Object =
    | Comment(target: string, issue: nat, url: string, body: string)
    | Check(target: string, url: string, externalId: Option<string>, name: string, headSha: string, status: string,
            conclusion: Option<string>, title: Option<string>, summary: Option<string>)
    | Branch(target: string, url: string, name: string, sha: string)
    | Pull(target: string, url: string, pullTitle: string, pullBody: Option<string>, draft: bool, merged: bool, head: string, base: string)

  type World = seq<Object>

  datatype Observation = NotObserved | Exact(url: string, state: Digest) | Conflict

  predicate OccursAt(text: string, part: string, i: nat) {
    i + |part| <= |text| && text[i..i + |part|] == part
  }

  predicate Contains(text: string, part: string) {
    exists i: nat :: i <= |text| && OccursAt(text, part, i)
  }

  function Marker(key: string): string {
    "<!-- parallelplay-effect:" + key + " -->"
  }

  function CommentBody(text: string, key: string): string {
    text + "\n\n" + Marker(key)
  }

  function PullBody(text: string, key: string): string {
    text + "\n\n<!-- parallelplay-managed -->\n" + Marker(key)
  }

  function BranchName(revisionDigest: string): string {
    "parallelplay/candidate/" + revisionDigest
  }

  /** The object is one the observe step takes for the effect. */
  predicate Locates(o: Object, target: string, payload: Payload, key: string) {
    match payload
    case CommentPayload(issue, _) => o.Comment? && o.target == target && o.issue == issue && Contains(o.body, Marker(key))
    case CheckPayload(headSha, _, _, _, _, _) => o.Check? && o.target == target && o.headSha == headSha && o.externalId == Some(key)
    case BranchPayload(revision, _) => o.Branch? && o.target == target && o.name == BranchName(revision)
    case PullPayload(revision, base, _, _) => o.Pull? && o.target == target && o.head == BranchName(revision) && o.base == base
    case OtherPayload(_) => false
  }

  predicate CarriesMarker(o: Object, key: string) {
    o.Pull? && o.pullBody.Some? && Contains(o.pullBody.value, Marker(key))
  }

  /** The object is exactly what the payload asks for. */
  predicate Matches(o: Object, payload: Payload, key: string) {
    match payload
    case CommentPayload(_, text) => o.Comment? && o.body == CommentBody(text, key)
    case CheckPayload(headSha, name, status, conclusion, title, summary) =>
      && o.Check? && o.name == name && o.headSha == headSha && o.status == status
      && (status == "completed" ==> o.conclusion == conclusion) && o.title == Some(title) && o.summary == Some(summary)
    case BranchPayload(_, commitSha) => o.Branch? && o.sha == commitSha
    case PullPayload(revision, base, title, text) =>
      && o.Pull? && o.pullTitle == title && o.pullBody == Some(PullBody(text, key)) && o.draft && !o.merged
      && o.head == BranchName(revision) && o.base == base
    case OtherPayload(_) => false
  }

  /** The first located object; a pull request that carries the marker goes before others on the same head and base. */
  function Find(w: World, target: string, payload: Payload, key: string): (r: Option<Object>)
    ensures r.Some? ==> r.value in w && Locates(r.value, target, payload, key)
    ensures r.None? ==> forall o :: o in w ==> !Locates(o, target, payload, key)
  {
    if w == [] then None
    else if Locates(w[0], target, payload, key) then
      if payload.PullPayload? && !CarriesMarker(w[0], key) then
        var later := Find(w[1..], target, payload, key);
        if later.Some? && CarriesMarker(later.value, key) then later else Some(w[0])
      else Some(w[0])
    else Find(w[1..], target, payload, key)
  }

  function TextOrNull(text: Option<string>): Field {
    if text.Some? then Text(text.value) else Null
  }

  /** The fields of a live object that go into the observed-state digest. */
  function StateOf(o: Object): seq<Field> {
    match o
    case Comment(_, issue, _, body) => [Number(issue), Text(body)]
    case Check(_, _, externalId, name, headSha, status, conclusion, title, summary) =>
      [TextOrNull(externalId), Text(name), Text(headSha), Text(status), TextOrNull(conclusion), TextOrNull(title), TextOrNull(summary)]
    case Branch(_, _, name, sha) => [Text("refs/heads/" + name), Text(sha)]
    case Pull(_, _, title, body, draft, _, head, _) => [Text(title), TextOrNull(body), Flag(draft), Text(head)]
  }

  function Observe(w: World, target: string, payload: Payload, key: string): Observation {
    var found := Find(w, target, payload, key);
    if found.None? then NotObserved
    else if Matches(found.value, payload, key) then Exact(found.value.url, StateHash(StateOf(found.value)))
    else Conflict
  }

  /** The object a successful perform step creates. */
  function Created(target: string, payload: Payload, key: string, url: string): Object
    requires !payload.OtherPayload?
  {
    match payload
    case CommentPayload(issue, text) => Comment(target, issue, url, CommentBody(text, key))
    case CheckPayload(headSha, name, status, conclusion, title, summary) =>
      Check(target, url, Some(key), name, headSha, status, if status == "completed" then conclusion else None, Some(title), Some(summary))
    case BranchPayload(revision, commitSha) => Branch(target, url, BranchName(revision), commitSha)
    case PullPayload(revision, base, title, text) => Pull(target, url, title, Some(PullBody(text, key)), true, false, BranchName(revision), base)
  }

  lemma EndsWithMarker(prefix: string, key: string)
    ensures Contains(prefix + Marker(key), Marker(key))
  {
    var text := prefix + Marker(key);
    assert OccursAt(text, Marker(key), |prefix|);
  }

  /** What the perform step creates is what the observe step looks for, and exactly what was asked. */
  lemma CreatedIsFound(target: string, payload: Payload, key: string, url: string)
    requires !payload.OtherPayload?
    ensures Locates(Created(target, payload, key, url), target, payload, key)
    ensures Matches(Created(target, payload, key, url), payload, key)
  {
    if payload.CommentPayload? {
      EndsWithMarker(payload.text + "\n\n", key);
    }
  }

  /** An object that stays where the observe step looks is never reported as not observed. */
  lemma LocatedIsObserved(w: World, o: Object, target: string, payload: Payload, key: string)
    requires o in w && Locates(o, target, payload, key)
    ensures Observe(w, target, payload, key) != NotObserved
  {
  }

  /* ---------- one delivery ---------- */

  datatype Config = Config(adapterId: string, threshold: int, classify: string -> bool)

  /** A create request that reached GitHub, with the length of the authority log at that moment and where the object went. */
  datatype Creation = Creation(request: Request, through: nat, url: string)

  datatype Site = Site(log: seq<Event>, closed: bool, memory: map<string, Receipt>, creations: seq<Creation>)

  datatype Point = Never | AtStart | AfterObserve | AfterAuthorize | AfterPost | AfterCheck | AfterReceipt | BeforeFailure

  /** Everything a delivery does not control: content filter, network faults, the world it sees, the clock, and where it crashes. */
  datatype Oracle = Oracle(
    contentFault: Option<string>, tokenFault: Option<string>, before: World, beforeFault: Option<string>,
    seenRequestId: Option<string>, posted: bool, postFault: string, url: string, lost: Option<string>, after: World, afterFault: Option<string>,
    requestId: Option<string>, clock: (Time, Time, Time, Time), crash: Point)

  /** The answer of a delivery, or nothing when the process died on the way. */
  type Answer = Option<Result<Receipt>>

  predicate KindMatches(action: Action, payload: Payload) {
    match payload
    case CommentPayload(_, _) => action == CommentCreate
    case CheckPayload(_, _, _, _, _, _) => action == CheckUpsert
    case BranchPayload(_, _) => action == BranchCreate
    case PullPayload(_, _, _, _) => action == DraftPrCreate
    case OtherPayload(_) => false
  }

  predicate IsGitHub(action: Action) {
    action == CheckUpsert || action == LabelUpsert || action == CommentCreate || action == BranchCreate || action == DraftPrCreate || action == DraftPrUpdate
  }

  /** The process dies: what it remembered is gone, log and world stay. */
  function Crash(s: Site): (Site, Answer) {
    (s.(memory := map[]), None)
  }

  function ReceiptFor(c: Config, request: Request, url: string, state: Digest, requestId: Option<string>, now: Time): Receipt {
    var unsigned := Unsigned(c.adapterId, request.effectKey, request.action, request.payloadDigest, url, requestId, state, now);
    Receipt(unsigned, ReceiptHash(unsigned))
  }

  /** A receipt that is handed out is also remembered. */
  predicate Remembers(s: Site, key: string, answer: Answer) {
    answer.Some? && answer.value.Success? ==> key in s.memory && s.memory[key] == answer.value.value
  }

  ghost function Fail(c: Config, s: Site, request: Request, reason: string, o: Oracle): (r: (Site, Answer))
    ensures Remembers(r.0, request.effectKey, r.1) && r.0.creations == s.creations
  {
    if o.crash == BeforeFailure then Crash(s)
    else
      var f := Ask(s.log, s.closed, c.threshold, RecordFailure(request, c.classify(reason), reason), o.clock.3);
      (s.(log := s.log + f.events), Some(Failure(if f.reply.Failure? then f.reply.error else reason)))
  }

  ghost function Settle(c: Config, s: Site, request: Request, seen: Observation, requestId: Option<string>, o: Oracle): (r: (Site, Answer))
    requires seen.Exact?
    ensures Remembers(r.0, request.effectKey, r.1) && r.0.creations == s.creations
  {
    var receipt := ReceiptFor(c, request, seen.url, seen.state, requestId, o.clock.1);
    var r := Ask(s.log, s.closed, c.threshold, RecordReceipt(request, receipt), o.clock.2);
    if r.reply.Failure? then Fail(c, s, request, r.reply.error, o)
    else
      var kept := s.(log := s.log + r.events);
      if o.crash == AfterReceipt then Crash(kept)
      else (kept.(memory := kept.memory[request.effectKey := receipt]), Some(Success(receipt)))
  }

  ghost function CheckAfter(c: Config, s: Site, request: Request, o: Oracle): (r: (Site, Answer))
    ensures Remembers(r.0, request.effectKey, r.1) && r.0.creations == s.creations
  {
    if o.crash == AfterPost then Crash(s)
    else if o.lost.Some? then Fail(c, s, request, o.lost.value, o)
    else if o.afterFault.Some? then Fail(c, s, request, o.afterFault.value, o)
    else
      var seen := Observe(o.after, request.target, request.payload, request.effectKey);
      if o.crash == AfterCheck then Crash(s)
      else if !seen.Exact? then Fail(c, s, request, "GitHub post-effect state did not match the exact requested effect", o)
      else Settle(c, s, request, seen, o.requestId, o)
  }

  ghost function Perform(c: Config, s: Site, request: Request, o: Oracle): (r: (Site, Answer))
    ensures Remembers(r.0, request.effectKey, r.1)
  {
    if !o.posted then Fail(c, s, request, o.postFault, o)
    else CheckAfter(c, s.(creations := s.creations + [Creation(request, |s.log|, o.url)]), request, o)
  }

  ghost function AuthorizeThen(c: Config, s: Site, request: Request, seen: Observation, o: Oracle): (r: (Site, Answer))
    ensures Remembers(r.0, request.effectKey, r.1)
  {
    var a := Ask(s.log, s.closed, c.threshold, Authorize(request), o.clock.0);
    var next := s.(log := s.log + a.events);
    if a.reply.Failure? then Fail(c, next, request, a.reply.error, o)
    else if o.crash == AfterAuthorize then Crash(next)
    else if seen.Exact? then Settle(c, next, request, seen, o.seenRequestId, o)
    else Perform(c, next, request, o)
  }

  ghost function Deliver(c: Config, s: Site, request: Request, o: Oracle): (r: (Site, Answer))
    ensures Remembers(r.0, request.effectKey, r.1)
  {
    if request.effectKey in s.memory then
      if s.memory[request.effectKey].unsigned.payloadDigest != request.payloadDigest
      then (s, Some(Failure("GitHub effect key was reused with a different payload")))
      else (s, Some(Success(s.memory[request.effectKey])))
    else if !IsGitHub(request.action) || !IsAllowed(request.action) then (s, Some(Failure("GitHub action is outside the global authority ceiling")))
    else if !KindMatches(request.action, request.payload) then (s, Some(Failure("GitHub payload action does not match request")))
    else if PayloadHash(request.payload) != request.payloadDigest then (s, Some(Failure("GitHub payload digest does not match")))
    else if o.contentFault.Some? then (s, Some(Failure(o.contentFault.value)))
    else if o.crash == AtStart then Crash(s)
    else if o.tokenFault.Some? then Fail(c, s, request, o.tokenFault.value, o)
    else if o.beforeFault.Some? then Fail(c, s, request, o.beforeFault.value, o)
    else
      var seen := Observe(o.before, request.target, request.payload, request.effectKey);
      if o.crash == AfterObserve then Crash(s)
      else if seen.Conflict? then Fail(c, s, request, "GitHub live state conflicts with the requested idempotent effect", o)
      else AuthorizeThen(c, s, request, seen, o)
  }

  /* ---------- the invariant ---------- */

  ghost predicate AuthorizedBefore(log: seq<Event>, c: Creation) {
    c.through <= |log| && exists digest :: HasAuthorization(log[..c.through], c.request, digest)
  }

  ghost predicate NoKeyTwice(creations: seq<Creation>) {
    forall i, j :: 0 <= i < j < |creations| ==> creations[i].request.effectKey != creations[j].request.effectKey
  }

  ghost predicate Sound(c: Config, s: Site) {
    && Good(s.log, c.threshold)
    && NoKeyTwice(s.creations)
    && (forall i :: 0 <= i < |s.creations| ==> AuthorizedBefore(s.log, s.creations[i]))
    && (forall i :: 0 <= i < |s.creations| ==> !s.creations[i].request.payload.OtherPayload?)
    && (forall key :: key in s.memory ==> HasReceipt(s.log, key, s.memory[key]))
  }

  /** Everything created so far is still found where the observe step looks for it. */
  ghost predicate Visible(creations: seq<Creation>, w: World) {
    forall i :: 0 <= i < |creations| ==>
      Observe(w, creations[i].request.target, creations[i].request.payload, creations[i].request.effectKey) != NotObserved
  }

  ghost predicate Holds(w: World, made: Creation) {
    var request := made.request;
    request.payload.OtherPayload? || Created(request.target, request.payload, request.effectKey, made.url) in w
  }

  /** The world still holds every object that was created. */
  ghost predicate Kept(creations: seq<Creation>, w: World) {
    forall i :: 0 <= i < |creations| ==> Holds(w, creations[i])
  }

  /** What is kept is visible: the observe step finds what the perform step created. */
  lemma KeptIsVisible(c: Config, s: Site, w: World)
    requires Sound(c, s) && Kept(s.creations, w)
    ensures Visible(s.creations, w)
  {
    forall i | 0 <= i < |s.creations|
      ensures Observe(w, s.creations[i].request.target, s.creations[i].request.payload, s.creations[i].request.effectKey) != NotObserved {
      var made, request := s.creations[i], s.creations[i].request;
      assert Holds(w, made);
      CreatedIsFound(request.target, request.payload, request.effectKey, made.url);
      LocatedIsObserved(w, Created(request.target, request.payload, request.effectKey, made.url), request.target, request.payload, request.effectKey);
    }
  }

  /* ---------- every delivery keeps it ---------- */

  lemma AskKeeps(c: Config, s: Site, call: Call, now: Time)
    requires Sound(c, s)
    ensures Sound(c, s.(log := s.log + Ask(s.log, s.closed, c.threshold, call, now).events))
  {
    var events := Ask(s.log, s.closed, c.threshold, call, now).events;
    if s.closed { assert s.log + events == s.log; } else { RespondKeeps(s.log, c.threshold, call, now); }
    GrowKeeps(c, s, s.log + events);
  }

  lemma GrowKeeps(c: Config, s: Site, later: seq<Event>)
    requires Sound(c, s) && s.log <= later && Good(later, c.threshold)
    ensures Sound(c, s.(log := later))
  {
    forall i | 0 <= i < |s.creations| ensures AuthorizedBefore(later, s.creations[i]) {
      assert AuthorizedBefore(s.log, s.creations[i]);
      assert later[..s.creations[i].through] == s.log[..s.creations[i].through];
    }
    forall key | key in s.memory ensures HasReceipt(later, key, s.memory[key]) {
      ReceiptPersists(s.log, later, key, s.memory[key]);
    }
  }

  lemma FailKeeps(c: Config, s: Site, request: Request, reason: string, o: Oracle)
    requires Sound(c, s)
    ensures Sound(c, Fail(c, s, request, reason, o).0)
  {
    AskKeeps(c, s, RecordFailure(request, c.classify(reason), reason), o.clock.3);
  }

  /** A receipt the authority accepted is in its log. */
  lemma AcceptedReceipt(c: Config, s: Site, request: Request, receipt: Receipt, now: Time)
    requires Sound(c, s) && Ask(s.log, s.closed, c.threshold, RecordReceipt(request, receipt), now).reply.Success?
    ensures HasReceipt(s.log + Ask(s.log, s.closed, c.threshold, RecordReceipt(request, receipt), now).events, request.effectKey, receipt)
  {
    SafeReplays(s.log);
    var v, events := Replay(s.log).value, Ask(s.log, s.closed, c.threshold, RecordReceipt(request, receipt), now).events;
    if events == [] {
      StoredReceiptIsSigned(s.log, v, request.effectKey);
      assert s.log + events == s.log;
    } else {
      ReceiptAppend(s.log, events[0], request.effectKey, receipt);
    }
  }

  lemma SettleKeeps(c: Config, s: Site, request: Request, seen: Observation, requestId: Option<string>, o: Oracle)
    requires Sound(c, s) && seen.Exact?
    ensures Sound(c, Settle(c, s, request, seen, requestId, o).0)
  {
    var receipt := ReceiptFor(c, request, seen.url, seen.state, requestId, o.clock.1);
    var r := Ask(s.log, s.closed, c.threshold, RecordReceipt(request, receipt), o.clock.2);
    if r.reply.Failure? {
      FailKeeps(c, s, request, r.reply.error, o);
    } else {
      AskKeeps(c, s, RecordReceipt(request, receipt), o.clock.2);
      AcceptedReceipt(c, s, request, receipt, o.clock.2);
    }
  }

  lemma CheckAfterKeeps(c: Config, s: Site, request: Request, o: Oracle)
    requires Sound(c, s)
    ensures Sound(c, CheckAfter(c, s, request, o).0)
  {
    var seen := Observe(o.after, request.target, request.payload, request.effectKey);
    if o.crash != AfterPost {
      if o.lost.Some? { FailKeeps(c, s, request, o.lost.value, o); }
      else if o.afterFault.Some? { FailKeeps(c, s, request, o.afterFault.value, o); }
      else if o.crash != AfterCheck {
        if seen.Exact? { SettleKeeps(c, s, request, seen, o.requestId, o); }
        else { FailKeeps(c, s, request, "GitHub post-effect state did not match the exact requested effect", o); }
      }
    }
  }

  /** The heart of it: an authorized request that was not observed has never been created under its key. */
  lemma NotYetCreated(c: Config, s: Site, request: Request, digest: Digest, w: World)
    requires Sound(c, s) && Visible(s.creations, w) && HasAuthorization(s.log, request, digest)
    requires Observe(w, request.target, request.payload, request.effectKey) == NotObserved
    ensures forall i :: 0 <= i < |s.creations| ==> s.creations[i].request.effectKey != request.effectKey
  {
    forall i | 0 <= i < |s.creations| ensures s.creations[i].request.effectKey != request.effectKey {
      var earlier := s.creations[i];
      assert AuthorizedBefore(s.log, earlier);
      var d :| HasAuthorization(s.log[..earlier.through], earlier.request, d);
      AuthorizationPersists(s.log[..earlier.through], s.log, earlier.request, d);
      if earlier.request.effectKey == request.effectKey { AuthorizedOnce(s.log, earlier.request, d, request, digest); }
    }
  }

  lemma AuthorizationPersists(log: seq<Event>, later: seq<Event>, request: Request, digest: Digest)
    requires log <= later && HasAuthorization(log, request, digest)
    ensures HasAuthorization(later, request, digest)
  {
    var i :| 0 <= i < |log| && log[i].EffectAuthorized? && log[i].request == request && log[i].authorizationDigest == digest;
    assert later[i] == log[i];
  }

  lemma PerformKeeps(c: Config, s: Site, request: Request, digest: Digest, o: Oracle)
    requires Sound(c, s) && !request.payload.OtherPayload? && Visible(s.creations, o.before) && HasAuthorization(s.log, request, digest)
    requires Observe(o.before, request.target, request.payload, request.effectKey) == NotObserved
    ensures Sound(c, Perform(c, s, request, o).0)
  {
    if o.posted {
      CreationKeeps(c, s, request, digest, o);
      CheckAfterKeeps(c, s.(creations := s.creations + [Creation(request, |s.log|, o.url)]), request, o);
    } else {
      FailKeeps(c, s, request, o.postFault, o);
    }
  }

  lemma CreationKeeps(c: Config, s: Site, request: Request, digest: Digest, o: Oracle)
    requires Sound(c, s) && !request.payload.OtherPayload? && Visible(s.creations, o.before) && HasAuthorization(s.log, request, digest)
    requires Observe(o.before, request.target, request.payload, request.effectKey) == NotObserved
    ensures Sound(c, s.(creations := s.creations + [Creation(request, |s.log|, o.url)]))
  {
    NotYetCreated(c, s, request, digest, o.before);
    assert s.log[..|s.log|] == s.log;
  }

  lemma AcceptedAuthorization(c: Config, s: Site, request: Request, now: Time) returns (digest: Digest)
    requires Sound(c, s) && Ask(s.log, s.closed, c.threshold, Authorize(request), now).reply.Success?
    ensures HasAuthorization(s.log + Ask(s.log, s.closed, c.threshold, Authorize(request), now).events, request, digest)
  {
    SafeReplays(s.log);
    var v, events := Replay(s.log).value, Ask(s.log, s.closed, c.threshold, Authorize(request), now).events;
    if events == [] {
      assert EffectReflects(s.log, request.effectKey, v);
      assert s.log + events == s.log;
      digest := v.effects[request.effectKey].authorizationDigest;
    } else {
      digest := events[0].authorizationDigest;
      AuthorizationAppend(s.log, events[0], request, digest);
    }
  }

  lemma AuthorizeThenKeeps(c: Config, s: Site, request: Request, seen: Observation, o: Oracle)
    requires Sound(c, s) && !request.payload.OtherPayload? && Visible(s.creations, o.before) && !seen.Conflict?
    requires seen == Observe(o.before, request.target, request.payload, request.effectKey)
    ensures Sound(c, AuthorizeThen(c, s, request, seen, o).0)
  {
    var a := Ask(s.log, s.closed, c.threshold, Authorize(request), o.clock.0);
    var next := s.(log := s.log + a.events);
    AskKeeps(c, s, Authorize(request), o.clock.0);
    if a.reply.Failure? {
      FailKeeps(c, next, request, a.reply.error, o);
    } else if o.crash != AfterAuthorize {
      var digest := AcceptedAuthorization(c, s, request, o.clock.0);
      if seen.Exact? { SettleKeeps(c, next, request, seen, o.seenRequestId, o); } else { PerformKeeps(c, next, request, digest, o); }
    }
  }

  lemma DeliverKeeps(c: Config, s: Site, request: Request, o: Oracle)
    requires Sound(c, s) && Visible(s.creations, o.before)
    ensures Sound(c, Deliver(c, s, request, o).0)
  {
    var seen := Observe(o.before, request.target, request.payload, request.effectKey);
    if request.effectKey !in s.memory && KindMatches(request.action, request.payload) && o.crash != AtStart {
      if o.tokenFault.Some? { FailKeeps(c, s, request, o.tokenFault.value, o); }
      else if o.beforeFault.Some? { FailKeeps(c, s, request, o.beforeFault.value, o); }
      else if o.crash != AfterObserve {
        if seen.Conflict? { FailKeeps(c, s, request, "GitHub live state conflicts with the requested idempotent effect", o); }
        else { AuthorizeThenKeeps(c, s, request, seen, o); }
      }
    }
  }

  /** A receipt is handed out only when it stands in the authority log. */
  lemma SuccessIsRecorded(c: Config, s: Site, request: Request, o: Oracle)
    requires Sound(c, s) && Visible(s.creations, o.before)
    requires Deliver(c, s, request, o).1.Some? && Deliver(c, s, request, o).1.value.Success?
    ensures HasReceipt(Deliver(c, s, request, o).0.log, request.effectKey, Deliver(c, s, request, o).1.value.value)
  {
    var t := Deliver(c, s, request, o).0;
    DeliverKeeps(c, s, request, o);
    assert request.effectKey in t.memory;
  }

  /** The checks a delivery makes before it touches anything are passed, and nothing faults or crashes up to the post. */
  ghost predicate ReachesPost(s: Site, request: Request, o: Oracle) {
    && request.effectKey !in s.memory && IsGitHub(request.action) && KindMatches(request.action, request.payload)
    && PayloadHash(request.payload) == request.payloadDigest
    && o.contentFault.None? && o.tokenFault.None? && o.beforeFault.None? && o.posted
    && o.crash != AtStart && o.crash != AfterObserve && o.crash != AfterAuthorize
  }

  /**
   Why the world has to keep what was created: an authorized request that is not observed is created by the next
   delivery that reaches the post, whether it was created before or not.
   */
  lemma LostObjectIsCreatedAgain(c: Config, s: Site, request: Request, digest: Digest, o: Oracle)
    requires Sound(c, s) && !s.closed && HasAuthorization(s.log, request, digest) && LastWord(s.log, request.effectKey) != Some(Failed)
    requires ReachesPost(s, request, o) && Observe(o.before, request.target, request.payload, request.effectKey) == NotObserved
    ensures Deliver(c, s, request, o).0.creations == s.creations + [Creation(request, |s.log|, o.url)]
  {
    AuthorizedIsAllowed(s.log, request, digest);
    ReauthorizeGood(s.log, c.threshold, request, digest, request, o.clock.0);
    assert s.log + [] == s.log;
    assert Deliver(c, s, request, o) == AuthorizeThen(c, s, request, NotObserved, o);
  }

  /* ---------- whole runs ---------- */

  /** Deliveries one after another, interleaved with any calls on the authority. */
  datatype Step = Delivery(request: Request, oracle: Oracle) | Operate(call: Call, now: Time)

  ghost function After(c: Config, steps: seq<Step>): Site {
    if steps == [] then Site([], false, map[], [])
    else
      var s, last := After(c, steps[..|steps| - 1]), steps[|steps| - 1];
      match last
      case Delivery(request, o) => Deliver(c, s, request, o).0
      case Operate(call, now) => s.(log := s.log + Ask(s.log, s.closed, c.threshold, call, now).events)
  }

  /** What was created before a delivery of the run is still found by its first observation. */
  ghost predicate VisibleAt(c: Config, steps: seq<Step>, i: nat)
    requires i < |steps|
  {
    steps[i].Delivery? ==> Visible(After(c, steps[..i]).creations, steps[i].oracle.before)
  }

  /** The world that the first observation of a delivery sees still holds what was created before. */
  ghost predicate KeptAt(c: Config, steps: seq<Step>, i: nat)
    requires i < |steps|
  {
    steps[i].Delivery? ==> Kept(After(c, steps[..i]).creations, steps[i].oracle.before)
  }

  lemma StepKeeps(c: Config, steps: seq<Step>, n: nat)
    requires n < |steps| && Sound(c, After(c, steps[..n])) && VisibleAt(c, steps, n)
    ensures Sound(c, After(c, steps[..n + 1]))
  {
    assert steps[..n + 1][..n] == steps[..n];
    match steps[n]
    case Delivery(request, o) => DeliverKeeps(c, After(c, steps[..n]), request, o);
    case Operate(call, now) => AskKeeps(c, After(c, steps[..n]), call, now);
  }

  lemma {:induction false} VisibleRunsAreSound(c: Config, steps: seq<Step>, n: nat)
    requires n <= |steps| && forall i: nat :: i < n ==> VisibleAt(c, steps, i)
    ensures Sound(c, After(c, steps[..n]))
  {
    if n == 0 {
      EmptyGood(c.threshold);
    } else {
      VisibleRunsAreSound(c, steps, n - 1);
      StepKeeps(c, steps, n - 1);
    }
  }

  /** While the world holds what was created, the observation finds it. */
  lemma KeptAtIsVisible(c: Config, steps: seq<Step>, i: nat)
    requires i < |steps| && Sound(c, After(c, steps[..i])) && KeptAt(c, steps, i)
    ensures VisibleAt(c, steps, i)
  {
    if steps[i].Delivery? { KeptIsVisible(c, After(c, steps[..i]), steps[i].oracle.before); }
  }

  lemma {:induction false} KeptRunsAreSound(c: Config, steps: seq<Step>, n: nat)
    requires n <= |steps| && forall i: nat :: i < n ==> KeptAt(c, steps, i)
    ensures Sound(c, After(c, steps[..n]))
  {
    if n == 0 {
      EmptyGood(c.threshold);
    } else {
      KeptRunsAreSound(c, steps, n - 1);
      KeptAtIsVisible(c, steps, n - 1);
      StepKeeps(c, steps, n - 1);
    }
  }

  /**
   In every run of deliveries, with a crash allowed at any point of each and a world that keeps what was created, an
   object is created at most once per effect key, and only after the log holds an authorization for that exact request.
   */
  lemma CreatedAtMostOnce(c: Config, steps: seq<Step>)
    requires forall i: nat :: i < |steps| ==> KeptAt(c, steps, i)
    ensures var s := After(c, steps);
            NoKeyTwice(s.creations) && forall i :: 0 <= i < |s.creations| ==> AuthorizedBefore(s.log, s.creations[i])
  {
    KeptRunsAreSound(c, steps, |steps|);
    assert steps[..|steps|] == steps;
  }
}
