/** Runs of the outbound authority: any calls, in any order, at any times. */
module OutboundRuns {
  import opened Prelude
  import opened OutboundLog
  import opened OutboundSafety

  datatype Step = Step(call: Call, now: Time)

  ghost function LogOf(threshold: int, steps: seq<Step>): seq<Event> {
    if steps == [] then []
    else
      var before := LogOf(threshold, steps[..|steps| - 1]);
      before + Respond(before, threshold, steps[|steps| - 1].call, steps[|steps| - 1].now).events
  }

  /** A call on an authority object, which refuses everything once closed. */
  ghost function Ask(log: seq<Event>, closed: bool, threshold: int, call: Call, now: Time): (o: Outcome)
    ensures o.reply.Failure? ==> o.events == []
  {
    if closed then Refuse("Outbound authority is closed") else Respond(log, threshold, call, now)
  }

  /** An effect that failed for good, or as often as the threshold says, has cost its policy the promotion. */
  ghost predicate FailSafe(log: seq<Event>, threshold: int) {
    forall request, digest :: HasAuthorization(log, request, digest) && Exhausted(log, request.effectKey, threshold)
                              ==> HasSuspension(log, request.promotionDigest)
  }

  ghost predicate Exhausted(log: seq<Event>, key: string, threshold: int) {
    TerminallyFailed(log, key) || (FailureCount(log, key) > 0 && FailureCount(log, key) >= threshold)
  }

  ghost predicate Good(log: seq<Event>, threshold: int) {
    Safe(log) && FailSafe(log, threshold)
  }

  /* ---------- every call keeps the log good ---------- */

  /** The event does not touch the failures of any effect. */
  lemma FailSafeAppend(log: seq<Event>, threshold: int, e: Event)
    requires Good(log, threshold) && Fits(log, e) && !e.EffectFailed?
    ensures FailSafe(log + [e], threshold)
  {
    forall request, digest | HasAuthorization(log + [e], request, digest) && Exhausted(log + [e], request.effectKey, threshold)
      ensures HasSuspension(log + [e], request.promotionDigest)
    {
      AuthorizationAppend(log, e, request, digest);
      KeyAppend(log, e, request.effectKey);
      SuspensionAppend(log, e, request.promotionDigest);
      if !HasAuthorization(log, request, digest) { Untouched(log, request.effectKey); }
    }
  }

  /** No failures before the authorization. */
  lemma Untouched(log: seq<Event>, key: string)
    requires Safe(log) && !KeyTaken(log, key)
    ensures FailureCount(log, key) == 0 && !TerminallyFailed(log, key) && !Receipted(log, key)
  {
    SafeReplays(log);
    assert EffectReflects(log, key, Replay(log).value);
  }

  lemma GoodAppend(log: seq<Event>, threshold: int, e: Event)
    requires Good(log, threshold) && Fits(log, e) && !e.EffectFailed?
    ensures Good(log + [e], threshold)
  {
    SafeAppend(log, e);
    FailSafeAppend(log, threshold, e);
  }

  lemma PromoteKeeps(log: seq<Event>, threshold: int, policy: Policy, operator: string, now: Time)
    requires Good(log, threshold) && Replay(log).Success? && Reflects(log, Replay(log).value)
    ensures Good(log + OnPromote(Replay(log).value, policy, operator, now).events, threshold)
  {
    var v := Replay(log).value;
    var events := OnPromote(v, policy, operator, now).events;
    if events == [] {
      assert log + events == log;
    } else {
      if RevisionTaken(log, policy.revisionId) {
        var i :| 0 <= i < |log| && log[i].PolicyPromoted? && log[i].policy.revisionId == policy.revisionId;
        TakenIsKnown(log, v, i);
      }
      GoodAppend(log, threshold, events[0]);
    }
  }

  lemma TakenIsKnown(log: seq<Event>, v: View, i: int)
    requires Safe(log) && Reflects(log, v) && 0 <= i < |log| && log[i].PolicyPromoted?
    ensures Knows(v, log[i].policy.revisionId)
  {
    var d := log[i].promotionDigest;
    assert FitsAt(log, i) && PolicyReflects(log, d, v);
    assert HasPromotion(log, d, log[i].policy);
    PromotedPolicy(log, d, log[i].policy, v.policies[d].policy);
  }

  /** A promotion digest names one policy. */
  lemma PromotedPolicy(log: seq<Event>, d: Digest, one: Policy, two: Policy)
    requires Safe(log) && HasPromotion(log, d, one) && HasPromotion(log, d, two)
    ensures one == two
  {
    var i :| 0 <= i < |log| && log[i].PolicyPromoted? && log[i].promotionDigest == d && log[i].policy == one;
    var j :| 0 <= j < |log| && log[j].PolicyPromoted? && log[j].promotionDigest == d && log[j].policy == two;
    assert FitsAt(log, i) && FitsAt(log, j);
  }

  lemma SuspendKeeps(log: seq<Event>, threshold: int, d: Digest, reason: string, now: Time)
    requires Good(log, threshold) && Replay(log).Success? && Reflects(log, Replay(log).value)
    ensures Good(log + OnSuspend(Replay(log).value, d, reason, now).events, threshold)
  {
    var events := OnSuspend(Replay(log).value, d, reason, now).events;
    assert PolicyReflects(log, d, Replay(log).value);
    if events == [] { assert log + events == log; } else { GoodAppend(log, threshold, events[0]); }
  }

  lemma NewAuthorizationFits(log: seq<Event>, v: View, request: Request, now: Time)
    requires Reflects(log, v) && OnAuthorize(v, request, now).events != []
    ensures Fits(log, OnAuthorize(v, request, now).events[0])
  {
    assert PolicyReflects(log, request.promotionDigest, v) && EffectReflects(log, request.effectKey, v);
    assert Covered(log, request, v.policies[request.promotionDigest].policy, now);
  }

  lemma AuthorizeKeeps(log: seq<Event>, threshold: int, request: Request, now: Time)
    requires Good(log, threshold) && Replay(log).Success? && Reflects(log, Replay(log).value)
    ensures Good(log + OnAuthorize(Replay(log).value, request, now).events, threshold)
  {
    var v := Replay(log).value;
    var events := OnAuthorize(v, request, now).events;
    if events == [] {
      assert log + events == log;
    } else {
      NewAuthorizationFits(log, v, request, now);
      GoodAppend(log, threshold, events[0]);
    }
  }

  lemma ReceiptKeeps(log: seq<Event>, threshold: int, request: Request, receipt: Receipt, now: Time)
    requires Good(log, threshold) && Replay(log).Success? && Reflects(log, Replay(log).value)
    ensures Good(log + OnReceipt(Replay(log).value, request, receipt, now).events, threshold)
  {
    var v := Replay(log).value;
    var events := OnReceipt(v, request, receipt, now).events;
    if events == [] {
      assert log + events == log;
    } else {
      assert EffectReflects(log, request.effectKey, v);
      assert HasAuthorization(log, request, v.effects[request.effectKey].authorizationDigest);
      GoodAppend(log, threshold, events[0]);
    }
  }

  lemma FailSafeAfterFailure(log: seq<Event>, threshold: int, request: Request, digest: Digest, failed: Event)
    requires Good(log, threshold) && HasAuthorization(log, request, digest)
    requires failed.EffectFailed? && failed.effectKey == request.effectKey
    requires Exhausted(log + [failed], request.effectKey, threshold) ==> HasSuspension(log, request.promotionDigest)
    ensures FailSafe(log + [failed], threshold)
  {
    forall r, d | HasAuthorization(log + [failed], r, d) && Exhausted(log + [failed], r.effectKey, threshold)
      ensures HasSuspension(log + [failed], r.promotionDigest)
    {
      AuthorizationAppend(log, failed, r, d);
      KeyAppend(log, failed, r.effectKey);
      SuspensionAppend(log, failed, r.promotionDigest);
      if r.effectKey == request.effectKey { AuthorizedOnce(log, r, d, request, digest); }
    }
  }

  lemma FailSafeAfterSuspension(log: seq<Event>, threshold: int, request: Request, digest: Digest, failed: Event, suspended: Event)
    requires Good(log, threshold) && HasAuthorization(log, request, digest)
    requires failed.EffectFailed? && failed.effectKey == request.effectKey
    requires suspended.PolicySuspended? && suspended.promotionDigest == request.promotionDigest
    ensures FailSafe(log + [failed] + [suspended], threshold)
  {
    var mid, all := log + [failed], log + [failed] + [suspended];
    forall r, d | HasAuthorization(all, r, d) && Exhausted(all, r.effectKey, threshold)
      ensures HasSuspension(all, r.promotionDigest)
    {
      AuthorizationAppend(mid, suspended, r, d);
      AuthorizationAppend(log, failed, r, d);
      KeyAppend(mid, suspended, r.effectKey);
      KeyAppend(log, failed, r.effectKey);
      SuspensionAppend(mid, suspended, r.promotionDigest);
      SuspensionAppend(log, failed, r.promotionDigest);
      if r.effectKey == request.effectKey { AuthorizedOnce(log, r, d, request, digest); }
    }
  }

  lemma FailedThenSuspended(log: seq<Event>, threshold: int, request: Request, digest: Digest, policy: Policy, failed: Event, suspended: Event)
    requires Good(log, threshold) && HasAuthorization(log, request, digest) && Fits(log, failed)
    requires failed.EffectFailed? && failed.effectKey == request.effectKey
    requires suspended.PolicySuspended? && suspended.promotionDigest == request.promotionDigest
    requires HasPromotion(log, request.promotionDigest, policy) && !HasSuspension(log, request.promotionDigest)
    ensures Good(log + [failed, suspended], threshold)
  {
    SafeAppend(log, failed);
    PromotionAppend(log, failed, request.promotionDigest, policy);
    SuspensionAppend(log, failed, request.promotionDigest);
    SafeAppend(log + [failed], suspended);
    FailSafeAfterSuspension(log, threshold, request, digest, failed, suspended);
    assert log + [failed, suspended] == log + [failed] + [suspended];
  }

  lemma FailedOnly(log: seq<Event>, threshold: int, request: Request, digest: Digest, failed: Event)
    requires Good(log, threshold) && HasAuthorization(log, request, digest) && Fits(log, failed)
    requires failed.EffectFailed? && failed.effectKey == request.effectKey
    requires (failed.retryable && FailureCount(log, request.effectKey) + 1 < threshold) || HasSuspension(log, request.promotionDigest)
    ensures Good(log + [failed], threshold)
  {
    SafeAppend(log, failed);
    KeyAppend(log, failed, request.effectKey);
    ExhaustedBySuspension(log, threshold, request, digest);
    FailSafeAfterFailure(log, threshold, request, digest, failed);
  }

  /** A failure, with the suspension it calls for unless the policy is already suspended. */
  lemma FailureKeeps(log: seq<Event>, threshold: int, request: Request, retryable: bool, reason: string, now: Time)
    requires Good(log, threshold) && Replay(log).Success? && Reflects(log, Replay(log).value)
    ensures Good(log + OnFailure(Replay(log).value, threshold, request, retryable, reason, now).events, threshold)
  {
    var v := Replay(log).value;
    var events := OnFailure(v, threshold, request, retryable, reason, now).events;
    if events == [] {
      assert log + events == log;
    } else {
      var key, d := request.effectKey, request.promotionDigest;
      var digest := v.effects[key].authorizationDigest;
      assert EffectReflects(log, key, v) && PolicyReflects(log, d, v);
      assert HasAuthorization(log, request, digest);
      AuthorizedHasPolicy(log, request, digest);
      if |events| == 2 {
        FailedThenSuspended(log, threshold, request, digest, v.policies[d].policy, events[0], events[1]);
      } else {
        FailedOnly(log, threshold, request, digest, events[0]);
      }
    }
  }

  lemma ExhaustedBySuspension(log: seq<Event>, threshold: int, request: Request, digest: Digest)
    requires Good(log, threshold) && HasAuthorization(log, request, digest)
    ensures TerminallyFailed(log, request.effectKey) ==> HasSuspension(log, request.promotionDigest)
  {
    if TerminallyFailed(log, request.effectKey) { assert Exhausted(log, request.effectKey, threshold); }
  }

  lemma RespondKeeps(log: seq<Event>, threshold: int, call: Call, now: Time)
    requires Good(log, threshold)
    ensures Good(log + Respond(log, threshold, call, now).events, threshold)
  {
    SafeReplays(log);
    match call
    case Promote(policy, operator) => PromoteKeeps(log, threshold, policy, operator, now);
    case Suspend(d, reason) => SuspendKeeps(log, threshold, d, reason, now);
    case Authorize(request) => AuthorizeKeeps(log, threshold, request, now);
    case RecordReceipt(request, receipt) => ReceiptKeeps(log, threshold, request, receipt, now);
    case RecordFailure(request, retryable, reason) => FailureKeeps(log, threshold, request, retryable, reason, now);
  }

  lemma AuthorizedHasPolicy(log: seq<Event>, request: Request, digest: Digest)
    requires Safe(log) && HasAuthorization(log, request, digest)
    ensures exists policy :: HasPromotion(log, request.promotionDigest, policy)
  {
    var i :| 0 <= i < |log| && log[i].EffectAuthorized? && log[i].request == request && log[i].authorizationDigest == digest;
    assert FitsAt(log, i);
    var policy :| Covered(log[..i], request, policy, log[i].at);
    assert HasPromotion(log, request.promotionDigest, policy);
  }

  /* ---------- main results ---------- */

  lemma EmptyGood(threshold: int)
    ensures Good([], threshold)
  {
  }

  /**
   Every log the authority writes is safe at every position and replays without a drift error; an effect that
   failed for good or reached the threshold has its policy suspended.
   */
  lemma {:induction false} RunsAreGood(threshold: int, steps: seq<Step>)
    ensures Good(LogOf(threshold, steps), threshold)
    ensures Replay(LogOf(threshold, steps)).Success? && Reflects(LogOf(threshold, steps), Replay(LogOf(threshold, steps)).value)
  {
    if steps == [] {
      EmptyGood(threshold);
    } else {
      var last := steps[|steps| - 1];
      RunsAreGood(threshold, steps[..|steps| - 1]);
      RespondKeeps(LogOf(threshold, steps[..|steps| - 1]), threshold, last.call, last.now);
    }
    SafeReplays(LogOf(threshold, steps));
  }

  lemma StepGrows(threshold: int, steps: seq<Step>)
    requires steps != []
    ensures LogOf(threshold, steps[..|steps| - 1]) <= LogOf(threshold, steps)
  {
  }

  /**
   Every authorization in any written log names a policy promoted earlier, not suspended at any earlier position,
   unexpired at that time and covering the action and target, with the action inside the global ceiling; and its
   key is authorized nowhere else.
   */
  lemma AuthorizationsAreCovered(threshold: int, steps: seq<Step>, i: int)
    requires 0 <= i < |LogOf(threshold, steps)| && LogOf(threshold, steps)[i].EffectAuthorized?
    ensures var log := LogOf(threshold, steps);
            && (exists policy :: Covered(log[..i], log[i].request, policy, log[i].at))
            && forall j :: 0 <= j < |log| && j != i && log[j].EffectAuthorized? ==> log[j].request.effectKey != log[i].request.effectKey
  {
    var log := LogOf(threshold, steps);
    RunsAreGood(threshold, steps);
    assert FitsAt(log, i);
    forall j | 0 <= j < |log| && j != i && log[j].EffectAuthorized? ensures log[j].request.effectKey != log[i].request.effectKey {
      KeysDiffer(log, i, j);
    }
  }

  lemma KeysDiffer(log: seq<Event>, i: int, j: int)
    requires Safe(log) && 0 <= i < |log| && 0 <= j < |log| && i != j && log[i].EffectAuthorized? && log[j].EffectAuthorized?
    ensures log[i].request.effectKey != log[j].request.effectKey
  {
    var first, second := if i < j then i else j, if i < j then j else i;
    assert FitsAt(log, second);
    assert log[..second][first] == log[first];
  }

  lemma {:induction false} LogsOnlyGrow(threshold: int, steps: seq<Step>, more: seq<Step>)
    ensures LogOf(threshold, steps) <= LogOf(threshold, steps + more)
  {
    if more == [] {
      assert steps + more == steps;
    } else {
      var n, all := |more| - 1, steps + more;
      LogsOnlyGrow(threshold, steps, more[..n]);
      assert all[..|all| - 1] == steps + more[..n];
      StepGrows(threshold, all);
    }
  }

  /** Suspension is absorbing, whatever is called afterwards. */
  lemma SuspensionIsAbsorbing(threshold: int, steps: seq<Step>, more: seq<Step>, d: Digest)
    requires var v := Replay(LogOf(threshold, steps)); v.Success? && d in v.value.policies && v.value.policies[d].suspended
    ensures var w := Replay(LogOf(threshold, steps + more)); w.Success? && d in w.value.policies && w.value.policies[d].suspended
  {
    var log, later := LogOf(threshold, steps), LogOf(threshold, steps + more);
    RunsAreGood(threshold, steps);
    RunsAreGood(threshold, steps + more);
    LogsOnlyGrow(threshold, steps, more);
    assert PolicyReflects(log, d, Replay(log).value) && PolicyReflects(later, d, Replay(later).value);
    SuspensionPersists(log, later, d);
  }

  lemma SuspensionPersists(log: seq<Event>, later: seq<Event>, d: Digest)
    requires log <= later && HasSuspension(log, d)
    ensures HasSuspension(later, d)
  {
    var i :| 0 <= i < |log| && log[i].PolicySuspended? && log[i].promotionDigest == d;
    assert later[i] == log[i];
  }

  lemma ReceiptOnce(log: seq<Event>, key: string, one: Receipt, two: Receipt)
    requires Safe(log) && HasReceipt(log, key, one) && HasReceipt(log, key, two)
    ensures one == two
  {
    var i :| 0 <= i < |log| && log[i].ReceiptRecorded? && log[i].effectKey == key && log[i].receipt == one;
    var j :| 0 <= j < |log| && log[j].ReceiptRecorded? && log[j].effectKey == key && log[j].receipt == two;
    assert FitsAt(log, i) && FitsAt(log, j);
  }

  /** A delivered effect keeps its first receipt, and its delivered status, for ever. */
  lemma FirstReceiptIsKept(threshold: int, steps: seq<Step>, more: seq<Step>, key: string)
    requires var v := Replay(LogOf(threshold, steps)); v.Success? && key in v.value.effects && v.value.effects[key].receipt.Some?
    ensures var v := Replay(LogOf(threshold, steps)).value;
            var w := Replay(LogOf(threshold, steps + more));
            && w.Success? && key in w.value.effects && w.value.effects[key].receipt == v.effects[key].receipt
            && w.value.effects[key].status == Delivered
  {
    var log, later := LogOf(threshold, steps), LogOf(threshold, steps + more);
    RunsAreGood(threshold, steps);
    RunsAreGood(threshold, steps + more);
    LogsOnlyGrow(threshold, steps, more);
    var v, w := Replay(log).value, Replay(later).value;
    var receipt := v.effects[key].receipt.value;
    assert EffectReflects(log, key, v) && EffectReflects(later, key, w);
    ReceiptPersists(log, later, key, receipt);
    ReceiptOnce(later, key, receipt, w.effects[key].receipt.value);
  }

  lemma ReceiptPersists(log: seq<Event>, later: seq<Event>, key: string, receipt: Receipt)
    requires log <= later && HasReceipt(log, key, receipt)
    ensures HasReceipt(later, key, receipt) && Receipted(later, key)
  {
    var i :| 0 <= i < |log| && log[i].ReceiptRecorded? && log[i].effectKey == key && log[i].receipt == receipt;
    assert later[i] == log[i];
  }

  /**
   The reply to a repeated authorization: nothing is appended, and it succeeds, with the first digest, exactly for
   the first request while the effect does not stand as failed.
   */
  ghost predicate Repeats(o: Outcome, request: Request, digest: Digest, again: Request, failed: bool) {
    && o.events == []
    && (o.reply.Success? <==> again == request && !failed)
    && (o.reply.Success? ==> o.reply.value == Authorizes(digest))
  }

  lemma PriorAuthorization(v: View, request: Request, again: Request, now: Time)
    requires request.effectKey in v.effects && v.effects[request.effectKey].requestDigest == RequestHash(request)
    requires again.effectKey == request.effectKey && IsAllowed(request.action)
    ensures Repeats(OnAuthorize(v, again, now), request, v.effects[request.effectKey].authorizationDigest, again, v.effects[request.effectKey].status == Failed)
  {
  }

  lemma ReauthorizeOn(log: seq<Event>, v: View, request: Request, digest: Digest, again: Request, now: Time)
    requires Safe(log) && Reflects(log, v) && HasAuthorization(log, request, digest) && again.effectKey == request.effectKey
    ensures Repeats(OnAuthorize(v, again, now), request, digest, again, LastWord(log, request.effectKey) == Some(Failed))
  {
    BoundEffect(log, v, request, digest);
    assert EffectReflects(log, request.effectKey, v);
    AuthorizedIsAllowed(log, request, digest);
    PriorAuthorization(v, request, again, now);
  }

  /**
   Authorizing again, at any later time, appends nothing. It returns the digest of the first authorization if and
   only if the request is the first one and the last authorization, receipt or failure recorded under the key is not
   a failure that is not retryable; otherwise it throws.
   */
  lemma ReauthorizingIsIdempotent(threshold: int, steps: seq<Step>, request: Request, digest: Digest, again: Request, now: Time)
    requires HasAuthorization(LogOf(threshold, steps), request, digest) && again.effectKey == request.effectKey
    ensures Repeats(Respond(LogOf(threshold, steps), threshold, Authorize(again), now), request, digest, again,
                    LastWord(LogOf(threshold, steps), request.effectKey) == Some(Failed))
  {
    var log := LogOf(threshold, steps);
    RunsAreGood(threshold, steps);
    ReauthorizeGood(log, threshold, request, digest, again, now);
  }

  lemma ReauthorizeGood(log: seq<Event>, threshold: int, request: Request, digest: Digest, again: Request, now: Time)
    requires Safe(log) && HasAuthorization(log, request, digest) && again.effectKey == request.effectKey
    ensures Repeats(Respond(log, threshold, Authorize(again), now), request, digest, again, LastWord(log, request.effectKey) == Some(Failed))
  {
    SafeReplays(log);
    ReauthorizeOn(log, Replay(log).value, request, digest, again, now);
  }

  lemma AuthorizedIsAllowed(log: seq<Event>, request: Request, digest: Digest)
    requires Safe(log) && HasAuthorization(log, request, digest)
    ensures IsAllowed(request.action)
  {
    var i :| 0 <= i < |log| && log[i].EffectAuthorized? && log[i].request == request && log[i].authorizationDigest == digest;
    assert FitsAt(log, i);
  }

  /* ---------- a run that is refused, and one that recovers ---------- */

  const SamplePolicy: Policy := Policy("revision", "sample", [CommentCreate], ["owner/repo"], 100)

  function SampleRequest(): Request {
    var payload := CommentPayload(1, "text");
    Request("github", "key", CommentCreate, "owner/repo", payload, PayloadHash(payload), Foreign("precondition"),
            PromotionHash(PolicyHash(SamplePolicy), "operator", 1))
  }

  /** Promote, authorize, fail for good. */
  function RefusedSteps(): seq<Step> {
    [Step(Promote(SamplePolicy, "operator"), 1), Step(Authorize(SampleRequest()), 2), Step(RecordFailure(SampleRequest(), false, "gone"), 3)]
  }

  /** The same, and then a retryable failure is recorded on top. */
  function RecoveredSteps(): seq<Step> {
    RefusedSteps() + [Step(RecordFailure(SampleRequest(), true, "again"), 4)]
  }

  function SampleDigest(): Digest {
    AuthorizationHash(RequestHash(SampleRequest()), SampleRequest().promotionDigest, 2)
  }

  lemma OneMore(threshold: int, steps: seq<Step>, step: Step)
    ensures LogOf(threshold, steps + [step]) == LogOf(threshold, steps) + Respond(LogOf(threshold, steps), threshold, step.call, step.now).events
  {
    assert (steps + [step])[..|steps|] == steps;
  }

  lemma ReplaysOneMore(log: seq<Event>, e: Event)
    requires Replay(log).Success?
    ensures Replay(log + [e]) == Apply(Replay(log).value, e)
  {
    assert (log + [e])[..|log|] == log;
  }

  function PromotedEvent(): Event {
    PolicyPromoted(SamplePolicy, PolicyHash(SamplePolicy), SampleRequest().promotionDigest, "operator", 1)
  }

  function AuthorizedEvent(): Event {
    EffectAuthorized(SampleRequest(), RequestHash(SampleRequest()), SampleDigest(), 2)
  }

  /** The log after the promotion and the authorization. */
  lemma SampleAuthorized(threshold: int)
    ensures LogOf(threshold, RefusedSteps()[..2]) == [PromotedEvent(), AuthorizedEvent()]
    ensures Replay([PromotedEvent(), AuthorizedEvent()]).Success?
    ensures var v := Replay([PromotedEvent(), AuthorizedEvent()]).value;
            && "key" in v.effects && v.effects["key"].requestDigest == RequestHash(SampleRequest()) && v.effects["key"].receipt.None?
            && SampleRequest().promotionDigest in v.policies && !v.policies[SampleRequest().promotionDigest].suspended
  {
    var steps := RefusedSteps();
    assert steps[..0] == [] && steps[..1] == [] + [steps[0]] && steps[..2] == steps[..1] + [steps[1]];
    OneMore(threshold, [], steps[0]);
    assert LogOf(threshold, steps[..1]) == [PromotedEvent()];
    assert [PromotedEvent()] == [] + [PromotedEvent()];
    ReplaysOneMore([], PromotedEvent());
    OneMore(threshold, steps[..1], steps[1]);
    assert [PromotedEvent(), AuthorizedEvent()] == [PromotedEvent()] + [AuthorizedEvent()];
    ReplaysOneMore([PromotedEvent()], AuthorizedEvent());
  }

  function GoneEvent(): Event {
    EffectFailed("key", RequestHash(SampleRequest()), false, "gone", 3)
  }

  function StoppedEvent(): Event {
    PolicySuspended(SampleRequest().promotionDigest, 3, FailSafeReason("gone"))
  }

  lemma FailureAnswer(threshold: int, v: View)
    requires "key" in v.effects && v.effects["key"].requestDigest == RequestHash(SampleRequest()) && v.effects["key"].receipt.None?
    requires SampleRequest().promotionDigest in v.policies && !v.policies[SampleRequest().promotionDigest].suspended
    ensures OnFailure(v, threshold, SampleRequest(), false, "gone", 3) == Outcome(Success(Done), [GoneEvent(), StoppedEvent()])
  {
  }

  lemma FailureAppended(threshold: int, steps: seq<Step>, log: seq<Event>, call: Call, now: Time, events: seq<Event>)
    requires LogOf(threshold, steps) == log && Replay(log).Success? && call.RecordFailure?
    requires OnFailure(Replay(log).value, threshold, call.request, call.retryable, call.reason, now).events == events
    ensures LogOf(threshold, steps + [Step(call, now)]) == log + events
  {
    OneMore(threshold, steps, Step(call, now));
  }

  /** The log after the failure, with the suspension it calls for. */
  lemma SampleFailed(threshold: int)
    ensures LogOf(threshold, RefusedSteps()) == [PromotedEvent(), AuthorizedEvent(), GoneEvent(), StoppedEvent()]
  {
    var steps := RefusedSteps();
    var two := [PromotedEvent(), AuthorizedEvent()];
    SampleAuthorized(threshold);
    FailureAnswer(threshold, Replay(two).value);
    FailureAppended(threshold, steps[..2], two, steps[2].call, 3, [GoneEvent(), StoppedEvent()]);
    assert steps == steps[..2] + [steps[2]];
  }

  /** Authorizing again after a failure that is not retryable is refused, at any time and under any threshold. */
  lemma FailedRunIsRefused(threshold: int, now: Time)
    ensures HasAuthorization(LogOf(threshold, RefusedSteps()), SampleRequest(), SampleDigest())
    ensures Respond(LogOf(threshold, RefusedSteps()), threshold, Authorize(SampleRequest()), now).reply.Failure?
  {
    var log := LogOf(threshold, RefusedSteps());
    SampleFailed(threshold);
    assert log[1] == AuthorizedEvent();
    assert log[..3][2] == GoneEvent() && LastWord(log, "key") == LastWord(log[..3], "key") == Some(Failed);
    ReauthorizingIsIdempotent(threshold, RefusedSteps(), SampleRequest(), SampleDigest(), SampleRequest(), now);
  }

  lemma SampleView()
    ensures var v := Replay([PromotedEvent(), AuthorizedEvent(), GoneEvent(), StoppedEvent()]);
            && v.Success? && "key" in v.value.effects && v.value.effects["key"].requestDigest == RequestHash(SampleRequest())
            && v.value.effects["key"].receipt.None?
            && SampleRequest().promotionDigest in v.value.policies && v.value.policies[SampleRequest().promotionDigest].suspended
  {
    SampleAuthorized(0);
    var two := [PromotedEvent(), AuthorizedEvent()];
    ReplaysOneMore(two, GoneEvent());
    ReplaysOneMore(two + [GoneEvent()], StoppedEvent());
    assert two + [GoneEvent()] + [StoppedEvent()] == [PromotedEvent(), AuthorizedEvent(), GoneEvent(), StoppedEvent()];
  }

  lemma RetryableFailureIsRecorded(threshold: int)
    ensures LogOf(threshold, RecoveredSteps()) == LogOf(threshold, RefusedSteps()) + [EffectFailed("key", RequestHash(SampleRequest()), true, "again", 4)]
  {
    SampleFailed(threshold);
    SampleView();
    OneMore(threshold, RefusedSteps(), Step(RecordFailure(SampleRequest(), true, "again"), 4));
  }

  /** The same call succeeds again, with the first digest, once a retryable failure is recorded on top. */
  lemma RecoveredRunSucceeds(threshold: int, now: Time)
    ensures Respond(LogOf(threshold, RecoveredSteps()), threshold, Authorize(SampleRequest()), now) == Outcome(Success(Authorizes(SampleDigest())), [])
  {
    var log := LogOf(threshold, RecoveredSteps());
    RetryableFailureIsRecorded(threshold);
    SampleFailed(threshold);
    assert log[1] == AuthorizedEvent();
    ReauthorizingIsIdempotent(threshold, RecoveredSteps(), SampleRequest(), SampleDigest(), SampleRequest(), now);
  }
}
