/** The authority object: an append-only log that every call replays before it acts. */
module OutboundAuthority {
  import opened Prelude
  import opened OutboundLog
  import opened OutboundSafety
  import opened OutboundRuns

  lemma ReplayAppend(log: seq<Event>, e: Event)
    requires Replay(log).Success?
    ensures Replay(log + [e]) == Apply(Replay(log).value, e)
  {
    assert (log + [e])[..|log|] == log;
  }

  lemma {:induction false} ReplayFailsEarly(log: seq<Event>, n: int)
    requires 0 <= n <= |log| && Replay(log[..n]).Failure?
    ensures Replay(log) == Replay(log[..n])
    decreases |log|
  {
    if n == |log| {
      assert log[..n] == log;
    } else {
      var shorter := log[..|log| - 1];
      assert shorter[..n] == log[..n];
      ReplayFailsEarly(shorter, n);
    }
  }

  /** The replay loop: two maps updated event by event, giving up at the first broken binding. */
  method ReplayEvents(events: seq<Event>) returns (r: Result<View>)
    ensures r == Replay(events)
  {
    var policies: map<Digest, Promotion>, effects: map<string, Effect> := map[], map[];
    var i := 0;
    while i < |events|
      invariant 0 <= i <= |events|
      invariant Replay(events[..i]) == Success(View(policies, effects))
    {
      var e := events[i];
      ghost var before := View(policies, effects);
      assert Replay(events[..i + 1]) == Apply(before, e) by {
        assert events[..i + 1] == events[..i] + [e];
        ReplayAppend(events[..i], e);
      }
      match e {
        case PolicyPromoted(policy, policyDigest, promotionDigest, operator, at) =>
          if PolicyHash(policy) != policyDigest {
            ReplayFailsEarly(events, i + 1);
            return Failure("Outbound policy digest drift");
          }
          policies := policies[promotionDigest := Promotion(policy, policyDigest, promotionDigest, operator, at, false, None, None)];
        case PolicySuspended(promotionDigest, at, reason) =>
          if promotionDigest !in policies {
            ReplayFailsEarly(events, i + 1);
            return Failure("Outbound policy suspension references an unknown promotion");
          }
          policies := policies[promotionDigest := policies[promotionDigest].(suspended := true, suspendedAt := Some(at), reason := Some(reason))];
        case EffectAuthorized(request, requestDigest, authorizationDigest, at) =>
          if RequestHash(request) != requestDigest {
            ReplayFailsEarly(events, i + 1);
            return Failure("Outbound request digest drift");
          }
          effects := effects[request.effectKey := Effect(request, requestDigest, authorizationDigest, at, Authorized, None, 0, None)];
        case ReceiptRecorded(key, requestDigest, receipt, _) =>
          if key !in effects || effects[key].requestDigest != requestDigest {
            ReplayFailsEarly(events, i + 1);
            return Failure("Outbound receipt binding drift");
          }
          effects := effects[key := effects[key].(status := Delivered, receipt := Some(receipt))];
        case EffectFailed(key, requestDigest, retryable, reason, at) =>
          if key !in effects || effects[key].requestDigest != requestDigest {
            ReplayFailsEarly(events, i + 1);
            return Failure("Outbound failure binding drift");
          }
          var effect := effects[key];
          effects := effects[key := effect.(status := if retryable then Authorized else Failed, failureCount := effect.failureCount + 1,
                                            lastFailure := Some((retryable, reason, at)))];
      }
      assert Apply(before, e) == Success(View(policies, effects));
      i := i + 1;
    }
    assert events[..i] == events;
    r := Success(View(policies, effects));
  }

  /** A policy revision is promoted under one digest only. */
  lemma RevisionOnce(log: seq<Event>, v: View, one: Digest, two: Digest)
    requires Safe(log) && Reflects(log, v) && one in v.policies && two in v.policies
    requires v.policies[one].policy.revisionId == v.policies[two].policy.revisionId
    ensures one == two
  {
    assert PolicyReflects(log, one, v) && PolicyReflects(log, two, v);
    var p, q := v.policies[one].policy, v.policies[two].policy;
    var i :| 0 <= i < |log| && log[i].PolicyPromoted? && log[i].promotionDigest == one && log[i].policy == p;
    var j :| 0 <= j < |log| && log[j].PolicyPromoted? && log[j].promotionDigest == two && log[j].policy == q;
    assert FitsAt(log, i) && FitsAt(log, j);
  }

  method FindRevision(v: View, revisionId: string, ghost log: seq<Event>) returns (found: Option<Promotion>)
    requires Safe(log) && Reflects(log, v)
    ensures found.Some? <==> Knows(v, revisionId)
    ensures found.Some? ==> found.value == Known(v, revisionId)
  {
    var rest := v.policies.Keys;
    found := None;
    while rest != {}
      invariant rest <= v.policies.Keys
      invariant forall d :: d in v.policies && d !in rest ==> v.policies[d].policy.revisionId != revisionId
      decreases |rest|
    {
      var d :| d in rest;
      if v.policies[d].policy.revisionId == revisionId {
        assert Knows(v, revisionId);
        ghost var e :| e in v.policies && v.policies[e] == Known(v, revisionId) && v.policies[e].policy.revisionId == revisionId;
        RevisionOnce(log, v, d, e);
        return Some(v.policies[d]);
      }
      rest := rest - {d};
    }
  }

  /** Receipts with the same digest are the same receipt. */
  lemma StoredReceiptIsSigned(log: seq<Event>, v: View, key: string)
    requires Safe(log) && Reflects(log, v) && key in v.effects && v.effects[key].receipt.Some?
    ensures var receipt := v.effects[key].receipt.value;
            receipt.receiptDigest == ReceiptHash(receipt.unsigned) && HasReceipt(log, key, receipt)
  {
    var receipt := v.effects[key].receipt.value;
    assert EffectReflects(log, key, v);
    var i :| 0 <= i < |log| && log[i].ReceiptRecorded? && log[i].effectKey == key && log[i].receipt == receipt;
    assert FitsAt(log, i);
  }

  lemma StoredIsAuthorized(log: seq<Event>, v: View, request: Request)
    requires Reflects(log, v) && request.effectKey in v.effects && v.effects[request.effectKey].requestDigest == RequestHash(request)
    ensures HasAuthorization(log, request, v.effects[request.effectKey].authorizationDigest)
  {
    assert EffectReflects(log, request.effectKey, v);
  }

  class Authority {
    var log: seq<Event>
    var closed: bool
    const threshold: int

    /** The log is one this object could have written. */
    ghost predicate Valid()
      reads this
    {
      Good(log, threshold)
    }

    constructor (threshold: int)
      ensures Valid() && log == [] && !closed && this.threshold == threshold
    {
      log, closed, this.threshold := [], false, threshold;
      new;
      EmptyGood(threshold);
    }

    /** The call answers as specified and appends exactly what it should; a closed object refuses and changes nothing. */
    twostate predicate Answers(call: Call, now: Time, error: Option<string>)
      reads this
    {
      var o := Ask(old(log), closed, threshold, call, now);
      log == old(log) + o.events && error == (if o.reply.Failure? then Some(o.reply.error) else None)
    }

    method Load() returns (v: View)
      requires Valid()
      ensures Replay(log) == Success(v) && Reflects(log, v)
    {
      SafeReplays(log);
      var r := ReplayEvents(log);
      v := r.value;
    }

    method PromotePolicy(policy: Policy, operator: string, now: Time) returns (r: Result<Promotion>)
      requires Valid()
      modifies this`log
      ensures Valid() && Answers(Promote(policy, operator), now, if r.Failure? then Some(r.error) else None)
      ensures r.Success? ==> Respond(old(log), threshold, Promote(policy, operator), now).reply == Success(Promotes(r.value))
      ensures r.Success? ==> r.value.policy == policy && HasPromotion(log, r.value.promotionDigest, policy)
    {
      if closed { return Failure("Outbound authority is closed"); }
      SafeReplays(log);
      RespondKeeps(log, threshold, Promote(policy, operator), now);
      if !NoRepeats(policy.actions) { return Failure("Outbound policy actions must be unique"); }
      if !WithinCeiling(policy.actions) { return Failure("Outbound policy cannot exceed the global authority ceiling"); }
      if !NoRepeats(policy.targets) { return Failure("Outbound policy targets must be unique"); }
      if policy.expiresAt <= now { return Failure("Outbound policy must expire in the future"); }
      var v := Load();
      var existing := FindRevision(v, policy.revisionId, log);
      if existing.Some? {
        if PolicyHash(existing.value.policy) != PolicyHash(policy) { return Failure("Outbound policy revision is immutable"); }
        ghost var d :| d in v.policies && v.policies[d] == existing.value;
        assert PolicyReflects(log, d, v);
        return Success(existing.value);
      }
      var policyDigest := PolicyHash(policy);
      var promotionDigest := PromotionHash(policyDigest, operator, now);
      var e := PolicyPromoted(policy, policyDigest, promotionDigest, operator, now);
      ReplayAppend(log, e);
      PromotionAppend(log, e, promotionDigest, policy);
      log := log + [e];
      var after := Load();
      return Success(after.policies[promotionDigest]);
    }

    method SuspendPolicy(promotionDigest: Digest, reason: string, now: Time) returns (r: Result<()>)
      requires Valid()
      modifies this`log
      ensures Valid() && Answers(Suspend(promotionDigest, reason), now, if r.Failure? then Some(r.error) else None)
      ensures r.Success? ==> HasSuspension(log, promotionDigest)
    {
      if closed { return Failure("Outbound authority is closed"); }
      RespondKeeps(log, threshold, Suspend(promotionDigest, reason), now);
      var v := Load();
      if promotionDigest !in v.policies { return Failure("Outbound policy promotion does not exist"); }
      assert PolicyReflects(log, promotionDigest, v);
      if v.policies[promotionDigest].suspended { return Success(()); }
      var e := PolicySuspended(promotionDigest, now, reason);
      SuspensionAppend(log, e, promotionDigest);
      log := log + [e];
      return Success(());
    }

    method AuthorizeEffect(request: Request, now: Time) returns (r: Result<Digest>)
      requires Valid()
      modifies this`log
      ensures Valid() && Answers(Authorize(request), now, if r.Failure? then Some(r.error) else None)
      ensures r.Success? ==> HasAuthorization(log, request, r.value)
    {
      if closed { return Failure("Outbound authority is closed"); }
      var v := Load();
      assert Respond(log, threshold, Authorize(request), now) == OnAuthorize(v, request, now);
      if !IsAllowed(request.action) { return Failure("Outbound action is outside the non-configurable global authority ceiling"); }
      if request.effectKey in v.effects { r := AuthorizeAgain(request, v, now); } else { r := AuthorizeNew(request, v, now); }
    }

    /** The part of `authorize` for a key that was authorized before. */
    method AuthorizeAgain(request: Request, v: View, now: Time) returns (r: Result<Digest>)
      requires Valid() && !closed && Replay(log) == Success(v) && Reflects(log, v) && IsAllowed(request.action) && request.effectKey in v.effects
      ensures Valid() && OnAuthorize(v, request, now) == Outcome(if r.Failure? then Failure(r.error) else Success(Authorizes(r.value)), [])
      ensures r.Success? ==> HasAuthorization(log, request, r.value)
    {
      var prior := v.effects[request.effectKey];
      if prior.requestDigest != RequestHash(request) { return Failure("Outbound effect key was reused with different input"); }
      if prior.status == Failed { return Failure("Outbound effect previously failed terminally"); }
      StoredIsAuthorized(log, v, request);
      return Success(prior.authorizationDigest);
    }

    /** The part of `authorize` for a key that was never authorized. */
    method AuthorizeNew(request: Request, v: View, now: Time) returns (r: Result<Digest>)
      requires Valid() && !closed && Replay(log) == Success(v) && IsAllowed(request.action) && request.effectKey !in v.effects
      modifies this`log
      ensures Valid() && Answers(Authorize(request), now, if r.Failure? then Some(r.error) else None)
      ensures r.Success? ==> HasAuthorization(log, request, r.value)
    {
      RespondKeeps(log, threshold, Authorize(request), now);
      if request.promotionDigest !in v.policies || v.policies[request.promotionDigest].suspended { return Failure("Outbound policy is not active"); }
      var policy := v.policies[request.promotionDigest].policy;
      if policy.expiresAt <= now { return Failure("Outbound policy is expired"); }
      if request.action !in policy.actions { return Failure("Outbound action is not policy-approved"); }
      if request.target !in policy.targets { return Failure("Outbound target is not policy-approved"); }
      var digest := AuthorizationHash(RequestHash(request), request.promotionDigest, now);
      var e := EffectAuthorized(request, RequestHash(request), digest, now);
      AuthorizationAppend(log, e, request, digest);
      log := log + [e];
      return Success(digest);
    }

    method RecordEffectReceipt(request: Request, receipt: Receipt, now: Time) returns (r: Result<()>)
      requires Valid()
      modifies this`log
      ensures Valid() && Answers(RecordReceipt(request, receipt), now, if r.Failure? then Some(r.error) else None)
      ensures r.Success? ==> HasReceipt(log, request.effectKey, receipt)
    {
      if closed { return Failure("Outbound authority is closed"); }
      SafeReplays(log);
      RespondKeeps(log, threshold, RecordReceipt(request, receipt), now);
      if ReceiptHash(receipt.unsigned) != receipt.receiptDigest { return Failure("Outbound receipt digest is invalid"); }
      if !ReceiptFits(request, receipt) { return Failure("Outbound receipt does not match the authorized request"); }
      var v := Load();
      var requestDigest := RequestHash(request);
      if request.effectKey !in v.effects || v.effects[request.effectKey].requestDigest != requestDigest {
        return Failure("Outbound effect was not authorized");
      }
      var prior := v.effects[request.effectKey].receipt;
      if prior.Some? {
        if prior.value.receiptDigest != receipt.receiptDigest { return Failure("Outbound receipt conflicts with prior evidence"); }
        StoredReceiptIsSigned(log, v, request.effectKey);
        return Success(());
      }
      var e := ReceiptRecorded(request.effectKey, requestDigest, receipt, now);
      ReceiptAppend(log, e, request.effectKey, receipt);
      log := log + [e];
      return Success(());
    }

    method RecordEffectFailure(request: Request, retryable: bool, reason: string, now: Time) returns (r: Result<()>)
      requires Valid()
      modifies this`log
      ensures Valid() && Answers(RecordFailure(request, retryable, reason), now, if r.Failure? then Some(r.error) else None)
    {
      if closed { return Failure("Outbound authority is closed"); }
      RespondKeeps(log, threshold, RecordFailure(request, retryable, reason), now);
      var v := Load();
      var requestDigest := RequestHash(request);
      if request.effectKey !in v.effects || v.effects[request.effectKey].requestDigest != requestDigest {
        return Failure("Outbound effect was not authorized");
      }
      var effect := v.effects[request.effectKey];
      if effect.receipt.Some? { return Success(()); }
      var appended := [EffectFailed(request.effectKey, requestDigest, retryable, reason, now)];
      if !retryable || effect.failureCount + 1 >= threshold {
        if request.promotionDigest in v.policies && !v.policies[request.promotionDigest].suspended {
          appended := appended + [PolicySuspended(request.promotionDigest, now, FailSafeReason(reason))];
        }
      }
      assert appended == OnFailure(v, threshold, request, retryable, reason, now).events;
      log := log + appended;
      return Success(());
    }

    method Close()
      modifies this`closed
      ensures closed
    {
      closed := true;
    }
  }
}
