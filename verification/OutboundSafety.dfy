/** Every log the authority writes is safe: stated on positions of the log alone, without replaying it. */
module OutboundSafety {
  import opened Prelude
  import opened OutboundLog

  /* ---------- what a log says ---------- */

  ghost predicate HasPromotion(log: seq<Event>, d: Digest, policy: Policy) {
    exists i :: 0 <= i < |log| && log[i].PolicyPromoted? && log[i].promotionDigest == d && log[i].policy == policy
  }

  ghost predicate HasSuspension(log: seq<Event>, d: Digest) {
    exists i :: 0 <= i < |log| && log[i].PolicySuspended? && log[i].promotionDigest == d
  }

  ghost predicate HasAuthorization(log: seq<Event>, request: Request, digest: Digest) {
    exists i :: 0 <= i < |log| && log[i].EffectAuthorized? && log[i].request == request && log[i].authorizationDigest == digest
  }

  ghost predicate KeyTaken(log: seq<Event>, key: string) {
    exists i :: 0 <= i < |log| && log[i].EffectAuthorized? && log[i].request.effectKey == key
  }

  ghost predicate HasReceipt(log: seq<Event>, key: string, receipt: Receipt) {
    exists i :: 0 <= i < |log| && log[i].ReceiptRecorded? && log[i].effectKey == key && log[i].receipt == receipt
  }

  ghost predicate Receipted(log: seq<Event>, key: string) {
    exists i :: 0 <= i < |log| && log[i].ReceiptRecorded? && log[i].effectKey == key
  }

  ghost predicate TerminallyFailed(log: seq<Event>, key: string) {
    exists i :: 0 <= i < |log| && log[i].EffectFailed? && log[i].effectKey == key && !log[i].retryable
  }

  ghost function FailureCount(log: seq<Event>, key: string): nat {
    if log == [] then 0
    else FailureCount(log[..|log| - 1], key) + (if log[|log| - 1].EffectFailed? && log[|log| - 1].effectKey == key then 1 else 0)
  }

  /** What the last authorization, receipt or failure under the key made of the effect. */
  ghost function LastWord(log: seq<Event>, key: string): Option<EffectStatus> {
    if log == [] then None
    else
      var e := log[|log| - 1];
      if e.EffectAuthorized? && e.request.effectKey == key then Some(Authorized)
      else if e.ReceiptRecorded? && e.effectKey == key then Some(Delivered)
      else if e.EffectFailed? && e.effectKey == key then Some(if e.retryable then Authorized else Failed)
      else LastWord(log[..|log| - 1], key)
  }

  ghost predicate RevisionTaken(log: seq<Event>, revisionId: string) {
    exists i :: 0 <= i < |log| && log[i].PolicyPromoted? && log[i].policy.revisionId == revisionId
  }

  /* ---------- which event may follow a log ---------- */

  /** A policy promoted earlier, never suspended so far, unexpired at `at`, covers the request, inside the global ceiling. */
  ghost predicate Covered(log: seq<Event>, request: Request, policy: Policy, at: Time) {
    && HasPromotion(log, request.promotionDigest, policy) && !HasSuspension(log, request.promotionDigest)
    && at < policy.expiresAt && request.action in policy.actions && request.target in policy.targets && IsAllowed(request.action)
  }

  ghost predicate Bound(log: seq<Event>, key: string, requestDigest: Digest) {
    exists request, digest :: HasAuthorization(log, request, digest) && request.effectKey == key && requestDigest == RequestHash(request)
  }

  ghost predicate Fits(log: seq<Event>, e: Event) {
    match e
    case PolicyPromoted(policy, policyDigest, promotionDigest, operator, at) =>
      && policyDigest == PolicyHash(policy) && promotionDigest == PromotionHash(policyDigest, operator, at)
      && NoRepeats(policy.actions) && WithinCeiling(policy.actions) && NoRepeats(policy.targets) && at < policy.expiresAt
      && !RevisionTaken(log, policy.revisionId)
    case PolicySuspended(d, _, _) => (exists policy :: HasPromotion(log, d, policy)) && !HasSuspension(log, d)
    case EffectAuthorized(request, requestDigest, digest, at) =>
      && requestDigest == RequestHash(request) && digest == AuthorizationHash(requestDigest, request.promotionDigest, at)
      && !KeyTaken(log, request.effectKey)
      && exists policy :: Covered(log, request, policy, at)
    case ReceiptRecorded(key, requestDigest, receipt, _) =>
      && !Receipted(log, key) && receipt.receiptDigest == ReceiptHash(receipt.unsigned)
      && exists request, digest :: HasAuthorization(log, request, digest) && request.effectKey == key
                                   && requestDigest == RequestHash(request) && ReceiptFits(request, receipt)
    case EffectFailed(key, requestDigest, _, _, _) => !Receipted(log, key) && Bound(log, key, requestDigest)
  }

  /** Each event was allowed by what stood before it. */
  ghost predicate Safe(log: seq<Event>) {
    forall i :: 0 <= i < |log| ==> FitsAt(log, i)
  }

  ghost predicate FitsAt(log: seq<Event>, i: int) {
    0 <= i < |log| && Fits(log[..i], log[i])
  }

  lemma SafeAppend(log: seq<Event>, e: Event)
    requires Safe(log) && Fits(log, e)
    ensures Safe(log + [e])
  {
    var after := log + [e];
    forall i | 0 <= i < |after| ensures FitsAt(after, i) {
      if i < |log| {
        assert FitsAt(log, i);
        assert after[..i] == log[..i];
      } else {
        assert after[..i] == log;
      }
    }
  }

  lemma SafePrefix(log: seq<Event>, n: int)
    requires Safe(log) && 0 <= n <= |log|
    ensures Safe(log[..n])
  {
    forall i | 0 <= i < n ensures FitsAt(log[..n], i) {
      assert FitsAt(log, i);
      assert log[..n][..i] == log[..i];
    }
  }

  /* ---------- the replayed view says what the log says ---------- */

  ghost predicate PolicyReflects(log: seq<Event>, d: Digest, v: View) {
    && (d in v.policies ==>
          && HasPromotion(log, d, v.policies[d].policy) && v.policies[d].suspended == HasSuspension(log, d)
          && d == v.policies[d].promotionDigest == PromotionHash(PolicyHash(v.policies[d].policy), v.policies[d].promotedBy, v.policies[d].promotedAt)
          && v.policies[d].policyDigest == PolicyHash(v.policies[d].policy))
    && (d !in v.policies ==> (forall policy :: !HasPromotion(log, d, policy)) && !HasSuspension(log, d))
  }

  ghost predicate EffectReflects(log: seq<Event>, key: string, v: View) {
    if key !in v.effects then !KeyTaken(log, key) && !Receipted(log, key) && FailureCount(log, key) == 0 && !TerminallyFailed(log, key)
    else
      var effect := v.effects[key];
      && effect.request.effectKey == key && effect.requestDigest == RequestHash(effect.request)
      && HasAuthorization(log, effect.request, effect.authorizationDigest)
      && effect.failureCount == FailureCount(log, key) && LastWord(log, key) == Some(effect.status)
      && (effect.receipt.Some? ==> HasReceipt(log, key, effect.receipt.value) && effect.status == Delivered)
      && (effect.receipt.None? ==> !Receipted(log, key) && effect.status != Delivered)
  }

  ghost predicate Reflects(log: seq<Event>, v: View) {
    && (forall d :: PolicyReflects(log, d, v))
    && (forall key :: EffectReflects(log, key, v))
  }

  /* ---------- one event more ---------- */

  lemma PromotionAppend(log: seq<Event>, e: Event, d: Digest, policy: Policy)
    ensures HasPromotion(log + [e], d, policy) <==> HasPromotion(log, d, policy) || (e.PolicyPromoted? && e.promotionDigest == d && e.policy == policy)
  {
    assert forall i :: 0 <= i < |log| ==> (log + [e])[i] == log[i];
    assert (log + [e])[|log|] == e;
  }

  lemma SuspensionAppend(log: seq<Event>, e: Event, d: Digest)
    ensures HasSuspension(log + [e], d) <==> HasSuspension(log, d) || (e.PolicySuspended? && e.promotionDigest == d)
  {
    assert forall i :: 0 <= i < |log| ==> (log + [e])[i] == log[i];
    assert (log + [e])[|log|] == e;
  }

  lemma AuthorizationAppend(log: seq<Event>, e: Event, request: Request, digest: Digest)
    ensures HasAuthorization(log + [e], request, digest) <==>
            HasAuthorization(log, request, digest) || (e.EffectAuthorized? && e.request == request && e.authorizationDigest == digest)
  {
    assert forall i :: 0 <= i < |log| ==> (log + [e])[i] == log[i];
    assert (log + [e])[|log|] == e;
  }

  lemma KeyAppend(log: seq<Event>, e: Event, key: string)
    ensures KeyTaken(log + [e], key) <==> KeyTaken(log, key) || (e.EffectAuthorized? && e.request.effectKey == key)
    ensures Receipted(log + [e], key) <==> Receipted(log, key) || (e.ReceiptRecorded? && e.effectKey == key)
    ensures TerminallyFailed(log + [e], key) <==> TerminallyFailed(log, key) || (e.EffectFailed? && e.effectKey == key && !e.retryable)
    ensures FailureCount(log + [e], key) == FailureCount(log, key) + (if e.EffectFailed? && e.effectKey == key then 1 else 0)
    ensures LastWord(log + [e], key) ==
            if e.EffectAuthorized? && e.request.effectKey == key then Some(Authorized)
            else if e.ReceiptRecorded? && e.effectKey == key then Some(Delivered)
            else if e.EffectFailed? && e.effectKey == key then Some(if e.retryable then Authorized else Failed)
            else LastWord(log, key)
  {
    assert (log + [e])[..|log|] == log;
    assert forall i :: 0 <= i < |log| ==> (log + [e])[i] == log[i];
    assert (log + [e])[|log|] == e;
  }

  lemma ReceiptAppend(log: seq<Event>, e: Event, key: string, receipt: Receipt)
    ensures HasReceipt(log + [e], key, receipt) <==> HasReceipt(log, key, receipt) || (e.ReceiptRecorded? && e.effectKey == key && e.receipt == receipt)
  {
    assert forall i :: 0 <= i < |log| ==> (log + [e])[i] == log[i];
    assert (log + [e])[|log|] == e;
  }

  /** A key names one request and one authorization for ever. */
  lemma AuthorizedOnce(log: seq<Event>, r1: Request, d1: Digest, r2: Request, d2: Digest)
    requires Safe(log) && HasAuthorization(log, r1, d1) && HasAuthorization(log, r2, d2) && r1.effectKey == r2.effectKey
    ensures r1 == r2 && d1 == d2
  {
    var i :| 0 <= i < |log| && log[i].EffectAuthorized? && log[i].request == r1 && log[i].authorizationDigest == d1;
    var j :| 0 <= j < |log| && log[j].EffectAuthorized? && log[j].request == r2 && log[j].authorizationDigest == d2;
    assert FitsAt(log, i) && FitsAt(log, j);
  }

  lemma PolicyStep(log: seq<Event>, v: View, e: Event, d: Digest)
    requires Reflects(log, v) && Fits(log, e) && Apply(v, e).Success?
    ensures PolicyReflects(log + [e], d, Apply(v, e).value)
  {
    var w := Apply(v, e).value;
    assert PolicyReflects(log, d, v);
    SuspensionAppend(log, e, d);
    forall policy ensures HasPromotion(log + [e], d, policy) <==> HasPromotion(log, d, policy) || (e.PolicyPromoted? && e.promotionDigest == d && e.policy == policy) {
      PromotionAppend(log, e, d, policy);
    }
  }

  lemma EffectStep(log: seq<Event>, v: View, e: Event, key: string)
    requires Reflects(log, v) && Fits(log, e) && Apply(v, e).Success?
    ensures EffectReflects(log + [e], key, Apply(v, e).value)
  {
    var w := Apply(v, e).value;
    assert EffectReflects(log, key, v);
    KeyAppend(log, e, key);
    if key in w.effects {
      AuthorizationAppend(log, e, w.effects[key].request, w.effects[key].authorizationDigest);
      if w.effects[key].receipt.Some? { ReceiptAppend(log, e, key, w.effects[key].receipt.value); }
    }
  }

  /** What fits the log is accepted by the replay of the log. */
  lemma FitsApplies(log: seq<Event>, v: View, e: Event)
    requires Safe(log) && Reflects(log, v) && Fits(log, e)
    ensures Apply(v, e).Success?
  {
    match e
    case PolicySuspended(d, _, _) => assert PolicyReflects(log, d, v);
    case ReceiptRecorded(key, requestDigest, receipt, _) =>
      var request, digest :| HasAuthorization(log, request, digest) && request.effectKey == key && requestDigest == RequestHash(request);
      BoundEffect(log, v, request, digest);
    case EffectFailed(key, requestDigest, _, _, _) =>
      var request, digest :| HasAuthorization(log, request, digest) && request.effectKey == key && requestDigest == RequestHash(request);
      BoundEffect(log, v, request, digest);
    case _ =>
  }

  lemma BoundEffect(log: seq<Event>, v: View, request: Request, digest: Digest)
    requires Safe(log) && Reflects(log, v) && HasAuthorization(log, request, digest)
    ensures request.effectKey in v.effects
    ensures v.effects[request.effectKey].request == request && v.effects[request.effectKey].authorizationDigest == digest
    ensures v.effects[request.effectKey].requestDigest == RequestHash(request)
  {
    var key := request.effectKey;
    assert EffectReflects(log, key, v);
    assert KeyTaken(log, key);
    AuthorizedOnce(log, request, digest, v.effects[key].request, v.effects[key].authorizationDigest);
  }

  /** A safe log replays without a drift error, to a view that says what the log says. */
  lemma {:induction false} SafeReplays(log: seq<Event>)
    requires Safe(log)
    ensures Replay(log).Success? && Reflects(log, Replay(log).value)
  {
    if log == [] {
    } else {
      var n := |log| - 1;
      SafePrefix(log, n);
      SafeReplays(log[..n]);
      assert FitsAt(log, n);
      var v := Replay(log[..n]).value;
      FitsApplies(log[..n], v, log[n]);
      assert log == log[..n] + [log[n]];
      forall d ensures PolicyReflects(log, d, Replay(log).value) { PolicyStep(log[..n], v, log[n], d); }
      forall key ensures EffectReflects(log, key, Replay(log).value) { EffectStep(log[..n], v, log[n], key); }
    }
  }
}
