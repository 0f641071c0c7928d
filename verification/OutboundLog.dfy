/** The outbound authority log: its events, the view they replay to, and what each call appends. */
module OutboundLog {
  import opened Prelude

  type Time = int

  datatype Action =
    | Reprioritize | ApproveRecord | CheckUpsert | LabelUpsert | CommentCreate | BranchCreate | DraftPrCreate | DraftPrUpdate
    | DesktopDeliver | WebhookDeliver
    | Merge | ReadyForReview | Release | Deploy | AcceptScope | AcceptGraph | AcceptOutcome | PromotePolicyAction
    | ChangePermission | ChangeSecret | ExpandCapability

  /** The global ceiling no policy can raise (`isAutomaticActionAllowed`). */
  predicate IsAllowed(a: Action) {
    || a == Reprioritize || a == ApproveRecord || a == CheckUpsert || a == LabelUpsert || a == CommentCreate || a == BranchCreate
    || a == DraftPrCreate || a == DraftPrUpdate || a == DesktopDeliver || a == WebhookDeliver
  }

  datatype Payload =
    | CommentPayload(issue: nat, text: string)
    | CheckPayload(headSha: string, name: string, status: string, conclusion: Option<string>, title: string, summary: string)
    | BranchPayload(revisionDigest: string, commitSha: string)
    | PullPayload(revisionDigest: string, base: string, title: string, text: string)
    | OtherPayload(text: string)

  /** Digests are free constructors: equal digests mean equal content; `Foreign` is one nobody computed. */
  datatype Digest =
    | PolicyHash(policy: Policy)
    | PromotionHash(policyDigest: Digest, promotedBy: string, promotedAt: Time)
    | PayloadHash(payload: Payload)
    | RequestHash(request: Request)
    | AuthorizationHash(requestDigest: Digest, promotionDigest: Digest, now: Time)
    | ReceiptHash(unsigned: Unsigned)
    | StateHash(fields: seq<Field>)
    | Foreign(text: string)

  /** One field of an observed external state. */
  datatype Field = Text(text: string) | Number(number: nat) | Flag(flag: bool) | Null

  datatype Policy = Policy(revisionId: string, name: string, actions: seq<Action>, targets: seq<string>, expiresAt: Time)

  datatype Request = Request(adapterId: string, effectKey: string, action: Action, target: string, payload: Payload,
                             payloadDigest: Digest, preconditionDigest: Digest, promotionDigest: Digest)

  datatype Unsigned = Unsigned(adapterId: string, effectKey: string, action: Action, payloadDigest: Digest, externalId: string,
                               requestId: Option<string>, observedState: Digest, acceptedAt: Time)
  datatype Receipt = Receipt(unsigned: Unsigned, receiptDigest: Digest)

  datatype Event =
    | PolicyPromoted(policy: Policy, policyDigest: Digest, promotionDigest: Digest, promotedBy: string, at: Time)
    | PolicySuspended(promotionDigest: Digest, at: Time, reason: string)
    | EffectAuthorized(request: Request, requestDigest: Digest, authorizationDigest: Digest, at: Time)
    | ReceiptRecorded(effectKey: string, requestDigest: Digest, receipt: Receipt, at: Time)
    | EffectFailed(effectKey: string, requestDigest: Digest, retryable: bool, reason: string, at: Time)

  datatype Promotion = Promotion(policy: Policy, policyDigest: Digest, promotionDigest: Digest, promotedBy: string, promotedAt: Time,
                                 suspended: bool, suspendedAt: Option<Time>, reason: Option<string>)
  datatype EffectStatus = Authorized | Delivered | Failed
  datatype Effect = Effect(request: Request, requestDigest: Digest, authorizationDigest: Digest, authorizedAt: Time, status: EffectStatus,
                           receipt: Option<Receipt>, failureCount: nat, lastFailure: Option<(bool, string, Time)>)
  datatype View = View(policies: map<Digest, Promotion>, effects: map<string, Effect>)

  /* ---------- replay ---------- */

  /** One turn of the replay loop; a broken binding throws. */
  function Apply(v: View, e: Event): Result<View> {
    match e
    case PolicyPromoted(policy, policyDigest, promotionDigest, operator, at) =>
      if PolicyHash(policy) != policyDigest then Failure("Outbound policy digest drift")
      else Success(v.(policies := v.policies[promotionDigest := Promotion(policy, policyDigest, promotionDigest, operator, at, false, None, None)]))
    case PolicySuspended(promotionDigest, at, reason) =>
      if promotionDigest !in v.policies then Failure("Outbound policy suspension references an unknown promotion")
      else Success(v.(policies := v.policies[promotionDigest := v.policies[promotionDigest].(suspended := true, suspendedAt := Some(at), reason := Some(reason))]))
    case EffectAuthorized(request, requestDigest, authorizationDigest, at) =>
      if RequestHash(request) != requestDigest then Failure("Outbound request digest drift")
      else Success(v.(effects := v.effects[request.effectKey := Effect(request, requestDigest, authorizationDigest, at, Authorized, None, 0, None)]))
    case ReceiptRecorded(key, requestDigest, receipt, _) =>
      if key !in v.effects || v.effects[key].requestDigest != requestDigest then Failure("Outbound receipt binding drift")
      else Success(v.(effects := v.effects[key := v.effects[key].(status := Delivered, receipt := Some(receipt))]))
    case EffectFailed(key, requestDigest, retryable, reason, at) =>
      if key !in v.effects || v.effects[key].requestDigest != requestDigest then Failure("Outbound failure binding drift")
      else Success(v.(effects := v.effects[key := v.effects[key].(
        status := if retryable then Authorized else Failed, failureCount := v.effects[key].failureCount + 1,
        lastFailure := Some((retryable, reason, at)))]))
  }

  function Replay(log: seq<Event>): Result<View> {
    if log == [] then Success(View(map[], map[]))
    else
      var before := Replay(log[..|log| - 1]);
      if before.Failure? then before else Apply(before.value, log[|log| - 1])
  }

  /* ---------- calls ---------- */

  datatype Call =
    | Promote(policy: Policy, operator: string)
    | Suspend(promotionDigest: Digest, reason: string)
    | Authorize(request: Request)
    | RecordReceipt(request: Request, receipt: Receipt)
    | RecordFailure(request: Request, retryable: bool, reason: string)

  datatype Reply = Promotes(promotion: Promotion) | Authorizes(authorizationDigest: Digest) | Done

  /** What a call returns or throws, and the events it appends. */
  datatype Outcome = Outcome(reply: Result<Reply>, events: seq<Event>)

  function Refuse(error: string): Outcome {
    Outcome(Failure(error), [])
  }

  predicate NoRepeats<T(==)>(xs: seq<T>) {
    forall i, j :: 0 <= i < j < |xs| ==> xs[i] != xs[j]
  }

  predicate WithinCeiling(actions: seq<Action>) {
    forall i :: 0 <= i < |actions| ==> IsAllowed(actions[i])
  }

  ghost predicate Knows(v: View, revisionId: string) {
    exists d :: d in v.policies && v.policies[d].policy.revisionId == revisionId
  }

  ghost function Known(v: View, revisionId: string): (p: Promotion)
    requires Knows(v, revisionId)
    ensures exists d :: d in v.policies && v.policies[d] == p && p.policy.revisionId == revisionId
  {
    var d :| d in v.policies && v.policies[d].policy.revisionId == revisionId;
    v.policies[d]
  }

  ghost function OnPromote(v: View, policy: Policy, operator: string, now: Time): (o: Outcome)
    ensures o.reply.Failure? ==> o.events == []
  {
    if !NoRepeats(policy.actions) then Refuse("Outbound policy actions must be unique")
    else if !WithinCeiling(policy.actions) then Refuse("Outbound policy cannot exceed the global authority ceiling")
    else if !NoRepeats(policy.targets) then Refuse("Outbound policy targets must be unique")
    else if policy.expiresAt <= now then Refuse("Outbound policy must expire in the future")
    else if Knows(v, policy.revisionId) then
      if PolicyHash(Known(v, policy.revisionId).policy) != PolicyHash(policy) then Refuse("Outbound policy revision is immutable")
      else Outcome(Success(Promotes(Known(v, policy.revisionId))), [])
    else
      var digest := PromotionHash(PolicyHash(policy), operator, now);
      Outcome(Success(Promotes(Promotion(policy, PolicyHash(policy), digest, operator, now, false, None, None))),
              [PolicyPromoted(policy, PolicyHash(policy), digest, operator, now)])
  }

  function OnSuspend(v: View, promotionDigest: Digest, reason: string, now: Time): (o: Outcome)
    ensures o.reply.Failure? ==> o.events == []
  {
    if promotionDigest !in v.policies then Refuse("Outbound policy promotion does not exist")
    else if v.policies[promotionDigest].suspended then Outcome(Success(Done), [])
    else Outcome(Success(Done), [PolicySuspended(promotionDigest, now, reason)])
  }

  function OnAuthorize(v: View, request: Request, now: Time): (o: Outcome)
    ensures o.reply.Failure? ==> o.events == []
  {
    if !IsAllowed(request.action) then Refuse("Outbound action is outside the non-configurable global authority ceiling")
    else if request.effectKey in v.effects then
      var prior := v.effects[request.effectKey];
      if prior.requestDigest != RequestHash(request) then Refuse("Outbound effect key was reused with different input")
      else if prior.status == Failed then Refuse("Outbound effect previously failed terminally")
      else Outcome(Success(Authorizes(prior.authorizationDigest)), [])
    else if request.promotionDigest !in v.policies || v.policies[request.promotionDigest].suspended then Refuse("Outbound policy is not active")
    else
      var policy := v.policies[request.promotionDigest].policy;
      if policy.expiresAt <= now then Refuse("Outbound policy is expired")
      else if request.action !in policy.actions then Refuse("Outbound action is not policy-approved")
      else if request.target !in policy.targets then Refuse("Outbound target is not policy-approved")
      else
        var digest := AuthorizationHash(RequestHash(request), request.promotionDigest, now);
        Outcome(Success(Authorizes(digest)), [EffectAuthorized(request, RequestHash(request), digest, now)])
  }

  predicate ReceiptFits(request: Request, receipt: Receipt) {
    && receipt.unsigned.adapterId == request.adapterId && receipt.unsigned.effectKey == request.effectKey
    && receipt.unsigned.action == request.action && receipt.unsigned.payloadDigest == request.payloadDigest
  }

  function OnReceipt(v: View, request: Request, receipt: Receipt, now: Time): (o: Outcome)
    ensures o.reply.Failure? ==> o.events == []
  {
    if ReceiptHash(receipt.unsigned) != receipt.receiptDigest then Refuse("Outbound receipt digest is invalid")
    else if !ReceiptFits(request, receipt) then Refuse("Outbound receipt does not match the authorized request")
    else if request.effectKey !in v.effects || v.effects[request.effectKey].requestDigest != RequestHash(request)
    then Refuse("Outbound effect was not authorized")
    else
      var prior := v.effects[request.effectKey].receipt;
      if prior.None? then Outcome(Success(Done), [ReceiptRecorded(request.effectKey, RequestHash(request), receipt, now)])
      else if prior.value.receiptDigest != receipt.receiptDigest then Refuse("Outbound receipt conflicts with prior evidence")
      else Outcome(Success(Done), [])
  }

  function OnFailure(v: View, threshold: int, request: Request, retryable: bool, reason: string, now: Time): (o: Outcome)
    ensures o.reply.Failure? ==> o.events == []
  {
    if request.effectKey !in v.effects || v.effects[request.effectKey].requestDigest != RequestHash(request)
    then Refuse("Outbound effect was not authorized")
    else
      var effect := v.effects[request.effectKey];
      if effect.receipt.Some? then Outcome(Success(Done), [])
      else
        var failed := EffectFailed(request.effectKey, RequestHash(request), retryable, reason, now);
        if (!retryable || effect.failureCount + 1 >= threshold)
           && request.promotionDigest in v.policies && !v.policies[request.promotionDigest].suspended
        then Outcome(Success(Done), [failed, PolicySuspended(request.promotionDigest, now, FailSafeReason(reason))])
        else Outcome(Success(Done), [failed])
  }

  function FailSafeReason(reason: string): string {
    var text := "Fail-safe suspension after outbound effect failure: " + reason;
    if |text| <= 2000 then text else text[..2000]
  }

  /** A call against a log; a log that does not replay makes every call throw. */
  ghost function Respond(log: seq<Event>, threshold: int, call: Call, now: Time): (o: Outcome)
    ensures o.reply.Failure? ==> o.events == []
  {
    var v := Replay(log);
    if v.Failure? then Refuse(v.error)
    else
      match call
      case Promote(policy, operator) => OnPromote(v.value, policy, operator, now)
      case Suspend(promotionDigest, reason) => OnSuspend(v.value, promotionDigest, reason, now)
      case Authorize(request) => OnAuthorize(v.value, request, now)
      case RecordReceipt(request, receipt) => OnReceipt(v.value, request, receipt, now)
      case RecordFailure(request, retryable, reason) => OnFailure(v.value, threshold, request, retryable, reason, now)
  }
}
