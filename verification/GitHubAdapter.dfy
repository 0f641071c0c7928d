/** The adapter object, step by step, on top of the authority object. */
module GitHubAdapter {
  import opened Prelude
  import opened OutboundLog
  import opened OutboundAuthority
  import opened GitHubDelivery

  class Adapter {
    const config: Config
    const authority: Authority
    var memory: map<string, Receipt>
    var creations: seq<Creation>

    ghost predicate Valid()
      reads this, authority
    {
      authority.threshold == config.threshold && Sound(config, Current())
    }

    ghost function Current(): Site
      reads this, authority
    {
      Site(authority.log, authority.closed, memory, creations)
    }

    constructor (config: Config, authority: Authority)
      requires authority.Valid() && authority.threshold == config.threshold
      ensures Valid() && memory == map[] && creations == [] && this.authority == authority && this.config == config
    {
      this.config, this.authority, memory, creations := config, authority, map[], [];
    }

    /** The catch block: record the failure, then rethrow; a throwing record replaces the error. */
    method Catch(request: Request, reason: string, o: Oracle) returns (answer: Answer)
      requires Valid()
      modifies this, authority
      ensures Valid() && (Current(), answer) == Fail(config, old(Current()), request, reason, o)
    {
      FailKeeps(config, Current(), request, reason, o);
      if o.crash == BeforeFailure {
        memory := map[];
        return None;
      }
      var r := authority.RecordEffectFailure(request, config.classify(reason), reason, o.clock.3);
      return Some(Failure(if r.Failure? then r.error else reason));
    }

    /** Write the receipt to the authority log, then remember it. */
    method Conclude(request: Request, url: string, state: Digest, requestId: Option<string>, o: Oracle) returns (answer: Answer)
      requires Valid()
      modifies this, authority
      ensures Valid() && (Current(), answer) == Settle(config, old(Current()), request, Exact(url, state), requestId, o)
    {
      SettleKeeps(config, Current(), request, Exact(url, state), requestId, o);
      var receipt := ReceiptFor(config, request, url, state, requestId, o.clock.1);
      var r := authority.RecordEffectReceipt(request, receipt, o.clock.2);
      if r.Failure? {
        assert Current() == old(Current());
        answer := Catch(request, r.error, o);
        return;
      }
      assert Current() == old(Current()).(log := authority.log);
      if o.crash == AfterReceipt {
        memory := map[];
        return None;
      }
      memory := memory[request.effectKey := receipt];
      return Some(Success(receipt));
    }

    /** Post the object, then look again. */
    method Post(request: Request, o: Oracle) returns (answer: Answer)
      requires Valid() && Sound(config, Perform(config, Current(), request, o).0)
      requires o.posted ==> Sound(config, Current().(creations := creations + [Creation(request, |authority.log|, o.url)]))
      modifies this, authority
      ensures Valid() && (Current(), answer) == Perform(config, old(Current()), request, o)
    {
      if !o.posted {
        answer := Catch(request, o.postFault, o);
        return;
      }
      creations := creations + [Creation(request, |authority.log|, o.url)];
      if o.crash == AfterPost {
        memory := map[];
        return None;
      }
      if o.lost.Some? {
        answer := Catch(request, o.lost.value, o);
        return;
      }
      if o.afterFault.Some? {
        answer := Catch(request, o.afterFault.value, o);
        return;
      }
      var seen := Observe(o.after, request.target, request.payload, request.effectKey);
      if o.crash == AfterCheck {
        memory := map[];
        return None;
      }
      if !seen.Exact? {
        answer := Catch(request, "GitHub post-effect state did not match the exact requested effect", o);
        return;
      }
      answer := Conclude(request, seen.url, seen.state, o.requestId, o);
    }

    method Deliver(request: Request, o: Oracle) returns (answer: Answer)
      requires Valid() && Visible(creations, o.before)
      modifies this, authority
      ensures Valid() && (Current(), answer) == GitHubDelivery.Deliver(config, old(Current()), request, o)
      ensures Remembers(Current(), request.effectKey, answer)
    {
      if request.effectKey in memory {
        if memory[request.effectKey].unsigned.payloadDigest != request.payloadDigest {
          return Some(Failure("GitHub effect key was reused with a different payload"));
        }
        return Some(Success(memory[request.effectKey]));
      }
      if !IsGitHub(request.action) || !IsAllowed(request.action) { return Some(Failure("GitHub action is outside the global authority ceiling")); }
      if !KindMatches(request.action, request.payload) { return Some(Failure("GitHub payload action does not match request")); }
      if PayloadHash(request.payload) != request.payloadDigest { return Some(Failure("GitHub payload digest does not match")); }
      if o.contentFault.Some? { return Some(Failure(o.contentFault.value)); }
      if o.crash == AtStart {
        memory := map[];
        return None;
      }
      if o.tokenFault.Some? {
        answer := Catch(request, o.tokenFault.value, o);
        return;
      }
      if o.beforeFault.Some? {
        answer := Catch(request, o.beforeFault.value, o);
        return;
      }
      var seen := Observe(o.before, request.target, request.payload, request.effectKey);
      if o.crash == AfterObserve {
        memory := map[];
        return None;
      }
      if seen.Conflict? {
        answer := Catch(request, "GitHub live state conflicts with the requested idempotent effect", o);
        return;
      }
      answer := AuthorizeAndAct(request, seen, o);
    }

    method AuthorizeAndAct(request: Request, seen: Observation, o: Oracle) returns (answer: Answer)
      requires Valid() && Visible(creations, o.before) && !seen.Conflict? && !request.payload.OtherPayload?
      requires seen == Observe(o.before, request.target, request.payload, request.effectKey)
      modifies this, authority
      ensures Valid() && (Current(), answer) == AuthorizeThen(config, old(Current()), request, seen, o)
    {
      AskKeeps(config, Current(), Authorize(request), o.clock.0);
      var r := authority.AuthorizeEffect(request, o.clock.0);
      assert Current() == old(Current()).(log := authority.log);
      if r.Failure? {
        answer := Catch(request, r.error, o);
        return;
      }
      if o.crash == AfterAuthorize {
        memory := map[];
        return None;
      }
      if seen.Exact? {
        answer := Conclude(request, seen.url, seen.state, o.seenRequestId, o);
      } else {
        PerformKeeps(config, Current(), request, r.value, o);
        if o.posted { CreationKeeps(config, Current(), request, r.value, o); }
        answer := Post(request, o);
      }
    }
  }
}
