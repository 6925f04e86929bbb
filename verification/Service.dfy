// The service over the in-memory store: each call reads records, changes
// fields and writes them back, and does to the ledger what Calls says.
module Service {
  import opened Wrappers
  import opened Domain
  import opened Routing
  import opened QueueModel
  import opened Calls
  import opened MemoryStore
  import opened TaskSteps
  import opened Outcomes
  import opened Text
  import Refs

  /** The ledger once these messages of the task are canceled. */
  function Canceling(s: Ledger, done: set<Ref>): Ledger {
    s.(queue := CancelRefs(s.queue, done))
  }

  /** At most one stored execution has this one's key and scope. */
  lemma OneEarlierEffect(sideEffects: map<Ref, SideEffect>, effect: SideEffect, earlier: set<Ref>)
    requires EffectsUnique(sideEffects)
    requires earlier == EffectsFor(sideEffects, effect.idempotencyKey, effect.protectedScope)
    ensures forall d, e :: d in earlier && e in earlier ==> d == e
    ensures earlier != {} <==> exists r :: r in sideEffects && SameEffect(sideEffects[r], effect)
  {
    if r :| r in sideEffects && SameEffect(sideEffects[r], effect) { assert r in earlier; }
  }

  /** The outcome of posting the rest, with the refs posted before it. */
  function Prepended(refs: seq<Ref>, rest: PostTurn): PostTurn {
    rest.(reply := if rest.reply.Ok? then Ok(refs + rest.reply.value) else rest.reply)
  }

  /** Posting from the i-th follow-up on, given what the i-th did. */
  lemma PostOneMore(s: Ledger, posts: seq<IngressRequest>, i: nat, turn: Turn, refs: seq<Ref>)
    requires i < |posts| && turn == Ingress(s, posts[i])
    ensures turn.reply.Refused? ==>
      Prepended(refs, PostAll(s, posts[i..])) == PostTurn(turn.ledger, Err(turn.reply.error))
    ensures turn.reply.Posted? ==>
      Prepended(refs, PostAll(s, posts[i..]))
      == Prepended(refs + [turn.reply.messageRef], PostAll(turn.ledger, posts[i + 1..]))
  {
    assert posts[i..][0] == posts[i] && posts[i..][1..] == posts[i + 1..];
    var rest := PostAll(turn.ledger, posts[i + 1..]).reply;
    if turn.reply.Posted? && rest.Ok? {
      assert refs + ([turn.reply.messageRef] + rest.value) == (refs + [turn.reply.messageRef]) + rest.value;
    }
  }

  lemma PrependNothing(all: PostTurn)
    ensures Prepended([], all) == all
  {
    if all.reply.Ok? { assert [] + all.reply.value == all.reply.value; }
  }

  lemma PostNone(s: Ledger, posts: seq<IngressRequest>, refs: seq<Ref>)
    ensures Prepended(refs, PostAll(s, posts[|posts|..])) == PostTurn(s, Ok(refs))
  {
    assert refs + [] == refs;
  }

  class Service {
    const settings: Settings
    const store: Store

    ghost predicate Valid()
      reads store
    {
      ValidSettings(settings) && store.Valid() && EffectsUnique(store.sideEffects)
    }

    constructor (settings: Settings, store: Store)
      requires ValidSettings(settings) && store.Valid() && EffectsUnique(store.sideEffects)
      ensures Valid() && this.settings == settings && this.store == store
    {
      this.settings := settings;
      this.store := store;
    }

    // Endpoints

    method RegisterEndpoint(now: Time, req: RegistrationRequest) returns (reply: Reply)
      requires Valid()
      modifies store
      ensures Valid() && Turn(store.Contents(), reply) == Register(settings, old(store.Contents()), now, req)
    {
      if !ValidRegistration(req) { return Refused(InvalidInput); }
      var existing := store.GetEndpoint(req.endpointRef);
      if existing.Some? && existing.value.connectionState == Online && !IsStale(settings, existing.value, now) {
        return Refused(EndpointAlreadyOnline);
      }
      var names := set c | c in req.capabilities;
      store.SaveEndpoint(Endpoint(req.endpointRef, req.actorId, req.connectionState, names, now));
      var accepted := store.AllocateRef(Refs.Kind.Accepted);
      return Registered(req.endpointRef, accepted);
    }

    method HeartbeatEndpoint(now: Time, endpointRef: Ref, state: ConnectionState) returns (reply: Reply)
      requires Valid()
      modifies store
      ensures Valid() && Turn(store.Contents(), reply) == Heartbeat(settings, old(store.Contents()), now, endpointRef, state)
    {
      if endpointRef == "" || state == Unset { return Refused(InvalidInput); }
      var endpoint := store.GetEndpoint(endpointRef);
      if endpoint.None? { return Refused(EndpointNotFound); }
      store.SaveEndpoint(endpoint.value.(connectionState := state, lastHeartbeatAt := now));
      return Beat(now + settings.heartbeatTimeout);
    }

    method AdvertiseCapabilities(endpointRef: Ref, capabilities: seq<string>) returns (reply: Reply)
      requires Valid()
      modifies store
      ensures Valid() && Turn(store.Contents(), reply) == Advertise(old(store.Contents()), endpointRef, capabilities)
    {
      if !ValidCapabilities(capabilities) { return Refused(InvalidInput); }
      var endpoint := store.GetEndpoint(endpointRef);
      if endpoint.None? { return Refused(EndpointNotFound); }
      var names := set c | c in capabilities;
      store.SaveEndpoint(endpoint.value.(capabilities := names));
      return Advertised(names);
    }

    // Ingress

    method IngressMessage(req: IngressRequest) returns (reply: Reply)
      requires Valid()
      modifies store
      ensures Valid() && Turn(store.Contents(), reply) == Ingress(old(store.Contents()), req)
      ensures reply.Refused? || reply.Posted?
    {
      if !ValidIngress(req) { return Refused(InvalidInput); }
      var routed := IngressRouteAvailable(req);
      if !routed { return Refused(CapabilityNotFound); }
      var message := DraftMessage(req);
      if !req.qualityAccepted { return Refused(QualityRejected); }
      var error := store.SaveMessage(message);
      if error.Some? { return Refused(error.value); }
      return Posted(message.messageRef, message.deliveryRef);
    }

    /** The refs of a new message and of its quality decision are drawn before the verdict. */
    method DraftMessage(req: IngressRequest) returns (message: Message)
      requires Valid()
      modifies store
      ensures Valid() && message == NewMessage(old(store.Processing()), req)
      ensures store.Contents() == old(store.Contents()).(queue := IngressCounted(old(store.Processing()), req))
    {
      var messageRef := req.messageRef;
      if messageRef == "" { messageRef := store.AllocateRef(Refs.Kind.Message); }
      var deliveryRef := store.AllocateRef(Refs.Kind.Delivery);
      message := Message(messageRef, deliveryRef, req.senderEndpointRef, req.targetCapability, req.targetEndpointRef,
                         req.preferredEndpointRef, req.dependsOn, req.payload, req.correlationRef,
                         req.readbackRequired, MessageState.Available, "", 0);
      var _ := store.AllocateRef(Refs.Kind.QualityDecision);
    }

    method IngressRouteAvailable(req: IngressRequest) returns (available: bool)
      ensures available == RouteAvailable(store.Contents(), req)
    {
      if req.targetEndpointRef != "" {
        var endpoint := store.GetEndpoint(req.targetEndpointRef);
        if endpoint.None? { return false; }
        available := CapabilityMatches(endpoint.value.capabilities, req.targetCapability);
        return;
      }
      var todo := store.endpoints.Keys;
      while todo != {}
        invariant todo <= store.endpoints.Keys
        invariant forall r :: r in store.endpoints && r !in todo ==>
          !CanHandle(store.endpoints[r].capabilities, req.targetCapability)
        decreases todo
      {
        var r :| r in todo;
        todo := todo - {r};
        var matches := CapabilityMatches(store.endpoints[r].capabilities, req.targetCapability);
        if matches { return true; }
      }
      return false;
    }

    // Claims

    method ClaimMessage(now: Time, messageRef: Ref, endpointRef: Ref) returns (reply: Reply)
      requires Valid()
      modifies store
      ensures Valid() && Turn(store.Contents(), reply)
                         == Calls.ClaimMessage(settings, old(store.Contents()), now, messageRef, endpointRef)
    {
      var refusal := CheckClaim(now, messageRef, endpointRef);
      if refusal.Some? { return Refused(refusal.value); }
      var result := DrawAndClaim(now, messageRef, store.endpoints[endpointRef]);
      reply := if result.Ok? then Granted(result.value) else Refused(result.error);
    }

    method CheckClaim(now: Time, messageRef: Ref, endpointRef: Ref) returns (refusal: Option<Error>)
      ensures refusal == ClaimRefusal(settings, store.Contents(), now, messageRef, endpointRef)
    {
      var endpoint := store.GetEndpoint(endpointRef);
      if endpoint.None? { return Some(EndpointNotFound); }
      var message := store.GetMessage(messageRef);
      if message.None? { return Some(MessageNotFound); }
      var preferredOnline := PreferredEndpointOnline(now, message.value);
      if !Claimable(message.value, endpoint.value, preferredOnline) { return Some(CapabilityNotFound); }
      var states := map r | r in message.value.dependsOn && r in store.messages :: store.messages[r].state;
      assert states == DependencyStates(store.Processing(), message.value);
      var ready := MessageDependenciesCompleted(message.value, states);
      if !ready { return Some(MessageUnavailable); }
      if IsStale(settings, endpoint.value, now) { return Some(EndpointStale); }
      return None;
    }

    method DrawAndClaim(now: Time, messageRef: Ref, endpoint: Endpoint) returns (result: Result<ClaimResult>)
      requires Valid()
      modifies store
      ensures Valid()
      ensures var q := old(store.Processing());
              var turn := Claim(ClaimCounted(q), ServiceClaim(settings, q, now, messageRef, endpoint));
              result == turn.reply && store.Contents() == old(store.Contents()).(queue := turn.queue)
    {
      var attemptRef := store.AllocateRef(Refs.Kind.Attempt);
      var deadLetterRef := store.AllocateRef(Refs.Kind.DeadLetter);
      var request := ClaimRequest(messageRef, endpoint, attemptRef, deadLetterRef,
                                  now + settings.leaseDuration, now, settings.maxRedelivery);
      assert request == ServiceClaim(settings, old(store.Processing()), now, messageRef, endpoint);
      result := store.ClaimMessage(request);
    }

    method PreferredEndpointOnline(now: Time, message: Message) returns (online: bool)
      ensures online == PreferredStillOnline(settings, store.Contents(), now, message)
    {
      if message.preferredEndpointRef == "" { return false; }
      var endpoint := store.GetEndpoint(message.preferredEndpointRef);
      if endpoint.None? || IsStale(settings, endpoint.value, now) { return false; }
      online := CapabilityMatches(endpoint.value.capabilities, message.targetCapability);
    }

    method ClaimNextMessage(now: Time, endpointRef: Ref) returns (reply: Reply)
      requires Valid()
      modifies store
      ensures Valid() && Turn(store.Contents(), reply)
                         == Calls.ClaimNextMessage(settings, old(store.Contents()), now, endpointRef)
    {
      var endpoint := store.GetEndpoint(endpointRef);
      if endpoint.None? { return Refused(EndpointNotFound); }
      if endpoint.value.capabilities == {} { return Refused(CapabilityNotFound); }
      if IsStale(settings, endpoint.value, now) { return Refused(EndpointStale); }
      var result := SweepAndPoll(now, endpoint.value);
      reply := if result.Some? then Granted(result.value) else NothingToClaim;
    }

    method SweepAndPoll(now: Time, endpoint: Endpoint) returns (result: Option<ClaimResult>)
      requires Valid()
      modifies store
      ensures Valid()
      ensures var s := old(store.Contents());
              var turn := ClaimNext(Reconcile(s.queue, now), PollRequest(settings, s, now, endpoint));
              result == turn.reply && store.Contents() == s.(queue := turn.queue)
    {
      ghost var swept := Reconcile(store.Processing(), now);
      var _ := store.ReconcileExpiredClaims(now);
      result := PollSwept(now, endpoint, swept);
    }

    method PollSwept(now: Time, endpoint: Endpoint, ghost swept: Queue) returns (result: Option<ClaimResult>)
      requires Valid() && store.Processing() == swept
      modifies store
      ensures Valid()
      ensures var s := old(store.Contents());
              var turn := ClaimNext(swept, PollRequest(settings, s, now, endpoint));
              result == turn.reply && store.Contents() == s.(queue := turn.queue)
    {
      var request := NewPollRequest(now, endpoint);
      result := PollStore(request);
    }

    method NewPollRequest(now: Time, endpoint: Endpoint) returns (request: ClaimNextRequest)
      ensures request == PollRequest(settings, store.Contents(), now, endpoint)
    {
      var online := SnapshotOnline(now);
      request := ClaimNextRequest(endpoint, "", "", now + settings.leaseDuration, now, settings.maxRedelivery, online);
    }

    method SnapshotOnline(now: Time) returns (online: map<Ref, Endpoint>)
      ensures online == OnlineEndpoints(settings, store.Contents(), now)
    {
      online := map r | r in store.endpoints && !IsStale(settings, store.endpoints[r], now) :: store.endpoints[r];
    }

    method PollStore(request: ClaimNextRequest) returns (result: Option<ClaimResult>)
      requires Valid()
      modifies store
      ensures Valid()
      ensures var turn := ClaimNext(old(store.Processing()), request);
              result == turn.reply && store.Contents() == old(store.Contents()).(queue := turn.queue)
    {
      result := store.ClaimNextMessage(request);
    }

    // Attempts

    method SubmitCheckpoint(now: Time, attemptRef: Ref, req: CheckpointRequest) returns (reply: Reply)
      requires Valid()
      modifies store
      ensures Valid() && Turn(store.Contents(), reply) == Calls.SubmitCheckpoint(old(store.Contents()), now, attemptRef, req)
      ensures reply.Refused? || reply.Checkpointed?
    {
      if !ValidCheckpoint(req) { return Refused(InvalidInput); }
      var refusal := RequireLiveAttempt(now, attemptRef, req.endpointRef);
      if refusal.Some? { return Refused(refusal.value); }
      var attempt := store.attempts[attemptRef];
      var known := ValidateArtifactRefs(attempt, req.artifactRefs);
      if !known { return Refused(ArtifactNotFound); }
      var saved := RecordCheckpoint(attempt, req);
      if attempt.messageRef !in store.messages { return Refused(MessageNotFound); }
      var message := store.messages[attempt.messageRef];
      var _ := store.UpdateMessage(message.(state := StateAfterCheckpoint(message.state, req.state)));
      return Checkpointed(saved);
    }

    method RecordCheckpoint(attempt: Attempt, req: CheckpointRequest) returns (saved: Checkpoint)
      requires Valid() && attempt.attemptRef in store.attempts
      modifies store
      ensures Valid() && saved == NewCheckpoint(old(store.Processing()), attempt, req)
      ensures store.Contents() == old(store.Contents()).(queue := WithCheckpoint(old(store.Processing()), attempt, req))
    {
      var checkpointRef := store.AllocateRef(Refs.Kind.Checkpoint);
      saved := store.SaveCheckpoint(
        Checkpoint(checkpointRef, attempt.attemptRef, req.endpointRef, req.state, req.summary, 0, req.artifactRefs));
      var _ := store.UpdateAttempt(attempt.(state := req.state, revision := saved.revision));
    }

    method RequireLiveAttempt(now: Time, attemptRef: Ref, endpointRef: Ref) returns (refusal: Option<Error>)
      ensures refusal == LiveRefusal(store.Processing(), now, attemptRef, endpointRef)
    {
      var attempt := store.GetAttempt(attemptRef);
      if attempt.None? { return Some(AttemptNotFound); }
      if attempt.value.endpointRef != endpointRef || AttemptClosed(attempt.value.state) { return Some(StaleAttempt); }
      if LeasePast(attempt.value, now) { return Some(LeaseExpired); }
      return None;
    }

    method ValidateArtifactRefs(attempt: Attempt, refs: seq<Ref>) returns (valid: bool)
      ensures valid == ArtifactsOfMessage(store.artifacts, refs, attempt.messageRef)
    {
      for i := 0 to |refs|
        invariant ArtifactsOfMessage(store.artifacts, refs[..i], attempt.messageRef)
      {
        var version := store.GetArtifactVersion(refs[i]);
        if version.None? || version.value.messageRef != attempt.messageRef { return false; }
        assert refs[..i + 1] == refs[..i] + [refs[i]];
      }
      assert refs[..|refs|] == refs;
      return true;
    }

    method RefreshLease(now: Time, attemptRef: Ref, endpointRef: Ref) returns (reply: Reply)
      requires Valid()
      modifies store
      ensures Valid() && Turn(store.Contents(), reply)
                         == Calls.RefreshLease(settings, old(store.Contents()), now, attemptRef, endpointRef)
    {
      var attempt := store.GetAttempt(attemptRef);
      if attempt.None? { return Refused(AttemptNotFound); }
      if endpointRef == "" || attempt.value.endpointRef != endpointRef || AttemptClosed(attempt.value.state) {
        return Refused(StaleAttempt);
      }
      if LeasePast(attempt.value, now) { return Refused(LeaseExpired); }
      var refreshed := attempt.value.(leaseExpiresAt := now + settings.leaseDuration);
      var _ := store.UpdateAttempt(refreshed);
      return Leased(refreshed);
    }

    method CompleteAttempt(now: Time, attemptRef: Ref, req: CompletionRequest) returns (reply: Reply)
      requires Valid()
      modifies store
      ensures Valid() && Turn(store.Contents(), reply) == Calls.CompleteAttempt(old(store.Contents()), now, attemptRef, req)
    {
      if req.endpointRef == "" || req.summary == "" { return Refused(InvalidInput); }
      if attemptRef !in store.attempts { return Refused(AttemptNotFound); }
      if store.attempts[attemptRef].endpointRef != req.endpointRef { return Refused(StaleAttempt); }
      if AttemptClosed(store.attempts[attemptRef].state) { return Refused(StaleAttempt); }
      reply := SubmitCheckpoint(now, attemptRef, CompletionCheckpoint(req));
      if reply.Refused? { return; }
      var message := CloseReported(attemptRef);
      var posted := CreateFollowUps(FollowUps(req.followUps, req.endpointRef, message));
      reply := if posted.Ok? then Finished(attemptRef, posted.value) else Refused(posted.error);
    }

    /** The records that the final checkpoint completed are written once more, to the same effect. */
    method CloseReported(attemptRef: Ref) returns (message: Message)
      requires Valid() && attemptRef in store.attempts && store.attempts[attemptRef].state == AttemptState.Completed
      requires var r := store.attempts[attemptRef].messageRef;
               r in store.messages && store.messages[r].state == MessageState.Completed
      modifies store
      ensures Valid() && store.Contents() == old(store.Contents())
      ensures message == store.messages[store.attempts[attemptRef].messageRef]
    {
      var attempt := store.attempts[attemptRef];
      message := store.messages[attempt.messageRef];
      var _ := store.UpdateAttempt(attempt.(state := AttemptState.Completed));
      var _ := store.UpdateMessage(message.(state := MessageState.Completed));
    }

    method CreateFollowUps(posts: seq<IngressRequest>) returns (reply: Result<seq<Ref>>)
      requires Valid()
      modifies store
      ensures Valid() && PostTurn(store.Contents(), reply) == PostAll(old(store.Contents()), posts)
    {
      var refs: seq<Ref> := [];
      ghost var all := PostAll(store.Contents(), posts);
      assert posts[0..] == posts;
      PrependNothing(all);
      for i := 0 to |posts|
        invariant Valid()
        invariant all == Prepended(refs, PostAll(store.Contents(), posts[i..]))
      {
        var posted := PostNext(posts, i, refs);
        if posted.Err? { return Err(posted.error); }
        refs := refs + [posted.value];
      }
      PostNone(store.Contents(), posts, refs);
      return Ok(refs);
    }

    /** The body of the follow-up loop. */
    method PostNext(posts: seq<IngressRequest>, i: nat, ghost refs: seq<Ref>) returns (posted: Result<Ref>)
      requires Valid() && i < |posts|
      modifies store
      ensures Valid()
      ensures Prepended(refs, PostAll(old(store.Contents()), posts[i..]))
              == match posted
                 case Ok(ref) => Prepended(refs + [ref], PostAll(store.Contents(), posts[i + 1..]))
                 case Err(error) => PostTurn(store.Contents(), Err(error))
    {
      ghost var before := store.Contents();
      var reply := IngressMessage(posts[i]);
      PostOneMore(before, posts, i, Turn(store.Contents(), reply), refs);
      posted := if reply.Refused? then Err(reply.error) else Ok(reply.messageRef);
    }

    // Task commands

    method CancelTask(taskRef: Ref) returns (reply: Reply)
      requires Valid()
      modifies store
      ensures Valid() && Turn(store.Contents(), reply) == Calls.CancelTask(old(store.Contents()), taskRef)
    {
      if taskRef == "" { return Refused(InvalidInput); }
      var snapshot := store.messages;
      var refs := MessagesForTask(taskRef);
      if refs == [] { return Refused(MessageNotFound); }
      assert refs[0] in Elements(refs);
      ghost var canceled := Cancelable(store.Processing(), taskRef);
      reply := CancelAll(canceled, refs, snapshot);
    }

    method CancelAll(ghost chosen: set<Ref>, refs: seq<Ref>, snapshot: map<Ref, Message>) returns (reply: Reply)
      requires Valid() && snapshot == store.messages
      requires Sorted(refs) && chosen <= Elements(refs) <= snapshot.Keys
      requires forall r :: r in Elements(refs) ==> (r in chosen <==> CancelableState(snapshot[r].state))
      modifies store
      ensures Valid()
      ensures store.Contents() == old(store.Contents()).(queue := CancelRefs(old(store.Processing()), chosen))
      ensures var open := OpenAttempts(old(store.Processing()), chosen);
              reply == TaskChanged(chosen, open, |chosen|, |open|)
    {
      hide CancelRefs, OpenAttempts;
      ghost var before, was := store.Contents(), store.Processing();
      var messageRefs, attemptRefs: set<Ref>, affectedMessages, affectedAttempts := {}, {}, 0, 0;
      CancelNothing(was);
      AllChosen(refs, chosen);
      for i := 0 to |refs|
        invariant Valid() && messageRefs == ChosenBefore(refs, chosen, i)
        invariant store.Contents() == Canceling(before, messageRefs)
        invariant attemptRefs == OpenAttempts(was, messageRefs)
        invariant affectedMessages == |messageRefs| && affectedAttempts == |attemptRefs|
      {
        NextChosen(refs, chosen, i);
        var affected, canceled := CancelPass(snapshot[refs[i]], before, messageRefs);
        if affected { messageRefs, affectedMessages := messageRefs + {refs[i]}, affectedMessages + 1; }
        if canceled {
          attemptRefs, affectedAttempts := attemptRefs + {snapshot[refs[i]].attemptRef}, affectedAttempts + 1;
        }
      }
      return TaskChanged(messageRefs, attemptRefs, affectedMessages, affectedAttempts);
    }

    method MessagesForTask(taskRef: Ref) returns (refs: seq<Ref>)
      ensures Sorted(refs) && Elements(refs) == TaskRefs(store.Processing(), taskRef)
    {
      refs := Sort(set r | r in store.messages && store.messages[r].correlationRef == taskRef);
    }

    /** The body of the cancellation loop. */
    method CancelPass(message: Message, ghost before: Ledger, ghost done: set<Ref>)
      returns (affected: bool, canceled: bool)
      requires Valid() && Keyed(before.queue) && store.Contents() == Canceling(before, done)
      requires message.messageRef in before.queue.messages
               && before.queue.messages[message.messageRef] == message && message.messageRef !in done
      modifies store
      ensures Valid() && affected == CancelableState(message.state)
      ensures var done' := if affected then done + {message.messageRef} else done;
              && store.Contents() == Canceling(before, done')
              && OpenAttempts(before.queue, done')
                 == OpenAttempts(before.queue, done) + (if canceled then {message.attemptRef} else {})
      ensures canceled ==> message.attemptRef !in OpenAttempts(before.queue, done)
    {
      hide CancelRefs, OpenAttempts;
      if message.state == MessageState.Completed || message.state == MessageState.Canceled { return false, false; }
      CancelKeeps(before.queue, done, message.messageRef);
      CancelOneMore(before.queue, done, message.messageRef);
      OpenOneMore(before.queue, done, message.messageRef);
      var _ := store.UpdateMessage(message.(state := MessageState.Canceled));
      canceled := CancelOpenAttempt(message.attemptRef);
      affected := true;
    }

    method CancelOpenAttempt(attemptRef: Ref) returns (canceled: bool)
      requires Valid()
      modifies store
      ensures Valid() && canceled == OpenIn(old(store.Processing()), attemptRef)
      ensures var q := old(store.Processing());
              store.Contents() == if canceled then old(store.Contents()).(queue :=
                                    PutAttempt(q, q.attempts[attemptRef].(state := AttemptState.Canceled)))
                                  else old(store.Contents())
    {
      if attemptRef == "" { return false; }
      var attempt := store.GetAttempt(attemptRef);
      if attempt.None? || AttemptClosed(attempt.value.state) { return false; }
      var _ := store.UpdateAttempt(attempt.value.(state := AttemptState.Canceled));
      return true;
    }

    method RetryTask(taskRef: Ref) returns (reply: Reply)
      requires Valid()
      modifies store
      ensures Valid() && Turn(store.Contents(), reply) == Calls.RetryTask(old(store.Contents()), taskRef)
    {
      if taskRef == "" { return Refused(InvalidInput); }
      var snapshot := store.messages;
      var refs := MessagesForTask(taskRef);
      if refs == [] { return Refused(MessageNotFound); }
      assert refs[0] in Elements(refs);
      ghost var retried := Retryable(store.Processing(), taskRef);
      reply := RetryAll(retried, refs, snapshot);
    }

    method RetryAll(ghost chosen: set<Ref>, refs: seq<Ref>, snapshot: map<Ref, Message>) returns (reply: Reply)
      requires Valid() && snapshot == store.messages
      requires Sorted(refs) && chosen <= Elements(refs) <= snapshot.Keys
      requires forall r :: r in Elements(refs) ==> (r in chosen <==> RetryableState(snapshot[r].state))
      modifies store
      ensures Valid()
      ensures store.Contents() == old(store.Contents()).(queue := RetryRefs(old(store.Processing()), chosen))
      ensures reply == TaskChanged(chosen, {}, |chosen|, 0)
    {
      hide RetryRefs;
      ghost var was := store.Processing();
      var messageRefs: set<Ref>, affectedMessages := {}, 0;
      CancelNothing(was);
      AllChosen(refs, chosen);
      for i := 0 to |refs|
        invariant Valid() && messageRefs == ChosenBefore(refs, chosen, i)
        invariant store.Contents() == old(store.Contents()).(queue := RetryRefs(was, messageRefs))
        invariant affectedMessages == |messageRefs|
      {
        NextChosen(refs, chosen, i);
        var affected := RetryPass(snapshot[refs[i]], was, messageRefs);
        if affected { messageRefs, affectedMessages := messageRefs + {refs[i]}, affectedMessages + 1; }
      }
      return TaskChanged(messageRefs, {}, affectedMessages, 0);
    }

    /** The body of the retry loop. */
    method RetryPass(message: Message, ghost was: Queue, ghost done: set<Ref>) returns (affected: bool)
      requires Valid() && Keyed(was) && store.Processing() == RetryRefs(was, done)
      requires message.messageRef in was.messages && was.messages[message.messageRef] == message
      modifies store
      ensures Valid() && affected == RetryableState(message.state)
      ensures store.Contents() == old(store.Contents()).(queue :=
                RetryRefs(was, if affected then done + {message.messageRef} else done))
    {
      if message.state != MessageState.Failed && message.state != MessageState.DeadLettered
         && message.state != MessageState.InputRequired && message.state != MessageState.Canceled { return false; }
      RetryOneMore(was, done, message.messageRef);
      var _ := store.UpdateMessage(message.(state := MessageState.Available, attemptRef := ""));
      return true;
    }

    method ReplayDeadLetter(deadLetterRef: Ref, qualityAccepted: bool) returns (reply: Reply)
      requires Valid()
      modifies store
      ensures Valid() && Turn(store.Contents(), reply)
                         == Calls.ReplayDeadLetter(old(store.Contents()), deadLetterRef, qualityAccepted)
    {
      if deadLetterRef == "" { return Refused(InvalidInput); }
      var letter := FindDeadLetter(deadLetterRef);
      if letter.None? { return Refused(MessageNotFound); }
      var original := store.GetMessage(letter.value.messageRef);
      if original.None? { return Refused(MessageNotFound); }
      reply := IngressMessage(ReplayRequest(original.value, qualityAccepted));
    }

    method FindDeadLetter(deadLetterRef: Ref) returns (letter: Option<DeadLetter>)
      requires Valid()
      ensures letter == if deadLetterRef in store.deadLetters then Some(store.deadLetters[deadLetterRef]) else None
    {
      var todo := store.deadLetters.Keys;
      while todo != {}
        invariant todo <= store.deadLetters.Keys && (deadLetterRef in store.deadLetters ==> deadLetterRef in todo)
        decreases todo
      {
        var d :| d in todo;
        todo := todo - {d};
        if store.deadLetters[d].deadLetterRef == deadLetterRef { return Some(store.deadLetters[d]); }
      }
      return None;
    }

    method ReconcileExpiredClaims(now: Time) returns (reply: Reply)
      requires Valid()
      modifies store
      ensures Valid() && Turn(store.Contents(), reply) == Calls.ReconcileExpiredClaims(old(store.Contents()), now)
    {
      var count := store.ReconcileExpiredClaims(now);
      return Reconciled(count);
    }

    // Artifacts, approvals and side effects

    method RegisterArtifactVersion(now: Time, attemptRef: Ref, req: ArtifactRequest) returns (reply: Reply)
      requires Valid()
      modifies store
      ensures Valid() && Turn(store.Contents(), reply)
                         == Calls.RegisterArtifactVersion(old(store.Contents()), now, attemptRef, req)
    {
      if !req.complete || req.endpointRef == "" || req.artifactVersionRef == "" { return Refused(InvalidInput); }
      var refusal := RequireLiveAttempt(now, attemptRef, req.endpointRef);
      if refusal.Some? { return Refused(refusal.value); }
      var attempt := store.attempts[attemptRef];
      var endpoint := store.GetEndpoint(req.endpointRef);
      if endpoint.None? { return Refused(EndpointNotFound); }
      if attempt.messageRef !in store.messages { return Refused(MessageNotFound); }
      for i := 0 to |req.basedOn|
        invariant forall j :: 0 <= j < i ==> req.basedOn[j] in store.artifacts
      {
        if req.basedOn[i] !in store.artifacts { return Refused(ArtifactNotFound); }
      }
      var version := ArtifactVersion(req.artifactVersionRef, req.basedOn, endpoint.value.endpointRef,
                                     attempt.messageRef, attempt.attemptRef, now);
      var error := store.SaveArtifactVersion(version);
      if error.Some? { return Refused(error.value); }
      return ArtifactRegistered(version);
    }

    method RecordApprovalDecision(attemptRef: Ref, req: ApprovalRequest) returns (reply: Reply)
      requires Valid()
      modifies store
      ensures Valid() && Turn(store.Contents(), reply)
                         == Calls.RecordApprovalDecision(old(store.Contents()), attemptRef, req)
    {
      if !req.complete || req.approvalRef == "" || req.requestedByActorId == "" || req.approvalHash == "" {
        return Refused(InvalidInput);
      }
      if req.status != Pending && req.decidedByActorId == "" { return Refused(InvalidInput); }
      if req.status != Pending && req.decidedByActorId == req.requestedByActorId { return Refused(SelfApproval); }
      var attempt := store.GetAttempt(attemptRef);
      if attempt.None? { return Refused(AttemptNotFound); }
      if req.expiresAt.None? { return Refused(InvalidInput); }
      var decision := ApprovalDecision(req.approvalRef, attempt.value.attemptRef, attempt.value.messageRef,
                                       req.requestedByActorId, req.approvalHash, req.status, req.decidedByActorId,
                                       req.expiresAt.value);
      var error := store.SaveApprovalDecision(decision);
      if error.Some? { return Refused(error.value); }
      return DecisionRecorded(decision);
    }

    method StartSideEffect(now: Time, attemptRef: Ref, req: EffectRequest) returns (reply: Reply)
      requires Valid()
      modifies store
      ensures Valid() && Turn(store.Contents(), reply)
                         == Calls.StartSideEffect(old(store.Contents()), now, attemptRef, req)
    {
      if !ValidEffect(req) { return Refused(InvalidInput); }
      var refusal := RequireLiveAttempt(now, attemptRef, req.endpointRef);
      if refusal.Some? { return Refused(refusal.value); }
      var attempt := store.attempts[attemptRef];
      var endpoint := store.GetEndpoint(req.endpointRef);
      if endpoint.None? { return Refused(EndpointNotFound); }
      var approval := RequireApprovedDecision(now, attempt, req);
      if approval.Err? { return Refused(approval.error); }
      var execution := DraftEffect(attempt, endpoint.value, approval.value, req);
      reply := SaveEffect(execution);
    }

    method SaveEffect(execution: SideEffect) returns (reply: Reply)
      requires Valid()
      modifies store
      ensures Valid() && Turn(store.Contents(), reply) == FileEffect(old(store.Contents()), execution)
    {
      ghost var earlier := EffectsFor(store.sideEffects, execution.idempotencyKey, execution.protectedScope);
      OneEarlierEffect(store.sideEffects, execution, earlier);
      var saved, deduped := store.SaveSideEffectExecution(execution);
      assert deduped <==> earlier != {};
      reply := if saved.Ok? then EffectStarted(saved.value, deduped) else Refused(saved.error);
    }

    method DraftEffect(attempt: Attempt, endpoint: Endpoint, approval: ApprovalDecision, req: EffectRequest)
      returns (execution: SideEffect)
      requires Valid() && endpoint.endpointRef == req.endpointRef && approval.approvalRef == req.approvalRef
      modifies store
      ensures Valid() && execution == NewEffect(old(store.Contents()), attempt, req)
      ensures store.Contents() == old(store.Contents()).(queue := Bump(old(store.Processing()), Refs.Kind.SideEffect))
    {
      var executionRef := store.AllocateRef(Refs.Kind.SideEffect);
      execution := SideEffect(executionRef, req.idempotencyKey, req.protectedScope, approval.approvalRef,
                              req.approvalHash, attempt.messageRef, attempt.attemptRef, req.requestedByActorId,
                              endpoint.endpointRef, Executing, "");
    }

    method RequireApprovedDecision(now: Time, attempt: Attempt, req: EffectRequest) returns (approval: Result<ApprovalDecision>)
      ensures approval == var refusal := DecisionRefusal(store.Contents(), now, attempt.attemptRef, req);
                          if refusal.Some? then Err(refusal.value) else Ok(store.approvals[req.approvalRef])
    {
      var decision := store.GetApprovalDecision(req.approvalRef);
      if decision.None? { return Err(ApprovalRequired); }
      if decision.value.attemptRef != attempt.attemptRef { return Err(ApprovalNotFound); }
      if decision.value.status != Approved { return Err(ApprovalRejected); }
      if decision.value.expiresAt != 0 && !(now < decision.value.expiresAt) { return Err(ApprovalExpired); }
      if decision.value.approvalHash != req.approvalHash { return Err(ApprovalHashMismatch); }
      return Ok(decision.value);
    }

    method CompleteSideEffect(now: Time, executionRef: Ref, req: EffectCompletion) returns (reply: Reply)
      requires Valid()
      modifies store
      ensures Valid() && Turn(store.Contents(), reply)
                         == Calls.CompleteSideEffect(old(store.Contents()), now, executionRef, req)
    {
      if !ValidEffectCompletion(req) { return Refused(InvalidInput); }
      var execution := store.GetSideEffectExecution(executionRef);
      if execution.None? { return Refused(SideEffectNotFound); }
      if execution.value.executedByEndpointRef != req.endpointRef || execution.value.status != Executing {
        return Refused(SideEffectConflict);
      }
      var refusal := RequireLiveAttempt(now, execution.value.attemptRef, req.endpointRef);
      if refusal.Some? { return Refused(refusal.value); }
      var completed := execution.value.(status := req.status, resultRef := req.resultRef);
      var _ := store.UpdateSideEffectExecution(completed);
      return EffectCompleted(completed);
    }
  }

  /** The chosen refs among the first i of a sorted list. */
  function ChosenBefore(refs: seq<Ref>, chosen: set<Ref>, i: nat): set<Ref>
    requires i <= |refs|
  {
    set r | r in chosen && r in refs[..i]
  }

  /** One pass meets a ref not met before. */
  lemma NextChosen(refs: seq<Ref>, chosen: set<Ref>, i: nat)
    requires Sorted(refs) && i < |refs|
    ensures refs[i] in Elements(refs) && refs[i] !in ChosenBefore(refs, chosen, i)
    ensures ChosenBefore(refs, chosen, i + 1)
            == ChosenBefore(refs, chosen, i) + (if refs[i] in chosen then {refs[i]} else {})
  {
    assert refs[..i + 1] == refs[..i] + [refs[i]];
    forall j | 0 <= j < i ensures refs[j] != refs[i] { LessIrreflexive(refs[i]); }
  }

  lemma AllChosen(refs: seq<Ref>, chosen: set<Ref>)
    requires chosen <= Elements(refs)
    ensures ChosenBefore(refs, chosen, 0) == {} && ChosenBefore(refs, chosen, |refs|) == chosen
  {
    assert refs[..|refs|] == refs;
    assert forall r :: r in chosen ==> r in Elements(refs);
  }
}
