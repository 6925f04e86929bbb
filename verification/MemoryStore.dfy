// The in-memory store: map fields updated in place, each method against the
// function of QueueModel that says what it does to the whole ledger.
module MemoryStore {
  import opened Wrappers
  import opened Domain
  import opened Routing
  import opened QueueModel
  import opened Text
  import Refs

  /** One message offered for takeover, its current attempt orphaned. */
  function RequeueOne(q: Queue, r: Ref): Queue
    requires r in q.messages && q.messages[r].attemptRef in q.attempts
  {
    PutMessage(Orphan(q, q.attempts[q.messages[r].attemptRef]),
               q.messages[r].(state := MessageState.TakeoverCandidate))
  }

  /** Requeueing one more message is one pass of the reconcile loop. */
  lemma RequeueOneMore(q: Queue, refs: set<Ref>, r: Ref)
    requires Keyed(q) && r in q.messages && r !in refs && q.messages[r].attemptRef in q.attempts
    ensures Requeue(q, refs + {r}) == RequeueOne(Requeue(q, refs), r)
  {
    assert CurrentAttempts(q, refs + {r}) == CurrentAttempts(q, refs) + {q.messages[r].attemptRef};
  }

  lemma RequeueKeyed(q: Queue, refs: set<Ref>)
    requires Keyed(q)
    ensures Keyed(Requeue(q, refs))
  {
  }

  /** A message not yet requeued is judged as it was at the start of the pass. */
  lemma RequeueKeeps(q: Queue, refs: set<Ref>, r: Ref, now: Time)
    requires Keyed(q) && r in q.messages && r !in refs
    ensures r in Requeue(q, refs).messages && Requeue(q, refs).messages[r] == q.messages[r]
    ensures ClaimExpired(Requeue(q, refs), r, now) == ClaimExpired(q, r, now)
    ensures Keyed(Requeue(q, refs))
  {
  }

  lemma RequeueNothing(q: Queue)
    ensures Requeue(q, {}) == q
  {
    assert CurrentAttempts(q, {}) == {};
  }

  class Store {
    var sequences: map<Refs.Kind, nat>
    var endpoints: map<Ref, Endpoint>
    var messages: map<Ref, Message>
    var attempts: map<Ref, Attempt>
    var checkpoints: map<Ref, seq<Checkpoint>>
    var artifacts: map<Ref, ArtifactVersion>
    var deadLetters: map<Ref, DeadLetter>
    var approvals: map<Ref, ApprovalDecision>
    var sideEffects: map<Ref, SideEffect>

    ghost function Processing(): Queue
      reads this
    {
      Queue(sequences, messages, attempts, checkpoints, deadLetters)
    }

    ghost function Contents(): Ledger
      reads this
    {
      Ledger(Processing(), endpoints, artifacts, approvals, sideEffects)
    }

    ghost predicate Valid()
      reads this
    {
      KeyedLedger(Contents())
    }

    constructor ()
      ensures Valid() && Contents() == EMPTY_LEDGER
    {
      sequences, endpoints, messages, attempts, checkpoints := map[], map[], map[], map[], map[];
      artifacts, deadLetters, approvals, sideEffects := map[], map[], map[], map[];
    }

    // Endpoints

    method SaveEndpoint(endpoint: Endpoint)
      modifies this
      ensures old(Valid()) ==> Valid()
      ensures Contents() == old(Contents()).(endpoints := old(endpoints)[endpoint.endpointRef := endpoint])
    {
      endpoints := endpoints[endpoint.endpointRef := endpoint];
    }

    function GetEndpoint(endpointRef: Ref): Option<Endpoint>
      reads this
    {
      if endpointRef in endpoints then Some(endpoints[endpointRef]) else None
    }

    // Messages

    method SaveMessage(message: Message) returns (error: Option<Error>)
      modifies this
      ensures error == if message.messageRef in old(messages) then Some(InvalidInput) else None
      ensures Contents() == if error.Some? then old(Contents())
                            else old(Contents()).(queue := PutMessage(old(Processing()), message))
      ensures old(Valid()) ==> Valid()
    {
      if message.messageRef in messages { return Some(InvalidInput); }
      messages := messages[message.messageRef := message];
      error := None;
    }

    function GetMessage(messageRef: Ref): Option<Message>
      reads this
    {
      if messageRef in messages then Some(messages[messageRef]) else None
    }

    method UpdateMessage(message: Message) returns (error: Option<Error>)
      modifies this
      ensures error == if message.messageRef in old(messages) then None else Some(MessageNotFound)
      ensures Contents() == if error.Some? then old(Contents())
                            else old(Contents()).(queue := PutMessage(old(Processing()), message))
      ensures old(Valid()) ==> Valid()
    {
      if message.messageRef !in messages { return Some(MessageNotFound); }
      messages := messages[message.messageRef := message];
      error := None;
    }

    // Claims

    method ClaimMessage(claim: ClaimRequest) returns (reply: Result<ClaimResult>)
      requires Valid()
      modifies this
      ensures Valid()
      ensures var turn := Claim(old(Processing()), claim);
              reply == turn.reply && Contents() == old(Contents()).(queue := turn.queue)
    {
      if claim.messageRef !in messages { return Err(MessageNotFound); }
      var message := messages[claim.messageRef];
      if message.state == MessageState.Available {
        var result := ClaimAvailable(message, claim);
        return Ok(result);
      }
      if message.state == MessageState.DeadLettered { return Err(MessageDeadLettered); }
      if message.state == MessageState.TakeoverCandidate {
        if message.attemptRef !in attempts { return Err(MessageUnavailable); }
        if message.redeliveryCount >= claim.maxRedelivery {
          BuryMessage(message, attempts[message.attemptRef], claim);
          return Err(MessageDeadLettered);
        }
        var result := TakeoverMessage(message, claim);
        return Ok(result);
      }
      if message.state != MessageState.Claimed && message.state != MessageState.Processing {
        return Err(MessageUnavailable);
      }
      if message.attemptRef !in attempts { return Err(MessageUnavailable); }
      var current := attempts[message.attemptRef];
      if claim.now < current.leaseExpiresAt || claim.now == current.leaseExpiresAt { return Err(MessageUnavailable); }
      if message.redeliveryCount >= claim.maxRedelivery {
        BuryMessage(message, current, claim);
        return Err(MessageDeadLettered);
      }
      current := current.(state := AttemptState.Orphaned);
      attempts := attempts[current.attemptRef := current];
      var result := TakeoverMessage(message, claim);
      return Ok(result);
    }

    method ClaimAvailable(message: Message, claim: ClaimRequest) returns (result: ClaimResult)
      modifies this
      ensures Contents() == old(Contents()).(queue := Grant(old(Processing()), message, claim))
      ensures result == GrantReply(message, claim, false, None)
      ensures old(Valid()) ==> Valid()
    {
      var attempt := Attempt(claim.attemptRef, message.messageRef, claim.endpoint.endpointRef, AttemptState.Claimed,
                             claim.leaseExpiresAt, 1, message.redeliveryCount + 1, message.redeliveryCount + 1);
      var granted := message.(state := MessageState.Claimed, attemptRef := attempt.attemptRef);
      attempts := attempts[attempt.attemptRef := attempt];
      messages := messages[granted.messageRef := granted];
      result := ClaimResult(granted, attempt, false, "", "", []);
    }

    method TakeoverMessage(message: Message, claim: ClaimRequest) returns (result: ClaimResult)
      modifies this
      ensures var turn := TakeOver(old(Processing()), message, claim);
              Ok(result) == turn.reply && Contents() == old(Contents()).(queue := turn.queue)
      ensures old(Valid()) ==> Valid()
    {
      var latest := LatestCheckpoint(if message.attemptRef in checkpoints then checkpoints[message.attemptRef] else []);
      var redelivered := message.(redeliveryCount := message.redeliveryCount + 1);
      result := ClaimAvailable(redelivered, claim);
      result := result.(takeover := true);
      if latest.Some? {
        result := result.(lastCheckpointRef := latest.value.checkpointRef, resumeSummary := latest.value.summary,
                          resumeArtifactRefs := latest.value.artifactRefs);
      }
    }

    method BuryMessage(message: Message, attempt: Attempt, claim: ClaimRequest)
      modifies this
      ensures Contents() == old(Contents()).(queue := Bury(old(Processing()), message, attempt, claim))
      ensures old(Valid()) ==> Valid()
    {
      var latest := LatestCheckpoint(if attempt.attemptRef in checkpoints then checkpoints[attempt.attemptRef] else []);
      var letter := DeadLetter(claim.deadLetterRef, message.messageRef, attempt.attemptRef, "",
                               message.redeliveryCount, claim.now);
      if latest.Some? { letter := letter.(lastCheckpointRef := latest.value.checkpointRef); }
      attempts := attempts[attempt.attemptRef := attempt.(state := AttemptState.Orphaned)];
      messages := messages[message.messageRef := message.(state := MessageState.DeadLettered)];
      deadLetters := deadLetters[letter.deadLetterRef := letter];
    }

    /** The scan for the highest revision; on a tie the earlier checkpoint stays. */
    static method LatestCheckpoint(items: seq<Checkpoint>) returns (latest: Option<Checkpoint>)
      ensures latest == Latest(items)
    {
      if items == [] { return None; }
      var best := items[0];
      var k := 1;
      while k < |items|
        invariant 1 <= k <= |items|
        invariant best == items[LatestIndex(items[..k])]
      {
        assert items[..k + 1][..k] == items[..k];
        if items[k].revision > best.revision { best := items[k]; }
        k := k + 1;
      }
      assert items[..k] == items;
      return Some(best);
    }

    // Attempts and checkpoints

    function GetAttempt(attemptRef: Ref): Option<Attempt>
      reads this
    {
      if attemptRef in attempts then Some(attempts[attemptRef]) else None
    }

    method UpdateAttempt(attempt: Attempt) returns (error: Option<Error>)
      modifies this
      ensures error == if attempt.attemptRef in old(attempts) then None else Some(AttemptNotFound)
      ensures Contents() == if error.Some? then old(Contents())
                            else old(Contents()).(queue := PutAttempt(old(Processing()), attempt))
      ensures old(Valid()) ==> Valid()
    {
      if attempt.attemptRef !in attempts { return Some(AttemptNotFound); }
      attempts := attempts[attempt.attemptRef := attempt];
      error := None;
    }

    method SaveCheckpoint(checkpoint: Checkpoint) returns (saved: Checkpoint)
      modifies this
      ensures saved == Numbered(old(Processing()), checkpoint)
      ensures Contents() == old(Contents()).(queue := AppendCheckpoint(old(Processing()), checkpoint))
      ensures old(Valid()) ==> Valid()
    {
      var earlier := if checkpoint.attemptRef in checkpoints then checkpoints[checkpoint.attemptRef] else [];
      saved := checkpoint.(revision := |earlier| + 1);
      checkpoints := checkpoints[checkpoint.attemptRef := earlier + [saved]];
    }

    // Artifacts, approvals and side effects

    method SaveArtifactVersion(version: ArtifactVersion) returns (error: Option<Error>)
      modifies this
      ensures old(Valid()) ==> Valid()
      ensures error == if version.artifactVersionRef in old(artifacts) then Some(ArtifactExists) else None
      ensures Contents() == if error.Some? then old(Contents())
                            else old(Contents()).(artifacts := old(artifacts)[version.artifactVersionRef := version])
    {
      if version.artifactVersionRef in artifacts { return Some(ArtifactExists); }
      artifacts := artifacts[version.artifactVersionRef := version];
      error := None;
    }

    function GetArtifactVersion(ref: Ref): Option<ArtifactVersion>
      reads this
    {
      if ref in artifacts then Some(artifacts[ref]) else None
    }

    method SaveApprovalDecision(decision: ApprovalDecision) returns (error: Option<Error>)
      modifies this
      ensures old(Valid()) ==> Valid()
      ensures error == if decision.approvalRef in old(approvals) then Some(SideEffectConflict) else None
      ensures Contents() == if error.Some? then old(Contents())
                            else old(Contents()).(approvals := old(approvals)[decision.approvalRef := decision])
    {
      if decision.approvalRef in approvals { return Some(SideEffectConflict); }
      approvals := approvals[decision.approvalRef := decision];
      error := None;
    }

    function GetApprovalDecision(ref: Ref): Option<ApprovalDecision>
      reads this
    {
      if ref in approvals then Some(approvals[ref]) else None
    }

    /** A stored execution with the same key and scope is returned instead of a second one being stored. */
    method SaveSideEffectExecution(execution: SideEffect) returns (saved: Result<SideEffect>, deduped: bool)
      modifies this
      ensures old(Valid()) ==> Valid()
      ensures deduped <==> exists r :: r in old(sideEffects) && SameEffect(old(sideEffects)[r], execution)
      ensures deduped ==> saved.Ok? && SameEffect(saved.value, execution)
                          && exists r :: r in old(sideEffects) && old(sideEffects)[r] == saved.value
      ensures !deduped ==> saved == if execution.executionRef in old(sideEffects) then Err(SideEffectConflict)
                                    else Ok(execution)
      ensures Contents() == if deduped || saved.Err? then old(Contents())
                            else old(Contents()).(sideEffects := old(sideEffects)[execution.executionRef := execution])
    {
      var todo := sideEffects.Keys;
      while todo != {}
        invariant todo <= sideEffects.Keys
        invariant forall r :: r in sideEffects && r !in todo ==> !SameEffect(sideEffects[r], execution)
        decreases todo
      {
        var r :| r in todo;
        todo := todo - {r};
        if sideEffects[r].idempotencyKey == execution.idempotencyKey
           && sideEffects[r].protectedScope == execution.protectedScope {
          return Ok(sideEffects[r]), true;
        }
      }
      if execution.executionRef in sideEffects { return Err(SideEffectConflict), false; }
      sideEffects := sideEffects[execution.executionRef := execution];
      return Ok(execution), false;
    }

    function GetSideEffectExecution(ref: Ref): Option<SideEffect>
      reads this
    {
      if ref in sideEffects then Some(sideEffects[ref]) else None
    }

    method UpdateSideEffectExecution(execution: SideEffect) returns (error: Option<Error>)
      modifies this
      ensures old(Valid()) ==> Valid()
      ensures error == if execution.executionRef in old(sideEffects) then None else Some(SideEffectNotFound)
      ensures Contents() == if error.Some? then old(Contents())
                            else old(Contents()).(sideEffects := old(sideEffects)[execution.executionRef := execution])
    {
      if execution.executionRef !in sideEffects { return Some(SideEffectNotFound); }
      sideEffects := sideEffects[execution.executionRef := execution];
      error := None;
    }

    // Reconciliation

    /** The loop body of ReconcileExpiredClaims. */
    method RequeueIfExpired(r: Ref, now: Time) returns (moved: bool)
      requires Valid() && r in messages
      modifies this
      ensures moved == ClaimExpired(old(Processing()), r, now)
      ensures Contents() == if moved then old(Contents()).(queue := RequeueOne(old(Processing()), r))
                            else old(Contents())
    {
      var message := messages[r];
      if message.state != MessageState.Claimed && message.state != MessageState.Processing { return false; }
      if message.attemptRef !in attempts { return false; }
      var attempt := attempts[message.attemptRef];
      if now < attempt.leaseExpiresAt || now == attempt.leaseExpiresAt { return false; }
      attempt := attempt.(state := AttemptState.Orphaned);
      message := message.(state := MessageState.TakeoverCandidate);
      attempts := attempts[attempt.attemptRef := attempt];
      messages := messages[message.messageRef := message];
      return true;
    }

    /** Whatever order the map is walked in, the outcome is the one function of the old contents. */
    method ReconcileExpiredClaims(now: Time) returns (reconciled: nat)
      requires Valid()
      modifies this
      ensures Valid()
      ensures Contents() == old(Contents()).(queue := Reconcile(old(Processing()), now))
      ensures reconciled == |ExpiredClaims(old(Processing()), now)|
    {
      reconciled := 0;
      ghost var was, done: set<Ref> := Processing(), {};
      RequeueNothing(was);
      var todo := messages.Keys;
      while todo != {}
        invariant todo <= was.messages.Keys
        invariant forall r :: r in done <==> r in was.messages && r !in todo && ClaimExpired(was, r, now)
        invariant Contents() == old(Contents()).(queue := Requeue(was, done))
        invariant reconciled == |done|
        decreases todo
      {
        var r :| r in todo;
        todo := todo - {r};
        RequeueKeeps(was, done, r, now);
        var moved := RequeueIfExpired(r, now);
        if moved {
          RequeueOneMore(was, done, r);
          done := done + {r};
          reconciled := reconciled + 1;
        }
      }
      assert done == ExpiredClaims(was, now);
      RequeueKeyed(was, done);
    }

    // Refs and polling

    method AllocateRef(kind: Refs.Kind) returns (ref: Ref)
      modifies this
      ensures ref == NextRef(old(Processing()), kind)
      ensures Contents() == old(Contents()).(queue := Bump(old(Processing()), kind))
      ensures old(Valid()) ==> Valid()
    {
      sequences := sequences[kind := (if kind in sequences then sequences[kind] else 0) + 1];
      ref := Refs.AllocRef(kind, sequences[kind]);
    }

    method ClaimNextMessage(claim: ClaimNextRequest) returns (reply: Option<ClaimResult>)
      requires Valid()
      modifies this
      ensures Valid()
      ensures var turn := ClaimNext(old(Processing()), claim);
              reply == turn.reply && Contents() == old(Contents()).(queue := turn.queue)
    {
      var next := NextEligibleMessage(MessageState.TakeoverCandidate, claim);
      if next.None? { next := NextEligibleMessage(MessageState.Available, claim); }
      if next.None? { return None; }
      ghost var r := next.value.messageRef;
      LeastIsUnique(r, NextEligible(Processing(), claim).value, EligibleIn(Processing(), next.value.state, claim));
      reply := ClaimNextEligibleMessage(next.value, claim);
    }

    /** One pass over the sorted refs of the messages in one state. */
    method NextEligibleMessage(state: MessageState, claim: ClaimNextRequest) returns (next: Option<Message>)
      requires Valid()
      ensures next.None? <==> EligibleIn(Processing(), state, claim) == {}
      ensures next.Some? ==> next.value.messageRef in messages && messages[next.value.messageRef] == next.value
                             && IsLeast(next.value.messageRef, EligibleIn(Processing(), state, claim))
    {
      ghost var eligible := EligibleIn(Processing(), state, claim);
      var inState := set r | r in messages && messages[r].state == state;
      var refs := Sort(inState);
      assert forall i :: 0 <= i < |refs| ==> refs[i] in Elements(refs);
      var states := map r | r in messages :: messages[r].state;
      assert states == States(Processing());
      for i := 0 to |refs|
        invariant forall j :: 0 <= j < i ==> refs[j] !in eligible
      {
        var message := messages[refs[i]];
        if Claimable(message, claim.endpoint, PreferredOnline(message, claim.preferredEndpoints)) {
          var ready := MessageDependenciesCompleted(message, states);
          if ready {
            assert refs[i] in eligible;
            forall y | y in eligible && y != refs[i] ensures Less(refs[i], y) {
              assert y in Elements(refs);
              var j :| 0 <= j < |refs| && refs[j] == y;
            }
            return Some(message);
          }
        }
      }
      forall y ensures y !in eligible {
        assert y in inState <==> y in Elements(refs);
      }
      return None;
    }

    method ClaimNextEligibleMessage(message: Message, claim: ClaimNextRequest) returns (reply: Option<ClaimResult>)
      requires Valid()
      requires message.messageRef in messages && messages[message.messageRef] == message
      modifies this
      ensures Valid()
      ensures var turn := ClaimEligible(old(Processing()), message.messageRef, claim);
              reply == turn.reply && Contents() == old(Contents()).(queue := turn.queue)
    {
      var attemptRef, deadLetterRef := claim.attemptRef, claim.deadLetterRef;
      if attemptRef == "" { attemptRef := AllocateRef(Refs.Kind.Attempt); }
      if deadLetterRef == "" { deadLetterRef := AllocateRef(Refs.Kind.DeadLetter); }
      var request := ClaimRequest(message.messageRef, claim.endpoint, attemptRef, deadLetterRef,
                                  claim.leaseExpiresAt, claim.now, claim.maxRedelivery);
      assert request == DirectRequest(old(Processing()), message.messageRef, claim);
      if message.state == MessageState.Available {
        var result := ClaimAvailable(message, request);
        return Some(result);
      }
      if message.attemptRef !in attempts { return None; }
      if message.redeliveryCount >= claim.maxRedelivery {
        BuryMessage(message, attempts[message.attemptRef], request);
        return None;
      }
      var result := TakeoverMessage(message, request);
      return Some(result);
    }
  }

  /** The pair that makes two executions the same side effect. */
  predicate SameEffect(a: SideEffect, b: SideEffect) {
    a.idempotencyKey == b.idempotencyKey && a.protectedScope == b.protectedScope
  }
}
