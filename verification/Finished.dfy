// What can still move a completed or canceled message, exactly, with no
// assumption about the run.
module Finished {
  import opened Wrappers
  import opened Domain
  import opened Routing
  import opened QueueModel
  import opened Calls
  import opened Protocol
  import opened Links
  import opened Polling
  import opened Reachable
  import opened Runs

  predicate IsFinished(state: MessageState) {
    state == MessageState.Completed || state == MessageState.Canceled
  }

  /** Which reported states move a finished message. */
  predicate Moves(state: MessageState, reported: AttemptState) {
    reported in {InProgress, Validating, BlockedMissingFields, AttemptState.Failed}
    || (reported == AttemptState.Completed && state == MessageState.Canceled)
  }

  /** An attempt of message `r` that may still report does so, with a state that moves the message. */
  predicate ReportsOn(s: Ledger, now: Time, attemptRef: Ref, req: CheckpointRequest, r: Ref)
    requires r in s.queue.messages
  {
    && CheckpointRefusal(s, now, attemptRef, req).None? && s.queue.attempts[attemptRef].messageRef == r
    && Moves(s.queue.messages[r].state, req.state)
  }

  /** What can be told before the call: it is such a report, or it retries the task of a canceled message. */
  predicate Overturns(s: Ledger, now: Time, call: Call, r: Ref)
    requires r in s.queue.messages
  {
    var m := s.queue.messages[r];
    match call
    case CheckpointCall(a, req) => ReportsOn(s, now, a, req, r)
    case CompleteCall(a, req) =>
      req.endpointRef != "" && req.summary != "" && ReportsOn(s, now, a, CompletionCheckpoint(req), r)
    case RetryCall(task) => task != "" && m.correlationRef == task && m.state == MessageState.Canceled
    case _ => false
  }

  ghost predicate StateKept(q: Queue, q': Queue, r: Ref)
    requires r in q.messages
  {
    r in q'.messages && q'.messages[r].state == q.messages[r].state
  }

  lemma GrantLeaves(q: Queue, m: Message, c: ClaimRequest, r: Ref)
    requires r in q.messages && m.messageRef != r
    ensures Grant(q, m, c).messages.Keys >= {r} && Grant(q, m, c).messages[r] == q.messages[r]
  {
  }

  lemma BuryLeaves(q: Queue, m: Message, a: Attempt, c: ClaimRequest, r: Ref)
    requires r in q.messages && m.messageRef != r
    ensures Bury(q, m, a, c).messages.Keys >= {r} && Bury(q, m, a, c).messages[r] == q.messages[r]
  {
  }

  lemma StoreClaimLeaves(q: Queue, c: ClaimRequest, r: Ref)
    requires Keyed(q) && r in q.messages && IsFinished(q.messages[r].state)
    ensures StateKept(q, Claim(q, c).queue, r)
  {
    if c.messageRef in q.messages && c.messageRef != r {
      var m := q.messages[c.messageRef];
      GrantLeaves(q, m, c, r);
      GrantLeaves(q, Redelivered(m), c, r);
      if m.attemptRef in q.attempts {
        GrantLeaves(Orphan(q, q.attempts[m.attemptRef]), Redelivered(m), c, r);
        BuryLeaves(q, m, q.attempts[m.attemptRef], c, r);
      }
    }
    hide Grant, Bury, Keyed;
  }

  lemma ClaimLeaves(settings: Settings, s: Ledger, now: Time, m: Ref, e: Ref, r: Ref)
    requires Linked(s.queue) && r in s.queue.messages && IsFinished(s.queue.messages[r].state)
    ensures StateKept(s.queue, ClaimMessage(settings, s, now, m, e).ledger.queue, r)
  {
    hide Claim;
    if ClaimRefusal(settings, s, now, m, e).None? {
      StoreClaimLeaves(ClaimCounted(s.queue), ServiceClaim(settings, s.queue, now, m, s.endpoints[e]), r);
    }
  }

  lemma SweepLeaves(q: Queue, now: Time, r: Ref)
    requires r in q.messages && IsFinished(q.messages[r].state)
    ensures r in Reconcile(q, now).messages && Reconcile(q, now).messages[r] == q.messages[r]
  {
  }

  lemma PickedLeaves(q: Queue, m: Ref, c: ClaimNextRequest, r: Ref)
    requires Keyed(q) && r in q.messages && IsFinished(q.messages[r].state)
    requires m in q.messages && q.messages[m].state in {MessageState.TakeoverCandidate, MessageState.Available}
    ensures StateKept(q, ClaimEligible(q, m, c).queue, r)
  {
    var d, q1 := DirectRequest(q, m, c), WithRefs(q, c);
    assert q1.messages == q.messages && q1.attempts == q.attempts;
    assert q.messages[m].messageRef == m != r;
    hide Grant, Bury, Keyed, WithRefs, DirectRequest;
    GrantLeaves(q1, q.messages[m], d, r);
    GrantLeaves(q1, Redelivered(q.messages[m]), d, r);
    if q.messages[m].attemptRef in q.attempts { BuryLeaves(q1, q.messages[m], q.attempts[q.messages[m].attemptRef], d, r); }
  }

  lemma NextLeaves(q: Queue, c: ClaimNextRequest, r: Ref)
    requires Keyed(q) && r in q.messages && IsFinished(q.messages[r].state)
    ensures StateKept(q, ClaimNext(q, c).queue, r)
  {
    hide ClaimEligible, NextEligible, Eligible, Keyed;
    NextEligibleIsEligible(q, c);
    if NextEligible(q, c).Some? { PickedLeaves(q, NextEligible(q, c).value, c, r); }
  }

  lemma PollLeaves(settings: Settings, s: Ledger, now: Time, e: Ref, r: Ref)
    requires Linked(s.queue) && r in s.queue.messages && IsFinished(s.queue.messages[r].state)
    ensures StateKept(s.queue, ClaimNextMessage(settings, s, now, e).ledger.queue, r)
  {
    SweepLeaves(s.queue, now, r);
    SweepKeepsLinked(s.queue, now);
    hide ClaimNext, Reconcile;
    if PollRefusal(settings, s, now, e).None? {
      NextLeaves(Reconcile(s.queue, now), PollRequest(settings, s, now, s.endpoints[e]), r);
    }
    hide Linked;
  }

  lemma IngressLeaves(s: Ledger, req: IngressRequest, r: Ref)
    requires r in s.queue.messages
    ensures StateKept(s.queue, Ingress(s, req).ledger.queue, r)
  {
    assert IngressCounted(s.queue, req).messages == s.queue.messages;
    hide ValidIngress, RouteAvailable, IngressCounted, IngressRef, NextRef;
  }

  lemma {:induction false} PostsLeave(s: Ledger, reqs: seq<IngressRequest>, r: Ref)
    requires r in s.queue.messages
    ensures StateKept(s.queue, PostAll(s, reqs).ledger.queue, r)
    decreases |reqs|
  {
    hide Ingress;
    if reqs != [] {
      IngressLeaves(s, reqs[0], r);
      if Ingress(s, reqs[0]).reply.Posted? { PostsLeave(Ingress(s, reqs[0]).ledger, reqs[1..], r); }
    }
  }

  lemma ReplayLeaves(s: Ledger, d: Ref, accepted: bool, r: Ref)
    requires r in s.queue.messages
    ensures StateKept(s.queue, ReplayDeadLetter(s, d, accepted).ledger.queue, r)
  {
    hide Ingress;
    if d != "" && d in s.queue.deadLetters && s.queue.deadLetters[d].messageRef in s.queue.messages {
      IngressLeaves(s, ReplayRequest(s.queue.messages[s.queue.deadLetters[d].messageRef], accepted), r);
    }
  }

  lemma CheckpointMoves(s: Ledger, now: Time, a: Ref, req: CheckpointRequest, r: Ref)
    requires Linked(s.queue) && r in s.queue.messages && IsFinished(s.queue.messages[r].state)
    ensures r in SubmitCheckpoint(s, now, a, req).ledger.queue.messages
    ensures StateKept(s.queue, SubmitCheckpoint(s, now, a, req).ledger.queue, r) <==> !ReportsOn(s, now, a, req, r)
    ensures CheckpointRefusal(s, now, a, req).None? ==> !SubmitCheckpoint(s, now, a, req).reply.Refused?
  {
    hide ArtifactsOfMessage, ValidCheckpoint, CheckpointsOf;
  }

  lemma CompletionMoves(s: Ledger, now: Time, a: Ref, req: CompletionRequest, r: Ref)
    requires Linked(s.queue) && r in s.queue.messages && IsFinished(s.queue.messages[r].state)
    ensures StateKept(s.queue, CompleteAttempt(s, now, a, req).ledger.queue, r)
            <==> !(req.endpointRef != "" && req.summary != "" && ReportsOn(s, now, a, CompletionCheckpoint(req), r))
  {
    hide PostAll, ReportsOn;
    CheckpointMoves(s, now, a, CompletionCheckpoint(req), r);
    var turn := SubmitCheckpoint(s, now, a, CompletionCheckpoint(req));
    if req.endpointRef != "" && req.summary != "" && !turn.reply.Refused? {
      var parent := turn.ledger.queue.messages[s.queue.attempts[a].messageRef];
      PostsLeave(turn.ledger, FollowUps(req.followUps, req.endpointRef, parent), r);
    }
  }

  lemma CancelLeaves(s: Ledger, task: Ref, r: Ref)
    requires r in s.queue.messages && IsFinished(s.queue.messages[r].state)
    ensures StateKept(s.queue, CancelTask(s, task).ledger.queue, r)
  {
    hide OpenAttempts;
  }

  lemma RetriedState(q: Queue, refs: set<Ref>, r: Ref)
    requires r in q.messages
    ensures r in RetryRefs(q, refs).messages
    ensures RetryRefs(q, refs).messages[r].state == if r in refs then MessageState.Available else q.messages[r].state
  {
  }

  lemma RetriedQueue(s: Ledger, task: Ref)
    ensures RetryTask(s, task).ledger.queue ==
            if task == "" || TaskRefs(s.queue, task) == {} then s.queue else RetryRefs(s.queue, Retryable(s.queue, task))
  {
    hide Retryable, TaskRefs, RetryRefs;
  }

  lemma RetryableIff(q: Queue, task: Ref, r: Ref)
    requires r in q.messages && IsFinished(q.messages[r].state)
    ensures r in TaskRefs(q, task) <==> q.messages[r].correlationRef == task
    ensures r in Retryable(q, task) <==> q.messages[r].correlationRef == task && q.messages[r].state == MessageState.Canceled
  {
  }

  lemma RetryMoves(s: Ledger, task: Ref, r: Ref)
    requires r in s.queue.messages && IsFinished(s.queue.messages[r].state)
    ensures StateKept(s.queue, RetryTask(s, task).ledger.queue, r)
            <==> !(task != "" && s.queue.messages[r].correlationRef == task && s.queue.messages[r].state == MessageState.Canceled)
  {
    hide Retryable, TaskRefs, RetryRefs, RetryTask;
    RetriedQueue(s, task);
    RetryableIff(s.queue, task, r);
    RetriedState(s.queue, Retryable(s.queue, task), r);
  }

  predicate MovesMessages(call: Call) {
    match call
    case IngressCall(_) | ClaimCall(_, _) | ClaimNextCall(_) | CheckpointCall(_, _) | CompleteCall(_, _) | CancelCall(_)
      | RetryCall(_) | ReplayCall(_, _) | ReconcileCall => true
    case _ => false
  }

  lemma OthersLeave(settings: Settings, s: Ledger, now: Time, call: Call, r: Ref)
    requires r in s.queue.messages && !MovesMessages(call)
    ensures StateKept(s.queue, Step(settings, s, now, call).ledger.queue, r)
  {
  }

  /** Exactly which calls change the state of a completed or canceled message. */
  lemma FinishedMovesIff(settings: Settings, s: Ledger, now: Time, call: Call, r: Ref)
    requires Linked(s.queue) && r in s.queue.messages && IsFinished(s.queue.messages[r].state)
    ensures StateKept(s.queue, Step(settings, s, now, call).ledger.queue, r) <==> !Overturns(s, now, call, r)
  {
    hide Linked, Calls.ClaimMessage, Calls.ClaimNextMessage, Ingress, SubmitCheckpoint, CompleteAttempt,
      ReplayDeadLetter, CancelTask, RetryTask, ReportsOn, StateKept, IsFinished;
    match call
    case ClaimCall(m, e) => ClaimLeaves(settings, s, now, m, e, r);
    case ClaimNextCall(e) => PollLeaves(settings, s, now, e, r);
    case IngressCall(req) => IngressLeaves(s, req, r);
    case ReplayCall(d, accepted) => ReplayLeaves(s, d, accepted, r);
    case CheckpointCall(a, req) => CheckpointMoves(s, now, a, req, r);
    case CompleteCall(a, req) => CompletionMoves(s, now, a, req, r);
    case CancelCall(task) => CancelLeaves(s, task, r);
    case RetryCall(task) => RetryMoves(s, task, r);
    case ReconcileCall => SweptKept(s, now, r);
    case _ => OthersLeave(settings, s, now, call, r);
  }

  lemma SweptKept(s: Ledger, now: Time, r: Ref)
    requires r in s.queue.messages && IsFinished(s.queue.messages[r].state)
    ensures StateKept(s.queue, ReconcileExpiredClaims(s, now).ledger.queue, r)
  {
    SweepLeaves(s.queue, now, r);
    hide Reconcile;
  }

  // Runs

  ghost predicate InState(settings: Settings, events: seq<Event>, r: Ref, state: MessageState) {
    var q := Run(settings, events).queue;
    r in q.messages && q.messages[r].state == state
  }

  /** From point i on, no call of the run overturns the message. */
  ghost predicate LeftAlone(settings: Settings, events: seq<Event>, i: nat, r: Ref) {
    forall j :: i <= j < |events| && r in Run(settings, events[..j]).queue.messages ==>
      !Overturns(Run(settings, events[..j]), events[j].now, events[j].call, r)
  }

  lemma StepInState(settings: Settings, events: seq<Event>, j: nat, r: Ref, state: MessageState)
    requires ValidSettings(settings) && j < |events| && IsFinished(state) && InState(settings, events[..j], r, state)
    ensures InState(settings, events[..j + 1], r, state)
            <==> !Overturns(Run(settings, events[..j]), events[j].now, events[j].call, r)
  {
    hide Step, Overturns, IsFinished;
    assert events[..j + 1][..j] == events[..j];
    RunIsGood(settings, events[..j]);
    FinishedMovesIff(settings, Run(settings, events[..j]), events[j].now, events[j].call, r);
  }

  lemma {:induction false} LeftAloneStays(settings: Settings, events: seq<Event>, i: nat, k: nat, r: Ref, state: MessageState)
    requires ValidSettings(settings) && i <= k <= |events| && IsFinished(state)
    requires InState(settings, events[..i], r, state) && LeftAlone(settings, events, i, r)
    ensures InState(settings, events[..k], r, state)
    decreases k
  {
    hide Step, Run, Overturns, IsFinished, LeftAlone;
    if i < k {
      LeftAloneStays(settings, events, i, k - 1, r, state);
      StepInState(settings, events, k - 1, r, state);
      LeftAloneAt(settings, events, i, k - 1, r);
    }
  }

  lemma LeftAloneAt(settings: Settings, events: seq<Event>, i: nat, j: nat, r: Ref)
    requires i <= j < |events| && LeftAlone(settings, events, i, r) && r in Run(settings, events[..j]).queue.messages
    ensures !Overturns(Run(settings, events[..j]), events[j].now, events[j].call, r)
  {
  }

  /**
   * A message that was completed or canceled at some point of a run stays so to its end exactly when no call overturns
   * it.
   */
  lemma FinishedStaysIff(settings: Settings, events: seq<Event>, i: nat, r: Ref, state: MessageState)
    requires ValidSettings(settings) && i <= |events| && IsFinished(state) && InState(settings, events[..i], r, state)
    ensures (forall k :: i <= k <= |events| ==> InState(settings, events[..k], r, state))
            <==> LeftAlone(settings, events, i, r)
  {
    hide Step, Run, Overturns, IsFinished, InState;
    if LeftAlone(settings, events, i, r) {
      forall k | i <= k <= |events| ensures InState(settings, events[..k], r, state) {
        LeftAloneStays(settings, events, i, k, r, state);
      }
    }
    if forall k :: i <= k <= |events| ==> InState(settings, events[..k], r, state) {
      forall j | i <= j < |events| && r in Run(settings, events[..j]).queue.messages
        ensures !Overturns(Run(settings, events[..j]), events[j].now, events[j].call, r)
      {
        assert InState(settings, events[..j + 1], r, state);
        StepInState(settings, events, j, r, state);
      }
    }
  }
}
