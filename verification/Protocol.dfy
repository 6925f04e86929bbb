// The lease protocol behind the service: fifteen atomic moves, each with the
// guard under which the service makes it. Every service call is a short path
// of enabled moves (module Paths), so what each move keeps, every run keeps.
module Protocol {
  import opened Domain
  import opened Routing
  import opened QueueModel
  import opened Calls
  import Refs

  datatype Move =
    | Draw(kind: Refs.Kind)
    | Post(message: Message)
    | Assign(messageRef: Ref, request: ClaimRequest)   // first claim of an available message
    | Retake(messageRef: Ref, request: ClaimRequest)   // takeover from an attempt whose lease is past
    | Discard(messageRef: Ref, request: ClaimRequest)  // dead-lettering
    | Sweep                                            // reconciliation
    | Report(attemptRef: Ref, report: CheckpointRequest)
    | Extend(attemptRef: Ref, leaseExpiresAt: Time)
    | Withdraw(refs: set<Ref>)                         // cancellation
    | Reopen(refs: set<Ref>)                           // retry
    | Enroll(endpoints: map<Ref, Endpoint>)
    | File(version: ArtifactVersion)
    | Decide(decision: ApprovalDecision)
    | Begin(effect: SideEffect)
    | Finish(executionRef: Ref, status: SideEffectStatus, resultRef: Ref)

  /** Moves that start an attempt or give one up. */
  predicate Claiming(move: Move) {
    move.Assign? || move.Retake? || move.Discard?
  }

  /** Moves over many messages at once. */
  predicate Sweeping(move: Move) {
    move.Sweep? || move.Withdraw? || move.Reopen?
  }

  /** The counter's latest ref. */
  predicate JustDrawn(q: Queue, kind: Refs.Kind, ref: Ref) {
    Counter(q, kind) >= 1 && ref == Refs.AllocRef(kind, Counter(q, kind))
  }

  /** A claim request as the service forms it, with the refs it has just drawn. */
  predicate Proper(settings: Settings, q: Queue, now: Time, r: Ref, c: ClaimRequest) {
    && r in q.messages
    && c.now == now && c.leaseExpiresAt == now + settings.leaseDuration && c.maxRedelivery == settings.maxRedelivery
    && JustDrawn(q, Refs.Kind.Attempt, c.attemptRef) && c.attemptRef !in q.attempts
    && JustDrawn(q, Refs.Kind.DeadLetter, c.deadLetterRef) && c.deadLetterRef !in q.deadLetters
    && DependenciesCompleted(q.messages[r], States(q))
  }

  /** The message has lost its worker: it awaits takeover, or its current lease is strictly past. */
  predicate Abandoned(q: Queue, r: Ref, now: Time) {
    && r in q.messages && q.messages[r].attemptRef in q.attempts
    && (q.messages[r].state == MessageState.TakeoverCandidate || ClaimExpired(q, r, now))
  }

  predicate MayPost(q: Queue, m: Message) {
    && m.messageRef !in q.messages && m.state == MessageState.Available && m.attemptRef == "" && m.redeliveryCount == 0
    && "" !in m.dependsOn
  }

  predicate MayReport(s: Ledger, now: Time, a: Ref, req: CheckpointRequest) {
    && a in s.queue.attempts && Live(s.queue.attempts[a], now) && s.queue.attempts[a].messageRef in s.queue.messages
    && ValidCheckpoint(req) && ArtifactsOfMessage(s.artifacts, req.artifactRefs, s.queue.attempts[a].messageRef)
  }

  predicate MayBegin(s: Ledger, e: SideEffect) {
    && e.executionRef !in s.sideEffects && e.status == Executing
    && JustDrawn(s.queue, Refs.Kind.SideEffect, e.executionRef)
    && EffectsFor(s.sideEffects, e.idempotencyKey, e.protectedScope) == {}
    && e.approvalRef in s.approvals && s.approvals[e.approvalRef].status == Approved
    && s.approvals[e.approvalRef].attemptRef == e.attemptRef && s.approvals[e.approvalRef].approvalHash == e.approvalHash
  }

  predicate Enabled(settings: Settings, s: Ledger, now: Time, move: Move) {
    var q := s.queue;
    match move
    case Draw(_) => true
    case Post(m) => MayPost(q, m)
    case Assign(r, c) => Proper(settings, q, now, r, c) && q.messages[r].state == MessageState.Available
    case Retake(r, c) =>
      Proper(settings, q, now, r, c) && Abandoned(q, r, now) && q.messages[r].redeliveryCount < settings.maxRedelivery
    case Discard(r, c) =>
      Proper(settings, q, now, r, c) && Abandoned(q, r, now) && q.messages[r].redeliveryCount >= settings.maxRedelivery
    case Sweep => true
    case Report(a, req) => MayReport(s, now, a, req)
    case Extend(a, lease) => a in q.attempts && Live(q.attempts[a], now) && lease == now + settings.leaseDuration
    case Withdraw(refs) => forall r :: r in refs ==> r in q.messages && q.messages[r].state != MessageState.Completed
    case Reopen(refs) => forall r :: r in refs ==> r in q.messages && RetryableState(q.messages[r].state)
    case Enroll(_) => true
    case File(v) => v.artifactVersionRef !in s.artifacts && forall r :: r in v.basedOn ==> r in s.artifacts
    case Decide(d) => d.approvalRef !in s.approvals && (d.status != Pending ==> d.decidedByActorId != d.requestedByActorId)
    case Begin(e) => MayBegin(s, e)
    case Finish(r, status, _) => r in s.sideEffects && s.sideEffects[r].status == Executing && status != Executing
  }

  function Reported(q: Queue, a: Attempt, req: CheckpointRequest): Queue
    requires a.messageRef in q.messages
  {
    var m := q.messages[a.messageRef];
    PutMessage(WithCheckpoint(q, a, req), m.(state := StateAfterCheckpoint(m.state, req.state)))
  }

  /** The effect of a move on the queue. */
  function Shift(settings: Settings, s: Ledger, now: Time, move: Move): Queue
    requires Enabled(settings, s, now, move)
  {
    var q := s.queue;
    match move
    case Draw(kind) => Bump(q, kind)
    case Post(m) => PutMessage(q, m)
    case Assign(r, c) => Grant(q, q.messages[r], c)
    case Retake(r, c) => Grant(Orphan(q, q.attempts[q.messages[r].attemptRef]), Redelivered(q.messages[r]), c)
    case Discard(r, c) => Bury(q, q.messages[r], q.attempts[q.messages[r].attemptRef], c)
    case Sweep => Reconcile(q, now)
    case Report(a, req) => Reported(q, q.attempts[a], req)
    case Extend(a, lease) => PutAttempt(q, q.attempts[a].(leaseExpiresAt := lease))
    case Withdraw(refs) => CancelRefs(q, refs)
    case Reopen(refs) => RetryRefs(q, refs)
    case _ => q
  }

  function Apply(settings: Settings, s: Ledger, now: Time, move: Move): Ledger
    requires Enabled(settings, s, now, move)
  {
    match move
    case Enroll(endpoints) => s.(endpoints := endpoints)
    case File(v) => s.(artifacts := s.artifacts[v.artifactVersionRef := v])
    case Decide(d) => s.(approvals := s.approvals[d.approvalRef := d])
    case Begin(e) => s.(sideEffects := s.sideEffects[e.executionRef := e])
    case Finish(r, status, result) =>
      s.(sideEffects := s.sideEffects[r := s.sideEffects[r].(status := status, resultRef := result)])
    case _ => s.(queue := Shift(settings, s, now, move))
  }

  ghost predicate Path(settings: Settings, s: Ledger, now: Time, moves: seq<Move>)
    decreases |moves|
  {
    moves != [] ==>
      Enabled(settings, s, now, moves[0]) && Path(settings, Apply(settings, s, now, moves[0]), now, moves[1..])
  }

  ghost function After(settings: Settings, s: Ledger, now: Time, moves: seq<Move>): Ledger
    requires Path(settings, s, now, moves)
    decreases |moves|
  {
    if moves == [] then s else After(settings, Apply(settings, s, now, moves[0]), now, moves[1..])
  }

  lemma {:induction false} PathsCompose(settings: Settings, s: Ledger, now: Time, first: seq<Move>, second: seq<Move>)
    requires Path(settings, s, now, first) && Path(settings, After(settings, s, now, first), now, second)
    ensures Path(settings, s, now, first + second)
    ensures After(settings, s, now, first + second) == After(settings, After(settings, s, now, first), now, second)
    decreases |first|
  {
    if first == [] {
      assert first + second == second;
    } else {
      assert (first + second)[1..] == first[1..] + second;
      PathsCompose(settings, Apply(settings, s, now, first[0]), now, first[1..], second);
    }
  }
}
