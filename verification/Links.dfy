// How the records of a reachable ledger refer to each other, and where their
// refs come from. Neither needs any assumption about the run.
module Links {
  import opened Domain
  import opened QueueModel
  import opened Calls
  import opened Protocol
  import Refs

  /** A message's current attempt, if it names one, is stored and belongs to it. */
  ghost predicate CurrentStored(q: Queue, r: Ref)
    requires r in q.messages
  {
    var m := q.messages[r];
    && (m.attemptRef != "" ==> m.attemptRef in q.attempts && q.attempts[m.attemptRef].messageRef == r)
    && (m.state == MessageState.Available ==> m.attemptRef == "")
    && (m.state == MessageState.TakeoverCandidate ==>
          m.attemptRef in q.attempts && q.attempts[m.attemptRef].state == AttemptState.Orphaned)
  }

  ghost predicate Linked(q: Queue) {
    && Keyed(q)
    && "" !in q.attempts
    && (forall a :: a in q.attempts ==> q.attempts[a].messageRef in q.messages && q.attempts[a].leaseExpiresAt > 0)
    && (forall r :: r in q.messages ==> CurrentStored(q, r))
    && (forall r :: r in q.messages ==> "" !in q.messages[r].dependsOn)
  }

  lemma SweepKeepsLinked(q: Queue, now: Time)
    requires Linked(q)
    ensures Linked(Reconcile(q, now))
  {
    var q', expired := Reconcile(q, now), ExpiredClaims(q, now);
    forall r | r in q'.messages ensures CurrentStored(q', r) {
      assert CurrentStored(q, r);
      if r in expired { assert q.messages[r].attemptRef in CurrentAttempts(q, expired); }
    }
  }

  lemma WithdrawKeepsLinked(q: Queue, refs: set<Ref>)
    requires Linked(q)
    ensures Linked(CancelRefs(q, refs))
  {
    var q' := CancelRefs(q, refs);
    forall r | r in q'.messages ensures CurrentStored(q', r) { assert CurrentStored(q, r); }
  }

  lemma ReopenKeepsLinked(q: Queue, refs: set<Ref>)
    requires Linked(q)
    ensures Linked(RetryRefs(q, refs))
  {
    var q' := RetryRefs(q, refs);
    forall r | r in q'.messages ensures CurrentStored(q', r) { assert CurrentStored(q, r); }
  }

  lemma ReportKeepsLinked(q: Queue, a: Attempt, req: CheckpointRequest, now: Time)
    requires Linked(q) && a.attemptRef in q.attempts && q.attempts[a.attemptRef] == a && Live(a, now)
    requires ValidCheckpoint(req)
    ensures Linked(Reported(q, a, req))
  {
    var q' := Reported(q, a, req);
    forall r | r in q'.messages ensures CurrentStored(q', r) { assert CurrentStored(q, r); }
  }

  lemma GrantKeepsLinked(q: Queue, m: Message, c: ClaimRequest)
    requires Linked(q) && m.messageRef in q.messages && m.dependsOn == q.messages[m.messageRef].dependsOn
    requires c.attemptRef != "" && c.attemptRef !in q.attempts && c.leaseExpiresAt > 0
    ensures Linked(Grant(q, m, c))
  {
    var q' := Grant(q, m, c);
    forall r | r in q'.messages ensures CurrentStored(q', r) { assert CurrentStored(q, r); }
  }

  lemma OrphanKeepsLinked(q: Queue, a: Attempt)
    requires Linked(q) && a.attemptRef in q.attempts && q.attempts[a.attemptRef] == a
    ensures Linked(Orphan(q, a))
  {
    var q' := Orphan(q, a);
    forall r | r in q'.messages ensures CurrentStored(q', r) { assert CurrentStored(q, r); }
  }

  lemma PutKeepsLinked(q: Queue, m: Message)
    requires Linked(q) && "" !in m.dependsOn
    requires m.attemptRef != "" ==> m.attemptRef in q.attempts && q.attempts[m.attemptRef].messageRef == m.messageRef
    requires m.state == MessageState.Available ==> m.attemptRef == ""
    requires m.state != MessageState.TakeoverCandidate
    ensures Linked(PutMessage(q, m))
  {
    var q' := PutMessage(q, m);
    forall r | r in q'.messages ensures CurrentStored(q', r) { assert r in q.messages ==> CurrentStored(q, r); }
  }

  lemma BuryKeepsLinked(q: Queue, m: Message, a: Attempt, c: ClaimRequest)
    requires Linked(q) && m.messageRef in q.messages && q.messages[m.messageRef] == m
    requires m.attemptRef == a.attemptRef && a.attemptRef in q.attempts && q.attempts[a.attemptRef] == a
    ensures Linked(Bury(q, m, a, c))
  {
    assert CurrentStored(q, m.messageRef);
    OrphanKeepsLinked(q, a);
    PutKeepsLinked(Orphan(q, a), m.(state := MessageState.DeadLettered));
    var b, q' := PutMessage(Orphan(q, a), m.(state := MessageState.DeadLettered)), Bury(q, m, a, c);
    forall r | r in q'.messages ensures CurrentStored(q', r) { assert CurrentStored(b, r); }
  }

  lemma ExtendKeepsLinked(q: Queue, a: Attempt, lease: Time)
    requires Linked(q) && a.attemptRef in q.attempts && q.attempts[a.attemptRef] == a && lease > 0
    ensures Linked(PutAttempt(q, a.(leaseExpiresAt := lease)))
  {
    var q' := PutAttempt(q, a.(leaseExpiresAt := lease));
    forall r | r in q'.messages ensures CurrentStored(q', r) { assert CurrentStored(q, r); }
  }

  lemma BumpKeepsLinked(q: Queue, kind: Refs.Kind)
    requires Linked(q)
    ensures Linked(Bump(q, kind))
  {
    forall r | r in q.messages ensures CurrentStored(Bump(q, kind), r) { assert CurrentStored(q, r); }
  }

  lemma MoveKeepsLinked(settings: Settings, s: Ledger, now: Time, move: Move)
    requires ValidSettings(settings) && Linked(s.queue) && Enabled(settings, s, now, move)
    ensures Linked(Apply(settings, s, now, move).queue)
  {
    var q := s.queue;
    match move
    case Draw(kind) => BumpKeepsLinked(q, kind);
    case Post(m) => PutKeepsLinked(q, m);
    case Assign(r, c) => GrantKeepsLinked(q, q.messages[r], c);
    case Retake(r, c) =>
      var a := q.attempts[q.messages[r].attemptRef];
      OrphanKeepsLinked(q, a);
      GrantKeepsLinked(Orphan(q, a), Redelivered(q.messages[r]), c);
    case Discard(r, c) => BuryKeepsLinked(q, q.messages[r], q.attempts[q.messages[r].attemptRef], c);
    case Sweep => SweepKeepsLinked(q, now);
    case Report(a, req) => ReportKeepsLinked(q, q.attempts[a], req, now);
    case Extend(a, lease) => ExtendKeepsLinked(q, q.attempts[a], lease);
    case Withdraw(refs) => WithdrawKeepsLinked(q, refs);
    case Reopen(refs) => ReopenKeepsLinked(q, refs);
    case _ =>
  }

  // Where refs come from

  /** The ref was handed out by this kind's counter. */
  ghost predicate Drawn(q: Queue, kind: Refs.Kind, ref: Ref) {
    exists n: nat :: 1 <= n <= Counter(q, kind) && ref == Refs.AllocRef(kind, n)
  }

  ghost predicate Counted(s: Ledger) {
    && (forall a :: a in s.queue.attempts ==> Drawn(s.queue, Refs.Kind.Attempt, a))
    && (forall d :: d in s.queue.deadLetters ==> Drawn(s.queue, Refs.Kind.DeadLetter, d))
    && (forall e :: e in s.sideEffects ==> Drawn(s.queue, Refs.Kind.SideEffect, e))
    && (forall a, i :: a in s.queue.checkpoints && 0 <= i < |s.queue.checkpoints[a]| ==>
          Drawn(s.queue, Refs.Kind.Checkpoint, s.queue.checkpoints[a][i].checkpointRef))
  }

  /** The next ref of a kind has never been handed out. */
  lemma NextIsFresh(q: Queue, kind: Refs.Kind)
    ensures !Drawn(q, kind, NextRef(q, kind))
    ensures Drawn(Bump(q, kind), kind, NextRef(q, kind))
  {
    forall n: nat | 1 <= n <= Counter(q, kind) ensures Refs.AllocRef(kind, n) != NextRef(q, kind) {
      if Refs.AllocRef(kind, n) == NextRef(q, kind) {
        Refs.AllocRefInjective(kind, n, kind, Counter(q, kind) + 1);
      }
    }
  }

  lemma DrawnStays(q: Queue, q': Queue, kind: Refs.Kind, ref: Ref)
    requires Drawn(q, kind, ref) && Counter(q, kind) <= Counter(q', kind)
    ensures Drawn(q', kind, ref)
  {
    var n: nat :| 1 <= n <= Counter(q, kind) && ref == Refs.AllocRef(kind, n);
  }

  // What no move changes

  lemma ClaimKeepsAttempt(settings: Settings, s: Ledger, now: Time, move: Move, a: Ref)
    requires Claiming(move)
    requires Linked(s.queue) && Enabled(settings, s, now, move) && a in s.queue.attempts
    ensures a in Apply(settings, s, now, move).queue.attempts
    ensures var before, after := s.queue.attempts[a], Apply(settings, s, now, move).queue.attempts[a];
            after.messageRef == before.messageRef && after.endpointRef == before.endpointRef && after.attemptNo == before.attemptNo
  {
  }

  lemma SweepKeepsAttempt(settings: Settings, s: Ledger, now: Time, move: Move, a: Ref)
    requires Sweeping(move)
    requires Linked(s.queue) && Enabled(settings, s, now, move) && a in s.queue.attempts
    ensures a in Apply(settings, s, now, move).queue.attempts
    ensures var before, after := s.queue.attempts[a], Apply(settings, s, now, move).queue.attempts[a];
            after.messageRef == before.messageRef && after.endpointRef == before.endpointRef && after.attemptNo == before.attemptNo
  {
  }

  lemma OtherKeepsAttempt(settings: Settings, s: Ledger, now: Time, move: Move, a: Ref)
    requires !Claiming(move) && !Sweeping(move)
    requires Linked(s.queue) && Enabled(settings, s, now, move) && a in s.queue.attempts
    ensures a in Apply(settings, s, now, move).queue.attempts
    ensures var before, after := s.queue.attempts[a], Apply(settings, s, now, move).queue.attempts[a];
            after.messageRef == before.messageRef && after.endpointRef == before.endpointRef && after.attemptNo == before.attemptNo
  {
  }

  /** Attempts are never removed and keep their identity. */
  lemma AttemptKept(settings: Settings, s: Ledger, now: Time, move: Move, a: Ref)
    requires Linked(s.queue) && Enabled(settings, s, now, move) && a in s.queue.attempts
    ensures a in Apply(settings, s, now, move).queue.attempts
    ensures var before, after := s.queue.attempts[a], Apply(settings, s, now, move).queue.attempts[a];
            after.messageRef == before.messageRef && after.endpointRef == before.endpointRef && after.attemptNo == before.attemptNo
  {
    hide Apply;
    if Claiming(move) {
      ClaimKeepsAttempt(settings, s, now, move, a);
    } else if Sweeping(move) {
      SweepKeepsAttempt(settings, s, now, move, a);
    } else {
      OtherKeepsAttempt(settings, s, now, move, a);
    }
  }

  /** An attempt appears only through a claim, under the ref just drawn. */
  lemma AttemptNew(settings: Settings, s: Ledger, now: Time, move: Move, a: Ref)
    requires Linked(s.queue) && Enabled(settings, s, now, move)
    requires a !in s.queue.attempts && a in Apply(settings, s, now, move).queue.attempts
    ensures (move.Assign? || move.Retake?) && a == move.request.attemptRef && JustDrawn(s.queue, Refs.Kind.Attempt, a)
    ensures Apply(settings, s, now, move).queue.attempts[a].messageRef == move.messageRef
  {
  }

  /** What a message says and asks for, its progress aside. */
  function Terms(m: Message): Message {
    m.(state := MessageState.Available, attemptRef := "", redeliveryCount := 0)
  }

  /** The terms include the task and the dependencies. */
  lemma TermsInclude(m: Message, n: Message)
    requires Terms(m) == Terms(n)
    ensures m.dependsOn == n.dependsOn && m.correlationRef == n.correlationRef && m.messageRef == n.messageRef
  {
    assert Terms(m).dependsOn == m.dependsOn && Terms(n).dependsOn == n.dependsOn;
    assert Terms(m).correlationRef == m.correlationRef && Terms(n).correlationRef == n.correlationRef;
    assert Terms(m).messageRef == m.messageRef && Terms(n).messageRef == n.messageRef;
  }

  lemma ClaimKeepsMessage(settings: Settings, s: Ledger, now: Time, move: Move, r: Ref)
    requires Claiming(move)
    requires Linked(s.queue) && Enabled(settings, s, now, move) && r in s.queue.messages
    ensures r in Apply(settings, s, now, move).queue.messages
    ensures var before, after := s.queue.messages[r], Apply(settings, s, now, move).queue.messages[r];
            Terms(after) == Terms(before)
            && after.redeliveryCount == before.redeliveryCount + if move.Retake? && move.messageRef == r then 1 else 0
  {
  }

  lemma SweepKeepsMessage(settings: Settings, s: Ledger, now: Time, move: Move, r: Ref)
    requires Sweeping(move)
    requires Linked(s.queue) && Enabled(settings, s, now, move) && r in s.queue.messages
    ensures r in Apply(settings, s, now, move).queue.messages
    ensures var before, after := s.queue.messages[r], Apply(settings, s, now, move).queue.messages[r];
            Terms(after) == Terms(before)
            && after.redeliveryCount == before.redeliveryCount + if move.Retake? && move.messageRef == r then 1 else 0
  {
  }

  lemma OtherKeepsMessage(settings: Settings, s: Ledger, now: Time, move: Move, r: Ref)
    requires !Claiming(move) && !Sweeping(move)
    requires Linked(s.queue) && Enabled(settings, s, now, move) && r in s.queue.messages
    ensures r in Apply(settings, s, now, move).queue.messages
    ensures var before, after := s.queue.messages[r], Apply(settings, s, now, move).queue.messages[r];
            Terms(after) == Terms(before)
            && after.redeliveryCount == before.redeliveryCount + if move.Retake? && move.messageRef == r then 1 else 0
  {
  }

  /** Messages are never removed and keep their terms. */
  lemma MessageKept(settings: Settings, s: Ledger, now: Time, move: Move, r: Ref)
    requires Linked(s.queue) && Enabled(settings, s, now, move) && r in s.queue.messages
    ensures r in Apply(settings, s, now, move).queue.messages
    ensures var before, after := s.queue.messages[r], Apply(settings, s, now, move).queue.messages[r];
            Terms(after) == Terms(before)
            && after.dependsOn == before.dependsOn && after.correlationRef == before.correlationRef
            && after.redeliveryCount == before.redeliveryCount + if move.Retake? && move.messageRef == r then 1 else 0
  {
    hide Apply;
    if Claiming(move) {
      ClaimKeepsMessage(settings, s, now, move, r);
    } else if Sweeping(move) {
      SweepKeepsMessage(settings, s, now, move, r);
    } else {
      OtherKeepsMessage(settings, s, now, move, r);
    }
  }

  lemma MessageNew(settings: Settings, s: Ledger, now: Time, move: Move, r: Ref)
    requires Linked(s.queue) && Enabled(settings, s, now, move)
    requires r !in s.queue.messages && r in Apply(settings, s, now, move).queue.messages
    ensures move.Post? && r == move.message.messageRef
    ensures Apply(settings, s, now, move).queue.messages[r] == move.message
  {
  }

  /** Only an accepted checkpoint touches the checkpoint lists. */
  lemma CheckpointsOnlyReported(settings: Settings, s: Ledger, now: Time, move: Move)
    requires Enabled(settings, s, now, move) && !move.Report?
    ensures Apply(settings, s, now, move).queue.checkpoints == s.queue.checkpoints
  {
  }

  lemma CountersOnlyGrow(settings: Settings, s: Ledger, now: Time, move: Move, kind: Refs.Kind)
    requires Enabled(settings, s, now, move)
    ensures Counter(s.queue, kind) <= Counter(Apply(settings, s, now, move).queue, kind)
  {
  }

  lemma AttemptsStayCounted(settings: Settings, s: Ledger, now: Time, move: Move)
    requires Linked(s.queue) && Counted(s) && Enabled(settings, s, now, move)
    ensures var q' := Apply(settings, s, now, move).queue;
            forall a :: a in q'.attempts ==> Drawn(q', Refs.Kind.Attempt, a)
  {
    var q, q' := s.queue, Apply(settings, s, now, move).queue;
    CountersOnlyGrow(settings, s, now, move, Refs.Kind.Attempt);
    forall a | a in q'.attempts ensures Drawn(q', Refs.Kind.Attempt, a) {
      if a in q.attempts { DrawnStays(q, q', Refs.Kind.Attempt, a); } else { AttemptNew(settings, s, now, move, a); }
    }
  }

  lemma CheckpointsStayCounted(settings: Settings, s: Ledger, now: Time, move: Move)
    requires Counted(s) && Enabled(settings, s, now, move)
    ensures var q' := Apply(settings, s, now, move).queue;
            forall a, i :: a in q'.checkpoints && 0 <= i < |q'.checkpoints[a]| ==>
              Drawn(q', Refs.Kind.Checkpoint, q'.checkpoints[a][i].checkpointRef)
  {
    var q, q' := s.queue, Apply(settings, s, now, move).queue;
    CountersOnlyGrow(settings, s, now, move, Refs.Kind.Checkpoint);
    NextIsFresh(q, Refs.Kind.Checkpoint);
    if !move.Report? { CheckpointsOnlyReported(settings, s, now, move); }
    forall a, i | a in q'.checkpoints && 0 <= i < |q'.checkpoints[a]|
      ensures Drawn(q', Refs.Kind.Checkpoint, q'.checkpoints[a][i].checkpointRef)
    {
      if a in q.checkpoints && i < |q.checkpoints[a]| {
        DrawnStays(q, q', Refs.Kind.Checkpoint, q.checkpoints[a][i].checkpointRef);
      }
    }
  }

  lemma MoveKeepsCounted(settings: Settings, s: Ledger, now: Time, move: Move)
    requires Linked(s.queue) && Counted(s) && Enabled(settings, s, now, move)
    ensures Counted(Apply(settings, s, now, move))
  {
    var s' := Apply(settings, s, now, move);
    AttemptsStayCounted(settings, s, now, move);
    CheckpointsStayCounted(settings, s, now, move);
    CountersOnlyGrow(settings, s, now, move, Refs.Kind.DeadLetter);
    CountersOnlyGrow(settings, s, now, move, Refs.Kind.SideEffect);
    forall d | d in s'.queue.deadLetters ensures Drawn(s'.queue, Refs.Kind.DeadLetter, d) {
      if d in s.queue.deadLetters { DrawnStays(s.queue, s'.queue, Refs.Kind.DeadLetter, d); }
    }
    forall e | e in s'.sideEffects ensures Drawn(s'.queue, Refs.Kind.SideEffect, e) {
      if e in s.sideEffects { DrawnStays(s.queue, s'.queue, Refs.Kind.SideEffect, e); }
    }
  }
}
