// Who may act on a message: dead attempts stay dead, and the one live attempt
// is the one its message points at.
module Leases {
  import opened Wrappers
  import opened Domain
  import opened QueueModel
  import opened Calls
  import opened Protocol
  import opened Links

  lemma DeadThroughClaim(settings: Settings, s: Ledger, now: Time, move: Move, a: Ref)
    requires Claiming(move)
    requires Linked(s.queue) && Enabled(settings, s, now, move)
    requires a in s.queue.attempts && !Live(s.queue.attempts[a], now)
    ensures a in Apply(settings, s, now, move).queue.attempts
    ensures !Live(Apply(settings, s, now, move).queue.attempts[a], now)
  {
  }

  lemma DeadThroughSweep(settings: Settings, s: Ledger, now: Time, move: Move, a: Ref)
    requires Sweeping(move)
    requires Linked(s.queue) && Enabled(settings, s, now, move)
    requires a in s.queue.attempts && !Live(s.queue.attempts[a], now)
    ensures a in Apply(settings, s, now, move).queue.attempts
    ensures !Live(Apply(settings, s, now, move).queue.attempts[a], now)
  {
  }

  lemma DeadThroughOther(settings: Settings, s: Ledger, now: Time, move: Move, a: Ref)
    requires !Claiming(move) && !Sweeping(move)
    requires Linked(s.queue) && Enabled(settings, s, now, move)
    requires a in s.queue.attempts && !Live(s.queue.attempts[a], now)
    ensures a in Apply(settings, s, now, move).queue.attempts
    ensures !Live(Apply(settings, s, now, move).queue.attempts[a], now)
  {
  }

  /** Once an attempt is closed or past its lease, no move makes it live again. */
  lemma DeadStaysDead(settings: Settings, s: Ledger, now: Time, move: Move, a: Ref)
    requires Linked(s.queue) && Enabled(settings, s, now, move)
    requires a in s.queue.attempts && !Live(s.queue.attempts[a], now)
    ensures a in Apply(settings, s, now, move).queue.attempts
    ensures !Live(Apply(settings, s, now, move).queue.attempts[a], now)
  {
    hide Apply;
    if Claiming(move) {
      DeadThroughClaim(settings, s, now, move, a);
    } else if Sweeping(move) {
      DeadThroughSweep(settings, s, now, move, a);
    } else {
      DeadThroughOther(settings, s, now, move, a);
    }
  }

  lemma ReportsItsOwn(settings: Settings, s: Ledger, now: Time, move: Move, a: Ref)
    requires Linked(s.queue) && Enabled(settings, s, now, move) && move.Report? && move.attemptRef != a
    ensures CheckpointsOf(Apply(settings, s, now, move).queue, a) == CheckpointsOf(s.queue, a)
  {
  }

  /** A dead attempt gets no further checkpoint. */
  lemma DeadReportsNothing(settings: Settings, s: Ledger, now: Time, move: Move, a: Ref)
    requires Linked(s.queue) && Enabled(settings, s, now, move)
    requires a in s.queue.attempts && !Live(s.queue.attempts[a], now)
    ensures CheckpointsOf(Apply(settings, s, now, move).queue, a) == CheckpointsOf(s.queue, a)
  {
    hide Apply, Linked;
    if move.Report? {
      ReportsItsOwn(settings, s, now, move, a);
    } else {
      CheckpointsOnlyReported(settings, s, now, move);
    }
  }

  /** The attempt's message points back at it and is in a worker's hands. */
  ghost predicate IsCurrent(q: Queue, a: Ref)
    requires a in q.attempts
  {
    var r := q.attempts[a].messageRef;
    && r in q.messages && q.messages[r].attemptRef == a
    && (Held(q.messages[r].state) || q.messages[r].state == MessageState.InputRequired)
  }

  ghost predicate LiveIsCurrent(q: Queue, now: Time) {
    forall a :: a in q.attempts && Live(q.attempts[a], now) ==> IsCurrent(q, a)
  }

  /** At most one live attempt per message. */
  lemma OneLiveAttempt(q: Queue, now: Time, a: Ref, b: Ref)
    requires LiveIsCurrent(q, now) && a in q.attempts && b in q.attempts
    requires Live(q.attempts[a], now) && Live(q.attempts[b], now) && q.attempts[a].messageRef == q.attempts[b].messageRef
    ensures a == b
  {
    assert IsCurrent(q, a) && IsCurrent(q, b);
  }

  lemma LiveIsCurrentLater(q: Queue, now: Time, later: Time)
    requires LiveIsCurrent(q, now) && now <= later
    ensures LiveIsCurrent(q, later)
  {
  }

  /** None of these messages still has a live attempt. */
  ghost predicate NoneLive(q: Queue, refs: set<Ref>, now: Time) {
    forall r :: r in refs && r in q.messages && q.messages[r].attemptRef in q.attempts ==>
      !Live(q.attempts[q.messages[r].attemptRef], now)
  }

  /** A claim never meets a live attempt of its message. */
  lemma ClaimMeetsNoLiveAttempt(q: Queue, now: Time, r: Ref, a: Ref)
    requires Linked(q) && LiveIsCurrent(q, now) && r in q.messages
    requires q.messages[r].state == MessageState.Available || Abandoned(q, r, now)
    requires a in q.attempts && q.attempts[a].messageRef == r
    ensures !Live(q.attempts[a], now)
  {
    assert CurrentStored(q, r);
    assert Live(q.attempts[a], now) ==> IsCurrent(q, a);
  }

  lemma GrantKeepsLive(q: Queue, now: Time, r: Ref, m: Message, c: ClaimRequest)
    requires Linked(q) && LiveIsCurrent(q, now) && r in q.messages && m.messageRef == r && c.attemptRef !in q.attempts
    requires forall a :: a in q.attempts && q.attempts[a].messageRef == r ==> !Live(q.attempts[a], now)
    ensures LiveIsCurrent(Grant(q, m, c), now)
  {
    var q' := Grant(q, m, c);
    forall a | a in q'.attempts && Live(q'.attempts[a], now) ensures IsCurrent(q', a) {
      if a in q.attempts { assert IsCurrent(q, a); }
    }
  }

  lemma OrphanKeepsLive(q: Queue, now: Time, a: Attempt)
    requires Linked(q) && LiveIsCurrent(q, now) && a.attemptRef in q.attempts && q.attempts[a.attemptRef] == a
    ensures LiveIsCurrent(Orphan(q, a), now)
  {
    var q' := Orphan(q, a);
    forall b | b in q'.attempts && Live(q'.attempts[b], now) ensures IsCurrent(q', b) { assert IsCurrent(q, b); }
  }

  lemma ReportKeepsLive(q: Queue, now: Time, a: Attempt, req: CheckpointRequest)
    requires Linked(q) && LiveIsCurrent(q, now) && a.attemptRef in q.attempts && q.attempts[a.attemptRef] == a
    requires Live(a, now) && ValidCheckpoint(req)
    ensures LiveIsCurrent(Reported(q, a, req), now)
  {
    var q' := Reported(q, a, req);
    assert IsCurrent(q, a.attemptRef);
    forall b | b in q'.attempts && Live(q'.attempts[b], now) ensures IsCurrent(q', b) { assert IsCurrent(q, b); }
  }

  /** A live attempt of a message in these refs would be the one it points at. */
  lemma SweepKeepsLive(q: Queue, now: Time)
    requires Linked(q) && LiveIsCurrent(q, now)
    ensures LiveIsCurrent(Reconcile(q, now), now)
  {
    var q', expired := Reconcile(q, now), ExpiredClaims(q, now);
    forall b | b in q'.attempts && Live(q'.attempts[b], now) ensures IsCurrent(q', b) {
      assert IsCurrent(q, b);
      assert q.attempts[b].messageRef !in expired;
    }
  }

  lemma WithdrawKeepsLive(q: Queue, now: Time, refs: set<Ref>)
    requires Linked(q) && LiveIsCurrent(q, now)
    ensures LiveIsCurrent(CancelRefs(q, refs), now)
  {
    var q' := CancelRefs(q, refs);
    forall b | b in q'.attempts && Live(q'.attempts[b], now) ensures IsCurrent(q', b) {
      assert IsCurrent(q, b);
      var r := q.attempts[b].messageRef;
      assert r in refs ==> b in CurrentAttempts(q, refs);
    }
  }

  /** Retrying keeps exclusivity exactly when no retried message still has a live attempt. */
  lemma ReopenKeepsLive(q: Queue, now: Time, refs: set<Ref>)
    requires Linked(q) && LiveIsCurrent(q, now)
    ensures LiveIsCurrent(RetryRefs(q, refs), now) <==> NoneLive(q, refs, now)
  {
    var q' := RetryRefs(q, refs);
    if NoneLive(q, refs, now) {
      forall b | b in q'.attempts && Live(q'.attempts[b], now) ensures IsCurrent(q', b) { assert IsCurrent(q, b); }
    }
    if LiveIsCurrent(q', now) {
      forall r | r in refs && r in q.messages && q.messages[r].attemptRef in q.attempts
        ensures !Live(q.attempts[q.messages[r].attemptRef], now)
      {
        var b := q.messages[r].attemptRef;
        assert CurrentStored(q, r);
        assert Live(q.attempts[b], now) ==> IsCurrent(q', b);
      }
    }
  }

  lemma AssignKeepsLive(settings: Settings, s: Ledger, now: Time, r: Ref, c: ClaimRequest)
    requires Linked(s.queue) && LiveIsCurrent(s.queue, now) && Enabled(settings, s, now, Assign(r, c))
    ensures LiveIsCurrent(Grant(s.queue, s.queue.messages[r], c), now)
  {
    forall a | a in s.queue.attempts && s.queue.attempts[a].messageRef == r ensures !Live(s.queue.attempts[a], now) {
      ClaimMeetsNoLiveAttempt(s.queue, now, r, a);
    }
    GrantKeepsLive(s.queue, now, r, s.queue.messages[r], c);
  }

  lemma RetakeKeepsLive(settings: Settings, s: Ledger, now: Time, r: Ref, c: ClaimRequest)
    requires Linked(s.queue) && LiveIsCurrent(s.queue, now) && Enabled(settings, s, now, Retake(r, c))
    ensures var m := s.queue.messages[r];
            LiveIsCurrent(Grant(Orphan(s.queue, s.queue.attempts[m.attemptRef]), Redelivered(m), c), now)
  {
    var q := s.queue;
    forall a | a in q.attempts && q.attempts[a].messageRef == r ensures !Live(q.attempts[a], now) {
      ClaimMeetsNoLiveAttempt(q, now, r, a);
    }
    var current := q.attempts[q.messages[r].attemptRef];
    OrphanKeepsLive(q, now, current);
    OrphanKeepsLinked(q, current);
    GrantKeepsLive(Orphan(q, current), now, r, Redelivered(q.messages[r]), c);
  }

  lemma DiscardKeepsLive(settings: Settings, s: Ledger, now: Time, r: Ref, c: ClaimRequest)
    requires Linked(s.queue) && LiveIsCurrent(s.queue, now) && Enabled(settings, s, now, Discard(r, c))
    ensures var m := s.queue.messages[r]; LiveIsCurrent(Bury(s.queue, m, s.queue.attempts[m.attemptRef], c), now)
  {
    var q := s.queue;
    var q' := Bury(q, q.messages[r], q.attempts[q.messages[r].attemptRef], c);
    forall a | a in q'.attempts && Live(q'.attempts[a], now) ensures IsCurrent(q', a) {
      assert IsCurrent(q, a);
      if q.attempts[a].messageRef == r { ClaimMeetsNoLiveAttempt(q, now, r, a); }
    }
  }

  lemma ExtendKeepsLive(q: Queue, now: Time, a: Attempt)
    requires LiveIsCurrent(q, now) && a.attemptRef in q.attempts && Live(q.attempts[a.attemptRef], now)
    requires a.messageRef == q.attempts[a.attemptRef].messageRef
    ensures LiveIsCurrent(PutAttempt(q, a), now)
  {
    var q' := PutAttempt(q, a);
    forall b | b in q'.attempts && Live(q'.attempts[b], now) ensures IsCurrent(q', b) { assert IsCurrent(q, b); }
  }

  lemma PostKeepsLive(q: Queue, now: Time, m: Message)
    requires Linked(q) && LiveIsCurrent(q, now) && m.messageRef !in q.messages
    ensures LiveIsCurrent(PutMessage(q, m), now)
  {
    var q' := PutMessage(q, m);
    forall b | b in q'.attempts && Live(q'.attempts[b], now) ensures IsCurrent(q', b) { assert IsCurrent(q, b); }
  }

  /** Every move keeps it, a retry under the condition above. */
  lemma MoveKeepsLive(settings: Settings, s: Ledger, now: Time, move: Move)
    requires ValidSettings(settings) && Linked(s.queue) && LiveIsCurrent(s.queue, now)
    requires Enabled(settings, s, now, move) && (move.Reopen? ==> NoneLive(s.queue, move.refs, now))
    ensures LiveIsCurrent(Apply(settings, s, now, move).queue, now)
  {
    hide CurrentStored, Grant, Orphan, Bury, Reported, Reconcile, CancelRefs, RetryRefs, NoneLive;
    var q := s.queue;
    match move
    case Assign(r, c) => AssignKeepsLive(settings, s, now, r, c);
    case Retake(r, c) => RetakeKeepsLive(settings, s, now, r, c);
    case Discard(r, c) => DiscardKeepsLive(settings, s, now, r, c);
    case Sweep => SweepKeepsLive(q, now);
    case Report(a, req) => ReportKeepsLive(q, now, q.attempts[a], req);
    case Extend(a, lease) => ExtendKeepsLive(q, now, q.attempts[a].(leaseExpiresAt := lease));
    case Withdraw(refs) => WithdrawKeepsLive(q, now, refs);
    case Reopen(refs) => ReopenKeepsLive(q, now, refs);
    case Post(m) => PostKeepsLive(q, now, m);
    case Draw(kind) => assert forall a :: a in q.attempts ==> (IsCurrent(q, a) <==> IsCurrent(Bump(q, kind), a));
    case _ =>
  }
}
