// Dependency order: a claimed message's dependencies were claimed before it.
module Dependencies {
  import opened Wrappers
  import opened Domain
  import opened Routing
  import opened QueueModel
  import opened Calls
  import opened Protocol
  import opened Links
  import Refs

  /** The place of an attempt in the order of claims: the number in its ref. */
  ghost function ClaimNumber(ref: Ref): nat {
    if exists n: nat :: ref == Refs.AllocRef(Refs.Kind.Attempt, n)
    then var n: nat :| ref == Refs.AllocRef(Refs.Kind.Attempt, n); n
    else 0
  }

  lemma ClaimNumberOf(n: nat)
    ensures ClaimNumber(Refs.AllocRef(Refs.Kind.Attempt, n)) == n
  {
    var ref := Refs.AllocRef(Refs.Kind.Attempt, n);
    assert ref == Refs.AllocRef(Refs.Kind.Attempt, ClaimNumber(ref));
    Refs.AllocRefInjective(Refs.Kind.Attempt, n, Refs.Kind.Attempt, ClaimNumber(ref));
  }

  ghost predicate HasAttempt(q: Queue, r: Ref) {
    exists a :: a in q.attempts && q.attempts[a].messageRef == r
  }

  /** Some attempt of message `d` was claimed before attempt `a`. */
  ghost predicate ClaimedBefore(q: Queue, d: Ref, a: Ref) {
    exists b :: b in q.attempts && q.attempts[b].messageRef == d && ClaimNumber(b) < ClaimNumber(a)
  }

  ghost predicate DependenciesFirst(q: Queue, a: Ref)
    requires a in q.attempts
  {
    var r := q.attempts[a].messageRef;
    r in q.messages && forall d :: d in q.messages[r].dependsOn ==> ClaimedBefore(q, d, a)
  }

  ghost predicate Ordered(q: Queue) {
    && (forall r :: r in q.messages && q.messages[r].state == MessageState.Completed ==> HasAttempt(q, r))
    && (forall a :: a in q.attempts ==> DependenciesFirst(q, a))
  }

  lemma CompletedByClaim(settings: Settings, s: Ledger, now: Time, move: Move, r: Ref)
    requires Claiming(move)
    requires Linked(s.queue) && Enabled(settings, s, now, move)
    requires r in Apply(settings, s, now, move).queue.messages
    requires Apply(settings, s, now, move).queue.messages[r].state == MessageState.Completed
    ensures r in s.queue.messages
    ensures s.queue.messages[r].state == MessageState.Completed
  {
  }

  lemma CompletedByOther(settings: Settings, s: Ledger, now: Time, move: Move, r: Ref)
    requires !Claiming(move)
    requires Linked(s.queue) && Enabled(settings, s, now, move)
    requires r in Apply(settings, s, now, move).queue.messages
    requires Apply(settings, s, now, move).queue.messages[r].state == MessageState.Completed
    ensures r in s.queue.messages
    ensures s.queue.messages[r].state == MessageState.Completed
            || (move.Report? && s.queue.attempts[move.attemptRef].messageRef == r)
  {
  }

  /** Only the holder of an attempt completes its message. */
  lemma CompletedBy(settings: Settings, s: Ledger, now: Time, move: Move, r: Ref)
    requires Linked(s.queue) && Enabled(settings, s, now, move)
    requires r in Apply(settings, s, now, move).queue.messages
    requires Apply(settings, s, now, move).queue.messages[r].state == MessageState.Completed
    ensures r in s.queue.messages
    ensures s.queue.messages[r].state == MessageState.Completed
            || (move.Report? && s.queue.attempts[move.attemptRef].messageRef == r)
  {
    hide Apply;
    if Claiming(move) { CompletedByClaim(settings, s, now, move, r); } else { CompletedByOther(settings, s, now, move, r); }
  }

  lemma HasAttemptStays(settings: Settings, s: Ledger, now: Time, move: Move, r: Ref)
    requires Linked(s.queue) && Enabled(settings, s, now, move) && HasAttempt(s.queue, r)
    ensures HasAttempt(Apply(settings, s, now, move).queue, r)
  {
    var a :| a in s.queue.attempts && s.queue.attempts[a].messageRef == r;
    AttemptKept(settings, s, now, move, a);
  }

  lemma ClaimedBeforeStays(settings: Settings, s: Ledger, now: Time, move: Move, d: Ref, a: Ref)
    requires Linked(s.queue) && Enabled(settings, s, now, move) && ClaimedBefore(s.queue, d, a)
    ensures ClaimedBefore(Apply(settings, s, now, move).queue, d, a)
  {
    var b :| b in s.queue.attempts && s.queue.attempts[b].messageRef == d && ClaimNumber(b) < ClaimNumber(a);
    AttemptKept(settings, s, now, move, b);
  }

  /** Every stored attempt was claimed before one under the ref just drawn. */
  lemma StoredBeforeDrawn(s: Ledger, a: Ref, b: Ref)
    requires Counted(s) && JustDrawn(s.queue, Refs.Kind.Attempt, a) && a !in s.queue.attempts && b in s.queue.attempts
    ensures ClaimNumber(b) < ClaimNumber(a)
  {
    var n: nat :| 1 <= n <= Counter(s.queue, Refs.Kind.Attempt) && b == Refs.AllocRef(Refs.Kind.Attempt, n);
    ClaimNumberOf(n);
    ClaimNumberOf(Counter(s.queue, Refs.Kind.Attempt));
  }

  /** The new attempt's dependencies are completed, so each has an attempt already. */
  lemma NewAttemptOrdered(settings: Settings, s: Ledger, now: Time, move: Move, a: Ref)
    requires Linked(s.queue) && Counted(s) && Ordered(s.queue) && Enabled(settings, s, now, move)
    requires a !in s.queue.attempts && a in Apply(settings, s, now, move).queue.attempts
    ensures DependenciesFirst(Apply(settings, s, now, move).queue, a)
  {
    var q, q' := s.queue, Apply(settings, s, now, move).queue;
    AttemptNew(settings, s, now, move, a);
    var r := move.messageRef;
    MessageKept(settings, s, now, move, r);
    forall d | d in q'.messages[r].dependsOn ensures ClaimedBefore(q', d, a) {
      assert d != "" && States(q)[d] == MessageState.Completed;
      var b :| b in q.attempts && q.attempts[b].messageRef == d;
      StoredBeforeDrawn(s, a, b);
      AttemptKept(settings, s, now, move, b);
    }
  }

  lemma MoveKeepsOrdered(settings: Settings, s: Ledger, now: Time, move: Move)
    requires Linked(s.queue) && Counted(s) && Ordered(s.queue) && Enabled(settings, s, now, move)
    ensures Ordered(Apply(settings, s, now, move).queue)
  {
    var q, q' := s.queue, Apply(settings, s, now, move).queue;
    forall r | r in q'.messages && q'.messages[r].state == MessageState.Completed ensures HasAttempt(q', r) {
      CompletedBy(settings, s, now, move, r);
      HasAttemptStays(settings, s, now, move, r);
    }
    forall a | a in q'.attempts ensures DependenciesFirst(q', a) {
      if a in q.attempts {
        AttemptKept(settings, s, now, move, a);
        var r := q.attempts[a].messageRef;
        assert DependenciesFirst(q, a);
        MessageKept(settings, s, now, move, r);
        forall d | d in q'.messages[r].dependsOn ensures ClaimedBefore(q', d, a) {
          ClaimedBeforeStays(settings, s, now, move, d, a);
        }
      } else {
        NewAttemptOrdered(settings, s, now, move, a);
      }
    }
  }

  ghost predicate WaitsOn(q: Queue, r: Ref, refs: set<Ref>) {
    r in q.messages && exists d :: d in q.messages[r].dependsOn && d in refs
  }

  /** Messages that wait on each other: each depends on some member of the set. A cycle is one. */
  ghost predicate WaitOnEachOther(q: Queue, refs: set<Ref>) {
    forall r :: r in refs ==> WaitsOn(q, r, refs)
  }

  lemma EarlierInCycle(q: Queue, refs: set<Ref>, a: Ref) returns (b: Ref)
    requires Ordered(q) && a in q.attempts && WaitsOn(q, q.attempts[a].messageRef, refs)
    ensures b in q.attempts && q.attempts[b].messageRef in refs && ClaimNumber(b) < ClaimNumber(a)
  {
    assert DependenciesFirst(q, a);
    var d :| d in q.messages[q.attempts[a].messageRef].dependsOn && d in refs;
    b :| b in q.attempts && q.attempts[b].messageRef == d && ClaimNumber(b) < ClaimNumber(a);
  }

  /** No message on a dependency cycle is ever claimed. */
  lemma {:induction false} CycleNeverClaimed(q: Queue, refs: set<Ref>, a: Ref)
    requires Ordered(q) && WaitOnEachOther(q, refs) && a in q.attempts
    ensures q.attempts[a].messageRef !in refs
    decreases ClaimNumber(a)
  {
    if q.attempts[a].messageRef in refs {
      var b := EarlierInCycle(q, refs, a);
      CycleNeverClaimed(q, refs, b);
    }
  }
}
