// What the calls do that look after work under way: lease refreshes, task
// commands, the sweep, and claims that are refused, record by record.
module Upkeep {
  import opened Wrappers
  import opened Domain
  import opened Text
  import opened QueueModel
  import opened Calls
  import opened Protocol
  import opened Links
  import opened Polling
  import opened Paths
  import opened Reachable
  import opened Runs
  import opened Grants
  import opened Admission
  import opened Postings
  import opened Reports
  import LeaseKeeper
  import Refs

  // Leases

  /** A refresh is accepted exactly from the endpoint that may act, and then moves the one lease and nothing else. */
  lemma RefreshExtends(settings: Settings, s: Ledger, now: Time, a: Ref, e: Ref)
    requires Linked(s.queue)
    ensures var turn := RefreshLease(settings, s, now, a, e);
            var q, q' := s.queue, turn.ledger.queue;
            && (turn.reply.Leased? <==> e != "" && MayAct(q, a, e, now))
            && (turn.reply.Refused? <==> !turn.reply.Leased?) && (turn.reply.Refused? ==> turn.ledger == s)
            && (turn.reply.Leased? ==>
                  && turn.ledger == s.(queue := q.(attempts := q'.attempts))
                  && q'.attempts == q.attempts[a := q.attempts[a].(leaseExpiresAt := now + settings.leaseDuration)]
                  && turn.reply.attempt == q'.attempts[a])
  {
    if a in s.queue.attempts { assert s.queue.attempts[a].attemptRef == a; }
    hide Linked;
  }

  /** Call `k` of the run set the lease of attempt `a`: its grant, or an accepted refresh of it. */
  ghost predicate LeasedAt(settings: Settings, events: seq<Event>, k: nat, a: Ref)
    requires k < |events|
  {
    var call, reply := events[k].call, LastReply(settings, events[..k + 1]);
    || (reply.Granted? && reply.claim.attempt.attemptRef == a)
    || (call.RefreshCall? && call.attemptRef == a && reply.Leased?)
  }

  lemma LeasesOfPrefix(settings: Settings, events: seq<Event>, a: Ref)
    requires events != []
    ensures var before := events[..|events| - 1];
            forall i :: 0 <= i < |before| ==> (LeasedAt(settings, before, i, a) <==> LeasedAt(settings, events, i, a))
  {
    hide LastReply;
    var before := events[..|events| - 1];
    forall i | 0 <= i < |before| ensures before[..i + 1] == events[..i + 1] && before[i] == events[i] {}
  }

  lemma GrantedLease(q: Queue, claim: ClaimResult, r: Ref, e: Ref, lease: Time)
    requires HandsTo(q, claim, r, e, lease)
    ensures var a := claim.attempt.attemptRef; a in q.attempts && q.attempts[a].leaseExpiresAt == lease
  {
  }

  /** Each attempt's lease after a call. */
  lemma LeaseAfter(settings: Settings, s: Ledger, now: Time, call: Call, a: Ref)
    requires ValidSettings(settings) && Linked(s.queue) && Counted(s) && EndpointsNamed(s)
    requires a in Step(settings, s, now, call).ledger.queue.attempts
    ensures var turn := Step(settings, s, now, call);
            if (turn.reply.Granted? && turn.reply.claim.attempt.attemptRef == a)
               || (call.RefreshCall? && call.attemptRef == a && turn.reply.Leased?)
            then turn.ledger.queue.attempts[a].leaseExpiresAt == now + settings.leaseDuration
            else a in s.queue.attempts && turn.ledger.queue.attempts[a].leaseExpiresAt == s.queue.attempts[a].leaseExpiresAt
  {
    hide Step, Linked, Counted, EndpointsNamed, HandsTo;
    var turn := Step(settings, s, now, call);
    if turn.reply.Granted? {
      GrantIsTheClaimers(settings, s, now, call);
      GrantedLease(turn.ledger.queue, turn.reply.claim, turn.reply.claim.message.messageRef, Claimer(call),
                   now + settings.leaseDuration);
    }
    if a in s.queue.attempts {
      LeaseKeeper.OnlyRefreshMovesLease(settings, s, now, call, a);
      RefreshSets(settings, s, now, call);
    } else {
      NewAttemptIsGranted(settings, s, now, call, a);
      RefreshSets(settings, s, now, call);
    }
  }

  lemma RefreshSets(settings: Settings, s: Ledger, now: Time, call: Call)
    requires Linked(s.queue)
    ensures var turn := Step(settings, s, now, call);
            call.RefreshCall? && turn.reply.Leased? ==>
              && !turn.reply.Granted? && call.attemptRef in s.queue.attempts && call.attemptRef in turn.ledger.queue.attempts
              && turn.ledger.queue.attempts[call.attemptRef].leaseExpiresAt == now + settings.leaseDuration
  {
    if call.RefreshCall? {
      hide RefreshLease, Linked;
      RefreshExtends(settings, s, now, call.attemptRef, call.endpointRef);
    }
  }

  /** In every run a lease runs for its full length from the grant or the last accepted refresh of its attempt. */
  lemma {:induction false} LeasesRunFromLast(settings: Settings, events: seq<Event>, a: Ref) returns (k: nat)
    requires ValidSettings(settings) && a in Run(settings, events).queue.attempts
    ensures k < |events| && LeasedAt(settings, events, k, a)
    ensures Run(settings, events).queue.attempts[a].leaseExpiresAt == events[k].now + settings.leaseDuration
    ensures forall i :: k < i < |events| ==> !LeasedAt(settings, events, i, a)
    decreases |events|
  {
    hide Step, Good, Linked, Counted, EndpointsNamed;
    assert events != [];
    var n := |events| - 1;
    var before := events[..n];
    var s := Run(settings, before);
    RunIsGood(settings, before);
    GoodLinks(settings, s);
    RunEndpointsNamed(settings, before);
    assert events[..n + 1] == events;
    var turn := Step(settings, s, events[n].now, events[n].call);
    assert Run(settings, events) == turn.ledger && LastReply(settings, events) == turn.reply;
    LeaseAfter(settings, s, events[n].now, events[n].call, a);
    if LeasedAt(settings, events, n, a) {
      k := n;
    } else {
      k := LeasesRunFromLast(settings, before, a);
      LeasesOfPrefix(settings, events, a);
    }
  }

  // Task commands

  predicate HasTask(q: Queue, task: Ref) {
    task != "" && exists r :: r in q.messages && q.messages[r].correlationRef == task
  }

  predicate IsUnfinished(q: Queue, task: Ref, r: Ref) {
    && r in q.messages && q.messages[r].correlationRef == task
    && q.messages[r].state != MessageState.Completed && q.messages[r].state != MessageState.Canceled
  }

  /** An open attempt that an unfinished message of the task points at. */
  ghost predicate HoldsUnfinished(q: Queue, task: Ref, a: Ref) {
    && a != "" && a in q.attempts
       && q.attempts[a].state !in {AttemptState.Completed, AttemptState.Failed, Orphaned, AttemptState.Canceled}
    && exists r :: IsUnfinished(q, task, r) && q.messages[r].attemptRef == a
  }

  /** Exactly these records change, to these states. */
  predicate OnlyThese(q: Queue, q': Queue, messages: set<Ref>, attempts: set<Ref>) {
    && q'.messages.Keys == q.messages.Keys && q'.attempts.Keys == q.attempts.Keys
    && (forall r :: r in q.messages && r !in messages ==> q'.messages[r] == q.messages[r])
    && (forall a :: a in q.attempts && a !in attempts ==> q'.attempts[a] == q.attempts[a])
    && q'.checkpoints == q.checkpoints && q'.deadLetters == q.deadLetters && q'.sequences == q.sequences
  }

  /** A cancellation cancels just the unfinished messages of the task and their open attempts, and counts both. */
  lemma CancellationCancels(s: Ledger, task: Ref)
    ensures var turn := CancelTask(s, task);
            var q, q' := s.queue, turn.ledger.queue;
            && (turn.reply.TaskChanged? <==> HasTask(q, task)) && (turn.reply.Refused? <==> !HasTask(q, task))
            && (turn.reply.Refused? ==> turn.ledger == s)
            && (turn.reply.TaskChanged? ==>
                  && turn.ledger == s.(queue := q')
                  && (forall r :: r in turn.reply.messageRefs <==> IsUnfinished(q, task, r))
                  && (forall a :: a in turn.reply.attemptRefs <==> HoldsUnfinished(q, task, a))
                  && OnlyThese(q, q', turn.reply.messageRefs, turn.reply.attemptRefs)
                  && (forall r :: IsUnfinished(q, task, r) ==> q'.messages[r] == q.messages[r].(state := MessageState.Canceled))
                  && (forall a :: HoldsUnfinished(q, task, a) ==> q'.attempts[a] == q.attempts[a].(state := AttemptState.Canceled))
                  && turn.reply.affectedMessages == |turn.reply.messageRefs|
                  && turn.reply.affectedAttempts == |turn.reply.attemptRefs|)
  {
    HasTaskIff(s.queue, task);
    var refs := Cancelable(s.queue, task);
    assert forall r :: r in refs <==> IsUnfinished(s.queue, task, r);
    forall a ensures a in OpenAttempts(s.queue, refs) <==> HoldsUnfinished(s.queue, task, a) { HeldIff(s.queue, task, a); }
    CancelRefsIs(s.queue, refs);
    hide TaskRefs, Cancelable, OpenAttempts, HasTask, CancelRefs, IsUnfinished, HoldsUnfinished;
  }

  lemma CancelRefsIs(q: Queue, refs: set<Ref>)
    requires refs <= q.messages.Keys
    ensures var q', open := CancelRefs(q, refs), OpenAttempts(q, refs);
            && OnlyThese(q, q', refs, open)
            && (forall r :: r in refs ==> q'.messages[r] == q.messages[r].(state := MessageState.Canceled))
            && (forall a :: a in open ==> a in q.attempts && q'.attempts[a] == q.attempts[a].(state := AttemptState.Canceled))
  {
    assert OpenAttempts(q, refs) <= q.attempts.Keys;
    hide OpenAttempts;
  }

  lemma HasTaskIff(q: Queue, task: Ref)
    ensures HasTask(q, task) <==> task != "" && TaskRefs(q, task) != {}
  {
    if r :| r in q.messages && q.messages[r].correlationRef == task { assert r in TaskRefs(q, task); }
    if r :| r in TaskRefs(q, task) { assert r in q.messages && q.messages[r].correlationRef == task; }
  }

  lemma HeldIff(q: Queue, task: Ref, a: Ref)
    ensures a in OpenAttempts(q, Cancelable(q, task)) <==> HoldsUnfinished(q, task, a)
  {
    var refs := Cancelable(q, task);
    if r :| IsUnfinished(q, task, r) && q.messages[r].attemptRef == a { assert r in refs && a in CurrentAttempts(q, refs); }
    if a in CurrentAttempts(q, refs) {
      var r :| r in refs && r in q.messages && q.messages[r].attemptRef == a;
      assert IsUnfinished(q, task, r);
    }
    hide CurrentAttempts, Cancelable, IsUnfinished;
  }

  predicate IsRetryable(q: Queue, task: Ref, r: Ref) {
    && r in q.messages && q.messages[r].correlationRef == task
    && q.messages[r].state in {MessageState.Failed, DeadLettered, InputRequired, MessageState.Canceled}
  }

  /**
   * A retry frees just the failed, buried, waiting and canceled messages of the task, of their attempts too, and counts
   * them.
   */
  lemma RetryFrees(s: Ledger, task: Ref)
    ensures var turn := RetryTask(s, task);
            var q, q' := s.queue, turn.ledger.queue;
            && (turn.reply.TaskChanged? <==> HasTask(q, task)) && (turn.reply.Refused? <==> !HasTask(q, task))
            && (turn.reply.Refused? ==> turn.ledger == s)
            && (turn.reply.TaskChanged? ==>
                  && turn.ledger == s.(queue := q')
                  && (forall r :: r in turn.reply.messageRefs <==> IsRetryable(q, task, r))
                  && OnlyThese(q, q', turn.reply.messageRefs, {}) && turn.reply.attemptRefs == {}
                  && (forall r :: IsRetryable(q, task, r) ==>
                        q'.messages[r] == q.messages[r].(state := MessageState.Available, attemptRef := ""))
                  && turn.reply.affectedMessages == |turn.reply.messageRefs| && turn.reply.affectedAttempts == 0)
  {
    HasTaskIff(s.queue, task);
    assert forall r :: r in Retryable(s.queue, task) <==> IsRetryable(s.queue, task, r);
    hide TaskRefs, Retryable, HasTask;
  }

  // The sweep

  /** Claimed or worked on, under an attempt whose lease is past. */
  predicate IsLost(q: Queue, r: Ref, now: Time) {
    && r in q.messages && q.messages[r].state in {MessageState.Claimed, MessageState.Processing}
    && q.messages[r].attemptRef in q.attempts && now > q.attempts[q.messages[r].attemptRef].leaseExpiresAt
  }

  /** A sweep offers just the lost messages for takeover, orphans just their attempts, and counts the messages. */
  lemma SweepOffers(s: Ledger, now: Time)
    ensures var turn := ReconcileExpiredClaims(s, now);
            var q, q' := s.queue, turn.ledger.queue;
            && turn.ledger == s.(queue := q') && turn.reply.Reconciled?
            && (exists lost, left ::
                  && (forall r :: r in lost <==> IsLost(q, r, now)) && turn.reply.count == |lost|
                  && (forall a :: a in left <==> exists r :: r in lost && q.messages[r].attemptRef == a)
                  && OnlyThese(q, q', lost, left)
                  && (forall r :: r in lost ==> q'.messages[r] == q.messages[r].(state := MessageState.TakeoverCandidate))
                  && (forall a :: a in left ==> a in q.attempts && q'.attempts[a] == q.attempts[a].(state := AttemptState.Orphaned)))
  {
    var lost := ExpiredClaims(s.queue, now);
    assert forall r :: r in lost <==> IsLost(s.queue, r, now);
    var left := CurrentAttempts(s.queue, lost);
    forall a ensures a in left <==> exists r :: r in lost && s.queue.messages[r].attemptRef == a {
      if r :| r in lost && s.queue.messages[r].attemptRef == a { assert a in CurrentAttempts(s.queue, lost); }
    }
    assert left <= s.queue.attempts.Keys;
    hide ExpiredClaims, CurrentAttempts, IsLost;
    assert OnlyThese(s.queue, Reconcile(s.queue, now), lost, left);
  }

  // Claims that are refused

  /** The message is buried and its attempt orphaned, one letter is written, and nothing else changes. */
  ghost predicate Buries(q: Queue, q': Queue, r: Ref) {
    && r in q.messages && q.messages[r].attemptRef in q.attempts
    && (var a := q.messages[r].attemptRef;
       && q'.messages == q.messages[r := q.messages[r].(state := MessageState.DeadLettered)]
       && q'.attempts == q.attempts[a := q.attempts[a].(state := AttemptState.Orphaned)])
    && q'.checkpoints == q.checkpoints
    && exists d :: d in q'.deadLetters && d !in q.deadLetters && q'.deadLetters == q.deadLetters[d := q'.deadLetters[d]]
  }

  /** The counters aside, nothing changes. */
  predicate OnlyCounts(q: Queue, q': Queue) {
    q' == q.(sequences := q'.sequences)
  }

  lemma StoreRefusal(q: Queue, c: ClaimRequest)
    requires Linked(q) && c.deadLetterRef !in q.deadLetters
    ensures var turn := Claim(q, c);
            if Abandoned(q, c.messageRef, c.now) && q.messages[c.messageRef].redeliveryCount >= c.maxRedelivery
            then turn.reply == Err(MessageDeadLettered) && Buries(q, turn.queue, c.messageRef)
            else turn.reply.Ok? || turn.queue == q
  {
    if c.messageRef in q.messages {
      assert q.messages[c.messageRef].messageRef == c.messageRef;
      if Abandoned(q, c.messageRef, c.now) {
        ClaimOfAbandoned(q, c);
        var m := q.messages[c.messageRef];
        assert q.attempts[m.attemptRef].attemptRef == m.attemptRef;
        hide Claim, Linked, Grant, GrantReply, CheckpointsOf, Latest, Letter;
        assert Bury(q, m, q.attempts[m.attemptRef], c).deadLetters.Keys == q.deadLetters.Keys + {c.deadLetterRef};
      } else {
        hide Linked, Grant, GrantReply, Bury, Latest;
      }
    }
  }

  /** A direct claim that is not granted buries a message that was lost with no redelivery left, or changes nothing. */
  lemma RefusedClaimBuries(settings: Settings, s: Ledger, now: Time, r: Ref, e: Ref)
    requires Linked(s.queue) && Counted(s) && !ClaimMessage(settings, s, now, r, e).reply.Granted?
    ensures var turn := ClaimMessage(settings, s, now, r, e);
            && turn.ledger == s.(queue := turn.ledger.queue) && turn.reply.Refused?
            && if ClaimRefusal(settings, s, now, r, e).None? && Abandoned(s.queue, r, now)
                  && s.queue.messages[r].redeliveryCount >= settings.maxRedelivery
               then turn.reply.error == MessageDeadLettered && Buries(s.queue, turn.ledger.queue, r)
               else OnlyCounts(s.queue, turn.ledger.queue)
  {
    if ClaimRefusal(settings, s, now, r, e).None? {
      BumpKeepsLinked(s.queue, Refs.Kind.Attempt);
      BumpKeepsLinked(Bump(s.queue, Refs.Kind.Attempt), Refs.Kind.DeadLetter);
      NextIsFresh(s.queue, Refs.Kind.DeadLetter);
      var counted := ClaimCounted(s.queue);
      assert OnlyCounts(s.queue, counted);
      assert NextRef(s.queue, Refs.Kind.DeadLetter) !in s.queue.deadLetters;
      var c := ServiceClaim(settings, s.queue, now, r, s.endpoints[e]);
      hide Linked, Counted, Claim, ClaimCounted, Drawn;
      StoreRefusal(counted, c);
    }
  }

  // What a poll takes

  /** In this state, for this endpoint, and waiting on nothing. */
  ghost predicate Waits(settings: Settings, s: Ledger, now: Time, e: Ref, state: MessageState, r: Ref) {
    && r in s.queue.messages && s.queue.messages[r].state == state && IsFor(settings, s, now, s.queue.messages[r], e)
    && AllCompleted(s.queue, s.queue.messages[r].dependsOn)
  }

  /** The first by ref of the lost messages that wait for the endpoint, or of the new ones when none is lost. */
  ghost predicate ComesFirst(settings: Settings, s: Ledger, now: Time, e: Ref, r: Ref) {
    && r in s.queue.messages
    && (var state := s.queue.messages[r].state;
       && Waits(settings, s, now, e, state, r) && (state == TakeoverCandidate || state == MessageState.Available)
       && (forall other :: Waits(settings, s, now, e, state, other) ==> other == r || Less(r, other))
       && (state == MessageState.Available ==> forall other :: !Waits(settings, s, now, e, TakeoverCandidate, other)))
  }

  ghost predicate NothingWaits(settings: Settings, s: Ledger, now: Time, e: Ref) {
    forall r :: !Waits(settings, s, now, e, TakeoverCandidate, r) && !Waits(settings, s, now, e, MessageState.Available, r)
  }

  lemma WaitsIff(settings: Settings, s: Ledger, now: Time, e: Ref, state: MessageState, r: Ref)
    requires Linked(s.queue) && EndpointsNamed(s) && IsUp(settings, s, e, now)
    ensures r in DirectlyClaimable(settings, s, now, e, state) <==> Waits(settings, s, now, e, state, r)
  {
    AdmittedIff(settings, s, now, r, e);
    hide Linked, EndpointsNamed, IsUp, IsFor, AllCompleted, ClaimRefusal;
  }

  lemma PickComesFirst(settings: Settings, s: Ledger, now: Time, e: Ref)
    requires Linked(s.queue) && EndpointsNamed(s) && IsUp(settings, s, e, now)
    ensures match PollPick(settings, s, now, e)
            case None => NothingWaits(settings, s, now, e)
            case Some(r) => ComesFirst(settings, s, now, e, r)
  {
    forall state, r ensures r in DirectlyClaimable(settings, s, now, e, state) <==> Waits(settings, s, now, e, state, r) {
      WaitsIff(settings, s, now, e, state, r);
    }
    hide DirectlyClaimable, Linked, EndpointsNamed, IsUp, IsFor, AllCompleted;
    var orphaned := DirectlyClaimable(settings, s, now, e, TakeoverCandidate);
    var available := DirectlyClaimable(settings, s, now, e, MessageState.Available);
    if orphaned != {} {
      assert IsLeast(Least(orphaned), orphaned);
    } else if available != {} {
      assert IsLeast(Least(available), available);
    }
  }

  /** A poll sweeps, and then grants or buries what comes first, or finds that nothing waits. */
  lemma PollTakesFirst(settings: Settings, s: Ledger, now: Time, e: Ref)
    requires ValidSettings(settings) && Linked(s.queue) && Counted(s) && EndpointsNamed(s)
    ensures var turn, swept := ClaimNextMessage(settings, s, now, e), ReconcileExpiredClaims(s, now).ledger;
            && (turn.reply.Refused? <==> !(IsUp(settings, s, e, now) && s.endpoints[e].capabilities != {}))
            && (turn.reply.Refused? ==> turn.ledger == s)
            && (turn.reply.Granted? ==> ComesFirst(settings, swept, now, e, turn.reply.claim.message.messageRef))
            && (turn.reply.NothingToClaim? ==>
                  || (turn.ledger == swept && NothingWaits(settings, swept, now, e))
                  || (exists r :: ComesFirst(settings, swept, now, e, r) && Buries(swept.queue, turn.ledger.queue, r)))
            && (turn.reply.Refused? || turn.reply.Granted? || turn.reply.NothingToClaim?)
  {
    hide Calls.ClaimMessage, Linked, Counted, EndpointsNamed, Reconcile, ClaimNext, PollPick, ComesFirst, NothingWaits,
      Buries;
    assert PollRefusal(settings, s, now, e).None? <==> IsUp(settings, s, e, now) && s.endpoints[e].capabilities != {};
    if PollRefusal(settings, s, now, e).None? {
      var swept := ReconcileExpiredClaims(s, now).ledger;
      assert IsUp(settings, swept, e, now) && swept.endpoints == s.endpoints;
      PollIsDirectClaim(settings, s, now, e);
      SweepKeepsReady(settings, s, now);
      PickComesFirst(settings, swept, now, e);
      hide Calls.ClaimNextMessage, PollRefusal, IsUp;
      if PollPick(settings, swept, now, e).Some? {
        var r := PollPick(settings, swept, now, e).value;
        if ClaimMessage(settings, swept, now, r, e).reply.Granted? {
          DirectGrant(settings, swept, now, r, e);
        } else {
          FirstIsNotBuried(settings, swept, now, e, r);
          DeadLetteredMeansBuried(settings, swept, now, r, e);
        }
      }
    }
  }

  lemma FirstIsNotBuried(settings: Settings, s: Ledger, now: Time, e: Ref, r: Ref)
    requires ComesFirst(settings, s, now, e, r)
    ensures r in s.queue.messages && s.queue.messages[r].state != DeadLettered
  {
    hide Waits;
  }

  lemma DeadLetteredMeansBuried(settings: Settings, s: Ledger, now: Time, r: Ref, e: Ref)
    requires ValidSettings(settings) && Linked(s.queue) && Counted(s) && EndpointsNamed(s)
    requires ClaimMessage(settings, s, now, r, e).reply == Refused(MessageDeadLettered)
    requires r in s.queue.messages && s.queue.messages[r].state != DeadLettered
    ensures Buries(s.queue, ClaimMessage(settings, s, now, r, e).ledger.queue, r)
  {
    RefusedClaimBuries(settings, s, now, r, e);
    RefusedDeadLettered(settings, s, now, r, e);
    hide Calls.ClaimMessage, Linked, Counted, EndpointsNamed, Buries;
  }

  lemma RefusedDeadLettered(settings: Settings, s: Ledger, now: Time, r: Ref, e: Ref)
    requires Linked(s.queue) && ClaimMessage(settings, s, now, r, e).reply == Refused(MessageDeadLettered)
    requires r in s.queue.messages && s.queue.messages[r].state != DeadLettered
    ensures ClaimRefusal(settings, s, now, r, e).None? && Abandoned(s.queue, r, now)
    ensures s.queue.messages[r].redeliveryCount >= settings.maxRedelivery
  {
    var counted := ClaimCounted(s.queue);
    assert counted.messages == s.queue.messages && counted.attempts == s.queue.attempts;
    hide Linked, ClaimCounted, Grant, Bury, Orphan, GrantReply, Latest;
  }
}
