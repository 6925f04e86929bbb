// Polling for work is a direct claim of the least eligible message, and a
// background reconcile does not change what a direct claim does.
module Polling {
  import opened Wrappers
  import opened Domain
  import opened Routing
  import opened QueueModel
  import opened Calls
  import opened Links
  import opened Text
  import opened MemoryStore
  import opened Protocol
  import Refs

  // The two paths apply the same tests

  /** The poll's map of online endpoints answers the preference test as the direct lookup does. */
  lemma SamePreference(settings: Settings, s: Ledger, now: Time, m: Message)
    ensures PreferredOnline(m, OnlineEndpoints(settings, s, now)) == PreferredStillOnline(settings, s, now, m)
  {
  }

  lemma SameDependencies(q: Queue, m: Message)
    ensures DependenciesCompleted(m, States(q)) == DependenciesCompleted(m, DependencyStates(q, m))
  {
    var all, own := States(q), DependencyStates(q, m);
    assert forall r :: r in m.dependsOn ==> (r in all <==> r in own) && (r in all ==> all[r] == own[r]);
  }

  /** A message is eligible for a poll exactly when a direct claim by the same endpoint is not refused. */
  lemma EligibleIsClaimable(settings: Settings, s: Ledger, now: Time, e: Ref, r: Ref)
    requires PollRefusal(settings, s, now, e).None?
    ensures Eligible(s.queue, r, PollRequest(settings, s, now, s.endpoints[e])) <==>
            ClaimRefusal(settings, s, now, r, e).None?
  {
    if r in s.queue.messages {
      SamePreference(settings, s, now, s.queue.messages[r]);
      SameDependencies(s.queue, s.queue.messages[r]);
    }
  }

  lemma NextEligibleIsEligible(q: Queue, c: ClaimNextRequest)
    ensures NextEligible(q, c).Some? ==>
      var r := NextEligible(q, c).value;
      Eligible(q, r, c)
      && (q.messages[r].state == MessageState.TakeoverCandidate || q.messages[r].state == MessageState.Available)
  {
  }

  /** Once the eligible message is known, the polled claim and the direct claim do the same to the queue. */
  lemma PolledClaimIsDirect(q: Queue, r: Ref, c: ClaimNextRequest)
    requires Linked(q) && r in q.messages
    requires q.messages[r].state == MessageState.TakeoverCandidate || q.messages[r].state == MessageState.Available
    ensures var direct := Claim(WithRefs(q, c), DirectRequest(q, r, c));
            ClaimEligible(q, r, c) == NextTurn(direct.queue, if direct.reply.Ok? then Some(direct.reply.value) else None)
            && (direct.reply.Err? ==> direct.reply.error == MessageDeadLettered)
  {
    assert CurrentStored(q, r);
  }

  lemma PollDrawsBothRefs(q: Queue, settings: Settings, s: Ledger, now: Time, e: Endpoint, r: Ref)
    ensures var c := PollRequest(settings, s, now, e);
            WithRefs(q, c) == ClaimCounted(q) && DirectRequest(q, r, c) == ServiceClaim(settings, q, now, r, e)
  {
  }

  /** The messages in this state that the endpoint could claim directly. */
  ghost function DirectlyClaimable(settings: Settings, s: Ledger, now: Time, e: Ref, state: MessageState): set<Ref> {
    set r | r in s.queue.messages && s.queue.messages[r].state == state && ClaimRefusal(settings, s, now, r, e).None?
  }

  lemma EligibleAreClaimable(settings: Settings, s: Ledger, now: Time, e: Ref, state: MessageState)
    requires PollRefusal(settings, s, now, e).None?
    ensures EligibleIn(s.queue, state, PollRequest(settings, s, now, s.endpoints[e]))
            == DirectlyClaimable(settings, s, now, e, state)
  {
    forall r ensures r in EligibleIn(s.queue, state, PollRequest(settings, s, now, s.endpoints[e]))
      <==> r in DirectlyClaimable(settings, s, now, e, state)
    {
      EligibleIsClaimable(settings, s, now, e, r);
    }
  }

  /** What a poll of a swept ledger picks: orphaned work before new work, then by ref. */
  ghost function PollPick(settings: Settings, s: Ledger, now: Time, e: Ref): Option<Ref> {
    var orphaned := DirectlyClaimable(settings, s, now, e, MessageState.TakeoverCandidate);
    var available := DirectlyClaimable(settings, s, now, e, MessageState.Available);
    if orphaned != {} then Some(Least(orphaned)) else if available != {} then Some(Least(available)) else None
  }

  /** A poll reconciles and then claims, as a direct claim would, the least message it could claim directly. */
  lemma PollIsDirectClaim(settings: Settings, s: Ledger, now: Time, e: Ref)
    requires Linked(s.queue) && PollRefusal(settings, s, now, e).None?
    ensures var swept := ReconcileExpiredClaims(s, now).ledger;
            var turn := ClaimNextMessage(settings, s, now, e);
            match PollPick(settings, swept, now, e)
            case None => turn == Turn(swept, NothingToClaim)
            case Some(r) =>
              var direct := ClaimMessage(settings, swept, now, r, e);
              turn == Turn(direct.ledger, if direct.reply.Granted? then direct.reply else NothingToClaim)
              && (direct.reply.Granted? || direct.reply == Refused(MessageDeadLettered))
  {
    var swept := ReconcileExpiredClaims(s, now).ledger;
    var c := PollRequest(settings, s, now, s.endpoints[e]);
    assert c == PollRequest(settings, swept, now, swept.endpoints[e]);
    SweepKeepsLinked(s.queue, now);
    EligibleAreClaimable(settings, swept, now, e, MessageState.TakeoverCandidate);
    EligibleAreClaimable(settings, swept, now, e, MessageState.Available);
    assert NextEligible(swept.queue, c) == PollPick(settings, swept, now, e);
    if NextEligible(swept.queue, c).Some? {
      var r := NextEligible(swept.queue, c).value;
      NextEligibleIsEligible(swept.queue, c);
      EligibleIsClaimable(settings, swept, now, e, r);
      PolledClaimIsDirect(swept.queue, r, c);
      PollDrawsBothRefs(swept.queue, settings, s, now, s.endpoints[e], r);
    }
  }

  lemma PickIsLeast(settings: Settings, s: Ledger, now: Time, e: Ref, r: Ref, other: Ref)
    requires PollPick(settings, s, now, e) == Some(r)
    ensures r in s.queue.messages
    ensures other in DirectlyClaimable(settings, s, now, e, s.queue.messages[r].state) && other != r ==> Less(r, other)
  {
  }

  lemma GrantedMessageRef(settings: Settings, s: Ledger, now: Time, r: Ref, e: Ref)
    requires Linked(s.queue) && ClaimMessage(settings, s, now, r, e).reply.Granted?
    ensures ClaimMessage(settings, s, now, r, e).reply.claim.message.messageRef == r
  {
    hide CurrentStored, ClaimRefusal;
  }

  /**
   * Of the messages with allocated refs that could be claimed in the same state, a poll answers with the first in the
   * order of refs; up to 999999 that is the one allocated first.
   */
  lemma PollIsFirstInFirstOut(settings: Settings, s: Ledger, now: Time, e: Ref, m: nat, n: nat)
    requires Linked(s.queue) && ClaimNextMessage(settings, s, now, e).reply.Granted?
    requires ClaimNextMessage(settings, s, now, e).reply.claim.message.messageRef == Refs.AllocRef(Refs.Kind.Message, m)
    requires var swept := ReconcileExpiredClaims(s, now).ledger;
             var first := Refs.AllocRef(Refs.Kind.Message, m);
             first in swept.queue.messages
             && Refs.AllocRef(Refs.Kind.Message, n) in DirectlyClaimable(settings, swept, now, e, swept.queue.messages[first].state)
    ensures m == n || Refs.Before(m, n)
    ensures m <= Refs.MAX_ORDERED && n <= Refs.MAX_ORDERED ==> m <= n
  {
    hide ClaimMessage, DirectlyClaimable, PollPick, Linked, Reconcile, ClaimNext;
    assert PollRefusal(settings, s, now, e).None?;
    hide ClaimNextMessage;
    var swept := ReconcileExpiredClaims(s, now).ledger;
    PollIsDirectClaim(settings, s, now, e);
    SweepKeepsLinked(s.queue, now);
    var r := PollPick(settings, swept, now, e).value;
    GrantedMessageRef(settings, swept, now, r, e);
    PickIsLeast(settings, swept, now, e, r, Refs.AllocRef(Refs.Kind.Message, n));
    Refs.AllocRefOrder(Refs.Kind.Message, m, n);
    if m != n && Refs.AllocRef(Refs.Kind.Message, m) == Refs.AllocRef(Refs.Kind.Message, n) {
      Refs.AllocRefInjective(Refs.Kind.Message, m, Refs.Kind.Message, n);
    }
    if m <= Refs.MAX_ORDERED && n <= Refs.MAX_ORDERED {
      Refs.SixDigits(m);
      Refs.SixDigits(n);
    }
  }

  /**
   * One takeover candidate out of redeliveries became a dead letter under the ref just drawn, and nothing else moved.
   */
  ghost predicate BuriedOne(settings: Settings, q: Queue, q': Queue, r: Ref) {
    && r in q.messages
    && q.messages[r].state == MessageState.TakeoverCandidate
    && q.messages[r].redeliveryCount >= settings.maxRedelivery
    && q'.messages == q.messages[r := q.messages[r].(state := MessageState.DeadLettered)]
    && q'.attempts == q.attempts
    && q'.deadLetters.Keys == q.deadLetters.Keys + {NextRef(q, Refs.Kind.DeadLetter)}
  }

  lemma EmptyClaim(settings: Settings, q: Queue, r: Ref, c: ClaimNextRequest)
    requires Linked(q) && r in q.messages && c.deadLetterRef == "" && c.maxRedelivery == settings.maxRedelivery
    requires q.messages[r].state == MessageState.TakeoverCandidate || q.messages[r].state == MessageState.Available
    requires ClaimEligible(q, r, c).reply.None?
    ensures BuriedOne(settings, q, ClaimEligible(q, r, c).queue, r)
  {
    assert CurrentStored(q, r);
  }

  /** A poll that returns nothing found nothing claimable, or dead-lettered exactly one message. */
  lemma EmptyPoll(settings: Settings, s: Ledger, now: Time, e: Ref)
    requires Linked(s.queue) && ClaimNextMessage(settings, s, now, e).reply == NothingToClaim
    ensures var swept, turn := ReconcileExpiredClaims(s, now).ledger, ClaimNextMessage(settings, s, now, e);
            if PollPick(settings, swept, now, e).None? then turn.ledger == swept
            else BuriedOne(settings, swept.queue, turn.ledger.queue, PollPick(settings, swept, now, e).value)
  {
    var swept := ReconcileExpiredClaims(s, now).ledger;
    var c := PollRequest(settings, s, now, s.endpoints[e]);
    assert c == PollRequest(settings, swept, now, swept.endpoints[e]);
    SweepKeepsLinked(s.queue, now);
    EligibleAreClaimable(settings, swept, now, e, MessageState.TakeoverCandidate);
    EligibleAreClaimable(settings, swept, now, e, MessageState.Available);
    if NextEligible(swept.queue, c).Some? {
      NextEligibleIsEligible(swept.queue, c);
      EmptyClaim(settings, swept.queue, NextEligible(swept.queue, c).value, c);
    }
  }

  // Reconciliation

  lemma ReconcileKeepsReadiness(q: Queue, now: Time, m: Message)
    ensures DependenciesCompleted(m, States(Reconcile(q, now))) == DependenciesCompleted(m, States(q))
  {
    var before, after := States(q), States(Reconcile(q, now));
    assert forall d :: d in m.dependsOn ==>
      (d in after <==> d in before)
      && (d in after ==> (after[d] == MessageState.Completed <==> before[d] == MessageState.Completed));
  }

  lemma ReconcileKeepsEligibility(settings: Settings, s: Ledger, now: Time, r: Ref, e: Ref)
    ensures ClaimRefusal(settings, s.(queue := Reconcile(s.queue, now)), now, r, e)
            == ClaimRefusal(settings, s, now, r, e)
  {
    if r in s.queue.messages {
      ReconcileKeepsReadiness(s.queue, now, s.queue.messages[r]);
      SameDependencies(s.queue, s.queue.messages[r]);
      SameDependencies(Reconcile(s.queue, now), Reconcile(s.queue, now).messages[r]);
    }
  }

  /** A sweep leaves no claim whose lease is past, so a second sweep at the same instant finds nothing to do. */
  lemma ReconcileIdempotent(q: Queue, now: Time)
    ensures ExpiredClaims(Reconcile(q, now), now) == {}
    ensures Reconcile(Reconcile(q, now), now) == Reconcile(q, now)
  {
    var q' := Reconcile(q, now);
    forall r ensures r !in ExpiredClaims(q', now) {
      if r in q.messages && r !in ExpiredClaims(q, now) { assert !ClaimExpired(q, r, now); }
    }
    RequeueNothing(q');
  }

  // A background reconcile is invisible to a direct claim

  predicate FreshClaim(q: Queue, c: ClaimRequest) {
    c.attemptRef != "" && c.attemptRef !in q.attempts && c.leaseExpiresAt > c.now
  }

  lemma ExpiredAfterGrant(q: Queue, m: Message, c: ClaimRequest)
    requires Linked(q) && FreshClaim(q, c) && m.messageRef in q.messages
    ensures ExpiredClaims(Grant(q, m, c), c.now) == ExpiredClaims(q, c.now) - {m.messageRef}
  {
    var q', r := Grant(q, m, c), m.messageRef;
    forall r2 ensures r2 in ExpiredClaims(q', c.now) <==> r2 in ExpiredClaims(q, c.now) && r2 != r {
      if r2 in q.messages { assert CurrentStored(q, r2); }
    }
  }

  lemma NoneHoldsFresh(q: Queue, refs: set<Ref>, a: Ref)
    requires Linked(q) && refs <= q.messages.Keys && a != "" && a !in q.attempts
    ensures a !in CurrentAttempts(q, refs)
  {
    forall r | r in refs ensures q.messages[r].attemptRef != a { assert CurrentStored(q, r); }
  }

  /** Granting commutes with offering other messages for takeover. */
  lemma GrantAndRequeue(q: Queue, m: Message, c: ClaimRequest, others: set<Ref>)
    requires m.messageRef !in others && c.attemptRef !in CurrentAttempts(q, others)
    ensures Requeue(Grant(q, m, c), others) == Grant(Requeue(q, others), m, c)
  {
    assert CurrentAttempts(Grant(q, m, c), others) == CurrentAttempts(q, others);
  }

  /** Granting and sweeping commute, the granted message itself aside. */
  lemma GrantCommutes(q: Queue, m: Message, c: ClaimRequest)
    requires Linked(q) && FreshClaim(q, c) && m.messageRef in q.messages
    ensures Reconcile(Grant(q, m, c), c.now) == Grant(Requeue(q, ExpiredClaims(q, c.now) - {m.messageRef}), m, c)
  {
    var others := ExpiredClaims(q, c.now) - {m.messageRef};
    ExpiredAfterGrant(q, m, c);
    NoneHoldsFresh(q, others, c.attemptRef);
    GrantAndRequeue(q, m, c, others);
  }

  lemma ExpiredAfterOrphan(q: Queue, a: Attempt, now: Time)
    requires Linked(q) && a.attemptRef in q.attempts && q.attempts[a.attemptRef] == a
    ensures ExpiredClaims(Orphan(q, a), now) == ExpiredClaims(q, now)
    ensures forall refs :: CurrentAttempts(Orphan(q, a), refs) == CurrentAttempts(q, refs)
  {
    forall r ensures r in ExpiredClaims(Orphan(q, a), now) <==> r in ExpiredClaims(q, now) {
      assert ClaimExpired(Orphan(q, a), r, now) <==> ClaimExpired(q, r, now);
    }
  }

  lemma OrphanCommutes(q: Queue, a: Attempt, refs: set<Ref>)
    requires a.attemptRef in q.attempts && q.attempts[a.attemptRef] == a
    ensures Requeue(Orphan(q, a), refs) == Orphan(Requeue(q, refs), Requeue(q, refs).attempts[a.attemptRef])
  {
    assert CurrentAttempts(Orphan(q, a), refs) == CurrentAttempts(q, refs);
  }

  /** A sweep is a sweep of all the other messages and then, if its claim is past, of this one. */
  lemma SweepOneLast(q: Queue, r: Ref, now: Time)
    requires Linked(q) && r in q.messages
    ensures var rest := Requeue(q, ExpiredClaims(q, now) - {r});
            && Keyed(rest) && r in rest.messages && rest.messages[r] == q.messages[r]
            && (q.messages[r].attemptRef in q.attempts ==> q.messages[r].attemptRef in rest.attempts)
            && Reconcile(q, now) == if ClaimExpired(q, r, now) then RequeueOne(rest, r) else rest
  {
    var others := ExpiredClaims(q, now) - {r};
    RequeueKeeps(q, others, r, now);
    if ClaimExpired(q, r, now) {
      assert others + {r} == ExpiredClaims(q, now);
      RequeueOneMore(q, others, r);
    } else {
      assert others == ExpiredClaims(q, now);
    }
  }

  /** A sweep leaves the attempt of an abandoned message orphaned and the message up for takeover. */
  lemma SweepOffersAbandoned(q: Queue, r: Ref, now: Time)
    requires Linked(q) && Abandoned(q, r, now)
    ensures var m, q' := q.messages[r], Reconcile(q, now);
            && q'.messages[r] == m.(state := MessageState.TakeoverCandidate)
            && q'.attempts[m.attemptRef] == q.attempts[m.attemptRef].(state := AttemptState.Orphaned)
  {
    assert CurrentStored(q, r);
    if ClaimExpired(q, r, now) { assert r in ExpiredClaims(q, now); }
  }

  lemma GrantOverwrites(rest: Queue, r: Ref, c: ClaimRequest)
    requires Keyed(rest) && r in rest.messages && rest.messages[r].attemptRef in rest.attempts
    ensures var m := rest.messages[r];
            Grant(RequeueOne(rest, r), Redelivered(m.(state := MessageState.TakeoverCandidate)), c)
            == Grant(Orphan(rest, rest.attempts[m.attemptRef]), Redelivered(m), c)
  {
  }

  lemma OrphanTwice(q: Queue, a: Ref)
    requires Keyed(q) && a in q.attempts && q.attempts[a].state == AttemptState.Orphaned
    ensures Orphan(q, q.attempts[a]) == q
  {
  }

  lemma RetakeCommutes(q: Queue, r: Ref, c: ClaimRequest)
    requires Linked(q) && FreshClaim(q, c) && Abandoned(q, r, c.now)
    ensures var m, q' := q.messages[r], Reconcile(q, c.now);
            Reconcile(Grant(Orphan(q, q.attempts[m.attemptRef]), Redelivered(m), c), c.now)
            == Grant(q', Redelivered(q'.messages[r]), c)
  {
    var m := q.messages[r];
    var a := q.attempts[m.attemptRef];
    var rest := Requeue(q, ExpiredClaims(q, c.now) - {r});
    OrphanKeepsLinked(q, a);
    GrantCommutes(Orphan(q, a), Redelivered(m), c);
    ExpiredAfterOrphan(q, a, c.now);
    OrphanCommutes(q, a, ExpiredClaims(q, c.now) - {r});
    SweepOneLast(q, r, c.now);
    SweepOffersAbandoned(q, r, c.now);
    if ClaimExpired(q, r, c.now) { GrantOverwrites(rest, r, c); } else { OrphanTwice(rest, m.attemptRef); }
  }

  lemma ExpiredAfterBury(q: Queue, m: Message, a: Attempt, c: ClaimRequest)
    requires Linked(q) && m.messageRef in q.messages && a.attemptRef in q.attempts && q.attempts[a.attemptRef] == a
    ensures ExpiredClaims(Bury(q, m, a, c), c.now) == ExpiredClaims(q, c.now) - {m.messageRef}
  {
    var buried := Bury(q, m, a, c);
    forall r ensures r in ExpiredClaims(buried, c.now) <==> r in ExpiredClaims(q, c.now) - {m.messageRef} {
      assert r in q.messages && r != m.messageRef ==> (ClaimExpired(buried, r, c.now) <==> ClaimExpired(q, r, c.now));
    }
  }

  lemma PutCommutes(q: Queue, m: Message, refs: set<Ref>)
    requires m.messageRef in q.messages && m.messageRef !in refs
    ensures Requeue(PutMessage(q, m), refs) == PutMessage(Requeue(q, refs), m)
  {
    assert CurrentAttempts(PutMessage(q, m), refs) == CurrentAttempts(q, refs);
  }

  lemma BuriedSweep(q: Queue, m: Message, a: Attempt, c: ClaimRequest)
    requires Linked(q) && m.messageRef in q.messages && a.attemptRef in q.attempts && q.attempts[a.attemptRef] == a
    ensures Reconcile(Bury(q, m, a, c), c.now) ==
            var rest := Requeue(q, ExpiredClaims(q, c.now) - {m.messageRef});
            Bury(rest, m, rest.attempts[a.attemptRef], c)
  {
    var others := ExpiredClaims(q, c.now) - {m.messageRef};
    ExpiredAfterBury(q, m, a, c);
    var letters := q.deadLetters[c.deadLetterRef := Letter(q, m, a.attemptRef, c)];
    var lettered := q.(deadLetters := letters);
    assert Requeue(lettered, others) == Requeue(q, others).(deadLetters := letters) by {
      assert CurrentAttempts(lettered, others) == CurrentAttempts(q, others);
    }
    PutCommutes(Orphan(lettered, a), m.(state := MessageState.DeadLettered), others);
    assert Bury(q, m, a, c) == PutMessage(Orphan(lettered, a), m.(state := MessageState.DeadLettered));
    OrphanCommutes(lettered, a, others);
  }

  lemma BuryOverwrites(rest: Queue, r: Ref, c: ClaimRequest)
    requires Keyed(rest) && r in rest.messages && rest.messages[r].attemptRef in rest.attempts
    ensures var m := rest.messages[r];
            var offered := RequeueOne(rest, r);
            Bury(offered, offered.messages[r], offered.attempts[m.attemptRef], c)
            == Bury(rest, m, rest.attempts[m.attemptRef], c)
  {
  }

  lemma BuryCommutes(q: Queue, r: Ref, c: ClaimRequest)
    requires Linked(q) && Abandoned(q, r, c.now)
    ensures var m, q' := q.messages[r], Reconcile(q, c.now);
            Reconcile(Bury(q, m, q.attempts[m.attemptRef], c), c.now)
            == Bury(q', q'.messages[r], q'.attempts[m.attemptRef], c)
  {
    var m := q.messages[r];
    BuriedSweep(q, m, q.attempts[m.attemptRef], c);
    SweepOneLast(q, r, c.now);
    if ClaimExpired(q, r, c.now) { BuryOverwrites(Requeue(q, ExpiredClaims(q, c.now) - {r}), r, c); }
  }

  lemma AvailableCommutes(q: Queue, c: ClaimRequest)
    requires Linked(q) && FreshClaim(q, c) && c.messageRef in q.messages
    requires q.messages[c.messageRef].state == MessageState.Available
    ensures Claim(Reconcile(q, c.now), c).reply == Claim(q, c).reply
    ensures Claim(Reconcile(q, c.now), c).queue == Reconcile(Claim(q, c).queue, c.now)
  {
    GrantCommutes(q, q.messages[c.messageRef], c);
    assert ExpiredClaims(q, c.now) - {c.messageRef} == ExpiredClaims(q, c.now);
  }

  /** What a claim of an abandoned message amounts to, whichever of the two forms it is found in. */
  lemma ClaimOfAbandoned(q: Queue, c: ClaimRequest)
    requires Linked(q) && Abandoned(q, c.messageRef, c.now)
    ensures var m := q.messages[c.messageRef];
            var a := q.attempts[m.attemptRef];
            Claim(q, c) ==
            if m.redeliveryCount >= c.maxRedelivery then ClaimTurn(Bury(q, m, a, c), Err(MessageDeadLettered))
            else ClaimTurn(Grant(Orphan(q, a), Redelivered(m), c),
                           Ok(GrantReply(Redelivered(m), c, true, Latest(CheckpointsOf(q, m.attemptRef)))))
  {
    assert CurrentStored(q, c.messageRef);
    if q.messages[c.messageRef].state == MessageState.TakeoverCandidate {
      OrphanTwice(q, q.messages[c.messageRef].attemptRef);
    }
  }

  lemma AbandonedCommutes(q: Queue, c: ClaimRequest)
    requires Linked(q) && FreshClaim(q, c) && Abandoned(q, c.messageRef, c.now)
    ensures Claim(Reconcile(q, c.now), c).reply == Claim(q, c).reply
    ensures Claim(Reconcile(q, c.now), c).queue == Reconcile(Claim(q, c).queue, c.now)
  {
    var q', m := Reconcile(q, c.now), q.messages[c.messageRef];
    SweepKeepsLinked(q, c.now);
    SweepOffersAbandoned(q, c.messageRef, c.now);
    ClaimOfAbandoned(q, c);
    ClaimOfAbandoned(q', c);
    OrphanTwice(q', m.attemptRef);
    if m.redeliveryCount >= c.maxRedelivery { BuryCommutes(q, c.messageRef, c); }
    else { RetakeCommutes(q, c.messageRef, c); }
  }

  lemma RefusalCommutes(q: Queue, c: ClaimRequest)
    requires Linked(q)
    requires c.messageRef in q.messages ==> q.messages[c.messageRef].state != MessageState.Available
    requires !Abandoned(q, c.messageRef, c.now)
    ensures Claim(q, c).queue == q && Claim(q, c).reply.Err?
    ensures Claim(Reconcile(q, c.now), c) == ClaimTurn(Reconcile(q, c.now), Claim(q, c).reply)
  {
    if c.messageRef in q.messages {
      assert CurrentStored(q, c.messageRef);
      RequeueKeeps(q, ExpiredClaims(q, c.now), c.messageRef, c.now);
    }
  }

  /** Claim then reconcile, or reconcile then claim, at one instant: the same answer and the same queue. */
  lemma ClaimCommutes(q: Queue, c: ClaimRequest)
    requires Linked(q) && FreshClaim(q, c)
    ensures Claim(Reconcile(q, c.now), c).reply == Claim(q, c).reply
    ensures Claim(Reconcile(q, c.now), c).queue == Reconcile(Claim(q, c).queue, c.now)
  {
    if c.messageRef in q.messages && q.messages[c.messageRef].state == MessageState.Available {
      AvailableCommutes(q, c);
    } else if Abandoned(q, c.messageRef, c.now) {
      AbandonedCommutes(q, c);
    } else {
      RefusalCommutes(q, c);
    }
  }

  lemma BumpKeepsExpired(q: Queue, kind: Refs.Kind, now: Time)
    ensures ExpiredClaims(Bump(q, kind), now) == ExpiredClaims(q, now)
    ensures Reconcile(Bump(q, kind), now) == Bump(Reconcile(q, now), kind)
  {
    forall r ensures r in ExpiredClaims(Bump(q, kind), now) <==> r in ExpiredClaims(q, now) {
      assert ClaimExpired(Bump(q, kind), r, now) <==> ClaimExpired(q, r, now);
    }
    assert CurrentAttempts(Bump(q, kind), ExpiredClaims(q, now)) == CurrentAttempts(q, ExpiredClaims(q, now));
  }

  lemma BumpCommutes(q: Queue, now: Time)
    ensures ClaimCounted(Reconcile(q, now)) == Reconcile(ClaimCounted(q), now)
    ensures forall k :: NextRef(Reconcile(q, now), k) == NextRef(q, k)
  {
    BumpKeepsExpired(q, Refs.Kind.Attempt, now);
    BumpKeepsExpired(Bump(q, Refs.Kind.Attempt), Refs.Kind.DeadLetter, now);
  }

  lemma DrawnClaimIsFresh(settings: Settings, s: Ledger, now: Time, r: Ref, e: Endpoint)
    requires ValidSettings(settings) && Linked(s.queue) && Counted(s)
    ensures Linked(ClaimCounted(s.queue)) && FreshClaim(ClaimCounted(s.queue), ServiceClaim(settings, s.queue, now, r, e))
  {
    NextIsFresh(s.queue, Refs.Kind.Attempt);
    BumpKeepsLinked(s.queue, Refs.Kind.Attempt);
    BumpKeepsLinked(Bump(s.queue, Refs.Kind.Attempt), Refs.Kind.DeadLetter);
  }

  /** Claiming from a reconciled ledger is reconciling the ledger of the claim, once the claim is not refused. */
  lemma AcceptedClaimCommutes(settings: Settings, s: Ledger, now: Time, r: Ref, e: Endpoint)
    requires ValidSettings(settings) && Linked(s.queue) && Counted(s)
    ensures var q, q' := s.queue, Reconcile(s.queue, now);
            var before := Claim(ClaimCounted(q'), ServiceClaim(settings, q', now, r, e));
            var after := Claim(ClaimCounted(q), ServiceClaim(settings, q, now, r, e));
            before.reply == after.reply && before.queue == Reconcile(after.queue, now)
  {
    hide Claim, Reconcile, Linked, Counted, ClaimCounted, FreshClaim;
    DrawnClaimIsFresh(settings, s, now, r, e);
    ClaimCommutes(ClaimCounted(s.queue), ServiceClaim(settings, s.queue, now, r, e));
    BumpCommutes(s.queue, now);
  }

  /**
   * The service's claim of any message, for any endpoint: a reconcile just before or just after it cannot be told
   * apart.
   */
  lemma ReconcileIsInvisible(settings: Settings, s: Ledger, now: Time, r: Ref, e: Ref)
    requires ValidSettings(settings) && Linked(s.queue) && Counted(s)
    ensures var before := ClaimMessage(settings, ReconcileExpiredClaims(s, now).ledger, now, r, e);
            var after := ClaimMessage(settings, s, now, r, e);
            before.reply == after.reply && before.ledger == ReconcileExpiredClaims(after.ledger, now).ledger
  {
    hide Claim, Reconcile, Linked, Counted, ClaimCounted, ServiceClaim;
    ReconcileKeepsEligibility(settings, s, now, r, e);
    if ClaimRefusal(settings, s, now, r, e).None? { AcceptedClaimCommutes(settings, s, now, r, s.endpoints[e]); }
  }
}
