// Whose attempt a claim starts, what it says, and exactly when it is granted,
// all in terms of the fields of the call and of the records.
module Grants {
  import opened Wrappers
  import opened Domain
  import opened Routing
  import opened QueueModel
  import opened Calls
  import opened Protocol
  import opened Links
  import opened Polling
  import opened Paths
  import opened Reachable
  import opened Runs
  import Refs

  // Endpoints keep their names

  ghost predicate EndpointsNamed(s: Ledger) {
    forall e :: e in s.endpoints ==> e != "" && s.endpoints[e].endpointRef == e
  }

  lemma {:induction false} PostsEnrollNobody(s: Ledger, reqs: seq<IngressRequest>)
    ensures PostAll(s, reqs).ledger.endpoints == s.endpoints
    decreases |reqs|
  {
    if reqs != [] {
      IngressEnrollsNobody(s, reqs[0]);
      hide Ingress;
      if Ingress(s, reqs[0]).reply.Posted? { PostsEnrollNobody(Ingress(s, reqs[0]).ledger, reqs[1..]); }
    }
  }

  lemma IngressEnrollsNobody(s: Ledger, req: IngressRequest)
    ensures Ingress(s, req).ledger.endpoints == s.endpoints
  {
    hide ValidIngress, RouteAvailable, NewMessage, IngressCounted;
  }

  lemma CompletionEnrollsNobody(s: Ledger, now: Time, a: Ref, req: CompletionRequest)
    ensures CompleteAttempt(s, now, a, req).ledger.endpoints == s.endpoints
  {
    hide PostAll;
    var turn := SubmitCheckpoint(s, now, a, CompletionCheckpoint(req));
    if req.endpointRef != "" && req.summary != "" && !turn.reply.Refused? {
      var parent := turn.ledger.queue.messages[s.queue.attempts[a].messageRef];
      PostsEnrollNobody(turn.ledger, FollowUps(req.followUps, req.endpointRef, parent));
    }
  }

  lemma ReplayEnrollsNobody(s: Ledger, d: Ref, accepted: bool)
    ensures ReplayDeadLetter(s, d, accepted).ledger.endpoints == s.endpoints
  {
    hide Ingress;
    if d != "" && d in s.queue.deadLetters && s.queue.deadLetters[d].messageRef in s.queue.messages {
      IngressEnrollsNobody(s, ReplayRequest(s.queue.messages[s.queue.deadLetters[d].messageRef], accepted));
    }
  }

  predicate AboutEndpoint(call: Call) {
    call.RegisterCall? || call.HeartbeatCall? || call.AdvertiseCall?
  }

  lemma ClaimsEnrollNobody(settings: Settings, s: Ledger, now: Time, call: Call)
    requires call.ClaimCall? || call.ClaimNextCall? || call.CheckpointCall? || call.RefreshCall?
    ensures Step(settings, s, now, call).ledger.endpoints == s.endpoints
  {
    hide Claim, ClaimNext, Reconcile, WithCheckpoint, ClaimRefusal, CheckpointRefusal;
  }

  lemma OthersEnrollNobody(settings: Settings, s: Ledger, now: Time, call: Call)
    requires !AboutEndpoint(call)
    ensures Step(settings, s, now, call).ledger.endpoints == s.endpoints
  {
    hide Reconcile, CancelRefs, RetryRefs, CompleteAttempt, Cancelable, Retryable, OpenAttempts, Ingress,
      ReplayDeadLetter, Calls.ClaimMessage, Calls.ClaimNextMessage, SubmitCheckpoint, RefreshLease;
    match call
    case CompleteCall(a, req) => CompletionEnrollsNobody(s, now, a, req);
    case IngressCall(req) => IngressEnrollsNobody(s, req);
    case ReplayCall(d, accepted) => ReplayEnrollsNobody(s, d, accepted);
    case ClaimCall(_, _) => ClaimsEnrollNobody(settings, s, now, call);
    case ClaimNextCall(_) => ClaimsEnrollNobody(settings, s, now, call);
    case CheckpointCall(_, _) => ClaimsEnrollNobody(settings, s, now, call);
    case RefreshCall(_, _) => ClaimsEnrollNobody(settings, s, now, call);
    case _ =>
  }

  lemma CallKeepsEndpointsNamed(settings: Settings, s: Ledger, now: Time, call: Call)
    requires EndpointsNamed(s)
    ensures EndpointsNamed(Step(settings, s, now, call).ledger)
  {
    if AboutEndpoint(call) {
      EndpointCallKeepsNamed(settings, s, now, call);
    } else {
      hide Step;
      OthersEnrollNobody(settings, s, now, call);
    }
  }

  lemma EndpointCallKeepsNamed(settings: Settings, s: Ledger, now: Time, call: Call)
    requires EndpointsNamed(s) && AboutEndpoint(call)
    ensures EndpointsNamed(Step(settings, s, now, call).ledger)
  {
    hide IsStale, ValidCapabilities;
  }

  lemma {:induction false} RunEndpointsNamed(settings: Settings, events: seq<Event>)
    ensures EndpointsNamed(Run(settings, events))
    decreases |events|
  {
    hide Step, EndpointsNamed;
    if events == [] {
      NobodyNamed();
    } else {
      var n := |events| - 1;
      RunEndpointsNamed(settings, events[..n]);
      CallKeepsEndpointsNamed(settings, Run(settings, events[..n]), events[n].now, events[n].call);
    }
  }

  lemma NobodyNamed()
    ensures EndpointsNamed(EMPTY_LEDGER)
  {
  }

  // What a grant leaves behind

  /** The attempt is stored as the claimer's own, and the message points at it. */
  ghost predicate HandsTo(q: Queue, claim: ClaimResult, r: Ref, e: Ref, lease: Time) {
    var a := claim.attempt;
    && a.attemptRef in q.attempts && q.attempts[a.attemptRef] == a
    && a.messageRef == r && a.endpointRef == e && a.state == AttemptState.Claimed && a.leaseExpiresAt == lease
       && a.revision == 1
    && a.attemptNo == claim.message.redeliveryCount + 1 && a.claimEpoch == a.attemptNo
    && r in q.messages && q.messages[r] == claim.message
    && claim.message.state == MessageState.Claimed && claim.message.attemptRef == a.attemptRef
  }

  /** Of the other records, only the attempt that a takeover takes over from changes, and it is orphaned. */
  ghost predicate LeavesOthers(q: Queue, q': Queue, claim: ClaimResult) {
    var r, a := claim.message.messageRef, claim.attempt.attemptRef;
    && r in q.messages && a !in q.attempts
    && q'.messages == q.messages[r := claim.message] && q'.attempts.Keys == q.attempts.Keys + {a}
    && (forall b :: b in q.attempts ==>
          q'.attempts[b] == if claim.takeover && b == q.messages[r].attemptRef
                            then q.attempts[b].(state := AttemptState.Orphaned) else q.attempts[b])
    && q'.checkpoints == q.checkpoints && q'.deadLetters == q.deadLetters
  }

  /** The message goes on as it was, one redelivery later on a takeover. */
  ghost predicate Continues(before: Message, claim: ClaimResult) {
    && Terms(claim.message) == Terms(before)
    && claim.message.redeliveryCount == before.redeliveryCount + (if claim.takeover then 1 else 0)
    && (claim.takeover <==> before.state != MessageState.Available)
  }

  /** The two ways in which the store grants a claim. */
  lemma GrantCases(q: Queue, c: ClaimRequest)
    requires Linked(q) && Claim(q, c).reply.Ok?
    ensures c.messageRef in q.messages && q.messages[c.messageRef].messageRef == c.messageRef
    ensures var m, turn := q.messages[c.messageRef], Claim(q, c);
            if m.state == MessageState.Available then
              turn.queue == Grant(q, m, c) && turn.reply.value == GrantReply(m, c, false, None)
            else
              && m.attemptRef in q.attempts && q.attempts[m.attemptRef].attemptRef == m.attemptRef
              && turn.queue == Grant(Orphan(q, q.attempts[m.attemptRef]), Redelivered(m), c)
              && turn.reply.value == GrantReply(Redelivered(m), c, true, Latest(CheckpointsOf(q, m.attemptRef)))
  {
    if q.messages[c.messageRef].state != MessageState.Available {
      ClaimTakeover(q, c);
      ClaimOfAbandoned(q, c);
    }
    hide CurrentStored, Latest, Grant, GrantReply, CheckpointsOf;
  }

  lemma GrantHands(q: Queue, m: Message, c: ClaimRequest, takeover: bool, latest: Option<Checkpoint>)
    requires takeover || latest.None?
    ensures var claim := GrantReply(m, c, takeover, latest);
            && HandsTo(Grant(q, m, c), claim, m.messageRef, c.endpoint.endpointRef, c.leaseExpiresAt)
            && claim.takeover == takeover && claim.message == m.(state := MessageState.Claimed, attemptRef := c.attemptRef)
            && claim.attempt.attemptRef == c.attemptRef
            && Grant(q, m, c).messages == q.messages[m.messageRef := claim.message]
            && Grant(q, m, c).attempts == q.attempts[c.attemptRef := claim.attempt]
            && Grant(q, m, c).checkpoints == q.checkpoints && Grant(q, m, c).deadLetters == q.deadLetters
  {
  }

  lemma FreeGrant(q: Queue, c: ClaimRequest)
    requires Linked(q) && Claim(q, c).reply.Ok? && c.attemptRef !in q.attempts
    requires c.messageRef in q.messages && q.messages[c.messageRef].state == MessageState.Available
    ensures GrantLaw(q, c)
  {
    GrantCases(q, c);
    hide Claim, Grant, GrantReply, Linked, Latest, HandsTo, CheckpointsOf;
    GrantHands(q, q.messages[c.messageRef], c, false, None);
  }

  lemma TakeoverGrant(q: Queue, c: ClaimRequest)
    requires Linked(q) && Claim(q, c).reply.Ok? && c.attemptRef !in q.attempts
    requires c.messageRef in q.messages && q.messages[c.messageRef].state != MessageState.Available
    ensures GrantLaw(q, c)
  {
    GrantCases(q, c);
    hide Claim, Grant, GrantReply, Linked, Latest, HandsTo, CheckpointsOf;
    var m := q.messages[c.messageRef];
    GrantHands(Orphan(q, q.attempts[m.attemptRef]), Redelivered(m), c, true, Latest(CheckpointsOf(q, m.attemptRef)));
  }

  ghost predicate GrantLaw(q: Queue, c: ClaimRequest)
    requires Claim(q, c).reply.Ok?
  {
    var claim, q' := Claim(q, c).reply.value, Claim(q, c).queue;
    && claim.message.messageRef == c.messageRef && claim.attempt.attemptRef == c.attemptRef
    && HandsTo(q', claim, c.messageRef, c.endpoint.endpointRef, c.leaseExpiresAt)
    && c.messageRef in q.messages && Continues(q.messages[c.messageRef], claim) && LeavesOthers(q, q', claim)
  }

  lemma StoreGrant(q: Queue, c: ClaimRequest)
    requires Linked(q) && Claim(q, c).reply.Ok? && c.attemptRef !in q.attempts
    ensures GrantLaw(q, c)
  {
    GrantCases(q, c);
    hide Claim, Grant, GrantReply, Linked, GrantLaw;
    if q.messages[c.messageRef].state == MessageState.Available { FreeGrant(q, c); } else { TakeoverGrant(q, c); }
  }

  /** The endpoint that a claim call speaks for. */
  function Claimer(call: Call): Ref
    requires call.ClaimCall? || call.ClaimNextCall?
  {
    call.endpointRef
  }

  lemma DirectGrant(settings: Settings, s: Ledger, now: Time, r: Ref, e: Ref)
    requires Linked(s.queue) && Counted(s) && EndpointsNamed(s) && ClaimMessage(settings, s, now, r, e).reply.Granted?
    ensures var turn := ClaimMessage(settings, s, now, r, e);
            var claim := turn.reply.claim;
            && claim.message.messageRef == r
            && HandsTo(turn.ledger.queue, claim, r, e, now + settings.leaseDuration)
            && r in s.queue.messages && Continues(s.queue.messages[r], claim)
               && LeavesOthers(s.queue, turn.ledger.queue, claim)
    ensures ClaimMessage(settings, s, now, r, e).ledger
            == s.(queue := ClaimMessage(settings, s, now, r, e).ledger.queue)
  {
    BumpKeepsLinked(s.queue, Refs.Kind.Attempt);
    BumpKeepsLinked(Bump(s.queue, Refs.Kind.Attempt), Refs.Kind.DeadLetter);
    NextIsFresh(s.queue, Refs.Kind.Attempt);
    var counted := ClaimCounted(s.queue);
    assert counted == s.queue.(sequences := counted.sequences);
    hide Linked, Claim, ClaimRefusal, HandsTo, Continues, ClaimCounted, Bump;
    StoreGrant(counted, ServiceClaim(settings, s.queue, now, r, s.endpoints[e]));
  }

  lemma SweepKeepsTerms(s: Ledger, now: Time, r: Ref)
    requires r in s.queue.messages
    ensures var swept := Reconcile(s.queue, now);
            && r in swept.messages && Terms(swept.messages[r]) == Terms(s.queue.messages[r])
            && swept.messages[r].redeliveryCount == s.queue.messages[r].redeliveryCount
            && (swept.messages[r].state == MessageState.Available <==> s.queue.messages[r].state == MessageState.Available)
            && swept.messages.Keys == s.queue.messages.Keys && swept.attempts.Keys == s.queue.attempts.Keys
  {
    hide CurrentAttempts;
  }

  lemma SweepKeepsReady(settings: Settings, s: Ledger, now: Time)
    requires ValidSettings(settings) && Linked(s.queue) && Counted(s) && EndpointsNamed(s)
    ensures var swept := ReconcileExpiredClaims(s, now).ledger;
            Linked(swept.queue) && Counted(swept) && EndpointsNamed(swept)
  {
    SweepKeepsLinked(s.queue, now);
    MoveKeepsCounted(settings, s, now, Sweep);
    hide Linked, Counted, Reconcile;
  }

  /** A polled grant is the direct grant from the swept ledger. */
  lemma PolledGrantHands(settings: Settings, s: Ledger, now: Time, e: Ref)
    requires ValidSettings(settings) && Linked(s.queue) && Counted(s) && EndpointsNamed(s)
    requires ClaimNextMessage(settings, s, now, e).reply.Granted?
    ensures var turn, swept := ClaimNextMessage(settings, s, now, e), Reconcile(s.queue, now);
            var claim := turn.reply.claim;
            var r := claim.message.messageRef;
            && HandsTo(turn.ledger.queue, claim, r, e, now + settings.leaseDuration)
            && r in swept.messages && Continues(swept.messages[r], claim) && LeavesOthers(swept, turn.ledger.queue, claim)
    ensures ClaimNextMessage(settings, s, now, e).ledger
            == s.(queue := ClaimNextMessage(settings, s, now, e).ledger.queue)
  {
    hide Calls.ClaimMessage, Linked, Counted, EndpointsNamed, Reconcile, ClaimNext, PollPick, HandsTo, Continues,
      LeavesOthers;
    assert PollRefusal(settings, s, now, e).None?;
    hide Calls.ClaimNextMessage;
    var swept := ReconcileExpiredClaims(s, now).ledger;
    PollIsDirectClaim(settings, s, now, e);
    SweepKeepsReady(settings, s, now);
    DirectGrant(settings, swept, now, PollPick(settings, swept, now, e).value, e);
  }

  lemma ContinuesThroughSweep(s: Ledger, now: Time, r: Ref, claim: ClaimResult)
    requires r in Reconcile(s.queue, now).messages && Continues(Reconcile(s.queue, now).messages[r], claim)
    ensures r in s.queue.messages && Continues(s.queue.messages[r], claim)
  {
    assert r in s.queue.messages;
    SweepKeepsTerms(s, now, r);
    hide Reconcile;
  }

  /**
   * Through either path a granted claim starts an attempt of the claimer, in its name, under a full lease, and says so.
   */
  lemma GrantIsTheClaimers(settings: Settings, s: Ledger, now: Time, call: Call)
    requires ValidSettings(settings) && Linked(s.queue) && Counted(s) && EndpointsNamed(s)
    requires Step(settings, s, now, call).reply.Granted?
    ensures call.ClaimCall? || call.ClaimNextCall?
    ensures var turn := Step(settings, s, now, call);
            var claim := turn.reply.claim;
            var r := claim.message.messageRef;
            && (call.ClaimCall? ==> r == call.messageRef)
            && HandsTo(turn.ledger.queue, claim, r, Claimer(call), now + settings.leaseDuration)
            && claim.attempt.attemptRef !in s.queue.attempts
            && r in s.queue.messages && Continues(s.queue.messages[r], claim)
            && turn.ledger == s.(queue := turn.ledger.queue)
  {
    OnlyClaimsGrant(settings, s, now, call);
    hide Calls.ClaimMessage, Calls.ClaimNextMessage, Linked, Counted, EndpointsNamed, HandsTo, Continues, Reconcile;
    if call.ClaimCall? {
      DirectGrant(settings, s, now, call.messageRef, call.endpointRef);
    } else {
      PolledGrantHands(settings, s, now, call.endpointRef);
      var claim := Step(settings, s, now, call).reply.claim;
      ContinuesThroughSweep(s, now, claim.message.messageRef, claim);
      SweepKeepsTerms(s, now, claim.message.messageRef);
    }
  }

  /** Until the lease passes, the claimer's refresh is accepted, and nobody else's. */
  lemma ClaimerMayRefresh(settings: Settings, s: Ledger, claim: ClaimResult, r: Ref, e: Ref, lease: Time, t: Time, other: Ref)
    requires e != "" && HandsTo(s.queue, claim, r, e, lease) && t <= lease
    ensures var a := claim.attempt.attemptRef;
            && RefreshLease(settings, s, t, a, e).reply.Leased?
            && RefreshLease(settings, s, t, a, e).ledger.queue.attempts[a].leaseExpiresAt == t + settings.leaseDuration
            && (other != e ==> RefreshLease(settings, s, t, a, other) == Refuse(s, StaleAttempt))
  {
  }

  /** Once the lease is past, the claimer is refused as expired, and after a sweep as stale. */
  lemma LateRefreshIsRefused(settings: Settings, s: Ledger, claim: ClaimResult, r: Ref, e: Ref, lease: Time, t: Time)
    requires e != "" && HandsTo(s.queue, claim, r, e, lease) && 0 != lease < t
    ensures var a, swept := claim.attempt.attemptRef, ReconcileExpiredClaims(s, t).ledger;
            && RefreshLease(settings, s, t, a, e) == Refuse(s, LeaseExpired)
            && RefreshLease(settings, swept, t, a, e) == Refuse(swept, StaleAttempt)
  {
    var a := claim.attempt.attemptRef;
    assert r in ExpiredClaims(s.queue, t);
    assert a in CurrentAttempts(s.queue, ExpiredClaims(s.queue, t));
  }

  /** And from the claim on, whoever is granted an attempt may refresh it at once and until the lease passes. */
  lemma GrantedMayRefresh(settings: Settings, s: Ledger, now: Time, call: Call, t: Time, other: Ref)
    requires ValidSettings(settings) && Linked(s.queue) && Counted(s) && EndpointsNamed(s)
    requires Step(settings, s, now, call).reply.Granted? && now <= t <= now + settings.leaseDuration
    ensures call.ClaimCall? || call.ClaimNextCall?
    ensures var turn, e := Step(settings, s, now, call), Claimer(call);
            var a := turn.reply.claim.attempt.attemptRef;
            && RefreshLease(settings, turn.ledger, t, a, e).reply.Leased?
            && (other != e ==> RefreshLease(settings, turn.ledger, t, a, other).reply == Refused(StaleAttempt))
  {
    GrantIsTheClaimers(settings, s, now, call);
    ClaimerIsNamed(settings, s, now, call);
    hide Step, Linked, Counted, EndpointsNamed, HandsTo, Continues, Calls.RefreshLease;
    var turn := Step(settings, s, now, call);
    ClaimerMayRefresh(settings, turn.ledger, turn.reply.claim, turn.reply.claim.message.messageRef, Claimer(call),
                      now + settings.leaseDuration, t, other);
  }

  lemma ClaimerIsNamed(settings: Settings, s: Ledger, now: Time, call: Call)
    requires EndpointsNamed(s) && (call.ClaimCall? || call.ClaimNextCall?) && Step(settings, s, now, call).reply.Granted?
    ensures Claimer(call) != ""
  {
    hide Claim, ClaimNext, Reconcile;
  }

  // Runs

  lemma {:induction false} QuietAddsNoAttempt(settings: Settings, s: Ledger, now: Time, moves: seq<Move>)
    requires ValidSettings(settings) && Linked(s.queue) && Path(settings, s, now, moves) && AllQuiet(moves)
    ensures Linked(After(settings, s, now, moves).queue)
    ensures After(settings, s, now, moves).queue.attempts.Keys <= s.queue.attempts.Keys
    decreases |moves|
  {
    hide Linked, Apply, Enabled;
    if moves != [] {
      var s' := Apply(settings, s, now, moves[0]);
      MoveKeepsLinked(settings, s, now, moves[0]);
      forall a | a in s'.queue.attempts ensures a in s.queue.attempts {
        if a !in s.queue.attempts { AttemptNew(settings, s, now, moves[0], a); }
      }
      QuietAddsNoAttempt(settings, s', now, moves[1..]);
    }
  }

  /** An attempt appears only as the one that a granted claim announces. */
  lemma NewAttemptIsGranted(settings: Settings, s: Ledger, now: Time, call: Call, a: Ref)
    requires ValidSettings(settings) && Linked(s.queue) && Counted(s)
    requires a in Step(settings, s, now, call).ledger.queue.attempts && a !in s.queue.attempts
    ensures Step(settings, s, now, call).reply.Granted?
    ensures Step(settings, s, now, call).reply.claim.attempt.attemptRef == a
  {
    hide Step, Linked, Counted, Apply, Enabled;
    var route := CallRoute(settings, s, now, call);
    var between := After(settings, s, now, route.quiet);
    QuietAddsNoAttempt(settings, s, now, route.quiet);
    AttemptNew(settings, between, now, route.loud.value, a);
  }

  /** Call `j` of the run was granted attempt `a` of message `r`, for endpoint `e`. */
  ghost predicate GrantedAt(settings: Settings, events: seq<Event>, j: nat, a: Ref, r: Ref, e: Ref)
    requires j < |events|
  {
    var call, reply := events[j].call, LastReply(settings, events[..j + 1]);
    && (call.ClaimCall? || call.ClaimNextCall?) && Claimer(call) == e
    && reply.Granted? && reply.claim.attempt.attemptRef == a && reply.claim.message.messageRef == r
  }

  /** In every run, each attempt was granted to the endpoint in whose name it is, for the message that it is of. */
  lemma {:induction false} AttemptsAreTheClaimers(settings: Settings, events: seq<Event>, a: Ref) returns (j: nat)
    requires ValidSettings(settings) && a in Run(settings, events).queue.attempts
    ensures j < |events|
    ensures var stored := Run(settings, events).queue.attempts[a];
            GrantedAt(settings, events, j, a, stored.messageRef, stored.endpointRef)
    decreases |events|
  {
    hide Step, Good, EndpointsNamed, HandsTo;
    assert events != [];
    var n := |events| - 1;
    var before := events[..n];
    var s := Run(settings, before);
    RunIsGood(settings, before);
    GoodLinks(settings, s);
    RunEndpointsNamed(settings, before);
    assert events[..n + 1] == events;
    if a in s.queue.attempts {
      j := AttemptsAreTheClaimers(settings, before, a);
      assert before[..j + 1] == events[..j + 1];
      CallEvolves(settings, s, events[n].now, events[n].call);
      assert AttemptEvolves(s.queue, events[n].now, Run(settings, events).queue, events[n].now, a);
    } else {
      j := n;
      NewAttemptIsGranted(settings, s, events[n].now, events[n].call, a);
      GrantIsTheClaimers(settings, s, events[n].now, events[n].call);
      HandedIdentity(Run(settings, events).queue, LastReply(settings, events).claim,
                     LastReply(settings, events).claim.message.messageRef, Claimer(events[n].call),
                     events[n].now + settings.leaseDuration);
    }
  }

  lemma HandedIdentity(q: Queue, claim: ClaimResult, r: Ref, e: Ref, lease: Time)
    requires HandsTo(q, claim, r, e, lease)
    ensures var a := claim.attempt.attemptRef;
            a in q.attempts && q.attempts[a].messageRef == r && q.attempts[a].endpointRef == e
  {
  }
}
