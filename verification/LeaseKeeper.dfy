// The worker's lease keeper: how often it refreshes, and why the lease of the
// attempt it keeps never lapses. Times are nanoseconds on one shared clock.
module LeaseKeeper {
  import opened Wrappers
  import opened Domain
  import opened QueueModel
  import opened Calls
  import opened Protocol
  import opened Links
  import opened Polling
  import opened Paths
  import opened Reachable
  import opened Runs
  import Refs

  const MINIMUM: nat := 1_000_000
  const WHEN_UNKNOWN: nat := 1_000_000_000

  /** How long the keeper waits at `now`; None is an expiry that is blank or cannot be read. */
  function Interval(expiry: Option<Time>, now: Time): nat {
    match expiry
    case None => WHEN_UNKNOWN
    case Some(at) =>
      if at <= now || (at - now) / 2 < MINIMUM then MINIMUM else (at - now) / 2
  }

  /**
   * When the server gets the refresh of a keeper that hears of `expiry` at `now`; `out` is timer lateness and transit.
   */
  function Arrival(expiry: Option<Time>, now: Time, out: nat): Time {
    now + Interval(expiry, now) + out
  }

  // One round: a refresh is answered at `now`, the answer travels for `back`, the next request for `out`

  function NextRefresh(lease: nat, now: Time, back: nat, out: nat): Time {
    Arrival(Some(now + lease), now + back, out)
  }

  ghost predicate RoundsInTime(lease: nat, delay: nat) {
    forall now, back, out | 0 <= now && 0 <= back <= delay && 0 <= out <= delay ::
      NextRefresh(lease, now, back, out) <= now + lease
  }

  /** Exactly which delays leave every refresh inside the lease that the one before it gave. */
  lemma RoundsInTimeIff(lease: nat, delay: nat)
    ensures RoundsInTime(lease, delay) <==> 3 * delay <= lease + 1 && 2 * delay + MINIMUM <= lease
  {
    if RoundsInTime(lease, delay) {
      assert NextRefresh(lease, 0, delay, delay) <= lease;
    }
  }

  /** A third of the lease for each way is enough from three milliseconds on. */
  lemma ThirdsAreEnough(lease: nat, delay: nat)
    requires 3 * delay <= lease && lease >= 3 * MINIMUM
    ensures RoundsInTime(lease, delay)
  {
    RoundsInTimeIff(lease, delay);
  }

  // The loop

  /** What happens to one pass of the loop. */
  datatype Round =
    | Stopped
    | Refreshed(out: nat, expiry: Option<Time>, back: nat)
    | Refused(out: nat, error: Error)

  /** When the requests of a keeper arrive, from `now` on. */
  function Arrivals(expiry: Option<Time>, now: Time, rounds: seq<Round>): seq<Time>
    decreases |rounds|
  {
    if rounds == [] then []
    else
      match rounds[0]
      case Stopped => []
      case Refused(out, _) => [Arrival(expiry, now, out)]
      case Refreshed(out, next, back) =>
        var at := Arrival(expiry, now, out);
        [at] + Arrivals(next, at + back, rounds[1..])
  }

  /** The first refusal that the keeper meets before it is stopped. */
  function Failure(rounds: seq<Round>): Option<Error>
    decreases |rounds|
  {
    if rounds == [] || rounds[0].Stopped? then None
    else if rounds[0].Refused? then Some(rounds[0].error)
    else Failure(rounds[1..])
  }

  method Keep(leaseExpiresAt: Option<Time>, start: Time, rounds: seq<Round>) returns (arrivals: seq<Time>, err: Option<Error>)
    ensures arrivals == Arrivals(leaseExpiresAt, start, rounds) && err == Failure(rounds)
  {
    arrivals, err := [], None;
    var next, now := leaseExpiresAt, start;
    for i := 0 to |rounds|
      invariant Arrivals(leaseExpiresAt, start, rounds) == arrivals + Arrivals(next, now, rounds[i..])
      invariant err == None && Failure(rounds) == Failure(rounds[i..])
    {
      assert rounds[i..][1..] == rounds[i + 1..];
      match rounds[i] {
        case Stopped => return;
        case Refused(out, error) =>
          arrivals, err := arrivals + [Arrival(next, now, out)], Some(error);
          return;
        case Refreshed(out, expiry, back) =>
          var at := Arrival(next, now, out);
          arrivals := arrivals + [at];
          next, now := expiry, at + back;
      }
    }
  }

  /** A server that answers each refresh with a full lease, over a network that takes at most `delay` each way. */
  ghost predicate Served(lease: nat, delay: nat, expiry: Option<Time>, now: Time, rounds: seq<Round>)
    decreases |rounds|
  {
    rounds == [] ||
    match rounds[0]
    case Stopped => true
    case Refused(out, _) => out <= delay
    case Refreshed(out, next, back) =>
      var at := Arrival(expiry, now, out);
      out <= delay && back <= delay && next == Some(at + lease) && Served(lease, delay, next, at + back, rounds[1..])
  }

  /** However often the loop goes round, each request arrives inside the lease that the one before it obtained. */
  lemma {:induction false} LoopIsInTime(lease: nat, delay: nat, first: Time, back: nat, rounds: seq<Round>, i: nat)
    requires RoundsInTime(lease, delay) && back <= delay && Served(lease, delay, Some(first + lease), first + back, rounds)
    requires i < |Arrivals(Some(first + lease), first + back, rounds)|
    ensures var arrivals := Arrivals(Some(first + lease), first + back, rounds);
            (if i == 0 then first else arrivals[i - 1]) <= arrivals[i] <= (if i == 0 then first else arrivals[i - 1]) + lease
    decreases |rounds|
  {
    var out := rounds[0].out;
    assert NextRefresh(lease, first, back, out) == Arrival(Some(first + lease), first + back, out);
    if i > 0 { LoopIsInTime(lease, delay, Arrival(Some(first + lease), first + back, out), rounds[0].back, rounds[1..], i - 1); }
  }

  // The server's side, over whole runs

  /** The lease of an attempt is left alone, and a closed attempt stays closed. */
  ghost predicate LeaseKept(q: Queue, q': Queue, a: Ref)
    requires a in q.attempts
  {
    && a in q'.attempts && q'.attempts[a].leaseExpiresAt == q.attempts[a].leaseExpiresAt
    && (AttemptClosed(q.attempts[a].state) ==> AttemptClosed(q'.attempts[a].state))
  }

  lemma LeaseKeptFurther(q: Queue, q': Queue, q'': Queue, a: Ref)
    requires a in q.attempts && LeaseKept(q, q', a) && LeaseKept(q', q'', a)
    ensures LeaseKept(q, q'', a)
  {
  }

  lemma GrantLeavesLease(q: Queue, m: Message, c: ClaimRequest, a: Ref)
    requires a in q.attempts && c.attemptRef !in q.attempts
    ensures LeaseKept(q, Grant(q, m, c), a)
  {
  }

  lemma OrphanLeavesLease(q: Queue, b: Ref, a: Ref)
    requires a in q.attempts && b in q.attempts && q.attempts[b].attemptRef == b
    ensures LeaseKept(q, Orphan(q, q.attempts[b]), a) && Orphan(q, q.attempts[b]).attempts.Keys == q.attempts.Keys
  {
  }

  lemma BuryLeavesLease(q: Queue, m: Message, b: Ref, c: ClaimRequest, a: Ref)
    requires a in q.attempts && b in q.attempts && q.attempts[b].attemptRef == b
    ensures LeaseKept(q, Bury(q, m, q.attempts[b], c), a)
  {
  }

  lemma StoreClaimLeavesLease(q: Queue, c: ClaimRequest, a: Ref)
    requires Keyed(q) && a in q.attempts && c.attemptRef !in q.attempts
    ensures LeaseKept(q, Claim(q, c).queue, a)
  {
    if c.messageRef in q.messages {
      var m := q.messages[c.messageRef];
      GrantLeavesLease(q, m, c, a);
      GrantLeavesLease(q, Redelivered(m), c, a);
      if m.attemptRef in q.attempts {
        var orphaned := Orphan(q, q.attempts[m.attemptRef]);
        BuryLeavesLease(q, m, m.attemptRef, c, a);
        OrphanLeavesLease(q, m.attemptRef, a);
        GrantLeavesLease(orphaned, Redelivered(m), c, a);
        LeaseKeptFurther(q, orphaned, Grant(orphaned, Redelivered(m), c), a);
      }
    }
    hide Grant, Orphan, Bury, LeaseKept, GrantReply, Redelivered;
  }

  lemma ClaimLeavesLease(settings: Settings, s: Ledger, now: Time, r: Ref, e: Ref, a: Ref)
    requires Linked(s.queue) && Counted(s) && a in s.queue.attempts
    ensures LeaseKept(s.queue, ClaimMessage(settings, s, now, r, e).ledger.queue, a)
  {
    hide Claim;
    NextIsFresh(s.queue, Refs.Kind.Attempt);
    if ClaimRefusal(settings, s, now, r, e).None? {
      StoreClaimLeavesLease(ClaimCounted(s.queue), ServiceClaim(settings, s.queue, now, r, s.endpoints[e]), a);
    }
  }

  lemma SweepLeavesLease(q: Queue, now: Time, a: Ref)
    requires a in q.attempts
    ensures LeaseKept(q, Reconcile(q, now), a)
  {
  }

  lemma PickedLeavesLease(q: Queue, r: Ref, c: ClaimNextRequest, a: Ref)
    requires Keyed(q) && a in q.attempts && r in q.messages && c.attemptRef == ""
            && NextRef(q, Refs.Kind.Attempt) !in q.attempts
    ensures LeaseKept(q, ClaimEligible(q, r, c).queue, a)
  {
    hide Grant, Bury, LeaseKept;
    var m, d, q1 := q.messages[r], DirectRequest(q, r, c), WithRefs(q, c);
    GrantLeavesLease(q1, m, d, a);
    GrantLeavesLease(q1, Redelivered(m), d, a);
    if m.attemptRef in q1.attempts { BuryLeavesLease(q1, m, m.attemptRef, d, a); }
    DrawLeavesLease(q, c, a);
    LeaseKeptFurther(q, q1, ClaimEligible(q, r, c).queue, a);
  }

  lemma DrawLeavesLease(q: Queue, c: ClaimNextRequest, a: Ref)
    requires a in q.attempts
    ensures LeaseKept(q, WithRefs(q, c), a)
  {
  }

  lemma NextLeavesLease(q: Queue, c: ClaimNextRequest, a: Ref)
    requires Keyed(q) && a in q.attempts && c.attemptRef == "" && NextRef(q, Refs.Kind.Attempt) !in q.attempts
    ensures LeaseKept(q, ClaimNext(q, c).queue, a)
  {
    hide ClaimEligible, NextEligible, LeaseKept, Keyed, Eligible;
    Unmoved(q, a);
    NextEligibleIsEligible(q, c);
    if NextEligible(q, c).Some? { PickedLeavesLease(q, NextEligible(q, c).value, c, a); }
  }

  lemma SweepKeepsFreshness(s: Ledger, now: Time)
    requires Linked(s.queue) && Counted(s)
    ensures var swept := Reconcile(s.queue, now); Keyed(swept) && NextRef(swept, Refs.Kind.Attempt) !in swept.attempts
  {
    NextIsFresh(s.queue, Refs.Kind.Attempt);
    SweepKeepsLinked(s.queue, now);
  }

  lemma PollLeavesLease(settings: Settings, s: Ledger, now: Time, e: Ref, a: Ref)
    requires Linked(s.queue) && Counted(s) && a in s.queue.attempts
    ensures LeaseKept(s.queue, ClaimNextMessage(settings, s, now, e).ledger.queue, a)
  {
    SweepLeavesLease(s.queue, now, a);
    SweepKeepsFreshness(s, now);
    Unmoved(s.queue, a);
    hide ClaimNext, Reconcile, Linked, Counted, Keyed;
    if PollRefusal(settings, s, now, e).None? {
      var swept, c := Reconcile(s.queue, now), PollRequest(settings, s, now, s.endpoints[e]);
      NextLeavesLease(swept, c, a);
      hide LeaseKept;
      LeaseKeptFurther(s.queue, swept, ClaimNext(swept, c).queue, a);
    }
  }

  lemma Unmoved(q: Queue, a: Ref)
    requires a in q.attempts
    ensures LeaseKept(q, q, a)
  {
  }

  lemma IngressLeavesLease(s: Ledger, req: IngressRequest, a: Ref)
    requires a in s.queue.attempts
    ensures LeaseKept(s.queue, Ingress(s, req).ledger.queue, a)
  {
  }

  lemma {:induction false} PostsLeaveLease(s: Ledger, reqs: seq<IngressRequest>, a: Ref)
    requires a in s.queue.attempts
    ensures LeaseKept(s.queue, PostAll(s, reqs).ledger.queue, a)
    decreases |reqs|
  {
    hide Ingress;
    if reqs != [] {
      IngressLeavesLease(s, reqs[0], a);
      if Ingress(s, reqs[0]).reply.Posted? { PostsLeaveLease(Ingress(s, reqs[0]).ledger, reqs[1..], a); }
    }
  }

  lemma ReportLeavesLease(q: Queue, b: Ref, req: CheckpointRequest, a: Ref)
    requires a in q.attempts && b in q.attempts && q.attempts[b].attemptRef == b && !AttemptClosed(q.attempts[b].state)
    ensures LeaseKept(q, WithCheckpoint(q, q.attempts[b], req), a)
  {
  }

  lemma CheckpointLeavesLease(s: Ledger, now: Time, b: Ref, req: CheckpointRequest, a: Ref)
    requires Linked(s.queue) && a in s.queue.attempts
    ensures LeaseKept(s.queue, SubmitCheckpoint(s, now, b, req).ledger.queue, a)
  {
    if CheckpointRefusal(s, now, b, req).None? { ReportLeavesLease(s.queue, b, req, a); }
    hide WithCheckpoint, Linked, ArtifactsOfMessage, ValidCheckpoint;
  }

  lemma CompletionLeavesLease(s: Ledger, now: Time, b: Ref, req: CompletionRequest, a: Ref)
    requires Linked(s.queue) && a in s.queue.attempts
    ensures LeaseKept(s.queue, CompleteAttempt(s, now, b, req).ledger.queue, a)
  {
    hide PostAll;
    var turn := SubmitCheckpoint(s, now, b, CompletionCheckpoint(req));
    CheckpointLeavesLease(s, now, b, CompletionCheckpoint(req), a);
    if req.endpointRef != "" && req.summary != "" && !turn.reply.Refused? {
      var parent := turn.ledger.queue.messages[s.queue.attempts[b].messageRef];
      PostsLeaveLease(turn.ledger, FollowUps(req.followUps, req.endpointRef, parent), a);
    }
  }

  lemma TaskCallLeavesLease(settings: Settings, s: Ledger, now: Time, call: Call, a: Ref)
    requires a in s.queue.attempts && (call.CancelCall? || call.RetryCall? || call.ReconcileCall?)
    ensures LeaseKept(s.queue, Step(settings, s, now, call).ledger.queue, a)
  {
  }

  lemma ReplayLeavesLease(s: Ledger, d: Ref, accepted: bool, a: Ref)
    requires a in s.queue.attempts
    ensures LeaseKept(s.queue, ReplayDeadLetter(s, d, accepted).ledger.queue, a)
  {
    if d != "" && d in s.queue.deadLetters && s.queue.deadLetters[d].messageRef in s.queue.messages {
      IngressLeavesLease(s, ReplayRequest(s.queue.messages[s.queue.deadLetters[d].messageRef], accepted), a);
    }
  }

  predicate TouchesQueue(call: Call) {
    match call
    case IngressCall(_) | ClaimCall(_, _) | ClaimNextCall(_) | CheckpointCall(_, _) | RefreshCall(_, _)
      | CompleteCall(_, _) | CancelCall(_) | RetryCall(_) | ReplayCall(_, _) | ReconcileCall => true
    case _ => false
  }

  lemma OtherCallLeavesLease(settings: Settings, s: Ledger, now: Time, call: Call, a: Ref)
    requires a in s.queue.attempts && !TouchesQueue(call)
    ensures LeaseKept(s.queue, Step(settings, s, now, call).ledger.queue, a)
  {
  }

  lemma RefreshOutcome(settings: Settings, s: Ledger, now: Time, a: Ref, b: Ref, e: Ref)
    requires Linked(s.queue) && a in s.queue.attempts
    ensures var turn := RefreshLease(settings, s, now, b, e);
            && (b != a || !turn.reply.Leased? ==> LeaseKept(s.queue, turn.ledger.queue, a))
            && (b == a ==> (turn.reply.Leased? <==>
                              e != "" && s.queue.attempts[a].endpointRef == e && Live(s.queue.attempts[a], now)))
            && a in turn.ledger.queue.attempts
            && (b == a && turn.reply.Leased? ==>
                  turn.ledger.queue.attempts[a] == s.queue.attempts[a].(leaseExpiresAt := now + settings.leaseDuration))
  {
  }

  /** No call but an accepted refresh of the attempt itself moves its lease, and no call reopens it. */
  lemma OnlyRefreshMovesLease(settings: Settings, s: Ledger, now: Time, call: Call, a: Ref)
    requires Linked(s.queue) && Counted(s) && a in s.queue.attempts
    ensures var turn := Step(settings, s, now, call);
            LeaseKept(s.queue, turn.ledger.queue, a)
            || (call.RefreshCall? && call.attemptRef == a && turn.reply.Leased? && a in turn.ledger.queue.attempts
                && turn.ledger.queue.attempts[a] == s.queue.attempts[a].(leaseExpiresAt := now + settings.leaseDuration))
  {
    hide Linked, Counted, Calls.ClaimMessage, Calls.ClaimNextMessage, Ingress, SubmitCheckpoint, CompleteAttempt,
      ReplayDeadLetter, Calls.RefreshLease, LeaseKept;
    match call
    case IngressCall(req) => IngressLeavesLease(s, req, a);
    case ClaimCall(r, e) => ClaimLeavesLease(settings, s, now, r, e, a);
    case ClaimNextCall(e) => PollLeavesLease(settings, s, now, e, a);
    case CheckpointCall(b, req) => CheckpointLeavesLease(s, now, b, req, a);
    case RefreshCall(b, e) => RefreshOutcome(settings, s, now, a, b, e);
    case CompleteCall(b, req) => CompletionLeavesLease(s, now, b, req, a);
    case ReplayCall(d, accepted) => ReplayLeavesLease(s, d, accepted, a);
    case CancelCall(_) => TaskCallLeavesLease(settings, s, now, call, a);
    case RetryCall(_) => TaskCallLeavesLease(settings, s, now, call, a);
    case ReconcileCall => TaskCallLeavesLease(settings, s, now, call, a);
    case _ => OtherCallLeavesLease(settings, s, now, call, a);
  }

  // A keeper among all the other calls of a run

  /** Call `i` of the run is a refresh of the attempt by this endpoint. */
  predicate IsRefresh(events: seq<Event>, i: int, a: Ref, e: Ref) {
    0 <= i < |events| && events[i].call == RefreshCall(a, e)
  }

  ghost predicate Accepted(settings: Settings, events: seq<Event>, i: int, a: Ref, e: Ref) {
    IsRefresh(events, i, a, e) && LastReply(settings, events[..i + 1]).Leased?
  }

  /** The next refresh after call `i` arrives when the keeper's schedule says, unless the run ends before. */
  ghost predicate FollowedUp(lease: nat, delay: nat, events: seq<Event>, i: nat, a: Ref, e: Ref)
    requires i < |events|
  {
    exists back, out | 0 <= back <= delay && 0 <= out <= delay ::
      var due := NextRefresh(lease, events[i].now, back, out);
      Clock(events) <= due || exists j :: i < j && IsRefresh(events, j, a, e) && events[j].now == due
  }

  /** A keeper is at work to the end of the run: it follows up each refresh that was accepted. */
  ghost predicate KeeperAtWork(settings: Settings, delay: nat, events: seq<Event>, a: Ref, e: Ref) {
    forall i :: Accepted(settings, events, i, a, e) ==> FollowedUp(settings.leaseDuration, delay, events, i, a, e)
  }

  ghost predicate Closed(settings: Settings, events: seq<Event>, a: Ref) {
    var q := Run(settings, events).queue;
    a in q.attempts && AttemptClosed(q.attempts[a].state)
  }

  /** Call `i` was the last refresh so far, and the lease it obtained still stands. */
  ghost predicate HeldSince(settings: Settings, events: seq<Event>, i: int, a: Ref, e: Ref) {
    var q := Run(settings, events).queue;
    && 0 <= i < |events| && a in q.attempts && e != "" && q.attempts[a].endpointRef == e
    && q.attempts[a].leaseExpiresAt == events[i].now + settings.leaseDuration
    && Clock(events) <= events[i].now + settings.leaseDuration
    && !AttemptClosed(q.attempts[a].state)
    && Accepted(settings, events, i, a, e)
    && forall j :: i < j ==> !IsRefresh(events, j, a, e)
  }

  /** What a call does to the lease of an attempt of endpoint `e`. */
  lemma CallAndLease(settings: Settings, s: Ledger, now: Time, call: Call, a: Ref, e: Ref)
    requires ValidSettings(settings) && Good(settings, s) && a in s.queue.attempts && e != ""
            && s.queue.attempts[a].endpointRef == e
    ensures var turn := Step(settings, s, now, call);
            && a in turn.ledger.queue.attempts && turn.ledger.queue.attempts[a].endpointRef == e
            && (call != RefreshCall(a, e) ==> LeaseKept(s.queue, turn.ledger.queue, a))
            && (call == RefreshCall(a, e) ==>
                  && (turn.reply.Leased? <==> Live(s.queue.attempts[a], now))
                  && (turn.reply.Leased? ==>
                        turn.ledger.queue.attempts[a] == s.queue.attempts[a].(leaseExpiresAt := now + settings.leaseDuration)))
            && (AttemptClosed(s.queue.attempts[a].state) ==> AttemptClosed(turn.ledger.queue.attempts[a].state))
  {
    hide Linked, Counted, Calls.ClaimMessage, Calls.ClaimNextMessage, Ingress, SubmitCheckpoint, CompleteAttempt,
      ReplayDeadLetter, Calls.RefreshLease;
    CallEvolves(settings, s, now, call);
    assert AttemptEvolves(s.queue, now, Step(settings, s, now, call).ledger.queue, now, a);
    hide Evolves, AttemptEvolves;
    OnlyRefreshMovesLease(settings, s, now, call, a);
    if call.RefreshCall? { RefreshOutcome(settings, s, now, a, call.attemptRef, call.endpointRef); }
  }

  lemma RunStep(settings: Settings, events: seq<Event>)
    requires events != []
    ensures var n := |events| - 1;
            var turn := Step(settings, Run(settings, events[..n]), events[n].now, events[n].call);
            Run(settings, events) == turn.ledger && LastReply(settings, events) == turn.reply
  {
  }

  lemma AcceptedStays(settings: Settings, events: seq<Event>, n: nat, i: int, a: Ref, e: Ref)
    requires n <= |events|
    ensures Accepted(settings, events[..n], i, a, e) <==> i < n && Accepted(settings, events, i, a, e)
  {
    if 0 <= i < n { assert events[..n][..i + 1] == events[..i + 1]; }
  }

  lemma RefreshStays(events: seq<Event>, n: nat, j: int, a: Ref, e: Ref)
    requires n <= |events|
    ensures IsRefresh(events[..n], j, a, e) <==> j < n && IsRefresh(events, j, a, e)
  {
  }

  /** A call that is not the keeper's leaves it holding the lease, or closes the attempt. */
  lemma HeldThroughOther(settings: Settings, events: seq<Event>, i: int, a: Ref, e: Ref)
    requires ValidSettings(settings) && events != []
    requires HeldSince(settings, events[..|events| - 1], i, a, e)
    requires !IsRefresh(events, |events| - 1, a, e) && Clock(events) <= events[i].now + settings.leaseDuration
    ensures Closed(settings, events, a) || HeldSince(settings, events, i, a, e)
  {
    hide Step, Run, Good, LastReply;
    var n := |events| - 1;
    RunIsGood(settings, events[..n]);
    CallAndLease(settings, Run(settings, events[..n]), events[n].now, events[n].call, a, e);
    RunStep(settings, events);
    AcceptedStays(settings, events, n, i, a, e);
    forall j | i < j ensures !IsRefresh(events, j, a, e) {
      RefreshStays(events, n, j, a, e);
    }
  }

  /** The keeper's own call, in time, takes the lease over from the one before. */
  lemma HeldThroughRefresh(settings: Settings, events: seq<Event>, i: int, a: Ref, e: Ref)
    requires ValidSettings(settings) && events != []
    requires HeldSince(settings, events[..|events| - 1], i, a, e)
    requires IsRefresh(events, |events| - 1, a, e) && Clock(events) <= events[i].now + settings.leaseDuration
    ensures HeldSince(settings, events, |events| - 1, a, e)
  {
    hide Step, Run, Good, LastReply;
    var n := |events| - 1;
    RunIsGood(settings, events[..n]);
    CallAndLease(settings, Run(settings, events[..n]), events[n].now, events[n].call, a, e);
    RunStep(settings, events);
    assert events[..n + 1] == events;
  }

  lemma GoodIsLinked(settings: Settings, s: Ledger)
    requires Good(settings, s)
    ensures Linked(s.queue) && Counted(s)
  {
  }

  lemma ClosedStays(settings: Settings, events: seq<Event>, a: Ref)
    requires ValidSettings(settings) && events != [] && Closed(settings, events[..|events| - 1], a)
    ensures Closed(settings, events, a)
  {
    hide Step, Run, Good, LastReply;
    var n := |events| - 1;
    var s := Run(settings, events[..n]);
    RunStep(settings, events);
    RunIsGood(settings, events[..n]);
    GoodIsLinked(settings, s);
    OnlyRefreshMovesLease(settings, s, events[n].now, events[n].call, a);
  }

  /** The keeper's next refresh has not come yet, so the lease has not run out. */
  lemma NotYetDue(settings: Settings, delay: nat, events: seq<Event>, n: nat, i: int, a: Ref, e: Ref)
    requires InOrder(events) && RoundsInTime(settings.leaseDuration, delay) && KeeperAtWork(settings, delay, events, a, e)
    requires n < |events| && HeldSince(settings, events[..n], i, a, e)
    ensures events[n].now <= events[i].now + settings.leaseDuration
  {
    hide Run, Step, NextRefresh, LastReply;
    AcceptedStays(settings, events, n, i, a, e);
    assert FollowedUp(settings.leaseDuration, delay, events, i, a, e);
    var back, out :| 0 <= back <= delay && 0 <= out <= delay
      && var due := NextRefresh(settings.leaseDuration, events[i].now, back, out);
         Clock(events) <= due || exists j :: i < j && IsRefresh(events, j, a, e) && events[j].now == due;
    var due := NextRefresh(settings.leaseDuration, events[i].now, back, out);
    assert due <= events[i].now + settings.leaseDuration;
    if Clock(events) > due {
      var j :| i < j && IsRefresh(events, j, a, e) && events[j].now == due;
      RefreshStays(events, n, j, a, e);
    }
  }

  /** From an accepted refresh on, at every point of the run the keeper holds the lease or the attempt is closed. */
  lemma {:induction false} KeeperHolds(settings: Settings, delay: nat, events: seq<Event>, k: nat, n: nat, a: Ref, e: Ref)
    requires ValidSettings(settings) && InOrder(events) && RoundsInTime(settings.leaseDuration, delay)
    requires KeeperAtWork(settings, delay, events, a, e)
    requires k < n <= |events| && Accepted(settings, events, k, a, e)
    ensures Closed(settings, events[..n], a) || exists i :: HeldSince(settings, events[..n], i, a, e)
    decreases n
  {
    hide Run, Step, KeeperAtWork, RoundsInTime, LastReply;
    var upTo := events[..n];
    assert upTo[..n - 1] == events[..n - 1];
    if n == k + 1 {
      AcceptedStays(settings, events, n, k, a, e);
      FirstHold(settings, upTo, a, e);
    } else {
      KeeperHolds(settings, delay, events, k, n - 1, a, e);
      if Closed(settings, events[..n - 1], a) {
        ClosedStays(settings, upTo, a);
      } else {
        var i :| HeldSince(settings, events[..n - 1], i, a, e);
        NotYetDue(settings, delay, events, n - 1, i, a, e);
        if IsRefresh(upTo, n - 1, a, e) {
          HeldThroughRefresh(settings, upTo, i, a, e);
        } else {
          HeldThroughOther(settings, upTo, i, a, e);
        }
      }
    }
  }

  /** An accepted refresh holds the lease at that moment. */
  lemma FirstHold(settings: Settings, events: seq<Event>, a: Ref, e: Ref)
    requires ValidSettings(settings) && events != [] && Accepted(settings, events, |events| - 1, a, e)
    ensures HeldSince(settings, events, |events| - 1, a, e)
  {
    hide Good;
    var n := |events| - 1;
    assert events[..n + 1] == events;
    RunIsGood(settings, events[..n]);
    var s := Run(settings, events[..n]);
    assert RefreshLease(settings, s, events[n].now, a, e).reply.Leased?;
    CallAndLease(settings, s, events[n].now, events[n].call, a, e);
  }

  /**
   * While a keeper is at work and the delays fit the lease, the lease never lapses: at every point of the run
   * the attempt is live or closed, and the server refuses none of the keeper's refreshes of an open attempt.
   */
  lemma LeaseNeverLapses(settings: Settings, delay: nat, events: seq<Event>, k: nat, n: nat, a: Ref, e: Ref)
    requires ValidSettings(settings) && InOrder(events) && RoundsInTime(settings.leaseDuration, delay)
    requires KeeperAtWork(settings, delay, events, a, e)
    requires k < n <= |events| && Accepted(settings, events, k, a, e)
    ensures Closed(settings, events[..n], a)
            || (a in Run(settings, events[..n]).queue.attempts
                && Live(Run(settings, events[..n]).queue.attempts[a], Clock(events[..n])))
    ensures n < |events| && IsRefresh(events, n, a, e) && !Accepted(settings, events, n, a, e) ==>
            Closed(settings, events[..n], a)
  {
    hide Step, KeeperAtWork, RoundsInTime, LastReply, Good, Run;
    KeeperHolds(settings, delay, events, k, n, a, e);
    if n < |events| && IsRefresh(events, n, a, e) && !Closed(settings, events[..n], a) {
      var i :| HeldSince(settings, events[..n], i, a, e);
      NotYetDue(settings, delay, events, n, i, a, e);
      var upTo := events[..n + 1];
      assert upTo[..n] == events[..n];
      HeldThroughRefresh(settings, upTo, i, a, e);
      AcceptedStays(settings, events, n + 1, n, a, e);
    }
  }
}
