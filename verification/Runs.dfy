// The main results over whole runs of the service, from an empty ledger, under
// any sequence of calls. A call is one step at one instant.
module Runs {
  import opened Wrappers
  import opened Domain
  import opened Routing
  import opened QueueModel
  import opened Calls
  import opened Links
  import opened Leases
  import opened Dependencies
  import opened Redelivery
  import opened Resume
  import opened Outcomes
  import opened Polling
  import opened MemoryStore
  import opened Protocol
  import opened Paths
  import opened Reachable
  import Refs

  datatype Event = Event(now: Time, call: Call)

  ghost function Run(settings: Settings, events: seq<Event>): Ledger
    decreases |events|
  {
    if events == [] then EMPTY_LEDGER else
    var n := |events| - 1;
    Step(settings, Run(settings, events[..n]), events[n].now, events[n].call).ledger
  }

  function Clock(events: seq<Event>): Time {
    if events == [] then 0 else events[|events| - 1].now
  }

  /** The clock never goes back. */
  ghost predicate InOrder(events: seq<Event>) {
    forall i, j :: 0 <= i < j < |events| ==> events[i].now <= events[j].now
  }

  /** The answer to the last call. */
  ghost function LastReply(settings: Settings, events: seq<Event>): Reply
    requires events != []
  {
    var n := |events| - 1;
    Step(settings, Run(settings, events[..n]), events[n].now, events[n].call).reply
  }

  lemma {:induction false} RunIsGood(settings: Settings, events: seq<Event>)
    requires ValidSettings(settings)
    ensures Good(settings, Run(settings, events))
    decreases |events|
  {
    if events == [] {
      EmptyIsGood(settings);
    } else {
      var n := |events| - 1;
      RunIsGood(settings, events[..n]);
      CallKeepsGood(settings, Run(settings, events[..n]), events[n].now, events[n].call);
    }
  }

  // Lease exclusivity

  /** Whenever a retry is accepted, no input-required message that it reopens still has a live attempt. */
  ghost predicate PatientRetries(settings: Settings, events: seq<Event>) {
    forall i :: 0 <= i < |events| ==> !IsImpatient(Run(settings, events[..i]), events[i].now, events[i].call)
  }

  lemma PrefixPatient(settings: Settings, events: seq<Event>, n: nat)
    requires PatientRetries(settings, events) && InOrder(events) && n <= |events|
    ensures PatientRetries(settings, events[..n]) && InOrder(events[..n])
  {
    forall i | 0 <= i < n ensures !IsImpatient(Run(settings, events[..n][..i]), events[..n][i].now, events[..n][i].call) {
      assert events[..n][..i] == events[..i];
    }
  }

  /** In a run with patient retries the only live attempt of a message is the one it points at. */
  lemma {:induction false} LeasesAreExclusive(settings: Settings, events: seq<Event>)
    requires ValidSettings(settings) && InOrder(events) && PatientRetries(settings, events)
    ensures LiveIsCurrent(Run(settings, events).queue, Clock(events))
    decreases |events|
  {
    if events != [] {
      var n := |events| - 1;
      PrefixPatient(settings, events, n);
      LeasesAreExclusive(settings, events[..n]);
      RunIsGood(settings, events[..n]);
      LiveIsCurrentLater(Run(settings, events[..n]).queue, Clock(events[..n]), events[n].now);
      CallKeepsLive(settings, Run(settings, events[..n]), events[n].now, events[n].call);
    }
  }

  /** Exclusivity holds at every point of a run exactly when all its accepted retries are patient. */
  lemma ExclusiveIffPatient(settings: Settings, events: seq<Event>)
    requires ValidSettings(settings) && InOrder(events)
    ensures (forall i :: 0 <= i <= |events| ==> LiveIsCurrent(Run(settings, events[..i]).queue, Clock(events[..i])))
            <==> PatientRetries(settings, events)
  {
    hide Run, Step, Good, LiveIsCurrent, IsImpatient;
    if PatientRetries(settings, events) {
      forall i | 0 <= i <= |events| ensures LiveIsCurrent(Run(settings, events[..i]).queue, Clock(events[..i])) {
        PrefixPatient(settings, events, i);
        LeasesAreExclusive(settings, events[..i]);
      }
    }
    if forall i :: 0 <= i <= |events| ==> LiveIsCurrent(Run(settings, events[..i]).queue, Clock(events[..i])) {
      forall i | 0 <= i < |events| ensures !IsImpatient(Run(settings, events[..i]), events[i].now, events[i].call) {
        assert LiveIsCurrent(Run(settings, events[..i + 1]).queue, Clock(events[..i + 1]));
        StepsExclusively(settings, events, i);
      }
    }
  }

  lemma StepsExclusively(settings: Settings, events: seq<Event>, i: nat)
    requires ValidSettings(settings) && InOrder(events) && i < |events|
    requires LiveIsCurrent(Run(settings, events[..i]).queue, Clock(events[..i]))
    requires LiveIsCurrent(Run(settings, events[..i + 1]).queue, Clock(events[..i + 1]))
    ensures !IsImpatient(Run(settings, events[..i]), events[i].now, events[i].call)
  {
    hide Step, IsImpatient;
    assert events[..i + 1][..i] == events[..i];
    RunIsGood(settings, events[..i]);
    LiveIsCurrentLater(Run(settings, events[..i]).queue, Clock(events[..i]), events[i].now);
    CallKeepsLive(settings, Run(settings, events[..i]), events[i].now, events[i].call);
  }

  /** No two live attempts share a message. */
  lemma NeverTwoLiveAttempts(settings: Settings, events: seq<Event>, a: Ref, b: Ref)
    requires ValidSettings(settings) && InOrder(events) && PatientRetries(settings, events)
    requires var q := Run(settings, events).queue;
             a in q.attempts && b in q.attempts && q.attempts[a].messageRef == q.attempts[b].messageRef
             && Live(q.attempts[a], Clock(events)) && Live(q.attempts[b], Clock(events))
    ensures a == b
  {
    LeasesAreExclusive(settings, events);
    OneLiveAttempt(Run(settings, events).queue, Clock(events), a, b);
  }

  // Later states

  lemma StepEvolves(settings: Settings, events: seq<Event>)
    requires ValidSettings(settings) && InOrder(events) && events != []
    ensures var before := events[..|events| - 1];
            Evolves(Run(settings, before), Clock(before), Run(settings, events), Clock(events))
  {
    var n := |events| - 1;
    var s := Run(settings, events[..n]);
    RunIsGood(settings, events[..n]);
    EvolvesByItself(s, Clock(events[..n]), events[n].now);
    CallEvolves(settings, s, events[n].now, events[n].call);
    EvolvesFurther(s, Clock(events[..n]), s, events[n].now, Run(settings, events), events[n].now);
  }

  /** From any point of a run to its end, the ledger only evolves. */
  lemma {:induction false} RunEvolves(settings: Settings, events: seq<Event>, i: nat)
    requires ValidSettings(settings) && InOrder(events) && i <= |events|
    ensures Evolves(Run(settings, events[..i]), Clock(events[..i]), Run(settings, events), Clock(events))
    decreases |events|
  {
    if i == |events| {
      assert events[..i] == events;
      EvolvesByItself(Run(settings, events), Clock(events), Clock(events));
    } else {
      var before := events[..|events| - 1];
      assert before[..i] == events[..i];
      RunEvolves(settings, before, i);
      StepEvolves(settings, events);
      EvolvesFurther(Run(settings, events[..i]), Clock(events[..i]), Run(settings, before), Clock(before),
                     Run(settings, events), Clock(events));
    }
  }

  /** An attempt that is closed or expired at some point is not live at any later one, and its checkpoints are final. */
  lemma DeadForEver(settings: Settings, events: seq<Event>, i: nat, a: Ref)
    requires ValidSettings(settings) && InOrder(events) && i <= |events|
    requires var q := Run(settings, events[..i]).queue;
             a in q.attempts && !Live(q.attempts[a], Clock(events[..i]))
    ensures var q, q' := Run(settings, events[..i]).queue, Run(settings, events).queue;
            a in q'.attempts && !Live(q'.attempts[a], Clock(events))
            && CheckpointsOf(q', a) == CheckpointsOf(q, a)
  {
    RunEvolves(settings, events, i);
    assert AttemptEvolves(Run(settings, events[..i]).queue, Clock(events[..i]), Run(settings, events).queue, Clock(events), a);
  }

  lemma ClaimMakesCurrent(settings: Settings, s: Ledger, now: Time, move: Move)
    requires Linked(s.queue) && Enabled(settings, s, now, move) && (move.Assign? || move.Retake?)
    ensures var q' := Apply(settings, s, now, move).queue;
            move.messageRef in q'.messages && q'.messages[move.messageRef].attemptRef == move.request.attemptRef
  {
  }

  /** A granted claim is what its message then points at. */
  lemma GrantedIsCurrent(settings: Settings, s: Ledger, now: Time, call: Call)
    requires ValidSettings(settings) && Linked(s.queue) && Counted(s)
    requires Step(settings, s, now, call).reply.Granted?
    ensures var turn := Step(settings, s, now, call);
            var claim := turn.reply.claim;
            claim.message.messageRef in turn.ledger.queue.messages
            && turn.ledger.queue.messages[claim.message.messageRef].attemptRef == claim.attempt.attemptRef
  {
    var route := CallRoute(settings, s, now, call);
    PathEvolves(settings, s, now, route.quiet);
    ClaimMakesCurrent(settings, After(settings, s, now, route.quiet), now, route.loud.value);
  }

  /**
   * If the retries before it were patient, a granted claim finds no other live attempt of its message, and none becomes
   * live later.
   */
  lemma GrantEndsEarlierAttempts(settings: Settings, events: seq<Event>, i: nat, a: Ref)
    requires ValidSettings(settings) && InOrder(events) && 0 < i <= |events| && PatientRetries(settings, events[..i])
    requires LastReply(settings, events[..i]).Granted?
    requires var claim, q := LastReply(settings, events[..i]).claim, Run(settings, events[..i]).queue;
             a in q.attempts && a != claim.attempt.attemptRef && q.attempts[a].messageRef == claim.message.messageRef
    ensures a in Run(settings, events).queue.attempts
    ensures !Live(Run(settings, events).queue.attempts[a], Clock(events))
  {
    var sofar := events[..i];
    var q := Run(settings, sofar).queue;
    LeasesAreExclusive(settings, sofar);
    RunIsGood(settings, sofar[..i - 1]);
    GrantedIsCurrent(settings, Run(settings, sofar[..i - 1]), sofar[i - 1].now, sofar[i - 1].call);
    assert Live(q.attempts[a], Clock(sofar)) ==> IsCurrent(q, a);
    DeadForEver(settings, events, i, a);
  }

  // Dependencies

  /** In every run, a dependency's first attempt was claimed before any attempt of the dependent message. */
  lemma DependenciesClaimedFirst(settings: Settings, events: seq<Event>, a: Ref, d: Ref)
    requires ValidSettings(settings) && a in Run(settings, events).queue.attempts
    requires var q := Run(settings, events).queue;
             q.attempts[a].messageRef in q.messages && d in q.messages[q.attempts[a].messageRef].dependsOn
    ensures ClaimedBefore(Run(settings, events).queue, d, a)
  {
    RunIsGood(settings, events);
    assert DependenciesFirst(Run(settings, events).queue, a);
  }

  /** In every run, no message on a dependency cycle has an attempt. */
  lemma CyclesAreNeverClaimed(settings: Settings, events: seq<Event>, refs: set<Ref>, a: Ref)
    requires ValidSettings(settings) && a in Run(settings, events).queue.attempts
    requires WaitOnEachOther(Run(settings, events).queue, refs)
    ensures Run(settings, events).queue.attempts[a].messageRef !in refs
  {
    RunIsGood(settings, events);
    CycleNeverClaimed(Run(settings, events).queue, refs, a);
  }

  lemma DirectGrantWasReady(settings: Settings, s: Ledger, now: Time, r: Ref, e: Ref)
    requires Linked(s.queue) && ClaimMessage(settings, s, now, r, e).reply.Granted?
    ensures var claim := ClaimMessage(settings, s, now, r, e).reply.claim;
            claim.message.messageRef == r && r in s.queue.messages
            && claim.message.dependsOn == s.queue.messages[r].dependsOn
            && DependenciesCompleted(s.queue.messages[r], States(s.queue))
  {
    SameDependencies(s.queue, s.queue.messages[r]);
  }

  /** Through either claim path, a message is granted only when each of its dependencies is already completed. */
  lemma GrantNeedsCompletedDependencies(settings: Settings, s: Ledger, now: Time, call: Call)
    requires ValidSettings(settings) && Linked(s.queue) && (call.ClaimCall? || call.ClaimNextCall?)
    requires Step(settings, s, now, call).reply.Granted?
    ensures DependenciesCompleted(Step(settings, s, now, call).reply.claim.message, States(s.queue))
  {
    if call.ClaimCall? {
      DirectGrantWasReady(settings, s, now, call.messageRef, call.endpointRef);
    } else {
      var r := PolledGrant(settings, s, now, call.endpointRef, Step(settings, s, now, call).reply.claim);
      SweepKeepsLinked(s.queue, now);
      DirectGrantWasReady(settings, ReconcileExpiredClaims(s, now).ledger, now, r, call.endpointRef);
      ReconcileKeepsReadiness(s.queue, now, s.queue.messages[r]);
    }
  }

  // Accounting

  ghost function Claims(settings: Settings, events: seq<Event>, r: Ref): nat
    decreases |events|
  {
    if events == [] then 0
    else Claims(settings, events[..|events| - 1], r) + ClaimsBy(LastReply(settings, events), r)
  }

  ghost function Takeovers(settings: Settings, events: seq<Event>, r: Ref): nat
    decreases |events|
  {
    if events == [] then 0
    else Takeovers(settings, events[..|events| - 1], r) + TakeoversBy(LastReply(settings, events), r)
  }

  ghost function Retries(settings: Settings, events: seq<Event>, r: Ref): nat
    decreases |events|
  {
    if events == [] then 0
    else Retries(settings, events[..|events| - 1], r)
         + RetriesBy(events[|events| - 1].call, LastReply(settings, events), r)
  }

  lemma {:induction false} Accounting(settings: Settings, events: seq<Event>, r: Ref)
    requires ValidSettings(settings)
    ensures var tally := TallyOf(Run(settings, events).queue, r);
            && tally.attempts == Claims(settings, events, r)
            && tally.redeliveries == Takeovers(settings, events, r)
            && tally.attempts + tally.vacancy <= 1 + tally.redeliveries + Retries(settings, events, r)
    decreases |events|
  {
    if events == [] {
      assert AttemptsOf(EMPTY_QUEUE, r) == {};
    } else {
      var n := |events| - 1;
      Accounting(settings, events[..n], r);
      RunIsGood(settings, events[..n]);
      CallTally(settings, Run(settings, events[..n]), events[n].now, events[n].call, r);
    }
  }

  /** Takeovers are counted exactly and bounded, and attempts by the limit, the first claim and the retries. */
  lemma RedeliveryIsBounded(settings: Settings, events: seq<Event>, r: Ref)
    requires ValidSettings(settings) && r in Run(settings, events).queue.messages
    ensures var q := Run(settings, events).queue;
            && q.messages[r].redeliveryCount == Takeovers(settings, events, r) <= settings.maxRedelivery
            && |AttemptsOf(q, r)| == Claims(settings, events, r)
            && |AttemptsOf(q, r)| <= 1 + settings.maxRedelivery + Retries(settings, events, r)
    ensures forall d :: d in Run(settings, events).queue.deadLetters ==>
              Run(settings, events).queue.deadLetters[d].redeliveryCount == settings.maxRedelivery
  {
    Accounting(settings, events, r);
    RunIsGood(settings, events);
  }

  lemma {:induction false} RunNumbersFill(settings: Settings, events: seq<Event>, r: Ref)
    requires ValidSettings(settings)
    ensures NumbersFill(Run(settings, events).queue, r)
    decreases |events|
  {
    hide Step, Good, NumbersFill;
    if events == [] {
      NothingNumbered(r);
    } else {
      var n := |events| - 1;
      RunNumbersFill(settings, events[..n], r);
      RunIsGood(settings, events[..n]);
      GoodLinks(settings, Run(settings, events[..n]));
      CallKeepsNumbers(settings, Run(settings, events[..n]), events[n].now, events[n].call, r);
    }
  }

  lemma NothingNumbered(r: Ref)
    ensures NumbersFill(EMPTY_LEDGER.queue, r)
  {
  }

  lemma GoodLinks(settings: Settings, s: Ledger)
    requires Good(settings, s)
    ensures Linked(s.queue) && Counted(s)
  {
  }

  /**
   * In every run, retried or not, the attempts of a message that has any carry all the numbers from 1 to its redelivery
   * count plus one, and no number twice exactly when all its claims but one were takeovers.
   */
  lemma AttemptNumbersAreExact(settings: Settings, events: seq<Event>, r: Ref)
    requires ValidSettings(settings) && AttemptsOf(Run(settings, events).queue, r) != {}
    ensures var q := Run(settings, events).queue;
            && r in q.messages && NumbersOf(q, r) == OneTo(q.messages[r].redeliveryCount + 1)
            && (NumbersDistinct(q, r) <==> Claims(settings, events, r) == Takeovers(settings, events, r) + 1)
  {
    hide Step, Run;
    var q := Run(settings, events).queue;
    RunNumbersFill(settings, events, r);
    Accounting(settings, events, r);
    DistinctNumbersIff(q, AttemptsOf(q, r));
  }

  /** A message that was never retried has each number once. */
  lemma NumbersWithoutRetries(settings: Settings, events: seq<Event>, r: Ref)
    requires ValidSettings(settings) && Retries(settings, events, r) == 0
    ensures NumbersDistinct(Run(settings, events).queue, r)
  {
    hide Step, Run;
    var q := Run(settings, events).queue;
    if AttemptsOf(q, r) != {} {
      AttemptNumbersAreExact(settings, events, r);
      Accounting(settings, events, r);
      DistinctNumbersIff(q, AttemptsOf(q, r));
    }
  }

  lemma StoreGrantNumber(q: Queue, c: ClaimRequest)
    requires Linked(q) && Claim(q, c).reply.Ok?
    ensures c.messageRef in q.messages
    ensures var m, claim := q.messages[c.messageRef], Claim(q, c).reply.value;
            && claim.message.messageRef == c.messageRef
            && claim.attempt.attemptNo == m.redeliveryCount + (if m.state == MessageState.Available then 1 else 2)
            && (m.state != MessageState.Available ==> AttemptsOf(q, c.messageRef) != {})
  {
    var m := q.messages[c.messageRef];
    assert CurrentStored(q, c.messageRef);
    assert m.attemptRef in q.attempts && m.attemptRef != "" ==> m.attemptRef in AttemptsOf(q, c.messageRef);
    hide AttemptsOf, CurrentStored, Latest;
  }

  lemma DirectGrantNumber(settings: Settings, s: Ledger, now: Time, r: Ref, e: Ref)
    requires Linked(s.queue) && NumbersFill(s.queue, r) && ClaimMessage(settings, s, now, r, e).reply.Granted?
    ensures var claim := ClaimMessage(settings, s, now, r, e).reply.claim;
            && claim.message.messageRef == r && r in s.queue.messages
            && (claim.attempt.attemptNo in NumbersOf(s.queue, r)
                <==> s.queue.messages[r].state == MessageState.Available && AttemptsOf(s.queue, r) != {})
  {
    BumpKeepsLinked(s.queue, Refs.Kind.Attempt);
    BumpKeepsLinked(Bump(s.queue, Refs.Kind.Attempt), Refs.Kind.DeadLetter);
    assert ClaimCounted(s.queue).messages == s.queue.messages && ClaimCounted(s.queue).attempts == s.queue.attempts;
    assert AttemptsOf(ClaimCounted(s.queue), r) == AttemptsOf(s.queue, r);
    assert AttemptsOf(s.queue, r) == {} ==> NumbersOf(s.queue, r) == {};
    hide ClaimRefusal, AttemptsOf, NumbersOf, Linked, Claim, Bump;
    StoreGrantNumber(ClaimCounted(s.queue), ServiceClaim(settings, s.queue, now, r, s.endpoints[e]));
  }

  lemma SweepKeepsNumbersOf(s: Ledger, now: Time, r: Ref)
    requires Linked(s.queue)
    ensures var swept := Reconcile(s.queue, now);
            && AttemptsOf(swept, r) == AttemptsOf(s.queue, r) && NumbersOf(swept, r) == NumbersOf(s.queue, r)
            && (r in swept.messages <==> r in s.queue.messages)
            && (r in s.queue.messages ==>
                  (swept.messages[r].state == MessageState.Available <==> s.queue.messages[r].state == MessageState.Available)
                  && swept.messages[r].redeliveryCount == s.queue.messages[r].redeliveryCount)
  {
  }

  lemma PolledGrantNumber(settings: Settings, s: Ledger, now: Time, e: Ref, claim: ClaimResult)
    requires Linked(s.queue) && NumbersFill(s.queue, claim.message.messageRef)
    requires ClaimNextMessage(settings, s, now, e).reply == Granted(claim)
    ensures var r := claim.message.messageRef;
            && r in s.queue.messages
            && (claim.attempt.attemptNo in NumbersOf(s.queue, r)
                <==> s.queue.messages[r].state == MessageState.Available && AttemptsOf(s.queue, r) != {})
  {
    var r, swept := claim.message.messageRef, ReconcileExpiredClaims(s, now).ledger;
    hide Calls.ClaimMessage, Calls.ClaimNextMessage, Linked, Reconcile, AttemptsOf, NumbersOf;
    var picked := PolledGrant(settings, s, now, e, claim);
    SweepKeepsLinked(s.queue, now);
    SweepKeepsNumbersOf(s, now, r);
    GrantedMessageRef(settings, swept, now, picked, e);
    DirectGrantNumber(settings, swept, now, r, e);
  }

  /**
   * Through either claim path, a granted claim repeats a number exactly when the message was available and had been
   * claimed before.
   */
  lemma GrantRepeatsIff(settings: Settings, s: Ledger, now: Time, call: Call, r: Ref)
    requires Linked(s.queue) && NumbersFill(s.queue, r)
    requires Step(settings, s, now, call).reply.Granted? && Step(settings, s, now, call).reply.claim.message.messageRef == r
    ensures r in s.queue.messages
    ensures Step(settings, s, now, call).reply.claim.attempt.attemptNo in NumbersOf(s.queue, r)
            <==> s.queue.messages[r].state == MessageState.Available && AttemptsOf(s.queue, r) != {}
  {
    OnlyClaimsGrant(settings, s, now, call);
    hide Calls.ClaimMessage, Calls.ClaimNextMessage, Linked, NumbersFill, AttemptsOf, NumbersOf;
    if call.ClaimCall? {
      GrantedMessageRef(settings, s, now, call.messageRef, call.endpointRef);
      DirectGrantNumber(settings, s, now, r, call.endpointRef);
    } else {
      PolledGrantNumber(settings, s, now, call.endpointRef, Step(settings, s, now, call).reply.claim);
    }
  }

  lemma OnlyClaimsGrant(settings: Settings, s: Ledger, now: Time, call: Call)
    requires Step(settings, s, now, call).reply.Granted?
    ensures call.ClaimCall? || call.ClaimNextCall?
  {
    if !ClaimsOrRetries(call) { OthersGrantNothing(settings, s, now, call); }
  }

  // Outcomes

  /** No retry of this task from point i on. */
  ghost predicate NotRetried(events: seq<Event>, i: nat, task: Ref) {
    forall j :: i <= j < |events| ==> events[j].call != RetryCall(task)
  }

  /** Settled, in this state and of this task. */
  ghost predicate SettledAs(q: Queue, r: Ref, now: Time, state: MessageState, task: Ref) {
    Settled(q, r, now) && q.messages[r].state == state && q.messages[r].correlationRef == task
  }

  lemma StepKeepsSettled(settings: Settings, events: seq<Event>, r: Ref, state: MessageState, task: Ref)
    requires ValidSettings(settings) && InOrder(events) && events != []
    requires var before := events[..|events| - 1]; SettledAs(Run(settings, before).queue, r, Clock(before), state, task)
    requires state == MessageState.Completed || events[|events| - 1].call != RetryCall(task)
    ensures SettledAs(Run(settings, events).queue, r, Clock(events), state, task)
  {
    hide Step;
    var n := |events| - 1;
    var s := Run(settings, events[..n]);
    RunIsGood(settings, events[..n]);
    assert Settled(s.queue, r, events[n].now);
    CallKeepsSettled(settings, s, events[n].now, events[n].call, r);
    CallEvolves(settings, s, events[n].now, events[n].call);
    assert MessageEvolves(s.queue, Run(settings, events).queue, r);
  }

  lemma {:induction false} SettledFrom(settings: Settings, events: seq<Event>, i: nat, r: Ref,
                                       state: MessageState, task: Ref)
    requires ValidSettings(settings) && InOrder(events) && i <= |events|
    requires SettledAs(Run(settings, events[..i]).queue, r, Clock(events[..i]), state, task)
    requires state == MessageState.Completed || NotRetried(events, i, task)
    ensures SettledAs(Run(settings, events).queue, r, Clock(events), state, task)
    decreases |events|
  {
    if i == |events| {
      assert events[..i] == events;
    } else {
      var before := events[..|events| - 1];
      assert before[..i] == events[..i];
      SettledFrom(settings, before, i, r, state, task);
      StepKeepsSettled(settings, events, r, state, task);
    }
  }

  /** If the retries before it were patient, a completed message stays completed, whatever is called. */
  lemma CompletedForEver(settings: Settings, events: seq<Event>, i: nat, r: Ref)
    requires ValidSettings(settings) && InOrder(events) && i <= |events| && PatientRetries(settings, events[..i])
    requires var q := Run(settings, events[..i]).queue;
             r in q.messages && q.messages[r].state == MessageState.Completed
    ensures var q := Run(settings, events).queue;
            r in q.messages && q.messages[r].state == MessageState.Completed
  {
    LeasesAreExclusive(settings, events[..i]);
    var q := Run(settings, events[..i]).queue;
    CompletedIsSettled(q, r, Clock(events[..i]));
    SettledFrom(settings, events, i, r, MessageState.Completed, q.messages[r].correlationRef);
  }

  lemma CanceledQueue(s: Ledger, task: Ref)
    requires CancelTask(s, task).reply.TaskChanged?
    ensures CancelTask(s, task).ledger.queue == CancelRefs(s.queue, Cancelable(s.queue, task))
    ensures TaskRefs(CancelTask(s, task).ledger.queue, task) == TaskRefs(s.queue, task)
  {
    hide OpenAttempts, Cancelable;
  }

  lemma CancellationSettlesIff(settings: Settings, events: seq<Event>, task: Ref, r: Ref)
    requires ValidSettings(settings) && events != []
    requires events[|events| - 1].call == CancelCall(task) && LastReply(settings, events).TaskChanged?
    requires r in TaskRefs(Run(settings, events).queue, task)
    ensures var q, now := Run(settings, events[..|events| - 1]).queue, Clock(events);
            && r in TaskRefs(q, task)
            && (Settled(Run(settings, events).queue, r, now) <==> CancelsCleanly(q, task, r, now))
  {
    var n := |events| - 1;
    var s := Run(settings, events[..n]);
    assert Run(settings, events) == CancelTask(s, task).ledger && LastReply(settings, events) == CancelTask(s, task).reply;
    CanceledQueue(s, task);
    hide Step, Run, CancelTask, Good, CancelRefs, Cancelable, Settled, CancelsCleanly;
    RunIsGood(settings, events[..n]);
    GoodLinks(settings, s);
    CancelSettlesIff(s.queue, task, events[n].now, r);
  }

  /**
   * After a cancellation, until the task is retried, each message the task had is completed or canceled with no live
   * attempt at every point, exactly when just before the cancellation its live attempts were what cancellation reaches.
   */
  lemma CanceledStaysIff(settings: Settings, events: seq<Event>, i: nat, task: Ref, r: Ref)
    requires ValidSettings(settings) && InOrder(events) && 0 < i <= |events|
    requires events[i - 1].call == CancelCall(task) && LastReply(settings, events[..i]).TaskChanged?
    requires r in TaskRefs(Run(settings, events[..i]).queue, task) && NotRetried(events, i, task)
    ensures r in Run(settings, events[..i - 1]).queue.messages
    ensures (forall k :: i <= k <= |events| ==> Settled(Run(settings, events[..k]).queue, r, Clock(events[..k])))
            <==> CancelsCleanly(Run(settings, events[..i - 1]).queue, task, r, events[i - 1].now)
  {
    hide Step, Run, LastReply, Settled, CancelsCleanly;
    assert events[..i][..i - 1] == events[..i - 1];
    CancellationSettlesIff(settings, events[..i], task, r);
    if Settled(Run(settings, events[..i]).queue, r, Clock(events[..i])) {
      forall k | i <= k <= |events| ensures Settled(Run(settings, events[..k]).queue, r, Clock(events[..k])) {
        StaysSettled(settings, events, i, k, task, r);
      }
    }
  }

  lemma StaysSettled(settings: Settings, events: seq<Event>, i: nat, k: nat, task: Ref, r: Ref)
    requires ValidSettings(settings) && InOrder(events) && i <= k <= |events| && NotRetried(events, i, task)
    requires r in TaskRefs(Run(settings, events[..i]).queue, task)
    requires Settled(Run(settings, events[..i]).queue, r, Clock(events[..i]))
    ensures Settled(Run(settings, events[..k]).queue, r, Clock(events[..k]))
  {
    hide Step, Run;
    assert events[..k][..i] == events[..i];
    SettledFrom(settings, events[..k], i, r, Run(settings, events[..i]).queue.messages[r].state, task);
  }

  /**
   * If the retries before it were patient, a cancellation settles every message the task had, until the task is
   * retried.
   */
  lemma CanceledUntilRetried(settings: Settings, events: seq<Event>, i: nat, task: Ref, r: Ref)
    requires ValidSettings(settings) && InOrder(events) && 0 < i <= |events| && PatientRetries(settings, events[..i - 1])
    requires events[i - 1].call == CancelCall(task) && LastReply(settings, events[..i]).TaskChanged?
    requires r in TaskRefs(Run(settings, events[..i]).queue, task) && NotRetried(events, i, task)
    ensures Settled(Run(settings, events).queue, r, Clock(events))
  {
    hide Step, Run, LastReply, Settled, CancelsCleanly, PatientRetries;
    var before := events[..i - 1];
    assert events[..i][..i - 1] == before && events[..|events|] == events;
    CancellationSettlesIff(settings, events[..i], task, r);
    LeasesAreExclusive(settings, before);
    LiveIsCurrentLater(Run(settings, before).queue, Clock(before), events[i - 1].now);
    CurrentCancelsCleanly(Run(settings, before).queue, task, events[i - 1].now, r);
    CanceledStaysIff(settings, events, i, task, r);
  }

  // Resumption

  /** The previous attempt's checkpoints, as a takeover hands them over. */
  ghost predicate HandsOver(claim: ClaimResult, items: seq<Checkpoint>) {
    if items == [] then claim.lastCheckpointRef == "" && claim.resumeSummary == "" && claim.resumeArtifactRefs == []
    else
      var last := items[|items| - 1];
      claim.lastCheckpointRef == last.checkpointRef && claim.resumeSummary == last.summary
      && claim.resumeArtifactRefs == last.artifactRefs
  }

  lemma ClaimTakeover(q: Queue, c: ClaimRequest)
    requires Linked(q) && Claim(q, c).reply.Ok? && Claim(q, c).reply.value.takeover
    ensures Abandoned(q, c.messageRef, c.now)
    ensures var m := q.messages[c.messageRef];
            Claim(q, c).reply.value == GrantReply(Redelivered(m), c, true, Latest(CheckpointsOf(q, m.attemptRef)))
  {
    assert CurrentStored(q, c.messageRef);
  }

  lemma AbandonedIsDead(q: Queue, r: Ref, now: Time)
    requires Linked(q) && Abandoned(q, r, now)
    ensures !Live(q.attempts[q.messages[r].attemptRef], now)
  {
    assert CurrentStored(q, r);
  }

  lemma AbandonedBeforeSweep(q: Queue, r: Ref, now: Time)
    requires Linked(q) && Abandoned(Reconcile(q, now), r, now)
    ensures Abandoned(q, r, now) && Reconcile(q, now).messages[r].attemptRef == q.messages[r].attemptRef
  {
    if r !in ExpiredClaims(q, now) { RequeueKeeps(q, ExpiredClaims(q, now), r, now); }
  }

  lemma DirectTakeover(settings: Settings, s: Ledger, now: Time, r: Ref, e: Ref, claim: ClaimResult)
    requires Linked(s.queue) && Resumable(s)
    requires ClaimMessage(settings, s, now, r, e).reply == Granted(claim) && claim.takeover
    ensures claim.message.messageRef == r && Abandoned(s.queue, r, now)
            && HandsOver(claim, CheckpointsOf(s.queue, s.queue.messages[r].attemptRef))
  {
    var counted := ClaimCounted(s.queue);
    BumpKeepsLinked(s.queue, Refs.Kind.Attempt);
    BumpKeepsLinked(Bump(s.queue, Refs.Kind.Attempt), Refs.Kind.DeadLetter);
    ClaimTakeover(counted, ServiceClaim(settings, s.queue, now, r, s.endpoints[e]));
    LatestIsLast(s, s.queue.messages[r].attemptRef);
    assert CheckpointsOf(counted, s.queue.messages[r].attemptRef) == CheckpointsOf(s.queue, s.queue.messages[r].attemptRef);
  }

  lemma PolledGrant(settings: Settings, s: Ledger, now: Time, e: Ref, claim: ClaimResult) returns (r: Ref)
    requires Linked(s.queue) && ClaimNextMessage(settings, s, now, e).reply == Granted(claim)
    ensures ClaimMessage(settings, ReconcileExpiredClaims(s, now).ledger, now, r, e).reply == Granted(claim)
  {
    PollIsDirectClaim(settings, s, now, e);
    r := PollPick(settings, ReconcileExpiredClaims(s, now).ledger, now, e).value;
  }

  lemma SweepKeepsGood(settings: Settings, s: Ledger, now: Time)
    requires ValidSettings(settings) && Good(settings, s)
    ensures Good(settings, ReconcileExpiredClaims(s, now).ledger)
  {
    MoveKeepsGood(settings, s, now, Sweep);
  }

  lemma PolledTakeover(settings: Settings, s: Ledger, now: Time, e: Ref, claim: ClaimResult, swept: Ledger)
    requires swept == ReconcileExpiredClaims(s, now).ledger
    requires Linked(s.queue) && Linked(swept.queue) && Resumable(swept)
    requires ClaimNextMessage(settings, s, now, e).reply == Granted(claim) && claim.takeover
    ensures var r := claim.message.messageRef;
            Abandoned(s.queue, r, now) && HandsOver(claim, CheckpointsOf(s.queue, s.queue.messages[r].attemptRef))
  {
    var r := PolledGrant(settings, s, now, e, claim);
    DirectTakeover(settings, swept, now, r, e, claim);
    AbandonedBeforeSweep(s.queue, r, now);
  }

  /** Through either claim path a takeover takes over from a dead attempt and hands over its last checkpoint. */
  lemma TakeoverHandsOver(settings: Settings, s: Ledger, now: Time, call: Call)
    requires ValidSettings(settings) && Good(settings, s) && (call.ClaimCall? || call.ClaimNextCall?)
    requires Step(settings, s, now, call).reply.Granted? && Step(settings, s, now, call).reply.claim.takeover
    ensures var claim := Step(settings, s, now, call).reply.claim;
            var r := claim.message.messageRef;
            && Abandoned(s.queue, r, now)
            && !Live(s.queue.attempts[s.queue.messages[r].attemptRef], now)
            && HandsOver(claim, CheckpointsOf(s.queue, s.queue.messages[r].attemptRef))
  {
    var claim := Step(settings, s, now, call).reply.claim;
    match call {
      case ClaimCall(r, e) => DirectTakeover(settings, s, now, r, e, claim);
      case ClaimNextCall(e) =>
        SweepKeepsGood(settings, s, now);
        PolledTakeover(settings, s, now, e, claim, ReconcileExpiredClaims(s, now).ledger);
    }
    AbandonedIsDead(s.queue, claim.message.messageRef, now);
  }

  /** At the moment of a takeover: what is handed over, and that the previous attempt is dead from then on. */
  lemma HandoverAtClaim(settings: Settings, events: seq<Event>)
    requires ValidSettings(settings) && InOrder(events) && events != []
    requires events[|events| - 1].call.ClaimCall? || events[|events| - 1].call.ClaimNextCall?
    requires LastReply(settings, events).Granted? && LastReply(settings, events).claim.takeover
    ensures var claim, before := LastReply(settings, events).claim, Run(settings, events[..|events| - 1]);
            var r, q := claim.message.messageRef, Run(settings, events).queue;
            && r in before.queue.messages
            && var prev := before.queue.messages[r].attemptRef;
               && HandsOver(claim, CheckpointsOf(q, prev))
               && prev in q.attempts && !Live(q.attempts[prev], Clock(events))
               && ArtifactsOfMessage(before.artifacts, claim.resumeArtifactRefs, r)
  {
    var n := |events| - 1;
    var s, now, call := Run(settings, events[..n]), events[n].now, events[n].call;
    var claim := LastReply(settings, events).claim;
    RunIsGood(settings, events[..n]);
    TakeoverHandsOver(settings, s, now, call);
    HandedArtifacts(s, claim);
    CallEvolves(settings, s, now, call);
    hide Step, HandsOver, Good;
    assert AttemptEvolves(s.queue, now, Run(settings, events).queue, now, s.queue.messages[claim.message.messageRef].attemptRef);
  }

  /**
   * What a takeover was handed is the last word of the previous attempt in the whole run, and all its artifacts belong
   * to the message.
   */
  lemma HandoverIsFinal(settings: Settings, events: seq<Event>, i: nat)
    requires ValidSettings(settings) && InOrder(events) && 0 < i <= |events|
    requires events[i - 1].call.ClaimCall? || events[i - 1].call.ClaimNextCall?
    requires LastReply(settings, events[..i]).Granted? && LastReply(settings, events[..i]).claim.takeover
    ensures var claim, before := LastReply(settings, events[..i]).claim, Run(settings, events[..i - 1]).queue;
            var r := claim.message.messageRef;
            && r in before.messages
            && HandsOver(claim, CheckpointsOf(Run(settings, events).queue, before.messages[r].attemptRef))
            && ArtifactsOfMessage(Run(settings, events).artifacts, claim.resumeArtifactRefs, r)
  {
    hide Step, Run, LastReply, HandsOver;
    assert events[..i][..i - 1] == events[..i - 1];
    HandoverAtClaim(settings, events[..i]);
    var claim := LastReply(settings, events[..i]).claim;
    DeadForEver(settings, events, i, Run(settings, events[..i - 1]).queue.messages[claim.message.messageRef].attemptRef);
    RunEvolves(settings, events, i - 1);
  }

  lemma HandedArtifacts(s: Ledger, claim: ClaimResult)
    requires Resumable(s) && Linked(s.queue) && claim.message.messageRef in s.queue.messages
    requires s.queue.messages[claim.message.messageRef].attemptRef in s.queue.attempts
    requires HandsOver(claim, CheckpointsOf(s.queue, s.queue.messages[claim.message.messageRef].attemptRef))
    ensures ArtifactsOfMessage(s.artifacts, claim.resumeArtifactRefs, claim.message.messageRef)
  {
    var a := s.queue.messages[claim.message.messageRef].attemptRef;
    assert CurrentStored(s.queue, claim.message.messageRef);
    assert a in s.queue.checkpoints ==> CheckpointsSound(s, a);
  }

  /** In every run the checkpoints of an attempt are numbered 1, 2, ... and its revision is their count, or 1. */
  lemma RevisionsAreGapless(settings: Settings, events: seq<Event>, a: Ref)
    requires ValidSettings(settings) && a in Run(settings, events).queue.attempts
    ensures var q := Run(settings, events).queue;
            var items := CheckpointsOf(q, a);
            && q.attempts[a].revision == (if items == [] then 1 else |items|)
            && (forall i :: 0 <= i < |items| ==> items[i].revision == i + 1)
            && Latest(items) == if items == [] then None else Some(items[|items| - 1])
  {
    hide Step, Run, Linked, Counted, Ordered, Budgeted, Founded, EffectsSound;
    RunIsGood(settings, events);
    var s := Run(settings, events);
    assert RevisionSound(s.queue, a);
    assert a in s.queue.checkpoints ==> CheckpointsSound(s, a);
    LatestIsLast(s, a);
  }

  /** Artifact history is a closed acyclic graph in every run: there is no chain of parents back to its start. */
  lemma NoArtifactCycle(settings: Settings, events: seq<Event>, cycle: seq<Ref>)
    requires ValidSettings(settings) && cycle != []
    requires forall i :: 0 <= i < |cycle| ==> cycle[i] in Run(settings, events).artifacts
    ensures exists i :: 0 <= i < |cycle|
              && cycle[(i + 1) % |cycle|] !in Run(settings, events).artifacts[cycle[i]].basedOn
  {
    RunIsGood(settings, events);
    var artifacts, refs := Run(settings, events).artifacts, set r | r in cycle;
    assert cycle[0] in refs && HasSource(artifacts, refs);
    var v :| v in refs && Parents(artifacts, v) !! refs;
    var i :| 0 <= i < |cycle| && cycle[i] == v;
    assert cycle[(i + 1) % |cycle|] in refs;
  }

  lemma ParentsExist(settings: Settings, events: seq<Event>, v: Ref, p: Ref)
    requires ValidSettings(settings) && v in Run(settings, events).artifacts
    requires p in Run(settings, events).artifacts[v].basedOn
    ensures p in Run(settings, events).artifacts
  {
    RunIsGood(settings, events);
    assert p in Parents(Run(settings, events).artifacts, v);
  }

  /** One execution per key and scope, ever; each rests for good on an approval by someone other than its requester. */
  lemma SideEffectsAreApproved(settings: Settings, events: seq<Event>, i: nat, e: Ref)
    requires ValidSettings(settings) && InOrder(events) && i <= |events|
    requires e in Run(settings, events[..i]).sideEffects
    ensures var earlier, s := Run(settings, events[..i]), Run(settings, events);
            && EffectsUnique(s.sideEffects)
            && EffectEvolves(earlier, s, e)
            && EffectApproved(s, e)
            && s.sideEffects[e].approvalRef in earlier.approvals
            && s.approvals[s.sideEffects[e].approvalRef] == earlier.approvals[s.sideEffects[e].approvalRef]
  {
    RunIsGood(settings, events);
    RunIsGood(settings, events[..i]);
    RunEvolves(settings, events, i);
    assert EffectApproved(Run(settings, events[..i]), e);
  }
}
