// From moves to calls: what every service call keeps, and how a ledger evolves.
module Reachable {
  import opened Wrappers
  import opened Domain
  import opened QueueModel
  import opened Calls
  import opened Protocol
  import opened Links
  import opened Leases
  import opened Dependencies
  import opened Redelivery
  import opened Resume
  import opened Outcomes
  import opened Paths
  import Refs

  /** The invariants that need no assumption about the run. */
  ghost predicate Good(settings: Settings, s: Ledger) {
    && Linked(s.queue) && Counted(s)
    && Ordered(s.queue)
    && Budgeted(settings, s.queue)
    && Resumable(s)
    && Founded(s.artifacts)
    && EffectsSound(s)
  }

  lemma EmptyIsGood(settings: Settings)
    ensures Good(settings, EMPTY_LEDGER)
  {
  }

  lemma MoveKeepsGood(settings: Settings, s: Ledger, now: Time, move: Move)
    requires ValidSettings(settings) && Good(settings, s) && Enabled(settings, s, now, move)
    ensures Good(settings, Apply(settings, s, now, move))
  {
    MoveKeepsLinked(settings, s, now, move);
    MoveKeepsCounted(settings, s, now, move);
    MoveKeepsOrdered(settings, s, now, move);
    MoveKeepsBudget(settings, s, now, move);
    MoveKeepsResumable(settings, s, now, move);
    MoveKeepsFounded(settings, s, now, move);
    MoveKeepsEffects(settings, s, now, move);
  }

  lemma {:induction false} PathKeepsGood(settings: Settings, s: Ledger, now: Time, moves: seq<Move>)
    requires ValidSettings(settings) && Good(settings, s) && Path(settings, s, now, moves)
    ensures Good(settings, After(settings, s, now, moves))
    decreases |moves|
  {
    if moves != [] {
      MoveKeepsGood(settings, s, now, moves[0]);
      PathKeepsGood(settings, Apply(settings, s, now, moves[0]), now, moves[1..]);
    }
  }

  /** Every call of the service keeps every invariant, whatever its arguments and whenever it is made. */
  lemma CallKeepsGood(settings: Settings, s: Ledger, now: Time, call: Call)
    requires ValidSettings(settings) && Good(settings, s)
    ensures Good(settings, Step(settings, s, now, call).ledger)
  {
    hide Step, Apply;
    var route := CallRoute(settings, s, now, call);
    PathKeepsGood(settings, s, now, route.quiet);
    if route.loud.Some? { MoveKeepsGood(settings, After(settings, s, now, route.quiet), now, route.loud.value); }
  }

  // Exclusivity

  /** No input-required message of the task still has a live attempt. */
  ghost predicate PatientRetry(q: Queue, task: Ref, now: Time) {
    forall r :: r in TaskRefs(q, task) && q.messages[r].state == MessageState.InputRequired
                && q.messages[r].attemptRef in q.attempts ==>
      !Live(q.attempts[q.messages[r].attemptRef], now)
  }

  /** Among retryable messages only input-required ones can have a live attempt. */
  lemma PatientRetryIsEnough(q: Queue, task: Ref, now: Time)
    requires Linked(q) && LiveIsCurrent(q, now)
    ensures PatientRetry(q, task, now) <==> NoneLive(q, Retryable(q, task), now)
  {
    forall r | r in Retryable(q, task) && q.messages[r].attemptRef in q.attempts
      ensures q.messages[r].state != MessageState.InputRequired ==> !Live(q.attempts[q.messages[r].attemptRef], now)
    {
      assert CurrentStored(q, r);
      assert Live(q.attempts[q.messages[r].attemptRef], now) ==> IsCurrent(q, q.messages[r].attemptRef);
    }
  }

  /** The one call that can break exclusivity is a retry, and it does exactly when it is impatient. */
  lemma RetryKeepsExclusivityIff(s: Ledger, now: Time, task: Ref)
    requires Linked(s.queue) && LiveIsCurrent(s.queue, now) && RetryTask(s, task).reply.TaskChanged?
    ensures LiveIsCurrent(RetryTask(s, task).ledger.queue, now) <==> PatientRetry(s.queue, task, now)
  {
    PatientRetryIsEnough(s.queue, task, now);
    ReopenKeepsLive(s.queue, now, Retryable(s.queue, task));
  }

  lemma {:induction false} PathKeepsLive(settings: Settings, s: Ledger, now: Time, moves: seq<Move>)
    requires ValidSettings(settings) && Linked(s.queue) && LiveIsCurrent(s.queue, now)
    requires Path(settings, s, now, moves) && AllQuiet(moves)
    ensures Linked(After(settings, s, now, moves).queue) && LiveIsCurrent(After(settings, s, now, moves).queue, now)
    decreases |moves|
  {
    if moves != [] {
      MoveKeepsLinked(settings, s, now, moves[0]);
      MoveKeepsLive(settings, s, now, moves[0]);
      PathKeepsLive(settings, Apply(settings, s, now, moves[0]), now, moves[1..]);
    }
  }

  /** An accepted retry that reopens an input-required message whose attempt is still live. */
  ghost predicate IsImpatient(s: Ledger, now: Time, call: Call) {
    && call.RetryCall? && call.taskRef != "" && TaskRefs(s.queue, call.taskRef) != {}
    && !PatientRetry(s.queue, call.taskRef, now)
  }

  /** Any call keeps exclusivity, unless it is an impatient retry, which breaks it. */
  lemma CallKeepsLive(settings: Settings, s: Ledger, now: Time, call: Call)
    requires ValidSettings(settings) && Linked(s.queue) && Counted(s) && LiveIsCurrent(s.queue, now)
    ensures LiveIsCurrent(Step(settings, s, now, call).ledger.queue, now) <==> !IsImpatient(s, now, call)
  {
    hide Apply;
    if call.RetryCall? {
      if RetryTask(s, call.taskRef).reply.TaskChanged? { RetryKeepsExclusivityIff(s, now, call.taskRef); }
    } else {
      var route := CallRoute(settings, s, now, call);
      PathKeepsLive(settings, s, now, route.quiet);
      if route.loud.Some? { MoveKeepsLive(settings, After(settings, s, now, route.quiet), now, route.loud.value); }
    }
  }

  // Evolution

  /** An attempt keeps its identity; once dead it stays dead and its checkpoints are final. */
  ghost predicate AttemptEvolves(q: Queue, t: Time, q': Queue, t': Time, a: Ref)
    requires a in q.attempts
  {
    && a in q'.attempts
    && q'.attempts[a].messageRef == q.attempts[a].messageRef && q'.attempts[a].endpointRef == q.attempts[a].endpointRef
    && q'.attempts[a].attemptNo == q.attempts[a].attemptNo
    && (!Live(q.attempts[a], t) ==> !Live(q'.attempts[a], t') && CheckpointsOf(q', a) == CheckpointsOf(q, a))
  }

  ghost predicate MessageEvolves(q: Queue, q': Queue, r: Ref)
    requires r in q.messages
  {
    && r in q'.messages && Terms(q'.messages[r]) == Terms(q.messages[r])
    && q'.messages[r].dependsOn == q.messages[r].dependsOn && q'.messages[r].correlationRef == q.messages[r].correlationRef
    && q'.messages[r].redeliveryCount >= q.messages[r].redeliveryCount
  }

  ghost predicate EffectEvolves(s: Ledger, s': Ledger, e: Ref)
    requires e in s.sideEffects
  {
    && e in s'.sideEffects
    && var before, after := s.sideEffects[e], s'.sideEffects[e];
       after == before.(status := after.status, resultRef := after.resultRef)
       && (before.status != Executing ==> after == before)
  }

  /** What a later ledger may differ in from an earlier one. */
  ghost predicate Evolves(s: Ledger, t: Time, s': Ledger, t': Time) {
    && (forall a :: a in s.queue.attempts ==> AttemptEvolves(s.queue, t, s'.queue, t', a))
    && (forall r :: r in s.queue.messages ==> MessageEvolves(s.queue, s'.queue, r))
    && (forall v :: v in s.artifacts ==> v in s'.artifacts && s'.artifacts[v] == s.artifacts[v])
    && (forall d :: d in s.approvals ==> d in s'.approvals && s'.approvals[d] == s.approvals[d])
    && (forall e :: e in s.sideEffects ==> EffectEvolves(s, s', e))
  }

  lemma EvolvesByItself(s: Ledger, t: Time, t': Time)
    requires t <= t'
    ensures Evolves(s, t, s, t')
  {
  }

  lemma EvolvesFurther(s: Ledger, t: Time, s': Ledger, t': Time, s'': Ledger, t'': Time)
    requires Evolves(s, t, s', t') && Evolves(s', t', s'', t'')
    ensures Evolves(s, t, s'', t'')
  {
    forall a | a in s.queue.attempts ensures AttemptEvolves(s.queue, t, s''.queue, t'', a) {
      assert AttemptEvolves(s.queue, t, s'.queue, t', a) && AttemptEvolves(s'.queue, t', s''.queue, t'', a);
    }
    forall r | r in s.queue.messages ensures MessageEvolves(s.queue, s''.queue, r) {
      assert MessageEvolves(s.queue, s'.queue, r) && MessageEvolves(s'.queue, s''.queue, r);
    }
    forall e | e in s.sideEffects ensures EffectEvolves(s, s'', e) {
      assert EffectEvolves(s, s', e) && EffectEvolves(s', s'', e);
    }
  }

  lemma MoveEvolves(settings: Settings, s: Ledger, now: Time, move: Move)
    requires Linked(s.queue) && Enabled(settings, s, now, move)
    ensures Evolves(s, now, Apply(settings, s, now, move), now)
  {
    var s' := Apply(settings, s, now, move);
    forall a | a in s.queue.attempts ensures AttemptEvolves(s.queue, now, s'.queue, now, a) {
      AttemptKept(settings, s, now, move, a);
      if !Live(s.queue.attempts[a], now) {
        DeadStaysDead(settings, s, now, move, a);
        DeadReportsNothing(settings, s, now, move, a);
      }
    }
    forall r | r in s.queue.messages ensures MessageEvolves(s.queue, s'.queue, r) {
      MessageKept(settings, s, now, move, r);
    }
    forall v | v in s.artifacts ensures v in s'.artifacts && s'.artifacts[v] == s.artifacts[v] {
      VersionsAreFinal(settings, s, now, move, v);
    }
    forall d | d in s.approvals ensures d in s'.approvals && s'.approvals[d] == s.approvals[d] {
      DecisionsAreFinal(settings, s, now, move, d);
    }
    forall e | e in s.sideEffects ensures EffectEvolves(s, s', e) { EffectsAreFinal(settings, s, now, move, e); }
  }

  lemma {:induction false} PathEvolves(settings: Settings, s: Ledger, now: Time, moves: seq<Move>)
    requires ValidSettings(settings) && Linked(s.queue) && Path(settings, s, now, moves)
    ensures Evolves(s, now, After(settings, s, now, moves), now)
    ensures Linked(After(settings, s, now, moves).queue)
    decreases |moves|
  {
    if moves == [] {
      EvolvesByItself(s, now, now);
    } else {
      var s' := Apply(settings, s, now, moves[0]);
      MoveEvolves(settings, s, now, moves[0]);
      MoveKeepsLinked(settings, s, now, moves[0]);
      PathEvolves(settings, s', now, moves[1..]);
      EvolvesFurther(s, now, s', now, After(settings, s, now, moves), now);
    }
  }

  lemma CallEvolves(settings: Settings, s: Ledger, now: Time, call: Call)
    requires ValidSettings(settings) && Linked(s.queue) && Counted(s)
    ensures Evolves(s, now, Step(settings, s, now, call).ledger, now)
  {
    var route := CallRoute(settings, s, now, call);
    var between := After(settings, s, now, route.quiet);
    PathEvolves(settings, s, now, route.quiet);
    if route.loud.Some? {
      MoveEvolves(settings, between, now, route.loud.value);
      EvolvesFurther(s, now, between, now, Step(settings, s, now, call).ledger, now);
    }
  }

  // Settled messages

  lemma {:induction false} PathKeepsSettled(settings: Settings, s: Ledger, now: Time, moves: seq<Move>, r: Ref)
    requires ValidSettings(settings) && Linked(s.queue) && Path(settings, s, now, moves) && AllQuiet(moves)
    requires Settled(s.queue, r, now)
    ensures var s' := After(settings, s, now, moves);
            Linked(s'.queue) && Settled(s'.queue, r, now) && s'.queue.messages[r].state == s.queue.messages[r].state
    decreases |moves|
  {
    if moves != [] {
      MoveKeepsLinked(settings, s, now, moves[0]);
      SettledStays(settings, s, now, moves[0], r);
      PathKeepsSettled(settings, Apply(settings, s, now, moves[0]), now, moves[1..], r);
    }
  }

  /** Only a retry of its own task can touch a settled message, and never a completed one. */
  lemma CallKeepsSettled(settings: Settings, s: Ledger, now: Time, call: Call, r: Ref)
    requires ValidSettings(settings) && Linked(s.queue) && Counted(s) && Settled(s.queue, r, now)
    requires s.queue.messages[r].state == MessageState.Completed
             || !(call.RetryCall? && call.taskRef == s.queue.messages[r].correlationRef)
    ensures var s' := Step(settings, s, now, call).ledger;
            Settled(s'.queue, r, now) && s'.queue.messages[r].state == s.queue.messages[r].state
  {
    hide Apply, Calls.ClaimMessage, Calls.ClaimNextMessage;
    var route := CallRoute(settings, s, now, call);
    PathKeepsSettled(settings, s, now, route.quiet, r);
    if route.loud.Some? { SettledStays(settings, After(settings, s, now, route.quiet), now, route.loud.value, r); }
  }

  // Counting by replies

  function ClaimsBy(reply: Reply, r: Ref): nat {
    if reply.Granted? && reply.claim.message.messageRef == r then 1 else 0
  }

  function TakeoversBy(reply: Reply, r: Ref): nat {
    if reply.Granted? && reply.claim.message.messageRef == r && reply.claim.takeover then 1 else 0
  }

  function RetriesBy(call: Call, reply: Reply, r: Ref): nat {
    if call.RetryCall? && reply.TaskChanged? && r in reply.messageRefs then 1 else 0
  }

  /** The counts of one message: its claims so far, its takeovers, and the claims still open to it. */
  datatype Tally = Tally(attempts: nat, redeliveries: nat, vacancy: nat)

  ghost function TallyOf(q: Queue, r: Ref): Tally {
    Tally(|AttemptsOf(q, r)|, if r in q.messages then q.messages[r].redeliveryCount else 0, Vacancy(q, r))
  }

  lemma MoveTally(settings: Settings, s: Ledger, now: Time, move: Move, r: Ref)
    requires Linked(s.queue) && Enabled(settings, s, now, move)
    ensures var before, after := TallyOf(s.queue, r), TallyOf(Apply(settings, s, now, move).queue, r);
            && after.attempts == before.attempts + ClaimsIn(move, r)
            && after.redeliveries == before.redeliveries + TakeoversIn(move, r)
            && ClaimsIn(move, r) + after.vacancy <= before.vacancy + TakeoversIn(move, r) + ReopeningsIn(move, r)
  {
    ClaimAddsAttempt(settings, s, now, move, r);
    VacancyIsSpent(settings, s, now, move, r);
    if r in Apply(settings, s, now, move).queue.messages {
      RedeliveriesCounted(settings, s, now, move, r);
    } else if r in s.queue.messages {
      MessageKept(settings, s, now, move, r);
    }
  }

  lemma {:induction false} QuietTally(settings: Settings, s: Ledger, now: Time, moves: seq<Move>, r: Ref)
    requires ValidSettings(settings) && Linked(s.queue) && Path(settings, s, now, moves) && AllQuiet(moves)
    ensures var before, after := TallyOf(s.queue, r), TallyOf(After(settings, s, now, moves).queue, r);
            && after.attempts == before.attempts && after.redeliveries == before.redeliveries
            && after.vacancy <= before.vacancy
    ensures Linked(After(settings, s, now, moves).queue)
    decreases |moves|
  {
    if moves != [] {
      MoveTally(settings, s, now, moves[0], r);
      MoveKeepsLinked(settings, s, now, moves[0]);
      QuietTally(settings, Apply(settings, s, now, moves[0]), now, moves[1..], r);
    }
  }

  lemma AnnouncedCounts(call: Call, reply: Reply, loud: Option<Move>, r: Ref)
    requires Announced(call, reply, loud)
    ensures ClaimsBy(reply, r) == (if loud.Some? then ClaimsIn(loud.value, r) else 0)
    ensures TakeoversBy(reply, r) == (if loud.Some? then TakeoversIn(loud.value, r) else 0)
    ensures RetriesBy(call, reply, r) == (if loud.Some? then ReopeningsIn(loud.value, r) else 0)
  {
  }

  lemma {:induction false} CallTally(settings: Settings, s: Ledger, now: Time, call: Call, r: Ref)
    requires ValidSettings(settings) && Linked(s.queue) && Counted(s)
    ensures var turn := Step(settings, s, now, call);
            var before, after := TallyOf(s.queue, r), TallyOf(turn.ledger.queue, r);
            && after.attempts == before.attempts + ClaimsBy(turn.reply, r)
            && after.redeliveries == before.redeliveries + TakeoversBy(turn.reply, r)
            && ClaimsBy(turn.reply, r) + after.vacancy
               <= before.vacancy + TakeoversBy(turn.reply, r) + RetriesBy(call, turn.reply, r)
  {
    var route := CallRoute(settings, s, now, call);
    AnnouncedCounts(call, Step(settings, s, now, call).reply, route.loud, r);
    QuietTally(settings, s, now, route.quiet, r);
    if route.loud.Some? { MoveTally(settings, After(settings, s, now, route.quiet), now, route.loud.value, r); }
  }

  lemma {:induction false} PathKeepsNumbers(settings: Settings, s: Ledger, now: Time, moves: seq<Move>, r: Ref)
    requires ValidSettings(settings) && Linked(s.queue) && Path(settings, s, now, moves) && NumbersFill(s.queue, r)
    ensures Linked(After(settings, s, now, moves).queue) && NumbersFill(After(settings, s, now, moves).queue, r)
    decreases |moves|
  {
    hide Linked, NumbersFill, Apply, Enabled;
    if moves != [] {
      MoveKeepsLinked(settings, s, now, moves[0]);
      MoveKeepsNumbers(settings, s, now, moves[0], r);
      PathKeepsNumbers(settings, Apply(settings, s, now, moves[0]), now, moves[1..], r);
    }
  }

  lemma CallKeepsNumbers(settings: Settings, s: Ledger, now: Time, call: Call, r: Ref)
    requires ValidSettings(settings) && Linked(s.queue) && Counted(s) && NumbersFill(s.queue, r)
    ensures NumbersFill(Step(settings, s, now, call).ledger.queue, r)
  {
    hide Step, Linked, Counted, NumbersFill, Apply, Enabled;
    var route := CallRoute(settings, s, now, call);
    PathKeepsNumbers(settings, s, now, route.quiet, r);
    if route.loud.Some? { MoveKeepsNumbers(settings, After(settings, s, now, route.quiet), now, route.loud.value, r); }
  }
}
