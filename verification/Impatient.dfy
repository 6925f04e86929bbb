// Concrete runs that show why results ask for patient retries: one worker, one
// message, an input-required checkpoint, an immediate retry and a second claim
// leave two live attempts. The late reports of the first then undo a
// completion, a cancellation and the agreement of states.
module Impatient {
  import opened Wrappers
  import opened Domain
  import opened Routing
  import opened QueueModel
  import opened Calls
  import opened Links
  import opened Leases
  import opened Runs
  import opened Outcomes
  import opened Agreement
  import Refs

  const SETTINGS := Settings(10, 10, 3)

  const INGRESS := IngressRequest("m", "w", "c", "", "", [], "p", "t", false, true, true)

  const BLOCKED := CheckpointRequest("w", BlockedMissingFields, "s", [], true)

  function CallAt(i: nat): Call {
    if i == 0 then RegisterCall(RegistrationRequest("w", "x", Online, ["c"], true))
    else if i == 1 then IngressCall(INGRESS)
    else if i == 3 then CheckpointCall(FIRST, BLOCKED)
    else if i == 4 then RetryCall("t")
    else ClaimCall("m", "w")
  }

  /** The first n calls, all at instant 1. */
  function Story(n: nat): (events: seq<Event>)
    ensures |events| == n
  {
    if n == 0 then [] else Story(n - 1) + [Event(1, CallAt(n - 1))]
  }

  const FIRST := Refs.AllocRef(Refs.Kind.Attempt, 1)
  const SECOND := Refs.AllocRef(Refs.Kind.Attempt, 2)

  const WORKER := Endpoint("w", "x", Online, {"c"}, 1)

  function Posted(state: MessageState, attemptRef: Ref): Message {
    Message("m", Refs.AllocRef(Refs.Kind.Delivery, 1), "w", "c", "", "", [], "p", "t", false, state, attemptRef, 0)
  }

  function Claimed(attemptRef: Ref, state: AttemptState): Attempt {
    Attempt(attemptRef, "m", "w", state, 11, 1, 1, 1)
  }

  /** The parts of a ledger that the story follows. */
  ghost predicate Shows(s: Ledger, claims: nat, m: Option<Message>, attempts: map<Ref, Attempt>) {
    && s.endpoints == map["w" := WORKER]
    && s.queue.messages == (if m.Some? then map["m" := m.value] else map[])
    && s.queue.attempts == attempts
    && s.queue.checkpoints == map[]
    && Counter(s.queue, Refs.Kind.Attempt) == claims && Counter(s.queue, Refs.Kind.Delivery) == (if m.Some? then 1 else 0)
  }

  lemma Registered(s: Ledger)
    requires s == EMPTY_LEDGER
    ensures Shows(Step(SETTINGS, s, 1, CallAt(0)).ledger, 0, None, map[])
  {
    assert (set c | c in ["c"]) == {"c"};
  }

  lemma WorkerCanHandle(s: Ledger)
    requires s.endpoints == map["w" := WORKER]
    ensures CanHandle(s.endpoints["w"].capabilities, "c")
  {
    assert "c" in WORKER.capabilities;
  }

  lemma Ingressed(s: Ledger)
    requires Shows(s, 0, None, map[])
    ensures Shows(Step(SETTINGS, s, 1, CallAt(1)).ledger, 0, Some(Posted(MessageState.Available, "")), map[])
  {
    WorkerCanHandle(s);
    assert RouteAvailable(s, INGRESS);
  }

  lemma ClaimAccepted(s: Ledger)
    requires s.endpoints == map["w" := WORKER]
    requires s.queue.messages == map["m" := Posted(MessageState.Available, "")]
    ensures ClaimRefusal(SETTINGS, s, 1, "m", "w").None?
  {
    WorkerCanHandle(s);
  }

  lemma FirstClaimed(s: Ledger)
    requires Shows(s, 0, Some(Posted(MessageState.Available, "")), map[])
    ensures Shows(Step(SETTINGS, s, 1, CallAt(2)).ledger, 1, Some(Posted(MessageState.Claimed, FIRST)),
                  map[FIRST := Claimed(FIRST, AttemptState.Claimed)])
  {
    ClaimAccepted(s);
  }

  lemma BlockAccepted(s: Ledger)
    requires s.queue.attempts == map[FIRST := Claimed(FIRST, AttemptState.Claimed)]
    ensures CheckpointRefusal(s, 1, FIRST, BLOCKED).None?
  {
  }

  lemma Blocked(s: Ledger)
    requires Shows(s, 1, Some(Posted(MessageState.Claimed, FIRST)), map[FIRST := Claimed(FIRST, AttemptState.Claimed)])
    ensures var s' := Step(SETTINGS, s, 1, CallAt(3)).ledger;
            && s'.endpoints == s.endpoints && Counter(s'.queue, Refs.Kind.Attempt) == 1
            && s'.queue.messages == map["m" := Posted(MessageState.InputRequired, FIRST)]
            && s'.queue.attempts == map[FIRST := Claimed(FIRST, AttemptState.BlockedMissingFields)]
  {
    BlockAccepted(s);
    assert Step(SETTINGS, s, 1, CallAt(3)) == SubmitCheckpoint(s, 1, FIRST, BLOCKED);
  }

  lemma RetryReopens(s: Ledger)
    requires s.queue.messages == map["m" := Posted(MessageState.InputRequired, FIRST)]
    ensures RetryTask(s, "t").ledger ==
            s.(queue := s.queue.(messages := map["m" := Posted(MessageState.Available, "")]))
  {
    assert Retryable(s.queue, "t") == {"m"};
    assert "m" in TaskRefs(s.queue, "t");
  }

  lemma Retried(s: Ledger)
    requires s.queue.messages == map["m" := Posted(MessageState.InputRequired, FIRST)]
    ensures Step(SETTINGS, s, 1, CallAt(4)).ledger ==
            s.(queue := s.queue.(messages := map["m" := Posted(MessageState.Available, "")]))
  {
    RetryReopens(s);
    hide RetryTask;
    assert CallAt(4) == RetryCall("t");
  }

  lemma SecondClaimed(s: Ledger)
    requires s.endpoints == map["w" := WORKER] && Counter(s.queue, Refs.Kind.Attempt) == 1
    requires s.queue.messages == map["m" := Posted(MessageState.Available, "")]
    requires s.queue.attempts == map[FIRST := Claimed(FIRST, AttemptState.BlockedMissingFields)]
    ensures Step(SETTINGS, s, 1, CallAt(5)).ledger.queue.messages == map["m" := Posted(MessageState.Claimed, SECOND)]
    ensures Step(SETTINGS, s, 1, CallAt(5)).ledger.queue.attempts ==
            map[FIRST := Claimed(FIRST, AttemptState.BlockedMissingFields), SECOND := Claimed(SECOND, AttemptState.Claimed)]
  {
    ClaimAccepted(s);
  }

  lemma Tell(n: nat)
    requires n > 0
    ensures Run(SETTINGS, Story(n)) == Step(SETTINGS, Run(SETTINGS, Story(n - 1)), 1, CallAt(n - 1)).ledger
  {
    assert Story(n)[..n - 1] == Story(n - 1);
  }

  lemma UntilFirstClaim()
    ensures Shows(Run(SETTINGS, Story(3)), 1, Some(Posted(MessageState.Claimed, FIRST)),
                  map[FIRST := Claimed(FIRST, AttemptState.Claimed)])
  {
    Tell(1); Registered(Run(SETTINGS, Story(0)));
    Tell(2); Ingressed(Run(SETTINGS, Story(1)));
    Tell(3); FirstClaimed(Run(SETTINGS, Story(2)));
  }

  lemma UntilBlocked()
    ensures var s := Run(SETTINGS, Story(4));
            && s.endpoints == map["w" := WORKER] && Counter(s.queue, Refs.Kind.Attempt) == 1
            && s.queue.messages == map["m" := Posted(MessageState.InputRequired, FIRST)]
            && s.queue.attempts == map[FIRST := Claimed(FIRST, AttemptState.BlockedMissingFields)]
  {
    UntilFirstClaim();
    Tell(4);
    Blocked(Run(SETTINGS, Story(3)));
  }

  /** After the retry the message is available while the first attempt is still open. */
  lemma UntilRetry()
    ensures var s := Run(SETTINGS, Story(5));
            && s.endpoints == map["w" := WORKER] && Counter(s.queue, Refs.Kind.Attempt) == 1
            && s.queue.messages == map["m" := Posted(MessageState.Available, "")]
            && s.queue.attempts == map[FIRST := Claimed(FIRST, AttemptState.BlockedMissingFields)]
  {
    UntilBlocked();
    Tell(5);
    Retried(Run(SETTINGS, Story(4)));
  }

  /** Six calls at one instant, and two attempts of the one message are live. */
  lemma TwoLiveAttempts()
    ensures var q := Run(SETTINGS, Story(6)).queue;
            && FIRST != SECOND && FIRST in q.attempts && SECOND in q.attempts
            && q.attempts[FIRST].messageRef == q.attempts[SECOND].messageRef
            && Live(q.attempts[FIRST], 1) && Live(q.attempts[SECOND], 1)
  {
    UntilRetry();
    Tell(6); SecondClaimed(Run(SETTINGS, Story(5)));
    if FIRST == SECOND { Refs.AllocRefInjective(Refs.Kind.Attempt, 1, Refs.Kind.Attempt, 2); }
  }

  /** The two attempts carry the same number. */
  lemma NumberRepeats()
    ensures var q := Run(SETTINGS, Story(6)).queue;
            && FIRST != SECOND && FIRST in q.attempts && SECOND in q.attempts
            && q.attempts[FIRST].messageRef == q.attempts[SECOND].messageRef
            && q.attempts[FIRST].attemptNo == q.attempts[SECOND].attemptNo
  {
    hide Step;
    UntilRetry();
    Tell(6); SecondClaimed(Run(SETTINGS, Story(5)));
    if FIRST == SECOND { Refs.AllocRefInjective(Refs.Kind.Attempt, 1, Refs.Kind.Attempt, 2); }
  }

  // After the sixth call

  const DONE := CheckpointRequest("w", AttemptState.Completed, "s", [], true)
  const WORKING := CheckpointRequest("w", InProgress, "s", [], true)

  function Then(events: seq<Event>, call: Call): seq<Event> {
    events + [Event(1, call)]
  }

  lemma ThenStep(events: seq<Event>, call: Call)
    ensures var later := Then(events, call);
            Run(SETTINGS, later) == Step(SETTINGS, Run(SETTINGS, events), 1, call).ledger && later[..|events|] == events
  {
    hide Step;
    assert Then(events, call)[..|events|] == events;
  }

  /** The attempt is open, of this worker and of the message, and its lease is running. */
  ghost predicate Holds(q: Queue, a: Ref) {
    a in q.attempts && q.attempts[a].attemptRef == a && q.attempts[a].messageRef == "m" && q.attempts[a].endpointRef == "w"
    && Live(q.attempts[a], 1)
  }

  ghost predicate PointsAt(q: Queue, state: MessageState, a: Ref) {
    "m" in q.messages && q.messages["m"].messageRef == "m" && q.messages["m"].correlationRef == "t"
    && q.messages["m"].state == state && q.messages["m"].attemptRef == a
  }

  lemma SixthCall()
    ensures var q := Run(SETTINGS, Story(6)).queue;
            PointsAt(q, MessageState.Claimed, SECOND) && Holds(q, FIRST) && Holds(q, SECOND) && FIRST != SECOND
  {
    UntilRetry();
    Tell(6); SecondClaimed(Run(SETTINGS, Story(5)));
    if FIRST == SECOND { Refs.AllocRefInjective(Refs.Kind.Attempt, 1, Refs.Kind.Attempt, 2); }
  }

  /** A live attempt's report reaches the message, whichever attempt the message points at. */
  lemma Report(s: Ledger, a: Ref, other: Ref, state: MessageState, current: Ref, req: CheckpointRequest)
    requires PointsAt(s.queue, state, current) && Holds(s.queue, a) && a != other
    requires req == DONE || req == WORKING
    ensures var q := Step(SETTINGS, s, 1, CheckpointCall(a, req)).ledger.queue;
            && PointsAt(q, if req == DONE then MessageState.Completed else MessageState.Processing, current)
            && (Holds(s.queue, other) ==> Holds(q, other))
  {
    assert CheckpointRefusal(s, 1, a, req).None?;
    assert Step(SETTINGS, s, 1, CheckpointCall(a, req)) == SubmitCheckpoint(s, 1, a, req);
    hide CheckpointRefusal, NewCheckpoint, AppendCheckpoint;
  }

  /** The first attempt completes the message that points at the second: their states no longer agree. */
  lemma StatesDisagree()
    ensures !AllAgree(Run(SETTINGS, Then(Story(6), CheckpointCall(FIRST, DONE))).queue)
  {
    hide Step;
    SixthCall();
    ThenStep(Story(6), CheckpointCall(FIRST, DONE));
    Report(Run(SETTINGS, Story(6)), FIRST, SECOND, MessageState.Claimed, SECOND, DONE);
    Disagrees(Run(SETTINGS, Then(Story(6), CheckpointCall(FIRST, DONE))).queue);
  }

  lemma Disagrees(q: Queue)
    requires PointsAt(q, MessageState.Completed, SECOND) && Holds(q, SECOND)
    ensures !AllAgree(q)
  {
    assert !Agrees(q, "m");
  }

  /** Then the second attempt reports progress, and the completed message is processing again. */
  lemma CompletionUndone()
    ensures var first := Then(Story(6), CheckpointCall(FIRST, DONE));
            var later := Then(first, CheckpointCall(SECOND, WORKING));
            && PointsAt(Run(SETTINGS, first).queue, MessageState.Completed, SECOND)
            && PointsAt(Run(SETTINGS, later).queue, MessageState.Processing, SECOND)
  {
    hide Step, PointsAt, Holds;
    var first := Then(Story(6), CheckpointCall(FIRST, DONE));
    SixthCall();
    ThenStep(Story(6), CheckpointCall(FIRST, DONE));
    Report(Run(SETTINGS, Story(6)), FIRST, SECOND, MessageState.Claimed, SECOND, DONE);
    ThenStep(first, CheckpointCall(SECOND, WORKING));
    Report(Run(SETTINGS, first), SECOND, FIRST, MessageState.Completed, SECOND, WORKING);
  }

  lemma CanceledAway(s: Ledger)
    requires PointsAt(s.queue, MessageState.Claimed, SECOND) && Holds(s.queue, FIRST) && FIRST != SECOND
    requires s.queue.messages.Keys == {"m"}
    ensures var turn := Step(SETTINGS, s, 1, CancelCall("t"));
            && turn.reply.TaskChanged? && PointsAt(turn.ledger.queue, MessageState.Canceled, SECOND)
            && Holds(turn.ledger.queue, FIRST)
  {
    assert "m" in TaskRefs(s.queue, "t");
    assert Cancelable(s.queue, "t") == {"m"};
    assert CurrentAttempts(s.queue, {"m"}) == {SECOND};
  }

  lemma OnlyMessage()
    ensures Run(SETTINGS, Story(6)).queue.messages.Keys == {"m"}
  {
    UntilRetry();
    Tell(6); SecondClaimed(Run(SETTINGS, Story(5)));
  }

  /** The task is canceled and not retried, yet the first attempt is live and moves the message. */
  lemma CancellationUndone()
    ensures var canceled := Then(Story(6), CancelCall("t"));
            var later := Then(canceled, CheckpointCall(FIRST, WORKING));
            && PointsAt(Run(SETTINGS, canceled).queue, MessageState.Canceled, SECOND)
            && !Settled(Run(SETTINGS, canceled).queue, "m", 1)
            && PointsAt(Run(SETTINGS, later).queue, MessageState.Processing, SECOND)
  {
    hide Step, PointsAt;
    var canceled := Then(Story(6), CancelCall("t"));
    SixthCall();
    OnlyMessage();
    ThenStep(Story(6), CancelCall("t"));
    CanceledAway(Run(SETTINGS, Story(6)));
    ThenStep(canceled, CheckpointCall(FIRST, WORKING));
    Report(Run(SETTINGS, canceled), FIRST, SECOND, MessageState.Canceled, SECOND, WORKING);
  }
}
