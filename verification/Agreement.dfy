// Which states a message and the attempt it points at can be in together.
module Agreement {
  import opened Wrappers
  import opened Domain
  import opened QueueModel
  import opened Calls
  import opened Protocol
  import opened Links
  import opened Leases
  import opened Paths
  import opened Reachable
  import opened Runs
  import Refs

  /** The table of joint states. A worker may report `claimed`, `retrying` or `canceled` without moving its message. */
  predicate Fits(message: MessageState, attempt: AttemptState) {
    match message
    case Available => false
    case Claimed => attempt in {AttemptState.Claimed, Retrying, AttemptState.Canceled}
    case Processing => attempt in {InProgress, Validating, AttemptState.Claimed, Retrying, AttemptState.Canceled}
    case InputRequired => attempt in {BlockedMissingFields, AttemptState.Claimed, Retrying, AttemptState.Canceled}
    case Completed => attempt == AttemptState.Completed
    case Failed => attempt == AttemptState.Failed
    case TakeoverCandidate => attempt == AttemptState.Orphaned
    case DeadLettered => attempt == AttemptState.Orphaned
    case Canceled => attempt in {AttemptState.Canceled, AttemptState.Failed, AttemptState.Orphaned}
  }

  ghost predicate Agrees(q: Queue, r: Ref)
    requires r in q.messages
  {
    var m := q.messages[r];
    if m.attemptRef == "" then m.state == MessageState.Available || m.state == MessageState.Canceled
    else m.attemptRef in q.attempts && Fits(m.state, q.attempts[m.attemptRef].state)
  }

  ghost predicate AllAgree(q: Queue) {
    forall r :: r in q.messages ==> Agrees(q, r)
  }

  lemma GrantKeepsAgreement(q: Queue, m: Message, c: ClaimRequest)
    requires Linked(q) && m.messageRef in q.messages && c.attemptRef != "" && c.attemptRef !in q.attempts
    requires forall r :: r in q.messages && r != m.messageRef ==> Agrees(q, r)
    ensures AllAgree(Grant(q, m, c))
  {
    var q' := Grant(q, m, c);
    forall r | r in q'.messages ensures Agrees(q', r) { assert r != m.messageRef ==> Agrees(q, r); }
  }

  lemma OrphanKeepsAgreement(q: Queue, r: Ref, other: Ref)
    requires Linked(q) && r in q.messages && q.messages[r].attemptRef in q.attempts
    requires other in q.messages && other != r && Agrees(q, other)
    ensures Agrees(Orphan(q, q.attempts[q.messages[r].attemptRef]), other)
  {
    assert CurrentStored(q, r) && CurrentStored(q, other);
  }

  lemma AssignKeepsAgreement(settings: Settings, s: Ledger, now: Time, r: Ref, c: ClaimRequest)
    requires Linked(s.queue) && AllAgree(s.queue) && Enabled(settings, s, now, Assign(r, c))
    ensures AllAgree(Grant(s.queue, s.queue.messages[r], c))
  {
    DrawnIsNotBlank(s.queue, c.attemptRef);
    GrantKeepsAgreement(s.queue, s.queue.messages[r], c);
  }

  lemma DrawnIsNotBlank(q: Queue, a: Ref)
    requires JustDrawn(q, Refs.Kind.Attempt, a)
    ensures a != ""
  {
    assert |Refs.Stem(Refs.Kind.Attempt)| > 0;
  }

  lemma RetakeKeepsAgreement(settings: Settings, s: Ledger, now: Time, r: Ref, c: ClaimRequest)
    requires Linked(s.queue) && AllAgree(s.queue) && Enabled(settings, s, now, Retake(r, c))
    ensures var m := s.queue.messages[r];
            AllAgree(Grant(Orphan(s.queue, s.queue.attempts[m.attemptRef]), Redelivered(m), c))
  {
    var q := s.queue;
    var current := q.attempts[q.messages[r].attemptRef];
    DrawnIsNotBlank(q, c.attemptRef);
    OrphanKeepsLinked(q, current);
    forall other | other in q.messages && other != r ensures Agrees(Orphan(q, current), other) {
      OrphanKeepsAgreement(q, r, other);
    }
    GrantKeepsAgreement(Orphan(q, current), Redelivered(q.messages[r]), c);
  }

  lemma DiscardKeepsAgreement(settings: Settings, s: Ledger, now: Time, r: Ref, c: ClaimRequest)
    requires Linked(s.queue) && AllAgree(s.queue) && Enabled(settings, s, now, Discard(r, c))
    ensures var m := s.queue.messages[r]; AllAgree(Bury(s.queue, m, s.queue.attempts[m.attemptRef], c))
  {
    var q := s.queue;
    var current := q.attempts[q.messages[r].attemptRef];
    var q' := Bury(q, q.messages[r], current, c);
    assert CurrentStored(q, r);
    forall other | other in q'.messages ensures Agrees(q', other) {
      if other != r {
        OrphanKeepsAgreement(q, r, other);
        assert Agrees(Orphan(q, current), other);
      }
    }
  }

  /** No other message points at a message's current attempt. */
  lemma OwnAttempt(q: Queue, refs: set<Ref>, r: Ref)
    requires Linked(q) && r in q.messages && r !in refs
    ensures q.messages[r].attemptRef != "" ==> q.messages[r].attemptRef !in CurrentAttempts(q, refs)
  {
    assert CurrentStored(q, r);
    forall other | other in refs && other in q.messages
      ensures q.messages[other].attemptRef != q.messages[r].attemptRef || q.messages[r].attemptRef == ""
    {
      assert CurrentStored(q, other);
    }
  }

  lemma SweepKeepsAgreement(q: Queue, now: Time)
    requires Linked(q) && AllAgree(q)
    ensures AllAgree(Reconcile(q, now))
  {
    var q', expired := Reconcile(q, now), ExpiredClaims(q, now);
    forall r | r in q'.messages ensures Agrees(q', r) {
      assert Agrees(q, r) && CurrentStored(q, r);
      if r in expired {
        assert q.messages[r].attemptRef in CurrentAttempts(q, expired);
      } else {
        OwnAttempt(q, expired, r);
      }
    }
  }

  lemma WithdrawKeepsAgreement(q: Queue, refs: set<Ref>)
    requires Linked(q) && AllAgree(q) && forall r :: r in refs ==>
            r in q.messages && q.messages[r].state != MessageState.Completed
    ensures AllAgree(CancelRefs(q, refs))
  {
    var q' := CancelRefs(q, refs);
    forall r | r in q'.messages ensures Agrees(q', r) {
      assert Agrees(q, r) && CurrentStored(q, r);
      var a := q.messages[r].attemptRef;
      if r in refs {
        assert a in CurrentAttempts(q, refs);
      } else {
        OwnAttempt(q, refs, r);
      }
    }
  }

  lemma ReopenKeepsAgreement(q: Queue, refs: set<Ref>)
    requires AllAgree(q)
    ensures AllAgree(RetryRefs(q, refs))
  {
    var q' := RetryRefs(q, refs);
    forall r | r in q'.messages ensures Agrees(q', r) { assert Agrees(q, r); }
  }

  /** The message, in this state, agrees with the attempt it points at. */
  predicate AgreesAs(q: Queue, m: Message, state: MessageState) {
    if m.attemptRef == "" then state == MessageState.Available || state == MessageState.Canceled
    else m.attemptRef in q.attempts && Fits(state, q.attempts[m.attemptRef].state)
  }

  lemma ReportAgreesElsewhere(q: Queue, a: Attempt, req: CheckpointRequest, r: Ref)
    requires Linked(q) && AllAgree(q) && a.attemptRef in q.attempts && q.attempts[a.attemptRef] == a
    requires r in q.messages && r != a.messageRef
    ensures r in Reported(q, a, req).messages && Agrees(Reported(q, a, req), r)
  {
    assert Agrees(q, r) && CurrentStored(q, r);
  }

  /**
   * A report by the message's own attempt stays within the table; one by another attempt does just when the outcome
   * fits.
   */
  lemma ReportKeepsAgreementIff(s: Ledger, now: Time, a: Ref, req: CheckpointRequest)
    requires Linked(s.queue) && AllAgree(s.queue) && MayReport(s, now, a, req)
    ensures var m := s.queue.messages[s.queue.attempts[a].messageRef];
            AllAgree(Reported(s.queue, s.queue.attempts[a], req)) <==>
              m.attemptRef == a || AgreesAs(s.queue, m, StateAfterCheckpoint(m.state, req.state))
  {
    var q, b := s.queue, s.queue.attempts[a];
    var q' := Reported(q, b, req);
    var m := q.messages[b.messageRef];
    assert Agrees(q, b.messageRef) && CurrentStored(q, b.messageRef);
    assert Agrees(q', b.messageRef) <==> m.attemptRef == a || AgreesAs(q, m, StateAfterCheckpoint(m.state, req.state));
    forall r | r in q'.messages && r != b.messageRef ensures Agrees(q', r) { ReportAgreesElsewhere(q, b, req, r); }
    hide Agrees, Linked, Reported, CurrentStored;
  }

  lemma ExtendKeepsAgreement(q: Queue, a: Attempt)
    requires AllAgree(q) && a.attemptRef in q.attempts && q.attempts[a.attemptRef].state == a.state
    ensures AllAgree(PutAttempt(q, a))
  {
    var q' := PutAttempt(q, a);
    forall r | r in q'.messages ensures Agrees(q', r) { assert Agrees(q, r); }
  }

  lemma PostKeepsAgreement(q: Queue, m: Message)
    requires AllAgree(q) && m.state == MessageState.Available && m.attemptRef == ""
    ensures AllAgree(PutMessage(q, m))
  {
    var q' := PutMessage(q, m);
    forall r | r in q'.messages ensures Agrees(q', r) { assert r != m.messageRef ==> Agrees(q, r); }
  }

  lemma BumpKeepsAgreement(q: Queue, kind: Refs.Kind)
    requires AllAgree(q)
    ensures AllAgree(Bump(q, kind))
  {
    forall r | r in q.messages ensures Agrees(Bump(q, kind), r) { assert Agrees(q, r); }
  }

  /** Every move but a report stays within the table, whatever came before. */
  lemma MoveKeepsAgreement(settings: Settings, s: Ledger, now: Time, move: Move)
    requires Linked(s.queue) && AllAgree(s.queue) && Enabled(settings, s, now, move) && !move.Report?
    ensures AllAgree(Apply(settings, s, now, move).queue)
  {
    hide CurrentStored, Grant, Orphan, Bury, Reconcile, CancelRefs, RetryRefs, AllAgree, Bump, PutMessage, PutAttempt;
    var q := s.queue;
    match move
    case Assign(r, c) => AssignKeepsAgreement(settings, s, now, r, c);
    case Retake(r, c) => RetakeKeepsAgreement(settings, s, now, r, c);
    case Discard(r, c) => DiscardKeepsAgreement(settings, s, now, r, c);
    case Sweep => SweepKeepsAgreement(q, now);
    case Extend(a, lease) => ExtendKeepsAgreement(q, q.attempts[a].(leaseExpiresAt := lease));
    case Withdraw(refs) => WithdrawKeepsAgreement(q, refs);
    case Reopen(refs) => ReopenKeepsAgreement(q, refs);
    case Post(m) => PostKeepsAgreement(q, m);
    case Draw(kind) => BumpKeepsAgreement(q, kind);
    case _ =>
  }

  lemma {:induction false} PathKeepsAgreement(settings: Settings, s: Ledger, now: Time, moves: seq<Move>)
    requires ValidSettings(settings) && Linked(s.queue) && AllAgree(s.queue) && Path(settings, s, now, moves)
    requires forall i :: 0 <= i < |moves| ==> !moves[i].Report?
    ensures Linked(After(settings, s, now, moves).queue) && AllAgree(After(settings, s, now, moves).queue)
    decreases |moves|
  {
    hide Linked, AllAgree, Apply, Enabled;
    if moves != [] {
      MoveKeepsLinked(settings, s, now, moves[0]);
      MoveKeepsAgreement(settings, s, now, moves[0]);
      PathKeepsAgreement(settings, Apply(settings, s, now, moves[0]), now, moves[1..]);
    }
  }

  /**
   * The report is let through, is by an attempt that its message does not point at, and gives a state that does not
   * fit.
   */
  predicate UpsetsBy(s: Ledger, now: Time, attemptRef: Ref, req: CheckpointRequest) {
    && CheckpointRefusal(s, now, attemptRef, req).None?
    && s.queue.attempts[attemptRef].messageRef in s.queue.messages
    && var m := s.queue.messages[s.queue.attempts[attemptRef].messageRef];
       m.attemptRef != attemptRef && !AgreesAs(s.queue, m, StateAfterCheckpoint(m.state, req.state))
  }

  predicate Upsets(s: Ledger, now: Time, call: Call) {
    match call
    case CheckpointCall(a, req) => UpsetsBy(s, now, a, req)
    case CompleteCall(a, req) => req.endpointRef != "" && req.summary != "" && UpsetsBy(s, now, a, CompletionCheckpoint(req))
    case _ => false
  }

  lemma AcceptedReport(s: Ledger, now: Time, a: Ref, req: CheckpointRequest)
    requires Linked(s.queue) && CheckpointRefusal(s, now, a, req).None?
    ensures MayReport(s, now, a, req)
            && SubmitCheckpoint(s, now, a, req).ledger.queue == Reported(s.queue, s.queue.attempts[a], req)
    ensures !SubmitCheckpoint(s, now, a, req).reply.Refused?
  {
    hide StateAfterCheckpoint, ArtifactsOfMessage, ValidCheckpoint, CheckpointsOf;
  }

  lemma CheckpointKeepsAgreementIff(s: Ledger, now: Time, a: Ref, req: CheckpointRequest)
    requires Linked(s.queue) && AllAgree(s.queue)
    ensures AllAgree(SubmitCheckpoint(s, now, a, req).ledger.queue) <==> !UpsetsBy(s, now, a, req)
    ensures SubmitCheckpoint(s, now, a, req).reply.Refused? <==> CheckpointRefusal(s, now, a, req).Some?
  {
    if CheckpointRefusal(s, now, a, req).None? {
      AcceptedReport(s, now, a, req);
      ReportKeepsAgreementIff(s, now, a, req);
      hide SubmitCheckpoint, Reported, AllAgree, CheckpointRefusal, AgreesAs, StateAfterCheckpoint;
    } else {
      hide AllAgree, AgreesAs, StateAfterCheckpoint, CheckpointRefusal;
    }
  }

  lemma IngressAdds(s: Ledger, req: IngressRequest)
    ensures var q, q', m := s.queue, Ingress(s, req).ledger.queue, NewMessage(s.queue, req);
            && q'.attempts == q.attempts
            && (q'.messages == q.messages || (m.messageRef !in q.messages && q'.messages == q.messages[m.messageRef := m]))
    ensures NewMessage(s.queue, req).state == MessageState.Available && NewMessage(s.queue, req).attemptRef == ""
  {
    assert IngressCounted(s.queue, req).messages == s.queue.messages
           && IngressCounted(s.queue, req).attempts == s.queue.attempts;
    hide ValidIngress, RouteAvailable, IngressCounted, IngressRef, NextRef;
  }

  lemma SameAgreement(q: Queue, q': Queue, r: Ref)
    requires r in q.messages && r in q'.messages && q'.messages[r] == q.messages[r] && q'.attempts == q.attempts
    ensures Agrees(q', r) <==> Agrees(q, r)
  {
  }

  /** A new message changes nothing about whether the others agree. */
  lemma IngressAgreesIff(s: Ledger, req: IngressRequest)
    ensures AllAgree(Ingress(s, req).ledger.queue) <==> AllAgree(s.queue)
  {
    var q, q', m := s.queue, Ingress(s, req).ledger.queue, NewMessage(s.queue, req);
    IngressAdds(s, req);
    hide Ingress, NewMessage;
    if m.messageRef !in q.messages && m.messageRef in q'.messages { assert Agrees(q', m.messageRef); }
    hide Agrees;
    forall r | r in q.messages ensures Agrees(q', r) <==> Agrees(q, r) { SameAgreement(q, q', r); }
  }

  lemma {:induction false} PostsAgreeIff(s: Ledger, reqs: seq<IngressRequest>)
    ensures AllAgree(PostAll(s, reqs).ledger.queue) <==> AllAgree(s.queue)
    decreases |reqs|
  {
    hide Ingress, AllAgree;
    if reqs != [] {
      IngressAgreesIff(s, reqs[0]);
      if Ingress(s, reqs[0]).reply.Posted? { PostsAgreeIff(Ingress(s, reqs[0]).ledger, reqs[1..]); }
    }
  }

  lemma CompletionKeepsAgreementIff(s: Ledger, now: Time, a: Ref, req: CompletionRequest)
    requires Linked(s.queue) && AllAgree(s.queue)
    ensures AllAgree(CompleteAttempt(s, now, a, req).ledger.queue)
            <==> !(req.endpointRef != "" && req.summary != "" && UpsetsBy(s, now, a, CompletionCheckpoint(req)))
  {
    hide PostAll, AllAgree, UpsetsBy;
    CheckpointKeepsAgreementIff(s, now, a, CompletionCheckpoint(req));
    var turn := SubmitCheckpoint(s, now, a, CompletionCheckpoint(req));
    if req.endpointRef != "" && req.summary != "" && !turn.reply.Refused? {
      var parent := turn.ledger.queue.messages[s.queue.attempts[a].messageRef];
      PostsAgreeIff(turn.ledger, FollowUps(req.followUps, req.endpointRef, parent));
    }
  }

  lemma UnreportedKeepsAgreement(settings: Settings, s: Ledger, now: Time, call: Call)
    requires ValidSettings(settings) && Linked(s.queue) && Counted(s) && AllAgree(s.queue)
    requires !call.CheckpointCall? && !call.CompleteCall?
    ensures AllAgree(Step(settings, s, now, call).ledger.queue)
  {
    hide Step, Apply, Linked, Counted, AllAgree, Enabled;
    var route := CallRoute(settings, s, now, call);
    PathKeepsAgreement(settings, s, now, route.quiet);
    if route.loud.Some? { MoveKeepsAgreement(settings, After(settings, s, now, route.quiet), now, route.loud.value); }
  }

  /** Exactly which calls leave the table. */
  lemma CallKeepsAgreementIff(settings: Settings, s: Ledger, now: Time, call: Call)
    requires ValidSettings(settings) && Linked(s.queue) && Counted(s) && AllAgree(s.queue)
    ensures AllAgree(Step(settings, s, now, call).ledger.queue) <==> !Upsets(s, now, call)
  {
    hide SubmitCheckpoint, CompleteAttempt, Linked, Counted, AllAgree, UpsetsBy;
    match call
    case CheckpointCall(a, req) => CheckpointKeepsAgreementIff(s, now, a, req);
    case CompleteCall(a, req) => CompletionKeepsAgreementIff(s, now, a, req);
    case _ => UnreportedKeepsAgreement(settings, s, now, call);
  }

  lemma {:induction false} NoneUpsets(settings: Settings, events: seq<Event>, i: nat)
    requires ValidSettings(settings) && i <= |events|
    requires forall j :: 0 <= j < i ==> !Upsets(Run(settings, events[..j]), events[j].now, events[j].call)
    ensures AllAgree(Run(settings, events[..i]).queue)
    decreases i
  {
    hide Step, AllAgree, Upsets, Good;
    if i == 0 {
      NothingToAgree();
    } else {
      NoneUpsets(settings, events, i - 1);
      StepAgreesIff(settings, events, i - 1);
    }
  }

  lemma StepAgreesIff(settings: Settings, events: seq<Event>, j: nat)
    requires ValidSettings(settings) && j < |events| && AllAgree(Run(settings, events[..j]).queue)
    ensures AllAgree(Run(settings, events[..j + 1]).queue) <==>
            !Upsets(Run(settings, events[..j]), events[j].now, events[j].call)
  {
    hide Step, AllAgree, Upsets, Good;
    assert events[..j + 1][..j] == events[..j];
    RunIsGood(settings, events[..j]);
    GoodLinks(settings, Run(settings, events[..j]));
    CallKeepsAgreementIff(settings, Run(settings, events[..j]), events[j].now, events[j].call);
  }

  /**
   * In any run, each message and the attempt it points at are in a pair of states of the table at every point, exactly
   * when no call upsets it.
   */
  lemma StatesAgreeIff(settings: Settings, events: seq<Event>)
    requires ValidSettings(settings)
    ensures (forall i :: 0 <= i <= |events| ==> AllAgree(Run(settings, events[..i]).queue))
            <==> forall j :: 0 <= j < |events| ==> !Upsets(Run(settings, events[..j]), events[j].now, events[j].call)
  {
    hide Step, Run, AllAgree, Upsets;
    if forall j :: 0 <= j < |events| ==> !Upsets(Run(settings, events[..j]), events[j].now, events[j].call) {
      forall i | 0 <= i <= |events| ensures AllAgree(Run(settings, events[..i]).queue) { NoneUpsets(settings, events, i); }
    }
    if forall i :: 0 <= i <= |events| ==> AllAgree(Run(settings, events[..i]).queue) {
      forall j | 0 <= j < |events| ensures !Upsets(Run(settings, events[..j]), events[j].now, events[j].call) {
        assert AllAgree(Run(settings, events[..j + 1]).queue);
        StepAgreesIff(settings, events, j);
      }
    }
  }

  /** Where live attempts are current, nothing upsets the table. */
  lemma CurrentNeverUpset(s: Ledger, now: Time, call: Call)
    requires Linked(s.queue) && LiveIsCurrent(s.queue, now)
    ensures !Upsets(s, now, call)
  {
    match call
    case CheckpointCall(a, req) => CurrentReports(s, now, a, req);
    case CompleteCall(a, req) => CurrentReports(s, now, a, CompletionCheckpoint(req));
    case _ =>
  }

  lemma CurrentReports(s: Ledger, now: Time, a: Ref, req: CheckpointRequest)
    requires LiveIsCurrent(s.queue, now)
    ensures !UpsetsBy(s, now, a, req)
  {
    hide AgreesAs, StateAfterCheckpoint;
    if CheckpointRefusal(s, now, a, req).None? { assert IsCurrent(s.queue, a); }
  }

  /** So in every run with patient retries the states agree. */
  lemma StatesAgree(settings: Settings, events: seq<Event>)
    requires ValidSettings(settings) && InOrder(events) && PatientRetries(settings, events)
    ensures AllAgree(Run(settings, events).queue)
  {
    hide Step, Run, AllAgree, Upsets, Good, LiveIsCurrent, Linked;
    forall j | 0 <= j < |events| ensures !Upsets(Run(settings, events[..j]), events[j].now, events[j].call) {
      var s := Run(settings, events[..j]);
      PrefixPatient(settings, events, j);
      LeasesAreExclusive(settings, events[..j]);
      LiveIsCurrentLater(s.queue, Clock(events[..j]), events[j].now);
      RunIsGood(settings, events[..j]);
      GoodLinks(settings, s);
      CurrentNeverUpset(s, events[j].now, events[j].call);
    }
    NoneUpsets(settings, events, |events|);
    assert events[..|events|] == events;
  }

  lemma NothingToAgree()
    ensures AllAgree(EMPTY_LEDGER.queue)
  {
  }
}
