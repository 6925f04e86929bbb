// Every service call is a path of enabled protocol moves.
module Paths {
  import opened Wrappers
  import opened Domain
  import opened Routing
  import opened QueueModel
  import opened Calls
  import opened Protocol
  import opened Links
  import opened Polling
  import Refs

  /** Moves that neither claim nor reopen a message. */
  predicate Quiet(move: Move) {
    !move.Assign? && !move.Retake? && !move.Reopen?
  }

  predicate AllQuiet(moves: seq<Move>) {
    forall i :: 0 <= i < |moves| ==> Quiet(moves[i])
  }

  /** Quiet moves, then at most one that claims or reopens. */
  datatype Route = Route(quiet: seq<Move>, loud: Option<Move>)

  predicate Unreported(route: Route) {
    forall i :: 0 <= i < |route.quiet| ==> !route.quiet[i].Report?
  }

  ghost predicate Leads(settings: Settings, s: Ledger, now: Time, route: Route, s': Ledger) {
    && AllQuiet(route.quiet) && Path(settings, s, now, route.quiet)
    && var between := After(settings, s, now, route.quiet);
       match route.loud
       case None => s' == between
       case Some(move) => !Quiet(move) && Enabled(settings, between, now, move) && s' == Apply(settings, between, now, move)
  }

  lemma Empty(settings: Settings, s: Ledger, now: Time)
    ensures Leads(settings, s, now, Route([], None), s)
  {
  }

  /** One more quiet move in front. */
  lemma Precede(settings: Settings, s: Ledger, now: Time, move: Move, route: Route, s': Ledger)
    requires Enabled(settings, s, now, move) && Quiet(move)
    requires Leads(settings, Apply(settings, s, now, move), now, route, s')
    ensures Leads(settings, s, now, Route([move] + route.quiet, route.loud), s')
  {
    assert ([move] + route.quiet)[1..] == route.quiet;
  }

  lemma Single(settings: Settings, s: Ledger, now: Time, move: Move) returns (route: Route)
    requires Enabled(settings, s, now, move) && Quiet(move)
    ensures Leads(settings, s, now, route, Apply(settings, s, now, move)) && route.loud.None?
    ensures !move.Report? ==> Unreported(route)
  {
    Empty(settings, Apply(settings, s, now, move), now);
    Precede(settings, s, now, move, Route([], None), Apply(settings, s, now, move));
    route := Route([move] + [], None);
  }

  /** What the loud move of a call must be, given what the call answered. */
  predicate Announced(call: Call, reply: Reply, loud: Option<Move>) {
    match loud
    case None => !reply.Granted? && (call.RetryCall? ==> !reply.TaskChanged?)
    case Some(Assign(r, c)) =>
      reply.Granted? && !reply.claim.takeover && reply.claim.message.messageRef == r
      && reply.claim.attempt.attemptRef == c.attemptRef
    case Some(Retake(r, c)) =>
      reply.Granted? && reply.claim.takeover && reply.claim.message.messageRef == r
      && reply.claim.attempt.attemptRef == c.attemptRef
    case Some(Reopen(refs)) => call.RetryCall? && reply.TaskChanged? && refs == reply.messageRefs
    case Some(_) => false
  }

  // Claims

  /** The store's claim with refs just drawn is one move, or none when it is refused. */
  lemma ClaimRoute(settings: Settings, s: Ledger, now: Time, call: Call, c: ClaimRequest) returns (route: Route)
    requires Linked(s.queue) && Proper(settings, s.queue, now, c.messageRef, c) && !call.RetryCall?
    ensures var turn := Claim(s.queue, c);
            var reply := if turn.reply.Ok? then Granted(turn.reply.value) else Refused(turn.reply.error);
            Leads(settings, s, now, route, s.(queue := turn.queue)) && Announced(call, reply, route.loud)
            && (turn.reply.Err? ==> route.loud.None?)
    ensures Unreported(route)
  {
    var r := c.messageRef;
    var m := s.queue.messages[r];
    assert CurrentStored(s.queue, r);
    if m.state == MessageState.Available {
      route := Route([], Some(Assign(r, c)));
    } else if Abandoned(s.queue, r, now) {
      ClaimOfAbandoned(s.queue, c);
      if m.redeliveryCount < settings.maxRedelivery {
        route := Route([], Some(Retake(r, c)));
      } else {
        route := Single(settings, s, now, Discard(r, c));
      }
    } else {
      RefusalCommutes(s.queue, c);
      Empty(settings, s, now);
      route := Route([], None);
    }
  }

  lemma CountedClaimIsProper(settings: Settings, s: Ledger, now: Time, r: Ref, e: Ref)
    requires Linked(s.queue) && Counted(s) && ClaimRefusal(settings, s, now, r, e).None?
    ensures Proper(settings, ClaimCounted(s.queue), now, r, ServiceClaim(settings, s.queue, now, r, s.endpoints[e]))
  {
    NextIsFresh(s.queue, Refs.Kind.Attempt);
    NextIsFresh(s.queue, Refs.Kind.DeadLetter);
    SameDependencies(s.queue, s.queue.messages[r]);
    assert States(ClaimCounted(s.queue)) == States(s.queue);
  }

  lemma ClaimMessageRoute(settings: Settings, s: Ledger, now: Time, call: Call, r: Ref, e: Ref) returns (route: Route)
    requires Linked(s.queue) && Counted(s) && !call.RetryCall?
    ensures var turn := ClaimMessage(settings, s, now, r, e);
            Leads(settings, s, now, route, turn.ledger) && Announced(call, turn.reply, route.loud)
            && (!turn.reply.Granted? ==> route.loud.None?)
    ensures Unreported(route)
  {
    var s' := ClaimMessage(settings, s, now, r, e).ledger;
    if ClaimRefusal(settings, s, now, r, e).Some? {
      Empty(settings, s, now);
      route := Route([], None);
    } else {
      var c := ServiceClaim(settings, s.queue, now, r, s.endpoints[e]);
      var once := s.(queue := Bump(s.queue, Refs.Kind.Attempt));
      var twice := s.(queue := ClaimCounted(s.queue));
      CountedClaimIsProper(settings, s, now, r, e);
      BumpKeepsLinked(s.queue, Refs.Kind.Attempt);
      BumpKeepsLinked(once.queue, Refs.Kind.DeadLetter);
      route := ClaimRoute(settings, twice, now, call, c);
      Precede(settings, once, now, Draw(Refs.Kind.DeadLetter), route, s');
      route := Route([Draw(Refs.Kind.DeadLetter)] + route.quiet, route.loud);
      Precede(settings, s, now, Draw(Refs.Kind.Attempt), route, s');
      route := Route([Draw(Refs.Kind.Attempt)] + route.quiet, route.loud);
    }
  }

  lemma ClaimNextRoute(settings: Settings, s: Ledger, now: Time, e: Ref) returns (route: Route)
    requires ValidSettings(settings) && Linked(s.queue) && Counted(s)
    ensures var turn := ClaimNextMessage(settings, s, now, e);
            Leads(settings, s, now, route, turn.ledger) && Announced(ClaimNextCall(e), turn.reply, route.loud)
    ensures Unreported(route)
  {
    hide Linked, Counted, Reconcile, PollPick, Calls.ClaimMessage, ClaimNext, OnlineEndpoints;
    var turn := ClaimNextMessage(settings, s, now, e);
    if PollRefusal(settings, s, now, e).Some? {
      Empty(settings, s, now);
      route := Route([], None);
    } else {
      var swept := ReconcileExpiredClaims(s, now).ledger;
      PollIsDirectClaim(settings, s, now, e);
      SweepKeepsLinked(s.queue, now);
      MoveKeepsCounted(settings, s, now, Sweep);
      match PollPick(settings, swept, now, e) {
        case None =>
          Empty(settings, swept, now);
          route := Route([], None);
        case Some(r) =>
          route := ClaimMessageRoute(settings, swept, now, ClaimNextCall(e), r, e);
      }
      Precede(settings, s, now, Sweep, route, turn.ledger);
      route := Route([Sweep] + route.quiet, route.loud);
    }
  }

  // Posting

  lemma IngressRoute(settings: Settings, s: Ledger, now: Time, req: IngressRequest) returns (route: Route)
    ensures Leads(settings, s, now, route, Ingress(s, req).ledger) && route.loud.None?
    ensures Unreported(route)
  {
    var s' := Ingress(s, req).ledger;
    if !ValidIngress(req) || !RouteAvailable(s, req) {
      Empty(settings, s, now);
      return Route([], None);
    }
    var s1 := if req.messageRef == "" then s.(queue := Bump(s.queue, Refs.Kind.Message)) else s;
    var s2 := s1.(queue := Bump(s1.queue, Refs.Kind.Delivery));
    var s3 := s2.(queue := Bump(s2.queue, Refs.Kind.QualityDecision));
    if s' == s3 {
      Empty(settings, s3, now);
      route := Route([], None);
    } else {
      route := Single(settings, s3, now, Post(NewMessage(s.queue, req)));
    }
    Precede(settings, s2, now, Draw(Refs.Kind.QualityDecision), route, s');
    route := Route([Draw(Refs.Kind.QualityDecision)] + route.quiet, None);
    Precede(settings, s1, now, Draw(Refs.Kind.Delivery), route, s');
    route := Route([Draw(Refs.Kind.Delivery)] + route.quiet, None);
    if req.messageRef == "" {
      Precede(settings, s, now, Draw(Refs.Kind.Message), route, s');
      route := Route([Draw(Refs.Kind.Message)] + route.quiet, None);
    }
  }

  /** Two quiet stretches make one. */
  lemma Join(settings: Settings, s: Ledger, now: Time, first: Route, s': Ledger, second: Route, s'': Ledger)
    requires Leads(settings, s, now, first, s') && first.loud.None?
    requires Leads(settings, s', now, second, s'') && second.loud.None?
    ensures Leads(settings, s, now, Route(first.quiet + second.quiet, None), s'')
  {
    PathsCompose(settings, s, now, first.quiet, second.quiet);
  }

  lemma {:induction false} PostAllRoute(settings: Settings, s: Ledger, now: Time, reqs: seq<IngressRequest>)
    returns (route: Route)
    ensures Leads(settings, s, now, route, PostAll(s, reqs).ledger) && route.loud.None?
    ensures Unreported(route)
    decreases |reqs|
  {
    if reqs == [] {
      Empty(settings, s, now);
      return Route([], None);
    }
    var first := Ingress(s, reqs[0]);
    route := IngressRoute(settings, s, now, reqs[0]);
    if first.reply.Posted? {
      var rest := PostAllRoute(settings, first.ledger, now, reqs[1..]);
      Join(settings, s, now, route, first.ledger, rest, PostAll(s, reqs).ledger);
      route := Route(route.quiet + rest.quiet, None);
    }
  }

  // Attempts

  lemma CheckpointRoute(settings: Settings, s: Ledger, now: Time, a: Ref, req: CheckpointRequest) returns (route: Route)
    requires Linked(s.queue)
    ensures Leads(settings, s, now, route, SubmitCheckpoint(s, now, a, req).ledger) && route.loud.None?
  {
    if CheckpointRefusal(s, now, a, req).Some? {
      Empty(settings, s, now);
      route := Route([], None);
    } else {
      route := Single(settings, s, now, Report(a, req));
    }
  }

  lemma CompleteRoute(settings: Settings, s: Ledger, now: Time, a: Ref, req: CompletionRequest) returns (route: Route)
    requires Linked(s.queue)
    ensures Leads(settings, s, now, route, CompleteAttempt(s, now, a, req).ledger) && route.loud.None?
  {
    if req.endpointRef == "" || req.summary == "" {
      Empty(settings, s, now);
      return Route([], None);
    }
    var reported := SubmitCheckpoint(s, now, a, CompletionCheckpoint(req));
    route := CheckpointRoute(settings, s, now, a, CompletionCheckpoint(req));
    if !reported.reply.Refused? {
      var parent := reported.ledger.queue.messages[s.queue.attempts[a].messageRef];
      var posts := FollowUps(req.followUps, req.endpointRef, parent);
      var rest := PostAllRoute(settings, reported.ledger, now, posts);
      Join(settings, s, now, route, reported.ledger, rest, PostAll(reported.ledger, posts).ledger);
      route := Route(route.quiet + rest.quiet, None);
    }
  }

  lemma RefreshRoute(settings: Settings, s: Ledger, now: Time, a: Ref, e: Ref) returns (route: Route)
    ensures Leads(settings, s, now, route, RefreshLease(settings, s, now, a, e).ledger) && route.loud.None?
    ensures Unreported(route)
  {
    if RefreshLease(settings, s, now, a, e).reply.Leased? {
      route := Single(settings, s, now, Extend(a, now + settings.leaseDuration));
      assert Apply(settings, s, now, Extend(a, now + settings.leaseDuration)) == RefreshLease(settings, s, now, a, e).ledger;
    } else {
      Empty(settings, s, now);
      route := Route([], None);
    }
  }

  // Everything else

  lemma EndpointRoute(settings: Settings, s: Ledger, now: Time, call: Call) returns (route: Route)
    requires call.RegisterCall? || call.HeartbeatCall? || call.AdvertiseCall?
    ensures Leads(settings, s, now, route, Step(settings, s, now, call).ledger) && route.loud.None?
    ensures Unreported(route)
  {
    var s' := Step(settings, s, now, call).ledger;
    if s' == s {
      Empty(settings, s, now);
      route := Route([], None);
    } else {
      var enrolled := s.(endpoints := s'.endpoints);
      if s' == enrolled {
        Empty(settings, s', now);
        route := Route([], None);
      } else {
        route := Single(settings, enrolled, now, Draw(Refs.Kind.Accepted));
      }
      Precede(settings, s, now, Enroll(s'.endpoints), route, s');
      route := Route([Enroll(s'.endpoints)] + route.quiet, None);
    }
  }

  lemma EffectRoute(settings: Settings, s: Ledger, now: Time, a: Ref, req: EffectRequest) returns (route: Route)
    requires Linked(s.queue) && Counted(s)
    ensures Leads(settings, s, now, route, StartSideEffect(s, now, a, req).ledger) && route.loud.None?
    ensures Unreported(route)
  {
    var turn := StartSideEffect(s, now, a, req);
    if EffectRefusal(s, now, a, req).Some? {
      Empty(settings, s, now);
      return Route([], None);
    }
    var counted := s.(queue := Bump(s.queue, Refs.Kind.SideEffect));
    if turn.ledger == counted {
      Empty(settings, counted, now);
      route := Route([], None);
    } else {
      NextIsFresh(s.queue, Refs.Kind.SideEffect);
      route := Single(settings, counted, now, Begin(NewEffect(s, s.queue.attempts[a], req)));
    }
    Precede(settings, s, now, Draw(Refs.Kind.SideEffect), route, turn.ledger);
    route := Route([Draw(Refs.Kind.SideEffect)] + route.quiet, None);
  }

  lemma ArtifactRoute(settings: Settings, s: Ledger, now: Time, a: Ref, req: ArtifactRequest) returns (route: Route)
    ensures Leads(settings, s, now, route, RegisterArtifactVersion(s, now, a, req).ledger) && route.loud.None?
    ensures Unreported(route)
  {
    var turn := RegisterArtifactVersion(s, now, a, req);
    if turn.reply.Refused? {
      Empty(settings, s, now);
      route := Route([], None);
    } else {
      route := Single(settings, s, now, File(turn.reply.version));
    }
  }

  lemma ApprovalRoute(settings: Settings, s: Ledger, now: Time, a: Ref, req: ApprovalRequest) returns (route: Route)
    ensures Leads(settings, s, now, route, RecordApprovalDecision(s, a, req).ledger) && route.loud.None?
    ensures Unreported(route)
  {
    var turn := RecordApprovalDecision(s, a, req);
    if turn.reply.Refused? {
      Empty(settings, s, now);
      route := Route([], None);
    } else {
      route := Single(settings, s, now, Decide(turn.reply.decision));
    }
  }

  lemma EffectCompletionRoute(settings: Settings, s: Ledger, now: Time, r: Ref, req: EffectCompletion)
    returns (route: Route)
    ensures Leads(settings, s, now, route, CompleteSideEffect(s, now, r, req).ledger) && route.loud.None?
    ensures Unreported(route)
  {
    if CompleteSideEffect(s, now, r, req).reply.Refused? {
      Empty(settings, s, now);
      route := Route([], None);
    } else {
      route := Single(settings, s, now, Finish(r, req.status, req.resultRef));
    }
  }

  lemma CancelRoute(settings: Settings, s: Ledger, now: Time, task: Ref) returns (route: Route)
    ensures Leads(settings, s, now, route, CancelTask(s, task).ledger) && route.loud.None?
    ensures Unreported(route)
  {
    if CancelTask(s, task).reply.Refused? {
      Empty(settings, s, now);
      route := Route([], None);
    } else {
      route := Single(settings, s, now, Withdraw(Cancelable(s.queue, task)));
    }
  }

  lemma RetryRoute(settings: Settings, s: Ledger, now: Time, task: Ref) returns (route: Route)
    ensures var turn := RetryTask(s, task);
            Leads(settings, s, now, route, turn.ledger) && Announced(RetryCall(task), turn.reply, route.loud)
    ensures route.loud.Some? ==> route.quiet == []
    ensures Unreported(route)
  {
    if RetryTask(s, task).reply.Refused? {
      Empty(settings, s, now);
      route := Route([], None);
    } else {
      route := Route([], Some(Reopen(Retryable(s.queue, task))));
    }
  }

  lemma ReplayRoute(settings: Settings, s: Ledger, now: Time, d: Ref, accepted: bool) returns (route: Route)
    ensures Leads(settings, s, now, route, ReplayDeadLetter(s, d, accepted).ledger) && route.loud.None?
    ensures Unreported(route)
  {
    if d != "" && d in s.queue.deadLetters && s.queue.deadLetters[d].messageRef in s.queue.messages {
      var original := s.queue.messages[s.queue.deadLetters[d].messageRef];
      route := IngressRoute(settings, s, now, ReplayRequest(original, accepted));
    } else {
      Empty(settings, s, now);
      route := Route([], None);
    }
  }

  predicate ClaimsOrRetries(call: Call) {
    call.ClaimCall? || call.ClaimNextCall? || call.RetryCall?
  }

  lemma OthersGrantNothing(settings: Settings, s: Ledger, now: Time, call: Call)
    requires !ClaimsOrRetries(call)
    ensures !Step(settings, s, now, call).reply.Granted?
  {
    match call
    case CompleteCall(a, req) => assert !SubmitCheckpoint(s, now, a, CompletionCheckpoint(req)).reply.Granted?;
    case _ =>
  }

  lemma QuietRoute(settings: Settings, s: Ledger, now: Time, call: Call) returns (route: Route)
    requires Linked(s.queue) && Counted(s) && !ClaimsOrRetries(call)
    ensures Leads(settings, s, now, route, Step(settings, s, now, call).ledger) && route.loud.None?
    ensures !call.CheckpointCall? && !call.CompleteCall? ==> Unreported(route)
  {
    hide Leads, Linked, Counted, Unreported, Ingress, SubmitCheckpoint, Calls.RefreshLease, CompleteAttempt,
      ReplayDeadLetter, StartSideEffect, CancelTask, RegisterArtifactVersion, RecordApprovalDecision,
      CompleteSideEffect, Register, Heartbeat, Advertise;
    match call
    case IngressCall(req) => route := IngressRoute(settings, s, now, req);
    case CheckpointCall(a, req) => route := CheckpointRoute(settings, s, now, a, req);
    case RefreshCall(a, e) => route := RefreshRoute(settings, s, now, a, e);
    case CompleteCall(a, req) => route := CompleteRoute(settings, s, now, a, req);
    case ReplayCall(d, accepted) => route := ReplayRoute(settings, s, now, d, accepted);
    case EffectCall(a, req) => route := EffectRoute(settings, s, now, a, req);
    case RegisterCall(_) => route := EndpointRoute(settings, s, now, call);
    case HeartbeatCall(_, _) => route := EndpointRoute(settings, s, now, call);
    case AdvertiseCall(_, _) => route := EndpointRoute(settings, s, now, call);
    case CancelCall(task) => route := CancelRoute(settings, s, now, task);
    case ReconcileCall => route := Single(settings, s, now, Sweep);
    case ArtifactCall(a, req) => route := ArtifactRoute(settings, s, now, a, req);
    case ApprovalCall(a, req) => route := ApprovalRoute(settings, s, now, a, req);
    case EffectCompletionCall(r, req) => route := EffectCompletionRoute(settings, s, now, r, req);
  }

  /**
   * The refinement: any call of the service is a route of the protocol that its reply announces; only two kinds of call
   * report.
   */
  lemma CallRoute(settings: Settings, s: Ledger, now: Time, call: Call) returns (route: Route)
    requires ValidSettings(settings) && Linked(s.queue) && Counted(s)
    ensures var turn := Step(settings, s, now, call);
            Leads(settings, s, now, route, turn.ledger) && Announced(call, turn.reply, route.loud)
    ensures call.RetryCall? && route.loud.Some? ==> route.quiet == []
    ensures !call.CheckpointCall? && !call.CompleteCall? ==> Unreported(route)
  {
    hide Leads, Linked, Counted, Calls.ClaimMessage, Calls.ClaimNextMessage, RetryTask;
    if !ClaimsOrRetries(call) {
      route := QuietRoute(settings, s, now, call);
      OthersGrantNothing(settings, s, now, call);
    } else {
      match call
      case ClaimCall(r, e) => route := ClaimMessageRoute(settings, s, now, call, r, e);
      case ClaimNextCall(e) => route := ClaimNextRoute(settings, s, now, e);
      case RetryCall(task) => route := RetryRoute(settings, s, now, task);
    }
  }
}
