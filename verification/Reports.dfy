// What a checkpoint leaves behind, in terms of the report it was made from, and
// so what a takeover hands over in terms of the previous worker's last report.
module Reports {
  import opened Wrappers
  import opened Domain
  import opened QueueModel
  import opened Calls
  import opened Protocol
  import opened Links
  import opened Resume
  import opened Polling
  import opened Paths
  import opened Reachable
  import opened Runs
  import opened Grants
  import opened Postings
  import Refs

  /** What a worker said of its attempt. */
  datatype Said = Said(endpointRef: Ref, state: AttemptState, summary: string, artifactRefs: seq<Ref>)

  predicate Keeps(c: Checkpoint, said: Said) {
    c.endpointRef == said.endpointRef && c.state == said.state && c.summary == said.summary && c.artifactRefs == said.artifactRefs
  }

  function SaidBy(req: CheckpointRequest): Said {
    Said(req.endpointRef, req.state, req.summary, req.artifactRefs)
  }

  /** The attempt is the endpoint's own, open, and not past its lease. */
  predicate MayAct(q: Queue, a: Ref, e: Ref, now: Time) {
    && a in q.attempts && q.attempts[a].endpointRef == e
    && q.attempts[a].state !in {AttemptState.Completed, AttemptState.Failed, AttemptState.Orphaned, AttemptState.Canceled}
    && (q.attempts[a].leaseExpiresAt == 0 || now <= q.attempts[a].leaseExpiresAt)
  }

  /** The report is filled in, its attempt may act, and its artifacts are of the attempt's message. */
  predicate IsLetThrough(s: Ledger, now: Time, a: Ref, req: CheckpointRequest) {
    && req.endpointRef != "" && req.summary != "" && req.complete && req.state != AttemptState.Orphaned
    && MayAct(s.queue, a, req.endpointRef, now)
    && forall v :: v in req.artifactRefs ==> v in s.artifacts && s.artifacts[v].messageRef == s.queue.attempts[a].messageRef
  }

  lemma LetThroughIff(s: Ledger, now: Time, a: Ref, req: CheckpointRequest)
    ensures CheckpointRefusal(s, now, a, req).None? <==> IsLetThrough(s, now, a, req)
  {
  }

  /** Where the reported state takes the message. */
  predicate LeadsTo(reported: AttemptState, before: MessageState, after: MessageState) {
    match reported
    case InProgress => after == MessageState.Processing
    case Validating => after == MessageState.Processing
    case BlockedMissingFields => after == MessageState.InputRequired
    case Completed => after == MessageState.Completed
    case Failed => after == MessageState.Failed
    case _ => after == before
  }

  /**
   * One checkpoint more, keeping what was said, under a ref of its own; the attempt and its message moved by it, and no
   * other.
   */
  ghost predicate Recorded(q: Queue, q': Queue, a: Ref, said: Said) {
    var items, items' := CheckpointsOf(q, a), CheckpointsOf(q', a);
    && a in q.attempts && q.attempts[a].messageRef in q.messages
    && |items'| == |items| + 1 && items'[..|items|] == items
    && (var last, r := items'[|items|], q.attempts[a].messageRef;
       && Keeps(last, said) && last.attemptRef == a && last.revision == |items| + 1
       && last.checkpointRef == Refs.AllocRef(Refs.Kind.Checkpoint, Counter(q, Refs.Kind.Checkpoint) + 1)
       && q'.attempts == q.attempts[a := q.attempts[a].(state := said.state, revision := |items| + 1)]
       && r in q'.messages && LeadsTo(said.state, q.messages[r].state, q'.messages[r].state)
       && q'.messages == q.messages[r := q.messages[r].(state := q'.messages[r].state)])
    && (forall b :: b != a ==> CheckpointsOf(q', b) == CheckpointsOf(q, b))
    && q'.deadLetters == q.deadLetters
  }

  lemma CheckpointWritten(q: Queue, a: Attempt, req: CheckpointRequest)
    requires a.attemptRef in q.attempts && q.attempts[a.attemptRef] == a
    ensures var q', items := WithCheckpoint(q, a, req), CheckpointsOf(q, a.attemptRef);
            var items' := CheckpointsOf(q', a.attemptRef);
            && |items'| == |items| + 1 && items'[..|items|] == items
            && Keeps(items'[|items|], SaidBy(req)) && items'[|items|].attemptRef == a.attemptRef
            && items'[|items|].revision == |items| + 1
            && items'[|items|].checkpointRef == Refs.AllocRef(Refs.Kind.Checkpoint, Counter(q, Refs.Kind.Checkpoint) + 1)
            && q'.attempts == q.attempts[a.attemptRef := a.(state := req.state, revision := |items| + 1)]
            && q'.messages == q.messages && q'.deadLetters == q.deadLetters
            && (forall b :: b != a.attemptRef ==> CheckpointsOf(q', b) == CheckpointsOf(q, b))
  {
  }

  lemma StateLeadsTo(before: MessageState, reported: AttemptState)
    ensures LeadsTo(reported, before, StateAfterCheckpoint(before, reported))
  {
  }

  lemma AcceptedForm(s: Ledger, now: Time, a: Ref, req: CheckpointRequest)
    requires Linked(s.queue) && CheckpointRefusal(s, now, a, req).None?
    ensures a in s.queue.attempts && s.queue.attempts[a].attemptRef == a
    ensures var b, q, turn := s.queue.attempts[a], s.queue, SubmitCheckpoint(s, now, a, req);
            && b.messageRef in q.messages && q.messages[b.messageRef].messageRef == b.messageRef
            && (var m := q.messages[b.messageRef];
               turn == Turn(s.(queue := PutMessage(WithCheckpoint(q, b, req),
                                                   m.(state := StateAfterCheckpoint(m.state, req.state)))),
                            Checkpointed(NewCheckpoint(q, b, req))))
  {
    assert a in s.queue.attempts;
    var b := s.queue.attempts[a];
    assert b.attemptRef == a && b.messageRef in s.queue.messages && s.queue.messages[b.messageRef].messageRef == b.messageRef;
    hide Linked, CheckpointRefusal, StateAfterCheckpoint;
    assert WithCheckpoint(s.queue, b, req).messages == s.queue.messages;
    hide WithCheckpoint, NewCheckpoint;
  }

  lemma AcceptedIsRecorded(s: Ledger, now: Time, a: Ref, req: CheckpointRequest)
    requires Linked(s.queue) && CheckpointRefusal(s, now, a, req).None?
    ensures var turn := SubmitCheckpoint(s, now, a, req);
            && turn.reply.Checkpointed? && turn.ledger == s.(queue := turn.ledger.queue)
            && Recorded(s.queue, turn.ledger.queue, a, SaidBy(req))
            && turn.reply.checkpoint == CheckpointsOf(turn.ledger.queue, a)[|CheckpointsOf(s.queue, a)|]
  {
    AcceptedForm(s, now, a, req);
    hide Linked, SubmitCheckpoint, CheckpointRefusal;
    var b := s.queue.attempts[a];
    CheckpointWritten(s.queue, b, req);
    NewCheckpointIsLast(s.queue, b, req);
    hide NewCheckpoint, WithCheckpoint;
    var m := s.queue.messages[b.messageRef];
    StateLeadsTo(m.state, req.state);
    var q1, q' := WithCheckpoint(s.queue, b, req), SubmitCheckpoint(s, now, a, req).ledger.queue;
    forall c ensures CheckpointsOf(q', c) == CheckpointsOf(q1, c) { SameLists(q1, q', c); }
    hide CheckpointsOf, StateAfterCheckpoint, LeadsTo, Keeps;
  }

  /** A report that is let through is recorded; any other changes nothing. */
  lemma CheckpointRecords(s: Ledger, now: Time, a: Ref, req: CheckpointRequest)
    requires Linked(s.queue)
    ensures var turn := SubmitCheckpoint(s, now, a, req);
            && turn.ledger == s.(queue := turn.ledger.queue)
            && (turn.reply.Checkpointed? <==> IsLetThrough(s, now, a, req))
            && (IsLetThrough(s, now, a, req) ==>
                  && Recorded(s.queue, turn.ledger.queue, a, SaidBy(req))
                  && turn.reply.checkpoint == CheckpointsOf(turn.ledger.queue, a)[|CheckpointsOf(s.queue, a)|])
            && (!IsLetThrough(s, now, a, req) ==> turn.ledger == s && turn.reply.Refused?)
  {
    LetThroughIff(s, now, a, req);
    hide IsLetThrough;
    if CheckpointRefusal(s, now, a, req).None? {
      AcceptedIsRecorded(s, now, a, req);
      hide SubmitCheckpoint, CheckpointRefusal;
    } else {
      hide CheckpointRefusal, CheckpointsOf, Recorded;
    }
    hide Linked;
  }

  lemma NewCheckpointIsLast(q: Queue, a: Attempt, req: CheckpointRequest)
    ensures var items, items' := CheckpointsOf(q, a.attemptRef), CheckpointsOf(WithCheckpoint(q, a, req), a.attemptRef);
            |items'| == |items| + 1 && items'[|items|] == NewCheckpoint(q, a, req)
  {
  }

  // Any call

  /** What the call says of attempt `a`, if it is let through. */
  function Accepts(s: Ledger, now: Time, call: Call, a: Ref): Option<Said> {
    match call
    case CheckpointCall(b, req) => if b == a && IsLetThrough(s, now, a, req) then Some(SaidBy(req)) else None
    case CompleteCall(b, req) =>
      var said := Said(req.endpointRef, AttemptState.Completed, req.summary, req.artifactRefs);
      if b == a && IsLetThrough(s, now, a, CheckpointRequest(said.endpointRef, said.state, said.summary, said.artifactRefs, true))
      then Some(said) else None
    case _ => None
  }

  /** The list grows by one checkpoint that keeps what was said, or not at all. */
  ghost predicate Extends(items: seq<Checkpoint>, items': seq<Checkpoint>, said: Option<Said>) {
    match said
    case None => items' == items
    case Some(words) => |items'| == |items| + 1 && items'[..|items|] == items && Keeps(items'[|items|], words)
  }

  lemma ReportExtends(s: Ledger, now: Time, b: Ref, req: CheckpointRequest, a: Ref)
    requires Linked(s.queue)
    ensures Extends(CheckpointsOf(s.queue, a), CheckpointsOf(SubmitCheckpoint(s, now, b, req).ledger.queue, a),
                    if b == a && IsLetThrough(s, now, a, req) then Some(SaidBy(req)) else None)
  {
    CheckpointRecords(s, now, b, req);
    hide SubmitCheckpoint, IsLetThrough, Keeps, Linked, CheckpointsOf;
  }

  /** A completion leaves the lists that its report leaves. */
  lemma CompletionLists(s: Ledger, now: Time, b: Ref, req: CompletionRequest, a: Ref)
    requires req.endpointRef != "" && req.summary != ""
    ensures CheckpointsOf(CompleteAttempt(s, now, b, req).ledger.queue, a)
            == CheckpointsOf(SubmitCheckpoint(s, now, b, CompletionCheckpoint(req)).ledger.queue, a)
  {
    var turn := SubmitCheckpoint(s, now, b, CompletionCheckpoint(req));
    if !turn.reply.Refused? {
      var parent := turn.ledger.queue.messages[s.queue.attempts[b].messageRef];
      var posts := FollowUps(req.followUps, req.endpointRef, parent);
      assert CompleteAttempt(s, now, b, req).ledger == PostAll(turn.ledger, posts).ledger;
      hide CompleteAttempt, SubmitCheckpoint, FollowUps, PostAll, CheckpointsOf;
      PostsStore(turn.ledger, posts);
      SameLists(turn.ledger.queue, CompleteAttempt(s, now, b, req).ledger.queue, a);
    }
  }

  lemma CompletionExtends(s: Ledger, now: Time, b: Ref, req: CompletionRequest, a: Ref)
    requires Linked(s.queue)
    ensures Extends(CheckpointsOf(s.queue, a), CheckpointsOf(CompleteAttempt(s, now, b, req).ledger.queue, a),
                    Accepts(s, now, CompleteCall(b, req), a))
  {
    if req.endpointRef != "" && req.summary != "" {
      CompletionLists(s, now, b, req, a);
      ReportExtends(s, now, b, CompletionCheckpoint(req), a);
    }
    hide SubmitCheckpoint, Linked, Extends, CheckpointsOf;
  }

  lemma SameLists(q: Queue, q': Queue, a: Ref)
    requires q'.checkpoints == q.checkpoints
    ensures CheckpointsOf(q', a) == CheckpointsOf(q, a)
  {
  }

  lemma {:induction false} UnreportedKeepsLists(settings: Settings, s: Ledger, now: Time, moves: seq<Move>)
    requires Path(settings, s, now, moves) && forall i :: 0 <= i < |moves| ==> !moves[i].Report?
    ensures After(settings, s, now, moves).queue.checkpoints == s.queue.checkpoints
    decreases |moves|
  {
    hide Apply, Enabled;
    if moves != [] {
      CheckpointsOnlyReported(settings, s, now, moves[0]);
      UnreportedKeepsLists(settings, Apply(settings, s, now, moves[0]), now, moves[1..]);
    }
  }

  lemma OthersKeepLists(settings: Settings, s: Ledger, now: Time, call: Call)
    requires ValidSettings(settings) && Linked(s.queue) && Counted(s) && !call.CheckpointCall? && !call.CompleteCall?
    ensures Step(settings, s, now, call).ledger.queue.checkpoints == s.queue.checkpoints
  {
    hide Step, Apply, Enabled, Linked, Counted;
    var route := CallRoute(settings, s, now, call);
    UnreportedKeepsLists(settings, s, now, route.quiet);
    if route.loud.Some? { CheckpointsOnlyReported(settings, After(settings, s, now, route.quiet), now, route.loud.value); }
  }

  /** An attempt's checkpoints grow by what a call says of it, if let through, and by nothing else. */
  lemma CallExtends(settings: Settings, s: Ledger, now: Time, call: Call, a: Ref)
    requires ValidSettings(settings) && Linked(s.queue) && Counted(s)
    ensures Extends(CheckpointsOf(s.queue, a), CheckpointsOf(Step(settings, s, now, call).ledger.queue, a),
                    Accepts(s, now, call, a))
  {
    hide SubmitCheckpoint, CompleteAttempt, IsLetThrough, Keeps, Linked, Counted, CheckpointsOf;
    match call
    case CheckpointCall(b, req) => ReportExtends(s, now, b, req, a);
    case CompleteCall(b, req) => CompletionExtends(s, now, b, req, a);
    case _ =>
      OthersKeepLists(settings, s, now, call);
      SameLists(s.queue, Step(settings, s, now, call).ledger.queue, a);
  }

  // Runs

  /** What was said of attempt `a` in the run, as far as it was let through, in order. */
  ghost function Sayings(settings: Settings, events: seq<Event>, a: Ref): seq<Said>
    decreases |events|
  {
    if events == [] then [] else
    var n := |events| - 1;
    var latest := Accepts(Run(settings, events[..n]), events[n].now, events[n].call, a);
    Sayings(settings, events[..n], a) + if latest.Some? then [latest.value] else []
  }

  ghost predicate KeepAll(items: seq<Checkpoint>, sayings: seq<Said>) {
    |items| == |sayings| && forall i :: 0 <= i < |items| ==> Keeps(items[i], sayings[i])
  }

  lemma KeepOneMore(items: seq<Checkpoint>, items': seq<Checkpoint>, sayings: seq<Said>, said: Option<Said>)
    requires KeepAll(items, sayings) && Extends(items, items', said)
    ensures KeepAll(items', sayings + if said.Some? then [said.value] else [])
  {
    hide Keeps;
    var sayings' := sayings + if said.Some? then [said.value] else [];
    forall i | 0 <= i < |items'| ensures Keeps(items'[i], sayings'[i]) {
      if i < |items| { assert items'[i] == items'[..|items|][i]; }
    }
  }

  /** In every run, an attempt's checkpoints keep what was said of it, word for word and in order. */
  lemma {:induction false} CheckpointsKeepSayings(settings: Settings, events: seq<Event>, a: Ref)
    requires ValidSettings(settings)
    ensures KeepAll(CheckpointsOf(Run(settings, events).queue, a), Sayings(settings, events, a))
    decreases |events|
  {
    hide Step, Good, Accepts, KeepAll, Extends;
    if events == [] {
      NothingKept(a);
    } else {
      var n := |events| - 1;
      var s := Run(settings, events[..n]);
      CheckpointsKeepSayings(settings, events[..n], a);
      RunIsGood(settings, events[..n]);
      GoodLinks(settings, s);
      CallExtends(settings, s, events[n].now, events[n].call, a);
      KeepOneMore(CheckpointsOf(s.queue, a), CheckpointsOf(Run(settings, events).queue, a), Sayings(settings, events[..n], a),
                  Accepts(s, events[n].now, events[n].call, a));
    }
  }

  lemma NothingKept(a: Ref)
    ensures KeepAll(CheckpointsOf(EMPTY_LEDGER.queue, a), [])
  {
  }

  /** What the claim hands over is the last thing said, or nothing when nothing was. */
  predicate HandsOverSaying(claim: ClaimResult, sayings: seq<Said>) {
    if sayings == [] then claim.lastCheckpointRef == "" && claim.resumeSummary == "" && claim.resumeArtifactRefs == []
    else
      var last := sayings[|sayings| - 1];
      claim.resumeSummary == last.summary && claim.resumeArtifactRefs == last.artifactRefs
  }

  /**
   * In every run a takeover hands over the summary and the artifacts of the last report that the previous attempt got
   * through.
   */
  lemma TakeoverHandsOverSayings(settings: Settings, events: seq<Event>)
    requires ValidSettings(settings) && events != []
    requires LastReply(settings, events).Granted? && LastReply(settings, events).claim.takeover
    ensures var before, claim := events[..|events| - 1], LastReply(settings, events).claim;
            var r := claim.message.messageRef;
            && r in Run(settings, before).queue.messages
            && HandsOverSaying(claim, Sayings(settings, before, Run(settings, before).queue.messages[r].attemptRef))
  {
    var n := |events| - 1;
    var before := events[..n];
    var s := Run(settings, before);
    var claim := LastReply(settings, events).claim;
    RunIsGood(settings, before);
    OnlyClaimsGrant(settings, s, events[n].now, events[n].call);
    TakeoverHandsOver(settings, s, events[n].now, events[n].call);
    var prev := s.queue.messages[claim.message.messageRef].attemptRef;
    CheckpointsKeepSayings(settings, before, prev);
    hide Step, Run, LastReply, Good, Sayings;
  }

  /** In every run, whoever gets a report through on an attempt is the endpoint that was granted it. */
  lemma OnlyClaimerReports(settings: Settings, events: seq<Event>, a: Ref) returns (j: nat)
    requires ValidSettings(settings) && events != []
    requires var n := |events| - 1; Accepts(Run(settings, events[..n]), events[n].now, events[n].call, a).Some?
    ensures var n := |events| - 1;
            var said := Accepts(Run(settings, events[..n]), events[n].now, events[n].call, a).value;
            var q := Run(settings, events[..n]).queue;
            j < n && a in q.attempts && GrantedAt(settings, events[..n], j, a, q.attempts[a].messageRef, said.endpointRef)
  {
    var n := |events| - 1;
    hide Step, Run;
    j := AttemptsAreTheClaimers(settings, events[..n], a);
  }

  // The state of an attempt

  /** The state is kept, or the attempt is taken from its worker. */
  predicate KeptOrTaken(before: AttemptState, after: AttemptState) {
    after == before || after == Orphaned || after == AttemptState.Canceled
  }

  lemma MoveKeepsOrTakes(settings: Settings, s: Ledger, now: Time, move: Move, a: Ref)
    requires Linked(s.queue) && Enabled(settings, s, now, move) && a in s.queue.attempts && !move.Report?
    ensures a in Apply(settings, s, now, move).queue.attempts
    ensures KeptOrTaken(s.queue.attempts[a].state, Apply(settings, s, now, move).queue.attempts[a].state)
  {
    AttemptKept(settings, s, now, move, a);
    if Claiming(move) {
      ClaimKeepsOrTakes(settings, s, now, move, a);
    } else {
      OtherKeepsOrTakes(settings, s, now, move, a);
    }
  }

  lemma ClaimKeepsOrTakes(settings: Settings, s: Ledger, now: Time, move: Move, a: Ref)
    requires Claiming(move)
    requires Linked(s.queue) && Enabled(settings, s, now, move) && a in s.queue.attempts
    ensures a in Apply(settings, s, now, move).queue.attempts
    ensures KeptOrTaken(s.queue.attempts[a].state, Apply(settings, s, now, move).queue.attempts[a].state)
  {
    assert CurrentStored(s.queue, move.messageRef);
  }

  lemma OtherKeepsOrTakes(settings: Settings, s: Ledger, now: Time, move: Move, a: Ref)
    requires !Claiming(move) && !move.Report?
    requires Linked(s.queue) && Enabled(settings, s, now, move) && a in s.queue.attempts
    ensures a in Apply(settings, s, now, move).queue.attempts
    ensures KeptOrTaken(s.queue.attempts[a].state, Apply(settings, s, now, move).queue.attempts[a].state)
  {
  }

  lemma {:induction false} PathKeepsOrTakes(settings: Settings, s: Ledger, now: Time, moves: seq<Move>, a: Ref)
    requires ValidSettings(settings) && Linked(s.queue) && Path(settings, s, now, moves) && a in s.queue.attempts
    requires forall i :: 0 <= i < |moves| ==> !moves[i].Report?
    ensures Linked(After(settings, s, now, moves).queue) && a in After(settings, s, now, moves).queue.attempts
    ensures KeptOrTaken(s.queue.attempts[a].state, After(settings, s, now, moves).queue.attempts[a].state)
    decreases |moves|
  {
    hide Apply, Enabled, Linked;
    if moves != [] {
      MoveKeepsOrTakes(settings, s, now, moves[0], a);
      MoveKeepsLinked(settings, s, now, moves[0]);
      PathKeepsOrTakes(settings, Apply(settings, s, now, moves[0]), now, moves[1..], a);
    }
  }

  lemma OthersKeepOrTake(settings: Settings, s: Ledger, now: Time, call: Call, a: Ref)
    requires ValidSettings(settings) && Linked(s.queue) && Counted(s) && !call.CheckpointCall? && !call.CompleteCall?
    requires a in s.queue.attempts && a in Step(settings, s, now, call).ledger.queue.attempts
    ensures KeptOrTaken(s.queue.attempts[a].state, Step(settings, s, now, call).ledger.queue.attempts[a].state)
  {
    hide Step, Apply, Enabled, Linked, Counted;
    var route := CallRoute(settings, s, now, call);
    PathKeepsOrTakes(settings, s, now, route.quiet, a);
    if route.loud.Some? { MoveKeepsOrTakes(settings, After(settings, s, now, route.quiet), now, route.loud.value, a); }
  }

  /** What the call says of the attempt is its state from then on. */
  predicate StateHeard(before: AttemptState, after: AttemptState, said: Option<Said>) {
    match said
    case None => KeptOrTaken(before, after)
    case Some(words) => after == words.state
  }

  lemma ReportIsHeard(s: Ledger, now: Time, b: Ref, req: CheckpointRequest, a: Ref)
    requires Linked(s.queue) && a in s.queue.attempts
    ensures var attempts := SubmitCheckpoint(s, now, b, req).ledger.queue.attempts;
            a in attempts
            && StateHeard(s.queue.attempts[a].state, attempts[a].state,
                          if b == a && IsLetThrough(s, now, a, req) then Some(SaidBy(req)) else None)
  {
    CheckpointRecords(s, now, b, req);
    hide SubmitCheckpoint, IsLetThrough, Keeps, Linked, CheckpointsOf, LeadsTo;
  }

  lemma CompletionIsHeard(s: Ledger, now: Time, b: Ref, req: CompletionRequest, a: Ref)
    requires Linked(s.queue) && a in s.queue.attempts
    ensures var attempts := CompleteAttempt(s, now, b, req).ledger.queue.attempts;
            a in attempts && StateHeard(s.queue.attempts[a].state, attempts[a].state, Accepts(s, now, CompleteCall(b, req), a))
  {
    if req.endpointRef != "" && req.summary != "" {
      CompletionKeepsAttempts(s, now, b, req);
      ReportIsHeard(s, now, b, CompletionCheckpoint(req), a);
    }
    hide SubmitCheckpoint, Linked, StateHeard;
  }

  lemma CompletionKeepsAttempts(s: Ledger, now: Time, b: Ref, req: CompletionRequest)
    requires req.endpointRef != "" && req.summary != ""
    ensures CompleteAttempt(s, now, b, req).ledger.queue.attempts
            == SubmitCheckpoint(s, now, b, CompletionCheckpoint(req)).ledger.queue.attempts
  {
    var turn := SubmitCheckpoint(s, now, b, CompletionCheckpoint(req));
    if !turn.reply.Refused? {
      var parent := turn.ledger.queue.messages[s.queue.attempts[b].messageRef];
      var posts := FollowUps(req.followUps, req.endpointRef, parent);
      assert CompleteAttempt(s, now, b, req).ledger == PostAll(turn.ledger, posts).ledger;
      hide CompleteAttempt, SubmitCheckpoint, FollowUps, PostAll;
      PostsStore(turn.ledger, posts);
    }
  }

  lemma CallIsHeard(settings: Settings, s: Ledger, now: Time, call: Call, a: Ref)
    requires ValidSettings(settings) && Linked(s.queue) && Counted(s) && a in s.queue.attempts
    requires a in Step(settings, s, now, call).ledger.queue.attempts
    ensures StateHeard(s.queue.attempts[a].state, Step(settings, s, now, call).ledger.queue.attempts[a].state,
                       Accepts(s, now, call, a))
  {
    hide SubmitCheckpoint, CompleteAttempt, IsLetThrough, Linked, Counted;
    match call
    case CheckpointCall(b, req) => ReportIsHeard(s, now, b, req, a);
    case CompleteCall(b, req) => CompletionIsHeard(s, now, b, req, a);
    case _ => OthersKeepOrTake(settings, s, now, call, a);
  }

  function StateSaid(sayings: seq<Said>): AttemptState {
    if sayings == [] then AttemptState.Claimed else sayings[|sayings| - 1].state
  }

  /** Nothing gets through about an attempt before it is granted. */
  lemma {:induction false} NothingSaidBefore(settings: Settings, events: seq<Event>, a: Ref)
    requires ValidSettings(settings) && a !in Run(settings, events).queue.attempts
    ensures Sayings(settings, events, a) == []
    decreases |events|
  {
    hide Step, Good;
    if events != [] {
      var n := |events| - 1;
      var s := Run(settings, events[..n]);
      RunIsGood(settings, events[..n]);
      GoodLinks(settings, s);
      CallEvolves(settings, s, events[n].now, events[n].call);
      assert a in s.queue.attempts ==>
          AttemptEvolves(s.queue, events[n].now, Run(settings, events).queue, events[n].now, a);
      NothingSaidBefore(settings, events[..n], a);
      OnlyGrantedSpeak(s, events[n].now, events[n].call, a);
    }
  }

  lemma OnlyGrantedSpeak(s: Ledger, now: Time, call: Call, a: Ref)
    requires a !in s.queue.attempts
    ensures Accepts(s, now, call, a).None?
  {
  }

  /**
   * In every run an attempt is in the state last reported of it, or claimed before any report, unless it was taken
   * away.
   */
  lemma {:induction false} StatesAreSaid(settings: Settings, events: seq<Event>, a: Ref)
    requires ValidSettings(settings) && a in Run(settings, events).queue.attempts
    ensures KeptOrTaken(StateSaid(Sayings(settings, events, a)), Run(settings, events).queue.attempts[a].state)
    decreases |events|
  {
    hide Step, Good, Accepts, EndpointsNamed, HandsTo;
    assert events != [];
    var n := |events| - 1;
    var before := events[..n];
    var s := Run(settings, before);
    RunIsGood(settings, before);
    GoodLinks(settings, s);
    if a in s.queue.attempts {
      StatesAreSaid(settings, before, a);
      CallIsHeard(settings, s, events[n].now, events[n].call, a);
    } else {
      RunEndpointsNamed(settings, before);
      NothingSaidBefore(settings, before, a);
      OnlyGrantedSpeak(s, events[n].now, events[n].call, a);
      NewAttemptIsGranted(settings, s, events[n].now, events[n].call, a);
      GrantIsTheClaimers(settings, s, events[n].now, events[n].call);
      var claim := LastReply(settings, events).claim;
      HandedClaimed(Run(settings, events).queue, claim, claim.message.messageRef, Claimer(events[n].call),
                    events[n].now + settings.leaseDuration);
    }
  }

  lemma HandedClaimed(q: Queue, claim: ClaimResult, r: Ref, e: Ref, lease: Time)
    requires HandsTo(q, claim, r, e, lease)
    ensures var a := claim.attempt.attemptRef; a in q.attempts && q.attempts[a].state == AttemptState.Claimed
  {
  }
}
