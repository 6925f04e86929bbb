// Runs of the service over the SQLite tables against runs over memory: from an
// empty database no statement ever meets a constraint, and the tables stand
// for the ledger at every point.
module SqlRuns {
  import opened Wrappers
  import opened Domain
  import opened Routing
  import opened QueueModel
  import opened Calls
  import opened Links
  import opened Protocol
  import opened Polling
  import opened TaskSteps
  import opened Outcomes
  import opened SqliteTables
  import opened SqliteRows
  import opened SqlCalls
  import opened Reachable
  import opened Runs
  import opened Text
  import Refs

  /** Every column of every table repeats what the body beside it says. */
  ghost predicate Sound(d: Database) {
    && Indexed(d.core)
    && (forall v :: v in d.artifacts ==> d.artifacts[v] == ArtifactRowOf(d.artifacts[v].body))
    && (forall e :: e in d.sideEffects ==> d.sideEffects[e] == EffectRowOf(d.sideEffects[e].body))
  }

  /** The ledger that the database stands for. */
  ghost function View(d: Database): Ledger
    requires Sound(d)
  {
    Bodies(d).(queue := Decoded(d.core))
  }

  /** The call over the tables did what the call over memory does to the ledger they stand for. */
  ghost predicate Mirrors(sql: SqlTurn, turn: Turn) {
    Sound(sql.db) && View(sql.db) == turn.ledger && sql.reply == turn.reply
  }

  /** Reads see the ledger, its checkpoint lists aside. */
  lemma ReadsAreView(d: Database)
    requires Sound(d)
    ensures Bodies(d) == View(d).(queue := View(d).queue.(checkpoints := map[]))
    ensures View(d).queue == Decoded(d.core)
  {
    RowsDecoded(d.core);
    hide CheckpointsIndexed, Histories;
  }

  lemma ViewParts(d: Database)
    requires Sound(d)
    ensures View(d).queue == Decoded(d.core) && View(d).endpoints == d.endpoints && View(d).approvals == d.approvals
    ensures Indexed(d.core)
    ensures View(d).artifacts.Keys == d.artifacts.Keys && View(d).sideEffects.Keys == d.sideEffects.Keys
    ensures forall e :: e in d.sideEffects ==> View(d).sideEffects[e] == d.sideEffects[e].body
  {
    hide Indexed, Decoded;
  }

  lemma ViewCore(d: Database)
    requires Sound(d)
    ensures View(d).queue == Decoded(d.core) && View(d).endpoints == d.endpoints && Indexed(d.core)
  {
    hide Indexed, Decoded;
  }

  lemma CoreWritten(d: Database, t: Tables)
    requires Sound(d) && Indexed(t)
    ensures Sound(d.(core := t)) && View(d.(core := t)) == View(d).(queue := Decoded(t))
  {
    hide Indexed, Decoded;
  }

  // Ingress

  lemma DraftDecoded(t: Tables, req: IngressRequest)
    requires Indexed(t)
    ensures var draft := DraftRows(t, req);
            && Indexed(draft.tables) && Decoded(draft.tables) == IngressCounted(Decoded(t), req)
            && draft.message == NewMessage(Decoded(t), req)
  {
    hide Indexed, Decoded, DrawRef;
    var named := if req.messageRef == "" then DrawRef(t, Refs.Kind.Message) else Drawn(t, req.messageRef);
    RefWrite(t, Refs.Kind.Message);
    RefWrite(named.tables, Refs.Kind.Delivery);
    RefWrite(DrawRef(named.tables, Refs.Kind.Delivery).tables, Refs.Kind.QualityDecision);
  }

  lemma RouteReads(d: Database, req: IngressRequest)
    requires Sound(d)
    ensures RouteAvailable(Bodies(d), req) == RouteAvailable(View(d), req)
  {
    ReadsAreView(d);
    hide Sound, View, Bodies, Decoded, CanHandle;
  }

  lemma IngressMirrored(d: Database, req: IngressRequest)
    requires Sound(d)
    ensures Mirrors(SqlIngress(d, req), Ingress(View(d), req))
  {
    ReadsAreView(d);
    RouteReads(d, req);
    var draft := DraftRows(d.core, req);
    assert Indexed(d.core);
    hide Sound, View, Bodies, Indexed, Decoded, DrawRef, DraftRows, InsertMessage, RouteAvailable, ValidIngress,
      NewMessage, IngressCounted;
    DraftDecoded(d.core, req);
    MessageInserted(draft.tables, draft.message);
    CoreWritten(d, draft.tables);
    CoreWritten(d, InsertMessage(draft.tables, draft.message).tables);
  }

  lemma {:induction false} PostsMirrored(d: Database, reqs: seq<IngressRequest>)
    requires Sound(d)
    ensures var sql, memory := SqlPostAll(d, reqs), PostAll(View(d), reqs);
            Sound(sql.db) && View(sql.db) == memory.ledger && sql.reply == memory.reply
    decreases |reqs|
  {
    hide SqlIngress, Ingress, Sound, View;
    if reqs != [] {
      IngressMirrored(d, reqs[0]);
      if SqlIngress(d, reqs[0]).reply.Posted? { PostsMirrored(SqlIngress(d, reqs[0]).db, reqs[1..]); }
    }
  }

  lemma ReplayMirrored(d: Database, letter: Ref, accepted: bool)
    requires Sound(d)
    ensures Mirrors(SqlReplay(d, letter, accepted), ReplayDeadLetter(View(d), letter, accepted))
  {
    ReadsAreView(d);
    RowsDecoded(d.core);
    hide Sound, View, Bodies, Indexed, Decoded, SqlIngress, Ingress, ReplayRequest;
    if letter in d.core.deadLetters && d.core.deadLetters[letter].messageRef in d.core.messages {
      IngressMirrored(d, ReplayRequest(d.core.messages[d.core.deadLetters[letter].messageRef].body, accepted));
    }
  }

  // Claims

  lemma ClaimReads(settings: Settings, d: Database, now: Time, r: Ref, e: Ref)
    requires Sound(d)
    ensures ClaimRefusal(settings, Bodies(d), now, r, e) == ClaimRefusal(settings, View(d), now, r, e)
    ensures PollRefusal(settings, Bodies(d), now, e) == PollRefusal(settings, View(d), now, e)
    ensures OnlineEndpoints(settings, Bodies(d), now) == OnlineEndpoints(settings, View(d), now)
  {
    ReadsAreView(d);
    var s, b := View(d), Bodies(d);
    assert forall m: Message :: DependencyStates(b.queue, m) == DependencyStates(s.queue, m);
    hide Sound, View, Bodies, Decoded, IsStale, Claimable, DependenciesCompleted, CanHandle;
  }

  /** Refs just drawn are taken by nothing. */
  lemma DrawnRefsAreFree(settings: Settings, s: Ledger, now: Time, r: Ref, e: Endpoint)
    requires Counted(s)
    ensures !TakenRef(ClaimCounted(s.queue), ServiceClaim(settings, s.queue, now, r, e))
  {
    NextIsFresh(s.queue, Refs.Kind.Attempt);
    NextIsFresh(s.queue, Refs.Kind.DeadLetter);
  }

  lemma TwoRefsDrawn(t: Tables)
    requires Indexed(t)
    ensures var first := DrawRef(t, Refs.Kind.Attempt);
            var second := DrawRef(first.tables, Refs.Kind.DeadLetter);
            && Indexed(second.tables) && Decoded(second.tables) == ClaimCounted(Decoded(t))
            && first.ref == NextRef(Decoded(t), Refs.Kind.Attempt) && second.ref == NextRef(Decoded(t), Refs.Kind.DeadLetter)
  {
    hide Indexed, Decoded, DrawRef;
    RefWrite(t, Refs.Kind.Attempt);
    RefWrite(DrawRef(t, Refs.Kind.Attempt).tables, Refs.Kind.DeadLetter);
  }

  /** The drawn request's claim, on tables and in memory. */
  lemma DrawnClaimsAgree(settings: Settings, d: Database, now: Time, r: Ref, e: Endpoint)
    requires Sound(d) && Counted(View(d))
    ensures var second := DrawRef(DrawRef(d.core, Refs.Kind.Attempt).tables, Refs.Kind.DeadLetter);
            var c := ServiceClaim(settings, View(d).queue, now, r, e);
            var sql, memory := SqlClaim(second.tables, c), Claim(ClaimCounted(View(d).queue), c);
            && sql.reply == memory.reply && Sound(d.(core := sql.tables))
            && View(d.(core := sql.tables)) == View(d).(queue := memory.queue)
  {
    ViewCore(d);
    hide Sound, View, Bodies, Indexed, Decoded, DrawRef, SqlClaim, Claim, TakenRef, Counted;
    var second := DrawRef(DrawRef(d.core, Refs.Kind.Attempt).tables, Refs.Kind.DeadLetter);
    var c := ServiceClaim(settings, View(d).queue, now, r, e);
    TwoRefsDrawn(d.core);
    DrawnRefsAreFree(settings, View(d), now, r, e);
    ClaimsAgreeIff(second.tables, c);
    CoreWritten(d, SqlClaim(second.tables, c).tables);
  }

  lemma ClaimMirrored(settings: Settings, d: Database, now: Time, r: Ref, e: Ref)
    requires Sound(d) && Counted(View(d))
    ensures Mirrors(SqlClaimMessage(settings, d, now, r, e), ClaimMessage(settings, View(d), now, r, e))
  {
    ViewCore(d);
    ClaimReads(settings, d, now, r, e);
    hide Sound, View, Bodies, Indexed, Decoded, DrawRef, SqlClaim, Claim, Counted;
    TwoRefsDrawn(d.core);
    if ClaimRefusal(settings, View(d), now, r, e).None? {
      DrawnClaimsAgree(settings, d, now, r, d.endpoints[e]);
    }
    hide ClaimRefusal;
  }

  lemma PollPickIsFree(settings: Settings, s: Ledger, now: Time, e: Endpoint, c: ClaimNextRequest)
    requires ValidSettings(settings) && Linked(s.queue) && Counted(s)
    requires c.attemptRef == "" && c.deadLetterRef == "" && NextEligible(s.queue, c).Some?
    requires c == PollRequest(settings, s, now, e)
    ensures var r := NextEligible(s.queue, c).value;
            && r in s.queue.messages && Takeable(s.queue, r)
            && !TakenRef(WithRefs(s.queue, c), DirectRequest(s.queue, r, c))
  {
    var r := NextEligible(s.queue, c).value;
    NextEligibleIsEligible(s.queue, c);
    assert CurrentStored(s.queue, r);
    PollDrawsBothRefs(s.queue, settings, s, now, e, r);
    DrawnRefsAreFree(settings, s, now, r, e);
    hide NextEligible, Linked, Counted, TakenRef;
  }

  lemma SweepKeepsBoth(settings: Settings, s: Ledger, now: Time)
    requires ValidSettings(settings) && Linked(s.queue) && Counted(s)
    ensures Linked(Reconcile(s.queue, now)) && Counted(s.(queue := Reconcile(s.queue, now)))
  {
    SweepKeepsLinked(s.queue, now);
    MoveKeepsCounted(settings, s, now, Sweep);
    hide Linked, Counted, Reconcile;
  }

  /** The poll of the swept tables, and of the swept queue. */
  lemma SweptPollsAgree(settings: Settings, d: Database, now: Time, e: Endpoint)
    requires ValidSettings(settings) && Sound(d) && Linked(View(d).queue) && Counted(View(d))
    ensures var c := PollRequest(settings, View(d), now, e);
            var sql, memory := SqlClaimNext(ReconcileRows(d.core, now), c), ClaimNext(Reconcile(View(d).queue, now), c);
            && sql.reply == Ok(memory.reply) && Sound(d.(core := sql.tables))
            && View(d.(core := sql.tables)) == View(d).(queue := memory.queue)
  {
    ViewCore(d);
    var s := View(d);
    var swept := s.(queue := Reconcile(s.queue, now));
    var c := PollRequest(settings, s, now, e);
    assert c == PollRequest(settings, swept, now, e);
    hide Sound, View, Bodies, Indexed, Decoded, NextEligible, ClaimNext, SqlClaimNext, Linked, Counted, Reconcile,
      ReconcileRows, TakenRef, Takeable, WithRefs, DirectRequest, OnlineEndpoints;
    SweepKeepsBoth(settings, s, now);
    ReconcileDecoded(d.core, now);
    PollsAgreeIff(ReconcileRows(d.core, now), c);
    if NextEligible(swept.queue, c).Some? { PollPickIsFree(settings, swept, now, e, c); }
    CoreWritten(d, SqlClaimNext(ReconcileRows(d.core, now), c).tables);
  }

  lemma PollMirrored(settings: Settings, d: Database, now: Time, e: Ref)
    requires ValidSettings(settings) && Sound(d) && Linked(View(d).queue) && Counted(View(d))
    ensures Mirrors(SqlClaimNextMessage(settings, d, now, e), ClaimNextMessage(settings, View(d), now, e))
  {
    ViewCore(d);
    ClaimReads(settings, d, now, "", e);
    hide Sound, View, Bodies, Indexed, Decoded, ClaimNext, SqlClaimNext, Linked, Counted, Reconcile, ReconcileRows,
      OnlineEndpoints;
    if PollRefusal(settings, View(d), now, e).None? {
      SweptPollsAgree(settings, d, now, d.endpoints[e]);
      var c := PollRequest(settings, View(d), now, d.endpoints[e]);
      assert c == PollRequest(settings, Bodies(d), now, d.endpoints[e]);
      hide PollRequest, PollRefusal, IsStale;
      var memory := ClaimNext(Reconcile(View(d).queue, now), c);
      var turn := SqlTurn(d.(core := SqlClaimNext(ReconcileRows(d.core, now), c).tables),
                          if memory.reply.Some? then Granted(memory.reply.value) else NothingToClaim);
      assert SqlClaimNextMessage(settings, d, now, e) == turn;
      assert ClaimNextMessage(settings, View(d), now, e) == Turn(View(d).(queue := memory.queue), turn.reply);
      hide SqlClaimNextMessage, Calls.ClaimNextMessage;
    }
  }

  lemma ReconcileMirrored(d: Database, now: Time)
    requires Sound(d)
    ensures Mirrors(SqlReconcile(d, now), ReconcileExpiredClaims(View(d), now))
  {
    ReadsAreView(d);
    ReconcileDecoded(d.core, now);
    CoreWritten(d, ReconcileRows(d.core, now));
    hide Sound, View, Bodies, Indexed, Decoded, ReconcileRows, ExpiredRows, Reconcile, ExpiredClaims;
  }

  // Attempts

  lemma AttemptReads(d: Database, now: Time, a: Ref, e: Ref)
    requires Sound(d)
    ensures LiveRefusal(Bodies(d).queue, now, a, e) == LiveRefusal(View(d).queue, now, a, e)
  {
    ReadsAreView(d);
    hide Sound, View, Bodies, Decoded;
  }

  lemma CheckpointReads(d: Database, now: Time, a: Ref, req: CheckpointRequest)
    requires Sound(d)
    ensures CheckpointRefusal(Bodies(d), now, a, req) == CheckpointRefusal(View(d), now, a, req)
  {
    ReadsAreView(d);
    hide Sound, View, Bodies, Decoded, ValidCheckpoint;
  }

  lemma CheckpointRefIsFree(s: Ledger)
    requires Counted(s)
    ensures !CheckpointRefUsed(s.queue, NextRef(s.queue, Refs.Kind.Checkpoint))
  {
    NextIsFresh(s.queue, Refs.Kind.Checkpoint);
  }

  function BlankCheckpoint(ref: Ref, a: Attempt, req: CheckpointRequest): Checkpoint {
    Checkpoint(ref, a.attemptRef, req.endpointRef, req.state, req.summary, 0, req.artifactRefs)
  }

  lemma CheckpointAppended(t: Tables, a: Attempt, req: CheckpointRequest)
    requires Indexed(t) && !CheckpointRefUsed(Decoded(t), NextRef(Decoded(t), Refs.Kind.Checkpoint))
    ensures var drawn := DrawRef(t, Refs.Kind.Checkpoint);
            var saved := InsertCheckpoint(drawn.tables, BlankCheckpoint(drawn.ref, a, req));
            var c := NewCheckpoint(Decoded(t), a, req);
            && saved.reply == Ok(c) && Indexed(saved.tables)
            && Decoded(saved.tables) == AppendCheckpoint(Bump(Decoded(t), Refs.Kind.Checkpoint), c)
            && saved.tables.messages == t.messages && saved.tables.attempts == t.attempts
  {
    var q, drawn := Decoded(t), DrawRef(t, Refs.Kind.Checkpoint);
    var blank := BlankCheckpoint(drawn.ref, a, req);
    RefWrite(t, Refs.Kind.Checkpoint);
    BumpKeepsCheckpoints(q, a.attemptRef, drawn.ref);
    hide Indexed, Decoded, DrawRef, InsertCheckpoint, CheckpointRefUsed, AppendCheckpoint, CheckpointsOf, Bump, NextRef;
    CheckpointWrite(drawn.tables, blank);
    InsertLeavesRest(drawn.tables, blank);
    AppendIgnoresRevision(Bump(q, Refs.Kind.Checkpoint), blank, NewCheckpoint(q, a, req));
  }

  /** The checkpoint's row and the attempt's, as the one step of the ledger has them. */
  lemma ReportDecoded(t: Tables, a: Attempt, req: CheckpointRequest)
    requires Indexed(t) && a.attemptRef in t.attempts
    requires !CheckpointRefUsed(Decoded(t), NextRef(Decoded(t), Refs.Kind.Checkpoint))
    ensures var drawn := DrawRef(t, Refs.Kind.Checkpoint);
            var saved := InsertCheckpoint(drawn.tables, BlankCheckpoint(drawn.ref, a, req));
            && saved.reply == Ok(NewCheckpoint(Decoded(t), a, req))
            && var w := UpdateAttempt(saved.tables, a.(state := req.state, revision := saved.reply.value.revision));
               && Indexed(w.tables) && w.error == None && Decoded(w.tables) == WithCheckpoint(Decoded(t), a, req)
               && w.tables.messages == t.messages
  {
    CheckpointAppended(t, a, req);
    hide Indexed, Decoded, DrawRef, InsertCheckpoint, CheckpointRefUsed, NewCheckpoint, AppendCheckpoint, Bump,
      PutAttempt, BlankCheckpoint;
    var drawn := DrawRef(t, Refs.Kind.Checkpoint);
    var saved := InsertCheckpoint(drawn.tables, BlankCheckpoint(drawn.ref, a, req));
    AttemptRow(saved.tables, a.attemptRef);
    AttemptUpdated(saved.tables, a.(state := req.state, revision := saved.reply.value.revision));
  }

  lemma BumpKeepsCheckpoints(q: Queue, a: Ref, ref: Ref)
    ensures var b := Bump(q, Refs.Kind.Checkpoint);
            CheckpointRefUsed(b, ref) == CheckpointRefUsed(q, ref) && CheckpointsOf(b, a) == CheckpointsOf(q, a)
  {
  }

  lemma InsertLeavesRest(t: Tables, c: Checkpoint)
    ensures var s := InsertCheckpoint(t, c); s.tables == t.(checkpoints := s.tables.checkpoints)
  {
  }

  /** The three records written, when the attempt's message is stored. */
  lemma ReportedRows(t: Tables, a: Attempt, req: CheckpointRequest)
    requires Indexed(t) && a.attemptRef in t.attempts && a.messageRef in t.messages
    requires !CheckpointRefUsed(Decoded(t), NextRef(Decoded(t), Refs.Kind.Checkpoint))
    ensures var drawn := DrawRef(t, Refs.Kind.Checkpoint);
            var saved := InsertCheckpoint(drawn.tables, BlankCheckpoint(drawn.ref, a, req));
            && saved.reply == Ok(NewCheckpoint(Decoded(t), a, req))
            && var w := UpdateAttempt(saved.tables, a.(state := req.state, revision := saved.reply.value.revision));
               && w.error == None && GetMessage(w.tables, a.messageRef) == GetMessage(t, a.messageRef)
               && var m := t.messages[a.messageRef].body;
                  var moved := m.(state := StateAfterCheckpoint(m.state, req.state));
                  var u := UpdateMessage(w.tables, moved);
                  && u.error == None && Indexed(u.tables)
                  && Decoded(u.tables) == PutMessage(WithCheckpoint(Decoded(t), a, req), moved)
  {
    ReportDecoded(t, a, req);
    RowsDecoded(t);
    hide Indexed, Decoded, DrawRef, InsertCheckpoint, UpdateAttempt, CheckpointRefUsed, NewCheckpoint, WithCheckpoint,
      StateAfterCheckpoint;
    var drawn := DrawRef(t, Refs.Kind.Checkpoint);
    var saved := InsertCheckpoint(drawn.tables, BlankCheckpoint(drawn.ref, a, req));
    var w := UpdateAttempt(saved.tables, a.(state := req.state, revision := saved.reply.value.revision));
    var m := t.messages[a.messageRef].body;
    MessageUpdated(w.tables, m.(state := StateAfterCheckpoint(m.state, req.state)));
  }

  lemma AcceptedCheckpoint(s: Ledger, now: Time, a: Ref, req: CheckpointRequest)
    requires Linked(s.queue) && CheckpointRefusal(s, now, a, req).None?
    ensures a in s.queue.attempts && s.queue.attempts[a].messageRef in s.queue.messages
    ensures var b := s.queue.attempts[a];
            var m := s.queue.messages[b.messageRef];
            SubmitCheckpoint(s, now, a, req) ==
              Turn(s.(queue := PutMessage(WithCheckpoint(s.queue, b, req), m.(state := StateAfterCheckpoint(m.state, req.state)))),
                   Checkpointed(NewCheckpoint(s.queue, b, req)))
  {
    hide CheckpointsOf, StateAfterCheckpoint, NewCheckpoint, ArtifactsOfMessage;
  }

  /** The statements of an accepted checkpoint, end to end. */
  lemma CheckpointRun(d: Database, now: Time, a: Ref, req: CheckpointRequest)
    requires Indexed(d.core) && CheckpointRefusal(Bodies(d), now, a, req).None?
    requires a in d.core.attempts && d.core.attempts[a].body.attemptRef == a
    requires d.core.attempts[a].body.messageRef in d.core.messages
    requires !CheckpointRefUsed(Decoded(d.core), NextRef(Decoded(d.core), Refs.Kind.Checkpoint))
    ensures var t, b := SqlSubmitCheckpoint(d, now, a, req).db.core, d.core.attempts[a].body;
            var m := d.core.messages[b.messageRef].body;
            && Indexed(t)
            && Decoded(t) == PutMessage(WithCheckpoint(Decoded(d.core), b, req), m.(state := StateAfterCheckpoint(m.state, req.state)))
            && SqlSubmitCheckpoint(d, now, a, req)
               == SqlTurn(d.(core := t), Checkpointed(NewCheckpoint(Decoded(d.core), b, req)))
  {
    hide Bodies, Indexed, Decoded, DrawRef, InsertCheckpoint, UpdateAttempt, UpdateMessage, CheckpointRefusal,
      NewCheckpoint, WithCheckpoint, CheckpointRefUsed, PutMessage, StateAfterCheckpoint, NextRef;
    ReportedRows(d.core, d.core.attempts[a].body, req);
  }

  lemma CheckpointMirrored(d: Database, now: Time, a: Ref, req: CheckpointRequest)
    requires Sound(d) && Linked(View(d).queue) && Counted(View(d))
    ensures Mirrors(SqlSubmitCheckpoint(d, now, a, req), SubmitCheckpoint(View(d), now, a, req))
  {
    ViewCore(d);
    CheckpointReads(d, now, a, req);
    AttemptRow(d.core, a);
    CheckpointRefIsFree(View(d));
    hide Sound, View, Bodies, Indexed, Decoded, CheckpointRefusal, NewCheckpoint, WithCheckpoint, CheckpointRefUsed,
      Counted, Linked, PutMessage, StateAfterCheckpoint, NextRef, InsertCheckpoint, UpdateAttempt, UpdateMessage,
      DrawRef;
    if CheckpointRefusal(View(d), now, a, req).None? {
      AcceptedCheckpoint(View(d), now, a, req);
      MessageRow(d.core, d.core.attempts[a].body.messageRef);
      CheckpointRun(d, now, a, req);
      hide SqlSubmitCheckpoint, SubmitCheckpoint;
      CoreWritten(d, SqlSubmitCheckpoint(d, now, a, req).db.core);
    }
  }

  lemma RefreshMirrored(settings: Settings, d: Database, now: Time, a: Ref, e: Ref)
    requires Sound(d)
    ensures Mirrors(SqlRefresh(settings, d, now, a, e), RefreshLease(settings, View(d), now, a, e))
  {
    ViewCore(d);
    AttemptReads(d, now, a, e);
    AttemptRow(d.core, a);
    hide Sound, View, Bodies, Indexed, Decoded, LiveRefusal, UpdateAttempt, PutAttempt;
    if a in d.core.attempts && e != "" && LiveRefusal(View(d).queue, now, a, e).None? {
      var extended := d.core.attempts[a].body.(leaseExpiresAt := now + settings.leaseDuration);
      var w := UpdateAttempt(d.core, extended);
      AttemptUpdated(d.core, extended);
      CoreWritten(d, w.tables);
      assert SqlRefresh(settings, d, now, a, e) == SqlTurn(d.(core := w.tables), Leased(extended));
      assert RefreshLease(settings, View(d), now, a, e)
             == Turn(View(d).(queue := PutAttempt(View(d).queue, extended)), Leased(extended));
      hide SqlRefresh, Calls.RefreshLease;
    }
  }

  lemma AttemptRow(t: Tables, a: Ref)
    requires Indexed(t)
    ensures a in t.attempts <==> a in Decoded(t).attempts
    ensures a in t.attempts ==> t.attempts[a].body == Decoded(t).attempts[a] && t.attempts[a].body.attemptRef == a
  {
    RowsDecoded(t);
  }

  lemma MessageRow(t: Tables, r: Ref)
    requires Indexed(t)
    ensures r in t.messages <==> r in Decoded(t).messages
    ensures r in t.messages ==> t.messages[r].body == Decoded(t).messages[r] && t.messages[r].body.messageRef == r
  {
    RowsDecoded(t);
  }

  /** Writing back a record that says so already changes nothing. */
  lemma Rewritten(t: Tables, a: Attempt, m: Message)
    requires Indexed(t) && a.attemptRef in t.attempts && t.attempts[a.attemptRef].body == a
    requires StoredRow(t, m)
    ensures UpdateAttempt(t, a) == Written(t, None) && UpdateMessage(t, m) == Written(t, None)
  {
    hide CheckpointsIndexed;
  }

  lemma CompletedBoth(s: Ledger, now: Time, a: Ref, req: CompletionRequest)
    requires Linked(s.queue) && !SubmitCheckpoint(s, now, a, CompletionCheckpoint(req)).reply.Refused?
    ensures var q := SubmitCheckpoint(s, now, a, CompletionCheckpoint(req)).ledger.queue;
            && a in s.queue.attempts && a in q.attempts && q.attempts[a].state == AttemptState.Completed
            && q.attempts[a].messageRef == s.queue.attempts[a].messageRef
            && q.attempts[a].messageRef in q.messages
            && q.messages[q.attempts[a].messageRef].state == MessageState.Completed
  {
    AcceptedCheckpoint(s, now, a, CompletionCheckpoint(req));
  }

  lemma CompletionMirrored(d: Database, now: Time, a: Ref, req: CompletionRequest)
    requires Sound(d) && Linked(View(d).queue) && Counted(View(d))
    ensures Mirrors(SqlCompleteAttempt(d, now, a, req), CompleteAttempt(View(d), now, a, req))
  {
    hide Sound, View, Bodies, Indexed, Decoded, Linked, Counted, SqlSubmitCheckpoint, SubmitCheckpoint, UpdateAttempt,
      UpdateMessage, SqlPostAll, PostAll, FollowUps;
    CheckpointMirrored(d, now, a, CompletionCheckpoint(req));
    var sql := SqlSubmitCheckpoint(d, now, a, CompletionCheckpoint(req));
    if !sql.reply.Refused? {
      ViewParts(sql.db);
      RowsDecoded(sql.db.core);
      CompletedBoth(View(d), now, a, req);
      var b := sql.db.core.attempts[a].body;
      var m := sql.db.core.messages[b.messageRef].body;
      assert b.(state := AttemptState.Completed) == b && m.(state := MessageState.Completed) == m;
      Rewritten(sql.db.core, b, m);
      assert sql.db.(core := sql.db.core) == sql.db;
      PostsMirrored(sql.db, FollowUps(req.followUps, req.endpointRef, m));
    }
  }

  // Task commands

  /** The loop has canceled just these messages. */
  ghost predicate HasCanceled(t: Tables, p: Progress, done: set<Ref>)
    requires Indexed(t)
  {
    var q := Decoded(t);
    && p.error.None? && Indexed(p.tables) && Decoded(p.tables) == CancelRefs(q, done)
    && p.messageRefs == done && p.attemptRefs == OpenAttempts(q, done)
    && p.affectedMessages == |done| && p.affectedAttempts == |OpenAttempts(q, done)|
  }

  lemma CancelAttemptDecoded(p: Progress, a: Ref)
    requires Indexed(p.tables) && p.error.None?
    ensures var q, p' := Decoded(p.tables), CancelAttemptRow(p, a);
            if OpenIn(q, a) then
              && Indexed(p'.tables) && Decoded(p'.tables) == PutAttempt(q, q.attempts[a].(state := AttemptState.Canceled))
              && p' == p.(tables := p'.tables, attemptRefs := p.attemptRefs + {a}, affectedAttempts := p.affectedAttempts + 1)
            else p' == p
  {
    RowsDecoded(p.tables);
    hide Indexed, Decoded, UpdateAttempt, PutAttempt;
    if OpenIn(Decoded(p.tables), a) {
      AttemptUpdated(p.tables, p.tables.attempts[a].body.(state := AttemptState.Canceled));
    }
  }

  lemma CancelRowDecoded(p: Progress, m: Message)
    requires Indexed(p.tables) && p.error.None? && CancelableState(m.state)
    requires m.messageRef in p.tables.messages && Decoded(p.tables).messages[m.messageRef] == m
    ensures var q, p' := Decoded(p.tables), CancelRow(p, m);
            var open := OpenIn(q, m.attemptRef);
            && Indexed(p'.tables) && Decoded(p'.tables) == CancelOne(q, m.messageRef)
            && p' == p.(tables := p'.tables,
                        messageRefs := p.messageRefs + {m.messageRef},
                        affectedMessages := p.affectedMessages + 1,
                        attemptRefs := p.attemptRefs + (if open then {m.attemptRef} else {}),
                        affectedAttempts := p.affectedAttempts + (if open then 1 else 0))
  {
    var canceled := m.(state := MessageState.Canceled);
    RowsDecoded(p.tables);
    MessageUpdated(p.tables, canceled);
    hide Indexed, Decoded, UpdateMessage, CancelAttemptRow;
    var w := UpdateMessage(p.tables, canceled).tables;
    CancelAttemptDecoded(p.(tables := w, messageRefs := p.messageRefs + {m.messageRef},
                            affectedMessages := p.affectedMessages + 1), m.attemptRef);
  }

  lemma CountedOnce(done: set<Ref>, r: Ref)
    ensures |done + {r}| == |done| + if r in done then 0 else 1
  {
    assert r in done ==> done + {r} == done;
  }

  /** The open attempts so far, after one more message. */
  lemma OpenCounted(q: Queue, done: set<Ref>, r: Ref)
    requires Keyed(q) && r in q.messages && r !in done
    ensures var a, open := q.messages[r].attemptRef, OpenIn(CancelRefs(q, done), q.messages[r].attemptRef);
            && OpenAttempts(q, done + {r}) == OpenAttempts(q, done) + (if open then {a} else {})
            && |OpenAttempts(q, done + {r})| == |OpenAttempts(q, done)| + (if open then 1 else 0)
  {
    hide CancelRefs, OpenAttempts, OpenIn;
    CancelKeeps(q, done, r);
    OpenOneMore(q, done, r);
    CountedOnce(OpenAttempts(q, done), q.messages[r].attemptRef);
    var a := q.messages[r].attemptRef;
    assert OpenIn(q, a) && a in OpenAttempts(q, done) ==> OpenAttempts(q, done) + {a} == OpenAttempts(q, done);
    assert !OpenIn(q, a) ==> OpenAttempts(q, done) + {} == OpenAttempts(q, done);
  }

  lemma CancelPass(t: Tables, p: Progress, done: set<Ref>, r: Ref)
    requires Indexed(t) && HasCanceled(t, p, done) && r in t.messages && r !in done
    requires CancelableState(t.messages[r].body.state)
    ensures HasCanceled(t, CancelRow(p, t.messages[r].body), done + {r})
  {
    var q := Decoded(t);
    MessageRow(t, r);
    DecodedKeyed(t);
    hide Indexed, Decoded, CancelRefs, OpenAttempts, CancelRow, CancelOne, OpenIn, Keyed;
    CancelKeeps(q, done, r);
    CancelOneMore(q, done, r);
    OpenCounted(q, done, r);
    CountedOnce(done, r);
    MessageRow(p.tables, r);
    CancelRowDecoded(p, t.messages[r].body);
  }

  function CancelableAmong(t: Tables, refs: set<Ref>): set<Ref> {
    set r | r in refs && r in t.messages && CancelableState(t.messages[r].body.state)
  }

  lemma {:induction false} CancelLoop(t: Tables, p: Progress, done: set<Ref>, refs: set<Ref>)
    requires Indexed(t) && HasCanceled(t, p, done) && refs <= t.messages.Keys && refs !! done
    ensures HasCanceled(t, CancelRows(p, t.messages, refs), done + CancelableAmong(t, refs))
    decreases refs
  {
    hide Indexed, Decoded, HasCanceled;
    if refs == {} {
      assert done + CancelableAmong(t, refs) == done;
    } else {
      var r := Least(refs);
      if CancelableState(t.messages[r].body.state) {
        CancelPass(t, p, done, r);
        CancelLoop(t, CancelRow(p, t.messages[r].body), done + {r}, refs - {r});
        assert done + {r} + CancelableAmong(t, refs - {r}) == done + CancelableAmong(t, refs);
      } else {
        SkippedPass(t, p, done, t.messages[r].body);
        CancelLoop(t, p, done, refs - {r});
        assert CancelableAmong(t, refs - {r}) == CancelableAmong(t, refs);
      }
    }
  }

  lemma SkippedPass(t: Tables, p: Progress, done: set<Ref>, m: Message)
    ensures !CancelableState(m.state) ==> CancelRow(p, m) == p
    ensures !RetryableState(m.state) ==> RetryRow(p, m) == p
  {
  }

  lemma CancelOutset(t: Tables)
    requires Indexed(t)
    ensures HasCanceled(t, AtOutset(t), {})
  {
    hide Indexed, Decoded;
    CancelNothing(Decoded(t));
  }

  lemma TaskReads(d: Database, task: Ref)
    requires Sound(d)
    ensures TaskRefs(Bodies(d).queue, task) == TaskRefs(View(d).queue, task) <= d.core.messages.Keys
    ensures CancelableAmong(d.core, TaskRefs(View(d).queue, task)) == Cancelable(View(d).queue, task)
    ensures RetryableAmong(d.core, TaskRefs(View(d).queue, task)) == Retryable(View(d).queue, task)
  {
    ReadsAreView(d);
    ViewCore(d);
    RowsDecoded(d.core);
    hide Sound, View, Bodies, Indexed, Decoded;
  }

  lemma CancelMirrored(d: Database, task: Ref)
    requires Sound(d)
    ensures Mirrors(SqlCancelTask(d, task), CancelTask(View(d), task))
  {
    ViewCore(d);
    TaskReads(d, task);
    hide Sound, View, Bodies, Indexed, Decoded, TaskRefs, CancelRows, Cancelable, CancelableAmong, RetryableAmong,
      OpenAttempts, CancelRefs;
    var refs := TaskRefs(View(d).queue, task);
    if task != "" && refs != {} {
      var done, p := Cancelable(View(d).queue, task), CancelRows(AtOutset(d.core), d.core.messages, refs);
      CancelOutset(d.core);
      CancelLoop(d.core, AtOutset(d.core), {}, refs);
      assert {} + done == done;
      CoreWritten(d, p.tables);
      assert SqlCancelTask(d, task) == SqlTurn(d.(core := p.tables), TaskReply(p));
      assert CancelTask(View(d), task).ledger == View(d).(queue := CancelRefs(View(d).queue, done));
      assert CancelTask(View(d), task).reply == TaskReply(p);
      hide SqlCancelTask, CancelTask, HasCanceled, TaskReply;
    }
  }

  /** The loop has reopened just these messages. */
  ghost predicate HasRetried(t: Tables, p: Progress, done: set<Ref>)
    requires Indexed(t)
  {
    && p.error.None? && Indexed(p.tables) && Decoded(p.tables) == RetryRefs(Decoded(t), done)
    && p.messageRefs == done && p.attemptRefs == {} && p.affectedMessages == |done| && p.affectedAttempts == 0
  }

  function RetryableAmong(t: Tables, refs: set<Ref>): set<Ref> {
    set r | r in refs && r in t.messages && RetryableState(t.messages[r].body.state)
  }

  lemma RetryPass(t: Tables, p: Progress, done: set<Ref>, r: Ref)
    requires Indexed(t) && HasRetried(t, p, done) && r in t.messages && r !in done
    requires RetryableState(t.messages[r].body.state)
    ensures HasRetried(t, RetryRow(p, t.messages[r].body), done + {r})
  {
    var reopened := t.messages[r].body.(state := MessageState.Available, attemptRef := "");
    MessageRow(t, r);
    DecodedKeyed(t);
    MessageRow(p.tables, r);
    assert r in RetryRefs(Decoded(t), done).messages;
    hide Indexed, Decoded, RetryRefs, UpdateMessage, Keyed;
    RetryOneMore(Decoded(t), done, r);
    CountedOnce(done, r);
    MessageUpdated(p.tables, reopened);
  }

  lemma {:induction false} RetryLoop(t: Tables, p: Progress, done: set<Ref>, refs: set<Ref>)
    requires Indexed(t) && HasRetried(t, p, done) && refs <= t.messages.Keys && refs !! done
    ensures HasRetried(t, RetryRows(p, t.messages, refs), done + RetryableAmong(t, refs))
    decreases refs
  {
    hide Indexed, Decoded, HasRetried;
    if refs == {} {
      assert done + RetryableAmong(t, refs) == done;
    } else {
      var r := Least(refs);
      if RetryableState(t.messages[r].body.state) {
        RetryPass(t, p, done, r);
        RetryLoop(t, RetryRow(p, t.messages[r].body), done + {r}, refs - {r});
        assert done + {r} + RetryableAmong(t, refs - {r}) == done + RetryableAmong(t, refs);
      } else {
        SkippedPass(t, p, done, t.messages[r].body);
        RetryLoop(t, p, done, refs - {r});
        assert RetryableAmong(t, refs - {r}) == RetryableAmong(t, refs);
      }
    }
  }

  lemma RetryOutset(t: Tables)
    requires Indexed(t)
    ensures HasRetried(t, AtOutset(t), {})
  {
    hide Indexed, Decoded;
    CancelNothing(Decoded(t));
  }

  lemma RetryMirrored(d: Database, task: Ref)
    requires Sound(d)
    ensures Mirrors(SqlRetryTask(d, task), RetryTask(View(d), task))
  {
    ViewCore(d);
    TaskReads(d, task);
    hide Sound, View, Bodies, Indexed, Decoded, TaskRefs, RetryRows, Retryable, RetryableAmong, CancelableAmong,
      RetryRefs;
    var refs := TaskRefs(View(d).queue, task);
    if task != "" && refs != {} {
      var done, p := Retryable(View(d).queue, task), RetryRows(AtOutset(d.core), d.core.messages, refs);
      RetryOutset(d.core);
      RetryLoop(d.core, AtOutset(d.core), {}, refs);
      assert {} + done == done;
      CoreWritten(d, p.tables);
      assert SqlRetryTask(d, task) == SqlTurn(d.(core := p.tables), TaskReply(p));
      hide SqlRetryTask;
    }
  }

  // Endpoints, artifacts, approvals, side effects

  lemma EndpointWritten(d: Database, e: Endpoint)
    requires Sound(d)
    ensures Sound(SaveEndpoint(d, e)) && View(SaveEndpoint(d, e)) == View(d).(endpoints := d.endpoints[e.endpointRef := e])
  {
    hide Indexed, Decoded;
  }

  lemma RegistrationMirrored(settings: Settings, d: Database, now: Time, req: RegistrationRequest)
    requires Sound(d)
    ensures Mirrors(SqlRegister(settings, d, now, req), Register(settings, View(d), now, req))
  {
    ViewCore(d);
    RefWrite(d.core, Refs.Kind.Accepted);
    var e := Endpoint(req.endpointRef, req.actorId, req.connectionState, (set c | c in req.capabilities), now);
    EndpointWritten(d, e);
    CoreWritten(SaveEndpoint(d, e), DrawRef(d.core, Refs.Kind.Accepted).tables);
    hide Sound, View, Indexed, Decoded, DrawRef, ValidRegistration, IsStale, Bump, NextRef;
  }

  lemma EndpointMirrored(settings: Settings, d: Database, now: Time, call: Call)
    requires Sound(d) && (call.HeartbeatCall? || call.AdvertiseCall?)
    ensures Mirrors(SqlStep(settings, d, now, call), Step(settings, View(d), now, call))
  {
    hide Indexed, Decoded, ValidCapabilities;
  }

  lemma ArtifactReads(d: Database, now: Time, a: Ref, req: ArtifactRequest)
    requires Sound(d)
    ensures ArtifactChecks(Bodies(d), now, a, req) == ArtifactChecks(View(d), now, a, req)
    ensures ArtifactChecks(View(d), now, a, req).None? ==>
            a in d.core.attempts && View(d).queue.attempts[a] == d.core.attempts[a].body
  {
    ReadsAreView(d);
    ViewCore(d);
    AttemptRow(d.core, a);
    AttemptReads(d, now, a, req.endpointRef);
    hide Sound, View, Bodies, Indexed, Decoded;
  }

  lemma ArtifactFiled(d: Database, v: ArtifactVersion)
    requires Sound(d)
    ensures var d' := d.(artifacts := d.artifacts[v.artifactVersionRef := ArtifactRowOf(v)]);
            Sound(d') && View(d') == View(d).(artifacts := View(d).artifacts[v.artifactVersionRef := v])
    ensures v.artifactVersionRef in d.artifacts <==> v.artifactVersionRef in View(d).artifacts
  {
    hide Indexed, Decoded;
  }

  lemma ArtifactMirrored(d: Database, now: Time, a: Ref, req: ArtifactRequest)
    requires Sound(d)
    ensures Mirrors(SqlRegisterArtifact(d, now, a, req), RegisterArtifactVersion(View(d), now, a, req))
  {
    ArtifactReads(d, now, a, req);
    hide Sound, View, Bodies, Indexed, Decoded, ArtifactChecks, ArtifactRowOf;
    if ArtifactChecks(View(d), now, a, req).None? {
      var b := d.core.attempts[a].body;
      ArtifactFiled(d, ArtifactVersion(req.artifactVersionRef, req.basedOn, req.endpointRef, b.messageRef, b.attemptRef, now));
    }
  }

  lemma ApprovalReads(d: Database, a: Ref, req: ApprovalRequest)
    requires Sound(d)
    ensures ApprovalChecks(Bodies(d), a, req) == ApprovalChecks(View(d), a, req)
    ensures ApprovalChecks(View(d), a, req).None? ==>
            a in d.core.attempts && View(d).queue.attempts[a] == d.core.attempts[a].body
  {
    ReadsAreView(d);
    ViewCore(d);
    AttemptRow(d.core, a);
    hide Sound, View, Bodies, Indexed, Decoded;
  }

  lemma ApprovalFiled(d: Database, decision: ApprovalDecision)
    requires Sound(d)
    ensures var d' := d.(approvals := d.approvals[decision.approvalRef := decision]);
            Sound(d') && View(d') == View(d).(approvals := View(d).approvals[decision.approvalRef := decision])
    ensures d.approvals == View(d).approvals
  {
    hide Indexed, Decoded;
  }

  lemma ApprovalMirrored(d: Database, a: Ref, req: ApprovalRequest)
    requires Sound(d)
    ensures Mirrors(SqlRecordApproval(d, a, req), RecordApprovalDecision(View(d), a, req))
  {
    ApprovalReads(d, a, req);
    if ApprovalChecks(View(d), a, req).None? {
      assert req.expiresAt.Some?;
      hide Sound, View, Bodies, Indexed, Decoded, ApprovalChecks;
      var b := d.core.attempts[a].body;
      ApprovalFiled(d, ApprovalDecision(req.approvalRef, b.attemptRef, b.messageRef, req.requestedByActorId,
                                        req.approvalHash, req.status, req.decidedByActorId, req.expiresAt.value));
    }
    hide Sound, View, Bodies, Indexed, Decoded, ApprovalChecks;
  }

  lemma EffectReads(d: Database, now: Time, a: Ref, req: EffectRequest)
    requires Sound(d)
    ensures EffectRefusal(Bodies(d), now, a, req) == EffectRefusal(View(d), now, a, req)
    ensures EffectRefusal(View(d), now, a, req).None? ==>
            a in d.core.attempts && View(d).queue.attempts[a] == d.core.attempts[a].body
  {
    ReadsAreView(d);
    ViewCore(d);
    AttemptRow(d.core, a);
    AttemptReads(d, now, a, req.endpointRef);
    hide Sound, View, Bodies, Indexed, Decoded, ValidEffect;
  }

  lemma EffectFiled(d: Database, e: SideEffect)
    requires Sound(d)
    ensures var d' := d.(sideEffects := d.sideEffects[e.executionRef := EffectRowOf(e)]);
            Sound(d') && View(d') == View(d).(sideEffects := View(d).sideEffects[e.executionRef := e])
  {
    hide Indexed, Decoded;
  }

  /** The row with this key and scope is the one execution on file. */
  lemma EffectInserted(d: Database, e: SideEffect)
    requires Sound(d) && EffectsUnique(View(d).sideEffects)
    ensures Mirrors(InsertEffect(d, e), FileEffect(View(d), e))
  {
    ViewParts(d);
    EffectFiled(d, e);
    var earlier := EffectsFor(View(d).sideEffects, e.idempotencyKey, e.protectedScope);
    forall r ensures r in earlier <==>
       r in d.sideEffects && AtBoundary(d.sideEffects[r], e.idempotencyKey, e.protectedScope) {
      if r in d.sideEffects { assert d.sideEffects[r] == EffectRowOf(d.sideEffects[r].body); }
    }
    assert forall r, o :: r in earlier && o in earlier ==> r == o;
    hide Sound, View, Indexed, Decoded, EffectsFor, EffectsUnique, AtBoundary, EffectRowOf;
  }

  lemma EffectMirrored(d: Database, now: Time, a: Ref, req: EffectRequest)
    requires Sound(d) && EffectsUnique(View(d).sideEffects)
    ensures Mirrors(SqlStartEffect(d, now, a, req), StartSideEffect(View(d), now, a, req))
  {
    EffectReads(d, now, a, req);
    ViewCore(d);
    RefWrite(d.core, Refs.Kind.SideEffect);
    CoreWritten(d, DrawRef(d.core, Refs.Kind.SideEffect).tables);
    hide Sound, View, Bodies, Indexed, Decoded, EffectRefusal, DrawRef, InsertEffect, FileEffect, EffectsUnique;
    if EffectRefusal(View(d), now, a, req).None? {
      EffectInserted(d.(core := DrawRef(d.core, Refs.Kind.SideEffect).tables),
                     NewEffect(View(d), d.core.attempts[a].body, req));
    }
  }

  lemma EffectRewritten(d: Database, r: Ref, status: SideEffectStatus, result: Ref)
    requires Sound(d) && r in d.sideEffects
    ensures var after := d.sideEffects[r].body.(status := status, resultRef := result);
            var d' := d.(sideEffects := d.sideEffects[r := d.sideEffects[r].(body := after)]);
            Sound(d') && View(d') == View(d).(sideEffects := View(d).sideEffects[r := after])
  {
    hide Indexed, Decoded;
  }

  lemma EffectCompletionMirrored(d: Database, now: Time, r: Ref, req: EffectCompletion)
    requires Sound(d)
    ensures Mirrors(SqlCompleteEffect(d, now, r, req), CompleteSideEffect(View(d), now, r, req))
  {
    ViewParts(d);
    if r in d.sideEffects {
      AttemptReads(d, now, d.sideEffects[r].body.attemptRef, req.endpointRef);
      EffectRewritten(d, r, req.status, req.resultRef);
    }
    hide Sound, View, Bodies, Indexed, Decoded, LiveRefusal, ValidEffectCompletion;
  }

  lemma QuietMirrored(settings: Settings, d: Database, now: Time, call: Call)
    requires Sound(d) && Good(settings, View(d)) && !TouchesAttempts(call)
    ensures Mirrors(SqlStep(settings, d, now, call), Step(settings, View(d), now, call))
  {
    hide Sound, View, Good, SqlIngress, Ingress, SqlReplay, ReplayDeadLetter, SqlCancelTask, CancelTask, SqlRetryTask,
      RetryTask, SqlReconcile, SqlRegisterArtifact, RegisterArtifactVersion, SqlRecordApproval, RecordApprovalDecision,
      SqlStartEffect, StartSideEffect, SqlCompleteEffect, CompleteSideEffect, SqlRegister, Register, SqlHeartbeat,
      Heartbeat, SqlAdvertise, Advertise, Mirrors;
    match call
    case RegisterCall(req) => RegistrationMirrored(settings, d, now, req);
    case HeartbeatCall(_, _) => EndpointMirrored(settings, d, now, call);
    case AdvertiseCall(_, _) => EndpointMirrored(settings, d, now, call);
    case IngressCall(req) => IngressMirrored(d, req);
    case ReplayCall(letter, accepted) => ReplayMirrored(d, letter, accepted);
    case CancelCall(task) => CancelMirrored(d, task);
    case RetryCall(task) => RetryMirrored(d, task);
    case ReconcileCall => ReconcileMirrored(d, now);
    case ArtifactCall(a, req) => ArtifactMirrored(d, now, a, req);
    case ApprovalCall(a, req) => ApprovalMirrored(d, a, req);
    case EffectCall(a, req) => GoodEffects(settings, View(d)); EffectMirrored(d, now, a, req);
    case EffectCompletionCall(r, req) => EffectCompletionMirrored(d, now, r, req);
  }

  predicate TouchesAttempts(call: Call) {
    call.ClaimCall? || call.ClaimNextCall? || call.CheckpointCall? || call.RefreshCall? || call.CompleteCall?
  }

  lemma GoodEffects(settings: Settings, s: Ledger)
    requires Good(settings, s)
    ensures EffectsUnique(s.sideEffects) && Linked(s.queue) && Counted(s)
  {
  }

  /**
   * From any database that stands for a ledger with the invariants, a call over the tables does what it does over
   * memory.
   */
  lemma StoresAgree(settings: Settings, d: Database, now: Time, call: Call)
    requires ValidSettings(settings) && Sound(d) && Good(settings, View(d))
    ensures Mirrors(SqlStep(settings, d, now, call), Step(settings, View(d), now, call))
  {
    hide Sound, View, Good, Mirrors, Linked, Counted, SqlClaimMessage, Calls.ClaimMessage, SqlClaimNextMessage,
      Calls.ClaimNextMessage, SqlSubmitCheckpoint, SubmitCheckpoint, SqlRefresh, Calls.RefreshLease,
      SqlCompleteAttempt, CompleteAttempt;
    GoodEffects(settings, View(d));
    if TouchesAttempts(call) {
      match call
      case ClaimCall(r, e) => ClaimMirrored(settings, d, now, r, e);
      case ClaimNextCall(e) => PollMirrored(settings, d, now, e);
      case CheckpointCall(a, req) => CheckpointMirrored(d, now, a, req);
      case RefreshCall(a, e) => RefreshMirrored(settings, d, now, a, e);
      case CompleteCall(a, req) => CompletionMirrored(d, now, a, req);
    } else {
      QuietMirrored(settings, d, now, call);
    }
  }

  // Runs

  ghost function SqlRun(settings: Settings, events: seq<Event>): Database
    decreases |events|
  {
    if events == [] then EMPTY_DATABASE else
    var n := |events| - 1;
    SqlStep(settings, SqlRun(settings, events[..n]), events[n].now, events[n].call).db
  }

  ghost function SqlLastReply(settings: Settings, events: seq<Event>): Reply
    requires events != []
  {
    var n := |events| - 1;
    SqlStep(settings, SqlRun(settings, events[..n]), events[n].now, events[n].call).reply
  }

  lemma EmptyIsSound()
    ensures Sound(EMPTY_DATABASE) && View(EMPTY_DATABASE) == EMPTY_LEDGER
  {
    assert forall a: Ref :: RowsOf(map[], a) == {};
    assert Histories(map[]) == map[];
  }

  /**
   * The two backends are indistinguishable: over any run the tables stand for the ledger, and all answers are the same.
   */
  lemma {:induction false} BackendsAgree(settings: Settings, events: seq<Event>)
    requires ValidSettings(settings)
    ensures Sound(SqlRun(settings, events)) && View(SqlRun(settings, events)) == Run(settings, events)
    ensures events != [] ==> SqlLastReply(settings, events) == LastReply(settings, events)
    decreases |events|
  {
    hide SqlStep, Step, Sound, View, Good;
    if events == [] {
      EmptyIsSound();
    } else {
      var n := |events| - 1;
      BackendsAgree(settings, events[..n]);
      RunIsGood(settings, events[..n]);
      StoresAgree(settings, SqlRun(settings, events[..n]), events[n].now, events[n].call);
    }
  }
}
