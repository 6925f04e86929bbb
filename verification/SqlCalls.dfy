// The service over the SQLite tables: what each call reads from rows, and the
// statements it runs, in the order in which it runs them.
module SqlCalls {
  import opened Wrappers
  import opened Domain
  import opened QueueModel
  import opened Calls
  import opened SqliteTables
  import opened SqliteRows
  import opened Text
  import Refs

  datatype ArtifactRow = ArtifactRow(messageRef: Ref, attemptRef: Ref, body: ArtifactVersion)

  datatype EffectRow = EffectRow(idempotencyKey: string, protectedScope: string, body: SideEffect)

  datatype Database = Database(
    core: Tables,
    endpoints: map<Ref, Endpoint>,
    artifacts: map<Ref, ArtifactRow>,
    approvals: map<Ref, ApprovalDecision>,
    sideEffects: map<Ref, EffectRow>)

  const EMPTY_DATABASE := Database(EMPTY_TABLES, map[], map[], map[], map[])

  function ArtifactRowOf(v: ArtifactVersion): ArtifactRow {
    ArtifactRow(v.messageRef, v.attemptRef, v)
  }

  function EffectRowOf(e: SideEffect): EffectRow {
    EffectRow(e.idempotencyKey, e.protectedScope, e)
  }

  datatype SqlTurn = SqlTurn(db: Database, reply: Reply)

  function Decline(d: Database, error: Error): SqlTurn {
    SqlTurn(d, Refused(error))
  }

  /** What the service's reads see: the bodies of the rows. It never lists checkpoints. */
  function Bodies(d: Database): Ledger {
    Ledger(Queue(d.core.refs,
                 map r | r in d.core.messages :: d.core.messages[r].body,
                 map a | a in d.core.attempts :: d.core.attempts[a].body,
                 map[],
                 d.core.deadLetters),
           d.endpoints,
           map v | v in d.artifacts :: d.artifacts[v].body,
           d.approvals,
           map e | e in d.sideEffects :: d.sideEffects[e].body)
  }

  // Endpoints

  /** INSERT, or UPDATE of the body when the endpoint is known. */
  function SaveEndpoint(d: Database, e: Endpoint): Database {
    d.(endpoints := d.endpoints[e.endpointRef := e])
  }

  function SqlRegister(settings: Settings, d: Database, now: Time, req: RegistrationRequest): SqlTurn {
    if !ValidRegistration(req) then Decline(d, InvalidInput)
    else if req.endpointRef in d.endpoints && d.endpoints[req.endpointRef].connectionState == Online
            && !IsStale(settings, d.endpoints[req.endpointRef], now) then Decline(d, EndpointAlreadyOnline)
    else
      var endpoint := Endpoint(req.endpointRef, req.actorId, req.connectionState, (set c | c in req.capabilities), now);
      var drawn := DrawRef(d.core, Refs.Kind.Accepted);
      SqlTurn(SaveEndpoint(d, endpoint).(core := drawn.tables), Registered(req.endpointRef, drawn.ref))
  }

  function SqlHeartbeat(settings: Settings, d: Database, now: Time, endpointRef: Ref, state: ConnectionState): SqlTurn {
    if endpointRef == "" || state == Unset then Decline(d, InvalidInput)
    else if endpointRef !in d.endpoints then Decline(d, EndpointNotFound)
    else
      var endpoint := d.endpoints[endpointRef].(connectionState := state, lastHeartbeatAt := now);
      SqlTurn(d.(endpoints := d.endpoints[endpointRef := endpoint]), Beat(now + settings.heartbeatTimeout))
  }

  function SqlAdvertise(d: Database, endpointRef: Ref, capabilities: seq<string>): SqlTurn {
    if !ValidCapabilities(capabilities) then Decline(d, InvalidInput)
    else if endpointRef !in d.endpoints then Decline(d, EndpointNotFound)
    else
      var names := set c | c in capabilities;
      SqlTurn(d.(endpoints := d.endpoints[endpointRef := d.endpoints[endpointRef].(capabilities := names)]), Advertised(names))
  }

  // Ingress

  datatype Draft = Draft(tables: Tables, message: Message)

  /** The message under the refs drawn for it; the third ref drawn is the quality decision's. */
  function DraftRows(t: Tables, req: IngressRequest): Draft {
    var named := if req.messageRef == "" then DrawRef(t, Refs.Kind.Message) else Drawn(t, req.messageRef);
    var delivery := DrawRef(named.tables, Refs.Kind.Delivery);
    Draft(DrawRef(delivery.tables, Refs.Kind.QualityDecision).tables,
          Message(named.ref, delivery.ref, req.senderEndpointRef, req.targetCapability, req.targetEndpointRef,
                  req.preferredEndpointRef, req.dependsOn, req.payload, req.correlationRef,
                  req.readbackRequired, MessageState.Available, "", 0))
  }

  function SqlIngress(d: Database, req: IngressRequest): SqlTurn {
    if !ValidIngress(req) then Decline(d, InvalidInput)
    else if !RouteAvailable(Bodies(d), req) then Decline(d, CapabilityNotFound)
    else
      var draft := DraftRows(d.core, req);
      if !req.qualityAccepted then Decline(d.(core := draft.tables), QualityRejected)
      else
        var w := InsertMessage(draft.tables, draft.message);
        SqlTurn(d.(core := w.tables),
                if w.error.Some? then Refused(w.error.value) else Posted(draft.message.messageRef, draft.message.deliveryRef))
  }

  datatype SqlPosts = SqlPosts(db: Database, reply: Result<seq<Ref>>)

  function SqlPostAll(d: Database, reqs: seq<IngressRequest>): SqlPosts
    decreases |reqs|
  {
    if reqs == [] then SqlPosts(d, Ok([])) else
    var first := SqlIngress(d, reqs[0]);
    match first.reply
    case Posted(ref, _) =>
      var rest := SqlPostAll(first.db, reqs[1..]);
      SqlPosts(rest.db, if rest.reply.Ok? then Ok([ref] + rest.reply.value) else rest.reply)
    case Refused(error) => SqlPosts(first.db, Err(error))
    case _ => SqlPosts(first.db, Ok([]))
  }

  function SqlReplay(d: Database, deadLetterRef: Ref, qualityAccepted: bool): SqlTurn {
    if deadLetterRef == "" then Decline(d, InvalidInput)
    else if deadLetterRef !in d.core.deadLetters then Decline(d, MessageNotFound)
    else
      var original := GetMessage(d.core, d.core.deadLetters[deadLetterRef].messageRef);
      if original.None? then Decline(d, MessageNotFound) else SqlIngress(d, ReplayRequest(original.value, qualityAccepted))
  }

  // Claims

  ghost function SqlClaimMessage(settings: Settings, d: Database, now: Time, messageRef: Ref, endpointRef: Ref): SqlTurn {
    var refusal := ClaimRefusal(settings, Bodies(d), now, messageRef, endpointRef);
    if refusal.Some? then Decline(d, refusal.value)
    else
      var attempt := DrawRef(d.core, Refs.Kind.Attempt);
      var letter := DrawRef(attempt.tables, Refs.Kind.DeadLetter);
      var claim := SqlClaim(letter.tables,
        ClaimRequest(messageRef, d.endpoints[endpointRef], attempt.ref, letter.ref,
                     now + settings.leaseDuration, now, settings.maxRedelivery));
      SqlTurn(d.(core := claim.tables), if claim.reply.Ok? then Granted(claim.reply.value) else Refused(claim.reply.error))
  }

  ghost function SqlClaimNextMessage(settings: Settings, d: Database, now: Time, endpointRef: Ref): SqlTurn {
    var refusal := PollRefusal(settings, Bodies(d), now, endpointRef);
    if refusal.Some? then Decline(d, refusal.value)
    else
      var poll := SqlClaimNext(ReconcileRows(d.core, now), PollRequest(settings, Bodies(d), now, d.endpoints[endpointRef]));
      SqlTurn(d.(core := poll.tables),
              match poll.reply
              case Err(error) => Refused(error)
              case Ok(None) => NothingToClaim
              case Ok(Some(claim)) => Granted(claim))
  }

  function SqlReconcile(d: Database, now: Time): SqlTurn {
    SqlTurn(d.(core := ReconcileRows(d.core, now)), Reconciled(|ExpiredRows(d.core, now)|))
  }

  // Attempts

  /** The checkpoint's row, then the attempt's, then the message's; each is its own transaction. */
  function SqlSubmitCheckpoint(d: Database, now: Time, attemptRef: Ref, req: CheckpointRequest): SqlTurn {
    var refusal := CheckpointRefusal(Bodies(d), now, attemptRef, req);
    if refusal.Some? then Decline(d, refusal.value)
    else
      var a := d.core.attempts[attemptRef].body;
      var drawn := DrawRef(d.core, Refs.Kind.Checkpoint);
      var saved := InsertCheckpoint(drawn.tables,
        Checkpoint(drawn.ref, a.attemptRef, req.endpointRef, req.state, req.summary, 0, req.artifactRefs));
      if saved.reply.Err? then Decline(d.(core := saved.tables), saved.reply.error) else
      var reported := UpdateAttempt(saved.tables, a.(state := req.state, revision := saved.reply.value.revision));
      if reported.error.Some? then Decline(d.(core := reported.tables), reported.error.value) else
      var m := GetMessage(reported.tables, a.messageRef);
      if m.None? then Decline(d.(core := reported.tables), MessageNotFound) else
      var moved := UpdateMessage(reported.tables, m.value.(state := StateAfterCheckpoint(m.value.state, req.state)));
      SqlTurn(d.(core := moved.tables),
              if moved.error.Some? then Refused(moved.error.value) else Checkpointed(saved.reply.value))
  }

  function SqlRefresh(settings: Settings, d: Database, now: Time, attemptRef: Ref, endpointRef: Ref): SqlTurn {
    var a := GetAttempt(d.core, attemptRef);
    if a.None? then Decline(d, AttemptNotFound)
    else if endpointRef == "" then Decline(d, StaleAttempt)
    else
      var refusal := LiveRefusal(Bodies(d).queue, now, attemptRef, endpointRef);
      if refusal.Some? then Decline(d, refusal.value)
      else
        var extended := a.value.(leaseExpiresAt := now + settings.leaseDuration);
        var w := UpdateAttempt(d.core, extended);
        SqlTurn(d.(core := w.tables), if w.error.Some? then Refused(w.error.value) else Leased(extended))
  }

  /** The completing checkpoint, both records written once more as completed, then the follow-ups. */
  function SqlCompleteAttempt(d: Database, now: Time, attemptRef: Ref, req: CompletionRequest): SqlTurn {
    if req.endpointRef == "" || req.summary == "" then Decline(d, InvalidInput)
    else
      var turn := SqlSubmitCheckpoint(d, now, attemptRef, CompletionCheckpoint(req));
      if turn.reply.Refused? then turn else
      var a := GetAttempt(turn.db.core, attemptRef);
      if a.None? then Decline(turn.db, AttemptNotFound) else
      var closed := UpdateAttempt(turn.db.core, a.value.(state := AttemptState.Completed));
      if closed.error.Some? then Decline(turn.db.(core := closed.tables), closed.error.value) else
      var m := GetMessage(closed.tables, a.value.messageRef);
      if m.None? then Decline(turn.db.(core := closed.tables), MessageNotFound) else
      var parent := m.value.(state := MessageState.Completed);
      var done := UpdateMessage(closed.tables, parent);
      if done.error.Some? then Decline(turn.db.(core := done.tables), done.error.value) else
      var posted := SqlPostAll(turn.db.(core := done.tables), FollowUps(req.followUps, req.endpointRef, parent));
      SqlTurn(posted.db,
              if posted.reply.Ok? then Finished(attemptRef, posted.reply.value) else Refused(posted.reply.error))
  }

  // Task commands

  /** How far the loop over a task's messages has come. */
  datatype Progress = Progress(
    tables: Tables, error: Option<Error>, messageRefs: set<Ref>, attemptRefs: set<Ref>,
    affectedMessages: nat, affectedAttempts: nat)

  function AtOutset(t: Tables): Progress {
    Progress(t, None, {}, {}, 0, 0)
  }

  function CancelAttemptRow(p: Progress, attemptRef: Ref): Progress {
    var a := GetAttempt(p.tables, attemptRef);
    if attemptRef == "" || a.None? || AttemptClosed(a.value.state) then p
    else
      var w := UpdateAttempt(p.tables, a.value.(state := AttemptState.Canceled));
      if w.error.Some? then p.(tables := w.tables, error := w.error)
      else p.(tables := w.tables, attemptRefs := p.attemptRefs + {a.value.attemptRef}, affectedAttempts := p.affectedAttempts + 1)
  }

  /** One pass; the message is as the snapshot had it. */
  function CancelRow(p: Progress, m: Message): Progress {
    if p.error.Some? || m.state == MessageState.Completed || m.state == MessageState.Canceled then p
    else
      var w := UpdateMessage(p.tables, m.(state := MessageState.Canceled));
      if w.error.Some? then p.(tables := w.tables, error := w.error)
      else
        CancelAttemptRow(p.(tables := w.tables, messageRefs := p.messageRefs + {m.messageRef},
                            affectedMessages := p.affectedMessages + 1), m.attemptRef)
  }

  function RetryRow(p: Progress, m: Message): Progress {
    if p.error.Some? || !RetryableState(m.state) then p
    else
      var w := UpdateMessage(p.tables, m.(state := MessageState.Available, attemptRef := ""));
      if w.error.Some? then p.(tables := w.tables, error := w.error)
      else p.(tables := w.tables, messageRefs := p.messageRefs + {m.messageRef}, affectedMessages := p.affectedMessages + 1)
  }

  /** The messages of a snapshot in the order of their refs, each given to one pass. */
  ghost function CancelRows(p: Progress, snapshot: map<Ref, MessageRow>, refs: set<Ref>): Progress
    requires refs <= snapshot.Keys
    decreases refs
  {
    if refs == {} then p
    else var r := Least(refs); CancelRows(CancelRow(p, snapshot[r].body), snapshot, refs - {r})
  }

  ghost function RetryRows(p: Progress, snapshot: map<Ref, MessageRow>, refs: set<Ref>): Progress
    requires refs <= snapshot.Keys
    decreases refs
  {
    if refs == {} then p
    else var r := Least(refs); RetryRows(RetryRow(p, snapshot[r].body), snapshot, refs - {r})
  }

  function TaskReply(p: Progress): Reply {
    if p.error.Some? then Refused(p.error.value)
    else TaskChanged(p.messageRefs, p.attemptRefs, p.affectedMessages, p.affectedAttempts)
  }

  ghost function SqlCancelTask(d: Database, taskRef: Ref): SqlTurn {
    var refs := TaskRefs(Bodies(d).queue, taskRef);
    if taskRef == "" then Decline(d, InvalidInput)
    else if refs == {} then Decline(d, MessageNotFound)
    else
      var p := CancelRows(AtOutset(d.core), d.core.messages, refs);
      SqlTurn(d.(core := p.tables), TaskReply(p))
  }

  ghost function SqlRetryTask(d: Database, taskRef: Ref): SqlTurn {
    var refs := TaskRefs(Bodies(d).queue, taskRef);
    if taskRef == "" then Decline(d, InvalidInput)
    else if refs == {} then Decline(d, MessageNotFound)
    else
      var p := RetryRows(AtOutset(d.core), d.core.messages, refs);
      SqlTurn(d.(core := p.tables), TaskReply(p))
  }

  // Artifacts, approvals, side effects

  function SqlRegisterArtifact(d: Database, now: Time, attemptRef: Ref, req: ArtifactRequest): SqlTurn {
    var checks := ArtifactChecks(Bodies(d), now, attemptRef, req);
    if checks.Some? then Decline(d, checks.value)
    else
      var a := d.core.attempts[attemptRef].body;
      var version := ArtifactVersion(req.artifactVersionRef, req.basedOn, req.endpointRef, a.messageRef, a.attemptRef, now);
      if version.artifactVersionRef in d.artifacts then Decline(d, ArtifactExists)
      else SqlTurn(d.(artifacts := d.artifacts[version.artifactVersionRef := ArtifactRowOf(version)]), ArtifactRegistered(version))
  }

  function SqlRecordApproval(d: Database, attemptRef: Ref, req: ApprovalRequest): SqlTurn {
    var checks := ApprovalChecks(Bodies(d), attemptRef, req);
    if checks.Some? then Decline(d, checks.value)
    else
      var a := d.core.attempts[attemptRef].body;
      var decision := ApprovalDecision(req.approvalRef, a.attemptRef, a.messageRef, req.requestedByActorId,
                                       req.approvalHash, req.status, req.decidedByActorId, req.expiresAt.value);
      if decision.approvalRef in d.approvals then Decline(d, SideEffectConflict)
      else SqlTurn(d.(approvals := d.approvals[decision.approvalRef := decision]), DecisionRecorded(decision))
  }

  predicate AtBoundary(row: EffectRow, key: string, scope: string) {
    row.idempotencyKey == key && row.protectedScope == scope
  }

  /** SELECT by key and scope, then INSERT under the execution's ref. */
  ghost function InsertEffect(d: Database, e: SideEffect): SqlTurn {
    if r :| r in d.sideEffects && AtBoundary(d.sideEffects[r], e.idempotencyKey, e.protectedScope) then
      SqlTurn(d, EffectStarted(d.sideEffects[r].body, true))
    else if e.executionRef in d.sideEffects then Decline(d, SideEffectConflict)
    else SqlTurn(d.(sideEffects := d.sideEffects[e.executionRef := EffectRowOf(e)]), EffectStarted(e, false))
  }

  ghost function SqlStartEffect(d: Database, now: Time, attemptRef: Ref, req: EffectRequest): SqlTurn {
    var refusal := EffectRefusal(Bodies(d), now, attemptRef, req);
    if refusal.Some? then Decline(d, refusal.value)
    else
      var a := d.core.attempts[attemptRef].body;
      var drawn := DrawRef(d.core, Refs.Kind.SideEffect);
      InsertEffect(d.(core := drawn.tables),
        SideEffect(drawn.ref, req.idempotencyKey, req.protectedScope, req.approvalRef, req.approvalHash,
                   a.messageRef, a.attemptRef, req.requestedByActorId, req.endpointRef, Executing, ""))
  }

  function SqlCompleteEffect(d: Database, now: Time, executionRef: Ref, req: EffectCompletion): SqlTurn {
    if !ValidEffectCompletion(req) then Decline(d, InvalidInput)
    else if executionRef !in d.sideEffects then Decline(d, SideEffectNotFound)
    else
      var effect := d.sideEffects[executionRef].body;
      if effect.executedByEndpointRef != req.endpointRef || effect.status != Executing then Decline(d, SideEffectConflict)
      else
        var refusal := LiveRefusal(Bodies(d).queue, now, effect.attemptRef, req.endpointRef);
        if refusal.Some? then Decline(d, refusal.value)
        else
          var completed := effect.(status := req.status, resultRef := req.resultRef);
          SqlTurn(d.(sideEffects := d.sideEffects[executionRef := d.sideEffects[executionRef].(body := completed)]),
                  EffectCompleted(completed))
  }

  ghost function SqlStep(settings: Settings, d: Database, now: Time, call: Call): SqlTurn {
    match call
    case RegisterCall(req) => SqlRegister(settings, d, now, req)
    case HeartbeatCall(e, state) => SqlHeartbeat(settings, d, now, e, state)
    case AdvertiseCall(e, capabilities) => SqlAdvertise(d, e, capabilities)
    case IngressCall(req) => SqlIngress(d, req)
    case ClaimCall(m, e) => SqlClaimMessage(settings, d, now, m, e)
    case ClaimNextCall(e) => SqlClaimNextMessage(settings, d, now, e)
    case CheckpointCall(a, req) => SqlSubmitCheckpoint(d, now, a, req)
    case RefreshCall(a, e) => SqlRefresh(settings, d, now, a, e)
    case CompleteCall(a, req) => SqlCompleteAttempt(d, now, a, req)
    case CancelCall(task) => SqlCancelTask(d, task)
    case RetryCall(task) => SqlRetryTask(d, task)
    case ReplayCall(letter, accepted) => SqlReplay(d, letter, accepted)
    case ReconcileCall => SqlReconcile(d, now)
    case ArtifactCall(a, req) => SqlRegisterArtifact(d, now, a, req)
    case ApprovalCall(a, req) => SqlRecordApproval(d, a, req)
    case EffectCall(a, req) => SqlStartEffect(d, now, a, req)
    case EffectCompletionCall(r, req) => SqlCompleteEffect(d, now, r, req)
  }
}
