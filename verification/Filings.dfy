// What is filed beside the queue, in terms of the calls that filed it: artifact
// versions and their parents, approval decisions, and side effects.
module Filings {
  import opened Wrappers
  import opened Domain
  import opened QueueModel
  import opened Calls
  import opened Links
  import opened Outcomes
  import opened Reachable
  import opened Runs
  import opened Grants
  import opened Postings
  import opened Reports
  import Lineage
  import Provenance
  import Refs

  lemma MayActIff(q: Queue, a: Ref, e: Ref, now: Time)
    ensures LiveRefusal(q, now, a, e).None? <==> MayAct(q, a, e, now)
  {
  }

  // Artifact versions

  /** The version is what the request describes, by the attempt and for its message. */
  predicate IsRegistered(v: ArtifactVersion, req: ArtifactRequest, a: Ref, r: Ref, now: Time) {
    && v.artifactVersionRef == req.artifactVersionRef && v.basedOn == req.basedOn && v.createdByEndpointRef == req.endpointRef
    && v.attemptRef == a && v.messageRef == r && v.createdAt == now
  }

  /** Filled in, by an attempt that may act, under a new ref, and based on versions that are there. */
  predicate MayRegister(s: Ledger, now: Time, a: Ref, req: ArtifactRequest) {
    && req.complete && req.endpointRef != "" && req.artifactVersionRef != ""
    && MayAct(s.queue, a, req.endpointRef, now) && req.endpointRef in s.endpoints
    && (forall p :: p in req.basedOn ==> p in s.artifacts) && req.artifactVersionRef !in s.artifacts
  }

  /** A registration is accepted exactly when it may be made, and then files the one version it describes. */
  lemma RegistrationFiles(s: Ledger, now: Time, a: Ref, req: ArtifactRequest)
    requires Linked(s.queue)
    ensures var turn, v := RegisterArtifactVersion(s, now, a, req), req.artifactVersionRef;
            && (turn.reply.ArtifactRegistered? <==> MayRegister(s, now, a, req))
            && (turn.reply.Refused? <==> !MayRegister(s, now, a, req))
            && (turn.reply.Refused? ==> turn.ledger == s)
            && (turn.reply.ArtifactRegistered? ==>
                  && v in turn.ledger.artifacts && turn.reply.version == turn.ledger.artifacts[v]
                  && turn.ledger == s.(artifacts := s.artifacts[v := turn.ledger.artifacts[v]])
                  && IsRegistered(turn.ledger.artifacts[v], req, a, s.queue.attempts[a].messageRef, now))
  {
    MayActIff(s.queue, a, req.endpointRef, now);
    hide LiveRefusal;
    if a in s.queue.attempts { assert s.queue.attempts[a].attemptRef == a && s.queue.attempts[a].messageRef in s.queue.messages; }
    hide Linked;
  }

  // Decisions

  /** The decision is what the request says, about the attempt. */
  predicate IsDecided(d: ApprovalDecision, req: ApprovalRequest, a: Ref, r: Ref) {
    && d.approvalRef == req.approvalRef && d.attemptRef == a && d.messageRef == r
    && d.status == req.status && d.approvalHash == req.approvalHash
    && d.requestedByActorId == req.requestedByActorId && d.decidedByActorId == req.decidedByActorId
    && Some(d.expiresAt) == req.expiresAt
  }

  /** Filled in, about a stored attempt, under a new ref, and pending or decided by somebody other than who asks. */
  predicate MayDecide(s: Ledger, a: Ref, req: ApprovalRequest) {
    && req.complete && req.approvalRef != "" && req.requestedByActorId != "" && req.approvalHash != ""
    && (req.status == Pending || (req.decidedByActorId != "" && req.decidedByActorId != req.requestedByActorId))
    && a in s.queue.attempts && req.expiresAt.Some? && req.approvalRef !in s.approvals
  }

  /** A decision is accepted exactly when it may be made, and is then filed word for word. */
  lemma DecisionFiles(s: Ledger, a: Ref, req: ApprovalRequest)
    requires Linked(s.queue)
    ensures var turn, d := RecordApprovalDecision(s, a, req), req.approvalRef;
            && (turn.reply.DecisionRecorded? <==> MayDecide(s, a, req))
            && (turn.reply.Refused? <==> !MayDecide(s, a, req))
            && (turn.reply.Refused? ==> turn.ledger == s)
            && (turn.reply.DecisionRecorded? ==>
                  && d in turn.ledger.approvals && turn.reply.decision == turn.ledger.approvals[d]
                  && turn.ledger == s.(approvals := s.approvals[d := turn.ledger.approvals[d]])
                  && IsDecided(turn.ledger.approvals[d], req, a, s.queue.attempts[a].messageRef))
  {
    if a in s.queue.attempts { assert s.queue.attempts[a].attemptRef == a; }
    hide Linked;
  }

  // Side effects

  /** The decision lets the request's effect happen now. */
  predicate Allows(d: ApprovalDecision, req: EffectRequest, a: Ref, now: Time) {
    && d.attemptRef == a && d.status == Approved && d.approvalHash == req.approvalHash
    && (d.expiresAt == 0 || now < d.expiresAt)
  }

  predicate MayStart(s: Ledger, now: Time, a: Ref, req: EffectRequest) {
    && req.complete && req.endpointRef != "" && req.idempotencyKey != "" && req.protectedScope != ""
    && req.approvalRef != "" && req.approvalHash != "" && req.requestedByActorId != ""
    && MayAct(s.queue, a, req.endpointRef, now) && req.endpointRef in s.endpoints
    && req.approvalRef in s.approvals && Allows(s.approvals[req.approvalRef], req, a, now)
  }

  predicate IsStarted(e: SideEffect, req: EffectRequest, a: Ref, r: Ref) {
    && e.idempotencyKey == req.idempotencyKey && e.protectedScope == req.protectedScope
    && e.approvalRef == req.approvalRef && e.approvalHash == req.approvalHash
    && e.requestedByActorId == req.requestedByActorId && e.executedByEndpointRef == req.endpointRef
    && e.attemptRef == a && e.messageRef == r
  }

  /** Execution `e` is the one on file for this key and scope. */
  predicate OnFile(s: Ledger, e: Ref, key: string, scope: string) {
    e in s.sideEffects && s.sideEffects[e].idempotencyKey == key && s.sideEffects[e].protectedScope == scope
  }

  /** It is answered with the one on file. */
  ghost predicate Repeats(s: Ledger, turn: Turn, req: EffectRequest) {
    exists e :: OnFile(s, e, req.idempotencyKey, req.protectedScope) && turn.reply == EffectStarted(s.sideEffects[e], true)
  }

  /** It is filed under the next ref, executing and without a result, and answered as filed. */
  ghost predicate Starts(s: Ledger, turn: Turn, a: Ref, req: EffectRequest) {
    var e := Refs.AllocRef(Refs.Kind.SideEffect, Counter(s.queue, Refs.Kind.SideEffect) + 1);
    && e !in s.sideEffects && e in turn.ledger.sideEffects && a in s.queue.attempts
    && turn.ledger.sideEffects == s.sideEffects[e := turn.ledger.sideEffects[e]]
    && turn.reply == EffectStarted(turn.ledger.sideEffects[e], false)
    && turn.ledger.sideEffects[e].executionRef == e
    && turn.ledger.sideEffects[e].status == Executing && turn.ledger.sideEffects[e].resultRef == ""
    && IsStarted(turn.ledger.sideEffects[e], req, a, s.queue.attempts[a].messageRef)
  }

  lemma DecisionAllowsIff(s: Ledger, now: Time, a: Ref, req: EffectRequest)
    ensures DecisionRefusal(s, now, a, req).None? <==>
            req.approvalRef in s.approvals && Allows(s.approvals[req.approvalRef], req, a, now)
  {
  }

  /**
   * Whether the decision on file is about the attempt, in favour, in time, and about the same content: the first "no"
   * is answered.
   */
  lemma RefusalNamesTheReason(s: Ledger, now: Time, a: Ref, req: EffectRequest)
    requires Linked(s.queue) && EffectRefusal(s, now, a, req).Some?
    ensures var turn, d := StartSideEffect(s, now, a, req), req.approvalRef;
            var due := ValidEffect(req) && MayAct(s.queue, a, req.endpointRef, now) && req.endpointRef in s.endpoints;
            var about := d in s.approvals && s.approvals[d].attemptRef == a;
            var inTime := about && (s.approvals[d].expiresAt == 0 || now < s.approvals[d].expiresAt);
            && turn.ledger == s
            && (due && d !in s.approvals ==> turn.reply == Refused(ApprovalRequired))
            && (due && d in s.approvals && !about ==> turn.reply == Refused(ApprovalNotFound))
            && (due && about && s.approvals[d].status != Approved ==> turn.reply == Refused(ApprovalRejected))
            && (due && about && s.approvals[d].status == Approved && !inTime ==> turn.reply == Refused(ApprovalExpired))
            && (due && inTime && s.approvals[d].status == Approved ==>
                  s.approvals[d].approvalHash != req.approvalHash && turn.reply == Refused(ApprovalHashMismatch))
  {
    MayActIff(s.queue, a, req.endpointRef, now);
    if a in s.queue.attempts { assert s.queue.attempts[a].attemptRef == a; }
    hide Linked, LiveRefusal;
  }

  lemma MayStartIff(s: Ledger, now: Time, a: Ref, req: EffectRequest)
    requires Linked(s.queue)
    ensures EffectRefusal(s, now, a, req).None? <==> MayStart(s, now, a, req)
  {
    MayActIff(s.queue, a, req.endpointRef, now);
    DecisionAllowsIff(s, now, a, req);
    if a in s.queue.attempts { assert s.queue.attempts[a].attemptRef == a; }
    hide LiveRefusal, DecisionRefusal, Allows, Linked;
  }

  lemma OnFileIff(s: Ledger, key: string, scope: string)
    ensures EffectsFor(s.sideEffects, key, scope) != {} <==> exists e :: OnFile(s, e, key, scope)
    ensures forall e :: e in EffectsFor(s.sideEffects, key, scope) <==> OnFile(s, e, key, scope)
  {
    if e :| OnFile(s, e, key, scope) { assert e in EffectsFor(s.sideEffects, key, scope); }
    if e :| e in EffectsFor(s.sideEffects, key, scope) { assert OnFile(s, e, key, scope); }
  }

  lemma FiledOrRepeated(s: Ledger, effect: SideEffect)
    requires effect.executionRef !in s.sideEffects
    ensures var turn := FileEffect(s, effect);
            if exists e :: OnFile(s, e, effect.idempotencyKey, effect.protectedScope) then
              turn.ledger == s && exists e :: OnFile(s, e, effect.idempotencyKey, effect.protectedScope)
                                   && turn.reply == EffectStarted(s.sideEffects[e], true)
            else turn == Turn(s.(sideEffects := s.sideEffects[effect.executionRef := effect]), EffectStarted(effect, false))
  {
    OnFileIff(s, effect.idempotencyKey, effect.protectedScope);
    hide EffectsFor, OnFile;
  }

  lemma NewEffectIs(s: Ledger, a: Ref, req: EffectRequest)
    requires Linked(s.queue) && Counted(s) && a in s.queue.attempts
    ensures var e := NewEffect(s, s.queue.attempts[a], req);
            && e.executionRef == Refs.AllocRef(Refs.Kind.SideEffect, Counter(s.queue, Refs.Kind.SideEffect) + 1)
            && e.executionRef !in s.sideEffects && e.status == Executing && e.resultRef == ""
            && IsStarted(e, req, a, s.queue.attempts[a].messageRef)
  {
    NextIsFresh(s.queue, Refs.Kind.SideEffect);
    assert s.queue.attempts[a].attemptRef == a;
    assert NextRef(s.queue, Refs.Kind.SideEffect) !in s.sideEffects;
    hide Linked, Counted, Drawn;
  }

  lemma EffectIsFiled(s: Ledger, a: Ref, req: EffectRequest)
    requires Linked(s.queue) && Counted(s) && a in s.queue.attempts
    ensures var turn := FileEffect(s.(queue := Bump(s.queue, Refs.Kind.SideEffect)), NewEffect(s, s.queue.attempts[a], req));
            && turn.ledger.artifacts == s.artifacts && turn.ledger.approvals == s.approvals
            && if exists e :: OnFile(s, e, req.idempotencyKey, req.protectedScope)
               then Repeats(s, turn, req) && turn.ledger.sideEffects == s.sideEffects
               else Starts(s, turn, a, req)
  {
    var bumped, effect := s.(queue := Bump(s.queue, Refs.Kind.SideEffect)), NewEffect(s, s.queue.attempts[a], req);
    NewEffectIs(s, a, req);
    FiledOrRepeated(bumped, effect);
    forall e ensures OnFile(bumped, e, req.idempotencyKey, req.protectedScope) <==>
       OnFile(s, e, req.idempotencyKey, req.protectedScope) {}
    hide Linked, Counted, Bump, OnFile, FileEffect, NewEffect;
  }

  /** A side effect starts exactly when it may, once for its key and scope, and is filed as asked. */
  lemma StartFiles(s: Ledger, now: Time, a: Ref, req: EffectRequest)
    requires Linked(s.queue) && Counted(s)
    ensures var turn, filed := StartSideEffect(s, now, a, req), exists e :: OnFile(s, e, req.idempotencyKey, req.protectedScope);
            && turn.ledger.artifacts == s.artifacts && turn.ledger.approvals == s.approvals
            && (!MayStart(s, now, a, req) ==> turn.reply.Refused? && turn.ledger == s)
            && (MayStart(s, now, a, req) && filed ==> Repeats(s, turn, req) && turn.ledger.sideEffects == s.sideEffects)
            && (MayStart(s, now, a, req) && !filed ==> Starts(s, turn, a, req))
  {
    MayStartIff(s, now, a, req);
    assert MayStart(s, now, a, req) ==> a in s.queue.attempts;
    hide EffectRefusal, MayStart;
    if MayStart(s, now, a, req) { EffectIsFiled(s, a, req); }
    hide FileEffect, OnFile, Starts, Repeats, Linked, Counted;
  }

  predicate MayFinish(s: Ledger, now: Time, e: Ref, req: EffectCompletion) {
    && req.endpointRef != "" && req.complete && req.status != Executing
    && (req.status == SideEffectStatus.Succeeded ==> req.resultRef != "")
    && e in s.sideEffects && s.sideEffects[e].executedByEndpointRef == req.endpointRef && s.sideEffects[e].status == Executing
    && MayAct(s.queue, s.sideEffects[e].attemptRef, req.endpointRef, now)
  }

  /** An execution is closed exactly when it may be, with the outcome that was reported. */
  lemma OutcomeFiles(s: Ledger, now: Time, e: Ref, req: EffectCompletion)
    ensures var turn := CompleteSideEffect(s, now, e, req);
            && (turn.reply.EffectCompleted? <==> MayFinish(s, now, e, req))
            && (turn.reply.Refused? <==> !MayFinish(s, now, e, req))
            && (turn.reply.Refused? ==> turn.ledger == s)
            && (turn.reply.EffectCompleted? ==>
                  && e in s.sideEffects && e in turn.ledger.sideEffects && turn.reply.execution == turn.ledger.sideEffects[e]
                  && turn.ledger == s.(sideEffects := s.sideEffects[e := turn.ledger.sideEffects[e]])
                  && turn.ledger.sideEffects[e] == s.sideEffects[e].(status := req.status, resultRef := req.resultRef))
  {
    if e in s.sideEffects { MayActIff(s.queue, s.sideEffects[e].attemptRef, req.endpointRef, now); }
    hide LiveRefusal, MayAct;
  }

  // The other calls file nothing

  predicate Decides(call: Call) {
    call.ApprovalCall? || call.EffectCall? || call.EffectCompletionCall?
  }

  predicate SameGovernance(s: Ledger, s': Ledger) {
    s'.approvals == s.approvals && s'.sideEffects == s.sideEffects
  }

  lemma ClaimingDecidesNothing(settings: Settings, s: Ledger, now: Time, call: Call)
    requires call.ClaimCall? || call.ClaimNextCall? || call.CheckpointCall? || call.RefreshCall?
    ensures SameGovernance(s, Step(settings, s, now, call).ledger)
  {
    hide Claim, ClaimNext, Reconcile, WithCheckpoint, ClaimRefusal, CheckpointRefusal;
  }

  lemma CompletionDecidesNothing(s: Ledger, now: Time, a: Ref, req: CompletionRequest)
    ensures SameGovernance(s, CompleteAttempt(s, now, a, req).ledger)
  {
    hide PostAll;
    var turn := SubmitCheckpoint(s, now, a, CompletionCheckpoint(req));
    if req.endpointRef != "" && req.summary != "" && !turn.reply.Refused? {
      var parent := turn.ledger.queue.messages[s.queue.attempts[a].messageRef];
      PostsStore(turn.ledger, FollowUps(req.followUps, req.endpointRef, parent));
    }
  }

  lemma ReplayDecidesNothing(s: Ledger, d: Ref, accepted: bool)
    ensures SameGovernance(s, ReplayDeadLetter(s, d, accepted).ledger)
  {
    hide Ingress;
    if d != "" && d in s.queue.deadLetters && s.queue.deadLetters[d].messageRef in s.queue.messages {
      IngressStores(s, ReplayRequest(s.queue.messages[s.queue.deadLetters[d].messageRef], accepted));
    }
  }

  lemma OthersDecideNothing(settings: Settings, s: Ledger, now: Time, call: Call)
    requires !Decides(call)
    ensures SameGovernance(s, Step(settings, s, now, call).ledger)
  {
    hide Reconcile, CancelRefs, RetryRefs, CompleteAttempt, Cancelable, Retryable, OpenAttempts, Ingress,
      ReplayDeadLetter, Calls.ClaimMessage, Calls.ClaimNextMessage, SubmitCheckpoint, RefreshLease;
    match call
    case CompleteCall(a, req) => CompletionDecidesNothing(s, now, a, req);
    case IngressCall(req) => IngressStores(s, req);
    case ReplayCall(d, accepted) => ReplayDecidesNothing(s, d, accepted);
    case ClaimCall(_, _) => ClaimingDecidesNothing(settings, s, now, call);
    case ClaimNextCall(_) => ClaimingDecidesNothing(settings, s, now, call);
    case CheckpointCall(_, _) => ClaimingDecidesNothing(settings, s, now, call);
    case RefreshCall(_, _) => ClaimingDecidesNothing(settings, s, now, call);
    case _ =>
  }

  /** A version appears only by the accepted registration that describes it. */
  lemma NewVersionIsRegistered(settings: Settings, s: Ledger, now: Time, call: Call, v: Ref)
    requires Linked(s.queue) && v !in s.artifacts && v in Step(settings, s, now, call).ledger.artifacts
    ensures call.ArtifactCall? && Step(settings, s, now, call).reply.ArtifactRegistered?
    ensures call.artifact.artifactVersionRef == v && MayRegister(s, now, call.attemptRef, call.artifact)
    ensures IsRegistered(Step(settings, s, now, call).ledger.artifacts[v], call.artifact, call.attemptRef,
                         s.queue.attempts[call.attemptRef].messageRef, now)
  {
    hide RegisterArtifactVersion, Linked, MayRegister, IsRegistered;
    if call.ArtifactCall? {
      RegistrationFiles(s, now, call.attemptRef, call.artifact);
      MayRegisterNames(s, now, call.attemptRef, call.artifact);
    } else {
      hide Step;
      Provenance.OnlyRegistrationFiles(settings, s, now, call);
    }
  }

  lemma MayRegisterNames(s: Ledger, now: Time, a: Ref, req: ArtifactRequest)
    requires MayRegister(s, now, a, req)
    ensures a in s.queue.attempts && s.queue.attempts[a].endpointRef == req.endpointRef
            && req.artifactVersionRef !in s.artifacts
  {
  }

  lemma NewDecisionIsDecided(settings: Settings, s: Ledger, now: Time, call: Call, d: Ref)
    requires Linked(s.queue) && Counted(s) && d !in s.approvals && d in Step(settings, s, now, call).ledger.approvals
    ensures call.ApprovalCall? && Step(settings, s, now, call).reply.DecisionRecorded?
    ensures call.approval.approvalRef == d && MayDecide(s, call.attemptRef, call.approval)
    ensures IsDecided(Step(settings, s, now, call).ledger.approvals[d], call.approval, call.attemptRef,
                      s.queue.attempts[call.attemptRef].messageRef)
  {
    hide RecordApprovalDecision, StartSideEffect, CompleteSideEffect, Linked, Counted, MayStart, MayFinish, IsDecided;
    match call
    case ApprovalCall(a, req) => DecisionFiles(s, a, req);
    case EffectCall(a, req) => StartFiles(s, now, a, req);
    case EffectCompletionCall(e, req) => OutcomeFiles(s, now, e, req);
    case _ =>
      hide Step;
      OthersDecideNothing(settings, s, now, call);
  }

  /** A side effect appears only by the accepted request that describes it, under a decision that allows it. */
  lemma NewEffectIsStarted(settings: Settings, s: Ledger, now: Time, call: Call, e: Ref)
    requires Linked(s.queue) && Counted(s) && e !in s.sideEffects && e in Step(settings, s, now, call).ledger.sideEffects
    ensures call.EffectCall? && MayStart(s, now, call.attemptRef, call.effect)
    ensures Starts(s, Step(settings, s, now, call), call.attemptRef, call.effect)
    ensures Step(settings, s, now, call).reply == EffectStarted(Step(settings, s, now, call).ledger.sideEffects[e], false)
    ensures Step(settings, s, now, call).ledger.sideEffects[e].status == Executing
    ensures IsStarted(Step(settings, s, now, call).ledger.sideEffects[e], call.effect, call.attemptRef,
                      s.queue.attempts[call.attemptRef].messageRef)
  {
    hide RecordApprovalDecision, StartSideEffect, CompleteSideEffect, Linked, Counted, MayStart, MayFinish, IsDecided,
      MayDecide, IsStarted, OnFile, Repeats;
    match call
    case ApprovalCall(a, req) => DecisionFiles(s, a, req);
    case EffectCall(a, req) => StartFiles(s, now, a, req);
    case EffectCompletionCall(d, req) => OutcomeFiles(s, now, d, req);
    case _ =>
      hide Step;
      OthersDecideNothing(settings, s, now, call);
  }

  /** An execution changes only by an outcome that may be filed for it. */
  lemma ChangedEffectIsFinished(settings: Settings, s: Ledger, now: Time, call: Call, e: Ref)
    requires Linked(s.queue) && Counted(s) && e in s.sideEffects && e in Step(settings, s, now, call).ledger.sideEffects
    requires Step(settings, s, now, call).ledger.sideEffects[e] != s.sideEffects[e]
    ensures call.EffectCompletionCall? && call.executionRef == e && Step(settings, s, now, call).reply.EffectCompleted?
    ensures MayFinish(s, now, e, call.outcome)
    ensures Step(settings, s, now, call).ledger.sideEffects[e]
            == s.sideEffects[e].(status := call.outcome.status, resultRef := call.outcome.resultRef)
  {
    hide RecordApprovalDecision, StartSideEffect, CompleteSideEffect, Linked, Counted, MayStart, MayFinish, IsDecided,
      MayDecide, IsStarted, OnFile, Repeats;
    match call
    case ApprovalCall(a, req) => DecisionFiles(s, a, req);
    case EffectCall(a, req) => StartFiles(s, now, a, req);
    case EffectCompletionCall(d, req) => OutcomeFiles(s, now, d, req);
    case _ =>
      hide Step;
      OthersDecideNothing(settings, s, now, call);
  }

  // Runs

  /** Call `j` of the run registered `version`. */
  ghost predicate RegisteredAt(settings: Settings, events: seq<Event>, j: nat, version: ArtifactVersion)
    requires j < |events|
  {
    var s, call := Run(settings, events[..j]), events[j].call;
    && call.ArtifactCall? && LastReply(settings, events[..j + 1]).ArtifactRegistered?
    && call.attemptRef in s.queue.attempts && s.queue.attempts[call.attemptRef].endpointRef == call.artifact.endpointRef
    && IsRegistered(version, call.artifact, call.attemptRef, s.queue.attempts[call.attemptRef].messageRef, events[j].now)
  }

  /** In every run each version is the one that an accepted registration described. */
  lemma {:induction false} VersionsAreRegistered(settings: Settings, events: seq<Event>, v: Ref) returns (j: nat)
    requires ValidSettings(settings) && v in Run(settings, events).artifacts
    ensures j < |events| && RegisteredAt(settings, events, j, Run(settings, events).artifacts[v])
    ensures events[j].call.artifact.artifactVersionRef == v
    decreases |events|
  {
    hide Step, Good, Linked, Counted, IsRegistered, MayRegister;
    assert events != [];
    var n := |events| - 1;
    var before := events[..n];
    var s := Run(settings, before);
    RunIsGood(settings, before);
    GoodLinks(settings, s);
    assert events[..n + 1] == events;
    if v in s.artifacts {
      j := VersionsAreRegistered(settings, before, v);
      assert before[..j] == events[..j] && before[..j + 1] == events[..j + 1];
      CallEvolves(settings, s, events[n].now, events[n].call);
    } else {
      j := n;
      NewVersionIsRegistered(settings, s, events[n].now, events[n].call, v);
      MayRegisterNames(s, events[n].now, events[n].call.attemptRef, events[n].call.artifact);
    }
  }

  /** Call `j` of the run is an accepted registration of `v`. */
  ghost predicate Registers(settings: Settings, events: seq<Event>, j: nat, v: Ref)
    requires j < |events|
  {
    && events[j].call.ArtifactCall? && events[j].call.artifact.artifactVersionRef == v
    && LastReply(settings, events[..j + 1]).ArtifactRegistered?
  }

  lemma RegistersAnew(settings: Settings, events: seq<Event>, j: nat, v: Ref)
    requires ValidSettings(settings) && j < |events| && Registers(settings, events, j, v)
    ensures v !in Run(settings, events[..j]).artifacts && v in Run(settings, events[..j + 1]).artifacts
    ensures Run(settings, events[..j + 1]).artifacts[v].basedOn == events[j].call.artifact.basedOn
  {
    var s := Run(settings, events[..j]);
    StepOfRun(settings, events, j);
    RunIsGood(settings, events[..j]);
    GoodLinks(settings, s);
    var call := events[j].call;
    assert Step(settings, s, events[j].now, call) == RegisterArtifactVersion(s, events[j].now, call.attemptRef, call.artifact);
    hide Step, Run, LastReply, RegisterArtifactVersion, Good, Linked, Counted;
    RegistrationFiles(s, events[j].now, call.attemptRef, call.artifact);
    hide MayAct;
  }

  lemma VersionStays(settings: Settings, events: seq<Event>, j: nat, v: Ref)
    requires ValidSettings(settings) && InOrder(events) && j <= |events| && v in Run(settings, events[..j]).artifacts
    ensures v in Run(settings, events).artifacts
            && Run(settings, events).artifacts[v] == Run(settings, events[..j]).artifacts[v]
  {
    hide Step, Run;
    RunEvolves(settings, events, j);
  }

  lemma OrderedPrefix(events: seq<Event>, k: nat)
    requires InOrder(events) && k <= |events|
    ensures InOrder(events[..k])
  {
  }

  lemma RegistersOnce(settings: Settings, events: seq<Event>, j: nat, k: nat, v: Ref)
    requires ValidSettings(settings) && InOrder(events) && j < k < |events| && Registers(settings, events, j, v)
    ensures !Registers(settings, events, k, v)
  {
    RegistersAnew(settings, events, j, v);
    OrderedPrefix(events, k);
    assert events[..k][..j + 1] == events[..j + 1];
    VersionStays(settings, events[..k], j + 1, v);
    if Registers(settings, events, k, v) { RegistersAnew(settings, events, k, v); }
    hide Run, Registers;
  }

  /**
   * In every run, the parents of a version are those that the one accepted registration of it named, no more and no
   * fewer.
   */
  lemma ParentsAreNamed(settings: Settings, events: seq<Event>, v: Ref) returns (j: nat)
    requires ValidSettings(settings) && InOrder(events) && v in Run(settings, events).artifacts
    ensures j < |events| && Registers(settings, events, j, v)
    ensures forall k: nat :: k < |events| && Registers(settings, events, k, v) ==> k == j
    ensures forall p :: p in Run(settings, events).artifacts[v].basedOn <==> p in events[j].call.artifact.basedOn
  {
    j := VersionsAreRegistered(settings, events, v);
    assert Registers(settings, events, j, v);
    RegistersAnew(settings, events, j, v);
    hide Run, Registers;
    VersionStays(settings, events, j + 1, v);
    forall k: nat | k < |events| && Registers(settings, events, k, v) ensures k == j {
      if j < k { RegistersOnce(settings, events, j, k, v); }
      if k < j { RegistersOnce(settings, events, k, j, v); }
    }
  }

  /** The run accepted a registration of `v` that named `p` as a parent. */
  ghost predicate Named(settings: Settings, events: seq<Event>, v: Ref, p: Ref) {
    exists j: nat :: j < |events| && Registers(settings, events, j, v) && p in events[j].call.artifact.basedOn
  }

  lemma ParentIffNamed(settings: Settings, events: seq<Event>, v: Ref, p: Ref)
    requires ValidSettings(settings) && InOrder(events)
    ensures v in Run(settings, events).artifacts && p in Run(settings, events).artifacts[v].basedOn <==>
            Named(settings, events, v, p)
  {
    if v in Run(settings, events).artifacts {
      var j := ParentsAreNamed(settings, events, v);
      hide Run, Registers;
    }
    if Named(settings, events, v, p) {
      var j: nat :| j < |events| && Registers(settings, events, j, v) && p in events[j].call.artifact.basedOn;
      RegistersAnew(settings, events, j, v);
      hide Run, Registers;
      VersionStays(settings, events, j + 1, v);
    }
  }

  /** In every run, two versions are linked in a lineage exactly when the registration of one named the other. */
  lemma LinksAreNamed(settings: Settings, events: seq<Event>, list: seq<Lineage.Artifact>, v: Ref, w: Ref)
    requires ValidSettings(settings) && InOrder(events)
    requires Provenance.Lists(list, Run(settings, events).artifacts) && v in Run(settings, events).artifacts
    ensures Lineage.Linked(list, v, w) <==> Named(settings, events, v, w) || Named(settings, events, w, v)
  {
    Provenance.LinksAreBasedOn(settings, events, list, v, w);
    ParentIffNamed(settings, events, v, w);
    ParentIffNamed(settings, events, w, v);
    if Named(settings, events, v, w) { ParentsExist(settings, events, v, w); }
    hide Run, Named, Lineage.Linked, Provenance.Lists;
  }

  /** Call `i` of the run filed decision `d`. */
  ghost predicate DecidedAt(settings: Settings, events: seq<Event>, i: nat, d: ApprovalDecision)
    requires i < |events|
  {
    var s, call := Run(settings, events[..i]), events[i].call;
    && call.ApprovalCall? && LastReply(settings, events[..i + 1]).DecisionRecorded? && call.attemptRef in s.queue.attempts
    && MayDecide(s, call.attemptRef, call.approval)
    && IsDecided(d, call.approval, call.attemptRef, s.queue.attempts[call.attemptRef].messageRef)
  }

  /** In every run each decision on file says what the call that filed it said. */
  lemma {:induction false} DecisionsAreDecided(settings: Settings, events: seq<Event>, d: Ref) returns (i: nat)
    requires ValidSettings(settings) && d in Run(settings, events).approvals
    ensures i < |events| && DecidedAt(settings, events, i, Run(settings, events).approvals[d])
    ensures events[i].call.approval.approvalRef == d
    decreases |events|
  {
    hide Step, Good, Linked, Counted, IsDecided;
    assert events != [];
    var n := |events| - 1;
    var before := events[..n];
    var s := Run(settings, before);
    RunIsGood(settings, before);
    GoodLinks(settings, s);
    assert events[..n + 1] == events;
    if d in s.approvals {
      i := DecisionsAreDecided(settings, before, d);
      assert before[..i] == events[..i] && before[..i + 1] == events[..i + 1];
      CallEvolves(settings, s, events[n].now, events[n].call);
    } else {
      i := n;
      NewDecisionIsDecided(settings, s, events[n].now, events[n].call, d);
    }
  }

  /**
   * Call `j` of the run started execution `e`, as it is but for its outcome, under the decision that call `i` filed.
   */
  ghost predicate StartedAt(settings: Settings, events: seq<Event>, j: nat, e: SideEffect)
    requires j < |events|
  {
    var s, call, reply := Run(settings, events[..j]), events[j].call, LastReply(settings, events[..j + 1]);
    && call.EffectCall? && reply.EffectStarted? && !reply.deduped && reply.execution.executionRef == e.executionRef
    && call.attemptRef in s.queue.attempts && s.queue.attempts[call.attemptRef].endpointRef == call.effect.endpointRef
    && call.effect.approvalRef in s.approvals
    && Allows(s.approvals[call.effect.approvalRef], call.effect, call.attemptRef, events[j].now)
    && IsStarted(e, call.effect, call.attemptRef, s.queue.attempts[call.attemptRef].messageRef)
  }

  lemma MayStartMeans(s: Ledger, now: Time, a: Ref, req: EffectRequest)
    requires MayStart(s, now, a, req)
    ensures a in s.queue.attempts && s.queue.attempts[a].endpointRef == req.endpointRef
    ensures req.approvalRef in s.approvals && Allows(s.approvals[req.approvalRef], req, a, now)
  {
  }

  lemma {:induction false} EffectsAreStarted(settings: Settings, events: seq<Event>, e: Ref) returns (j: nat)
    requires ValidSettings(settings) && e in Run(settings, events).sideEffects
    ensures j < |events| && StartedAt(settings, events, j, Run(settings, events).sideEffects[e])
    decreases |events|
  {
    hide Step, Good, Linked, Counted, Allows, MayStart;
    assert events != [];
    var n := |events| - 1;
    var before := events[..n];
    var s := Run(settings, before);
    RunIsGood(settings, before);
    GoodLinks(settings, s);
    assert events[..n + 1] == events;
    if e in s.sideEffects {
      j := EffectsAreStarted(settings, before, e);
      assert before[..j] == events[..j] && before[..j + 1] == events[..j + 1];
      CallEvolves(settings, s, events[n].now, events[n].call);
      assert EffectEvolves(s, Run(settings, events), e);
    } else {
      j := n;
      NewEffectIsStarted(settings, s, events[n].now, events[n].call, e);
      MayStartMeans(s, events[n].now, events[n].call.attemptRef, events[n].call.effect);
    }
  }

  /** The approval request of one call covers the effect request of a later one. */
  predicate Covers(approval: ApprovalRequest, approvedAttempt: Ref, effect: EffectRequest, actingAttempt: Ref, now: Time) {
    && approval.status == Approved && approval.approvalRef == effect.approvalRef
       && approval.approvalHash == effect.approvalHash
    && approvedAttempt == actingAttempt && approval.decidedByActorId != approval.requestedByActorId
    && approval.expiresAt.Some? && (approval.expiresAt.value == 0 || now < approval.expiresAt.value)
  }

  lemma CoversByDecision(s: Ledger, d: ApprovalDecision, approval: ApprovalRequest, a: Ref, r: Ref,
                         effect: EffectRequest, b: Ref, now: Time)
    requires MayDecide(s, a, approval) && IsDecided(d, approval, a, r) && Allows(d, effect, b, now)
    requires effect.approvalRef == approval.approvalRef
    ensures Covers(approval, a, effect, b, now)
  {
  }

  /**
   * In every run each execution is what an accepted request described, made by the endpoint that was granted the attempt,
   * after an accepted approval whose own request said approved for that attempt and hash, by someone other than who asked,
   * and had not expired by then.
   */
  lemma EffectsRestOnApprovals(settings: Settings, events: seq<Event>, e: Ref) returns (i: nat, j: nat, k: nat)
    requires ValidSettings(settings) && e in Run(settings, events).sideEffects
    ensures i < j < |events| && k < j
    ensures StartedAt(settings, events, j, Run(settings, events).sideEffects[e])
    ensures events[i].call.ApprovalCall? && LastReply(settings, events[..i + 1]).DecisionRecorded?
    ensures Covers(events[i].call.approval, events[i].call.attemptRef,
                   events[j].call.effect, events[j].call.attemptRef, events[j].now)
    ensures GrantedAt(settings, events, k, events[j].call.attemptRef, Run(settings, events).sideEffects[e].messageRef,
                      events[j].call.effect.endpointRef)
  {
    j := EffectsAreStarted(settings, events, e);
    var s, call := Run(settings, events[..j]), events[j].call;
    hide Step, Run, LastReply;
    i := DecisionsAreDecided(settings, events[..j], call.effect.approvalRef);
    k := AttemptsAreTheClaimers(settings, events[..j], call.attemptRef);
    assert events[..j][..i] == events[..i] && events[..j][..i + 1] == events[..i + 1]
           && events[..j][..k + 1] == events[..k + 1];
    var t := Run(settings, events[..i]);
    CoversByDecision(t, s.approvals[call.effect.approvalRef], events[i].call.approval, events[i].call.attemptRef,
                     t.queue.attempts[events[i].call.attemptRef].messageRef, call.effect, call.attemptRef, events[j].now);
  }

  /** Call `k` of the run reported this outcome of execution `e`, as the endpoint that executes it. */
  ghost predicate OutcomeAt(settings: Settings, events: seq<Event>, k: nat, e: Ref, effect: SideEffect)
    requires k < |events|
  {
    var call := events[k].call;
    && call.EffectCompletionCall? && call.executionRef == e && LastReply(settings, events[..k + 1]).EffectCompleted?
    && call.outcome.status == effect.status && call.outcome.resultRef == effect.resultRef
    && call.outcome.endpointRef == effect.executedByEndpointRef
  }

  lemma MayFinishMeans(s: Ledger, now: Time, e: Ref, req: EffectCompletion)
    requires MayFinish(s, now, e, req)
    ensures e in s.sideEffects && s.sideEffects[e].executedByEndpointRef == req.endpointRef
  {
  }

  /** In every run a finished execution carries the outcome that its executor reported for it. */
  lemma {:induction false} OutcomesAreReported(settings: Settings, events: seq<Event>, e: Ref) returns (k: nat)
    requires ValidSettings(settings) && e in Run(settings, events).sideEffects
    requires Run(settings, events).sideEffects[e].status != Executing
    ensures k < |events| && OutcomeAt(settings, events, k, e, Run(settings, events).sideEffects[e])
    decreases |events|
  {
    hide Step, Good, Linked, Counted, MayFinish, Starts, MayStart, IsStarted;
    assert events != [];
    var n := |events| - 1;
    var before := events[..n];
    var s := Run(settings, before);
    RunIsGood(settings, before);
    GoodLinks(settings, s);
    assert events[..n + 1] == events;
    if e !in s.sideEffects {
      NewEffectIsStarted(settings, s, events[n].now, events[n].call, e);
      assert false;
    } else if Run(settings, events).sideEffects[e] == s.sideEffects[e] {
      k := OutcomesAreReported(settings, before, e);
      assert before[..k + 1] == events[..k + 1];
    } else {
      k := n;
      ChangedEffectIsFinished(settings, s, events[n].now, events[n].call, e);
      MayFinishMeans(s, events[n].now, e, events[n].call.outcome);
    }
  }
}
