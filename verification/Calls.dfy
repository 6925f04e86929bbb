// What one service call, taken at one instant, does to the ledger and answers.
module Calls {
  import opened Wrappers
  import opened Domain
  import opened Routing
  import opened QueueModel
  import Refs

  datatype RegistrationRequest = RegistrationRequest(
    endpointRef: Ref, actorId: string, connectionState: ConnectionState, capabilities: seq<string>, complete: bool)

  datatype IngressRequest = IngressRequest(
    messageRef: Ref,            // empty when the server is to allocate it
    senderEndpointRef: Ref,
    targetCapability: string,
    targetEndpointRef: Ref,
    preferredEndpointRef: Ref,
    dependsOn: seq<Ref>,
    payload: string,
    correlationRef: Ref,
    readbackRequired: bool,
    complete: bool,
    qualityAccepted: bool)      // the verdict of the quality gate

  datatype CheckpointRequest = CheckpointRequest(
    endpointRef: Ref, state: AttemptState, summary: string, artifactRefs: seq<Ref>, complete: bool)

  datatype CompletionRequest = CompletionRequest(
    endpointRef: Ref, summary: string, artifactRefs: seq<Ref>, followUps: seq<IngressRequest>)

  datatype ArtifactRequest = ArtifactRequest(
    endpointRef: Ref, artifactVersionRef: Ref, basedOn: seq<Ref>, complete: bool)

  datatype ApprovalRequest = ApprovalRequest(
    approvalRef: Ref, requestedByActorId: string, approvalHash: string, status: ApprovalStatus,
    decidedByActorId: string,
    expiresAt: Option<Time>,    // None when the text does not parse
    complete: bool)

  datatype EffectRequest = EffectRequest(
    endpointRef: Ref, idempotencyKey: string, protectedScope: string, approvalRef: Ref, approvalHash: string,
    requestedByActorId: string, complete: bool)

  datatype EffectCompletion = EffectCompletion(
    endpointRef: Ref, status: SideEffectStatus, resultRef: Ref, complete: bool)

  datatype Reply =
    | Refused(error: Error)
    | Registered(endpointRef: Ref, acceptedRef: Ref)
    | Beat(expiresAt: Time)
    | Advertised(names: set<string>)
    | Posted(messageRef: Ref, deliveryRef: Ref)
    | Granted(claim: ClaimResult)
    | NothingToClaim
    | Checkpointed(checkpoint: Checkpoint)
    | Leased(attempt: Attempt)
    | Finished(attemptRef: Ref, followUps: seq<Ref>)
    | TaskChanged(messageRefs: set<Ref>, attemptRefs: set<Ref>, affectedMessages: nat, affectedAttempts: nat)
    | Reconciled(count: nat)
    | ArtifactRegistered(version: ArtifactVersion)
    | DecisionRecorded(decision: ApprovalDecision)
    | EffectStarted(execution: SideEffect, deduped: bool)
    | EffectCompleted(execution: SideEffect)

  datatype Turn = Turn(ledger: Ledger, reply: Reply)

  function Refuse(s: Ledger, error: Error): Turn {
    Turn(s, Refused(error))
  }

  // Endpoints

  predicate IsStale(settings: Settings, endpoint: Endpoint, now: Time) {
    endpoint.connectionState != Online || now > endpoint.lastHeartbeatAt + settings.heartbeatTimeout
  }

  /** The endpoints that the snapshot shows as online. */
  function OnlineEndpoints(settings: Settings, s: Ledger, now: Time): map<Ref, Endpoint> {
    map r | r in s.endpoints && !IsStale(settings, s.endpoints[r], now) :: s.endpoints[r]
  }

  predicate ValidCapabilities(capabilities: seq<string>) {
    && capabilities != []
    && (forall i :: 0 <= i < |capabilities| ==> capabilities[i] != "")
    && (forall i, j :: 0 <= i < j < |capabilities| ==> capabilities[i] != capabilities[j])
  }

  predicate ValidRegistration(req: RegistrationRequest) {
    && req.endpointRef != "" && req.actorId != "" && req.complete
    && (req.connectionState == Unset || req.connectionState == Online)
    && ValidCapabilities(req.capabilities)
  }

  function Register(settings: Settings, s: Ledger, now: Time, req: RegistrationRequest): Turn {
    if !ValidRegistration(req) then Refuse(s, InvalidInput)
    else if req.endpointRef in s.endpoints && s.endpoints[req.endpointRef].connectionState == Online
            && !IsStale(settings, s.endpoints[req.endpointRef], now) then Refuse(s, EndpointAlreadyOnline)
    else
      var names := set c | c in req.capabilities;
      var endpoint := Endpoint(req.endpointRef, req.actorId, req.connectionState, names, now);
      Turn(s.(endpoints := s.endpoints[req.endpointRef := endpoint], queue := Bump(s.queue, Refs.Kind.Accepted)),
           Registered(req.endpointRef, NextRef(s.queue, Refs.Kind.Accepted)))
  }

  function Heartbeat(settings: Settings, s: Ledger, now: Time, endpointRef: Ref, state: ConnectionState): Turn {
    if endpointRef == "" || state == Unset then Refuse(s, InvalidInput)
    else if endpointRef !in s.endpoints then Refuse(s, EndpointNotFound)
    else
      var endpoint := s.endpoints[endpointRef].(connectionState := state, lastHeartbeatAt := now);
      Turn(s.(endpoints := s.endpoints[endpointRef := endpoint]), Beat(now + settings.heartbeatTimeout))
  }

  function Advertise(s: Ledger, endpointRef: Ref, capabilities: seq<string>): Turn {
    if !ValidCapabilities(capabilities) then Refuse(s, InvalidInput)
    else if endpointRef !in s.endpoints then Refuse(s, EndpointNotFound)
    else
      var names := set c | c in capabilities;
      Turn(s.(endpoints := s.endpoints[endpointRef := s.endpoints[endpointRef].(capabilities := names)]),
           Advertised(names))
  }

  // Ingress

  predicate ValidIngress(req: IngressRequest) {
    && req.senderEndpointRef != "" && req.targetCapability != "" && req.complete
    && "" !in req.dependsOn
  }

  predicate RouteAvailable(s: Ledger, req: IngressRequest) {
    if req.targetEndpointRef != "" then
      req.targetEndpointRef in s.endpoints
      && CanHandle(s.endpoints[req.targetEndpointRef].capabilities, req.targetCapability)
    else
      exists r :: r in s.endpoints && CanHandle(s.endpoints[r].capabilities, req.targetCapability)
  }

  function IngressRef(q: Queue, req: IngressRequest): Ref {
    if req.messageRef == "" then NextRef(q, Refs.Kind.Message) else req.messageRef
  }

  function NewMessage(q: Queue, req: IngressRequest): Message {
    Message(IngressRef(q, req), NextRef(q, Refs.Kind.Delivery), req.senderEndpointRef, req.targetCapability,
            req.targetEndpointRef, req.preferredEndpointRef, req.dependsOn, req.payload, req.correlationRef,
            req.readbackRequired, MessageState.Available, "", 0)
  }

  /** The counters after an ingress that passed validation, stored or not. */
  function IngressCounted(q: Queue, req: IngressRequest): Queue {
    var q1 := if req.messageRef == "" then Bump(q, Refs.Kind.Message) else q;
    Bump(Bump(q1, Refs.Kind.Delivery), Refs.Kind.QualityDecision)
  }

  function Ingress(s: Ledger, req: IngressRequest): Turn {
    if !ValidIngress(req) then Refuse(s, InvalidInput)
    else if !RouteAvailable(s, req) then Refuse(s, CapabilityNotFound)
    else
      var message, q := NewMessage(s.queue, req), IngressCounted(s.queue, req);
      if !req.qualityAccepted then Refuse(s.(queue := q), QualityRejected)
      else if message.messageRef in q.messages then Refuse(s.(queue := q), InvalidInput)
      else Turn(s.(queue := PutMessage(q, message)), Posted(message.messageRef, message.deliveryRef))
  }

  // Claims

  predicate PreferredStillOnline(settings: Settings, s: Ledger, now: Time, message: Message) {
    && message.preferredEndpointRef != ""
    && message.preferredEndpointRef in s.endpoints
    && !IsStale(settings, s.endpoints[message.preferredEndpointRef], now)
    && CanHandle(s.endpoints[message.preferredEndpointRef].capabilities, message.targetCapability)
  }

  /** The states of a message's stored dependencies. */
  function DependencyStates(q: Queue, message: Message): map<Ref, MessageState> {
    map r | r in message.dependsOn && r in q.messages :: q.messages[r].state
  }

  function ClaimRefusal(settings: Settings, s: Ledger, now: Time, messageRef: Ref, endpointRef: Ref): Option<Error> {
    if endpointRef !in s.endpoints then Some(EndpointNotFound)
    else if messageRef !in s.queue.messages then Some(MessageNotFound)
    else
      var message, endpoint := s.queue.messages[messageRef], s.endpoints[endpointRef];
      if !Claimable(message, endpoint, PreferredStillOnline(settings, s, now, message)) then Some(CapabilityNotFound)
      else if !DependenciesCompleted(message, DependencyStates(s.queue, message)) then Some(MessageUnavailable)
      else if IsStale(settings, endpoint, now) then Some(EndpointStale)
      else None
  }

  function ServiceClaim(settings: Settings, q: Queue, now: Time, messageRef: Ref, endpoint: Endpoint): ClaimRequest {
    ClaimRequest(messageRef, endpoint, NextRef(q, Refs.Kind.Attempt), NextRef(q, Refs.Kind.DeadLetter),
                 now + settings.leaseDuration, now, settings.maxRedelivery)
  }

  /** Both refs of a claim are drawn before the store decides. */
  function ClaimCounted(q: Queue): Queue {
    Bump(Bump(q, Refs.Kind.Attempt), Refs.Kind.DeadLetter)
  }

  function ClaimMessage(settings: Settings, s: Ledger, now: Time, messageRef: Ref, endpointRef: Ref): Turn {
    var refusal := ClaimRefusal(settings, s, now, messageRef, endpointRef);
    if refusal.Some? then Refuse(s, refusal.value)
    else
      var request := ServiceClaim(settings, s.queue, now, messageRef, s.endpoints[endpointRef]);
      var turn := Claim(ClaimCounted(s.queue), request);
      Turn(s.(queue := turn.queue), if turn.reply.Ok? then Granted(turn.reply.value) else Refused(turn.reply.error))
  }

  function PollRequest(settings: Settings, s: Ledger, now: Time, endpoint: Endpoint): ClaimNextRequest {
    ClaimNextRequest(endpoint, "", "", now + settings.leaseDuration, now, settings.maxRedelivery,
                     OnlineEndpoints(settings, s, now))
  }

  function PollRefusal(settings: Settings, s: Ledger, now: Time, endpointRef: Ref): Option<Error> {
    if endpointRef !in s.endpoints then Some(EndpointNotFound)
    else if s.endpoints[endpointRef].capabilities == {} then Some(CapabilityNotFound)
    else if IsStale(settings, s.endpoints[endpointRef], now) then Some(EndpointStale)
    else None
  }

  ghost function ClaimNextMessage(settings: Settings, s: Ledger, now: Time, endpointRef: Ref): Turn {
    var refusal := PollRefusal(settings, s, now, endpointRef);
    if refusal.Some? then Refuse(s, refusal.value)
    else
      var turn := ClaimNext(Reconcile(s.queue, now), PollRequest(settings, s, now, s.endpoints[endpointRef]));
      Turn(s.(queue := turn.queue), if turn.reply.Some? then Granted(turn.reply.value) else NothingToClaim)
  }

  // Attempts

  function LiveRefusal(q: Queue, now: Time, attemptRef: Ref, endpointRef: Ref): Option<Error> {
    if attemptRef !in q.attempts then Some(AttemptNotFound)
    else if q.attempts[attemptRef].endpointRef != endpointRef || AttemptClosed(q.attempts[attemptRef].state) then
      Some(StaleAttempt)
    else if LeasePast(q.attempts[attemptRef], now) then Some(LeaseExpired)
    else None
  }

  predicate ValidCheckpoint(req: CheckpointRequest) {
    req.endpointRef != "" && req.summary != "" && req.state != AttemptState.Orphaned && req.complete
  }

  /** Every listed artifact version exists and belongs to the message. */
  predicate ArtifactsOfMessage(artifacts: map<Ref, ArtifactVersion>, refs: seq<Ref>, messageRef: Ref) {
    forall r :: r in refs ==> r in artifacts && artifacts[r].messageRef == messageRef
  }

  function CheckpointRefusal(s: Ledger, now: Time, attemptRef: Ref, req: CheckpointRequest): Option<Error> {
    if !ValidCheckpoint(req) then Some(InvalidInput)
    else
      var refusal := LiveRefusal(s.queue, now, attemptRef, req.endpointRef);
      if refusal.Some? then refusal
      else if !ArtifactsOfMessage(s.artifacts, req.artifactRefs, s.queue.attempts[attemptRef].messageRef) then
        Some(ArtifactNotFound)
      else None
  }

  function StateAfterCheckpoint(state: MessageState, attemptState: AttemptState): MessageState {
    match attemptState
    case InProgress => MessageState.Processing
    case Validating => MessageState.Processing
    case BlockedMissingFields => MessageState.InputRequired
    case Failed => MessageState.Failed
    case Completed => MessageState.Completed
    case _ => state
  }

  function NewCheckpoint(q: Queue, a: Attempt, req: CheckpointRequest): Checkpoint {
    Checkpoint(NextRef(q, Refs.Kind.Checkpoint), a.attemptRef, req.endpointRef, req.state, req.summary,
               |CheckpointsOf(q, a.attemptRef)| + 1, req.artifactRefs)
  }

  /** The attempt and its checkpoints after an accepted checkpoint. */
  function WithCheckpoint(q: Queue, a: Attempt, req: CheckpointRequest): Queue {
    var c := NewCheckpoint(q, a, req);
    PutAttempt(AppendCheckpoint(Bump(q, Refs.Kind.Checkpoint), c), a.(state := req.state, revision := c.revision))
  }

  function SubmitCheckpoint(s: Ledger, now: Time, attemptRef: Ref, req: CheckpointRequest): Turn {
    var refusal := CheckpointRefusal(s, now, attemptRef, req);
    if refusal.Some? then Refuse(s, refusal.value)
    else
      var a := s.queue.attempts[attemptRef];
      var q := WithCheckpoint(s.queue, a, req);
      if a.messageRef !in q.messages then Refuse(s.(queue := q), MessageNotFound)
      else
        var m := q.messages[a.messageRef];
        Turn(s.(queue := PutMessage(q, m.(state := StateAfterCheckpoint(m.state, req.state)))),
             Checkpointed(NewCheckpoint(s.queue, a, req)))
  }

  function RefreshLease(settings: Settings, s: Ledger, now: Time, attemptRef: Ref, endpointRef: Ref): Turn {
    if attemptRef !in s.queue.attempts then Refuse(s, AttemptNotFound)
    else if endpointRef == "" then Refuse(s, StaleAttempt)
    else
      var refusal := LiveRefusal(s.queue, now, attemptRef, endpointRef);
      if refusal.Some? then Refuse(s, refusal.value)
      else
        var a := s.queue.attempts[attemptRef].(leaseExpiresAt := now + settings.leaseDuration);
        Turn(s.(queue := PutAttempt(s.queue, a)), Leased(a))
  }

  // Completion and follow-ups

  datatype PostTurn = PostTurn(ledger: Ledger, reply: Result<seq<Ref>>)

  /** Follow-ups are posted in order; the first refusal stops the rest but undoes nothing. */
  function PostAll(s: Ledger, reqs: seq<IngressRequest>): PostTurn
    decreases |reqs|
  {
    if reqs == [] then PostTurn(s, Ok([])) else
    var first := Ingress(s, reqs[0]);
    match first.reply
    case Posted(ref, _) =>
      var rest := PostAll(first.ledger, reqs[1..]);
      PostTurn(rest.ledger, if rest.reply.Ok? then Ok([ref] + rest.reply.value) else rest.reply)
    case Refused(error) => PostTurn(first.ledger, Err(error))
    case _ => PostTurn(first.ledger, Ok([]))
  }

  /** A follow-up inherits the task, and depends on its parent when it names no dependency. */
  function FollowUp(req: IngressRequest, senderEndpointRef: Ref, parent: Message): IngressRequest {
    req.(senderEndpointRef := senderEndpointRef, correlationRef := parent.correlationRef,
         dependsOn := if req.dependsOn == [] then [parent.messageRef] else req.dependsOn)
  }

  function FollowUps(reqs: seq<IngressRequest>, senderEndpointRef: Ref, parent: Message): seq<IngressRequest> {
    seq(|reqs|, i requires 0 <= i < |reqs| => FollowUp(reqs[i], senderEndpointRef, parent))
  }

  function CompletionCheckpoint(req: CompletionRequest): CheckpointRequest {
    CheckpointRequest(req.endpointRef, AttemptState.Completed, req.summary, req.artifactRefs, true)
  }

  function CompleteAttempt(s: Ledger, now: Time, attemptRef: Ref, req: CompletionRequest): Turn {
    if req.endpointRef == "" || req.summary == "" then Refuse(s, InvalidInput)
    else
      var turn := SubmitCheckpoint(s, now, attemptRef, CompletionCheckpoint(req));
      if turn.reply.Refused? then turn
      else
        var parent := turn.ledger.queue.messages[s.queue.attempts[attemptRef].messageRef];
        var posted := PostAll(turn.ledger, FollowUps(req.followUps, req.endpointRef, parent));
        Turn(posted.ledger,
             if posted.reply.Ok? then Finished(attemptRef, posted.reply.value) else Refused(posted.reply.error))
  }

  // Task commands

  function TaskRefs(q: Queue, taskRef: Ref): set<Ref> {
    set r | r in q.messages && q.messages[r].correlationRef == taskRef
  }

  function Cancelable(q: Queue, taskRef: Ref): set<Ref> {
    set r | r in TaskRefs(q, taskRef)
            && q.messages[r].state != MessageState.Completed && q.messages[r].state != MessageState.Canceled
  }

  predicate RetryableState(state: MessageState) {
    state == MessageState.Failed || state == MessageState.DeadLettered
    || state == MessageState.InputRequired || state == MessageState.Canceled
  }

  function Retryable(q: Queue, taskRef: Ref): set<Ref> {
    set r | r in TaskRefs(q, taskRef) && RetryableState(q.messages[r].state)
  }

  /** The open attempts that these messages point at. */
  function OpenAttempts(q: Queue, refs: set<Ref>): set<Ref> {
    set a | a in CurrentAttempts(q, refs) && a != "" && a in q.attempts && !AttemptClosed(q.attempts[a].state)
  }

  function CancelRefs(q: Queue, refs: set<Ref>): Queue {
    q.(messages := map r | r in q.messages ::
         if r in refs then q.messages[r].(state := MessageState.Canceled) else q.messages[r],
       attempts := map a | a in q.attempts ::
         if a in OpenAttempts(q, refs) then q.attempts[a].(state := AttemptState.Canceled) else q.attempts[a])
  }

  function RetryRefs(q: Queue, refs: set<Ref>): Queue {
    q.(messages := map r | r in q.messages ::
         if r in refs then q.messages[r].(state := MessageState.Available, attemptRef := "") else q.messages[r])
  }

  function CancelTask(s: Ledger, taskRef: Ref): Turn {
    if taskRef == "" then Refuse(s, InvalidInput)
    else if TaskRefs(s.queue, taskRef) == {} then Refuse(s, MessageNotFound)
    else
      var refs := Cancelable(s.queue, taskRef);
      var open := OpenAttempts(s.queue, refs);
      Turn(s.(queue := CancelRefs(s.queue, refs)), TaskChanged(refs, open, |refs|, |open|))
  }

  function RetryTask(s: Ledger, taskRef: Ref): Turn {
    if taskRef == "" then Refuse(s, InvalidInput)
    else if TaskRefs(s.queue, taskRef) == {} then Refuse(s, MessageNotFound)
    else
      var refs := Retryable(s.queue, taskRef);
      Turn(s.(queue := RetryRefs(s.queue, refs)), TaskChanged(refs, {}, |refs|, 0))
  }

  function ReplayRequest(original: Message, qualityAccepted: bool): IngressRequest {
    IngressRequest("", original.senderEndpointRef, original.targetCapability, original.targetEndpointRef,
                   original.preferredEndpointRef, original.dependsOn, original.payload, original.correlationRef,
                   original.readbackRequired, true, qualityAccepted)
  }

  /** A replay posts a copy of the buried message under a new ref. */
  function ReplayDeadLetter(s: Ledger, deadLetterRef: Ref, qualityAccepted: bool): Turn {
    if deadLetterRef == "" then Refuse(s, InvalidInput)
    else if deadLetterRef !in s.queue.deadLetters then Refuse(s, MessageNotFound)
    else if s.queue.deadLetters[deadLetterRef].messageRef !in s.queue.messages then Refuse(s, MessageNotFound)
    else
      var original := s.queue.messages[s.queue.deadLetters[deadLetterRef].messageRef];
      Ingress(s, ReplayRequest(original, qualityAccepted))
  }

  function ReconcileExpiredClaims(s: Ledger, now: Time): Turn {
    Turn(s.(queue := Reconcile(s.queue, now)), Reconciled(|ExpiredClaims(s.queue, now)|))
  }

  // Artifacts

  /** What is checked before the version is filed. */
  function ArtifactChecks(s: Ledger, now: Time, attemptRef: Ref, req: ArtifactRequest): Option<Error> {
    if !req.complete || req.endpointRef == "" || req.artifactVersionRef == "" then Some(InvalidInput)
    else
      var refusal := LiveRefusal(s.queue, now, attemptRef, req.endpointRef);
      if refusal.Some? then refusal
      else if req.endpointRef !in s.endpoints then Some(EndpointNotFound)
      else if s.queue.attempts[attemptRef].messageRef !in s.queue.messages then Some(MessageNotFound)
      else if exists r :: r in req.basedOn && r !in s.artifacts then Some(ArtifactNotFound)
      else None
  }

  function ArtifactRefusal(s: Ledger, now: Time, attemptRef: Ref, req: ArtifactRequest): Option<Error> {
    var checks := ArtifactChecks(s, now, attemptRef, req);
    if checks.Some? then checks else if req.artifactVersionRef in s.artifacts then Some(ArtifactExists) else None
  }

  function RegisterArtifactVersion(s: Ledger, now: Time, attemptRef: Ref, req: ArtifactRequest): Turn {
    var refusal := ArtifactRefusal(s, now, attemptRef, req);
    if refusal.Some? then Refuse(s, refusal.value)
    else
      var a := s.queue.attempts[attemptRef];
      var version := ArtifactVersion(req.artifactVersionRef, req.basedOn, req.endpointRef, a.messageRef, a.attemptRef, now);
      Turn(s.(artifacts := s.artifacts[req.artifactVersionRef := version]), ArtifactRegistered(version))
  }

  // Approvals and side effects

  /** What is checked before the decision is filed. */
  function ApprovalChecks(s: Ledger, attemptRef: Ref, req: ApprovalRequest): Option<Error> {
    if !req.complete || req.approvalRef == "" || req.requestedByActorId == "" || req.approvalHash == "" then
      Some(InvalidInput)
    else if req.status != Pending && req.decidedByActorId == "" then Some(InvalidInput)
    else if req.status != Pending && req.decidedByActorId == req.requestedByActorId then Some(SelfApproval)
    else if attemptRef !in s.queue.attempts then Some(AttemptNotFound)
    else if req.expiresAt.None? then Some(InvalidInput)
    else None
  }

  function ApprovalRefusal(s: Ledger, attemptRef: Ref, req: ApprovalRequest): Option<Error> {
    var checks := ApprovalChecks(s, attemptRef, req);
    if checks.Some? then checks else if req.approvalRef in s.approvals then Some(SideEffectConflict) else None
  }

  function RecordApprovalDecision(s: Ledger, attemptRef: Ref, req: ApprovalRequest): Turn {
    var refusal := ApprovalRefusal(s, attemptRef, req);
    if refusal.Some? then Refuse(s, refusal.value)
    else
      var a := s.queue.attempts[attemptRef];
      var decision := ApprovalDecision(req.approvalRef, a.attemptRef, a.messageRef, req.requestedByActorId,
                                       req.approvalHash, req.status, req.decidedByActorId, req.expiresAt.value);
      Turn(s.(approvals := s.approvals[req.approvalRef := decision]), DecisionRecorded(decision))
  }

  function DecisionRefusal(s: Ledger, now: Time, attemptRef: Ref, req: EffectRequest): Option<Error> {
    if req.approvalRef !in s.approvals then Some(ApprovalRequired)
    else
      var approval := s.approvals[req.approvalRef];
      if approval.attemptRef != attemptRef then Some(ApprovalNotFound)
      else if approval.status != Approved then Some(ApprovalRejected)
      else if approval.expiresAt != 0 && now >= approval.expiresAt then Some(ApprovalExpired)
      else if approval.approvalHash != req.approvalHash then Some(ApprovalHashMismatch)
      else None
  }

  predicate ValidEffect(req: EffectRequest) {
    && req.complete && req.endpointRef != "" && req.idempotencyKey != "" && req.protectedScope != ""
    && req.approvalRef != "" && req.approvalHash != "" && req.requestedByActorId != ""
  }

  function EffectRefusal(s: Ledger, now: Time, attemptRef: Ref, req: EffectRequest): Option<Error> {
    if !ValidEffect(req) then Some(InvalidInput)
    else
      var refusal := LiveRefusal(s.queue, now, attemptRef, req.endpointRef);
      if refusal.Some? then refusal
      else if req.endpointRef !in s.endpoints then Some(EndpointNotFound)
      else DecisionRefusal(s, now, s.queue.attempts[attemptRef].attemptRef, req)
  }

  /** The stored executions with this key and scope. */
  function EffectsFor(sideEffects: map<Ref, SideEffect>, key: string, scope: string): set<Ref> {
    set r | r in sideEffects && sideEffects[r].idempotencyKey == key && sideEffects[r].protectedScope == scope
  }

  function NewEffect(s: Ledger, a: Attempt, req: EffectRequest): SideEffect {
    SideEffect(NextRef(s.queue, Refs.Kind.SideEffect), req.idempotencyKey, req.protectedScope, req.approvalRef,
               req.approvalHash, a.messageRef, a.attemptRef, req.requestedByActorId, req.endpointRef, Executing, "")
  }

  /** An execution with the same key and scope is answered instead of a second one being filed. */
  ghost function FileEffect(s: Ledger, effect: SideEffect): Turn {
    var earlier := EffectsFor(s.sideEffects, effect.idempotencyKey, effect.protectedScope);
    if earlier != {} then
      var r :| r in earlier;
      Turn(s, EffectStarted(s.sideEffects[r], true))
    else if effect.executionRef in s.sideEffects then Refuse(s, SideEffectConflict)
    else Turn(s.(sideEffects := s.sideEffects[effect.executionRef := effect]), EffectStarted(effect, false))
  }

  ghost function StartSideEffect(s: Ledger, now: Time, attemptRef: Ref, req: EffectRequest): Turn {
    var refusal := EffectRefusal(s, now, attemptRef, req);
    if refusal.Some? then Refuse(s, refusal.value)
    else FileEffect(s.(queue := Bump(s.queue, Refs.Kind.SideEffect)), NewEffect(s, s.queue.attempts[attemptRef], req))
  }

  predicate ValidEffectCompletion(req: EffectCompletion) {
    && req.endpointRef != "" && req.complete && req.status != Executing
    && (req.status == SideEffectStatus.Succeeded ==> req.resultRef != "")
  }

  function CompleteSideEffect(s: Ledger, now: Time, executionRef: Ref, req: EffectCompletion): Turn {
    if !ValidEffectCompletion(req) then Refuse(s, InvalidInput)
    else if executionRef !in s.sideEffects then Refuse(s, SideEffectNotFound)
    else
      var effect := s.sideEffects[executionRef];
      if effect.executedByEndpointRef != req.endpointRef || effect.status != Executing then Refuse(s, SideEffectConflict)
      else
        var refusal := LiveRefusal(s.queue, now, effect.attemptRef, req.endpointRef);
        if refusal.Some? then Refuse(s, refusal.value)
        else
          var completed := effect.(status := req.status, resultRef := req.resultRef);
          Turn(s.(sideEffects := s.sideEffects[executionRef := completed]), EffectCompleted(completed))
  }

  // Every call of the service

  datatype Call =
    | RegisterCall(registration: RegistrationRequest)
    | HeartbeatCall(endpointRef: Ref, state: ConnectionState)
    | AdvertiseCall(endpointRef: Ref, capabilities: seq<string>)
    | IngressCall(ingress: IngressRequest)
    | ClaimCall(messageRef: Ref, endpointRef: Ref)
    | ClaimNextCall(endpointRef: Ref)
    | CheckpointCall(attemptRef: Ref, checkpoint: CheckpointRequest)
    | RefreshCall(attemptRef: Ref, endpointRef: Ref)
    | CompleteCall(attemptRef: Ref, completion: CompletionRequest)
    | CancelCall(taskRef: Ref)
    | RetryCall(taskRef: Ref)
    | ReplayCall(deadLetterRef: Ref, qualityAccepted: bool)
    | ReconcileCall
    | ArtifactCall(attemptRef: Ref, artifact: ArtifactRequest)
    | ApprovalCall(attemptRef: Ref, approval: ApprovalRequest)
    | EffectCall(attemptRef: Ref, effect: EffectRequest)
    | EffectCompletionCall(executionRef: Ref, outcome: EffectCompletion)

  ghost function Step(settings: Settings, s: Ledger, now: Time, call: Call): Turn {
    match call
    case RegisterCall(req) => Register(settings, s, now, req)
    case HeartbeatCall(e, state) => Heartbeat(settings, s, now, e, state)
    case AdvertiseCall(e, capabilities) => Advertise(s, e, capabilities)
    case IngressCall(req) => Ingress(s, req)
    case ClaimCall(m, e) => ClaimMessage(settings, s, now, m, e)
    case ClaimNextCall(e) => ClaimNextMessage(settings, s, now, e)
    case CheckpointCall(a, req) => SubmitCheckpoint(s, now, a, req)
    case RefreshCall(a, e) => RefreshLease(settings, s, now, a, e)
    case CompleteCall(a, req) => CompleteAttempt(s, now, a, req)
    case CancelCall(task) => CancelTask(s, task)
    case RetryCall(task) => RetryTask(s, task)
    case ReplayCall(d, accepted) => ReplayDeadLetter(s, d, accepted)
    case ReconcileCall => ReconcileExpiredClaims(s, now)
    case ArtifactCall(a, req) => RegisterArtifactVersion(s, now, a, req)
    case ApprovalCall(a, req) => RecordApprovalDecision(s, a, req)
    case EffectCall(a, req) => StartSideEffect(s, now, a, req)
    case EffectCompletionCall(r, req) => CompleteSideEffect(s, now, r, req)
  }
}
