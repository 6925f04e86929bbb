// Records of the message ledger. Only the fields that the modelled code reads,
// tests or returns are kept; a request's `complete` flag stands for its other
// required text fields being non-blank.
module Domain {

  type Ref = string

  /** Nanoseconds; 0 is the zero time. */
  type Time = nat

  datatype Error =
    | InvalidInput | EndpointAlreadyOnline | EndpointNotFound | CapabilityNotFound
    | MessageNotFound | MessageUnavailable | AttemptNotFound | StaleAttempt | EndpointStale
    | LeaseExpired | MessageDeadLettered | QualityRejected
    | ArtifactNotFound | ArtifactExists
    | ApprovalNotFound | ApprovalRequired | ApprovalRejected | ApprovalExpired
    | ApprovalHashMismatch | SelfApproval
    | SideEffectNotFound | SideEffectConflict
    | ConstraintViolated  // a uniqueness constraint of the SQL schema

  datatype Result<+T> = Ok(value: T) | Err(error: Error)

  datatype MessageState =
    | Available | Claimed | Processing | TakeoverCandidate | InputRequired
    | Completed | Failed | DeadLettered | Canceled

  datatype AttemptState =
    | Claimed | Validating | BlockedMissingFields | InProgress | Retrying
    | Orphaned | Completed | Failed | Canceled

  datatype ConnectionState = Unset | Online | Stale | Offline

  datatype ApprovalStatus = Pending | Approved | Rejected | Expired | Canceled

  datatype SideEffectStatus = Executing | Succeeded | Failed | Canceled

  datatype Settings = Settings(heartbeatTimeout: nat, leaseDuration: nat, maxRedelivery: nat)

  predicate ValidSettings(settings: Settings) {
    settings.heartbeatTimeout > 0 && settings.leaseDuration > 0
  }

  datatype Endpoint = Endpoint(
    endpointRef: Ref,
    actorId: string,
    connectionState: ConnectionState,
    capabilities: set<string>,
    lastHeartbeatAt: Time)

  datatype Message = Message(
    messageRef: Ref,
    deliveryRef: Ref,
    senderEndpointRef: Ref,
    targetCapability: string,
    targetEndpointRef: Ref,
    preferredEndpointRef: Ref,
    dependsOn: seq<Ref>,
    payload: string,
    correlationRef: Ref,
    readbackRequired: bool,
    state: MessageState,
    attemptRef: Ref,
    redeliveryCount: nat)

  datatype Attempt = Attempt(
    attemptRef: Ref,
    messageRef: Ref,
    endpointRef: Ref,
    state: AttemptState,
    leaseExpiresAt: Time,
    revision: nat,
    attemptNo: nat,
    claimEpoch: nat)

  datatype Checkpoint = Checkpoint(
    checkpointRef: Ref,
    attemptRef: Ref,
    endpointRef: Ref,
    state: AttemptState,
    summary: string,
    revision: nat,
    artifactRefs: seq<Ref>)

  datatype DeadLetter = DeadLetter(
    deadLetterRef: Ref,
    messageRef: Ref,
    lastAttemptRef: Ref,
    lastCheckpointRef: Ref,
    redeliveryCount: nat,
    createdAt: Time)

  datatype ArtifactVersion = ArtifactVersion(
    artifactVersionRef: Ref,
    basedOn: seq<Ref>,
    createdByEndpointRef: Ref,
    messageRef: Ref,
    attemptRef: Ref,
    createdAt: Time)

  datatype ApprovalDecision = ApprovalDecision(
    approvalRef: Ref,
    attemptRef: Ref,
    messageRef: Ref,
    requestedByActorId: string,
    approvalHash: string,
    status: ApprovalStatus,
    decidedByActorId: string,
    expiresAt: Time)

  datatype SideEffect = SideEffect(
    executionRef: Ref,
    idempotencyKey: string,
    protectedScope: string,
    approvalRef: Ref,
    approvalHash: string,
    messageRef: Ref,
    attemptRef: Ref,
    requestedByActorId: string,
    executedByEndpointRef: Ref,
    status: SideEffectStatus,
    resultRef: Ref)

  datatype ClaimRequest = ClaimRequest(
    messageRef: Ref,
    endpoint: Endpoint,
    attemptRef: Ref,
    deadLetterRef: Ref,
    leaseExpiresAt: Time,
    now: Time,
    maxRedelivery: nat)

  /** The refs are empty when the store is to allocate them. */
  datatype ClaimNextRequest = ClaimNextRequest(
    endpoint: Endpoint,
    attemptRef: Ref,
    deadLetterRef: Ref,
    leaseExpiresAt: Time,
    now: Time,
    maxRedelivery: nat,
    preferredEndpoints: map<Ref, Endpoint>)

  datatype ClaimResult = ClaimResult(
    message: Message,
    attempt: Attempt,
    takeover: bool,
    lastCheckpointRef: Ref,
    resumeSummary: string,
    resumeArtifactRefs: seq<Ref>)

  /** The closed/open split that every guard of the service uses. */
  predicate AttemptClosed(state: AttemptState) {
    state == AttemptState.Completed || state == AttemptState.Failed
    || state == AttemptState.Orphaned || state == AttemptState.Canceled
  }

  /** The service's test: a zero lease never expires. */
  predicate LeasePast(attempt: Attempt, now: Time) {
    attempt.leaseExpiresAt != 0 && now > attempt.leaseExpiresAt
  }

  /** Open and inside its lease: the worker holding it may still act. */
  predicate Live(attempt: Attempt, now: Time) {
    !AttemptClosed(attempt.state) && !LeasePast(attempt, now)
  }

  /** A message state in which a worker is supposed to hold the message. */
  predicate Held(state: MessageState) {
    state == MessageState.Claimed || state == MessageState.Processing
  }
}
