// What one store operation does to the ledger, as functions on its value.
// The Queue is the part behind the processing, message and ref ports; the
// Ledger adds endpoints, artifacts, approvals and side effects.
module QueueModel {
  import opened Wrappers
  import opened Domain
  import opened Routing
  import opened Text
  import Refs

  datatype Queue = Queue(
    sequences: map<Refs.Kind, nat>,
    messages: map<Ref, Message>,
    attempts: map<Ref, Attempt>,
    checkpoints: map<Ref, seq<Checkpoint>>,
    deadLetters: map<Ref, DeadLetter>)

  datatype Ledger = Ledger(
    queue: Queue,
    endpoints: map<Ref, Endpoint>,
    artifacts: map<Ref, ArtifactVersion>,
    approvals: map<Ref, ApprovalDecision>,
    sideEffects: map<Ref, SideEffect>)

  const EMPTY_QUEUE := Queue(map[], map[], map[], map[], map[])
  const EMPTY_LEDGER := Ledger(EMPTY_QUEUE, map[], map[], map[], map[])

  datatype ClaimTurn = ClaimTurn(queue: Queue, reply: Result<ClaimResult>)
  datatype NextTurn = NextTurn(queue: Queue, reply: Option<ClaimResult>)

  /** Every record is filed under its own ref. */
  ghost predicate Keyed(q: Queue) {
    && (forall r :: r in q.messages ==> q.messages[r].messageRef == r)
    && (forall a :: a in q.attempts ==> q.attempts[a].attemptRef == a)
    && (forall d :: d in q.deadLetters ==> q.deadLetters[d].deadLetterRef == d)
  }

  ghost predicate KeyedLedger(s: Ledger) {
    && Keyed(s.queue)
    && (forall r :: r in s.endpoints ==> s.endpoints[r].endpointRef == r)
    && (forall r :: r in s.approvals ==> s.approvals[r].approvalRef == r)
    && (forall r :: r in s.sideEffects ==> s.sideEffects[r].executionRef == r)
  }

  // Refs

  function Counter(q: Queue, kind: Refs.Kind): nat {
    if kind in q.sequences then q.sequences[kind] else 0
  }

  function Bump(q: Queue, kind: Refs.Kind): Queue {
    q.(sequences := q.sequences[kind := Counter(q, kind) + 1])
  }

  /** The ref that the next allocation of this kind returns. */
  function NextRef(q: Queue, kind: Refs.Kind): Ref {
    Refs.AllocRef(kind, Counter(q, kind) + 1)
  }

  // Checkpoints

  function CheckpointsOf(q: Queue, attemptRef: Ref): seq<Checkpoint> {
    if attemptRef in q.checkpoints then q.checkpoints[attemptRef] else []
  }

  /** The first checkpoint of highest revision. */
  function LatestIndex(items: seq<Checkpoint>): (k: nat)
    requires items != []
    ensures k < |items|
    ensures forall i :: 0 <= i < |items| ==> items[i].revision <= items[k].revision
    ensures forall i :: 0 <= i < k ==> items[i].revision < items[k].revision
  {
    var n := |items| - 1;
    if n == 0 then 0 else
      var k := LatestIndex(items[..n]);
      if items[n].revision > items[k].revision then n else k
  }

  function Latest(items: seq<Checkpoint>): Option<Checkpoint> {
    if items == [] then None else Some(items[LatestIndex(items)])
  }

  /** Revisions are assigned by the store: the count so far plus one. */
  function Numbered(q: Queue, checkpoint: Checkpoint): Checkpoint {
    checkpoint.(revision := |CheckpointsOf(q, checkpoint.attemptRef)| + 1)
  }

  function AppendCheckpoint(q: Queue, checkpoint: Checkpoint): Queue {
    var a := checkpoint.attemptRef;
    q.(checkpoints := q.checkpoints[a := CheckpointsOf(q, a) + [Numbered(q, checkpoint)]])
  }

  // Single-record updates

  function PutMessage(q: Queue, m: Message): Queue {
    q.(messages := q.messages[m.messageRef := m])
  }

  function PutAttempt(q: Queue, a: Attempt): Queue {
    q.(attempts := q.attempts[a.attemptRef := a])
  }

  function Orphan(q: Queue, a: Attempt): Queue {
    PutAttempt(q, a.(state := AttemptState.Orphaned))
  }

  // Claims

  function NewAttempt(m: Message, c: ClaimRequest): Attempt {
    Attempt(c.attemptRef, m.messageRef, c.endpoint.endpointRef, AttemptState.Claimed, c.leaseExpiresAt,
            1, m.redeliveryCount + 1, m.redeliveryCount + 1)
  }

  function GrantedMessage(m: Message, c: ClaimRequest): Message {
    m.(state := MessageState.Claimed, attemptRef := c.attemptRef)
  }

  function Grant(q: Queue, m: Message, c: ClaimRequest): Queue {
    PutMessage(PutAttempt(q, NewAttempt(m, c)), GrantedMessage(m, c))
  }

  function Redelivered(m: Message): Message {
    m.(redeliveryCount := m.redeliveryCount + 1)
  }

  /** What a claimer is told: its attempt, and on a takeover the previous attempt's last checkpoint. */
  function GrantReply(m: Message, c: ClaimRequest, takeover: bool, latest: Option<Checkpoint>): ClaimResult {
    match latest
    case None => ClaimResult(GrantedMessage(m, c), NewAttempt(m, c), takeover, "", "", [])
    case Some(p) =>
      ClaimResult(GrantedMessage(m, c), NewAttempt(m, c), takeover, p.checkpointRef, p.summary, p.artifactRefs)
  }

  function TakeOver(q: Queue, m: Message, c: ClaimRequest): ClaimTurn {
    ClaimTurn(Grant(q, Redelivered(m), c),
              Ok(GrantReply(Redelivered(m), c, true, Latest(CheckpointsOf(q, m.attemptRef)))))
  }

  function Letter(q: Queue, m: Message, attemptRef: Ref, c: ClaimRequest): DeadLetter {
    var latest := Latest(CheckpointsOf(q, attemptRef));
    DeadLetter(c.deadLetterRef, m.messageRef, attemptRef,
               if latest.Some? then latest.value.checkpointRef else "", m.redeliveryCount, c.now)
  }

  function Bury(q: Queue, m: Message, a: Attempt, c: ClaimRequest): Queue {
    var buried := PutMessage(Orphan(q, a), m.(state := MessageState.DeadLettered));
    buried.(deadLetters := q.deadLetters[c.deadLetterRef := Letter(q, m, a.attemptRef, c)])
  }

  /** Take the message over, or bury it once its redeliveries are used up. */
  function TakeOverOrBury(q: Queue, m: Message, a: Attempt, c: ClaimRequest): ClaimTurn {
    if m.redeliveryCount >= c.maxRedelivery then ClaimTurn(Bury(q, m, a, c), Err(MessageDeadLettered))
    else TakeOver(Orphan(q, a), m, c)
  }

  function Claim(q: Queue, c: ClaimRequest): ClaimTurn {
    if c.messageRef !in q.messages then ClaimTurn(q, Err(MessageNotFound)) else
    var m := q.messages[c.messageRef];
    match m.state
    case Available => ClaimTurn(Grant(q, m, c), Ok(GrantReply(m, c, false, None)))
    case DeadLettered => ClaimTurn(q, Err(MessageDeadLettered))
    case TakeoverCandidate =>
      if m.attemptRef !in q.attempts then ClaimTurn(q, Err(MessageUnavailable))
      else if m.redeliveryCount >= c.maxRedelivery then
        ClaimTurn(Bury(q, m, q.attempts[m.attemptRef], c), Err(MessageDeadLettered))
      else TakeOver(q, m, c)
    case Claimed =>
      if ClaimPast(q, m, c.now) then TakeOverOrBury(q, m, q.attempts[m.attemptRef], c)
      else ClaimTurn(q, Err(MessageUnavailable))
    case Processing =>
      if ClaimPast(q, m, c.now) then TakeOverOrBury(q, m, q.attempts[m.attemptRef], c)
      else ClaimTurn(q, Err(MessageUnavailable))
    case _ => ClaimTurn(q, Err(MessageUnavailable))
  }

  /** The message's current attempt is stored and its lease is strictly past. */
  predicate ClaimPast(q: Queue, m: Message, now: Time) {
    m.attemptRef in q.attempts && now > q.attempts[m.attemptRef].leaseExpiresAt
  }

  // Reconciliation

  predicate ClaimExpired(q: Queue, r: Ref, now: Time) {
    r in q.messages && Held(q.messages[r].state) && ClaimPast(q, q.messages[r], now)
  }

  function ExpiredClaims(q: Queue, now: Time): set<Ref> {
    set r | r in q.messages && ClaimExpired(q, r, now)
  }

  /** The attempts that these messages point at. */
  function CurrentAttempts(q: Queue, refs: set<Ref>): set<Ref> {
    set r | r in refs && r in q.messages :: q.messages[r].attemptRef
  }

  /** Offer these messages for takeover and orphan the attempts they point at. */
  function Requeue(q: Queue, refs: set<Ref>): Queue {
    q.(messages := map r | r in q.messages ::
         if r in refs then q.messages[r].(state := MessageState.TakeoverCandidate) else q.messages[r],
       attempts := map a | a in q.attempts ::
         if a in CurrentAttempts(q, refs) then q.attempts[a].(state := AttemptState.Orphaned) else q.attempts[a])
  }

  function Reconcile(q: Queue, now: Time): Queue {
    Requeue(q, ExpiredClaims(q, now))
  }

  // Polling

  function States(q: Queue): map<Ref, MessageState> {
    map r | r in q.messages :: q.messages[r].state
  }

  predicate Eligible(q: Queue, r: Ref, c: ClaimNextRequest) {
    && r in q.messages
    && Claimable(q.messages[r], c.endpoint, PreferredOnline(q.messages[r], c.preferredEndpoints))
    && DependenciesCompleted(q.messages[r], States(q))
  }

  function EligibleIn(q: Queue, state: MessageState, c: ClaimNextRequest): set<Ref> {
    set r | r in q.messages && q.messages[r].state == state && Eligible(q, r, c)
  }

  /** Takeover candidates come before available messages; within a state the first ref in string order wins. */
  ghost function NextEligible(q: Queue, c: ClaimNextRequest): Option<Ref> {
    var orphaned := EligibleIn(q, MessageState.TakeoverCandidate, c);
    var available := EligibleIn(q, MessageState.Available, c);
    if orphaned != {} then Some(Least(orphaned))
    else if available != {} then Some(Least(available))
    else None
  }

  /** Refs that the request leaves empty are allocated, the attempt's before the dead letter's. */
  function WithRefs(q: Queue, c: ClaimNextRequest): Queue {
    var q1 := if c.attemptRef == "" then Bump(q, Refs.Kind.Attempt) else q;
    if c.deadLetterRef == "" then Bump(q1, Refs.Kind.DeadLetter) else q1
  }

  function DirectRequest(q: Queue, r: Ref, c: ClaimNextRequest): ClaimRequest {
    ClaimRequest(r, c.endpoint,
                 if c.attemptRef == "" then NextRef(q, Refs.Kind.Attempt) else c.attemptRef,
                 if c.deadLetterRef == "" then NextRef(q, Refs.Kind.DeadLetter) else c.deadLetterRef,
                 c.leaseExpiresAt, c.now, c.maxRedelivery)
  }

  /** The polled claim of one message, which the caller found to be eligible. */
  function ClaimEligible(q: Queue, r: Ref, c: ClaimNextRequest): NextTurn
    requires r in q.messages
  {
    var m, d, q1 := q.messages[r], DirectRequest(q, r, c), WithRefs(q, c);
    if m.state == MessageState.Available then NextTurn(Grant(q1, m, d), Some(GrantReply(m, d, false, None)))
    else if m.attemptRef !in q1.attempts then NextTurn(q1, None)
    else if m.redeliveryCount >= c.maxRedelivery then NextTurn(Bury(q1, m, q1.attempts[m.attemptRef], d), None)
    else
      var turn := TakeOver(q1, m, d);
      NextTurn(turn.queue, Some(turn.reply.value))
  }

  ghost function ClaimNext(q: Queue, c: ClaimNextRequest): NextTurn {
    match NextEligible(q, c)
    case None => NextTurn(q, None)
    case Some(r) => ClaimEligible(q, r, c)
  }
}
