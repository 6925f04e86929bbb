// The SQLite store: each operation is a transaction on the tables, committed
// or rolled back, against the functions of SqliteRows.
module SqliteStore {
  import opened Wrappers
  import opened Domain
  import opened Routing
  import opened QueueModel
  import opened MemoryStore
  import opened SqliteTables
  import opened SqliteRows
  import opened Text
  import Refs

  // The order of the poll's scan

  /** ORDER BY state rank, then ref. */
  ghost predicate InScanOrder(list: seq<Message>) {
    forall i, j :: 0 <= i < j < |list| ==> ScansBefore(list[i], list[j])
  }

  /** The list holds the body of each row, and nothing else. */
  ghost predicate ListsAll(list: seq<Message>, t: Tables) {
    && (forall i :: 0 <= i < |list| ==> StoredRow(t, list[i]))
    && (forall r :: r in t.messages ==> t.messages[r].body in list)
  }

  lemma FirstPassing(t: Tables, c: ClaimNextRequest, list: seq<Message>, i: nat)
    requires Indexed(t) && InScanOrder(list) && ListsAll(list, t) && i < |list|
    requires Passes(t, list[i], c) && forall j :: 0 <= j < i ==> !Passes(t, list[j], c)
    ensures ScanNext(t, c) == Some(list[i].messageRef)
  {
    hide Passes, CheckpointsIndexed;
    var m := list[i];
    assert StoredRow(t, m);
    forall o | o in t.messages && o != m.messageRef && Passes(t, t.messages[o].body, c)
      ensures ScansBefore(m, t.messages[o].body)
    {
      var j :| 0 <= j < |list| && list[j] == t.messages[o].body;
    }
    assert IsFirstPassing(t, c, m.messageRef);
    hide IsFirstPassing;
    forall r | IsFirstPassing(t, c, r) ensures r == m.messageRef { FirstIsUnique(t, c, r, m.messageRef); }
  }

  lemma NonePassing(t: Tables, c: ClaimNextRequest, list: seq<Message>)
    requires ListsAll(list, t) && forall j :: 0 <= j < |list| ==> !Passes(t, list[j], c)
    ensures ScanNext(t, c).None?
  {
    hide Passes;
    forall r ensures !IsFirstPassing(t, c, r) {
      assert r in t.messages ==> exists j :: 0 <= j < |list| && list[j] == t.messages[r].body;
    }
  }

  /** The statements that one open transaction runs. */
  class Tx {
    var tables: Tables

    constructor (tables: Tables)
      ensures this.tables == tables
    {
      this.tables := tables;
    }

    method UpdateMessage(message: Message) returns (error: Option<Error>)
      modifies this
      ensures Written(tables, error) == SqliteRows.UpdateMessage(old(tables), message)
    {
      if message.messageRef !in tables.messages { return Some(MessageNotFound); }
      tables := tables.(messages := tables.messages[message.messageRef := MessageRowOf(message)]);
      error := None;
    }

    method UpdateAttempt(attempt: Attempt) returns (error: Option<Error>)
      modifies this
      ensures Written(tables, error) == SqliteRows.UpdateAttempt(old(tables), attempt)
    {
      if attempt.attemptRef !in tables.attempts { return Some(AttemptNotFound); }
      tables := tables.(attempts := tables.attempts[attempt.attemptRef := AttemptRowOf(attempt)]);
      error := None;
    }

    method InsertAttempt(attempt: Attempt) returns (error: Option<Error>)
      modifies this
      ensures Written(tables, error) == SqliteRows.InsertAttempt(old(tables), attempt)
    {
      if attempt.attemptRef in tables.attempts { return Some(ConstraintViolated); }
      tables := tables.(attempts := tables.attempts[attempt.attemptRef := AttemptRowOf(attempt)]);
      error := None;
    }

    method InsertDeadLetter(letter: DeadLetter) returns (error: Option<Error>)
      modifies this
      ensures Written(tables, error) == SqliteRows.InsertDeadLetter(old(tables), letter)
    {
      if letter.deadLetterRef in tables.deadLetters { return Some(ConstraintViolated); }
      tables := tables.(deadLetters := tables.deadLetters[letter.deadLetterRef := letter]);
      error := None;
    }

    method NextRef(kind: Refs.Kind) returns (ref: Ref)
      modifies this
      ensures Drawn(tables, ref) == DrawRef(old(tables), kind)
    {
      var sequence := if kind in tables.refs then tables.refs[kind] else 0;
      sequence := sequence + 1;
      tables := tables.(refs := tables.refs[kind := sequence]);
      ref := Refs.AllocRef(kind, sequence);
    }

    /** SELECT ... ORDER BY revision DESC LIMIT 1. */
    method LatestCheckpoint(attemptRef: Ref) returns (latest: Option<Checkpoint>)
      ensures latest == LastCheckpoint(tables, attemptRef)
    {
      var todo := set k | k in tables.checkpoints && k.0 == attemptRef;
      ghost var rows := todo;
      var best: Option<(Ref, nat)> := None;
      while todo != {}
        invariant todo <= rows
        invariant best.None? ==> todo == rows
        invariant best.Some? ==> best.value in rows && forall k :: k in rows - todo ==> k.1 <= best.value.1
        decreases todo
      {
        var k :| k in todo;
        todo := todo - {k};
        if best.None? || k.1 > best.value.1 { best := Some(k); }
      }
      assert rows == RowsOf(tables.checkpoints, attemptRef);
      if best.None? { return None; }
      assert IsLastRow(tables.checkpoints, attemptRef, best.value);
      forall k | IsLastRow(tables.checkpoints, attemptRef, k) ensures k == best.value {
        assert k.0 == best.value.0 && k.1 == best.value.1;
      }
      return Some(tables.checkpoints[best.value].body);
    }

    /** SELECT COUNT, then INSERT of the next revision. */
    method InsertCheckpoint(checkpoint: Checkpoint) returns (saved: Result<Checkpoint>)
      modifies this
      ensures Saved(tables, saved) == SqliteRows.InsertCheckpoint(old(tables), checkpoint)
    {
      var count := |set k | k in tables.checkpoints && k.0 == checkpoint.attemptRef|;
      assert (set k | k in tables.checkpoints && k.0 == checkpoint.attemptRef) == RowsOf(tables.checkpoints, checkpoint.attemptRef);
      var numbered := checkpoint.(revision := count + 1);
      var taken := exists k :: k in tables.checkpoints && tables.checkpoints[k].checkpointRef == checkpoint.checkpointRef;
      if taken || (checkpoint.attemptRef, count + 1) in tables.checkpoints { return Err(ConstraintViolated); }
      tables := tables.(checkpoints := tables.checkpoints[(numbered.attemptRef, numbered.revision) := CheckpointRowOf(numbered)]);
      return Ok(numbered);
    }

    // Claims

    method ClaimIn(message: Message, claim: ClaimRequest) returns (reply: Result<ClaimResult>)
      modifies this
      ensures RowClaim(tables, reply) == ClaimRows(old(tables), message, claim)
    {
      match message.state
      case Available => reply := ClaimAvailable(message, claim);
      case DeadLettered => return Err(MessageDeadLettered);
      case TakeoverCandidate => reply := ClaimTakeoverCandidate(message, claim);
      case Claimed => reply := ClaimExpired(message, claim);
      case Processing => reply := ClaimExpired(message, claim);
      case _ => return Err(MessageUnavailable);
    }

    method ClaimAvailable(message: Message, claim: ClaimRequest) returns (reply: Result<ClaimResult>)
      modifies this
      ensures RowClaim(tables, reply) == GrantRows(old(tables), message, claim)
    {
      var attempt := Attempt(claim.attemptRef, message.messageRef, claim.endpoint.endpointRef, AttemptState.Claimed,
                             claim.leaseExpiresAt, 1, message.redeliveryCount + 1, message.redeliveryCount + 1);
      var granted := message.(state := MessageState.Claimed, attemptRef := attempt.attemptRef);
      var error := InsertAttempt(attempt);
      if error.Some? { return Err(error.value); }
      error := UpdateMessage(granted);
      reply := match error
        case Some(e) => Err(e)
        case None => Ok(ClaimResult(granted, attempt, false, "", "", []));
    }

    method Takeover(message: Message, claim: ClaimRequest) returns (reply: Result<ClaimResult>)
      modifies this
      ensures RowClaim(tables, reply) == TakeoverRows(old(tables), message, claim)
    {
      hide LastCheckpoint;
      var latest := LatestCheckpoint(message.attemptRef);
      reply := ClaimAvailable(message.(redeliveryCount := message.redeliveryCount + 1), claim);
      if reply.Err? { return; }
      var result := reply.value.(takeover := true);
      if latest.Some? {
        result := result.(lastCheckpointRef := latest.value.checkpointRef, resumeSummary := latest.value.summary,
                          resumeArtifactRefs := latest.value.artifactRefs);
      }
      return Ok(result);
    }

    method DeadLetterMessage(message: Message, attempt: Attempt, claim: ClaimRequest) returns (error: Option<Error>)
      modifies this
      ensures RowClaim(tables, Err(if error.Some? then error.value else MessageDeadLettered))
              == BuryRows(old(tables), message, attempt, claim)
    {
      hide LastCheckpoint;
      var latest := LatestCheckpoint(attempt.attemptRef);
      var letter := DeadLetter(claim.deadLetterRef, message.messageRef, attempt.attemptRef, "",
                               message.redeliveryCount, claim.now);
      if latest.Some? { letter := letter.(lastCheckpointRef := latest.value.checkpointRef); }
      var _ := UpdateAttempt(attempt.(state := AttemptState.Orphaned));
      error := UpdateMessage(message.(state := MessageState.DeadLettered));
      if error.Some? { return; }
      error := InsertDeadLetter(letter);
    }

    method ClaimTakeoverCandidate(message: Message, claim: ClaimRequest) returns (reply: Result<ClaimResult>)
      requires message.state == MessageState.TakeoverCandidate
      modifies this
      ensures RowClaim(tables, reply) == ClaimRows(old(tables), message, claim)
    {
      hide TakeoverRows, BuryRows, GrantRows, ClaimHeldRows;
      var current := GetAttempt(tables, message.attemptRef);
      if current.None? { return Err(MessageUnavailable); }
      if message.redeliveryCount >= claim.maxRedelivery {
        var error := DeadLetterMessage(message, current.value, claim);
        return Err(if error.Some? then error.value else MessageDeadLettered);
      }
      reply := Takeover(message, claim);
    }

    method ClaimExpired(message: Message, claim: ClaimRequest) returns (reply: Result<ClaimResult>)
      modifies this
      ensures RowClaim(tables, reply) == ClaimHeldRows(old(tables), message, claim)
    {
      hide TakeoverRows, BuryRows;
      var current := GetAttempt(tables, message.attemptRef);
      if current.None? || claim.now < current.value.leaseExpiresAt || claim.now == current.value.leaseExpiresAt {
        return Err(MessageUnavailable);
      }
      if message.redeliveryCount >= claim.maxRedelivery {
        var error := DeadLetterMessage(message, current.value, claim);
        return Err(if error.Some? then error.value else MessageDeadLettered);
      }
      var _ := UpdateAttempt(current.value.(state := AttemptState.Orphaned));
      reply := Takeover(message, claim);
    }

    // The poll

    /** SELECT body FROM messages, ordered by state rank and ref. */
    method OrderedMessages() returns (list: seq<Message>)
      requires Indexed(tables)
      ensures InScanOrder(list) && ListsAll(list, tables)
    {
      list := [];
      for rank := 0 to 3
        invariant InScanOrder(list)
        invariant forall i :: 0 <= i < |list| ==> StoredRow(tables, list[i]) && Rank(list[i].state) < rank
        invariant forall r :: r in tables.messages && Rank(tables.messages[r].state) < rank ==>
                tables.messages[r].body in list
      {
        var group := RankedMessages(rank);
        list := list + group;
      }
    }

    method RankedMessages(rank: nat) returns (list: seq<Message>)
      requires Indexed(tables)
      ensures InScanOrder(list)
      ensures forall i :: 0 <= i < |list| ==> StoredRow(tables, list[i]) && Rank(list[i].state) == rank
      ensures forall r :: r in tables.messages && Rank(tables.messages[r].state) == rank ==> tables.messages[r].body in list
    {
      var chosen := set r | r in tables.messages && Rank(tables.messages[r].state) == rank;
      var refs := Sort(chosen);
      assert forall i :: 0 <= i < |refs| ==> refs[i] in Elements(refs);
      list := seq(|refs|, i requires 0 <= i < |refs| && refs[i] in tables.messages reads this => tables.messages[refs[i]].body);
      forall r | r in chosen ensures tables.messages[r].body in list {
        assert r in Elements(refs);
        var i :| 0 <= i < |refs| && refs[i] == r;
        assert list[i] == tables.messages[r].body;
      }
    }

    /** The first message of the scan that waits for a worker and passes the routing and dependency tests. */
    method NextEligibleMessage(list: seq<Message>, claim: ClaimNextRequest) returns (next: Option<Message>)
      requires Indexed(tables) && InScanOrder(list) && ListsAll(list, tables)
      ensures match next
              case None => ScanNext(tables, claim).None?
              case Some(m) => StoredRow(tables, m) && ScanNext(tables, claim) == Some(m.messageRef)
    {
      hide ScanNext, PreferredOnline, Claimable;
      var states := RowStates(tables);
      for i := 0 to |list|
        invariant forall j :: 0 <= j < i ==> !Passes(tables, list[j], claim)
      {
        var message := list[i];
        if message.state != MessageState.TakeoverCandidate && message.state != MessageState.Available { continue; }
        if Claimable(message, claim.endpoint, PreferredOnline(message, claim.preferredEndpoints)) {
          var ready := MessageDependenciesCompleted(message, states);
          if ready {
            FirstPassing(tables, claim, list, i);
            return Some(message);
          }
        }
      }
      NonePassing(tables, claim, list);
      return None;
    }

    method RequestFromNext(message: Message, claim: ClaimNextRequest) returns (request: ClaimRequest)
      modifies this
      ensures DrawnRequest(tables, request) == RequestRows(old(tables), message.messageRef, claim)
    {
      var attemptRef, deadLetterRef := claim.attemptRef, claim.deadLetterRef;
      if attemptRef == "" { attemptRef := NextRef(Refs.Kind.Attempt); }
      if deadLetterRef == "" { deadLetterRef := NextRef(Refs.Kind.DeadLetter); }
      request := ClaimRequest(message.messageRef, claim.endpoint, attemptRef, deadLetterRef,
                              claim.leaseExpiresAt, claim.now, claim.maxRedelivery);
    }

    /** The body of the reconcile loop: the message is as it was selected, the attempt is read anew. */
    method RequeueIfPast(message: Message, now: Time) returns (moved: bool, error: Option<Error>)
      requires Indexed(tables) && StoredRow(tables, message) && Held(message.state)
      modifies this
      ensures Indexed(tables) && error.None? && moved == ClaimPast(old(Decoded(tables)), message, now)
      ensures Decoded(tables) == if moved then RequeueOne(old(Decoded(tables)), message.messageRef) else old(Decoded(tables))
    {
      error := None;
      RowsDecoded(tables);
      hide Indexed, Decoded;
      var attempt := GetAttempt(tables, message.attemptRef);
      if attempt.None? || now < attempt.value.leaseExpiresAt || now == attempt.value.leaseExpiresAt { return false, None; }
      OrphanRow(tables, attempt.value);
      var _ := UpdateAttempt(attempt.value.(state := AttemptState.Orphaned));
      MessageUpdated(tables, message.(state := MessageState.TakeoverCandidate));
      error := UpdateMessage(message.(state := MessageState.TakeoverCandidate));
      moved := true;
    }
  }

  class Store {
    var tables: Tables

    constructor ()
      ensures tables == EMPTY_TABLES
    {
      tables := EMPTY_TABLES;
    }

    method SaveMessage(message: Message) returns (error: Option<Error>)
      modifies this
      ensures Written(tables, error) == InsertMessage(old(tables), message)
    {
      if message.messageRef in tables.messages { return Some(InvalidInput); }
      tables := tables.(messages := tables.messages[message.messageRef := MessageRowOf(message)]);
      error := None;
    }

    method UpdateMessage(message: Message) returns (error: Option<Error>)
      modifies this
      ensures Written(tables, error) == SqliteRows.UpdateMessage(old(tables), message)
    {
      var tx := new Tx(tables);
      error := tx.UpdateMessage(message);
      tables := tx.tables;
    }

    method UpdateAttempt(attempt: Attempt) returns (error: Option<Error>)
      modifies this
      ensures Written(tables, error) == SqliteRows.UpdateAttempt(old(tables), attempt)
    {
      var tx := new Tx(tables);
      error := tx.UpdateAttempt(attempt);
      tables := tx.tables;
    }

    method NextRef(kind: Refs.Kind) returns (ref: Ref)
      modifies this
      ensures Drawn(tables, ref) == DrawRef(old(tables), kind)
    {
      var tx := new Tx(tables);
      ref := tx.NextRef(kind);
      tables := tx.tables;
    }

    method SaveCheckpoint(checkpoint: Checkpoint) returns (saved: Result<Checkpoint>)
      modifies this
      ensures Saved(tables, saved) == InsertCheckpoint(old(tables), checkpoint)
    {
      var tx := new Tx(tables);
      saved := tx.InsertCheckpoint(checkpoint);
      if saved.Ok? { tables := tx.tables; }
    }

    /** Committed on success and on a dead-lettering; any other error leaves the tables as they were. */
    method ClaimMessage(claim: ClaimRequest) returns (reply: Result<ClaimResult>)
      modifies this
      ensures RowClaim(tables, reply) == SqlClaim(old(tables), claim)
    {
      hide ClaimRows;
      var tx := new Tx(tables);
      var message := GetMessage(tx.tables, claim.messageRef);
      if message.None? { return Err(MessageNotFound); }
      reply := tx.ClaimIn(message.value, claim);
      if reply.Ok? || reply.error == MessageDeadLettered { tables := tx.tables; }
    }

    method ClaimNextMessage(claim: ClaimNextRequest) returns (reply: Result<Option<ClaimResult>>)
      requires Indexed(tables)
      modifies this
      ensures RowPoll(tables, reply) == SqlClaimNext(old(tables), claim)
    {
      hide ScanNext, ClaimRows, RequestRows, Indexed, InScanOrder, ListsAll;
      var tx := new Tx(tables);
      var list := tx.OrderedMessages();
      var next := tx.NextEligibleMessage(list, claim);
      if next.None? { return Ok(None); }
      var request := tx.RequestFromNext(next.value, claim);
      var result := tx.ClaimIn(next.value, request);
      if result.Err? {
        if result.error != MessageDeadLettered { return Err(result.error); }
        tables := tx.tables;
        return Ok(None);
      }
      tables := tx.tables;
      return Ok(Some(result.value));
    }

    /** Whatever order the rows come in, the outcome is the one function of the tables. */
    method ReconcileExpiredClaims(now: Time) returns (reconciled: nat)
      requires Indexed(tables)
      modifies this
      ensures tables == ReconcileRows(old(tables), now) && reconciled == |ExpiredRows(old(tables), now)|
    {
      hide Requeue, Reconcile, ExpiredClaims, Indexed, Decoded, ReconcileRows, ExpiredRows;
      var tx := new Tx(tables);
      var todo := set r | r in tables.messages && Held(tables.messages[r].state);
      ghost var was, done: set<Ref> := Decoded(tables), {};
      RowsDecoded(tables);
      DecodedKeyed(tables);
      RequeueNothing(was);
      reconciled := 0;
      while todo != {}
        invariant tables == old(tables) && Indexed(tx.tables) && Decoded(tx.tables) == Requeue(was, done)
        invariant todo <= was.messages.Keys && forall r :: r in todo ==> Held(was.messages[r].state)
        invariant forall r :: r in done <==> r in was.messages && r !in todo && QueueModel.ClaimExpired(was, r, now)
        invariant reconciled == |done|
        decreases todo
      {
        var r :| r in todo;
        todo := todo - {r};
        RequeueKeeps(was, done, r, now);
        RowsDecoded(tx.tables);
        var moved, error := tx.RequeueIfPast(tables.messages[r].body, now);
        if error.Some? { return reconciled; }
        if moved {
          RequeueOneMore(was, done, r);
          done := done + {r};
          reconciled := reconciled + 1;
        }
      }
      AllSwept(was, done, now);
      ReconcileDecoded(tables, now);
      DecodedInjective(tx.tables, ReconcileRows(tables, now));
      tables := tx.tables;
    }
  }

  lemma AllSwept(q: Queue, done: set<Ref>, now: Time)
    requires forall r :: r in done <==> r in q.messages && QueueModel.ClaimExpired(q, r, now)
    ensures done == ExpiredClaims(q, now) && Requeue(q, done) == Reconcile(q, now)
  {
    assert done == ExpiredClaims(q, now);
  }
}
