// What the statements and transactions of the SQLite store do to its tables,
// and how that compares with the in-memory store on the queue they stand for.
module SqliteRows {
  import opened Wrappers
  import opened Domain
  import opened Routing
  import opened QueueModel
  import opened SqliteTables
  import opened Text
  import Refs

  // Statements

  datatype Written = Written(tables: Tables, error: Option<Error>)

  function InsertMessage(t: Tables, m: Message): Written {
    if m.messageRef in t.messages then Written(t, Some(InvalidInput))
    else Written(t.(messages := t.messages[m.messageRef := MessageRowOf(m)]), None)
  }

  /** No row affected means that the message is unknown. */
  function UpdateMessage(t: Tables, m: Message): Written {
    if m.messageRef !in t.messages then Written(t, Some(MessageNotFound))
    else Written(t.(messages := t.messages[m.messageRef := MessageRowOf(m)]), None)
  }

  /** The attempt's ref is the primary key. */
  function InsertAttempt(t: Tables, a: Attempt): Written {
    if a.attemptRef in t.attempts then Written(t, Some(ConstraintViolated))
    else Written(t.(attempts := t.attempts[a.attemptRef := AttemptRowOf(a)]), None)
  }

  function UpdateAttempt(t: Tables, a: Attempt): Written {
    if a.attemptRef !in t.attempts then Written(t, Some(AttemptNotFound))
    else Written(t.(attempts := t.attempts[a.attemptRef := AttemptRowOf(a)]), None)
  }

  function InsertDeadLetter(t: Tables, d: DeadLetter): Written {
    if d.deadLetterRef in t.deadLetters then Written(t, Some(ConstraintViolated))
    else Written(t.(deadLetters := t.deadLetters[d.deadLetterRef := d]), None)
  }

  datatype Drawn = Drawn(tables: Tables, ref: Ref)

  function DrawRef(t: Tables, kind: Refs.Kind): Drawn {
    var sequence := (if kind in t.refs then t.refs[kind] else 0) + 1;
    Drawn(t.(refs := t.refs[kind := sequence]), Refs.AllocRef(kind, sequence))
  }

  datatype Saved = Saved(tables: Tables, reply: Result<Checkpoint>)

  /** The count plus one is the revision; the ref is unique over all attempts. */
  function InsertCheckpoint(t: Tables, c: Checkpoint): Saved {
    var numbered := c.(revision := |RowsOf(t.checkpoints, c.attemptRef)| + 1);
    if (exists k :: k in t.checkpoints && t.checkpoints[k].checkpointRef == c.checkpointRef)
       || (numbered.attemptRef, numbered.revision) in t.checkpoints then Saved(t, Err(ConstraintViolated))
    else Saved(t.(checkpoints := Appended(t.checkpoints, numbered)), Ok(numbered))
  }

  predicate IsLastRow(table: CheckpointTable, a: Ref, k: (Ref, nat)) {
    k in RowsOf(table, a) && forall j :: j in RowsOf(table, a) ==> j.1 <= k.1
  }

  /** ORDER BY revision DESC LIMIT 1. */
  ghost function LastCheckpoint(t: Tables, a: Ref): Option<Checkpoint> {
    if k :| IsLastRow(t.checkpoints, a, k) then Some(t.checkpoints[k].body) else None
  }

  function GetMessage(t: Tables, r: Ref): Option<Message> {
    if r in t.messages then Some(t.messages[r].body) else None
  }

  function GetAttempt(t: Tables, a: Ref): Option<Attempt> {
    if a in t.attempts then Some(t.attempts[a].body) else None
  }

  // Claims

  datatype RowClaim = RowClaim(tables: Tables, reply: Result<ClaimResult>)

  function GrantRows(t: Tables, m: Message, c: ClaimRequest): RowClaim {
    var inserted := InsertAttempt(t, NewAttempt(m, c));
    if inserted.error.Some? then RowClaim(inserted.tables, Err(inserted.error.value))
    else
      var updated := UpdateMessage(inserted.tables, GrantedMessage(m, c));
      RowClaim(updated.tables,
               if updated.error.Some? then Err(updated.error.value) else Ok(GrantReply(m, c, false, None)))
  }

  ghost function TakeoverRows(t: Tables, m: Message, c: ClaimRequest): RowClaim {
    var granted := GrantRows(t, Redelivered(m), c);
    if granted.reply.Err? then granted
    else granted.(reply := Ok(GrantReply(Redelivered(m), c, true, LastCheckpoint(t, m.attemptRef))))
  }

  ghost function LetterRow(t: Tables, m: Message, a: Ref, c: ClaimRequest): DeadLetter {
    var latest := LastCheckpoint(t, a);
    DeadLetter(c.deadLetterRef, m.messageRef, a, if latest.Some? then latest.value.checkpointRef else "",
               m.redeliveryCount, c.now)
  }

  ghost function BuryRows(t: Tables, m: Message, a: Attempt, c: ClaimRequest): RowClaim {
    var orphaned := UpdateAttempt(t, a.(state := AttemptState.Orphaned)).tables;
    var updated := UpdateMessage(orphaned, m.(state := MessageState.DeadLettered));
    var buried := if updated.error.Some? then updated
                  else InsertDeadLetter(updated.tables, LetterRow(t, m, a.attemptRef, c));
    RowClaim(buried.tables, Err(if buried.error.Some? then buried.error.value else MessageDeadLettered))
  }

  /** The statements of one claim, in the order of the message's cases. */
  ghost function ClaimRows(t: Tables, m: Message, c: ClaimRequest): RowClaim {
    var current := GetAttempt(t, m.attemptRef);
    match m.state
    case Available => GrantRows(t, m, c)
    case DeadLettered => RowClaim(t, Err(MessageDeadLettered))
    case TakeoverCandidate =>
      if current.None? then RowClaim(t, Err(MessageUnavailable))
      else if m.redeliveryCount >= c.maxRedelivery then BuryRows(t, m, current.value, c)
      else TakeoverRows(t, m, c)
    case Claimed => ClaimHeldRows(t, m, c)
    case Processing => ClaimHeldRows(t, m, c)
    case _ => RowClaim(t, Err(MessageUnavailable))
  }

  ghost function ClaimHeldRows(t: Tables, m: Message, c: ClaimRequest): RowClaim {
    var current := GetAttempt(t, m.attemptRef);
    if current.None? || c.now <= current.value.leaseExpiresAt then RowClaim(t, Err(MessageUnavailable))
    else if m.redeliveryCount >= c.maxRedelivery then BuryRows(t, m, current.value, c)
    else TakeoverRows(UpdateAttempt(t, current.value.(state := AttemptState.Orphaned)).tables, m, c)
  }

  /** Committed on success and on a dead-lettering, otherwise rolled back. */
  ghost function Settle(t: Tables, tx: RowClaim): RowClaim {
    if tx.reply.Ok? || tx.reply.error == MessageDeadLettered then tx else RowClaim(t, tx.reply)
  }

  ghost function SqlClaim(t: Tables, c: ClaimRequest): RowClaim {
    var message := GetMessage(t, c.messageRef);
    if message.None? then RowClaim(t, Err(MessageNotFound)) else Settle(t, ClaimRows(t, message.value, c))
  }

  // The poll

  function Rank(state: MessageState): nat {
    if state == MessageState.TakeoverCandidate then 0 else if state == MessageState.Available then 1 else 2
  }

  predicate ScansBefore(m: Message, n: Message) {
    Rank(m.state) < Rank(n.state) || (Rank(m.state) == Rank(n.state) && Less(m.messageRef, n.messageRef))
  }

  predicate Waiting(state: MessageState) {
    state == MessageState.TakeoverCandidate || state == MessageState.Available
  }

  function RowStates(t: Tables): map<Ref, MessageState> {
    map r | r in t.messages :: t.messages[r].body.state
  }

  /** The message passes the three tests of the scan. */
  predicate Passes(t: Tables, m: Message, c: ClaimNextRequest) {
    && Waiting(m.state)
    && Claimable(m, c.endpoint, PreferredOnline(m, c.preferredEndpoints))
    && DependenciesCompleted(m, RowStates(t))
  }

  /** The first passing row of SELECT ... ORDER BY state rank, then ref. */
  ghost predicate IsFirstPassing(t: Tables, c: ClaimNextRequest, r: Ref) {
    && r in t.messages && Passes(t, t.messages[r].body, c)
    && forall o :: o in t.messages && o != r && Passes(t, t.messages[o].body, c) ==>
         ScansBefore(t.messages[r].body, t.messages[o].body)
  }

  ghost function ScanNext(t: Tables, c: ClaimNextRequest): Option<Ref> {
    if r :| IsFirstPassing(t, c, r) then Some(r) else None
  }

  datatype DrawnRequest = DrawnRequest(tables: Tables, request: ClaimRequest)

  function RequestRows(t: Tables, r: Ref, c: ClaimNextRequest): DrawnRequest {
    var first := if c.attemptRef == "" then DrawRef(t, Refs.Kind.Attempt) else Drawn(t, c.attemptRef);
    var second := if c.deadLetterRef == "" then DrawRef(first.tables, Refs.Kind.DeadLetter)
                  else Drawn(first.tables, c.deadLetterRef);
    DrawnRequest(second.tables,
                 ClaimRequest(r, c.endpoint, first.ref, second.ref, c.leaseExpiresAt, c.now, c.maxRedelivery))
  }

  datatype RowPoll = RowPoll(tables: Tables, reply: Result<Option<ClaimResult>>)

  /** A failed poll is rolled back, its drawn refs included; a dead-lettering is committed and answers nothing. */
  ghost function SqlClaimNext(t: Tables, c: ClaimNextRequest): RowPoll {
    match ScanNext(t, c)
    case None => RowPoll(t, Ok(None))
    case Some(r) =>
      var drawn := RequestRows(t, r, c);
      var tx := ClaimRows(drawn.tables, t.messages[r].body, drawn.request);
      match tx.reply
      case Ok(result) => RowPoll(tx.tables, Ok(Some(result)))
      case Err(error) =>
        if error == MessageDeadLettered then RowPoll(tx.tables, Ok(None)) else RowPoll(t, Err(error))
  }

  // Reconciliation

  predicate ExpiredRow(t: Tables, r: Ref, now: Time) {
    && r in t.messages && Held(t.messages[r].state)
    && var a := t.messages[r].body.attemptRef; a in t.attempts && now > t.attempts[a].body.leaseExpiresAt
  }

  function ExpiredRows(t: Tables, now: Time): set<Ref> {
    set r | r in t.messages && ExpiredRow(t, r, now)
  }

  // The queue behind the tables

  lemma MessageInserted(t: Tables, m: Message)
    requires Indexed(t)
    ensures var w := InsertMessage(t, m);
            && Indexed(w.tables) && w.error == (if m.messageRef in Decoded(t).messages then Some(InvalidInput) else None)
            && Decoded(w.tables) == if w.error.Some? then Decoded(t) else PutMessage(Decoded(t), m)
  {
    MessageWritten(t, m);
    hide CheckpointsIndexed, Histories, PutMessage, MessageRowOf;
  }

  lemma MessageUpdated(t: Tables, m: Message)
    requires Indexed(t)
    ensures var w := UpdateMessage(t, m);
            && Indexed(w.tables) && w.error == (if m.messageRef in Decoded(t).messages then None else Some(MessageNotFound))
            && Decoded(w.tables) == if w.error.Some? then Decoded(t) else PutMessage(Decoded(t), m)
  {
    MessageWritten(t, m);
    hide CheckpointsIndexed, Histories, PutMessage, MessageRowOf;
  }

  lemma AttemptInserted(t: Tables, a: Attempt)
    requires Indexed(t)
    ensures var w := InsertAttempt(t, a);
            && Indexed(w.tables)
               && w.error == (if a.attemptRef in Decoded(t).attempts then Some(ConstraintViolated) else None)
            && Decoded(w.tables) == if w.error.Some? then Decoded(t) else PutAttempt(Decoded(t), a)
  {
    AttemptWritten(t, a);
    hide CheckpointsIndexed, Histories, PutAttempt, AttemptRowOf;
  }

  lemma AttemptUpdated(t: Tables, a: Attempt)
    requires Indexed(t)
    ensures var w := UpdateAttempt(t, a);
            && Indexed(w.tables) && w.error == (if a.attemptRef in Decoded(t).attempts then None else Some(AttemptNotFound))
            && Decoded(w.tables) == if w.error.Some? then Decoded(t) else PutAttempt(Decoded(t), a)
  {
    AttemptWritten(t, a);
    hide CheckpointsIndexed, Histories, PutAttempt, AttemptRowOf;
  }

  lemma LetterWrite(t: Tables, d: DeadLetter)
    requires Indexed(t)
    ensures var w := InsertDeadLetter(t, d);
            && Indexed(w.tables)
               && w.error == (if d.deadLetterRef in Decoded(t).deadLetters then Some(ConstraintViolated) else None)
            && Decoded(w.tables) == if w.error.Some? then Decoded(t)
                                    else Decoded(t).(deadLetters := Decoded(t).deadLetters[d.deadLetterRef := d])
  {
    hide CheckpointsIndexed, Histories;
  }

  lemma RefWrite(t: Tables, kind: Refs.Kind)
    requires Indexed(t)
    ensures var d := DrawRef(t, kind);
            Indexed(d.tables) && Decoded(d.tables) == Bump(Decoded(t), kind) && d.ref == NextRef(Decoded(t), kind)
            && d.tables == t.(refs := d.tables.refs)
  {
    hide CheckpointsIndexed, Histories;
  }

  lemma NextRowIsFree(table: CheckpointTable, a: Ref)
    requires Gapless(table)
    ensures (a, |RowsOf(table, a)| + 1) !in table
  {
  }

  lemma InsertCheckpointCases(t: Tables, c: Checkpoint)
    requires Indexed(t)
    ensures var numbered := c.(revision := |RowsOf(t.checkpoints, c.attemptRef)| + 1);
            InsertCheckpoint(t, c) ==
              if CheckpointRefUsed(Decoded(t), c.checkpointRef) then Saved(t, Err(ConstraintViolated))
              else Saved(t.(checkpoints := Appended(t.checkpoints, numbered)), Ok(numbered))
  {
    UsedRefsDecoded(t, c.checkpointRef);
    NextRowIsFree(t.checkpoints, c.attemptRef);
    hide CheckpointRefUsed, RowsOf, Appended, Decoded, RowsIndexed, Gapless;
  }

  /** A checkpoint is numbered and appended as in memory, unless its ref is taken. */
  lemma CheckpointWrite(t: Tables, c: Checkpoint)
    requires Indexed(t)
    ensures var s := InsertCheckpoint(t, c);
            if CheckpointRefUsed(Decoded(t), c.checkpointRef) then s == Saved(t, Err(ConstraintViolated))
            else && Indexed(s.tables) && s.reply == Ok(Numbered(Decoded(t), c))
                 && Decoded(s.tables) == AppendCheckpoint(Decoded(t), c)
  {
    hide InsertCheckpoint, CheckpointRefUsed, RowsOf, Appended, Decoded, Indexed, Numbered, AppendCheckpoint;
    var numbered := c.(revision := |RowsOf(t.checkpoints, c.attemptRef)| + 1);
    InsertCheckpointCases(t, c);
    CheckpointWritten(t, numbered);
    AppendIgnoresRevision(Decoded(t), c, numbered);
  }

  /** The revision that a checkpoint comes with does not matter. */
  lemma AppendIgnoresRevision(q: Queue, c: Checkpoint, d: Checkpoint)
    requires d == c.(revision := d.revision)
    ensures Numbered(q, d) == Numbered(q, c) && AppendCheckpoint(q, d) == AppendCheckpoint(q, c)
  {
  }

  /** The row of highest revision holds what the scan of the list finds. */
  lemma LastCheckpointIsLatest(t: Tables, a: Ref)
    requires Indexed(t)
    ensures LastCheckpoint(t, a) == Latest(CheckpointsOf(Decoded(t), a))
  {
    var table, n := t.checkpoints, |RowsOf(t.checkpoints, a)|;
    LastRowIsLatest(table, a);
    CheckpointsDecoded(t, a);
    hide CheckpointsOf, Latest, History, RowsIndexed, CheckpointsIndexed, Decoded, IsLastRow;
    if n > 0 {
      LastRowExists(table, a);
      var k :| IsLastRow(table, a, k);
      LastRowKey(table, a, k);
      assert forall j :: IsLastRow(table, a, j) ==> j == (a, n) by {
        forall j | IsLastRow(table, a, j) ensures j == (a, n) { LastRowKey(table, a, j); }
      }
    } else {
      forall k ensures !IsLastRow(table, a, k) { NoLastRow(table, a, k); }
    }
  }

  lemma LastRowExists(table: CheckpointTable, a: Ref)
    requires CheckpointsIndexed(table) && |RowsOf(table, a)| > 0
    ensures IsLastRow(table, a, (a, |RowsOf(table, a)|))
  {
    var n := |RowsOf(table, a)|;
    assert (a, n) in table;
    forall j | j in RowsOf(table, a) ensures j.1 <= n { assert (j.0, j.1) in table; }
  }

  lemma NoLastRow(table: CheckpointTable, a: Ref, k: (Ref, nat))
    requires |RowsOf(table, a)| == 0
    ensures !IsLastRow(table, a, k)
  {
    assert RowsOf(table, a) == {};
  }

  lemma LastRowKey(table: CheckpointTable, a: Ref, k: (Ref, nat))
    requires CheckpointsIndexed(table) && IsLastRow(table, a, k)
    ensures k == (a, |RowsOf(table, a)|)
  {
    var n := |RowsOf(table, a)|;
    assert (k.0, k.1) in table;
    assert (a, n) in table;
    assert (a, n) in RowsOf(table, a);
  }

  // Claims

  ghost predicate StoredRow(t: Tables, m: Message) {
    m.messageRef in t.messages && t.messages[m.messageRef].body == m
  }

  /** The message awaits takeover: it is a candidate, or it is held and its lease is past. Its attempt is stored. */
  predicate TakeoverDue(q: Queue, m: Message, now: Time) {
    && m.attemptRef in q.attempts
    && (m.state == MessageState.TakeoverCandidate
        || (Held(m.state) && now > q.attempts[m.attemptRef].leaseExpiresAt))
  }

  /**
   * The claim is about to use a ref that is taken: the attempt's, or for a message out of redeliveries the dead
   * letter's.
   */
  predicate TakenRef(q: Queue, c: ClaimRequest) {
    && c.messageRef in q.messages
    && var m := q.messages[c.messageRef];
       if m.state == MessageState.Available then c.attemptRef in q.attempts
       else TakeoverDue(q, m, c.now)
            && if m.redeliveryCount < c.maxRedelivery then c.attemptRef in q.attempts else c.deadLetterRef in q.deadLetters
  }

  lemma GrantDecoded(t: Tables, m: Message, c: ClaimRequest)
    requires Indexed(t) && m.messageRef in t.messages
    ensures var g := GrantRows(t, m, c);
            if c.attemptRef in t.attempts then g.reply == Err(ConstraintViolated)
            else && Indexed(g.tables) && Decoded(g.tables) == Grant(Decoded(t), m, c)
                 && g.reply == Ok(GrantReply(m, c, false, None))
  {
    AttemptInserted(t, NewAttempt(m, c));
    MessageUpdated(InsertAttempt(t, NewAttempt(m, c)).tables, GrantedMessage(m, c));
    hide Indexed, Decoded;
  }

  lemma TakeoverDecoded(t: Tables, m: Message, c: ClaimRequest)
    requires Indexed(t) && m.messageRef in t.messages
    ensures var g, turn := TakeoverRows(t, m, c), TakeOver(Decoded(t), m, c);
            if c.attemptRef in t.attempts then g.reply == Err(ConstraintViolated)
            else Indexed(g.tables) && Decoded(g.tables) == turn.queue && g.reply == turn.reply
  {
    GrantDecoded(t, Redelivered(m), c);
    LastCheckpointIsLatest(t, m.attemptRef);
    hide Indexed, Decoded, GrantRows, Grant, Latest, LastCheckpoint;
  }

  lemma BuryDecoded(t: Tables, m: Message, a: Attempt, c: ClaimRequest)
    requires Indexed(t) && m.messageRef in t.messages && a.attemptRef in t.attempts
    ensures var b := BuryRows(t, m, a, c);
            if c.deadLetterRef in t.deadLetters then b.reply == Err(ConstraintViolated)
            else Indexed(b.tables) && Decoded(b.tables) == Bury(Decoded(t), m, a, c) && b.reply == Err(MessageDeadLettered)
  {
    LastCheckpointIsLatest(t, a.attemptRef);
    var orphaned := UpdateAttempt(t, a.(state := AttemptState.Orphaned)).tables;
    AttemptUpdated(t, a.(state := AttemptState.Orphaned));
    MessageUpdated(orphaned, m.(state := MessageState.DeadLettered));
    LetterWrite(UpdateMessage(orphaned, m.(state := MessageState.DeadLettered)).tables, LetterRow(t, m, a.attemptRef, c));
    hide Indexed, Decoded, LastCheckpoint, Latest;
  }

  lemma ClaimOfHeld(q: Queue, m: Message, c: ClaimRequest)
    requires m.messageRef in q.messages && q.messages[m.messageRef] == m && c.messageRef == m.messageRef && Held(m.state)
    ensures Claim(q, c) == if ClaimPast(q, m, c.now) then TakeOverOrBury(q, m, q.attempts[m.attemptRef], c)
                           else ClaimTurn(q, Err(MessageUnavailable))
  {
    hide TakeOverOrBury;
  }

  lemma HeldTakenOver(t: Tables, m: Message, c: ClaimRequest)
    requires Indexed(t) && StoredRow(t, m) && m.attemptRef in t.attempts
    ensures var a := t.attempts[m.attemptRef].body;
            var g := TakeoverRows(UpdateAttempt(t, a.(state := AttemptState.Orphaned)).tables, m, c);
            var turn := TakeOver(Orphan(Decoded(t), a), m, c);
            if c.attemptRef in t.attempts then g.reply == Err(ConstraintViolated)
            else Indexed(g.tables) && Decoded(g.tables) == turn.queue && g.reply == turn.reply && turn.reply.Ok?
  {
    var a := t.attempts[m.attemptRef].body;
    RowsDecoded(t);
    OrphanRow(t, a);
    TakeOverSucceeds(Orphan(Decoded(t), a), m, c);
    TakeoverDecoded(UpdateAttempt(t, a.(state := AttemptState.Orphaned)).tables, m, c);
    hide Indexed, Decoded, TakeoverRows, TakeOver, UpdateAttempt, Orphan;
  }

  lemma HeldDecoded(t: Tables, m: Message, c: ClaimRequest)
    requires Indexed(t) && StoredRow(t, m) && c.messageRef == m.messageRef && Held(m.state)
    ensures DecodesUnlessTaken(t, m, c, ClaimHeldRows(t, m, c))
  {
    RowsDecoded(t);
    hide Indexed, Decoded, TakeoverRows, BuryRows, TakeOver, Bury, UpdateAttempt, Orphan, Claim;
    ClaimOfHeld(Decoded(t), m, c);
    if m.attemptRef in t.attempts {
      HeldTakenOver(t, m, c);
      BuryDecoded(t, m, t.attempts[m.attemptRef].body, c);
    }
  }

  /** Reading a row's body is reading the queue. */
  lemma RowsDecoded(t: Tables)
    requires Indexed(t)
    ensures Decoded(t).messages.Keys == t.messages.Keys && Decoded(t).attempts.Keys == t.attempts.Keys
    ensures Decoded(t).deadLetters == t.deadLetters
    ensures forall r :: r in t.messages ==> t.messages[r].body == Decoded(t).messages[r] && t.messages[r].body.messageRef == r
    ensures forall a :: a in t.attempts ==> t.attempts[a].body == Decoded(t).attempts[a] && t.attempts[a].body.attemptRef == a
    ensures forall r :: r in t.messages ==> t.messages[r].state == t.messages[r].body.state
  {
    hide CheckpointsIndexed, Histories;
  }

  lemma OrphanRow(t: Tables, a: Attempt)
    requires Indexed(t) && a.attemptRef in t.attempts
    ensures var w := UpdateAttempt(t, a.(state := AttemptState.Orphaned));
            && Indexed(w.tables) && Decoded(w.tables) == Orphan(Decoded(t), a)
            && w.tables.attempts.Keys == t.attempts.Keys && w.tables.messages == t.messages
  {
    AttemptUpdated(t, a.(state := AttemptState.Orphaned));
    hide CheckpointsIndexed, Histories;
  }

  /** The statements did what the in-memory claim does, or met a taken ref. */
  ghost predicate DecodesUnlessTaken(t: Tables, m: Message, c: ClaimRequest, tx: RowClaim)
    requires Indexed(t)
  {
    var q := Decoded(t);
    var memory := Claim(q, c);
    if TakenRef(q, c) then tx.reply == Err(ConstraintViolated)
    else && tx.reply == memory.reply
         && (tx.reply.Ok? || tx.reply.error == MessageDeadLettered ==>
               Indexed(tx.tables) && Decoded(tx.tables) == memory.queue)
  }

  lemma TakeoverCandidateDecoded(t: Tables, m: Message, c: ClaimRequest)
    requires Indexed(t) && StoredRow(t, m) && c.messageRef == m.messageRef && m.state == MessageState.TakeoverCandidate
    ensures DecodesUnlessTaken(t, m, c, ClaimRows(t, m, c))
  {
    RowsDecoded(t);
    TakeoverDecoded(t, m, c);
    if m.attemptRef in t.attempts { BuryDecoded(t, m, t.attempts[m.attemptRef].body, c); }
    hide Indexed, Decoded, TakeoverRows, BuryRows, TakeOver, Bury, ClaimHeldRows, GrantRows, Grant;
    TakeOverSucceeds(Decoded(t), m, c);
  }

  lemma TakeOverSucceeds(q: Queue, m: Message, c: ClaimRequest)
    ensures TakeOver(q, m, c).reply.Ok?
  {
  }

  lemma ClaimDecoded(t: Tables, m: Message, c: ClaimRequest)
    requires Indexed(t) && StoredRow(t, m) && c.messageRef == m.messageRef
    ensures DecodesUnlessTaken(t, m, c, ClaimRows(t, m, c))
  {
    hide Indexed, Decoded;
    if m.state == MessageState.TakeoverCandidate {
      TakeoverCandidateDecoded(t, m, c);
    } else if Held(m.state) {
      HeldDecoded(t, m, c);
      hide ClaimHeldRows, Claim, TakenRef;
    } else {
      RowsDecoded(t);
      GrantDecoded(t, m, c);
      hide GrantRows, Grant, ClaimHeldRows, BuryRows, TakeoverRows;
    }
  }

  /** A direct claim in memory never reports a constraint, and a refused one changes nothing. */
  lemma ClaimErrors(q: Queue, c: ClaimRequest)
    ensures Claim(q, c).reply.Err? ==>
      Claim(q, c).reply.error in {MessageNotFound, MessageUnavailable, MessageDeadLettered}
    ensures Claim(q, c).reply.Err? && Claim(q, c).reply.error != MessageDeadLettered ==> Claim(q, c).queue == q
  {
  }

  lemma UnknownClaim(q: Queue, c: ClaimRequest)
    requires c.messageRef !in q.messages
    ensures Claim(q, c) == ClaimTurn(q, Err(MessageNotFound))
  {
  }

  lemma SettledClaimsAgree(t: Tables, m: Message, c: ClaimRequest, tx: RowClaim)
    requires Indexed(t) && DecodesUnlessTaken(t, m, c, tx)
    ensures var sql, memory := Settle(t, tx), Claim(Decoded(t), c);
            && Indexed(sql.tables)
            && (Decoded(sql.tables) == memory.queue && sql.reply == memory.reply <==> !TakenRef(Decoded(t), c))
            && (TakenRef(Decoded(t), c) ==> sql == RowClaim(t, Err(ConstraintViolated)))
  {
    ClaimErrors(Decoded(t), c);
    hide Indexed, Decoded, Claim, TakenRef;
  }

  /**
   * The two stores claim alike exactly when the claim does not need a ref that is taken; one that does is rolled
   * back by its key, where memory overwrites the record.
   */
  lemma ClaimsAgreeIff(t: Tables, c: ClaimRequest)
    requires Indexed(t)
    ensures var sql, memory := SqlClaim(t, c), Claim(Decoded(t), c);
            && Indexed(sql.tables)
            && (Decoded(sql.tables) == memory.queue && sql.reply == memory.reply <==> !TakenRef(Decoded(t), c))
            && (TakenRef(Decoded(t), c) ==> sql == RowClaim(t, Err(ConstraintViolated)))
  {
    RowsDecoded(t);
    hide Indexed, Decoded, Claim, ClaimRows, Settle, DecodesUnlessTaken;
    if c.messageRef in t.messages {
      var m := t.messages[c.messageRef].body;
      ClaimDecoded(t, m, c);
      SettledClaimsAgree(t, m, c, ClaimRows(t, m, c));
    } else {
      UnknownClaim(Decoded(t), c);
    }
  }

  /** One available message, one attempt of another, and a claim under that attempt's ref. */
  const CROWDED := EMPTY_TABLES.(
    messages := map["m" := MessageRowOf(Message("m", "", "", "", "", "", [], "", "", false, MessageState.Available, "", 0))],
    attempts := map["a" := AttemptRowOf(Attempt("a", "other", "e", InProgress, 9, 1, 1, 1))])

  const CLASHING := ClaimRequest("m", Endpoint("w", "", Online, {}, 1), "a", "d", 5, 1, 3)

  /** Memory grants the claim and overwrites the other message's attempt; SQLite refuses it and changes nothing. */
  lemma StoresDiffer()
    ensures Indexed(CROWDED)
    ensures var memory := Claim(Decoded(CROWDED), CLASHING);
            memory.reply.Ok? && "a" in memory.queue.attempts && memory.queue.attempts["a"].messageRef == "m"
    ensures SqlClaim(CROWDED, CLASHING) == RowClaim(CROWDED, Err(ConstraintViolated))
  {
    CrowdedIsIndexed();
    RowsDecoded(CROWDED);
    hide Indexed, Decoded;
    ClaimsAgreeIff(CROWDED, CLASHING);
  }

  lemma CrowdedIsIndexed()
    ensures Indexed(CROWDED)
  {
    assert forall a: Ref :: RowsOf(map[], a) == {};
  }

  // The poll

  lemma RequestDecoded(t: Tables, r: Ref, c: ClaimNextRequest)
    requires Indexed(t)
    ensures var d := RequestRows(t, r, c);
            && Indexed(d.tables) && Decoded(d.tables) == WithRefs(Decoded(t), c)
            && d.request == DirectRequest(Decoded(t), r, c) && d.tables == t.(refs := d.tables.refs)
  {
    RefWrite(t, Refs.Kind.Attempt);
    RefWrite(t, Refs.Kind.DeadLetter);
    RefWrite(DrawRef(t, Refs.Kind.Attempt).tables, Refs.Kind.DeadLetter);
    hide Indexed, Decoded;
  }

  lemma PassingIsEligible(t: Tables, r: Ref, c: ClaimNextRequest)
    requires Indexed(t) && r in t.messages
    ensures Passes(t, t.messages[r].body, c) <==> Waiting(Decoded(t).messages[r].state) && Eligible(Decoded(t), r, c)
  {
    RowsDecoded(t);
    assert RowStates(t) == States(Decoded(t));
    hide Indexed, Decoded, Claimable, PreferredOnline, DependenciesCompleted;
  }

  /** Within a queue, what passes is what is eligible in one of the two waiting states. */
  ghost predicate PassingAreEligible(t: Tables, q: Queue, c: ClaimNextRequest) {
    && q.messages.Keys == t.messages.Keys
    && (forall r :: r in t.messages ==> t.messages[r].body == q.messages[r] && q.messages[r].messageRef == r)
    && (forall r :: r in t.messages ==>
          (Passes(t, t.messages[r].body, c) <==> Waiting(q.messages[r].state) && Eligible(q, r, c)))
  }

  lemma NextPassesFirst(t: Tables, q: Queue, c: ClaimNextRequest, r: Ref)
    requires PassingAreEligible(t, q, c) && NextEligible(q, c) == Some(r)
    ensures IsFirstPassing(t, c, r)
  {
    hide Passes, Eligible;
    var orphaned, available := EligibleIn(q, MessageState.TakeoverCandidate, c), EligibleIn(q, MessageState.Available, c);
    assert IsLeast(r, if orphaned != {} then orphaned else available);
    forall o | o in t.messages && o != r && Passes(t, t.messages[o].body, c)
      ensures ScansBefore(t.messages[r].body, t.messages[o].body)
    {
      assert o in orphaned || o in available;
    }
  }

  lemma NonePasses(t: Tables, q: Queue, c: ClaimNextRequest, r: Ref)
    requires PassingAreEligible(t, q, c) && NextEligible(q, c).None?
    ensures !IsFirstPassing(t, c, r)
  {
    hide Passes, Eligible;
    assert r !in EligibleIn(q, MessageState.TakeoverCandidate, c) && r !in EligibleIn(q, MessageState.Available, c);
  }

  lemma FirstIsUnique(t: Tables, c: ClaimNextRequest, r: Ref, o: Ref)
    requires Indexed(t) && IsFirstPassing(t, c, r) && IsFirstPassing(t, c, o)
    ensures r == o
  {
    hide Passes, CheckpointsIndexed;
    if r != o && Less(r, o) { LessAsymmetric(r, o); }
  }

  /** The first row of the one scan is what the two passes over the map find. */
  lemma ScanIsNext(t: Tables, c: ClaimNextRequest)
    requires Indexed(t)
    ensures ScanNext(t, c) == NextEligible(Decoded(t), c)
  {
    var q := Decoded(t);
    RowsDecoded(t);
    forall r | r in t.messages
      ensures Passes(t, t.messages[r].body, c) <==> Waiting(q.messages[r].state) && Eligible(q, r, c)
    {
      PassingIsEligible(t, r, c);
    }
    hide Indexed, Decoded, Passes, Eligible, NextEligible, IsFirstPassing;
    var next := NextEligible(q, c);
    if next.Some? {
      NextPassesFirst(t, q, c, next.value);
      forall r | IsFirstPassing(t, c, r) ensures r == next.value { FirstIsUnique(t, c, r, next.value); }
    } else {
      forall r ensures !IsFirstPassing(t, c, r) { NonePasses(t, q, c, r); }
    }
  }

  /** The picked message can be claimed: it is new, or the attempt it waits to be taken over from is stored. */
  predicate Takeable(q: Queue, r: Ref)
    requires r in q.messages
  {
    q.messages[r].state == MessageState.Available || q.messages[r].attemptRef in q.attempts
  }

  lemma PolledTurns(q: Queue, r: Ref, c: ClaimNextRequest)
    requires r in q.messages && q.messages[r].messageRef == r && Waiting(q.messages[r].state)
    ensures var direct := Claim(WithRefs(q, c), DirectRequest(q, r, c));
            if Takeable(q, r) then
              ClaimEligible(q, r, c)
              == NextTurn(direct.queue, if direct.reply.Ok? then Some(direct.reply.value) else None)
              && (direct.reply.Err? ==> direct.reply.error == MessageDeadLettered)
            else direct.reply == Err(MessageUnavailable)
  {
  }

  lemma NextIsStored(q: Queue, c: ClaimNextRequest)
    requires NextEligible(q, c).Some?
    ensures var r := NextEligible(q, c).value; r in q.messages && Waiting(q.messages[r].state)
  {
    var orphaned, available := EligibleIn(q, MessageState.TakeoverCandidate, c), EligibleIn(q, MessageState.Available, c);
    hide Eligible;
  }

  /** The two polls of one message, given what its claim's statements did. */
  lemma PickedPollsAgree(t: Tables, r: Ref, c: ClaimNextRequest)
    requires Indexed(t) && r in t.messages && ScanNext(t, c) == Some(r) && NextEligible(Decoded(t), c) == Some(r)
    requires Waiting(Decoded(t).messages[r].state) && Decoded(t).messages[r].messageRef == r
    ensures var memory, sql := ClaimNext(Decoded(t), c), SqlClaimNext(t, c);
            && Indexed(sql.tables)
            && (Decoded(sql.tables) == memory.queue && sql.reply == Ok(memory.reply) <==>
                  Takeable(Decoded(t), r) && !TakenRef(WithRefs(Decoded(t), c), DirectRequest(Decoded(t), r, c)))
            && (sql.reply.Err? ==> sql.tables == t)
  {
    var q, d := Decoded(t), RequestRows(t, r, c);
    RowsDecoded(t);
    RequestDecoded(t, r, c);
    RowsDecoded(d.tables);
    PolledTurns(q, r, c);
    ClaimDecoded(d.tables, t.messages[r].body, d.request);
    hide Indexed, Decoded, Claim, ClaimEligible, ClaimRows, TakenRef, NextEligible, ScanNext, WithRefs, DirectRequest,
      RequestRows, Takeable;
  }

  /**
   * The two stores poll alike exactly when the picked message can be claimed and no ref that its claim needs is taken.
   */
  lemma PollsAgreeIff(t: Tables, c: ClaimNextRequest)
    requires Indexed(t)
    ensures var q, memory, sql := Decoded(t), ClaimNext(Decoded(t), c), SqlClaimNext(t, c);
            && Indexed(sql.tables)
            && (Decoded(sql.tables) == memory.queue && sql.reply == Ok(memory.reply) <==>
                  match NextEligible(q, c)
                  case None => true
                  case Some(r) => r in q.messages && Takeable(q, r) && !TakenRef(WithRefs(q, c), DirectRequest(q, r, c)))
            && (sql.reply.Err? ==> sql.tables == t)
  {
    RowsDecoded(t);
    ScanIsNext(t, c);
    hide Indexed, Decoded, NextEligible, ScanNext, TakenRef, Takeable, ClaimEligible, ClaimRows, RequestRows;
    if NextEligible(Decoded(t), c).Some? {
      NextIsStored(Decoded(t), c);
      PickedPollsAgree(t, NextEligible(Decoded(t), c).value, c);
    }
  }

  // Reconciliation

  lemma ExpiredDecoded(t: Tables, now: Time)
    requires Indexed(t)
    ensures ExpiredRows(t, now) == ExpiredClaims(Decoded(t), now)
  {
    RowsDecoded(t);
    hide Indexed, Decoded;
  }

  /** These messages' rows offered for takeover, the rows of the attempts they point at orphaned. */
  function RequeueRows(t: Tables, refs: set<Ref>, lost: set<Ref>): Tables {
    t.(messages := map r | r in t.messages ::
         if r in refs then MessageRowOf(t.messages[r].body.(state := MessageState.TakeoverCandidate)) else t.messages[r],
       attempts := map a | a in t.attempts ::
         if a in lost then AttemptRowOf(t.attempts[a].body.(state := AttemptState.Orphaned)) else t.attempts[a])
  }

  function LostAttempts(t: Tables, refs: set<Ref>): set<Ref> {
    set r | r in refs && r in t.messages :: t.messages[r].body.attemptRef
  }

  function ReconcileRows(t: Tables, now: Time): Tables {
    var expired := ExpiredRows(t, now);
    RequeueRows(t, expired, LostAttempts(t, expired))
  }

  lemma RequeueIndexed(t: Tables, refs: set<Ref>, lost: set<Ref>)
    requires Indexed(t)
    ensures Indexed(RequeueRows(t, refs, lost))
  {
    hide CheckpointsIndexed;
  }

  /** What the statements leave alone stands for the same. */
  lemma RestDecoded(t: Tables, u: Tables)
    requires Indexed(t) && Indexed(u) && u == t.(messages := u.messages, attempts := u.attempts)
    ensures Decoded(u) == Decoded(t).(messages := Decoded(u).messages, attempts := Decoded(u).attempts)
  {
    hide Indexed, Histories;
  }

  lemma LostDecoded(t: Tables, refs: set<Ref>)
    requires Indexed(t)
    ensures LostAttempts(t, refs) == CurrentAttempts(Decoded(t), refs)
  {
    RowsDecoded(t);
    hide Indexed, Decoded;
  }

  lemma RequeuedMessages(t: Tables, refs: set<Ref>, lost: set<Ref>)
    requires Indexed(t) && Indexed(RequeueRows(t, refs, lost))
    ensures Decoded(RequeueRows(t, refs, lost)).messages == Requeue(Decoded(t), refs).messages
  {
    RowsDecoded(t);
    RowsDecoded(RequeueRows(t, refs, lost));
    hide Indexed, Decoded, CurrentAttempts;
  }

  lemma RequeuedAttempts(t: Tables, refs: set<Ref>, lost: set<Ref>)
    requires Indexed(t) && Indexed(RequeueRows(t, refs, lost)) && lost == CurrentAttempts(Decoded(t), refs)
    ensures Decoded(RequeueRows(t, refs, lost)).attempts == Requeue(Decoded(t), refs).attempts
  {
    RowsDecoded(t);
    RowsDecoded(RequeueRows(t, refs, lost));
    hide Indexed, Decoded, CurrentAttempts;
  }

  lemma RequeueDecoded(t: Tables, refs: set<Ref>)
    requires Indexed(t) && Indexed(RequeueRows(t, refs, LostAttempts(t, refs)))
    ensures Decoded(RequeueRows(t, refs, LostAttempts(t, refs))) == Requeue(Decoded(t), refs)
  {
    hide Indexed, Decoded, LostAttempts;
    var lost := LostAttempts(t, refs);
    LostDecoded(t, refs);
    RequeuedMessages(t, refs, lost);
    RequeuedAttempts(t, refs, lost);
    RestDecoded(t, RequeueRows(t, refs, lost));
  }

  lemma ReconcileDecoded(t: Tables, now: Time)
    requires Indexed(t)
    ensures Indexed(ReconcileRows(t, now)) && Decoded(ReconcileRows(t, now)) == Reconcile(Decoded(t), now)
    ensures ExpiredRows(t, now) == ExpiredClaims(Decoded(t), now)
  {
    hide Indexed, Decoded, Requeue, RequeueRows, LostAttempts, ExpiredRows, ExpiredClaims;
    ExpiredDecoded(t, now);
    RequeueIndexed(t, ExpiredRows(t, now), LostAttempts(t, ExpiredRows(t, now)));
    RequeueDecoded(t, ExpiredRows(t, now));
  }
}
