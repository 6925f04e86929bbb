// What the events of the stream say: each one shows a record of a snapshot that
// the client's options ask for, field by field.
module EventContent {
  import opened Text
  import opened Sorting
  import opened EventStream

  predicate Asks(options: Options, m: Message) {
    && (options.taskRef == "" || m.correlationRef == options.taskRef)
    && (options.capability == "" || m.targetCapability == options.capability)
  }

  /** The options ask for some message of this ref. */
  ghost predicate AsksFor(snapshot: Snapshot, options: Options, r: Ref) {
    exists m :: m in snapshot.messages && m.messageRef == r && Asks(options, m)
  }

  /** Some attempt of this ref is at a message that the options ask for. */
  ghost predicate AsksForAttempt(snapshot: Snapshot, options: Options, r: Ref) {
    exists a :: a in snapshot.attempts && a.attemptRef == r && AsksFor(snapshot, options, a.messageRef)
  }

  predicate TellsMessage(e: Event, m: Message) {
    && e.ref == m.messageRef && e.messageRef == m.messageRef && e.attemptRef == m.attemptRef
    && e.targetCapability == m.targetCapability && e.taskRef == m.correlationRef && e.state == m.state
       && e.summary == m.summary
  }

  predicate TellsAttempt(e: Event, a: Attempt) {
    && e.ref == a.attemptRef && e.attemptRef == a.attemptRef && e.messageRef == a.messageRef
    && e.endpointRef == a.endpointRef && e.state == a.state
  }

  predicate TellsCheckpoint(e: Event, c: Checkpoint) {
    e.ref == c.checkpointRef && e.attemptRef == c.attemptRef && e.state == c.state && e.summary == c.summary
  }

  predicate TellsReadback(e: Event, b: Readback) {
    e.ref == b.readbackRef && e.attemptRef == b.attemptRef && e.endpointRef == b.endpointRef && e.summary == b.understanding
  }

  predicate TellsArtifact(e: Event, a: Artifact) {
    && e.ref == a.versionRef && e.messageRef == a.messageRef && e.attemptRef == a.attemptRef
    && e.taskRef == a.taskRef && e.summary == a.kind
  }

  /** The event shows a record of the snapshot that the options ask for. */
  ghost predicate Shows(snapshot: Snapshot, options: Options, e: Event) {
    match e.kind
    case NewMessage | MessageUpdate => exists m :: m in snapshot.messages && Asks(options, m) && TellsMessage(e, m)
    case NewAttempt | AttemptUpdate =>
      exists a :: a in snapshot.attempts && AsksFor(snapshot, options, a.messageRef) && TellsAttempt(e, a)
    case NewCheckpoint =>
      exists c :: c in snapshot.checkpoints && AsksForAttempt(snapshot, options, c.attemptRef) && TellsCheckpoint(e, c)
    case NewReadback =>
      exists b :: b in snapshot.readbacks && AsksForAttempt(snapshot, options, b.attemptRef) && TellsReadback(e, b)
    case NewArtifact =>
      exists a :: a in snapshot.artifacts && AsksFor(snapshot, options, a.messageRef) && TellsArtifact(e, a)
  }

  /** What was sent stays sent, and what is added shows the snapshot. */
  ghost predicate ShowsMore(sent: seq<Event>, sent': seq<Event>, snapshot: Snapshot, options: Options) {
    && |sent| <= |sent'| && sent'[..|sent|] == sent
    && forall i :: |sent| <= i < |sent'| ==> Shows(snapshot, options, sent'[i])
  }

  lemma ShowsStill(sent: seq<Event>, sent': seq<Event>, sent'': seq<Event>, snapshot: Snapshot, options: Options)
    requires ShowsMore(sent, sent', snapshot, options) && ShowsMore(sent', sent'', snapshot, options)
    ensures ShowsMore(sent, sent'', snapshot, options)
  {
    hide Shows;
    forall i | 0 <= i < |sent'| ensures sent''[i] == sent'[i] { assert sent''[..|sent'|][i] == sent'[i]; }
    forall i | 0 <= i < |sent| ensures sent''[..|sent|][i] == sent[i] { assert sent'[..|sent|][i] == sent[i]; }
  }

  lemma RefsAsked(snapshot: Snapshot, options: Options, r: Ref)
    ensures r in MessageRefs(snapshot.messages, options) <==> AsksFor(snapshot, options, r)
  {
    if m :| m in snapshot.messages && m.messageRef == r && Asks(options, m) {
      var i :| 0 <= i < |snapshot.messages| && snapshot.messages[i] == m;
      assert Matches(snapshot.messages[i], options);
    }
  }

  lemma AttemptRefsAsked(snapshot: Snapshot, options: Options, r: Ref)
    ensures r in AttemptRefs(snapshot.attempts, MessageRefs(snapshot.messages, options)) <==>
            AsksForAttempt(snapshot, options, r)
  {
    forall k ensures k in MessageRefs(snapshot.messages, options) <==> AsksFor(snapshot, options, k) {
      RefsAsked(snapshot, options, k);
    }
    hide MessageRefs, AsksFor;
    if a :| a in snapshot.attempts && a.attemptRef == r && AsksFor(snapshot, options, a.messageRef) {
      var i :| 0 <= i < |snapshot.attempts| && snapshot.attempts[i] == a;
    }
  }

  lemma {:induction false} MessagesShow(r: Report, list: seq<Message>, snapshot: Snapshot, options: Options)
    requires forall m :: m in list ==> m in snapshot.messages
    ensures ShowsMore(r.events, NoteMessages(r, list, options).events, snapshot, options)
  {
    if list != [] {
      MessagesShow(r, list[..|list| - 1], snapshot, options);
      MessageShows(NoteMessages(r, list[..|list| - 1], options), list[|list| - 1], snapshot, options);
      ShowsStill(r.events, NoteMessages(r, list[..|list| - 1], options).events, NoteMessages(r, list, options).events,
                 snapshot, options);
    }
  }

  lemma MessageShows(r: Report, m: Message, snapshot: Snapshot, options: Options)
    requires m in snapshot.messages
    ensures ShowsMore(r.events, NoteMessage(r, m, options).events, snapshot, options)
  {
    assert Matches(m, options) <==> Asks(options, m);
    assert TellsMessage(MessageEvent(NewMessage, m), m) && TellsMessage(MessageEvent(MessageUpdate, m), m);
  }

  lemma {:induction false} AttemptsShow(r: Report, list: seq<Attempt>, snapshot: Snapshot, options: Options)
    requires forall a :: a in list ==> a in snapshot.attempts
    ensures ShowsMore(r.events, NoteAttempts(r, list, MessageRefs(snapshot.messages, options)).events, snapshot, options)
  {
    var refs := MessageRefs(snapshot.messages, options);
    if list != [] {
      AttemptsShow(r, list[..|list| - 1], snapshot, options);
      AttemptShows(NoteAttempts(r, list[..|list| - 1], refs), list[|list| - 1], snapshot, options);
      ShowsStill(r.events, NoteAttempts(r, list[..|list| - 1], refs).events, NoteAttempts(r, list, refs).events,
                 snapshot, options);
    }
  }

  lemma AttemptShows(r: Report, a: Attempt, snapshot: Snapshot, options: Options)
    requires a in snapshot.attempts
    ensures ShowsMore(r.events, NoteAttempt(r, a, MessageRefs(snapshot.messages, options)).events, snapshot, options)
  {
    RefsAsked(snapshot, options, a.messageRef);
    hide MessageRefs, AsksFor;
    assert TellsAttempt(AttemptEvent(NewAttempt, a), a) && TellsAttempt(AttemptEvent(AttemptUpdate, a), a);
  }

  lemma {:induction false} CheckpointsShow(r: Report, list: seq<Checkpoint>, snapshot: Snapshot, options: Options)
    requires forall c :: c in list ==> c in snapshot.checkpoints
    ensures var refs := AttemptRefs(snapshot.attempts, MessageRefs(snapshot.messages, options));
            ShowsMore(r.events, NoteCheckpoints(r, list, refs).events, snapshot, options)
  {
    var refs := AttemptRefs(snapshot.attempts, MessageRefs(snapshot.messages, options));
    if list != [] {
      var r', c := NoteCheckpoints(r, list[..|list| - 1], refs), list[|list| - 1];
      CheckpointsShow(r, list[..|list| - 1], snapshot, options);
      AttemptRefsAsked(snapshot, options, c.attemptRef);
      hide AttemptRefs, AsksForAttempt;
      assert TellsCheckpoint(CheckpointEvent(c), c);
      assert ShowsMore(r'.events, NoteCheckpoint(r', c, refs).events, snapshot, options);
      ShowsStill(r.events, r'.events, NoteCheckpoints(r, list, refs).events, snapshot, options);
    }
  }

  lemma {:induction false} ReadbacksShow(r: Report, list: seq<Readback>, snapshot: Snapshot, options: Options)
    requires forall b :: b in list ==> b in snapshot.readbacks
    ensures var refs := AttemptRefs(snapshot.attempts, MessageRefs(snapshot.messages, options));
            ShowsMore(r.events, NoteReadbacks(r, list, refs).events, snapshot, options)
  {
    var refs := AttemptRefs(snapshot.attempts, MessageRefs(snapshot.messages, options));
    if list != [] {
      var r', b := NoteReadbacks(r, list[..|list| - 1], refs), list[|list| - 1];
      ReadbacksShow(r, list[..|list| - 1], snapshot, options);
      AttemptRefsAsked(snapshot, options, b.attemptRef);
      hide AttemptRefs, AsksForAttempt;
      assert TellsReadback(ReadbackEvent(b), b);
      assert ShowsMore(r'.events, NoteReadback(r', b, refs).events, snapshot, options);
      ShowsStill(r.events, r'.events, NoteReadbacks(r, list, refs).events, snapshot, options);
    }
  }

  lemma {:induction false} ArtifactsShow(r: Report, list: seq<Artifact>, snapshot: Snapshot, options: Options)
    requires forall a :: a in list ==> a in snapshot.artifacts
    ensures ShowsMore(r.events, NoteArtifacts(r, list, MessageRefs(snapshot.messages, options)).events, snapshot, options)
  {
    var refs := MessageRefs(snapshot.messages, options);
    if list != [] {
      var r', a := NoteArtifacts(r, list[..|list| - 1], refs), list[|list| - 1];
      ArtifactsShow(r, list[..|list| - 1], snapshot, options);
      RefsAsked(snapshot, options, a.messageRef);
      hide MessageRefs, AsksFor;
      assert TellsArtifact(ArtifactEvent(a), a);
      assert ShowsMore(r'.events, NoteArtifact(r', a, refs).events, snapshot, options);
      ShowsStill(r.events, r'.events, NoteArtifacts(r, list, refs).events, snapshot, options);
    }
  }

  lemma SnapshotShows(r: Report, snapshot: Snapshot, options: Options)
    ensures ShowsMore(r.events, Note(r, snapshot, options).events, snapshot, options)
  {
    hide NoteMessages, NoteAttempts, NoteCheckpoints, NoteReadbacks, NoteArtifacts, ShowsMore, InOrder, MessageRefs,
      AttemptRefs;
    var messageRefs := MessageRefs(snapshot.messages, options);
    var attemptRefs := AttemptRefs(snapshot.attempts, messageRefs);
    forall m | m in InOrder(MessageKey, snapshot.messages) ensures m in snapshot.messages {
      InOrderMembers(MessageKey, snapshot.messages, m);
    }
    forall a | a in InOrder(AttemptKey, snapshot.attempts) ensures a in snapshot.attempts {
      InOrderMembers(AttemptKey, snapshot.attempts, a);
    }
    forall c | c in InOrder(CheckpointKey, snapshot.checkpoints) ensures c in snapshot.checkpoints {
      InOrderMembers(CheckpointKey, snapshot.checkpoints, c);
    }
    forall b | b in InOrder(ReadbackKey, snapshot.readbacks) ensures b in snapshot.readbacks {
      InOrderMembers(ReadbackKey, snapshot.readbacks, b);
    }
    forall a | a in InOrder(ArtifactKey, snapshot.artifacts) ensures a in snapshot.artifacts {
      InOrderMembers(ArtifactKey, snapshot.artifacts, a);
    }
    var r1 := NoteMessages(r, InOrder(MessageKey, snapshot.messages), options);
    var r2 := NoteAttempts(r1, InOrder(AttemptKey, snapshot.attempts), messageRefs);
    var r3 := NoteCheckpoints(r2, InOrder(CheckpointKey, snapshot.checkpoints), attemptRefs);
    var r4 := NoteReadbacks(r3, InOrder(ReadbackKey, snapshot.readbacks), attemptRefs);
    MessagesShow(r, InOrder(MessageKey, snapshot.messages), snapshot, options);
    AttemptsShow(r1, InOrder(AttemptKey, snapshot.attempts), snapshot, options);
    CheckpointsShow(r2, InOrder(CheckpointKey, snapshot.checkpoints), snapshot, options);
    ReadbacksShow(r3, InOrder(ReadbackKey, snapshot.readbacks), snapshot, options);
    ArtifactsShow(r4, InOrder(ArtifactKey, snapshot.artifacts), snapshot, options);
    ShowsStill(r.events, r1.events, r2.events, snapshot, options);
    ShowsStill(r.events, r2.events, r3.events, snapshot, options);
    ShowsStill(r.events, r3.events, r4.events, snapshot, options);
    ShowsStill(r.events, r4.events, Note(r, snapshot, options).events, snapshot, options);
  }

  /** Every event of a stream shows, field by field, a record of some snapshot that the options ask for. */
  lemma {:induction false} EventsShowRecords(snapshots: seq<Snapshot>, options: Options, j: nat)
    requires j < |Stream(snapshots, options).events|
    ensures exists i :: 0 <= i < |snapshots| && Shows(snapshots[i], options, Stream(snapshots, options).events[j])
    decreases |snapshots|
  {
    hide Note, Shows;
    assert snapshots != [];
    var n := |snapshots| - 1;
    var before := Stream(snapshots[..n], options);
    SnapshotShows(before, snapshots[n], options);
    if j < |before.events| {
      EventsShowRecords(snapshots[..n], options, j);
      var i :| 0 <= i < |snapshots[..n]| && Shows(snapshots[..n][i], options, before.events[j]);
      assert snapshots[..n][i] == snapshots[i];
      assert Stream(snapshots, options).events[..|before.events|][j] == before.events[j];
    } else {
      assert Shows(snapshots[n], options, Stream(snapshots, options).events[j]);
    }
  }
}
