// The event stream of the control API: each snapshot is compared with what the
// stream has already shown, and only the differences are sent.
module EventStream {
  import opened Wrappers
  import opened Text
  import opened Sorting

  type Ref = string

  datatype Message = Message(
    messageRef: Ref, attemptRef: Ref, targetCapability: string, correlationRef: Ref,
    state: string, redeliveryCount: int, summary: string)

  datatype Attempt = Attempt(
    attemptRef: Ref, messageRef: Ref, endpointRef: Ref, state: string, revision: int, claimEpoch: int)

  datatype Checkpoint = Checkpoint(checkpointRef: Ref, attemptRef: Ref, state: string, summary: string)

  datatype Readback = Readback(readbackRef: Ref, attemptRef: Ref, endpointRef: Ref, understanding: string)

  datatype Artifact = Artifact(versionRef: Ref, messageRef: Ref, attemptRef: Ref, taskRef: Ref, kind: string)

  datatype Snapshot = Snapshot(
    messages: seq<Message>,
    attempts: seq<Attempt>,
    checkpoints: seq<Checkpoint>,
    readbacks: seq<Readback>,
    artifacts: seq<Artifact>)

  datatype Options = Options(taskRef: Ref, capability: string)

  datatype Kind =
    | NewMessage | MessageUpdate | NewAttempt | AttemptUpdate
    | NewCheckpoint | NewReadback | NewArtifact

  datatype Event = Event(
    kind: Kind, ref: Ref, messageRef: Ref, attemptRef: Ref, endpointRef: Ref,
    targetCapability: string, taskRef: Ref, state: string, summary: string)

  /** What the stream has shown so far. */
  datatype Seen = Seen(
    messages: map<Ref, Message>,
    attempts: map<Ref, Attempt>,
    checkpoints: map<Ref, Checkpoint>,
    readbacks: map<Ref, Readback>,
    artifacts: map<Ref, Artifact>)

  datatype Report = Report(seen: Seen, events: seq<Event>)

  const NOTHING := Report(Seen(map[], map[], map[], map[], map[]), [])

  function MessageEvent(kind: Kind, m: Message): Event {
    Event(kind, m.messageRef, m.messageRef, m.attemptRef, "", m.targetCapability, m.correlationRef, m.state, m.summary)
  }

  function AttemptEvent(kind: Kind, a: Attempt): Event {
    Event(kind, a.attemptRef, a.messageRef, a.attemptRef, a.endpointRef, "", "", a.state, "")
  }

  function CheckpointEvent(c: Checkpoint): Event {
    Event(NewCheckpoint, c.checkpointRef, "", c.attemptRef, "", "", "", c.state, c.summary)
  }

  function ReadbackEvent(r: Readback): Event {
    Event(NewReadback, r.readbackRef, "", r.attemptRef, r.endpointRef, "", "", "", r.understanding)
  }

  function ArtifactEvent(a: Artifact): Event {
    Event(NewArtifact, a.versionRef, a.messageRef, a.attemptRef, "", "", a.taskRef, "", a.kind)
  }

  predicate Matches(m: Message, options: Options) {
    && (options.taskRef == "" || m.correlationRef == options.taskRef)
    && (options.capability == "" || m.targetCapability == options.capability)
  }

  /** The fields of a message whose change is worth an event. */
  predicate SameMessage(m: Message, n: Message) {
    m.state == n.state && m.attemptRef == n.attemptRef && m.redeliveryCount == n.redeliveryCount
  }

  predicate SameAttempt(a: Attempt, b: Attempt) {
    a.state == b.state && a.revision == b.revision && a.claimEpoch == b.claimEpoch
  }

  function MessageRefs(messages: seq<Message>, options: Options): set<Ref> {
    set i | 0 <= i < |messages| && Matches(messages[i], options) :: messages[i].messageRef
  }

  function AttemptRefs(attempts: seq<Attempt>, messageRefs: set<Ref>): set<Ref> {
    set i | 0 <= i < |attempts| && attempts[i].messageRef in messageRefs :: attempts[i].attemptRef
  }

  // One record, then a list of records, oldest first

  function NoteMessage(r: Report, m: Message, options: Options): Report {
    if !Matches(m, options) then r else
    var seen := r.seen.(messages := r.seen.messages[m.messageRef := m]);
    if m.messageRef !in r.seen.messages then Report(seen, r.events + [MessageEvent(NewMessage, m)])
    else if !SameMessage(r.seen.messages[m.messageRef], m) then Report(seen, r.events + [MessageEvent(MessageUpdate, m)])
    else Report(seen, r.events)
  }

  function NoteMessages(r: Report, messages: seq<Message>, options: Options): Report {
    if messages == [] then r
    else NoteMessage(NoteMessages(r, messages[..|messages| - 1], options), messages[|messages| - 1], options)
  }

  function NoteAttempt(r: Report, a: Attempt, messageRefs: set<Ref>): Report {
    if a.messageRef !in messageRefs then r else
    var seen := r.seen.(attempts := r.seen.attempts[a.attemptRef := a]);
    if a.attemptRef !in r.seen.attempts then Report(seen, r.events + [AttemptEvent(NewAttempt, a)])
    else if !SameAttempt(r.seen.attempts[a.attemptRef], a) then Report(seen, r.events + [AttemptEvent(AttemptUpdate, a)])
    else Report(seen, r.events)
  }

  function NoteAttempts(r: Report, attempts: seq<Attempt>, messageRefs: set<Ref>): Report {
    if attempts == [] then r
    else NoteAttempt(NoteAttempts(r, attempts[..|attempts| - 1], messageRefs), attempts[|attempts| - 1], messageRefs)
  }

  function NoteCheckpoint(r: Report, c: Checkpoint, attemptRefs: set<Ref>): Report {
    if c.attemptRef !in attemptRefs || c.checkpointRef in r.seen.checkpoints then r
    else Report(r.seen.(checkpoints := r.seen.checkpoints[c.checkpointRef := c]), r.events + [CheckpointEvent(c)])
  }

  function NoteCheckpoints(r: Report, checkpoints: seq<Checkpoint>, attemptRefs: set<Ref>): Report {
    if checkpoints == [] then r
    else NoteCheckpoint(NoteCheckpoints(r, checkpoints[..|checkpoints| - 1], attemptRefs),
                        checkpoints[|checkpoints| - 1], attemptRefs)
  }

  function NoteReadback(r: Report, b: Readback, attemptRefs: set<Ref>): Report {
    if b.attemptRef !in attemptRefs || b.readbackRef in r.seen.readbacks then r
    else Report(r.seen.(readbacks := r.seen.readbacks[b.readbackRef := b]), r.events + [ReadbackEvent(b)])
  }

  function NoteReadbacks(r: Report, readbacks: seq<Readback>, attemptRefs: set<Ref>): Report {
    if readbacks == [] then r
    else NoteReadback(NoteReadbacks(r, readbacks[..|readbacks| - 1], attemptRefs), readbacks[|readbacks| - 1], attemptRefs)
  }

  function NoteArtifact(r: Report, a: Artifact, messageRefs: set<Ref>): Report {
    if a.messageRef !in messageRefs || a.versionRef in r.seen.artifacts then r
    else Report(r.seen.(artifacts := r.seen.artifacts[a.versionRef := a]), r.events + [ArtifactEvent(a)])
  }

  function NoteArtifacts(r: Report, artifacts: seq<Artifact>, messageRefs: set<Ref>): Report {
    if artifacts == [] then r
    else NoteArtifact(NoteArtifacts(r, artifacts[..|artifacts| - 1], messageRefs), artifacts[|artifacts| - 1], messageRefs)
  }

  function MessageKey(m: Message): Ref { m.messageRef }

  function AttemptKey(a: Attempt): Ref { a.attemptRef }

  function CheckpointKey(c: Checkpoint): Ref { c.checkpointRef }

  function ReadbackKey(b: Readback): Ref { b.readbackRef }

  function ArtifactKey(a: Artifact): Ref { a.versionRef }

  /** The stream after one more snapshot, its events added behind those already sent. */
  function Note(r: Report, snapshot: Snapshot, options: Options): Report {
    var messageRefs := MessageRefs(snapshot.messages, options);
    var attemptRefs := AttemptRefs(snapshot.attempts, messageRefs);
    var r1 := NoteMessages(r, InOrder(MessageKey, snapshot.messages), options);
    var r2 := NoteAttempts(r1, InOrder(AttemptKey, snapshot.attempts), messageRefs);
    var r3 := NoteCheckpoints(r2, InOrder(CheckpointKey, snapshot.checkpoints), attemptRefs);
    var r4 := NoteReadbacks(r3, InOrder(ReadbackKey, snapshot.readbacks), attemptRefs);
    NoteArtifacts(r4, InOrder(ArtifactKey, snapshot.artifacts), messageRefs)
  }

  /** The whole stream of a client that connects first and then sees `snapshots`. */
  function Stream(snapshots: seq<Snapshot>, options: Options): Report {
    if snapshots == [] then NOTHING
    else Note(Stream(snapshots[..|snapshots| - 1], options), snapshots[|snapshots| - 1], options)
  }

  // What a client makes of the events

  datatype MessageView = MessageView(state: string, attemptRef: Ref)

  datatype View = View(
    messages: map<Ref, MessageView>,
    attempts: map<Ref, string>,
    checkpoints: set<Ref>,
    readbacks: set<Ref>,
    artifacts: set<Ref>)

  /** A client keeps the last it heard of each message and attempt. */
  function Hear(v: View, e: Event): View {
    match e.kind
    case NewMessage | MessageUpdate => v.(messages := v.messages[e.ref := MessageView(e.state, e.attemptRef)])
    case NewAttempt | AttemptUpdate => v.(attempts := v.attempts[e.ref := e.state])
    case NewCheckpoint => v.(checkpoints := v.checkpoints + {e.ref})
    case NewReadback => v.(readbacks := v.readbacks + {e.ref})
    case NewArtifact => v.(artifacts := v.artifacts + {e.ref})
  }

  function Replay(events: seq<Event>): View {
    if events == [] then View(map[], map[], {}, {}, {})
    else Hear(Replay(events[..|events| - 1]), events[|events| - 1])
  }

  /** An event a client can place: what is new was not known, what is updated and what it hangs on was. */
  predicate Placed(v: View, e: Event) {
    match e.kind
    case NewMessage => e.ref !in v.messages
    case MessageUpdate => e.ref in v.messages
    case NewAttempt => e.ref !in v.attempts && e.messageRef in v.messages
    case AttemptUpdate => e.ref in v.attempts && e.messageRef in v.messages
    case NewCheckpoint => e.ref !in v.checkpoints && e.attemptRef in v.attempts
    case NewReadback => e.ref !in v.readbacks && e.attemptRef in v.attempts
    case NewArtifact => e.ref !in v.artifacts && e.messageRef in v.messages
  }

  predicate Orderly(events: seq<Event>) {
    events == [] || (Orderly(events[..|events| - 1]) && Placed(Replay(events[..|events| - 1]), events[|events| - 1]))
  }

  function ViewOf(seen: Seen): View {
    View(
      map k | k in seen.messages :: MessageView(seen.messages[k].state, seen.messages[k].attemptRef),
      map k | k in seen.attempts :: seen.attempts[k].state,
      seen.checkpoints.Keys,
      seen.readbacks.Keys,
      seen.artifacts.Keys)
  }

  /** The events are orderly and tell a client just what the stream believes to have shown. */
  predicate Faithful(r: Report) {
    Orderly(r.events) && Replay(r.events) == ViewOf(r.seen)
  }

  lemma Sent(r: Report, seen: Seen, e: Event)
    requires Faithful(r) && Placed(ViewOf(r.seen), e) && Hear(ViewOf(r.seen), e) == ViewOf(seen)
    ensures Faithful(Report(seen, r.events + [e]))
  {
    assert (r.events + [e])[..|r.events|] == r.events;
  }

  lemma {:induction false} MessagesFaithful(r: Report, messages: seq<Message>, options: Options)
    requires Faithful(r)
    ensures var s := NoteMessages(r, messages, options); Faithful(s) && s.seen.attempts == r.seen.attempts
    ensures NoteMessages(r, messages, options).seen.messages.Keys == r.seen.messages.Keys + MessageRefs(messages, options)
  {
    hide Faithful, ViewOf;
    if messages == [] {
      assert MessageRefs(messages, options) == {};
    } else {
      hide MessageRefs, NoteMessage, Matches;
      var init, m := messages[..|messages| - 1], messages[|messages| - 1];
      MessagesFaithful(r, init, options);
      MessageRefsSnoc(init, m, options);
      assert messages == init + [m];
      MessageFaithful(NoteMessages(r, init, options), m, options);
    }
  }

  lemma MessageRefsSnoc(messages: seq<Message>, m: Message, options: Options)
    ensures MessageRefs(messages + [m], options) ==
            MessageRefs(messages, options) + if Matches(m, options) then {m.messageRef} else {}
  {
    var longer := messages + [m];
    forall k ensures k in MessageRefs(longer, options) <==>
                     k in MessageRefs(messages, options) || (Matches(m, options) && k == m.messageRef) {
      if k in MessageRefs(messages, options) {
        var i :| 0 <= i < |messages| && Matches(messages[i], options) && messages[i].messageRef == k;
        assert longer[i] == messages[i];
      }
      if Matches(m, options) && k == m.messageRef { assert longer[|messages|] == m; }
      if k in MessageRefs(longer, options) {
        var i :| 0 <= i < |longer| && Matches(longer[i], options) && longer[i].messageRef == k;
        if i < |messages| { assert messages[i] == longer[i]; }
      }
    }
  }

  lemma MessageFaithful(r: Report, m: Message, options: Options)
    requires Faithful(r)
    ensures var s := NoteMessage(r, m, options);
            && Faithful(s) && s.seen.attempts == r.seen.attempts
            && s.seen.messages.Keys == r.seen.messages.Keys + if Matches(m, options) then {m.messageRef} else {}
  {
    hide Orderly, Replay, MessageRefs;
    if Matches(m, options) {
      var seen := r.seen.(messages := r.seen.messages[m.messageRef := m]);
      if m.messageRef !in r.seen.messages {
        Sent(r, seen, MessageEvent(NewMessage, m));
      } else if !SameMessage(r.seen.messages[m.messageRef], m) {
        Sent(r, seen, MessageEvent(MessageUpdate, m));
      } else {
        assert ViewOf(seen) == ViewOf(r.seen);
      }
    }
  }

  lemma {:induction false} AttemptsFaithful(r: Report, attempts: seq<Attempt>, messageRefs: set<Ref>)
    requires Faithful(r) && messageRefs <= r.seen.messages.Keys
    ensures var s := NoteAttempts(r, attempts, messageRefs); Faithful(s) && s.seen.messages == r.seen.messages
    ensures NoteAttempts(r, attempts, messageRefs).seen.attempts.Keys == r.seen.attempts.Keys + AttemptRefs(attempts, messageRefs)
  {
    hide Faithful, ViewOf;
    if attempts == [] {
      assert AttemptRefs(attempts, messageRefs) == {};
    } else {
      hide AttemptRefs, NoteAttempt;
      var init, a := attempts[..|attempts| - 1], attempts[|attempts| - 1];
      AttemptsFaithful(r, init, messageRefs);
      AttemptRefsSnoc(init, a, messageRefs);
      assert attempts == init + [a];
      AttemptFaithful(NoteAttempts(r, init, messageRefs), a, messageRefs);
    }
  }

  lemma AttemptRefsSnoc(attempts: seq<Attempt>, a: Attempt, messageRefs: set<Ref>)
    ensures AttemptRefs(attempts + [a], messageRefs) ==
            AttemptRefs(attempts, messageRefs) + if a.messageRef in messageRefs then {a.attemptRef} else {}
  {
    var longer := attempts + [a];
    forall k ensures k in AttemptRefs(longer, messageRefs) <==>
                     k in AttemptRefs(attempts, messageRefs) || (a.messageRef in messageRefs && k == a.attemptRef) {
      if k in AttemptRefs(attempts, messageRefs) {
        var i :| 0 <= i < |attempts| && attempts[i].messageRef in messageRefs && attempts[i].attemptRef == k;
        assert longer[i] == attempts[i];
      }
      if a.messageRef in messageRefs && k == a.attemptRef { assert longer[|attempts|] == a; }
      if k in AttemptRefs(longer, messageRefs) {
        var i :| 0 <= i < |longer| && longer[i].messageRef in messageRefs && longer[i].attemptRef == k;
        if i < |attempts| { assert attempts[i] == longer[i]; }
      }
    }
  }

  lemma AttemptFaithful(r: Report, a: Attempt, messageRefs: set<Ref>)
    requires Faithful(r) && messageRefs <= r.seen.messages.Keys
    ensures var s := NoteAttempt(r, a, messageRefs);
            && Faithful(s) && s.seen.messages == r.seen.messages
            && s.seen.attempts.Keys == r.seen.attempts.Keys + if a.messageRef in messageRefs then {a.attemptRef} else {}
  {
    hide Orderly, Replay, AttemptRefs;
    if a.messageRef in messageRefs {
      var seen := r.seen.(attempts := r.seen.attempts[a.attemptRef := a]);
      if a.attemptRef !in r.seen.attempts {
        Sent(r, seen, AttemptEvent(NewAttempt, a));
      } else if !SameAttempt(r.seen.attempts[a.attemptRef], a) {
        Sent(r, seen, AttemptEvent(AttemptUpdate, a));
      } else {
        assert ViewOf(seen) == ViewOf(r.seen);
      }
    }
  }

  lemma {:induction false} CheckpointsFaithful(r: Report, checkpoints: seq<Checkpoint>, attemptRefs: set<Ref>)
    requires Faithful(r) && attemptRefs <= r.seen.attempts.Keys
    ensures var s := NoteCheckpoints(r, checkpoints, attemptRefs);
            && Faithful(s) && s.seen == r.seen.(checkpoints := s.seen.checkpoints)
            && r.seen.checkpoints.Keys <= s.seen.checkpoints.Keys
            && forall c :: c in checkpoints && c.attemptRef in attemptRefs ==> c.checkpointRef in s.seen.checkpoints
  {
    if checkpoints != [] {
      var init, c := checkpoints[..|checkpoints| - 1], checkpoints[|checkpoints| - 1];
      CheckpointsFaithful(r, init, attemptRefs);
      assert checkpoints == init + [c];
      var t := NoteCheckpoints(r, init, attemptRefs);
      hide Orderly, Replay;
      if c.attemptRef in attemptRefs && c.checkpointRef !in t.seen.checkpoints {
        Sent(t, t.seen.(checkpoints := t.seen.checkpoints[c.checkpointRef := c]), CheckpointEvent(c));
      }
    }
  }

  lemma {:induction false} ReadbacksFaithful(r: Report, readbacks: seq<Readback>, attemptRefs: set<Ref>)
    requires Faithful(r) && attemptRefs <= r.seen.attempts.Keys
    ensures var s := NoteReadbacks(r, readbacks, attemptRefs);
            && Faithful(s) && s.seen == r.seen.(readbacks := s.seen.readbacks)
            && r.seen.readbacks.Keys <= s.seen.readbacks.Keys
            && forall b :: b in readbacks && b.attemptRef in attemptRefs ==> b.readbackRef in s.seen.readbacks
  {
    if readbacks != [] {
      var init, b := readbacks[..|readbacks| - 1], readbacks[|readbacks| - 1];
      ReadbacksFaithful(r, init, attemptRefs);
      assert readbacks == init + [b];
      var t := NoteReadbacks(r, init, attemptRefs);
      hide Orderly, Replay;
      if b.attemptRef in attemptRefs && b.readbackRef !in t.seen.readbacks {
        Sent(t, t.seen.(readbacks := t.seen.readbacks[b.readbackRef := b]), ReadbackEvent(b));
      }
    }
  }

  lemma {:induction false} ArtifactsFaithful(r: Report, artifacts: seq<Artifact>, messageRefs: set<Ref>)
    requires Faithful(r) && messageRefs <= r.seen.messages.Keys
    ensures var s := NoteArtifacts(r, artifacts, messageRefs);
            && Faithful(s) && s.seen == r.seen.(artifacts := s.seen.artifacts)
            && r.seen.artifacts.Keys <= s.seen.artifacts.Keys
            && forall a :: a in artifacts && a.messageRef in messageRefs ==> a.versionRef in s.seen.artifacts
  {
    if artifacts != [] {
      var init, a := artifacts[..|artifacts| - 1], artifacts[|artifacts| - 1];
      ArtifactsFaithful(r, init, messageRefs);
      assert artifacts == init + [a];
      var t := NoteArtifacts(r, init, messageRefs);
      hide Orderly, Replay;
      if a.messageRef in messageRefs && a.versionRef !in t.seen.artifacts {
        Sent(t, t.seen.(artifacts := t.seen.artifacts[a.versionRef := a]), ArtifactEvent(a));
      }
    }
  }

  lemma SortedMessageRefs(messages: seq<Message>, options: Options)
    ensures MessageRefs(InOrder(MessageKey, messages), options) == MessageRefs(messages, options)
  {
    hide InOrder;
    var sorted := InOrder(MessageKey, messages);
    forall i | 0 <= i < |sorted| ensures sorted[i] in messages { InOrderMembers(MessageKey, messages, sorted[i]); }
    forall i | 0 <= i < |messages| ensures messages[i] in sorted { InOrderMembers(MessageKey, messages, messages[i]); }
  }

  lemma SortedAttemptRefs(attempts: seq<Attempt>, messageRefs: set<Ref>)
    ensures AttemptRefs(InOrder(AttemptKey, attempts), messageRefs) == AttemptRefs(attempts, messageRefs)
  {
    hide InOrder;
    var sorted := InOrder(AttemptKey, attempts);
    forall i | 0 <= i < |sorted| ensures sorted[i] in attempts { InOrderMembers(AttemptKey, attempts, sorted[i]); }
    forall i | 0 <= i < |attempts| ensures attempts[i] in sorted { InOrderMembers(AttemptKey, attempts, attempts[i]); }
  }

  /** Everything of a snapshot that the options let through has been shown. */
  ghost predicate Shown(seen: Seen, snapshot: Snapshot, options: Options) {
    var messageRefs := MessageRefs(snapshot.messages, options);
    var attemptRefs := AttemptRefs(snapshot.attempts, messageRefs);
    && messageRefs <= seen.messages.Keys
    && attemptRefs <= seen.attempts.Keys
    && (forall c :: c in snapshot.checkpoints && c.attemptRef in attemptRefs ==> c.checkpointRef in seen.checkpoints)
    && (forall b :: b in snapshot.readbacks && b.attemptRef in attemptRefs ==> b.readbackRef in seen.readbacks)
    && (forall a :: a in snapshot.artifacts && a.messageRef in messageRefs ==> a.versionRef in seen.artifacts)
  }

  /** One more snapshot: still faithful, and all that the options let through has been shown. */
  lemma NoteKeepsFaith(r: Report, snapshot: Snapshot, options: Options)
    requires Faithful(r)
    ensures Faithful(Note(r, snapshot, options)) && Shown(Note(r, snapshot, options).seen, snapshot, options)
  {
    hide Faithful, MessageRefs, AttemptRefs, InOrder, NoteMessages, NoteAttempts, NoteCheckpoints, NoteReadbacks,
      NoteArtifacts;
    var messageRefs := MessageRefs(snapshot.messages, options);
    var attemptRefs := AttemptRefs(snapshot.attempts, messageRefs);
    MessagesFaithful(r, InOrder(MessageKey, snapshot.messages), options);
    SortedMessageRefs(snapshot.messages, options);
    var r1 := NoteMessages(r, InOrder(MessageKey, snapshot.messages), options);
    AttemptsFaithful(r1, InOrder(AttemptKey, snapshot.attempts), messageRefs);
    SortedAttemptRefs(snapshot.attempts, messageRefs);
    var r2 := NoteAttempts(r1, InOrder(AttemptKey, snapshot.attempts), messageRefs);
    CheckpointsFaithful(r2, InOrder(CheckpointKey, snapshot.checkpoints), attemptRefs);
    var r3 := NoteCheckpoints(r2, InOrder(CheckpointKey, snapshot.checkpoints), attemptRefs);
    ReadbacksFaithful(r3, InOrder(ReadbackKey, snapshot.readbacks), attemptRefs);
    var r4 := NoteReadbacks(r3, InOrder(ReadbackKey, snapshot.readbacks), attemptRefs);
    ArtifactsFaithful(r4, InOrder(ArtifactKey, snapshot.artifacts), messageRefs);
    forall c | c in snapshot.checkpoints ensures c in InOrder(CheckpointKey, snapshot.checkpoints) {
      InOrderMembers(CheckpointKey, snapshot.checkpoints, c);
    }
    forall b | b in snapshot.readbacks ensures b in InOrder(ReadbackKey, snapshot.readbacks) {
      InOrderMembers(ReadbackKey, snapshot.readbacks, b);
    }
    forall a | a in snapshot.artifacts ensures a in InOrder(ArtifactKey, snapshot.artifacts) {
      InOrderMembers(ArtifactKey, snapshot.artifacts, a);
    }
  }

  /** Over any snapshots, a client can place every event, and what it has heard is what the stream has shown. */
  lemma {:induction false} StreamIsFaithful(snapshots: seq<Snapshot>, options: Options)
    ensures Orderly(Stream(snapshots, options).events)
    ensures Replay(Stream(snapshots, options).events) == ViewOf(Stream(snapshots, options).seen)
  {
    hide Note;
    if snapshots == [] {
      assert Replay([]) == ViewOf(NOTHING.seen);
    } else {
      StreamIsFaithful(snapshots[..|snapshots| - 1], options);
      NoteKeepsFaith(Stream(snapshots[..|snapshots| - 1], options), snapshots[|snapshots| - 1], options);
    }
  }

  // What a client knows after a snapshot is what the snapshot says

  function CurrentMessage(snapshot: Snapshot, options: Options, k: Ref): Option<Message> {
    LastWith(MessageKey, (m: Message) => Matches(m, options), k, snapshot.messages)
  }

  function CurrentAttempt(snapshot: Snapshot, options: Options, k: Ref): Option<Attempt> {
    LastWith(AttemptKey, (a: Attempt) => a.messageRef in MessageRefs(snapshot.messages, options), k, snapshot.attempts)
  }

  lemma MessageKept(r: Report, m: Message, options: Options, k: Ref)
    ensures var s := NoteMessage(r, m, options);
            && s.seen == r.seen.(messages := s.seen.messages)
            && (if Matches(m, options) && m.messageRef == k then k in s.seen.messages && s.seen.messages[k] == m
                else (k in s.seen.messages <==> k in r.seen.messages)
                     && (k in r.seen.messages ==> s.seen.messages[k] == r.seen.messages[k]))
  {
  }

  lemma {:induction false} MessagesKept(r: Report, messages: seq<Message>, options: Options, k: Ref)
    ensures var s := NoteMessages(r, messages, options);
            var last := LastWith(MessageKey, (m: Message) => Matches(m, options), k, messages);
            && s.seen == r.seen.(messages := s.seen.messages)
            && (last.Some? ==> k in s.seen.messages && s.seen.messages[k] == last.value)
            && (last.None? ==> (k in s.seen.messages <==> k in r.seen.messages)
                                  && (k in r.seen.messages ==> s.seen.messages[k] == r.seen.messages[k]))
  {
    hide NoteMessage, Matches;
    if messages != [] {
      var init, last := messages[..|messages| - 1], messages[|messages| - 1];
      MessagesKept(r, init, options, k);
      MessageKept(NoteMessages(r, init, options), last, options, k);
    }
  }

  lemma AttemptKept(r: Report, a: Attempt, messageRefs: set<Ref>, k: Ref)
    ensures var s := NoteAttempt(r, a, messageRefs);
            && s.seen == r.seen.(attempts := s.seen.attempts)
            && (if a.messageRef in messageRefs && a.attemptRef == k then k in s.seen.attempts && s.seen.attempts[k] == a
                else (k in s.seen.attempts <==> k in r.seen.attempts)
                     && (k in r.seen.attempts ==> s.seen.attempts[k] == r.seen.attempts[k]))
  {
  }

  lemma {:induction false} AttemptsKept(r: Report, attempts: seq<Attempt>, messageRefs: set<Ref>, k: Ref)
    ensures var s := NoteAttempts(r, attempts, messageRefs);
            var last := LastWith(AttemptKey, (a: Attempt) => a.messageRef in messageRefs, k, attempts);
            && s.seen == r.seen.(attempts := s.seen.attempts)
            && (last.Some? ==> k in s.seen.attempts && s.seen.attempts[k] == last.value)
            && (last.None? ==> (k in s.seen.attempts <==> k in r.seen.attempts)
                                  && (k in r.seen.attempts ==> s.seen.attempts[k] == r.seen.attempts[k]))
  {
    hide NoteAttempt;
    if attempts != [] {
      var init, last := attempts[..|attempts| - 1], attempts[|attempts| - 1];
      AttemptsKept(r, init, messageRefs, k);
      AttemptKept(NoteAttempts(r, init, messageRefs), last, messageRefs, k);
    }
  }

  lemma {:induction false} CheckpointsTouchNothingElse(r: Report, checkpoints: seq<Checkpoint>, attemptRefs: set<Ref>)
    ensures var s := NoteCheckpoints(r, checkpoints, attemptRefs); s.seen == r.seen.(checkpoints := s.seen.checkpoints)
  {
    if checkpoints != [] { CheckpointsTouchNothingElse(r, checkpoints[..|checkpoints| - 1], attemptRefs); }
  }

  lemma {:induction false} ReadbacksTouchNothingElse(r: Report, readbacks: seq<Readback>, attemptRefs: set<Ref>)
    ensures var s := NoteReadbacks(r, readbacks, attemptRefs); s.seen == r.seen.(readbacks := s.seen.readbacks)
  {
    if readbacks != [] { ReadbacksTouchNothingElse(r, readbacks[..|readbacks| - 1], attemptRefs); }
  }

  lemma {:induction false} ArtifactsTouchNothingElse(r: Report, artifacts: seq<Artifact>, messageRefs: set<Ref>)
    ensures var s := NoteArtifacts(r, artifacts, messageRefs); s.seen == r.seen.(artifacts := s.seen.artifacts)
  {
    if artifacts != [] { ArtifactsTouchNothingElse(r, artifacts[..|artifacts| - 1], messageRefs); }
  }

  /** After a snapshot the stream remembers the snapshot's own records. */
  lemma NoteRemembers(r: Report, snapshot: Snapshot, options: Options, k: Ref)
    ensures var seen := Note(r, snapshot, options).seen;
            && (CurrentMessage(snapshot, options, k).Some? ==>
                  k in seen.messages && seen.messages[k] == CurrentMessage(snapshot, options, k).value)
            && (CurrentAttempt(snapshot, options, k).Some? ==>
                  k in seen.attempts && seen.attempts[k] == CurrentAttempt(snapshot, options, k).value)
  {
    hide LastWith, MessageRefs, AttemptRefs, InOrder, NoteMessages, NoteAttempts, NoteCheckpoints, NoteReadbacks,
      NoteArtifacts;
    var messageRefs := MessageRefs(snapshot.messages, options);
    var attemptRefs := AttemptRefs(snapshot.attempts, messageRefs);
    MessagesKept(r, InOrder(MessageKey, snapshot.messages), options, k);
    LastInOrder(MessageKey, (m: Message) => Matches(m, options), k, snapshot.messages);
    var r1 := NoteMessages(r, InOrder(MessageKey, snapshot.messages), options);
    AttemptsKept(r1, InOrder(AttemptKey, snapshot.attempts), messageRefs, k);
    LastInOrder(AttemptKey, (a: Attempt) => a.messageRef in messageRefs, k, snapshot.attempts);
    var r2 := NoteAttempts(r1, InOrder(AttemptKey, snapshot.attempts), messageRefs);
    CheckpointsTouchNothingElse(r2, InOrder(CheckpointKey, snapshot.checkpoints), attemptRefs);
    var r3 := NoteCheckpoints(r2, InOrder(CheckpointKey, snapshot.checkpoints), attemptRefs);
    ReadbacksTouchNothingElse(r3, InOrder(ReadbackKey, snapshot.readbacks), attemptRefs);
    var r4 := NoteReadbacks(r3, InOrder(ReadbackKey, snapshot.readbacks), attemptRefs);
    ArtifactsTouchNothingElse(r4, InOrder(ArtifactKey, snapshot.artifacts), messageRefs);
  }

  /**
   * A client that replays the events knows the state of every message and attempt of the last snapshot, and all that
   * hangs on them.
   */
  lemma ClientIsCurrent(snapshots: seq<Snapshot>, snapshot: Snapshot, options: Options, k: Ref)
    ensures var view := Replay(Stream(snapshots + [snapshot], options).events);
            && (CurrentMessage(snapshot, options, k).Some? ==>
                  var m := CurrentMessage(snapshot, options, k).value;
                  k in view.messages && view.messages[k] == MessageView(m.state, m.attemptRef))
            && (CurrentAttempt(snapshot, options, k).Some? ==>
                  k in view.attempts && view.attempts[k] == CurrentAttempt(snapshot, options, k).value.state)
    ensures Shown(Stream(snapshots + [snapshot], options).seen, snapshot, options)
  {
    hide Note, Shown, CurrentMessage, CurrentAttempt, Orderly, Replay;
    assert (snapshots + [snapshot])[..|snapshots|] == snapshots;
    StreamIsFaithful(snapshots, options);
    StreamIsFaithful(snapshots + [snapshot], options);
    NoteKeepsFaith(Stream(snapshots, options), snapshot, options);
    NoteRemembers(Stream(snapshots, options), snapshot, options, k);
  }

  // What a client can read off the order

  predicate AboutMessage(e: Event, k: Ref) {
    (e.kind == NewMessage || e.kind == MessageUpdate) && e.ref == k
  }

  predicate AboutAttempt(e: Event, k: Ref) {
    (e.kind == NewAttempt || e.kind == AttemptUpdate) && e.ref == k
  }

  /** What is known of a message is its last event, and its first is the announcement. */
  lemma {:induction false} LastMessageEvent(events: seq<Event>, k: Ref)
    requires k in Replay(events).messages
    ensures exists i :: 0 <= i < |events| && AboutMessage(events[i], k)
                        && Replay(events).messages[k] == MessageView(events[i].state, events[i].attemptRef)
                        && forall j :: i < j < |events| ==> !AboutMessage(events[j], k)
    ensures Orderly(events) ==> exists i :: 0 <= i < |events| && events[i].kind == NewMessage && events[i].ref == k
  {
    var n := |events| - 1;
    var init := events[..n];
    if k in Replay(init).messages {
      LastMessageEvent(init, k);
      if Orderly(events) {
        var i :| 0 <= i < n && init[i].kind == NewMessage && init[i].ref == k;
        assert events[i] == init[i];
      }
    }
    if AboutMessage(events[n], k) {
      assert events[n].kind == NewMessage || k in Replay(init).messages || !Orderly(events);
    } else {
      var i :| 0 <= i < n && AboutMessage(init[i], k)
               && Replay(init).messages[k] == MessageView(init[i].state, init[i].attemptRef)
               && forall j :: i < j < n ==> !AboutMessage(init[j], k);
      assert events[i] == init[i];
      forall j | i < j <= n ensures !AboutMessage(events[j], k) { assert j < n ==> events[j] == init[j]; }
    }
  }

  lemma {:induction false} LastAttemptEvent(events: seq<Event>, k: Ref)
    requires k in Replay(events).attempts
    ensures exists i :: 0 <= i < |events| && AboutAttempt(events[i], k) && Replay(events).attempts[k] == events[i].state
                        && forall j :: i < j < |events| ==> !AboutAttempt(events[j], k)
    ensures Orderly(events) ==> exists i :: 0 <= i < |events| && events[i].kind == NewAttempt && events[i].ref == k
  {
    var n := |events| - 1;
    var init := events[..n];
    if k in Replay(init).attempts {
      LastAttemptEvent(init, k);
      if Orderly(events) {
        var i :| 0 <= i < n && init[i].kind == NewAttempt && init[i].ref == k;
        assert events[i] == init[i];
      }
    }
    if AboutAttempt(events[n], k) {
      assert events[n].kind == NewAttempt || k in Replay(init).attempts || !Orderly(events);
    } else {
      var i :| 0 <= i < n && AboutAttempt(init[i], k) && Replay(init).attempts[k] == init[i].state
               && forall j :: i < j < n ==> !AboutAttempt(init[j], k);
      assert events[i] == init[i];
      forall j | i < j <= n ensures !AboutAttempt(events[j], k) { assert j < n ==> events[j] == init[j]; }
    }
  }

  lemma {:induction false} PrefixOrderly(events: seq<Event>, n: nat)
    requires Orderly(events) && n <= |events|
    ensures Orderly(events[..n]) && (n < |events| ==> Placed(Replay(events[..n]), events[n]))
    decreases |events|
  {
    if n < |events| - 1 {
      PrefixOrderly(events[..|events| - 1], n);
      assert events[..|events| - 1][..n] == events[..n];
    } else if n == |events| {
      assert events[..n] == events;
    }
  }

  predicate Announces(e: Event) {
    e.kind != MessageUpdate && e.kind != AttemptUpdate
  }

  predicate Knows(v: View, kind: Kind, k: Ref) {
    match kind
    case NewMessage | MessageUpdate => k in v.messages
    case NewAttempt | AttemptUpdate => k in v.attempts
    case NewCheckpoint => k in v.checkpoints
    case NewReadback => k in v.readbacks
    case NewArtifact => k in v.artifacts
  }

  lemma {:induction false} HeardIsKnown(events: seq<Event>, i: nat)
    requires i < |events|
    ensures Knows(Replay(events), events[i].kind, events[i].ref)
  {
    if i < |events| - 1 { HeardIsKnown(events[..|events| - 1], i); }
  }

  /** Each message, attempt, checkpoint, readback and artifact is announced at most once. */
  lemma AnnouncedOnce(snapshots: seq<Snapshot>, options: Options, i: nat, j: nat)
    requires i < j < |Stream(snapshots, options).events|
    requires var events := Stream(snapshots, options).events; Announces(events[i]) && events[i].kind == events[j].kind
    ensures Stream(snapshots, options).events[i].ref != Stream(snapshots, options).events[j].ref
  {
    hide Stream, Orderly, Replay;
    var events := Stream(snapshots, options).events;
    StreamIsFaithful(snapshots, options);
    PrefixOrderly(events, j);
    HeardIsKnown(events[..j], i);
  }

  /** An event about an attempt or an artifact comes after its message's announcement, one about a checkpoint or readback
      after its attempt's, and an update after the announcement of what it updates. */
  lemma ParentFirst(snapshots: seq<Snapshot>, options: Options, j: nat)
    requires j < |Stream(snapshots, options).events|
    ensures var events := Stream(snapshots, options).events;
            && (events[j].kind in {NewAttempt, AttemptUpdate, NewArtifact} ==>
                  exists i :: 0 <= i < j && events[i].kind == NewMessage && events[i].ref == events[j].messageRef)
            && (events[j].kind in {NewCheckpoint, NewReadback} ==>
                  exists i :: 0 <= i < j && events[i].kind == NewAttempt && events[i].ref == events[j].attemptRef)
            && (events[j].kind == MessageUpdate ==>
                  exists i :: 0 <= i < j && events[i].kind == NewMessage && events[i].ref == events[j].ref)
            && (events[j].kind == AttemptUpdate ==>
                  exists i :: 0 <= i < j && events[i].kind == NewAttempt && events[i].ref == events[j].ref)
  {
    hide Stream, Orderly, Replay;
    var events := Stream(snapshots, options).events;
    var e, known := events[j], events[..j];
    StreamIsFaithful(snapshots, options);
    PrefixOrderly(events, j);
    if e.kind in {NewAttempt, AttemptUpdate, NewArtifact} {
      LastMessageEvent(known, e.messageRef);
      var i :| 0 <= i < j && known[i].kind == NewMessage && known[i].ref == e.messageRef;
      assert events[i] == known[i];
    }
    if e.kind in {NewCheckpoint, NewReadback} {
      LastAttemptEvent(known, e.attemptRef);
      var i :| 0 <= i < j && known[i].kind == NewAttempt && known[i].ref == e.attemptRef;
      assert events[i] == known[i];
    }
    if e.kind == MessageUpdate {
      LastMessageEvent(known, e.ref);
      var i :| 0 <= i < j && known[i].kind == NewMessage && known[i].ref == e.ref;
      assert events[i] == known[i];
    }
    if e.kind == AttemptUpdate {
      LastAttemptEvent(known, e.ref);
      var i :| 0 <= i < j && known[i].kind == NewAttempt && known[i].ref == e.ref;
      assert events[i] == known[i];
    }
  }

  // A snapshot shown a second time

  predicate QuietMessage(seen: Seen, m: Message, options: Options) {
    Matches(m, options) ==> m.messageRef in seen.messages && SameMessage(seen.messages[m.messageRef], m)
  }

  predicate QuietAttempt(seen: Seen, a: Attempt, messageRefs: set<Ref>) {
    a.messageRef in messageRefs ==> a.attemptRef in seen.attempts && SameAttempt(seen.attempts[a.attemptRef], a)
  }

  lemma {:induction false} MessagesAreSilent(r: Report, messages: seq<Message>, options: Options)
    ensures var s := NoteMessages(r, messages, options);
            && r.events <= s.events
            && (s.events == r.events <==> forall m :: m in messages ==> QuietMessage(r.seen, m, options))
            && (s.events == r.events ==>
                  && s.seen.messages.Keys == r.seen.messages.Keys
                  && forall k :: k in r.seen.messages ==> SameMessage(s.seen.messages[k], r.seen.messages[k]))
  {
    if messages != [] {
      var init, last := messages[..|messages| - 1], messages[|messages| - 1];
      MessagesAreSilent(r, init, options);
      assert messages == init + [last];
      var t := NoteMessages(r, init, options);
      assert NoteMessage(t, last, options).events == t.events <==> QuietMessage(t.seen, last, options);
      assert t.events == r.events ==> (QuietMessage(t.seen, last, options) <==> QuietMessage(r.seen, last, options));
      assert |t.events| > |r.events| ==> NoteMessage(t, last, options).events != r.events;
      assert (forall m :: m in messages ==> QuietMessage(r.seen, m, options)) <==>
             (forall m :: m in init ==> QuietMessage(r.seen, m, options)) && QuietMessage(r.seen, last, options);
    }
  }

  lemma {:induction false} AttemptsAreSilent(r: Report, attempts: seq<Attempt>, messageRefs: set<Ref>)
    ensures var s := NoteAttempts(r, attempts, messageRefs);
            && r.events <= s.events
            && (s.events == r.events <==> forall a :: a in attempts ==> QuietAttempt(r.seen, a, messageRefs))
            && (s.events == r.events ==>
                  && s.seen.attempts.Keys == r.seen.attempts.Keys
                  && forall k :: k in r.seen.attempts ==> SameAttempt(s.seen.attempts[k], r.seen.attempts[k]))
  {
    if attempts != [] {
      var init, last := attempts[..|attempts| - 1], attempts[|attempts| - 1];
      AttemptsAreSilent(r, init, messageRefs);
      assert attempts == init + [last];
      var t := NoteAttempts(r, init, messageRefs);
      assert NoteAttempt(t, last, messageRefs).events == t.events <==> QuietAttempt(t.seen, last, messageRefs);
      assert t.events == r.events ==> (QuietAttempt(t.seen, last, messageRefs) <==> QuietAttempt(r.seen, last, messageRefs));
      assert |t.events| > |r.events| ==> NoteAttempt(t, last, messageRefs).events != r.events;
      assert (forall a :: a in attempts ==> QuietAttempt(r.seen, a, messageRefs)) <==>
             (forall a :: a in init ==> QuietAttempt(r.seen, a, messageRefs)) && QuietAttempt(r.seen, last, messageRefs);
    }
  }

  lemma {:induction false} CheckpointsAreSilent(r: Report, checkpoints: seq<Checkpoint>, attemptRefs: set<Ref>)
    ensures r.events <= NoteCheckpoints(r, checkpoints, attemptRefs).events
    ensures (forall c :: c in checkpoints && c.attemptRef in attemptRefs ==> c.checkpointRef in r.seen.checkpoints) ==>
              NoteCheckpoints(r, checkpoints, attemptRefs) == r
  {
    if checkpoints != [] {
      CheckpointsAreSilent(r, checkpoints[..|checkpoints| - 1], attemptRefs);
      assert checkpoints == checkpoints[..|checkpoints| - 1] + [checkpoints[|checkpoints| - 1]];
    }
  }

  lemma {:induction false} ReadbacksAreSilent(r: Report, readbacks: seq<Readback>, attemptRefs: set<Ref>)
    ensures r.events <= NoteReadbacks(r, readbacks, attemptRefs).events
    ensures (forall b :: b in readbacks && b.attemptRef in attemptRefs ==> b.readbackRef in r.seen.readbacks) ==>
              NoteReadbacks(r, readbacks, attemptRefs) == r
  {
    if readbacks != [] {
      ReadbacksAreSilent(r, readbacks[..|readbacks| - 1], attemptRefs);
      assert readbacks == readbacks[..|readbacks| - 1] + [readbacks[|readbacks| - 1]];
    }
  }

  lemma {:induction false} ArtifactsAreSilent(r: Report, artifacts: seq<Artifact>, messageRefs: set<Ref>)
    ensures r.events <= NoteArtifacts(r, artifacts, messageRefs).events
    ensures (forall a :: a in artifacts && a.messageRef in messageRefs ==> a.versionRef in r.seen.artifacts) ==>
              NoteArtifacts(r, artifacts, messageRefs) == r
  {
    if artifacts != [] {
      ArtifactsAreSilent(r, artifacts[..|artifacts| - 1], messageRefs);
      assert artifacts == artifacts[..|artifacts| - 1] + [artifacts[|artifacts| - 1]];
    }
  }

  /** Records of a snapshot that share a ref agree on what is watched. */
  ghost predicate MessagesAgree(snapshot: Snapshot, options: Options) {
    forall m, n ::
      && m in snapshot.messages && n in snapshot.messages && Matches(m, options) && Matches(n, options)
      && m.messageRef == n.messageRef
      ==> SameMessage(m, n)
  }

  ghost predicate AttemptsAgree(snapshot: Snapshot, options: Options) {
    var messageRefs := MessageRefs(snapshot.messages, options);
    forall a, b ::
      && a in snapshot.attempts && b in snapshot.attempts && a.messageRef in messageRefs && b.messageRef in messageRefs
      && a.attemptRef == b.attemptRef
      ==> SameAttempt(a, b)
  }

  lemma AgreeingMessages(seen: Seen, snapshot: Snapshot, options: Options)
    requires forall k :: CurrentMessage(snapshot, options, k).Some? ==>
               k in seen.messages && seen.messages[k] == CurrentMessage(snapshot, options, k).value
    ensures (forall m :: m in snapshot.messages ==> QuietMessage(seen, m, options)) <==> MessagesAgree(snapshot, options)
  {
    forall m | m in snapshot.messages && Matches(m, options)
      ensures var last := CurrentMessage(snapshot, options, m.messageRef);
              last.Some? && last.value in snapshot.messages && Matches(last.value, options)
              && last.value.messageRef == m.messageRef && seen.messages[m.messageRef] == last.value
    {
      assert MessageKey(m) == m.messageRef;
      var last := CurrentMessage(snapshot, options, m.messageRef);
      if last.Some? { assert MessageKey(last.value) == m.messageRef; }
    }
    if forall m :: m in snapshot.messages ==> QuietMessage(seen, m, options) {
      forall m, n | m in snapshot.messages && n in snapshot.messages && Matches(m, options) && Matches(n, options)
                    && m.messageRef == n.messageRef
        ensures SameMessage(m, n)
      {
        assert QuietMessage(seen, m, options) && QuietMessage(seen, n, options);
      }
    }
  }

  lemma AgreeingAttempts(seen: Seen, snapshot: Snapshot, options: Options)
    requires forall k :: CurrentAttempt(snapshot, options, k).Some? ==>
               k in seen.attempts && seen.attempts[k] == CurrentAttempt(snapshot, options, k).value
    ensures (forall a :: a in snapshot.attempts ==> QuietAttempt(seen, a, MessageRefs(snapshot.messages, options)))
            <==> AttemptsAgree(snapshot, options)
  {
    hide MessageRefs;
    var messageRefs := MessageRefs(snapshot.messages, options);
    forall a | a in snapshot.attempts && a.messageRef in messageRefs
      ensures var last := CurrentAttempt(snapshot, options, a.attemptRef);
              last.Some? && last.value in snapshot.attempts && last.value.messageRef in messageRefs
              && last.value.attemptRef == a.attemptRef && seen.attempts[a.attemptRef] == last.value
    {
      assert AttemptKey(a) == a.attemptRef;
      var last := CurrentAttempt(snapshot, options, a.attemptRef);
      if last.Some? { assert AttemptKey(last.value) == a.attemptRef; }
    }
    if forall a :: a in snapshot.attempts ==> QuietAttempt(seen, a, messageRefs) {
      forall a, b | a in snapshot.attempts && b in snapshot.attempts && a.messageRef in messageRefs
         && b.messageRef in messageRefs
                    && a.attemptRef == b.attemptRef
        ensures SameAttempt(a, b)
      {
        assert QuietAttempt(seen, a, messageRefs) && QuietAttempt(seen, b, messageRefs);
      }
    }
  }

  lemma SilentPasses(r: Report, snapshot: Snapshot, options: Options)
    requires Shown(r.seen, snapshot, options)
    ensures Note(r, snapshot, options).events == r.events <==>
            && (forall m :: m in snapshot.messages ==> QuietMessage(r.seen, m, options))
            && (forall a :: a in snapshot.attempts ==> QuietAttempt(r.seen, a, MessageRefs(snapshot.messages, options)))
  {
    hide LastWith, MessageRefs, AttemptRefs, InOrder, NoteMessages, NoteAttempts, NoteCheckpoints, NoteReadbacks,
      NoteArtifacts, QuietMessage;
    var messageRefs := MessageRefs(snapshot.messages, options);
    var attemptRefs := AttemptRefs(snapshot.attempts, messageRefs);
    forall m ensures m in InOrder(MessageKey, snapshot.messages) <==> m in snapshot.messages {
      InOrderMembers(MessageKey, snapshot.messages, m);
    }
    forall a ensures a in InOrder(AttemptKey, snapshot.attempts) <==> a in snapshot.attempts {
      InOrderMembers(AttemptKey, snapshot.attempts, a);
    }
    forall c ensures c in InOrder(CheckpointKey, snapshot.checkpoints) <==> c in snapshot.checkpoints {
      InOrderMembers(CheckpointKey, snapshot.checkpoints, c);
    }
    forall b ensures b in InOrder(ReadbackKey, snapshot.readbacks) <==> b in snapshot.readbacks {
      InOrderMembers(ReadbackKey, snapshot.readbacks, b);
    }
    forall a ensures a in InOrder(ArtifactKey, snapshot.artifacts) <==> a in snapshot.artifacts {
      InOrderMembers(ArtifactKey, snapshot.artifacts, a);
    }
    MessagesAreSilent(r, InOrder(MessageKey, snapshot.messages), options);
    MessagesKept(r, InOrder(MessageKey, snapshot.messages), options, "");
    var r1 := NoteMessages(r, InOrder(MessageKey, snapshot.messages), options);
    AttemptsAreSilent(r1, InOrder(AttemptKey, snapshot.attempts), messageRefs);
    AttemptsKept(r1, InOrder(AttemptKey, snapshot.attempts), messageRefs, "");
    var r2 := NoteAttempts(r1, InOrder(AttemptKey, snapshot.attempts), messageRefs);
    CheckpointsAreSilent(r2, InOrder(CheckpointKey, snapshot.checkpoints), attemptRefs);
    var r3 := NoteCheckpoints(r2, InOrder(CheckpointKey, snapshot.checkpoints), attemptRefs);
    ReadbacksAreSilent(r3, InOrder(ReadbackKey, snapshot.readbacks), attemptRefs);
    var r4 := NoteReadbacks(r3, InOrder(ReadbackKey, snapshot.readbacks), attemptRefs);
    ArtifactsAreSilent(r4, InOrder(ArtifactKey, snapshot.artifacts), messageRefs);
  }

  /** The same snapshot again sends nothing, exactly when its records that share a ref agree. */
  lemma RepeatIsSilent(snapshots: seq<Snapshot>, snapshot: Snapshot, options: Options)
    ensures Stream(snapshots + [snapshot] + [snapshot], options).events == Stream(snapshots + [snapshot], options).events
            <==> MessagesAgree(snapshot, options) && AttemptsAgree(snapshot, options)
  {
    hide Note, Shown, CurrentMessage, CurrentAttempt, Orderly, Replay, MessageRefs, QuietMessage, QuietAttempt,
      MessagesAgree, AttemptsAgree;
    var once := snapshots + [snapshot];
    assert once[..|snapshots|] == snapshots && (once + [snapshot])[..|once|] == once;
    var before, r := Stream(snapshots, options), Stream(once, options);
    StreamIsFaithful(snapshots, options);
    NoteKeepsFaith(before, snapshot, options);
    forall k
      ensures CurrentMessage(snapshot, options, k).Some? ==>
                k in r.seen.messages && r.seen.messages[k] == CurrentMessage(snapshot, options, k).value
      ensures CurrentAttempt(snapshot, options, k).Some? ==>
                k in r.seen.attempts && r.seen.attempts[k] == CurrentAttempt(snapshot, options, k).value
    {
      NoteRemembers(before, snapshot, options, k);
    }
    SilentPasses(r, snapshot, options);
    AgreeingMessages(r.seen, snapshot, options);
    AgreeingAttempts(r.seen, snapshot, options);
  }

  // The stream itself

  class Sender {
    const options: Options
    var messages: map<Ref, Message>
    var attempts: map<Ref, Attempt>
    var checkpoints: map<Ref, Checkpoint>
    var readbacks: map<Ref, Readback>
    var artifacts: map<Ref, Artifact>
    ghost var shown: seq<Snapshot>
    ghost var sent: seq<Event>

    ghost function Now(): Report
      reads this
    {
      Report(Seen(messages, attempts, checkpoints, readbacks, artifacts), sent)
    }

    ghost predicate Valid()
      reads this
    {
      Now() == Stream(shown, options)
    }

    constructor (options: Options)
      ensures Valid() && this.options == options && shown == [] && sent == []
    {
      this.options := options;
      messages, attempts, checkpoints, readbacks, artifacts := map[], map[], map[], map[], map[];
      shown, sent := [], [];
    }

    method DiffMessages(snapshot: Snapshot) returns (events: seq<Event>)
      modifies this
      ensures Now() == NoteMessages(old(Now()), InOrder(MessageKey, snapshot.messages), options)
      ensures sent == old(sent) + events && shown == old(shown)
    {
      hide InOrder, Stream, Matches;
      events := [];
      ghost var before := Now();
      var ordered := InOrder(MessageKey, snapshot.messages);
      for i := 0 to |ordered|
        invariant Now() == NoteMessages(before, ordered[..i], options)
        invariant sent == old(sent) + events && shown == old(shown)
      {
        assert ordered[..i + 1][..i] == ordered[..i];
        var m := ordered[i];
        if !Matches(m, options) { continue; }
        if m.messageRef !in messages {
          events, sent := events + [MessageEvent(NewMessage, m)], sent + [MessageEvent(NewMessage, m)];
        } else if !SameMessage(messages[m.messageRef], m) {
          events, sent := events + [MessageEvent(MessageUpdate, m)], sent + [MessageEvent(MessageUpdate, m)];
        }
        messages := messages[m.messageRef := m];
      }
      assert ordered[..|ordered|] == ordered;
    }

    method CollectMessageRefs(snapshot: Snapshot) returns (refs: set<Ref>)
      ensures refs == MessageRefs(snapshot.messages, options)
    {
      refs := {};
      var ms := snapshot.messages;
      for i := 0 to |ms|
        invariant refs == MessageRefs(ms[..i], options)
      {
        MessageRefsSnoc(ms[..i], ms[i], options);
        assert ms[..i + 1] == ms[..i] + [ms[i]];
        if Matches(ms[i], options) { refs := refs + {ms[i].messageRef}; }
      }
      assert ms[..|ms|] == ms;
    }

    method DiffAttempts(snapshot: Snapshot, messageRefs: set<Ref>) returns (events: seq<Event>, attemptRefs: set<Ref>)
      modifies this
      ensures Now() == NoteAttempts(old(Now()), InOrder(AttemptKey, snapshot.attempts), messageRefs)
      ensures sent == old(sent) + events && shown == old(shown)
      ensures attemptRefs == AttemptRefs(snapshot.attempts, messageRefs)
    {
      hide AttemptRefs, InOrder, Stream;
      events, attemptRefs := [], {};
      ghost var before := Now();
      var ordered := InOrder(AttemptKey, snapshot.attempts);
      NoAttemptRefs(messageRefs);
      for i := 0 to |ordered|
        invariant Now() == NoteAttempts(before, ordered[..i], messageRefs)
        invariant sent == old(sent) + events && shown == old(shown)
        invariant attemptRefs == AttemptRefs(ordered[..i], messageRefs)
      {
        assert ordered[..i + 1][..i] == ordered[..i];
        var a := ordered[i];
        AttemptRefsSnoc(ordered[..i], a, messageRefs);
        assert ordered[..i + 1] == ordered[..i] + [a];
        if a.messageRef !in messageRefs { continue; }
        attemptRefs := attemptRefs + {a.attemptRef};
        if a.attemptRef !in attempts {
          events, sent := events + [AttemptEvent(NewAttempt, a)], sent + [AttemptEvent(NewAttempt, a)];
        } else if !SameAttempt(attempts[a.attemptRef], a) {
          events, sent := events + [AttemptEvent(AttemptUpdate, a)], sent + [AttemptEvent(AttemptUpdate, a)];
        }
        attempts := attempts[a.attemptRef := a];
      }
      assert ordered[..|ordered|] == ordered;
      SortedAttemptRefs(snapshot.attempts, messageRefs);
    }

    method DiffCheckpoints(snapshot: Snapshot, attemptRefs: set<Ref>) returns (events: seq<Event>)
      modifies this
      ensures Now() == NoteCheckpoints(old(Now()), InOrder(CheckpointKey, snapshot.checkpoints), attemptRefs)
      ensures sent == old(sent) + events && shown == old(shown)
    {
      hide InOrder, Stream, Matches;
      events := [];
      ghost var before := Now();
      var ordered := InOrder(CheckpointKey, snapshot.checkpoints);
      for i := 0 to |ordered|
        invariant Now() == NoteCheckpoints(before, ordered[..i], attemptRefs)
        invariant sent == old(sent) + events && shown == old(shown)
      {
        assert ordered[..i + 1][..i] == ordered[..i];
        var c := ordered[i];
        if c.attemptRef !in attemptRefs { continue; }
        if c.checkpointRef in checkpoints { continue; }
        checkpoints := checkpoints[c.checkpointRef := c];
        events, sent := events + [CheckpointEvent(c)], sent + [CheckpointEvent(c)];
      }
      assert ordered[..|ordered|] == ordered;
    }

    method DiffReadbacks(snapshot: Snapshot, attemptRefs: set<Ref>) returns (events: seq<Event>)
      modifies this
      ensures Now() == NoteReadbacks(old(Now()), InOrder(ReadbackKey, snapshot.readbacks), attemptRefs)
      ensures sent == old(sent) + events && shown == old(shown)
    {
      hide InOrder, Stream, Matches;
      events := [];
      ghost var before := Now();
      var ordered := InOrder(ReadbackKey, snapshot.readbacks);
      for i := 0 to |ordered|
        invariant Now() == NoteReadbacks(before, ordered[..i], attemptRefs)
        invariant sent == old(sent) + events && shown == old(shown)
      {
        assert ordered[..i + 1][..i] == ordered[..i];
        var b := ordered[i];
        if b.attemptRef !in attemptRefs { continue; }
        if b.readbackRef in readbacks { continue; }
        readbacks := readbacks[b.readbackRef := b];
        events, sent := events + [ReadbackEvent(b)], sent + [ReadbackEvent(b)];
      }
      assert ordered[..|ordered|] == ordered;
    }

    method DiffArtifacts(snapshot: Snapshot, messageRefs: set<Ref>) returns (events: seq<Event>)
      modifies this
      ensures Now() == NoteArtifacts(old(Now()), InOrder(ArtifactKey, snapshot.artifacts), messageRefs)
      ensures sent == old(sent) + events && shown == old(shown)
    {
      hide InOrder, Stream, Matches;
      events := [];
      ghost var before := Now();
      var ordered := InOrder(ArtifactKey, snapshot.artifacts);
      for i := 0 to |ordered|
        invariant Now() == NoteArtifacts(before, ordered[..i], messageRefs)
        invariant sent == old(sent) + events && shown == old(shown)
      {
        assert ordered[..i + 1][..i] == ordered[..i];
        var a := ordered[i];
        if a.messageRef !in messageRefs { continue; }
        if a.versionRef in artifacts { continue; }
        artifacts := artifacts[a.versionRef := a];
        events, sent := events + [ArtifactEvent(a)], sent + [ArtifactEvent(a)];
      }
      assert ordered[..|ordered|] == ordered;
    }

    /** What is sent for one more snapshot is exactly what the stream gains by it. */
    method Diff(snapshot: Snapshot) returns (events: seq<Event>)
      requires Valid()
      modifies this
      ensures Valid() && shown == old(shown) + [snapshot] && sent == old(sent) + events
      ensures Now() == Note(old(Now()), snapshot, options) && Faithful(Now())
    {
      hide MessageRefs, AttemptRefs, InOrder, NoteMessages, NoteAttempts, NoteCheckpoints, NoteReadbacks, NoteArtifacts,
        Note, Stream, Faithful;
      ghost var before := Now();
      var changed: seq<Event>, messageRefs: set<Ref>, attemptRefs: set<Ref>;
      events := DiffMessages(snapshot);
      messageRefs := CollectMessageRefs(snapshot);
      changed, attemptRefs := DiffAttempts(snapshot, messageRefs);
      events := events + changed;
      assert sent == old(sent) + events;
      changed := DiffCheckpoints(snapshot, attemptRefs);
      events := events + changed;
      assert sent == old(sent) + events;
      changed := DiffReadbacks(snapshot, attemptRefs);
      events := events + changed;
      assert sent == old(sent) + events;
      changed := DiffArtifacts(snapshot, messageRefs);
      events := events + changed;
      assert sent == old(sent) + events;
      shown := shown + [snapshot];
      NoteInStages(before, snapshot, options);
      StreamGrows(old(shown), snapshot, options);
    }
  }

  lemma NoteInStages(r: Report, snapshot: Snapshot, options: Options)
    ensures var messageRefs := MessageRefs(snapshot.messages, options);
            var attemptRefs := AttemptRefs(snapshot.attempts, messageRefs);
            var r1 := NoteMessages(r, InOrder(MessageKey, snapshot.messages), options);
            var r2 := NoteAttempts(r1, InOrder(AttemptKey, snapshot.attempts), messageRefs);
            var r3 := NoteCheckpoints(r2, InOrder(CheckpointKey, snapshot.checkpoints), attemptRefs);
            var r4 := NoteReadbacks(r3, InOrder(ReadbackKey, snapshot.readbacks), attemptRefs);
            NoteArtifacts(r4, InOrder(ArtifactKey, snapshot.artifacts), messageRefs) == Note(r, snapshot, options)
  {
  }

  lemma StreamGrows(snapshots: seq<Snapshot>, snapshot: Snapshot, options: Options)
    ensures Stream(snapshots + [snapshot], options) == Note(Stream(snapshots, options), snapshot, options)
    ensures Faithful(Stream(snapshots + [snapshot], options))
  {
    hide Note;
    StreamIsFaithful(snapshots + [snapshot], options);
    assert (snapshots + [snapshot])[..|snapshots|] == snapshots;
  }

  lemma NoAttemptRefs(messageRefs: set<Ref>)
    ensures AttemptRefs([], messageRefs) == {}
  {
  }
}
