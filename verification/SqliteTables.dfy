// The tables of the SQLite store and the queue they encode. A row keeps a few
// columns beside its body; encoding and decoding of bodies are taken as inverse.
module SqliteTables {
  import opened Wrappers
  import opened Domain
  import opened QueueModel
  import Refs

  datatype MessageRow = MessageRow(state: MessageState, attemptRef: Ref, body: Message)

  datatype AttemptRow = AttemptRow(
    messageRef: Ref, endpointRef: Ref, state: AttemptState, leaseExpiresAt: Time, body: Attempt)

  datatype CheckpointRow = CheckpointRow(checkpointRef: Ref, body: Checkpoint)

  /** The checkpoint table, by its primary key of attempt and revision. */
  type CheckpointTable = map<(Ref, nat), CheckpointRow>

  datatype Tables = Tables(
    refs: map<Refs.Kind, nat>,
    messages: map<Ref, MessageRow>,
    attempts: map<Ref, AttemptRow>,
    checkpoints: CheckpointTable,
    deadLetters: map<Ref, DeadLetter>)

  const EMPTY_TABLES := Tables(map[], map[], map[], map[], map[])

  function MessageRowOf(m: Message): MessageRow {
    MessageRow(m.state, m.attemptRef, m)
  }

  function AttemptRowOf(a: Attempt): AttemptRow {
    AttemptRow(a.messageRef, a.endpointRef, a.state, a.leaseExpiresAt, a)
  }

  function CheckpointRowOf(c: Checkpoint): CheckpointRow {
    CheckpointRow(c.checkpointRef, c)
  }

  // Checkpoint rows

  function RowsOf(table: CheckpointTable, a: Ref): set<(Ref, nat)> {
    set k | k in table && k.0 == a
  }

  /** The revisions of every attempt are 1 to their count. */
  ghost predicate Gapless(table: CheckpointTable) {
    forall a: Ref, n: nat :: (a, n) in table <==> 1 <= n <= |RowsOf(table, a)|
  }

  /** The bodies of an attempt's rows by revision. */
  ghost function History(table: CheckpointTable, a: Ref): seq<Checkpoint>
    requires Gapless(table)
  {
    seq(|RowsOf(table, a)|, i requires 0 <= i < |RowsOf(table, a)| => table[(a, i + 1)].body)
  }

  ghost function Owners(table: CheckpointTable): set<Ref> {
    set k | k in table :: k.0
  }

  ghost function Histories(table: CheckpointTable): map<Ref, seq<Checkpoint>>
    requires Gapless(table)
  {
    map a | a in Owners(table) :: History(table, a)
  }

  // The whole database

  ghost predicate RowsIndexed(t: Tables) {
    && (forall r :: r in t.messages ==> t.messages[r] == MessageRowOf(t.messages[r].body) && t.messages[r].body.messageRef == r)
    && (forall a :: a in t.attempts ==> t.attempts[a] == AttemptRowOf(t.attempts[a].body) && t.attempts[a].body.attemptRef == a)
    && (forall d :: d in t.deadLetters ==> t.deadLetters[d].deadLetterRef == d)
  }

  ghost predicate CheckpointsIndexed(table: CheckpointTable) {
    && Gapless(table)
    && forall k :: k in table ==>
         table[k] == CheckpointRowOf(table[k].body) && table[k].body.attemptRef == k.0 && table[k].body.revision == k.1
  }

  /** Every column repeats what the body beside it says. */
  ghost predicate Indexed(t: Tables) {
    RowsIndexed(t) && CheckpointsIndexed(t.checkpoints)
  }

  /** The queue that the tables stand for. */
  ghost function Decoded(t: Tables): Queue
    requires Indexed(t)
  {
    Queue(t.refs,
          map r | r in t.messages :: t.messages[r].body,
          map a | a in t.attempts :: t.attempts[a].body,
          Histories(t.checkpoints),
          t.deadLetters)
  }

  lemma DecodedKeyed(t: Tables)
    requires Indexed(t)
    ensures Keyed(Decoded(t))
  {
  }

  /** No two different databases stand for one queue: the columns hold nothing of their own. */
  lemma {:induction false} DecodedInjective(t: Tables, u: Tables)
    requires Indexed(t) && Indexed(u) && Decoded(t) == Decoded(u)
    ensures t == u
  {
    assert t.messages.Keys == Decoded(t).messages.Keys && u.messages.Keys == Decoded(u).messages.Keys;
    assert t.attempts.Keys == Decoded(t).attempts.Keys && u.attempts.Keys == Decoded(u).attempts.Keys;
    forall r | r in t.messages ensures t.messages[r] == u.messages[r] {
      assert Decoded(t).messages[r] == t.messages[r].body && Decoded(u).messages[r] == u.messages[r].body;
    }
    forall a | a in t.attempts ensures t.attempts[a] == u.attempts[a] {
      assert Decoded(t).attempts[a] == t.attempts[a].body && Decoded(u).attempts[a] == u.attempts[a].body;
    }
    assert t.messages == u.messages && t.attempts == u.attempts;
    SameRows(t, u);
  }

  lemma SameRows(t: Tables, u: Tables)
    requires Indexed(t) && Indexed(u) && Decoded(t) == Decoded(u)
    ensures t.checkpoints == u.checkpoints
  {
    forall k | k in t.checkpoints ensures k in u.checkpoints && u.checkpoints[k] == t.checkpoints[k] {
      SameRow(t, u, k.0, k.1);
    }
    forall k | k in u.checkpoints ensures k in t.checkpoints { SameRow(u, t, k.0, k.1); }
  }

  lemma HistoryAt(table: CheckpointTable, a: Ref, n: nat)
    requires Gapless(table) && (a, n) in table
    ensures 1 <= n <= |History(table, a)| && History(table, a)[n - 1] == table[(a, n)].body
  {
  }

  lemma SameRow(t: Tables, u: Tables, a: Ref, n: nat)
    requires Indexed(t) && Indexed(u) && Decoded(t) == Decoded(u) && (a, n) in t.checkpoints
    ensures (a, n) in u.checkpoints && u.checkpoints[(a, n)] == t.checkpoints[(a, n)]
  {
    CheckpointsDecoded(t, a);
    CheckpointsDecoded(u, a);
    HistoryAt(t.checkpoints, a, n);
    hide RowsIndexed, Decoded, History, CheckpointsOf;
    assert |RowsOf(u.checkpoints, a)| == |History(u.checkpoints, a)|;
    assert (a, n) in u.checkpoints;
    HistoryAt(u.checkpoints, a, n);
  }

  // One row written

  lemma MessageWritten(t: Tables, m: Message)
    requires Indexed(t)
    ensures var t' := t.(messages := t.messages[m.messageRef := MessageRowOf(m)]);
            Indexed(t') && Decoded(t') == PutMessage(Decoded(t), m)
  {
  }

  lemma AttemptWritten(t: Tables, a: Attempt)
    requires Indexed(t)
    ensures var t' := t.(attempts := t.attempts[a.attemptRef := AttemptRowOf(a)]);
            Indexed(t') && Decoded(t') == PutAttempt(Decoded(t), a)
  {
  }

  /** A table with one more row after the last one of its attempt. */
  function Appended(table: CheckpointTable, c: Checkpoint): CheckpointTable {
    table[(c.attemptRef, c.revision) := CheckpointRowOf(c)]
  }

  lemma RowsAppended(table: CheckpointTable, c: Checkpoint, a: Ref)
    requires Gapless(table) && c.revision == |RowsOf(table, c.attemptRef)| + 1
    ensures (c.attemptRef, c.revision) !in table
    ensures |RowsOf(Appended(table, c), a)| == |RowsOf(table, a)| + if a == c.attemptRef then 1 else 0
  {
    var key := (c.attemptRef, c.revision);
    assert key !in table;
    assert RowsOf(Appended(table, c), a) == RowsOf(table, a) + if a == c.attemptRef then {key} else {};
  }

  lemma AppendedIndexed(table: CheckpointTable, c: Checkpoint)
    requires CheckpointsIndexed(table) && c.revision == |RowsOf(table, c.attemptRef)| + 1
    ensures CheckpointsIndexed(Appended(table, c))
  {
    forall a: Ref, n: nat ensures (a, n) in Appended(table, c) <==> 1 <= n <= |RowsOf(Appended(table, c), a)| {
      RowsAppended(table, c, a);
      assert (a, n) in table <==> 1 <= n <= |RowsOf(table, a)|;
    }
  }

  lemma HistoryAppended(table: CheckpointTable, c: Checkpoint, a: Ref)
    requires CheckpointsIndexed(table) && c.revision == |RowsOf(table, c.attemptRef)| + 1
    requires Gapless(Appended(table, c))
    ensures History(Appended(table, c), a) == History(table, a) + if a == c.attemptRef then [c] else []
  {
    RowsAppended(table, c, a);
    hide RowsOf;
    var after, before := History(Appended(table, c), a), History(table, a);
    forall i | 0 <= i < |before| ensures after[i] == before[i] {
      assert (a, i + 1) in table && (a, i + 1) in Appended(table, c);
      HistoryAt(table, a, i + 1);
      HistoryAt(Appended(table, c), a, i + 1);
    }
    if a == c.attemptRef { HistoryAt(Appended(table, c), a, c.revision); }
  }

  lemma OwnersAppended(table: CheckpointTable, c: Checkpoint)
    ensures Owners(Appended(table, c)) == Owners(table) + {c.attemptRef}
  {
    var table' := Appended(table, c);
    forall o ensures o in Owners(table') <==> o in Owners(table) || o == c.attemptRef {
      if o in Owners(table) { var k :| k in table && k.0 == o; assert k in table'; }
      if o == c.attemptRef { assert (c.attemptRef, c.revision) in table'; }
    }
  }

  lemma OwnersHaveRows(table: CheckpointTable, a: Ref)
    requires Gapless(table)
    ensures a in Owners(table) <==> RowsOf(table, a) != {}
    ensures a !in Owners(table) ==> History(table, a) == []
  {
    if a in Owners(table) {
      var k :| k in table && k.0 == a;
      assert k in RowsOf(table, a);
    }
    if k :| k in RowsOf(table, a) { assert k.0 == a && k in table; }
  }

  lemma CheckpointsDecoded(t: Tables, a: Ref)
    requires Indexed(t)
    ensures CheckpointsOf(Decoded(t), a) == History(t.checkpoints, a)
  {
    OwnersHaveRows(t.checkpoints, a);
  }

  lemma HistoriesAppended(table: CheckpointTable, c: Checkpoint)
    requires CheckpointsIndexed(table) && c.revision == |RowsOf(table, c.attemptRef)| + 1
    requires Gapless(table) && Gapless(Appended(table, c))
    ensures Histories(Appended(table, c)) == Histories(table)[c.attemptRef := History(table, c.attemptRef) + [c]]
  {
    hide Appended, RowsOf, Owners, History, CheckpointsIndexed, Gapless;
    OwnersAppended(table, c);
    var before, after := Histories(table), Histories(Appended(table, c));
    forall a | a in after ensures after[a] == before[c.attemptRef := History(table, c.attemptRef) + [c]][a] {
      HistoryAppended(table, c, a);
    }
  }

  lemma NextRevision(t: Tables, a: Ref)
    requires Indexed(t)
    ensures |CheckpointsOf(Decoded(t), a)| == |RowsOf(t.checkpoints, a)|
  {
    CheckpointsDecoded(t, a);
  }

  lemma CheckpointWritten(t: Tables, c: Checkpoint)
    requires Indexed(t) && c.revision == |RowsOf(t.checkpoints, c.attemptRef)| + 1
    ensures var t' := t.(checkpoints := Appended(t.checkpoints, c));
            Indexed(t') && c == Numbered(Decoded(t), c) && Decoded(t') == AppendCheckpoint(Decoded(t), c)
  {
    hide Appended, RowsOf, Histories, History, CheckpointsOf, Gapless;
    NextRevision(t, c.attemptRef);
    AppendedIndexed(t.checkpoints, c);
    HistoriesAppended(t.checkpoints, c);
    CheckpointsDecoded(t, c.attemptRef);
  }

  /** The row of highest revision holds the checkpoint that a scan of the list finds. */
  lemma LastRowIsLatest(table: CheckpointTable, a: Ref)
    requires CheckpointsIndexed(table)
    ensures var n := |RowsOf(table, a)|;
            Latest(History(table, a)) == if n == 0 then None else Some(table[(a, n)].body)
  {
    var items := History(table, a);
    var n := |RowsOf(table, a)|;
    if n > 0 {
      assert forall i :: 0 <= i < n ==> (a, i + 1) in table && items[i].revision == i + 1;
      assert items[n - 1].revision <= items[LatestIndex(items)].revision;
    }
  }

  /** Some stored checkpoint has this ref: the column is unique, whatever the attempt. */
  ghost predicate CheckpointRefUsed(q: Queue, ref: Ref) {
    exists a, i :: a in q.checkpoints && 0 <= i < |q.checkpoints[a]| && q.checkpoints[a][i].checkpointRef == ref
  }

  lemma UsedRefsDecoded(t: Tables, ref: Ref)
    requires Indexed(t)
    ensures CheckpointRefUsed(Decoded(t), ref) <==> exists k :: k in t.checkpoints && t.checkpoints[k].checkpointRef == ref
  {
    var q := Decoded(t);
    if k :| k in t.checkpoints && t.checkpoints[k].checkpointRef == ref {
      assert k.0 in Owners(t.checkpoints);
      assert (k.0, k.1) in t.checkpoints;
      assert History(t.checkpoints, k.0)[k.1 - 1] == t.checkpoints[k].body;
      assert q.checkpoints[k.0][k.1 - 1].checkpointRef == ref;
    }
    if a, i :| a in q.checkpoints && 0 <= i < |q.checkpoints[a]| && q.checkpoints[a][i].checkpointRef == ref {
      assert (a, i + 1) in t.checkpoints;
    }
  }
}
