// Checkpoints: numbered without gap, about the right message, and final once
// their attempt is dead.
module Resume {
  import opened Wrappers
  import opened Domain
  import opened QueueModel
  import opened Calls
  import opened Protocol
  import opened Links

  ghost predicate CheckpointsSound(s: Ledger, a: Ref)
    requires a in s.queue.checkpoints
  {
    var items := s.queue.checkpoints[a];
    && a in s.queue.attempts
    && forall i :: 0 <= i < |items| ==>
         items[i].revision == i + 1 && items[i].attemptRef == a
         && ArtifactsOfMessage(s.artifacts, items[i].artifactRefs, s.queue.attempts[a].messageRef)
  }

  ghost predicate RevisionSound(q: Queue, a: Ref)
    requires a in q.attempts
  {
    q.attempts[a].revision == if CheckpointsOf(q, a) == [] then 1 else |CheckpointsOf(q, a)|
  }

  ghost predicate Resumable(s: Ledger) {
    && (forall a :: a in s.queue.checkpoints ==> CheckpointsSound(s, a))
    && (forall a :: a in s.queue.attempts ==> RevisionSound(s.queue, a))
  }

  lemma ArtifactsKept(settings: Settings, s: Ledger, now: Time, move: Move, refs: seq<Ref>, r: Ref)
    requires Enabled(settings, s, now, move) && ArtifactsOfMessage(s.artifacts, refs, r)
    ensures ArtifactsOfMessage(Apply(settings, s, now, move).artifacts, refs, r)
  {
  }

  /** An accepted checkpoint extends its attempt's list by one; nothing else changes a list. */
  lemma CheckpointsExtended(settings: Settings, s: Ledger, now: Time, move: Move, a: Ref)
    requires Linked(s.queue) && Enabled(settings, s, now, move)
    ensures var q, q' := s.queue, Apply(settings, s, now, move).queue;
            CheckpointsOf(q', a) == if move.Report? && a == move.attemptRef
                                    then CheckpointsOf(q, a) + [NewCheckpoint(q, q.attempts[a], move.report)]
                                    else CheckpointsOf(q, a)
    ensures a in Apply(settings, s, now, move).queue.checkpoints ==>
              a in s.queue.checkpoints || (move.Report? && a == move.attemptRef)
  {
    if !move.Report? { CheckpointsOnlyReported(settings, s, now, move); }
  }

  lemma RevisionKept(settings: Settings, s: Ledger, now: Time, move: Move, a: Ref)
    requires Linked(s.queue) && Enabled(settings, s, now, move) && a in Apply(settings, s, now, move).queue.attempts
    ensures var q, q' := s.queue, Apply(settings, s, now, move).queue;
            q'.attempts[a].revision == if move.Report? && a == move.attemptRef then |CheckpointsOf(q, a)| + 1
                                       else if a in q.attempts then q.attempts[a].revision else 1
  {
  }

  lemma MoveKeepsCheckpoints(settings: Settings, s: Ledger, now: Time, move: Move, a: Ref)
    requires Linked(s.queue) && Resumable(s) && Enabled(settings, s, now, move)
    requires a in Apply(settings, s, now, move).queue.checkpoints
    ensures CheckpointsSound(Apply(settings, s, now, move), a)
  {
    var s' := Apply(settings, s, now, move);
    CheckpointsExtended(settings, s, now, move, a);
    assert a in s.queue.checkpoints ==> CheckpointsSound(s, a);
    AttemptKept(settings, s, now, move, a);
    var r, items := s.queue.attempts[a].messageRef, CheckpointsOf(s'.queue, a);
    forall i | 0 <= i < |items|
      ensures items[i].revision == i + 1 && items[i].attemptRef == a
              && ArtifactsOfMessage(s'.artifacts, items[i].artifactRefs, r)
    {
      ArtifactsKept(settings, s, now, move, items[i].artifactRefs, r);
    }
  }

  lemma MoveKeepsResumable(settings: Settings, s: Ledger, now: Time, move: Move)
    requires Linked(s.queue) && Resumable(s) && Enabled(settings, s, now, move)
    ensures Resumable(Apply(settings, s, now, move))
  {
    var s' := Apply(settings, s, now, move);
    forall a | a in s'.queue.checkpoints ensures CheckpointsSound(s', a) {
      MoveKeepsCheckpoints(settings, s, now, move, a);
    }
    forall a | a in s'.queue.attempts ensures RevisionSound(s'.queue, a) {
      RevisionKept(settings, s, now, move, a);
      CheckpointsExtended(settings, s, now, move, a);
      assert a in s.queue.attempts ==> RevisionSound(s.queue, a);
      assert a !in s.queue.attempts ==> CheckpointsOf(s.queue, a) == [] by {
        assert a in s.queue.checkpoints ==> CheckpointsSound(s, a);
      }
    }
  }

  /** With gapless revisions the scan for the highest one finds the checkpoint appended last. */
  lemma LatestIsLast(s: Ledger, a: Ref)
    requires Resumable(s)
    ensures var items := CheckpointsOf(s.queue, a);
            Latest(items) == if items == [] then None else Some(items[|items| - 1])
  {
    var items := CheckpointsOf(s.queue, a);
    if items != [] {
      assert CheckpointsSound(s, a);
      assert items[|items| - 1].revision <= items[LatestIndex(items)].revision;
    }
  }
}
