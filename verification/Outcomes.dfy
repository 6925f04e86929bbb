// Outcomes that last: completed messages, canceled tasks, artifact history and
// side effects.
module Outcomes {
  import opened Wrappers
  import opened Domain
  import opened QueueModel
  import opened Calls
  import opened Protocol
  import opened Links
  import opened Leases

  // Completed and canceled messages

  /** Finished, and nobody may act on it any more. */
  ghost predicate Settled(q: Queue, r: Ref, now: Time) {
    && r in q.messages
    && (q.messages[r].state == MessageState.Completed || q.messages[r].state == MessageState.Canceled)
    && forall a :: a in q.attempts && q.attempts[a].messageRef == r ==> !Live(q.attempts[a], now)
  }

  lemma CompletedIsSettled(q: Queue, r: Ref, now: Time)
    requires LiveIsCurrent(q, now) && r in q.messages && q.messages[r].state == MessageState.Completed
    ensures Settled(q, r, now)
  {
    forall a | a in q.attempts && q.attempts[a].messageRef == r ensures !Live(q.attempts[a], now) {
      assert Live(q.attempts[a], now) ==> IsCurrent(q, a);
    }
  }

  lemma SettledThroughClaim(settings: Settings, s: Ledger, now: Time, move: Move, r: Ref)
    requires Claiming(move)
    requires Linked(s.queue) && Enabled(settings, s, now, move) && Settled(s.queue, r, now)
    ensures r in Apply(settings, s, now, move).queue.messages
    ensures Apply(settings, s, now, move).queue.messages[r].state == s.queue.messages[r].state
  {
    assert CurrentStored(s.queue, r);
  }

  lemma SettledThroughSweep(settings: Settings, s: Ledger, now: Time, move: Move, r: Ref)
    requires Sweeping(move)
    requires Linked(s.queue) && Enabled(settings, s, now, move) && Settled(s.queue, r, now)
    requires move.Reopen? && s.queue.messages[r].state == MessageState.Canceled ==> r !in move.refs
    ensures r in Apply(settings, s, now, move).queue.messages
    ensures Apply(settings, s, now, move).queue.messages[r].state == s.queue.messages[r].state
  {
    assert CurrentStored(s.queue, r);
  }

  lemma SettledThroughOther(settings: Settings, s: Ledger, now: Time, move: Move, r: Ref)
    requires !Claiming(move) && !Sweeping(move)
    requires Linked(s.queue) && Enabled(settings, s, now, move) && Settled(s.queue, r, now)
    ensures r in Apply(settings, s, now, move).queue.messages
    ensures Apply(settings, s, now, move).queue.messages[r].state == s.queue.messages[r].state
  {
    assert CurrentStored(s.queue, r);
  }

  /** A settled message keeps its state under every move but a retry that names it, which a completed one is never. */
  lemma SettledKeepsState(settings: Settings, s: Ledger, now: Time, move: Move, r: Ref)
    requires Linked(s.queue) && Enabled(settings, s, now, move) && Settled(s.queue, r, now)
    requires move.Reopen? && s.queue.messages[r].state == MessageState.Canceled ==> r !in move.refs
    ensures r in Apply(settings, s, now, move).queue.messages
    ensures Apply(settings, s, now, move).queue.messages[r].state == s.queue.messages[r].state
  {
    hide Apply;
    if Claiming(move) {
      SettledThroughClaim(settings, s, now, move, r);
    } else if Sweeping(move) {
      SettledThroughSweep(settings, s, now, move, r);
    } else {
      SettledThroughOther(settings, s, now, move, r);
    }
  }

  lemma SettledStays(settings: Settings, s: Ledger, now: Time, move: Move, r: Ref)
    requires Linked(s.queue) && Enabled(settings, s, now, move) && Settled(s.queue, r, now)
    requires move.Reopen? && s.queue.messages[r].state == MessageState.Canceled ==> r !in move.refs
    ensures Settled(Apply(settings, s, now, move).queue, r, now)
    ensures Apply(settings, s, now, move).queue.messages[r].state == s.queue.messages[r].state
  {
    var q' := Apply(settings, s, now, move).queue;
    SettledKeepsState(settings, s, now, move, r);
    assert CurrentStored(s.queue, r);
    forall a | a in q'.attempts && q'.attempts[a].messageRef == r ensures !Live(q'.attempts[a], now) {
      if a in s.queue.attempts {
        AttemptKept(settings, s, now, move, a);
        DeadStaysDead(settings, s, now, move, a);
      } else {
        AttemptNew(settings, s, now, move, a);
      }
    }
  }

  /** Every live attempt of the message is the one it points at, and the cancellation reaches the message. */
  ghost predicate CancelsCleanly(q: Queue, taskRef: Ref, r: Ref, now: Time)
    requires r in q.messages
  {
    forall a :: a in q.attempts && q.attempts[a].messageRef == r && Live(q.attempts[a], now) ==>
      a == q.messages[r].attemptRef && r in Cancelable(q, taskRef)
  }

  lemma CancelReaches(q: Queue, refs: set<Ref>, a: Ref)
    requires Linked(q) && a in q.attempts
    ensures var r := q.attempts[a].messageRef;
            r in q.messages && (a in CurrentAttempts(q, refs) <==> q.messages[r].attemptRef == a && r in refs)
  {
    var r := q.attempts[a].messageRef;
    forall o | o in refs && o in q.messages && q.messages[o].attemptRef == a ensures o == r { assert CurrentStored(q, o); }
    if q.messages[r].attemptRef == a && r in refs { assert a in CurrentAttempts(q, refs); }
  }

  /** Canceling a task leaves a message of it finished, with no live attempt, exactly when it was cleanly held. */
  lemma CancelSettlesIff(q: Queue, taskRef: Ref, now: Time, r: Ref)
    requires Linked(q) && r in TaskRefs(q, taskRef)
    ensures Settled(CancelRefs(q, Cancelable(q, taskRef)), r, now) <==> CancelsCleanly(q, taskRef, r, now)
  {
    var refs := Cancelable(q, taskRef);
    var q' := CancelRefs(q, refs);
    forall a | a in q.attempts && q.attempts[a].messageRef == r
      ensures Live(q'.attempts[a], now) <==> Live(q.attempts[a], now) && !(a == q.messages[r].attemptRef && r in refs)
    {
      CancelReaches(q, refs, a);
    }
    assert q'.attempts.Keys == q.attempts.Keys;
    assert forall a :: a in q.attempts ==> q'.attempts[a].messageRef == q.attempts[a].messageRef;
    hide CancelRefs, Linked, Live;
    CanceledState(q, taskRef, r);
  }

  lemma CanceledState(q: Queue, taskRef: Ref, r: Ref)
    requires r in TaskRefs(q, taskRef)
    ensures var q' := CancelRefs(q, Cancelable(q, taskRef));
            r in q'.messages && q'.messages[r].state in {MessageState.Completed, MessageState.Canceled}
  {
    hide OpenAttempts;
  }

  /** Where live attempts are current, every cancellation is clean. */
  lemma CurrentCancelsCleanly(q: Queue, taskRef: Ref, now: Time, r: Ref)
    requires LiveIsCurrent(q, now) && r in TaskRefs(q, taskRef)
    ensures CancelsCleanly(q, taskRef, r, now)
  {
    forall a | a in q.attempts && q.attempts[a].messageRef == r && Live(q.attempts[a], now)
      ensures a == q.messages[r].attemptRef && r in Cancelable(q, taskRef)
    {
      assert IsCurrent(q, a);
    }
  }

  // Artifact history

  ghost function Parents(artifacts: map<Ref, ArtifactVersion>, v: Ref): set<Ref>
    requires v in artifacts
  {
    set p | p in artifacts[v].basedOn
  }

  /** Some version in the set is based on none of the others. */
  ghost predicate HasSource(artifacts: map<Ref, ArtifactVersion>, refs: set<Ref>)
    requires refs <= artifacts.Keys
  {
    exists v :: v in refs && Parents(artifacts, v) !! refs
  }

  /** Every parent exists, and every set of versions has a source: there is no cycle. */
  ghost predicate Founded(artifacts: map<Ref, ArtifactVersion>) {
    && (forall v :: v in artifacts ==> Parents(artifacts, v) <= artifacts.Keys)
    && (forall refs: set<Ref> :: refs != {} && refs <= artifacts.Keys ==> HasSource(artifacts, refs))
  }

  lemma FilingKeepsSource(artifacts: map<Ref, ArtifactVersion>, version: ArtifactVersion, refs: set<Ref>)
    requires Founded(artifacts) && version.artifactVersionRef !in artifacts
    requires forall p :: p in version.basedOn ==> p in artifacts
    requires refs != {} && refs <= artifacts.Keys + {version.artifactVersionRef}
    ensures HasSource(artifacts[version.artifactVersionRef := version], refs)
  {
    var filed, v := artifacts[version.artifactVersionRef := version], version.artifactVersionRef;
    var older := refs - {v};
    if older == {} {
      assert v in refs && Parents(filed, v) <= artifacts.Keys;
    } else {
      assert HasSource(artifacts, older);
      var u :| u in older && Parents(artifacts, u) !! older;
      assert u in refs && Parents(filed, u) == Parents(artifacts, u) <= artifacts.Keys;
    }
  }

  lemma FilingKeepsFounded(artifacts: map<Ref, ArtifactVersion>, version: ArtifactVersion)
    requires Founded(artifacts) && version.artifactVersionRef !in artifacts
    requires forall p :: p in version.basedOn ==> p in artifacts
    ensures Founded(artifacts[version.artifactVersionRef := version])
  {
    var filed := artifacts[version.artifactVersionRef := version];
    forall u | u in filed ensures Parents(filed, u) <= filed.Keys {
      assert u in artifacts ==> Parents(filed, u) == Parents(artifacts, u);
    }
    forall refs: set<Ref> | refs != {} && refs <= filed.Keys ensures HasSource(filed, refs) {
      FilingKeepsSource(artifacts, version, refs);
    }
  }

  lemma MoveKeepsFounded(settings: Settings, s: Ledger, now: Time, move: Move)
    requires Enabled(settings, s, now, move) && Founded(s.artifacts)
    ensures Founded(Apply(settings, s, now, move).artifacts)
  {
    if move.File? { FilingKeepsFounded(s.artifacts, move.version); }
  }

  /** A registered version is never replaced. */
  lemma VersionsAreFinal(settings: Settings, s: Ledger, now: Time, move: Move, v: Ref)
    requires Enabled(settings, s, now, move) && v in s.artifacts
    ensures v in Apply(settings, s, now, move).artifacts
    ensures Apply(settings, s, now, move).artifacts[v] == s.artifacts[v]
  {
  }

  // Side effects

  ghost predicate EffectApproved(s: Ledger, e: Ref)
    requires e in s.sideEffects
  {
    var effect := s.sideEffects[e];
    && effect.approvalRef in s.approvals
    && var decision := s.approvals[effect.approvalRef];
       decision.status == Approved && decision.attemptRef == effect.attemptRef
       && decision.approvalHash == effect.approvalHash && decision.decidedByActorId != decision.requestedByActorId
  }

  /** One execution per idempotency key and scope. */
  ghost predicate EffectsUnique(sideEffects: map<Ref, SideEffect>) {
    forall d, e :: d in sideEffects && e in sideEffects && d != e ==>
      sideEffects[d].idempotencyKey != sideEffects[e].idempotencyKey
      || sideEffects[d].protectedScope != sideEffects[e].protectedScope
  }

  ghost predicate EffectsSound(s: Ledger) {
    && EffectsUnique(s.sideEffects)
    && (forall e :: e in s.sideEffects ==> EffectApproved(s, e))
    && (forall d :: d in s.approvals && s.approvals[d].status != Pending ==>
          s.approvals[d].decidedByActorId != s.approvals[d].requestedByActorId)
  }

  lemma BeginKeepsEffects(s: Ledger, e: SideEffect)
    requires EffectsSound(s) && MayBegin(s, e)
    ensures EffectsSound(s.(sideEffects := s.sideEffects[e.executionRef := e]))
  {
    var s' := s.(sideEffects := s.sideEffects[e.executionRef := e]);
    forall d | d in s'.sideEffects ensures EffectApproved(s', d) { assert d in s.sideEffects ==> EffectApproved(s, d); }
    forall d | d in s.sideEffects
      ensures s.sideEffects[d].idempotencyKey != e.idempotencyKey || s.sideEffects[d].protectedScope != e.protectedScope
    {
      assert d !in EffectsFor(s.sideEffects, e.idempotencyKey, e.protectedScope);
    }
  }

  lemma MoveKeepsEffects(settings: Settings, s: Ledger, now: Time, move: Move)
    requires EffectsSound(s) && Enabled(settings, s, now, move)
    ensures EffectsSound(Apply(settings, s, now, move))
  {
    if move.Begin? {
      BeginKeepsEffects(s, move.effect);
    } else {
      var s' := Apply(settings, s, now, move);
      forall d | d in s'.sideEffects ensures EffectApproved(s', d) { assert EffectApproved(s, d); }
    }
  }

  /** A recorded decision never changes. */
  lemma DecisionsAreFinal(settings: Settings, s: Ledger, now: Time, move: Move, d: Ref)
    requires Enabled(settings, s, now, move) && d in s.approvals
    ensures d in Apply(settings, s, now, move).approvals
    ensures Apply(settings, s, now, move).approvals[d] == s.approvals[d]
  {
  }

  /** An execution keeps what it is, and changes status only out of `executing`. */
  lemma EffectsAreFinal(settings: Settings, s: Ledger, now: Time, move: Move, e: Ref)
    requires Enabled(settings, s, now, move) && e in s.sideEffects
    ensures e in Apply(settings, s, now, move).sideEffects
    ensures var before, after := s.sideEffects[e], Apply(settings, s, now, move).sideEffects[e];
            && after == before.(status := after.status, resultRef := after.resultRef)
            && (before.status != Executing ==> after == before)
  {
  }
}
