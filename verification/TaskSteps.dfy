// One more pass of the loop of a task command, over either store.
module TaskSteps {
  import opened Domain
  import opened QueueModel
  import opened Calls

  predicate CancelableState(state: MessageState) {
    state != MessageState.Completed && state != MessageState.Canceled
  }

  function CancelOne(q: Queue, r: Ref): Queue
    requires r in q.messages
  {
    var m := q.messages[r];
    var q' := PutMessage(q, m.(state := MessageState.Canceled));
    if OpenIn(q, m.attemptRef) then PutAttempt(q', q.attempts[m.attemptRef].(state := AttemptState.Canceled)) else q'
  }

  predicate OpenIn(q: Queue, a: Ref) {
    a != "" && a in q.attempts && !AttemptClosed(q.attempts[a].state)
  }

  lemma CancelKeeps(q: Queue, refs: set<Ref>, r: Ref)
    requires Keyed(q) && r in q.messages && r !in refs
    ensures Keyed(CancelRefs(q, refs))
    ensures r in CancelRefs(q, refs).messages && CancelRefs(q, refs).messages[r] == q.messages[r]
    ensures OpenIn(CancelRefs(q, refs), q.messages[r].attemptRef) <==>
            OpenIn(q, q.messages[r].attemptRef) && q.messages[r].attemptRef !in OpenAttempts(q, refs)
  {
  }

  lemma OpenOneMore(q: Queue, refs: set<Ref>, r: Ref)
    requires r in q.messages
    ensures var a := q.messages[r].attemptRef;
            OpenAttempts(q, refs + {r}) == OpenAttempts(q, refs) + (if OpenIn(q, a) then {a} else {})
  {
    assert CurrentAttempts(q, refs + {r}) == CurrentAttempts(q, refs) + {q.messages[r].attemptRef};
  }

  lemma CancelOneMoreMessage(q: Queue, refs: set<Ref>, r: Ref)
    requires Keyed(q) && r in q.messages && r !in refs
    ensures CancelRefs(q, refs + {r}).messages
            == CancelRefs(q, refs).messages[r := q.messages[r].(state := MessageState.Canceled)]
  {
  }

  lemma CancelOneMoreAttempt(q: Queue, refs: set<Ref>, r: Ref, open: set<Ref>, a: Ref)
    requires Keyed(q) && r in q.messages && q.messages[r].attemptRef == a && open == OpenAttempts(q, refs)
    requires OpenAttempts(q, refs + {r}) == open + (if OpenIn(q, a) then {a} else {})
    ensures CancelRefs(q, refs + {r}).attempts
            == if OpenIn(q, a) && a !in open then
                 CancelRefs(q, refs).attempts[a := q.attempts[a].(state := AttemptState.Canceled)]
               else CancelRefs(q, refs).attempts
  {
  }

  lemma CancelOneMore(q: Queue, refs: set<Ref>, r: Ref)
    requires Keyed(q) && r in q.messages && r !in refs
    ensures r in CancelRefs(q, refs).messages && CancelRefs(q, refs + {r}) == CancelOne(CancelRefs(q, refs), r)
  {
    var a := q.messages[r].attemptRef;
    CancelKeeps(q, refs, r);
    OpenOneMore(q, refs, r);
    CancelOneMoreMessage(q, refs, r);
    CancelOneMoreAttempt(q, refs, r, OpenAttempts(q, refs), a);
    assert OpenIn(CancelRefs(q, refs), a) ==> CancelRefs(q, refs).attempts[a] == q.attempts[a];
  }

  lemma CancelNothing(q: Queue)
    ensures CancelRefs(q, {}) == q && OpenAttempts(q, {}) == {} && RetryRefs(q, {}) == q
  {
    assert CurrentAttempts(q, {}) == {};
  }

  lemma RetryOneMore(q: Queue, refs: set<Ref>, r: Ref)
    requires Keyed(q) && r in q.messages
    ensures RetryRefs(q, refs + {r})
            == PutMessage(RetryRefs(q, refs), q.messages[r].(state := MessageState.Available, attemptRef := ""))
  {
  }
}
