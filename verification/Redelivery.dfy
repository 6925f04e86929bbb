// Counting claims, takeovers and retries of one message.
module Redelivery {
  import opened Domain
  import opened QueueModel
  import opened Calls
  import opened Protocol
  import opened Links

  ghost function AttemptsOf(q: Queue, r: Ref): set<Ref> {
    set a | a in q.attempts && q.attempts[a].messageRef == r
  }

  /** No takeover past the limit, and every dead letter was written at the limit. */
  ghost predicate Budgeted(settings: Settings, q: Queue) {
    && (forall r :: r in q.messages ==> q.messages[r].redeliveryCount <= settings.maxRedelivery)
    && (forall d :: d in q.deadLetters ==> q.deadLetters[d].redeliveryCount == settings.maxRedelivery)
  }

  lemma LettersAtLimit(settings: Settings, s: Ledger, now: Time, move: Move, d: Ref)
    requires Budgeted(settings, s.queue) && Enabled(settings, s, now, move)
    requires d in Apply(settings, s, now, move).queue.deadLetters
    ensures Apply(settings, s, now, move).queue.deadLetters[d].redeliveryCount == settings.maxRedelivery
  {
  }

  lemma MoveKeepsBudget(settings: Settings, s: Ledger, now: Time, move: Move)
    requires Linked(s.queue) && Budgeted(settings, s.queue) && Enabled(settings, s, now, move)
    ensures Budgeted(settings, Apply(settings, s, now, move).queue)
  {
    var q, q' := s.queue, Apply(settings, s, now, move).queue;
    forall r | r in q'.messages ensures q'.messages[r].redeliveryCount <= settings.maxRedelivery {
      if r in q.messages { MessageKept(settings, s, now, move, r); } else { MessageNew(settings, s, now, move, r); }
    }
    forall d | d in q'.deadLetters ensures q'.deadLetters[d].redeliveryCount == settings.maxRedelivery {
      LettersAtLimit(settings, s, now, move, d);
    }
  }

  function ClaimsIn(move: Move, r: Ref): nat {
    if (move.Assign? || move.Retake?) && move.messageRef == r then 1 else 0
  }

  function TakeoversIn(move: Move, r: Ref): nat {
    if move.Retake? && move.messageRef == r then 1 else 0
  }

  function ReopeningsIn(move: Move, r: Ref): nat {
    if move.Reopen? && r in move.refs then 1 else 0
  }

  /** A claim that the message is still open to: it is unposted or available. */
  ghost function Vacancy(q: Queue, r: Ref): nat {
    if r !in q.messages || q.messages[r].state == MessageState.Available then 1 else 0
  }

  lemma ClaimAddsAttempt(settings: Settings, s: Ledger, now: Time, move: Move, r: Ref)
    requires Linked(s.queue) && Enabled(settings, s, now, move)
    ensures var q, q' := s.queue, Apply(settings, s, now, move).queue;
            AttemptsOf(q', r) == AttemptsOf(q, r) + if ClaimsIn(move, r) == 1 then {move.request.attemptRef} else {}
    ensures ClaimsIn(move, r) == 1 ==> move.request.attemptRef !in s.queue.attempts
  {
    var q, q' := s.queue, Apply(settings, s, now, move).queue;
    forall a ensures a in AttemptsOf(q', r) <==>
      a in AttemptsOf(q, r) || (ClaimsIn(move, r) == 1 && a == move.request.attemptRef)
    {
      if a in q.attempts { AttemptKept(settings, s, now, move, a); }
      else if a in q'.attempts { AttemptNew(settings, s, now, move, a); }
    }
  }

  lemma ClaimSpendsVacancy(settings: Settings, s: Ledger, now: Time, move: Move, r: Ref)
    requires Claiming(move) && Linked(s.queue) && Enabled(settings, s, now, move)
    ensures ClaimsIn(move, r) + Vacancy(Apply(settings, s, now, move).queue, r)
            <= Vacancy(s.queue, r) + TakeoversIn(move, r) + ReopeningsIn(move, r)
  {
  }

  lemma SweepSpendsVacancy(settings: Settings, s: Ledger, now: Time, move: Move, r: Ref)
    requires Sweeping(move) && Linked(s.queue) && Enabled(settings, s, now, move)
    ensures ClaimsIn(move, r) + Vacancy(Apply(settings, s, now, move).queue, r)
            <= Vacancy(s.queue, r) + TakeoversIn(move, r) + ReopeningsIn(move, r)
  {
  }

  lemma OtherSpendsVacancy(settings: Settings, s: Ledger, now: Time, move: Move, r: Ref)
    requires !Claiming(move) && !Sweeping(move) && Linked(s.queue) && Enabled(settings, s, now, move)
    ensures ClaimsIn(move, r) + Vacancy(Apply(settings, s, now, move).queue, r)
            <= Vacancy(s.queue, r) + TakeoversIn(move, r) + ReopeningsIn(move, r)
  {
  }

  /** Each claim uses up a vacancy or is a takeover; only a retry opens a new vacancy. */
  lemma VacancyIsSpent(settings: Settings, s: Ledger, now: Time, move: Move, r: Ref)
    requires Linked(s.queue) && Enabled(settings, s, now, move)
    ensures ClaimsIn(move, r) + Vacancy(Apply(settings, s, now, move).queue, r)
            <= Vacancy(s.queue, r) + TakeoversIn(move, r) + ReopeningsIn(move, r)
  {
    hide Apply;
    if Claiming(move) {
      ClaimSpendsVacancy(settings, s, now, move, r);
    } else if Sweeping(move) {
      SweepSpendsVacancy(settings, s, now, move, r);
    } else {
      OtherSpendsVacancy(settings, s, now, move, r);
    }
  }

  // Numbers

  function OneTo(k: nat): (numbers: set<nat>)
    ensures |numbers| == k && forall n: nat :: n in numbers <==> 1 <= n <= k
  {
    if k == 0 then {} else OneTo(k - 1) + {k}
  }

  ghost function NumbersIn(q: Queue, attempts: set<Ref>): set<nat> {
    set a | a in attempts && a in q.attempts :: q.attempts[a].attemptNo
  }

  /** The attempt numbers that a message has had. */
  ghost function NumbersOf(q: Queue, r: Ref): set<nat> {
    NumbersIn(q, AttemptsOf(q, r))
  }

  /** They are all those from 1 to the redelivery count plus one; a message without attempts was never redelivered. */
  ghost predicate NumbersFill(q: Queue, r: Ref) {
    && (r !in q.messages ==> AttemptsOf(q, r) == {})
    && (r in q.messages ==>
          if AttemptsOf(q, r) == {} then q.messages[r].redeliveryCount == 0
          else NumbersOf(q, r) == OneTo(q.messages[r].redeliveryCount + 1))
  }

  ghost predicate NumbersDistinct(q: Queue, r: Ref) {
    forall a, b :: a in AttemptsOf(q, r) && b in AttemptsOf(q, r) && a != b ==>
       q.attempts[a].attemptNo != q.attempts[b].attemptNo
  }

  lemma {:induction false} DistinctNumbersIff(q: Queue, attempts: set<Ref>)
    requires attempts <= q.attempts.Keys
    ensures |NumbersIn(q, attempts)| <= |attempts|
    ensures |NumbersIn(q, attempts)| == |attempts| <==>
            forall a, b :: a in attempts && b in attempts && a != b ==> q.attempts[a].attemptNo != q.attempts[b].attemptNo
    decreases attempts
  {
    if attempts != {} {
      var b :| b in attempts;
      var rest := attempts - {b};
      DistinctNumbersIff(q, rest);
      assert attempts == rest + {b};
      assert NumbersIn(q, attempts) == NumbersIn(q, rest) + {q.attempts[b].attemptNo};
      assert |attempts| == |rest| + 1;
    }
  }

  lemma AttemptNumbersKept(settings: Settings, s: Ledger, now: Time, move: Move, r: Ref)
    requires Linked(s.queue) && Enabled(settings, s, now, move)
    ensures var q, q' := s.queue, Apply(settings, s, now, move).queue;
            forall a :: a in AttemptsOf(q, r) ==> a in q'.attempts && q'.attempts[a].attemptNo == q.attempts[a].attemptNo
  {
    forall a | a in AttemptsOf(s.queue, r)
      ensures a in Apply(settings, s, now, move).queue.attempts
      ensures Apply(settings, s, now, move).queue.attempts[a].attemptNo == s.queue.attempts[a].attemptNo
    {
      AttemptKept(settings, s, now, move, a);
    }
  }

  lemma RedeliveriesCounted(settings: Settings, s: Ledger, now: Time, move: Move, r: Ref)
    requires Linked(s.queue) && Enabled(settings, s, now, move)
    requires r in Apply(settings, s, now, move).queue.messages
    ensures Apply(settings, s, now, move).queue.messages[r].redeliveryCount ==
            TakeoversIn(move, r) + if r in s.queue.messages then s.queue.messages[r].redeliveryCount else 0
  {
    if r in s.queue.messages { MessageKept(settings, s, now, move, r); } else { MessageNew(settings, s, now, move, r); }
  }

  /** The number of the attempt that a claim starts. */
  lemma ClaimNumber(settings: Settings, s: Ledger, now: Time, move: Move, r: Ref)
    requires Linked(s.queue) && Enabled(settings, s, now, move) && ClaimsIn(move, r) == 1
    ensures var q' := Apply(settings, s, now, move).queue;
            r in s.queue.messages && move.request.attemptRef in q'.attempts
            && q'.attempts[move.request.attemptRef].attemptNo
               == s.queue.messages[r].redeliveryCount + 1 + TakeoversIn(move, r)
    ensures move.Retake? ==> AttemptsOf(s.queue, r) != {} && s.queue.messages[r].state != MessageState.Available
    ensures move.Assign? ==> s.queue.messages[r].state == MessageState.Available
  {
    if move.Retake? {
      assert CurrentStored(s.queue, r);
      assert s.queue.messages[r].attemptRef in AttemptsOf(s.queue, r);
    }
  }

  lemma NumbersExtended(q: Queue, q': Queue, r: Ref, added: set<Ref>)
    requires AttemptsOf(q', r) == AttemptsOf(q, r) + added
    requires forall a :: a in AttemptsOf(q, r) ==> q'.attempts[a].attemptNo == q.attempts[a].attemptNo
    ensures NumbersOf(q', r) == NumbersOf(q, r) + NumbersIn(q', added)
  {
  }

  lemma FilledByClaim(q: Queue, q': Queue, r: Ref, takeovers: nat)
    requires r in q.messages && r in q'.messages && NumbersFill(q, r) && AttemptsOf(q', r) != {} && takeovers <= 1
    requires NumbersOf(q', r) == NumbersOf(q, r) + {q.messages[r].redeliveryCount + 1 + takeovers}
    requires q'.messages[r].redeliveryCount == q.messages[r].redeliveryCount + takeovers
    requires takeovers == 1 ==> AttemptsOf(q, r) != {}
    ensures NumbersFill(q', r)
  {
    assert AttemptsOf(q, r) == {} ==> NumbersOf(q, r) == {};
    hide AttemptsOf, NumbersOf, OneTo;
  }

  lemma ClaimFillsNumbers(settings: Settings, s: Ledger, now: Time, move: Move, r: Ref)
    requires Linked(s.queue) && Enabled(settings, s, now, move) && NumbersFill(s.queue, r) && ClaimsIn(move, r) == 1
    ensures NumbersFill(Apply(settings, s, now, move).queue, r)
  {
    hide Apply, Enabled, Linked, AttemptsOf, NumbersFill;
    var q, q', added := s.queue, Apply(settings, s, now, move).queue, move.request.attemptRef;
    ClaimAddsAttempt(settings, s, now, move, r);
    AttemptNumbersKept(settings, s, now, move, r);
    ClaimNumber(settings, s, now, move, r);
    MessageKept(settings, s, now, move, r);
    RedeliveriesCounted(settings, s, now, move, r);
    NumbersExtended(q, q', r, {added});
    assert NumbersIn(q', {added}) == {q'.attempts[added].attemptNo};
    hide NumbersIn, NumbersOf;
    assert added in AttemptsOf(q', r);
    FilledByClaim(q, q', r, TakeoversIn(move, r));
  }

  lemma FilledAsBefore(q: Queue, q': Queue, r: Ref)
    requires NumbersFill(q, r) && AttemptsOf(q', r) == AttemptsOf(q, r) && NumbersOf(q', r) == NumbersOf(q, r)
    requires r in q.messages ==> r in q'.messages
    requires r in q'.messages ==>
               q'.messages[r].redeliveryCount == if r in q.messages then q.messages[r].redeliveryCount else 0
    ensures NumbersFill(q', r)
  {
    hide AttemptsOf, NumbersOf, OneTo;
  }

  lemma NumbersUntouched(settings: Settings, s: Ledger, now: Time, move: Move, r: Ref)
    requires Linked(s.queue) && Enabled(settings, s, now, move) && ClaimsIn(move, r) == 0
    ensures var q, q' := s.queue, Apply(settings, s, now, move).queue;
            AttemptsOf(q', r) == AttemptsOf(q, r) && NumbersOf(q', r) == NumbersOf(q, r)
  {
    hide Apply, Enabled, Linked, AttemptsOf, ClaimsIn;
    var q, q' := s.queue, Apply(settings, s, now, move).queue;
    ClaimAddsAttempt(settings, s, now, move, r);
    AttemptNumbersKept(settings, s, now, move, r);
    NumbersExtended(q, q', r, {});
    assert AttemptsOf(q, r) + {} == AttemptsOf(q, r);
    assert NumbersIn(q', {}) == {};
    assert NumbersOf(q, r) + {} == NumbersOf(q, r);
  }

  /** Every move keeps the numbers without a gap, retries included. */
  lemma MoveKeepsNumbers(settings: Settings, s: Ledger, now: Time, move: Move, r: Ref)
    requires Linked(s.queue) && Enabled(settings, s, now, move) && NumbersFill(s.queue, r)
    ensures NumbersFill(Apply(settings, s, now, move).queue, r)
  {
    hide Apply, Enabled, Linked, AttemptsOf, NumbersOf, NumbersFill;
    var q' := Apply(settings, s, now, move).queue;
    if ClaimsIn(move, r) == 1 {
      ClaimFillsNumbers(settings, s, now, move, r);
    } else {
      NumbersUntouched(settings, s, now, move, r);
      if r in q'.messages { RedeliveriesCounted(settings, s, now, move, r); }
      if r in s.queue.messages { MessageKept(settings, s, now, move, r); }
      assert TakeoversIn(move, r) == 0;
      FilledAsBefore(s.queue, q', r);
    }
  }

  /** A claim repeats a number exactly when it is of an available message that has been claimed before. */
  lemma ClaimRepeatsIff(settings: Settings, s: Ledger, now: Time, move: Move, r: Ref)
    requires Linked(s.queue) && Enabled(settings, s, now, move) && NumbersFill(s.queue, r) && ClaimsIn(move, r) == 1
    ensures r in s.queue.messages && move.request.attemptRef in Apply(settings, s, now, move).queue.attempts
    ensures Apply(settings, s, now, move).queue.attempts[move.request.attemptRef].attemptNo in NumbersOf(s.queue, r)
            <==> s.queue.messages[r].state == MessageState.Available && AttemptsOf(s.queue, r) != {}
  {
    ClaimNumber(settings, s, now, move, r);
    hide Apply, Enabled, Linked;
  }
}
