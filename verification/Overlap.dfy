// When two attempts of one message are live at once, exactly: some claim of it
// was granted while an earlier attempt was still live.
module Overlap {
  import opened Wrappers
  import opened Domain
  import opened QueueModel
  import opened Calls
  import opened Protocol
  import opened Links
  import opened Leases
  import opened Redelivery
  import opened Polling
  import opened Reachable
  import opened Runs
  import Refs

  ghost predicate IsLiveOf(q: Queue, r: Ref, a: Ref, now: Time) {
    a in q.attempts && q.attempts[a].messageRef == r && Live(q.attempts[a], now)
  }

  ghost predicate TwoLive(q: Queue, r: Ref, now: Time) {
    exists a, b :: a != b && IsLiveOf(q, r, a, now) && IsLiveOf(q, r, b, now)
  }

  /** The call is granted message `r` although an attempt of it is live. */
  ghost predicate GrantsOverLive(settings: Settings, s: Ledger, now: Time, call: Call, r: Ref) {
    var reply := Step(settings, s, now, call).reply;
    reply.Granted? && reply.claim.message.messageRef == r && exists a :: IsLiveOf(s.queue, r, a, now)
  }

  lemma StoreGrantKeepsLive(q: Queue, c: ClaimRequest, a: Ref)
    requires Linked(q) && Claim(q, c).reply.Ok? && c.attemptRef !in q.attempts && c.leaseExpiresAt > c.now
    requires IsLiveOf(q, c.messageRef, a, c.now)
    ensures var q' := Claim(q, c).queue;
            a != c.attemptRef && IsLiveOf(q', c.messageRef, a, c.now) && IsLiveOf(q', c.messageRef, c.attemptRef, c.now)
  {
    assert CurrentStored(q, c.messageRef);
    hide CurrentStored, GrantReply, Latest;
  }

  lemma DirectGrantOverLive(settings: Settings, s: Ledger, now: Time, r: Ref, e: Ref, a: Ref)
    requires ValidSettings(settings) && Linked(s.queue) && Counted(s)
    requires ClaimMessage(settings, s, now, r, e).reply.Granted? && IsLiveOf(s.queue, r, a, now)
    ensures TwoLive(ClaimMessage(settings, s, now, r, e).ledger.queue, r, now)
  {
    BumpKeepsLinked(s.queue, Refs.Kind.Attempt);
    BumpKeepsLinked(Bump(s.queue, Refs.Kind.Attempt), Refs.Kind.DeadLetter);
    NextIsFresh(s.queue, Refs.Kind.Attempt);
    assert ClaimCounted(s.queue).attempts == s.queue.attempts;
    var c := ServiceClaim(settings, s.queue, now, r, s.endpoints[e]);
    hide Linked, Claim, ClaimRefusal, Bump;
    StoreGrantKeepsLive(ClaimCounted(s.queue), c, a);
  }

  lemma SweepKeepsLiveOf(q: Queue, now: Time, r: Ref, a: Ref)
    requires Linked(q) && IsLiveOf(q, r, a, now)
    ensures IsLiveOf(Reconcile(q, now), r, a, now)
  {
  }

  lemma SweptStays(settings: Settings, s: Ledger, now: Time)
    requires ValidSettings(settings) && Linked(s.queue) && Counted(s)
    ensures var swept := ReconcileExpiredClaims(s, now).ledger; Linked(swept.queue) && Counted(swept)
  {
    SweepKeepsLinked(s.queue, now);
    MoveKeepsCounted(settings, s, now, Sweep);
    hide Linked, Counted, Reconcile;
  }

  lemma PolledGrantOverLive(settings: Settings, s: Ledger, now: Time, e: Ref, r: Ref, a: Ref)
    requires ValidSettings(settings) && Linked(s.queue) && Counted(s)
    requires ClaimNextMessage(settings, s, now, e).reply.Granted?
    requires ClaimNextMessage(settings, s, now, e).reply.claim.message.messageRef == r && IsLiveOf(s.queue, r, a, now)
    ensures TwoLive(ClaimNextMessage(settings, s, now, e).ledger.queue, r, now)
  {
    hide Calls.ClaimMessage, Linked, Counted, Reconcile, TwoLive, IsLiveOf, ClaimNext, PollPick;
    assert PollRefusal(settings, s, now, e).None?;
    hide Calls.ClaimNextMessage;
    var swept := ReconcileExpiredClaims(s, now).ledger;
    PollIsDirectClaim(settings, s, now, e);
    var picked := PollPick(settings, swept, now, e).value;
    SweptStays(settings, s, now);
    GrantedMessageRef(settings, swept, now, picked, e);
    SweepKeepsLiveOf(s.queue, now, r, a);
    DirectGrantOverLive(settings, swept, now, picked, e, a);
  }

  /** A grant over a live attempt leaves two. */
  lemma GrantMakesTwo(settings: Settings, s: Ledger, now: Time, call: Call, r: Ref)
    requires ValidSettings(settings) && Linked(s.queue) && Counted(s) && GrantsOverLive(settings, s, now, call, r)
    ensures TwoLive(Step(settings, s, now, call).ledger.queue, r, now)
  {
    var a :| IsLiveOf(s.queue, r, a, now);
    OnlyClaimsGrant(settings, s, now, call);
    hide Calls.ClaimMessage, Calls.ClaimNextMessage, Linked, Counted, TwoLive, IsLiveOf;
    if call.ClaimCall? {
      GrantedMessageRef(settings, s, now, call.messageRef, call.endpointRef);
      DirectGrantOverLive(settings, s, now, call.messageRef, call.endpointRef, a);
    } else {
      PolledGrantOverLive(settings, s, now, call.endpointRef, r, a);
    }
  }

  /** An attempt that is live after a call was live before it, or is the one attempt that the call was granted. */
  lemma LiveBefore(settings: Settings, s: Ledger, now: Time, call: Call, r: Ref, a: Ref)
    requires ValidSettings(settings) && Linked(s.queue) && Counted(s)
    requires IsLiveOf(Step(settings, s, now, call).ledger.queue, r, a, now) && a in s.queue.attempts
    ensures IsLiveOf(s.queue, r, a, now)
  {
    CallEvolves(settings, s, now, call);
    assert AttemptEvolves(s.queue, now, Step(settings, s, now, call).ledger.queue, now, a);
    hide Step, Live, Linked, Counted;
  }

  lemma AttemptsKept(settings: Settings, s: Ledger, now: Time, call: Call, r: Ref)
    requires ValidSettings(settings) && Linked(s.queue) && Counted(s)
    ensures AttemptsOf(s.queue, r) <= AttemptsOf(Step(settings, s, now, call).ledger.queue, r)
  {
    hide Step, Linked, Counted, Live;
    CallEvolves(settings, s, now, call);
    forall a | a in AttemptsOf(s.queue, r) ensures a in AttemptsOf(Step(settings, s, now, call).ledger.queue, r) {
      assert AttemptEvolves(s.queue, now, Step(settings, s, now, call).ledger.queue, now, a);
    }
  }

  lemma OneMoreAtMost(before: set<Ref>, after: set<Ref>, a: Ref, b: Ref, added: nat)
    requires before <= after && |after| == |before| + added && added <= 1
    requires a in after && b in after && a != b && b !in before
    ensures added == 1 && a in before
  {
    assert |after - before| == |after| - |before|;
    var gained := after - before;
    assert b in gained;
    if a !in before {
      assert {a, b} <= gained;
      SmallerSubset({a, b}, gained);
    } else {
      SmallerSubset({b}, gained);
    }
  }

  lemma SmallerSubset(small: set<Ref>, large: set<Ref>)
    requires small <= large
    ensures |small| <= |large|
  {
    assert |large - small| == |large| - |small|;
  }

  /** Two live attempts where there were not two before come from a grant over a live one. */
  lemma TwoNeedGrant(settings: Settings, s: Ledger, now: Time, call: Call, r: Ref)
    requires ValidSettings(settings) && Linked(s.queue) && Counted(s)
    requires TwoLive(Step(settings, s, now, call).ledger.queue, r, now) && !TwoLive(s.queue, r, now)
    ensures GrantsOverLive(settings, s, now, call, r)
  {
    var q' := Step(settings, s, now, call).ledger.queue;
    var a, b :| a != b && IsLiveOf(q', r, a, now) && IsLiveOf(q', r, b, now);
    if a in s.queue.attempts { LiveBefore(settings, s, now, call, r, a); }
    if b in s.queue.attempts { LiveBefore(settings, s, now, call, r, b); }
    CallTally(settings, s, now, call, r);
    AttemptsKept(settings, s, now, call, r);
    assert a in AttemptsOf(q', r) && b in AttemptsOf(q', r);
    hide Step, Linked, Counted, Live, TwoLive;
    var added := ClaimsBy(Step(settings, s, now, call).reply, r);
    if b !in s.queue.attempts {
      OneMoreAtMost(AttemptsOf(s.queue, r), AttemptsOf(q', r), a, b, added);
    } else {
      assert a !in s.queue.attempts by { NotBoth(s.queue, r, a, b, now); }
      OneMoreAtMost(AttemptsOf(s.queue, r), AttemptsOf(q', r), b, a, added);
    }
  }

  lemma NotBoth(q: Queue, r: Ref, a: Ref, b: Ref, now: Time)
    requires !TwoLive(q, r, now) && a != b && IsLiveOf(q, r, b, now)
    ensures !IsLiveOf(q, r, a, now)
  {
  }

  // Runs

  ghost predicate TwoLiveAt(settings: Settings, events: seq<Event>, i: nat, r: Ref)
    requires i <= |events|
  {
    TwoLive(Run(settings, events[..i]).queue, r, Clock(events[..i]))
  }

  ghost predicate GrantedOverLiveAt(settings: Settings, events: seq<Event>, j: nat, r: Ref)
    requires j < |events|
  {
    GrantsOverLive(settings, Run(settings, events[..j]), events[j].now, events[j].call, r)
  }

  lemma TwoLiveEarlier(q: Queue, r: Ref, now: Time, later: Time)
    requires now <= later && TwoLive(q, r, later)
    ensures TwoLive(q, r, now)
  {
    var a, b :| a != b && IsLiveOf(q, r, a, later) && IsLiveOf(q, r, b, later);
    assert IsLiveOf(q, r, a, now) && IsLiveOf(q, r, b, now);
  }

  lemma NextPoint(settings: Settings, events: seq<Event>, j: nat)
    requires ValidSettings(settings) && j < |events|
    ensures Run(settings, events[..j + 1]) == Step(settings, Run(settings, events[..j]), events[j].now, events[j].call).ledger
    ensures Clock(events[..j + 1]) == events[j].now
    ensures Linked(Run(settings, events[..j]).queue) && Counted(Run(settings, events[..j]))
  {
    hide Step;
    assert events[..j + 1][..j] == events[..j];
    RunIsGood(settings, events[..j]);
    GoodLinks(settings, Run(settings, events[..j]));
  }

  lemma {:induction false} TwoComeFromGrant(settings: Settings, events: seq<Event>, i: nat, r: Ref) returns (j: nat)
    requires ValidSettings(settings) && InOrder(events) && i <= |events| && TwoLiveAt(settings, events, i, r)
    ensures j < |events| && GrantedOverLiveAt(settings, events, j, r)
    decreases i
  {
    hide Step, GrantsOverLive, Linked, Counted;
    j := 0;
    NoneLiveAtFirst(r);
    if i > 0 {
      NextPoint(settings, events, i - 1);
      var q := Run(settings, events[..i - 1]).queue;
      if TwoLive(q, r, events[i - 1].now) {
        TwoLiveEarlier(q, r, Clock(events[..i - 1]), events[i - 1].now);
        j := TwoComeFromGrant(settings, events, i - 1, r);
      } else {
        hide TwoLive;
        TwoNeedGrant(settings, Run(settings, events[..i - 1]), events[i - 1].now, events[i - 1].call, r);
        j := i - 1;
      }
    }
  }

  lemma NoneLiveAtFirst(r: Ref)
    ensures !TwoLive(EMPTY_LEDGER.queue, r, 0)
  {
  }

  /**
   * In any run, two attempts of a message are live at some point exactly when some claim of it is granted over a live
   * attempt.
   */
  lemma TwoLiveIff(settings: Settings, events: seq<Event>, r: Ref)
    requires ValidSettings(settings) && InOrder(events)
    ensures (exists i :: 0 <= i <= |events| && TwoLiveAt(settings, events, i, r))
            <==> exists j :: 0 <= j < |events| && GrantedOverLiveAt(settings, events, j, r)
  {
    hide Step, Run, TwoLive, GrantsOverLive, Linked, Counted;
    if i :| 0 <= i <= |events| && TwoLiveAt(settings, events, i, r) {
      var j := TwoComeFromGrant(settings, events, i, r);
    }
    if j :| 0 <= j < |events| && GrantedOverLiveAt(settings, events, j, r) {
      NextPoint(settings, events, j);
      GrantMakesTwo(settings, Run(settings, events[..j]), events[j].now, events[j].call, r);
      assert TwoLiveAt(settings, events, j + 1, r);
    }
  }
}
