// Exactly when a claim is granted, and what a claim that buries its message
// writes, in terms of the records' own fields.
module Admission {
  import opened Wrappers
  import opened Domain
  import opened Routing
  import opened QueueModel
  import opened Calls
  import opened Protocol
  import opened Links
  import opened Resume
  import opened Polling
  import opened Reachable
  import opened Runs
  import opened Grants
  import Refs

  // Who may take what

  /** The name is the wanted one, or "x.*" for a wanted "x.y". */
  ghost predicate NameCovers(name: string, target: string) {
    name == target || exists stem: string :: name == stem + ".*" && stem + "." <= target
  }

  ghost predicate Covers(capabilities: set<string>, target: string) {
    target != "" && exists name :: name in capabilities && NameCovers(name, target)
  }

  lemma WildcardIff(name: string, target: string)
    ensures WildcardCovers(name, target) <==> exists stem: string :: name == stem + ".*" && stem + "." <= target
  {
    if WildcardCovers(name, target) {
      var stem := name[..|name| - 2];
      assert name == stem + name[|name| - 2..];
      assert name[..|name| - 1] == stem + ".";
    }
    if stem: string :| name == stem + ".*" && stem + "." <= target {
      assert name[|name| - 2..] == ".*" && name[..|name| - 1] == stem + ".";
    }
  }

  lemma CoversIff(capabilities: set<string>, target: string)
    ensures CanHandle(capabilities, target) <==> Covers(capabilities, target)
  {
    forall name ensures WildcardCovers(name, target) <==> exists stem: string :: name == stem + ".*" && stem + "." <= target {
      WildcardIff(name, target);
    }
    hide WildcardCovers;
  }

  /** Registered, online, and heard of within the timeout. */
  predicate IsUp(settings: Settings, s: Ledger, e: Ref, now: Time) {
    e in s.endpoints && s.endpoints[e].connectionState == Online
    && now <= s.endpoints[e].lastHeartbeatAt + settings.heartbeatTimeout
  }

  ghost predicate CanServe(s: Ledger, e: Ref, target: string) {
    e in s.endpoints && Covers(s.endpoints[e].capabilities, target)
  }

  /** The message is for this endpoint or for any, and is not being kept for a preferred one that is up and able. */
  ghost predicate IsFor(settings: Settings, s: Ledger, now: Time, m: Message, e: Ref) {
    && (m.targetEndpointRef == "" || m.targetEndpointRef == e)
    && CanServe(s, e, m.targetCapability)
    && (m.preferredEndpointRef == "" || m.preferredEndpointRef == e
        || !(IsUp(settings, s, m.preferredEndpointRef, now) && CanServe(s, m.preferredEndpointRef, m.targetCapability)))
  }

  /** It is free, or lost by its worker with redeliveries left. */
  predicate IsFree(settings: Settings, q: Queue, m: Message, now: Time) {
    || m.state == MessageState.Available
    || (m.attemptRef in q.attempts && m.redeliveryCount < settings.maxRedelivery
        && (m.state == MessageState.TakeoverCandidate
            || ((m.state == MessageState.Claimed || m.state == MessageState.Processing)
                && now > q.attempts[m.attemptRef].leaseExpiresAt)))
  }

  predicate AllCompleted(q: Queue, refs: seq<Ref>) {
    forall d :: d in refs ==> d in q.messages && q.messages[d].state == MessageState.Completed
  }

  lemma AdmittedIff(settings: Settings, s: Ledger, now: Time, r: Ref, e: Ref)
    requires Linked(s.queue) && EndpointsNamed(s)
    ensures ClaimRefusal(settings, s, now, r, e).None? <==>
            IsUp(settings, s, e, now) && r in s.queue.messages && IsFor(settings, s, now, s.queue.messages[r], e)
            && AllCompleted(s.queue, s.queue.messages[r].dependsOn)
  {
    if e in s.endpoints && r in s.queue.messages {
      var m := s.queue.messages[r];
      CoversIff(s.endpoints[e].capabilities, m.targetCapability);
      if m.preferredEndpointRef in s.endpoints {
        CoversIff(s.endpoints[m.preferredEndpointRef].capabilities, m.targetCapability);
      }
      ReadyIff(s.queue, m);
      hide Linked, CanHandle, Covers, DependenciesCompleted, DependencyStates, AllCompleted;
    }
  }

  lemma ReadyIff(q: Queue, m: Message)
    requires "" !in m.dependsOn
    ensures DependenciesCompleted(m, DependencyStates(q, m)) <==> AllCompleted(q, m.dependsOn)
  {
  }

  lemma StoreGrantsIff(settings: Settings, q: Queue, c: ClaimRequest)
    requires c.messageRef in q.messages && c.maxRedelivery == settings.maxRedelivery
    ensures Claim(q, c).reply.Ok? <==> IsFree(settings, q, q.messages[c.messageRef], c.now)
  {
    hide Grant, Bury, Orphan, GrantReply, Latest;
  }

  /** A direct claim is granted exactly when the endpoint is up, the message is for it, waits on nothing and is free. */
  lemma GrantedIff(settings: Settings, s: Ledger, now: Time, r: Ref, e: Ref)
    requires Linked(s.queue) && EndpointsNamed(s)
    ensures ClaimMessage(settings, s, now, r, e).reply.Granted? <==>
            && IsUp(settings, s, e, now) && r in s.queue.messages && IsFor(settings, s, now, s.queue.messages[r], e)
            && AllCompleted(s.queue, s.queue.messages[r].dependsOn) && IsFree(settings, s.queue, s.queue.messages[r], now)
  {
    AdmittedIff(settings, s, now, r, e);
    var counted := ClaimCounted(s.queue);
    assert counted == s.queue.(sequences := counted.sequences);
    hide Claim, ClaimRefusal, IsFor, AllCompleted, IsUp, Linked, EndpointsNamed, ClaimCounted;
    if ClaimRefusal(settings, s, now, r, e).None? {
      StoreGrantsIff(settings, counted, ServiceClaim(settings, s.queue, now, r, s.endpoints[e]));
    }
  }

  // Dead letters

  /** The letter names the message, its last attempt and that attempt's last checkpoint, and the moment. */
  ghost predicate TellsOf(q: Queue, letter: DeadLetter, m: Message, now: Time) {
    var items := CheckpointsOf(q, m.attemptRef);
    && letter.messageRef == m.messageRef && letter.lastAttemptRef == m.attemptRef
    && letter.lastCheckpointRef == (if items == [] then "" else items[|items| - 1].checkpointRef)
    && letter.redeliveryCount == m.redeliveryCount && letter.createdAt == now
  }

  /** The claim writes no letter, or the one that tells of its message, which was lost with no redelivery left. */
  lemma StoreLetters(s: Ledger, c: ClaimRequest)
    requires Linked(s.queue) && Resumable(s)
    ensures var q, q' := s.queue, Claim(s.queue, c).queue;
            || q'.deadLetters == q.deadLetters
            || (c.messageRef in q.messages && c.deadLetterRef in q'.deadLetters
                && q'.deadLetters == q.deadLetters[c.deadLetterRef := q'.deadLetters[c.deadLetterRef]]
                && var m, letter := q.messages[c.messageRef], q'.deadLetters[c.deadLetterRef];
                   && letter.deadLetterRef == c.deadLetterRef && TellsOf(q, letter, m, c.now)
                   && Abandoned(q, c.messageRef, c.now) && m.redeliveryCount >= c.maxRedelivery
                   && c.messageRef in q'.messages && q'.messages[c.messageRef] == m.(state := MessageState.DeadLettered))
  {
    if c.messageRef in s.queue.messages {
      var m := s.queue.messages[c.messageRef];
      assert CurrentStored(s.queue, c.messageRef);
      LatestIsLast(s, m.attemptRef);
      if Abandoned(s.queue, c.messageRef, c.now) {
        ClaimOfAbandoned(s.queue, c);
        hide Claim, Linked, Resumable, CurrentStored, Latest;
      } else {
        hide Linked, Resumable, CurrentStored, Latest, Grant;
      }
    }
  }

  /** What a call may do to the dead letters of ledger `s`. */
  ghost predicate LettersLaw(settings: Settings, q: Queue, q': Queue, now: Time) {
    || q'.deadLetters == q.deadLetters
    || exists d, r ::
         && d !in q.deadLetters && d in q'.deadLetters && q'.deadLetters == q.deadLetters[d := q'.deadLetters[d]]
         && r in q.messages && r in q'.messages
         && q'.deadLetters[d].deadLetterRef == d && TellsOf(q, q'.deadLetters[d], q.messages[r], now)
         && Abandoned(q, r, now) && q.messages[r].redeliveryCount >= settings.maxRedelivery
         && q'.messages[r].state == MessageState.DeadLettered
  }

  lemma DirectLetters(settings: Settings, s: Ledger, now: Time, r: Ref, e: Ref)
    requires Linked(s.queue) && Counted(s) && Resumable(s)
    ensures LettersLaw(settings, s.queue, ClaimMessage(settings, s, now, r, e).ledger.queue, now)
  {
    if ClaimRefusal(settings, s, now, r, e).None? {
      var counted := s.(queue := ClaimCounted(s.queue));
      var c := ServiceClaim(settings, s.queue, now, r, s.endpoints[e]);
      CountedIsReady(s);
      NextIsFresh(s.queue, Refs.Kind.DeadLetter);
      assert counted.queue == s.queue.(sequences := counted.queue.sequences);
      hide Claim, Linked, Counted, ClaimRefusal, ClaimCounted, Resumable, Abandoned;
      StoreLetters(counted, c);
      SameTelling(s.queue, counted.queue, r, now);
    }
  }

  lemma SameTelling(q: Queue, q': Queue, r: Ref, now: Time)
    requires q' == q.(sequences := q'.sequences)
    ensures Abandoned(q', r, now) <==> Abandoned(q, r, now)
    ensures forall letter, m :: TellsOf(q', letter, m, now) <==> TellsOf(q, letter, m, now)
  {
  }

  lemma CountedIsReady(s: Ledger)
    requires Linked(s.queue) && Resumable(s)
    ensures Linked(ClaimCounted(s.queue)) && Resumable(s.(queue := ClaimCounted(s.queue)))
  {
    BumpKeepsLinked(s.queue, Refs.Kind.Attempt);
    BumpKeepsLinked(Bump(s.queue, Refs.Kind.Attempt), Refs.Kind.DeadLetter);
    hide Linked;
    var t := s.(queue := ClaimCounted(s.queue));
    forall a | a in t.queue.checkpoints ensures CheckpointsSound(t, a) { assert CheckpointsSound(s, a); }
    forall a | a in t.queue.attempts ensures RevisionSound(t.queue, a) { assert RevisionSound(s.queue, a); }
  }

  lemma LettersBeforeSweep(settings: Settings, q: Queue, q': Queue, now: Time)
    requires Linked(q) && LettersLaw(settings, Reconcile(q, now), q', now)
    ensures LettersLaw(settings, q, q', now)
  {
    var swept := Reconcile(q, now);
    assert swept.deadLetters == q.deadLetters && swept.checkpoints == q.checkpoints;
    if q'.deadLetters != q.deadLetters {
      var d, r :|
        && d !in swept.deadLetters && d in q'.deadLetters && q'.deadLetters == swept.deadLetters[d := q'.deadLetters[d]]
        && r in swept.messages && r in q'.messages
        && q'.deadLetters[d].deadLetterRef == d && TellsOf(swept, q'.deadLetters[d], swept.messages[r], now)
        && Abandoned(swept, r, now) && swept.messages[r].redeliveryCount >= settings.maxRedelivery
        && q'.messages[r].state == MessageState.DeadLettered;
      AbandonedBeforeSweep(q, r, now);
      SweptTells(q, now, r, q'.deadLetters[d]);
    }
  }

  lemma SweptTells(q: Queue, now: Time, r: Ref, letter: DeadLetter)
    requires r in q.messages
    ensures r in Reconcile(q, now).messages
    ensures TellsOf(Reconcile(q, now), letter, Reconcile(q, now).messages[r], now) <==> TellsOf(q, letter, q.messages[r], now)
    ensures Reconcile(q, now).messages[r].redeliveryCount == q.messages[r].redeliveryCount
  {
  }

  lemma PolledLetters(settings: Settings, s: Ledger, now: Time, e: Ref)
    requires ValidSettings(settings) && Good(settings, s)
    ensures LettersLaw(settings, s.queue, ClaimNextMessage(settings, s, now, e).ledger.queue, now)
  {
    hide Calls.ClaimMessage, Linked, Counted, Resumable, Reconcile, ClaimNext, PollPick, LettersLaw, Good;
    var swept := ReconcileExpiredClaims(s, now).ledger;
    SweepKeepsGood(settings, s, now);
    GoodForLetters(settings, s);
    GoodForLetters(settings, swept);
    SameLetters(settings, swept.queue, now);
    if PollRefusal(settings, s, now, e).None? {
      PollIsDirectClaim(settings, s, now, e);
      hide Calls.ClaimNextMessage;
      if PollPick(settings, swept, now, e).Some? {
        DirectLetters(settings, swept, now, PollPick(settings, swept, now, e).value, e);
      }
      LettersBeforeSweep(settings, s.queue, ClaimNextMessage(settings, s, now, e).ledger.queue, now);
    } else {
      SameLetters(settings, s.queue, now);
    }
  }

  lemma SameLetters(settings: Settings, q: Queue, now: Time)
    ensures LettersLaw(settings, q, q, now)
  {
  }

  lemma GoodForLetters(settings: Settings, s: Ledger)
    requires Good(settings, s)
    ensures Linked(s.queue) && Counted(s) && Resumable(s)
  {
  }

  lemma {:induction false} PostsWriteNoLetter(s: Ledger, reqs: seq<IngressRequest>)
    ensures PostAll(s, reqs).ledger.queue.deadLetters == s.queue.deadLetters
    decreases |reqs|
  {
    if reqs != [] {
      IngressWritesNoLetter(s, reqs[0]);
      hide Ingress;
      if Ingress(s, reqs[0]).reply.Posted? { PostsWriteNoLetter(Ingress(s, reqs[0]).ledger, reqs[1..]); }
    }
  }

  lemma IngressWritesNoLetter(s: Ledger, req: IngressRequest)
    ensures Ingress(s, req).ledger.queue.deadLetters == s.queue.deadLetters
  {
    assert IngressCounted(s.queue, req).deadLetters == s.queue.deadLetters;
    hide ValidIngress, RouteAvailable, NewMessage, IngressCounted;
  }

  lemma CompletionWritesNoLetter(s: Ledger, now: Time, a: Ref, req: CompletionRequest)
    ensures CompleteAttempt(s, now, a, req).ledger.queue.deadLetters == s.queue.deadLetters
  {
    hide PostAll;
    var turn := SubmitCheckpoint(s, now, a, CompletionCheckpoint(req));
    if req.endpointRef != "" && req.summary != "" && !turn.reply.Refused? {
      var parent := turn.ledger.queue.messages[s.queue.attempts[a].messageRef];
      PostsWriteNoLetter(turn.ledger, FollowUps(req.followUps, req.endpointRef, parent));
    }
  }

  lemma ReplayWritesNoLetter(s: Ledger, d: Ref, accepted: bool)
    ensures ReplayDeadLetter(s, d, accepted).ledger.queue.deadLetters == s.queue.deadLetters
  {
    hide Ingress;
    if d != "" && d in s.queue.deadLetters && s.queue.deadLetters[d].messageRef in s.queue.messages {
      IngressWritesNoLetter(s, ReplayRequest(s.queue.messages[s.queue.deadLetters[d].messageRef], accepted));
    }
  }

  lemma OthersWriteNoLetter(settings: Settings, s: Ledger, now: Time, call: Call)
    requires !call.ClaimCall? && !call.ClaimNextCall?
    ensures Step(settings, s, now, call).ledger.queue.deadLetters == s.queue.deadLetters
  {
    hide CompleteAttempt, Ingress, ReplayDeadLetter, CheckpointRefusal, EffectRefusal, ArtifactRefusal,
      ApprovalRefusal, Calls.ClaimMessage, Calls.ClaimNextMessage;
    match call
    case CompleteCall(a, req) => CompletionWritesNoLetter(s, now, a, req);
    case IngressCall(req) => IngressWritesNoLetter(s, req);
    case ReplayCall(d, accepted) => ReplayWritesNoLetter(s, d, accepted);
    case _ =>
  }

  lemma CallLetters(settings: Settings, s: Ledger, now: Time, call: Call)
    requires ValidSettings(settings) && Good(settings, s)
    ensures LettersLaw(settings, s.queue, Step(settings, s, now, call).ledger.queue, now)
    ensures !call.ClaimCall? && !call.ClaimNextCall? ==>
              Step(settings, s, now, call).ledger.queue.deadLetters == s.queue.deadLetters
  {
    hide Calls.ClaimMessage, Calls.ClaimNextMessage, Good, LettersLaw;
    if call.ClaimCall? {
      GoodForLetters(settings, s);
      hide Linked, Counted, Resumable;
      DirectLetters(settings, s, now, call.messageRef, call.endpointRef);
    } else if call.ClaimNextCall? {
      PolledLetters(settings, s, now, call.endpointRef);
    } else {
      OthersWriteNoLetter(settings, s, now, call);
      hide Step;
      LettersKept(settings, s.queue, Step(settings, s, now, call).ledger.queue, now);
    }
  }

  lemma LettersKept(settings: Settings, q: Queue, q': Queue, now: Time)
    requires q'.deadLetters == q.deadLetters
    ensures LettersLaw(settings, q, q', now)
  {
  }

  /** Letter `d` was written by call `j`, a claim that met its message lost and out of redeliveries. */
  ghost predicate WrittenAt(settings: Settings, events: seq<Event>, j: nat, d: Ref, letter: DeadLetter)
    requires j < |events|
  {
    var q, call := Run(settings, events[..j]).queue, events[j].call;
    && (call.ClaimCall? || call.ClaimNextCall?) && d !in q.deadLetters
    && letter.messageRef in q.messages && TellsOf(q, letter, q.messages[letter.messageRef], events[j].now)
    && Abandoned(q, letter.messageRef, events[j].now)
    && q.messages[letter.messageRef].redeliveryCount == settings.maxRedelivery
  }

  /**
   * In every run each dead letter tells truly, of the claim that wrote it, the message, its last attempt and that
   * attempt's last checkpoint.
   */
  lemma {:induction false} DeadLettersTell(settings: Settings, events: seq<Event>, d: Ref) returns (j: nat)
    requires ValidSettings(settings) && d in Run(settings, events).queue.deadLetters
    ensures j < |events| && WrittenAt(settings, events, j, d, Run(settings, events).queue.deadLetters[d])
    decreases |events|
  {
    hide Step, Good, TellsOf, Abandoned;
    assert events != [];
    var n := |events| - 1;
    var before := events[..n];
    var q, q', now := Run(settings, before).queue, Run(settings, events).queue, events[n].now;
    RunIsGood(settings, before);
    CallLetters(settings, Run(settings, before), now, events[n].call);
    if d in q.deadLetters && q'.deadLetters[d] == q.deadLetters[d] {
      j := DeadLettersTell(settings, before, d);
      assert before[..j] == events[..j];
    } else {
      j := n;
      GoodBudget(settings, Run(settings, before));
      LetterNamesMessage(settings, q, q', now, d);
    }
  }

  lemma GoodBudget(settings: Settings, s: Ledger)
    requires Good(settings, s)
    ensures Keyed(s.queue) && forall r :: r in s.queue.messages ==>
            s.queue.messages[r].redeliveryCount <= settings.maxRedelivery
  {
  }

  lemma LetterNamesMessage(settings: Settings, q: Queue, q': Queue, now: Time, d: Ref)
    requires LettersLaw(settings, q, q', now) && Keyed(q) && d in q'.deadLetters
    requires !(d in q.deadLetters && q'.deadLetters[d] == q.deadLetters[d])
    ensures d !in q.deadLetters
    ensures var letter := q'.deadLetters[d];
            && letter.messageRef in q.messages && TellsOf(q, letter, q.messages[letter.messageRef], now)
            && Abandoned(q, letter.messageRef, now) && q.messages[letter.messageRef].redeliveryCount >= settings.maxRedelivery
  {
  }
}
