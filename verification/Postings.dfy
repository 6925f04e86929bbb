// What a posted message says, in terms of the request that asked for it:
// directly, as the follow-up of a completion, or as the replay of a dead letter.
module Postings {
  import opened Wrappers
  import opened Domain
  import opened Routing
  import opened QueueModel
  import opened Calls
  import opened Protocol
  import opened Links
  import opened Dependencies
  import opened Paths
  import opened Polling
  import opened Reachable
  import opened Runs
  import opened Grants
  import opened Admission
  import Refs

  /** What a message is asked to say. */
  datatype Asked = Asked(
    sender: Ref, capability: string, target: Ref, preferred: Ref, dependsOn: seq<Ref>,
    payload: string, task: Ref, readbackRequired: bool)

  predicate Says(m: Message, asked: Asked) {
    && m.senderEndpointRef == asked.sender && m.targetCapability == asked.capability
    && m.targetEndpointRef == asked.target && m.preferredEndpointRef == asked.preferred
    && m.dependsOn == asked.dependsOn && m.payload == asked.payload
    && m.correlationRef == asked.task && m.readbackRequired == asked.readbackRequired
  }

  predicate IsNew(m: Message) {
    m.state == MessageState.Available && m.attemptRef == "" && m.redeliveryCount == 0
  }

  function AskedDirectly(req: IngressRequest): Asked {
    Asked(req.senderEndpointRef, req.targetCapability, req.targetEndpointRef, req.preferredEndpointRef, req.dependsOn,
          req.payload, req.correlationRef, req.readbackRequired)
  }

  /**
   * A follow-up is sent by the completing endpoint, in the parent's task, and waits for the parent unless it names
   * others.
   */
  function AskedAfter(req: IngressRequest, sender: Ref, parent: Ref, task: Ref): Asked {
    Asked(sender, req.targetCapability, req.targetEndpointRef, req.preferredEndpointRef,
          if req.dependsOn == [] then [parent] else req.dependsOn, req.payload, task, req.readbackRequired)
  }

  /** A replay asks again for what the buried message said. */
  function AskedAgain(m: Message): Asked {
    Asked(m.senderEndpointRef, m.targetCapability, m.targetEndpointRef, m.preferredEndpointRef, m.dependsOn,
          m.payload, m.correlationRef, m.readbackRequired)
  }

  // One posting

  /** Some registered endpoint, or the one named, can do the work. */
  ghost predicate HasTaker(s: Ledger, req: IngressRequest) {
    if req.targetEndpointRef != "" then CanServe(s, req.targetEndpointRef, req.targetCapability)
    else exists e :: CanServe(s, e, req.targetCapability)
  }

  lemma RoutedIff(s: Ledger, req: IngressRequest)
    ensures RouteAvailable(s, req) <==> HasTaker(s, req)
  {
    forall e | e in s.endpoints
      ensures CanHandle(s.endpoints[e].capabilities, req.targetCapability) <==> CanServe(s, e, req.targetCapability)
    {
      CoversIff(s.endpoints[e].capabilities, req.targetCapability);
    }
    hide CanHandle, Covers;
  }

  /** The ref the message gets: the one it asks for, or the next of its kind. */
  function GivenRef(q: Queue, req: IngressRequest): Ref {
    if req.messageRef != "" then req.messageRef else Refs.AllocRef(Refs.Kind.Message, Counter(q, Refs.Kind.Message) + 1)
  }

  /** The message is the only record that changes. */
  predicate OnlyMessagesChange(q: Queue, q': Queue) {
    q'.attempts == q.attempts && q'.checkpoints == q.checkpoints && q'.deadLetters == q.deadLetters
  }

  /**
   * An accepted posting stores one message, under the ref it answers, that says what was asked; a refused one stores
   * none.
   */
  lemma IngressStores(s: Ledger, req: IngressRequest)
    ensures var turn := Ingress(s, req);
            var q, q' := s.queue, turn.ledger.queue;
            && turn.ledger == s.(queue := q') && OnlyMessagesChange(q, q') && (turn.reply.Posted? || turn.reply.Refused?)
            && (turn.reply.Refused? ==> q'.messages == q.messages)
            && (turn.reply.Posted? ==>
                  var r := turn.reply.messageRef;
                  && r == GivenRef(q, req) && r !in q.messages && r in q'.messages
                  && q'.messages == q.messages[r := q'.messages[r]]
                  && q'.messages[r].messageRef == r && q'.messages[r].deliveryRef == turn.reply.deliveryRef
                  && turn.reply.deliveryRef == Refs.AllocRef(Refs.Kind.Delivery, Counter(q, Refs.Kind.Delivery) + 1)
                  && IsNew(q'.messages[r]) && Says(q'.messages[r], AskedDirectly(req)))
  {
    assert IngressCounted(s.queue, req) == s.queue.(sequences := IngressCounted(s.queue, req).sequences);
    NewMessageSays(s.queue, req);
    hide ValidIngress, RouteAvailable, IngressCounted, NewMessage, Says, IsNew, AskedDirectly;
  }

  lemma NewMessageSays(q: Queue, req: IngressRequest)
    ensures var m := NewMessage(q, req);
            && m.messageRef == GivenRef(q, req) && IsNew(m) && Says(m, AskedDirectly(req))
            && m.deliveryRef == Refs.AllocRef(Refs.Kind.Delivery, Counter(q, Refs.Kind.Delivery) + 1)
  {
  }

  /**
   * A posting is accepted exactly when it is valid, someone can take it, it passes the quality gate and its ref is
   * free.
   */
  lemma PostedIff(s: Ledger, req: IngressRequest)
    ensures Ingress(s, req).reply.Posted? <==>
            && req.senderEndpointRef != "" && req.targetCapability != "" && req.complete && "" !in req.dependsOn
            && HasTaker(s, req) && req.qualityAccepted && GivenRef(s.queue, req) !in s.queue.messages
  {
    RoutedIff(s, req);
    assert IngressCounted(s.queue, req).messages == s.queue.messages;
    hide RouteAvailable, HasTaker, IngressCounted;
  }

  // Several postings

  /** Message `r` is new since `q` and says what one of the requests asks. */
  ghost predicate AskedByOneOf(q: Queue, q': Queue, reqs: seq<IngressRequest>, r: Ref)
    requires r in q'.messages
  {
    exists i :: 0 <= i < |reqs| && Says(q'.messages[r], AskedDirectly(reqs[i]))
  }

  /** Each answered ref is a message that says what the request of its place asks. */
  ghost predicate AnsweredInOrder(q: Queue, q': Queue, reqs: seq<IngressRequest>, refs: seq<Ref>) {
    |refs| == |reqs| && forall i :: 0 <= i < |refs| ==>
      refs[i] !in q.messages && refs[i] in q'.messages && Says(q'.messages[refs[i]], AskedDirectly(reqs[i]))
  }

  lemma {:induction false} PostsStore(s: Ledger, reqs: seq<IngressRequest>)
    ensures var turn := PostAll(s, reqs);
            var q, q' := s.queue, turn.ledger.queue;
            && turn.ledger == s.(queue := q') && OnlyMessagesChange(q, q')
            && (forall r :: r in q.messages ==> r in q'.messages && q'.messages[r] == q.messages[r])
            && (forall r :: r in q'.messages && r !in q.messages ==>
                  IsNew(q'.messages[r]) && q'.messages[r].messageRef == r && AskedByOneOf(q, q', reqs, r))
            && (turn.reply.Ok? ==> AnsweredInOrder(q, q', reqs, turn.reply.value))
    decreases |reqs|
  {
    if reqs != [] {
      IngressStores(s, reqs[0]);
      hide Ingress, Says, IsNew;
      var first := Ingress(s, reqs[0]);
      if first.reply.Posted? {
        PostsStore(first.ledger, reqs[1..]);
        PostsChain(s.queue, first.ledger.queue, PostAll(s, reqs).ledger.queue, reqs, first.reply.messageRef);
        var rest := PostAll(first.ledger, reqs[1..]);
        if rest.reply.Ok? {
          AnswersChain(s.queue, first.ledger.queue, rest.ledger.queue, reqs, first.reply.messageRef, rest.reply.value);
        }
      }
    }
  }

  lemma PostsChain(q: Queue, q1: Queue, q': Queue, reqs: seq<IngressRequest>, first: Ref)
    requires reqs != [] && first in q1.messages && q1.messages == q.messages[first := q1.messages[first]]
    requires Says(q1.messages[first], AskedDirectly(reqs[0])) && first in q'.messages
            && q'.messages[first] == q1.messages[first]
    requires forall r :: r in q'.messages && r !in q1.messages ==> AskedByOneOf(q1, q', reqs[1..], r)
    ensures forall r :: r in q'.messages && r !in q.messages ==> AskedByOneOf(q, q', reqs, r)
  {
    hide Says;
    forall r | r in q'.messages && r !in q.messages ensures AskedByOneOf(q, q', reqs, r) {
      if r == first {
        assert Says(q'.messages[r], AskedDirectly(reqs[0]));
      } else {
        var i :| 0 <= i < |reqs[1..]| && Says(q'.messages[r], AskedDirectly(reqs[1..][i]));
        assert reqs[1..][i] == reqs[i + 1];
      }
    }
  }

  lemma AnswersChain(q: Queue, q1: Queue, q': Queue, reqs: seq<IngressRequest>, first: Ref, rest: seq<Ref>)
    requires reqs != [] && first !in q.messages && first in q1.messages
            && q1.messages == q.messages[first := q1.messages[first]]
    requires Says(q1.messages[first], AskedDirectly(reqs[0])) && first in q'.messages
            && q'.messages[first] == q1.messages[first]
    requires AnsweredInOrder(q1, q', reqs[1..], rest)
    ensures AnsweredInOrder(q, q', reqs, [first] + rest)
  {
    hide Says;
    var refs := [first] + rest;
    forall i | 0 <= i < |refs|
      ensures refs[i] !in q.messages && refs[i] in q'.messages && Says(q'.messages[refs[i]], AskedDirectly(reqs[i]))
    {
      if i > 0 { assert refs[i] == rest[i - 1] && reqs[1..][i - 1] == reqs[i]; }
    }
  }

  // Completions and replays

  /** The completion's checkpoint is let through. */
  predicate Completes(s: Ledger, now: Time, a: Ref, req: CompletionRequest) {
    req.endpointRef != "" && req.summary != "" && CheckpointRefusal(s, now, a, CompletionCheckpoint(req)).None?
  }

  /** Message `r` says what one of the completion's follow-ups asks. */
  ghost predicate AskedByFollowUp(q: Queue, m: Message, a: Ref, req: CompletionRequest) {
    && a in q.attempts && q.attempts[a].messageRef in q.messages
    && exists i :: 0 <= i < |req.followUps| &&
         Says(m, AskedAfter(req.followUps[i], req.endpointRef, q.attempts[a].messageRef,
                            q.messages[q.attempts[a].messageRef].correlationRef))
  }

  lemma ReportKeepsMessages(s: Ledger, now: Time, a: Ref, req: CheckpointRequest)
    requires Linked(s.queue)
    ensures var q, q' := s.queue, SubmitCheckpoint(s, now, a, req).ledger.queue;
            && q'.messages.Keys == q.messages.Keys
            && (forall r :: r in q.messages ==> Terms(q'.messages[r]) == Terms(q.messages[r]))
            && q'.attempts.Keys == q.attempts.Keys
            && (CheckpointRefusal(s, now, a, req).None? ==>
                  a in q.attempts && q.attempts[a].messageRef in q.messages
                  && !SubmitCheckpoint(s, now, a, req).reply.Refused?)
            && (CheckpointRefusal(s, now, a, req).Some? ==> SubmitCheckpoint(s, now, a, req).reply.Refused? && q' == q)
  {
    hide ArtifactsOfMessage, ValidCheckpoint, CheckpointsOf, StateAfterCheckpoint;
  }

  lemma FollowUpAsks(req: CompletionRequest, parent: Message, i: nat)
    requires i < |req.followUps|
    ensures AskedDirectly(FollowUps(req.followUps, req.endpointRef, parent)[i])
            == AskedAfter(req.followUps[i], req.endpointRef, parent.messageRef, parent.correlationRef)
  {
  }

  /** Posting the follow-ups of `parent`, in terms of what they ask after it. */
  lemma FollowUpsStore(s: Ledger, req: CompletionRequest, parent: Message)
    ensures var turn := PostAll(s, FollowUps(req.followUps, req.endpointRef, parent));
            var q, q' := s.queue, turn.ledger.queue;
            && (forall r :: r in q.messages ==> r in q'.messages && q'.messages[r] == q.messages[r])
            && (forall r :: r in q'.messages && r !in q.messages ==>
                  IsNew(q'.messages[r]) && q'.messages[r].messageRef == r
                  && exists i :: 0 <= i < |req.followUps| &&
                       Says(q'.messages[r], AskedAfter(req.followUps[i], req.endpointRef, parent.messageRef, parent.correlationRef)))
            && (turn.reply.Ok? ==>
                  && |turn.reply.value| == |req.followUps|
                  && forall i :: 0 <= i < |req.followUps| ==>
                       && turn.reply.value[i] !in q.messages && turn.reply.value[i] in q'.messages
                       && Says(q'.messages[turn.reply.value[i]],
                               AskedAfter(req.followUps[i], req.endpointRef, parent.messageRef, parent.correlationRef)))
  {
    var reqs := FollowUps(req.followUps, req.endpointRef, parent);
    PostsStore(s, reqs);
    FollowUpCount(req, parent);
    forall i | 0 <= i < |req.followUps|
      ensures AskedDirectly(reqs[i]) == AskedAfter(req.followUps[i], req.endpointRef, parent.messageRef, parent.correlationRef)
    {
      FollowUpAsks(req, parent, i);
    }
    hide PostAll, FollowUps, Says, IsNew, AskedDirectly, AskedAfter;
    var q, q' := s.queue, PostAll(s, reqs).ledger.queue;
    forall r | r in q'.messages && r !in q.messages
      ensures exists i :: 0 <= i < |req.followUps| &&
                Says(q'.messages[r], AskedAfter(req.followUps[i], req.endpointRef, parent.messageRef, parent.correlationRef))
    {
      assert AskedByOneOf(q, q', reqs, r);
    }
  }

  /**
   * The follow-ups of a completion say what they were asked, in the parent's task and after it; all of them, when it
   * finishes.
   */
  lemma CompletionPosts(s: Ledger, now: Time, a: Ref, req: CompletionRequest)
    requires Linked(s.queue)
    ensures var turn := CompleteAttempt(s, now, a, req);
            var q, q' := s.queue, turn.ledger.queue;
            && q.messages.Keys <= q'.messages.Keys
            && (forall r :: r in q'.messages && r !in q.messages ==>
                  IsNew(q'.messages[r]) && q'.messages[r].messageRef == r && AskedByFollowUp(q, q'.messages[r], a, req))
            && (turn.reply.Finished? ==>
                  && a in q.attempts && q.attempts[a].messageRef in q.messages && |turn.reply.followUps| == |req.followUps|
                  && forall i :: 0 <= i < |req.followUps| ==>
                       && turn.reply.followUps[i] !in q.messages && turn.reply.followUps[i] in q'.messages
                       && Says(q'.messages[turn.reply.followUps[i]],
                               AskedAfter(req.followUps[i], req.endpointRef, q.attempts[a].messageRef,
                                          q.messages[q.attempts[a].messageRef].correlationRef)))
  {
    ReportKeepsMessages(s, now, a, CompletionCheckpoint(req));
    var turn := SubmitCheckpoint(s, now, a, CompletionCheckpoint(req));
    hide SubmitCheckpoint, PostAll, FollowUps, Says, IsNew, Linked, CheckpointRefusal, AskedAfter;
    if Completes(s, now, a, req) {
      var r := s.queue.attempts[a].messageRef;
      var parent := turn.ledger.queue.messages[r];
      ParentTerms(s.queue, turn.ledger.queue, r);
      FollowUpsStore(turn.ledger, req, parent);
    }
  }

  lemma FollowUpCount(req: CompletionRequest, parent: Message)
    ensures |FollowUps(req.followUps, req.endpointRef, parent)| == |req.followUps|
  {
  }

  lemma ParentTerms(q: Queue, q': Queue, r: Ref)
    requires Linked(q) && r in q.messages && r in q'.messages && Terms(q'.messages[r]) == Terms(q.messages[r])
    ensures q'.messages[r].messageRef == r && q'.messages[r].correlationRef == q.messages[r].correlationRef
  {
    TermsInclude(q'.messages[r], q.messages[r]);
  }

  /** A replay stores a new message that says what the buried one said. */
  lemma ReplayStores(s: Ledger, d: Ref, accepted: bool)
    ensures var turn := ReplayDeadLetter(s, d, accepted);
            var q, q' := s.queue, turn.ledger.queue;
            && (turn.reply.Refused? ==> q'.messages == q.messages) && (turn.reply.Posted? || turn.reply.Refused?)
            && (turn.reply.Posted? ==>
                  var r := turn.reply.messageRef;
                  && d in q.deadLetters && q.deadLetters[d].messageRef in q.messages
                  && r !in q.messages && r in q'.messages && q'.messages == q.messages[r := q'.messages[r]]
                  && IsNew(q'.messages[r]) && q'.messages[r].messageRef == r
                  && Says(q'.messages[r], AskedAgain(q.messages[q.deadLetters[d].messageRef])))
  {
    hide Ingress, IsNew;
    if d != "" && d in s.queue.deadLetters && s.queue.deadLetters[d].messageRef in s.queue.messages {
      IngressStores(s, ReplayRequest(s.queue.messages[s.queue.deadLetters[d].messageRef], accepted));
    }
  }

  // Any call

  /** The call asked for a message that says this. */
  ghost predicate PostedBy(q: Queue, call: Call, m: Message) {
    match call
    case IngressCall(req) => Says(m, AskedDirectly(req))
    case CompleteCall(a, req) => AskedByFollowUp(q, m, a, req)
    case ReplayCall(d, _) =>
      && d in q.deadLetters && q.deadLetters[d].messageRef in q.messages
      && Says(m, AskedAgain(q.messages[q.deadLetters[d].messageRef]))
    case _ => false
  }

  predicate Posts(call: Call) {
    call.IngressCall? || call.CompleteCall? || call.ReplayCall?
  }

  lemma StoreClaimPostsNothing(q: Queue, c: ClaimRequest)
    requires Keyed(q)
    ensures Claim(q, c).queue.messages.Keys == q.messages.Keys
  {
    hide GrantReply, Latest, NewAttempt;
  }

  lemma GrantPostsNothing(q: Queue, m: Message, c: ClaimRequest)
    requires m.messageRef in q.messages
    ensures Grant(q, m, c).messages.Keys == q.messages.Keys
  {
  }

  lemma BuryPostsNothing(q: Queue, m: Message, a: Attempt, c: ClaimRequest)
    requires m.messageRef in q.messages
    ensures Bury(q, m, a, c).messages.Keys == q.messages.Keys
  {
  }

  lemma PickedPostsNothing(q: Queue, r: Ref, c: ClaimNextRequest)
    requires Keyed(q) && r in q.messages
    ensures ClaimEligible(q, r, c).queue.messages.Keys == q.messages.Keys
  {
    var d, q1 := DirectRequest(q, r, c), WithRefs(q, c);
    assert q1.messages == q.messages && q1.attempts == q.attempts && q.messages[r].messageRef == r;
    hide Grant, Bury, Keyed, WithRefs, DirectRequest;
    GrantPostsNothing(q1, q.messages[r], d);
    GrantPostsNothing(q1, Redelivered(q.messages[r]), d);
    if q.messages[r].attemptRef in q.attempts { BuryPostsNothing(q1, q.messages[r], q.attempts[q.messages[r].attemptRef], d); }
  }

  lemma PollPostsNothing(settings: Settings, s: Ledger, now: Time, e: Ref)
    requires Linked(s.queue)
    ensures ClaimNextMessage(settings, s, now, e).ledger.queue.messages.Keys == s.queue.messages.Keys
  {
    SweepKeepsLinked(s.queue, now);
    assert Reconcile(s.queue, now).messages.Keys == s.queue.messages.Keys;
    if PollRefusal(settings, s, now, e).None? {
      var swept, c := Reconcile(s.queue, now), PollRequest(settings, s, now, s.endpoints[e]);
      assert Keyed(swept);
      hide Reconcile, Linked, Keyed, ClaimEligible, NextEligible;
      NextEligibleIsEligible(swept, c);
      if NextEligible(swept, c).Some? { PickedPostsNothing(swept, NextEligible(swept, c).value, c); }
    }
  }

  lemma DirectPostsNothing(settings: Settings, s: Ledger, now: Time, r: Ref, e: Ref)
    requires Linked(s.queue)
    ensures ClaimMessage(settings, s, now, r, e).ledger.queue.messages.Keys == s.queue.messages.Keys
  {
    assert ClaimCounted(s.queue) == s.queue.(sequences := ClaimCounted(s.queue).sequences);
    hide Claim, ClaimRefusal, ClaimCounted;
    if ClaimRefusal(settings, s, now, r, e).None? {
      StoreClaimPostsNothing(ClaimCounted(s.queue), ServiceClaim(settings, s.queue, now, r, s.endpoints[e]));
    }
  }

  lemma OthersPostNothing(settings: Settings, s: Ledger, now: Time, call: Call)
    requires Linked(s.queue) && !Posts(call)
    ensures Step(settings, s, now, call).ledger.queue.messages.Keys == s.queue.messages.Keys
  {
    hide Linked, Calls.ClaimMessage, Calls.ClaimNextMessage, SubmitCheckpoint, OpenAttempts, CurrentAttempts,
      EffectRefusal, ArtifactRefusal, ApprovalRefusal;
    match call
    case ClaimCall(r, e) => DirectPostsNothing(settings, s, now, r, e);
    case ClaimNextCall(e) => PollPostsNothing(settings, s, now, e);
    case CheckpointCall(a, req) => ReportKeepsMessages(s, now, a, req);
    case _ =>
  }

  /** A message appears only through a call that asked for what it says, and appears new. */
  lemma NewMessageIsAsked(settings: Settings, s: Ledger, now: Time, call: Call, r: Ref)
    requires Linked(s.queue) && r !in s.queue.messages && r in Step(settings, s, now, call).ledger.queue.messages
    ensures var m := Step(settings, s, now, call).ledger.queue.messages[r];
            PostedBy(s.queue, call, m) && IsNew(m) && m.messageRef == r
  {
    hide Linked, Ingress, CompleteAttempt, ReplayDeadLetter, Says, IsNew;
    match call
    case IngressCall(req) => IngressStores(s, req);
    case CompleteCall(a, req) => CompletionPosts(s, now, a, req);
    case ReplayCall(d, accepted) => ReplayStores(s, d, accepted);
    case _ => OthersPostNothing(settings, s, now, call);
  }

  // Runs

  lemma SaysByTerms(m: Message, n: Message, asked: Asked)
    requires Terms(m) == Terms(n)
    ensures Says(m, asked) <==> Says(n, asked)
  {
    assert Says(m, asked) <==> Says(Terms(m), asked);
    assert Says(n, asked) <==> Says(Terms(n), asked);
  }

  lemma PostedByTerms(q: Queue, call: Call, m: Message, n: Message)
    requires Terms(m) == Terms(n) && PostedBy(q, call, m)
    ensures PostedBy(q, call, n)
  {
    hide Says;
    forall asked ensures Says(m, asked) <==> Says(n, asked) { SaysByTerms(m, n, asked); }
  }

  /** Call `j` of the run brought message `r`, and asked for what `m` says. */
  ghost predicate BroughtAt(settings: Settings, events: seq<Event>, j: nat, r: Ref, m: Message)
    requires j < |events|
  {
    && r !in Run(settings, events[..j]).queue.messages && r in Run(settings, events[..j + 1]).queue.messages
    && PostedBy(Run(settings, events[..j]).queue, events[j].call, m)
  }

  /** In every run each message still says what the call that brought it asked for. */
  lemma {:induction false} MessagesAreAsked(settings: Settings, events: seq<Event>, r: Ref) returns (j: nat)
    requires ValidSettings(settings) && r in Run(settings, events).queue.messages
    ensures j < |events| && BroughtAt(settings, events, j, r, Run(settings, events).queue.messages[r])
    decreases |events|
  {
    hide Step, Good, PostedBy;
    assert events != [];
    var n := |events| - 1;
    var before := events[..n];
    var s := Run(settings, before);
    RunIsGood(settings, before);
    GoodLinks(settings, s);
    assert events[..n + 1] == events;
    if r in s.queue.messages {
      j := MessagesAreAsked(settings, before, r);
      assert before[..j] == events[..j] && before[..j + 1] == events[..j + 1];
      CallEvolves(settings, s, events[n].now, events[n].call);
      assert MessageEvolves(s.queue, Run(settings, events).queue, r);
      PostedByTerms(Run(settings, events[..j]).queue, events[j].call,
                    s.queue.messages[r], Run(settings, events).queue.messages[r]);
    } else {
      j := n;
      NewMessageIsAsked(settings, s, events[n].now, events[n].call, r);
    }
  }

  /** What a message said at any point it says to the end. */
  lemma TermsForEver(settings: Settings, events: seq<Event>, j: nat, r: Ref)
    requires ValidSettings(settings) && InOrder(events) && j <= |events| && r in Run(settings, events[..j]).queue.messages
    ensures r in Run(settings, events).queue.messages
    ensures Terms(Run(settings, events).queue.messages[r]) == Terms(Run(settings, events[..j]).queue.messages[r])
  {
    hide Step, Run;
    RunEvolves(settings, events, j);
    assert MessageEvolves(Run(settings, events[..j]).queue, Run(settings, events).queue, r);
  }

  /**
   * In every run, each dependency that an accepted request named was claimed before any attempt of the message it
   * posted.
   */
  lemma RequestedDependenciesFirst(settings: Settings, events: seq<Event>, j: nat, req: IngressRequest, a: Ref, d: Ref)
    requires ValidSettings(settings) && InOrder(events) && j < |events| && events[j].call == IngressCall(req)
    requires LastReply(settings, events[..j + 1]).Posted? && d in req.dependsOn
    requires a in Run(settings, events).queue.attempts
    requires Run(settings, events).queue.attempts[a].messageRef == LastReply(settings, events[..j + 1]).messageRef
    ensures ClaimedBefore(Run(settings, events).queue, d, a)
  {
    var r := LastReply(settings, events[..j + 1]).messageRef;
    assert events[..j + 1][..j] == events[..j];
    IngressStores(Run(settings, events[..j]), req);
    hide Step, Run, LastReply, Ingress, ClaimedBefore;
    StepOfRun(settings, events, j);
    TermsForEver(settings, events, j + 1, r);
    TermsInclude(Run(settings, events).queue.messages[r], Run(settings, events[..j + 1]).queue.messages[r]);
    DependenciesClaimedFirst(settings, events, a, d);
  }

  /**
   * In every run, each follow-up of a finished completion is claimed only after the parent, or after the messages it
   * names.
   */
  lemma FollowUpsWait(settings: Settings, events: seq<Event>, j: nat, a: Ref, req: CompletionRequest, i: nat, b: Ref, d: Ref)
    requires ValidSettings(settings) && InOrder(events) && j < |events| && events[j].call == CompleteCall(a, req)
    requires LastReply(settings, events[..j + 1]).Finished? && i < |LastReply(settings, events[..j + 1]).followUps|
    requires b in Run(settings, events).queue.attempts
    requires Run(settings, events).queue.attempts[b].messageRef == LastReply(settings, events[..j + 1]).followUps[i]
    requires a in Run(settings, events[..j]).queue.attempts && i < |req.followUps|
    requires if req.followUps[i].dependsOn == [] then d == Run(settings, events[..j]).queue.attempts[a].messageRef
             else d in req.followUps[i].dependsOn
    ensures ClaimedBefore(Run(settings, events).queue, d, b)
  {
    var s := Run(settings, events[..j]);
    var r := LastReply(settings, events[..j + 1]).followUps[i];
    StepOfRun(settings, events, j);
    RunIsGood(settings, events[..j]);
    GoodLinks(settings, s);
    CompletionPosts(s, events[j].now, a, req);
    var stored := Run(settings, events[..j + 1]).queue.messages[r];
    assert d in stored.dependsOn;
    hide Step, Run, LastReply, CompleteAttempt, ClaimedBefore, Good, Linked, Counted;
    TermsForEver(settings, events, j + 1, r);
    TermsInclude(Run(settings, events).queue.messages[r], stored);
    DependenciesClaimedFirst(settings, events, b, d);
  }

  lemma StepOfRun(settings: Settings, events: seq<Event>, j: nat)
    requires j < |events|
    ensures var turn := Step(settings, Run(settings, events[..j]), events[j].now, events[j].call);
            Run(settings, events[..j + 1]) == turn.ledger && LastReply(settings, events[..j + 1]) == turn.reply
  {
    hide Step;
    assert events[..j + 1][..j] == events[..j];
  }
}
