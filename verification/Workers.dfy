// What is known of the workers, in terms of their own calls, and so when an
// endpoint may be given work.
module Workers {
  import opened Wrappers
  import opened Domain
  import opened Routing
  import opened QueueModel
  import opened Calls
  import opened Links
  import Polling
  import opened Reachable
  import opened Runs
  import opened Grants
  import opened Admission
  import opened Postings
  import Refs

  predicate MayAdvertise(names: seq<string>) {
    && names != [] && "" !in names && forall i, j :: 0 <= i < j < |names| ==> names[i] != names[j]
  }

  /** The set holds just these names. */
  ghost predicate AreNamed(capabilities: set<string>, names: seq<string>) {
    forall c :: c in capabilities <==> c in names
  }

  /** The other endpoints stay as they were, and so does everything else. */
  predicate OnlyEndpoint(s: Ledger, s': Ledger, e: Ref) {
    && e in s'.endpoints && s'.endpoints == s.endpoints[e := s'.endpoints[e]]
    && s' == s.(endpoints := s'.endpoints, queue := s.queue.(sequences := s'.queue.sequences))
  }

  lemma AdvertiseIff(names: seq<string>)
    ensures ValidCapabilities(names) <==> MayAdvertise(names)
  {
  }

  predicate MayEnroll(settings: Settings, s: Ledger, now: Time, req: RegistrationRequest) {
    && req.endpointRef != "" && req.actorId != "" && req.complete && req.connectionState in {Unset, Online}
    && MayAdvertise(req.capabilities) && !IsUp(settings, s, req.endpointRef, now)
  }

  /**
   * A registration is refused exactly to an endpoint that is up or badly described; else it replaces what was known.
   */
  lemma RegistrationEnrolls(settings: Settings, s: Ledger, now: Time, req: RegistrationRequest)
    ensures var turn := Register(settings, s, now, req);
            && (turn.reply.Registered? <==> MayEnroll(settings, s, now, req))
            && (turn.reply.Refused? <==> !MayEnroll(settings, s, now, req)) && (turn.reply.Refused? ==> turn.ledger == s)
            && (turn.reply.Registered? ==>
                  && turn.reply.endpointRef == req.endpointRef && OnlyEndpoint(s, turn.ledger, req.endpointRef)
                  && var known := turn.ledger.endpoints[req.endpointRef];
                     && known.endpointRef == req.endpointRef && known.actorId == req.actorId
                     && known.connectionState == req.connectionState && known.lastHeartbeatAt == now
                     && AreNamed(known.capabilities, req.capabilities))
  {
    AdvertiseIff(req.capabilities);
    hide ValidCapabilities, MayAdvertise;
  }

  /** A heartbeat sets the state and the time of a registered endpoint, and nothing else. */
  lemma HeartbeatBeats(settings: Settings, s: Ledger, now: Time, e: Ref, state: ConnectionState)
    ensures var turn := Heartbeat(settings, s, now, e, state);
            && (turn.reply.Beat? <==> e != "" && state != Unset && e in s.endpoints)
            && (turn.reply.Refused? <==> !turn.reply.Beat?) && (turn.reply.Refused? ==> turn.ledger == s)
            && (turn.reply.Beat? ==>
                  && OnlyEndpoint(s, turn.ledger, e)
                  && turn.reply.expiresAt == turn.ledger.endpoints[e].lastHeartbeatAt + settings.heartbeatTimeout
                  && var before, known := s.endpoints[e], turn.ledger.endpoints[e];
                     && known.endpointRef == before.endpointRef && known.actorId == before.actorId
                     && known.capabilities == before.capabilities
                     && known.connectionState == state && known.lastHeartbeatAt == now)
  {
  }

  /** An advertisement replaces the names of a registered endpoint, and nothing else. */
  lemma AdvertisementNames(s: Ledger, e: Ref, names: seq<string>)
    ensures var turn := Advertise(s, e, names);
            && (turn.reply.Advertised? <==> MayAdvertise(names) && e in s.endpoints)
            && (turn.reply.Refused? <==> !turn.reply.Advertised?) && (turn.reply.Refused? ==> turn.ledger == s)
            && (turn.reply.Advertised? ==>
                  && OnlyEndpoint(s, turn.ledger, e) && turn.reply.names == turn.ledger.endpoints[e].capabilities
                  && var before, known := s.endpoints[e], turn.ledger.endpoints[e];
                     && known.endpointRef == before.endpointRef && known.actorId == before.actorId
                     && known.connectionState == before.connectionState && known.lastHeartbeatAt == before.lastHeartbeatAt
                     && AreNamed(known.capabilities, names))
  {
    AdvertiseIff(names);
    hide ValidCapabilities, MayAdvertise;
  }

  // What a call says of an endpoint, if it is accepted

  /** The call was a sign of life of `e`, in this state. */
  predicate Beats(call: Call, reply: Reply, e: Ref, state: ConnectionState) {
    || (call.RegisterCall? && reply.Registered? && call.registration.endpointRef == e
        && call.registration.connectionState == state)
    || (call.HeartbeatCall? && reply.Beat? && call.endpointRef == e && call.state == state)
  }

  /** The call gave `e` these capabilities. */
  predicate Names(call: Call, reply: Reply, e: Ref, names: seq<string>) {
    || (call.RegisterCall? && reply.Registered? && call.registration.endpointRef == e && call.registration.capabilities == names)
    || (call.AdvertiseCall? && reply.Advertised? && call.endpointRef == e && call.capabilities == names)
  }

  /** What is known of the endpoint after a call, in terms of the call and of what was known. */
  ghost predicate LearnsFrom(s: Ledger, now: Time, call: Call, turn: Turn, e: Ref)
    requires e in turn.ledger.endpoints
  {
    var known := turn.ledger.endpoints[e];
    && ((Beats(call, turn.reply, e, known.connectionState) && known.lastHeartbeatAt == now)
        || (e in s.endpoints && (forall state :: !Beats(call, turn.reply, e, state))
            && known.connectionState == s.endpoints[e].connectionState
               && known.lastHeartbeatAt == s.endpoints[e].lastHeartbeatAt))
    && ((exists names :: Names(call, turn.reply, e, names) && AreNamed(known.capabilities, names))
        || (e in s.endpoints && (forall names :: !Names(call, turn.reply, e, names))
            && known.capabilities == s.endpoints[e].capabilities))
  }

  lemma RegisterTeaches(settings: Settings, s: Ledger, now: Time, req: RegistrationRequest, e: Ref)
    requires e in Register(settings, s, now, req).ledger.endpoints
    ensures LearnsFrom(s, now, RegisterCall(req), Register(settings, s, now, req), e)
  {
    RegistrationEnrolls(settings, s, now, req);
    hide Register, MayEnroll, AreNamed;
    var turn := Register(settings, s, now, req);
    if turn.reply.Registered? && e == req.endpointRef { assert Names(RegisterCall(req), turn.reply, e, req.capabilities); }
  }

  lemma HeartbeatTeaches(settings: Settings, s: Ledger, now: Time, d: Ref, state: ConnectionState, e: Ref)
    requires e in Heartbeat(settings, s, now, d, state).ledger.endpoints
    ensures LearnsFrom(s, now, HeartbeatCall(d, state), Heartbeat(settings, s, now, d, state), e)
  {
    HeartbeatBeats(settings, s, now, d, state);
    hide Heartbeat, AreNamed;
  }

  lemma AdvertiseTeaches(s: Ledger, now: Time, d: Ref, names: seq<string>, e: Ref)
    requires e in Advertise(s, d, names).ledger.endpoints
    ensures LearnsFrom(s, now, AdvertiseCall(d, names), Advertise(s, d, names), e)
  {
    AdvertisementNames(s, d, names);
    hide Advertise, MayAdvertise, AreNamed;
    var turn := Advertise(s, d, names);
    if turn.reply.Advertised? && e == d { assert Names(AdvertiseCall(d, names), turn.reply, e, names); }
  }

  lemma CallTeaches(settings: Settings, s: Ledger, now: Time, call: Call, e: Ref)
    requires e in Step(settings, s, now, call).ledger.endpoints
    ensures LearnsFrom(s, now, call, Step(settings, s, now, call), e)
  {
    hide Register, Heartbeat, Advertise, LearnsFrom;
    match call
    case RegisterCall(req) => RegisterTeaches(settings, s, now, req, e);
    case HeartbeatCall(d, state) => HeartbeatTeaches(settings, s, now, d, state, e);
    case AdvertiseCall(d, names) => AdvertiseTeaches(s, now, d, names, e);
    case _ =>
      OthersEnrollNobody(settings, s, now, call);
      hide Step;
      TaughtNothing(settings, s, now, call, e);
  }

  lemma TaughtNothing(settings: Settings, s: Ledger, now: Time, call: Call, e: Ref)
    requires !AboutEndpoint(call) && e in s.endpoints && Step(settings, s, now, call).ledger.endpoints == s.endpoints
    ensures e in Step(settings, s, now, call).ledger.endpoints && LearnsFrom(s, now, call, Step(settings, s, now, call), e)
  {
    hide Step;
  }

  // Runs

  ghost predicate BeatAt(settings: Settings, events: seq<Event>, k: nat, e: Ref, state: ConnectionState)
    requires k < |events|
  {
    Beats(events[k].call, LastReply(settings, events[..k + 1]), e, state)
  }

  ghost predicate NamedAt(settings: Settings, events: seq<Event>, k: nat, e: Ref, names: seq<string>)
    requires k < |events|
  {
    Names(events[k].call, LastReply(settings, events[..k + 1]), e, names)
  }

  /**
   * In every run an endpoint is in the state that its last accepted registration or heartbeat gave it, and last beat
   * then.
   */
  lemma {:induction false} StateIsLastBeat(settings: Settings, events: seq<Event>, e: Ref) returns (k: nat)
    requires e in Run(settings, events).endpoints
    ensures k < |events| && BeatAt(settings, events, k, e, Run(settings, events).endpoints[e].connectionState)
    ensures Run(settings, events).endpoints[e].lastHeartbeatAt == events[k].now
    ensures forall i, state :: k < i < |events| ==> !BeatAt(settings, events, i, e, state)
    decreases |events|
  {
    hide Step, Beats, Names;
    assert events != [];
    var n := |events| - 1;
    var before := events[..n];
    var s := Run(settings, before);
    assert events[..n + 1] == events;
    var turn := Step(settings, s, events[n].now, events[n].call);
    assert Run(settings, events) == turn.ledger && LastReply(settings, events) == turn.reply;
    CallTeaches(settings, s, events[n].now, events[n].call, e);
    assert forall state :: BeatAt(settings, events, n, e, state) <==> Beats(events[n].call, turn.reply, e, state);
    if state :| BeatAt(settings, events, n, e, state) {
      k := n;
    } else {
      k := StateIsLastBeat(settings, before, e);
      BeatsOfPrefix(settings, events, e);
    }
  }

  lemma BeatsOfPrefix(settings: Settings, events: seq<Event>, e: Ref)
    requires events != []
    ensures var before := events[..|events| - 1];
            && (forall i, state :: 0 <= i < |before| ==>
                  (BeatAt(settings, before, i, e, state) <==> BeatAt(settings, events, i, e, state)))
            && (forall i, names :: 0 <= i < |before| ==>
                  (NamedAt(settings, before, i, e, names) <==> NamedAt(settings, events, i, e, names)))
  {
    hide LastReply, Beats, Names;
    var before := events[..|events| - 1];
    forall i | 0 <= i < |before| ensures before[..i + 1] == events[..i + 1] && before[i] == events[i] {}
  }

  /** In every run an endpoint has just the capabilities that its last accepted registration or advertisement named. */
  lemma {:induction false} CapabilitiesAreLastNamed(settings: Settings, events: seq<Event>, e: Ref)
    returns (k: nat, names: seq<string>)
    requires e in Run(settings, events).endpoints
    ensures k < |events| && NamedAt(settings, events, k, e, names)
    ensures AreNamed(Run(settings, events).endpoints[e].capabilities, names)
    ensures forall i, others :: k < i < |events| ==> !NamedAt(settings, events, i, e, others)
    decreases |events|
  {
    hide Step, Beats, Names, AreNamed;
    assert events != [];
    var n := |events| - 1;
    var before := events[..n];
    var s := Run(settings, before);
    assert events[..n + 1] == events;
    var turn := Step(settings, s, events[n].now, events[n].call);
    assert Run(settings, events) == turn.ledger && LastReply(settings, events) == turn.reply;
    CallTeaches(settings, s, events[n].now, events[n].call, e);
    assert forall others :: NamedAt(settings, events, n, e, others) <==> Names(events[n].call, turn.reply, e, others);
    if others :| NamedAt(settings, events, n, e, others) {
      k := n;
      names :| NamedAt(settings, events, n, e, names) && AreNamed(Run(settings, events).endpoints[e].capabilities, names);
    } else {
      k, names := CapabilitiesAreLastNamed(settings, before, e);
      BeatsOfPrefix(settings, events, e);
    }
  }

  /** A polled message is for the endpoint that polls. */
  lemma PolledIsFor(settings: Settings, s: Ledger, now: Time, e: Ref)
    requires ValidSettings(settings) && Linked(s.queue) && Counted(s) && EndpointsNamed(s)
    requires ClaimNextMessage(settings, s, now, e).reply.Granted?
    ensures IsUp(settings, s, e, now)
    ensures CanServe(s, e, ClaimNextMessage(settings, s, now, e).reply.claim.message.targetCapability)
  {
    hide Calls.ClaimMessage, Linked, Counted, EndpointsNamed, Reconcile, ClaimNext, Polling.PollPick;
    assert PollRefusal(settings, s, now, e).None?;
    assert IsUp(settings, s, e, now);
    var swept := ReconcileExpiredClaims(s, now).ledger;
    Polling.PollIsDirectClaim(settings, s, now, e);
    SweepKeepsReady(settings, s, now);
    var r := Polling.PollPick(settings, swept, now, e).value;
    hide Calls.ClaimNextMessage;
    GrantedIsFor(settings, swept, now, r, e);
    hide PollRefusal, Covers, IsUp;
    assert swept.endpoints == s.endpoints;
  }

  lemma GrantedIsFor(settings: Settings, s: Ledger, now: Time, r: Ref, e: Ref)
    requires ValidSettings(settings) && Linked(s.queue) && Counted(s) && EndpointsNamed(s)
    requires ClaimMessage(settings, s, now, r, e).reply.Granted?
    ensures IsUp(settings, s, e, now)
            && CanServe(s, e, ClaimMessage(settings, s, now, r, e).reply.claim.message.targetCapability)
  {
    GrantedIff(settings, s, now, r, e);
    DirectGrant(settings, s, now, r, e);
    hide Calls.ClaimMessage, Linked, Counted, EndpointsNamed, HandsTo, IsUp, LeavesOthers, CanServe, AllCompleted,
      IsFree;
    TermsInclude(ClaimMessage(settings, s, now, r, e).reply.claim.message, s.queue.messages[r]);
  }

  lemma ClaimerIsFit(settings: Settings, s: Ledger, now: Time, call: Call)
    requires ValidSettings(settings) && Linked(s.queue) && Counted(s) && EndpointsNamed(s)
    requires Step(settings, s, now, call).reply.Granted?
    ensures call.ClaimCall? || call.ClaimNextCall?
    ensures IsUp(settings, s, Claimer(call), now)
    ensures CanServe(s, Claimer(call), Step(settings, s, now, call).reply.claim.message.targetCapability)
  {
    OnlyClaimsGrant(settings, s, now, call);
    hide Calls.ClaimMessage, Calls.ClaimNextMessage, Linked, Counted, EndpointsNamed, IsUp, CanServe;
    if call.ClaimCall? {
      GrantedIsFor(settings, s, now, call.messageRef, call.endpointRef);
    } else {
      PolledIsFor(settings, s, now, call.endpointRef);
    }
  }

  /** Some name on the list covers the wanted capability. */
  ghost predicate ListCovers(names: seq<string>, target: string) {
    target != "" && exists name :: name in names && NameCovers(name, target)
  }

  /**
   * In every run, work is granted only to an endpoint whose last sign of life was online and within the timeout, and whose
   * last word on its capabilities names one that covers the message's.
   */
  lemma GrantsGoToFitWorkers(settings: Settings, events: seq<Event>) returns (k: nat, l: nat, names: seq<string>)
    requires ValidSettings(settings) && events != [] && LastReply(settings, events).Granted?
    ensures var n := |events| - 1;
            var call := events[n].call;
            && k < n && l < n && (call.ClaimCall? || call.ClaimNextCall?)
            && BeatAt(settings, events, k, Claimer(call), Online)
               && events[n].now <= events[k].now + settings.heartbeatTimeout
            && (forall i, state :: k < i < n ==> !BeatAt(settings, events, i, Claimer(call), state))
            && NamedAt(settings, events, l, Claimer(call), names)
            && ListCovers(names, LastReply(settings, events).claim.message.targetCapability)
            && (forall i, others :: l < i < n ==> !NamedAt(settings, events, i, Claimer(call), others))
  {
    var n := |events| - 1;
    var before := events[..n];
    var s := Run(settings, before);
    RunIsGood(settings, before);
    GoodLinks(settings, s);
    RunEndpointsNamed(settings, before);
    hide Good, Linked, Counted, EndpointsNamed, Beats, Names, NameCovers;
    ClaimerIsFit(settings, s, events[n].now, events[n].call);
    hide Step, Run;
    var e := Claimer(events[n].call);
    k := StateIsLastBeat(settings, before, e);
    l, names := CapabilitiesAreLastNamed(settings, before, e);
    BeatsOfPrefix(settings, events, e);
  }
}
