// Lineage over a live ledger: in every run the versions have refs of their own
// and known parents, so a lineage is a connected component of the based-on graph.
module Provenance {
  import opened Domain
  import opened QueueModel
  import opened Calls
  import opened Runs
  import Lineage

  /** Every version is filed under its own ref, which is not blank. */
  ghost predicate Named(artifacts: map<Ref, ArtifactVersion>) {
    forall v :: v in artifacts ==> v != "" && artifacts[v].artifactVersionRef == v
  }

  lemma {:induction false} PostsFileNothing(s: Ledger, reqs: seq<IngressRequest>)
    ensures PostAll(s, reqs).ledger.artifacts == s.artifacts
    decreases |reqs|
  {
    hide Ingress;
    if reqs != [] { IngressFilesNothing(s, reqs[0]); }
    if reqs != [] && Ingress(s, reqs[0]).reply.Posted? { PostsFileNothing(Ingress(s, reqs[0]).ledger, reqs[1..]); }
  }

  lemma CompletionFilesNothing(s: Ledger, now: Time, a: Ref, req: CompletionRequest)
    ensures CompleteAttempt(s, now, a, req).ledger.artifacts == s.artifacts
  {
    hide PostAll;
    var turn := SubmitCheckpoint(s, now, a, CompletionCheckpoint(req));
    if req.endpointRef != "" && req.summary != "" && !turn.reply.Refused? {
      var parent := turn.ledger.queue.messages[s.queue.attempts[a].messageRef];
      PostsFileNothing(turn.ledger, FollowUps(req.followUps, req.endpointRef, parent));
    }
  }

  lemma IngressFilesNothing(s: Ledger, req: IngressRequest)
    ensures Ingress(s, req).ledger.artifacts == s.artifacts
  {
    hide ValidIngress, RouteAvailable, NewMessage, IngressCounted;
  }

  lemma ReplayFilesNothing(s: Ledger, d: Ref, accepted: bool)
    ensures ReplayDeadLetter(s, d, accepted).ledger.artifacts == s.artifacts
  {
    hide Ingress;
    if d != "" && d in s.queue.deadLetters && s.queue.deadLetters[d].messageRef in s.queue.messages {
      IngressFilesNothing(s, ReplayRequest(s.queue.messages[s.queue.deadLetters[d].messageRef], accepted));
    }
  }

  lemma ClaimingFilesNothing(settings: Settings, s: Ledger, now: Time, call: Call)
    requires call.ClaimCall? || call.ClaimNextCall? || call.CheckpointCall? || call.RefreshCall?
    ensures Step(settings, s, now, call).ledger.artifacts == s.artifacts
  {
    hide Claim, ClaimNext, Reconcile, WithCheckpoint, ClaimRefusal, CheckpointRefusal;
  }

  lemma OnlyRegistrationFiles(settings: Settings, s: Ledger, now: Time, call: Call)
    requires !call.ArtifactCall?
    ensures Step(settings, s, now, call).ledger.artifacts == s.artifacts
  {
    hide Reconcile, CancelRefs, RetryRefs, CompleteAttempt, Cancelable, Retryable, OpenAttempts, Ingress,
      ReplayDeadLetter, Calls.ClaimMessage, Calls.ClaimNextMessage, SubmitCheckpoint, RefreshLease;
    match call
    case CompleteCall(a, req) => CompletionFilesNothing(s, now, a, req);
    case IngressCall(req) => IngressFilesNothing(s, req);
    case ReplayCall(d, accepted) => ReplayFilesNothing(s, d, accepted);
    case ClaimCall(_, _) => ClaimingFilesNothing(settings, s, now, call);
    case ClaimNextCall(_) => ClaimingFilesNothing(settings, s, now, call);
    case CheckpointCall(_, _) => ClaimingFilesNothing(settings, s, now, call);
    case RefreshCall(_, _) => ClaimingFilesNothing(settings, s, now, call);
    case _ =>
  }

  lemma RegistrationKeepsNamed(s: Ledger, now: Time, a: Ref, req: ArtifactRequest)
    requires Named(s.artifacts)
    ensures Named(RegisterArtifactVersion(s, now, a, req).ledger.artifacts)
  {
  }

  lemma {:induction false} RunIsNamed(settings: Settings, events: seq<Event>)
    ensures Named(Run(settings, events).artifacts)
    decreases |events|
  {
    hide Named, Step;
    if events == [] {
      NothingNamed();
    } else {
      var n := |events| - 1;
      RunIsNamed(settings, events[..n]);
      var s, now, call := Run(settings, events[..n]), events[n].now, events[n].call;
      StepFiles(settings, s, now, call);
    }
  }

  lemma NothingNamed()
    ensures Named(EMPTY_LEDGER.artifacts)
  {
  }

  lemma StepFiles(settings: Settings, s: Ledger, now: Time, call: Call)
    requires Named(s.artifacts)
    ensures Named(Step(settings, s, now, call).ledger.artifacts)
  {
    hide Named, RegisterArtifactVersion;
    if call.ArtifactCall? {
      RegistrationKeepsNamed(s, now, call.attemptRef, call.artifact);
    } else {
      OnlyRegistrationFiles(settings, s, now, call);
    }
  }

  /** The records of a ledger's versions, in some order. */
  ghost predicate Lists(list: seq<Lineage.Artifact>, artifacts: map<Ref, ArtifactVersion>) {
    && (forall i, j :: 0 <= i < j < |list| ==> list[i].versionRef != list[j].versionRef)
    && (forall i :: 0 <= i < |list| ==>
          list[i].versionRef in artifacts && list[i].basedOnVersions == artifacts[list[i].versionRef].basedOn)
    && (forall v :: v in artifacts ==> v in Lineage.VersionRefs(list))
  }

  /** One of the two versions is based on the other. */
  predicate BasedOn(artifacts: map<Ref, ArtifactVersion>, v: Ref, w: Ref) {
    v in artifacts && w in artifacts && (w in artifacts[v].basedOn || v in artifacts[w].basedOn)
  }

  /** In every run, however its versions are listed, the lineage links are just the based-on relation, both ways. */
  lemma LinksAreBasedOn(settings: Settings, events: seq<Event>, list: seq<Lineage.Artifact>, v: Ref, w: Ref)
    requires ValidSettings(settings) && Lists(list, Run(settings, events).artifacts) && v in Run(settings, events).artifacts
    ensures Lineage.Proper(list)
    ensures Lineage.Linked(list, v, w) <==> BasedOn(Run(settings, events).artifacts, v, w)
  {
    hide Step, Run;
    var artifacts := Run(settings, events).artifacts;
    RunIsNamed(settings, events);
    ListIsProper(list, artifacts);
    IndexedOnce(list, artifacts, v);
    if w in artifacts { IndexedOnce(list, artifacts, w); }
    if w in artifacts[v].basedOn { ParentsExist(settings, events, v, w); }
    LinkedIff(list, artifacts, v, w);
  }

  lemma ListIsProper(list: seq<Lineage.Artifact>, artifacts: map<Ref, ArtifactVersion>)
    requires Named(artifacts) && Lists(list, artifacts)
    ensures Lineage.Proper(list)
  {
  }

  /** The index of the lineage query holds each version's own record. */
  lemma IndexedOnce(list: seq<Lineage.Artifact>, artifacts: map<Ref, ArtifactVersion>, v: Ref)
    requires Lineage.Proper(list) && Lists(list, artifacts) && v in artifacts
    ensures v in Lineage.ByVersion(list) && Lineage.ByVersion(list)[v].basedOnVersions == artifacts[v].basedOn
  {
    var i :| 0 <= i < |list| && list[i].versionRef == v;
    Lineage.IndexIsExact(list, i);
  }

  lemma LinkedIff(list: seq<Lineage.Artifact>, artifacts: map<Ref, ArtifactVersion>, v: Ref, w: Ref)
    requires Lists(list, artifacts) && v in artifacts
    requires forall x :: x in {v, w} && x in artifacts ==>
               x in Lineage.ByVersion(list) && Lineage.ByVersion(list)[x].basedOnVersions == artifacts[x].basedOn
    requires w in artifacts[v].basedOn ==> w in artifacts
    ensures Lineage.Linked(list, v, w) <==> BasedOn(artifacts, v, w)
  {
    if Lineage.ParentLink(list, v, w) {
      Lineage.IndexedAreListed(list, w);
      var i :| 0 <= i < |list| && list[i] == Lineage.ByVersion(list)[w] && list[i].versionRef == w;
    }
    if Lineage.ChildLink(list, v, w) {
      var i :| 0 <= i < |list| && list[i].versionRef == w && v in list[i].basedOnVersions;
    }
    if BasedOn(artifacts, v, w) {
      if w in artifacts[v].basedOn {
        assert Lineage.ParentLink(list, v, w);
      } else {
        assert w in Lineage.VersionRefs(list);
        var i :| 0 <= i < |list| && list[i].versionRef == w;
        assert Lineage.ChildLink(list, v, w);
      }
    }
  }
}
