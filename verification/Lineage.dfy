// Artifact lineage: from the versions a query names, everything connected to
// them by based-on links, with the links as edges.
module Lineage {
  import opened Wrappers
  import opened Text
  import opened Sorting

  type Ref = string

  datatype Artifact = Artifact(
    artifactRef: Ref,
    versionRef: Ref,
    messageRef: Ref,
    attemptRef: Ref,
    taskRef: Ref,
    basedOnVersions: seq<Ref>,
    basedOnMessages: seq<Ref>,
    createdAt: string)

  datatype Edge = Edge(fromRef: Ref, toRef: Ref, relation: string)

  datatype ArtifactLineage = ArtifactLineage(
    queryRef: Ref, artifactRef: Ref, currentVersionRef: Ref, versions: seq<Artifact>, edges: seq<Edge>)

  const BASED_ON_MESSAGE := "based_on_message"
  const DERIVED_FROM := "derived_from"

  predicate Matches(query: Ref, a: Artifact) {
    a.versionRef == query || a.artifactRef == query || a.messageRef == query || a.attemptRef == query || a.taskRef == query
  }

  function VersionRefs(artifacts: seq<Artifact>): set<Ref> {
    set i | 0 <= i < |artifacts| :: artifacts[i].versionRef
  }

  function Seeds(query: Ref, artifacts: seq<Artifact>): set<Ref> {
    set i | 0 <= i < |artifacts| && Matches(query, artifacts[i]) :: artifacts[i].versionRef
  }

  /** The version index: blank refs are left out, a later record replaces an earlier one. */
  function ByVersion(artifacts: seq<Artifact>): map<Ref, Artifact> {
    if artifacts == [] then map[] else
    var n := |artifacts| - 1;
    var earlier := ByVersion(artifacts[..n]);
    if artifacts[n].versionRef == "" then earlier else earlier[artifacts[n].versionRef := artifacts[n]]
  }

  // The closure

  /** Indexed version `v` is based on indexed version `p`. */
  predicate ParentLink(artifacts: seq<Artifact>, v: Ref, p: Ref) {
    var index := ByVersion(artifacts);
    v in index && p in index && p in index[v].basedOnVersions
  }

  /** Some record of version `c` is based on `v`. */
  predicate ChildLink(artifacts: seq<Artifact>, v: Ref, c: Ref) {
    exists i :: 0 <= i < |artifacts| && artifacts[i].versionRef == c && v in artifacts[i].basedOnVersions
  }

  predicate Linked(artifacts: seq<Artifact>, v: Ref, w: Ref) {
    ParentLink(artifacts, v, w) || ChildLink(artifacts, v, w)
  }

  ghost predicate Chain(artifacts: seq<Artifact>, path: seq<Ref>) {
    path != [] && forall i :: 0 <= i < |path| - 1 ==> Linked(artifacts, path[i], path[i + 1])
  }

  ghost predicate ChainFrom(artifacts: seq<Artifact>, seeds: set<Ref>, path: seq<Ref>, w: Ref) {
    Chain(artifacts, path) && path[0] in seeds && path[|path| - 1] == w
  }

  /** A chain of links leads from a seed to `w`. */
  ghost predicate Reachable(artifacts: seq<Artifact>, seeds: set<Ref>, w: Ref) {
    exists path :: ChainFrom(artifacts, seeds, path, w)
  }

  ghost function Closure(artifacts: seq<Artifact>, seeds: set<Ref>): set<Ref> {
    set w | w in VersionRefs(artifacts) && Reachable(artifacts, seeds, w)
  }

  ghost predicate Closed(artifacts: seq<Artifact>, refs: set<Ref>) {
    forall v, w :: v in refs && Linked(artifacts, v, w) ==> w in refs
  }

  lemma {:induction false} IndexedAreListed(artifacts: seq<Artifact>, v: Ref)
    requires v in ByVersion(artifacts)
    ensures v != ""
    ensures exists i :: 0 <= i < |artifacts| && artifacts[i] == ByVersion(artifacts)[v] && artifacts[i].versionRef == v
  {
    var n := |artifacts| - 1;
    if artifacts[n].versionRef == "" || artifacts[n].versionRef != v {
      IndexedAreListed(artifacts[..n], v);
      var i :| 0 <= i < n && artifacts[..n][i] == ByVersion(artifacts[..n])[v] && artifacts[..n][i].versionRef == v;
      assert artifacts[i] == ByVersion(artifacts)[v];
    }
  }

  lemma {:induction false} ListedAreIndexed(artifacts: seq<Artifact>, i: nat)
    requires i < |artifacts| && artifacts[i].versionRef != ""
    ensures artifacts[i].versionRef in ByVersion(artifacts)
  {
    var n := |artifacts| - 1;
    if i < n {
      assert artifacts[..n][i] == artifacts[i];
      ListedAreIndexed(artifacts[..n], i);
    }
  }

  lemma LinksStayListed(artifacts: seq<Artifact>, v: Ref, w: Ref)
    requires Linked(artifacts, v, w)
    ensures w in VersionRefs(artifacts)
  {
    if ParentLink(artifacts, v, w) {
      IndexedAreListed(artifacts, w);
      var i :| 0 <= i < |artifacts| && artifacts[i] == ByVersion(artifacts)[w] && artifacts[i].versionRef == w;
    }
  }

  lemma ReachFurther(artifacts: seq<Artifact>, seeds: set<Ref>, v: Ref, w: Ref)
    requires Reachable(artifacts, seeds, v) && Linked(artifacts, v, w)
    ensures Reachable(artifacts, seeds, w)
  {
    var path :| ChainFrom(artifacts, seeds, path, v);
    assert ChainFrom(artifacts, seeds, path + [w], w);
  }

  lemma {:induction false} ChainStaysInside(artifacts: seq<Artifact>, refs: set<Ref>, path: seq<Ref>)
    requires Chain(artifacts, path) && path[0] in refs && Closed(artifacts, refs)
    ensures path[|path| - 1] in refs
    decreases |path|
  {
    if |path| > 1 {
      assert Linked(artifacts, path[0], path[1]);
      ChainStaysInside(artifacts, refs, path[1..]);
    }
  }

  /** The closure is the least set that holds the seeds and is closed under links. */
  lemma ClosureIsLeast(artifacts: seq<Artifact>, seeds: set<Ref>, refs: set<Ref>)
    requires seeds <= VersionRefs(artifacts)
    ensures seeds <= Closure(artifacts, seeds) && Closed(artifacts, Closure(artifacts, seeds))
    ensures seeds <= refs && Closed(artifacts, refs) ==> Closure(artifacts, seeds) <= refs
  {
    forall v | v in seeds ensures v in Closure(artifacts, seeds) { assert ChainFrom(artifacts, seeds, [v], v); }
    forall v, w | v in Closure(artifacts, seeds) && Linked(artifacts, v, w) ensures w in Closure(artifacts, seeds) {
      LinksStayListed(artifacts, v, w);
      ReachFurther(artifacts, seeds, v, w);
    }
    if seeds <= refs && Closed(artifacts, refs) {
      forall w | w in Closure(artifacts, seeds) ensures w in refs {
        var path :| ChainFrom(artifacts, seeds, path, w);
        ChainStaysInside(artifacts, refs, path);
      }
    }
  }

  // The loops. The map of included versions is iterated while it grows: an
  // entry added on the way is visited or not, as the runtime happens to choose.

  method IncludeParents(artifacts: seq<Artifact>, index: map<Ref, Artifact>, included0: set<Ref>, ghost closure: set<Ref>)
    returns (included: set<Ref>, changed: bool)
    requires index == ByVersion(artifacts)
    requires included0 <= closure <= VersionRefs(artifacts) && Closed(artifacts, closure)
    ensures included0 <= included <= closure && changed == (included != included0)
    ensures !changed ==> forall v, p :: v in included && ParentLink(artifacts, v, p) ==> p in included
  {
    included, changed := included0, false;
    var todo := included;
    ghost var visited: set<Ref> := {};
    while todo != {}
      invariant included0 <= included <= closure && changed == (included != included0)
      invariant todo <= included && visited <= included && todo !! visited && included0 <= visited + todo
      invariant forall v, p :: v in visited && ParentLink(artifacts, v, p) ==> p in included
      decreases VersionRefs(artifacts) - visited
    {
      var v :| v in todo;
      todo, visited := todo - {v}, visited + {v};
      if v in index {
        var added := IncludeParentsOf(artifacts, index, v, included, closure);
        changed := changed || added != {};
        included := included + added;
        var seen: set<Ref> :| seen <= added;
        todo := todo + seen;
      }
    }
  }

  /** The parents of one version that are known and not yet included. */
  method IncludeParentsOf(artifacts: seq<Artifact>, index: map<Ref, Artifact>, v: Ref, included: set<Ref>, ghost closure: set<Ref>)
    returns (added: set<Ref>)
    requires index == ByVersion(artifacts) && v in index && v in closure && Closed(artifacts, closure)
    ensures added !! included && added <= closure
    ensures forall p :: ParentLink(artifacts, v, p) ==> p in included + added
  {
    added := {};
    var parents := index[v].basedOnVersions;
    for i := 0 to |parents|
      invariant added !! included && added <= closure
      invariant forall j :: 0 <= j < i && parents[j] in index ==> parents[j] in included + added
    {
      if parents[i] in index && parents[i] !in included && parents[i] !in added {
        assert ParentLink(artifacts, v, parents[i]);
        added := added + {parents[i]};
      }
    }
  }

  method HasIncludedParent(artifact: Artifact, included: set<Ref>) returns (has: bool)
    ensures has <==> exists p :: p in artifact.basedOnVersions && p in included
  {
    for i := 0 to |artifact.basedOnVersions|
      invariant forall j :: 0 <= j < i ==> artifact.basedOnVersions[j] !in included
    {
      if artifact.basedOnVersions[i] in included { return true; }
    }
    return false;
  }

  method IncludeChildren(artifacts: seq<Artifact>, included0: set<Ref>, ghost closure: set<Ref>)
    returns (included: set<Ref>, changed: bool)
    requires included0 <= closure && Closed(artifacts, closure)
    ensures included0 <= included <= closure && changed == (included != included0)
    ensures !changed ==> forall v, c :: v in included && ChildLink(artifacts, v, c) ==> c in included
  {
    included, changed := included0, false;
    for i := 0 to |artifacts|
      invariant included0 <= included <= closure && changed == (included != included0)
      invariant !changed ==> forall j, v :: 0 <= j < i && v in included && v in artifacts[j].basedOnVersions ==>
        artifacts[j].versionRef in included
    {
      if artifacts[i].versionRef in included { continue; }
      var has := HasIncludedParent(artifacts[i], included);
      if !has { continue; }
      var v :| v in artifacts[i].basedOnVersions && v in included;
      assert ChildLink(artifacts, v, artifacts[i].versionRef);
      included := included + {artifacts[i].versionRef};
      changed := true;
    }
  }

  method ExpandClosure(artifacts: seq<Artifact>, index: map<Ref, Artifact>, seeds: set<Ref>) returns (included: set<Ref>)
    requires index == ByVersion(artifacts) && seeds <= VersionRefs(artifacts)
    ensures included == Closure(artifacts, seeds)
  {
    ghost var closure := Closure(artifacts, seeds);
    ClosureIsLeast(artifacts, seeds, {});
    included := seeds;
    var changed := true;
    while changed
      invariant seeds <= included <= closure
      invariant !changed ==> Closed(artifacts, included)
      decreases closure - included, changed
    {
      ghost var before := included;
      var byParents, byChildren: bool;
      included, byParents := IncludeParents(artifacts, index, included, closure);
      included, byChildren := IncludeChildren(artifacts, included, closure);
      changed := byChildren || byParents;
      assert changed ==> closure - included < closure - before;
    }
    ClosureIsLeast(artifacts, seeds, included);
  }

  // What is made of the closure

  function SortKey(a: Artifact): string {
    if a.createdAt != "" then a.createdAt else a.versionRef
  }

  predicate VersionBefore(a: Artifact, b: Artifact) {
    if SortKey(a) == SortKey(b) then Less(a.versionRef, b.versionRef) else Less(SortKey(a), SortKey(b))
  }

  predicate EdgeBefore(a: Edge, b: Edge) {
    if a.fromRef != b.fromRef then Less(a.fromRef, b.fromRef)
    else if a.toRef != b.toRef then Less(a.toRef, b.toRef)
    else Less(a.relation, b.relation)
  }

  function Versions(artifacts: seq<Artifact>, included: set<Ref>): seq<Artifact> {
    StableSort(VersionBefore, Select((a: Artifact) => a.versionRef in included, artifacts))
  }

  function MessageEdges(a: Artifact): seq<Edge> {
    seq(|a.basedOnMessages|, i requires 0 <= i < |a.basedOnMessages| =>
      Edge(a.basedOnMessages[i], a.versionRef, BASED_ON_MESSAGE))
  }

  function ParentEdges(a: Artifact, parents: seq<Ref>, included: set<Ref>): seq<Edge> {
    if parents == [] then []
    else ParentEdges(a, parents[..|parents| - 1], included)
         + if parents[|parents| - 1] in included then [Edge(parents[|parents| - 1], a.versionRef, DERIVED_FROM)] else []
  }

  function EdgesOf(versions: seq<Artifact>, included: set<Ref>): seq<Edge> {
    if versions == [] then []
    else
      var a := versions[|versions| - 1];
      EdgesOf(versions[..|versions| - 1], included) + MessageEdges(a) + ParentEdges(a, a.basedOnVersions, included)
  }

  function Edges(versions: seq<Artifact>, included: set<Ref>): seq<Edge> {
    StableSort(EdgeBefore, EdgesOf(versions, included))
  }

  function FirstArtifactRef(versions: seq<Artifact>): Ref {
    if versions == [] then ""
    else if versions[0].artifactRef != "" then versions[0].artifactRef
    else FirstArtifactRef(versions[1..])
  }

  /** The answer to a query, given what the closure came to. */
  function Answer(query: Ref, artifacts: seq<Artifact>, included: set<Ref>): ArtifactLineage
    requires Versions(artifacts, included) != []
  {
    var versions := Versions(artifacts, included);
    ArtifactLineage(query, FirstArtifactRef(versions), versions[|versions| - 1].versionRef, versions, Edges(versions, included))
  }

  method SelectVersions(artifacts: seq<Artifact>, included: set<Ref>) returns (versions: seq<Artifact>)
    ensures versions == Versions(artifacts, included)
  {
    var chosen: seq<Artifact> := [];
    ghost var test := (a: Artifact) => a.versionRef in included;
    for i := 0 to |artifacts|
      invariant chosen == Select(test, artifacts[..i])
    {
      assert artifacts[..i + 1] == artifacts[..i] + [artifacts[i]];
      SelectSnoc(test, artifacts[..i], artifacts[i]);
      if artifacts[i].versionRef in included { chosen := chosen + [artifacts[i]]; }
    }
    assert artifacts[..|artifacts|] == artifacts;
    versions := StableSort(VersionBefore, chosen);
  }

  method CollectEdges(versions: seq<Artifact>, included: set<Ref>) returns (edges: seq<Edge>)
    ensures edges == Edges(versions, included)
  {
    edges := [];
    for i := 0 to |versions|
      invariant edges == EdgesOf(versions[..i], included)
    {
      assert versions[..i + 1][..i] == versions[..i];
      var own := CollectEdgesOf(versions[i], included);
      assert edges + own == edges + MessageEdges(versions[i]) + ParentEdges(versions[i], versions[i].basedOnVersions, included);
      edges := edges + own;
    }
    assert versions[..|versions|] == versions;
    edges := StableSort(EdgeBefore, edges);
  }

  method CollectEdgesOf(a: Artifact, included: set<Ref>) returns (edges: seq<Edge>)
    ensures edges == MessageEdges(a) + ParentEdges(a, a.basedOnVersions, included)
  {
    edges := [];
    for i := 0 to |a.basedOnMessages|
      invariant edges == MessageEdges(a)[..i]
    {
      edges := edges + [Edge(a.basedOnMessages[i], a.versionRef, BASED_ON_MESSAGE)];
    }
    assert edges == MessageEdges(a);
    var parents := a.basedOnVersions;
    for i := 0 to |parents|
      invariant edges == MessageEdges(a) + ParentEdges(a, parents[..i], included)
    {
      assert parents[..i + 1][..i] == parents[..i];
      if parents[i] in included { edges := edges + [Edge(parents[i], a.versionRef, DERIVED_FROM)]; }
    }
    assert parents[..|parents|] == parents;
  }

  lemma SeedsAreListed(query: Ref, artifacts: seq<Artifact>)
    ensures Seeds(query, artifacts) <= VersionRefs(artifacts)
  {
  }

  lemma IncludedAreVersions(artifacts: seq<Artifact>, included: set<Ref>, v: Ref)
    requires v in included && v in VersionRefs(artifacts)
    ensures Versions(artifacts, included) != []
  {
    var i :| 0 <= i < |artifacts| && artifacts[i].versionRef == v;
    SelectFinds((a: Artifact) => a.versionRef in included, artifacts, i);
  }

  lemma {:induction false} SelectFinds<T>(test: T -> bool, s: seq<T>, i: nat)
    requires i < |s| && test(s[i])
    ensures s[i] in Select(test, s)
  {
    if i < |s| - 1 { SelectFinds(test, s[..|s| - 1], i); }
  }

  method IndexAndSeeds(query: Ref, artifacts: seq<Artifact>) returns (index: map<Ref, Artifact>, seeds: set<Ref>)
    ensures index == ByVersion(artifacts) && seeds == Seeds(query, artifacts)
  {
    index, seeds := map[], {};
    for i := 0 to |artifacts|
      invariant index == ByVersion(artifacts[..i]) && seeds == Seeds(query, artifacts[..i])
    {
      assert artifacts[..i + 1][..i] == artifacts[..i];
      SeedsSnoc(query, artifacts[..i], artifacts[i]);
      assert artifacts[..i + 1] == artifacts[..i] + [artifacts[i]];
      if artifacts[i].versionRef != "" { index := index[artifacts[i].versionRef := artifacts[i]]; }
      if Matches(query, artifacts[i]) { seeds := seeds + {artifacts[i].versionRef}; }
    }
    assert artifacts[..|artifacts|] == artifacts;
  }

  /**
   * Whatever order the growing map is visited in, the lineage is built on exactly the closure of what the query names.
   */
  method BuildArtifactLineage(query: Ref, artifacts: seq<Artifact>) returns (lineage: Option<ArtifactLineage>)
    ensures query == "" || Seeds(query, artifacts) == {} ==> lineage == None
    ensures query != "" && Seeds(query, artifacts) != {} ==>
              var included := Closure(artifacts, Seeds(query, artifacts));
              Versions(artifacts, included) != [] && lineage == Some(Answer(query, artifacts, included))
  {
    hide Closure, Versions, Edges, FirstArtifactRef, ByVersion, Seeds, Closed, VersionRefs;
    if query == "" { return None; }
    var index, included := IndexAndSeeds(query, artifacts);
    if included == {} { return None; }
    SeedsAreListed(query, artifacts);
    ClosureIsLeast(artifacts, included, {});
    ghost var v :| v in included;
    included := ExpandClosure(artifacts, index, included);
    IncludedAreVersions(artifacts, included, v);
    var versions := SelectVersions(artifacts, included);
    var edges := CollectEdges(versions, included);
    var current := versions[|versions| - 1];
    return Some(ArtifactLineage(query, FirstArtifactRef(versions), current.versionRef, versions, edges));
  }

  lemma SeedsSnoc(query: Ref, artifacts: seq<Artifact>, a: Artifact)
    ensures Seeds(query, artifacts + [a]) == Seeds(query, artifacts) + if Matches(query, a) then {a.versionRef} else {}
  {
    var longer := artifacts + [a];
    forall v ensures v in Seeds(query, longer) <==> v in Seeds(query, artifacts) || (Matches(query, a) && v == a.versionRef) {
      if v in Seeds(query, artifacts) {
        var i :| 0 <= i < |artifacts| && Matches(query, artifacts[i]) && artifacts[i].versionRef == v;
        assert longer[i] == artifacts[i];
      }
      if Matches(query, a) && v == a.versionRef { assert longer[|artifacts|] == a; }
      if v in Seeds(query, longer) {
        var i :| 0 <= i < |longer| && Matches(query, longer[i]) && longer[i].versionRef == v;
        if i < |artifacts| { assert artifacts[i] == longer[i]; }
      }
    }
  }

  // Components

  /** Version refs are not blank and no two records share one, as in the ledger. */
  ghost predicate Proper(artifacts: seq<Artifact>) {
    && (forall i :: 0 <= i < |artifacts| ==> artifacts[i].versionRef != "")
    && (forall i, j :: 0 <= i < j < |artifacts| ==> artifacts[i].versionRef != artifacts[j].versionRef)
  }

  lemma IndexIsExact(artifacts: seq<Artifact>, i: nat)
    requires Proper(artifacts) && i < |artifacts|
    ensures artifacts[i].versionRef in ByVersion(artifacts)
    ensures ByVersion(artifacts)[artifacts[i].versionRef] == artifacts[i]
  {
    ListedAreIndexed(artifacts, i);
    IndexedAreListed(artifacts, artifacts[i].versionRef);
    var j :| 0 <= j < |artifacts| && artifacts[j] == ByVersion(artifacts)[artifacts[i].versionRef]
             && artifacts[j].versionRef == artifacts[i].versionRef;
  }

  /** Among known versions a link can be followed back. */
  lemma LinksAreMutual(artifacts: seq<Artifact>, v: Ref, w: Ref)
    requires Proper(artifacts) && v in VersionRefs(artifacts) && Linked(artifacts, v, w)
    ensures Linked(artifacts, w, v)
  {
    if ParentLink(artifacts, v, w) {
      IndexedAreListed(artifacts, v);
      var i :| 0 <= i < |artifacts| && artifacts[i] == ByVersion(artifacts)[v] && artifacts[i].versionRef == v;
      assert ChildLink(artifacts, w, v);
    } else {
      var i :| 0 <= i < |artifacts| && artifacts[i].versionRef == w && v in artifacts[i].basedOnVersions;
      var j :| 0 <= j < |artifacts| && artifacts[j].versionRef == v;
      IndexIsExact(artifacts, i);
      IndexIsExact(artifacts, j);
      assert ParentLink(artifacts, w, v);
    }
  }

  /** A closed set that holds the end of a chain holds its start. */
  lemma {:induction false} ChainBackwards(artifacts: seq<Artifact>, refs: set<Ref>, path: seq<Ref>)
    requires Proper(artifacts) && Chain(artifacts, path) && path[0] in VersionRefs(artifacts)
    requires Closed(artifacts, refs) && path[|path| - 1] in refs
    ensures path[0] in refs
    decreases |path|
  {
    if |path| > 1 {
      assert Linked(artifacts, path[0], path[1]);
      LinksStayListed(artifacts, path[0], path[1]);
      ChainBackwards(artifacts, refs, path[1..]);
      LinksAreMutual(artifacts, path[0], path[1]);
    }
  }

  /** Whatever versions of a component one starts from, the closure is the component. */
  lemma SameComponent(artifacts: seq<Artifact>, v: Ref, seeds: set<Ref>)
    requires Proper(artifacts) && v in VersionRefs(artifacts) && seeds != {} && seeds <= Closure(artifacts, {v})
    ensures Closure(artifacts, seeds) == Closure(artifacts, {v})
  {
    hide *;
    forall w | w in seeds ensures w in VersionRefs(artifacts) { StaysListed(artifacts, {v}, w); }
    ClosureIsLeast(artifacts, {v}, {});
    ClosureIsLeast(artifacts, seeds, Closure(artifacts, {v}));
    var w :| w in seeds;
    LeadsBack(artifacts, v, w);
    ClosureIsLeast(artifacts, {w}, Closure(artifacts, seeds));
    ClosureIsLeast(artifacts, {v}, Closure(artifacts, seeds));
  }

  lemma StaysListed(artifacts: seq<Artifact>, seeds: set<Ref>, w: Ref)
    requires w in Closure(artifacts, seeds)
    ensures w in VersionRefs(artifacts)
  {
  }

  lemma LeadsBack(artifacts: seq<Artifact>, v: Ref, w: Ref)
    requires Proper(artifacts) && v in VersionRefs(artifacts) && w in Closure(artifacts, {v})
    ensures v in Closure(artifacts, {w})
  {
    hide Chain, Linked, Proper, VersionRefs;
    var path :| ChainFrom(artifacts, {v}, path, w);
    StaysListed(artifacts, {v}, w);
    ClosureIsLeast(artifacts, {w}, {});
    ChainBackwards(artifacts, Closure(artifacts, {w}), path);
  }

  /** The closure of several seeds is the union of their components. */
  lemma ClosureIsUnion(artifacts: seq<Artifact>, seeds: set<Ref>, w: Ref)
    requires seeds <= VersionRefs(artifacts)
    ensures w in Closure(artifacts, seeds) <==> exists v :: v in seeds && w in Closure(artifacts, {v})
  {
    if w in Closure(artifacts, seeds) {
      var path :| ChainFrom(artifacts, seeds, path, w);
      assert ChainFrom(artifacts, {path[0]}, path, w);
    }
    if v :| v in seeds && w in Closure(artifacts, {v}) {
      var path :| ChainFrom(artifacts, {v}, path, w);
      assert ChainFrom(artifacts, seeds, path, w);
    }
  }

  /** Two queries that name versions of one component get the same versions, edges and current version. */
  lemma SameLineage(artifacts: seq<Artifact>, p: Ref, q: Ref, v: Ref)
    requires Proper(artifacts) && v in VersionRefs(artifacts)
    requires Seeds(p, artifacts) != {} && Seeds(p, artifacts) <= Closure(artifacts, {v})
    requires Seeds(q, artifacts) != {} && Seeds(q, artifacts) <= Closure(artifacts, {v})
    ensures var first, second := Closure(artifacts, Seeds(p, artifacts)), Closure(artifacts, Seeds(q, artifacts));
            && Versions(artifacts, first) != [] && Versions(artifacts, second) != []
            && Answer(q, artifacts, second) == Answer(p, artifacts, first).(queryRef := q)
  {
    hide *;
    SameComponent(artifacts, v, Seeds(p, artifacts));
    SameComponent(artifacts, v, Seeds(q, artifacts));
    ClosureIsLeast(artifacts, {v}, {});
    IncludedAreVersions(artifacts, Closure(artifacts, {v}), v);
    AnswerKeepsQuery(artifacts, p, q, Closure(artifacts, {v}));
  }

  lemma AnswerKeepsQuery(artifacts: seq<Artifact>, p: Ref, q: Ref, included: set<Ref>)
    requires Versions(artifacts, included) != []
    ensures Answer(q, artifacts, included) == Answer(p, artifacts, included).(queryRef := q)
  {
  }

  // Versions and edges

  lemma VersionOrder()
    ensures StrictWeakOrder(VersionBefore)
  {
    forall x, y | VersionBefore(x, y) ensures !VersionBefore(y, x) { VersionAsymmetric(x, y); }
    forall x, y, z | !VersionBefore(y, x) && !VersionBefore(z, y) ensures !VersionBefore(z, x) {
      VersionTransitive(x, y, z);
    }
  }

  lemma VersionAsymmetric(x: Artifact, y: Artifact)
    requires VersionBefore(x, y)
    ensures !VersionBefore(y, x)
  {
    if SortKey(x) == SortKey(y) { LessAsymmetric(x.versionRef, y.versionRef); }
    else { LessAsymmetric(SortKey(x), SortKey(y)); }
  }

  lemma VersionTransitive(x: Artifact, y: Artifact, z: Artifact)
    requires !VersionBefore(y, x) && !VersionBefore(z, y)
    ensures !VersionBefore(z, x)
  {
    LessIrreflexive(SortKey(x));
    LessIrreflexive(SortKey(y));
    NotLessTransitive(SortKey(x), SortKey(y), SortKey(z));
    if SortKey(x) == SortKey(z) { NotLessTransitive(x.versionRef, y.versionRef, z.versionRef); }
  }

  lemma {:induction false} SelectMembers<T>(test: T -> bool, s: seq<T>, x: T)
    ensures x in Select(test, s) <==> x in s && test(x)
  {
    if s != [] {
      SelectMembers(test, s[..|s| - 1], x);
      assert s == s[..|s| - 1] + [s[|s| - 1]];
    }
  }

  /** The versions are the records of the closure, in order, the current one last. */
  lemma VersionsAreExact(artifacts: seq<Artifact>, included: set<Ref>, a: Artifact)
    ensures a in Versions(artifacts, included) <==> a in artifacts && a.versionRef in included
    ensures SortedBy(VersionBefore, Versions(artifacts, included))
  {
    var chosen := Select((a: Artifact) => a.versionRef in included, artifacts);
    VersionOrder();
    StableSortSorts(VersionBefore, chosen);
    SelectMembers((a: Artifact) => a.versionRef in included, artifacts, a);
    assert a in Versions(artifacts, included) <==> a in multiset(Versions(artifacts, included));
    assert a in chosen <==> a in multiset(chosen);
  }

  lemma EdgeAsymmetric(x: Edge, y: Edge)
    requires EdgeBefore(x, y)
    ensures !EdgeBefore(y, x)
  {
    if x.fromRef != y.fromRef { LessAsymmetric(x.fromRef, y.fromRef); }
    else if x.toRef != y.toRef { LessAsymmetric(x.toRef, y.toRef); }
    else { LessAsymmetric(x.relation, y.relation); }
  }

  lemma EdgeTransitive(x: Edge, y: Edge, z: Edge)
    requires !EdgeBefore(y, x) && !EdgeBefore(z, y)
    ensures !EdgeBefore(z, x)
  {
    LessIrreflexive(x.fromRef); LessIrreflexive(y.fromRef);
    NotLessTransitive(x.fromRef, y.fromRef, z.fromRef);
    if x.fromRef == z.fromRef {
      LessIrreflexive(x.toRef); LessIrreflexive(y.toRef);
      NotLessTransitive(x.toRef, y.toRef, z.toRef);
      if x.toRef == z.toRef { NotLessTransitive(x.relation, y.relation, z.relation); }
    }
  }

  lemma EdgeOrder()
    ensures StrictWeakOrder(EdgeBefore)
  {
    forall x, y | EdgeBefore(x, y) ensures !EdgeBefore(y, x) { EdgeAsymmetric(x, y); }
    forall x, y, z | !EdgeBefore(y, x) && !EdgeBefore(z, y) ensures !EdgeBefore(z, x) { EdgeTransitive(x, y, z); }
  }

  lemma {:induction false} ParentEdgesAre(a: Artifact, parents: seq<Ref>, included: set<Ref>, e: Edge)
    ensures e in ParentEdges(a, parents, included) <==>
            e.relation == DERIVED_FROM && e.toRef == a.versionRef && e.fromRef in parents && e.fromRef in included
  {
    if parents != [] {
      ParentEdgesAre(a, parents[..|parents| - 1], included, e);
      assert parents == parents[..|parents| - 1] + [parents[|parents| - 1]];
    }
  }

  /** The edge that record `a` contributes. */
  predicate Contributes(a: Artifact, included: set<Ref>, e: Edge) {
    && e.toRef == a.versionRef
    && (if e.relation == DERIVED_FROM then e.fromRef in a.basedOnVersions && e.fromRef in included
        else e.relation == BASED_ON_MESSAGE && e.fromRef in a.basedOnMessages)
  }

  lemma MessageEdgesAre(a: Artifact, e: Edge)
    ensures e in MessageEdges(a) <==>
            e.relation == BASED_ON_MESSAGE && e.toRef == a.versionRef && e.fromRef in a.basedOnMessages
  {
    if e.relation == BASED_ON_MESSAGE && e.toRef == a.versionRef && e.fromRef in a.basedOnMessages {
      var i :| 0 <= i < |a.basedOnMessages| && a.basedOnMessages[i] == e.fromRef;
      assert MessageEdges(a)[i] == e;
    }
  }

  lemma {:induction false} EdgesOfAre(versions: seq<Artifact>, included: set<Ref>, e: Edge)
    ensures e in EdgesOf(versions, included) <==> exists a :: a in versions && Contributes(a, included, e)
  {
    if versions != [] {
      var a, init := versions[|versions| - 1], versions[..|versions| - 1];
      EdgesOfAre(init, included, e);
      OwnEdgesAre(a, included, e);
      hide MessageEdges, ParentEdges, Contributes;
      assert versions == init + [a];
      if e in EdgesOf(init, included) {
        var b :| b in init && Contributes(b, included, e);
        assert b in versions;
      }
      if b :| b in versions && Contributes(b, included, e) { assert b == a || b in init; }
    }
  }

  lemma OwnEdgesAre(a: Artifact, included: set<Ref>, e: Edge)
    ensures e in MessageEdges(a) + ParentEdges(a, a.basedOnVersions, included) <==> Contributes(a, included, e)
  {
    MessageEdgesAre(a, e);
    ParentEdgesAre(a, a.basedOnVersions, included, e);
    assert BASED_ON_MESSAGE[0] != DERIVED_FROM[0];
  }

  /** The edges are exactly the based-on links of the listed versions, a version link only between included ones. */
  lemma EdgesAreExact(artifacts: seq<Artifact>, included: set<Ref>, e: Edge)
    ensures e in Edges(Versions(artifacts, included), included) <==>
            exists a :: a in artifacts && a.versionRef in included && Contributes(a, included, e)
    ensures SortedBy(EdgeBefore, Edges(Versions(artifacts, included), included))
  {
    var versions := Versions(artifacts, included);
    var edges := EdgesOf(versions, included);
    EdgeOrder();
    StableSortSorts(EdgeBefore, edges);
    EdgesOfAre(versions, included, e);
    forall a ensures a in versions <==> a in artifacts && a.versionRef in included {
      VersionsAreExact(artifacts, included, a);
    }
    assert e in Edges(versions, included) <==> e in multiset(Edges(versions, included));
    assert e in edges <==> e in multiset(edges);
  }

  // What a query is answered

  /** The query is one of the record's own refs. */
  predicate IsAskedBy(query: Ref, a: Artifact) {
    query in {a.versionRef, a.artifactRef, a.messageRef, a.attemptRef, a.taskRef}
  }

  lemma SeedsAreAsked(query: Ref, artifacts: seq<Artifact>, v: Ref)
    ensures v in Seeds(query, artifacts) <==> exists a :: a in artifacts && IsAskedBy(query, a) && a.versionRef == v
  {
    if a :| a in artifacts && IsAskedBy(query, a) && a.versionRef == v {
      var i :| 0 <= i < |artifacts| && artifacts[i] == a;
      assert Matches(query, artifacts[i]);
    }
  }

  /** A record is in the answer exactly when links lead to it from a record that the query is a ref of. */
  lemma LineageIsOfTheAsked(query: Ref, artifacts: seq<Artifact>, a: Artifact)
    ensures a in Versions(artifacts, Closure(artifacts, Seeds(query, artifacts))) <==>
            a in artifacts
            && exists b :: b in artifacts && IsAskedBy(query, b) && Reachable(artifacts, {b.versionRef}, a.versionRef)
  {
    var seeds, w := Seeds(query, artifacts), a.versionRef;
    VersionsAreExact(artifacts, Closure(artifacts, seeds), a);
    ClosureIsUnion(artifacts, seeds, w);
    if a in artifacts { assert w in VersionRefs(artifacts); }
    forall v ensures v in seeds <==> exists b :: b in artifacts && IsAskedBy(query, b) && b.versionRef == v {
      SeedsAreAsked(query, artifacts, v);
    }
    hide Seeds, Versions, IsAskedBy, Reachable, VersionRefs;
  }

  /** It is the artifact of a version before which none has one, or blank when none has one at all. */
  ghost predicate NamesFirst(versions: seq<Artifact>, named: Ref) {
    if named == "" then forall a :: a in versions ==> a.artifactRef == ""
    else
      exists first ::
        && first in versions && first.artifactRef == named
        && forall a :: a in versions && VersionBefore(a, first) ==> a.artifactRef == ""
  }

  /**
   * The answer names the last of its versions as current, and the first artifact that any of them names, in their
   * order.
   */
  lemma AnswerNames(query: Ref, artifacts: seq<Artifact>, included: set<Ref>)
    requires Versions(artifacts, included) != []
    ensures var lineage := Answer(query, artifacts, included);
            && lineage.queryRef == query
            && (exists last :: last in lineage.versions && last.versionRef == lineage.currentVersionRef
                               && forall a :: a in lineage.versions ==> !VersionBefore(last, a))
            && NamesFirst(lineage.versions, lineage.artifactRef)
  {
    var versions := Versions(artifacts, included);
    VersionsAreExact(artifacts, included, versions[0]);
    hide Versions, Edges, VersionBefore;
    LastIsNotBefore(versions);
    FirstNamed(versions);
  }

  lemma LastIsNotBefore(versions: seq<Artifact>)
    requires versions != [] && SortedBy(VersionBefore, versions)
    ensures forall a :: a in versions ==> !VersionBefore(versions[|versions| - 1], a)
  {
    var last := versions[|versions| - 1];
    forall a | a in versions ensures !VersionBefore(last, a) {
      if VersionBefore(last, a) { VersionAsymmetric(last, a); }
      hide VersionBefore;
      var i :| 0 <= i < |versions| && versions[i] == a;
    }
  }

  lemma {:induction false} FirstNamed(versions: seq<Artifact>)
    requires SortedBy(VersionBefore, versions)
    ensures NamesFirst(versions, FirstArtifactRef(versions))
  {
    hide VersionBefore;
    if versions != [] {
      var head, rest := versions[0], versions[1..];
      assert versions == [head] + rest;
      FirstNamed(rest);
      if head.artifactRef != "" {
        forall a | a in versions ensures !VersionBefore(a, head) {
          VersionNotBeforeItself(head);
          var i :| 0 <= i < |versions| && versions[i] == a;
        }
      }
    }
  }

  lemma VersionNotBeforeItself(a: Artifact)
    ensures !VersionBefore(a, a)
  {
    if VersionBefore(a, a) { VersionAsymmetric(a, a); }
  }
}
