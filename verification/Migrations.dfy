/** The migration graph: three head computations and what a single head guarantees. */
module Migrations {
  import opened Outcomes
  import opened Text

  /** The value a migration file assigns to down_revision. */
  datatype Down = Absent | NoneValue | Single(name: string) | Merge(names: seq<string>)

  datatype Node = Node(revision: string, down: Down)

  type Nodes = seq<Node>

  // ----- the graph the integrity check sees: names trimmed, empty names dropped -----

  function Revision(n: Node): string {
    Strip(n.revision)
  }

  predicate IsParent(p: string, n: Node) {
    p != "" && match n.down
      case Single(name) => p == Strip(name)
      case Merge(names) => exists i :: 0 <= i < |names| && p == Strip(names[i])
      case _ => false
  }

  function Revisions(nodes: Nodes): set<string> {
    set i | 0 <= i < |nodes| :: Revision(nodes[i])
  }

  ghost predicate Distinct(nodes: Nodes) {
    forall i, j :: 0 <= i < j < |nodes| ==> Revision(nodes[i]) != Revision(nodes[j])
  }

  ghost predicate Edge(nodes: Nodes, child: string, parent: string) {
    exists i :: 0 <= i < |nodes| && Revision(nodes[i]) == child && IsParent(parent, nodes[i])
  }

  ghost predicate Referenced(nodes: Nodes, p: string) {
    exists i :: 0 <= i < |nodes| && IsParent(p, nodes[i])
  }

  ghost predicate ParentsKnown(nodes: Nodes) {
    forall p :: Referenced(nodes, p) ==> p in Revisions(nodes)
  }

  /** The revisions that are no revision's parent. */
  ghost function Heads(nodes: Nodes): set<string> {
    set r | r in Revisions(nodes) && !Referenced(nodes, r)
  }

  ghost predicate Named(nodes: Nodes) {
    forall i :: 0 <= i < |nodes| ==> Revision(nodes[i]) != ""
  }

  /** The single-head policy on files that each name a revision. */
  ghost predicate Accepted(nodes: Nodes) {
    nodes != [] && Named(nodes) && Distinct(nodes) && ParentsKnown(nodes) && |Heads(nodes)| == 1
  }

  // ----- verify_alembic_heads -----

  method ParentsOf(n: Node) returns (refs: seq<string>)
    ensures forall p :: p in refs <==> IsParent(p, n)
  {
    refs := [];
    match n.down {
      case Single(name) =>
        if Strip(name) != "" {
          refs := [Strip(name)];
        }
      case Merge(names) =>
        for i := 0 to |names|
          invariant forall p :: p in refs <==> p != "" && exists j :: 0 <= j < i && p == Strip(names[j])
        {
          if Strip(names[i]) != "" {
            refs := refs + [Strip(names[i])];
          }
        }
      case _ =>
    }
  }

  /** The distinct revisions are as many as the files only if no two files share one. */
  method CollectRevisions(nodes: Nodes) returns (revisions: set<string>)
    ensures revisions == Revisions(nodes)
    ensures |revisions| == |nodes| <==> Distinct(nodes)
  {
    hide Strip;
    revisions := {};
    ghost var distinct := true;
    for i := 0 to |nodes|
      invariant revisions == set j | 0 <= j < i :: Revision(nodes[j])
      invariant |revisions| <= i && (distinct <==> |revisions| == i)
      invariant distinct <==> forall j, k :: 0 <= j < k < i ==> Revision(nodes[j]) != Revision(nodes[k])
    {
      distinct := distinct && Revision(nodes[i]) !in revisions;
      revisions := revisions + {Revision(nodes[i])};
    }
  }

  method AddParents(refs: seq<string>, revisions: set<string>, before: set<string>) returns (known: bool, referenced: set<string>)
    ensures known <==> forall p :: p in refs ==> p in revisions
    ensures known ==> referenced == before + set p | p in refs
  {
    known, referenced := true, before;
    for i := 0 to |refs|
      invariant forall j :: 0 <= j < i ==> refs[j] in revisions
      invariant referenced == before + set p | p in refs[..i]
    {
      if refs[i] !in revisions {
        return false, referenced;
      }
      assert refs[..i + 1] == refs[..i] + [refs[i]];
      referenced := referenced + {refs[i]};
    }
    assert refs[..|refs|] == refs;
  }

  lemma SingletonSet<T>(s: set<T>, x: T)
    requires |s| == 1 && x in s
    ensures s == {x}
  {
    assert |s - {x}| == 0;
  }

  method VerifyAlembicHeads(nodes: Nodes) returns (r: Result<string>)
    ensures r.Ok? <==> Accepted(nodes)
    ensures r.Ok? ==> Heads(nodes) == {r.value}
  {
    hide IsParent, Strip;
    if nodes == [] { return Error("no migration files"); }
    for i := 0 to |nodes|
      invariant forall j :: 0 <= j < i ==> Revision(nodes[j]) != ""
    {
      if Revision(nodes[i]) == "" { return Error("missing revision identifier"); }
    }
    var revisions := CollectRevisions(nodes);
    if |revisions| != |nodes| { return Error("duplicate revision"); }
    var referenced: set<string> := {};
    for i := 0 to |nodes|
      invariant forall p :: p in referenced <==> exists j :: 0 <= j < i && IsParent(p, nodes[j])
      invariant referenced <= revisions
    {
      var refs := ParentsOf(nodes[i]);
      var known;
      known, referenced := AddParents(refs, revisions, referenced);
      if !known {
        assert exists p :: p in refs && p !in revisions && Referenced(nodes, p);
        return Error("unknown parent");
      }
    }
    var heads := set h | h in revisions && h !in referenced;
    assert heads == Heads(nodes);
    if |heads| != 1 { return Error("not exactly one head"); }
    var head :| head in heads;
    SingletonSet(heads, head);
    return Ok(head);
  }

  // ----- the other two head computations -----

  /** The parents diag_migrations removes: "None" and "base" written as plain text are not revisions. */
  predicate Removes(d: Down, p: string) {
    match d
    case Single(name) => p == name && name != "" && name != "None" && name != "base"
    case Merge(names) => p in names
    case _ => false
  }

  /** The last file to declare a revision decides its parents. */
  function Graph(nodes: Nodes): map<string, Down> {
    if nodes == [] then map[] else
    var last := nodes[|nodes| - 1];
    Graph(nodes[..|nodes| - 1])[last.revision := last.down]
  }

  method BuildGraph(nodes: Nodes) returns (graph: map<string, Down>)
    ensures graph == Graph(nodes)
  {
    graph := map[];
    for i := 0 to |nodes|
      invariant graph == Graph(nodes[..i])
    {
      assert nodes[..i + 1][..i] == nodes[..i];
      graph := graph[nodes[i].revision := nodes[i].down];
    }
    assert nodes[..|nodes|] == nodes;
  }

  method RemoveParents(before: set<string>, d: Down) returns (heads: set<string>)
    ensures heads == set r | r in before && !Removes(d, r)
  {
    heads := before;
    match d {
      case Merge(names) =>
        for i := 0 to |names|
          invariant heads == set r | r in before && r !in names[..i]
        {
          assert names[..i + 1] == names[..i] + [names[i]];
          heads := heads - {names[i]};
        }
        assert names[..|names|] == names;
      case Single(name) =>
        if name != "" && name != "None" && name != "base" {
          heads := heads - {name};
        }
      case _ =>
    }
  }

  ghost function DiagnosedHeads(nodes: Nodes): set<string> {
    set r | r in Graph(nodes) && forall k :: k in Graph(nodes) ==> !Removes(Graph(nodes)[k], r)
  }

  method DiagnoseHeads(nodes: Nodes) returns (heads: set<string>)
    ensures heads == DiagnosedHeads(nodes)
  {
    hide Removes, Graph;
    var graph := BuildGraph(nodes);
    heads := graph.Keys;
    var pending := graph.Keys;
    while pending != {}
      invariant pending <= graph.Keys
      invariant heads == set r | r in graph && forall k :: k in graph && k !in pending ==> !Removes(graph[k], r)
      decreases |pending|
    {
      var k :| k in pending;
      heads := RemoveParents(heads, graph[k]);
      pending := pending - {k};
    }
  }

  /** The parents find_minimal_heads collects: every declared text, "None" included. */
  function CollectedParents(d: Down): set<string> {
    match d
    case Absent => {}
    case NoneValue => {"None"}
    case Single(name) => {name}
    case Merge(names) => set p | p in names
  }

  ghost function MinimalHeads(nodes: Nodes): set<string> {
    (set i | 0 <= i < |nodes| :: nodes[i].revision)
    - (set i, p | 0 <= i < |nodes| && p in CollectedParents(nodes[i].down) :: p)
  }

  method FindMinimalHeads(nodes: Nodes) returns (heads: set<string>)
    ensures heads == MinimalHeads(nodes)
  {
    var revisions: set<string>, parents: set<string> := {}, {};
    for i := 0 to |nodes|
      invariant revisions == set j | 0 <= j < i :: nodes[j].revision
      invariant parents == set j, p | 0 <= j < i && p in CollectedParents(nodes[j].down) :: p
    {
      revisions := revisions + {nodes[i].revision};
      var declared: set<string> := {};
      match nodes[i].down {
        case Absent =>
        case NoneValue => declared := {"None"};
        case Single(name) => declared := {name};
        case Merge(names) => declared := set p | p in names;
      }
      assert declared == CollectedParents(nodes[i].down);
      parents := parents + declared;
    }
    heads := revisions - parents;
  }

  // ----- agreement -----

  /** Names are written without surrounding space; no revision is empty or named None or base. */
  ghost predicate WellNamed(n: Node) {
    && Trimmed(n.revision) && n.revision != "" && n.revision != "None" && n.revision != "base"
    && match n.down
      case Single(name) => Trimmed(name)
      case Merge(names) => forall i :: 0 <= i < |names| ==> Trimmed(names[i])
      case _ => true
  }

  lemma SameParents(n: Node, r: string)
    requires WellNamed(n) && r != "" && r != "None" && r != "base"
    ensures Revision(n) == n.revision
    ensures IsParent(r, n) == Removes(n.down, r) == (r in CollectedParents(n.down))
  {
    hide Strip, Trimmed;
    TrimmedStrip(n.revision);
    match n.down {
      case Single(name) => TrimmedStrip(name);
      case Merge(names) =>
        forall i | 0 <= i < |names| ensures Strip(names[i]) == names[i] {
          TrimmedStrip(names[i]);
        }
      case _ =>
    }
  }

  lemma {:induction false} GraphOfDistinct(nodes: Nodes)
    requires forall i, j :: 0 <= i < j < |nodes| ==> nodes[i].revision != nodes[j].revision
    ensures forall r :: r in Graph(nodes) <==> exists i :: 0 <= i < |nodes| && nodes[i].revision == r
    ensures forall i :: 0 <= i < |nodes| ==> Graph(nodes)[nodes[i].revision] == nodes[i].down
  {
    if nodes != [] {
      var init := nodes[..|nodes| - 1];
      assert forall i :: 0 <= i < |init| ==> init[i] == nodes[i];
      GraphOfDistinct(init);
    }
  }

  /** On distinct, well-named revisions the three scripts compute the same heads. */
  lemma HeadsAgree(nodes: Nodes)
    requires Distinct(nodes) && forall i :: 0 <= i < |nodes| ==> WellNamed(nodes[i])
    ensures DiagnosedHeads(nodes) == Heads(nodes) && MinimalHeads(nodes) == Heads(nodes)
  {
    hide Removes, CollectedParents, IsParent, Graph, Strip, Trimmed;
    forall i, r | 0 <= i < |nodes| && r != "" && r != "None" && r != "base"
      ensures Revision(nodes[i]) == nodes[i].revision
      ensures IsParent(r, nodes[i]) == Removes(nodes[i].down, r) == (r in CollectedParents(nodes[i].down))
    {
      SameParents(nodes[i], r);
    }
    forall i | 0 <= i < |nodes| ensures Revision(nodes[i]) == nodes[i].revision {
      SameParents(nodes[i], nodes[i].revision);
    }
    hide Revision;
    GraphOfDistinct(nodes);
    assert MinimalHeads(nodes) == Heads(nodes);
    assert forall r :: r in Heads(nodes) ==> r in DiagnosedHeads(nodes);
    assert DiagnosedHeads(nodes) == Heads(nodes);
  }

  // ----- what a single head guarantees -----

  /** A walk from a revision down to parents. */
  ghost predicate IsPath(nodes: Nodes, path: seq<string>) {
    path != [] && forall k :: 0 <= k < |path| - 1 ==> Edge(nodes, path[k], path[k + 1])
  }

  ghost predicate Reachable(nodes: Nodes, from: string, to: string) {
    exists path :: IsPath(nodes, path) && path[0] == from && path[|path| - 1] == to
  }

  ghost predicate AllReachableFrom(nodes: Nodes, h: string) {
    h in Revisions(nodes) && forall r :: r in Revisions(nodes) ==> Reachable(nodes, h, r)
  }

  /** A walk of at least one step leads from the revision back to it. */
  ghost predicate OnCycle(nodes: Nodes, r: string) {
    exists path :: IsPath(nodes, path) && |path| > 1 && path[0] == r && path[|path| - 1] == r
  }

  ghost predicate Acyclic(nodes: Nodes) {
    forall r :: !OnCycle(nodes, r)
  }

  lemma ReferencedByChild(nodes: Nodes, p: string) returns (child: string)
    requires Referenced(nodes, p)
    ensures child in Revisions(nodes) && Edge(nodes, child, p)
  {
    var i :| 0 <= i < |nodes| && IsParent(p, nodes[i]);
    child := Revision(nodes[i]);
  }

  lemma EdgeFromRevision(nodes: Nodes, child: string, parent: string)
    requires Edge(nodes, child, parent)
    ensures child in Revisions(nodes) && Referenced(nodes, parent)
  {
    hide IsParent, Strip;
  }

  lemma ReachableTrans(nodes: Nodes, a: string, b: string, c: string)
    requires Reachable(nodes, a, b) && Reachable(nodes, b, c)
    ensures Reachable(nodes, a, c)
  {
    hide Edge;
    var p :| IsPath(nodes, p) && p[0] == a && p[|p| - 1] == b;
    var q :| IsPath(nodes, q) && q[0] == b && q[|q| - 1] == c;
    var path := p + q[1..];
    forall k | 0 <= k < |path| - 1 ensures Edge(nodes, path[k], path[k + 1]) {
      if k < |p| - 1 {
        assert Edge(nodes, p[k], p[k + 1]);
      } else {
        assert Edge(nodes, q[k + 1 - |p|], q[k + 2 - |p|]);
      }
    }
    assert IsPath(nodes, path) && path[0] == a && path[|path| - 1] == c;
  }

  ghost predicate NoRepeats(path: seq<string>) {
    forall i, j :: 0 <= i < j < |path| ==> path[i] != path[j]
  }

  lemma {:induction false} NoRepeatsFits(path: seq<string>, within: set<string>)
    requires NoRepeats(path) && forall k :: 0 <= k < |path| ==> path[k] in within
    ensures |path| <= |within|
  {
    if path != [] {
      var n := |path| - 1;
      NoRepeatsFits(path[..n], within - {path[n]});
    }
  }

  /** Part of a walk, from position j to its end. */
  lemma SuffixReaches(nodes: Nodes, path: seq<string>, j: nat)
    requires IsPath(nodes, path) && j < |path|
    ensures Reachable(nodes, path[j], path[|path| - 1])
  {
    hide Edge;
    var suffix := path[j..];
    forall k | 0 <= k < |suffix| - 1 ensures Edge(nodes, suffix[k], suffix[k + 1]) {
      assert Edge(nodes, path[j + k], path[j + k + 1]);
    }
    assert IsPath(nodes, suffix) && suffix[0] == path[j] && suffix[|suffix| - 1] == path[|path| - 1];
  }

  /** A walk that returns to one of its own revisions closes a cycle. */
  lemma ClosesCycle(nodes: Nodes, path: seq<string>, j: nat)
    requires IsPath(nodes, path) && j < |path| && Edge(nodes, path[j], path[0])
    ensures OnCycle(nodes, path[j])
  {
    hide Edge;
    var cycle := [path[j]] + path[..j + 1];
    forall k | 0 <= k < |cycle| - 1 ensures Edge(nodes, cycle[k], cycle[k + 1]) {
      if k > 0 {
        assert Edge(nodes, path[k - 1], path[k]);
      }
    }
    assert IsPath(nodes, cycle) && cycle[0] == path[j] && cycle[|cycle| - 1] == path[j];
  }

  /** Walking up from the start of a walk ends at a head or closes a cycle. */
  lemma {:induction false} WalkUp(nodes: Nodes, path: seq<string>) returns (top: string)
    requires IsPath(nodes, path) && NoRepeats(path)
    requires forall k :: 0 <= k < |path| ==> path[k] in Revisions(nodes)
    ensures Reachable(nodes, top, path[|path| - 1]) && (top in Heads(nodes) || OnCycle(nodes, top))
    decreases |Revisions(nodes)| - |path|
  {
    hide Edge, Referenced, Revisions, OnCycle, Reachable;
    NoRepeatsFits(path, Revisions(nodes));
    if !Referenced(nodes, path[0]) {
      top := path[0];
      SuffixReaches(nodes, path, 0);
    } else {
      var child := ReferencedByChild(nodes, path[0]);
      if child in path {
        var j :| 0 <= j < |path| && path[j] == child;
        top := child;
        SuffixReaches(nodes, path, j);
        ClosesCycle(nodes, path, j);
      } else {
        var longer := [child] + path;
        forall k | 0 <= k < |longer| - 1 ensures Edge(nodes, longer[k], longer[k + 1]) {
          if k > 0 {
            assert Edge(nodes, path[k - 1], path[k]);
          }
        }
        NoRepeatsFits(longer, Revisions(nodes));
        top := WalkUp(nodes, longer);
      }
    }
  }

  /** Every revision of any graph is reached from a head or from a revision on a cycle. */
  lemma HeadOrCycleAbove(nodes: Nodes, r: string) returns (top: string)
    requires r in Revisions(nodes)
    ensures Reachable(nodes, top, r) && (top in Heads(nodes) || OnCycle(nodes, top))
  {
    hide Edge, Revisions, Referenced;
    assert IsPath(nodes, [r]);
    top := WalkUp(nodes, [r]);
  }

  lemma CycleWithinRevisions(nodes: Nodes, r: string)
    requires OnCycle(nodes, r)
    ensures r in Revisions(nodes)
  {
    hide Edge, Revisions;
    var path :| IsPath(nodes, path) && |path| > 1 && path[0] == r && path[|path| - 1] == r;
    assert Edge(nodes, path[0], path[1]);
    EdgeFromRevision(nodes, path[0], path[1]);
  }

  /** Below a single head everything is reachable exactly when every revision on a cycle is. */
  lemma SingleHeadReaches(nodes: Nodes, h: string)
    requires Heads(nodes) == {h}
    ensures AllReachableFrom(nodes, h) <==> forall r :: OnCycle(nodes, r) ==> Reachable(nodes, h, r)
  {
    hide Reachable, Revisions, Referenced, OnCycle;
    assert h in Revisions(nodes) by { assert h in Heads(nodes); }
    forall r | OnCycle(nodes, r) ensures r in Revisions(nodes) {
      CycleWithinRevisions(nodes, r);
    }
    if forall r :: OnCycle(nodes, r) ==> Reachable(nodes, h, r) {
      forall r | r in Revisions(nodes) ensures Reachable(nodes, h, r) {
        var top := HeadOrCycleAbove(nodes, r);
        if top != h {
          ReachableTrans(nodes, h, top, r);
        }
      }
    }
  }

  /**
    What acceptance is worth, on any graph: the returned head reaches every revision exactly
    when it reaches the revisions on cycles.
   */
  lemma AcceptedReachesAll(nodes: Nodes, h: string)
    requires Accepted(nodes) && Heads(nodes) == {h}
    ensures AllReachableFrom(nodes, h) <==> forall r :: OnCycle(nodes, r) ==> Reachable(nodes, h, r)
    ensures Acyclic(nodes) ==> AllReachableFrom(nodes, h)
  {
    hide Heads, AllReachableFrom, OnCycle, Reachable;
    SingleHeadReaches(nodes, h);
  }

  // ----- graphs without cycles -----

  /** Every non-empty graph without cycles has a head. */
  lemma SomeHeadExists(nodes: Nodes) returns (h: string)
    requires nodes != [] && Acyclic(nodes)
    ensures h in Heads(nodes)
  {
    hide IsParent, Strip, Edge;
    assert Revision(nodes[0]) in Revisions(nodes);
    h := HeadOrCycleAbove(nodes, Revision(nodes[0]));
  }

  lemma ReachedIsReferenced(nodes: Nodes, h: string, r: string)
    requires Reachable(nodes, h, r) && r != h
    ensures Referenced(nodes, r)
  {
    hide IsParent, Strip, Edge, Referenced;
    var path :| IsPath(nodes, path) && path[0] == h && path[|path| - 1] == r;
    EdgeFromRevision(nodes, path[|path| - 2], path[|path| - 1]);
  }

  lemma ReferencedSourceIsOnCycle(nodes: Nodes, h: string)
    requires AllReachableFrom(nodes, h) && Referenced(nodes, h)
    ensures OnCycle(nodes, h)
  {
    hide Edge, Revisions, Referenced;
    var child := ReferencedByChild(nodes, h);
    var path :| IsPath(nodes, path) && path[0] == h && path[|path| - 1] == child;
    var cycle := path + [h];
    assert IsPath(nodes, cycle) && cycle[0] == h && cycle[|cycle| - 1] == h;
  }

  /** Without cycles, one head means one revision from which every other is reached, and conversely. */
  lemma SingleHeadTheorem(nodes: Nodes, h: string)
    requires Acyclic(nodes)
    ensures Heads(nodes) == {h} <==> AllReachableFrom(nodes, h)
  {
    hide Reachable, Revisions, Referenced, OnCycle;
    if Heads(nodes) == {h} {
      SingleHeadReaches(nodes, h);
    }
    if AllReachableFrom(nodes, h) {
      if Referenced(nodes, h) {
        ReferencedSourceIsOnCycle(nodes, h);
      }
      forall r | r in Heads(nodes) ensures r == h {
        if r != h {
          ReachedIsReferenced(nodes, h, r);
        }
      }
      assert Heads(nodes) == {h};
    }
  }

  /** On a graph without cycles the integrity check accepts exactly when one revision reaches every other. */
  lemma AcceptedMeansReachable(nodes: Nodes)
    requires Acyclic(nodes)
    ensures Accepted(nodes) <==>
      nodes != [] && Named(nodes) && Distinct(nodes) && ParentsKnown(nodes) && exists h :: AllReachableFrom(nodes, h)
  {
    hide Edge, IsParent, Strip, AllReachableFrom, Heads, Acyclic;
    forall h ensures Heads(nodes) == {h} <==> AllReachableFrom(nodes, h) {
      SingleHeadTheorem(nodes, h);
    }
    if |Heads(nodes)| == 1 {
      var h :| h in Heads(nodes);
      SingletonSet(Heads(nodes), h);
    }
  }

  /** The rank strictly decreases along down_revision. */
  ghost predicate Ranked(nodes: Nodes, rank: string -> nat) {
    forall child, parent :: Edge(nodes, child, parent) ==> rank(parent) < rank(child)
  }

  lemma {:induction false} RankFallsAlong(nodes: Nodes, rank: string -> nat, path: seq<string>)
    requires Ranked(nodes, rank) && IsPath(nodes, path)
    ensures rank(path[|path| - 1]) + |path| - 1 <= rank(path[0])
  {
    hide Edge;
    if |path| > 1 {
      var init := path[..|path| - 1];
      assert forall k :: 0 <= k < |init| ==> init[k] == path[k];
      RankFallsAlong(nodes, rank, init);
      assert Edge(nodes, path[|path| - 2], path[|path| - 1]);
    }
  }

  /** A rank rules out cycles. */
  lemma RankedIsAcyclic(nodes: Nodes, rank: string -> nat)
    requires Ranked(nodes, rank)
    ensures Acyclic(nodes)
  {
    hide Edge, Ranked, IsPath;
    forall r ensures !OnCycle(nodes, r) {
      if OnCycle(nodes, r) {
        var path :| IsPath(nodes, path) && |path| > 1 && path[0] == r && path[|path| - 1] == r;
        RankFallsAlong(nodes, rank, path);
      }
    }
  }

  // ----- an accepted graph that its head does not reach -----

  function Cyclic(): Nodes {
    [Node("a", NoneValue), Node("b", Single("c")), Node("c", Single("b"))]
  }

  lemma CyclicEdges(child: string, parent: string)
    ensures Revisions(Cyclic()) == {"a", "b", "c"} && Named(Cyclic()) && Distinct(Cyclic())
    ensures Edge(Cyclic(), child, parent) <==> (child == "b" && parent == "c") || (child == "c" && parent == "b")
    ensures Referenced(Cyclic(), parent) <==> parent == "b" || parent == "c"
  {
    hide Strip;
    var nodes := Cyclic();
    TrimmedStrip("a");
    TrimmedStrip("b");
    TrimmedStrip("c");
    assert Revision(nodes[0]) == "a" && Revision(nodes[1]) == "b" && Revision(nodes[2]) == "c";
    assert Revisions(nodes) == {Revision(nodes[0]), Revision(nodes[1]), Revision(nodes[2])};
    assert "a" != "b" && "b" != "c" && "a" != "c" by { assert "a"[0] != "b"[0] && "b"[0] != "c"[0] && "a"[0] != "c"[0]; }
    assert IsParent(parent, nodes[1]) <==> parent == "c";
    assert IsParent(parent, nodes[2]) <==> parent == "b";
    assert !IsParent(parent, nodes[0]);
  }

  /** With a cycle, acceptance does not make every revision reachable. */
  lemma CyclicGraphAccepted()
    ensures Accepted(Cyclic()) && Heads(Cyclic()) == {"a"}
    ensures "b" in Revisions(Cyclic()) && !Reachable(Cyclic(), "a", "b")
  {
    hide Edge, Referenced, Revisions;
    CyclicEdges("a", "a");
    forall p ensures Referenced(Cyclic(), p) <==> p == "b" || p == "c" {
      CyclicEdges("a", p);
    }
    assert "a" != "b" && "a" != "c" by { assert "a"[0] != "b"[0] && "a"[0] != "c"[0]; }
    assert Heads(Cyclic()) == {"a"};
    if Reachable(Cyclic(), "a", "b") {
      var path :| IsPath(Cyclic(), path) && path[0] == "a" && path[|path| - 1] == "b";
      assert |path| > 1;
      assert Edge(Cyclic(), path[0], path[1]);
      CyclicEdges(path[0], path[1]);
      assert false;
    }
  }
}
