/** The two depth-first searches over a map of nodes.  MapDag (dag.go) and
    MapUpgradingDag (upgrading_dag.go) carry the same code; it is given once. */
module GraphSearch {
  import opened Results
  import opened Digraph
  import opened PackageNodes

  type Nodes = map<string, Node>

  datatype Error = AlreadyExists(id: string) | DoesNotExist(id: string) | MissingInTree | CycleOn(id: string)

  /** The error names what is wrong: a node on a cycle, or a neighbour that is no node. */
  ghost predicate IsDefect(g: Graph, e: Error) {
    match e
    case CycleOn(id) => ReachesProperly(g, id, id)
    case DoesNotExist(id) => id !in g && exists a :: Edge(g, a, id)
    case _ => false
  }

  /** The adjacency lists of the stored nodes. */
  function GraphOf(nodes: Nodes): Graph {
    map id | id in nodes :: nodes[id].NeighborIds()
  }

  /** What the result slice of n slots holds once the nodes of done have finished:
      "" marks a free slot, so a node called "" never takes one. */
  ghost function Slots(done: seq<string>, n: nat): (s: seq<string>)
    requires |done| <= n
  {
    NonEmpty(done) + Blank(n - |NonEmpty(done)|)
  }

  ghost function Blank(n: nat): (s: seq<string>)
    ensures |s| == n && forall i :: 0 <= i < n ==> s[i] == ""
  {
    seq(n, i => "")
  }

  ghost function NonEmpty(done: seq<string>): (s: seq<string>)
    ensures |s| <= |done|
    ensures forall x :: x in s ==> x in done && x != ""
    ensures forall x :: x in done && x != "" ==> x in s
    ensures NoDup(done) ==> NoDup(s)
  {
    if done == [] then []
    else
      var init, last := done[..|done| - 1], done[|done| - 1];
      var rest := NonEmpty(init);
      assert NoDup(done) ==> NoDup(init) && last !in init;
      if last == "" then rest else rest + [last]
  }

  /** The maps and the slice that the visits of one Sort share.  Each bool map is
      kept as the set of the keys mapped to true. */
  class Walk {
    var visited: set<string>
    var stack: set<string>
    const results: array<string>
    ghost var done: seq<string>  // finished nodes, in the order they finished

    constructor (n: nat)
      ensures visited == {} && stack == {} && done == []
      ensures fresh(results) && results[..] == Slots([], n) && results.Length == n
    {
      visited, stack, done := {}, {}, [];
      results := new string[n](i => "");
      new;
      assert results[..] == Slots([], n);
    }

    /** path lists the nodes being visited, outermost first. */
    ghost predicate Valid(g: Graph, path: seq<string>)
      reads this, results
    {
      && Finished(g, done)
      && OnPath(g, path, done, visited, stack)
      && results.Length == |g|
      && |done| <= |g| && results[..] == Slots(done, |g|)
    }
  }

  /** Each finished node is new and finished after all of its neighbours. */
  ghost predicate Finished(g: Graph, done: seq<string>) {
    done == [] ||
    var init, last := done[..|done| - 1], done[|done| - 1];
    Finished(g, init) && last !in init && last in g && Below(g[last], init)
  }

  lemma {:induction false} FinishedIsTopological(g: Graph, done: seq<string>)
    requires Finished(g, done)
    ensures NoDup(done) && IsTopological(g, done) && Elements(done) <= g.Keys
    ensures |done| <= |g|
  {
    if done != [] {
      var init, last := done[..|done| - 1], done[|done| - 1];
      FinishedIsTopological(g, init);
      forall i | 0 <= i < |done| ensures done[i] in g && Below(g[done[i]], done[..i]) {
        if i < |init| {
          assert done[..i] == init[..i];
          assert init[i] in g && Below(g[init[i]], init[..i]);
        } else {
          assert done[..i] == init;
        }
      }
    }
    NoDupCard(done, g.Keys);
  }

  ghost function Elements(s: seq<string>): set<string> {
    set x | x in s
  }

  ghost predicate OnPath(g: Graph, path: seq<string>, done: seq<string>, visited: set<string>, stack: set<string>) {
    && (path != [] ==> IsWalk(g, path))
    && stack == Elements(path)
    && visited == Elements(done) + stack
    && Elements(done) !! stack
    && visited <= g.Keys
  }

  lemma Enter(g: Graph, path: seq<string>, done: seq<string>, visited: set<string>, stack: set<string>, name: string)
    requires OnPath(g, path, done, visited, stack) && name in g && name !in visited
    requires path != [] ==> Edge(g, path[|path| - 1], name)
    ensures OnPath(g, path + [name], done, visited + {name}, stack + {name})
  {
    var here := path + [name];
    forall i | 0 <= i < |here| - 1 ensures Edge(g, here[i], here[i + 1]) {
      if i < |path| - 1 { assert Edge(g, path[i], path[i + 1]); }
    }
    assert Elements(here) == Elements(path) + {name};
  }

  lemma Leave(g: Graph, path: seq<string>, done: seq<string>, visited: set<string>, stack: set<string>, name: string)
    requires OnPath(g, path + [name], done, visited, stack) && name !in path
    ensures OnPath(g, path, done + [name], visited, stack - {name})
  {
    var here := path + [name];
    if path != [] {
      forall i | 0 <= i < |path| - 1 ensures Edge(g, path[i], path[i + 1]) {
        assert Edge(g, here[i], here[i + 1]);
      }
    }
    assert Elements(here) == Elements(path) + {name};
    assert Elements(done + [name]) == Elements(done) + {name};
  }

  lemma LastOnPath(g: Graph, path: seq<string>, done: seq<string>, visited: set<string>, stack: set<string>,
                   name: string)
    requires OnPath(g, path + [name], done, visited, stack)
    ensures name !in done && Elements(done) <= g.Keys
  {
    assert (path + [name])[|path|] == name;
    assert name in Elements(path + [name]);
    assert name in done ==> name in Elements(done);
  }

  lemma Finish(g: Graph, done: seq<string>, name: string)
    requires Finished(g, done) && name in g && name !in done && Below(g[name], done)
    ensures |done| < |g| && Finished(g, done + [name])
  {
    assert (done + [name])[..|done|] == done;
    FinishedIsTopological(g, done + [name]);
  }

  lemma {:induction false} NoDupCard(s: seq<string>, keys: set<string>)
    requires NoDup(s) && forall x :: x in s ==> x in keys
    ensures |s| <= |keys|
    ensures |s| == |keys| ==> forall k :: k in keys ==> k in s
  {
    if s != [] {
      var last := s[|s| - 1];
      var init := s[..|s| - 1];
      assert last !in init;
      NoDupCard(init, keys - {last});
      if |s| == |keys| {
        forall k | k in keys ensures k in s {
          if k != last { assert k in keys - {last}; }
        }
      }
    }
  }

  /** Takes the first free slot for name. */
  method Place(results: array<string>, name: string, ghost done: seq<string>)
    requires |done| < results.Length && results[..] == Slots(done, results.Length)
    modifies results
    ensures results[..] == Slots(done + [name], results.Length)
  {
    ghost var k := |NonEmpty(done)|;
    ghost var n := results.Length;
    assert (done + [name])[..|done + [name]| - 1] == done;
    assert forall j :: 0 <= j < n ==> results[j] == results[..][j];
    for i := 0 to results.Length
      invariant i <= k
      invariant results[..] == Slots(done, n)
    {
      assert results[i] == results[..][i] == Slots(done, n)[i];
      if i < k {
        assert results[i] == NonEmpty(done)[i] && results[i] in NonEmpty(done);
      }
      if results[i] == "" {
        results[i] := name;
        assert results[..] == Slots(done + [name], n);
        return;
      }
    }
  }

  /** The start of a visit: name joins the stack. */
  method BeginVisit(ghost g: Graph, name: string, w: Walk, ghost path: seq<string>)
    requires name in g && w.Valid(g, path) && name !in w.visited
    requires path != [] ==> Edge(g, path[|path| - 1], name)
    modifies w`visited, w`stack
    ensures w.Valid(g, path + [name]) && w.visited == old(w.visited) + {name}
    ensures name !in path
  {
    Enter(g, path, w.done, w.visited, w.stack, name);
    w.visited := w.visited + {name};
    w.stack := w.stack + {name};
  }

  ghost predicate AreNeighbors(ns: seq<Node>, ids: seq<string>) {
    |ns| == |ids| && forall i :: 0 <= i < |ns| ==> ns[i].identifier == ids[i]
  }

  ghost predicate Kept(before: seq<string>, after: seq<string>) {
    forall x :: x in before ==> x in after
  }

  ghost predicate AllIn(ns: seq<Node>, k: nat, done: seq<string>)
    requires k <= |ns|
  {
    forall j :: 0 <= j < k ==> ns[j].identifier in done
  }

  lemma StillBelow(ns: seq<Node>, k: nat, before: seq<string>, after: seq<string>)
    requires k < |ns| && AllIn(ns, k, before) && Kept(before, after) && ns[k].identifier in after
    ensures AllIn(ns, k + 1, after)
  {
  }

  lemma NeighborsBelow(ns: seq<Node>, ids: seq<string>, done: seq<string>)
    requires AreNeighbors(ns, ids)
    requires AllIn(ns, |ns|, done)
    ensures Below(ids, done)
  {
    forall b | b in ids ensures b in done {
      var j :| 0 <= j < |ids| && ids[j] == b;
      assert ns[j].identifier in done;
    }
  }

  /** Visits name below the nodes of path.  It fails only on a real defect of the graph;
      otherwise name has finished and everything that had finished before still has. */
  method Visit(nodes: Nodes, name: string, neighbors: seq<Node>, w: Walk, ghost g: Graph, ghost path: seq<string>)
    returns (err: Option<Error>)
    requires g == GraphOf(nodes) && name in g && AreNeighbors(neighbors, g[name])
    requires w.Valid(g, path) && name !in w.visited
    requires path != [] ==> Edge(g, path[|path| - 1], name)
    modifies w, w.results
    ensures err.None? ==> w.Valid(g, path) && name in w.done
    ensures err.None? ==> Kept(old(w.done), w.done) && old(w.visited) <= w.visited
    ensures err.Some? ==> IsDefect(g, err.value)
    decreases g.Keys - w.visited, 0
  {
    ghost var here := path + [name];
    BeginVisit(g, name, w, path);
    for i := 0 to |neighbors|
      invariant w.Valid(g, here)
      invariant Kept(old(w.done), w.done)
      invariant name in w.visited && old(w.visited) <= w.visited
      invariant AllIn(neighbors, i, w.done)
    {
      assert Edge(g, here[|here| - 1], neighbors[i].identifier);
      ghost var before := w.done;
      err := VisitNeighbor(nodes, neighbors[i].identifier, w, g, here);
      if err.Some? { return; }
      StillBelow(neighbors, i, before, w.done);
    }
    NeighborsBelow(neighbors, g[name], w.done);
    FinishVisit(g, name, w, path);
    return None;
  }

  /** One round of the loop in Visit: below the last node of here, look at its neighbour n. */
  method VisitNeighbor(nodes: Nodes, n: string, w: Walk, ghost g: Graph, ghost here: seq<string>)
    returns (err: Option<Error>)
    requires g == GraphOf(nodes) && w.Valid(g, here)
    requires here != [] && Edge(g, here[|here| - 1], n)
    modifies w, w.results
    ensures err.None? ==> w.Valid(g, here) && n in w.done
    ensures err.None? ==> Kept(old(w.done), w.done) && old(w.visited) <= w.visited
    ensures err.Some? ==> IsDefect(g, err.value)
    decreases g.Keys - w.visited, 1
  {
    if n !in w.visited {
      if n !in nodes {
        return Some(DoesNotExist(n));
      }
      var ns := nodes[n].Neighbors();
      err := Visit(nodes, n, ns, w, g, here);
    } else if n in w.stack {
      BackEdgeMakesCycle(g, here, n);
      err := Some(CycleOn(n));
    } else {
      err := None;
    }
  }

  /** The end of a visit: name takes a slot and leaves the stack. */
  method FinishVisit(ghost g: Graph, name: string, w: Walk, ghost path: seq<string>)
    requires w.Valid(g, path + [name]) && name !in path && name in g
    requires Below(g[name], w.done)
    modifies w, w.results
    ensures w.Valid(g, path) && w.done == old(w.done) + [name]
  {
    LastOnPath(g, path, w.done, w.visited, w.stack, name);
    Finish(g, w.done, name);
    Leave(g, path, w.done, w.visited, w.stack, name);
    Place(w.results, name, w.done);
    w.stack := w.stack - {name};
    w.done := w.done + [name];
  }

  // ----- Sort -----

  ghost predicate NobodyNeeds(g: Graph, id: string) {
    forall a :: a in g ==> id !in g[a]
  }

  /** When nobody lists "" as a neighbour, dropping it keeps a finishing order topological. */
  lemma {:induction false} NonEmptyStaysTopological(g: Graph, done: seq<string>)
    requires Finished(g, done)
    requires NobodyNeeds(g, "")
    ensures IsTopological(g, NonEmpty(done))
  {
    if done != [] {
      var init, last := done[..|done| - 1], done[|done| - 1];
      NonEmptyStaysTopological(g, init);
      var rest, all := NonEmpty(init), NonEmpty(done);
      forall i | 0 <= i < |all| ensures all[i] in g && Below(g[all[i]], all[..i]) {
        if i < |rest| {
          assert all[..i] == rest[..i];
          assert rest[i] in g && Below(g[rest[i]], rest[..i]);
        } else {
          assert all[..i] == rest;
        }
      }
    }
  }

  lemma {:induction false} NonEmptyLength(done: seq<string>)
    requires NoDup(done)
    ensures |NonEmpty(done)| == if "" in done then |done| - 1 else |done|
  {
    if done != [] {
      var init := done[..|done| - 1];
      NonEmptyLength(init);
    }
  }

  /** What the slice holds once every node has finished: "" stands last. */
  ghost function Outcome(done: seq<string>): seq<string> {
    NonEmpty(done) + if "" in done then [""] else []
  }

  ghost predicate AllFinished(g: Graph, done: seq<string>) {
    Finished(g, done) && forall k :: k in g ==> k in done
  }

  lemma SlotsAtTheEnd(g: Graph, done: seq<string>)
    requires AllFinished(g, done)
    ensures |done| == |g| && Slots(done, |g|) == Outcome(done)
  {
    FinishedIsTopological(g, done);
    assert Elements(done) == g.Keys;
    DistinctCount(done);
    NonEmptyLength(done);
    assert |g| == |done|;
    var free := |done| - |NonEmpty(done)|;
    assert Blank(free) == if "" in done then [""] else [];
  }

  lemma OutcomeListsEachOnce(g: Graph, done: seq<string>)
    requires AllFinished(g, done)
    ensures NoDup(Outcome(done)) && Elements(Outcome(done)) == g.Keys
  {
    FinishedIsTopological(g, done);
    forall x ensures x in Outcome(done) <==> x in g {
      assert x in done <==> x in Elements(done);
    }
  }

  lemma {:induction false} DistinctCount(s: seq<string>)
    ensures |Elements(s)| <= |s|
  {
    if s != [] {
      var init := s[..|s| - 1];
      DistinctCount(init);
      assert Elements(s) == Elements(init) + {s[|s| - 1]};
    }
  }

  lemma EmptyNeighborBreaksOrder(g: Graph, done: seq<string>, a: string)
    requires AllFinished(g, done) && a in g && "" in g[a]
    ensures !IsTopological(g, Outcome(done))
  {
    var s, front := Outcome(done), NonEmpty(done);
    OutcomeListsEachOnce(g, done);
    assert a in Elements(s);
    var i := IndexOf(s, a);
    assert s[..i] <= front;
    assert "" !in s[..i];
    assert !Below(g[s[i]], s[..i]);
  }

  lemma OutcomeTopological(g: Graph, done: seq<string>)
    requires AllFinished(g, done) && NobodyNeeds(g, "")
    ensures IsTopological(g, Outcome(done))
  {
    NonEmptyStaysTopological(g, done);
    var s, front := Outcome(done), NonEmpty(done);
    if "" in done {
      FinishedIsTopological(g, done);
      var k := IndexOf(done, "");
      assert Below(g[done[k]], done[..k]);
      assert Below(g[""], front);
    }
    forall i | 0 <= i < |s| ensures s[i] in g && Below(g[s[i]], s[..i]) {
      if i < |front| {
        assert s[..i] == front[..i] && s[i] == front[i];
        assert front[i] in g && Below(g[front[i]], front[..i]);
      } else {
        assert s[..i] == front;
      }
    }
  }

  lemma OutcomeTopologicalIff(g: Graph, done: seq<string>)
    requires AllFinished(g, done)
    ensures IsTopological(g, Outcome(done)) <==> NobodyNeeds(g, "")
  {
    if a :| a in g && "" in g[a] {
      EmptyNeighborBreaksOrder(g, done, a);
    } else {
      OutcomeTopological(g, done);
    }
  }

  /** Topological sort.  It fails exactly on a cycle or a neighbour that is no node.
      Otherwise it lists every node once, and below its neighbours exactly when no
      node has the empty identifier as a neighbour: "" marks a free slot, so a node
      called "" always ends up last. */
  method Sort(nodes: Nodes) returns (r: Result<seq<string>, Error>)
    ensures r.Err? <==> HasCycle(GraphOf(nodes)) || HasDangling(GraphOf(nodes))
    ensures r.Err? ==> IsDefect(GraphOf(nodes), r.error)
    ensures r.Ok? ==> NoDup(r.value) && Elements(r.value) == nodes.Keys
    ensures r.Ok? ==> (IsTopological(GraphOf(nodes), r.value) <==> NobodyNeeds(GraphOf(nodes), ""))
  {
    ghost var g := GraphOf(nodes);
    assert g.Keys == nodes.Keys && |g| == |g.Keys| == |nodes|;
    var w := new Walk(|nodes|);
    assert w.Valid(g, []);
    var todo := nodes.Keys;
    while todo != {}
      invariant fresh(w) && fresh(w.results)
      invariant w.Valid(g, [])
      invariant todo <= g.Keys
      invariant Covered(g.Keys, todo, w.done)
      decreases todo
    {
      var n :| n in todo;
      ghost var before := w.done;
      var err := SortFrom(nodes, n, w, g);
      if err.Some? { return Err(err.value); }
      StillCovered(g.Keys, todo, n, before, w.done);
      todo := todo - {n};
    }
    SortedWell(g, w.done);
    r := Ok(w.results[..]);
  }

  /** One round of the loop in Sort: visit n with a new stack unless it was visited. */
  method SortFrom(nodes: Nodes, n: string, w: Walk, ghost g: Graph) returns (err: Option<Error>)
    requires g == GraphOf(nodes) && n in nodes && w.Valid(g, [])
    modifies w, w.results
    ensures err.None? ==> w.Valid(g, []) && n in w.done && Kept(old(w.done), w.done)
    ensures err.Some? ==> IsDefect(g, err.value)
  {
    if n in w.visited {
      return None;
    }
    w.stack := {};
    var ns := nodes[n].Neighbors();
    assert AreNeighbors(ns, g[n]);
    err := Visit(nodes, n, ns, w, g, []);
  }

  lemma SortedWell(g: Graph, done: seq<string>)
    requires Finished(g, done) && Covered(g.Keys, {}, done)
    ensures !HasCycle(g) && !HasDangling(g)
    ensures |done| == |g| && Slots(done, |g|) == Outcome(done)
    ensures NoDup(Outcome(done)) && Elements(Outcome(done)) == g.Keys
    ensures IsTopological(g, Outcome(done)) <==> NobodyNeeds(g, "")
  {
    assert AllFinished(g, done);
    SlotsAtTheEnd(g, done);
    OutcomeListsEachOnce(g, done);
    OutcomeTopologicalIff(g, done);
    FinishedIsTopological(g, done);
    TopologicalMeansAcyclic(g, done);
  }

  ghost predicate Covered(keys: set<string>, todo: set<string>, done: seq<string>) {
    forall k :: k in keys && k !in todo ==> k in done
  }

  lemma StillCovered(keys: set<string>, todo: set<string>, n: string, before: seq<string>, after: seq<string>)
    requires Covered(keys, todo, before) && Kept(before, after) && n in after
    ensures Covered(keys, todo - {n}, after)
  {
  }

  // ----- TraceNode -----

  /** The map that the calls of one TraceNode share. */
  class Tree {
    var m: Nodes
    ghost var origins: map<string, (string, nat)>  // the node and entry that each came from

    constructor ()
      ensures m == map[] && origins == map[]
    {
      m, origins := map[], map[];
    }
  }

  /** v is a node whose neighbours are all in the tree. */
  ghost predicate Expanded(g: Graph, v: string, tree: set<string>) {
    v in g && forall b :: b in g[v] ==> b in tree
  }

  /** What a call for id on tree t0 has done once the tree is t1. */
  ghost predicate Traced(g: Graph, id: string, t0: set<string>, t1: set<string>) {
    && t0 <= t1
    && (forall v :: v in t1 - t0 ==> ReachesProperly(g, id, v) && Expanded(g, v, t1))
  }

  ghost predicate LabelsFit(t: Nodes) {
    forall k :: k in t ==> t[k].identifier == k && !t[k].isPackage
  }

  /** The identifiers a search can add: all neighbours of all nodes. */
  ghost function Targets(g: Graph): (s: set<string>)
    ensures forall a, b :: Edge(g, a, b) ==> b in s
  {
    set a, b | a in g && b in g[a] :: b
  }

  lemma TraceChild(g: Graph, id: string, n: string, t0: set<string>, t1: set<string>, t2: set<string>)
    requires Traced(g, id, t0, t1) && Edge(g, id, n) && n !in t1
    requires Traced(g, n, t1 + {n}, t2) && Expanded(g, n, t2)
    ensures Traced(g, id, t0, t2)
  {
    forall v | v in t2 - t0 ensures ReachesProperly(g, id, v) && Expanded(g, v, t2) {
      if v in t1 {
        assert v in t1 - t0;
      } else if v == n {
        ReachesSelf(g, n);
        StepReaches(g, id, n, n);
      } else {
        assert v in t2 - (t1 + {n});
        StepReaches(g, id, n, v);
      }
    }
  }

  /** Something reached from id, or id itself, is no node. */
  ghost predicate MissesSome(g: Graph, id: string) {
    exists v :: Reaches(g, id, v) && v !in g
  }

  /** n is the bare node of the k-th entry of the package p. */
  ghost predicate OfEntry(p: Node, k: nat, n: Node) {
    p.isPackage && k < |p.dependencies| && n.Implies(p.dependencies[k])
  }

  /** Each node of the tree is that of an entry of root or of another node of the tree; origins says
      of which. */
  ghost predicate Sourced(nodes: Nodes, root: string, t: Nodes, origins: map<string, (string, nat)>) {
    forall v :: v in t ==> v in origins && SourcedBy(nodes, root, t, origins[v].0, origins[v].1, t[v])
  }

  ghost predicate SourcedBy(nodes: Nodes, root: string, t: Nodes, a: string, k: nat, n: Node) {
    a in nodes && (a == root || a in t) && OfEntry(nodes[a], k, n)
  }

  /** The tree so far of a search from root. */
  ghost predicate Growing(nodes: Nodes, root: string, t: Nodes, origins: map<string, (string, nat)>) {
    LabelsFit(t) && t.Keys <= Targets(GraphOf(nodes)) && Sourced(nodes, root, t, origins)
  }

  lemma Grows(nodes: Nodes, root: string, t: Nodes, origins: map<string, (string, nat)>, id: string, k: nat, n: Node)
    requires Growing(nodes, root, t, origins) && n.identifier !in t && Edge(GraphOf(nodes), id, n.identifier)
    requires SourcedBy(nodes, root, t, id, k, n) && !n.isPackage
    ensures Growing(nodes, root, t[n.identifier := n], origins[n.identifier := (id, k)])
    ensures t[n.identifier := n].Keys == t.Keys + {n.identifier}
    ensures Targets(GraphOf(nodes)) - t[n.identifier := n].Keys < Targets(GraphOf(nodes)) - t.Keys
  {
    assert n.identifier in Targets(GraphOf(nodes)) - t.Keys;
    StillSourced(nodes, root, t, origins, id, k, n);
  }

  lemma StillSourced(nodes: Nodes, root: string, t: Nodes, origins: map<string, (string, nat)>,
                     id: string, k: nat, n: Node)
    requires Sourced(nodes, root, t, origins) && n.identifier !in t && SourcedBy(nodes, root, t, id, k, n)
    ensures Sourced(nodes, root, t[n.identifier := n], origins[n.identifier := (id, k)])
  {
  }

  ghost predicate AreEntries(p: Node, ns: seq<Node>) {
    forall k :: 0 <= k < |ns| ==> OfEntry(p, k, ns[k])
  }

  /** Each node of the tree is that of an entry of a node that root reaches. */
  ghost predicate FromEntries(nodes: Nodes, root: string, t: Nodes) {
    forall v :: v in t ==> exists a, k :: a in nodes && Reaches(GraphOf(nodes), root, a) && OfEntry(nodes[a], k, t[v])
  }

  lemma SourcedIsReached(nodes: Nodes, root: string, t: Nodes, origins: map<string, (string, nat)>)
    requires Sourced(nodes, root, t, origins)
    requires forall v :: v in t ==> ReachesProperly(GraphOf(nodes), root, v)
    ensures FromEntries(nodes, root, t)
  {
    forall v | v in t
      ensures exists a, k :: a in nodes && Reaches(GraphOf(nodes), root, a) && OfEntry(nodes[a], k, t[v])
    {
      var a, k := origins[v].0, origins[v].1;
      if a == root {
        ReachesSelf(GraphOf(nodes), root);
      } else {
        ProperIsReach(GraphOf(nodes), root, a);
      }
      assert OfEntry(nodes[a], k, t[v]);
    }
  }

  /** The neighbours of a node, each the new bare node of its entry. */
  method NeighborsOf(nodes: Nodes, id: string) returns (ns: seq<Node>)
    requires id in nodes
    ensures AreNeighbors(ns, GraphOf(nodes)[id]) && AreEntries(nodes[id], ns)
    ensures forall k :: 0 <= k < |ns| ==> fresh(ns[k])
  {
    ns := nodes[id].Neighbors();
  }

  method TraceInto(nodes: Nodes, id: string, tree: Tree, ghost g: Graph, ghost root: string)
    returns (err: Option<Error>)
    requires g == GraphOf(nodes) && (id == root || id in tree.m) && Growing(nodes, root, tree.m, tree.origins)
    modifies tree
    ensures Growing(nodes, root, tree.m, tree.origins)
    ensures err.None? ==> Traced(g, id, old(tree.m.Keys), tree.m.Keys) && Expanded(g, id, tree.m.Keys)
    ensures err.Some? ==> err == Some(MissingInTree) && MissesSome(g, id)
    decreases Targets(g) - tree.m.Keys, 1
  {
    if id !in nodes {
      MissingItself(g, id);
      return Some(MissingInTree);
    }
    ghost var t0 := tree.m.Keys;
    var ns := NeighborsOf(nodes, id);
    for i := 0 to |ns|
      invariant Growing(nodes, root, tree.m, tree.origins) && t0 <= tree.m.Keys
      invariant Traced(g, id, t0, tree.m.Keys)
      invariant AllTraced(g[id], i, tree.m.Keys)
    {
      assert Edge(g, id, ns[i].identifier) && ns[i].identifier == g[id][i];
      ghost var before := tree.m.Keys;
      err := TraceNeighbor(nodes, id, ns[i], i, tree, g, t0, root);
      if err.Some? { return; }
      OneMoreTraced(g[id], i, before, tree.m.Keys);
    }
    return None;
  }

  ghost predicate AllTraced(ids: seq<string>, i: nat, tree: set<string>)
    requires i <= |ids|
  {
    forall j :: 0 <= j < i ==> ids[j] in tree
  }

  lemma OneMoreTraced(ids: seq<string>, i: nat, before: set<string>, after: set<string>)
    requires i < |ids| && AllTraced(ids, i, before) && before <= after && ids[i] in after
    ensures AllTraced(ids, i + 1, after)
  {
  }

  /** The tree gains the neighbour n of id. */
  method Plant(nodes: Nodes, id: string, n: Node, ghost k: nat, tree: Tree, ghost g: Graph, ghost root: string)
    requires g == GraphOf(nodes) && Growing(nodes, root, tree.m, tree.origins)
    requires Edge(g, id, n.identifier) && !n.isPackage && n.identifier !in tree.m
    requires SourcedBy(nodes, root, tree.m, id, k, n)
    modifies tree
    ensures Growing(nodes, root, tree.m, tree.origins) && tree.m == old(tree.m)[n.identifier := n]
    ensures tree.m.Keys == old(tree.m.Keys) + {n.identifier}
    ensures Targets(g) - tree.m.Keys < Targets(g) - old(tree.m.Keys)
  {
    Grows(nodes, root, tree.m, tree.origins, id, k, n);
    tree.m := tree.m[n.identifier := n];
    tree.origins := tree.origins[n.identifier := (id, k)];
  }

  /** One round of the loop in TraceInto: the neighbour n of id, for a call that began on t0. */
  method TraceNeighbor(nodes: Nodes, id: string, n: Node, ghost k: nat, tree: Tree, ghost g: Graph,
                       ghost t0: set<string>, ghost root: string)
    returns (err: Option<Error>)
    requires g == GraphOf(nodes) && Growing(nodes, root, tree.m, tree.origins)
    requires Edge(g, id, n.identifier) && !n.isPackage && Traced(g, id, t0, tree.m.Keys)
    requires SourcedBy(nodes, root, tree.m, id, k, n)
    modifies tree
    ensures Growing(nodes, root, tree.m, tree.origins) && (err.None? ==> old(tree.m.Keys) <= tree.m.Keys)
    ensures err.None? ==> Traced(g, id, t0, tree.m.Keys) && n.identifier in tree.m
    ensures err.Some? ==> err == Some(MissingInTree) && MissesSome(g, id)
    decreases Targets(g) - tree.m.Keys, 0
  {
    if n.identifier in tree.m {
      return None;
    }
    ghost var t1 := tree.m.Keys;
    Plant(nodes, id, n, k, tree, g, root);
    err := TraceInto(nodes, n.identifier, tree, g, root);
    if err.Some? {
      MissingFurther(g, id, n.identifier);
    } else {
      TraceChild(g, id, n.identifier, t0, t1, tree.m.Keys);
    }
  }

  lemma MissingFurther(g: Graph, id: string, n: string)
    requires Edge(g, id, n) && MissesSome(g, n)
    ensures MissesSome(g, id)
  {
    var v :| Reaches(g, n, v) && v !in g;
    StepReaches(g, id, n, v);
    ProperIsReach(g, id, v);
  }

  lemma MissingItself(g: Graph, id: string)
    requires id !in g
    ensures MissesSome(g, id)
  {
    ReachesSelf(g, id);
  }

  /** Transitive neighbours.  It fails exactly when something reached from id, or id itself,
      is no node; otherwise the keys are exactly what id reaches in one or more steps, and each
      stands for the bare node of an entry that names it. */
  method TraceNode(nodes: Nodes, id: string) returns (r: Result<Nodes, Error>)
    ensures r.Err? <==> MissesSome(GraphOf(nodes), id)
    ensures r.Err? ==> r.error == MissingInTree
    ensures r.Ok? ==> forall v :: v in r.value <==> ReachesProperly(GraphOf(nodes), id, v)
    ensures r.Ok? ==> LabelsFit(r.value) && FromEntries(nodes, id, r.value)
  {
    ghost var g := GraphOf(nodes);
    var tree := new Tree();
    var err := TraceInto(nodes, id, tree, g, id);
    if err.Some? {
      return Err(err.value);
    }
    TracedIsReached(g, id, tree.m.Keys);
    SourcedIsReached(nodes, id, tree.m, tree.origins);
    return Ok(tree.m);
  }

  lemma TracedIsReached(g: Graph, id: string, t: set<string>)
    requires Traced(g, id, {}, t) && Expanded(g, id, t)
    ensures forall v :: v in t <==> ReachesProperly(g, id, v)
    ensures forall v :: Reaches(g, id, v) ==> v in g
  {
    forall v | v in t ensures ReachesProperly(g, id, v) && Expanded(g, v, t) {
      assert v in t - {};
    }
    forall v, p | WalkBetween(g, p, id, v) ensures v in g && (|p| >= 2 ==> v in t) {
      ClosedSetHoldsWalk(g, t, p);
    }
  }
}
