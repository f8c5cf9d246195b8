/** The dependency graph of the package manager (dag.go). */
module Dag {
  import opened Results
  import opened Digraph
  import opened PackageNodes
  import opened GraphSearch

  /** All dependency entries of the nodes, in order. */
  ghost function AllEntries(ns: seq<Node>): seq<Dependency> {
    if ns == [] then [] else AllEntries(ns[..|ns| - 1]) + ns[|ns| - 1].Entries()
  }

  /** The entries that name something not yet known, each identifier once. */
  ghost function FirstSeen(known: set<string>, entries: seq<Dependency>): (es: seq<Dependency>)
  {
    if entries == [] then []
    else
      var before := FirstSeen(known, entries[..|entries| - 1]);
      var e := entries[|entries| - 1];
      if e.package in known + Packages(before) then before else before + [e]
  }

  ghost function Packages(entries: seq<Dependency>): set<string> {
    set e | e in entries :: e.package
  }

  ghost function Identifiers(ns: seq<Node>): set<string> {
    set n | n in ns :: n.identifier
  }

  ghost predicate DistinctIds(ns: seq<Node>) {
    forall i, j :: 0 <= i < j < |ns| ==> ns[i].identifier != ns[j].identifier
  }

  lemma PackagesSnoc(entries: seq<Dependency>, e: Dependency)
    ensures Packages(entries + [e]) == Packages(entries) + {e.package}
  {
    assert entries + [e] == entries + [e];
    forall x ensures x in Packages(entries + [e]) <==> x in Packages(entries) + {e.package} {
      if x == e.package { assert (entries + [e])[|entries|] == e; }
      if x in Packages(entries) {
        var y :| y in entries && y.package == x;
        assert y in entries + [e];
      }
    }
  }

  /** FirstSeen lists exactly the unknown identifiers ... */
  lemma {:induction false} FirstSeenExact(known: set<string>, entries: seq<Dependency>)
    ensures Packages(FirstSeen(known, entries)) == Packages(entries) - known
  {
    if entries != [] {
      var init, e := entries[..|entries| - 1], entries[|entries| - 1];
      assert entries == init + [e];
      FirstSeenExact(known, init);
      PackagesSnoc(init, e);
      PackagesSnoc(FirstSeen(known, init), e);
    }
  }

  /** ... each once. */
  lemma {:induction false} FirstSeenOnce(known: set<string>, entries: seq<Dependency>)
    ensures forall i, j :: 0 <= i < j < |FirstSeen(known, entries)| ==>
      FirstSeen(known, entries)[i].package != FirstSeen(known, entries)[j].package
  {
    if entries != [] {
      var init, e := entries[..|entries| - 1], entries[|entries| - 1];
      FirstSeenOnce(known, init);
      var before := FirstSeen(known, init);
      if e.package !in known + Packages(before) {
        forall i | 0 <= i < |before| ensures before[i].package != e.package {
          assert before[i].package in Packages(before);
        }
      }
    }
  }

  /** The entry of index k is the first to name what it names, and that is not known. */
  ghost predicate NamesFirst(known: set<string>, entries: seq<Dependency>, k: nat)
    requires k < |entries|
  {
    entries[k].package !in known && forall i :: 0 <= i < k ==> entries[i].package != entries[k].package
  }

  /** They come in the order in which they are first named, each with the entry that names it
      first: taking one entry more adds it exactly when it is such an entry. */
  lemma FirstSeenInOrder(known: set<string>, entries: seq<Dependency>, k: nat)
    requires k < |entries|
    ensures FirstSeen(known, entries[..0]) == []
    ensures FirstSeen(known, entries[..k + 1]) ==
      FirstSeen(known, entries[..k]) + if NamesFirst(known, entries, k) then [entries[k]] else []
  {
    assert entries[..k + 1] == entries[..k] + [entries[k]];
    FirstSeenSnoc(known, entries[..k], entries[k]);
    if entries[k].package in Packages(entries[..k]) {
      var e :| e in entries[..k] && e.package == entries[k].package;
      var i :| 0 <= i < k && entries[i] == e;
    } else {
      forall i | 0 <= i < k ensures entries[i].package != entries[k].package {
        assert entries[i] in entries[..k];
      }
    }
  }

  /** The entries of the nodes, one node after the other. */
  lemma EntriesInOrder(ns: seq<Node>, k: nat)
    requires k < |ns|
    ensures AllEntries(ns[..0]) == []
    ensures AllEntries(ns[..k + 1]) == AllEntries(ns[..k]) + if ns[k].isPackage then ns[k].dependencies else []
  {
    assert ns[..k + 1][..k] == ns[..k];
  }

  lemma FirstSeenSnoc(known: set<string>, entries: seq<Dependency>, e: Dependency)
    ensures FirstSeen(known, entries + [e]) ==
      FirstSeen(known, entries) + if e.package in known + Packages(entries) then [] else [e]
  {
    assert (entries + [e])[..|entries|] == entries;
    FirstSeenExact(known, entries);
  }

  lemma {:induction false} FirstSeenAppend(known: set<string>, a: seq<Dependency>, b: seq<Dependency>)
    ensures FirstSeen(known, a + b) == FirstSeen(known, a) + FirstSeen(known + Packages(a), b)
  {
    if b == [] {
      assert a + b == a;
    } else {
      var init, e := b[..|b| - 1], b[|b| - 1];
      assert (a + b)[..|a + b| - 1] == a + init;
      FirstSeenAppend(known, a, init);
      FirstSeenExact(known, a + init);
      FirstSeenExact(known + Packages(a), init);
      PackagesAppend(a, init);
    }
  }

  lemma PackagesAppend(a: seq<Dependency>, b: seq<Dependency>)
    ensures Packages(a + b) == Packages(a) + Packages(b)
  {
    forall x ensures x in Packages(a + b) <==> x in Packages(a) + Packages(b) {
      if x in Packages(a) { var e :| e in a && e.package == x; assert e in a + b; }
      if x in Packages(b) { var e :| e in b && e.package == x; assert e in a + b; }
    }
  }

  /** Each of ns is new when its turn comes to be stored. */
  ghost predicate Storable(known: set<string>, ns: seq<Node>) {
    ns == [] ||
    var init, last := ns[..|ns| - 1], ns[|ns| - 1];
    Storable(known, init) && last.identifier !in known + Identifiers(init)
  }

  ghost predicate AllNew(known: set<string>, ns: seq<Node>) {
    forall n :: n in ns ==> n.identifier !in known
  }

  lemma {:induction false} StorableIff(known: set<string>, ns: seq<Node>)
    ensures Storable(known, ns) <==> DistinctIds(ns) && AllNew(known, ns)
  {
    if ns != [] {
      var init, last := ns[..|ns| - 1], ns[|ns| - 1];
      StorableIff(known, init);
      assert ns == init + [last];
      DistinctSnoc(init, last);
    }
  }

  lemma DistinctSnoc(init: seq<Node>, last: Node)
    ensures DistinctIds(init + [last]) <==> DistinctIds(init) && last.identifier !in Identifiers(init)
  {
    var ns := init + [last];
    if last.identifier in Identifiers(init) {
      var n :| n in init && n.identifier == last.identifier;
      var i :| 0 <= i < |init| && init[i] == n;
      assert ns[i].identifier == ns[|init|].identifier;
    } else {
      forall i | 0 <= i < |init| ensures ns[i].identifier != last.identifier {
        assert init[i] in init;
      }
    }
    if DistinctIds(ns) {
      forall i, j | 0 <= i < j < |init| ensures init[i].identifier != init[j].identifier {
        assert ns[i].identifier != ns[j].identifier;
      }
    }
  }

  lemma {:induction false} StorablePrefix(known: set<string>, ns: seq<Node>, i: nat)
    requires i <= |ns|
    ensures Storable(known, ns) ==> Storable(known, ns[..i])
  {
    if i < |ns| {
      StorablePrefix(known, ns[..|ns| - 1], i);
      assert ns[..|ns| - 1][..i] == ns[..i];
    } else {
      assert ns[..i] == ns;
    }
  }

  /** The map after storing ns one by one. */
  ghost function Put(before: Nodes, ns: seq<Node>): Nodes {
    if ns == [] then before else Put(before, ns[..|ns| - 1])[ns[|ns| - 1].identifier := ns[|ns| - 1]]
  }

  lemma PutOne(before: Nodes, ns: seq<Node>, n: Node)
    ensures Put(before, ns + [n]) == Put(before, ns)[n.identifier := n]
  {
    assert (ns + [n])[..|ns|] == ns;
  }

  /** The last of ns with an identifier is stored under it; other identifiers keep their node. */
  lemma {:induction false} PutLast(before: Nodes, ns: seq<Node>, k: nat)
    requires k < |ns| && forall j :: k < j < |ns| ==> ns[j].identifier != ns[k].identifier
    ensures ns[k].identifier in Put(before, ns) && Put(before, ns)[ns[k].identifier] == ns[k]
  {
    if k < |ns| - 1 {
      PutLast(before, ns[..|ns| - 1], k);
    }
  }

  lemma {:induction false} PutAppend(before: Nodes, a: seq<Node>, b: seq<Node>)
    ensures Put(before, a + b) == Put(Put(before, a), b)
  {
    if b == [] {
      assert a + b == a;
    } else {
      var init, last := b[..|b| - 1], b[|b| - 1];
      PutAppend(before, a, init);
      assert a + b == (a + init) + [last];
      PutOne(before, a + init, last);
    }
  }

  lemma {:induction false} PutKeys(before: Nodes, ns: seq<Node>)
    ensures Put(before, ns).Keys == before.Keys + Identifiers(ns)
  {
    if ns != [] {
      var init, last := ns[..|ns| - 1], ns[|ns| - 1];
      PutKeys(before, init);
      assert forall n :: n in ns <==> n in init || n == last;
    }
  }

  lemma {:induction false} PutStores(before: Nodes, ns: seq<Node>, n: Node)
    requires DistinctIds(ns) && n in ns
    ensures n.identifier in Put(before, ns) && Put(before, ns)[n.identifier] == n
  {
    var init, last := ns[..|ns| - 1], ns[|ns| - 1];
    if n != last {
      PutStores(before, init, n);
    }
  }

  /** The bare nodes an edge pass added: one for each entry, carrying the entry's
      parent constraints and then its own constraint. */
  ghost predicate AddedFor(added: seq<Node>, entries: seq<Dependency>)
    reads added
  {
    && |added| == |entries|
    && forall i :: 0 <= i < |added| ==>
      && added[i].Implies(entries[i])
      && added[i].parentConstraints == entries[i].parents + [entries[i].constraints]
  }

  lemma AddedIds(added: seq<Node>, entries: seq<Dependency>)
    requires AddedFor(added, entries)
    ensures Identifiers(added) == Packages(entries)
  {
    forall x ensures x in Identifiers(added) <==> x in Packages(entries) {
      if x in Identifiers(added) {
        var n :| n in added && n.identifier == x;
        var i :| 0 <= i < |added| && added[i] == n;
        assert entries[i] in entries;
      }
      if x in Packages(entries) {
        var e :| e in entries && e.package == x;
        var i :| 0 <= i < |entries| && entries[i] == e;
        assert added[i] in added;
      }
    }
  }

  lemma KnownKeys(before: Nodes, added: seq<Node>, entries: seq<Dependency>)
    requires AddedFor(added, FirstSeen(before.Keys, entries))
    ensures Put(before, added).Keys == before.Keys + Packages(entries)
    ensures Identifiers(added) == Packages(entries) - before.Keys
  {
    AddedIds(added, FirstSeen(before.Keys, entries));
    FirstSeenExact(before.Keys, entries);
    PutKeys(before, added);
  }

  class MapDag {
    var nodes: Nodes

    constructor ()
      ensures nodes == map[]
    {
      nodes := map[];
    }

    method AddNode(n: Node) returns (r: Result<(), Error>)
      modifies this
      ensures r.Err? <==> n.identifier in old(nodes)
      ensures r.Err? ==> nodes == old(nodes) && r.error == AlreadyExists(n.identifier)
      ensures r.Ok? ==> nodes == old(nodes)[n.identifier := n]
    {
      if n.identifier in nodes {
        return Err(AlreadyExists(n.identifier));
      }
      nodes := nodes[n.identifier := n];
      return Ok(());
    }

    method AddNodes(ns: seq<Node>) returns (r: Result<(), Error>)
      modifies this
      ensures r.Ok? <==> Storable(old(nodes.Keys), ns)
      ensures r.Ok? ==> nodes == Put(old(nodes), ns)
    {
      for i := 0 to |ns|
        invariant Storable(old(nodes.Keys), ns[..i])
        invariant nodes == Put(old(nodes), ns[..i])
      {
        PutKeys(old(nodes), ns[..i]);
        PutOne(old(nodes), ns[..i], ns[i]);
        assert ns[..i + 1] == ns[..i] + [ns[i]];
        assert ns[..i + 1][..i] == ns[..i];
        StorablePrefix(old(nodes.Keys), ns, i + 1);
        r := AddNode(ns[i]);
        if r.Err? { return; }
      }
      assert ns[..|ns|] == ns;
      return Ok(());
    }

    /** Adds the edge from one node to another, adding the far node when it is missing. */
    method AddEdge(from: string, to: Node) returns (r: Result<bool, Error>)
      modifies this, to
      ensures r.Err? <==> from !in old(nodes)
      ensures r.Err? ==> nodes == old(nodes) && to.parentConstraints == old(to.parentConstraints)
      ensures r.Err? ==> r.error == DoesNotExist(to.identifier)
      ensures r.Ok? ==> r.value == (to.identifier !in old(nodes))
      ensures r.Ok? ==> nodes == if r.value then old(nodes)[to.identifier := to] else old(nodes)
      ensures r.Ok? ==> to.parentConstraints == old(to.parentConstraints) + nodes[from].Contribution(to.identifier)
    {
      if from !in nodes {
        return Err(DoesNotExist(to.identifier));
      }
      var implied := false;
      if to.identifier !in nodes {
        implied := true;
        var _ := AddNode(to);
      }
      nodes[from].AddNeighbor(to);
      return Ok(implied);
    }

    /** Adds the edges of one package to all its entries. */
    method AddEdges(p: Node, ns: seq<Node>) returns (missing: seq<Node>)
      requires p.isPackage && p.identifier in nodes && nodes[p.identifier] == p
      requires |ns| == |p.dependencies| && NoDup(ns) && p !in ns
      requires forall i :: 0 <= i < |ns| ==> ns[i].Implies(p.dependencies[i])
      requires forall i :: 0 <= i < |ns| ==> ns[i].parentConstraints == p.dependencies[i].parents
      modifies this, ns
      ensures AddedFor(missing, FirstSeen(old(nodes.Keys), p.dependencies))
      ensures nodes == Put(old(nodes), missing)
    {
      missing := [];
      for i := 0 to |ns|
        invariant AddedFor(missing, FirstSeen(old(nodes.Keys), p.dependencies[..i]))
        invariant nodes == Put(old(nodes), missing)
        invariant p.identifier in nodes && nodes[p.identifier] == p
        invariant forall j :: i <= j < |ns| ==> ns[j] !in missing
        invariant forall j :: i <= j < |ns| ==> ns[j].parentConstraints == p.dependencies[j].parents
      {
        assert p.dependencies[..i + 1] == p.dependencies[..i] + [p.dependencies[i]];
        missing := AddEdgeTo(p, ns[i], missing, i, old(nodes));
      }
      assert p.dependencies[..|ns|] == p.dependencies;
    }

    /** One round of the loop in AddEdges: the edge to n, the i-th neighbour of p. */
    method AddEdgeTo(p: Node, n: Node, missing: seq<Node>, ghost i: nat, ghost before: Nodes) returns (all: seq<Node>)
      requires p.isPackage && p.identifier in nodes && nodes[p.identifier] == p && p != n
      requires i < |p.dependencies| && n.Implies(p.dependencies[i]) && n.parentConstraints == p.dependencies[i].parents
      requires AddedFor(missing, FirstSeen(before.Keys, p.dependencies[..i])) && n !in missing
      requires nodes == Put(before, missing)
      modifies this, n
      ensures AddedFor(all, FirstSeen(before.Keys, p.dependencies[..i] + [p.dependencies[i]]))
      ensures nodes == Put(before, all) && (all == missing || all == missing + [n])
      ensures p.identifier in nodes && nodes[p.identifier] == p
    {
      ghost var e, earlier := p.dependencies[i], p.dependencies[..i];
      KnownKeys(before, missing, earlier);
      FirstSeenSnoc(before.Keys, earlier, e);
      PutOne(before, missing, n);
      var r := AddEdge(p.identifier, n);
      all := missing;
      if r.value {
        FirstOfPackage(p.dependencies, i);
        AddedAppend(missing, FirstSeen(before.Keys, earlier), [n], [e]);
        all := missing + [n];
      }
    }

    /** Clears the graph, adds the nodes and then their edges.  It fails exactly when two
        nodes share an identifier.  The implied nodes are the neighbours that were not
        supplied, each once, in the order they are first named. */
    method Init(ns: seq<Node>) returns (r: Result<seq<Node>, Error>)
      modifies this
      ensures r.Ok? <==> DistinctIds(ns)
      ensures r.Ok? ==> AddedFor(r.value, FirstSeen(Identifiers(ns), AllEntries(ns)))
      ensures r.Ok? ==> nodes.Keys == Identifiers(ns) + Packages(AllEntries(ns))
      ensures r.Ok? ==> forall n :: n in ns + r.value ==> n.identifier in nodes && nodes[n.identifier] == n
    {
      nodes := map[];
      StorableIff(nodes.Keys, ns);
      var added := AddNodes(ns);
      if added.Err? { return Err(added.error); }
      PutKeys(map[], ns);
      assert nodes.Keys == Identifiers(ns);
      forall n | n in ns ensures n.identifier in nodes && nodes[n.identifier] == n {
        PutStores(map[], ns, n);
      }
      var implied := AddAllEdges(ns);
      InitStores(ns, implied);
      return Ok(implied);
    }

    /** The second loop in Init. */
    method AddAllEdges(ns: seq<Node>) returns (implied: seq<Node>)
      requires forall n :: n in ns ==> n.identifier in nodes && nodes[n.identifier] == n
      modifies this
      ensures AddedFor(implied, FirstSeen(old(nodes.Keys), AllEntries(ns)))
      ensures nodes == Put(old(nodes), implied)
    {
      implied := [];
      for i := 0 to |ns|
        invariant AddedFor(implied, FirstSeen(old(nodes.Keys), AllEntries(ns[..i])))
        invariant nodes == Put(old(nodes), implied)
      {
        assert ns[..i + 1][..i] == ns[..i];
        var miss := AddEdgesOf(ns[i], old(nodes), implied, AllEntries(ns[..i]));
        implied := implied + miss;
      }
      assert ns[..|ns|] == ns;
    }

    /** As GraphSearch.Sort, on the stored nodes. */
    method Sort() returns (r: Result<seq<string>, Error>)
      ensures r.Err? <==> HasCycle(GraphOf(nodes)) || HasDangling(GraphOf(nodes))
      ensures r.Err? ==> IsDefect(GraphOf(nodes), r.error)
      ensures r.Ok? ==> NoDup(r.value) && Elements(r.value) == nodes.Keys
      ensures r.Ok? ==> (IsTopological(GraphOf(nodes), r.value) <==> NobodyNeeds(GraphOf(nodes), ""))
    {
      r := GraphSearch.Sort(nodes);
    }

    /** As GraphSearch.TraceNode, on the stored nodes. */
    method TraceNode(id: string) returns (r: Result<Nodes, Error>)
      ensures r.Err? <==> MissesSome(GraphOf(nodes), id)
      ensures r.Err? ==> r.error == MissingInTree
      ensures r.Ok? ==> forall v :: v in r.value <==> ReachesProperly(GraphOf(nodes), id, v)
      ensures r.Ok? ==> LabelsFit(r.value) && FromEntries(nodes, id, r.value)
    {
      r := GraphSearch.TraceNode(nodes, id);
    }

    /** One round of the second loop in Init. */
    method AddEdgesOf(p: Node, ghost supplied: Nodes, ghost implied: seq<Node>, ghost entries: seq<Dependency>)
      returns (miss: seq<Node>)
      requires AddedFor(implied, FirstSeen(supplied.Keys, entries)) && nodes == Put(supplied, implied)
      requires p.identifier in supplied && supplied[p.identifier] == p
      modifies this
      ensures AddedFor(implied + miss, FirstSeen(supplied.Keys, entries + p.Entries()))
      ensures nodes == Put(supplied, implied + miss)
    {
      KnownKeys(supplied, implied, entries);
      FirstSeenAppend(supplied.Keys, entries, p.Entries());
      if !p.isPackage {
        miss := [];
        assert implied + miss == implied && entries + p.Entries() == entries;
        return;
      }
      var ns := p.Neighbors();
      ghost var before := nodes;
      assert before.Keys == supplied.Keys + Packages(entries);
      assert before[p.identifier] == p by { PutKeeps(supplied, implied, p.identifier); }
      miss := AddEdges(p, ns);
      assert AddedFor(implied, FirstSeen(supplied.Keys, entries));
      AddedAppend(implied, FirstSeen(supplied.Keys, entries), miss, FirstSeen(before.Keys, p.Entries()));
      PutAppend(supplied, implied, miss);
    }
  }

  lemma {:induction false} PutKeeps(before: Nodes, ns: seq<Node>, id: string)
    requires id in before && id !in Identifiers(ns)
    ensures id in Put(before, ns) && Put(before, ns)[id] == before[id]
  {
    if ns != [] {
      assert ns[|ns| - 1] in ns;
      assert forall n :: n in ns[..|ns| - 1] ==> n in ns;
      PutKeeps(before, ns[..|ns| - 1], id);
    }
  }

  lemma InitStores(ns: seq<Node>, implied: seq<Node>)
    requires DistinctIds(ns) && Put(map[], ns).Keys == Identifiers(ns)
    requires AddedFor(implied, FirstSeen(Identifiers(ns), AllEntries(ns)))
    ensures Put(Put(map[], ns), implied).Keys == Identifiers(ns) + Packages(AllEntries(ns))
    ensures forall n :: n in ns + implied ==>
      n.identifier in Put(Put(map[], ns), implied) && Put(Put(map[], ns), implied)[n.identifier] == n
  {
    var seen := FirstSeen(Identifiers(ns), AllEntries(ns));
    AddedIds(implied, seen);
    FirstSeenExact(Identifiers(ns), AllEntries(ns));
    FirstSeenOnce(Identifiers(ns), AllEntries(ns));
    PutKeys(map[], ns);
    PutKeys(Put(map[], ns), implied);
    assert DistinctIds(implied);
    forall n | n in ns + implied
      ensures n.identifier in Put(Put(map[], ns), implied) && Put(Put(map[], ns), implied)[n.identifier] == n
    {
      if n in implied {
        PutStores(Put(map[], ns), implied, n);
      } else {
        PutStores(map[], ns, n);
        assert n.identifier in Identifiers(ns);
        PutKeeps(Put(map[], ns), implied, n.identifier);
      }
    }
  }

  lemma AddedAppend(a: seq<Node>, ea: seq<Dependency>, b: seq<Node>, eb: seq<Dependency>)
    requires AddedFor(a, ea) && AddedFor(b, eb)
    ensures AddedFor(a + b, ea + eb)
  {
  }

  lemma FirstOfPackage(deps: seq<Dependency>, i: nat)
    requires i < |deps| && deps[i].package !in Packages(deps[..i])
    ensures FirstMatch(deps, deps[i].package) == Some(deps[i].constraints)
  {
    forall j | 0 <= j < i ensures deps[j].package != deps[i].package {
      assert deps[j] in deps[..i];
    }
    FirstMatchAt(deps, i, deps[i].package);
  }

  // ----- The graph that Init leaves behind -----

  /** The dependencies the supplied nodes declare, without any implied node. */
  ghost function DeclaredGraph(ns: seq<Node>): Graph {
    if ns == [] then map[]
    else DeclaredGraph(ns[..|ns| - 1])[ns[|ns| - 1].identifier := ns[|ns| - 1].NeighborIds()]
  }

  lemma {:induction false} DeclaredGraphHas(ns: seq<Node>)
    requires DistinctIds(ns)
    ensures DeclaredGraph(ns).Keys == Identifiers(ns)
    ensures forall n :: n in ns ==> DeclaredGraph(ns)[n.identifier] == n.NeighborIds()
  {
    if ns != [] {
      var init, last := ns[..|ns| - 1], ns[|ns| - 1];
      DeclaredGraphHas(init);
      assert forall n :: n in ns <==> n in init || n == last;
      forall n | n in ns
        ensures n.identifier in DeclaredGraph(ns) && DeclaredGraph(ns)[n.identifier] == n.NeighborIds()
      {
        if n in init { assert n.identifier != last.identifier; }
      }
    }
  }

  lemma {:induction false} EntryListed(ns: seq<Node>, n: Node, b: string)
    requires n in ns && b in n.NeighborIds()
    ensures b in Packages(AllEntries(ns))
  {
    var init, last := ns[..|ns| - 1], ns[|ns| - 1];
    PackagesAppend(AllEntries(init), last.Entries());
    if n == last {
      var i :| 0 <= i < |n.NeighborIds()| && n.NeighborIds()[i] == b;
      assert last.Entries()[i] in last.Entries();
    } else {
      EntryListed(init, n, b);
    }
  }

  /** The stored graph is the declared one, with every neighbour stored as a node of its own. */
  ghost predicate Completes(g: Graph, declared: Graph) {
    && declared.Keys <= g.Keys
    && (forall id :: id in g ==> g[id] == if id in declared then declared[id] else [])
    && (forall a, b :: Edge(declared, a, b) ==> b in g)
  }

  /** What Init's contract says of the stored nodes makes them complete the declared graph. */
  lemma InitCompletes(ns: seq<Node>, implied: seq<Node>, nodes: Nodes)
    requires DistinctIds(ns) && AddedFor(implied, FirstSeen(Identifiers(ns), AllEntries(ns)))
    requires nodes.Keys == Identifiers(ns) + Packages(AllEntries(ns))
    requires forall n :: n in ns + implied ==> n.identifier in nodes && nodes[n.identifier] == n
    ensures Completes(GraphOf(nodes), DeclaredGraph(ns))
  {
    var g, d := GraphOf(nodes), DeclaredGraph(ns);
    DeclaredGraphHas(ns);
    AddedIds(implied, FirstSeen(Identifiers(ns), AllEntries(ns)));
    FirstSeenExact(Identifiers(ns), AllEntries(ns));
    forall id | id in g ensures g[id] == if id in d then d[id] else [] {
      if id in d {
        var n :| n in ns && n.identifier == id;
        assert n in ns + implied;
      } else {
        assert id in Identifiers(implied);
        var n :| n in implied && n.identifier == id;
        assert n in ns + implied;
      }
    }
    forall a, b | Edge(d, a, b) ensures b in g {
      var n :| n in ns && n.identifier == a;
      EntryListed(ns, n, b);
    }
  }

  /** After Init no neighbour is missing, and the stored graph has a cycle exactly when the
      declared dependencies have one: that alone decides whether Sort fails. */
  lemma SortFailsOnlyOnDeclaredCycles(g: Graph, declared: Graph)
    requires Completes(g, declared)
    ensures !HasDangling(g)
    ensures HasCycle(g) <==> HasCycle(declared)
  {
    forall a, b | Edge(g, a, b) ensures b in g && Edge(declared, a, b) {
      assert a in declared;
      assert Edge(declared, a, b);
    }
    if HasCycle(g) { SameCycles(g, declared); }
    if HasCycle(declared) { SameCycles(declared, g); }
  }

  lemma SameCycles(g: Graph, d: Graph)
    requires forall a, b :: Edge(g, a, b) ==> Edge(d, a, b)
    requires HasCycle(g)
    ensures HasCycle(d)
  {
    var a :| ReachesProperly(g, a, a);
    var p :| WalkBetween(g, p, a, a) && |p| >= 2;
    assert WalkBetween(d, p, a, a);
    assert ReachesProperly(d, a, a);
  }
}
