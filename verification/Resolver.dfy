/** What the package resolver asks of a dependency graph: to build it from the lock's packages
    and to refuse cycles (controller/pkg/resolver/reconciler.go). */
module Resolver {
  import opened Results
  import opened Digraph
  import opened PackageNodes
  import opened GraphSearch
  import opened Dag
  import opened UpgradingDag

  /** Building the graph and sorting it fails exactly when two packages share an identifier or
      the declared dependencies have a cycle; otherwise what comes back is missing from the lock. */
  method Resolve(dag: MapDag, packages: seq<Node>) returns (r: Result<seq<Node>, Error>)
    modifies dag
    ensures r.Err? <==> !DistinctIds(packages) || HasCycle(DeclaredGraph(packages))
    ensures r.Ok? ==> Completes(GraphOf(dag.nodes), DeclaredGraph(packages))
    ensures r.Ok? ==> Identifiers(r.value) == dag.nodes.Keys - Identifiers(packages)
  {
    r := dag.Init(packages);
    if r.Err? { return; }
    Dag.InitCompletes(packages, r.value, dag.nodes);
    AddedIds(r.value, FirstSeen(Identifiers(packages), AllEntries(packages)));
    FirstSeenExact(Identifiers(packages), AllEntries(packages));
    SortFailsOnlyOnDeclaredCycles(GraphOf(dag.nodes), DeclaredGraph(packages));
    var sorted := dag.Sort();
    if sorted.Err? { return Err(sorted.error); }
  }

  /** Some package of the lock has an entry for p whose constraint rejects p's version. */
  ghost predicate Outdated(satisfies: (string, string) -> bool, packages: seq<Node>, p: Node) {
    exists q, e :: q in packages && q.isPackage && e in q.dependencies && e.package == p.identifier &&
      p.constraints != e.constraints && !satisfies(p.constraints, e.constraints)
  }

  /** The same with the graph that looks for upgrades: what comes back is missing from the lock,
      or held there at a version that some package rejects. */
  method ResolveUpgrading(dag: MapUpgradingDag, packages: seq<Node>) returns (r: Result<seq<Node>, Error>)
    modifies dag, packages
    ensures r.Err? <==> !DistinctIds(packages) || HasCycle(DeclaredGraph(packages))
    ensures r.Ok? ==> Completes(GraphOf(dag.nodes), DeclaredGraph(packages))
    ensures r.Ok? ==> forall id :: id in dag.nodes && id !in Identifiers(packages) ==> dag.nodes[id] in r.value
    ensures r.Ok? ==> forall p :: p in packages ==>
      (p.identifier in Identifiers(r.value) <==> Outdated(dag.satisfies, packages, p))
  {
    ghost var supplied := SuppliedView(packages);
    SuppliedKeys(packages);
    forall p | p in packages && DistinctIds(packages)
      ensures p.identifier in supplied && supplied[p.identifier].constraints == p.constraints
    {
      SuppliedHas(packages, p);
    }
    r := dag.Init(packages);
    if r.Err? { return; }
    UpgradingDag.InitCompletes(packages, r.value, dag.satisfies, supplied, dag.nodes);
    forall p | p in packages ensures p.identifier in Identifiers(r.value) <==> Outdated(dag.satisfies, packages, p) {
      ReturnedIffOutdated(dag.satisfies, packages, supplied, p, r.value);
    }
    SortFailsOnlyOnDeclaredCycles(GraphOf(dag.nodes), DeclaredGraph(packages));
    var sorted := dag.Sort();
    if sorted.Err? { return Err(sorted.error); }
  }

  lemma ReturnedIffOutdated(satisfies: (string, string) -> bool, packages: seq<Node>, supplied: View, p: Node,
                            returned: seq<Node>)
    requires p in packages && p.identifier in supplied && supplied[p.identifier].constraints == p.constraints
    requires AllImply(returned, Reported(satisfies, supplied, AllEdges(packages)))
    ensures p.identifier in Identifiers(returned) <==> Outdated(satisfies, packages, p)
  {
    var es, id := AllEdges(packages), p.identifier;
    var reported := Reported(satisfies, supplied, es);
    SuppliedReportedIff(satisfies, supplied, es, id);
    ImpliedIds(returned, reported);
    if SomeRejects(satisfies, p.constraints, es, id) {
      var e :| e in es && e.entry.package == id && Rejected(satisfies, p.constraints, e.entry.constraints);
      EdgeListed(packages, e);
    }
    if Outdated(satisfies, packages, p) {
      var q, e :| q in packages && q.isPackage && e in q.dependencies && e.package == id &&
        p.constraints != e.constraints && !satisfies(p.constraints, e.constraints);
      var edge := Declaration(q.Entries(), e);
      EdgeListed(packages, edge);
      assert edge in es && Rejected(satisfies, p.constraints, edge.entry.constraints);
    }
  }
}
