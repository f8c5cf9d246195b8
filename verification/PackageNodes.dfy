/** Results of operations that can fail. */
module Results {
  datatype Result<+T, +E> = Ok(value: T) | Err(error: E)
  datatype Option<+T> = None | Some(value: T)
}

/** Package lock entries as nodes of a dependency graph (pkg.go). */
module PackageNodes {
  import opened Results
  import opened Digraph

  /** A dependency entry of a package: what it depends on, the constraint it puts
      on it, and the parent constraints the entry already carries. */
  datatype Dependency = Dependency(package: string, constraints: string, parents: seq<string>)

  /** The constraint of the first entry for id. */
  function FirstMatch(deps: seq<Dependency>, id: string): (c: Option<string>) {
    if deps == [] then None
    else if deps[0].package == id then Some(deps[0].constraints)
    else FirstMatch(deps[1..], id)
  }

  lemma {:induction false} FirstMatchAt(deps: seq<Dependency>, k: nat, id: string)
    requires k < |deps| && deps[k].package == id
    requires forall i :: 0 <= i < k ==> deps[i].package != id
    ensures FirstMatch(deps, id) == Some(deps[k].constraints)
    decreases k
  {
    if k > 0 {
      assert deps[0].package != id;
      FirstMatchAt(deps[1..], k - 1, id);
    }
  }

  lemma {:induction false} FirstMatchNone(deps: seq<Dependency>, id: string)
    requires forall i :: 0 <= i < |deps| ==> deps[i].package != id
    ensures FirstMatch(deps, id) == None
  {
    if deps != [] {
      FirstMatchNone(deps[1..], id);
    }
  }

  /** A node of the graph: a package of the lock with its dependency entries, or a
      bare dependency, whose own dependencies are not known yet. */
  class Node {
    const isPackage: bool
    const identifier: string
    /** A package's version, a dependency's constraint. */
    const constraints: string
    const dependencies: seq<Dependency>
    var parentConstraints: seq<string>

    constructor Package(source: string, version: string, deps: seq<Dependency>, parents: seq<string>)
      ensures isPackage && identifier == source && constraints == version
      ensures dependencies == deps && parentConstraints == parents
    {
      isPackage, identifier, constraints := true, source, version;
      dependencies, parentConstraints := deps, parents;
    }

    constructor Implied(d: Dependency)
      ensures Implies(d) && parentConstraints == d.parents
    {
      isPackage, identifier, constraints := false, d.package, d.constraints;
      dependencies, parentConstraints := [], d.parents;
    }

    /** This is the bare node made from the entry d. */
    ghost predicate Implies(d: Dependency) {
      !isPackage && identifier == d.package && constraints == d.constraints && dependencies == []
    }

    /** The entries the node lists as neighbours: none for a bare dependency. */
    function Entries(): seq<Dependency> {
      if isPackage then dependencies else []
    }

    function NeighborIds(): (ids: seq<string>)
      ensures |ids| == |Entries()|
    {
      seq(|Entries()|, i requires 0 <= i < |Entries()| => Entries()[i].package)
    }

    /** One new bare node for each dependency of a package, none for a bare dependency. */
    method Neighbors() returns (ns: seq<Node>)
      ensures |ns| == if isPackage then |dependencies| else 0
      ensures forall i :: 0 <= i < |ns| ==> fresh(ns[i]) && ns[i].Implies(dependencies[i])
      ensures forall i :: 0 <= i < |ns| ==> ns[i].parentConstraints == dependencies[i].parents
      ensures NoDup(ns)
    {
      ns := [];
      if isPackage {
        for i := 0 to |dependencies|
          invariant |ns| == i && NoDup(ns)
          invariant forall j :: 0 <= j < i ==> fresh(ns[j]) && ns[j].Implies(dependencies[j])
          invariant forall j :: 0 <= j < i ==> ns[j].parentConstraints == dependencies[j].parents
        {
          var n := new Node.Implied(dependencies[i]);
          ns := ns + [n];
        }
      }
    }

    method AddParentConstraints(cs: seq<string>)
      modifies this
      ensures parentConstraints == old(parentConstraints) + cs
    {
      parentConstraints := parentConstraints + cs;
    }

    /** What this node contributes to the parent constraints of the node id. */
    function Contribution(id: string): seq<string> {
      if !isPackage then [constraints]
      else match FirstMatch(dependencies, id)
        case None => []
        case Some(c) => [c]
    }

    /** The constraints of n, cs before, once the first i of ns have been given theirs. */
    ghost function Given(cs: seq<string>, ns: seq<Node>, i: nat, n: Node): seq<string>
      requires i <= |ns|
    {
      if i == 0 then cs
      else Given(cs, ns, i - 1, n) + if ns[i - 1] == n then Contribution(n.identifier) else []
    }

    /** Adds this node's constraints to nodes, to each as often as it is listed. */
    method AddNeighbors(ns: seq<Node>)
      modifies ns
      ensures forall n :: n in ns ==> n.parentConstraints == Given(old(n.parentConstraints), ns, |ns|, n)
    {
      for i := 0 to |ns|
        invariant forall n :: n in ns ==> n.parentConstraints == Given(old(n.parentConstraints), ns, i, n)
      {
        AddNeighbor(ns[i]);
      }
    }

    /** Adds this node's constraint for n to n: a package uses its first entry for n. */
    method AddNeighbor(n: Node)
      modifies n
      ensures n.parentConstraints == old(n.parentConstraints) + Contribution(n.identifier)
    {
      if !isPackage {
        n.AddParentConstraints([constraints]);
        return;
      }
      for i := 0 to |dependencies|
        invariant n.parentConstraints == old(n.parentConstraints)
        invariant forall j :: 0 <= j < i ==> dependencies[j].package != n.identifier
      {
        if dependencies[i].package == n.identifier {
          FirstMatchAt(dependencies, i, n.identifier);
          n.AddParentConstraints([dependencies[i].constraints]);
          return;
        }
      }
      FirstMatchNone(dependencies, n.identifier);
      assert n.parentConstraints == old(n.parentConstraints) + [];
    }
  }
}
