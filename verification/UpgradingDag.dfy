/** The dependency graph that also tells which dependencies need another version
    (upgrading_dag.go).  Parent constraints are followed as sets: an implied node is
    the very object it is merged into, so it appends its constraints to themselves. */
module UpgradingDag {
  import opened Results
  import opened Digraph
  import opened PackageNodes
  import opened GraphSearch
  import opened Dag

  /** A dependency entry with all the entries of the package that declares it. */
  datatype Declaration = Declaration(siblings: seq<Dependency>, entry: Dependency)

  datatype NodeView = NodeView(constraints: string, parents: set<string>)

  type View = map<string, NodeView>

  ghost function SetOf(cs: seq<string>): set<string> {
    set c | c in cs
  }

  /** What an edge hands to its far node: the constraints its entry carries, and the
      constraint of the declaring package's first entry for that node. */
  ghost function Handed(e: Declaration): set<string> {
    SetOf(e.entry.parents) +
    match FirstMatch(e.siblings, e.entry.package)
    case None => {}
    case Some(c) => {c}
  }

  /** Merges constraints handed to id into what is held for it. */
  ghost function Merge(v: View, id: string, constraints: string, handed: set<string>): View {
    if id in v then v[id := v[id].(parents := v[id].parents + handed)]
    else v[id := NodeView(constraints, handed)]
  }

  ghost function Absorb(v: View, e: Declaration): View {
    Merge(v, e.entry.package, e.entry.constraints, Handed(e))
  }

  ghost function AbsorbAll(v: View, es: seq<Declaration>): View {
    if es == [] then v else Absorb(AbsorbAll(v, es[..|es| - 1]), es[|es| - 1])
  }

  /** The edge reports its far node: unknown, or held at a version its constraint rejects. */
  ghost predicate Reports(valid: (string, string) -> bool, v: View, e: Declaration) {
    Stale(valid, v, e.entry.package, e.entry.constraints)
  }

  ghost predicate Stale(valid: (string, string) -> bool, v: View, id: string, wanted: string) {
    id !in v || !ValidConstraints(valid, v[id].constraints, wanted)
  }

  /** A held version that the constraint rejects: it is neither the very constraint (a digest,
      say) nor a version that satisfies it. */
  ghost predicate Rejected(satisfies: (string, string) -> bool, held: string, wanted: string) {
    held != wanted && !satisfies(held, wanted)
  }

  ghost function Reported(valid: (string, string) -> bool, v: View, es: seq<Declaration>): seq<Dependency> {
    if es == [] then []
    else
      var init, last := es[..|es| - 1], es[|es| - 1];
      Reported(valid, v, init) + if Reports(valid, AbsorbAll(v, init), last) then [last.entry] else []
  }

  ghost function EdgesFrom(deps: seq<Dependency>, k: nat): (es: seq<Declaration>)
    requires k <= |deps|
    ensures |es| == k && forall i :: 0 <= i < k ==> es[i] == Declaration(deps, deps[i])
  {
    seq(k, i requires 0 <= i < k => Declaration(deps, deps[i]))
  }

  ghost function AllEdges(ns: seq<Node>): seq<Declaration> {
    if ns == [] then []
    else AllEdges(ns[..|ns| - 1]) + EdgesFrom(ns[|ns| - 1].Entries(), |ns[|ns| - 1].Entries()|)
  }

  /** Equal strings are valid (this covers digests); otherwise the version must satisfy
      the constraint.  satisfies(version, constraint) is the semver check. */
  predicate ValidConstraints(satisfies: (string, string) -> bool, installed: string, wanted: string) {
    installed == wanted || satisfies(installed, wanted)
  }

  ghost function ViewOf(nodes: Nodes): View
    reads nodes.Values
  {
    map id | id in nodes :: NodeView(nodes[id].constraints, SetOf(nodes[id].parentConstraints))
  }

  ghost function SuppliedView(ns: seq<Node>): View
    reads ns
  {
    if ns == [] then map[]
    else
      var last := ns[|ns| - 1];
      SuppliedView(ns[..|ns| - 1])[last.identifier := NodeView(last.constraints, SetOf(last.parentConstraints))]
  }

  ghost predicate Labelled(nodes: Nodes) {
    forall id :: id in nodes ==> nodes[id].identifier == id
  }

  lemma OneMore(valid: (string, string) -> bool, v: View, es: seq<Declaration>, e: Declaration)
    ensures AbsorbAll(v, es + [e]) == Absorb(AbsorbAll(v, es), e)
    ensures Reported(valid, v, es + [e]) ==
      Reported(valid, v, es) + if Reports(valid, AbsorbAll(v, es), e) then [e.entry] else []
  {
    assert (es + [e])[..|es|] == es;
  }

  lemma {:induction false} AbsorbAppend(v: View, a: seq<Declaration>, b: seq<Declaration>)
    ensures AbsorbAll(v, a + b) == AbsorbAll(AbsorbAll(v, a), b)
  {
    if b == [] {
      assert a + b == a;
    } else {
      var init, last := b[..|b| - 1], b[|b| - 1];
      AbsorbAppend(v, a, init);
      assert (a + b)[..|a + b| - 1] == a + init;
    }
  }

  lemma Associative<T>(a: seq<T>, b: seq<T>, c: seq<T>)
    ensures a + b + c == a + (b + c)
  {
  }

  lemma {:induction false} ReportedAppend(valid: (string, string) -> bool, v: View, a: seq<Declaration>,
                                          b: seq<Declaration>)
    ensures Reported(valid, v, a + b) == Reported(valid, v, a) + Reported(valid, AbsorbAll(v, a), b)
  {
    if b == [] {
      assert a + b == a;
    } else {
      var init, last := b[..|b| - 1], b[|b| - 1];
      ReportedAppend(valid, v, a, init);
      ReportedOnceMore(valid, v, a, init, last);
      assert b == init + [last];
    }
  }

  lemma ReportedOnceMore(valid: (string, string) -> bool, v: View, a: seq<Declaration>, init: seq<Declaration>,
                         last: Declaration)
    requires Reported(valid, v, a + init) == Reported(valid, v, a) + Reported(valid, AbsorbAll(v, a), init)
    ensures Reported(valid, v, a + (init + [last])) ==
      Reported(valid, v, a) + Reported(valid, AbsorbAll(v, a), init + [last])
  {
    var report := if Reports(valid, AbsorbAll(v, a + init), last) then [last.entry] else [];
    AbsorbAppend(v, a, init);
    OneMore(valid, v, a + init, last);
    OneMore(valid, AbsorbAll(v, a), init, last);
    Associative(a, init, [last]);
    Associative(Reported(valid, v, a), Reported(valid, AbsorbAll(v, a), init), report);
  }

  // ----- What the folds mean -----

  lemma {:induction false} AbsorbedParents(v: View, es: seq<Declaration>, id: string, c: string)
    ensures id in AbsorbAll(v, es) <==> id in v || exists e :: e in es && e.entry.package == id
    ensures id in AbsorbAll(v, es) ==>
      (c in AbsorbAll(v, es)[id].parents <==>
        || (id in v && c in v[id].parents)
        || exists e :: e in es && e.entry.package == id && c in Handed(e))
  {
    if es != [] {
      var init, last := es[..|es| - 1], es[|es| - 1];
      AbsorbedParents(v, init, id, c);
      assert forall e :: e in es <==> e in init || e == last;
    }
  }

  /** The version held for id before the k-th edge: the supplied one, or the constraint of the
      first entry to name it. */
  ghost predicate HeldBefore(v: View, es: seq<Declaration>, k: nat, id: string, held: string)
    requires k <= |es|
  {
    if id in v then held == v[id].constraints
    else exists j :: 0 <= j < k && FirstNaming(es, j, id) && held == es[j].entry.constraints
  }

  /** The k-th edge is to be reported: nothing is held for what it names, or a version that its
      constraint rejects. */
  ghost predicate Needed(satisfies: (string, string) -> bool, v: View, es: seq<Declaration>, k: nat)
    requires k < |es|
  {
    var e := es[k].entry;
    || (e.package !in v && forall j :: 0 <= j < k ==> es[j].entry.package != e.package)
    || exists held :: HeldBefore(v, es, k, e.package, held) && Rejected(satisfies, held, e.constraints)
  }

  /** Exactly the edges that need it are reported, in order: taking one edge more adds its entry
      if and only if it is needed. */
  lemma ReportedIff(satisfies: (string, string) -> bool, v: View, es: seq<Declaration>, k: nat)
    requires k < |es|
    ensures Reported(satisfies, v, es[..0]) == []
    ensures Reported(satisfies, v, es[..k + 1]) ==
      Reported(satisfies, v, es[..k]) + if Needed(satisfies, v, es, k) then [es[k].entry] else []
  {
    assert es[..k + 1] == es[..k] + [es[k]];
    OneMore(satisfies, v, es[..k], es[k]);
    ReportsIffNeeded(satisfies, v, es, k);
  }

  lemma ReportsIffNeeded(satisfies: (string, string) -> bool, v: View, es: seq<Declaration>, k: nat)
    requires k < |es|
    ensures Reports(satisfies, AbsorbAll(v, es[..k]), es[k]) <==> Needed(satisfies, v, es, k)
  {
    var id, w := es[k].entry.package, AbsorbAll(v, es[..k]);
    if id in w {
      HeldIs(v, es, k, id);
      assert HeldBefore(v, es, k, id, w[id].constraints);
    } else {
      NothingHeld(v, es, k, id);
    }
  }

  lemma NothingHeld(v: View, es: seq<Declaration>, k: nat, id: string)
    requires k <= |es| && id !in AbsorbAll(v, es[..k])
    ensures id !in v && forall j :: 0 <= j < k ==> es[j].entry.package != id
  {
    AbsorbedParents(v, es[..k], id, "");
    forall j | 0 <= j < k ensures es[j].entry.package != id {
      assert es[..k][j] in es[..k];
    }
  }

  /** Absorbing the edges before the k-th leaves exactly that version held. */
  lemma HeldIs(v: View, es: seq<Declaration>, k: nat, id: string)
    requires k <= |es| && id in AbsorbAll(v, es[..k])
    ensures id in v || exists j :: 0 <= j < k && es[j].entry.package == id
    ensures forall held :: HeldBefore(v, es, k, id, held) <==> held == AbsorbAll(v, es[..k])[id].constraints
  {
    var before := es[..k];
    AbsorbedConstraints(v, before, id);
    if id !in v {
      var j :| 0 <= j < k && FirstNaming(before, j, id)
        && AbsorbAll(v, before)[id].constraints == before[j].entry.constraints;
      assert FirstNaming(es, j, id) by {
        forall i | 0 <= i < j ensures es[i].entry.package != id {
          assert before[i] == es[i];
        }
      }
      forall i | 0 <= i < k && FirstNaming(es, i, id) ensures i == j {
      }
    }
  }

  /** A supplied node's identifier is among the reported exactly when some edge to it rejects the
      version it was supplied at. */
  lemma {:induction false} SuppliedReportedIff(satisfies: (string, string) -> bool, v: View, es: seq<Declaration>,
                                               id: string)
    requires id in v
    ensures id in Packages(Reported(satisfies, v, es)) <==> SomeRejects(satisfies, v[id].constraints, es, id)
  {
    if es != [] {
      var init, last := es[..|es| - 1], es[|es| - 1];
      SuppliedReportedIff(satisfies, v, init, id);
      AbsorbedConstraints(v, init, id) by {
        AbsorbedParents(v, init, id, "");
      }
      if Reports(satisfies, AbsorbAll(v, init), last) {
        PackagesSnoc(Reported(satisfies, v, init), last.entry);
      }
      AbsorbedParents(v, init, id, "");
      assert forall e :: e in es <==> e in init || e == last;
    }
  }

  ghost predicate SomeRejects(satisfies: (string, string) -> bool, held: string, es: seq<Declaration>, id: string) {
    exists e :: e in es && e.entry.package == id && Rejected(satisfies, held, e.entry.constraints)
  }

  /** A supplied node keeps its version; an implied one has the first constraint naming it. */
  lemma {:induction false} AbsorbedConstraints(v: View, es: seq<Declaration>, id: string)
    requires id in AbsorbAll(v, es)
    ensures id in v ==> AbsorbAll(v, es)[id].constraints == v[id].constraints
    ensures id !in v ==> exists k ::
      0 <= k < |es| && FirstNaming(es, k, id) && AbsorbAll(v, es)[id].constraints == es[k].entry.constraints
  {
    if es != [] {
      var init, last := es[..|es| - 1], es[|es| - 1];
      if id in AbsorbAll(v, init) {
        AbsorbedConstraints(v, init, id);
        if id !in v {
          var k :| 0 <= k < |init| && FirstNaming(init, k, id)
            && AbsorbAll(v, init)[id].constraints == init[k].entry.constraints;
          assert es[..k] == init[..k];
          assert FirstNaming(es, k, id);
        }
      } else {
        AbsorbedParents(v, init, id, "");
        assert FirstNaming(es, |init|, id) by {
          forall i | 0 <= i < |init| ensures es[i].entry.package != id {
            assert init[i] in init;
          }
        }
      }
    }
  }

  ghost predicate FirstNaming(es: seq<Declaration>, k: nat, id: string)
    requires k < |es|
  {
    es[k].entry.package == id && forall i :: 0 <= i < k ==> es[i].entry.package != id
  }

  lemma {:induction false} EdgeListed(ns: seq<Node>, e: Declaration)
    ensures e in AllEdges(ns) <==> exists n :: n in ns && n.Entries() == e.siblings && e.entry in n.Entries()
  {
    if ns != [] {
      var init, last := ns[..|ns| - 1], ns[|ns| - 1];
      EdgeListed(init, e);
      assert forall n :: n in ns <==> n in init || n == last;
      var es := EdgesFrom(last.Entries(), |last.Entries()|);
      if last.Entries() == e.siblings && e.entry in last.Entries() {
        var i :| 0 <= i < |last.Entries()| && last.Entries()[i] == e.entry;
        assert es[i] == e;
      }
      assert e in es ==> last.Entries() == e.siblings && e.entry in last.Entries();
    }
  }

  /** Some entry naming id carries c. */
  ghost predicate Carried(ns: seq<Node>, id: string, c: string) {
    exists n, e :: n in ns && e in n.Entries() && e.package == id && c in e.parents
  }

  /** Some package names id, and its first entry that does has the constraint c. */
  ghost predicate Demanded(ns: seq<Node>, id: string, c: string) {
    exists n :: n in ns && id in n.NeighborIds() && FirstMatch(n.Entries(), id) == Some(c)
  }

  ghost predicate HandedOver(es: seq<Declaration>, id: string, c: string) {
    exists e :: e in es && e.entry.package == id && c in Handed(e)
  }

  lemma SetOfAppend(a: seq<string>, b: seq<string>)
    ensures SetOf(a + b) == SetOf(a) + SetOf(b)
  {
    assert forall c :: c in a + b <==> c in a || c in b;
  }

  lemma HandedIs(n: Node, e: Declaration)
    requires n.isPackage && n.dependencies == e.siblings
    ensures Handed(e) == SetOf(e.entry.parents) + SetOf(n.Contribution(e.entry.package))
  {
    var m := FirstMatch(e.siblings, e.entry.package);
    assert m.Some? ==> m.value in [m.value];
  }

  lemma DeclaringPackage(ns: seq<Node>, e: Declaration) returns (n: Node)
    requires e in AllEdges(ns)
    ensures n in ns && n.Entries() == e.siblings && e.entry in n.Entries()
    ensures e.entry.package in n.NeighborIds()
  {
    EdgeListed(ns, e);
    n :| n in ns && n.Entries() == e.siblings && e.entry in n.Entries();
    var i :| 0 <= i < |n.Entries()| && n.Entries()[i] == e.entry;
    assert n.NeighborIds()[i] == e.entry.package;
  }

  lemma HandedComesFrom(ns: seq<Node>, id: string, c: string)
    requires HandedOver(AllEdges(ns), id, c)
    ensures Carried(ns, id, c) || Demanded(ns, id, c)
  {
    var e :| e in AllEdges(ns) && e.entry.package == id && c in Handed(e);
    var n := DeclaringPackage(ns, e);
    if c in SetOf(e.entry.parents) {
      assert Carried(ns, id, c);
    } else {
      assert FirstMatch(n.Entries(), id) == Some(c);
      assert Demanded(ns, id, c);
    }
  }

  lemma CarriedIsHanded(ns: seq<Node>, id: string, c: string)
    requires Carried(ns, id, c)
    ensures HandedOver(AllEdges(ns), id, c)
  {
    var n, e :| n in ns && e in n.Entries() && e.package == id && c in e.parents;
    var edge := Declaration(n.Entries(), e);
    EdgeListed(ns, edge);
    assert edge in AllEdges(ns) && c in Handed(edge);
  }

  lemma DemandedIsHanded(ns: seq<Node>, id: string, c: string)
    requires Demanded(ns, id, c)
    ensures HandedOver(AllEdges(ns), id, c)
  {
    var n :| n in ns && id in n.NeighborIds() && FirstMatch(n.Entries(), id) == Some(c);
    var i :| 0 <= i < |n.NeighborIds()| && n.NeighborIds()[i] == id;
    var edge := Declaration(n.Entries(), n.Entries()[i]);
    assert n.Entries()[i] in n.Entries();
    EdgeListed(ns, edge);
    assert edge in AllEdges(ns) && c in Handed(edge);
  }

  /** After Init a node's parent constraints are exactly those it was supplied with, those
      carried by the entries naming it, and, for each package with such an entry, the
      constraint of that package's first entry naming it. */
  lemma ParentConstraintsExactly(ns: seq<Node>, supplied: View, id: string, c: string)
    requires id in AbsorbAll(supplied, AllEdges(ns))
    ensures c in AbsorbAll(supplied, AllEdges(ns))[id].parents <==>
      (id in supplied && c in supplied[id].parents) || Carried(ns, id, c) || Demanded(ns, id, c)
  {
    AbsorbedParents(supplied, AllEdges(ns), id, c);
    if HandedOver(AllEdges(ns), id, c) { HandedComesFrom(ns, id, c); }
    if Carried(ns, id, c) { CarriedIsHanded(ns, id, c); }
    if Demanded(ns, id, c) { DemandedIsHanded(ns, id, c); }
  }

  // ----- The graph -----

  lemma SuppliedKeys(ns: seq<Node>)
    ensures SuppliedView(ns).Keys == Identifiers(ns)
  {
    if ns != [] {
      var init, last := ns[..|ns| - 1], ns[|ns| - 1];
      SuppliedKeys(init);
      assert forall n :: n in ns <==> n in init || n == last;
    }
  }

  /** What Init's contract says of the stored nodes makes them complete the declared graph:
      added nodes are the bare nodes of reported entries, and no neighbour is missing. */
  lemma InitCompletes(ns: seq<Node>, implied: seq<Node>, valid: (string, string) -> bool, supplied: View, nodes: Nodes)
    requires DistinctIds(ns) && supplied.Keys == Identifiers(ns)
    requires Absorbed(valid, supplied, AllEdges(ns), ViewOf(nodes), implied) && Labelled(nodes)
    requires forall n :: n in ns ==> n.identifier in nodes && nodes[n.identifier] == n
    requires forall id :: id in nodes ==> nodes[id] in ns + implied
    ensures Completes(GraphOf(nodes), DeclaredGraph(ns))
  {
    var g, d := GraphOf(nodes), DeclaredGraph(ns);
    DeclaredGraphHas(ns);
    forall id | id in g ensures g[id] == if id in d then d[id] else [] {
      if id in d {
        var n :| n in ns && n.identifier == id;
      } else {
        assert nodes[id] in implied;
        assert nodes[id].NeighborIds() == [];
      }
    }
    forall a, b | Edge(d, a, b) ensures b in g {
      var n :| n in ns && n.identifier == a;
      NeighborAbsorbed(supplied, ns, n, b);
    }
  }

  lemma NeighborAbsorbed(supplied: View, ns: seq<Node>, n: Node, id: string)
    requires n in ns && id in n.NeighborIds()
    ensures id in AbsorbAll(supplied, AllEdges(ns))
  {
    var i :| 0 <= i < |n.NeighborIds()| && n.NeighborIds()[i] == id;
    var edge := Declaration(n.Entries(), n.Entries()[i]);
    assert n.Entries()[i] in n.Entries();
    EdgeListed(ns, edge);
    AbsorbedParents(supplied, AllEdges(ns), id, "");
  }

  /** The nodes returned for the reported entries. */
  ghost predicate AllImply(ns: seq<Node>, entries: seq<Dependency>) {
    |ns| == |entries| && forall i :: 0 <= i < |ns| ==> ns[i].Implies(entries[i])
  }

  lemma ImpliedIds(ns: seq<Node>, entries: seq<Dependency>)
    requires AllImply(ns, entries)
    ensures Identifiers(ns) == Packages(entries)
  {
    forall x ensures x in Identifiers(ns) <==> x in Packages(entries) {
      if x in Identifiers(ns) {
        var n :| n in ns && n.identifier == x;
        var i :| 0 <= i < |ns| && ns[i] == n;
        assert entries[i] in entries;
      }
      if x in Packages(entries) {
        var e :| e in entries && e.package == x;
        var i :| 0 <= i < |entries| && entries[i] == e;
        assert ns[i] in ns;
      }
    }
  }

  lemma {:induction false} SuppliedHas(ns: seq<Node>, n: Node)
    requires DistinctIds(ns) && n in ns
    ensures n.identifier in SuppliedView(ns) && SuppliedView(ns)[n.identifier].constraints == n.constraints
  {
    var init, last := ns[..|ns| - 1], ns[|ns| - 1];
    if n != last {
      SuppliedHas(init, n);
    }
  }

  /** The edges es take the view v to w and report the nodes found. */
  ghost predicate Absorbed(valid: (string, string) -> bool, v: View, es: seq<Declaration>, w: View, found: seq<Node>) {
    w == AbsorbAll(v, es) && AllImply(found, Reported(valid, v, es))
  }

  lemma AbsorbedThen(valid: (string, string) -> bool, u: View, a: seq<Declaration>, v: View, found: seq<Node>,
                     b: seq<Declaration>, w: View, more: seq<Node>)
    requires Absorbed(valid, u, a, v, found) && Absorbed(valid, v, b, w, more)
    ensures Absorbed(valid, u, a + b, w, found + more)
  {
    AbsorbAppend(u, a, b);
    ReportedAppend(valid, u, a, b);
  }

  lemma AbsorbedOne(valid: (string, string) -> bool, v: View, e: Declaration, w: View, n: Node, found: seq<Node>)
    requires w == Absorb(v, e) && n.Implies(e.entry) && found == if Reports(valid, v, e) then [n] else []
    ensures Absorbed(valid, v, [e], w, found)
  {
    OneMore(valid, v, [], e);
    assert [] + [e] == [e];
  }

  lemma AbsorbedNothing(valid: (string, string) -> bool, v: View)
    ensures Absorbed(valid, v, [], v, [])
  {
  }

  /** What is stored and was not before is one of ns. */
  ghost predicate NewAmong(before: Nodes, after: Nodes, ns: seq<Node>) {
    forall id :: id in after && id !in before ==> after[id] in ns
  }

  /** Whatever was stored stays; what is new comes from ns and is among the missing. */
  ghost predicate Extends(before: Nodes, after: Nodes, ns: seq<Node>, missing: seq<Node>) {
    && Labelled(after)
    && (forall id :: id in before ==> id in after && after[id] == before[id])
    && NewAmong(before, after, ns) && NewAmong(before, after, missing)
  }

  lemma StoredOrMissing(before: Nodes, after: Nodes, ns: seq<Node>, missing: seq<Node>)
    requires NewAmong(before, after, missing) && forall id :: id in before ==> before[id] in ns
    requires forall id :: id in before ==> id in after && after[id] == before[id]
    ensures forall id :: id in after ==> after[id] in ns + missing
  {
  }

  /** From the i-th on, the nodes of the entries of p carry what their entries do. */
  ghost predicate CarryParents(p: Node, ns: seq<Node>, i: nat)
    reads ns
  {
    |ns| == |p.dependencies| && forall j :: i <= j < |ns| ==> ns[j].parentConstraints == p.dependencies[j].parents
  }

  ghost predicate Unstored(nodes: Nodes, ns: seq<Node>, i: nat) {
    forall j :: i <= j < |ns| ==> ns[j] !in nodes.Values
  }

  lemma ExtendsOne(before: Nodes, stored: Nodes, ns: seq<Node>, i: nat, missing: seq<Node>, after: Nodes,
                   all: seq<Node>)
    requires NoDup(ns) && i < |ns| && Extends(before, stored, ns, missing) && Unstored(stored, ns, i)
    requires after == if ns[i].identifier in stored then stored else stored[ns[i].identifier := ns[i]]
    requires (forall m :: m in missing ==> m in all) && (ns[i].identifier !in stored ==> ns[i] in all)
    ensures Extends(before, after, ns, all) && Unstored(after, ns, i + 1)
  {
  }

  ghost function OwnConstraints(ns: seq<Node>): map<Node, set<string>>
    reads ns
  {
    map n | n in ns :: SetOf(n.parentConstraints)
  }

  /** c belongs to what was held for id, or to a given node for id. */
  ghost predicate InPool(v: View, own: map<Node, set<string>>, ns: seq<Node>, id: string, c: string) {
    || (id in v && c in v[id].parents)
    || exists n :: n in ns && n.identifier == id && n in own && c in own[n]
  }

  ghost predicate AllPooled(v: View, own: map<Node, set<string>>, ns: seq<Node>)
    reads ns
  {
    forall n :: n in ns ==>
      && n in own
      && (forall c :: c in own[n] ==> c in n.parentConstraints)
      && (forall c :: c in n.parentConstraints ==> InPool(v, own, ns, n.identifier, c))
  }

  ghost predicate NothingElse(v: View, own: map<Node, set<string>>, ns: seq<Node>, nodes: Nodes)
    reads nodes.Values
  {
    forall id, c :: id in nodes && c in nodes[id].parentConstraints ==> InPool(v, own, ns, id, c)
  }

  ghost predicate NothingLost(v: View, own: map<Node, set<string>>, done: seq<Node>, nodes: Nodes)
    reads nodes.Values
  {
    forall id, c :: InPool(v, own, done, id, c) ==> id in nodes && c in nodes[id].parentConstraints
  }

  lemma PoolGrows(v: View, own: map<Node, set<string>>, done: seq<Node>, n: Node, id: string, c: string)
    ensures InPool(v, own, done + [n], id, c) <==>
      InPool(v, own, done, id, c) || (n.identifier == id && n in own && c in own[n])
  {
    assert forall m :: m in done + [n] <==> m in done || m == n;
  }

  lemma {:induction false} StoredAre(ns: seq<Node>)
    requires DistinctIds(ns)
    ensures ViewOf(Put(map[], ns)) == SuppliedView(ns) && Labelled(Put(map[], ns))
    ensures forall id :: id in Put(map[], ns) ==> Put(map[], ns)[id] in ns
    ensures forall n :: n in ns ==> n.identifier in Put(map[], ns) && Put(map[], ns)[n.identifier] == n
  {
    if ns != [] {
      var init, last := ns[..|ns| - 1], ns[|ns| - 1];
      StoredAre(init);
      forall n | n in ns ensures n.identifier in Put(map[], ns) && Put(map[], ns)[n.identifier] == n {
        PutStores(map[], ns, n);
      }
    }
  }

  ghost function NodeEdges(n: Node): seq<Declaration> {
    EdgesFrom(n.Entries(), |n.Entries()|)
  }

  lemma OneNodeMore(ns: seq<Node>, i: nat)
    requires i < |ns|
    ensures AllEdges(ns[..i + 1]) == AllEdges(ns[..i]) + NodeEdges(ns[i])
  {
    assert ns[..i + 1][..i] == ns[..i];
  }

  /** The edges of the nodes, one node after the other and its entries in order. */
  lemma EdgesInOrder(ns: seq<Node>, i: nat) returns (es: seq<Declaration>)
    requires i < |ns|
    ensures AllEdges(ns[..0]) == [] && AllEdges(ns[..i + 1]) == AllEdges(ns[..i]) + es
    ensures |es| == if ns[i].isPackage then |ns[i].dependencies| else 0
    ensures forall k :: 0 <= k < |es| ==> es[k] == Declaration(ns[i].dependencies, ns[i].dependencies[k])
  {
    OneNodeMore(ns, i);
    es := NodeEdges(ns[i]);
  }

  ghost function EdgeAt(p: Node, i: nat): seq<Declaration>
    requires i < |p.dependencies|
  {
    [Declaration(p.dependencies, p.dependencies[i])]
  }

  lemma OneEdgeMore(p: Node, i: nat)
    requires i < |p.dependencies|
    ensures EdgesFrom(p.dependencies, i + 1) == EdgesFrom(p.dependencies, i) + EdgeAt(p, i)
  {
  }

  class MapUpgradingDag {
    var nodes: Nodes
    /** satisfies(version, constraint): the semver check. */
    const satisfies: (string, string) -> bool

    constructor (satisfies: (string, string) -> bool)
      ensures nodes == map[] && this.satisfies == satisfies
    {
      nodes := map[];
      this.satisfies := satisfies;
    }

    method AddNode(n: Node) returns (r: Result<(), Error>)
      modifies this
      ensures r.Err? <==> n.identifier in old(nodes)
      ensures r.Err? ==> nodes == old(nodes) && r.error == AlreadyExists(n.identifier)
      ensures r.Ok? ==> nodes == old(nodes)[n.identifier := n]
    {
      if n.identifier in nodes {
        return Err(AlreadyExists(n.identifier));
      }
      nodes := nodes[n.identifier := n];
      return Ok(());
    }

    method AddNodes(ns: seq<Node>) returns (r: Result<(), Error>)
      modifies this
      ensures r.Ok? <==> Storable(old(nodes.Keys), ns)
      ensures r.Ok? ==> nodes == Put(old(nodes), ns)
    {
      for i := 0 to |ns|
        invariant Storable(old(nodes.Keys), ns[..i])
        invariant nodes == Put(old(nodes), ns[..i])
      {
        PutKeys(old(nodes), ns[..i]);
        PutOne(old(nodes), ns[..i], ns[i]);
        assert ns[..i + 1] == ns[..i] + [ns[i]];
        assert ns[..i + 1][..i] == ns[..i];
        StorablePrefix(old(nodes.Keys), ns, i + 1);
        r := AddNode(ns[i]);
        if r.Err? { return; }
      }
      assert ns[..|ns|] == ns;
      return Ok(());
    }

    /** Adds the edge from one node to another, and says whether the far node is missing
        or needs another version.  Either way the far node takes over its constraints. */
    method AddEdge(from: string, to: Node) returns (r: Result<bool, Error>)
      requires Labelled(nodes)
      modifies this, to, nodes.Values
      ensures r.Err? <==> from !in old(nodes)
      ensures r.Err? ==> nodes == old(nodes) && ViewOf(nodes) == old(ViewOf(nodes))
      ensures r.Err? ==> r.error == DoesNotExist(to.identifier)
      ensures r.Ok? ==> (r.value <==>
        to.identifier !in old(nodes) || Rejected(satisfies, old(nodes)[to.identifier].constraints, to.constraints))
      ensures r.Ok? ==> nodes == if to.identifier in old(nodes) then old(nodes) else old(nodes)[to.identifier := to]
      ensures r.Ok? ==> ViewOf(nodes) == Merge(old(ViewOf(nodes)), to.identifier, to.constraints,
        SetOf(old(to.parentConstraints)) + SetOf(nodes[from].Contribution(to.identifier)))
    {
      if from !in nodes {
        return Err(DoesNotExist(to.identifier));
      }
      var id := to.identifier;
      var report := false;
      ghost var before := ViewOf(nodes);
      if id !in nodes {
        report := true;
        var _ := AddNode(to);
        assert ViewOf(nodes) == before[id := NodeView(to.constraints, SetOf(to.parentConstraints))];
      } else if !ValidConstraints(satisfies, nodes[id].constraints, to.constraints) {
        HandOver(nodes[from], to);
        return Ok(true);
      }
      HandOver(nodes[from], to);
      return Ok(report);
    }

    /** Adds the edges of one package to all its entries. */
    method AddEdges(p: Node, ns: seq<Node>) returns (missing: seq<Node>)
      requires Labelled(nodes) && p.isPackage && p.identifier in nodes && nodes[p.identifier] == p
      requires |ns| == |p.dependencies| && NoDup(ns) && Unstored(nodes, ns, 0)
      requires forall i :: 0 <= i < |ns| ==> ns[i].Implies(p.dependencies[i])
      requires CarryParents(p, ns, 0)
      modifies this, ns, nodes.Values
      ensures Extends(old(nodes), nodes, ns, missing)
      ensures Absorbed(satisfies, old(ViewOf(nodes)), EdgesFrom(p.dependencies, |ns|), ViewOf(nodes), missing)
    {
      missing := [];
      ghost var before := ViewOf(nodes);
      AbsorbedNothing(satisfies, before);
      for i := 0 to |ns|
        invariant Extends(old(nodes), nodes, ns, missing) && Unstored(nodes, ns, i)
        invariant Absorbed(satisfies, before, EdgesFrom(p.dependencies, i), ViewOf(nodes), missing)
        invariant CarryParents(p, ns, i)
      {
        ghost var stored, v := nodes, ViewOf(nodes);
        var found := AddEdgeTo(p, ns[i], i);
        ExtendsOne(old(nodes), stored, ns, i, missing, nodes, missing + found);
        AbsorbedThen(satisfies, before, EdgesFrom(p.dependencies, i), v, missing, EdgeAt(p, i), ViewOf(nodes), found);
        OneEdgeMore(p, i);
        missing := missing + found;
      }
    }

    /** One round of the loop in AddEdges: the edge to n, the i-th neighbour of p. */
    method AddEdgeTo(p: Node, n: Node, ghost i: nat) returns (found: seq<Node>)
      requires Labelled(nodes) && p.isPackage && p.identifier in nodes && nodes[p.identifier] == p
      requires i < |p.dependencies| && n.Implies(p.dependencies[i]) && n.parentConstraints == p.dependencies[i].parents
      modifies this, n, nodes.Values
      ensures nodes == if n.identifier in old(nodes) then old(nodes) else old(nodes)[n.identifier := n]
      ensures Absorbed(satisfies, old(ViewOf(nodes)), EdgeAt(p, i), ViewOf(nodes), found)
      ensures n.identifier !in old(nodes) ==> n in found
    {
      ghost var e, before := Declaration(p.dependencies, p.dependencies[i]), ViewOf(nodes);
      HandedIs(p, e);
      var r := AddEdge(p.identifier, n);
      found := if r.value then [n] else [];
      AbsorbedOne(satisfies, before, e, ViewOf(nodes), n, found);
    }

    /** Both ways AddEdge ends: the near node adds its constraint to the far one, which
        then passes all it carries to the node stored under its identifier. */
    method HandOver(from: Node, to: Node)
      requires Labelled(nodes) && to.identifier in nodes
      modifies to, nodes.Values
      ensures ViewOf(nodes) == Merge(old(ViewOf(nodes)), to.identifier, to.constraints,
        SetOf(old(to.parentConstraints)) + SetOf(from.Contribution(to.identifier)))
    {
      ghost var before := ViewOf(nodes);
      from.AddNeighbor(to);
      SetOfAppend(old(to.parentConstraints), from.Contribution(to.identifier));
      var held := nodes[to.identifier];
      SetOfAppend(held.parentConstraints, to.parentConstraints);
      held.AddParentConstraints(to.parentConstraints);
      forall k | k in nodes && k != to.identifier ensures ViewOf(nodes)[k] == before[k] {
        assert nodes[k].identifier == k;
      }
    }

    /** Clears the graph, adds the nodes and then their edges, handing parent constraints
        over along each edge.  It fails exactly when two nodes share an identifier. */
    method Init(ns: seq<Node>) returns (r: Result<seq<Node>, Error>)
      modifies this, ns
      ensures r.Ok? <==> DistinctIds(ns)
      ensures r.Ok? ==> Absorbed(satisfies, old(SuppliedView(ns)), AllEdges(ns), ViewOf(nodes), r.value)
      ensures r.Ok? ==> Labelled(nodes) && forall n :: n in ns ==> n.identifier in nodes && nodes[n.identifier] == n
      ensures r.Ok? ==> forall id :: id in nodes ==> nodes[id] in ns + r.value
    {
      ghost var supplied := SuppliedView(ns);
      nodes := map[];
      StorableIff(nodes.Keys, ns);
      var added := AddNodes(ns);
      if added.Err? { return Err(added.error); }
      StoredAre(ns);
      ghost var stored := nodes;
      assert ViewOf(nodes) == supplied;
      var missing := AddAllEdges(ns);
      StoredOrMissing(stored, nodes, ns, missing);
      return Ok(missing);
    }

    /** The second loop in Init. */
    method AddAllEdges(ns: seq<Node>) returns (missing: seq<Node>)
      requires Labelled(nodes) && forall id :: id in nodes ==> nodes[id] in ns
      requires forall n :: n in ns ==> n.identifier in nodes && nodes[n.identifier] == n
      modifies this, ns
      ensures Absorbed(satisfies, old(ViewOf(nodes)), AllEdges(ns), ViewOf(nodes), missing)
      ensures Labelled(nodes) && forall n :: n in ns ==> n.identifier in nodes && nodes[n.identifier] == n
      ensures NewAmong(old(nodes), nodes, missing)
      ensures forall id :: id in old(nodes) ==> id in nodes && nodes[id] == old(nodes)[id]
    {
      missing := [];
      ghost var before := ViewOf(nodes);
      AbsorbedNothing(satisfies, before);
      for i := 0 to |ns|
        invariant Labelled(nodes)
        invariant forall n :: n in ns ==> n.identifier in nodes && nodes[n.identifier] == n
        invariant forall id :: id in nodes ==> nodes[id] in ns || fresh(nodes[id])
        invariant NewAmong(old(nodes), nodes, missing)
        invariant forall id :: id in old(nodes) ==> id in nodes && nodes[id] == old(nodes)[id]
        invariant Absorbed(satisfies, before, AllEdges(ns[..i]), ViewOf(nodes), missing)
      {
        ghost var v := ViewOf(nodes);
        var found := AddEdgesOf(ns[i]);
        AbsorbedThen(satisfies, before, AllEdges(ns[..i]), v, missing, NodeEdges(ns[i]), ViewOf(nodes), found);
        OneNodeMore(ns, i);
        missing := missing + found;
      }
      assert ns[..|ns|] == ns;
    }

    /** One round of the second loop in Init. */
    method AddEdgesOf(p: Node) returns (missing: seq<Node>)
      requires Labelled(nodes) && p.identifier in nodes && nodes[p.identifier] == p
      modifies this, nodes.Values
      ensures Labelled(nodes)
      ensures forall id :: id in old(nodes) ==> id in nodes && nodes[id] == old(nodes)[id]
      ensures forall id :: id in nodes && id !in old(nodes) ==> fresh(nodes[id])
      ensures NewAmong(old(nodes), nodes, missing)
      ensures Absorbed(satisfies, old(ViewOf(nodes)), NodeEdges(p), ViewOf(nodes), missing)
    {
      missing := [];
      if p.isPackage {
        var ns := p.Neighbors();
        missing := AddEdges(p, ns);
      }
    }

    /** Replaces or adds nodes.  The node that ends up stored under an identifier carries
        exactly the parent constraints of the one stored before and of all those given. */
    method AddOrUpdateNodes(ns: seq<Node>)
      requires Labelled(nodes)
      modifies this, ns
      ensures nodes == Put(old(nodes), ns)
      ensures forall id, c :: id in nodes ==>
        (c in nodes[id].parentConstraints <==> InPool(old(ViewOf(nodes)), old(OwnConstraints(ns)), ns, id, c))
    {
      ghost var v, own := ViewOf(nodes), OwnConstraints(ns);
      for i := 0 to |ns|
        invariant Labelled(nodes) && nodes == Put(old(nodes), ns[..i])
        invariant AllPooled(v, own, ns) && NothingElse(v, own, ns, nodes) && NothingLost(v, own, ns[..i], nodes)
      {
        assert ns[..i + 1] == ns[..i] + [ns[i]];
        PutOne(old(nodes), ns[..i], ns[i]);
        AddOrUpdateNode(ns[i], ns, ns[..i], v, own);
      }
      assert ns[..|ns|] == ns;
    }

    /** One round of the loop in AddOrUpdateNodes. */
    method AddOrUpdateNode(n: Node, ghost ns: seq<Node>, ghost done: seq<Node>, ghost v: View,
                           ghost own: map<Node, set<string>>)
      requires n in ns && Labelled(nodes)
      requires AllPooled(v, own, ns) && NothingElse(v, own, ns, nodes) && NothingLost(v, own, done, nodes)
      modifies this, n
      ensures Labelled(nodes) && nodes == old(nodes)[n.identifier := n]
      ensures AllPooled(v, own, ns) && NothingElse(v, own, ns, nodes) && NothingLost(v, own, done + [n], nodes)
    {
      if n.identifier in nodes {
        n.AddParentConstraints(nodes[n.identifier].parentConstraints);
      }
      nodes := nodes[n.identifier := n];
      forall id, c | InPool(v, own, done + [n], id, c) ensures id in nodes && c in nodes[id].parentConstraints {
        PoolGrows(v, own, done, n, id, c);
        if InPool(v, own, done, id, c) {
          assert id in old(nodes) && c in old(nodes[id].parentConstraints);
        } else {
          assert c in old(n.parentConstraints);
        }
      }
    }

    /** As GraphSearch.Sort, on the stored nodes. */
    method Sort() returns (r: Result<seq<string>, Error>)
      ensures r.Err? <==> HasCycle(GraphOf(nodes)) || HasDangling(GraphOf(nodes))
      ensures r.Err? ==> IsDefect(GraphOf(nodes), r.error)
      ensures r.Ok? ==> NoDup(r.value) && Elements(r.value) == nodes.Keys
      ensures r.Ok? ==> (IsTopological(GraphOf(nodes), r.value) <==> NobodyNeeds(GraphOf(nodes), ""))
    {
      r := GraphSearch.Sort(nodes);
    }

    /** As GraphSearch.TraceNode, on the stored nodes. */
    method TraceNode(id: string) returns (r: Result<Nodes, Error>)
      ensures r.Err? <==> MissesSome(GraphOf(nodes), id)
      ensures r.Err? ==> r.error == MissingInTree
      ensures r.Ok? ==> forall v :: v in r.value <==> ReachesProperly(GraphOf(nodes), id, v)
      ensures r.Ok? ==> LabelsFit(r.value) && FromEntries(nodes, id, r.value)
    {
      r := GraphSearch.TraceNode(nodes, id);
    }
  }
}
