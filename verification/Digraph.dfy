/** Finite directed graphs given by adjacency lists: walks, reachability, cycles
    and topological orders.  These are the notions the dependency graph's two
    searches are specified with; nothing here mentions the searches. */
module Digraph {

  /** Every known identifier with its neighbours, in order and with repeats. */
  type Graph = map<string, seq<string>>

  ghost predicate Edge(g: Graph, a: string, b: string) {
    a in g && b in g[a]
  }

  ghost predicate IsWalk(g: Graph, p: seq<string>) {
    && |p| > 0
    && forall i :: 0 <= i < |p| - 1 ==> Edge(g, p[i], p[i + 1])
  }

  ghost predicate WalkBetween(g: Graph, p: seq<string>, a: string, b: string) {
    IsWalk(g, p) && p[0] == a && p[|p| - 1] == b
  }

  /** b is reached from a in zero or more steps. */
  ghost predicate Reaches(g: Graph, a: string, b: string) {
    exists p :: WalkBetween(g, p, a, b)
  }

  /** b is reached from a in one or more steps. */
  ghost predicate ReachesProperly(g: Graph, a: string, b: string) {
    exists p :: WalkBetween(g, p, a, b) && |p| >= 2
  }

  /** Self-loops are cycles. */
  ghost predicate HasCycle(g: Graph) {
    exists a :: ReachesProperly(g, a, a)
  }

  /** Some neighbour is not itself a node. */
  ghost predicate HasDangling(g: Graph) {
    exists a, b :: Edge(g, a, b) && b !in g
  }

  ghost predicate NoDup<T>(s: seq<T>) {
    forall i, j :: 0 <= i < j < |s| ==> s[i] != s[j]
  }

  /** Every listed node stands after all of its neighbours. */
  ghost predicate IsTopological(g: Graph, order: seq<string>) {
    forall i :: 0 <= i < |order| ==> order[i] in g && Below(g[order[i]], order[..i])
  }

  ghost predicate Below(neighbors: seq<string>, earlier: seq<string>) {
    forall b :: b in neighbors ==> b in earlier
  }

  lemma StepReaches(g: Graph, a: string, b: string, c: string)
    requires Edge(g, a, b) && Reaches(g, b, c)
    ensures ReachesProperly(g, a, c)
  {
    var p :| WalkBetween(g, p, b, c);
    var q := [a] + p;
    assert WalkBetween(g, q, a, c) by {
      forall i | 0 <= i < |q| - 1 ensures Edge(g, q[i], q[i + 1]) {
        if i > 0 { assert q[i] == p[i - 1] && q[i + 1] == p[i - 1 + 1]; }
      }
    }
  }

  lemma ReachesSelf(g: Graph, a: string)
    ensures Reaches(g, a, a)
  {
    assert WalkBetween(g, [a], a, a);
  }

  lemma ProperIsReach(g: Graph, a: string, b: string)
    requires ReachesProperly(g, a, b)
    ensures Reaches(g, a, b)
  {
  }

  /** A set holding a's neighbours and closed under edges holds all that a reaches. */
  lemma {:induction false} ClosedSetHoldsWalk(g: Graph, s: set<string>, p: seq<string>)
    requires IsWalk(g, p)
    requires p[0] in g ==> forall b :: b in g[p[0]] ==> b in s
    requires forall v, b :: v in s && Edge(g, v, b) ==> b in s
    ensures forall i :: 1 <= i < |p| ==> p[i] in s
    decreases |p|
  {
    if |p| > 1 {
      assert Edge(g, p[0], p[0 + 1]);
      var q := p[1..];
      forall i | 0 <= i < |q| - 1 ensures Edge(g, q[i], q[i + 1]) {
        assert Edge(g, p[i + 1], p[i + 1 + 1]);
      }
      assert q[0] in g ==> forall b :: b in g[q[0]] ==> Edge(g, q[0], b);
      ClosedSetHoldsWalk(g, s, q);
      forall i | 1 <= i < |p| ensures p[i] in s {
        assert p[i] == q[i - 1];
      }
    }
  }

  ghost function IndexOf(s: seq<string>, x: string): (i: nat)
    requires x in s
    ensures i < |s| && s[i] == x
  {
    var i :| 0 <= i < |s| && s[i] == x;
    i
  }

  /** Along a walk the position in a topological order goes strictly down. */
  lemma {:induction false} WalkDescends(g: Graph, order: seq<string>, p: seq<string>)
    requires IsTopological(g, order) && NoDup(order) && IsWalk(g, p) && p[0] in order
    ensures p[|p| - 1] in order
    ensures |p| >= 2 ==> IndexOf(order, p[|p| - 1]) < IndexOf(order, p[0])
    decreases |p|
  {
    if |p| > 1 {
      var i := IndexOf(order, p[0]);
      assert Edge(g, p[0], p[0 + 1]);
      assert Below(g[order[i]], order[..i]);
      assert p[1] in order[..i];
      var q := p[1..];
      forall i | 0 <= i < |q| - 1 ensures Edge(g, q[i], q[i + 1]) {
        assert Edge(g, p[i + 1], p[i + 1 + 1]);
      }
      WalkDescends(g, order, q);
    }
  }

  /** A graph that has a topological order of all its nodes is closed and acyclic. */
  lemma TopologicalMeansAcyclic(g: Graph, order: seq<string>)
    requires IsTopological(g, order) && NoDup(order)
    requires forall a :: a in g ==> a in order
    ensures !HasCycle(g) && !HasDangling(g)
  {
    forall a | ReachesProperly(g, a, a) ensures false {
      var p :| WalkBetween(g, p, a, a) && |p| >= 2;
      assert Edge(g, p[0], p[0 + 1]);
      WalkDescends(g, order, p);
    }
    forall a, b | Edge(g, a, b) ensures b in g {
      var i := IndexOf(order, a);
      assert Below(g[order[i]], order[..i]);
    }
  }

  /** An edge from the end of a walk back to one of its nodes closes a cycle. */
  lemma BackEdgeMakesCycle(g: Graph, p: seq<string>, b: string)
    requires IsWalk(g, p) && b in p && Edge(g, p[|p| - 1], b)
    ensures ReachesProperly(g, b, b)
  {
    var k := IndexOf(p, b);
    var q := p[k..] + [b];
    forall i | 0 <= i < |q| - 1 ensures Edge(g, q[i], q[i + 1]) {
      if i < |q| - 2 { assert Edge(g, p[k + i], p[k + i + 1]); }
    }
    assert WalkBetween(g, q, b, b);
  }
}
