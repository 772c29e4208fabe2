/**
 The dependency graph of jobs: vertices with the set of vertices that depend on them, its
 topological sort, and the enumeration of its cycle-free paths.
 */
module JobGraph {

  type Vertex = nat
  type Adjacency = map<Vertex, set<Vertex>>

  predicate Edge(g: Adjacency, u: Vertex, v: Vertex) { u in g && v in g[u] }

  /** Every target of an edge is a vertex. */
  ghost predicate WellFormed(g: Adjacency) { forall u, v :: Edge(g, u, v) ==> v in g }

  ghost predicate IsPath(g: Adjacency, p: seq<Vertex>) {
    p != [] && forall i :: 0 <= i < |p| - 1 ==> Edge(g, p[i], p[i + 1])
  }

  ghost predicate Joins(g: Adjacency, p: seq<Vertex>, u: Vertex, v: Vertex) {
    IsPath(g, p) && p[0] == u && p[|p| - 1] == v
  }

  /** `v` comes after `u`: there is a path of at least one edge. */
  ghost predicate Leads(g: Adjacency, u: Vertex, v: Vertex) { exists p :: Joins(g, p, u, v) && |p| >= 2 }

  /** `v` lies on a cycle or comes after one. */
  ghost predicate FromCycle(g: Adjacency, v: Vertex) {
    exists u :: Leads(g, u, u) && (u == v || Leads(g, u, v))
  }

  ghost predicate Acyclic(g: Adjacency) { forall u :: !Leads(g, u, u) }

  // --------------------------------------------------------------------- building a graph

  function WithVertex(g: Adjacency, v: Vertex): (h: Adjacency)
    ensures h.Keys == g.Keys + {v} && forall a, b :: Edge(h, a, b) <==> Edge(g, a, b)
  {
    if v in g then g else g[v := {}]
  }

  function WithEdge(g: Adjacency, parent: Vertex, child: Vertex): (h: Adjacency)
    ensures h.Keys == g.Keys + {parent, child}
    ensures forall a, b :: Edge(h, a, b) <==> Edge(g, a, b) || (a == parent && b == child)
  {
    var h := WithVertex(g, child);
    h[parent := (if parent in h then h[parent] else {}) + {child}]
  }

  // ------------------------------------------------------------------- facts about paths

  lemma EdgeLeads(g: Adjacency, u: Vertex, v: Vertex)
    requires Edge(g, u, v)
    ensures Leads(g, u, v)
  {
    assert Joins(g, [u, v], u, v);
  }

  lemma ButLast(g: Adjacency, p: seq<Vertex>)
    requires IsPath(g, p) && |p| >= 2
    ensures IsPath(g, p[..|p| - 1]) && Edge(g, p[|p| - 2], p[|p| - 1])
  {
    var q := p[..|p| - 1];
    forall i | 0 <= i < |q| - 1 ensures Edge(g, q[i], q[i + 1]) { assert Edge(g, p[i], p[i + 1]); }
    assert Edge(g, p[|p| - 2], p[|p| - 2 + 1]);
  }

  lemma LeadsTrans(g: Adjacency, u: Vertex, v: Vertex, w: Vertex)
    requires Leads(g, u, v) && Leads(g, v, w)
    ensures Leads(g, u, w)
  {
    var p :| Joins(g, p, u, v) && |p| >= 2;
    var q :| Joins(g, q, v, w) && |q| >= 2;
    PathsCompose(g, p, q, u, v, w);
  }

  lemma PathsCompose(g: Adjacency, p: seq<Vertex>, q: seq<Vertex>, u: Vertex, v: Vertex, w: Vertex)
    requires Joins(g, p, u, v) && Joins(g, q, v, w)
    ensures Joins(g, p + q[1..], u, w)
  {
    var r := p + q[1..];
    forall i | 0 <= i < |r| - 1 ensures Edge(g, r[i], r[i + 1]) {
      if i < |p| - 1 { assert Edge(g, p[i], p[i + 1]); }
      else {
        assert r[i] == q[i - |p| + 1] && r[i + 1] == q[i - |p| + 2];
        assert Edge(g, q[i - |p| + 1], q[i - |p| + 1 + 1]);
      }
    }
  }

  /** If every edge of `g` is a path of `h`, every path of `g` is one. */
  lemma {:induction false} PathsFollow(g: Adjacency, h: Adjacency, p: seq<Vertex>)
    requires IsPath(g, p) && |p| >= 2
    requires forall u, v :: Edge(g, u, v) ==> Leads(h, u, v)
    ensures Leads(h, p[0], p[|p| - 1])
    decreases |p|
  {
    hide Leads;
    var q := p[..|p| - 1];
    assert Edge(g, p[|p| - 2], p[|p| - 2 + 1]);
    if |p| > 2 {
      ButLast(g, p);
      PathsFollow(g, h, q);
      LeadsTrans(h, p[0], p[|p| - 2], p[|p| - 1]);
    }
  }

  lemma LeadsFollows(g: Adjacency, h: Adjacency, u: Vertex, v: Vertex)
    requires Leads(g, u, v)
    requires forall x, y :: Edge(g, x, y) ==> Leads(h, x, y)
    ensures Leads(h, u, v)
  {
    var p :| Joins(g, p, u, v) && |p| >= 2;
    PathsFollow(g, h, p);
  }

  // -------------------------------------------------------------------- topological order

  /** No vertex twice, and every vertex after all those it depends on. */
  ghost predicate InOrder(g: Adjacency, order: seq<Vertex>) {
    && (forall i, j :: 0 <= i < j < |order| ==> order[i] != order[j])
    && (forall j, u :: 0 <= j < |order| && Edge(g, u, order[j]) ==> u in order[..j])
  }

  /** Going back along edges from a vertex of an ordered prefix stays in it, at smaller places. */
  lemma {:induction false} PathInOrder(g: Adjacency, order: seq<Vertex>, p: seq<Vertex>, j: nat)
    requires InOrder(g, order) && IsPath(g, p) && j < |order| && p[|p| - 1] == order[j]
    ensures |p| == 1 || p[0] in order[..j]
    decreases |p|
  {
    if |p| > 1 {
      assert Edge(g, p[|p| - 2], p[|p| - 2 + 1]);
      var i :| 0 <= i < j && order[i] == p[|p| - 2];
      var q := p[..|p| - 1];
      ButLast(g, p);
      PathInOrder(g, order, q, i);
    }
  }

  lemma LeadsInOrder(g: Adjacency, order: seq<Vertex>, u: Vertex, j: nat)
    requires InOrder(g, order) && j < |order| && Leads(g, u, order[j])
    ensures u in order[..j]
  {
    var p :| Joins(g, p, u, order[j]) && |p| >= 2;
    PathInOrder(g, order, p, j);
  }

  /** What an order lists is on no cycle and after none. */
  lemma OrderedNotFromCycle(g: Adjacency, order: seq<Vertex>, v: Vertex)
    requires InOrder(g, order) && v in order
    ensures !FromCycle(g, v)
  {
    if FromCycle(g, v) {
      var u :| Leads(g, u, u) && (u == v || Leads(g, u, v));
      var j :| 0 <= j < |order| && order[j] == v;
      if u != v { LeadsInOrder(g, order, u, j); }
      var k :| 0 <= k < |order| && order[k] == u;
      LeadsInOrder(g, order, u, k);
    }
  }

  /** `v` depends on a vertex of `left`. */
  ghost predicate Waits(g: Adjacency, left: set<Vertex>, v: Vertex) { exists u :: u in left && Edge(g, u, v) }

  lemma Prepended(g: Adjacency, u: Vertex, q: seq<Vertex>)
    requires IsPath(g, q) && Edge(g, u, q[0])
    ensures IsPath(g, [u] + q)
  {
    var p := [u] + q;
    forall i | 0 <= i < |p| - 1 ensures Edge(g, p[i], p[i + 1]) {
      if i > 0 { assert Edge(g, q[i - 1], q[i - 1 + 1]); }
    }
  }

  /** A path of `n` steps back from `v` that stays in `left`. */
  lemma {:induction false} WalkBack(g: Adjacency, left: set<Vertex>, v: Vertex, n: nat) returns (p: seq<Vertex>)
    requires v in left && forall x :: x in left ==> Waits(g, left, x)
    ensures |p| == n + 1 && IsPath(g, p) && p[n] == v && forall i :: 0 <= i <= n ==> p[i] in left
  {
    hide IsPath, Waits;
    if n == 0 {
      p := [v];
      Single(g, v);
    } else {
      var q := WalkBack(g, left, v, n - 1);
      var u := SomeParent(g, left, q[0]);
      Prepended(g, u, q);
      p := [u] + q;
    }
  }

  lemma SomeParent(g: Adjacency, left: set<Vertex>, v: Vertex) returns (u: Vertex)
    requires Waits(g, left, v)
    ensures u in left && Edge(g, u, v)
  {
    u :| u in left && Edge(g, u, v);
  }

  lemma Single(g: Adjacency, v: Vertex)
    ensures IsPath(g, [v])
  {
  }

  lemma {:induction false} Pigeons(p: seq<Vertex>, left: set<Vertex>) returns (i: nat, j: nat)
    requires |p| > |left| && forall k :: 0 <= k < |p| ==> p[k] in left
    ensures i < j < |p| && p[i] == p[j]
    decreases |p|
  {
    var last := p[|p| - 1];
    if last in p[..|p| - 1] {
      i :| 0 <= i < |p| - 1 && p[i] == last;
      j := |p| - 1;
    } else {
      i, j := Pigeons(p[..|p| - 1], left - {last});
    }
  }

  lemma SubPath(g: Adjacency, p: seq<Vertex>, i: nat, j: nat)
    requires IsPath(g, p) && i < j < |p|
    ensures Leads(g, p[i], p[j])
  {
    var q := p[i..j + 1];
    forall k | 0 <= k < |q| - 1 ensures Edge(g, q[k], q[k + 1]) { assert Edge(g, p[i + k], p[i + k + 1]); }
    assert Joins(g, q, p[i], p[j]);
  }

  /** If every vertex left over depends on another one left over, all of them come from a cycle. */
  lemma LeftFromCycle(g: Adjacency, left: set<Vertex>, v: Vertex)
    requires v in left && forall x :: x in left ==> Waits(g, left, x)
    ensures FromCycle(g, v)
  {
    var p := WalkBack(g, left, v, |left|);
    var i, j := Pigeons(p, left);
    hide IsPath, Leads, Waits;
    SubPath(g, p, i, j);
    if j < |left| { SubPath(g, p, j, |left|); }
    assert Leads(g, p[j], p[j]) && (p[j] == v || Leads(g, p[j], v));
  }

  /** A complete order exists for acyclic graphs only, and the sort finds it for all of them. */
  lemma AcyclicMeansNoFromCycle(g: Adjacency)
    ensures Acyclic(g) <==> forall v :: v in g ==> !FromCycle(g, v)
  {
    if !Acyclic(g) {
      var u :| Leads(g, u, u);
      var p :| Joins(g, p, u, u) && |p| >= 2;
      assert Edge(g, p[0], p[0 + 1]);
      assert u in g && FromCycle(g, u);
    }
  }

  // --------------------------------------------------------------------- counting parents

  ghost function Parents(g: Adjacency, v: Vertex): set<Vertex> { set u | u in g && v in g[u] }

  function LookUp(counts: map<Vertex, int>, v: Vertex): int { if v in counts then counts[v] else 0 }

  predicate Distinct<T(==)>(s: seq<T>) { forall i, j :: 0 <= i < j < |s| ==> s[i] != s[j] }

  ghost function Sources(links: seq<(Vertex, Vertex)>, v: Vertex): set<Vertex> {
    set i | 0 <= i < |links| && links[i].1 == v :: links[i].0
  }

  lemma SourcesStep(links: seq<(Vertex, Vertex)>, i: nat, v: Vertex)
    requires Distinct(links) && i < |links|
    ensures |Sources(links[..i + 1], v)| == |Sources(links[..i], v)| + if links[i].1 == v then 1 else 0
  {
    var before, after := Sources(links[..i], v), Sources(links[..i + 1], v);
    var x := links[i].0;
    assert links[..i + 1] == links[..i] + [links[i]];
    forall u | u in after ensures u in before || (links[i].1 == v && u == x) {
      var k :| 0 <= k < i + 1 && links[..i + 1][k].1 == v && links[..i + 1][k].0 == u;
      if k < i { assert links[..i][k].1 == v && links[..i][k].0 == u; }
    }
    forall u | u in before ensures u in after && links[i] != (u, v) {
      var k :| 0 <= k < i && links[..i][k].1 == v && links[..i][k].0 == u;
      assert links[..i + 1][k].1 == v && links[..i + 1][k].0 == u;
      assert links[k] == (u, v);
    }
    if links[i].1 == v {
      assert links[..i + 1][i] == links[i];
      assert x !in before;
      assert after == before + {x};
    } else {
      assert after == before;
    }
  }

  lemma SourcesAreParents(g: Adjacency, links: seq<(Vertex, Vertex)>, v: Vertex)
    requires forall a: Vertex, b: Vertex :: (a, b) in links <==> Edge(g, a, b)
    ensures Sources(links, v) == Parents(g, v)
  {
    forall u | u in Parents(g, v) ensures u in Sources(links, v) {
      assert Edge(g, u, v) && (u, v) in links;
    }
    forall u | u in Sources(links, v) ensures u in Parents(g, v) {
      assert (u, v) in links && Edge(g, u, v);
    }
  }

  // ---------------------------------------------------------------------- Kahn's algorithm

  /** Parents of `v` that still count: those not yet listed, and the last one listed as long as
      `v` is among the vertices `todo` that it has not been struck from. */
  ghost function Open(g: Adjacency, order: seq<Vertex>, todo: set<Vertex>, v: Vertex): set<Vertex> {
    set u | u in Parents(g, v) && (u !in order || (order != [] && v in todo && u == order[|order| - 1]))
  }

  ghost predicate Kahn(g: Adjacency, order: seq<Vertex>, queue: seq<Vertex>, left: map<Vertex, int>, todo: set<Vertex>) {
    && Distinct(order + queue) && (forall v :: v in order + queue ==> v in g)
    && InOrder(g, order)
    && (forall v :: v in g ==> LookUp(left, v) == |Open(g, order, todo, v)|)
    && (forall v :: v in g ==> (v in order + queue <==> Open(g, order, todo, v) == {}))
  }

  lemma KahnStart(g: Adjacency, queue: seq<Vertex>, left: map<Vertex, int>)
    requires Distinct(queue) && (forall v :: v in queue <==> v in g && Parents(g, v) == {})
    requires forall v :: v in g ==> LookUp(left, v) == |Parents(g, v)|
    ensures Kahn(g, [], queue, left, {})
  {
    forall v ensures Open(g, [], {}, v) == Parents(g, v) {}
    assert [] + queue == queue;
  }

  /** Listing the first of the queue: its children have to be struck now. */
  lemma KahnPop(g: Adjacency, order: seq<Vertex>, queue: seq<Vertex>, left: map<Vertex, int>)
    requires Kahn(g, order, queue, left, {}) && queue != []
    ensures Kahn(g, order + [queue[0]], queue[1..], left, g[queue[0]])
    ensures queue[0] !in order
  {
    var v := queue[0];
    var order' := order + [v];
    assert order' + queue[1..] == order + queue;
    assert (order + queue)[|order|] == v && v in order + queue;
    assert v !in order by { assert forall i :: 0 <= i < |order| ==> (order + queue)[i] == order[i]; }
    forall x | x in g ensures Open(g, order', g[v], x) == Open(g, order, {}, x) { OpenAfterPop(g, order, v, x); }
    PopInOrder(g, order, v);
  }

  lemma OpenAfterPop(g: Adjacency, order: seq<Vertex>, v: Vertex, x: Vertex)
    requires v in g
    ensures v !in order ==> Open(g, order + [v], g[v], x) == Open(g, order, {}, x)
  {
  }

  lemma PopInOrder(g: Adjacency, order: seq<Vertex>, v: Vertex)
    requires InOrder(g, order) && v !in order && Open(g, order, {}, v) == {}
    ensures InOrder(g, order + [v])
  {
    var order' := order + [v];
    forall j, u | 0 <= j < |order'| && Edge(g, u, order'[j]) ensures u in order'[..j] {
      if j < |order| { assert order'[..j] == order[..j]; }
      else {
        assert order'[..j] == order && u in Parents(g, v);
        assert u !in order ==> u in Open(g, order, {}, v);
      }
    }
  }

  lemma StrikeOpen(g: Adjacency, order: seq<Vertex>, todo: set<Vertex>, n: Vertex)
    requires order != [] && n in todo && Edge(g, order[|order| - 1], n)
    ensures Open(g, order, todo, n) != {}
    ensures |Open(g, order, todo - {n}, n)| == |Open(g, order, todo, n)| - 1
    ensures forall x :: x != n ==> Open(g, order, todo - {n}, x) == Open(g, order, todo, x)
  {
    var v := order[|order| - 1];
    assert v in Open(g, order, todo, n);
    assert Open(g, order, todo - {n}, n) == Open(g, order, todo, n) - {v};
    forall x | x != n ensures Open(g, order, todo - {n}, x) == Open(g, order, todo, x) {}
  }

  /** Striking the last listed vertex from the parents of `n`. */
  lemma KahnStrike(g: Adjacency, order: seq<Vertex>, queue: seq<Vertex>, left: map<Vertex, int>, todo: set<Vertex>, n: Vertex)
    requires WellFormed(g) && Kahn(g, order, queue, left, todo) && order != [] && n in todo
    requires order[|order| - 1] in g && todo <= g[order[|order| - 1]]
    ensures n in g
    ensures var left' := left[n := LookUp(left, n) - 1];
            Kahn(g, order, if LookUp(left', n) == 0 then queue + [n] else queue, left', todo - {n})
  {
    assert Edge(g, order[|order| - 1], n);
    StrikeOpen(g, order, todo, n);
    hide Open, InOrder;
    assert order + (queue + [n]) == (order + queue) + [n];
    assert n !in order + queue;
  }

  /** When the queue runs empty, exactly the vertices that come from no cycle are listed. */
  lemma KahnEnd(g: Adjacency, order: seq<Vertex>, left: map<Vertex, int>, v: Vertex)
    requires Kahn(g, order, [], left, {})
    ensures v in order <==> v in g && !FromCycle(g, v)
  {
    assert order + [] == order;
    if v in order { OrderedNotFromCycle(g, order, v); }
    else if v in g {
      var rest := set x | x in g && x !in order;
      forall x | x in rest ensures Waits(g, rest, x) {
        var u :| u in Open(g, order, {}, x);
        assert Edge(g, u, x) && u in rest;
      }
      LeftFromCycle(g, rest, v);
    }
  }

  class Graph {
    var adjacency: Adjacency

    constructor (adjacency: Adjacency)
      ensures this.adjacency == adjacency
    {
      this.adjacency := adjacency;
    }

    method AddVertex(v: Vertex)
      modifies this
      ensures adjacency == WithVertex(old(adjacency), v)
    {
      if v !in adjacency { adjacency := adjacency[v := {}]; }
    }

    method AddEdge(parent: Vertex, child: Vertex)
      modifies this
      ensures adjacency == WithEdge(old(adjacency), parent, child)
    {
      AddVertex(child);
      var children := if parent in adjacency then adjacency[parent] else {};
      adjacency := adjacency[parent := children + {child}];
    }

    /** All edges, each listed once. */
    method ListEdges() returns (links: seq<(Vertex, Vertex)>)
      ensures Distinct(links)
      ensures forall u: Vertex, v: Vertex :: (u, v) in links <==> Edge(adjacency, u, v)
    {
      links := [];
      var todo := adjacency.Keys;
      while todo != {}
        invariant todo <= adjacency.Keys && Distinct(links)
        invariant forall u: Vertex, v: Vertex :: (u, v) in links <==> Edge(adjacency, u, v) && u !in todo
      {
        var u :| u in todo;
        var targets := adjacency[u];
        ghost var before := links;
        while targets != {}
          invariant targets <= adjacency[u] && Distinct(links)
          invariant forall a: Vertex, b: Vertex :: (a, b) in links <==> (a, b) in before || (a == u && b in adjacency[u] && b !in targets)
        {
          var v :| v in targets;
          assert (u, v) !in links;
          links := links + [(u, v)];
          targets := targets - {v};
        }
        todo := todo - {u};
      }
    }

    /** The vertices that depend on no other. */
    method RootVertices() returns (roots: set<Vertex>)
      ensures forall v :: v in roots <==> v in adjacency && Parents(adjacency, v) == {}
    {
      var dependent: set<Vertex> := {};
      var todo := adjacency.Keys;
      while todo != {}
        invariant todo <= adjacency.Keys
        invariant forall v :: v in dependent <==> exists u :: u in adjacency && u !in todo && v in adjacency[u]
      {
        var u :| u in todo;
        dependent := dependent + adjacency[u];
        todo := todo - {u};
      }
      roots := adjacency.Keys - dependent;
      forall v | v in adjacency ensures v in dependent <==> Parents(adjacency, v) != {} {
        if v in dependent {
          var u :| u in adjacency && v in adjacency[u];
          assert u in Parents(adjacency, v);
        }
      }
    }

    /** How many vertices each vertex depends on. */
    method CountParents() returns (left: map<Vertex, int>)
      ensures forall v :: v in adjacency ==> LookUp(left, v) == |Parents(adjacency, v)|
    {
      var links := ListEdges();
      left := map[];
      var i := 0;
      while i < |links|
        invariant 0 <= i <= |links|
        invariant forall v :: LookUp(left, v) == |Sources(links[..i], v)|
      {
        ghost var before := left;
        left := left[links[i].1 := LookUp(left, links[i].1) + 1];
        i := i + 1;
        forall v ensures LookUp(left, v) == |Sources(links[..i], v)| {
          SourcesStep(links, i - 1, v);
          assert LookUp(before, v) == |Sources(links[..i - 1], v)|;
        }
      }
      assert links[..|links|] == links;
      forall v ensures Sources(links, v) == Parents(adjacency, v) { SourcesAreParents(adjacency, links, v); }
    }

    /** The roots in some order. */
    method QueueRoots() returns (queue: seq<Vertex>)
      ensures Distinct(queue) && forall v :: v in queue <==> v in adjacency && Parents(adjacency, v) == {}
    {
      var roots := RootVertices();
      queue := [];
      ghost var all := roots;
      while roots != {}
        invariant roots <= all && Distinct(queue) && forall v :: v in queue <==> v in all && v !in roots
      {
        var v :| v in roots;
        queue := queue + [v];
        roots := roots - {v};
      }
    }

    /**
     The sort is exact: it lists, once each and after everything they depend on, precisely the
     vertices that neither lie on a cycle nor come after one.
     */
    method TopologicalSort() returns (order: seq<Vertex>)
      requires WellFormed(adjacency)
      ensures InOrder(adjacency, order)
      ensures forall v :: v in order <==> v in adjacency && !FromCycle(adjacency, v)
    {
      var left := CountParents();
      var queue := QueueRoots();
      order := [];
      KahnStart(adjacency, queue, left);
      hide WellFormed, Kahn, InOrder, FromCycle;
      while queue != []
        invariant Kahn(adjacency, order, queue, left, {})
        decreases adjacency.Keys - set v | v in order
      {
        KahnPop(adjacency, order, queue, left);
        var v := queue[0];
        ghost var before := order;
        KahnMembers(adjacency, order, queue, left, {});
        order, queue := order + [v], queue[1..];
        var todo := adjacency[v];
        while todo != {}
          invariant todo <= adjacency[v] && Kahn(adjacency, order, queue, left, todo)
        {
          var n :| n in todo;
          KahnStrike(adjacency, order, queue, left, todo, n);
          left := left[n := LookUp(left, n) - 1];
          if LookUp(left, n) == 0 { queue := queue + [n]; }
          todo := todo - {n};
        }
        assert v in (adjacency.Keys - set x | x in before) && v in order;
      }
      KahnMembers(adjacency, order, queue, left, {});
      forall v ensures v in order <==> v in adjacency && !FromCycle(adjacency, v) { KahnEnd(adjacency, order, left, v); }
    }
  }

  lemma KahnMembers(g: Adjacency, order: seq<Vertex>, queue: seq<Vertex>, left: map<Vertex, int>, todo: set<Vertex>)
    requires Kahn(g, order, queue, left, todo)
    ensures InOrder(g, order) && (forall v :: v in order ==> v in g) && (forall v :: v in queue ==> v in g)
  {
    forall v | v in order || v in queue ensures v in g { assert v in order + queue; }
  }
}
