/**
 Delayables, chains and groups, and how the graph of one of them is flattened into a graph of
 jobs. Objects are numbered in the order of their creation; each owns a graph whose vertices
 are objects.
 */
module Delayables {
  import opened JobGraph

  type Id = Vertex

  datatype Kind = Delayable | Chain(elems: seq<Id>) | Group(members: set<Id>)

  datatype Obj = Obj(kind: Kind, graph: Adjacency)

  type Pool = seq<Obj>

  /** A chain or a group is made of objects that exist already. */
  predicate MadeOf(kind: Kind, i: Id) {
    match kind
    case Delayable => true
    case Chain(es) => es != [] && forall k :: 0 <= k < |es| ==> es[k] < i
    case Group(ms) => forall m :: m in ms ==> m < i
  }

  predicate Built(p: Pool) { forall i :: 0 <= i < |p| ==> MadeOf(p[i].kind, i) }

  // ----------------------------------------------------------------------- heads and tails

  /** The delayables to start first. A chain asks its first element for its tails. */
  function Head(p: Pool, i: Id): set<Id>
    requires Built(p) && i < |p|
    decreases i
  {
    match p[i].kind
    case Delayable => {i}
    case Chain(es) => Tail(p, es[0])
    case Group(ms) => set m, h | m in ms && h in Head(p, m) :: h
  }

  /** The delayables to end last. A chain asks its last element for its heads. */
  function Tail(p: Pool, i: Id): set<Id>
    requires Built(p) && i < |p|
    decreases i
  {
    match p[i].kind
    case Delayable => {i}
    case Chain(es) => Head(p, es[|es| - 1])
    case Group(ms) => set m, t | m in ms && t in Tail(p, m) :: t
  }

  function Heads(p: Pool, vs: set<Id>): set<Id>
    requires Built(p) && forall v :: v in vs ==> v < |p|
  {
    set v, h | v in vs && h in Head(p, v) :: h
  }

  // ---------------------------------------------------------------------------- own graphs

  /** The edges of an object's own graph, given the objects that `on_done` attached to it. */
  predicate OwnEdge(kind: Kind, i: Id, done: set<Id>, u: Id, v: Id) {
    match kind
    case Delayable => u == i && v in done
    case Chain(es) => Consecutive(es, u, v) || (es != [] && u == es[|es| - 1] && v in done)
    case Group(ms) => u in ms && v in done
  }

  predicate Consecutive(es: seq<Id>, u: Id, v: Id) { exists k :: 0 <= k < |es| - 1 && es[k] == u && es[k + 1] == v }

  /** Its vertices; what is attached to an empty group is lost. */
  function OwnVertices(kind: Kind, i: Id, done: set<Id>): set<Id> {
    match kind
    case Delayable => {i} + done
    case Chain(es) => (set e | e in es) + done
    case Group(ms) => if ms == {} then {} else ms + done
  }

  ghost predicate Represents(o: Obj, i: Id, done: set<Id>) {
    o.graph.Keys == OwnVertices(o.kind, i, done) && forall u, v :: Edge(o.graph, u, v) <==> OwnEdge(o.kind, i, done, u, v)
  }

  ghost predicate Holds(p: Pool, done: seq<set<Id>>) {
    && |done| == |p| && Built(p)
    && (forall i :: 0 <= i < |p| ==> Represents(p[i], i, done[i]) && forall d :: d in done[i] ==> d < |p|)
  }

  /** All vertices of all graphs are objects of the pool. */
  predicate Closed(p: Pool) { Built(p) && forall i :: 0 <= i < |p| ==> GraphIn(p, p[i].graph) }

  // --------------------------------------------------------------------------- flattening

  /** The edge between jobs `a` and `b` that comes from an edge of the graph `g` between objects. */
  ghost predicate Lowered(p: Pool, g: Adjacency, a: Id, b: Id)
    requires Built(p) && GraphIn(p, g)
  {
    exists u, v :: Edge(g, u, v) && a in Tail(p, u) && b in Head(p, v)
  }

  predicate GraphIn(p: Pool, g: Adjacency) {
    (forall v :: v in g ==> v < |p|) && (forall v :: v in g ==> forall t :: t in g[v] ==> t < |p|)
  }

  function Tails(p: Pool, vs: set<Id>): set<Id>
    requires Built(p) && forall v :: v in vs ==> v < |p|
  {
    set v, t | v in vs && t in Tail(p, v) :: t
  }

  /** Connects every one of `tails` with all of `heads`. */
  method ConnectTails(flat: Adjacency, tails: set<Id>, heads: set<Id>) returns (merged: Adjacency)
    ensures merged.Keys == flat.Keys + tails
    ensures forall a, b :: Edge(merged, a, b) <==> Edge(flat, a, b) || (a in tails && b in heads)
  {
    merged := flat;
    var todo := tails;
    while todo != {}
      invariant todo <= tails && merged.Keys == flat.Keys + (tails - todo)
      invariant forall a, b :: Edge(merged, a, b) <==> Edge(flat, a, b) || (a in tails && a !in todo && b in heads)
    {
      var t :| t in todo;
      merged := merged[t := (if t in merged then merged[t] else {}) + heads];
      todo := todo - {t};
    }
  }

  /** Merging a graph: its edges, lowered to jobs, are added to those of `flat`. */
  method MergeGraph(p: Pool, flat: Adjacency, g: Adjacency) returns (merged: Adjacency)
    requires Built(p) && GraphIn(p, g)
    ensures merged.Keys == flat.Keys + Tails(p, g.Keys)
    ensures forall a, b :: Edge(merged, a, b) <==> Edge(flat, a, b) || Lowered(p, g, a, b)
  {
    merged := flat;
    var todo := g.Keys;
    while todo != {}
      invariant todo <= g.Keys
      invariant merged.Keys == flat.Keys + Tails(p, g.Keys - todo)
      invariant forall a, b :: Edge(merged, a, b) <==> Edge(flat, a, b) || LoweredFrom(p, g, g.Keys - todo, a, b)
    {
      hide Edge, LoweredFrom, Tail, Head, Tails;
      var v :| v in todo;
      LoweredGrows(p, g, g.Keys - todo, v);
      assert g.Keys - (todo - {v}) == g.Keys - todo + {v};
      merged := ConnectTails(merged, Tail(p, v), Heads(p, g[v]));
      todo := todo - {v};
    }
    assert g.Keys - todo == g.Keys;
  }

  ghost predicate LoweredFrom(p: Pool, g: Adjacency, from: set<Id>, a: Id, b: Id)
    requires Built(p) && GraphIn(p, g)
  {
    exists u, v :: u in from && Edge(g, u, v) && a in Tail(p, u) && b in Head(p, v)
  }

  lemma LoweredGrows(p: Pool, g: Adjacency, from: set<Id>, u: Id)
    requires Built(p) && GraphIn(p, g) && from <= g.Keys && u in g
    ensures forall a, b :: LoweredFrom(p, g, from + {u}, a, b) <==>
              LoweredFrom(p, g, from, a, b) || (a in Tail(p, u) && b in Heads(p, g[u]))
    ensures Tails(p, from + {u}) == Tails(p, from) + Tail(p, u)
  {
  }

  // ------------------------------------------------------------------- visiting all graphs

  function Visits(p: Pool): Adjacency { map i | 0 <= i < |p| :: p[i].graph.Keys }

  /** The objects whose graphs can be come by from that of `root`. */
  ghost function Visited(p: Pool, root: Id): set<Id> {
    set i | 0 <= i < |p| && (i == root || Leads(Visits(p), root, i))
  }

  lemma VisitNext(p: Pool, root: Id, i: Id, v: Id)
    requires i in Visited(p, root) && v in p[i].graph && v < |p|
    ensures v in Visited(p, root)
  {
    assert Edge(Visits(p), i, v);
    EdgeLeads(Visits(p), i, v);
    hide Leads, Visits;
    if i != root { LeadsTrans(Visits(p), root, i, v); }
  }

  lemma {:induction false} ClosedAlong(g: Adjacency, m: set<Id>, path: seq<Id>)
    requires IsPath(g, path) && path[0] in m && forall i, v :: i in m && Edge(g, i, v) ==> v in m
    ensures path[|path| - 1] in m
    decreases |path|
  {
    if |path| > 1 {
      var q := path[..|path| - 1];
      ButLast(g, path);
      ClosedAlong(g, m, q);
      assert Edge(g, path[|path| - 2], path[|path| - 2 + 1]);
    }
  }

  /** Whatever holds the root and is closed under the vertices of its graphs holds all visited. */
  lemma VisitedLeast(p: Pool, root: Id, m: set<Id>)
    requires root in m && forall i, v :: i in m && i < |p| && v in p[i].graph ==> v in m
    ensures Visited(p, root) <= m
  {
    var g := Visits(p);
    forall i | i in Visited(p, root) ensures i in m {
      if i != root {
        var path :| Joins(g, path, root, i) && |path| >= 2;
        ClosedAlong(g, m, path);
      }
    }
  }

  /** `flat` consists of the graphs of the objects `m`, lowered to jobs. */
  ghost predicate Flattens(p: Pool, m: set<Id>, flat: Adjacency)
    requires Closed(p) && forall i :: i in m ==> i < |p|
  {
    && (forall t :: t in flat <==> exists i :: i in m && t in Tails(p, p[i].graph.Keys))
    && (forall a, b :: Edge(flat, a, b) <==> exists i :: i in m && Lowered(p, p[i].graph, a, b))
  }

  lemma FlattensMore(p: Pool, m: set<Id>, flat: Adjacency, i: Id, flat': Adjacency)
    requires Closed(p) && (forall i :: i in m ==> i < |p|) && Flattens(p, m, flat) && i < |p|
    requires flat'.Keys == flat.Keys + Tails(p, p[i].graph.Keys)
    requires forall a, b :: Edge(flat', a, b) <==> Edge(flat, a, b) || Lowered(p, p[i].graph, a, b)
    ensures Flattens(p, m + {i}, flat')
  {
    hide Lowered, Tails, Edge;
    forall t ensures t in flat' <==> exists k :: k in m + {i} && t in Tails(p, p[k].graph.Keys) {
      if t in flat { var k :| k in m && t in Tails(p, p[k].graph.Keys); assert k in m + {i}; }
      else if t in flat' { assert i in m + {i}; }
    }
    forall a, b ensures Edge(flat', a, b) <==> exists k :: k in m + {i} && Lowered(p, p[k].graph, a, b) {
      if Edge(flat, a, b) { var k :| k in m && Lowered(p, p[k].graph, a, b); assert k in m + {i}; }
      else if Edge(flat', a, b) { assert i in m + {i}; }
    }
  }

  /** `m` are the objects merged so far; the graphs of `seen` have been gone through. */
  ghost predicate Exploring(p: Pool, root: Id, m: set<Id>, seen: set<Id>, stack: seq<Id>) {
    && root in m && m <= Visited(p, root)
    && (forall i :: i in m ==> i in seen || i in stack)
    && (forall i :: i in stack ==> i in m)
    && (forall i, v :: i in seen && i < |p| && v in p[i].graph ==> v in m)
  }

  /** Flattening the graph of `root` merges exactly the graphs of all visited objects. */
  method ConnectGraphs(p: Pool, root: Id) returns (flat: Adjacency)
    requires Closed(p) && root < |p|
    ensures Flattens(p, Visited(p, root), flat)
  {
    flat := MergeGraph(p, map[], p[root].graph);
    ghost var m := {root};
    FlattensMore(p, {}, map[], root, flat);
    assert {} + {root} == m;
    var seen: set<Id> := {};
    var stack := [root];
    hide Visited, Flattens, Tails, Lowered, Built, GraphIn;
    RootVisited(p, root);
    while stack != []
      invariant Exploring(p, root, m, seen, stack) && Flattens(p, m, flat)
      decreases Visited(p, root) - seen, |stack|
    {
      var current := stack[0];
      stack := stack[1..];
      if current !in seen {
        flat, stack, m := VisitVertices(p, root, current, flat, stack, m, seen);
        seen := seen + {current};
      }
    }
    VisitedLeast(p, root, m);
  }

  lemma RootVisited(p: Pool, root: Id)
    requires root < |p|
    ensures root in Visited(p, root) && forall i :: i in Visited(p, root) ==> i < |p|
  {
  }

  /** Merges and pushes the graphs of all vertices of the graph of `current`. */
  method VisitVertices(p: Pool, root: Id, current: Id, flat0: Adjacency, stack0: seq<Id>, ghost m0: set<Id>, ghost seen: set<Id>)
    returns (flat: Adjacency, stack: seq<Id>, ghost m: set<Id>)
    requires Closed(p) && current < |p| && current in m0 && m0 <= Visited(p, root) && Flattens(p, m0, flat0)
    requires Exploring(p, root, m0, seen, [current] + stack0)
    ensures m0 <= m && m <= Visited(p, root) && Flattens(p, m, flat)
    ensures Exploring(p, root, m, seen + {current}, stack)
  {
    flat, stack, m := flat0, stack0, m0;
    var g := p[current].graph;
    var todo := g.Keys;
    hide Visited, Flattens, Tails, Lowered, Built;
    while todo != {}
      invariant todo <= g.Keys && m0 <= m && m <= Visited(p, root) && Flattens(p, m, flat)
      invariant forall i :: i in m ==> i in seen || i in stack || i == current
      invariant forall i :: i in stack ==> i in m
      invariant forall v :: v in g && v !in todo ==> v in m
    {
      var v :| v in todo;
      var merged := MergeGraph(p, flat, p[v].graph);
      FlattensMore(p, m, flat, v, merged);
      VisitNext(p, root, current, v);
      flat, stack, m := merged, stack + [v], m + {v};
      todo := todo - {v};
    }
  }
}
