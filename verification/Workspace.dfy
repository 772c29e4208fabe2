/**
 Building delayables, chains and groups and attaching objects to them: each call updates the
 own graph of one object, edge by edge.
 */
module DelayableWorkspace {
  import opened JobGraph
  import opened Options
  import opened Delayables

  predicate InPool(p: Pool, ids: set<Id>) { forall d :: d in ids ==> d < |p| }

  lemma HoldsClosed(p: Pool, done: seq<set<Id>>)
    requires Holds(p, done)
    ensures Closed(p)
  {
    forall i | 0 <= i < |p| ensures GraphIn(p, p[i].graph) {
      assert MadeOf(p[i].kind, i) && Represents(p[i], i, done[i]);
      forall v, t | v in p[i].graph && t in p[i].graph[v] ensures t < |p| {
        assert Edge(p[i].graph, v, t);
      }
    }
  }

  lemma Appended(p: Pool, done: seq<set<Id>>, o: Obj)
    requires Holds(p, done) && MadeOf(o.kind, |p|) && Represents(o, |p|, {})
    ensures Holds(p + [o], done + [{}])
  {
    hide Represents, MadeOf;
    forall i | 0 <= i < |p + [o]|
      ensures MadeOf((p + [o])[i].kind, i) && Represents((p + [o])[i], i, (done + [{}])[i])
    {
      if i < |p| { assert (p + [o])[i] == p[i]; }
    }
  }

  lemma Replaced(p: Pool, done: seq<set<Id>>, i: Id, o: Obj, more: set<Id>)
    requires Holds(p, done) && i < |p| && o.kind == p[i].kind && InPool(p, more) && Represents(o, i, done[i] + more)
    ensures Holds(p[i := o], done[i := done[i] + more])
  {
    hide Represents, MadeOf;
  }

  class Workspace {
    var pool: Pool
    ghost var done: seq<set<Id>>

    ghost predicate Valid()
      reads this
    {
      Holds(pool, done)
    }

    constructor ()
      ensures Valid() && pool == [] && done == []
    {
      pool := [];
      done := [];
    }

    method NewDelayable() returns (id: Id)
      requires Valid()
      modifies this
      ensures Valid() && id == |old(pool)| && |pool| == id + 1 && pool[..id] == old(pool) && pool[id].kind == Delayable
      ensures done == old(done) + [{}]
    {
      id := |pool|;
      var o := Obj(Delayable, WithVertex(map[], id));
      Appended(pool, done, o);
      pool := pool + [o];
      done := done + [{}];
    }

    /** A chain connects each element with the next one; a chain of nothing is an error. */
    method NewChain(elems: seq<Id>) returns (id: Option<Id>)
      requires Valid() && forall k :: 0 <= k < |elems| ==> elems[k] < |pool|
      modifies this
      ensures Valid()
      ensures elems == [] ==> id == None && pool == old(pool) && done == old(done)
      ensures elems != [] ==> id == Some(|old(pool)|) && |pool| == id.value + 1 && pool[..id.value] == old(pool)
                              && pool[id.value].kind == Chain(elems) && done == old(done) + [{}]
    {
      if elems == [] { return None; }
      var g := ChainGraph(elems);
      var o := Obj(Chain(elems), g);
      Appended(pool, done, o);
      id := Some(|pool|);
      pool := pool + [o];
      done := done + [{}];
    }

    method NewGroup(members: set<Id>) returns (id: Id)
      requires Valid() && InPool(pool, members)
      modifies this
      ensures Valid() && id == |old(pool)| && |pool| == id + 1 && pool[..id] == old(pool)
      ensures pool[id].kind == Group(members) && done == old(done) + [{}]
    {
      var g: Adjacency := map[];
      var todo := members;
      while todo != {}
        invariant todo <= members && g.Keys == members - todo && forall u, v :: !Edge(g, u, v)
      {
        var m :| m in todo;
        g := WithVertex(g, m);
        todo := todo - {m};
      }
      id := |pool|;
      var o := Obj(Group(members), g);
      Appended(pool, done, o);
      pool := pool + [o];
      done := done + [{}];
    }

    /** Attaches `targets` to run once object `i` is done. */
    method OnDone(i: Id, targets: set<Id>)
      requires Valid() && i < |pool| && InPool(pool, targets)
      modifies this
      ensures Valid() && |pool| == |old(pool)|
      ensures done == old(done)[i := old(done)[i] + targets]
      ensures forall k :: 0 <= k < |pool| ==> pool[k].kind == old(pool)[k].kind && (k != i ==> pool[k] == old(pool)[k])
    {
      var kind := pool[i].kind;
      var g := pool[i].graph;
      assert MadeOf(kind, i) && Represents(pool[i], i, done[i]);
      match kind {
        case Delayable => g := AddTargets(g, {i}, targets);
        case Chain(es) => g := AddTargets(g, {es[|es| - 1]}, targets);
        case Group(ms) => g := AddTargets(g, ms, targets);
      }
      var o := Obj(kind, g);
      assert Represents(o, i, done[i] + targets);
      Replaced(pool, done, i, o, targets);
      pool := pool[i := o];
      done := done[i := done[i] + targets];
    }
  }

  lemma ConsecutiveGrows(es: seq<Id>, k: nat)
    requires 1 <= k < |es|
    ensures forall u, v :: Consecutive(es[..k + 1], u, v) <==> Consecutive(es[..k], u, v) || (u == es[k - 1] && v == es[k])
    ensures es[..k + 1] == es[..k] + [es[k]]
  {
    forall u, v ensures Consecutive(es[..k + 1], u, v) <==> Consecutive(es[..k], u, v) || (u == es[k - 1] && v == es[k]) {
      if Consecutive(es[..k], u, v) {
        var n :| 0 <= n < k - 1 && es[..k][n] == u && es[..k][n + 1] == v;
        assert es[..k + 1][n] == u && es[..k + 1][n + 1] == v;
      }
      if u == es[k - 1] && v == es[k] { assert es[..k + 1][k - 1] == u && es[..k + 1][k - 1 + 1] == v; }
      if Consecutive(es[..k + 1], u, v) {
        var n :| 0 <= n < k && es[..k + 1][n] == u && es[..k + 1][n + 1] == v;
        if n < k - 1 { assert es[..k][n] == u && es[..k][n + 1] == v; }
      }
    }
  }

  method ChainGraph(elems: seq<Id>) returns (g: Adjacency)
    requires elems != []
    ensures g.Keys == set e | e in elems
    ensures forall u, v :: Edge(g, u, v) <==> Consecutive(elems, u, v)
  {
    var head := elems[0];
    g := WithVertex(map[], head);
    var k := 1;
    while k < |elems|
      invariant 1 <= k <= |elems| && head == elems[k - 1]
      invariant g.Keys == set e | e in elems[..k]
      invariant forall u, v :: Edge(g, u, v) <==> Consecutive(elems[..k], u, v)
    {
      ConsecutiveGrows(elems, k);
      g := WithEdge(g, head, elems[k]);
      head := elems[k];
      k := k + 1;
    }
    assert elems[..|elems|] == elems;
  }

  /** An edge from each of `parents` to each of `targets`. */
  method AddTargets(g: Adjacency, parents: set<Id>, targets: set<Id>) returns (h: Adjacency)
    requires parents <= g.Keys
    ensures h.Keys == if parents == {} then g.Keys else g.Keys + targets
    ensures forall u, v :: Edge(h, u, v) <==> Edge(g, u, v) || (u in parents && v in targets)
  {
    h := g;
    var todo := parents;
    while todo != {}
      invariant todo <= parents && parents <= h.Keys
      invariant h.Keys == if parents == todo then g.Keys else g.Keys + targets
      invariant forall u, v :: Edge(h, u, v) <==> Edge(g, u, v) || (u in parents && u !in todo && v in targets)
    {
      var parent :| parent in todo;
      ghost var before := h;
      var left := targets;
      while left != {}
        invariant left <= targets && parents <= h.Keys && h.Keys == before.Keys + (targets - left)
        invariant forall u, v :: Edge(h, u, v) <==> Edge(before, u, v) || (u == parent && v in targets && v !in left)
      {
        var child :| child in left;
        h := WithEdge(h, parent, child);
        left := left - {child};
      }
      todo := todo - {parent};
    }
  }
}
