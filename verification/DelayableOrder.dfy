/**
 Running a whole expression directly, in the topological order of its flat graph; and two
 small expressions that the flattening does not serve right.
 */
module DelayableOrder {
  import opened JobGraph
  import opened Delayables
  import opened DelayableWorkspace
  import opened DelayableMeaning

  lemma OrderFollowsMeaning(p: Pool, done: seq<set<Id>>, root: Id, flat: Adjacency, order: seq<Id>)
    requires Holds(p, done) && root < |p| && Closed(p) && Flattens(p, Visited(p, root), flat)
    requires Faithful(p, done, root) && Acyclic(Meaning(p, done, root))
    requires InOrder(flat, order) && forall v :: v in order <==> v in flat && !FromCycle(flat, v)
    ensures forall x :: x in order <==> x in Meaning(p, done, root)
    ensures forall j, x :: 0 <= j < |order| && Leads(Meaning(p, done, root), x, order[j]) ==> x in order[..j]
  {
    FlatteningPreservesMeaning(p, done, root, flat);
    AcyclicMeansNoFromCycle(flat);
    assert Acyclic(flat);
    hide Leads, Meaning, Flattens, Visited, Faithful, FromCycle, InOrder;
    forall j, x | 0 <= j < |order| && Leads(Meaning(p, done, root), x, order[j]) ensures x in order[..j] {
      LeadsInOrder(flat, order, x, j);
    }
  }

  /**
   Direct execution: if the expression asks for no cycle and is served right, every one of its
   jobs is run once, after all the jobs the expression puts before it.
   */
  method ExecuteDirect(p: Pool, ghost done: seq<set<Id>>, root: Id) returns (order: seq<Id>)
    requires Holds(p, done) && root < |p|
    ensures Distinct(order)
    ensures Faithful(p, done, root) && Acyclic(Meaning(p, done, root)) ==>
              && (forall x :: x in order <==> x in Meaning(p, done, root))
              && (forall j, x :: 0 <= j < |order| && Leads(Meaning(p, done, root), x, order[j]) ==> x in order[..j])
  {
    HoldsClosed(p, done);
    var flat := ConnectGraphs(p, root);
    FlatVertices(p, done, root, flat);
    var graph := new Graph(flat);
    order := graph.TopologicalSort();
    if Faithful(p, done, root) && Acyclic(Meaning(p, done, root)) {
      OrderFollowsMeaning(p, done, root, flat, order);
    }
  }

  // ----------------------------------------------------------------- not served right

  function Job(i: Id, done: set<Id>): Obj { Obj(Delayable, (map d | d in done :: {})[i := done]) }

  /** `x.on_done(chain(chain(a, b), c))`: `x` is connected with `b` instead of `a`. */
  lemma NestedChainOvertakes(flat: Adjacency) returns (p: Pool, done: seq<set<Id>>)
    ensures Holds(p, done) && |p| == 6 && Closed(p)
    ensures p[4].kind == Chain([2, 3]) && p[2].kind == Chain([0, 1]) && done[5] == {4}
    ensures Leads(Meaning(p, done, 5), 5, 0)
    ensures Flattens(p, Visited(p, 5), flat) ==> !Leads(flat, 5, 0)
  {
    p := [Job(0, {}), Job(1, {}), Obj(Chain([0, 1]), map[0 := {1}, 1 := {}]), Job(3, {}),
          Obj(Chain([2, 3]), map[2 := {3}, 3 := {}]), Job(5, {4})];
    done := [{}, {}, {}, {}, {}, {4}];
    OvertakePool(p, done);
    HoldsClosed(p, done);
    assert 0 in Jobs(p, 4) by { assert [2, 3][0] == 2 && [0, 1][0] == 0; assert 0 in Jobs(p, 0) && 0 in Jobs(p, 2); }
    assert DoneOrders(p, done, 5, 5, 0);
    RootReached(p, done, 5);
    JobIsMeant(p, done, 5, 0);
    if Flattens(p, Visited(p, 5), flat) && Leads(flat, 5, 0) {
      NoEdgeToFirst(p, done, flat);
    }
  }

  lemma JobIsMeant(p: Pool, done: seq<set<Id>>, root: Id, y: Id)
    requires Holds(p, done) && IsJob(p, root) && y < |p| && root in Reached(p, done, root) && DoneOrders(p, done, root, root, y)
    ensures Leads(Meaning(p, done, root), root, y)
  {
    assert Orders(p, done, root, root, y) && Meant(p, done, root, root, y);
    EdgeLeads(Meaning(p, done, root), root, y);
  }

  ghost predicate Overtaking(p: Pool, done: seq<set<Id>>) {
    && |p| == 6 && done == [{}, {}, {}, {}, {}, {4}]
    && p[0] == Job(0, {}) && p[1] == Job(1, {}) && p[2] == Obj(Chain([0, 1]), map[0 := {1}, 1 := {}]) && p[3] == Job(3, {})
    && p[4] == Obj(Chain([2, 3]), map[2 := {3}, 3 := {}]) && p[5] == Job(5, {4})
  }

  lemma PairRepresents(i: Id, a: Id, b: Id)
    requires a != b
    ensures Represents(Obj(Chain([a, b]), map[a := {b}, b := {}]), i, {})
  {
    var o := Obj(Chain([a, b]), map[a := {b}, b := {}]);
    assert [a, b][0] == a && [a, b][0 + 1] == b;
    forall u, v ensures Edge(o.graph, u, v) <==> OwnEdge(o.kind, i, {}, u, v) {
      assert Consecutive([a, b], u, v) <==> u == a && v == b;
    }
  }

  lemma JobRepresents(i: Id, done: set<Id>)
    ensures Represents(Job(i, done), i, done)
  {
  }

  lemma OvertakeBuilt(p: Pool, done: seq<set<Id>>)
    requires Overtaking(p, done)
    ensures Built(p)
  {
  }

  lemma OvertakeAt(p: Pool, done: seq<set<Id>>, i: Id)
    requires Overtaking(p, done) && i < |p|
    ensures Represents(p[i], i, done[i]) && forall d :: d in done[i] ==> d < |p|
  {
    JobRepresents(i, done[i]);
    PairRepresents(2, 0, 1);
    PairRepresents(4, 2, 3);
    hide Represents, Job;
    assert i == 0 || i == 1 || i == 2 || i == 3 || i == 4 || i == 5;
  }

  lemma OvertakePool(p: Pool, done: seq<set<Id>>)
    requires Overtaking(p, done)
    ensures Holds(p, done)
  {
    assert |p| == |done|;
    OvertakeBuilt(p, done);
    hide Overtaking, Represents, Built;
    forall i | 0 <= i < |p| ensures Represents(p[i], i, done[i]) && forall d :: d in done[i] ==> d < |p| {
      OvertakeAt(p, done, i);
    }
  }

  lemma PairTarget(a: Id, b: Id, i: Id, u: Id, v: Id)
    requires OwnEdge(Chain([a, b]), i, {}, u, v)
    ensures v == b
  {
  }

  lemma OvertakeTargets(p: Pool, done: seq<set<Id>>, i: Id, u: Id, v: Id)
    requires Overtaking(p, done) && i < |p| && OwnEdge(p[i].kind, i, done[i], u, v)
    ensures v == 1 || v == 3 || v == 4
  {
    if i == 2 { PairTarget(0, 1, i, u, v); } else if i == 4 { PairTarget(2, 3, i, u, v); }
    else { assert i == 0 || i == 1 || i == 3 || i == 5; }
  }

  lemma OvertakeHeads(p: Pool, done: seq<set<Id>>, v: Id)
    requires Overtaking(p, done) && Built(p) && (v == 1 || v == 3 || v == 4)
    ensures 0 !in Head(p, v)
  {
    assert Head(p, 1) == {1} && Head(p, 3) == {3};
    assert Head(p, 4) == Tail(p, 2) == Head(p, 1);
  }

  lemma NoEdgeToFirst(p: Pool, done: seq<set<Id>>, flat: Adjacency)
    requires Overtaking(p, done) && Holds(p, done) && Closed(p) && Flattens(p, Visited(p, 5), flat)
    ensures !Leads(flat, 5, 0)
  {
    if Leads(flat, 5, 0) {
      var path :| Joins(flat, path, 5, 0) && |path| >= 2;
      var t := path[|path| - 2];
      ButLast(flat, path);
      assert |p| == 6;
      RootVisited(p, 5);
      hide Visited, Flattens, Leads, Overtaking, Head, Tail, OwnEdge, Edge, IsPath, Joins;
      var i, u, v := FlatEdgeSource(p, done, 5, flat, t, 0);
      OvertakeTargets(p, done, i, u, v);
      OvertakeHeads(p, done, v);
    }
  }

  /** The objects of `chain(a, group(), b)`. */
  ghost predicate Broken(p: Pool, done: seq<set<Id>>) {
    && |p| == 4 && done == [{}, {}, {}, {}]
    && p[0] == Job(0, {}) && p[1] == Job(1, {}) && p[2] == Obj(Group({}), map[])
    && p[3] == Obj(Chain([0, 2, 1]), map[0 := {2}, 2 := {1}, 1 := {}])
  }

  lemma TripleEdges(a: Id, b: Id, c: Id, u: Id, v: Id)
    ensures Consecutive([a, b, c], u, v) <==> (u == a && v == b) || (u == b && v == c)
  {
    var es := [a, b, c];
    assert es[0] == a && es[0 + 1] == b && es[1] == b && es[1 + 1] == c;
  }

  lemma TripleRepresents(i: Id, a: Id, b: Id, c: Id)
    requires a != b && b != c && a != c
    ensures Represents(Obj(Chain([a, b, c]), map[a := {b}, b := {c}, c := {}]), i, {})
  {
    var o := Obj(Chain([a, b, c]), map[a := {b}, b := {c}, c := {}]);
    forall u, v ensures Edge(o.graph, u, v) <==> OwnEdge(o.kind, i, {}, u, v) { TripleEdges(a, b, c, u, v); }
  }

  lemma BrokenPool(p: Pool, done: seq<set<Id>>)
    requires Broken(p, done)
    ensures Holds(p, done)
  {
    TripleRepresents(3, 0, 2, 1);
    JobRepresents(0, {});
    JobRepresents(1, {});
    assert Represents(p[2], 2, {});
    hide Represents, Job;
    forall i | 0 <= i < |p| ensures Represents(p[i], i, done[i]) { assert i == 0 || i == 1 || i == 2 || i == 3; }
  }

  lemma BrokenEdges(p: Pool, done: seq<set<Id>>, i: Id, u: Id, v: Id)
    requires Broken(p, done) && Built(p) && i < |p| && OwnEdge(p[i].kind, i, done[i], u, v)
    ensures u < |p| && v < |p| && (Tail(p, u) == {} || Head(p, v) == {})
  {
    TripleEdges(0, 2, 1, u, v);
    assert i == 0 || i == 1 || i == 2 || i == 3;
    assert Tail(p, 2) == {} && Head(p, 2) == {};
  }

  /** In `chain(a, group(), b)` job `b` does not wait for `a`. */
  lemma EmptyGroupBreaksChain(flat: Adjacency) returns (p: Pool, done: seq<set<Id>>)
    ensures Holds(p, done) && |p| == 4 && Closed(p)
    ensures p[3].kind == Chain([0, 2, 1]) && p[2].kind == Group({}) && IsJob(p, 0) && IsJob(p, 1)
    ensures Leads(Meaning(p, done, 3), 0, 1)
    ensures Flattens(p, Visited(p, 3), flat) ==> !Leads(flat, 0, 1)
  {
    p := [Job(0, {}), Job(1, {}), Obj(Group({}), map[]), Obj(Chain([0, 2, 1]), map[0 := {2}, 2 := {1}, 1 := {}])];
    done := [{}, {}, {}, {}];
    BrokenPool(p, done);
    HoldsClosed(p, done);
    BrokenMeans(p, done);
    if Flattens(p, Visited(p, 3), flat) && Leads(flat, 0, 1) { BrokenFlat(p, done, flat); }
  }

  lemma BrokenMeans(p: Pool, done: seq<set<Id>>)
    requires Broken(p, done) && Holds(p, done)
    ensures Leads(Meaning(p, done, 3), 0, 1)
  {
    RootReached(p, done, 3);
    var es := [0, 2, 1];
    assert es[0] == 0 && es[2] == 1 && 0 in Jobs(p, 0) && 1 in Jobs(p, 1);
    assert ChainOrders(p, 3, 0, 1);
    hide Reached;
    assert 0 in Parts(p, done, 3) by { assert es[0] in es; }
    PartReached(p, done, 3, 3, 0);
    assert Orders(p, done, 3, 0, 1) && Meant(p, done, 3, 0, 1);
    EdgeLeads(Meaning(p, done, 3), 0, 1);
  }

  lemma BrokenFlat(p: Pool, done: seq<set<Id>>, flat: Adjacency)
    requires Broken(p, done) && Holds(p, done) && Closed(p) && Flattens(p, Visited(p, 3), flat)
    ensures !Leads(flat, 0, 1)
  {
    if Leads(flat, 0, 1) {
      var path :| Joins(flat, path, 0, 1) && |path| >= 2;
      ButLast(flat, path);
      var t := path[|path| - 2];
      assert |p| == 4;
      RootVisited(p, 3);
      hide Visited, Flattens, Leads, Broken, Head, Tail, OwnEdge, Edge, IsPath, Joins;
      var i, u, v := FlatEdgeSource(p, done, 3, flat, t, 1);
      BrokenEdges(p, done, i, u, v);
    }
  }
}
