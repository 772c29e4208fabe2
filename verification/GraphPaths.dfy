/**
 The enumeration of the cycle-free paths of a job graph, by backtracking on one shared path.
 */
module GraphPaths {
  import opened JobGraph

  predicate DeadEnd(g: Adjacency, p: seq<Vertex>)
    requires p != []
  {
    var last := p[|p| - 1];
    last in g && forall n :: n in g[last] ==> n in p
  }

  /** `p` continues `start`, visits no vertex twice and cannot be continued that way. */
  ghost predicate Maximal(g: Adjacency, start: seq<Vertex>, p: seq<Vertex>) {
    start <= p && IsPath(g, p) && Distinct(p) && DeadEnd(g, p)
  }

  /** The maximal continuations that take one of `steps` first. */
  ghost predicate Through(g: Adjacency, start: seq<Vertex>, steps: set<Vertex>, p: seq<Vertex>) {
    Maximal(g, start, p) && |p| > |start| && p[|start|] in steps
  }

  ghost function Onward(g: Adjacency, start: seq<Vertex>): set<Vertex>
    requires start != [] && start[|start| - 1] in g
  {
    set v | v in g[start[|start| - 1]] && v !in start
  }

  /** A continuation takes one neighbour first, unless there is nowhere left to go. */
  lemma FirstStep(g: Adjacency, start: seq<Vertex>, p: seq<Vertex>)
    requires start != [] && IsPath(g, start) && Distinct(start) && start[|start| - 1] in g
    ensures Maximal(g, start, p) <==>
            (DeadEnd(g, start) && p == start) || Through(g, start, Onward(g, start), p)
  {
    var last := start[|start| - 1];
    if Maximal(g, start, p) {
      if |p| == |start| { assert p == start; }
      else {
        assert Edge(g, p[|start| - 1], p[|start| - 1 + 1]);
        assert p[|start|] !in start by { assert forall i :: 0 <= i < |start| ==> start[i] == p[i]; }
      }
    }
  }

  lemma NextStep(g: Adjacency, start: seq<Vertex>, n: Vertex, p: seq<Vertex>)
    ensures Maximal(g, start + [n], p) <==> Through(g, start, {n}, p)
  {
    if Maximal(g, start + [n], p) { assert p[|start|] == (start + [n])[|start|]; assert start <= p; }
    if Through(g, start, {n}, p) { assert p[..|start| + 1] == p[..|start|] + [n]; }
  }

  lemma Longer(g: Adjacency, start: seq<Vertex>, n: Vertex)
    requires IsPath(g, start) && Distinct(start) && n !in start && Edge(g, start[|start| - 1], n)
    ensures IsPath(g, start + [n]) && Distinct(start + [n])
  {
    var p := start + [n];
    forall i | 0 <= i < |p| - 1 ensures Edge(g, p[i], p[i + 1]) {
      if i < |start| - 1 { assert Edge(g, start[i], start[i + 1]); }
    }
  }

  /** `found` lists exactly what satisfies `wanted`, each once. */
  ghost predicate Lists(found: seq<seq<Vertex>>, wanted: seq<Vertex> -> bool) {
    Distinct(found) && forall p :: p in found <==> wanted(p)
  }

  class PathSearch {
    const g: Adjacency
    var path: seq<Vertex>
    var seen: set<Vertex>

    ghost predicate Valid()
      reads this
    {
      IsPath(g, path) && Distinct(path) && path[|path| - 1] in g && (forall v :: v in seen <==> v in path)
    }

    constructor (g: Adjacency, v: Vertex)
      requires v in g
      ensures this.g == g && path == [v] && Valid()
    {
      this.g := g;
      path := [v];
      seen := {v};
    }

    /** Lists every maximal cycle-free continuation of the path, once, and restores the path. */
    method Search() returns (found: seq<seq<Vertex>>)
      requires Valid() && WellFormed(g)
      modifies this
      ensures path == old(path) && seen == old(seen)
      ensures Lists(found, p => Maximal(g, old(path), p))
      decreases g.Keys - seen
    {
      var deadEnd := true;
      found := [];
      var last := path[|path| - 1];
      var todo := g[last];
      ghost var taken: set<Vertex> := {};
      while todo != {}
        invariant path == old(path) && seen == old(seen) && todo <= g[last]
        invariant taken == g[last] - todo - seen && (deadEnd <==> taken == {})
        invariant Lists(found, p => Through(g, old(path), taken, p))
      {
        var n :| n in todo;
        todo := todo - {n};
        if n !in seen {
          deadEnd := false;
          assert Edge(g, last, n);
          Longer(g, path, n);
          seen, path := seen + {n}, path + [n];
          var more := Search();
          path, seen := path[..|path| - 1], seen - {n};
          Combine(g, path, taken, n, found, more);
          found, taken := found + more, taken + {n};
        }
      }
      assert taken == Onward(g, path);
      Conclude(g, path, found);
      if deadEnd { found := found + [path]; }
    }
  }

  lemma Combine(g: Adjacency, start: seq<Vertex>, taken: set<Vertex>, n: Vertex, found: seq<seq<Vertex>>, more: seq<seq<Vertex>>)
    requires Lists(found, p => Through(g, start, taken, p)) && n !in taken
    requires Lists(more, p => Maximal(g, start + [n], p))
    ensures Lists(found + more, p => Through(g, start, taken + {n}, p))
  {
    forall p ensures Maximal(g, start + [n], p) <==> Through(g, start, {n}, p) { NextStep(g, start, n, p); }
    hide Maximal;
    var all := found + more;
    forall p ensures p in all <==> Through(g, start, taken + {n}, p) {
      assert p in all <==> p in found || p in more;
      assert p in found <==> Through(g, start, taken, p);
      assert p in more <==> Maximal(g, start + [n], p);
    }
    forall i, j | 0 <= i < j < |all| ensures all[i] != all[j] {
      if i < |found| <= j {
        assert found[i] in found && more[j - |found|] in more;
        assert Through(g, start, taken, found[i]) && Maximal(g, start + [n], more[j - |found|]);
      }
    }
  }

  lemma Conclude(g: Adjacency, start: seq<Vertex>, found: seq<seq<Vertex>>)
    requires start != [] && IsPath(g, start) && Distinct(start) && start[|start| - 1] in g
    requires var steps := Onward(g, start); Lists(found, p => Through(g, start, steps, p))
    ensures var steps := Onward(g, start);
            Lists(if steps == {} then found + [start] else found, p => Maximal(g, start, p))
  {
    forall p ensures Maximal(g, start, p) <==>
                     (DeadEnd(g, start) && p == start) || Through(g, start, Onward(g, start), p)
    {
      FirstStep(g, start, p);
    }
    var steps := Onward(g, start);
    assert DeadEnd(g, start) <==> steps == {} by {
      forall n | n in g[start[|start| - 1]] ensures n in start <==> n !in steps {}
    }
    hide Maximal;
    forall p ensures p in found <==> Through(g, start, steps, p) {}
    assert start !in found;
    forall p ensures p in (if steps == {} then found + [start] else found) <==> Maximal(g, start, p) {}
  }
}
