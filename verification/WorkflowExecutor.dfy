/**
 The executor: it indexes the connections of a workflow once and then runs its loop on a stack,
 a result table, an execution order and a list of connection events, all updated in place.
 */
module WorkflowExecution {
  import opened Options
  import opened JobGraph
  import opened WorkflowMachine
  import opened WorkflowRuns
  import opened WorkflowTermination
  import opened WorkflowPreview

  /** The sources from which `target` can be reached, backwards along all connections. */
  ghost predicate Ancestor(wf: Workflow, n: Node, target: Node) { Leads(Flow(wf), n, target) }

  /** A start node: enabled, and no connection leads to it. */
  predicate IsStart(wf: Workflow, n: Node) { n !in Targets(wf.conns) && Enabled(wf, n) }

  ghost predicate LeadsOrIs(wf: Workflow, n: Node, target: Node) { n == target || Ancestor(wf, n, target) }

  /** The nodes that satisfy `wanted`, in their order. */
  ghost function Only(nodes: seq<Node>, wanted: Node -> bool): (r: seq<Node>)
    ensures forall n :: n in r <==> n in nodes && wanted(n)
  {
    if nodes == [] then []
    else Only(nodes[..|nodes| - 1], wanted) + if wanted(nodes[|nodes| - 1]) then [nodes[|nodes| - 1]] else []
  }

  lemma OnlyMore(nodes: seq<Node>, i: nat, wanted: Node -> bool)
    requires i < |nodes|
    ensures Only(nodes[..i + 1], wanted) == Only(nodes[..i], wanted) + if wanted(nodes[i]) then [nodes[i]] else []
  {
    assert nodes[..i + 1][..i] == nodes[..i];
  }

  ghost function StartNodes(wf: Workflow): seq<Node> { Only(wf.nodes, (n: Node) => IsStart(wf, n)) }

  /** The start nodes are the enabled nodes that are the target of no connection. */
  lemma StartNodesAre(wf: Workflow, n: Node)
    ensures n in StartNodes(wf) <==> n in wf.nodes && n !in wf.disabled && forall c :: c in wf.conns ==> c.target != Some(n)
  {
    if c :| c in wf.conns && c.target == Some(n) { assert n in Targets(wf.conns); }
  }

  class Executor {
    const wf: Workflow
    const run: Runner
    var connectionsBySource: map<Node, seq<Conn>>
    var sourcesByTarget: map<Node, seq<Node>>
    var withIncoming: set<Node>
    var stack: seq<Entry>
    var results: map<Node, Result>
    var order: seq<Entry>
    var events: seq<Event>
    var mem: Memory
    var iterations: nat
    var failed: bool

    ghost function View(): Machine
      reads this
    {
      Machine(stack, results, order, events, mem, iterations, failed)
    }

    /** What indexing the connections establishes, and no run changes. */
    ghost predicate Valid()
      reads this
    {
      BySource(connectionsBySource, wf.conns) && ByTarget(sourcesByTarget, wf.conns) && withIncoming == Targets(wf.conns)
    }

    constructor (wf: Workflow, run: Runner, mem: Memory)
      ensures Valid() && this.wf == wf && this.run == run
      ensures View() == Launch([], Null, mem)
    {
      this.wf := wf;
      this.run := run;
      connectionsBySource := map[];
      sourcesByTarget := map[];
      withIncoming := {};
      stack := [];
      results := map[];
      order := [];
      events := [];
      this.mem := mem;
      iterations := 0;
      failed := false;
      new;
      BuildGraph();
    }

    method BuildGraph()
      requires connectionsBySource == map[] && sourcesByTarget == map[] && withIncoming == {}
      modifies this`connectionsBySource, this`sourcesByTarget, this`withIncoming
      ensures Valid()
    {
      var i := 0;
      hide BySource, ByTarget;
      NothingIndexed();
      while i < |wf.conns|
        invariant 0 <= i <= |wf.conns| && withIncoming == Targets(wf.conns[..i])
        invariant BySource(connectionsBySource, wf.conns[..i]) && ByTarget(sourcesByTarget, wf.conns[..i])
      {
        var c := wf.conns[i];
        IndexStep(wf.conns, i, connectionsBySource, sourcesByTarget);
        if c.source.Some? {
          connectionsBySource := connectionsBySource[c.source.value := LookUpConns(connectionsBySource, c.source.value) + [c]];
        }
        if c.source.Some? && c.target.Some? {
          sourcesByTarget := sourcesByTarget[c.target.value := LookUpSources(sourcesByTarget, c.target.value) + [c.source.value]];
        }
        if c.target.Some? { withIncoming := withIncoming + {c.target.value}; }
        i := i + 1;
      }
      assert wf.conns[..|wf.conns|] == wf.conns;
    }

    /** Appends an event and an entry for every connection that carries data. */
    method RouteOutputs(n: Node, outputs: seq<seq<Json>>)
      requires Valid()
      modifies this`stack, this`events
      ensures View() == Route(old(View()), n, Outgoing(wf, n), outputs)
    {
      var conns := LookUpConns(connectionsBySource, n);
      var i := 0;
      while i < |conns|
        invariant 0 <= i <= |conns|
        invariant Route(View(), n, conns[i..], outputs) == Route(old(View()), n, conns, outputs)
      {
        var c := conns[i];
        assert conns[i..][1..] == conns[i + 1..];
        if Carries(c, outputs) {
          events := events + [Event(c.id, n, c.target.value, c.socket, |events|)];
          stack := stack + [Entry(c.target.value, Unwrap(outputs[c.socket]))];
        }
        i := i + 1;
      }
    }

    /** Takes the top entry and, if its node is enabled, runs it and stores its result. */
    method ExecuteTop() returns (e: Entry, out: Option<Outcome>)
      requires Valid() && Going(View())
      modifies this`stack, this`results, this`order, this`mem, this`iterations, this`failed
      ensures e == old(stack)[|old(stack)| - 1]
      ensures out == None <==> !Enabled(wf, e.node)
      ensures out == None ==> View() == Popped(old(View()))
      ensures out != None ==> out.value == RunNode(wf, run, e.node, e.input, old(mem)) && View() == Executed(Popped(old(View())), e, out.value)
    {
      iterations := iterations + 1;
      e := stack[|stack| - 1];
      stack := stack[..|stack| - 1];
      if e.node in wf.disabled { return e, None; }
      var got := RunNode(wf, run, e.node, e.input, mem);
      match got {
        case Success(_, json, after) =>
          results := results[e.node := Completed(json)];
          mem := after;
        case Failure(error) =>
          results := results[e.node := Failed(error)];
          failed := true;
      }
      order := order + [e];
      out := Some(got);
    }

    /** One turn of `execute`. */
    method Turn()
      requires Valid() && Going(View())
      modifies this`stack, this`results, this`order, this`mem, this`iterations, this`failed, this`events
      ensures View() == Step(wf, run, old(View())) && iterations == old(iterations) + 1
    {
      var e, out := ExecuteTop();
      if out.Some? && out.value.Success? { RouteOutputs(e.node, out.value.outputs); }
      StepCounts(wf, run, old(View()));
    }

    /** One turn of `execute_until`. */
    method PreviewTurn(target: Node) returns (reached: bool)
      requires Valid() && Going(View())
      modifies this`stack, this`results, this`order, this`mem, this`iterations, this`failed, this`events
      ensures Preview(View(), reached) == PreviewStep(wf, run, target, old(View())) && iterations == old(iterations) + 1
    {
      reached := false;
      var e, out := ExecuteTop();
      if out.Some? && out.value.Success? {
        if e.node == target { reached := true; } else { RouteOutputs(e.node, out.value.outputs); }
      }
      FirstTurn(wf, run, target, old(View()));
    }

    method PushStart(start: seq<Node>, input: Json)
      requires stack == []
      modifies this`stack
      ensures stack == Entries(start, input)
    {
      var i := 0;
      while i < |start|
        invariant 0 <= i <= |start| && stack == Entries(start[..i], input)
      {
        stack := stack + [Entry(start[i], input)];
        i := i + 1;
      }
      assert start[..|start|] == start;
    }

    /** Runs a fresh executor to its end: the loop computes `Final`. */
    method Execute(start: seq<Node>, input: Json) returns (verdict: Verdict)
      requires Valid() && View() == Launch([], Null, mem)
      modifies this
      ensures Valid() && View() == Final(wf, run, start, input, old(mem))
      ensures verdict == ExecuteVerdict(start, View())
      ensures verdict == Completes ==> stack == []
    {
      PushStart(start, input);
      ghost var m := Launch(start, input, old(mem));
      assert View() == m;
      hide Step, BySource, ByTarget;
      if start == [] { return NoStartNodes; }
      while stack != [] && iterations < MAX_ITERATIONS && !failed
        invariant Valid() && iterations <= MAX_ITERATIONS
        invariant View() == After(wf, run, m, iterations)
        decreases MAX_ITERATIONS - iterations
      {
        AfterNext(wf, run, m, iterations);
        Turn();
      }
      Finished(m, iterations);
      if failed { return NodeFails; }
      if iterations >= MAX_ITERATIONS { return TooManyIterations; }
      return Completes;
    }

    lemma Finished(m: Machine, k: nat)
      requires k <= MAX_ITERATIONS && (k == MAX_ITERATIONS || !Going(After(wf, run, m, k)))
      ensures After(wf, run, m, MAX_ITERATIONS) == After(wf, run, m, k)
    {
      if k < MAX_ITERATIONS {
        AfterMore(wf, run, m, k, MAX_ITERATIONS - k);
        AfterStays(wf, run, After(wf, run, m, k), MAX_ITERATIONS - k);
      }
    }

    /** Runs a fresh executor until the target has run. */
    method ExecuteUntil(target: Node, start: seq<Node>, input: Json, cap: nat) returns (verdict: Verdict, reached: bool)
      requires Valid() && View() == Launch([], Null, mem)
      modifies this
      ensures Valid()
      ensures start == [] ==> verdict == NoStartNodes && View() == old(View())
      ensures start != [] ==>
                var p := PreviewAfter(wf, run, target, Preview(Launch(start, input, old(mem)), false), cap);
                Preview(View(), reached) == p && verdict == PreviewVerdict(p, cap)
    {
      reached := false;
      if start == [] { return NoStartNodes, false; }
      PushStart(start, input);
      ghost var p0 := Preview(Launch(start, input, old(mem)), false);
      hide PreviewStep, BySource, ByTarget;
      while stack != [] && iterations < cap && !failed && !reached
        invariant Valid() && iterations <= cap
        invariant PreviewAfter(wf, run, target, Preview(View(), reached), cap - iterations) == PreviewAfter(wf, run, target, p0, cap)
        decreases cap - iterations
      {
        reached := PreviewTurn(target);
      }
      if iterations >= cap { return TooManyIterations, reached; }
      if failed { return NodeFails, reached; }
      if !reached { return TargetNotReached, reached; }
      return Completes, reached;
    }

    /** The nodes a run starts from when none are given. */
    method FindStartNodes() returns (start: seq<Node>)
      requires Valid()
      ensures start == StartNodes(wf)
    {
      start := [];
      var i := 0;
      while i < |wf.nodes|
        invariant 0 <= i <= |wf.nodes| && start == Only(wf.nodes[..i], (n: Node) => IsStart(wf, n))
      {
        var n := wf.nodes[i];
        OnlyMore(wf.nodes, i, (n: Node) => IsStart(wf, n));
        if n !in withIncoming && n !in wf.disabled { start := start + [n]; }
        i := i + 1;
      }
      assert wf.nodes[..|wf.nodes|] == wf.nodes;
    }

    /** The start nodes that lead to the target, in their order, or, if none does, all of them. */
    method FindStartNodesFor(target: Node) returns (start: seq<Node>)
      requires Valid()
      ensures var leading := Only(StartNodes(wf), (n: Node) => LeadsOrIs(wf, n, target));
              start == if leading == [] then StartNodes(wf) else leading
    {
      var all := FindStartNodes();
      var ancestors := NodeAncestors(target);
      ancestors := ancestors + {target};
      start := [];
      var i := 0;
      while i < |all|
        invariant 0 <= i <= |all| && start == Only(all[..i], (n: Node) => LeadsOrIs(wf, n, target))
      {
        OnlyMore(all, i, (n: Node) => LeadsOrIs(wf, n, target));
        if all[i] in ancestors { start := start + [all[i]]; }
        i := i + 1;
      }
      assert all[..|all|] == all;
      if start == [] { start := all; }
    }

    /** Searching backwards finds exactly the nodes from which the target can be reached. */
    method NodeAncestors(target: Node) returns (ancestors: set<Node>)
      requires Valid()
      ensures forall n :: n in ancestors <==> Ancestor(wf, n, target)
    {
      ancestors := {};
      var queue := [target];
      ghost var seen: set<Node> := {};
      while queue != []
        invariant Searching(wf, target, ancestors, queue, seen, target) && (target in seen || target in queue)
        decreases SourceNodes(wf.conns) - ancestors, |queue|
      {
        var current := queue[0];
        queue := queue[1..];
        var parents := LookUpSources(sourcesByTarget, current);
        hide Ancestor, Connected;
        ancestors, queue := VisitParents(wf, target, current, parents, ancestors, queue, seen);
        seen := seen + {current};
      }
      forall n ensures n in ancestors <==> Ancestor(wf, n, target) {
        if Ancestor(wf, n, target) { AllAncestors(wf, target, ancestors, seen, n); }
      }
    }
  }

  /** Adds the parents of `current` not met before to the ancestors and to the queue. */
  method VisitParents(wf: Workflow, target: Node, current: Node, parents: seq<Node>, found: set<Node>, rest: seq<Node>, ghost seen: set<Node>)
    returns (ancestors: set<Node>, queue: seq<Node>)
    requires Searching(wf, target, found, [current] + rest, seen, target) && (target in seen || target in [current] + rest)
    requires forall s :: s in parents <==> Connected(wf.conns, s, current)
    ensures Searching(wf, target, ancestors, queue, seen + {current}, target) && (target in seen + {current} || target in queue)
    ensures found <= ancestors <= SourceNodes(wf.conns) && (ancestors == found ==> queue == rest)
  {
    ancestors, queue := found, rest;
    var i := 0;
    hide Ancestor, Connected;
    while i < |parents|
      invariant 0 <= i <= |parents| && found <= ancestors && (ancestors == found ==> queue == rest) && rest <= queue
      invariant forall a :: a in ancestors ==> Ancestor(wf, a, target) && a in SourceNodes(wf.conns)
      invariant forall q :: q in queue ==> q == target || q in ancestors
      invariant forall a :: a in ancestors ==> a in seen || a in queue || a == current || a == target
      invariant forall k :: 0 <= k < i ==> parents[k] in ancestors
    {
      var parent := parents[i];
      if parent !in ancestors {
        FoundAncestor(wf, parent, current, target);
        ancestors := ancestors + {parent};
        queue := queue + [parent];
      }
      i := i + 1;
    }
    forall s | Connected(wf.conns, s, current) ensures s in ancestors {
      assert s in parents;
    }
  }

  function LookUpConns(index: map<Node, seq<Conn>>, n: Node): seq<Conn> { if n in index then index[n] else [] }

  function LookUpSources(index: map<Node, seq<Node>>, n: Node): seq<Node> { if n in index then index[n] else [] }

  predicate Connected(conns: seq<Conn>, s: Node, t: Node) { exists c :: c in conns && c.source == Some(s) && c.target == Some(t) }

  ghost predicate BySource(index: map<Node, seq<Conn>>, conns: seq<Conn>) {
    forall n :: LookUpConns(index, n) == Leaving(conns, n)
  }

  ghost predicate ByTarget(index: map<Node, seq<Node>>, conns: seq<Conn>) {
    forall t, s :: s in LookUpSources(index, t) <==> Connected(conns, s, t)
  }

  lemma NothingIndexed()
    ensures BySource(map[], []) && ByTarget(map[], [])
  {
  }

  /** How one more connection shows in the indexes. */
  lemma IndexStep(conns: seq<Conn>, i: nat, bySource: map<Node, seq<Conn>>, byTarget: map<Node, seq<Node>>)
    requires i < |conns| && BySource(bySource, conns[..i]) && ByTarget(byTarget, conns[..i])
    ensures var c := conns[i];
            && Targets(conns[..i + 1]) == Targets(conns[..i]) + (if c.target.Some? then {c.target.value} else {})
            && BySource(if c.source.Some? then bySource[c.source.value := LookUpConns(bySource, c.source.value) + [c]] else bySource, conns[..i + 1])
            && ByTarget(if c.source.Some? && c.target.Some?
                        then byTarget[c.target.value := LookUpSources(byTarget, c.target.value) + [c.source.value]] else byTarget, conns[..i + 1])
  {
    assert conns[..i + 1] == conns[..i] + [conns[i]];
    BySourceStep(bySource, conns[..i], conns[i]);
    ByTargetStep(byTarget, conns[..i], conns[i]);
    hide BySource, ByTarget;
  }

  lemma BySourceStep(index: map<Node, seq<Conn>>, conns: seq<Conn>, c: Conn)
    requires BySource(index, conns)
    ensures BySource(if c.source.Some? then index[c.source.value := LookUpConns(index, c.source.value) + [c]] else index, conns + [c])
  {
    forall n: Node ensures Leaving(conns + [c], n) == Leaving(conns, n) + if c.source == Some(n) then [c] else [] {
      LeavingLast(conns, c, n);
    }
  }

  lemma ByTargetStep(index: map<Node, seq<Node>>, conns: seq<Conn>, c: Conn)
    requires ByTarget(index, conns)
    ensures ByTarget(if c.source.Some? && c.target.Some? then index[c.target.value := LookUpSources(index, c.target.value) + [c.source.value]] else index,
                     conns + [c])
  {
    forall s: Node, t: Node
      ensures Connected(conns + [c], s, t) <==> Connected(conns, s, t) || (c.source == Some(s) && c.target == Some(t))
    {
      ConnectedLast(conns, c, s, t);
    }
    hide Connected;
  }

  lemma ConnectedLast(conns: seq<Conn>, c: Conn, s: Node, t: Node)
    ensures Connected(conns + [c], s, t) <==> Connected(conns, s, t) || (c.source == Some(s) && c.target == Some(t))
  {
  }

  /** The connections that leave a node are taken in the order in which they are listed. */
  lemma {:induction false} LeavingLast(conns: seq<Conn>, c: Conn, n: Node)
    ensures Leaving(conns + [c], n) == Leaving(conns, n) + if c.source == Some(n) then [c] else []
    decreases |conns|
  {
    if conns != [] {
      assert (conns + [c])[1..] == conns[1..] + [c];
      LeavingLast(conns[1..], c, n);
    }
  }

  /** A backward search: all found are ancestors, and what was looked at has its sources found. */
  ghost predicate Searching(wf: Workflow, target: Node, ancestors: set<Node>, queue: seq<Node>, seen: set<Node>, current: Node) {
    && (forall a :: a in ancestors ==> Ancestor(wf, a, target) && a in SourceNodes(wf.conns))
    && (forall q :: q in queue ==> q == target || q in ancestors)
    && (current == target || current in ancestors)
    && (forall a :: a in ancestors ==> a in seen || a in queue || a == current)
    && (forall v, s :: v in seen && Connected(wf.conns, s, v) ==> s in ancestors)
  }

  lemma ConnectedFlow(wf: Workflow, s: Node, t: Node)
    ensures Connected(wf.conns, s, t) <==> Edge(Flow(wf), s, t)
    ensures Connected(wf.conns, s, t) ==> s in SourceNodes(wf.conns)
  {
    if Edge(Flow(wf), s, t) {
      var c :| c in Outgoing(wf, s) && c.target.Some? && c.target.value == t;
      assert c in wf.conns;
    }
    if Connected(wf.conns, s, t) {
      var c :| c in wf.conns && c.source == Some(s) && c.target == Some(t);
      assert c in Outgoing(wf, s);
    }
  }

  lemma FoundAncestor(wf: Workflow, s: Node, v: Node, target: Node)
    requires Connected(wf.conns, s, v) && (v == target || Ancestor(wf, v, target))
    ensures Ancestor(wf, s, target) && s in SourceNodes(wf.conns)
  {
    ConnectedFlow(wf, s, v);
    EdgeLeads(Flow(wf), s, v);
    hide Leads, Flow;
    if v != target { LeadsTrans(Flow(wf), s, v, target); }
  }

  lemma {:induction false} PathBack(wf: Workflow, target: Node, ancestors: set<Node>, path: seq<Node>)
    requires IsPath(Flow(wf), path) && |path| >= 2 && path[|path| - 1] == target
    requires forall v, s :: (v == target || v in ancestors) && Connected(wf.conns, s, v) ==> s in ancestors
    ensures path[0] in ancestors
    decreases |path|
  {
    assert Edge(Flow(wf), path[0], path[0 + 1]);
    ConnectedFlow(wf, path[0], path[1]);
    hide Flow, Connected;
    if |path| > 2 {
      var q := path[1..];
      assert IsPath(Flow(wf), q) by {
        forall k | 0 <= k < |q| - 1 ensures Edge(Flow(wf), q[k], q[k + 1]) { assert Edge(Flow(wf), path[k + 1], path[k + 1 + 1]); }
      }
      PathBack(wf, target, ancestors, q);
    }
  }

  lemma AllAncestors(wf: Workflow, target: Node, ancestors: set<Node>, seen: set<Node>, n: Node)
    requires Ancestor(wf, n, target) && target in seen && forall a :: a in ancestors ==> a in seen
    requires forall v, s :: v in seen && Connected(wf.conns, s, v) ==> s in ancestors
    ensures n in ancestors
  {
    var path :| Joins(Flow(wf), path, n, target) && |path| >= 2;
    PathBack(wf, target, ancestors, path);
  }
}
