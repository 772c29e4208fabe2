/**
 On a workflow without cycles the stack loop comes to its end by itself, after at most as many
 turns as there are ways through the workflow.
 */
module WorkflowTermination {
  import opened JobGraph
  import opened WorkflowMachine
  import opened WorkflowRuns

  /** The connections of the workflow as a graph. */
  function Flow(wf: Workflow): Adjacency { map n | n in SourceNodes(wf.conns) :: Targets(Outgoing(wf, n)) }

  /** Everything that comes after `n`. */
  ghost function Below(wf: Workflow, n: Node): set<Node> { set w | w in Targets(wf.conns) && Leads(Flow(wf), n, w) }

  lemma ConnectionLeads(wf: Workflow, n: Node, c: Conn)
    requires c in Outgoing(wf, n) && c.target.Some?
    ensures Leads(Flow(wf), n, c.target.value) && c.target.value in Targets(wf.conns)
  {
    assert c in wf.conns && n in SourceNodes(wf.conns) && c.target.value in Targets(Outgoing(wf, n));
    EdgeLeads(Flow(wf), n, c.target.value);
  }

  lemma BelowShrinks(wf: Workflow, n: Node, c: Conn)
    requires Acyclic(Flow(wf)) && c in Outgoing(wf, n) && c.target.Some?
    ensures Below(wf, c.target.value) < Below(wf, n)
  {
    var t := c.target.value;
    ConnectionLeads(wf, n, c);
    hide Leads, Flow;
    forall w | w in Below(wf, t) ensures w in Below(wf, n) { LeadsTrans(Flow(wf), n, t, w); }
    assert t in Below(wf, n) && t !in Below(wf, t);
  }

  /** How many ways lead on from `n`, itself included. */
  ghost function Ways(wf: Workflow, n: Node): nat
    requires Acyclic(Flow(wf))
    decreases Below(wf, n), |Outgoing(wf, n)| + 1
  {
    1 + WaysAlong(wf, n, Outgoing(wf, n))
  }

  ghost function WaysAlong(wf: Workflow, n: Node, conns: seq<Conn>): nat
    requires Acyclic(Flow(wf)) && forall c :: c in conns ==> c in Outgoing(wf, n)
    decreases Below(wf, n), |conns|
  {
    if conns == [] then 0
    else
      (if conns[0].target.Some? then
         BelowShrinks(wf, n, conns[0]);
         Ways(wf, conns[0].target.value)
       else 0)
      + WaysAlong(wf, n, conns[1..])
  }

  ghost function WaysOf(wf: Workflow, stack: seq<Entry>): nat
    requires Acyclic(Flow(wf))
  {
    if stack == [] then 0 else WaysOf(wf, stack[..|stack| - 1]) + Ways(wf, stack[|stack| - 1].node)
  }

  lemma WaysOfPush(wf: Workflow, stack: seq<Entry>, e: Entry)
    requires Acyclic(Flow(wf))
    ensures WaysOf(wf, stack + [e]) == WaysOf(wf, stack) + Ways(wf, e.node)
  {
    assert (stack + [e])[..|stack + [e]| - 1] == stack;
  }

  /** What a node pushes is no more than the ways that lead on from it. */
  lemma {:induction false} RouteWays(wf: Workflow, m: Machine, n: Node, conns: seq<Conn>, outputs: seq<seq<Json>>)
    requires Acyclic(Flow(wf)) && forall c :: c in conns ==> c in Outgoing(wf, n)
    ensures WaysOf(wf, Route(m, n, conns, outputs).stack) <= WaysOf(wf, m.stack) + WaysAlong(wf, n, conns)
    decreases |conns|
  {
    hide Acyclic, WaysOf, Ways;
    if conns != [] {
      var c := conns[0];
      if Carries(c, outputs) { WaysOfPush(wf, m.stack, Entry(c.target.value, Unwrap(outputs[c.socket]))); }
      RouteWays(wf, RouteOne(m, n, c, outputs), n, conns[1..], outputs);
    }
  }

  lemma StepWays(wf: Workflow, run: Runner, m: Machine)
    requires Acyclic(Flow(wf)) && Going(m)
    ensures WaysOf(wf, Step(wf, run, m).stack) + 1 <= WaysOf(wf, m.stack)
  {
    var e := m.stack[|m.stack| - 1];
    var out := RunNode(wf, run, e.node, e.input, m.mem);
    assert WaysOf(wf, m.stack) == WaysOf(wf, Popped(m).stack) + Ways(wf, e.node);
    if Enabled(wf, e.node) && out.Success? {
      RouteWays(wf, Executed(Popped(m), e, out), e.node, Outgoing(wf, e.node), out.outputs);
    }
  }

  /** The turns taken and the ways left on the stack never exceed the ways there were. */
  lemma {:induction false} AfterWays(wf: Workflow, run: Runner, m: Machine, k: nat)
    requires Acyclic(Flow(wf))
    ensures var r := After(wf, run, m, k); r.iterations + WaysOf(wf, r.stack) <= m.iterations + WaysOf(wf, m.stack)
    decreases k
  {
    hide Acyclic, WaysOf, Step;
    if k > 0 && Going(m) {
      StepWays(wf, run, m);
      StepCounts(wf, run, m);
      AfterWays(wf, run, Step(wf, run, m), k - 1);
    }
  }

  ghost function WaysFrom(wf: Workflow, start: seq<Node>): nat
    requires Acyclic(Flow(wf))
  {
    if start == [] then 0 else WaysFrom(wf, start[..|start| - 1]) + Ways(wf, start[|start| - 1])
  }

  lemma {:induction false} LaunchWays(wf: Workflow, start: seq<Node>, input: Json)
    requires Acyclic(Flow(wf))
    ensures WaysOf(wf, Entries(start, input)) == WaysFrom(wf, start)
    decreases |start|
  {
    hide Acyclic, Ways;
    if start != [] {
      LaunchWays(wf, start[..|start| - 1], input);
      assert Entries(start, input)[..|start| - 1] == Entries(start[..|start| - 1], input);
    }
  }

  /** Without cycles a run is over after as many turns as there are ways from the start nodes. */
  lemma AcyclicRunEnds(wf: Workflow, run: Runner, start: seq<Node>, input: Json, mem: Memory, k: nat)
    requires Acyclic(Flow(wf))
    ensures After(wf, run, Launch(start, input, mem), k).iterations <= WaysFrom(wf, start)
    ensures k >= WaysFrom(wf, start) ==> !Going(After(wf, run, Launch(start, input, mem), k))
  {
    var m := Launch(start, input, mem);
    var r := After(wf, run, m, k);
    LaunchWays(wf, start, input);
    AfterWays(wf, run, m, k);
    AfterCounts(wf, run, m, k);
    hide Acyclic;
    if Going(r) {
      var s := r.stack[|r.stack| - 1].node;
      assert WaysOf(wf, r.stack) == WaysOf(wf, r.stack[..|r.stack| - 1]) + Ways(wf, s);
      assert Ways(wf, s) >= 1;
    }
  }
}
