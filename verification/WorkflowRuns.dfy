/**
 What every state of every run keeps: conservation of work, numbering of connection events,
 and where each executed node comes from.
 */
module WorkflowRuns {
  import opened Options
  import opened JobGraph
  import opened WorkflowMachine

  /** From `source`, executed before, an event led to `n`. */
  ghost predicate LedTo(m: Machine, executed: seq<Entry>, n: Node) {
    exists k :: 0 <= k < |m.events| && m.events[k].target == n && exists i :: 0 <= i < |executed| && executed[i].node == m.events[k].source
  }

  ghost predicate Comes(m: Machine, start: seq<Node>, executed: seq<Entry>, n: Node) { n in start || LedTo(m, executed, n) }

  ghost predicate Accounted(wf: Workflow, start: seq<Node>, m: Machine) {
    && m.iterations + |m.stack| == |start| + |m.events|
    && (forall i :: 0 <= i < |m.events| ==> m.events[i].sequence == i)
    && (forall i :: 0 <= i < |m.stack| ==> Comes(m, start, m.order, m.stack[i].node))
    && (forall j :: 0 <= j < |m.order| ==> Enabled(wf, m.order[j].node) && Comes(m, start, m.order[..j], m.order[j].node))
    && (forall k :: 0 <= k < |m.events| ==> Along(wf, m.events[k]))
  }

  /** An event follows a connection of the workflow. */
  ghost predicate Along(wf: Workflow, e: Event) {
    Enabled(wf, e.source) && exists c :: c in Outgoing(wf, e.source) && c.id == e.connection && c.target == Some(e.target) && c.socket == e.index
  }

  lemma LedMore(m: Machine, m': Machine, executed: seq<Entry>, executed': seq<Entry>, n: Node)
    requires LedTo(m, executed, n) && m.events <= m'.events && executed <= executed'
    ensures LedTo(m', executed', n)
  {
    var k :| 0 <= k < |m.events| && m.events[k].target == n && exists i :: 0 <= i < |executed| && executed[i].node == m.events[k].source;
    var i :| 0 <= i < |executed| && executed[i].node == m.events[k].source;
    assert m'.events[k] == m.events[k] && executed'[i] == executed[i];
  }

  lemma ComesMore(m: Machine, m': Machine, start: seq<Node>, executed: seq<Entry>, executed': seq<Entry>, n: Node)
    requires Comes(m, start, executed, n) && m.events <= m'.events && executed <= executed'
    ensures Comes(m', start, executed', n)
  {
    if n !in start { LedMore(m, m', executed, executed', n); }
  }

  /** Passing output on along one connection of a node just executed. */
  lemma RouteOneAccounted(wf: Workflow, start: seq<Node>, m: Machine, n: Node, c: Conn, outputs: seq<seq<Json>>)
    requires Accounted(wf, start, m) && m.order != [] && m.order[|m.order| - 1].node == n && c in Outgoing(wf, n)
    ensures Accounted(wf, start, RouteOne(m, n, c, outputs))
  {
    var r := RouteOne(m, n, c, outputs);
    hide Comes, Along;
    assert m.events <= r.events && Enabled(wf, n);
    if Carries(c, outputs) {
      var k := |m.events|;
      assert r.events[k].target == c.target.value && r.order[|r.order| - 1].node == r.events[k].source;
      IsLed(r, start, k);
      IsAlong(wf, n, c, r.events[k]);
    }
    forall i | 0 <= i < |r.stack| ensures Comes(r, start, r.order, r.stack[i].node) {
      if i < |m.stack| { ComesMore(m, r, start, m.order, r.order, r.stack[i].node); }
    }
    forall j | 0 <= j < |r.order| ensures Enabled(wf, r.order[j].node) && Comes(r, start, r.order[..j], r.order[j].node) {
      ComesMore(m, r, start, m.order[..j], r.order[..j], r.order[j].node);
    }
  }

  lemma IsLed(m: Machine, start: seq<Node>, k: nat)
    requires k < |m.events| && m.order != [] && m.order[|m.order| - 1].node == m.events[k].source
    ensures Comes(m, start, m.order, m.events[k].target)
  {
  }

  lemma IsAlong(wf: Workflow, n: Node, c: Conn, e: Event)
    requires c in Outgoing(wf, n) && Enabled(wf, n) && c.target.Some? && c.socket >= 0
    requires e == Event(c.id, n, c.target.value, c.socket, e.sequence)
    ensures Along(wf, e)
  {
  }

  lemma {:induction false} RouteAccounted(wf: Workflow, start: seq<Node>, m: Machine, n: Node, conns: seq<Conn>, outputs: seq<seq<Json>>)
    requires Accounted(wf, start, m) && m.order != [] && m.order[|m.order| - 1].node == n
    requires forall c :: c in conns ==> c in Outgoing(wf, n)
    ensures Accounted(wf, start, Route(m, n, conns, outputs))
    decreases |conns|
  {
    hide Accounted;
    if conns != [] {
      RouteOneAccounted(wf, start, m, n, conns[0], outputs);
      RouteAccounted(wf, start, RouteOne(m, n, conns[0], outputs), n, conns[1..], outputs);
    }
  }

  lemma PoppedAccounted(wf: Workflow, start: seq<Node>, m: Machine)
    requires Accounted(wf, start, m) && m.stack != []
    ensures Accounted(wf, start, Popped(m))
  {
    var r := Popped(m);
    hide Comes, Along;
    forall i | 0 <= i < |r.stack| ensures Comes(r, start, r.order, r.stack[i].node) {
      ComesMore(m, r, start, m.order, r.order, m.stack[i].node);
    }
    forall j | 0 <= j < |r.order| ensures Enabled(wf, r.order[j].node) && Comes(r, start, r.order[..j], r.order[j].node) {
      ComesMore(m, r, start, m.order[..j], r.order[..j], r.order[j].node);
    }
  }

  lemma ExecutedAccounted(wf: Workflow, start: seq<Node>, m: Machine, e: Entry, out: Outcome)
    requires Accounted(wf, start, m) && Enabled(wf, e.node) && Comes(m, start, m.order, e.node)
    ensures Accounted(wf, start, Executed(m, e, out))
  {
    var r := Executed(m, e, out);
    hide Comes, Along;
    assert r.order == m.order + [e] && r.events == m.events;
    forall i | 0 <= i < |r.stack| ensures Comes(r, start, r.order, r.stack[i].node) {
      ComesMore(m, r, start, m.order, r.order, r.stack[i].node);
    }
    forall j | 0 <= j < |r.order| ensures Enabled(wf, r.order[j].node) && Comes(r, start, r.order[..j], r.order[j].node) {
      if j < |m.order| { assert r.order[..j] == m.order[..j]; ComesMore(m, r, start, m.order[..j], r.order[..j], r.order[j].node); }
      else { assert r.order[..j] == m.order; ComesMore(m, r, start, m.order, r.order[..j], e.node); }
    }
  }

  lemma StepAccounted(wf: Workflow, run: Runner, start: seq<Node>, m: Machine)
    requires Accounted(wf, start, m) && Going(m)
    ensures Accounted(wf, start, Step(wf, run, m))
  {
    var e := m.stack[|m.stack| - 1];
    var m1 := Popped(m);
    PoppedAccounted(wf, start, m);
    if Enabled(wf, e.node) {
      assert Comes(m, start, m.order, e.node);
      ComesMore(m, m1, start, m.order, m1.order, e.node);
      var out := RunNode(wf, run, e.node, e.input, m.mem);
      ExecutedAccounted(wf, start, m1, e, out);
      hide Accounted;
      if out.Success? { RouteAccounted(wf, start, Executed(m1, e, out), e.node, Outgoing(wf, e.node), out.outputs); }
    }
  }

  lemma {:induction false} AfterAccounted(wf: Workflow, run: Runner, start: seq<Node>, m: Machine, k: nat)
    requires Accounted(wf, start, m)
    ensures Accounted(wf, start, After(wf, run, m, k))
    decreases k
  {
    hide Accounted, Step;
    if k > 0 && Going(m) {
      StepAccounted(wf, run, start, m);
      AfterAccounted(wf, run, start, Step(wf, run, m), k - 1);
    }
  }

  /**
   In every state of every run, work is conserved, events are numbered in order and follow
   connections, and every executed node is enabled and was a start node or the target of an
   event from a node executed before it.
   */
  lemma RunAccounted(wf: Workflow, run: Runner, start: seq<Node>, input: Json, mem: Memory, k: nat)
    ensures Accounted(wf, start, After(wf, run, Launch(start, input, mem), k))
  {
    var m := Launch(start, input, mem);
    assert forall i :: 0 <= i < |m.stack| ==> m.stack[i].node == start[i];
    AfterAccounted(wf, run, start, m, k);
  }

  // ------------------------------------------------------------------------ reachability

  /** The connections of the workflow as a graph, without those that leave a disabled node. */
  function EnabledFlow(wf: Workflow): Adjacency {
    map n | n in SourceNodes(wf.conns) && Enabled(wf, n) :: Targets(Outgoing(wf, n))
  }

  function Targets(conns: seq<Conn>): set<Node> { set c | c in conns && c.target.Some? :: c.target.value }

  function SourceNodes(conns: seq<Conn>): set<Node> { set c | c in conns && c.source.Some? :: c.source.value }

  lemma AlongFlow(wf: Workflow, e: Event)
    requires Along(wf, e)
    ensures Edge(EnabledFlow(wf), e.source, e.target)
  {
    var c :| c in Outgoing(wf, e.source) && c.id == e.connection && c.target == Some(e.target) && c.socket == e.index;
    assert c in wf.conns && c.source == Some(e.source);
    assert e.source in SourceNodes(wf.conns) && e.target in Targets(Outgoing(wf, e.source));
  }

  lemma {:induction false} ExecutedReachable(wf: Workflow, start: seq<Node>, m: Machine, j: nat)
    requires Accounted(wf, start, m) && j < |m.order|
    ensures var n := m.order[j].node; n in start || exists s :: s in start && Leads(EnabledFlow(wf), s, n)
    decreases j
  {
    var n := m.order[j].node;
    assert Comes(m, start, m.order[..j], n);
    if n !in start {
      var k :| 0 <= k < |m.events| && m.events[k].target == n
               && exists i :: 0 <= i < |m.order[..j]| && m.order[..j][i].node == m.events[k].source;
      var i :| 0 <= i < |m.order[..j]| && m.order[..j][i].node == m.events[k].source;
      ExecutedReachable(wf, start, m, i);
      assert Along(wf, m.events[k]);
      AlongFlow(wf, m.events[k]);
      EdgeLeads(EnabledFlow(wf), m.events[k].source, n);
      var p := m.order[i].node;
      hide Leads, EnabledFlow, Accounted;
      if p in start { assert Leads(EnabledFlow(wf), p, n); }
      else {
        var s :| s in start && Leads(EnabledFlow(wf), s, p);
        LeadsTrans(EnabledFlow(wf), s, p, n);
      }
    }
  }

  /** Every node a run executes is reached from a start node through enabled nodes only. */
  lemma OnlyReachableRuns(wf: Workflow, run: Runner, start: seq<Node>, input: Json, mem: Memory, k: nat, j: nat)
    requires var m := After(wf, run, Launch(start, input, mem), k); j < |m.order|
    ensures var n := After(wf, run, Launch(start, input, mem), k).order[j].node;
            Enabled(wf, n) && (n in start || exists s :: s in start && Leads(EnabledFlow(wf), s, n))
  {
    var m := After(wf, run, Launch(start, input, mem), k);
    RunAccounted(wf, run, start, input, mem, k);
    ExecutedReachable(wf, start, m, j);
  }
}
