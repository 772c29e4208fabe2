/**
 What one turn of the executor does to its state, and which data it hands on: said with the
 workflow, the runner's answer and the state before only, and followed through whole runs.
 */
module WorkflowData {
  import opened Options
  import opened WorkflowMachine

  /** The connection has a target, and its socket is one of the outputs and has items. */
  predicate Fires(c: Conn, outputs: seq<seq<Json>>) {
    c.target != None && 0 <= c.socket && c.socket < |outputs| && |outputs[c.socket]| > 0
  }

  /** Those that fire, in their order. */
  function Firing(conns: seq<Conn>, outputs: seq<seq<Json>>): (fs: seq<Conn>)
    ensures forall c :: c in fs <==> c in conns && Fires(c, outputs)
  {
    if conns == [] then [] else (if Fires(conns[0], outputs) then [conns[0]] else []) + Firing(conns[1..], outputs)
  }

  /** A connection that fires leaves an event and an entry with the single item of its socket, or
      with all its items as a list. */
  predicate PassedOn(c: Conn, n: Node, outputs: seq<seq<Json>>, ev: Event, e: Entry, number: nat) {
    && Fires(c, outputs) && ev == Event(c.id, n, c.target.value, c.socket, number)
    && e.node == c.target.value && Handed(e.input, outputs[c.socket])
  }

  /** One event and one entry for each connection that fires, and no others. */
  ghost predicate Passes(m: Machine, n: Node, fs: seq<Conn>, outputs: seq<seq<Json>>, r: Machine) {
    && |r.events| == |m.events| + |fs| && m.events <= r.events && |r.stack| == |m.stack| + |fs| && m.stack <= r.stack
    && (forall k :: 0 <= k < |fs| ==> PassedOn(fs[k], n, outputs, r.events[|m.events| + k], r.stack[|m.stack| + k], |m.events| + k))
  }

  lemma PassesFirst(m: Machine, n: Node, c: Conn, fs: seq<Conn>, outputs: seq<seq<Json>>, r: Machine)
    requires Fires(c, outputs) && Passes(RouteOne(m, n, c, outputs), n, fs, outputs, r)
    ensures Passes(m, n, [c] + fs, outputs, r)
  {
    var m1 := RouteOne(m, n, c, outputs);
    var all := [c] + fs;
    forall k | 0 <= k < |all| ensures PassedOn(all[k], n, outputs, r.events[|m.events| + k], r.stack[|m.stack| + k], |m.events| + k) {
      if k == 0 {
        assert r.events[|m.events|] == m1.events[|m.events|] && r.stack[|m.stack|] == m1.stack[|m.stack|];
      } else {
        assert all[k] == fs[k - 1];
        assert PassedOn(fs[k - 1], n, outputs, r.events[|m1.events| + (k - 1)], r.stack[|m1.stack| + (k - 1)], |m1.events| + (k - 1));
      }
    }
  }

  lemma {:induction false} RoutePasses(m: Machine, n: Node, conns: seq<Conn>, outputs: seq<seq<Json>>)
    ensures Passes(m, n, Firing(conns, outputs), outputs, Route(m, n, conns, outputs))
    decreases |conns|
  {
    if conns != [] {
      var m1 := RouteOne(m, n, conns[0], outputs);
      RoutePasses(m1, n, conns[1..], outputs);
      if Fires(conns[0], outputs) {
        hide Passes;
        PassesFirst(m, n, conns[0], Firing(conns[1..], outputs), outputs, Route(m, n, conns, outputs));
        assert Firing(conns, outputs) == [conns[0]] + Firing(conns[1..], outputs);
      } else {
        assert Firing(conns, outputs) == Firing(conns[1..], outputs);
      }
    }
  }

  /** One turn, exactly: a disabled node is dropped; an unknown or failing one is recorded with its
      error and ends the run; any other is recorded with its own result and hands its data on. */
  ghost predicate TurnOf(wf: Workflow, run: Runner, m: Machine, s: Machine)
    requires Going(m)
  {
    var e, rest := m.stack[|m.stack| - 1], m.stack[..|m.stack| - 1];
    && s.iterations == m.iterations + 1
    && if e.node in wf.disabled then s == m.(stack := rest, iterations := s.iterations)
       else
         && s.order == m.order + [e] && e.node in s.results && s.results - {e.node} == m.results - {e.node}
         && if e.node !in wf.nodes || run(e.node, e.input, m.mem).Failure? then
              && s.failed && s.results[e.node].Failed? && s.stack == rest && s.events == m.events && s.mem == m.mem
              && (e.node in wf.nodes ==> s.results[e.node].error == run(e.node, e.input, m.mem).error)
            else
              var out := run(e.node, e.input, m.mem);
              && !s.failed && s.results[e.node] == Completed(out.json) && s.mem == out.mem
              && Passes(m.(stack := rest), e.node, Firing(Outgoing(wf, e.node), out.outputs), out.outputs, s)
  }

  lemma StepIsTurn(wf: Workflow, run: Runner, m: Machine)
    requires Going(m)
    ensures TurnOf(wf, run, m, Step(wf, run, m))
  {
    var e := m.stack[|m.stack| - 1];
    if Enabled(wf, e.node) && e.node in wf.nodes && run(e.node, e.input, m.mem).Success? {
      var out := run(e.node, e.input, m.mem);
      var m2 := Executed(Popped(m), e, out);
      RouteKeeps(m2, e.node, Outgoing(wf, e.node), out.outputs);
      RoutePasses(m2, e.node, Outgoing(wf, e.node), out.outputs);
      PassesSame(m2, m.(stack := m.stack[..|m.stack| - 1]), e.node, Firing(Outgoing(wf, e.node), out.outputs), out.outputs, Step(wf, run, m));
    }
  }

  lemma PassesSame(m: Machine, m': Machine, n: Node, fs: seq<Conn>, outputs: seq<seq<Json>>, r: Machine)
    requires Passes(m, n, fs, outputs, r) && m'.stack == m.stack && m'.events == m.events
    ensures Passes(m', n, fs, outputs, r)
  {
  }

  // ------------------------------------------------------------------ through whole runs

  /** `e` was handed on by `from`: some answer of the runner to `from` has its input on a socket
      from which a connection leads to its node. */
  ghost predicate HandedBy(wf: Workflow, run: Runner, from: Entry, e: Entry) { exists mem :: HandedWith(wf, run, from, e, mem) }

  ghost predicate HandedWith(wf: Workflow, run: Runner, from: Entry, e: Entry, mem: Memory) {
    && from.node in wf.nodes && run(from.node, from.input, mem).Success?
    && var outputs := run(from.node, from.input, mem).outputs;
       exists c :: c in wf.conns && c.source == Some(from.node) && c.target == Some(e.node) && Fires(c, outputs) && Handed(e.input, outputs[c.socket])
  }

  /** A start node with the launch data, or handed on by something executed before. */
  ghost predicate Fed(wf: Workflow, run: Runner, start: seq<Node>, input: Json, executed: seq<Entry>, e: Entry) {
    || (e.node in start && e.input == input)
    || exists i :: 0 <= i < |executed| && HandedBy(wf, run, executed[i], e)
  }

  ghost predicate AllFed(wf: Workflow, run: Runner, start: seq<Node>, input: Json, m: Machine) {
    && (forall i :: 0 <= i < |m.stack| ==> Fed(wf, run, start, input, m.order, m.stack[i]))
    && (forall j :: 0 <= j < |m.order| ==> Fed(wf, run, start, input, m.order[..j], m.order[j]))
  }

  lemma FedMore(wf: Workflow, run: Runner, start: seq<Node>, input: Json, a: seq<Entry>, b: seq<Entry>, e: Entry)
    requires Fed(wf, run, start, input, a, e) && a <= b
    ensures Fed(wf, run, start, input, b, e)
  {
    if i :| 0 <= i < |a| && HandedBy(wf, run, a[i], e) { assert b[i] == a[i]; }
  }

  lemma PassedIsFed(wf: Workflow, run: Runner, start: seq<Node>, input: Json, m: Machine, s: Machine, k: nat)
    requires Going(m) && TurnOf(wf, run, m, s) && |m.stack| - 1 <= k < |s.stack|
    ensures Fed(wf, run, start, input, s.order, s.stack[k])
  {
    var e := m.stack[|m.stack| - 1];
    var out := run(e.node, e.input, m.mem);
    var fs := Firing(Outgoing(wf, e.node), out.outputs);
    var c := fs[k - (|m.stack| - 1)];
    assert c in fs && c in Outgoing(wf, e.node);
    var d := k - (|m.stack| - 1);
    assert PassedOn(fs[d], e.node, out.outputs, s.events[|m.events| + d], s.stack[|m.stack| - 1 + d], |m.events| + d);
    assert HandedWith(wf, run, e, s.stack[k], m.mem);
    assert s.order[|m.order|] == e && HandedBy(wf, run, s.order[|m.order|], s.stack[k]);
  }

  lemma StepFed(wf: Workflow, run: Runner, start: seq<Node>, input: Json, m: Machine)
    requires Going(m) && AllFed(wf, run, start, input, m)
    ensures AllFed(wf, run, start, input, Step(wf, run, m))
  {
    var s := Step(wf, run, m);
    StepIsTurn(wf, run, m);
    StepCounts(wf, run, m);
    TurnStacks(wf, run, m, s);
    hide Step;
    forall i | 0 <= i < |s.stack| ensures Fed(wf, run, start, input, s.order, s.stack[i]) {
      if i < |m.stack| - 1 { FedMore(wf, run, start, input, m.order, s.order, m.stack[i]); }
      else { PassedIsFed(wf, run, start, input, m, s, i); }
    }
    hide TurnOf;
    forall j | 0 <= j < |s.order| ensures Fed(wf, run, start, input, s.order[..j], s.order[j]) {
      if j < |m.order| { assert s.order[..j] == m.order[..j] && s.order[j] == m.order[j]; }
      else { assert s.order[..j] == m.order; }
    }
  }

  lemma TurnStacks(wf: Workflow, run: Runner, m: Machine, s: Machine)
    requires Going(m) && TurnOf(wf, run, m, s)
    ensures m.stack[..|m.stack| - 1] <= s.stack && (s.order == m.order || s.order == m.order + [m.stack[|m.stack| - 1]])
  {
  }

  lemma {:induction false} AfterFed(wf: Workflow, run: Runner, start: seq<Node>, input: Json, m: Machine, k: nat)
    requires AllFed(wf, run, start, input, m)
    ensures AllFed(wf, run, start, input, After(wf, run, m, k))
    decreases k
  {
    hide AllFed, Step;
    if k > 0 && Going(m) {
      StepFed(wf, run, start, input, m);
      AfterFed(wf, run, start, input, Step(wf, run, m), k - 1);
    }
  }

  /** In every run, every execution has as its input the launch data, at a start node, or exactly
      what an earlier execution put out on the socket of a connection to its node. */
  lemma RunFed(wf: Workflow, run: Runner, start: seq<Node>, input: Json, mem: Memory, k: nat)
    ensures AllFed(wf, run, start, input, After(wf, run, Launch(start, input, mem), k))
  {
    var m := Launch(start, input, mem);
    assert forall i :: 0 <= i < |m.stack| ==> m.stack[i] == Entry(start[i], input);
    AfterFed(wf, run, start, input, m, k);
  }
}
