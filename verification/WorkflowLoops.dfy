/**
 Loop node and stack machine together: one activation of a loop whose body is a line of nodes
 that leads back to it.
 */
module WorkflowLoops {
  import opened Options
  import opened WorkflowMachine
  import opened LoopNode

  // --------------------------------------------------------------------------- the setting

  /** The connections that have a target and start at socket `s`. */
  function OnSocket(conns: seq<Conn>, s: nat): seq<Conn> {
    if conns == [] then []
    else if conns[0].target.Some? && conns[0].socket == s then [conns[0]] + OnSocket(conns[1..], s)
    else OnSocket(conns[1..], s)
  }

  /** What is pushed when `v` goes out on all of `conns`. */
  function Pushed(conns: seq<Conn>, v: Json): seq<Entry> {
    if conns == [] then []
    else (if conns[0].target.Some? then [Entry(conns[0].target.value, v)] else []) + Pushed(conns[1..], v)
  }

  /** The `j`-th node of the body, and after the last one the loop node again. */
  function RingAt(loop: Node, body: seq<Node>, j: nat): Node { if j < |body| then body[j] else loop }

  predicate Runnable(wf: Workflow, n: Node) { Enabled(wf, n) && n in wf.nodes }

  /** A body node leads on to the next one only, always has output for it and leaves the state
      of the loop alone. */
  ghost predicate BodyNode(wf: Workflow, run: Runner, loop: Node, n: Node, next: Node) {
    && Runnable(wf, n) && |Outgoing(wf, n)| == 1 && Outgoing(wf, n)[0].target == Some(next)
    && forall v, mem :: PassesOn(run(n, v, mem), Outgoing(wf, n)[0], loop, mem)
  }

  predicate PassesOn(out: Outcome, c: Conn, loop: Node, mem: Memory) {
    && out.Success? && Carries(c, out.outputs)
    && (loop in mem.loops ==> loop in out.mem.loops && out.mem.loops[loop] == mem.loops[loop])
  }

  ghost predicate LinearLoop(wf: Workflow, run: Runner, cfg: LoopConfig, loop: Node, body: seq<Node>) {
    && Runnable(wf, loop)
    && (forall v, mem :: run(loop, v, mem) == RunLoop(cfg, loop, v, mem))
    && |OnSocket(Outgoing(wf, loop), 1)| == 1
    && OnSocket(Outgoing(wf, loop), 1)[0].target == Some(RingAt(loop, body, 0))
    && (forall j :: 0 <= j < |body| ==> BodyNode(wf, run, loop, body[j], RingAt(loop, body, j + 1)))
  }

  // ----------------------------------------------------------------------------- routing

  /** If only socket `s` has output, exactly the connections of that socket are followed. */
  lemma {:induction false} RouteSocket(m: Machine, n: Node, conns: seq<Conn>, outputs: seq<seq<Json>>, s: nat)
    requires s < |outputs| && outputs[s] != [] && forall t :: 0 <= t < |outputs| && t != s ==> outputs[t] == []
    ensures Route(m, n, conns, outputs).stack == m.stack + Pushed(OnSocket(conns, s), Unwrap(outputs[s]))
    decreases |conns|
  {
    if conns != [] { RouteSocket(RouteOne(m, n, conns[0], outputs), n, conns[1..], outputs, s); }
  }

  // --------------------------------------------------------------- turns above the rest

  /** For `k` turns the entries `rest` stay where they are. */
  ghost predicate Within(wf: Workflow, run: Runner, rest: seq<Entry>, m: Machine, k: nat) {
    forall j: nat :: j <= k ==> rest <= After(wf, run, m, j).stack
  }

  /** From `m` to `r` exactly `es` are executed, one per turn, without touching `rest`. */
  ghost predicate Ran(wf: Workflow, run: Runner, rest: seq<Entry>, m: Machine, es: seq<Entry>, r: Machine) {
    && r == After(wf, run, m, |es|) && r.order == m.order + es && r.iterations == m.iterations + |es| && !r.failed
    && Within(wf, run, rest, m, |es|)
  }

  lemma RanMore(wf: Workflow, run: Runner, rest: seq<Entry>, m: Machine, es: seq<Entry>, r: Machine, fs: seq<Entry>, q: Machine)
    requires Ran(wf, run, rest, m, es, r) && Ran(wf, run, rest, r, fs, q)
    ensures Ran(wf, run, rest, m, es + fs, q)
  {
    hide After;
    AfterMore(wf, run, m, |es|, |fs|);
    forall j: nat | j <= |es + fs| ensures rest <= After(wf, run, m, j).stack {
      if j > |es| {
        AfterMore(wf, run, m, |es|, j - |es|);
        assert rest <= After(wf, run, r, j - |es|).stack;
      }
    }
    assert m.order + es + fs == m.order + (es + fs);
  }

  lemma RanNone(wf: Workflow, run: Runner, rest: seq<Entry>, m: Machine)
    requires !m.failed && rest <= m.stack
    ensures Ran(wf, run, rest, m, [], m)
  {
    assert m.order + [] == m.order;
  }

  /** Only socket `s` has output. */
  predicate OnlyOn(out: Outcome, s: nat) {
    && out.Success? && s < |out.outputs| && out.outputs[s] != []
    && forall t :: 0 <= t < |out.outputs| && t != s ==> out.outputs[t] == []
  }

  /** One turn of a node that runs and has output on one socket only. */
  lemma RanOne(wf: Workflow, run: Runner, rest: seq<Entry>, m: Machine, e: Entry, out: Outcome, s: nat) returns (r: Machine)
    requires m.stack == rest + [e] && !m.failed && Runnable(wf, e.node)
    requires out == run(e.node, e.input, m.mem) && OnlyOn(out, s)
    ensures Ran(wf, run, rest, m, [e], r) && r.mem == out.mem && !r.failed
    ensures r.stack == rest + Pushed(OnSocket(Outgoing(wf, e.node), s), Unwrap(out.outputs[s]))
  {
    var m2 := Executed(Popped(m), e, out);
    r := Step(wf, run, m);
    assert Popped(m).stack == rest;
    RouteKeeps(m2, e.node, Outgoing(wf, e.node), out.outputs);
    RouteSocket(m2, e.node, Outgoing(wf, e.node), out.outputs, s);
    RanStep(wf, run, rest, m, e, r);
  }

  lemma RanStep(wf: Workflow, run: Runner, rest: seq<Entry>, m: Machine, e: Entry, r: Machine)
    requires Going(m) && r == Step(wf, run, m) && rest <= m.stack && rest <= r.stack && !r.failed
    requires r.order == m.order + [e] && r.iterations == m.iterations + 1
    ensures Ran(wf, run, rest, m, [e], r)
  {
    hide Step;
    assert After(wf, run, m, 0) == m;
    assert After(wf, run, m, 1) == r by { assert After(wf, run, r, 0) == r; }
    forall j: nat | j <= 1 ensures rest <= After(wf, run, m, j).stack { assert j == 0 || j == 1; }
  }

  /** One turn of a node with a single outgoing connection that carries data. */
  lemma RanSingle(wf: Workflow, run: Runner, rest: seq<Entry>, m: Machine, e: Entry, c: Conn) returns (r: Machine)
    requires m.stack == rest + [e] && !m.failed && Runnable(wf, e.node) && Outgoing(wf, e.node) == [c]
    requires var out := run(e.node, e.input, m.mem); out.Success? && Carries(c, out.outputs)
    ensures Ran(wf, run, rest, m, [e], r) && r.mem == run(e.node, e.input, m.mem).mem && !r.failed
    ensures r.stack == rest + [Entry(c.target.value, Unwrap(run(e.node, e.input, m.mem).outputs[c.socket]))]
  {
    var out := run(e.node, e.input, m.mem);
    var m2 := Executed(Popped(m), e, out);
    r := Step(wf, run, m);
    assert Popped(m).stack == rest;
    RouteKeeps(m2, e.node, [c], out.outputs);
    assert Route(m2, e.node, [c], out.outputs) == Route(RouteOne(m2, e.node, c, out.outputs), e.node, [], out.outputs);
    RanStep(wf, run, rest, m, e, r);
  }

  // ------------------------------------------------------------------------------- rounds

  /** The loop is next, with its state `st`. */
  predicate AtLoop(m: Machine, rest: seq<Entry>, loop: Node, st: LoopState) {
    && |m.stack| == |rest| + 1 && m.stack[..|rest|] == rest && m.stack[|rest|].node == loop
    && loop in m.mem.loops && m.mem.loops[loop] == st && !m.failed
  }

  predicate Nodes(es: seq<Entry>, nodes: seq<Node>) {
    |es| == |nodes| && forall i :: 0 <= i < |es| ==> es[i].node == nodes[i]
  }

  lemma BodyRuns(wf: Workflow, run: Runner, cfg: LoopConfig, loop: Node, body: seq<Node>, j: nat, v: Json, mem: Memory) returns (c: Conn)
    requires LinearLoop(wf, run, cfg, loop, body) && j < |body|
    ensures Runnable(wf, body[j]) && Outgoing(wf, body[j]) == [c] && c.target == Some(RingAt(loop, body, j + 1))
    ensures PassesOn(run(body[j], v, mem), c, loop, mem)
  {
    assert BodyNode(wf, run, loop, body[j], RingAt(loop, body, j + 1));
    c := Outgoing(wf, body[j])[0];
  }

  /** Through the body from its `j`-th node back to the loop. */
  lemma {:induction false} BodyPass(wf: Workflow, run: Runner, cfg: LoopConfig, loop: Node, body: seq<Node>, rest: seq<Entry>, m: Machine, j: nat, v: Json)
    returns (es: seq<Entry>, r: Machine)
    requires LinearLoop(wf, run, cfg, loop, body) && j <= |body| && loop in m.mem.loops && !m.failed
    requires m.stack == rest + [Entry(RingAt(loop, body, j), v)]
    ensures Ran(wf, run, rest, m, es, r) && Nodes(es, body[j..]) && AtLoop(r, rest, loop, m.mem.loops[loop])
    ensures es == [] ==> r == m
    ensures es != [] ==> es[0] == Entry(RingAt(loop, body, j), v)
    decreases |body| - j
  {
    if j == |body| {
      es, r := [], m;
      RanNone(wf, run, rest, m);
    } else {
      var e := Entry(body[j], v);
      var c := BodyRuns(wf, run, cfg, loop, body, j, v, m.mem);
      hide Ran, LinearLoop, Outgoing, Unwrap;
      var m1 := RanSingle(wf, run, rest, m, e, c);
      hide AtLoop, Nodes, Runnable;
      var fs;
      fs, r := BodyPass(wf, run, cfg, loop, body, rest, m1, j + 1, Unwrap(run(e.node, e.input, m.mem).outputs[c.socket]));
      RanMore(wf, run, rest, m, [e], m1, fs, r);
      es := [e] + fs;
      NodesMore(e, fs, body, j);
    }
  }

  lemma NodesMore(e: Entry, fs: seq<Entry>, body: seq<Node>, j: nat)
    requires j < |body| && e.node == body[j] && Nodes(fs, body[j + 1..])
    ensures Nodes([e] + fs, body[j..])
  {
    assert body[j..] == [body[j]] + body[j + 1..];
  }

  /** A linear loop, as far as the loop node itself is concerned. */
  lemma LoopRuns(wf: Workflow, run: Runner, cfg: LoopConfig, loop: Node, body: seq<Node>, v: Json, mem: Memory)
    requires LinearLoop(wf, run, cfg, loop, body)
    ensures Runnable(wf, loop) && run(loop, v, mem) == RunLoop(cfg, loop, v, mem)
  {
  }

  lemma LoopPushes(wf: Workflow, run: Runner, cfg: LoopConfig, loop: Node, body: seq<Node>, v: Json)
    requires LinearLoop(wf, run, cfg, loop, body)
    ensures Pushed(OnSocket(Outgoing(wf, loop), 1), v) == [Entry(RingAt(loop, body, 0), v)]
  {
    PushedOne(OnSocket(Outgoing(wf, loop), 1), v);
  }

  lemma PushedOne(conns: seq<Conn>, v: Json)
    requires |conns| == 1 && conns[0].target.Some?
    ensures Pushed(conns, v) == [Entry(conns[0].target.value, v)]
  {
    assert Pushed(conns[1..], v) == [];
  }

  /** `es` goes through the body and back to the loop, and begins with the batch. */
  predicate Round(loop: Node, body: seq<Node>, es: seq<Entry>, batch: seq<Json>) {
    Nodes(es, body + [loop]) && Handed(es[0].input, batch)
  }

  /** One round for each batch. */
  ghost predicate Rounds(loop: Node, body: seq<Node>, es: seq<Entry>, batches: seq<seq<Json>>)
    decreases |batches|
  {
    if batches == [] then es == []
    else
      && |es| >= |body| + 1 && Round(loop, body, es[..|body| + 1], batches[0])
      && Rounds(loop, body, es[|body| + 1..], batches[1..])
  }

  lemma RoundsBegin(loop: Node, body: seq<Node>, es: seq<Entry>, fs: seq<Entry>, batch: seq<Json>, batches: seq<seq<Json>>)
    requires Round(loop, body, es, batch) && Rounds(loop, body, fs, batches)
    ensures Rounds(loop, body, es + fs, [batch] + batches)
  {
    var all := es + fs;
    assert all[..|body| + 1] == es;
    assert all[|body| + 1..] == fs;
    assert ([batch] + batches)[1..] == batches;
  }

  /** What the loop leaves behind: another batch on its way, or the list of all batches. */
  ghost predicate HandsOn(wf: Workflow, loop: Node, body: seq<Node>, rest: seq<Entry>, r: Machine, st: LoopState) {
    if st.index < |st.items| then
      && loop in r.mem.loops && r.mem.loops[loop] == st && !r.failed
      && r.stack == rest + [Entry(RingAt(loop, body, 0), Batch(st))]
    else r.stack == rest + Pushed(OnSocket(Outgoing(wf, loop), 0), List(st.processed))
  }

  /** The loop's own turn. */
  lemma LoopTurn(wf: Workflow, run: Runner, cfg: LoopConfig, loop: Node, body: seq<Node>, rest: seq<Entry>, m: Machine, st: LoopState)
    returns (e: Entry, r: Machine)
    requires LinearLoop(wf, run, cfg, loop, body) && AtLoop(m, rest, loop, st)
    ensures e == m.stack[|rest|] && e.node == loop && Ran(wf, run, rest, m, [e], r) && !r.failed
    ensures HandsOn(wf, loop, body, rest, r, Advanced(st))
  {
    e := m.stack[|rest|];
    assert m.stack == rest + [e];
    var st', out := Advanced(st), ContinueLoop(loop, st, m.mem);
    LoopRuns(wf, run, cfg, loop, body, e.input, m.mem);
    ContinueGives(loop, st, m.mem);
    LoopPushes(wf, run, cfg, loop, body, Batch(st'));
    assert run(loop, e.input, m.mem) == out;
    hide LinearLoop, Ran, Batch, OnSocket, Pushed, Outgoing, Advanced, ContinueLoop, RunLoop, Unwrap, OnlyOn, HandsOn, Runnable, RingAt;
    var socket := if st'.index < |st'.items| then 1 else 0;
    r := RanOne(wf, run, rest, m, e, out, socket);
    HandsOnIs(wf, loop, body, rest, r, st');
  }

  lemma HandsOnIs(wf: Workflow, loop: Node, body: seq<Node>, rest: seq<Entry>, r: Machine, st: LoopState)
    requires loop in r.mem.loops && r.mem.loops[loop] == st && !r.failed
    requires Pushed(OnSocket(Outgoing(wf, loop), 1), Batch(st)) == [Entry(RingAt(loop, body, 0), Batch(st))]
    requires r.stack == rest + if st.index < |st.items| then Pushed(OnSocket(Outgoing(wf, loop), 1), Batch(st))
                               else Pushed(OnSocket(Outgoing(wf, loop), 0), List(st.processed))
    ensures HandsOn(wf, loop, body, rest, r, st)
  {
  }

  lemma ContinueGives(loop: Node, st: LoopState, mem: Memory)
    ensures var st', out := Advanced(st), ContinueLoop(loop, st, mem);
            && out.Success? && loop in out.mem.loops && out.mem.loops[loop] == st' && |out.outputs| == 2
            && (st'.index < |st'.items| ==> OnlyOn(out, 1) && Unwrap(out.outputs[1]) == Batch(st'))
            && (st'.index >= |st'.items| ==> OnlyOn(out, 0) && Unwrap(out.outputs[0]) == List(st'.processed))
  {
  }

  lemma OneRound(wf: Workflow, run: Runner, cfg: LoopConfig, loop: Node, body: seq<Node>, rest: seq<Entry>, m: Machine, st: LoopState)
    returns (es: seq<Entry>, r: Machine)
    requires LinearLoop(wf, run, cfg, loop, body) && !m.failed && HandsOn(wf, loop, body, rest, m, st) && st.index < |st.items|
    ensures Ran(wf, run, rest, m, es, r) && !r.failed && HandsOn(wf, loop, body, rest, r, Advanced(st))
    ensures Round(loop, body, es, Slice(st.items, st.index, st.batchSize))
  {
    hide LinearLoop;
    var pass, m1 := BodyPass(wf, run, cfg, loop, body, rest, m, 0, Batch(st));
    assert body[0..] == body;
    hide Ran;
    var e;
    e, r := LoopTurn(wf, run, cfg, loop, body, rest, m1, st);
    hide AtLoop, HandsOn;
    RanMore(wf, run, rest, m, pass, m1, [e], r);
    es := pass + [e];
  }

  /** All rounds from a batch just handed out to the end of the loop. */
  lemma {:induction false} AllRounds(wf: Workflow, run: Runner, cfg: LoopConfig, loop: Node, body: seq<Node>, rest: seq<Entry>, m: Machine, st: LoopState)
    returns (es: seq<Entry>, r: Machine)
    requires LinearLoop(wf, run, cfg, loop, body) && !m.failed && st.batchSize >= 1 && st.index < |st.items|
    requires HandsOn(wf, loop, body, rest, m, st)
    ensures Ran(wf, run, rest, m, es, r) && Rounds(loop, body, es, Batches(st.items, st.index, st.batchSize))
    ensures r.stack == rest + Pushed(OnSocket(Outgoing(wf, loop), 0), List(st.processed + Unwrapped(Batches(st.items, st.index, st.batchSize))))
    decreases |st.items| - st.index
  {
    hide LinearLoop, Ran, Round;
    var first, m1 := OneRound(wf, run, cfg, loop, body, rest, m, st);
    var batch := Slice(st.items, st.index, st.batchSize);
    var later := Batches(st.items, st.index + st.batchSize, st.batchSize);
    Accumulated(st);
    if st.index + st.batchSize < |st.items| {
      var fs;
      fs, r := AllRounds(wf, run, cfg, loop, body, rest, m1, Advanced(st));
      hide Rounds;
      RanMore(wf, run, rest, m, first, m1, fs, r);
      es := first + fs;
      RoundsBegin(loop, body, first, fs, batch, later);
    } else {
      es, r := first, m1;
      RoundsBegin(loop, body, first, [], batch, later);
      assert first + [] == first && later == [] && Advanced(st).processed + Unwrapped(later) == Advanced(st).processed;
    }
  }

  /** What is processed and what is still to come stay the same taken together. */
  lemma Accumulated(st: LoopState)
    requires st.batchSize >= 1 && st.index < |st.items|
    ensures var st' := Advanced(st);
            st'.processed + Unwrapped(Batches(st.items, st'.index, st.batchSize)) == st.processed + Unwrapped(Batches(st.items, st.index, st.batchSize))
  {
    UnwrappedFirst(Slice(st.items, st.index, st.batchSize), Batches(st.items, st.index + st.batchSize, st.batchSize));
  }

  lemma UnwrappedFirst(batch: seq<Json>, later: seq<seq<Json>>)
    ensures Unwrapped([batch] + later) == [Unwrap(batch)] + Unwrapped(later)
  {
  }

  lemma {:induction false} RoundsLength(loop: Node, body: seq<Node>, es: seq<Entry>, batches: seq<seq<Json>>)
    requires Rounds(loop, body, es, batches)
    ensures |es| == |batches| * (|body| + 1)
    decreases |batches|
  {
    if batches != [] {
      RoundsLength(loop, body, es[|body| + 1..], batches[1..]);
      assert |batches| * (|body| + 1) == (|batches| - 1) * (|body| + 1) + (|body| + 1);
    }
  }

  /** The items a loop finds: a list as it is, anything else but nothing as a single item. */
  predicate ItemsOf(found: Json, items: seq<Json>) {
    found == List(items) || (!found.List? && !found.Null? && items == [found])
  }

  /**
   One activation of a loop over a non-empty list of items: the items are cut into batches of
   the configured size, and the body runs once for each batch, in order and on that batch (the
   item itself if it is one, the list if they are several), before any entry lower on the stack;
   then the list of all batches goes out once on the done socket. It takes one turn for the
   start and, for each batch, one per body node and one for the loop.
   */
  lemma LoopActivation(wf: Workflow, run: Runner, cfg: LoopConfig, loop: Node, body: seq<Node>, rest: seq<Entry>, m: Machine, input: Json, found: Json,
                       items: seq<Json>)
    returns (batches: seq<seq<Json>>, all: seq<Json>, es: seq<Entry>, r: Machine)
    requires LinearLoop(wf, run, cfg, loop, body) && !m.failed && m.stack == rest + [Entry(loop, input)]
    requires loop !in m.mem.loops && cfg.resolve(input, m.mem) == Some(found) && ItemsOf(found, items) && items != []
    ensures var size := if cfg.batchSize == 0 then 1 else cfg.batchSize;
            && Cut(items, size, batches) && (|batches| - 1) * size < |items| <= |batches| * size
            && Ran(wf, run, rest, m, [Entry(loop, input)] + es, r) && Rounds(loop, body, es, batches)
            && |all| == |batches| && (forall i :: 0 <= i < |all| ==> Handed(all[i], batches[i]))
            && r.stack == rest + Pushed(OnSocket(Outgoing(wf, loop), 0), List(all))
            && r.iterations == m.iterations + 1 + |batches| * (|body| + 1)
  {
    hide LinearLoop, Ran, Rounds, Joined, HandsOn, RunLoop, OnSocket, Pushed, Outgoing;
    var e := Entry(loop, input);
    assert AsItems(found) == items;
    var st := LoopState(items, 0, BatchSize(cfg), []);
    batches := Batches(items, 0, BatchSize(cfg));
    all := Unwrapped(batches);
    var m1 := LoopStart(wf, run, cfg, loop, body, rest, m, input, found);
    es, r := AllRounds(wf, run, cfg, loop, body, rest, m1, st);
    assert [] + all == all;
    RanMore(wf, run, rest, m, [e], m1, es, r);
    RanTurns(wf, run, rest, m, [e] + es, r);
    RoundsLength(loop, body, es, batches);
    BatchesCut(items, 0, BatchSize(cfg));
    BatchesCount(items, 0, BatchSize(cfg));
    assert items[0..] == items;
  }

  /** A loop that finds nothing, or an empty list, takes one turn and pushes nothing. */
  lemma EmptyActivation(wf: Workflow, run: Runner, cfg: LoopConfig, loop: Node, body: seq<Node>, rest: seq<Entry>, m: Machine, input: Json, found: Json)
    requires LinearLoop(wf, run, cfg, loop, body) && !m.failed && m.stack == rest + [Entry(loop, input)]
    requires loop !in m.mem.loops && cfg.resolve(input, m.mem) == Some(found) && (found == Null || found == List([]))
    ensures var r := After(wf, run, m, 1); r.stack == rest && r.order == m.order + [Entry(loop, input)] && r.events == m.events && !r.failed
  {
    LoopRuns(wf, run, cfg, loop, body, input, m.mem);
    hide LinearLoop;
    var e := Entry(loop, input);
    var out := run(loop, input, m.mem);
    var m2 := Executed(Popped(m), e, out);
    assert out.outputs == [[], []] && Popped(m).stack == rest;
    RouteNothing(m2, loop, Outgoing(wf, loop), out.outputs);
    assert After(wf, run, m, 1) == After(wf, run, Step(wf, run, m), 0);
  }

  lemma {:induction false} RouteNothing(m: Machine, n: Node, conns: seq<Conn>, outputs: seq<seq<Json>>)
    requires forall t :: 0 <= t < |outputs| ==> outputs[t] == []
    ensures Route(m, n, conns, outputs) == m
    decreases |conns|
  {
    if conns != [] { RouteNothing(m, n, conns[1..], outputs); }
  }

  /** The first turn sets the loop up and hands out the first batch. */
  lemma LoopStart(wf: Workflow, run: Runner, cfg: LoopConfig, loop: Node, body: seq<Node>, rest: seq<Entry>, m: Machine, input: Json, found: Json)
    returns (r: Machine)
    requires LinearLoop(wf, run, cfg, loop, body) && !m.failed && m.stack == rest + [Entry(loop, input)]
    requires loop !in m.mem.loops && cfg.resolve(input, m.mem) == Some(found) && AsItems(found) != []
    ensures Ran(wf, run, rest, m, [Entry(loop, input)], r) && !r.failed
    ensures HandsOn(wf, loop, body, rest, r, LoopState(AsItems(found), 0, BatchSize(cfg), []))
  {
    var st := LoopState(AsItems(found), 0, BatchSize(cfg), []);
    LoopRuns(wf, run, cfg, loop, body, input, m.mem);
    LoopPushes(wf, run, cfg, loop, body, Batch(st));
    var out := InitLoop(cfg, loop, input, m.mem);
    assert OnlyOn(out, 1) && Unwrap(out.outputs[1]) == Batch(st) && out.mem.loops[loop] == st;
    hide LinearLoop, Ran, OnSocket, Pushed, Outgoing, Batch, InitLoop;
    r := RanOne(wf, run, rest, m, Entry(loop, input), out, 1);
  }

  lemma RanTurns(wf: Workflow, run: Runner, rest: seq<Entry>, m: Machine, es: seq<Entry>, r: Machine)
    requires Ran(wf, run, rest, m, es, r)
    ensures r.iterations == m.iterations + |es|
  {
  }
}
