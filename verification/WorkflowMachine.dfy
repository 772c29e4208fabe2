/**
 The stack machine that runs a workflow: nodes are taken from the top of a stack, run, and their
 outputs pushed along the connections that carry data.
 */
module WorkflowMachine {
  import opened Options

  type Node = nat

  datatype Json = Null | Num(n: int) | Text(s: string) | List(items: seq<Json>) | Dict(entries: map<string, Json>)

  /** `socket` is the output index its source handle stands for, negative if it is unknown. */
  datatype Conn = Conn(id: nat, source: Option<Node>, socket: int, target: Option<Node>)

  datatype Workflow = Workflow(nodes: seq<Node>, disabled: set<Node>, conns: seq<Conn>)

  /** What a loop node keeps between its runs. */
  datatype LoopState = LoopState(items: seq<Json>, index: nat, batchSize: nat, processed: seq<Json>)

  /** What runners keep between runs: the state of each loop node, and all other variables. */
  datatype Memory = Memory(loops: map<Node, LoopState>, vars: Json)

  datatype Outcome = Success(outputs: seq<seq<Json>>, json: Json, mem: Memory) | Failure(error: string)

  /** All runners together, as one deterministic function. */
  type Runner = (Node, Json, Memory) -> Outcome

  datatype Entry = Entry(node: Node, input: Json)

  datatype Event = Event(connection: nat, source: Node, target: Node, index: nat, sequence: nat)

  datatype Result = Completed(json: Json) | Failed(error: string)

  /** The top of the stack is its last entry. `order` also records the input of each execution. */
  datatype Machine = Machine(
    stack: seq<Entry>, results: map<Node, Result>, order: seq<Entry>, events: seq<Event>, mem: Memory,
    iterations: nat, failed: bool)

  // ------------------------------------------------------------------------------- graph

  /** The connections that leave `n`, in the order they are listed. */
  function Leaving(conns: seq<Conn>, n: Node): (r: seq<Conn>)
    ensures forall c :: c in r <==> c in conns && c.source == Some(n)
  {
    if conns == [] then []
    else if conns[0].source == Some(n) then [conns[0]] + Leaving(conns[1..], n)
    else Leaving(conns[1..], n)
  }

  function Outgoing(wf: Workflow, n: Node): seq<Conn> { Leaving(wf.conns, n) }

  predicate Enabled(wf: Workflow, n: Node) { n !in wf.disabled }

  // ----------------------------------------------------------------------------- routing

  /** A connection carries data if its target is set and its socket has any output. */
  predicate Carries(c: Conn, outputs: seq<seq<Json>>) {
    c.target.Some? && 0 <= c.socket < |outputs| && outputs[c.socket] != []
  }

  /** A single item is passed on as such, several as a list. */
  function Unwrap(items: seq<Json>): Json { if |items| == 1 then items[0] else List(items) }

  /** What is handed on when a socket has these items, independently of how it is computed. */
  predicate Handed(input: Json, items: seq<Json>) {
    (|items| == 1 ==> input == items[0]) && (|items| != 1 ==> input == List(items))
  }

  function RouteOne(m: Machine, n: Node, c: Conn, outputs: seq<seq<Json>>): Machine {
    if Carries(c, outputs) then
      m.(events := m.events + [Event(c.id, n, c.target.value, c.socket, |m.events|)],
         stack := m.stack + [Entry(c.target.value, Unwrap(outputs[c.socket]))])
    else m
  }

  function Route(m: Machine, n: Node, conns: seq<Conn>, outputs: seq<seq<Json>>): Machine
    decreases |conns|
  {
    if conns == [] then m else Route(RouteOne(m, n, conns[0], outputs), n, conns[1..], outputs)
  }

  // ------------------------------------------------------------------------------- steps

  function RunNode(wf: Workflow, run: Runner, n: Node, input: Json, mem: Memory): Outcome {
    if n in wf.nodes then run(n, input, mem) else Failure("Node not found")
  }

  predicate Going(m: Machine) { m.stack != [] && !m.failed }

  function Popped(m: Machine): Machine
    requires m.stack != []
  {
    m.(stack := m.stack[..|m.stack| - 1], iterations := m.iterations + 1)
  }

  /** A node has been run: its result is stored and the execution recorded, nothing is routed yet. */
  function Executed(m: Machine, e: Entry, out: Outcome): Machine {
    match out
    case Success(_, json, mem) =>
      m.(results := m.results[e.node := Completed(json)], order := m.order + [e], mem := mem)
    case Failure(error) =>
      m.(results := m.results[e.node := Failed(error)], order := m.order + [e], failed := true)
  }

  /** One turn of the loop of `execute`. */
  function Step(wf: Workflow, run: Runner, m: Machine): Machine
    requires Going(m)
  {
    var e := m.stack[|m.stack| - 1];
    var m1 := Popped(m);
    if !Enabled(wf, e.node) then m1
    else
      var out := RunNode(wf, run, e.node, e.input, m.mem);
      var m2 := Executed(m1, e, out);
      if out.Failure? then m2 else Route(m2, e.node, Outgoing(wf, e.node), out.outputs)
  }

  /** The machine after at most `k` turns. */
  function After(wf: Workflow, run: Runner, m: Machine, k: nat): Machine
    decreases k
  {
    if k == 0 || !Going(m) then m else After(wf, run, Step(wf, run, m), k - 1)
  }

  function Entries(start: seq<Node>, input: Json): seq<Entry> { seq(|start|, i requires 0 <= i < |start| => Entry(start[i], input)) }

  function Launch(start: seq<Node>, input: Json, mem: Memory): Machine {
    Machine(Entries(start, input), map[], [], [], mem, 0, false)
  }

  // ------------------------------------------------------------------- turns put together

  lemma {:induction false} AfterMore(wf: Workflow, run: Runner, m: Machine, j: nat, k: nat)
    ensures After(wf, run, m, j + k) == After(wf, run, After(wf, run, m, j), k)
    decreases j
  {
    if j > 0 && Going(m) { AfterMore(wf, run, Step(wf, run, m), j - 1, k); }
  }

  lemma AfterNext(wf: Workflow, run: Runner, m: Machine, k: nat)
    ensures var m' := After(wf, run, m, k); After(wf, run, m, k + 1) == if Going(m') then Step(wf, run, m') else m'
  {
    AfterMore(wf, run, m, k, 1);
  }

  lemma {:induction false} RouteKeeps(m: Machine, n: Node, conns: seq<Conn>, outputs: seq<seq<Json>>)
    ensures var r := Route(m, n, conns, outputs);
            && r.results == m.results && r.order == m.order && r.mem == m.mem && r.iterations == m.iterations
            && r.failed == m.failed && m.stack <= r.stack && m.events <= r.events
            && |r.stack| - |m.stack| == |r.events| - |m.events|
    decreases |conns|
  {
    if conns != [] { RouteKeeps(RouteOne(m, n, conns[0], outputs), n, conns[1..], outputs); }
  }

  lemma StepCounts(wf: Workflow, run: Runner, m: Machine)
    requires Going(m)
    ensures var s := Step(wf, run, m); s.iterations == m.iterations + 1 && m.order <= s.order && m.events <= s.events
  {
    var e := m.stack[|m.stack| - 1];
    var out := RunNode(wf, run, e.node, e.input, m.mem);
    if Enabled(wf, e.node) && out.Success? { RouteKeeps(Executed(Popped(m), e, out), e.node, Outgoing(wf, e.node), out.outputs); }
  }

  lemma {:induction false} AfterCounts(wf: Workflow, run: Runner, m: Machine, k: nat)
    ensures var s := After(wf, run, m, k);
            && s.iterations <= m.iterations + k && (Going(s) ==> s.iterations == m.iterations + k)
            && m.order <= s.order && m.events <= s.events
    decreases k
  {
    if k > 0 && Going(m) {
      StepCounts(wf, run, m);
      AfterCounts(wf, run, Step(wf, run, m), k - 1);
    }
  }
}
