/**
 How a run ends, for the full execution and for the preview that stops after a target node;
 and that the preview shows a prefix of the full execution.
 */
module WorkflowPreview {
  import opened JobGraph
  import opened WorkflowMachine
  import opened WorkflowTermination

  const MAX_ITERATIONS := 1000

  datatype Verdict = Completes | NoStartNodes | NodeFails | TooManyIterations | TargetNotReached

  /** The state in which `execute` leaves its loop. */
  function Final(wf: Workflow, run: Runner, start: seq<Node>, input: Json, mem: Memory): Machine {
    After(wf, run, Launch(start, input, mem), MAX_ITERATIONS)
  }

  /** A failing node is reported at once; the number of turns is looked at when the loop is left. */
  function ExecuteVerdict(start: seq<Node>, m: Machine): Verdict {
    if start == [] then NoStartNodes
    else if m.failed then NodeFails
    else if m.iterations >= MAX_ITERATIONS then TooManyIterations
    else Completes
  }

  /** If there are fewer ways through the workflow than turns allowed, the limit is never met. */
  lemma AcyclicNeverTooMany(wf: Workflow, run: Runner, start: seq<Node>, input: Json, mem: Memory)
    requires Acyclic(Flow(wf)) && WaysFrom(wf, start) <= 999
    ensures ExecuteVerdict(start, Final(wf, run, start, input, mem)) != TooManyIterations
    ensures !Going(Final(wf, run, start, input, mem))
  {
    AcyclicRunEnds(wf, run, start, input, mem, MAX_ITERATIONS);
  }

  /** The run completes exactly when the stack runs empty before the last turn allowed. */
  lemma CompletesExactlyWhen(wf: Workflow, run: Runner, start: seq<Node>, input: Json, mem: Memory)
    ensures ExecuteVerdict(start, Final(wf, run, start, input, mem)) == Completes <==>
            start != [] && exists k :: 0 <= k < 1000 && Empties(wf, run, start, input, mem, k)
  {
    var m0 := Launch(start, input, mem);
    var m := Final(wf, run, start, input, mem);
    AfterCounts(wf, run, m0, MAX_ITERATIONS);
    hide After;
    if ExecuteVerdict(start, m) == Completes {
      AfterSettles(wf, run, m0, MAX_ITERATIONS);
      assert Empties(wf, run, start, input, mem, m.iterations);
    }
    if k :| 0 <= k < MAX_ITERATIONS && Empties(wf, run, start, input, mem, k) {
      AfterMore(wf, run, m0, k, MAX_ITERATIONS - k);
      AfterStays(wf, run, After(wf, run, m0, k), MAX_ITERATIONS - k);
      AfterCounts(wf, run, m0, k);
    }
  }

  /** It fails exactly when one of the turns allowed fails. */
  lemma FailsExactlyWhen(wf: Workflow, run: Runner, start: seq<Node>, input: Json, mem: Memory)
    ensures ExecuteVerdict(start, Final(wf, run, start, input, mem)) == NodeFails <==>
            start != [] && exists k :: 0 <= k <= 1000 && FailsBy(wf, run, Launch(start, input, mem), k)
  {
    var m0 := Launch(start, input, mem);
    if k :| 0 <= k <= 1000 && FailsBy(wf, run, m0, k) { FurtherOn(wf, run, m0, k, MAX_ITERATIONS); }
    assert Final(wf, run, start, input, mem).failed ==> FailsBy(wf, run, m0, 1000);
  }

  ghost predicate FailsBy(wf: Workflow, run: Runner, m: Machine, k: nat) { After(wf, run, m, k).failed }

  ghost predicate Empties(wf: Workflow, run: Runner, start: seq<Node>, input: Json, mem: Memory, k: nat) {
    var m := After(wf, run, Launch(start, input, mem), k); m.stack == [] && !m.failed
  }

  lemma AfterStays(wf: Workflow, run: Runner, m: Machine, k: nat)
    requires !Going(m)
    ensures After(wf, run, m, k) == m
  {
  }

  /** A state that is reached within `k` turns is reached after as many turns as it has counted. */
  lemma {:induction false} AfterSettles(wf: Workflow, run: Runner, m: Machine, k: nat)
    ensures var r := After(wf, run, m, k); m.iterations <= r.iterations && After(wf, run, m, r.iterations - m.iterations) == r
    decreases k
  {
    if k > 0 && Going(m) {
      StepCounts(wf, run, m);
      var s := Step(wf, run, m);
      AfterSettles(wf, run, s, k - 1);
    }
  }

  /** Later states execute more, and a failed one stays. */
  lemma FurtherOn(wf: Workflow, run: Runner, m: Machine, k: nat, n: nat)
    requires k <= n
    ensures After(wf, run, m, k).order <= After(wf, run, m, n).order
    ensures After(wf, run, m, k).failed ==> After(wf, run, m, n) == After(wf, run, m, k)
  {
    hide After;
    AfterMore(wf, run, m, k, n - k);
    AfterCounts(wf, run, After(wf, run, m, k), n - k);
    if After(wf, run, m, k).failed { AfterStays(wf, run, After(wf, run, m, k), n - k); }
  }

  // ------------------------------------------------------------------------------ preview

  datatype Preview = Preview(m: Machine, reached: bool)

  /** One turn of the loop of `execute_until`: the target is run, but not routed. */
  function PreviewStep(wf: Workflow, run: Runner, target: Node, m: Machine): Preview
    requires Going(m)
  {
    var e := m.stack[|m.stack| - 1];
    var m1 := Popped(m);
    if !Enabled(wf, e.node) then Preview(m1, false)
    else
      var out := RunNode(wf, run, e.node, e.input, m.mem);
      var m2 := Executed(m1, e, out);
      if out.Failure? then Preview(m2, false)
      else if e.node == target then Preview(m2, true)
      else Preview(Route(m2, e.node, Outgoing(wf, e.node), out.outputs), false)
  }

  function PreviewAfter(wf: Workflow, run: Runner, target: Node, p: Preview, k: nat): Preview
    decreases k
  {
    if k == 0 || p.reached || !Going(p.m) then p
    else PreviewAfter(wf, run, target, PreviewStep(wf, run, target, p.m), k - 1)
  }

  function PreviewVerdict(p: Preview, cap: nat): Verdict {
    if p.m.iterations >= cap then TooManyIterations
    else if p.m.failed then NodeFails
    else if p.reached then Completes
    else TargetNotReached
  }

  predicate SameSoFar(m: Machine, full: Machine) {
    m.order == full.order && m.results == full.results && m.mem == full.mem && m.iterations == full.iterations && m.failed == full.failed
  }

  predicate Absent(target: Node, order: seq<Entry>) { forall i :: 0 <= i < |order| ==> order[i].node != target }

  /** After `base` the target is executed at most once, and then last. */
  predicate StopsAt(target: Node, base: seq<Entry>, p: Preview) {
    && base <= p.m.order && !(p.reached && p.m.failed)
    && (p.reached || p.m.failed ==> |p.m.order| > |base| && Absent(target, p.m.order[|base|..|p.m.order| - 1]))
    && (p.reached ==> p.m.order[|p.m.order| - 1].node == target)
    && (!p.reached && !p.m.failed ==> Absent(target, p.m.order[|base|..]))
  }

  /** What a preview has to do with the full machine that started from the same state. */
  ghost predicate Follows(wf: Workflow, run: Runner, m: Machine, p: Preview) {
    && m.iterations <= p.m.iterations
    && var k: nat := p.m.iterations - m.iterations;
    && SameSoFar(p.m, After(wf, run, m, k)) && (!p.reached ==> p.m == After(wf, run, m, k))
    && (p.reached ==> k > 0 && Unrouted(After(wf, run, m, k - 1), p.m))
  }

  /** The top entry is gone, and nothing was handed on. */
  predicate Unrouted(before: Machine, m: Machine) {
    before.stack != [] && m.stack == before.stack[..|before.stack| - 1] && m.events == before.events
  }

  lemma FirstTurn(wf: Workflow, run: Runner, target: Node, m: Machine)
    requires Going(m)
    ensures var p := PreviewStep(wf, run, target, m); var s := Step(wf, run, m);
            && SameSoFar(p.m, s) && (!p.reached ==> p.m == s) && s.iterations == m.iterations + 1
            && StopsAt(target, m.order, p) && (p.reached ==> Unrouted(m, p.m))
  {
    StepCounts(wf, run, m);
    var e := m.stack[|m.stack| - 1];
    var out := RunNode(wf, run, e.node, e.input, m.mem);
    if Enabled(wf, e.node) && out.Success? { RouteKeeps(Executed(Popped(m), e, out), e.node, Outgoing(wf, e.node), out.outputs); }
  }

  lemma {:induction false} PreviewFollows(wf: Workflow, run: Runner, target: Node, m: Machine, k: nat)
    requires !m.failed
    ensures var p := PreviewAfter(wf, run, target, Preview(m, false), k); Follows(wf, run, m, p) && StopsAt(target, m.order, p)
    decreases k
  {
    if k > 0 && Going(m) {
      FirstTurn(wf, run, target, m);
      var p := PreviewStep(wf, run, target, m);
      var s := Step(wf, run, m);
      hide PreviewStep, Step;
      AfterOne(wf, run, m, s);
      if !p.reached && !s.failed {
        var q := PreviewAfter(wf, run, target, p, k - 1);
        PreviewFollows(wf, run, target, s, k - 1);
        hide StopsAt;
        assert s.iterations <= q.m.iterations;
        var j: nat := q.m.iterations - s.iterations;
        assert After(wf, run, m, j + 1) == After(wf, run, s, j);
        if q.reached { assert After(wf, run, m, j - 1 + 1) == After(wf, run, s, j - 1); }
        hide After, SameSoFar, PreviewAfter;
        StopsOn(target, m.order, p, q);
      }
    }
  }

  lemma StopsOn(target: Node, base: seq<Entry>, p: Preview, q: Preview)
    requires StopsAt(target, base, p) && !p.reached && !p.m.failed && StopsAt(target, p.m.order, q)
    ensures StopsAt(target, base, q)
  {
    var fst := p.m.order;
    var last := if q.reached || q.m.failed then |q.m.order| - 1 else |q.m.order|;
    assert q.m.order[|base|..last] == fst[|base|..] + q.m.order[|fst|..last];
    assert q.m.order[|base|..] == fst[|base|..] + q.m.order[|fst|..];
    assert Absent(target, fst[|base|..]);
  }

  lemma AfterOne(wf: Workflow, run: Runner, m: Machine, s: Machine)
    requires Going(m) && s == Step(wf, run, m)
    ensures After(wf, run, m, 1) == s && forall k: nat :: After(wf, run, m, k + 1) == After(wf, run, s, k)
  {
  }

  /**
   When a preview returns, whether with the target's result or with that of a failing node, what
   it executed ends with the first execution of the target or with the failure, and order and
   results agree with the full machine's at that moment. It is the beginning of what the full
   run executes, or, if the preview was allowed more turns and took them, its continuation.
   */
  lemma PreviewIsPrefix(wf: Workflow, run: Runner, target: Node, start: seq<Node>, input: Json, mem: Memory, cap: nat)
    requires var p := PreviewAfter(wf, run, target, Preview(Launch(start, input, mem), false), cap);
             PreviewVerdict(p, cap) == Completes || PreviewVerdict(p, cap) == NodeFails
    ensures var p := PreviewAfter(wf, run, target, Preview(Launch(start, input, mem), false), cap);
            && p.m.order != [] && Absent(target, p.m.order[..|p.m.order| - 1])
            && (PreviewVerdict(p, cap) == Completes ==>
                  p.m.order[|p.m.order| - 1].node == target && p.m.iterations > 0
                  && Unrouted(After(wf, run, Launch(start, input, mem), p.m.iterations - 1), p.m))
            && SameSoFar(p.m, After(wf, run, Launch(start, input, mem), p.m.iterations))
            && (p.m.iterations <= MAX_ITERATIONS ==> p.m.order <= Final(wf, run, start, input, mem).order)
            && (p.m.iterations >= MAX_ITERATIONS ==> Final(wf, run, start, input, mem).order <= p.m.order)
            && (p.m.failed && p.m.iterations <= MAX_ITERATIONS ==> Final(wf, run, start, input, mem) == p.m)
  {
    var m := Launch(start, input, mem);
    var p := PreviewAfter(wf, run, target, Preview(m, false), cap);
    PreviewFollows(wf, run, target, m, cap);
    var k := p.m.iterations;
    assert p.m.order[0..|p.m.order| - 1] == p.m.order[..|p.m.order| - 1];
    hide PreviewAfter, After, Absent;
    if k <= MAX_ITERATIONS { FurtherOn(wf, run, m, k, MAX_ITERATIONS); }
    if k >= MAX_ITERATIONS { FurtherOn(wf, run, m, MAX_ITERATIONS, k); }
  }

  lemma {:induction false} PreviewReaches(wf: Workflow, run: Runner, target: Node, m: Machine, j: nat, k: nat)
    requires !m.failed && Absent(target, m.order) && j <= k
    requires var full := After(wf, run, m, j); !full.failed && !Absent(target, full.order)
    ensures var p := PreviewAfter(wf, run, target, Preview(m, false), k); p.reached && p.m.iterations <= m.iterations + j
    decreases j
  {
    assert j > 0 && Going(m);
    FirstTurn(wf, run, target, m);
    var p := PreviewStep(wf, run, target, m);
    var s := Step(wf, run, m);
    hide PreviewStep, Step;
    if !p.reached {
      assert p.m == s && m.order <= s.order;
      if !s.failed {
        assert s.order == m.order + s.order[|m.order|..];
        PreviewReaches(wf, run, target, s, j - 1, k - 1);
      }
    }
  }

  ghost predicate Executes(wf: Workflow, run: Runner, target: Node, m: Machine, j: nat) {
    var full := After(wf, run, m, j); !full.failed && !Absent(target, full.order)
  }

  /** A preview completes exactly when the full machine runs the target, and nothing has failed,
      before the preview's last turn. */
  lemma PreviewCompletesExactlyWhen(wf: Workflow, run: Runner, target: Node, start: seq<Node>, input: Json, mem: Memory, cap: nat)
    ensures var m := Launch(start, input, mem);
            PreviewVerdict(PreviewAfter(wf, run, target, Preview(m, false), cap), cap) == Completes <==>
            exists j: nat :: j < cap && Executes(wf, run, target, m, j)
  {
    var m := Launch(start, input, mem);
    var p := PreviewAfter(wf, run, target, Preview(m, false), cap);
    PreviewFollows(wf, run, target, m, cap);
    hide PreviewAfter, After;
    if PreviewVerdict(p, cap) == Completes { assert Executes(wf, run, target, m, p.m.iterations); }
    if j: nat :| j < cap && Executes(wf, run, target, m, j) { PreviewReaches(wf, run, target, m, j, cap); }
  }

  lemma {:induction false} FailedLonger(wf: Workflow, run: Runner, m: Machine, j: nat)
    requires !m.failed && After(wf, run, m, j).failed
    ensures m.order <= After(wf, run, m, j).order && |After(wf, run, m, j).order| > |m.order|
    decreases j
  {
    var s := Step(wf, run, m);
    StepCounts(wf, run, m);
    if !s.failed { FailedLonger(wf, run, s, j - 1); }
    else {
      FirstTurn(wf, run, 0, m);
      AfterStays(wf, run, s, j - 1);
    }
  }

  /** A failure by turn `j` with the target not executed before it. */
  ghost predicate FailsFirst(wf: Workflow, run: Runner, target: Node, m: Machine, base: nat, j: nat) {
    var full := After(wf, run, m, j); full.failed && base < |full.order| && Absent(target, full.order[base..|full.order| - 1])
  }

  lemma {:induction false} PreviewFailsToo(wf: Workflow, run: Runner, target: Node, m: Machine, j: nat, k: nat)
    requires !m.failed && j <= k && FailsFirst(wf, run, target, m, |m.order|, j)
    ensures var p := PreviewAfter(wf, run, target, Preview(m, false), k); p.m.failed && !p.reached && p.m.iterations <= m.iterations + j
    decreases j
  {
    assert j > 0 && Going(m);
    FirstTurn(wf, run, target, m);
    var p := PreviewStep(wf, run, target, m);
    var s := Step(wf, run, m);
    var full := After(wf, run, m, j);
    assert full == After(wf, run, s, j - 1);
    hide PreviewStep, Step;
    if !s.failed {
      FailedLonger(wf, run, s, j - 1);
      assert m.order <= s.order <= full.order;
      assert |s.order| > |m.order| ==> full.order[|m.order|..|full.order| - 1][|s.order| - 1 - |m.order|] == s.order[|s.order| - 1];
      if !p.reached {
        assert full.order[|s.order|..|full.order| - 1] == full.order[|m.order|..|full.order| - 1][|s.order| - |m.order|..];
        PreviewFailsToo(wf, run, target, s, j - 1, k - 1);
      }
    }
  }

  /** A preview reports a failing node exactly when the full machine fails before the preview's
      last turn and has not run the target before. */
  lemma PreviewFailsExactlyWhen(wf: Workflow, run: Runner, target: Node, start: seq<Node>, input: Json, mem: Memory, cap: nat)
    ensures var m := Launch(start, input, mem);
            PreviewVerdict(PreviewAfter(wf, run, target, Preview(m, false), cap), cap) == NodeFails <==>
            exists j: nat :: j < cap && FailsFirst(wf, run, target, m, 0, j)
  {
    var m := Launch(start, input, mem);
    var p := PreviewAfter(wf, run, target, Preview(m, false), cap);
    PreviewFollows(wf, run, target, m, cap);
    hide PreviewAfter, After;
    if PreviewVerdict(p, cap) == NodeFails { assert FailsFirst(wf, run, target, m, 0, p.m.iterations); }
    if j: nat :| j < cap && FailsFirst(wf, run, target, m, 0, j) { PreviewFailsToo(wf, run, target, m, j, cap); }
  }
}
