/**
 The loop node: it hands out its items in batches on one socket, is fed back once per batch,
 and at the end passes all batches on, on the other socket.
 */
module LoopNode {
  import opened Options
  import opened WorkflowMachine

  /** How a loop node finds its items (or fails to), and its configured batch size. */
  datatype LoopConfig = LoopConfig(resolve: (Json, Memory) -> Option<Json>, batchSize: nat)

  function BatchSize(cfg: LoopConfig): (b: nat)
    ensures b >= 1
  {
    if cfg.batchSize == 0 then 1 else cfg.batchSize
  }

  function AsItems(j: Json): seq<Json> {
    match j
    case List(items) => items
    case Null => []
    case _ => [j]
  }

  /** A slice that ends where the items end. */
  function Slice(items: seq<Json>, start: nat, size: nat): seq<Json> {
    if start >= |items| then [] else if start + size <= |items| then items[start..start + size] else items[start..]
  }

  function Batch(st: LoopState): Json { Unwrap(Slice(st.items, st.index, st.batchSize)) }

  function EmitBatch(st: LoopState): seq<seq<Json>> { [[], [Batch(st)]] }

  /** Starting a loop; without items neither socket carries anything. */
  function InitLoop(cfg: LoopConfig, n: Node, input: Json, mem: Memory): Outcome {
    match cfg.resolve(input, mem)
    case None => Failure("Loop items expression failed")
    case Some(found) =>
      var st := LoopState(AsItems(found), 0, BatchSize(cfg), []);
      var mem' := mem.(loops := mem.loops[n := st]);
      if st.items == [] then Success([[], []], List([]), mem') else Success(EmitBatch(st), Batch(st), mem')
  }

  function Advanced(st: LoopState): LoopState {
    st.(processed := st.processed + [Batch(st)], index := st.index + st.batchSize)
  }

  /** Going on after a batch: the batch itself, not what the body made of it, is remembered. */
  function ContinueLoop(n: Node, st: LoopState, mem: Memory): Outcome {
    var st' := Advanced(st);
    var mem' := mem.(loops := mem.loops[n := st']);
    if st'.index >= |st'.items| then Success([[List(st'.processed)], []], List(st'.processed), mem')
    else Success(EmitBatch(st'), Batch(st'), mem')
  }

  function RunLoop(cfg: LoopConfig, n: Node, input: Json, mem: Memory): Outcome {
    if n in mem.loops then ContinueLoop(n, mem.loops[n], mem) else InitLoop(cfg, n, input, mem)
  }

  /** The runner of one loop node, with the state it keeps in the shared node context. */
  class LoopRunner {
    const cfg: LoopConfig
    const node: Node
    var mem: Memory

    constructor (cfg: LoopConfig, node: Node, mem: Memory)
      ensures this.cfg == cfg && this.node == node && this.mem == mem
    {
      this.cfg := cfg;
      this.node := node;
      this.mem := mem;
    }

    /** Runs the node once; the new state is that of `RunLoop`, and a failure changes nothing. */
    method Execute(input: Json) returns (outputs: Option<seq<seq<Json>>>)
      modifies this
      ensures var out := RunLoop(cfg, node, input, old(mem));
              && (out.Failure? ==> outputs == None && mem == old(mem))
              && (out.Success? ==> outputs == Some(out.outputs) && mem == out.mem)
    {
      if node in mem.loops {
        var more := Continue();
        return Some(more);
      }
      var found := cfg.resolve(input, mem);
      if found.None? { return None; }
      var st := LoopState(AsItems(found.value), 0, BatchSize(cfg), []);
      mem := mem.(loops := mem.loops[node := st]);
      if st.items == [] { return Some([[], []]); }
      return Some(EmitBatch(st));
    }

    method Continue() returns (outputs: seq<seq<Json>>)
      requires node in mem.loops
      modifies this
      ensures var out := ContinueLoop(node, old(mem).loops[node], old(mem)); outputs == out.outputs && mem == out.mem
    {
      var st := mem.loops[node];
      var before := Batch(st);
      st := st.(processed := st.processed + [before]);
      st := st.(index := st.index + st.batchSize);
      mem := mem.(loops := mem.loops[node := st]);
      if st.index >= |st.items| { return [[List(st.processed)], []]; }
      return EmitBatch(st);
    }
  }

  // ------------------------------------------------------------------------ the batches

  /** All batches from `start` on. */
  function Batches(items: seq<Json>, start: nat, size: nat): seq<seq<Json>>
    requires size >= 1
    decreases |items| - start
  {
    if start >= |items| then [] else [Slice(items, start, size)] + Batches(items, start + size, size)
  }

  function Joined(batches: seq<seq<Json>>): seq<Json> {
    if batches == [] then [] else batches[0] + Joined(batches[1..])
  }

  /** The batches are the items, cut into consecutive pieces: none lost, none twice, none moved. */
  lemma {:induction false} BatchesCover(items: seq<Json>, start: nat, size: nat)
    requires size >= 1 && start <= |items|
    ensures Joined(Batches(items, start, size)) == items[start..]
    decreases |items| - start
  {
    if start < |items| {
      var rest := Batches(items, start + size, size);
      assert Batches(items, start, size)[1..] == rest;
      if start + size <= |items| {
        BatchesCover(items, start + size, size);
        assert items[start..start + size] + items[start + size..] == items[start..];
      } else {
        assert rest == [];
      }
    }
  }

  /** There are as many as it takes: all but the last are full, and the last is not empty. */
  lemma {:induction false} BatchesCount(items: seq<Json>, start: nat, size: nat)
    requires size >= 1 && start < |items|
    ensures var n := |Batches(items, start, size)|;
            n >= 1 && (n - 1) * size < |items| - start <= n * size
    decreases |items| - start
  {
    var n := |Batches(items, start, size)|;
    if start + size < |items| {
      BatchesCount(items, start + size, size);
      assert (n - 1) * size == (n - 1 - 1) * size + size && n * size == (n - 1) * size + size;
    } else {
      assert Batches(items, start + size, size) == [];
      assert n == 1;
    }
  }

  /** `items` cut into consecutive pieces of `size`, only the last of which may be shorter. */
  predicate Cut(items: seq<Json>, size: nat, batches: seq<seq<Json>>) {
    && Joined(batches) == items
    && (forall i :: 0 <= i < |batches| - 1 ==> |batches[i]| == size)
    && (batches != [] ==> 1 <= |batches[|batches| - 1]| <= size)
  }

  lemma {:induction false} BatchesCut(items: seq<Json>, start: nat, size: nat)
    requires size >= 1 && start <= |items|
    ensures Cut(items[start..], size, Batches(items, start, size))
    decreases |items| - start
  {
    BatchesCover(items, start, size);
    if start + size < |items| { BatchesCut(items, start + size, size); }
    else if start < |items| { assert Batches(items, start + size, size) == []; }
  }

  function Unwrapped(batches: seq<seq<Json>>): seq<Json> { seq(|batches|, i requires 0 <= i < |batches| => Unwrap(batches[i])) }

  /** What a run of a loop node gives: the next batch on the loop socket, or all batches on the
      done socket, and the same as its result. */
  lemma LoopGives(cfg: LoopConfig, n: Node, input: Json, mem: Memory)
    ensures var out := RunLoop(cfg, n, input, mem);
            n in mem.loops ==>
              var st := mem.loops[n];
              var next := st.index + st.batchSize;
              && out.Success? && n in out.mem.loops && out.mem == mem.(loops := mem.loops[n := out.mem.loops[n]])
              && var st' := out.mem.loops[n];
              && st'.items == st.items && st'.batchSize == st.batchSize && st'.index == next && |st'.processed| == |st.processed| + 1
              && st'.processed[..|st.processed|] == st.processed && Handed(st'.processed[|st.processed|], Slice(st.items, st.index, st.batchSize))
              && (next >= |st.items| ==> out.outputs == [[List(st'.processed)], []] && out.json == List(st'.processed))
              && (next < |st.items| ==> out.outputs == [[], [out.json]] && Handed(out.json, Slice(st.items, next, st.batchSize)))
    ensures var out := RunLoop(cfg, n, input, mem);
            n !in mem.loops ==>
              match cfg.resolve(input, mem)
              case None => out.Failure?
              case Some(found) =>
                && out.Success? && n in out.mem.loops && out.mem == mem.(loops := mem.loops[n := out.mem.loops[n]])
                && var st := out.mem.loops[n];
                && st.index == 0 && st.processed == [] && st.batchSize == (if cfg.batchSize == 0 then 1 else cfg.batchSize)
                && st.items == (if found == Null then [] else if found.List? then found.items else [found])
                && (st.items == [] ==> out.outputs == [[], []] && out.json == List([]))
                && (st.items != [] ==> out.outputs == [[], [out.json]] && Handed(out.json, Slice(st.items, 0, st.batchSize)))
  {
  }
}
