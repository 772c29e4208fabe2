/**
 What chains, groups and `on_done` mean, and that flattening preserves it: the order between
 jobs in the flat graph is the order the expression asks for.
 */
module DelayableMeaning {
  import opened JobGraph
  import opened Delayables

  // ------------------------------------------------------------------------- the meaning

  /** The jobs an object stands for. */
  function Jobs(p: Pool, i: Id): set<Id>
    requires Built(p) && i < |p|
    decreases i
  {
    match p[i].kind
    case Delayable => {i}
    case Chain(es) => set k, x | 0 <= k < |es| && x in Jobs(p, es[k]) :: x
    case Group(ms) => set m, x | m in ms && x in Jobs(p, m) :: x
  }

  /** What an expression directly mentions: its elements and what was attached to it. */
  function Parts(p: Pool, done: seq<set<Id>>, i: Id): set<Id>
    requires i < |p| == |done|
  {
    done[i] + match p[i].kind
              case Delayable => {}
              case Chain(es) => set e | e in es
              case Group(ms) => ms
  }

  function Uses(p: Pool, done: seq<set<Id>>): Adjacency
    requires |p| == |done|
  {
    map i | 0 <= i < |p| :: Parts(p, done, i)
  }

  ghost function Reached(p: Pool, done: seq<set<Id>>, root: Id): set<Id>
    requires |p| == |done|
  {
    set i | 0 <= i < |p| && (i == root || Leads(Uses(p, done), root, i))
  }

  /** In a chain all jobs of an element come before those of any later element. */
  ghost predicate ChainOrders(p: Pool, i: Id, x: Id, y: Id)
    requires Built(p) && i < |p|
  {
    p[i].kind.Chain? && exists a, b :: 0 <= a < b < |p[i].kind.elems| && x in Jobs(p, p[i].kind.elems[a]) && y in Jobs(p, p[i].kind.elems[b])
  }

  /** All jobs of an object come before those of what was attached to it. */
  ghost predicate DoneOrders(p: Pool, done: seq<set<Id>>, i: Id, x: Id, y: Id)
    requires Holds(p, done) && i < |p|
  {
    x in Jobs(p, i) && exists d :: d in done[i] && y in Jobs(p, d)
  }

  ghost predicate Orders(p: Pool, done: seq<set<Id>>, i: Id, x: Id, y: Id)
    requires Holds(p, done) && i < |p|
  {
    ChainOrders(p, i, x, y) || DoneOrders(p, done, i, x, y)
  }

  ghost predicate Meant(p: Pool, done: seq<set<Id>>, root: Id, x: Id, y: Id)
    requires Holds(p, done)
  {
    exists i :: i in Reached(p, done, root) && Orders(p, done, i, x, y)
  }

  predicate IsJob(p: Pool, x: Id) { x < |p| && p[x].kind.Delayable? }

  /** The graph of everything the expression `root` orders. */
  ghost function Meaning(p: Pool, done: seq<set<Id>>, root: Id): Adjacency
    requires Holds(p, done)
  {
    map x | x in Reached(p, done, root) && IsJob(p, x) :: set y | 0 <= y < |p| && Meant(p, done, root, x, y)
  }

  // --------------------------------------------------------------------- where it is faithful

  datatype Side = Front | Back

  function Other(side: Side): Side { if side == Front then Back else Front }

  function Pick(es: seq<Id>, side: Side): Id
    requires es != []
  {
    if side == Front then es[0] else es[|es| - 1]
  }

  /** What the code answers when asked for the heads or for the tails of an object. */
  function Answer(p: Pool, i: Id, asked: Side): set<Id>
    requires Built(p) && i < |p|
  {
    if asked == Front then Head(p, i) else Tail(p, i)
  }

  predicate HasJobs(p: Pool, i: Id)
    requires Built(p) && i < |p|
  {
    Jobs(p, i) != {}
  }

  /** No element but `e` has jobs. */
  predicate OnlyOne(p: Pool, es: seq<Id>, e: Id)
    requires Built(p) && forall k :: 0 <= k < |es| ==> es[k] < |p|
  {
    forall k :: 0 <= k < |es| && es[k] != e ==> !HasJobs(p, es[k])
  }

  /**
   What the code answers when asked for one side is where the object really begins, or ends. A
   chain asks its end element for the opposite side, which is right only if there it makes no
   difference.
   */
  predicate Gives(p: Pool, i: Id, asked: Side, side: Side)
    requires Built(p) && i < |p|
    decreases i
  {
    match p[i].kind
    case Delayable => true
    case Chain(es) =>
      var e := Pick(es, asked);
      HasJobs(p, i) ==> HasJobs(p, e) && (asked == side || OnlyOne(p, es, e)) && Gives(p, e, Other(asked), side)
    case Group(ms) => forall m :: m in ms ==> Gives(p, m, asked, side)
  }

  /** Between two elements of a chain that have jobs there is none without. */
  predicate NoGap(p: Pool, es: seq<Id>)
    requires Built(p) && forall k :: 0 <= k < |es| ==> es[k] < |p|
  {
    forall a, b, c :: 0 <= a < b < c < |es| && HasJobs(p, es[a]) && HasJobs(p, es[c]) ==> HasJobs(p, es[b])
  }

  /** What an edge joins has the right tails and heads. */
  ghost predicate EdgesServed(p: Pool, done: seq<set<Id>>, i: Id)
    requires Holds(p, done) && i < |p|
  {
    forall u: Id, v: Id :: OwnEdge(p[i].kind, i, done[i], u, v) && u < |p| && v < |p| && HasJobs(p, u) && HasJobs(p, v) ==>
      Gives(p, u, Back, Back) && Gives(p, v, Front, Front)
  }

  /** A chain has no gaps, also before what is attached to it. */
  ghost predicate Gapless(p: Pool, done: seq<set<Id>>, i: Id)
    requires Holds(p, done) && i < |p|
  {
    p[i].kind.Chain? ==>
      var es := p[i].kind.elems;
      && MadeOf(p[i].kind, i) && NoGap(p, es)
      && forall d :: d in done[i] && HasJobs(p, d) && HasJobs(p, i) ==> HasJobs(p, es[|es| - 1])
  }

  ghost predicate FaithfulAt(p: Pool, done: seq<set<Id>>, i: Id)
    requires Holds(p, done) && i < |p|
  {
    EdgesServed(p, done, i) && Gapless(p, done, i)
  }

  /** Everything that has jobs is visited, and every object is served right. */
  ghost predicate Faithful(p: Pool, done: seq<set<Id>>, root: Id)
    requires Holds(p, done)
  {
    forall i :: i in Reached(p, done, root) ==> (HasJobs(p, i) ==> i in Visited(p, root)) && FaithfulAt(p, done, i)
  }

  predicate NonEmpty(kind: Kind) { kind.Group? ==> kind.members != {} }

  /** A delayable, or a group of such. */
  predicate Plain(p: Pool, i: Id) {
    i < |p| && (p[i].kind.Delayable? || (p[i].kind.Group? && forall m :: m in p[i].kind.members ==> IsJob(p, m)))
  }

  predicate PlainEnds(p: Pool, kind: Kind) {
    kind.Chain? && kind.elems != [] ==> Plain(p, kind.elems[0]) && Plain(p, kind.elems[|kind.elems| - 1])
  }

  // ------------------------------------------------------------------------ what is reached

  lemma PartReached(p: Pool, done: seq<set<Id>>, root: Id, i: Id, v: Id)
    requires |p| == |done| && i in Reached(p, done, root) && v in Parts(p, done, i) && v < |p|
    ensures v in Reached(p, done, root)
  {
    var g := Uses(p, done);
    assert Edge(g, i, v);
    EdgeLeads(g, i, v);
    hide Leads, Uses;
    if i != root { LeadsTrans(g, root, i, v); }
  }

  lemma ReachedLeast(p: Pool, done: seq<set<Id>>, root: Id, m: set<Id>)
    requires |p| == |done| && root in m && forall i, v :: i in m && i < |p| && v in Parts(p, done, i) ==> v in m
    ensures Reached(p, done, root) <= m
  {
    var g := Uses(p, done);
    forall i | i in Reached(p, done, root) ensures i in m {
      if i != root {
        var path :| Joins(g, path, root, i) && |path| >= 2;
        ClosedAlong(g, m, path);
      }
    }
  }

  lemma RootReached(p: Pool, done: seq<set<Id>>, root: Id)
    requires |p| == |done| && root < |p|
    ensures root in Reached(p, done, root) && forall i :: i in Reached(p, done, root) ==> i < |p|
  {
  }

  function Elems(kind: Kind): set<Id> {
    match kind
    case Delayable => {}
    case Chain(es) => set e | e in es
    case Group(ms) => ms
  }

  lemma ElemJobs(p: Pool, i: Id, e: Id)
    requires Built(p) && i < |p| && MadeOf(p[i].kind, i) && e in Elems(p[i].kind)
    ensures e < i && Jobs(p, e) <= Jobs(p, i)
  {
    match p[i].kind
    case Delayable =>
    case Chain(es) => var k :| 0 <= k < |es| && es[k] == e;
    case Group(ms) =>
  }

  lemma {:induction false} JobsReached(p: Pool, done: seq<set<Id>>, root: Id, i: Id, x: Id)
    requires Holds(p, done) && i in Reached(p, done, root) && x in Jobs(p, i)
    ensures x in Reached(p, done, root) && IsJob(p, x)
    decreases i
  {
    assert MadeOf(p[i].kind, i);
    hide Reached;
    match p[i].kind
    case Delayable =>
    case Chain(es) =>
      var k :| 0 <= k < |es| && x in Jobs(p, es[k]);
      PartReached(p, done, root, i, es[k]);
      JobsReached(p, done, root, es[k], x);
    case Group(ms) =>
      var m :| m in ms && x in Jobs(p, m);
      PartReached(p, done, root, i, m);
      JobsReached(p, done, root, m, x);
  }

  lemma {:induction false} JobsVisited(p: Pool, done: seq<set<Id>>, root: Id, i: Id, x: Id)
    requires Holds(p, done) && i in Visited(p, root) && x in Jobs(p, i)
    ensures x in Visited(p, root) && IsJob(p, x)
    decreases i
  {
    assert MadeOf(p[i].kind, i) && Represents(p[i], i, done[i]);
    hide Visited;
    match p[i].kind
    case Delayable =>
    case Chain(es) =>
      var k :| 0 <= k < |es| && x in Jobs(p, es[k]);
      VisitNext(p, root, i, es[k]);
      JobsVisited(p, done, root, es[k], x);
    case Group(ms) =>
      var m :| m in ms && x in Jobs(p, m);
      VisitNext(p, root, i, m);
      JobsVisited(p, done, root, m, x);
  }

  lemma VisitedReached(p: Pool, done: seq<set<Id>>, root: Id)
    requires Holds(p, done) && root < |p|
    ensures Visited(p, root) <= Reached(p, done, root)
  {
    RootReached(p, done, root);
    var m := Reached(p, done, root);
    hide Reached, Visited;
    forall i, v | i in m && i < |p| && v in p[i].graph ensures v in m {
      assert MadeOf(p[i].kind, i) && Represents(p[i], i, done[i]);
      if v != i || !p[i].kind.Delayable? { PartReached(p, done, root, i, v); }
    }
    VisitedLeast(p, root, m);
  }

  /** Without empty groups everything the expression mentions is visited. */
  lemma ReachedVisited(p: Pool, done: seq<set<Id>>, root: Id)
    requires Holds(p, done) && root < |p| && forall i :: i in Reached(p, done, root) ==> NonEmpty(p[i].kind)
    ensures Reached(p, done, root) == Visited(p, root)
  {
    VisitedReached(p, done, root);
    RootVisited(p, root);
    var m := Visited(p, root);
    hide Reached, Visited;
    forall i, v | i in m && i < |p| && v in Parts(p, done, i) ensures v in m {
      assert MadeOf(p[i].kind, i) && Represents(p[i], i, done[i]) && NonEmpty(p[i].kind);
      VisitNext(p, root, i, v);
    }
    ReachedLeast(p, done, root, m);
  }

  // ----------------------------------------------------------- nothing but the meaning

  lemma {:induction false} EndsAreJobs(p: Pool, i: Id)
    requires Built(p) && i < |p|
    ensures Head(p, i) <= Jobs(p, i) && Tail(p, i) <= Jobs(p, i)
    decreases i
  {
    assert MadeOf(p[i].kind, i);
    match p[i].kind
    case Delayable =>
    case Chain(es) =>
      EndsAreJobs(p, es[0]);
      EndsAreJobs(p, es[|es| - 1]);
    case Group(ms) =>
      forall m | m in ms ensures Head(p, m) <= Jobs(p, m) && Tail(p, m) <= Jobs(p, m) { EndsAreJobs(p, m); }
  }

  /** An edge of an object's own graph orders the jobs it joins. */
  lemma OwnEdgeOrders(p: Pool, done: seq<set<Id>>, i: Id, u: Id, v: Id, x: Id, y: Id)
    requires Holds(p, done) && i < |p| && u < |p| && v < |p| && OwnEdge(p[i].kind, i, done[i], u, v)
    requires x in Jobs(p, u) && y in Jobs(p, v)
    ensures Orders(p, done, i, x, y)
  {
    assert MadeOf(p[i].kind, i);
    match p[i].kind
    case Delayable =>
    case Chain(es) =>
      if Consecutive(es, u, v) {
        var k :| 0 <= k < |es| - 1 && es[k] == u && es[k + 1] == v;
        assert x in Jobs(p, es[k]) && y in Jobs(p, es[k + 1]);
      } else {
        assert x in Jobs(p, es[|es| - 1]);
      }
    case Group(ms) =>
  }

  lemma FlatEdgeSource(p: Pool, done: seq<set<Id>>, root: Id, flat: Adjacency, a: Id, b: Id) returns (i: Id, u: Id, v: Id)
    requires Holds(p, done) && root < |p| && Closed(p) && Flattens(p, Visited(p, root), flat) && Edge(flat, a, b)
    ensures i in Visited(p, root) && u in Visited(p, root) && v in Visited(p, root)
    ensures OwnEdge(p[i].kind, i, done[i], u, v) && a in Tail(p, u) && b in Head(p, v)
  {
    i :| i in Visited(p, root) && Lowered(p, p[i].graph, a, b);
    assert i < |p|;
    hide Visited, Flattens;
    u, v :| Edge(p[i].graph, u, v) && a in Tail(p, u) && b in Head(p, v);
    assert GraphIn(p, p[i].graph) && Represents(p[i], i, done[i]);
    OwnEdgeIn(p, done, i, u, v);
    VisitNext(p, root, i, u);
    VisitNext(p, root, i, v);
  }

  lemma FlatEdgeMeant(p: Pool, done: seq<set<Id>>, root: Id, flat: Adjacency, a: Id, b: Id)
    requires Holds(p, done) && root < |p| && Closed(p) && Flattens(p, Visited(p, root), flat) && Edge(flat, a, b)
    ensures Edge(Meaning(p, done, root), a, b) && IsJob(p, a) && IsJob(p, b) && a in Visited(p, root) && b in Visited(p, root)
  {
    var i, u, v := FlatEdgeSource(p, done, root, flat, a, b);
    VisitedReached(p, done, root);
    RootVisited(p, root);
    hide Visited, Reached, Flattens, Head, Tail, Jobs, Orders, OwnEdge, Represents;
    EndsAreJobs(p, u);
    EndsAreJobs(p, v);
    JobsVisited(p, done, root, u, a);
    JobsVisited(p, done, root, v, b);
    OwnEdgeOrders(p, done, i, u, v, a, b);
    assert Meant(p, done, root, a, b);
  }

  /** The vertices of the flat graph are exactly the visited delayables, and its edges stay in it. */
  lemma FlatVertices(p: Pool, done: seq<set<Id>>, root: Id, flat: Adjacency)
    requires Holds(p, done) && root < |p| && Closed(p) && Flattens(p, Visited(p, root), flat)
    ensures forall x :: x in flat <==> x in Visited(p, root) && IsJob(p, x)
    ensures WellFormed(flat)
  {
    forall x ensures x in flat <==> x in Visited(p, root) && IsJob(p, x) { FlatVertex(p, done, root, flat, x); }
    forall a, b | Edge(flat, a, b) ensures b in flat { FlatEdgeMeant(p, done, root, flat, a, b); }
  }

  lemma FlatVertex(p: Pool, done: seq<set<Id>>, root: Id, flat: Adjacency, x: Id)
    requires Holds(p, done) && root < |p| && Closed(p) && Flattens(p, Visited(p, root), flat)
    ensures x in flat <==> x in Visited(p, root) && IsJob(p, x)
  {
    if x in flat {
      var i :| i in Visited(p, root) && x in Tails(p, p[i].graph.Keys);
      hide Visited, Flattens;
      var v :| v in p[i].graph.Keys && x in Tail(p, v);
      assert GraphIn(p, p[i].graph);
      VisitNext(p, root, i, v);
      EndsAreJobs(p, v);
      JobsVisited(p, done, root, v, x);
    }
    if x in Visited(p, root) && IsJob(p, x) {
      assert Represents(p[x], x, done[x]);
      assert x in p[x].graph.Keys && x in Tail(p, x);
      assert x in Tails(p, p[x].graph.Keys);
    }
  }

  /** Without empty groups everything has jobs. */
  lemma {:induction false} AllHaveJobs(p: Pool, done: seq<set<Id>>, root: Id, i: Id)
    requires Holds(p, done) && i in Reached(p, done, root)
    requires forall k :: k in Reached(p, done, root) ==> NonEmpty(p[k].kind)
    ensures HasJobs(p, i)
    decreases i
  {
    assert MadeOf(p[i].kind, i) && NonEmpty(p[i].kind);
    hide Reached;
    match p[i].kind
    case Delayable =>
    case Chain(es) =>
      PartReached(p, done, root, i, es[0]);
      AllHaveJobs(p, done, root, es[0]);
      ElemJobs(p, i, es[0]);
    case Group(ms) =>
      var m :| m in ms;
      PartReached(p, done, root, i, m);
      AllHaveJobs(p, done, root, m);
      ElemJobs(p, i, m);
  }

  /** It is enough that groups are not empty and that all chains begin and end with delayables
      or groups of delayables. */
  lemma PlainEndsAreFaithful(p: Pool, done: seq<set<Id>>, root: Id)
    requires Holds(p, done) && root < |p|
    requires forall i :: i in Reached(p, done, root) ==> NonEmpty(p[i].kind) && PlainEnds(p, p[i].kind)
    ensures Faithful(p, done, root)
  {
    ReachedVisited(p, done, root);
    RootVisited(p, root);
    hide Reached, Visited;
    forall i | i in Reached(p, done, root) ensures FaithfulAt(p, done, i) {
      assert MadeOf(p[i].kind, i);
      hide NonEmpty, PlainEnds, Gives, HasJobs;
      forall u: Id, v: Id | OwnEdge(p[i].kind, i, done[i], u, v) && u < |p| && v < |p|
        ensures Gives(p, u, Back, Back) && Gives(p, v, Front, Front)
      {
        OwnEdgeIn(p, done, i, u, v);
        VisitNext(p, root, i, u);
        VisitNext(p, root, i, v);
        PlainEndsOk(p, done, root, u);
        PlainEndsOk(p, done, root, v);
      }
      if p[i].kind.Chain? {
        forall k | 0 <= k < |p[i].kind.elems| ensures HasJobs(p, p[i].kind.elems[k]) {
          PartReached(p, done, root, i, p[i].kind.elems[k]);
          AllHaveJobs(p, done, root, p[i].kind.elems[k]);
        }
      }
    }
  }

  lemma OwnEdgeIn(p: Pool, done: seq<set<Id>>, i: Id, u: Id, v: Id)
    requires Holds(p, done) && i < |p| && OwnEdge(p[i].kind, i, done[i], u, v)
    ensures u < |p| && v < |p|
    ensures u in p[i].graph && v in p[i].graph
  {
    assert MadeOf(p[i].kind, i) && Represents(p[i], i, done[i]);
  }

  lemma {:induction false} PlainEndsOk(p: Pool, done: seq<set<Id>>, root: Id, i: Id)
    requires Holds(p, done) && i in Reached(p, done, root)
    requires forall k :: k in Reached(p, done, root) ==> NonEmpty(p[k].kind) && PlainEnds(p, p[k].kind)
    ensures Gives(p, i, Front, Front) && Gives(p, i, Back, Back)
    decreases i
  {
    assert MadeOf(p[i].kind, i) && PlainEnds(p, p[i].kind);
    hide Reached, NonEmpty;
    match p[i].kind
    case Delayable =>
    case Chain(es) =>
      PartReached(p, done, root, i, es[0]);
      PartReached(p, done, root, i, es[|es| - 1]);
      AllHaveJobs(p, done, root, es[0]);
      AllHaveJobs(p, done, root, es[|es| - 1]);
      PlainGives(p, es[0], Back, Front);
      PlainGives(p, es[|es| - 1], Front, Back);
    case Group(ms) =>
      forall m | m in ms ensures Gives(p, m, Front, Front) && Gives(p, m, Back, Back) {
        PartReached(p, done, root, i, m);
        PlainEndsOk(p, done, root, m);
      }
  }

  lemma PlainGives(p: Pool, i: Id, asked: Side, side: Side)
    requires Built(p) && Plain(p, i)
    ensures Gives(p, i, asked, side)
  {
  }

  // -------------------------------------------------------------------- all of the meaning

  /** The setting of the proofs below. */
  ghost predicate Compiled(p: Pool, done: seq<set<Id>>, root: Id, flat: Adjacency) {
    && Holds(p, done) && root < |p| && Closed(p) && Flattens(p, Visited(p, root), flat) && Faithful(p, done, root)
  }

  ghost predicate UpTo(flat: Adjacency, x: Id, y: Id) { x == y || Leads(flat, x, y) }

  /** From the side where an object really begins one goes forward, from where it ends back. */
  ghost predicate Toward(flat: Adjacency, side: Side, e: Id, x: Id) {
    if side == Front then UpTo(flat, e, x) else UpTo(flat, x, e)
  }

  /** Every job of an object can be reached from, or reaches, one of those the code answers. */
  lemma {:induction false} FromAnswer(p: Pool, done: seq<set<Id>>, root: Id, flat: Adjacency, i: Id, asked: Side, side: Side, x: Id)
    returns (e: Id)
    requires Compiled(p, done, root, flat) && i in Visited(p, root) && x in Jobs(p, i) && Gives(p, i, asked, side)
    ensures e in Answer(p, i, asked) && Toward(flat, side, e, x)
    decreases i, 2, 0
  {
    hide Compiled, Visited, Leads, Represents, FaithfulAt;
    UseCompiled(p, done, root, flat, i);
    match p[i].kind
    case Delayable => e := x;
    case Chain(es) =>
      var at := if asked == Front then 0 else |es| - 1;
      var k :| 0 <= k < |es| && x in Jobs(p, es[k]);
      ElemVisited(p, done, root, i, es[at]);
      if es[k] == es[at] {
        e := FromAnswer(p, done, root, flat, es[at], Other(asked), side, x);
      } else {
        assert HasJobs(p, i) && HasJobs(p, es[k]) && asked == side;
        var z :| z in Jobs(p, es[at]);
        e := FromAnswer(p, done, root, flat, es[at], Other(asked), side, z);
        if side == Front { ChainOrder(p, done, root, flat, i, at, k, z, x); } else { ChainOrder(p, done, root, flat, i, k, at, x, z); }
        Beyond(flat, side, e, z, x);
      }
    case Group(ms) =>
      var m :| m in ms && x in Jobs(p, m);
      ElemVisited(p, done, root, i, m);
      e := FromAnswer(p, done, root, flat, m, asked, side, x);
  }

  lemma Beyond(flat: Adjacency, side: Side, e: Id, z: Id, x: Id)
    requires Toward(flat, side, e, z) && if side == Front then Leads(flat, z, x) else Leads(flat, x, z)
    ensures Toward(flat, side, e, x)
  {
    hide Leads;
    if e != z { if side == Front { LeadsTrans(flat, e, z, x); } else { LeadsTrans(flat, x, z, e); } }
  }

  lemma UseCompiled(p: Pool, done: seq<set<Id>>, root: Id, flat: Adjacency, i: Id)
    requires Compiled(p, done, root, flat) && i in Visited(p, root)
    ensures Holds(p, done) && Closed(p) && i < |p| && MadeOf(p[i].kind, i)
    ensures Represents(p[i], i, done[i]) && FaithfulAt(p, done, i) && forall d :: d in done[i] ==> d < |p|
  {
    hide Visited, Reached;
    VisitedReached(p, done, root);
    RootVisited(p, root);
  }

  lemma ElemVisited(p: Pool, done: seq<set<Id>>, root: Id, i: Id, e: Id)
    requires Holds(p, done) && i in Visited(p, root) && i < |p| && e in Elems(p[i].kind)
    ensures e < i && e in Visited(p, root)
  {
    assert MadeOf(p[i].kind, i) && Represents(p[i], i, done[i]);
    hide Visited;
    VisitNext(p, root, i, e);
  }

  lemma LoweredEdge(p: Pool, done: seq<set<Id>>, root: Id, flat: Adjacency, i: Id, u: Id, v: Id, t: Id, h: Id)
    requires Compiled(p, done, root, flat) && i in Visited(p, root) && u < |p| && v < |p|
    requires Edge(p[i].graph, u, v) && t in Tail(p, u) && h in Head(p, v)
    ensures Leads(flat, t, h)
  {
    assert Lowered(p, p[i].graph, t, h);
    hide Lowered, Visited, Faithful, Leads, Reached;
    assert Edge(flat, t, h);
    EdgeLeads(flat, t, h);
  }

  lemma LeadsAround(flat: Adjacency, x: Id, t: Id, h: Id, y: Id)
    requires UpTo(flat, x, t) && Leads(flat, t, h) && UpTo(flat, h, y)
    ensures Leads(flat, x, y)
  {
    hide Leads;
    if x != t { LeadsTrans(flat, x, t, h); }
    if h != y { LeadsTrans(flat, x, h, y); }
  }

  /** What an edge between objects puts in order is in order in the flat graph. */
  lemma {:induction false} EdgeOrder(p: Pool, done: seq<set<Id>>, root: Id, flat: Adjacency, i: Id, u: Id, v: Id, x: Id, y: Id)
    requires Compiled(p, done, root, flat) && i in Visited(p, root) && u < |p| && v < |p|
    requires OwnEdge(p[i].kind, i, done[i], u, v) && x in Jobs(p, u) && y in Jobs(p, v)
    ensures Leads(flat, x, y)
    decreases if u < v then v else u, 3, 0
  {
    hide Compiled, Visited, Leads, OwnEdge, Jobs, Head, Tail, Gives, UpTo;
    UseCompiled(p, done, root, flat, i);
    assert Edge(p[i].graph, u, v) && HasJobs(p, u) && HasJobs(p, v);
    OwnEdgeIn(p, done, i, u, v);
    VisitNext(p, root, i, u);
    VisitNext(p, root, i, v);
    var t := FromAnswer(p, done, root, flat, u, Back, Back, x);
    var h := FromAnswer(p, done, root, flat, v, Front, Front, y);
    LoweredEdge(p, done, root, flat, i, u, v, t, h);
    LeadsAround(flat, x, t, h, y);
  }

  /** The elements of a chain are in order, from one to the next. */
  lemma {:induction false} ChainOrder(p: Pool, done: seq<set<Id>>, root: Id, flat: Adjacency, i: Id, a: nat, b: nat, x: Id, y: Id)
    requires Compiled(p, done, root, flat) && i in Visited(p, root) && p[i].kind.Chain?
    requires a < b < |p[i].kind.elems| && MadeOf(p[i].kind, i)
    requires x in Jobs(p, p[i].kind.elems[a]) && y in Jobs(p, p[i].kind.elems[b])
    ensures Leads(flat, x, y)
    decreases i, 1, b - a
  {
    hide Compiled, Visited, Leads;
    UseCompiled(p, done, root, flat, i);
    var es := p[i].kind.elems;
    assert Consecutive(es, es[b - 1], es[b - 1 + 1]);
    if a == b - 1 {
      EdgeOrder(p, done, root, flat, i, es[a], es[b], x, y);
    } else {
      assert HasJobs(p, es[a]) && HasJobs(p, es[b]) && HasJobs(p, es[b - 1]);
      var z :| z in Jobs(p, es[b - 1]);
      ChainOrder(p, done, root, flat, i, a, b - 1, x, z);
      EdgeOrder(p, done, root, flat, i, es[b - 1], es[b], z, y);
      LeadsTrans(flat, x, z, y);
    }
  }

  lemma ChainDoneOrder(p: Pool, done: seq<set<Id>>, root: Id, flat: Adjacency, i: Id, d: Id, k: nat, x: Id, y: Id)
    requires Compiled(p, done, root, flat) && i in Visited(p, root) && i < |p| == |done| && d in done[i] && d < |p|
    requires p[i].kind.Chain? && MadeOf(p[i].kind, i) && k < |p[i].kind.elems| && HasJobs(p, i)
    requires x in Jobs(p, p[i].kind.elems[k]) && y in Jobs(p, d)
    ensures Leads(flat, x, y)
  {
    hide Compiled, Visited, Leads, Jobs, Gives, Represents, HasJobs, NoGap;
    UseCompiled(p, done, root, flat, i);
    var es := p[i].kind.elems;
    var last := |es| - 1;
    if k == last { EdgeOrder(p, done, root, flat, i, es[last], d, x, y); }
    else {
      JobIn(p, d, y);
      assert HasJobs(p, es[last]);
      var z := SomeJob(p, es[last]);
      ChainOrder(p, done, root, flat, i, k, last, x, z);
      EdgeOrder(p, done, root, flat, i, es[last], d, z, y);
      LeadsTrans(flat, x, z, y);
    }
  }

  lemma JobIn(p: Pool, i: Id, x: Id)
    requires Built(p) && i < |p| && x in Jobs(p, i)
    ensures HasJobs(p, i)
  {
  }

  lemma SomeJob(p: Pool, i: Id) returns (x: Id)
    requires Built(p) && i < |p| && HasJobs(p, i)
    ensures x in Jobs(p, i)
  {
    x :| x in Jobs(p, i);
  }

  /** What `on_done` asks for: all jobs of `i` before all jobs of `d`. */
  lemma DoneOrder(p: Pool, done: seq<set<Id>>, root: Id, flat: Adjacency, i: Id, d: Id, x: Id, y: Id)
    requires Compiled(p, done, root, flat) && i in Visited(p, root) && i < |p| == |done| && d in done[i] && d < |p|
    requires x in Jobs(p, i) && y in Jobs(p, d)
    ensures Leads(flat, x, y)
  {
    JobIn(p, i, x);
    hide Compiled, Visited, Leads, Gives, Represents, FaithfulAt, HasJobs;
    UseCompiled(p, done, root, flat, i);
    match p[i].kind
    case Delayable => EdgeOrder(p, done, root, flat, i, i, d, x, y);
    case Group(ms) =>
      var m :| m in ms && x in Jobs(p, m);
      EdgeOrder(p, done, root, flat, i, m, d, x, y);
    case Chain(es) =>
      var k :| 0 <= k < |es| && x in Jobs(p, es[k]);
      ChainDoneOrder(p, done, root, flat, i, d, k, x, y);
  }

  /** Only an object that has jobs orders any. */
  lemma OrderedJobs(p: Pool, done: seq<set<Id>>, i: Id, x: Id, y: Id)
    requires Holds(p, done) && i < |p| && Orders(p, done, i, x, y)
    ensures x in Jobs(p, i) && HasJobs(p, i)
  {
    assert MadeOf(p[i].kind, i);
    if ChainOrders(p, i, x, y) {
      var es := p[i].kind.elems;
      var a, b :| 0 <= a < b < |es| && x in Jobs(p, es[a]) && y in Jobs(p, es[b]);
      ElemJobs(p, i, es[a]);
    }
  }

  lemma MeantLeads(p: Pool, done: seq<set<Id>>, root: Id, flat: Adjacency, x: Id, y: Id)
    requires Compiled(p, done, root, flat) && Edge(Meaning(p, done, root), x, y)
    ensures Leads(flat, x, y)
  {
    var i :| i in Reached(p, done, root) && Orders(p, done, i, x, y);
    OrderedJobs(p, done, i, x, y);
    assert i in Visited(p, root) && MadeOf(p[i].kind, i) && i < |p|;
    hide Compiled, Reached, Visited, Leads;
    if ChainOrders(p, i, x, y) {
      var a, b :| 0 <= a < b < |p[i].kind.elems| && x in Jobs(p, p[i].kind.elems[a]) && y in Jobs(p, p[i].kind.elems[b]);
      ChainOrder(p, done, root, flat, i, a, b, x, y);
    } else {
      var d :| d in done[i] && y in Jobs(p, d);
      DoneOrder(p, done, root, flat, i, d, x, y);
    }
  }

  // ------------------------------------------------------------------------- main results

  /** No order is introduced that the expression does not ask for, whatever the expression. */
  lemma FlatOnlyMeant(p: Pool, done: seq<set<Id>>, root: Id, flat: Adjacency, x: Id, y: Id)
    requires Holds(p, done) && root < |p| && Closed(p) && Flattens(p, Visited(p, root), flat) && Leads(flat, x, y)
    ensures Leads(Meaning(p, done, root), x, y)
  {
    var meaning := Meaning(p, done, root);
    hide Leads, Meaning, Flattens;
    forall a, b | Edge(flat, a, b) ensures Leads(meaning, a, b) {
      FlatEdgeMeant(p, done, root, flat, a, b);
      EdgeLeads(meaning, a, b);
    }
    LeadsFollows(flat, meaning, x, y);
  }

  /**
   Flattening preserves meaning: a job comes before another in the flat graph if and only if
   the expression puts it there, and the vertices are exactly the jobs of the expression.
   */
  lemma FlatteningPreservesMeaning(p: Pool, done: seq<set<Id>>, root: Id, flat: Adjacency)
    requires Holds(p, done) && root < |p| && Closed(p) && Flattens(p, Visited(p, root), flat)
    requires Faithful(p, done, root)
    ensures forall x, y :: Leads(flat, x, y) <==> Leads(Meaning(p, done, root), x, y)
    ensures flat.Keys == Meaning(p, done, root).Keys && WellFormed(flat)
  {
    VisitedReached(p, done, root);
    FlatVertices(p, done, root, flat);
    forall x | x in Reached(p, done, root) && IsJob(p, x) ensures x in Visited(p, root) { assert HasJobs(p, x); }
    assert flat.Keys == Meaning(p, done, root).Keys;
    assert Compiled(p, done, root, flat);
    var meaning := Meaning(p, done, root);
    hide Leads, Meaning, Compiled, Flattens, WellFormed, Visited, Reached;
    forall a, b | Edge(meaning, a, b) ensures Leads(flat, a, b) { MeantLeads(p, done, root, flat, a, b); }
    forall x, y ensures Leads(flat, x, y) <==> Leads(meaning, x, y) {
      if Leads(flat, x, y) { FlatOnlyMeant(p, done, root, flat, x, y); }
      if Leads(meaning, x, y) { LeadsFollows(meaning, flat, x, y); }
    }
  }
}
