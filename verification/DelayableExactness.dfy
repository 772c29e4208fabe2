/**
 Exactly when flattening keeps the meaning: for expressions that mention each object once,
 the condition under which the meaning is preserved is also necessary.
 */
module DelayableExactness {
  import opened JobGraph
  import opened Delayables
  import opened DelayableMeaning
  import opened DelayableTree

  // -------------------------------------------------------------- where objects really begin

  /** Nothing on that side of the `k`-th element has jobs. */
  predicate Edgemost(p: Pool, es: seq<Id>, k: int, side: Side)
    requires Built(p) && forall j :: 0 <= j < |es| ==> es[j] < |p|
  {
    forall j :: 0 <= j < |es| && (if side == Front then j < k else j > k) ==> !HasJobs(p, es[j])
  }

  /** The jobs an object really begins, or ends, with. */
  function Right(p: Pool, i: Id, side: Side): set<Id>
    requires Built(p) && i < |p|
    decreases i
  {
    match p[i].kind
    case Delayable => {i}
    case Chain(es) => set k, x | 0 <= k < |es| && Edgemost(p, es, k, side) && x in Right(p, es[k], side) :: x
    case Group(ms) => set m, x | m in ms && x in Right(p, m, side) :: x
  }

  /** The element with jobs that is nearest to a side, given that those before `n` have none. */
  lemma {:induction false} FindEdge(p: Pool, es: seq<Id>, side: Side, n: nat) returns (k: nat)
    requires Built(p) && (forall j :: 0 <= j < |es| ==> es[j] < |p|) && n <= |es|
    requires Edgemost(p, es, if side == Front then n else |es| - 1 - n, side)
    requires exists j :: 0 <= j < |es| && HasJobs(p, es[j])
    ensures k < |es| && HasJobs(p, es[k]) && Edgemost(p, es, k, side)
    decreases |es| - n
  {
    var at := if side == Front then n else |es| - 1 - n;
    if 0 <= at < |es| && HasJobs(p, es[at]) { k := at; }
    else { k := FindEdge(p, es, side, n + 1); }
  }

  lemma ChainHasJobs(p: Pool, i: Id) returns (j: nat)
    requires Built(p) && i < |p| && p[i].kind.Chain? && MadeOf(p[i].kind, i) && HasJobs(p, i)
    ensures j < |p[i].kind.elems| && HasJobs(p, p[i].kind.elems[j])
  {
    var x :| x in Jobs(p, i);
    var k :| 0 <= k < |p[i].kind.elems| && x in Jobs(p, p[i].kind.elems[k]);
    j := k;
  }

  lemma {:induction false} RightJob(p: Pool, i: Id, side: Side) returns (x: Id)
    requires Built(p) && i < |p| && HasJobs(p, i)
    ensures x in Right(p, i, side)
    decreases i
  {
    assert MadeOf(p[i].kind, i);
    match p[i].kind
    case Delayable => x := i;
    case Chain(es) =>
      var j := ChainHasJobs(p, i);
      var k := FindEdge(p, es, side, 0);
      x := RightJob(p, es[k], side);
    case Group(ms) =>
      var y :| y in Jobs(p, i);
      var m :| m in ms && y in Jobs(p, m);
      x := RightJob(p, m, side);
  }

  lemma {:induction false} RightAreJobs(p: Pool, i: Id, side: Side)
    requires Built(p) && i < |p|
    ensures Right(p, i, side) <= Jobs(p, i)
    decreases i
  {
    assert MadeOf(p[i].kind, i);
    match p[i].kind
    case Delayable =>
    case Chain(es) =>
      forall k | 0 <= k < |es| ensures Right(p, es[k], side) <= Jobs(p, es[k]) { RightAreJobs(p, es[k], side); }
    case Group(ms) =>
      forall m | m in ms ensures Right(p, m, side) <= Jobs(p, m) { RightAreJobs(p, m, side); }
  }

  lemma AnswerJobs(p: Pool, i: Id, asked: Side)
    requires Built(p) && i < |p|
    ensures Answer(p, i, asked) <= Jobs(p, i)
  {
    EndsAreJobs(p, i);
  }

  /** Where the code answers wrongly, a job at that side is missing from the answer. */
  lemma {:induction false} Missing(p: Pool, done: seq<set<Id>>, root: Id, i: Id, asked: Side, side: Side) returns (x: Id)
    requires Tree(p, done, root) && i in Reached(p, done, root) && !Gives(p, i, asked, side)
    ensures x in Right(p, i, side) && x !in Answer(p, i, asked)
    decreases i
  {
    UseTree(p, done, root, i);
    hide Reached, Tree, Jobs;
    match p[i].kind
    case Delayable =>
    case Chain(es) =>
      var j := ChainHasJobs(p, i);
      var k := FindEdge(p, es, side, 0);
      var e := Pick(es, asked);
      if es[k] != e {
        x := RightJob(p, es[k], side);
        RightAreJobs(p, es[k], side);
        ElemsDisjoint(p, done, root, i, es[k], e, x);
        AnswerJobs(p, e, Other(asked));
      } else {
        assert asked == side || OnlyOne(p, es, e);
        x := Missing(p, done, root, e, Other(asked), side);
      }
    case Group(ms) =>
      var m :| m in ms && !Gives(p, m, asked, side);
      x := Missing(p, done, root, m, asked, side);
      MissingFromGroup(p, done, root, i, m, asked, side, x);
  }

  lemma MissingFromGroup(p: Pool, done: seq<set<Id>>, root: Id, i: Id, m: Id, asked: Side, side: Side, x: Id)
    requires Tree(p, done, root) && i in Reached(p, done, root) && p[i].kind.Group? && m in p[i].kind.members && m < |p|
    requires x in Right(p, m, side) && x !in Answer(p, m, asked)
    ensures x in Right(p, i, side) && x !in Answer(p, i, asked)
  {
    UseTree(p, done, root, i);
    RightAreJobs(p, m, side);
    hide Reached, Tree, Jobs;
    forall f | f in p[i].kind.members && f != m ensures x !in Answer(p, f, asked) {
      ElemsDisjoint(p, done, root, i, m, f, x);
      AnswerJobs(p, f, asked);
    }
  }

  /** A job that an object begins with also begins every part of it that has it. */
  lemma {:induction false} RightInside(p: Pool, done: seq<set<Id>>, root: Id, v: Id, w: Id, side: Side, x: Id)
    requires Tree(p, done, root) && v in Reached(p, done, root) && Contains(p, v, w) && w < |p|
    requires x in Right(p, v, side) && x in Jobs(p, w)
    ensures x in Right(p, w, side)
    decreases v
  {
    if v != w {
      UseTree(p, done, root, v);
      hide Reached, Tree, Jobs;
      var e :| e in Elems(p[v].kind) && MadeOf(p[v].kind, v) && Contains(p, e, w);
      ContainsJobs(p, e, w);
      var f := RightElem(p, v, side, x);
      RightAreJobs(p, f, side);
      hide Right;
      if f != e { ElemsDisjoint(p, done, root, v, f, e, x); }
      RightInside(p, done, root, e, w, side, x);
    }
  }

  lemma RightElem(p: Pool, v: Id, side: Side, x: Id) returns (f: Id)
    requires Built(p) && v < |p| && MadeOf(p[v].kind, v) && x in Right(p, v, side) && !p[v].kind.Delayable?
    ensures f in Elems(p[v].kind) && f < v && x in Right(p, f, side)
    ensures p[v].kind.Chain? ==> exists k :: 0 <= k < |p[v].kind.elems| && p[v].kind.elems[k] == f && Edgemost(p, p[v].kind.elems, k, side)
  {
    match p[v].kind
    case Chain(es) =>
      var k :| 0 <= k < |es| && Edgemost(p, es, k, side) && x in Right(p, es[k], side);
      f := es[k];
    case Group(ms) =>
      f :| f in ms && x in Right(p, f, side);
  }

  // -------------------------------------------------------------------- edges and their objects

  ghost predicate Joint(p: Pool, done: seq<set<Id>>, root: Id, i: Id, u: Id, v: Id)
    requires Holds(p, done)
  {
    && i in Reached(p, done, root) && u in Reached(p, done, root) && v in Reached(p, done, root)
    && OwnEdge(p[i].kind, i, done[i], u, v)
  }

  /** The target of an edge is attached, or the next element after the source in a chain. */
  lemma OwnTarget(kind: Kind, i: Id, done: set<Id>, u: Id, v: Id)
    requires OwnEdge(kind, i, done, u, v) && Elems(kind) !! done && MadeOf(kind, i)
    ensures v in done || v in Elems(kind)
    ensures u == i || u in Elems(kind)
    ensures v in Elems(kind) ==> kind.Chain? && Consecutive(kind.elems, u, v) && u in Elems(kind)
    ensures v !in Elems(kind) ==> match kind
                                  case Delayable => u == i
                                  case Chain(es) => u == es[|es| - 1]
                                  case Group(ms) => u in ms
  {
  }

  lemma TargetIs(p: Pool, done: seq<set<Id>>, root: Id, i: Id, u: Id, v: Id)
    requires Tree(p, done, root) && Joint(p, done, root, i, u, v)
    ensures i < |p| && u < |p| && v < |p| && v in Parts(p, done, i) && MadeOf(p[i].kind, i)
    ensures Jobs(p, u) <= Jobs(p, i)
    ensures v in Elems(p[i].kind) ==> p[i].kind.Chain? && Consecutive(p[i].kind.elems, u, v) && u in Elems(p[i].kind)
  {
    UseTree(p, done, root, i);
    UseTree(p, done, root, u);
    UseTree(p, done, root, v);
    hide Reached, Tree, OwnEdge;
    OwnTarget(p[i].kind, i, done[i], u, v);
    if u != i { ElemJobs(p, i, u); }
  }

  /** The object that mentions `w` as an element, if `w` is properly inside `a`. */
  lemma Mentions(p: Pool, done: seq<set<Id>>, root: Id, a: Id, w: Id, i: Id)
    requires Tree(p, done, root) && a in Reached(p, done, root) && i in Reached(p, done, root) && i < |p|
    requires Contains(p, a, w) && a != w && w in Parts(p, done, i)
    ensures w in Elems(p[i].kind) && Contains(p, a, i) && Jobs(p, i) <= Jobs(p, a)
  {
    hide Reached, Tree, Jobs, Parts, Contains;
    var q := ParentOf(p, done, root, a, w);
    UseTree(p, done, root, q);
    ElemIsPart(p, done, q, w);
    OnceMentioned(p, done, root, q, i, w);
    UseTree(p, done, root, a);
    ContainsJobs(p, a, i);
  }

  lemma JointSource(p: Pool, done: seq<set<Id>>, root: Id, flat: Adjacency, a: Id, b: Id) returns (i: Id, u: Id, v: Id)
    requires Holds(p, done) && root < |p| && Closed(p) && Flattens(p, Visited(p, root), flat) && Edge(flat, a, b)
    ensures Joint(p, done, root, i, u, v) && u < |p| && v < |p| && a in Tail(p, u) && b in Head(p, v)
  {
    i, u, v := FlatEdgeSource(p, done, root, flat, a, b);
    VisitedReached(p, done, root);
    RootVisited(p, root);
  }

  lemma JointMeans(p: Pool, done: seq<set<Id>>, root: Id, i: Id, u: Id, v: Id, x: Id, y: Id)
    requires Holds(p, done) && root < |p| && Joint(p, done, root, i, u, v) && u < |p| && v < |p| && x in Jobs(p, u) && y in Jobs(p, v)
    ensures Leads(Meaning(p, done, root), x, y)
  {
    assert i in Reached(p, done, root) && u in Reached(p, done, root) && v in Reached(p, done, root);
    RootReached(p, done, root);
    hide Reached, Leads, Jobs, Orders;
    OwnEdgeOrders(p, done, i, u, v, x, y);
    JobsReached(p, done, root, u, x);
    JobsReached(p, done, root, v, y);
    assert Meant(p, done, root, x, y);
    EdgeLeads(Meaning(p, done, root), x, y);
  }

  // ------------------------------------------------------------------- paths and the meaning

  ghost predicate Setting(p: Pool, done: seq<set<Id>>, root: Id, flat: Adjacency) {
    Tree(p, done, root) && Closed(p) && Flattens(p, Visited(p, root), flat) && Acyclic(Meaning(p, done, root))
  }

  /** What `x` runs up to is not put before `x` by the expression. */
  lemma NoWayBack(p: Pool, done: seq<set<Id>>, root: Id, flat: Adjacency, x: Id, t: Id)
    requires Setting(p, done, root, flat) && UpTo(flat, x, t)
    ensures !Leads(Meaning(p, done, root), t, x)
  {
    var m := Meaning(p, done, root);
    if Leads(m, t, x) {
      if x != t {
        FlatOnlyMeant(p, done, root, flat, x, t);
        LeadsTrans(m, x, t, x);
      }
    }
  }

  /** A path into a set of jobs has an edge that enters it. */
  lemma {:induction false} CrossingOf(flat: Adjacency, s: set<Id>, path: seq<Id>) returns (t: Id, h: Id)
    requires IsPath(flat, path) && |path| >= 2 && path[0] !in s && path[|path| - 1] in s
    ensures Edge(flat, t, h) && t !in s && h in s && UpTo(flat, path[0], t) && UpTo(flat, h, path[|path| - 1])
    decreases |path|
  {
    var n := |path| - 2;
    assert Edge(flat, path[n], path[n + 1]);
    if path[n] !in s {
      t, h := path[n], path[n + 1];
      if n > 0 { SubPath(flat, path, 0, n); }
    } else {
      var q := path[..|path| - 1];
      ButLast(flat, path);
      t, h := CrossingOf(flat, s, q);
      EdgeLeads(flat, path[n], path[n + 1]);
      hide Leads;
      if h != path[n] { LeadsTrans(flat, h, path[n], path[n + 1]); }
    }
  }

  lemma Crossing(flat: Adjacency, s: set<Id>, x: Id, y: Id) returns (t: Id, h: Id)
    requires Leads(flat, x, y) && x !in s && y in s
    ensures Edge(flat, t, h) && t !in s && h in s && UpTo(flat, x, t) && UpTo(flat, h, y)
  {
    var path :| Joins(flat, path, x, y) && |path| >= 2;
    t, h := CrossingOf(flat, s, path);
  }

  /** An edge that enters the jobs of `w` comes from an edge to `w` or to something around it. */
  lemma Enters(p: Pool, done: seq<set<Id>>, root: Id, flat: Adjacency, t: Id, h: Id, w: Id) returns (i: Id, u: Id, v: Id)
    requires Setting(p, done, root, flat) && w in Reached(p, done, root) && w < |p| && Edge(flat, t, h) && h in Jobs(p, w) && t !in Jobs(p, w)
    ensures Joint(p, done, root, i, u, v) && u < |p| && v < |p| && t in Tail(p, u) && h in Head(p, v) && Contains(p, v, w)
  {
    i, u, v := JointSource(p, done, root, flat, t, h);
    TargetIs(p, done, root, i, u, v);
    JointReached(p, done, root, i, u, v);
    EndsAreJobs(p, u);
    EndsAreJobs(p, v);
    hide Reached, Visited, Flattens, Meaning, Head, Tail, Jobs, Joint, Contains, Tree, Parts;
    Nested(p, done, root, v, w, h);
    if !Contains(p, v, w) {
      ContainsSelf(p, w);
      Mentions(p, done, root, w, v, i);
      ElemJobs(p, i, u);
    }
  }

  lemma ContainsSelf(p: Pool, w: Id)
    requires Built(p) && w < |p|
    ensures Contains(p, w, w)
  {
  }

  lemma JointReached(p: Pool, done: seq<set<Id>>, root: Id, i: Id, u: Id, v: Id)
    requires Holds(p, done) && root < |p| && Joint(p, done, root, i, u, v)
    ensures i in Reached(p, done, root) && u in Reached(p, done, root) && v in Reached(p, done, root) && i < |p| && u < |p| && v < |p|
    ensures OwnEdge(p[i].kind, i, done[i], u, v)
  {
  }

  /** What leads to an object from around the edge that mentions it, leads through that edge. */
  lemma Gateway(p: Pool, done: seq<set<Id>>, root: Id, flat: Adjacency, i: Id, v: Id, x: Id, y: Id) returns (u: Id, t: Id, h: Id)
    requires Setting(p, done, root, flat) && i in Reached(p, done, root) && v in Reached(p, done, root) && i < |p| && v < |p|
    requires v in Parts(p, done, i) && x in Jobs(p, i) && x !in Jobs(p, v) && y in Jobs(p, v) && Leads(flat, x, y)
    ensures Joint(p, done, root, i, u, v) && u < |p| && t in Tail(p, u) && h in Head(p, v) && UpTo(flat, x, t) && UpTo(flat, h, y)
  {
    t, h := Crossing(flat, Jobs(p, v), x, y);
    var i', v';
    i', u, v' := Enters(p, done, root, flat, t, h, v);
    TargetIs(p, done, root, i', u, v');
    JointReached(p, done, root, i', u, v');
    hide Reached, Visited, Flattens, Meaning, Head, Tail, Jobs, Contains, Tree, Parts, Leads, UpTo, Joint;
    if v' != v {
      Mentions(p, done, root, v', v, i);
      TailJob(p, u, t);
      JointMeans(p, done, root, i', u, v', t, x);
      NoWayBack(p, done, root, flat, x, t);
    } else {
      OnceMentioned(p, done, root, i, i', v);
    }
  }

  lemma TailJob(p: Pool, u: Id, t: Id)
    requires Built(p) && u < |p| && t in Tail(p, u)
    ensures t in Jobs(p, u) && HasJobs(p, u)
  {
    EndsAreJobs(p, u);
  }

  lemma HeadJob(p: Pool, v: Id, h: Id)
    requires Built(p) && v < |p| && h in Head(p, v)
    ensures h in Jobs(p, v) && HasJobs(p, v)
  {
    EndsAreJobs(p, v);
  }

  /** What leads over an edge between objects goes from a tail of the one to a head of the other. */
  lemma Through(p: Pool, done: seq<set<Id>>, root: Id, flat: Adjacency, i: Id, u: Id, v: Id, x: Id, y: Id) returns (t: Id, h: Id)
    requires Setting(p, done, root, flat) && Joint(p, done, root, i, u, v) && u < |p| && v < |p|
    requires x in Jobs(p, u) && y in Jobs(p, v) && Leads(flat, x, y)
    ensures t in Tail(p, u) && h in Head(p, v) && UpTo(flat, x, t) && UpTo(flat, h, y)
  {
    TargetIs(p, done, root, i, u, v);
    JointReached(p, done, root, i, u, v);
    NotInTarget(p, done, root, flat, i, u, v, x);
    var u';
    u', t, h := Gateway(p, done, root, flat, i, v, x, y);
    if u' != u {
      JointReached(p, done, root, i, u', v);
      hide Reached, Visited, Flattens, Meaning, Head, Tail, Jobs, Contains, Leads, UpTo, Joint;
      TwoSources(p, done, root, i, u, u', v);
      TailJob(p, u', t);
      Sideways(p, done, root, flat, i, u, u', x, t);
    }
  }

  lemma NotInTarget(p: Pool, done: seq<set<Id>>, root: Id, flat: Adjacency, i: Id, u: Id, v: Id, x: Id)
    requires Setting(p, done, root, flat) && Joint(p, done, root, i, u, v) && u < |p| && v < |p| && x in Jobs(p, u)
    ensures x !in Jobs(p, v)
  {
    if x in Jobs(p, v) { JointMeans(p, done, root, i, u, v, x, x); }
  }

  /** Only a group has two elements with an edge to the same object, which is attached to it. */
  lemma TwoSources(p: Pool, done: seq<set<Id>>, root: Id, i: Id, u: Id, u': Id, v: Id)
    requires Tree(p, done, root) && i in Reached(p, done, root) && i < |p| && u != u'
    requires OwnEdge(p[i].kind, i, done[i], u, v) && OwnEdge(p[i].kind, i, done[i], u', v)
    ensures p[i].kind.Group? && u in p[i].kind.members && u' in p[i].kind.members
  {
    UseTree(p, done, root, i);
    hide Reached, Tree;
    OwnTarget(p[i].kind, i, done[i], u, v);
    OwnTarget(p[i].kind, i, done[i], u', v);
    hide OwnEdge, Consecutive;
    if v in Elems(p[i].kind) { OnePredecessor(p[i].kind.elems, u, u', v); }
  }

  lemma OnePredecessor(es: seq<Id>, u: Id, u': Id, v: Id)
    requires Distinct(es) && Consecutive(es, u, v) && Consecutive(es, u', v)
    ensures u == u'
  {
    var k :| 0 <= k < |es| - 1 && es[k] == u && es[k + 1] == v;
    var k' :| 0 <= k' < |es| - 1 && es[k'] == u' && es[k' + 1] == v;
    assert k + 1 == k' + 1;
  }

  /** No job of one member of a group leads to a job of another. */
  lemma Sideways(p: Pool, done: seq<set<Id>>, root: Id, flat: Adjacency, i: Id, u: Id, u': Id, x: Id, t: Id)
    requires Setting(p, done, root, flat) && i in Reached(p, done, root) && i < |p| && p[i].kind.Group?
    requires u in p[i].kind.members && u' in p[i].kind.members && u != u' && u < |p| && u' < |p| && x in Jobs(p, u) && t in Jobs(p, u')
    ensures !UpTo(flat, x, t)
  {
    UseTree(p, done, root, i);
    ElemsDisjoint(p, done, root, i, u, u', x);
    ElemJobs(p, i, u);
    if UpTo(flat, x, t) {
      assert u' in Parts(p, done, i);
      hide Reached, Visited, Flattens, Meaning, Head, Tail, Jobs, Contains, Leads, Joint, Parts, Tree;
      var u2, t2, h2 := Gateway(p, done, root, flat, i, u', x, t);
      TargetIs(p, done, root, i, u2, u');
    }
  }

  /** Nothing inside an object leads to a job it begins with. */
  lemma FrontFirst(p: Pool, done: seq<set<Id>>, root: Id, flat: Adjacency, v: Id, h: Id, y: Id)
    requires Setting(p, done, root, flat) && v in Reached(p, done, root) && v < |p| && y in Right(p, v, Front) && h in Jobs(p, v)
    ensures !Leads(flat, h, y)
  {
    if Leads(flat, h, y) {
      var t := BeforeLast(flat, h, y);
      var i, u, v' := JointSource(p, done, root, flat, t, y);
      TargetIs(p, done, root, i, u, v');
      JointReached(p, done, root, i, u, v');
      hide Reached, Visited, Flattens, Meaning, Head, Tail, Jobs, Contains, Leads, Joint, Parts, Tree, Right;
      TailJob(p, u, t);
      HeadJob(p, v', y);
      RightAreJobs(p, v, Front);
      Nested(p, done, root, v', v, y);
      if Contains(p, v', v) {
        ContainsJobs(p, v', v);
        JointMeans(p, done, root, i, u, v', t, h);
        NoWayBack(p, done, root, flat, h, t);
      } else {
        ContainsSelf(p, v);
        Mentions(p, done, root, v, v', i);
        ElemJobs(p, i, v');
        RightInside(p, done, root, v, i, Front, y);
        NotBehind(p, done, root, i, u, v', y);
      }
    }
  }

  /** A job a chain begins with is in no element behind one that has jobs. */
  lemma NotBehind(p: Pool, done: seq<set<Id>>, root: Id, i: Id, u: Id, v: Id, y: Id)
    requires Tree(p, done, root) && i in Reached(p, done, root) && i < |p| && p[i].kind.Chain? && Consecutive(p[i].kind.elems, u, v)
    requires u < |p| && v < |p| && HasJobs(p, u) && y in Right(p, i, Front)
    ensures y !in Jobs(p, v)
  {
    UseTree(p, done, root, i);
    var f := RightElem(p, i, Front, y);
    hide Reached, Tree, Jobs, Right;
    RightAreJobs(p, f, Front);
    var es := p[i].kind.elems;
    var k :| 0 <= k < |es| - 1 && es[k] == u && es[k + 1] == v;
    if f != v { ElemsDisjoint(p, done, root, i, f, v, y); }
  }

  /** A job a chain ends with is in no element before one that has jobs. */
  lemma NotBefore(p: Pool, done: seq<set<Id>>, root: Id, i: Id, u: Id, v: Id, x: Id)
    requires Tree(p, done, root) && i in Reached(p, done, root) && i < |p| && p[i].kind.Chain? && Consecutive(p[i].kind.elems, u, v)
    requires u < |p| && v < |p| && HasJobs(p, v) && x in Right(p, i, Back)
    ensures x !in Jobs(p, u)
  {
    UseTree(p, done, root, i);
    var f := RightElem(p, i, Back, x);
    hide Reached, Tree, Jobs, Right;
    RightAreJobs(p, f, Back);
    var es := p[i].kind.elems;
    var k :| 0 <= k < |es| - 1 && es[k] == u && es[k + 1] == v;
    if f != u { ElemsDisjoint(p, done, root, i, f, u, x); }
  }

  /** A job an object ends with leads to nothing inside it. */
  lemma BackLast(p: Pool, done: seq<set<Id>>, root: Id, flat: Adjacency, u: Id, x: Id, t: Id)
    requires Setting(p, done, root, flat) && u in Reached(p, done, root) && u < |p| && x in Right(p, u, Back) && t in Jobs(p, u)
    ensures !Leads(flat, x, t)
  {
    if Leads(flat, x, t) {
      RightAreJobs(p, u, Back);
      var b := AfterFirst(flat, x, t);
      if b in Jobs(p, u) { NoStepInside(p, done, root, flat, u, x, b); }
      else {
        var t2, h2 := Crossing(flat, Jobs(p, u), b, t);
        var i, u2, v2 := Enters(p, done, root, flat, t2, h2, u);
        JointReached(p, done, root, i, u2, v2);
        EdgeLeads(flat, x, b);
        hide Reached, Visited, Flattens, Meaning, Head, Tail, Jobs, Contains, Leads, Joint, Parts, Tree, Right;
        if b != t2 { LeadsTrans(flat, x, b, t2); }
        TailJob(p, u2, t2);
        ContainsJobs(p, v2, u);
        JointMeans(p, done, root, i, u2, v2, t2, x);
        NoWayBack(p, done, root, flat, x, t2);
      }
    }
  }

  lemma NoStepInside(p: Pool, done: seq<set<Id>>, root: Id, flat: Adjacency, u: Id, x: Id, b: Id)
    requires Setting(p, done, root, flat) && u in Reached(p, done, root) && u < |p| && x in Right(p, u, Back) && b in Jobs(p, u)
    ensures !Edge(flat, x, b)
  {
    if Edge(flat, x, b) {
      var i, u', v' := JointSource(p, done, root, flat, x, b);
      TargetIs(p, done, root, i, u', v');
      JointReached(p, done, root, i, u', v');
      hide Reached, Visited, Flattens, Meaning, Head, Tail, Jobs, Contains, Leads, Joint, Parts, Tree, Right;
      TailJob(p, u', x);
      HeadJob(p, v', b);
      RightAreJobs(p, u, Back);
      Nested(p, done, root, v', u, b);
      if Contains(p, v', u) {
        ContainsJobs(p, v', u);
        JointMeans(p, done, root, i, u', v', x, x);
        NoWayBack(p, done, root, flat, x, x);
      } else {
        ContainsSelf(p, u);
        Mentions(p, done, root, u, v', i);
        RightInside(p, done, root, u, i, Back, x);
        NotBefore(p, done, root, i, u', v', x);
      }
    }
  }

  lemma BeforeLast(flat: Adjacency, x: Id, y: Id) returns (t: Id)
    requires Leads(flat, x, y)
    ensures Edge(flat, t, y) && UpTo(flat, x, t)
  {
    var path :| Joins(flat, path, x, y) && |path| >= 2;
    t := path[|path| - 2];
    assert Edge(flat, path[|path| - 2], path[|path| - 2 + 1]);
    if |path| > 2 { SubPath(flat, path, 0, |path| - 2); }
  }

  lemma AfterFirst(flat: Adjacency, x: Id, y: Id) returns (t: Id)
    requires Leads(flat, x, y)
    ensures Edge(flat, x, t) && UpTo(flat, t, y)
  {
    var path :| Joins(flat, path, x, y) && |path| >= 2;
    t := path[1];
    assert Edge(flat, path[0], path[0 + 1]);
    if |path| > 2 { SubPath(flat, path, 1, |path| - 1); }
  }

  // ---------------------------------------------------------------- what an unfaithful one loses

  /** An edge that is not served right leaves two jobs unordered that the expression orders. */
  lemma WrongEndsLose(p: Pool, done: seq<set<Id>>, root: Id, flat: Adjacency, i: Id, u: Id, v: Id) returns (x: Id, y: Id)
    requires Setting(p, done, root, flat) && Joint(p, done, root, i, u, v) && u < |p| && v < |p| && HasJobs(p, u) && HasJobs(p, v)
    requires !(Gives(p, u, Back, Back) && Gives(p, v, Front, Front))
    ensures Leads(Meaning(p, done, root), x, y) && !Leads(flat, x, y)
  {
    JointReached(p, done, root, i, u, v);
    hide Reached, Visited, Flattens, Gives, Leads, Joint, Right, Head, Tail, Jobs, Tree, Meaning;
    if !Gives(p, v, Front, Front) {
      y := Missing(p, done, root, v, Front, Front);
      x := RightJob(p, u, Back);
    } else {
      x := Missing(p, done, root, u, Back, Back);
      y := RightJob(p, v, Front);
    }
    RightAreJobs(p, u, Back);
    RightAreJobs(p, v, Front);
    JointMeans(p, done, root, i, u, v, x, y);
    if Leads(flat, x, y) {
      var t, h := Through(p, done, root, flat, i, u, v, x, y);
      TailJob(p, u, t);
      HeadJob(p, v, h);
      BackLast(p, done, root, flat, u, x, t);
      FrontFirst(p, done, root, flat, v, h, y);
    }
  }

  /** What can only be come to from `e`, which has no jobs, is not ordered. */
  lemma GapBlocks(p: Pool, done: seq<set<Id>>, root: Id, flat: Adjacency, i: Id, e: Id, v: Id, x: Id, y: Id)
    requires Setting(p, done, root, flat) && i in Reached(p, done, root) && v in Reached(p, done, root) && i < |p| && v < |p|
    requires v in Parts(p, done, i) && x in Jobs(p, i) && x !in Jobs(p, v) && y in Jobs(p, v)
    requires e < |p| && !HasJobs(p, e) && forall u: Id :: OwnEdge(p[i].kind, i, done[i], u, v) ==> u == e
    ensures !Leads(flat, x, y)
  {
    if Leads(flat, x, y) {
      hide Reached, Visited, Flattens, Head, Tail, Jobs, Leads, Parts, Tree, OwnEdge;
      var u, t, h := Gateway(p, done, root, flat, i, v, x, y);
      TailJob(p, u, t);
    }
  }

  /** The first element with jobs behind a gap. */
  lemma {:induction false} BehindGap(p: Pool, es: seq<Id>, b: nat, c: nat) returns (k: nat)
    requires Built(p) && (forall j :: 0 <= j < |es| ==> es[j] < |p|) && b < c < |es| && !HasJobs(p, es[b]) && HasJobs(p, es[c])
    ensures b < k <= c && HasJobs(p, es[k]) && !HasJobs(p, es[k - 1])
    decreases c - b
  {
    if HasJobs(p, es[b + 1]) { k := b + 1; } else { k := BehindGap(p, es, b + 1, c); }
  }

  lemma GapLoses(p: Pool, done: seq<set<Id>>, root: Id, flat: Adjacency, i: Id, a: nat, b: nat, c: nat) returns (x: Id, y: Id)
    requires Setting(p, done, root, flat) && i in Reached(p, done, root) && i < |p| && p[i].kind.Chain? && MadeOf(p[i].kind, i)
    requires a < b < c < |p[i].kind.elems|
    requires var es := p[i].kind.elems; HasJobs(p, es[a]) && !HasJobs(p, es[b]) && HasJobs(p, es[c])
    ensures Leads(Meaning(p, done, root), x, y) && !Leads(flat, x, y)
  {
    var es := p[i].kind.elems;
    var k := BehindGap(p, es, b, c);
    UseTree(p, done, root, i);
    hide Setting, Reached, HasJobs, Jobs, Meaning, Leads, Parts, Tree, Consecutive;
    x := SomeJob(p, es[a]);
    y := SomeJob(p, es[k]);
    UseSetting(p, done, root, flat);
    ElemsDisjoint(p, done, root, i, es[a], es[k], x);
    ElemJobs(p, i, es[a]);
    ElemIsPart(p, done, i, es[k]);
    ChainMeans(p, done, root, i, a, k, x, y);
    forall u: Id | OwnEdge(p[i].kind, i, done[i], u, es[k]) ensures u == es[k - 1] {
      OwnTarget(p[i].kind, i, done[i], u, es[k]);
      IsConsecutive(es, k);
      OnePredecessor(es, u, es[k - 1], es[k]);
    }
    GapBlocks(p, done, root, flat, i, es[k - 1], es[k], x, y);
  }

  lemma UseSetting(p: Pool, done: seq<set<Id>>, root: Id, flat: Adjacency)
    requires Setting(p, done, root, flat)
    ensures Tree(p, done, root) && Holds(p, done) && root < |p|
  {
  }

  lemma IsConsecutive(es: seq<Id>, k: nat)
    requires 0 < k < |es|
    ensures Consecutive(es, es[k - 1], es[k])
  {
    assert es[k - 1 + 1] == es[k];
  }

  lemma MeantIs(p: Pool, done: seq<set<Id>>, root: Id, i: Id, x: Id, y: Id)
    requires Holds(p, done) && root < |p| && i in Reached(p, done, root) && i < |p| && Orders(p, done, i, x, y)
    requires IsJob(p, x) && x in Reached(p, done, root) && y < |p|
    ensures Leads(Meaning(p, done, root), x, y)
  {
    assert Meant(p, done, root, x, y);
    EdgeLeads(Meaning(p, done, root), x, y);
  }

  lemma ChainMeans(p: Pool, done: seq<set<Id>>, root: Id, i: Id, a: nat, b: nat, x: Id, y: Id)
    requires Tree(p, done, root) && i in Reached(p, done, root) && i < |p| && p[i].kind.Chain? && MadeOf(p[i].kind, i)
    requires a < b < |p[i].kind.elems| && x in Jobs(p, p[i].kind.elems[a]) && y in Jobs(p, p[i].kind.elems[b])
    ensures Leads(Meaning(p, done, root), x, y)
  {
    UseTree(p, done, root, i);
    RootReached(p, done, root);
    assert Orders(p, done, i, x, y);
    var es := p[i].kind.elems;
    hide Reached, Leads, Orders;
    JobsReached(p, done, root, es[a], x);
    JobsReached(p, done, root, es[b], y);
    MeantIs(p, done, root, i, x, y);
  }

  /** A chain whose last element has no jobs loses the order to what is attached to it. */
  lemma OpenEndLoses(p: Pool, done: seq<set<Id>>, root: Id, flat: Adjacency, i: Id, d: Id) returns (x: Id, y: Id)
    requires Setting(p, done, root, flat) && i in Reached(p, done, root) && i < |p| && p[i].kind.Chain? && MadeOf(p[i].kind, i)
    requires d in done[i] && d < |p| && HasJobs(p, d) && HasJobs(p, i) && !HasJobs(p, p[i].kind.elems[|p[i].kind.elems| - 1])
    ensures Leads(Meaning(p, done, root), x, y) && !Leads(flat, x, y)
  {
    UseSetting(p, done, root, flat);
    UseTree(p, done, root, i);
    AttachedReached(p, done, root, i, d);
    var last := p[i].kind.elems[|p[i].kind.elems| - 1];
    OnlyFromLast(p[i].kind, i, done[i], d);
    hide Setting, Reached, HasJobs, Jobs, Meaning, Leads, Parts, Tree, Holds, OwnEdge, Elems, MadeOf;
    x := SomeJob(p, i);
    y := SomeJob(p, d);
    DoneMeans(p, done, root, i, d, x, y);
    NotAlsoAttached(p, done, root, flat, i, d, x);
    GapBlocks(p, done, root, flat, i, last, d, x, y);
  }

  lemma OnlyFromLast(kind: Kind, i: Id, done: set<Id>, d: Id)
    requires kind.Chain? && MadeOf(kind, i) && Elems(kind) !! done && d in done
    ensures forall u: Id :: OwnEdge(kind, i, done, u, d) ==> u == kind.elems[|kind.elems| - 1]
  {
    forall u: Id | OwnEdge(kind, i, done, u, d) ensures u == kind.elems[|kind.elems| - 1] { OwnTarget(kind, i, done, u, d); }
  }

  lemma AttachedReached(p: Pool, done: seq<set<Id>>, root: Id, i: Id, d: Id)
    requires Holds(p, done) && root < |p| && i in Reached(p, done, root) && i < |p| && d in done[i] && d < |p|
    ensures d in Parts(p, done, i) && d in Reached(p, done, root)
  {
    assert d in Parts(p, done, i);
    hide Reached;
    PartReached(p, done, root, i, d);
  }

  lemma NotAlsoAttached(p: Pool, done: seq<set<Id>>, root: Id, flat: Adjacency, i: Id, d: Id, x: Id)
    requires Setting(p, done, root, flat) && i in Reached(p, done, root) && d in Reached(p, done, root) && i < |p| && d < |p|
    requires d in done[i] && x in Jobs(p, i)
    ensures x !in Jobs(p, d)
  {
    RootReached(p, done, root);
    hide Reached, Jobs, Meaning, Leads;
    if x in Jobs(p, d) { DoneMeans(p, done, root, i, d, x, x); }
  }

  lemma DoneMeans(p: Pool, done: seq<set<Id>>, root: Id, i: Id, d: Id, x: Id, y: Id)
    requires Holds(p, done) && root < |p| && i in Reached(p, done, root) && d in Reached(p, done, root) && i < |p| && d < |p| && d in done[i]
    requires x in Jobs(p, i) && y in Jobs(p, d)
    ensures Leads(Meaning(p, done, root), x, y)
  {
    assert Orders(p, done, i, x, y);
    RootReached(p, done, root);
    hide Reached, Leads, Orders;
    JobsReached(p, done, root, i, x);
    JobsReached(p, done, root, d, y);
    MeantIs(p, done, root, i, x, y);
  }

  lemma EdgeReached(p: Pool, done: seq<set<Id>>, root: Id, i: Id, u: Id)
    requires Holds(p, done) && i in Reached(p, done, root) && u in p[i].graph
    ensures u in Reached(p, done, root)
  {
    assert MadeOf(p[i].kind, i) && Represents(p[i], i, done[i]);
    hide Reached;
    if u != i || !p[i].kind.Delayable? { PartReached(p, done, root, i, u); }
  }

  // ------------------------------------------------------------------- what is not visited

  /** What is visited is the root or mentioned by something visited. */
  lemma VisitedMention(p: Pool, done: seq<set<Id>>, root: Id, w: Id) returns (k: Id)
    requires Holds(p, done) && root < |p| && w in Visited(p, root) && w != root
    ensures k in Visited(p, root) && k < |p| && w in Parts(p, done, k)
  {
    RootVisited(p, root);
    var m := set v | v in Visited(p, root) && (v == root || exists k :: k in Visited(p, root) && v in MentionedBy(p, done, k));
    forall i, v | i in m && i < |p| && v in p[i].graph ensures v in m {
      assert MadeOf(p[i].kind, i) && Represents(p[i], i, done[i]);
      if v != i || !p[i].kind.Delayable? {
        assert v in MentionedBy(p, done, i);
        VisitNext(p, root, i, v);
      }
    }
    VisitedLeast(p, root, m);
    k :| k in Visited(p, root) && w in MentionedBy(p, done, k);
  }

  function MentionedBy(p: Pool, done: seq<set<Id>>, k: Id): set<Id>
    requires |p| == |done|
  {
    if k < |p| then Parts(p, done, k) else {}
  }

  /** In a tree, an object with a visited job is visited. */
  lemma {:induction false} AroundVisited(p: Pool, done: seq<set<Id>>, root: Id, i: Id, w: Id)
    requires Tree(p, done, root) && i in Reached(p, done, root) && i < |p| && Contains(p, i, w) && w in Visited(p, root)
    ensures i in Visited(p, root)
    decreases i - w
  {
    if w != i {
      VisitedReached(p, done, root);
      RootVisited(p, root);
      hide Reached, Visited, Contains, Tree, Parts;
      var q := ParentOf(p, done, root, i, w);
      UseTree(p, done, root, q);
      ElemIsPart(p, done, q, w);
      var k := VisitedMention(p, done, root, w);
      OnceMentioned(p, done, root, q, k, w);
      UseTree(p, done, root, i);
      ContainsJobs(p, i, q);
      AroundVisited(p, done, root, i, q);
    }
  }

  lemma UnvisitedLoses(p: Pool, done: seq<set<Id>>, root: Id, flat: Adjacency, i: Id) returns (x: Id)
    requires Setting(p, done, root, flat) && i in Reached(p, done, root) && i < |p| && HasJobs(p, i) && i !in Visited(p, root)
    ensures x in Meaning(p, done, root) && x !in flat
  {
    x := SomeJob(p, i);
    FlatVertices(p, done, root, flat);
    JobsReached(p, done, root, i, x);
    hide Visited, Flattens;
    HasJob(p, done, root, i, x);
    if x in Visited(p, root) { AroundVisited(p, done, root, i, x); }
  }

  // -------------------------------------------------------------------------- main result

  /** The same jobs in the same order. */
  ghost predicate Preserved(p: Pool, done: seq<set<Id>>, root: Id, flat: Adjacency)
    requires Holds(p, done)
  {
    var meaning := Meaning(p, done, root);
    flat.Keys == meaning.Keys && forall x, y :: Leads(flat, x, y) <==> Leads(meaning, x, y)
  }

  lemma UnservedLoses(p: Pool, done: seq<set<Id>>, root: Id, flat: Adjacency, i: Id) returns (x: Id, y: Id)
    requires Setting(p, done, root, flat) && i in Reached(p, done, root) && i < |p| && !EdgesServed(p, done, i)
    ensures Leads(Meaning(p, done, root), x, y) && !Leads(flat, x, y)
  {
    UseSetting(p, done, root, flat);
    hide Setting, Meaning, Leads, Reached, OwnEdge, Gives, HasJobs;
    var u: Id, v: Id :| OwnEdge(p[i].kind, i, done[i], u, v) && u < |p| && v < |p| && HasJobs(p, u) && HasJobs(p, v)
                        && !(Gives(p, u, Back, Back) && Gives(p, v, Front, Front));
    JoinedBy(p, done, root, i, u, v);
    x, y := WrongEndsLose(p, done, root, flat, i, u, v);
  }

  lemma FindGap(p: Pool, es: seq<Id>) returns (a: nat, b: nat, c: nat)
    requires Built(p) && (forall k :: 0 <= k < |es| ==> es[k] < |p|) && !NoGap(p, es)
    ensures a < b < c < |es| && HasJobs(p, es[a]) && !HasJobs(p, es[b]) && HasJobs(p, es[c])
  {
    a, b, c :| 0 <= a < b < c < |es| && HasJobs(p, es[a]) && HasJobs(p, es[c]) && !HasJobs(p, es[b]);
  }

  lemma GapsLose(p: Pool, done: seq<set<Id>>, root: Id, flat: Adjacency, i: Id) returns (x: Id, y: Id)
    requires Setting(p, done, root, flat) && i in Reached(p, done, root) && i < |p| && !Gapless(p, done, i)
    ensures Leads(Meaning(p, done, root), x, y) && !Leads(flat, x, y)
  {
    UseTree(p, done, root, i);
    hide Setting, Meaning, Leads, Reached, HasJobs, NoGap, Tree, Elems, Parts;
    var es := p[i].kind.elems;
    if !NoGap(p, es) {
      var a, b, c := FindGap(p, es);
      x, y := GapLoses(p, done, root, flat, i, a, b, c);
    } else {
      var d :| d in done[i] && HasJobs(p, d) && HasJobs(p, i) && !HasJobs(p, es[|es| - 1]);
      x, y := OpenEndLoses(p, done, root, flat, i, d);
    }
  }

  /** An object that is not served right leaves two jobs unordered that the expression orders. */
  lemma UnfaithfulLoses(p: Pool, done: seq<set<Id>>, root: Id, flat: Adjacency, i: Id) returns (x: Id, y: Id)
    requires Setting(p, done, root, flat) && i in Reached(p, done, root) && i < |p| && !FaithfulAt(p, done, i)
    ensures Leads(Meaning(p, done, root), x, y) && !Leads(flat, x, y)
  {
    if !EdgesServed(p, done, i) { x, y := UnservedLoses(p, done, root, flat, i); }
    else { x, y := GapsLose(p, done, root, flat, i); }
  }

  lemma JoinedBy(p: Pool, done: seq<set<Id>>, root: Id, i: Id, u: Id, v: Id)
    requires Holds(p, done) && i in Reached(p, done, root) && i < |p| && OwnEdge(p[i].kind, i, done[i], u, v)
    ensures Joint(p, done, root, i, u, v)
  {
    OwnEdgeIn(p, done, i, u, v);
    EdgeReached(p, done, root, i, u);
    EdgeReached(p, done, root, i, v);
  }

  /**
   For every expression that mentions its objects once, flattening keeps its jobs and their order if and only if everything that has jobs is visited, every edge joins
   objects whose computed tails and heads are the real ones, and no chain has a gap.
   */
  lemma MeaningPreservedExactlyWhen(p: Pool, done: seq<set<Id>>, root: Id, flat: Adjacency)
    requires Tree(p, done, root) && Closed(p) && Flattens(p, Visited(p, root), flat)
    ensures Preserved(p, done, root, flat) <==> Faithful(p, done, root)
  {
    RootReached(p, done, root);
    if Faithful(p, done, root) {
      hide Leads, Faithful, Meaning, Flattens, Visited;
      FlatteningPreservesMeaning(p, done, root, flat);
    } else {
      TreeIsAcyclic(p, done, root);
      assert Setting(p, done, root, flat);
      var i :| i in Reached(p, done, root) && !((HasJobs(p, i) ==> i in Visited(p, root)) && FaithfulAt(p, done, i));
      hide Leads, Faithful, Meaning, Flattens, Visited, Reached, Setting, FaithfulAt, Tree;
      if !FaithfulAt(p, done, i) { var x, y := UnfaithfulLoses(p, done, root, flat, i); }
      else { var x := UnvisitedLoses(p, done, root, flat, i); }
    }
  }
}
