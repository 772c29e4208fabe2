/**
 Expressions that mention each object once: how their objects are nested, and that they never ask
 for a cycle.
 */
module DelayableTree {
  import opened JobGraph
  import opened Delayables
  import opened DelayableMeaning

  ghost predicate TreeAt(p: Pool, done: seq<set<Id>>, root: Id, i: Id)
    requires Holds(p, done) && i < |p|
  {
    && (p[i].kind.Chain? ==> Distinct(p[i].kind.elems))
    && Elems(p[i].kind) !! done[i]
    && root !in Parts(p, done, i)
    && (forall j, e :: j in Reached(p, done, root) && e in Parts(p, done, i) && e in Parts(p, done, j) ==> i == j)
  }

  /** The root is the top of the expression, and every other object is mentioned once. */
  ghost predicate Tree(p: Pool, done: seq<set<Id>>, root: Id) {
    && Holds(p, done) && root < |p|
    && forall i :: i in Reached(p, done, root) ==> TreeAt(p, done, root, i)
  }

  /** What one reached object of a tree tells, without unfolding the rest. */
  lemma UseTree(p: Pool, done: seq<set<Id>>, root: Id, i: Id)
    requires Tree(p, done, root) && i in Reached(p, done, root)
    ensures Holds(p, done) && i < |p| && MadeOf(p[i].kind, i)
    ensures p[i].kind.Chain? ==> Distinct(p[i].kind.elems)
    ensures Elems(p[i].kind) !! done[i] && root !in Parts(p, done, i)
    ensures forall e :: e in Elems(p[i].kind) ==> e < i && e in Reached(p, done, root)
  {
    assert i < |p| && TreeAt(p, done, root, i);
    hide Reached;
    forall e | e in Elems(p[i].kind) ensures e < i && e in Reached(p, done, root) {
      assert MadeOf(p[i].kind, i) && e in Parts(p, done, i);
      PartReached(p, done, root, i, e);
    }
  }

  lemma OnceMentioned(p: Pool, done: seq<set<Id>>, root: Id, i: Id, j: Id, e: Id)
    requires Tree(p, done, root) && i in Reached(p, done, root) && j in Reached(p, done, root)
    requires e in Parts(p, done, i) && e in Parts(p, done, j)
    ensures i == j
  {
    assert i < |p| && TreeAt(p, done, root, i);
    hide Reached;
  }

  // ------------------------------------------------------------------------ containment

  ghost predicate Contains(p: Pool, a: Id, b: Id)
    requires Built(p) && a < |p|
    decreases a
  {
    a == b || exists e :: e in Elems(p[a].kind) && MadeOf(p[a].kind, a) && Contains(p, e, b)
  }

  lemma {:induction false} ContainsReached(p: Pool, done: seq<set<Id>>, root: Id, a: Id, b: Id)
    requires Tree(p, done, root) && a in Reached(p, done, root) && Contains(p, a, b)
    ensures b in Reached(p, done, root) && b <= a
    decreases a
  {
    hide Reached, Tree;
    UseTree(p, done, root, a);
    if a != b {
      var e :| e in Elems(p[a].kind) && MadeOf(p[a].kind, a) && Contains(p, e, b);
      ContainsReached(p, done, root, e, b);
    }
  }

  /** What is contained properly is an element of something contained. */
  lemma {:induction false} ParentOf(p: Pool, done: seq<set<Id>>, root: Id, a: Id, b: Id) returns (q: Id)
    requires Tree(p, done, root) && a in Reached(p, done, root) && Contains(p, a, b) && a != b
    ensures q in Reached(p, done, root) && b in Elems(p[q].kind) && Contains(p, a, q)
    decreases a
  {
    hide Reached, Tree;
    UseTree(p, done, root, a);
    var e :| e in Elems(p[a].kind) && MadeOf(p[a].kind, a) && Contains(p, e, b);
    if e == b { q := a; }
    else {
      q := ParentOf(p, done, root, e, b);
    }
  }

  lemma JobOfElem(p: Pool, done: seq<set<Id>>, root: Id, i: Id, x: Id) returns (e: Id)
    requires Tree(p, done, root) && i in Reached(p, done, root) && x in Jobs(p, i) && !p[i].kind.Delayable?
    ensures e in Elems(p[i].kind) && e < i && x in Jobs(p, e) && e in Reached(p, done, root)
  {
    UseTree(p, done, root, i);
    hide Reached, Tree;
    match p[i].kind
    case Chain(es) =>
      var k :| 0 <= k < |es| && x in Jobs(p, es[k]);
      e := es[k];
    case Group(ms) =>
      e :| e in ms && x in Jobs(p, e);
  }

  lemma {:induction false} ContainsJobs(p: Pool, a: Id, b: Id)
    requires Built(p) && a < |p| && Contains(p, a, b)
    ensures b <= a && Jobs(p, b) <= Jobs(p, a)
    decreases a
  {
    hide Jobs;
    assert MadeOf(p[a].kind, a);
    if a != b {
      var e :| e in Elems(p[a].kind) && MadeOf(p[a].kind, a) && Contains(p, e, b);
      ContainsJobs(p, e, b);
      ElemJobs(p, a, e);
    }
  }

  /** Of two objects that share a job, one contains the other. */
  lemma {:induction false} Nested(p: Pool, done: seq<set<Id>>, root: Id, v: Id, w: Id, x: Id)
    requires Tree(p, done, root) && v in Reached(p, done, root) && w in Reached(p, done, root)
    requires x in Jobs(p, v) && x in Jobs(p, w)
    ensures Contains(p, v, w) || Contains(p, w, v)
    decreases v
  {
    UseTree(p, done, root, v);
    if p[v].kind.Delayable? {
      assert x == v;
      HasJob(p, done, root, w, x);
    } else {
      hide Reached, Tree, Jobs;
      var e := JobOfElem(p, done, root, v, x);
      Nested(p, done, root, e, w, x);
      if Contains(p, e, w) { assert Contains(p, v, w); }
      else {
        var q := ParentOf(p, done, root, w, e);
        OnceMentioned(p, done, root, q, v, e);
      }
    }
  }

  lemma {:induction false} HasJob(p: Pool, done: seq<set<Id>>, root: Id, w: Id, x: Id)
    requires Tree(p, done, root) && w in Reached(p, done, root) && x in Jobs(p, w)
    ensures Contains(p, w, x)
    decreases w
  {
    UseTree(p, done, root, w);
    hide Reached, Tree;
    if !p[w].kind.Delayable? {
      var e := JobOfElem(p, done, root, w, x);
      HasJob(p, done, root, e, x);
    }
  }

  /** Different elements of an object have no job in common. */
  lemma ElemsDisjoint(p: Pool, done: seq<set<Id>>, root: Id, i: Id, e: Id, f: Id, x: Id)
    requires Tree(p, done, root) && i in Reached(p, done, root) && e in Elems(p[i].kind) && f in Elems(p[i].kind) && e != f
    requires e < |p| && f < |p| && x in Jobs(p, e)
    ensures x !in Jobs(p, f)
  {
    if x in Jobs(p, f) {
      hide Reached, Tree, Jobs;
      UseTree(p, done, root, i);
      Nested(p, done, root, e, f, x);
      if Contains(p, e, f) { NotInside(p, done, root, i, e, f); } else { NotInside(p, done, root, i, f, e); }
    }
  }

  lemma NotInside(p: Pool, done: seq<set<Id>>, root: Id, i: Id, e: Id, f: Id)
    requires Tree(p, done, root) && i in Reached(p, done, root) && e in Elems(p[i].kind) && f in Elems(p[i].kind) && e != f
    requires e < |p|
    ensures !Contains(p, e, f)
  {
    UseTree(p, done, root, i);
    hide Reached, Tree;
    if Contains(p, e, f) {
      var q := ParentOf(p, done, root, e, f);
      OnceMentioned(p, done, root, q, i, f);
      ContainsReached(p, done, root, e, i);
    }
  }

  // -------------------------------------------------------------------------- addresses

  /** The place of `e` among what `kind` mentions: elements in order, then what is attached. */
  ghost function Place(kind: Kind, e: Id): nat {
    match kind
    case Delayable => 1
    case Chain(es) => if e in es then (var k :| 0 <= k < |es| && es[k] == e; k) else |es|
    case Group(ms) => if e in ms then 0 else 1
  }

  /** `w` leads from the root to `o`, place by place. */
  ghost predicate AddressOf(p: Pool, done: seq<set<Id>>, root: Id, w: seq<nat>, o: Id)
    requires |p| == |done|
    decreases |w|
  {
    if w == [] then o == root
    else exists q :: q in Reached(p, done, root) && AddressOf(p, done, root, w[..|w| - 1], q) && MentionedAt(p, done, q, o, w[|w| - 1])
  }

  ghost predicate MentionedAt(p: Pool, done: seq<set<Id>>, q: Id, o: Id, k: nat)
    requires |p| == |done|
  {
    q < |p| && o in Parts(p, done, q) && k == Place(p[q].kind, o)
  }

  ghost predicate HasAddress(p: Pool, done: seq<set<Id>>, root: Id, o: Id)
    requires |p| == |done|
  {
    exists w :: AddressOf(p, done, root, w, o)
  }

  lemma AddressOn(p: Pool, done: seq<set<Id>>, root: Id, w: seq<nat>, q: Id, o: Id)
    requires |p| == |done| && q in Reached(p, done, root) && q < |p| && AddressOf(p, done, root, w, q) && o in Parts(p, done, q)
    ensures AddressOf(p, done, root, w + [Place(p[q].kind, o)], o)
  {
    var v := w + [Place(p[q].kind, o)];
    assert v[..|v| - 1] == w && MentionedAt(p, done, q, o, v[|v| - 1]);
  }

  lemma AllHaveAddresses(p: Pool, done: seq<set<Id>>, root: Id, o: Id)
    requires Holds(p, done) && root < |p| && o in Reached(p, done, root)
    ensures HasAddress(p, done, root, o)
  {
    RootReached(p, done, root);
    var m := set i | i in Reached(p, done, root) && HasAddress(p, done, root, i);
    assert AddressOf(p, done, root, [], root);
    hide Reached;
    forall i, v | i in m && i < |p| && v in Parts(p, done, i) ensures v in m {
      assert MadeOf(p[i].kind, i) && forall d :: d in done[i] ==> d < |p|;
      PartReached(p, done, root, i, v);
      var w :| AddressOf(p, done, root, w, i);
      AddressOn(p, done, root, w, i, v);
    }
    ReachedLeast(p, done, root, m);
  }

  lemma {:induction false} OneAddress(p: Pool, done: seq<set<Id>>, root: Id, w: seq<nat>, w': seq<nat>, o: Id)
    requires Tree(p, done, root) && AddressOf(p, done, root, w, o) && AddressOf(p, done, root, w', o)
    ensures w == w'
    decreases |w|
  {
    assert |p| == |done|;
    hide Reached, Tree, AddressOf, MentionedAt, Parts, Place, Holds;
    if w == [] { RootAddress(p, done, root, w', o); }
    else if w' == [] { RootAddress(p, done, root, w, o); }
    else {
      var q := LastMention(p, done, root, w, o);
      var q' := LastMention(p, done, root, w', o);
      SameMention(p, done, root, q, q', o, w[|w| - 1], w'[|w'| - 1]);
      OneAddress(p, done, root, w[..|w| - 1], w'[..|w'| - 1], q);
      SameEnds(w, w');
    }
  }

  lemma LastMention(p: Pool, done: seq<set<Id>>, root: Id, w: seq<nat>, o: Id) returns (q: Id)
    requires |p| == |done| && w != [] && AddressOf(p, done, root, w, o)
    ensures q in Reached(p, done, root) && AddressOf(p, done, root, w[..|w| - 1], q) && MentionedAt(p, done, q, o, w[|w| - 1])
  {
    q :| q in Reached(p, done, root) && AddressOf(p, done, root, w[..|w| - 1], q) && MentionedAt(p, done, q, o, w[|w| - 1]);
  }

  lemma SameEnds(w: seq<nat>, v: seq<nat>)
    requires w != [] && v != [] && w[..|w| - 1] == v[..|v| - 1] && w[|w| - 1] == v[|v| - 1]
    ensures w == v
  {
    assert w == w[..|w| - 1] + [w[|w| - 1]] && v == v[..|v| - 1] + [v[|v| - 1]];
  }

  lemma RootAddress(p: Pool, done: seq<set<Id>>, root: Id, w: seq<nat>, o: Id)
    requires Tree(p, done, root) && AddressOf(p, done, root, [], o) && AddressOf(p, done, root, w, o)
    ensures w == []
  {
  }

  lemma SameMention(p: Pool, done: seq<set<Id>>, root: Id, q: Id, q': Id, o: Id, k: nat, k': nat)
    requires Tree(p, done, root) && q in Reached(p, done, root) && q' in Reached(p, done, root)
    requires MentionedAt(p, done, q, o, k) && MentionedAt(p, done, q', o, k')
    ensures q == q' && k == k'
  {
    OnceMentioned(p, done, root, q, q', o);
  }

  ghost function Address(p: Pool, done: seq<set<Id>>, root: Id, o: Id): (w: seq<nat>)
    requires Holds(p, done) && root < |p| && o in Reached(p, done, root)
    ensures AddressOf(p, done, root, w, o)
  {
    AllHaveAddresses(p, done, root, o);
    var w :| AddressOf(p, done, root, w, o);
    w
  }

  lemma AddressStep(p: Pool, done: seq<set<Id>>, root: Id, q: Id, o: Id)
    requires Tree(p, done, root) && q in Reached(p, done, root) && q < |p| && o in Parts(p, done, q) && o in Reached(p, done, root)
    ensures Address(p, done, root, o) == Address(p, done, root, q) + [Place(p[q].kind, o)]
  {
    var w := Address(p, done, root, q);
    hide Tree, Reached, AddressOf, Parts;
    AddressOn(p, done, root, w, q, o);
    OneAddress(p, done, root, Address(p, done, root, o), w + [Place(p[q].kind, o)], o);
  }

  /** A job's address continues that of every object it is part of. */
  lemma {:induction false} AddressOfJob(p: Pool, done: seq<set<Id>>, root: Id, o: Id, x: Id)
    requires Tree(p, done, root) && o in Reached(p, done, root) && o < |p| && x in Jobs(p, o)
    ensures x in Reached(p, done, root) && Address(p, done, root, o) <= Address(p, done, root, x)
    decreases o
  {
    UseTree(p, done, root, o);
    JobsReached(p, done, root, o, x);
    if p[o].kind.Delayable? { assert x == o; }
    else {
      hide Tree, Reached, Jobs, Address, Parts;
      var e := JobOfElem(p, done, root, o, x);
      ElemIsPart(p, done, o, e);
      AddressStep(p, done, root, o, e);
      AddressOfJob(p, done, root, e, x);
    }
  }

  lemma ElemIsPart(p: Pool, done: seq<set<Id>>, i: Id, e: Id)
    requires Holds(p, done) && i < |p| && e in Elems(p[i].kind)
    ensures e in Parts(p, done, i) && MadeOf(p[i].kind, i)
  {
  }

  // ----------------------------------------------------------------- the order of addresses

  /** Lexicographic order; a proper prefix comes first. */
  predicate Earlier(w: seq<nat>, v: seq<nat>)
    decreases |w|
  {
    v != [] && (w == [] || w[0] < v[0] || (w[0] == v[0] && Earlier(w[1..], v[1..])))
  }

  lemma {:induction false} EarlierTrans(a: seq<nat>, b: seq<nat>, c: seq<nat>)
    requires Earlier(a, b) && Earlier(b, c)
    ensures Earlier(a, c)
    decreases |a|
  {
    if a != [] && a[0] == b[0] == c[0] { EarlierTrans(a[1..], b[1..], c[1..]); }
  }

  lemma {:induction false} NotEarlier(w: seq<nat>)
    ensures !Earlier(w, w)
    decreases |w|
  {
    if w != [] { NotEarlier(w[1..]); }
  }

  /** What continues an earlier place is earlier. */
  lemma {:induction false} EarlierPlace(o: seq<nat>, a: nat, b: nat, w: seq<nat>, v: seq<nat>)
    requires a < b && o + [a] <= w && o + [b] <= v
    ensures Earlier(w, v)
    decreases |o|
  {
    if o == [] { assert w[0] == a && v[0] == b; }
    else {
      assert w[0] == o[0] == v[0];
      assert o[1..] + [a] == (o + [a])[1..] && o[1..] + [b] == (o + [b])[1..];
      EarlierPlace(o[1..], a, b, w[1..], v[1..]);
    }
  }

  lemma {:induction false} PrefixEarlier(w: seq<nat>, v: seq<nat>)
    requires w <= v && w != v
    ensures Earlier(w, v)
    decreases |w|
  {
    if w != [] { PrefixEarlier(w[1..], v[1..]); }
  }

  // ------------------------------------------------------------------------- no cycles

  lemma ChainEarlier(p: Pool, done: seq<set<Id>>, root: Id, i: Id, a: nat, b: nat, x: Id, y: Id)
    requires Tree(p, done, root) && i in Reached(p, done, root) && i < |p| && p[i].kind.Chain? && MadeOf(p[i].kind, i)
    requires a < b < |p[i].kind.elems| && x in Jobs(p, p[i].kind.elems[a]) && y in Jobs(p, p[i].kind.elems[b])
    ensures x in Reached(p, done, root) && y in Reached(p, done, root) && Earlier(Address(p, done, root, x), Address(p, done, root, y))
  {
    UseTree(p, done, root, i);
    var es := p[i].kind.elems;
    PlaceInChain(es, a);
    PlaceInChain(es, b);
    ElemIsPart(p, done, i, es[a]);
    ElemIsPart(p, done, i, es[b]);
    hide Tree, Reached, Jobs, Address, Parts, Earlier, Place;
    AddressStep(p, done, root, i, es[a]);
    AddressStep(p, done, root, i, es[b]);
    AddressOfJob(p, done, root, es[a], x);
    AddressOfJob(p, done, root, es[b], y);
    EarlierPlace(Address(p, done, root, i), a, b, Address(p, done, root, x), Address(p, done, root, y));
  }

  lemma PlaceInChain(es: seq<Id>, a: nat)
    requires Distinct(es) && a < |es|
    ensures Place(Chain(es), es[a]) == a
  {
  }

  lemma DoneEarlier(p: Pool, done: seq<set<Id>>, root: Id, i: Id, d: Id, x: Id, y: Id)
    requires Tree(p, done, root) && i in Reached(p, done, root) && i < |p| && d in done[i] && d < |p| && x in Jobs(p, i) && y in Jobs(p, d)
    ensures x in Reached(p, done, root) && y in Reached(p, done, root) && Earlier(Address(p, done, root, x), Address(p, done, root, y))
  {
    UseTree(p, done, root, i);
    assert d in Parts(p, done, i);
    PartReached(p, done, root, i, d);
    AddressStep(p, done, root, i, d);
    AddressOfJob(p, done, root, d, y);
    AddressOfJob(p, done, root, i, x);
    if p[i].kind.Delayable? {
      assert x == i;
      PrefixEarlier(Address(p, done, root, x), Address(p, done, root, y));
    } else {
      hide Tree, Reached, Jobs, Address, Parts, Earlier;
      var e := JobOfElem(p, done, root, i, x);
      ElemIsPart(p, done, i, e);
      AddressStep(p, done, root, i, e);
      AddressOfJob(p, done, root, e, x);
      EarlierPlace(Address(p, done, root, i), Place(p[i].kind, e), Place(p[i].kind, d), Address(p, done, root, x), Address(p, done, root, y));
    }
  }

  lemma MeantEarlier(p: Pool, done: seq<set<Id>>, root: Id, x: Id, y: Id)
    requires Tree(p, done, root) && Edge(Meaning(p, done, root), x, y)
    ensures x in Reached(p, done, root) && y in Reached(p, done, root) && Earlier(Address(p, done, root, x), Address(p, done, root, y))
  {
    var i :| i in Reached(p, done, root) && Orders(p, done, i, x, y);
    UseTree(p, done, root, i);
    hide Tree, Reached, Address, Earlier;
    if ChainOrders(p, i, x, y) {
      var a, b :| 0 <= a < b < |p[i].kind.elems| && x in Jobs(p, p[i].kind.elems[a]) && y in Jobs(p, p[i].kind.elems[b]);
      ChainEarlier(p, done, root, i, a, b, x, y);
    } else {
      var d :| d in done[i] && y in Jobs(p, d);
      DoneEarlier(p, done, root, i, d, x, y);
    }
  }

  lemma {:induction false} PathEarlier(p: Pool, done: seq<set<Id>>, root: Id, path: seq<Id>)
    requires Tree(p, done, root) && IsPath(Meaning(p, done, root), path) && |path| >= 2
    ensures path[0] in Reached(p, done, root) && path[|path| - 1] in Reached(p, done, root)
    ensures Earlier(Address(p, done, root, path[0]), Address(p, done, root, path[|path| - 1]))
    decreases |path|
  {
    var n := |path| - 2;
    ButLast(Meaning(p, done, root), path);
    hide IsPath;
    MeantEarlier(p, done, root, path[n], path[n + 1]);
    if n > 0 {
      hide Tree, Reached, Address, Earlier, Meaning;
      PathEarlier(p, done, root, path[..|path| - 1]);
      EarlierTrans(Address(p, done, root, path[0]), Address(p, done, root, path[n]), Address(p, done, root, path[n + 1]));
    }
  }

  /** An expression that mentions each object once never asks for a cycle. */
  lemma TreeIsAcyclic(p: Pool, done: seq<set<Id>>, root: Id)
    requires Tree(p, done, root)
    ensures Acyclic(Meaning(p, done, root))
  {
    forall u ensures !Leads(Meaning(p, done, root), u, u) {
      if Leads(Meaning(p, done, root), u, u) {
        var path :| Joins(Meaning(p, done, root), path, u, u) && |path| >= 2;
        PathEarlier(p, done, root, path);
        NotEarlier(Address(p, done, root, u));
      }
    }
  }
}
