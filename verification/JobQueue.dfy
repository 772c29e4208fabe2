/**
 The ordering of channel jobs and the lazy-deletion priority queue that holds them.

 A channel job is an object: it is known by its reference (its identity), and its sorting
 key sits in a store that maps references to keys, because `set_no_eta` rewrites the key
 of a job in place while the job's reference is shared by several channels.
 */
module JobQueue {
  import opened Options

  type Time = real
  type Ref = nat

  /** The sorting key without its eta: priority, creation date, sequence. */
  datatype Rank = Rank(priority: int, created: int, sequence: int)

  datatype Key = Key(eta: Option<Time>, rank: Rank)

  type Keys = map<Ref, Key>

  /** The key of a job object; the default is never looked at for an object that exists. */
  function KeyOf(keys: Keys, r: Ref): Key {
    if r in keys then keys[r] else Key(None, Rank(0, 0, 0))
  }

  /** Tuple order on (priority, date_created, seq). */
  predicate RankLess(a: Rank, b: Rank) {
    || a.priority < b.priority
    || (a.priority == b.priority && a.created < b.created)
    || (a.priority == b.priority && a.created == b.created && a.sequence < b.sequence)
  }

  /** The tuple by which jobs without eta are compared. */
  function AsTuple(rank: Rank): seq<int> { [rank.priority, rank.created, rank.sequence] }

  /** The order of tuples: the first place where they differ decides. */
  ghost predicate TupleLess(a: seq<int>, b: seq<int>)
    requires |a| == |b|
  {
    exists k :: 0 <= k < |a| && a[k] < b[k] && forall j :: 0 <= j < k ==> a[j] == b[j]
  }

  lemma RankLessIsTupleOrder(a: Rank, b: Rank)
    ensures RankLess(a, b) <==> TupleLess(AsTuple(a), AsTuple(b))
  {
    var x, y := AsTuple(a), AsTuple(b);
    assert x[0] == a.priority && x[1] == a.created && x[2] == a.sequence;
    assert y[0] == b.priority && y[1] == b.created && y[2] == b.sequence;
    if RankLess(a, b) {
      var k := if x[0] != y[0] then 0 else if x[1] != y[1] then 1 else 2;
      assert x[k] < y[k] && forall j :: 0 <= j < k ==> x[j] == y[j];
    }
    if k :| 0 <= k < |x| && x[k] < y[k] && forall j :: 0 <= j < k ==> x[j] == y[j] {
      assert k == 0 || k == 1 || k == 2;
      assert k > 0 ==> x[0] == y[0];
      assert k > 1 ==> x[1] == y[1];
    }
  }

  /** Tuple order on (eta, priority, date_created, seq). Mixed keys, which raise TypeError in
      the program, are given an arbitrary place; no heap ever mixes them (`ChannelTree.Wf`). */
  predicate KeyLess(a: Key, b: Key) {
    match (a.eta, b.eta)
    case (None, None) => RankLess(a.rank, b.rank)
    case (Some(x), Some(y)) => x < y || (x == y && RankLess(a.rank, b.rank))
    case (None, Some(_)) => true
    case (Some(_), None) => false
  }

  /** The order of a heap: by key, equal keys by an arbitrary fixed order of the objects. */
  predicate Before(keys: Keys, a: Ref, b: Ref) {
    || KeyLess(KeyOf(keys, a), KeyOf(keys, b))
    || (KeyOf(keys, a) == KeyOf(keys, b) && a < b)
  }

  predicate IsMin(s: set<Ref>, keys: Keys, m: Ref) {
    m in s && forall x :: x in s && x != m ==> Before(keys, m, x)
  }

  lemma BeforeTotal(keys: Keys, a: Ref, b: Ref, c: Ref)
    ensures a != b ==> Before(keys, a, b) || Before(keys, b, a)
    ensures Before(keys, a, b) && (b == c || Before(keys, b, c)) ==> Before(keys, a, c)
  {
  }

  lemma MinExists(s: set<Ref>, keys: Keys)
    requires s != {}
    ensures exists m :: IsMin(s, keys, m)
    decreases |s|
  {
    var a :| a in s;
    var rest := s - {a};
    if rest == {} {
      assert s == {a};
      assert IsMin(s, keys, a);
    } else {
      MinExists(rest, keys);
      var m :| IsMin(rest, keys, m);
      forall x | x in s && x != a ensures x in rest {}
      if Before(keys, a, m) {
        forall x | x in rest ensures Before(keys, a, x) {
          BeforeTotal(keys, a, m, x);
        }
        assert IsMin(s, keys, a);
      } else {
        BeforeTotal(keys, m, a, a);
        assert IsMin(s, keys, m);
      }
    }
  }

  /** The element heappop takes out. */
  function Min(s: set<Ref>, keys: Keys): (m: Ref)
    requires s != {}
    ensures IsMin(s, keys, m)
  {
    MinExists(s, keys);
    var m :| m in s && IsMin(s, keys, m);
    m
  }

  lemma MinUnique(s: set<Ref>, keys: Keys, m: Ref)
    requires IsMin(s, keys, m)
    ensures Min(s, keys) == m
  {
    var n := Min(s, keys);
    assert n != m ==> Before(keys, n, m);
  }

  /** Removing elements that are not the minimum leaves the minimum in place. */
  lemma MinOfSubset(s: set<Ref>, t: set<Ref>, keys: Keys)
    requires t <= s && s != {} && Min(s, keys) in t
    ensures Min(t, keys) == Min(s, keys)
  {
    MinUnique(t, keys, Min(s, keys));
  }

  /** The minimum depends only on the keys of the members. */
  lemma MinSameKeys(s: set<Ref>, keys: Keys, keys': Keys)
    requires s != {}
    requires forall r :: r in s ==> KeyOf(keys, r) == KeyOf(keys', r)
    ensures Min(s, keys) == Min(s, keys')
  {
    MinUnique(s, keys', Min(s, keys));
  }

  /**
   The lazy-deletion queue: `known` is every object in the heap, `removed` those that were
   removed but still sit in the heap. The heap itself always holds exactly `known`.
   */
  datatype PQ = PQ(known: set<Ref>, removed: set<Ref>) {
    predicate Valid() { removed <= known }

    /** The abstract contents. */
    function Live(): set<Ref> { known - removed }

    function Len(): int { |known| - |removed| }

    predicate Contains(o: Ref) { o in known && o !in removed }

    function Add(o: Ref): PQ {
      if o in known then PQ(known, removed - {o}) else PQ(known + {o}, removed - {o})
    }

    function Remove(o: Ref): PQ {
      if o !in known then this else PQ(known, removed + {o})
    }

    /** What `q[0]` leaves behind: removed objects at the top of the heap are dropped. */
    function Trim(keys: Keys): (q: PQ)
      ensures q.known <= known
      decreases |known|
    {
      if known == {} then this
      else
        var o := Min(known, keys);
        if o in removed then PQ(known - {o}, removed - {o}).Trim(keys) else this
    }

    /** What `q[0]` returns; `None` stands for IndexError. */
    function Peek(keys: Keys): Option<Ref> {
      var q := Trim(keys);
      if q.known == {} then None else Some(Min(q.known, keys))
    }

    function Pop(keys: Keys): (r: (PQ, Option<Ref>))
      ensures r.0.known <= known
      ensures r.1.Some? ==> |r.0.known| < |known|
      decreases |known|
    {
      if known == {} then (this, None)
      else
        var o := Min(known, keys);
        if o in removed then PQ(known - {o}, removed - {o}).Pop(keys)
        else (PQ(known - {o}, removed), Some(o))
    }
  }

  lemma SubsetSize<T>(a: set<T>, b: set<T>)
    requires a <= b
    ensures |a| <= |b|
    ensures |a| == |b| ==> a == b
  {
    assert b == a + (b - a);
    assert |b| == |a| + |b - a|;
  }

  lemma {:induction false} TrimKeepsLive(q: PQ, keys: Keys)
    requires q.Valid()
    ensures q.Trim(keys).Valid()
    ensures q.Trim(keys).Live() == q.Live()
    ensures q.Peek(keys) == if q.Live() == {} then None else Some(Min(q.Live(), keys))
    decreases |q.known|
  {
    if q.known != {} {
      var o := Min(q.known, keys);
      if o in q.removed {
        var q' := PQ(q.known - {o}, q.removed - {o});
        assert q'.Live() == q.Live();
        TrimKeepsLive(q', keys);
      } else {
        MinOfSubset(q.known, q.Live(), keys);
      }
    }
  }

  lemma {:induction false} PopTakesMin(q: PQ, keys: Keys)
    requires q.Valid()
    ensures var (q', o) := q.Pop(keys);
            && q'.Valid()
            && (if q.Live() == {} then o == None && q'.Live() == {}
                else o == Some(Min(q.Live(), keys)) && q'.Live() == q.Live() - {o.value} && o.value !in q'.known)
    decreases |q.known|
  {
    if q.known != {} {
      var o := Min(q.known, keys);
      if o in q.removed {
        var q' := PQ(q.known - {o}, q.removed - {o});
        assert q'.Live() == q.Live();
        PopTakesMin(q', keys);
      } else {
        MinOfSubset(q.known, q.Live(), keys);
      }
    }
  }

  /** Add, remove, membership and length act on the abstract contents as on a plain set. */
  lemma AddRemoveAreSetOps(q: PQ, o: Ref)
    requires q.Valid()
    ensures q.Add(o).Valid() && q.Add(o).Live() == q.Live() + {o}
    ensures q.Remove(o).Valid() && q.Remove(o).Live() == q.Live() - {o}
    ensures q.Contains(o) <==> o in q.Live()
  {
  }

  lemma LenIsSize(q: PQ)
    requires q.Valid()
    ensures q.Len() == |q.Live()|
  {
    assert q.known == q.Live() + q.removed;
  }

  // ---------------------------------------------------------------- whole runs of the queue

  datatype Op = AddOp(o: Ref) | RemoveOp(o: Ref) | PeekOp | PopOp | LenOp | ContainsOp(o: Ref)

  datatype Answer = Silent | Object(o: Option<Ref>) | Number(n: int) | Truth(b: bool)

  function QueueStep(q: PQ, keys: Keys, op: Op): (PQ, Answer) {
    match op
    case AddOp(o) => (q.Add(o), Silent)
    case RemoveOp(o) => (q.Remove(o), Silent)
    case PeekOp => (q.Trim(keys), Object(q.Peek(keys)))
    case PopOp => (q.Pop(keys).0, Object(q.Pop(keys).1))
    case LenOp => (q, Number(q.Len()))
    case ContainsOp(o) => (q, Truth(q.Contains(o)))
  }

  /** The reference: a plain set of objects. */
  function SetStep(s: set<Ref>, keys: Keys, op: Op): (set<Ref>, Answer) {
    match op
    case AddOp(o) => (s + {o}, Silent)
    case RemoveOp(o) => (s - {o}, Silent)
    case PeekOp => (s, Object(if s == {} then None else Some(Min(s, keys))))
    case PopOp => if s == {} then (s, Object(None)) else (s - {Min(s, keys)}, Object(Some(Min(s, keys))))
    case LenOp => (s, Number(|s|))
    case ContainsOp(o) => (s, Truth(o in s))
  }

  function QueueRun(q: PQ, keys: Keys, ops: seq<Op>): seq<Answer>
    decreases |ops|
  {
    if ops == [] then [] else
      var (q', a) := QueueStep(q, keys, ops[0]);
      [a] + QueueRun(q', keys, ops[1..])
  }

  function SetRun(s: set<Ref>, keys: Keys, ops: seq<Op>): seq<Answer>
    decreases |ops|
  {
    if ops == [] then [] else
      var (s', a) := SetStep(s, keys, ops[0]);
      [a] + SetRun(s', keys, ops[1..])
  }

  /** No sequence of operations can tell the lazy-deletion queue from the plain set. */
  lemma {:induction false} QueueRefinesSet(q: PQ, keys: Keys, ops: seq<Op>)
    requires q.Valid()
    ensures QueueRun(q, keys, ops) == SetRun(q.Live(), keys, ops)
    decreases |ops|
  {
    if ops != [] {
      var (q', a) := QueueStep(q, keys, ops[0]);
      match ops[0] {
        case AddOp(o) => AddRemoveAreSetOps(q, o);
        case RemoveOp(o) => AddRemoveAreSetOps(q, o);
        case PeekOp => TrimKeepsLive(q, keys);
        case PopOp => PopTakesMin(q, keys);
        case LenOp => LenIsSize(q);
        case ContainsOp(o) =>
      }
      assert (q'.Live(), a) == SetStep(q.Live(), keys, ops[0]);
      QueueRefinesSet(q', keys, ops[1..]);
    }
  }

  /** The queue object with its in-place loops. */
  class PriorityQueue {
    const keys: Keys
    var heap: set<Ref>
    var known: set<Ref>
    var removed: set<Ref>

    ghost predicate Valid()
      reads this
    {
      heap == known && removed <= known
    }

    ghost function Value(): PQ
      reads this
    {
      PQ(known, removed)
    }

    ghost function Contents(): set<Ref>
      reads this
    {
      known - removed
    }

    constructor (keys: Keys)
      ensures Valid() && Contents() == {} && this.keys == keys
    {
      this.keys := keys;
      heap, known, removed := {}, {}, {};
    }

    method Len() returns (n: int)
      requires Valid()
      ensures n == |Contents()|
    {
      LenIsSize(Value());
      n := |known| - |removed|;
    }

    method First() returns (o: Option<Ref>)
      requires Valid()
      modifies this
      ensures Valid() && Contents() == old(Contents())
      ensures Value() == old(Value()).Trim(keys)
      ensures o == if Contents() == {} then None else Some(Min(Contents(), keys))
    {
      ghost var q := Value();
      TrimKeepsLive(q, keys);
      while true
        invariant Valid()
        invariant Value().Trim(keys) == q.Trim(keys)
        decreases |heap|
      {
        if heap == {} { return None; }
        var top := Min(heap, keys);
        if top in removed {
          heap := heap - {top};
          removed := removed - {top};
          known := known - {top};
        } else {
          return Some(top);
        }
      }
    }

    method Add(o: Ref)
      requires Valid()
      modifies this
      ensures Valid() && Contents() == old(Contents()) + {o}
      ensures Value() == old(Value()).Add(o)
    {
      removed := removed - {o};
      if o in known { return; }
      known := known + {o};
      heap := heap + {o};
    }

    method Remove(o: Ref)
      requires Valid()
      modifies this
      ensures Valid() && Contents() == old(Contents()) - {o}
      ensures Value() == old(Value()).Remove(o)
    {
      if o !in known { return; }
      removed := removed + {o};
    }

    method Pop() returns (o: Option<Ref>)
      requires Valid()
      modifies this
      ensures Valid() && (Value(), o) == old(Value()).Pop(keys)
      ensures if old(Contents()) == {} then o == None && Contents() == {}
              else o == Some(Min(old(Contents()), keys)) && Contents() == old(Contents()) - {o.value}
    {
      ghost var q := Value();
      PopTakesMin(q, keys);
      while true
        invariant Valid()
        invariant Value().Pop(keys) == q.Pop(keys)
        decreases |heap|
      {
        if heap == {} { return None; }
        var top := Min(heap, keys);
        heap := heap - {top};
        known := known - {top};
        if top in removed {
          removed := removed - {top};
        } else {
          return Some(top);
        }
      }
    }
  }
}
