/**
 The revision history of a versioned field: revisions, newest first, refer to snapshots in a
 store addressed by content; old ones are pruned, milestones are kept.
 */
module SnapshotHistory {
  import opened Options

  type Content = string
  type Digest = string

  const LIMIT := 50

  datatype Revision = Revision(id: nat, reference: Digest, hash: Option<Digest>, milestone: bool)

  datatype History = History(current: Content, revisions: seq<Revision>, store: map<Digest, Content>)

  /** The two digests in use: one to compare with the newest revision, one to address the store. */
  datatype Coding = Coding(hash: Content -> Digest, address: Content -> Digest)

  /** Different snapshots have different digests. */
  ghost predicate Injective(cod: Coding) {
    && (forall c, d :: cod.hash(c) == cod.hash(d) ==> c == d)
    && (forall c, d :: cod.address(c) == cod.address(d) ==> c == d)
  }

  /** An empty snapshot has no hash. */
  function HashOf(cod: Coding, c: Content): Option<Digest> { if c == [] then None else Some(cod.hash(c)) }

  // ------------------------------------------------------------------------------ pruning

  function Only(rs: seq<Revision>, milestone: bool): seq<Revision> {
    if rs == [] then []
    else if rs[0].milestone == milestone then [rs[0]] + Only(rs[1..], milestone)
    else Only(rs[1..], milestone)
  }

  function Take(rs: seq<Revision>, n: nat): seq<Revision> { if n < |rs| then rs[..n] else rs }

  function Slots(rs: seq<Revision>): nat { var n := |Only(rs, true)|; if n < LIMIT then LIMIT - n else 0 }

  /** Stable insertion into a list ordered by descending id. */
  function Insert(r: Revision, rs: seq<Revision>): seq<Revision> {
    if rs == [] || r.id >= rs[0].id then [r] + rs else [rs[0]] + Insert(r, rs[1..])
  }

  function SortByIdDescending(rs: seq<Revision>): seq<Revision> {
    if rs == [] then [] else Insert(rs[0], SortByIdDescending(rs[1..]))
  }

  /** All milestones and the newest others, as far as the limit leaves room for them. */
  function Prune(rs: seq<Revision>): seq<Revision> {
    SortByIdDescending(Only(rs, true) + Take(Only(rs, false), Slots(rs)))
  }

  // --------------------------------------------------------------------------- operations

  function NextId(rs: seq<Revision>): nat { if rs == [] then 1 else rs[0].id + 1 }

  function Stored(cod: Coding, store: map<Digest, Content>, c: Content): map<Digest, Content> {
    if cod.address(c) in store then store else store[cod.address(c) := c]
  }

  /** Whether the newest revision already has this content. */
  predicate Unchanged(cod: Coding, h: History, c: Content) { h.revisions != [] && h.revisions[0].hash == HashOf(cod, c) }

  function CreateRevision(cod: Coding, h: History, c: Content, milestone: bool): History {
    if Unchanged(cod, h, c) then
      if milestone then h.(revisions := Prune(h.revisions[0 := h.revisions[0].(milestone := true)])) else h
    else
      var r := Revision(NextId(h.revisions), cod.address(c), HashOf(cod, c), milestone);
      h.(store := Stored(cod, h.store, c), revisions := Prune([r] + h.revisions))
  }

  function Save(cod: Coding, h: History, c: Content): History { CreateRevision(cod, h.(current := c), c, false) }

  function CreateMilestone(cod: Coding, h: History): History { CreateRevision(cod, h, h.current, true) }

  /** The place of the first revision with this id, or the length of the list. */
  function IndexOf(rs: seq<Revision>, id: nat): (i: nat)
    ensures i <= |rs| && (i < |rs| ==> rs[i].id == id) && forall k :: 0 <= k < i ==> rs[k].id != id
  {
    if rs == [] then 0 else if rs[0].id == id then 0 else 1 + IndexOf(rs[1..], id)
  }

  function SetMilestone(h: History, id: nat, milestone: bool): History {
    var i := IndexOf(h.revisions, id);
    if i < |h.revisions| then h.(revisions := h.revisions[i := h.revisions[i].(milestone := milestone)]) else h
  }

  /** The content of a revision; an empty snapshot is not given back. */
  function ContentAt(h: History, id: nat): Option<Content> {
    var i := IndexOf(h.revisions, id);
    if i < |h.revisions| && h.revisions[i].reference in h.store && h.store[h.revisions[i].reference] != []
    then Some(h.store[h.revisions[i].reference]) else None
  }

  function Restore(cod: Coding, h: History, id: nat): History {
    match ContentAt(h, id)
    case None => h
    case Some(c) => Save(cod, h, c)
  }

  datatype Op = SaveOp(content: Content) | MilestoneOp | MarkOp(id: nat) | UnmarkOp(id: nat) | RestoreOp(id: nat)

  function Apply(cod: Coding, h: History, op: Op): History {
    match op
    case SaveOp(c) => Save(cod, h, c)
    case MilestoneOp => CreateMilestone(cod, h)
    case MarkOp(id) => SetMilestone(h, id, true)
    case UnmarkOp(id) => SetMilestone(h, id, false)
    case RestoreOp(id) => Restore(cod, h, id)
  }

  function Run(cod: Coding, h: History, ops: seq<Op>): History
    decreases |ops|
  {
    if ops == [] then h else Run(cod, Apply(cod, h, ops[0]), ops[1..])
  }

  const FRESH := History([], [], map[])

  // --------------------------------------------------- what pruning keeps and what it drops

  predicate Descending(rs: seq<Revision>) { forall i, j :: 0 <= i < j < |rs| ==> rs[i].id > rs[j].id }

  /** Going down the list, every milestone is kept, and others while there are slots. */
  function Kept(rs: seq<Revision>, slots: nat): seq<Revision> {
    if rs == [] then []
    else if rs[0].milestone then [rs[0]] + Kept(rs[1..], slots)
    else if slots > 0 then [rs[0]] + Kept(rs[1..], slots - 1)
    else Kept(rs[1..], 0)
  }

  lemma {:induction false} KeptIn(rs: seq<Revision>, slots: nat)
    ensures forall r :: r in Kept(rs, slots) ==> r in rs
    ensures forall r :: r in rs && r.milestone ==> r in Kept(rs, slots)
  {
    if rs != [] {
      KeptIn(rs[1..], if rs[0].milestone || slots == 0 then slots else slots - 1);
      assert rs == [rs[0]] + rs[1..];
    }
  }

  lemma {:induction false} KeptDescending(rs: seq<Revision>, slots: nat)
    requires Descending(rs)
    ensures Descending(Kept(rs, slots))
  {
    if rs != [] {
      var n := if rs[0].milestone || slots == 0 then slots else slots - 1;
      var rest := Kept(rs[1..], n);
      KeptDescending(rs[1..], n);
      KeptIn(rs[1..], n);
      forall x | x in rest ensures x.id < rs[0].id { FirstIsNewest(rs, x); }
    }
  }

  lemma FirstIsNewest(rs: seq<Revision>, x: Revision)
    requires rs != [] && x in rs[1..]
    ensures Descending(rs) ==> x.id < rs[0].id
  {
    var k :| 0 <= k < |rs| - 1 && rs[1..][k] == x;
    assert rs[k + 1] == x;
  }

  lemma MovedFirst(a: seq<Revision>, r: Revision, b: seq<Revision>)
    ensures multiset(a + ([r] + b)) == multiset([r] + (a + b))
  {
  }

  function Parts(rs: seq<Revision>, slots: nat): seq<Revision> { Only(rs, true) + Take(Only(rs, false), slots) }

  lemma PartsBegin(rs: seq<Revision>, slots: nat)
    requires rs != []
    ensures var r, rest := rs[0], rs[1..];
            multiset(Parts(rs, slots)) ==
            if r.milestone then multiset([r] + Parts(rest, slots))
            else if slots > 0 then multiset([r] + Parts(rest, slots - 1)) else multiset(Parts(rest, 0))
  {
    var r, rest := rs[0], rs[1..];
    if r.milestone {
      assert Parts(rs, slots) == [r] + Parts(rest, slots);
    } else if slots > 0 {
      assert Take(Only(rs, false), slots) == [r] + Take(Only(rest, false), slots - 1);
      MovedFirst(Only(rest, true), r, Take(Only(rest, false), slots - 1));
    }
  }

  /** As multisets, the kept ones are the milestones and the first others. */
  lemma {:induction false} KeptIs(rs: seq<Revision>, slots: nat)
    ensures multiset(Kept(rs, slots)) == multiset(Parts(rs, slots))
  {
    if rs != [] {
      KeptIs(rs[1..], if rs[0].milestone || slots == 0 then slots else slots - 1);
      PartsBegin(rs, slots);
      hide Parts;
    }
  }

  predicate NotAscending(rs: seq<Revision>) { forall i, j :: 0 <= i < j < |rs| ==> rs[i].id >= rs[j].id }

  lemma {:induction false} InsertedIs(r: Revision, rs: seq<Revision>)
    ensures multiset(Insert(r, rs)) == multiset(rs) + multiset{r}
  {
    if rs != [] && r.id < rs[0].id {
      InsertedIs(r, rs[1..]);
      assert rs == [rs[0]] + rs[1..];
    }
  }

  lemma InsertedFrom(r: Revision, rs: seq<Revision>, x: Revision)
    requires x in Insert(r, rs)
    ensures x == r || x in rs
  {
    InsertedIs(r, rs);
    assert x in multiset(Insert(r, rs));
  }

  lemma {:induction false} Inserted(r: Revision, rs: seq<Revision>)
    requires NotAscending(rs)
    ensures NotAscending(Insert(r, rs))
  {
    if rs != [] && r.id < rs[0].id {
      var rest := Insert(r, rs[1..]);
      Inserted(r, rs[1..]);
      hide Insert;
      forall x | x in rest ensures x.id <= rs[0].id { InsertedFrom(r, rs[1..], x); }
      InFront(rs[0], rest);
    }
    InsertUnfolds(r, rs);
  }

  lemma InFront(r: Revision, rs: seq<Revision>)
    requires NotAscending(rs) && forall x :: x in rs ==> x.id <= r.id
    ensures NotAscending([r] + rs)
  {
  }

  lemma InsertUnfolds(r: Revision, rs: seq<Revision>)
    ensures Insert(r, rs) == if rs == [] || r.id >= rs[0].id then [r] + rs else [rs[0]] + Insert(r, rs[1..])
  {
  }

  lemma {:induction false} Sorted(rs: seq<Revision>)
    ensures NotAscending(SortByIdDescending(rs)) && multiset(SortByIdDescending(rs)) == multiset(rs)
  {
    if rs != [] {
      Sorted(rs[1..]);
      Inserted(rs[0], SortByIdDescending(rs[1..]));
      InsertedIs(rs[0], SortByIdDescending(rs[1..]));
      assert rs == [rs[0]] + rs[1..];
    }
  }

  lemma SameFirst(a: seq<Revision>, b: seq<Revision>)
    requires NotAscending(a) && Descending(b) && multiset(a) == multiset(b) && a != [] && b != []
    ensures a[0] == b[0]
  {
    assert a[0] in multiset(b) && b[0] in multiset(a);
    var i :| 0 <= i < |b| && b[i] == a[0];
    var j :| 0 <= j < |a| && a[j] == b[0];
  }

  lemma WithoutFirst(a: seq<Revision>)
    requires a != []
    ensures multiset(a[1..]) == multiset(a) - multiset{a[0]}
  {
    assert a == [a[0]] + a[1..];
  }

  /** A list without equal ids can be put in descending order in one way only. */
  lemma {:induction false} OneOrder(a: seq<Revision>, b: seq<Revision>)
    requires NotAscending(a) && Descending(b) && multiset(a) == multiset(b)
    ensures a == b
    decreases |a|
  {
    assert |a| == |multiset(a)| && |b| == |multiset(b)|;
    if a != [] {
      SameFirst(a, b);
      WithoutFirst(a);
      WithoutFirst(b);
      OneOrder(a[1..], b[1..]);
      assert a == [a[0]] + a[1..] && b == [b[0]] + b[1..];
    }
  }

  /** Splitting, cutting and sorting again amounts to going down the list once. */
  lemma PruneIsKept(rs: seq<Revision>)
    requires Descending(rs)
    ensures Prune(rs) == Kept(rs, Slots(rs)) && Descending(Prune(rs))
  {
    var parts := Parts(rs, Slots(rs));
    Sorted(parts);
    KeptIs(rs, Slots(rs));
    KeptDescending(rs, Slots(rs));
    OneOrder(SortByIdDescending(parts), Kept(rs, Slots(rs)));
  }

  /** A dropped revision is no milestone, and newer others fill all the slots. */
  lemma {:induction false} DroppedAreOldest(rs: seq<Revision>, slots: nat, r: Revision)
    requires Descending(rs) && r in rs && r !in Kept(rs, slots)
    ensures !r.milestone && |Only(Kept(rs, slots), false)| == slots
    ensures forall k :: k in Kept(rs, slots) && !k.milestone ==> k.id > r.id
  {
    var n := if rs[0].milestone || slots == 0 then slots else slots - 1;
    var rest := rs[1..];
    assert rs == [rs[0]] + rest;
    if r == rs[0] {
      NoSlots(rest);
    } else {
      DroppedAreOldest(rest, n, r);
      assert Kept(rs, slots) == if rs[0].milestone || slots > 0 then [rs[0]] + Kept(rest, n) else Kept(rest, n);
    }
  }

  lemma {:induction false} NoSlots(rs: seq<Revision>)
    ensures Only(Kept(rs, 0), false) == [] && forall k :: k in Kept(rs, 0) ==> k.milestone
  {
    if rs != [] { NoSlots(rs[1..]); }
  }

  /** Pruning drops only the oldest revisions that are no milestones, and only when the others
      take up the limit. */
  lemma PruneDropsOldest(rs: seq<Revision>, r: Revision)
    requires Descending(rs) && r in rs && r !in Prune(rs)
    ensures !r.milestone && forall k :: k in Prune(rs) && !k.milestone ==> k.id > r.id
    ensures |Only(rs, true)| + |Only(Prune(rs), false)| == if |Only(rs, true)| < 50 then 50 else |Only(rs, true)|
  {
    PruneIsKept(rs);
    DroppedAreOldest(rs, Slots(rs), r);
  }
}
