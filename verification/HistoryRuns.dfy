/**
 What holds of a revision history after any sequence of saves, milestones, marks, unmarks and
 restores.
 */
module HistoryRuns {
  import opened Options
  import opened SnapshotHistory

  /** The content an operation wants to have as the newest revision. */
  function Wanted(h: History, op: Op): Option<Content> {
    match op
    case SaveOp(c) => Some(c)
    case MilestoneOp => Some(h.current)
    case RestoreOp(id) => ContentAt(h, id)
    case _ => None
  }

  /** What was saved under each revision id, most recently. */
  function Track(cod: Coding, h: History, op: Op, saved: map<nat, Content>): map<nat, Content> {
    match Wanted(h, op)
    case None => saved
    case Some(c) => if Unchanged(cod, h, c) then saved else saved[NextId(h.revisions) := c]
  }

  function SavedBy(cod: Coding, h: History, ops: seq<Op>, saved: map<nat, Content>): map<nat, Content>
    decreases |ops|
  {
    if ops == [] then saved else SavedBy(cod, Apply(cod, h, ops[0]), ops[1..], Track(cod, h, ops[0], saved))
  }

  ghost predicate RevisionOk(cod: Coding, store: map<Digest, Content>, saved: map<nat, Content>, r: Revision) {
    && r.id in saved && r.reference == cod.address(saved[r.id]) && r.hash == HashOf(cod, saved[r.id])
    && r.reference in store && store[r.reference] == saved[r.id]
  }

  ghost predicate Ok(cod: Coding, h: History, saved: map<nat, Content>) {
    && Descending(h.revisions)
    && (forall d :: d in h.store ==> cod.address(h.store[d]) == d)
    && (forall r :: r in h.revisions ==> RevisionOk(cod, h.store, saved, r))
  }

  lemma IdsBelowNext(rs: seq<Revision>, r: Revision)
    requires Descending(rs) && r in rs
    ensures r.id < NextId(rs)
  {
    var k :| 0 <= k < |rs| && rs[k] == r;
  }

  lemma PrunedOk(cod: Coding, h: History, rs: seq<Revision>, saved: map<nat, Content>)
    requires Descending(rs) && (forall d :: d in h.store ==> cod.address(h.store[d]) == d)
    requires forall r :: r in rs ==> RevisionOk(cod, h.store, saved, r)
    ensures Ok(cod, h.(revisions := Prune(rs)), saved)
  {
    PruneIsKept(rs);
    KeptIn(rs, Slots(rs));
  }

  /** Putting a new revision in front. */
  lemma AddedOk(cod: Coding, h: History, saved: map<nat, Content>, c: Content, milestone: bool)
    requires Injective(cod) && Ok(cod, h, saved)
    ensures var r := Revision(NextId(h.revisions), cod.address(c), HashOf(cod, c), milestone);
            var h' := h.(store := Stored(cod, h.store, c), revisions := Prune([r] + h.revisions));
            Descending([r] + h.revisions) && Ok(cod, h', saved[NextId(h.revisions) := c])
  {
    var r := Revision(NextId(h.revisions), cod.address(c), HashOf(cod, c), milestone);
    var rs, store, saved' := [r] + h.revisions, Stored(cod, h.store, c), saved[NextId(h.revisions) := c];
    forall x | x in h.revisions ensures x.id < r.id && RevisionOk(cod, store, saved', x) {
      IdsBelowNext(h.revisions, x);
      assert RevisionOk(cod, h.store, saved, x);
    }
    forall x | x in rs ensures RevisionOk(cod, store, saved', x) { assert x == r || x in h.revisions; }
    PrunedOk(cod, h.(store := store), rs, saved');
  }

  lemma MarkedOk(cod: Coding, h: History, saved: map<nat, Content>, i: nat, milestone: bool)
    requires Ok(cod, h, saved) && i < |h.revisions|
    ensures Ok(cod, h.(revisions := h.revisions[i := h.revisions[i].(milestone := milestone)]), saved)
  {
    var rs := h.revisions[i := h.revisions[i].(milestone := milestone)];
    forall x | x in rs ensures RevisionOk(cod, h.store, saved, x) {
      var k :| 0 <= k < |rs| && rs[k] == x;
      assert RevisionOk(cod, h.store, saved, h.revisions[k]);
    }
  }

  lemma CreateOk(cod: Coding, h: History, saved: map<nat, Content>, c: Content, milestone: bool)
    requires Injective(cod) && Ok(cod, h, saved)
    ensures Ok(cod, CreateRevision(cod, h, c, milestone), if Unchanged(cod, h, c) then saved else saved[NextId(h.revisions) := c])
  {
    hide Prune;
    if !Unchanged(cod, h, c) { AddedOk(cod, h, saved, c, milestone); }
    else if milestone {
      MarkedOk(cod, h, saved, 0, true);
      PrunedOk(cod, h, h.revisions[0 := h.revisions[0].(milestone := true)], saved);
    }
  }

  lemma SaveOk(cod: Coding, h: History, saved: map<nat, Content>, c: Content)
    requires Injective(cod) && Ok(cod, h, saved)
    ensures Ok(cod, Save(cod, h, c), if Unchanged(cod, h, c) then saved else saved[NextId(h.revisions) := c])
  {
    CreateOk(cod, h.(current := c), saved, c, false);
  }

  lemma ApplyOk(cod: Coding, h: History, op: Op, saved: map<nat, Content>)
    requires Injective(cod) && Ok(cod, h, saved)
    ensures Ok(cod, Apply(cod, h, op), Track(cod, h, op, saved))
  {
    hide CreateRevision, Ok, Injective, Save;
    match op
    case SaveOp(c) => SaveOk(cod, h, saved, c);
    case MilestoneOp => CreateOk(cod, h, saved, h.current, true);
    case RestoreOp(id) =>
      var c := ContentAt(h, id);
      if c.Some? { SaveOk(cod, h, saved, c.value); }
    case MarkOp(id) => if IndexOf(h.revisions, id) < |h.revisions| { MarkedOk(cod, h, saved, IndexOf(h.revisions, id), true); }
    case UnmarkOp(id) => if IndexOf(h.revisions, id) < |h.revisions| { MarkedOk(cod, h, saved, IndexOf(h.revisions, id), false); }
  }

  lemma {:induction false} RunOk(cod: Coding, h: History, ops: seq<Op>, saved: map<nat, Content>)
    requires Injective(cod) && Ok(cod, h, saved)
    ensures Ok(cod, Run(cod, h, ops), SavedBy(cod, h, ops, saved))
    decreases |ops|
  {
    hide Injective, Ok, Apply, Track;
    if ops != [] {
      ApplyOk(cod, h, ops[0], saved);
      RunOk(cod, Apply(cod, h, ops[0]), ops[1..], Track(cod, h, ops[0], saved));
    }
  }

  lemma ContentIs(cod: Coding, h: History, saved: map<nat, Content>, r: Revision)
    requires Ok(cod, h, saved) && r in h.revisions
    ensures r.id in saved && ContentAt(h, r.id) == if saved[r.id] == [] then None else Some(saved[r.id])
  {
    var k :| 0 <= k < |h.revisions| && h.revisions[k] == r;
    var i := IndexOf(h.revisions, r.id);
    assert i == k;
    assert RevisionOk(cod, h.store, saved, r);
  }

  /**
   After any sequence of operations the ids of the revisions are strictly descending, and every
   revision that is left gives back what was saved under it, unless that was empty.
   */
  lemma HistoryIsFaithful(cod: Coding, ops: seq<Op>, r: Revision)
    requires Injective(cod) && r in Run(cod, FRESH, ops).revisions
    ensures Descending(Run(cod, FRESH, ops).revisions)
    ensures var saved := SavedBy(cod, FRESH, ops, map[]);
            r.id in saved && ContentAt(Run(cod, FRESH, ops), r.id) == if saved[r.id] == [] then None else Some(saved[r.id])
  {
    RunOk(cod, FRESH, ops, map[]);
    ContentIs(cod, Run(cod, FRESH, ops), SavedBy(cod, FRESH, ops, map[]), r);
  }

  // -------------------------------------------------------------------------- milestones

  lemma CreateKeeps(cod: Coding, h: History, c: Content, milestone: bool, r: Revision)
    requires Descending(h.revisions) && r in h.revisions && r.milestone
    ensures r in CreateRevision(cod, h, c, milestone).revisions
    ensures Descending(CreateRevision(cod, h, c, milestone).revisions)
  {
    if !Unchanged(cod, h, c) {
      var added := Revision(NextId(h.revisions), cod.address(c), HashOf(cod, c), milestone);
      var rs := [added] + h.revisions;
      forall x | x in h.revisions ensures x.id < added.id { IdsBelowNext(h.revisions, x); }
      PruneIsKept(rs);
      KeptIn(rs, Slots(rs));
    } else if milestone {
      var rs := h.revisions[0 := h.revisions[0].(milestone := true)];
      Replaced(h.revisions, 0, true, r);
      PruneIsKept(rs);
      KeptIn(rs, Slots(rs));
    }
  }

  lemma Replaced(rs: seq<Revision>, i: nat, milestone: bool, r: Revision)
    requires Descending(rs) && i < |rs| && r in rs && r.milestone && (milestone || rs[i] != r)
    ensures r in rs[i := rs[i].(milestone := milestone)] && Descending(rs[i := rs[i].(milestone := milestone)])
  {
    var k :| 0 <= k < |rs| && rs[k] == r;
    assert rs[i := rs[i].(milestone := milestone)][k] == r;
  }

  lemma MilestoneStays(cod: Coding, h: History, op: Op, r: Revision)
    requires Descending(h.revisions) && r in h.revisions && r.milestone && op != UnmarkOp(r.id)
    ensures r in Apply(cod, h, op).revisions && Descending(Apply(cod, h, op).revisions)
  {
    hide CreateRevision;
    match op
    case SaveOp(c) => CreateKeeps(cod, h.(current := c), c, false, r);
    case MilestoneOp => CreateKeeps(cod, h, h.current, true, r);
    case RestoreOp(id) =>
      var c := ContentAt(h, id);
      if c.Some? { CreateKeeps(cod, h.(current := c.value), c.value, false, r); }
    case MarkOp(id) => if IndexOf(h.revisions, id) < |h.revisions| { Replaced(h.revisions, IndexOf(h.revisions, id), true, r); }
    case UnmarkOp(id) => if IndexOf(h.revisions, id) < |h.revisions| { Replaced(h.revisions, IndexOf(h.revisions, id), false, r); }
  }

  /** A milestone is never dropped as long as it is not unmarked. */
  lemma {:induction false} MilestonesAreKept(cod: Coding, h: History, ops: seq<Op>, r: Revision)
    requires Descending(h.revisions) && r in h.revisions && r.milestone && UnmarkOp(r.id) !in ops
    ensures r in Run(cod, h, ops).revisions
    decreases |ops|
  {
    hide Apply;
    if ops != [] {
      MilestoneStays(cod, h, ops[0], r);
      MilestonesAreKept(cod, Apply(cod, h, ops[0]), ops[1..], r);
    }
  }

  // ---------------------------------------------------------------------- the newest one

  /** The newest revision has this content. */
  predicate Shows(cod: Coding, h: History, c: Content) {
    h.revisions != [] && h.revisions[0].hash == HashOf(cod, c) && h.revisions[0].reference == cod.address(c)
  }

  lemma UnchangedShows(cod: Coding, h: History, saved: map<nat, Content>, c: Content)
    requires Injective(cod) && Ok(cod, h, saved) && h.revisions != []
    ensures Shows(cod, h, c) <==> h.revisions[0].hash == HashOf(cod, c)
  {
    assert h.revisions[0] in h.revisions && RevisionOk(cod, h.store, saved, h.revisions[0]);
  }

  lemma {:induction false} KeptNone(rs: seq<Revision>)
    ensures Kept(rs, 0) == Only(rs, true)
  {
    if rs != [] { KeptNone(rs[1..]); }
  }

  /** A new revision that is no milestone comes first if there is a slot left, else it is lost
      at once. */
  lemma AddedFirst(rs: seq<Revision>, r: Revision)
    requires Descending([r] + rs)
    ensures r.milestone || |Only(rs, true)| < LIMIT ==> Prune([r] + rs) != [] && Prune([r] + rs)[0] == r
    ensures !r.milestone && |Only(rs, true)| >= LIMIT ==> Prune([r] + rs) == Only(rs, true)
  {
    PruneIsKept([r] + rs);
    assert ([r] + rs)[1..] == rs;
    KeptNone(rs);
  }

  /** The newest revision already shows it, or is about to be the one that does. */
  predicate KeepsUp(cod: Coding, h: History, c: Content) {
    var milestones := Only(h.revisions, true);
    Unchanged(cod, h, c) || |milestones| < 50 || milestones[0].hash == HashOf(cod, c)
  }

  /**
   After saving, the newest revision is the current content exactly when it was before, or
   there are fewer milestones than the limit, or the newest milestone has this content.
   */
  lemma SaveShowsExactlyWhen(cod: Coding, h: History, saved: map<nat, Content>, c: Content)
    requires Injective(cod) && Ok(cod, h, saved)
    ensures Save(cod, h, c).current == c
    ensures Shows(cod, Save(cod, h, c), c) <==> KeepsUp(cod, h, c)
  {
    var h1 := h.(current := c);
    if Unchanged(cod, h, c) { UnchangedShows(cod, h1, saved, c); }
    else {
      var r := Revision(NextId(h.revisions), cod.address(c), HashOf(cod, c), false);
      AddedOk(cod, h1, saved, c, false);
      AddedFirst(h.revisions, r);
      CreatedShows(cod, h1, saved, c);
    }
  }

  lemma CreatedShows(cod: Coding, h: History, saved: map<nat, Content>, c: Content)
    requires Injective(cod) && Ok(cod, h, saved) && !Unchanged(cod, h, c)
    ensures var h' := CreateRevision(cod, h, c, false); h'.revisions != [] ==> (Shows(cod, h', c) <==> h'.revisions[0].hash == HashOf(cod, c))
  {
    CreateOk(cod, h, saved, c, false);
    var h' := CreateRevision(cod, h, c, false);
    hide CreateRevision;
    if h'.revisions != [] { UnchangedShows(cod, h', saved[NextId(h.revisions) := c], c); }
  }

  /** Over whole runs: with fewer milestones than the limit, a save or a successful restore ends
      with the current content as the newest revision. */
  lemma NewestIsCurrent(cod: Coding, ops: seq<Op>, op: Op)
    requires Injective(cod) && (op.SaveOp? || op.RestoreOp?)
    requires var h := Run(cod, FRESH, ops); Wanted(h, op).Some? && |Only(h.revisions, true)| < 50
    ensures var h := Run(cod, FRESH, ops); var h' := Apply(cod, h, op);
            h'.current == Wanted(h, op).value && Shows(cod, h', h'.current)
  {
    var h := Run(cod, FRESH, ops);
    RunOk(cod, FRESH, ops, map[]);
    SaveShowsExactlyWhen(cod, h, SavedBy(cod, FRESH, ops, map[]), Wanted(h, op).value);
  }

  /** A new milestone is always the newest revision, however many there are. */
  lemma MilestoneShows(cod: Coding, h: History, saved: map<nat, Content>)
    requires Injective(cod) && Ok(cod, h, saved)
    ensures Shows(cod, CreateMilestone(cod, h), h.current) && CreateMilestone(cod, h).revisions[0].milestone
  {
    var c := h.current;
    if !Unchanged(cod, h, c) {
      AddedOk(cod, h, saved, c, true);
      AddedFirst(h.revisions, Revision(NextId(h.revisions), cod.address(c), HashOf(cod, c), true));
    } else {
      UnchangedShows(cod, h, saved, c);
      var r := h.revisions[0].(milestone := true);
      var rs := h.revisions[0 := r];
      assert rs == [r] + h.revisions[1..];
      AddedFirst(h.revisions[1..], r);
    }
  }

  // ------------------------------------------------------------------ full of milestones

  function Text(k: nat): Content { seq(k + 1, _ => 'a') }

  /** `k` different contents are saved, and each is made a milestone. */
  function MilestoneOps(k: nat): seq<Op> {
    if k == 0 then [] else MilestoneOps(k - 1) + [SaveOp(Text(k - 1)), MilestoneOp]
  }

  lemma {:induction false} RunOn(cod: Coding, h: History, ops: seq<Op>, op1: Op, op2: Op)
    ensures Run(cod, h, ops + [op1, op2]) == Apply(cod, Apply(cod, Run(cod, h, ops), op1), op2)
    decreases |ops|
  {
    hide Apply;
    if ops == [] {
      var h1 := Apply(cod, h, op1);
      assert ([] + [op1, op2])[1..] == [op2] && [op2][1..] == [];
      assert Run(cod, h1, [op2]) == Run(cod, Apply(cod, h1, op2), []);
    } else {
      assert (ops + [op1, op2])[1..] == ops[1..] + [op1, op2];
      RunOn(cod, Apply(cod, h, ops[0]), ops[1..], op1, op2);
    }
  }

  lemma {:induction false} KeptAll(rs: seq<Revision>, slots: nat)
    requires forall r :: r in rs ==> r.milestone
    ensures Kept(rs, slots) == rs && Only(rs, true) == rs
  {
    if rs != [] { KeptAll(rs[1..], slots); }
  }

  /** All `k` revisions are milestones, and the newest has the last content. */
  ghost predicate Filled(cod: Coding, h: History, k: nat) {
    && |h.revisions| == k && Descending(h.revisions) && (forall r :: r in h.revisions ==> r.milestone)
    && (k > 0 ==> h.revisions[0].hash == HashOf(cod, Text(k - 1)))
  }

  lemma TextsDiffer(cod: Coding, h: History, k: nat)
    requires Injective(cod) && Filled(cod, h, k)
    ensures !Unchanged(cod, h, Text(k))
  {
    assert k > 0 ==> |Text(k)| != |Text(k - 1)|;
  }

  /** With a slot left nothing is pruned when a revision is put before milestones. */
  lemma NothingPruned(rs: seq<Revision>, r: Revision)
    requires Descending([r] + rs) && (forall x :: x in rs ==> x.milestone) && |rs| < LIMIT
    ensures Prune([r] + rs) == [r] + rs
  {
    var all := [r] + rs;
    PruneIsKept(all);
    KeptAll(rs, 0);
    assert all[1..] == rs;
    KeptAll(rs, Slots(all));
    KeptAll(rs, if Slots(all) == 0 then 0 else Slots(all) - 1);
  }

  lemma SavedFills(cod: Coding, h: History, k: nat)
    requires Injective(cod) && Filled(cod, h, k) && k < LIMIT
    ensures var c := Text(k);
            var r := Revision(NextId(h.revisions), cod.address(c), HashOf(cod, c), false);
            var h1 := Apply(cod, h, SaveOp(c));
            Descending([r] + h.revisions) && h1.revisions == [r] + h.revisions && h1.current == c
  {
    var c := Text(k);
    var r := Revision(NextId(h.revisions), cod.address(c), HashOf(cod, c), false);
    TextsDiffer(cod, h, k);
    forall x | x in h.revisions ensures x.id < r.id { IdsBelowNext(h.revisions, x); }
    hide Prune;
    NothingPruned(h.revisions, r);
  }

  lemma HeadIsMarked(cod: Coding, h: History)
    requires h.revisions != [] && h.revisions[0].hash == HashOf(cod, h.current)
    ensures Apply(cod, h, MilestoneOp).revisions == Prune(h.revisions[0 := h.revisions[0].(milestone := true)])
  {
    hide Prune;
  }

  lemma FillOne(cod: Coding, h: History, k: nat)
    requires Injective(cod) && Filled(cod, h, k) && k < LIMIT
    ensures Filled(cod, Apply(cod, Apply(cod, h, SaveOp(Text(k))), MilestoneOp), k + 1)
  {
    SavedFills(cod, h, k);
    hide Prune, Injective, Apply;
    var h1 := Apply(cod, h, SaveOp(Text(k)));
    HeadIsMarked(cod, h1);
    var r := h1.revisions[0].(milestone := true);
    assert h1.revisions[0 := r] == [r] + h.revisions;
    NothingPruned(h.revisions, r);
  }

  lemma {:induction false} Fills(cod: Coding, k: nat)
    requires Injective(cod) && k <= LIMIT
    ensures Filled(cod, Run(cod, FRESH, MilestoneOps(k)), k)
  {
    hide Filled, Apply;
    if k == 0 { FilledNone(cod); }
    else {
      Fills(cod, k - 1);
      RunOn(cod, FRESH, MilestoneOps(k - 1), SaveOp(Text(k - 1)), MilestoneOp);
      FillOne(cod, Run(cod, FRESH, MilestoneOps(k - 1)), k - 1);
    }
  }

  lemma FilledNone(cod: Coding)
    ensures Filled(cod, FRESH, 0)
  {
  }

  /** With as many milestones as the limit, a further save is current but not the newest revision. */
  lemma FullOfMilestones(cod: Coding)
    requires Injective(cod)
    ensures var h := Save(cod, Run(cod, FRESH, MilestoneOps(LIMIT)), Text(LIMIT));
            h.current == Text(LIMIT) && !Shows(cod, h, Text(LIMIT))
  {
    var h := Run(cod, FRESH, MilestoneOps(LIMIT));
    Fills(cod, LIMIT);
    RunOk(cod, FRESH, MilestoneOps(LIMIT), map[]);
    hide Run, MilestoneOps;
    TextsDiffer(cod, h, LIMIT);
    KeptAll(h.revisions, 0);
    SaveShowsExactlyWhen(cod, h, SavedBy(cod, FRESH, MilestoneOps(LIMIT), map[]), Text(LIMIT));
  }

  // --------------------------------------------------------- what marking and saving store

  /** Marking, or unmarking: exactly the revision with that id changes, and only in that respect. */
  lemma MarkExactly(cod: Coding, h: History, id: nat, on: bool)
    requires Descending(h.revisions)
    ensures var h' := Apply(cod, h, if on then MarkOp(id) else UnmarkOp(id));
            && h'.current == h.current && h'.store == h.store && |h'.revisions| == |h.revisions|
            && forall i :: 0 <= i < |h.revisions| ==>
                 var r, r' := h.revisions[i], h'.revisions[i];
                 && r'.id == r.id && r'.reference == r.reference && r'.hash == r.hash
                 && r'.milestone == if r.id == id then on else r.milestone
  {
    var k := IndexOf(h.revisions, id);
    forall i | 0 <= i < |h.revisions| && i != k ensures h.revisions[i].id != id {
      if k < i { assert h.revisions[k].id > h.revisions[i].id; }
    }
  }

  lemma {:induction false} RunThen(cod: Coding, h: History, a: seq<Op>, b: seq<Op>)
    ensures Run(cod, h, a + b) == Run(cod, Run(cod, h, a), b)
    decreases |a|
  {
    hide Apply;
    if a == [] { assert a + b == b; }
    else {
      assert (a + b)[1..] == a[1..] + b;
      RunThen(cod, Apply(cod, h, a[0]), a[1..], b);
    }
  }

  /** Over whole runs: a revision that is there when it is marked is there at the end, as a
      milestone, unless it was unmarked in between. */
  lemma MarkedIsKept(cod: Coding, before: seq<Op>, after: seq<Op>, r: Revision)
    requires Injective(cod) && r in Run(cod, FRESH, before).revisions && UnmarkOp(r.id) !in after
    ensures r.(milestone := true) in Run(cod, FRESH, before + [MarkOp(r.id)] + after).revisions
  {
    var h := Run(cod, FRESH, before);
    RunOk(cod, FRESH, before, map[]);
    var h' := Apply(cod, h, MarkOp(r.id));
    MarkExactly(cod, h, r.id, true);
    var i :| 0 <= i < |h.revisions| && h.revisions[i] == r;
    assert h'.revisions[i] == r.(milestone := true);
    ApplyOk(cod, h, MarkOp(r.id), SavedBy(cod, FRESH, before, map[]));
    RunThen(cod, FRESH, before, [MarkOp(r.id)]);
    assert Run(cod, h, [MarkOp(r.id)]) == h' by { assert [MarkOp(r.id)][1..] == []; }
    RunThen(cod, FRESH, before + [MarkOp(r.id)], after);
    hide Run, Apply;
    MilestonesAreKept(cod, h', after, r.(milestone := true));
  }

  /** Saving something new while there is room puts a revision in front: the next id, no
      milestone, and the digests of the content. */
  lemma SavePutsFirst(cod: Coding, h: History, saved: map<nat, Content>, c: Content)
    requires Injective(cod) && Ok(cod, h, saved) && |Only(h.revisions, true)| < 50
    requires h.revisions != [] && h.revisions[0].id in saved ==> saved[h.revisions[0].id] != c
    ensures var h' := Save(cod, h, c);
            && h'.revisions != []
            && var r := h'.revisions[0];
            && r.id == (if h.revisions == [] then 1 else h.revisions[0].id + 1) && !r.milestone
            && r.reference == cod.address(c) && r.hash == (if c == [] then None else Some(cod.hash(c)))
            && r.reference in h'.store && h'.store[r.reference] == c
            && forall x :: x in h'.revisions && x != r ==> x in h.revisions
  {
    var r := Revision(NextId(h.revisions), cod.address(c), HashOf(cod, c), false);
    if h.revisions != [] { assert h.revisions[0] in h.revisions && RevisionOk(cod, h.store, saved, h.revisions[0]); }
    assert !Unchanged(cod, h, c);
    var h1 := h.(current := c);
    AddedOk(cod, h1, saved, c, false);
    AddedFirst(h.revisions, r);
    PruneIsKept([r] + h.revisions);
    KeptIn([r] + h.revisions, Slots([r] + h.revisions));
    var h' := Save(cod, h, c);
    assert RevisionOk(cod, h'.store, saved[NextId(h.revisions) := c], h'.revisions[0]);
  }
}
