/**
 A record with a versioned field: the field, its list of revisions and the snapshot store are
 updated in place, by the operations that `SnapshotHistory` describes.
 */
module VersionedRecord {
  import opened Options
  import opened SnapshotHistory

  class VersionedField {
    const cod: Coding
    var current: Content
    var revisions: seq<Revision>
    var store: map<Digest, Content>

    ghost function View(): History
      reads this
    {
      History(current, revisions, store)
    }

    constructor (cod: Coding)
      ensures this.cod == cod && View() == FRESH
    {
      this.cod := cod;
      current := [];
      revisions := [];
      store := map[];
    }

    /** Reports the id of the revision that now has the content, if any was made or marked. */
    method CreateSnapshotRevision(c: Content, milestone: bool) returns (id: Option<nat>)
      modifies this`revisions, this`store
      ensures View() == CreateRevision(cod, old(View()), c, milestone)
      ensures id == None <==> Unchanged(cod, old(View()), c) && !milestone
      ensures id.Some? ==> id.value == if Unchanged(cod, old(View()), c) then old(revisions)[0].id else NextId(old(revisions))
    {
      var hash := HashOf(cod, c);
      if revisions != [] && revisions[0].hash == hash {
        if !milestone { return None; }
        var head := revisions[0].id;
        revisions := revisions[0 := revisions[0].(milestone := true)];
        revisions := Prune(revisions);
        return Some(head);
      }
      var next := NextId(revisions);
      store := Stored(cod, store, c);
      revisions := [Revision(next, cod.address(c), hash, milestone)] + revisions;
      revisions := Prune(revisions);
      return Some(next);
    }

    method Write(c: Content)
      modifies this
      ensures View() == Apply(cod, old(View()), SaveOp(c))
    {
      current := c;
      var _ := CreateSnapshotRevision(c, false);
    }

    method MakeMilestone() returns (id: nat)
      modifies this
      ensures View() == Apply(cod, old(View()), MilestoneOp)
      ensures id == if Unchanged(cod, old(View()), current) then old(revisions)[0].id else NextId(old(revisions))
    {
      var made := CreateSnapshotRevision(current, true);
      id := made.value;
    }

    method FindRevision(id: nat) returns (i: nat)
      ensures i == IndexOf(revisions, id)
    {
      i := 0;
      while i < |revisions| && revisions[i].id != id
        invariant i <= |revisions| && forall k :: 0 <= k < i ==> revisions[k].id != id
      {
        i := i + 1;
      }
    }

    /** Marking a revision that is not there is an error and changes nothing. */
    method MarkMilestone(id: nat) returns (found: bool)
      modifies this`revisions
      ensures View() == Apply(cod, old(View()), MarkOp(id))
      ensures found <==> exists r :: r in old(revisions) && r.id == id
    {
      var i := FindRevision(id);
      found := i < |revisions|;
      if found { revisions := revisions[i := revisions[i].(milestone := true)]; }
    }

    method UnmarkMilestone(id: nat)
      modifies this`revisions
      ensures View() == Apply(cod, old(View()), UnmarkOp(id))
    {
      var i := FindRevision(id);
      if i < |revisions| { revisions := revisions[i := revisions[i].(milestone := false)]; }
    }

    method GetContentAtRevision(id: nat) returns (c: Option<Content>)
      ensures c == ContentAt(View(), id)
    {
      var i := FindRevision(id);
      if i == |revisions| || revisions[i].reference !in store { return None; }
      var snapshot := store[revisions[i].reference];
      if snapshot == [] { return None; }
      return Some(snapshot);
    }

    /** Restoring writes the old content as a new revision; without content it is an error. */
    method RestoreRevision(id: nat) returns (restored: bool)
      modifies this
      ensures View() == Apply(cod, old(View()), RestoreOp(id))
      ensures restored <==> ContentAt(old(View()), id).Some?
      ensures restored ==> current == ContentAt(old(View()), id).value
    {
      var c := GetContentAtRevision(id);
      restored := c.Some?;
      if restored { Write(c.value); }
    }
  }
}
