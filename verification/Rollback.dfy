/** Undoing an allocation: whatever was placed over all rounds is deleted again, in whatever order the drives
    return it, and every drive is as it was. */
module Rollback {
  import opened Ranges
  import opened Drives
  import opened DriveStore
  import opened Options
  import opened Chunks
  import opened Sequences
  import opened AllocationSpec
  import opened Allocation
  import opened AllocationHeap
  import opened AllocateBlocks

  /** What storing a segment took from the count of its drive, and deleting it gives back. */
  function Debit(s: Segment, d: DiskID): int {
    if s.diskID != d || s.fromReserved || s.lbe == s.lbs then 0 else s.Span().Blocks()
  }

  function Debits(segs: seq<Segment>, d: DiskID): int {
    if segs == [] then 0 else Debits(segs[..|segs| - 1], d) + Debit(segs[|segs| - 1], d)
  }

  lemma {:induction false} DebitsConcat(a: seq<Segment>, b: seq<Segment>, d: DiskID)
    ensures Debits(a + b, d) == Debits(a, d) + Debits(b, d)
    decreases |b|
  {
    if b == [] {
      assert a + b == a;
    } else {
      DebitsConcat(a, b[..|b| - 1], d);
      assert (a + b)[..|a + b| - 1] == a + b[..|b| - 1];
    }
  }

  lemma DebitsOne(s: Segment, d: DiskID)
    ensures Debits([s], d) == Debit(s, d)
  {
    assert [s][..0] == [];
  }

  lemma {:induction false} DebitsPermuted(a: seq<Segment>, b: seq<Segment>, d: DiskID)
    requires multiset(a) == multiset(b)
    ensures Debits(a, d) == Debits(b, d)
    decreases |a|
  {
    hide Debit;
    if a == [] {
      assert |multiset(b)| == 0;
    } else {
      var i := WithoutOne(a, b);
      DebitsPermuted(a[..|a| - 1], b[..i] + b[i + 1..], d);
      DebitsConcat(b[..i], b[i + 1..], d);
      DebitsConcat(b[..i] + [b[i]], b[i + 1..], d);
      DebitsConcat(b[..i], [b[i]], d);
      DebitsOne(b[i], d);
    }
  }

  ghost function Deleted(docs: Docs, s: Segment): Docs {
    if s.diskID in docs then docs[s.diskID := ForceDeleted(docs[s.diskID], s)] else docs
  }

  ghost function DeleteAll(docs: Docs, segs: seq<Segment>): Docs {
    if segs == [] then docs else Deleted(DeleteAll(docs, segs[..|segs| - 1]), segs[|segs| - 1])
  }

  /** Every block a placement takes is accounted for on its drive. */
  lemma {:induction false} PlacedAccount(docs: Docs, segs: seq<Segment>, d: DiskID)
    requires d in docs
    ensures d in PlaceAll(docs, segs)
    ensures var e := PlaceAll(docs, segs)[d];
            && e.first == docs[d].first && e.last == docs[d].last
            && e.available == docs[d].available - Debits(segs, d)
    decreases |segs|
  {
    hide LargestSegment;
    if segs != [] {
      PlacedAccount(docs, segs[..|segs| - 1], d);
    }
  }

  lemma {:induction false} DeletedAccount(docs: Docs, segs: seq<Segment>, d: DiskID)
    requires d in docs
    ensures d in DeleteAll(docs, segs)
    ensures var e := DeleteAll(docs, segs)[d];
            && e.first == docs[d].first && e.last == docs[d].last
            && e.available == docs[d].available + Debits(segs, d)
            && (e.largest == docs[d].largest || e.largest == UNKNOWN_LARGEST)
    decreases |segs|
  {
    if segs != [] {
      DeletedAccount(docs, segs[..|segs| - 1], d);
    }
  }

  ghost predicate PutOn(segs: seq<Segment>, d: DiskID, u: Uuid) {
    exists i :: 0 <= i < |segs| && segs[i].diskID == d && segs[i].uuid == u
  }

  lemma {:induction false} PlacedKeeps(docs: Docs, segs: seq<Segment>, d: DiskID, u: Uuid)
    requires d in docs
    ensures d in PlaceAll(docs, segs)
    ensures u in PlaceAll(docs, segs)[d].segs <==> u in docs[d].segs || PutOn(segs, d, u)
    ensures !PutOn(segs, d, u) && u in docs[d].segs ==> PlaceAll(docs, segs)[d].segs[u] == docs[d].segs[u]
    decreases |segs|
  {
    hide LargestSegment;
    if segs != [] {
      var n := |segs| - 1;
      PlacedKeeps(docs, segs[..n], d, u);
      PutOnLast(segs, d, u);
    }
  }

  lemma PutOnLast(segs: seq<Segment>, d: DiskID, u: Uuid)
    requires segs != []
    ensures var n := |segs| - 1;
            (PutOn(segs, d, u) <==> PutOn(segs[..n], d, u) || (segs[n].diskID == d && segs[n].uuid == u))
  {
    var n := |segs| - 1;
    if i :| 0 <= i < n && segs[..n][i].diskID == d && segs[..n][i].uuid == u {
      assert segs[i].diskID == d && segs[i].uuid == u;
    }
    if i :| 0 <= i < n && segs[i].diskID == d && segs[i].uuid == u {
      assert segs[..n][i].diskID == d && segs[..n][i].uuid == u;
    }
  }

  lemma {:induction false} DeletedKeeps(docs: Docs, segs: seq<Segment>, d: DiskID, u: Uuid)
    requires d in docs
    ensures d in DeleteAll(docs, segs)
    ensures u in DeleteAll(docs, segs)[d].segs <==> u in docs[d].segs && !PutOn(segs, d, u)
    ensures u in DeleteAll(docs, segs)[d].segs ==> DeleteAll(docs, segs)[d].segs[u] == docs[d].segs[u]
    decreases |segs|
  {
    if segs != [] {
      DeletedKeeps(docs, segs[..|segs| - 1], d, u);
      PutOnLast(segs, d, u);
    }
  }

  lemma RollbackSegments(docs: Docs, segs: seq<Segment>, gone: seq<Segment>, d: DiskID)
    requires NewTo(docs, segs) && multiset(gone) == multiset(segs) && d in docs
    ensures d in PlaceAll(docs, segs) && d in DeleteAll(PlaceAll(docs, segs), gone)
    ensures DeleteAll(PlaceAll(docs, segs), gone)[d].segs == docs[d].segs
  {
    hide NewTo, PutOn, PlaceAll, DeleteAll;
    var placed := PlaceAll(docs, segs);
    PlacedKeeps(docs, segs, d, 0);
    DeletedKeeps(placed, gone, d, 0);
    var e := DeleteAll(placed, gone)[d];
    forall u ensures u in e.segs <==> u in docs[d].segs
             ensures u in e.segs ==> e.segs[u] == docs[d].segs[u]
    {
      PlacedKeeps(docs, segs, d, u);
      DeletedKeeps(placed, gone, d, u);
      SamePut(segs, gone, d, u);
      PutIsNew(docs, segs, d, u);
    }
  }

  lemma SameRecalculated(d: DriveDoc, e: DriveDoc)
    requires d.first == e.first && d.last == e.last && d.segs == e.segs && d.available == e.available
    ensures Recalculated(d) == Recalculated(e)
  {
    assert Free(d) == Free(e);
  }

  /** Rolling back: deleting what was placed, in whatever order the drives return it, leaves every drive
      with the segments and the count it had; only the largest range has to be recalculated. All it takes is
      that the names were new. */
  lemma RollbackRestores(docs: Docs, segs: seq<Segment>, gone: seq<Segment>, d: DiskID)
    requires NewTo(docs, segs) && multiset(gone) == multiset(segs) && d in docs
    ensures d in PlaceAll(docs, segs) && d in DeleteAll(PlaceAll(docs, segs), gone)
    ensures Recalculated(DeleteAll(PlaceAll(docs, segs), gone)[d]) == Recalculated(docs[d])
  {
    hide NewTo, PlaceAll, DeleteAll, Recalculated;
    var placed := PlaceAll(docs, segs);
    RollbackSegments(docs, segs, gone, d);
    PlacedAccount(docs, segs, d);
    DeletedAccount(placed, gone, d);
    DebitsPermuted(segs, gone, d);
    SameRecalculated(DeleteAll(placed, gone)[d], docs[d]);
  }

  lemma SamePut(segs: seq<Segment>, gone: seq<Segment>, d: DiskID, u: Uuid)
    requires multiset(gone) == multiset(segs)
    ensures PutOn(segs, d, u) <==> PutOn(gone, d, u)
  {
    if i :| 0 <= i < |segs| && segs[i].diskID == d && segs[i].uuid == u {
      assert segs[i] in multiset(gone);
      var j :| 0 <= j < |gone| && gone[j] == segs[i];
    }
    if i :| 0 <= i < |gone| && gone[i].diskID == d && gone[i].uuid == u {
      assert gone[i] in multiset(segs);
      var j :| 0 <= j < |segs| && segs[j] == gone[i];
    }
  }

  lemma PutIsNew(docs: Docs, segs: seq<Segment>, d: DiskID, u: Uuid)
    requires NewTo(docs, segs) && d in docs
    ensures PutOn(segs, d, u) ==> u !in docs[d].segs
  {
  }

  // ------------------------------------------------------------- on the drives

  ghost predicate On(segs: seq<Segment>, d: DiskID) {
    exists i :: 0 <= i < |segs| && segs[i].diskID == d
  }

  lemma OnLast(segs: seq<Segment>, d: DiskID)
    requires segs != []
    ensures On(segs, d) <==> On(segs[..|segs| - 1], d) || segs[|segs| - 1].diskID == d
  {
    var n := |segs| - 1;
    if i :| 0 <= i < n && segs[i].diskID == d {
      assert segs[..n][i].diskID == d;
    }
    if i :| 0 <= i < n && segs[..n][i].diskID == d {
      assert segs[i].diskID == d;
    }
  }

  lemma {:induction false} DeletedElsewhere(docs: Docs, segs: seq<Segment>)
    ensures DeleteAll(docs, segs).Keys == docs.Keys
    ensures forall d | d in docs && !On(segs, d) :: DeleteAll(docs, segs)[d] == docs[d]
    decreases |segs|
  {
    if segs != [] {
      var n := |segs| - 1;
      DeletedElsewhere(docs, segs[..n]);
      forall d | d in docs && !On(segs, d) ensures DeleteAll(docs, segs)[d] == docs[d] {
        OnLast(segs, d);
      }
    }
  }

  /** Deletes one segment on its drive; the other drives are not touched. */
  method DeleteSegment(drives: map<DiskID, Drive>, s: Segment)
    requires DistinctDrives(drives) && AllInBounds(drives)
    modifies set d | d in drives :: drives[d]
    ensures AllInBounds(drives) && DocsOf(drives) == Deleted(old(DocsOf(drives)), s)
  {
    hide ValidDoc, ForceDeleted, Drive.InBounds, Drive.Doc;
    if s.diskID !in drives {
      return;
    }
    ghost var before := DocsOf(drives);
    assert forall d | d in drives :: before[d] == drives[d].Doc();
    drives[s.diskID].ForceDelete(s);
    assert DocsOf(drives)[s.diskID] == ForceDeleted(before[s.diskID], s);
    assert forall d | d in drives && d != s.diskID :: DocsOf(drives)[d] == before[d];
  }

  ghost function Refreshed(docs: Docs, d: DiskID): Docs {
    if d in docs then docs[d := Recalculated(docs[d])] else docs
  }

  /** The documents with the drives of these segments recalculated. */
  ghost function RefreshAll(docs: Docs, segs: seq<Segment>): Docs {
    if segs == [] then docs
    else
      Refreshed(RefreshAll(docs, segs[..|segs| - 1]), segs[|segs| - 1].diskID)
  }

  lemma {:induction false} RefreshedWhere(docs: Docs, segs: seq<Segment>)
    ensures RefreshAll(docs, segs).Keys == docs.Keys
    ensures forall d | d in docs :: RefreshAll(docs, segs)[d] == if On(segs, d) then Recalculated(docs[d]) else docs[d]
    decreases |segs|
  {
    hide LargestSegment;
    if segs != [] {
      var n := |segs| - 1;
      RefreshedWhere(docs, segs[..n]);
      forall d | d in docs ensures On(segs, d) <==> On(segs[..n], d) || segs[n].diskID == d {
        OnLast(segs, d);
      }
      forall d | d in docs ensures Recalculated(Recalculated(docs[d])) == Recalculated(docs[d]) {
        SameRecalculated(Recalculated(docs[d]), docs[d]);
      }
    }
  }

  method RefreshDrive(drives: map<DiskID, Drive>, d: DiskID)
    requires DistinctDrives(drives) && AllInBounds(drives)
    modifies set e | e in drives :: drives[e]
    ensures AllInBounds(drives) && DocsOf(drives) == Refreshed(old(DocsOf(drives)), d)
  {
    hide ValidDoc, Recalculated, Drive.InBounds, Drive.Doc;
    if d !in drives {
      return;
    }
    ghost var before := DocsOf(drives);
    assert forall e | e in drives :: before[e] == drives[e].Doc();
    drives[d].RecalculateLargestSegment();
    assert DocsOf(drives)[d] == Recalculated(before[d]);
    assert forall e | e in drives && e != d :: DocsOf(drives)[e] == before[e];
  }

  lemma DeleteStep(docs: Docs, gone: seq<Segment>, i: nat)
    requires i < |gone|
    ensures DeleteAll(docs, gone[..i + 1]) == Deleted(DeleteAll(docs, gone[..i]), gone[i])
  {
    assert gone[..i + 1][..i] == gone[..i];
  }

  lemma RefreshStep(docs: Docs, gone: seq<Segment>, i: nat)
    requires i < |gone|
    ensures RefreshAll(docs, gone[..i + 1]) == Refreshed(RefreshAll(docs, gone[..i]), gone[i].diskID)
  {
    assert gone[..i + 1][..i] == gone[..i];
  }

  /** The part of `forceDeleteVolume` that touches drives: pull every segment, then recalculate their drives. */
  method RollBack(drives: map<DiskID, Drive>, gone: seq<Segment>)
    requires DistinctDrives(drives) && AllInBounds(drives)
    modifies set d | d in drives :: drives[d]
    ensures AllInBounds(drives)
    ensures DocsOf(drives) == RefreshAll(DeleteAll(old(DocsOf(drives)), gone), gone)
  {
    hide AllInBounds, DistinctDrives, Deleted, DeleteAll, RefreshAll, Recalculated, Refreshed;
    ghost var docs := DocsOf(drives);
    NothingDeleted(docs, gone);
    for i := 0 to |gone|
      invariant AllInBounds(drives) && DocsOf(drives) == DeleteAll(docs, gone[..i])
    {
      DeleteStep(docs, gone, i);
      DeleteSegment(drives, gone[i]);
    }
    assert gone[..|gone|] == gone;
    ghost var deleted := DocsOf(drives);
    NothingDeleted(deleted, gone);
    for i := 0 to |gone|
      invariant AllInBounds(drives) && DocsOf(drives) == RefreshAll(deleted, gone[..i])
    {
      RefreshStep(deleted, gone, i);
      RefreshDrive(drives, gone[i].diskID);
    }
  }

  lemma NothingDeleted(docs: Docs, gone: seq<Segment>)
    ensures DeleteAll(docs, gone[..0]) == docs && RefreshAll(docs, gone[..0]) == docs
  {
  }

  /** What a rollback leaves: each drive as it was, with its largest range recalculated if it was touched. */
  ghost predicate Restored(before: Docs, after: Docs) {
    && after.Keys == before.Keys
    && (forall d | d in before :: after[d] == before[d] || after[d] == Recalculated(before[d]))
  }

  lemma RolledBack(docs: Docs, segs: seq<Segment>, gone: seq<Segment>)
    requires NewTo(docs, segs) && multiset(gone) == multiset(segs)
    ensures Restored(docs, RefreshAll(DeleteAll(PlaceAll(docs, segs), gone), gone))
  {
    var placed := PlaceAll(docs, segs);
    var deleted := DeleteAll(placed, gone);
    PlacedIds(docs, segs);
    DeletedElsewhere(placed, gone);
    RefreshedWhere(deleted, gone);
    hide PlaceAll, DeleteAll, RefreshAll, NewTo, Recalculated;
    forall d | d in docs
      ensures var e := RefreshAll(deleted, gone)[d]; e == docs[d] || e == Recalculated(docs[d])
    {
      if On(gone, d) {
        RollbackRestores(docs, segs, gone, d);
      } else if On(segs, d) {
        OnBoth(segs, gone, d);
      } else {
        PlacedElsewhere(docs, segs, d);
      }
    }
  }

  lemma OnBoth(segs: seq<Segment>, gone: seq<Segment>, d: DiskID)
    requires multiset(gone) == multiset(segs) && On(segs, d)
    ensures On(gone, d)
  {
    if i :| 0 <= i < |segs| && segs[i].diskID == d {
      assert segs[i] in multiset(gone);
      var j :| 0 <= j < |gone| && gone[j] == segs[i];
    }
  }

  lemma {:induction false} PlacedElsewhere(docs: Docs, segs: seq<Segment>, d: DiskID)
    requires d in docs && !On(segs, d)
    ensures d in PlaceAll(docs, segs) && PlaceAll(docs, segs)[d] == docs[d]
    decreases |segs|
  {
    hide WithSegment;
    if segs != [] {
      var n := |segs| - 1;
      OnLast(segs, d);
      PlacedElsewhere(docs, segs[..n], d);
    }
  }

  /** Allocation with its ending: when it fails, everything it placed over all rounds is rolled back, in the
      order the drives return the segments, and no drive keeps a trace of it. */
  method AllocateOrRollBack(drives: map<DiskID, Drive>, v: Volume, request: Request, start: int, inUse: seq<DiskID>,
                            free: FreeQuery, list: ListQuery, names: nat -> Uuid, minimum: nat,
                            order: seq<Segment> -> seq<Segment>)
    returns (outcome: Outcome)
    requires v.WellFormed() && Terminates(v, request)
    requires DistinctDrives(drives) && AllInBounds(drives) && ValidDocs(DocsOf(drives))
    requires HonestQuery(free, v) && HonestList(list) && FreshNames(DocsOf(drives), names, 0)
    requires forall segs :: multiset(order(segs)) == multiset(segs)
    modifies set d | d in drives :: drives[d]
    ensures outcome.success ==> Tiles(outcome.chunks, start, start + outcome.blocks, v.Multiplier())
    ensures outcome.success ==> DocsOf(drives) == PlaceAll(old(DocsOf(drives)), AllSegments(outcome.chunks))
    ensures !outcome.success && !outcome.rejected ==> Restored(old(DocsOf(drives)), DocsOf(drives))
    ensures Sizable(v, request) ==> !outcome.rejected
    ensures request.Fixed? ==>
              var wanted := RoundBlocksToNearestBlockSet(request.blocks, v);
              (outcome.success <==> !outcome.rejected && SegmentBlocks(outcome.chunks) == wanted)
    ensures request.MaxCapacity? ==>
              (outcome.success <==> !outcome.rejected && SegmentBlocks(outcome.chunks) * v.Multiplier() >= minimum)
  {
    hide *;
    ghost var docs := DocsOf(drives);
    ghost var states, held, rounds, steps, asked;
    outcome, states, held, rounds, steps, asked :=
      AllocateBlocks.AllocateBlocks(drives, v, request, start, inUse, free, list, names, minimum);
    if !outcome.success && !outcome.rejected {
      var segs := AllSegments(outcome.chunks);
      var gone := order(segs);
      RollBack(drives, gone);
      RolledBack(docs, segs, gone);
    }
  }
}
