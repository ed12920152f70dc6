/** Placing a round on stored drives, and the measure that shrinks with every placement. */
module AllocationHeap {
  import opened Ranges
  import opened Drives
  import opened DriveStore
  import opened Options
  import opened Chunks
  import opened AllocationSpec
  import opened Allocation

  // ---------------------------------------------------------------- measure

  ghost predicate PlainTaken(segs: map<Uuid, Segment>, b: int) {
    exists u :: u in segs && !segs[u].isReserved && segs[u].Span().Has(b)
  }

  /** The usable blocks of a drive no volume owns: free, or reserved and unused. */
  ghost function Unowned(d: DriveDoc): set<int> {
    set b: int | d.first <= b < d.last + 1 && !PlainTaken(d.segs, b)
  }

  ghost function FreePairs(docs: Docs): set<(DiskID, int)> {
    set d, b | d in docs && b in Free(docs[d]) :: (d, b)
  }

  ghost function UnownedPairs(docs: Docs): set<(DiskID, int)> {
    set d, b | d in docs && b in Unowned(docs[d]) :: (d, b)
  }

  /** Less space than before, free space first. */
  ghost predicate LessSpace(after: Docs, before: Docs) {
    || FreePairs(after) < FreePairs(before)
    || (FreePairs(after) == FreePairs(before) && UnownedPairs(after) < UnownedPairs(before))
  }

  lemma PlainPlacement(d: DriveDoc, s: Segment)
    requires FromAllocator(d, s) && !s.fromReserved
    ensures Free(WithSegment(d, s)) <= Free(d) && s.lbs in Free(d) && s.lbs !in Free(WithSegment(d, s))
  {
    FreeShrinks(d, s);
    assert Free(WithSegment(d, s)) == Free(d.(segs := d.segs[s.uuid := s]));
    assert s.lbs in BlocksOf(s.Span());
  }

  lemma DerivedPlacement(d: DriveDoc, s: Segment)
    requires ValidDoc(d) && FromAllocator(d, s) && s.fromReserved
    ensures Free(WithSegment(d, s)) == Free(d)
    ensures Unowned(WithSegment(d, s)) <= Unowned(d) && s.lbs in Unowned(d) && s.lbs !in Unowned(WithSegment(d, s))
  {
    DerivedKeepsFree(d, s);
    var e := WithSegment(d, s);
    assert WellPlaced(d, d.segs[s.reservedUUID]);
    forall b | PlainTaken(d.segs, b) ensures PlainTaken(e.segs, b) {
      var u :| u in d.segs && !d.segs[u].isReserved && d.segs[u].Span().Has(b);
      assert u in e.segs && e.segs[u] == d.segs[u];
    }
    assert Unowned(e) <= Unowned(d);
    assert s.lbs in Unowned(d);
    assert s.lbs !in Unowned(e) by {
      assert s.uuid in e.segs && e.segs[s.uuid].Span().Has(s.lbs);
    }
  }

  lemma FreePairsShrink(docs: Docs, d: DiskID, doc: DriveDoc, b: int)
    requires d in docs && Free(doc) <= Free(docs[d]) && b in Free(docs[d]) && b !in Free(doc)
    ensures FreePairs(docs[d := doc]) < FreePairs(docs)
  {
    hide Free;
    var after := docs[d := doc];
    assert FreePairs(after) <= FreePairs(docs);
    assert (d, b) in FreePairs(docs) && (d, b) !in FreePairs(after);
  }

  lemma UnownedPairsShrink(docs: Docs, d: DiskID, doc: DriveDoc, b: int)
    requires d in docs && Free(doc) == Free(docs[d])
    requires Unowned(doc) <= Unowned(docs[d]) && b in Unowned(docs[d]) && b !in Unowned(doc)
    ensures FreePairs(docs[d := doc]) == FreePairs(docs) && UnownedPairs(docs[d := doc]) < UnownedPairs(docs)
  {
    hide Free, Unowned;
    var after := docs[d := doc];
    assert UnownedPairs(after) <= UnownedPairs(docs);
    assert (d, b) in UnownedPairs(docs) && (d, b) !in UnownedPairs(after);
  }

  lemma PlaceShrinks(docs: Docs, s: Segment)
    requires ValidDocs(docs) && CanPlace(docs, s)
    ensures LessSpace(Placed(docs, s), docs)
  {
    var d, doc := s.diskID, WithSegment(docs[s.diskID], s);
    if s.fromReserved {
      DerivedPlacement(docs[d], s);
      hide Free, Unowned, WithSegment, FromAllocator, ValidDocs;
      UnownedPairsShrink(docs, d, doc, s.lbs);
    } else {
      PlainPlacement(docs[d], s);
      hide Free, Unowned, WithSegment, FromAllocator, ValidDocs;
      FreePairsShrink(docs, d, doc, s.lbs);
    }
  }

  lemma LessTwice(a: Docs, b: Docs, c: Docs)
    requires LessSpace(a, b) && LessSpace(b, c)
    ensures LessSpace(a, c)
  {
    hide FreePairs, UnownedPairs;
  }

  lemma LastPlaced(docs: Docs, segs: seq<Segment>, n: nat)
    requires 1 <= n <= |segs|
    ensures PlaceAll(docs, segs[..n]) == Placed(PlaceAll(docs, segs[..n - 1]), segs[n - 1])
    ensures PlaceAll(docs, segs[..0]) == docs
  {
    hide Placed;
    assert segs[..n][..n - 1] == segs[..n - 1];
  }

  lemma {:induction false} RoundShrinks(docs: Docs, segs: seq<Segment>, n: nat)
    requires ValidDocs(docs) && CanPlaceAll(docs, segs) && 1 <= n <= |segs|
    ensures LessSpace(PlaceAll(docs, segs[..n]), docs)
    decreases n
  {
    hide *;
    PlacePrefix(docs, segs, n - 1);
    LastPlaced(docs, segs, n);
    PlaceShrinks(PlaceAll(docs, segs[..n - 1]), segs[n - 1]);
    if n > 1 {
      RoundShrinks(docs, segs, n - 1);
      LessTwice(PlaceAll(docs, segs[..n]), PlaceAll(docs, segs[..n - 1]), docs);
    }
  }

  // ---------------------------------------------------------------- the drives

  ghost predicate DistinctDrives(drives: map<DiskID, Drive>) {
    forall d, e | d in drives && e in drives && d != e :: drives[d] != drives[e]
  }

  function DocsOf(drives: map<DiskID, Drive>): Docs
    reads set d | d in drives :: drives[d]
  {
    map d | d in drives :: drives[d].Doc()
  }

  ghost predicate AllInBounds(drives: map<DiskID, Drive>)
    reads set d | d in drives :: drives[d]
  {
    forall d | d in drives :: drives[d].InBounds() && drives[d].first <= drives[d].last + 1
  }

  lemma StoredIs(d: DriveDoc, s: Segment)
    ensures AddSegment(d, s).Stored? ==> AddSegment(d, s).doc == WithSegment(d, s)
  {
    hide WithSegment;
  }

  /** The segment lists of the drives. */
  function ListsOf(drives: map<DiskID, Drive>): map<DiskID, seq<Segment>>
    reads set d | d in drives :: drives[d]
  {
    map d | d in drives :: drives[d].diskSegments
  }

  function Appended(lists: map<DiskID, seq<Segment>>, s: Segment): map<DiskID, seq<Segment>> {
    if s.diskID in lists then lists[s.diskID := lists[s.diskID] + [s]] else lists
  }

  /** The lists after these segments were stored one after the other. */
  ghost function AppendedAll(lists: map<DiskID, seq<Segment>>, segs: seq<Segment>): (r: map<DiskID, seq<Segment>>)
    ensures r.Keys == lists.Keys && forall d | d in lists :: r[d] == lists[d] + OnDisk(segs, d)
  {
    map d | d in lists :: lists[d] + OnDisk(segs, d)
  }

  lemma AppendedNext(lists: map<DiskID, seq<Segment>>, segs: seq<Segment>, i: nat)
    requires i < |segs|
    ensures AppendedAll(lists, segs[..i + 1]) == Appended(AppendedAll(lists, segs[..i]), segs[i])
  {
    assert segs[..i + 1][..i] == segs[..i];
    var a, b := AppendedAll(lists, segs[..i + 1]), Appended(AppendedAll(lists, segs[..i]), segs[i]);
    forall d | d in lists ensures a[d] == b[d] {
      assert a[d] == lists[d] + OnDisk(segs[..i + 1], d);
      assert lists[d] + (OnDisk(segs[..i], d) + [segs[i]]) == (lists[d] + OnDisk(segs[..i], d)) + [segs[i]];
    }
    assert a.Keys == b.Keys;
  }

  lemma AppendedNothing(lists: map<DiskID, seq<Segment>>, segs: seq<Segment>)
    ensures AppendedAll(lists, segs[..0]) == lists
  {
    var a := AppendedAll(lists, segs[..0]);
    forall d | d in lists ensures a[d] == lists[d] {
      assert a[d] == lists[d] + [];
    }
    assert a.Keys == lists.Keys;
  }

  /** Stores one segment on its drive; the other drives are not touched. */
  method PlaceSegment(drives: map<DiskID, Drive>, s: Segment) returns (outcome: AddOutcome)
    requires DistinctDrives(drives) && AllInBounds(drives)
    requires s.diskID in drives && s.Span().Nonempty() && s.uuid !in DocsOf(drives)[s.diskID].segs
    modifies drives[s.diskID]
    ensures AllInBounds(drives)
    ensures outcome.Accepted? ==> DocsOf(drives) == Placed(old(DocsOf(drives)), s)
    ensures outcome.Accepted? ==> ListsOf(drives) == Appended(old(ListsOf(drives)), s)
    ensures ValidDocs(old(DocsOf(drives))) && CanPlace(old(DocsOf(drives)), s) ==> outcome.Accepted?
  {
    hide ValidDoc, CacheHonest, WithSegment, FromAllocator, AddSegment, Drive.InBounds, Drive.Doc;
    ghost var before := DocsOf(drives);
    assert forall d | d in drives :: before[d] == drives[d].Doc();
    StoredIs(before[s.diskID], s);
    ghost var lists := ListsOf(drives);
    outcome := drives[s.diskID].AddSegmentToDisk(s);
    if outcome.Accepted? {
      assert ListsOf(drives) == Appended(lists, s);
      assert DocsOf(drives)[s.diskID] == WithSegment(before[s.diskID], s);
      assert forall d | d in drives && d != s.diskID :: DocsOf(drives)[d] == before[d];
    }
  }

  ghost predicate NewIds(docs: Docs, segs: seq<Segment>) {
    && (forall i | 0 <= i < |segs| :: segs[i].diskID in docs && segs[i].uuid !in docs[segs[i].diskID].segs)
    && (forall i, j | 0 <= i < j < |segs| :: segs[i].uuid != segs[j].uuid)
  }

  lemma {:induction false} PlacedIds(docs: Docs, segs: seq<Segment>)
    ensures PlaceAll(docs, segs).Keys == docs.Keys
    ensures forall d, u | d in docs && u in PlaceAll(docs, segs)[d].segs ::
              u in docs[d].segs || exists i :: 0 <= i < |segs| && segs[i].uuid == u
    decreases |segs|
  {
    if segs != [] {
      var n := |segs| - 1;
      PlacedIds(docs, segs[..n]);
      var before := PlaceAll(docs, segs[..n]);
      forall d, u | d in docs && u in PlaceAll(docs, segs)[d].segs
        ensures u in docs[d].segs || exists i :: 0 <= i < |segs| && segs[i].uuid == u
      {
        if u == segs[n].uuid {
        } else {
          assert u in before[d].segs;
          if u !in docs[d].segs {
            var i :| 0 <= i < n && segs[..n][i].uuid == u;
            assert segs[i].uuid == u;
          }
        }
      }
    }
  }

  lemma StillNew(docs: Docs, segs: seq<Segment>, n: nat)
    requires NewIds(docs, segs) && n < |segs|
    ensures segs[n].diskID in PlaceAll(docs, segs[..n])
            && segs[n].uuid !in PlaceAll(docs, segs[..n])[segs[n].diskID].segs
  {
    PlacedIds(docs, segs[..n]);
  }

  /** Stores the segments of a round one after the other and groups them into pRaids; stops at the first
      one a drive turns away. */
  method PlaceRound(drives: map<DiskID, Drive>, segs: seq<Segment>, size: nat)
    returns (pRaids: seq<seq<Segment>>, rejected: bool)
    requires DistinctDrives(drives) && AllInBounds(drives) && size >= 1
    requires NewIds(DocsOf(drives), segs) && forall i | 0 <= i < |segs| :: segs[i].Span().Nonempty()
    modifies set d | d in drives :: drives[d]
    ensures AllInBounds(drives)
    ensures !rejected ==> DocsOf(drives) == PlaceAll(old(DocsOf(drives)), segs) && pRaids == Grouping(segs, size)
    ensures !rejected ==> ListsOf(drives) == AppendedAll(old(ListsOf(drives)), segs)
    ensures ValidDocs(old(DocsOf(drives))) && CanPlaceAll(old(DocsOf(drives)), segs) ==> !rejected
  {
    hide ValidDocs, CanPlaceAll, CanPlace, Placed, PlaceAll, AllInBounds, NewIds, Grouping, Appended, AppendedAll,
         OnDisk;
    ghost var docs := DocsOf(drives);
    ghost var lists := ListsOf(drives);
    AppendedNothing(lists, segs);
    pRaids, rejected := [], false;
    PlaceNothing(docs, segs, size);
    for i := 0 to |segs|
      invariant AllInBounds(drives)
      invariant DocsOf(drives) == PlaceAll(docs, segs[..i])
      invariant pRaids == Grouping(segs[..i], size)
      invariant ListsOf(drives) == AppendedAll(lists, segs[..i])
    {
      StillNew(docs, segs, i);
      PlacedIds(docs, segs[..i]);
      DriveKnown(drives, docs, segs, i);
      LastPlaced(docs, segs, i + 1);
      LastGrouped(segs, size, i);
      AppendedNext(lists, segs, i);
      var s := segs[i];
      if i % size != 0 && pRaids != [] {
        pRaids := pRaids[|pRaids| - 1 := pRaids[|pRaids| - 1] + [s]];
      } else {
        pRaids := pRaids + [[s]];
      }
      if ValidDocs(docs) && CanPlaceAll(docs, segs) {
        PlacePrefix(docs, segs, i);
      }
      var outcome := PlaceSegment(drives, s);
      if outcome.Rejected? {
        rejected := true;
        return;
      }
    }
    assert segs[..|segs|] == segs;
  }

  lemma PlaceNothing(docs: Docs, segs: seq<Segment>, size: nat)
    requires size >= 1
    ensures PlaceAll(docs, segs[..0]) == docs && Grouping(segs[..0], size) == []
  {
  }

  lemma LastGrouped(segs: seq<Segment>, size: nat, n: nat)
    requires size >= 1 && n < |segs|
    ensures var groups := Grouping(segs[..n], size);
            Grouping(segs[..n + 1], size) == if n % size == 0 || groups == [] then groups + [[segs[n]]]
                                             else groups[|groups| - 1 := groups[|groups| - 1] + [segs[n]]]
  {
    assert segs[..n + 1][..n] == segs[..n];
  }

  lemma DriveKnown(drives: map<DiskID, Drive>, docs: Docs, segs: seq<Segment>, i: nat)
    requires NewIds(docs, segs) && docs.Keys == drives.Keys && i < |segs|
    ensures segs[i].diskID in drives
  {
  }
}
