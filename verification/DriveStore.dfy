/** A stored drive as the object its updates change in place: the segment list and the two cached values.
    Each method is tied to the document function it implements. */
module DriveStore {
  import opened Ranges
  import opened Drives
  import opened Options

  datatype AddOutcome = Rejected(overlapping: Option<Segment>) | Accepted

  // ------------------------------------------------------ lists as documents

  lemma SpansCover(segs: seq<Segment>)
    requires DistinctIds(segs)
    ensures forall b :: Covered(Spans(segs), b) <==> Taken(ById(segs), b)
  {
    forall b ensures Covered(Spans(segs), b) <==> Taken(ById(segs), b) {
      if Covered(Spans(segs), b) {
        var i :| 0 <= i < |Spans(segs)| && Spans(segs)[i].Has(b);
        ByIdPicks(segs, i);
        assert ById(segs)[segs[i].uuid].Span().Has(b);
      }
      if Taken(ById(segs), b) {
        var u :| u in ById(segs) && ById(segs)[u].Span().Has(b);
        var i :| 0 <= i < |segs| && segs[i] == ById(segs)[u];
        assert Spans(segs)[i].Has(b);
      }
    }
  }

  /** The list holds exactly the segments of the map. */
  ghost predicate Lists(segs: seq<Segment>, m: map<Uuid, Segment>) {
    && DistinctIds(segs)
    && (forall i | 0 <= i < |segs| :: segs[i].uuid in m && m[segs[i].uuid] == segs[i])
    && (forall u | u in m :: m[u].uuid == u && m[u] in segs)
  }

  lemma ListsById(segs: seq<Segment>)
    requires DistinctIds(segs)
    ensures Lists(segs, ById(segs))
  {
    forall i | 0 <= i < |segs| ensures segs[i].uuid in ById(segs) && ById(segs)[segs[i].uuid] == segs[i] {
      ByIdPicks(segs, i);
    }
  }

  lemma ListsOne(segs: seq<Segment>, m: map<Uuid, Segment>, n: map<Uuid, Segment>)
    requires Lists(segs, m) && Lists(segs, n)
    ensures m == n
  {
    assert forall u | u in m :: u in n && n[u] == m[u];
    assert forall u | u in n :: u in m;
  }

  lemma ListsExact(segs: seq<Segment>, m: map<Uuid, Segment>)
    requires Lists(segs, m)
    ensures ById(segs) == m
  {
    ListsById(segs);
    hide Lists, ById;
    ListsOne(segs, ById(segs), m);
  }

  /** `$pull` by uuid. */
  function Without(segs: seq<Segment>, u: Uuid): (r: seq<Segment>)
    ensures forall s :: s in r <==> s in segs && s.uuid != u
    ensures DistinctIds(segs) ==> DistinctIds(r)
  {
    if segs == [] then []
    else
      var n := |segs| - 1;
      var rest := Without(segs[..n], u);
      assert segs == segs[..n] + [segs[n]];
      assert DistinctIds(segs) ==> forall i | 0 <= i < |rest| :: rest[i].uuid != segs[n].uuid by {
        forall i | 0 <= i < |rest| && DistinctIds(segs) ensures rest[i].uuid != segs[n].uuid {
          assert rest[i] in segs[..n];
        }
      }
      if segs[n].uuid == u then rest else rest + [segs[n]]
  }

  lemma WithoutLists(segs: seq<Segment>, m: map<Uuid, Segment>, u: Uuid)
    requires Lists(segs, m)
    ensures Lists(Without(segs, u), m - {u})
  {
    hide Without;
    var r := Without(segs, u);
    forall i | 0 <= i < |r| ensures r[i].uuid in m - {u} && (m - {u})[r[i].uuid] == r[i] {
      assert r[i] in segs;
    }
  }

  function RetagAll(segs: seq<Segment>, replacements: seq<Segment>): (r: seq<Segment>)
    ensures |r| == |segs| && forall i | 0 <= i < |r| :: r[i] == Retag(segs[i], replacements)
  {
    seq(|segs|, i requires 0 <= i < |segs| => Retag(segs[i], replacements))
  }

  /** The list without segment `u`, every derived segment following the pieces it lies in. */
  function Rest(segs: seq<Segment>, u: Uuid, pieces: seq<Segment>): seq<Segment> {
    RetagAll(Without(segs, u), pieces)
  }

  /** The list after a segment was replaced by its pieces; removed, when there are none. */
  function WorkedOff(segs: seq<Segment>, u: Uuid, pieces: seq<Segment>): seq<Segment> {
    Rest(segs, u, pieces) + pieces
  }

  lemma RestStep(segs: seq<Segment>, u: Uuid, pieces: seq<Segment>)
    requires segs != []
    ensures Rest(segs, u, pieces)
         == Rest(segs[..|segs| - 1], u, pieces)
            + if segs[|segs| - 1].uuid == u then [] else [Retag(segs[|segs| - 1], pieces)]
  {
  }

  /** A removal is a replacement by nothing. */
  lemma RemovedOff(segs: seq<Segment>, u: Uuid)
    ensures WorkedOff(segs, u, []) == Without(segs, u)
  {
    hide Without;
    forall i | 0 <= i < |Without(segs, u)| ensures Retag(Without(segs, u)[i], []) == Without(segs, u)[i] {
    }
  }

  lemma PushLists(segs: seq<Segment>, m: map<Uuid, Segment>, s: Segment)
    requires Lists(segs, m) && s.uuid !in m
    ensures Lists(segs + [s], m[s.uuid := s])
  {
    var all := segs + [s];
    assert all[|segs|] == s;
    forall u | u in m ensures m[u] in all {
      var i :| 0 <= i < |segs| && segs[i] == m[u];
      assert all[i] == m[u];
    }
  }

  lemma ConcatLists(a: seq<Segment>, m: map<Uuid, Segment>, b: seq<Segment>, n: map<Uuid, Segment>)
    requires Lists(a, m) && Lists(b, n) && m.Keys !! n.Keys
    ensures Lists(a + b, m + n)
  {
    forall i | 0 <= i < |a + b| ensures (a + b)[i].uuid in m + n && (m + n)[(a + b)[i].uuid] == (a + b)[i] {
      assert i < |a| ==> a[i].uuid in m;
      assert i >= |a| ==> b[i - |a|].uuid in n;
    }
    assert DistinctIds(a + b) by {
      forall i, j | 0 <= i < j < |a + b| ensures (a + b)[i].uuid != (a + b)[j].uuid {
        assert i < |a| ==> a[i].uuid in m.Keys;
        assert j >= |a| ==> b[j - |a|].uuid in n.Keys;
      }
    }
  }

  ghost function RetagMap(m: map<Uuid, Segment>, replacements: seq<Segment>): map<Uuid, Segment> {
    map v | v in m :: Retag(m[v], replacements)
  }

  lemma RetagLists(segs: seq<Segment>, m: map<Uuid, Segment>, replacements: seq<Segment>)
    requires Lists(segs, m)
    ensures Lists(RetagAll(segs, replacements), RetagMap(m, replacements))
  {
    var r := RetagAll(segs, replacements);
    forall i | 0 <= i < |r| ensures r[i].uuid == segs[i].uuid {
      RetagKeepsSpan(segs[i], replacements);
    }
    hide Retag;
    forall u | u in m ensures Retag(m[u], replacements).uuid == u && Retag(m[u], replacements) in r {
      var i :| 0 <= i < |segs| && segs[i] == m[u];
      assert r[i] == Retag(m[u], replacements);
    }
  }

  lemma ReplacedLists(segs: seq<Segment>, m: map<Uuid, Segment>, u: Uuid, replacements: seq<Segment>, n: map<Uuid,
                      Segment>)
    requires Lists(segs, m) && Lists(replacements, n) && m.Keys !! n.Keys
    ensures Lists(WorkedOff(segs, u, replacements), RetagMap(m - {u}, replacements) + n)
  {
    WithoutLists(segs, m, u);
    RetagLists(Without(segs, u), m - {u}, replacements);
    assert RetagMap(m - {u}, replacements).Keys == m.Keys - {u};
    hide *;
    ConcatLists(RetagAll(Without(segs, u), replacements), RetagMap(m - {u}, replacements), replacements, n);
  }

  lemma ReplacedMap(d: DriveDoc, u: Uuid, replacements: seq<Segment>, freedBlocks: int)
    ensures ReclaimReplaced(d, u, replacements, freedBlocks).segs
            == RetagMap(d.segs - {u}, replacements) + ById(replacements)
  {
    hide Retag, ById;
    var kept := map v | v in d.segs && v != u :: Retag(d.segs[v], replacements);
    assert kept == RetagMap(d.segs - {u}, replacements);
  }

  /** The segments of a list by uuid. */
  function Held(segs: seq<Segment>): map<Uuid, Segment> {
    ById(segs)
  }

  lemma HeldPush(segs: seq<Segment>, s: Segment)
    requires DistinctIds(segs) && s.uuid !in Held(segs)
    ensures DistinctIds(segs + [s]) && Held(segs + [s]) == Held(segs)[s.uuid := s]
  {
    ListsById(segs);
    PushLists(segs, ById(segs), s);
    ListsExact(segs + [s], ById(segs)[s.uuid := s]);
  }

  lemma HeldPull(segs: seq<Segment>, u: Uuid)
    requires DistinctIds(segs)
    ensures DistinctIds(Without(segs, u)) && Held(Without(segs, u)) == Held(segs) - {u}
  {
    ListsById(segs);
    WithoutLists(segs, ById(segs), u);
    ListsExact(Without(segs, u), ById(segs) - {u});
  }

  lemma HeldReplace(d: DriveDoc, segs: seq<Segment>, u: Uuid, replacements: seq<Segment>, freedBlocks: int)
    requires d.segs == Held(segs) && DistinctIds(segs) && DistinctIds(replacements)
    requires forall i | 0 <= i < |replacements| :: replacements[i].uuid !in Held(segs)
    ensures DistinctIds(WorkedOff(segs, u, replacements))
    ensures Held(WorkedOff(segs, u, replacements))
         == ReclaimReplaced(d, u, replacements, freedBlocks).segs
  {
    ListsById(segs);
    ListsById(replacements);
    assert ById(segs).Keys !! ById(replacements).Keys;
    ReplacedMap(d, u, replacements, freedBlocks);
    var all := WorkedOff(segs, u, replacements);
    hide Retag, Without, Lists, RetagMap, ReclaimReplaced, ById;
    ReplacedLists(segs, ById(segs), u, replacements, ById(replacements));
    ListsExact(all, RetagMap(ById(segs) - {u}, replacements) + ById(replacements));
    ListsDistinct(all, RetagMap(ById(segs) - {u}, replacements) + ById(replacements));
  }

  lemma ListsDistinct(segs: seq<Segment>, m: map<Uuid, Segment>)
    requires Lists(segs, m)
    ensures DistinctIds(segs)
  {
  }

  lemma EmptyDrive(first: int, last: int, largest: Largest)
    requires first <= last + 1
    ensures ValidDoc(DriveDoc(first, last, map[], last - first + 1, largest))
  {
    var d := DriveDoc(first, last, map[], last - first + 1, largest);
    assert Free(d) == Interval(first, last + 1);
    assert OneBlocks(d.segs) == {};
  }

  /** Replacements that spell out the used blocks of a reserved segment, with the blocks they free. */
  ghost predicate FitsReclaim(d: DriveDoc, u: Uuid, replacements: seq<Segment>, freedBlocks: int) {
    && FitsUsed(d, u, replacements, CoveredBlocks(Spans(replacements)))
    && !d.segs[u].OneBlock() && NoOneBlocks(replacements)
    && freedBlocks == d.segs[u].Span().Blocks() - |CoveredBlocks(Spans(replacements))|
  }

  lemma FitKeepsValid(d: DriveDoc, u: Uuid, replacements: seq<Segment>, freedBlocks: int)
    ensures ValidDoc(d) && FitsReclaim(d, u, replacements, freedBlocks)
            ==> ValidDoc(ReclaimReplaced(d, u, replacements, freedBlocks))
  {
    if ValidDoc(d) && FitsReclaim(d, u, replacements, freedBlocks) {
      ReplaceKeepsValid(d, u, replacements, CoveredBlocks(Spans(replacements)), freedBlocks);
    }
  }

  lemma ReplacedRest(d: DriveDoc, u: Uuid, replacements: seq<Segment>, freedBlocks: int)
    ensures var e := ReclaimReplaced(d, u, replacements, freedBlocks);
            e == d.(segs := e.segs, available := d.available + freedBlocks, largest := UNKNOWN_LARGEST)
  {
  }

  lemma SameFree(d: DriveDoc)
    ensures LargestSegment(Recalculated(d)) == LargestSegment(d)
  {
    assert Free(Recalculated(d)) == Free(d);
  }

  /** Every segment lies in the usable blocks. */
  ghost predicate AllUsable(segs: seq<Segment>, first: int, last: int) {
    forall i | 0 <= i < |segs| :: first <= segs[i].lbs <= segs[i].lbe <= last
  }

  lemma UsablePush(segs: seq<Segment>, s: Segment, first: int, last: int)
    requires AllUsable(segs, first, last) && first <= s.lbs <= s.lbe <= last
    ensures AllUsable(segs + [s], first, last)
  {
  }

  lemma UsablePull(segs: seq<Segment>, u: Uuid, first: int, last: int)
    requires AllUsable(segs, first, last)
    ensures AllUsable(Without(segs, u), first, last)
  {
    var kept := Without(segs, u);
    forall i | 0 <= i < |kept| ensures first <= kept[i].lbs <= kept[i].lbe <= last {
      assert kept[i] in segs;
    }
  }

  lemma UsableReplace(segs: seq<Segment>, u: Uuid, replacements: seq<Segment>, first: int, last: int)
    requires AllUsable(segs, first, last) && AllUsable(replacements, first, last)
    ensures AllUsable(WorkedOff(segs, u, replacements), first, last)
  {
    UsablePull(segs, u, first, last);
    var kept := Without(segs, u);
    forall i | 0 <= i < |kept| ensures first <= Retag(kept[i], replacements).lbs <= Retag(kept[i],
           replacements).lbe <= last {
      RetagKeepsSpan(kept[i], replacements);
    }
  }

  lemma PushedIs(d: DriveDoc, s: Segment)
    ensures var pushed := d.(segs := d.segs[s.uuid := s]);
            WithSegment(d, s) == if s.fromReserved then pushed
                                 else pushed.(largest := LargestSegment(pushed),
                                              available := d.available - if s.lbe == s.lbs then 0
                                                                         else s.Span().Blocks())
  {
    hide LargestSegment;
  }

  // ---------------------------------------------------------------- the drive

  class Drive {
    const first: int
    const last: int
    var diskSegments: seq<Segment>
    var availableBlocks: int
    var largestSegmentAvailable: Largest
    var autoEvict: bool

    constructor (first: int, last: int)
      requires first <= last + 1
      ensures Valid() && diskSegments == [] && availableBlocks == last - first + 1
      ensures Doc().largest == LargestSegment(Doc()) && !autoEvict
      ensures this.first == first && this.last == last
    {
      this.first, this.last := first, last;
      diskSegments, availableBlocks, autoEvict := [], last - first + 1, false;
      largestSegmentAvailable := UNKNOWN_LARGEST;
      new;
      hide ValidDoc, LargestSegment;
      EmptyDrive(first, last, largestSegmentAvailable);
      ghost var before := Doc();
      var largest := GetLargestSegment();
      largestSegmentAvailable := largest;
      EmptyDrive(first, last, largest);
      SameFree(before);
      assert Doc() == Recalculated(before);
    }

    function Doc(): DriveDoc
      reads this
    {
      DriveDoc(first, last, Held(diskSegments), availableBlocks, largestSegmentAvailable)
    }

    /** What every caller finds: distinct segments inside the usable blocks. */
    ghost predicate InBounds()
      reads this
    {
      DistinctIds(diskSegments) && AllUsable(diskSegments, first, last)
    }

    ghost predicate Valid()
      reads this
    {
      first <= last + 1 && InBounds() && ValidDoc(Doc())
    }

    lemma FreeIsFound()
      requires InBounds()
      ensures FreeBlocks(Spans(diskSegments), first, Horizon(Spans(diskSegments), last + 1)) == Free(Doc())
    {
      SpansCover(diskSegments);
      assert Horizon(Spans(diskSegments), last + 1) == last + 1;
    }

    /** The blocks no segment covers, counted afresh; the cached count differs from it exactly when the
        drive holds segments of one block. */
    method CalculateAvailableSpace() returns (space: int)
      requires InBounds()
      ensures space == |Free(Doc())|
      ensures Valid() ==> (space == availableBlocks <==> OneBlocks(Doc().segs) == {})
    {
      var result := GetLargestRangeAndTotalAvailableSpace(Spans(diskSegments), first, last + 1);
      FreeIsFound();
      space := result.totalAvailableSpace;
    }

    method GetLargestSegment() returns (largest: Largest)
      requires InBounds()
      ensures largest == LargestSegment(Doc())
    {
      hide IsRuns;
      var segment := GetLargestRangeAndTotalAvailableSpace(Spans(diskSegments), first, last + 1);
      FreeIsFound();
      largest := Largest(segment.end - segment.start + 1, segment.start, segment.end);
      if largest.lbe <= largest.lbs {
        largest := largest.(lbe := 0, lbs := 0);
      }
    }

    /** The first segment the guard finds in the way. */
    method IsSegmentOverlaps(diskSegment: Segment) returns (overlapSegment: Option<Segment>)
      ensures overlapSegment.None? <==> forall i | 0 <= i < |diskSegments| :: !HitsGuard(diskSegments[i], diskSegment)
      ensures overlapSegment.Some? ==>
                overlapSegment.value in diskSegments && HitsGuard(overlapSegment.value, diskSegment)
    {
      overlapSegment := None;
      for i := 0 to |diskSegments|
        invariant overlapSegment.None? <==> forall j | 0 <= j < i :: !HitsGuard(diskSegments[j], diskSegment)
        invariant overlapSegment.Some? ==>
                  overlapSegment.value in diskSegments && HitsGuard(overlapSegment.value, diskSegment)
      {
        if overlapSegment.None? && HitsGuard(diskSegments[i], diskSegment) {
          overlapSegment := Some(diskSegments[i]);
        }
      }
    }

    lemma GuardOnList(s: Segment)
      requires InBounds()
      ensures GuardRejects(Doc(), s) <==> exists i :: 0 <= i < |diskSegments| && HitsGuard(diskSegments[i], s)
    {
      if i :| 0 <= i < |diskSegments| && HitsGuard(diskSegments[i], s) {
        ByIdPicks(diskSegments, i);
      }
    }

    /** Stores a data segment, or turns it away and marks the drive for eviction. What the allocator
        produces is always stored, and keeps the drive valid. */
    method AddSegmentToDisk(diskSegment: Segment) returns (outcome: AddOutcome)
      requires InBounds() && diskSegment.Span().Nonempty() && diskSegment.uuid !in Doc().segs
      modifies this
      ensures match AddSegment(old(Doc()), diskSegment)
              case Overlaps => outcome.Rejected? && outcome.overlapping.Some? && autoEvict && Doc() == old(Doc())
              case OutOfBounds => outcome == Rejected(None) && autoEvict && Doc() == old(Doc())
              case Stored(doc) => outcome == Accepted && autoEvict == old(autoEvict) && Doc() == doc && InBounds()
      ensures outcome.Accepted? ==> diskSegments == old(diskSegments) + [diskSegment]
      ensures old(Valid()) && FromAllocator(old(Doc()), diskSegment) ==> outcome == Accepted && Valid()
      ensures InBounds()
    {
      hide ValidDoc, LargestSegment, FromAllocator, DistinctIds, AllUsable, Held, WithSegment;
      if Valid() && FromAllocator(Doc(), diskSegment) {
        AllocatedIsStored(Doc(), diskSegment);
      }
      GuardOnList(diskSegment);
      var overlapError := IsSegmentOverlaps(diskSegment);
      if overlapError.Some? {
        autoEvict := true;
        return Rejected(overlapError);
      }
      if diskSegment.lbs < first || diskSegment.lbe > last {
        autoEvict := true;
        return Rejected(None);
      }
      Push(diskSegment);
      return Accepted;
    }

    /** The part behind the guards: store, refresh the largest range and debit the count. */
    method Push(diskSegment: Segment)
      requires InBounds() && diskSegment.uuid !in Doc().segs
      requires first <= diskSegment.lbs <= diskSegment.lbe <= last
      modifies this
      ensures Doc() == WithSegment(old(Doc()), diskSegment) && autoEvict == old(autoEvict) && InBounds()
      ensures diskSegments == old(diskSegments) + [diskSegment]
    {
      hide LargestSegment, Held, DistinctIds, AllUsable, WithSegment;
      PushedIs(Doc(), diskSegment);
      Append(diskSegment);
      if !diskSegment.fromReserved {
        var largest := GetLargestSegment();
        var delta := diskSegment.lbe - diskSegment.lbs;
        Debit(largest, if delta != 0 then delta + 1 else 0);
      }
    }

    method Append(diskSegment: Segment)
      requires InBounds() && diskSegment.uuid !in Doc().segs
      requires first <= diskSegment.lbs <= diskSegment.lbe <= last
      modifies this`diskSegments
      ensures Doc() == old(Doc()).(segs := old(Doc()).segs[diskSegment.uuid := diskSegment]) && InBounds()
      ensures diskSegments == old(diskSegments) + [diskSegment]
    {
      HeldPush(diskSegments, diskSegment);
      UsablePush(diskSegments, diskSegment, first, last);
      hide Held, DistinctIds, AllUsable;
      diskSegments := diskSegments + [diskSegment];
    }

    method Debit(largest: Largest, blocks: int)
      modifies this`availableBlocks, this`largestSegmentAvailable
      ensures Doc() == old(Doc()).(available := old(Doc()).available - blocks, largest := largest)
      ensures InBounds() == old(InBounds())
    {
      hide Held, DistinctIds, AllUsable;
      largestSegmentAvailable := largest;
      availableBlocks := availableBlocks - blocks;
    }

    /** `forceDeleteDiskSegments` for one segment as its volume recorded it. */
    method ForceDelete(ds: Segment)
      requires InBounds()
      modifies this
      ensures Doc() == ForceDeleted(old(Doc()), ds) && autoEvict == old(autoEvict) && InBounds()
      ensures old(Valid()) && Removable(old(Doc()), ds.uuid) && old(Doc()).segs[ds.uuid] == ds ==> Valid()
    {
      if Valid() && Removable(Doc(), ds.uuid) && Doc().segs[ds.uuid] == ds {
        ForceDeleteKeepsValid(Doc(), ds.uuid);
      }
      hide ValidDoc;
      var delta := ds.lbe - ds.lbs;
      if delta != 0 {
        delta := delta + 1;
      }
      Pull(ds.uuid, if ds.fromReserved then 0 else delta);
    }

    /** One `updateOne`: pull by uuid, add to the count, forget the largest range. */
    method Pull(u: Uuid, blocks: int)
      requires InBounds()
      modifies this
      ensures Doc() == Pulled(old(Doc()), u, blocks) && autoEvict == old(autoEvict) && InBounds()
      ensures diskSegments == Without(old(diskSegments), u)
    {
      HeldPull(diskSegments, u);
      UsablePull(diskSegments, u, first, last);
      hide Held, DistinctIds, AllUsable, Without;
      diskSegments := Without(diskSegments, u);
      availableBlocks := availableBlocks + blocks;
      largestSegmentAvailable := UNKNOWN_LARGEST;
    }

    method CommitReclaimRemoval(seg: Segment)
      requires Valid()
      modifies this
      ensures Doc() == ReclaimRemoved(old(Doc()), seg) && autoEvict == old(autoEvict) && InBounds()
      ensures diskSegments == WorkedOff(old(diskSegments), seg.uuid, [])
      ensures Removable(old(Doc()), seg.uuid) && old(Doc()).segs[seg.uuid] == seg
              && seg.isReserved && !seg.OneBlock() ==>
                Valid()
    {
      if Removable(Doc(), seg.uuid) && Doc().segs[seg.uuid] == seg && seg.isReserved && !seg.OneBlock() {
        ReclaimRemovalKeepsValid(Doc(), seg.uuid);
      }
      RemovedOff(diskSegments, seg.uuid);
      Pull(seg.uuid, seg.lbe - seg.lbs + 1);
    }

    method CommitReclaimReplacement(original: Uuid, replacements: seq<Segment>, freedBlocks: int)
      requires Valid() && DistinctIds(replacements)
      requires AllUsable(replacements, first, last)
               && forall i | 0 <= i < |replacements| :: replacements[i].uuid !in Doc().segs
      modifies this
      ensures Doc() == ReclaimReplaced(old(Doc()), original, replacements, freedBlocks)
      ensures diskSegments == WorkedOff(old(diskSegments), original, replacements)
      ensures autoEvict == old(autoEvict) && InBounds()
      ensures FitsReclaim(old(Doc()), original, replacements, freedBlocks) ==> Valid()
    {
      FitKeepsValid(Doc(), original, replacements, freedBlocks);
      hide ValidDoc, Retag, Without, FitsReclaim, ReclaimReplaced;
      ReplacedRest(Doc(), original, replacements, freedBlocks);
      HeldReplace(Doc(), diskSegments, original, replacements, freedBlocks);
      UsableReplace(diskSegments, original, replacements, first, last);
      hide Held, DistinctIds, AllUsable;
      diskSegments := WorkedOff(diskSegments, original, replacements);
      availableBlocks := availableBlocks + freedBlocks;
      largestSegmentAvailable := UNKNOWN_LARGEST;
    }

    method RecalculateLargestSegment()
      requires InBounds()
      modifies this
      ensures Doc() == Recalculated(old(Doc())) && autoEvict == old(autoEvict) && InBounds()
      ensures old(Valid()) ==> Valid()
    {
      ghost var before := Doc();
      largestSegmentAvailable := GetLargestSegment();
      assert Free(Doc()) == Free(before);
    }
  }

  // ------------------------------------------------------------ runs of updates

  datatype Update =
    | Add(s: Segment)
    | Delete(u: Uuid)
    | ReclaimRemove(u: Uuid)
    | ReclaimReplace(u: Uuid, replacements: seq<Segment>, freedBlocks: int)
    | Recalculate

  /** What the callers guarantee: segments come from the allocator, reserved ones go when nothing is
      derived from them, replacements spell out the used blocks. */
  ghost predicate Allowed(d: DriveDoc, a: Update) {
    match a
    case Add(s) => FromAllocator(d, s)
    case Delete(u) => Removable(d, u)
    case ReclaimRemove(u) => Removable(d, u) && d.segs[u].isReserved && !d.segs[u].OneBlock()
    case ReclaimReplace(u, replacements, freedBlocks) => FitsReclaim(d, u, replacements, freedBlocks)
    case Recalculate => true
  }

  ghost function Updated(d: DriveDoc, a: Update): DriveDoc
    requires Allowed(d, a)
  {
    match a
    case Add(s) => WithSegment(d, s)
    case Delete(u) => ForceDeleted(d, d.segs[u])
    case ReclaimRemove(u) => ReclaimRemoved(d, d.segs[u])
    case ReclaimReplace(u, replacements, freedBlocks) => ReclaimReplaced(d, u, replacements, freedBlocks)
    case Recalculate => Recalculated(d)
  }

  ghost predicate AllAllowed(d: DriveDoc, updates: seq<Update>)
    decreases |updates|
  {
    updates == [] || (Allowed(d, updates[0]) && AllAllowed(Updated(d, updates[0]), updates[1..]))
  }

  ghost function AfterAll(d: DriveDoc, updates: seq<Update>): DriveDoc
    requires AllAllowed(d, updates)
    decreases |updates|
  {
    if updates == [] then d else AfterAll(Updated(d, updates[0]), updates[1..])
  }

  /** The cached largest range is either what a fresh search finds or marked unknown. */
  ghost predicate CacheHonest(d: DriveDoc) {
    d.largest == LargestSegment(d) || d.largest == UNKNOWN_LARGEST
  }

  /** Only an `Add` of a one-block segment can put one on the drive. */
  predicate AddsNoOneBlock(a: Update) {
    a.Add? ==> !a.s.OneBlock()
  }

  lemma AddKeeps(d: DriveDoc, s: Segment)
    requires ValidDoc(d) && CacheHonest(d) && FromAllocator(d, s)
    ensures ValidDoc(WithSegment(d, s)) && CacheHonest(WithSegment(d, s))
    ensures OneBlocks(d.segs) == {} && !s.OneBlock() ==> OneBlocks(WithSegment(d, s).segs) == {}
  {
    AllocatedIsStored(d, s);
    AddKeepsCache(d, s);
    AddsNone(d.segs, s);
    hide ValidDoc, FromAllocator, CacheHonest, OneBlocks;
    assert WithSegment(d, s).segs == d.segs[s.uuid := s];
  }

  lemma AddsNone(segs: map<Uuid, Segment>, s: Segment)
    ensures OneBlocks(segs) == {} && !s.OneBlock() ==> OneBlocks(segs[s.uuid := s]) == {}
  {
    forall u | u in segs && OneBlocks(segs) == {} ensures !segs[u].OneBlock() {
      assert u !in OneBlocks(segs);
    }
  }

  lemma AddKeepsCache(d: DriveDoc, s: Segment)
    requires CacheHonest(d) && FromAllocator(d, s)
    ensures CacheHonest(WithSegment(d, s))
  {
    var pushed := d.(segs := d.segs[s.uuid := s]);
    if s.fromReserved {
      DerivedKeepsFree(d, s);
      hide FromAllocator, Free;
      SameLargest(d, WithSegment(d, s));
    } else {
      hide FromAllocator;
      assert Free(WithSegment(d, s)) == Free(pushed);
      hide Free;
      SameLargest(pushed, WithSegment(d, s));
    }
  }

  lemma SameLargest(d: DriveDoc, e: DriveDoc)
    requires Free(d) == Free(e) && d.first == e.first && d.last == e.last
    ensures LargestSegment(d) == LargestSegment(e)
  {
    hide Free;
  }

  lemma UpdateKeeps(d: DriveDoc, a: Update)
    requires ValidDoc(d) && CacheHonest(d) && Allowed(d, a)
    ensures ValidDoc(Updated(d, a)) && CacheHonest(Updated(d, a))
    ensures OneBlocks(d.segs) == {} && AddsNoOneBlock(a) ==> OneBlocks(Updated(d, a).segs) == {}
  {
    match a
    case Add(s) => AddKeeps(d, s);
    case Delete(u) =>
      ForceDeleteKeepsValid(d, u);
      hide ValidDoc, LargestSegment;
      assert OneBlocks(Updated(d, a).segs) <= OneBlocks(d.segs);
    case ReclaimRemove(u) =>
      ReclaimRemovalKeepsValid(d, u);
      hide ValidDoc, LargestSegment;
      assert OneBlocks(Updated(d, a).segs) <= OneBlocks(d.segs);
    case ReclaimReplace(u, replacements, freedBlocks) =>
      ReplaceKeepsValid(d, u, replacements, CoveredBlocks(Spans(replacements)), freedBlocks);
      ReplaceOneBlocks(d, u, replacements, freedBlocks);
      hide ValidDoc, LargestSegment;
    case Recalculate =>
      assert Free(Recalculated(d)) == Free(d);
      SameFree(d);
  }

  /** After any history of allocations, forced deletions, reclaim commits and recalculations the drive is
      valid, and unless a one-block segment was ever stored the cached count is the number of free blocks. */
  lemma {:induction false} HistoryKeepsAccounts(d: DriveDoc, updates: seq<Update>)
    requires ValidDoc(d) && CacheHonest(d) && AllAllowed(d, updates)
    ensures ValidDoc(AfterAll(d, updates)) && CacheHonest(AfterAll(d, updates))
    ensures OneBlocks(d.segs) == {} && (forall i | 0 <= i < |updates| :: AddsNoOneBlock(updates[i])) ==> (
              && OneBlocks(AfterAll(d, updates).segs) == {}
              && AfterAll(d, updates).available == |Free(AfterAll(d, updates))|)
    decreases |updates|
  {
    if updates == [] {
      hide Layout, CacheHonest, OneBlocks, Free;
    } else {
      hide ValidDoc, CacheHonest, Updated, Allowed, OneBlocks, Free, AddsNoOneBlock;
      UpdateKeeps(d, updates[0]);
      HistoryKeepsAccounts(Updated(d, updates[0]), updates[1..]);
      assert forall i | 0 <= i < |updates| - 1 :: updates[1..][i] == updates[i + 1];
    }
  }

  /** A recalculation after any history finds a free stretch no other free stretch exceeds. */
  lemma RecalculatedIsLongest(d: DriveDoc, updates: seq<Update>, q: Range)
    requires ValidDoc(d) && CacheHonest(d) && AllAllowed(d, updates)
    requires q.Nonempty() && BlocksOf(q) <= Free(AfterAll(d, updates))
    ensures var e := Recalculated(AfterAll(d, updates));
            && q.Blocks() <= e.largest.blocks
            && (2 <= e.largest.blocks ==> BlocksOf(Range(e.largest.lbs, e.largest.lbe)) <= Free(e))
            && (2 <= e.largest.blocks ==> e.largest.lbe - e.largest.lbs + 1 == e.largest.blocks)
  {
    var f := AfterAll(d, updates);
    var e := Recalculated(f);
    assert Free(e) == Free(f);
    LargestIsLongest(f, q);
    SameFree(f);
    hide AfterAll;
    if 2 <= e.largest.blocks {
      LargestIsFree(e, e.largest.blocks);
    }
  }
}
