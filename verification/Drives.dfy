/** Disk segments and the stored document of one drive: the segments on it, the cached number of
    available blocks and the cached largest free range, with the updates that keep them in step. */
module Drives {
  import opened Ranges

  type Uuid = nat
  type DiskID = nat
  type VolumeID = nat

  /** The `pendingReclaim` flag of a segment; a replacement flag carries everything needed to redo it. */
  datatype Pending = Idle | Removal | Replace(replacements: seq<Segment>, freedBlocks: int)

  datatype Segment = Segment(uuid: Uuid, diskID: DiskID, volume: VolumeID, pRaid: Uuid, lbs: int, lbe: int,
                             isReserved: bool, fromReserved: bool, reservedUUID: Uuid, pendingReclaim: Pending) {
    function Span(): Range { Range(lbs, lbe) }
    predicate OneBlock() { lbs == lbe && !fromReserved }
  }

  /** The `reservedUUID` of a segment that is not derived. */
  const NO_UUID: Uuid := 0

  datatype Largest = Largest(blocks: int, lbs: int, lbe: int)

  const UNKNOWN_LARGEST := Largest(0, 0, 0)

  datatype DriveDoc = DriveDoc(first: int, last: int, segs: map<Uuid, Segment>, available: int, largest: Largest)

  ghost predicate Taken(segs: map<Uuid, Segment>, b: int) {
    exists u :: u in segs && segs[u].Span().Has(b)
  }

  /** The usable blocks of a drive that no segment covers. */
  ghost function Free(d: DriveDoc): set<int> {
    set b: int | d.first <= b < d.last + 1 && !Taken(d.segs, b)
  }

  /** Segments of one block: `addSegmentToDisk` and `forceDeleteDiskSegments` do not count them. */
  ghost function OneBlocks(segs: map<Uuid, Segment>): set<Uuid> {
    set u | u in segs && segs[u].OneBlock()
  }

  // ------------------------------------------------------------ invariant

  ghost predicate Inside(derived: Segment, reserved: Segment) {
    reserved.isReserved && derived.fromReserved && derived.Span().Within(reserved.Span())
  }

  /** The one allowed overlap is a derived segment inside a reserved one. */
  ghost predicate Compatible(a: Segment, b: Segment) {
    a.Span().Meets(b.Span()) ==> Inside(a, b) || Inside(b, a)
  }

  ghost predicate WellPlaced(d: DriveDoc, s: Segment) {
    && d.first <= s.lbs <= s.lbe <= d.last
    && !(s.isReserved && s.fromReserved)
    && (s.fromReserved ==> s.reservedUUID in d.segs && Inside(s, d.segs[s.reservedUUID]))
  }

  ghost predicate Layout(d: DriveDoc) {
    && (forall u | u in d.segs :: d.segs[u].uuid == u && WellPlaced(d, d.segs[u]))
    && (forall u, v | u in d.segs && v in d.segs && u != v :: Compatible(d.segs[u], d.segs[v]))
  }

  /** The cached count is the number of uncovered blocks, off by the one-block segments on the drive. */
  ghost predicate Accounted(d: DriveDoc) {
    d.available == |Free(d)| + |OneBlocks(d.segs)|
  }

  ghost predicate ValidDoc(d: DriveDoc) {
    Layout(d) && Accounted(d)
  }

  // ----------------------------------------------------------- the guards

  /** The test `isSegmentOverlaps` applies to one existing segment. */
  predicate HitsGuard(seg: Segment, diskSegment: Segment) {
    && (|| (diskSegment.lbs >= seg.lbs && diskSegment.lbs <= seg.lbe)
        || (diskSegment.lbe >= seg.lbs && diskSegment.lbe <= seg.lbe)
        || (seg.lbs >= diskSegment.lbs && seg.lbe <= diskSegment.lbs))
    && !(diskSegment.fromReserved && seg.isReserved)
  }

  predicate OutOfBound(d: DriveDoc, s: Segment) {
    s.lbs < d.first || s.lbe > d.last
  }

  ghost predicate GuardRejects(d: DriveDoc, s: Segment) {
    exists u :: u in d.segs && HitsGuard(d.segs[u], s)
  }

  /** The guard sees every overlap except one: an existing segment strictly inside the new one. */
  lemma GuardExact(seg: Segment, diskSegment: Segment)
    requires seg.Span().Nonempty() && diskSegment.Span().Nonempty()
    requires !(diskSegment.fromReserved && seg.isReserved)
    ensures HitsGuard(seg, diskSegment)
       <==> seg.Span().Meets(diskSegment.Span()) && !(diskSegment.lbs < seg.lbs && seg.lbe < diskSegment.lbe)
  {
  }

  // --------------------------------------------------------------- updates

  ghost function LargestSegment(d: DriveDoc): Largest {
    var r := LastLongest(RunsOf(Free(d)), Range(d.first, d.first - 1));
    if r.lbe <= r.lbs then Largest(r.Blocks(), 0, 0) else Largest(r.Blocks(), r.lbs, r.lbe)
  }

  ghost function Recalculated(d: DriveDoc): DriveDoc {
    d.(largest := LargestSegment(d))
  }

  /** The document after `addSegmentToDisk` accepted a data segment. */
  ghost function WithSegment(d: DriveDoc, s: Segment): DriveDoc {
    var pushed := d.(segs := d.segs[s.uuid := s]);
    if s.fromReserved then pushed
    else Recalculated(pushed).(available := d.available - if s.lbe == s.lbs then 0 else s.Span().Blocks())
  }

  datatype AddResult = Overlaps | OutOfBounds | Stored(doc: DriveDoc)

  ghost function AddSegment(d: DriveDoc, s: Segment): AddResult {
    if GuardRejects(d, s) then Overlaps
    else if OutOfBound(d, s) then OutOfBounds
    else Stored(WithSegment(d, s))
  }

  function Pulled(d: DriveDoc, u: Uuid, credit: int): DriveDoc {
    d.(segs := d.segs - {u}, available := d.available + credit, largest := UNKNOWN_LARGEST)
  }

  function ForceDeleted(d: DriveDoc, s: Segment): DriveDoc {
    var delta := s.lbe - s.lbs;
    Pulled(d, s.uuid, if s.fromReserved || delta == 0 then 0 else delta + 1)
  }

  function ReclaimRemoved(d: DriveDoc, s: Segment): DriveDoc {
    Pulled(d, s.uuid, s.lbe - s.lbs + 1)
  }

  /** The first replacement that covers a derived segment becomes the reservation it names. */
  function Retag(s: Segment, replacements: seq<Segment>): Segment {
    if replacements == [] then s
    else if replacements[0].lbs <= s.lbs && s.lbe <= replacements[0].lbe && s.fromReserved
    then s.(reservedUUID := replacements[0].uuid)
    else Retag(s, replacements[1..])
  }

  function ById(segs: seq<Segment>): (m: map<Uuid, Segment>)
    ensures forall u :: u in m <==> exists i :: 0 <= i < |segs| && segs[i].uuid == u
    ensures forall u | u in m :: exists i :: 0 <= i < |segs| && segs[i] == m[u] && m[u].uuid == u
  {
    if segs == [] then map[]
    else
      var n := |segs| - 1;
      var rest := ById(segs[..n]);
      rest[segs[n].uuid := segs[n]]
  }

  /** One atomic pipeline: drop the original, retag what it covered, append the replacements. */
  function ReclaimReplaced(d: DriveDoc, original: Uuid, replacements: seq<Segment>, freedBlocks: int): DriveDoc {
    var kept := map u | u in d.segs && u != original :: Retag(d.segs[u], replacements);
    d.(segs := kept + ById(replacements), available := d.available + freedBlocks, largest := UNKNOWN_LARGEST)
  }

  // ------------------------------------------------------ what free becomes

  lemma FreeShrinks(d: DriveDoc, s: Segment)
    requires s.uuid !in d.segs
    ensures Free(d.(segs := d.segs[s.uuid := s])) == Free(d) - BlocksOf(s.Span())
  {
    var e := d.(segs := d.segs[s.uuid := s]);
    forall b ensures Taken(e.segs, b) <==> Taken(d.segs, b) || s.Span().Has(b) {
      if Taken(d.segs, b) {
        var u :| u in d.segs && d.segs[u].Span().Has(b);
        assert u in e.segs && e.segs[u].Span().Has(b);
      }
      if s.Span().Has(b) {
        assert e.segs[s.uuid].Span().Has(b);
      }
    }
  }

  /** Removing a segment frees the blocks no other segment covers. */
  lemma FreeGrows(d: DriveDoc, u: Uuid, blocks: set<int>)
    requires u in d.segs && WellPlaced(d, d.segs[u])
    requires forall b :: b in blocks <==> d.segs[u].Span().Has(b) && !Taken(d.segs - {u}, b)
    ensures Free(d.(segs := d.segs - {u})) == Free(d) + blocks
    ensures Free(d) !! blocks
  {
    var e := d.(segs := d.segs - {u});
    forall b ensures Taken(d.segs, b) <==> Taken(e.segs, b) || d.segs[u].Span().Has(b) {
      if Taken(e.segs, b) {
        var v :| v in e.segs && e.segs[v].Span().Has(b);
        assert v in d.segs && d.segs[v].Span().Has(b);
      }
      if Taken(d.segs, b) {
        var v :| v in d.segs && d.segs[v].Span().Has(b);
        assert v != u ==> v in e.segs && e.segs[v].Span().Has(b);
      }
    }
  }

  // ------------------------------------------------- adding what was chosen

  /** What the allocator hands to `addSegmentToDisk`: a piece of free space, or an unused piece of a
      reserved segment. */
  ghost predicate FromAllocator(d: DriveDoc, s: Segment) {
    && s.uuid !in d.segs
    && s.Span().Nonempty()
    && if s.fromReserved then
         && !s.isReserved
         && s.reservedUUID in d.segs && Inside(s, d.segs[s.reservedUUID])
         && (forall u | u in d.segs && !d.segs[u].isReserved :: !d.segs[u].Span().Meets(s.Span()))
       else
         BlocksOf(s.Span()) <= Free(d)
  }

  lemma NothingMeets(d: DriveDoc, s: Segment)
    requires FromAllocator(d, s) && !s.fromReserved
    ensures d.first <= s.lbs && s.lbe <= d.last
    ensures forall u | u in d.segs && d.segs[u].Span().Nonempty() :: !d.segs[u].Span().Meets(s.Span())
  {
    assert s.lbs in BlocksOf(s.Span()) && s.lbe in BlocksOf(s.Span());
    forall u | u in d.segs && d.segs[u].Span().Nonempty() ensures !d.segs[u].Span().Meets(s.Span()) {
      var b := Max(s.lbs, d.segs[u].lbs);
      assert s.Span().Has(b) ==> b in BlocksOf(s.Span());
      assert d.segs[u].Span().Has(b) ==> Taken(d.segs, b);
    }
  }

  lemma AllocatedIsCompatible(d: DriveDoc, s: Segment)
    requires Layout(d) && FromAllocator(d, s)
    ensures d.first <= s.lbs && s.lbe <= d.last
    ensures forall u | u in d.segs :: !HitsGuard(d.segs[u], s) && Compatible(d.segs[u], s) && Compatible(s, d.segs[u])
  {
    if s.fromReserved {
      assert WellPlaced(d, d.segs[s.reservedUUID]);
      forall u | u in d.segs ensures !HitsGuard(d.segs[u], s) && Compatible(d.segs[u], s) && Compatible(s, d.segs[u]) {
        assert WellPlaced(d, d.segs[u]);
        if d.segs[u].isReserved && u != s.reservedUUID {
          assert Compatible(d.segs[u], d.segs[s.reservedUUID]);
        }
      }
    } else {
      NothingMeets(d, s);
      forall u | u in d.segs ensures d.segs[u].Span().Nonempty() {
        assert WellPlaced(d, d.segs[u]);
      }
    }
  }

  lemma DerivedKeepsFree(d: DriveDoc, s: Segment)
    requires s.fromReserved && FromAllocator(d, s)
    ensures Free(d.(segs := d.segs[s.uuid := s])) == Free(d)
    ensures OneBlocks(d.segs[s.uuid := s]) == OneBlocks(d.segs)
  {
    FreeShrinks(d, s);
    forall b | b in BlocksOf(s.Span()) ensures Taken(d.segs, b) {
      assert d.segs[s.reservedUUID].Span().Has(b);
    }
  }

  lemma OneMoreBlock(segs: map<Uuid, Segment>, s: Segment)
    requires s.uuid !in segs
    ensures |OneBlocks(segs[s.uuid := s])| == |OneBlocks(segs)| + (if s.OneBlock() then 1 else 0)
  {
    var after := OneBlocks(segs[s.uuid := s]);
    if s.OneBlock() {
      assert after == OneBlocks(segs) + {s.uuid};
    } else {
      assert after == OneBlocks(segs);
    }
  }

  lemma PlainTakesFree(d: DriveDoc, s: Segment)
    requires !s.fromReserved && FromAllocator(d, s)
    ensures |Free(d.(segs := d.segs[s.uuid := s]))| == |Free(d)| - s.Span().Blocks()
    ensures |OneBlocks(d.segs[s.uuid := s])| == |OneBlocks(d.segs)| + (if s.OneBlock() then 1 else 0)
  {
    FreeShrinks(d, s);
    OneMoreBlock(d.segs, s);
    hide Free, OneBlocks;
    assert |BlocksOf(s.Span())| == s.Span().Blocks();
  }

  lemma AllocatedKeepsAccount(d: DriveDoc, s: Segment)
    requires ValidDoc(d) && FromAllocator(d, s)
    ensures Accounted(WithSegment(d, s))
  {
    hide Layout, LargestSegment;
    var e := WithSegment(d, s);
    assert Free(e) == Free(d.(segs := d.segs[s.uuid := s]));
    if s.fromReserved {
      DerivedKeepsFree(d, s);
    } else {
      PlainTakesFree(d, s);
    }
  }

  /** Neither guard ever turns away a segment the allocator produced, and storing it keeps the drive valid. */
  lemma AllocatedIsStored(d: DriveDoc, s: Segment)
    requires ValidDoc(d) && FromAllocator(d, s)
    ensures AddSegment(d, s) == Stored(WithSegment(d, s))
    ensures ValidDoc(WithSegment(d, s))
  {
    hide Accounted, LargestSegment;
    AllocatedIsCompatible(d, s);
    AllocatedKeepsAccount(d, s);
    AllocatedKeepsLayout(d, s);
    hide Layout, FromAllocator;
  }

  lemma AllocatedKeepsLayout(d: DriveDoc, s: Segment)
    requires Layout(d) && FromAllocator(d, s)
    ensures Layout(WithSegment(d, s))
  {
    hide LargestSegment, HitsGuard;
    var e := WithSegment(d, s);
    assert e.segs == d.segs[s.uuid := s] && e.first == d.first && e.last == d.last;
    AllocatedIsCompatible(d, s);
    hide WithSegment;
    forall u | u in e.segs ensures e.segs[u].uuid == u && WellPlaced(e, e.segs[u]) {
      AllocatedPlaced(d, s, e, u);
    }
    hide FromAllocator, WellPlaced;
  }

  lemma AllocatedPlaced(d: DriveDoc, s: Segment, e: DriveDoc, u: Uuid)
    requires Layout(d) && FromAllocator(d, s) && d.first <= s.lbs && s.lbe <= d.last
    requires e.segs == d.segs[s.uuid := s] && e.first == d.first && e.last == d.last && u in e.segs
    ensures e.segs[u].uuid == u && WellPlaced(e, e.segs[u])
  {
    hide Compatible, Free;
    if u in d.segs {
      assert WellPlaced(d, d.segs[u]);
    }
  }

  /** The cached largest range, when it is up to date and longer than one block, is free space: any
      segment carved from its start is accepted. */
  lemma LargestIsFree(d: DriveDoc, blocks: int)
    requires d.largest == LargestSegment(d) && 2 <= d.largest.blocks && 1 <= blocks <= d.largest.blocks
    ensures BlocksOf(Range(d.largest.lbs, d.largest.lbs + blocks - 1)) <= Free(d)
  {
    hide IsRuns, RunsOf, Free;
    LargestIsRun(d);
  }

  lemma LargestIsRun(d: DriveDoc)
    ensures var r := LastLongest(RunsOf(Free(d)), Range(d.first, d.first - 1));
            if Free(d) == {} then r == Range(d.first, d.first - 1) else IsLongestRun(r, Free(d))
  {
    hide IsRuns;
    if Free(d) == {} {
      RunsOfNothing(RunsOf({}));
    } else {
      LastLongestIsLongest(Free(d), Range(d.first, d.first - 1));
    }
  }

  /** No free stretch of a drive is longer than its recalculated largest range. */
  lemma LargestIsLongest(d: DriveDoc, q: Range)
    requires q.Nonempty() && BlocksOf(q) <= Free(d)
    ensures q.Blocks() <= LargestSegment(d).blocks
  {
    hide IsRuns;
    assert q.lbs in BlocksOf(q);
    LargestIsRun(d);
  }

  // ---------------------------------------------------------------- removing

  /** A reserved segment may go only when nothing is derived from it any more. */
  ghost predicate Removable(d: DriveDoc, u: Uuid) {
    u in d.segs && (forall v | v in d.segs && d.segs[v].fromReserved :: d.segs[v].reservedUUID != u)
  }

  /** Nothing else covers a block of a removable segment that is not derived itself. */
  lemma AloneOnItsBlocks(d: DriveDoc, u: Uuid)
    requires Layout(d) && Removable(d, u) && !d.segs[u].fromReserved
    ensures forall b | d.segs[u].Span().Has(b) :: !Taken(d.segs - {u}, b)
  {
    forall v, b | v in d.segs && v != u && d.segs[v].Span().Has(b) ensures !d.segs[u].Span().Has(b) {
      assert Compatible(d.segs[u], d.segs[v]);
      assert WellPlaced(d, d.segs[v]);
      if d.segs[v].fromReserved {
        assert Compatible(d.segs[u], d.segs[d.segs[v].reservedUUID]);
      }
    }
  }

  lemma PullKeepsLayout(d: DriveDoc, u: Uuid, credit: int)
    requires Layout(d) && Removable(d, u)
    ensures Layout(Pulled(d, u, credit))
  {
    var e := Pulled(d, u, credit);
    forall v | v in e.segs ensures e.segs[v].uuid == v && WellPlaced(e, e.segs[v]) {
      assert WellPlaced(d, d.segs[v]);
    }
  }

  lemma PullFrees(d: DriveDoc, u: Uuid, credit: int)
    requires Layout(d) && Removable(d, u)
    ensures |Free(Pulled(d, u, credit))|
            == |Free(d)| + (if d.segs[u].fromReserved then 0 else d.segs[u].Span().Blocks())
  {
    var s := d.segs[u];
    assert WellPlaced(d, s);
    var e := d.(segs := d.segs - {u});
    assert Free(Pulled(d, u, credit)) == Free(e);
    if s.fromReserved {
      forall b | s.Span().Has(b) ensures Taken(d.segs - {u}, b) {
        assert (d.segs - {u})[s.reservedUUID].Span().Has(b);
      }
      FreeGrows(d, u, {});
    } else {
      AloneOnItsBlocks(d, u);
      FreeGrows(d, u, BlocksOf(s.Span()));
    }
  }

  lemma PullOneBlocks(d: DriveDoc, u: Uuid)
    requires u in d.segs
    ensures |OneBlocks(d.segs - {u})| == |OneBlocks(d.segs)| - (if d.segs[u].OneBlock() then 1 else 0)
  {
    if d.segs[u].OneBlock() {
      assert OneBlocks(d.segs) == OneBlocks(d.segs - {u}) + {u};
    } else {
      assert OneBlocks(d.segs) == OneBlocks(d.segs - {u});
    }
  }

  lemma ForceDeleteKeepsValid(d: DriveDoc, u: Uuid)
    requires ValidDoc(d) && Removable(d, u)
    ensures ValidDoc(ForceDeleted(d, d.segs[u]))
  {
    var s := d.segs[u];
    var credit := if s.fromReserved || s.lbe == s.lbs then 0 else s.Span().Blocks();
    PullKeepsLayout(d, u, credit);
    PullFrees(d, u, credit);
    PullOneBlocks(d, u);
    assert WellPlaced(d, s);
    assert ForceDeleted(d, s) == Pulled(d, u, credit);
  }

  /** A reclaim removal keeps the drive valid unless the segment is a single block: that one was never debited, and
      the removal credits it. */
  lemma ReclaimRemovalKeepsValid(d: DriveDoc, u: Uuid)
    requires ValidDoc(d) && Removable(d, u) && d.segs[u].isReserved
    ensures ValidDoc(ReclaimRemoved(d, d.segs[u])) <==> !d.segs[u].OneBlock()
  {
    assert WellPlaced(d, d.segs[u]);
    PullKeepsLayout(d, u, d.segs[u].Span().Blocks());
    PullFrees(d, u, d.segs[u].Span().Blocks());
    PullOneBlocks(d, u);
  }

  // --------------------------------------------------------------- replacing

  function Spans(segs: seq<Segment>): (r: seq<Range>)
    ensures |r| == |segs| && forall i | 0 <= i < |segs| :: r[i] == segs[i].Span()
  {
    seq(|segs|, i requires 0 <= i < |segs| => segs[i].Span())
  }

  ghost predicate DistinctIds(segs: seq<Segment>) {
    forall i, j | 0 <= i < j < |segs| :: segs[i].uuid != segs[j].uuid
  }

  /** The replacements spell out exactly the used blocks of a reserved segment. */
  ghost predicate FitsUsed(d: DriveDoc, u: Uuid, replacements: seq<Segment>, used: set<int>) {
    && u in d.segs && d.segs[u].isReserved && used <= BlocksOf(d.segs[u].Span())
    && IsRuns(Spans(replacements), used)
    && DistinctIds(replacements)
    && (forall i | 0 <= i < |replacements| ::
          replacements[i].isReserved && !replacements[i].fromReserved && replacements[i].uuid !in d.segs)
    && (forall v | v in d.segs && d.segs[v].fromReserved && d.segs[v].reservedUUID == u ::
          BlocksOf(d.segs[v].Span()) <= used)
  }

  lemma {:induction false} RetagPicks(s: Segment, replacements: seq<Segment>)
    requires s.fromReserved
    ensures (exists k :: 0 <= k < |replacements| && s.Span().Within(replacements[k].Span())
                      && Retag(s, replacements) == s.(reservedUUID := replacements[k].uuid))
         || (Retag(s, replacements) == s
             && forall k | 0 <= k < |replacements| :: !s.Span().Within(replacements[k].Span()))
    decreases |replacements|
  {
    if replacements != [] && !s.Span().Within(replacements[0].Span()) {
      RetagPicks(s, replacements[1..]);
      if k :| 0 <= k < |replacements| - 1 && s.Span().Within(replacements[1..][k].Span())
              && Retag(s, replacements[1..]) == s.(reservedUUID := replacements[1..][k].uuid) {
        assert s.Span().Within(replacements[k + 1].Span());
      } else {
        forall k | 0 <= k < |replacements| ensures !s.Span().Within(replacements[k].Span()) {
          assert k > 0 ==> replacements[k] == replacements[1..][k - 1];
        }
      }
    }
  }

  lemma {:induction false} RetagPlain(s: Segment, replacements: seq<Segment>)
    requires !s.fromReserved
    ensures Retag(s, replacements) == s
    decreases |replacements|
  {
    if replacements != [] {
      RetagPlain(s, replacements[1..]);
    }
  }

  lemma RetagTarget(d: DriveDoc, u: Uuid, replacements: seq<Segment>, used: set<int>, v: Uuid) returns (k: int)
    requires Layout(d) && FitsUsed(d, u, replacements, used)
    requires v in d.segs && d.segs[v].fromReserved
    ensures if d.segs[v].reservedUUID == u then
              && 0 <= k < |replacements| && d.segs[v].Span().Within(replacements[k].Span())
              && Retag(d.segs[v], replacements) == d.segs[v].(reservedUUID := replacements[k].uuid)
            else Retag(d.segs[v], replacements) == d.segs[v]
  {
    var s := d.segs[v];
    assert WellPlaced(d, s) && WellPlaced(d, d.segs[s.reservedUUID]) && WellPlaced(d, d.segs[u]);
    RetagPicks(s, replacements);
    if s.reservedUUID == u {
      forall b | s.Span().Has(b) ensures b in used { assert b in BlocksOf(s.Span()); }
      k := WithinOneRun(Spans(replacements), used, s.Span());
    } else {
      k := 0;
      assert Compatible(d.segs[u], d.segs[s.reservedUUID]);
      forall i | 0 <= i < |replacements| ensures !s.Span().Within(replacements[i].Span()) {
        assert Spans(replacements)[i].Has(s.lbs) ==> Covered(Spans(replacements), s.lbs);
      }
    }
  }

  /** The segment lies in replacement `k`, names it from now on, and is clear of every other replacement. */
  ghost predicate Follows(s: Segment, replacements: seq<Segment>, k: int) {
    && 0 <= k < |replacements|
    && s.Span().Within(replacements[k].Span())
    && Retag(s, replacements) == s.(reservedUUID := replacements[k].uuid)
    && (forall j | 0 <= j < |replacements| && j != k :: !s.Span().Meets(replacements[j].Span()))
  }

  /** A derived segment follows its reservation: it names the one replacement it lies in, or, when it
      was derived from another reservation, keeps its name. */
  lemma RetagFollows(d: DriveDoc, u: Uuid, replacements: seq<Segment>, used: set<int>, v: Uuid)
    requires Layout(d) && FitsUsed(d, u, replacements, used)
    requires v in d.segs && d.segs[v].fromReserved
    ensures d.segs[v].reservedUUID == u ==> exists k :: Follows(d.segs[v], replacements, k)
    ensures d.segs[v].reservedUUID != u ==> Retag(d.segs[v], replacements) == d.segs[v]
  {
    var s := d.segs[v];
    var k := RetagTarget(d, u, replacements, used, v);
    if s.reservedUUID == u {
      hide Retag, Layout;
      forall j | 0 <= j < |replacements| && j != k ensures !s.Span().Meets(replacements[j].Span()) {
        assert Spans(replacements)[j] == replacements[j].Span() && Spans(replacements)[k] == replacements[k].Span();
      }
      assert Follows(s, replacements, k);
    }
  }

  lemma ByIdPicks(segs: seq<Segment>, i: int)
    requires DistinctIds(segs) && 0 <= i < |segs|
    ensures segs[i].uuid in ById(segs) && ById(segs)[segs[i].uuid] == segs[i]
  {
  }

  lemma ReplacedSegments(d: DriveDoc, u: Uuid, replacements: seq<Segment>, freedBlocks: int)
    ensures var e := ReclaimReplaced(d, u, replacements, freedBlocks);
            && (forall v | v in e.segs :: (v in ById(replacements) && e.segs[v] == ById(replacements)[v])
                    || (v in d.segs && v != u && v !in ById(replacements)
                        && e.segs[v] == Retag(d.segs[v], replacements)))
            && (forall v | v in ById(replacements) :: v in e.segs)
            && (forall v | v in d.segs && v != u :: v in e.segs)
  {
  }

  /** The same segments stay where they were; only the reservation a derived one names may change. */
  lemma RetagKeepsSpan(s: Segment, replacements: seq<Segment>)
    ensures Retag(s, replacements) == s.(reservedUUID := Retag(s, replacements).reservedUUID)
    ensures !s.fromReserved ==> Retag(s, replacements) == s
    decreases |replacements|
  {
    if replacements != [] {
      RetagKeepsSpan(s, replacements[1..]);
    }
  }

  lemma ReplacementBlocks(replacements: seq<Segment>, used: set<int>, i: int)
    requires IsRuns(Spans(replacements), used) && 0 <= i < |replacements|
    ensures replacements[i].Span().Nonempty() && BlocksOf(replacements[i].Span()) <= used
  {
    var spans := Spans(replacements);
    assert spans[i].Nonempty();
    forall b | b in BlocksOf(replacements[i].Span()) ensures b in used {
      assert spans[i].Has(b);
      assert Covered(spans, b);
    }
  }

  lemma ReplacementPlaced(d: DriveDoc, u: Uuid, replacements: seq<Segment>, used: set<int>, i: int)
    requires Layout(d) && FitsUsed(d, u, replacements, used) && 0 <= i < |replacements|
    ensures d.first <= replacements[i].lbs <= replacements[i].lbe <= d.last
  {
    hide IsRuns;
    var r := replacements[i];
    assert WellPlaced(d, d.segs[u]);
    ReplacementBlocks(replacements, used, i);
    assert r.lbs in BlocksOf(r.Span()) && r.lbe in BlocksOf(r.Span());
    assert r.lbs in BlocksOf(d.segs[u].Span()) && r.lbe in BlocksOf(d.segs[u].Span());
  }

  lemma KeptPlaced(d: DriveDoc, u: Uuid, replacements: seq<Segment>, used: set<int>, e: DriveDoc, v: Uuid)
    requires Layout(d) && FitsUsed(d, u, replacements, used) && v in d.segs && v != u
    requires e.first == d.first && e.last == d.last
    requires forall w | w in d.segs && w != u :: w in e.segs && e.segs[w] == Retag(d.segs[w], replacements)
    requires forall i | 0 <= i < |replacements| ::
               replacements[i].uuid in e.segs && e.segs[replacements[i].uuid] == replacements[i]
    ensures e.segs[v].uuid == v && WellPlaced(e, e.segs[v])
  {
    hide IsRuns;
    assert WellPlaced(d, d.segs[v]);
    RetagKeepsSpan(d.segs[v], replacements);
    if d.segs[v].fromReserved {
      var k := RetagTarget(d, u, replacements, used, v);
      hide Retag;
      if d.segs[v].reservedUUID != u {
        RetagKeepsSpan(d.segs[d.segs[v].reservedUUID], replacements);
      }
    }
  }

  lemma ReplacedPlacement(d: DriveDoc, u: Uuid, replacements: seq<Segment>, used: set<int>, freedBlocks: int, v: Uuid)
    requires Layout(d) && FitsUsed(d, u, replacements, used)
    requires v in ReclaimReplaced(d, u, replacements, freedBlocks).segs
    ensures var e := ReclaimReplaced(d, u, replacements, freedBlocks);
            e.segs[v].uuid == v && WellPlaced(e, e.segs[v])
  {
    hide IsRuns;
    var e := ReclaimReplaced(d, u, replacements, freedBlocks);
    ReplacedSegments(d, u, replacements, freedBlocks);
    forall i | 0 <= i < |replacements| ensures replacements[i].uuid in e.segs
           && e.segs[replacements[i].uuid] == replacements[i] {
      ByIdPicks(replacements, i);
    }
    if v in ById(replacements) {
      var i :| 0 <= i < |replacements| && replacements[i].uuid == v;
      ReplacementPlaced(d, u, replacements, used, i);
    } else {
      KeptPlaced(d, u, replacements, used, e, v);
    }
  }

  lemma ReplacedCompatible(d: DriveDoc, u: Uuid, replacements: seq<Segment>, used: set<int>, v: Uuid, i: int)
    requires Layout(d) && FitsUsed(d, u, replacements, used)
    requires v in d.segs && v != u && 0 <= i < |replacements|
    ensures Compatible(Retag(d.segs[v], replacements), replacements[i])
    ensures Compatible(replacements[i], Retag(d.segs[v], replacements))
  {
    hide IsRuns;
    var s, r := d.segs[v], replacements[i];
    RetagKeepsSpan(s, replacements);
    ReplacementBlocks(replacements, used, i);
    assert r.lbs in BlocksOf(r.Span()) && r.lbe in BlocksOf(r.Span());
    assert r.lbs in BlocksOf(d.segs[u].Span()) && r.lbe in BlocksOf(d.segs[u].Span());
    assert Compatible(d.segs[u], s);
    assert WellPlaced(d, s) && WellPlaced(d, d.segs[u]);
    if s.fromReserved {
      assert WellPlaced(d, d.segs[s.reservedUUID]);
      if s.reservedUUID == u {
        DerivedMeetsItsRun(replacements, used, s, i);
      } else {
        assert Compatible(d.segs[u], d.segs[s.reservedUUID]);
      }
    }
  }

  lemma DerivedMeetsItsRun(replacements: seq<Segment>, used: set<int>, s: Segment, i: int)
    requires IsRuns(Spans(replacements), used) && 0 <= i < |replacements|
    requires s.Span().Nonempty() && BlocksOf(s.Span()) <= used
    ensures replacements[i].Span().Meets(s.Span()) ==> s.Span().Within(replacements[i].Span())
  {
    forall b | s.Span().Has(b) ensures b in used { assert b in BlocksOf(s.Span()); }
    var k := WithinOneRun(Spans(replacements), used, s.Span());
    assert Spans(replacements)[i].Meets(s.Span()) ==> i == k;
  }

  lemma ReplaceKeepsLayout(d: DriveDoc, u: Uuid, replacements: seq<Segment>, used: set<int>, freedBlocks: int)
    requires Layout(d) && FitsUsed(d, u, replacements, used)
    ensures Layout(ReclaimReplaced(d, u, replacements, freedBlocks))
  {
    hide IsRuns;
    var e := ReclaimReplaced(d, u, replacements, freedBlocks);
    forall v | v in e.segs ensures e.segs[v].uuid == v && WellPlaced(e, e.segs[v]) {
      ReplacedPlacement(d, u, replacements, used, freedBlocks, v);
    }
    forall v, w | v in e.segs && w in e.segs && v != w ensures Compatible(e.segs[v], e.segs[w]) {
      ReplacedPair(d, u, replacements, used, freedBlocks, v, w);
    }
  }

  lemma ReplacementsApart(replacements: seq<Segment>, used: set<int>, i: int, j: int)
    requires IsRuns(Spans(replacements), used) && 0 <= i < |replacements| && 0 <= j < |replacements| && i != j
    ensures !replacements[i].Span().Meets(replacements[j].Span())
  {
    var spans := Spans(replacements);
    assert spans[i].lbe < spans[j].lbs || spans[j].lbe < spans[i].lbs;
  }

  lemma ReplacedPair(d: DriveDoc, u: Uuid, replacements: seq<Segment>, used: set<int>, freedBlocks: int, v: Uuid,
                     w: Uuid)
    requires Layout(d) && FitsUsed(d, u, replacements, used)
    requires var e := ReclaimReplaced(d, u, replacements, freedBlocks);
             v in e.segs && w in e.segs && v != w
    ensures var e := ReclaimReplaced(d, u, replacements, freedBlocks); Compatible(e.segs[v], e.segs[w])
  {
    hide IsRuns;
    ReplacedSegments(d, u, replacements, freedBlocks);
    if v in ById(replacements) {
      var i :| 0 <= i < |replacements| && replacements[i].uuid == v;
      ByIdPicks(replacements, i);
      if w in ById(replacements) {
        var j :| 0 <= j < |replacements| && replacements[j].uuid == w;
        ByIdPicks(replacements, j);
        ReplacementsApart(replacements, used, i, j);
      } else {
        ReplacedCompatible(d, u, replacements, used, w, i);
      }
    } else if w in ById(replacements) {
      var j :| 0 <= j < |replacements| && replacements[j].uuid == w;
      ByIdPicks(replacements, j);
      ReplacedCompatible(d, u, replacements, used, v, j);
    } else {
      RetagKeepsSpan(d.segs[v], replacements);
      RetagKeepsSpan(d.segs[w], replacements);
      assert Compatible(d.segs[v], d.segs[w]);
    }
  }

  /** A reclaim frees exactly the unused blocks of the reserved segment. */
  lemma ReplaceFrees(d: DriveDoc, u: Uuid, replacements: seq<Segment>, used: set<int>, freedBlocks: int)
    requires Layout(d) && FitsUsed(d, u, replacements, used)
    ensures |Free(ReclaimReplaced(d, u, replacements, freedBlocks))| == |Free(d)| + d.segs[u].Span().Blocks() - |used|
  {
    var s := d.segs[u];
    var e := ReclaimReplaced(d, u, replacements, freedBlocks);
    assert WellPlaced(d, s);
    var gap := BlocksOf(s.Span()) - used;
    forall b ensures b in Free(e) <==> b in Free(d) || b in gap {
      ReplacedTaken(d, u, replacements, used, freedBlocks, b);
      assert s.Span().Has(b) ==> Taken(d.segs, b);
    }
    assert Free(e) == Free(d) + gap;
    assert Free(d) !! gap by {
      forall b | b in gap ensures b !in Free(d) { assert s.Span().Has(b); }
    }
    assert |gap| == |BlocksOf(s.Span())| - |used|;
  }

  lemma ReplacedTaken(d: DriveDoc, u: Uuid, replacements: seq<Segment>, used: set<int>, freedBlocks: int, b: int)
    requires Layout(d) && FitsUsed(d, u, replacements, used)
    ensures Taken(ReclaimReplaced(d, u, replacements, freedBlocks).segs, b)
       <==> Taken(d.segs, b) && !(b in BlocksOf(d.segs[u].Span()) && b !in used)
  {
    hide IsRuns;
    var e := ReclaimReplaced(d, u, replacements, freedBlocks);
    if Taken(e.segs, b) {
      var v :| v in e.segs && e.segs[v].Span().Has(b);
      StillTaken(d, u, replacements, used, freedBlocks, b, v);
    }
    if Taken(d.segs, b) && !(b in BlocksOf(d.segs[u].Span()) && b !in used) {
      var v :| v in d.segs && d.segs[v].Span().Has(b);
      StaysTaken(d, u, replacements, used, freedBlocks, b, v);
    }
  }

  lemma StillTaken(d: DriveDoc, u: Uuid, replacements: seq<Segment>, used: set<int>, freedBlocks: int, b: int, v: Uuid)
    requires Layout(d) && FitsUsed(d, u, replacements, used)
    requires var e := ReclaimReplaced(d, u, replacements, freedBlocks); v in e.segs && e.segs[v].Span().Has(b)
    ensures Taken(d.segs, b) && !(b in BlocksOf(d.segs[u].Span()) && b !in used)
  {
    hide IsRuns, Layout, Taken;
    ReplacedSegments(d, u, replacements, freedBlocks);
    if v in ById(replacements) {
      var i :| 0 <= i < |replacements| && replacements[i].uuid == v;
      ByIdPicks(replacements, i);
      ReplacementBlocks(replacements, used, i);
      assert b in BlocksOf(replacements[i].Span());
      TakenBy(d.segs, u, b);
    } else {
      RetagKeepsSpan(d.segs[v], replacements);
      OthersStillTaken(d, u, replacements, used, b, v);
    }
  }

  /** A block of another segment is taken, and used when it lies on the reserved one. */
  lemma OthersStillTaken(d: DriveDoc, u: Uuid, replacements: seq<Segment>, used: set<int>, b: int, v: Uuid)
    requires Layout(d) && FitsUsed(d, u, replacements, used) && v in d.segs && v != u && d.segs[v].Span().Has(b)
    ensures Taken(d.segs, b) && !(b in BlocksOf(d.segs[u].Span()) && b !in used)
  {
    hide IsRuns, Layout, Taken;
    TakenBy(d.segs, v, b);
    if d.segs[u].Span().Has(b) {
      OthersOnReserved(d, u, v, b);
      assert b in BlocksOf(d.segs[v].Span());
    }
  }

  lemma TakenBy(segs: map<Uuid, Segment>, v: Uuid, b: int)
    requires v in segs && segs[v].Span().Has(b)
    ensures Taken(segs, b)
  {
  }

  lemma StaysTaken(d: DriveDoc, u: Uuid, replacements: seq<Segment>, used: set<int>, freedBlocks: int, b: int, v: Uuid)
    requires Layout(d) && FitsUsed(d, u, replacements, used)
    requires v in d.segs && d.segs[v].Span().Has(b) && !(b in BlocksOf(d.segs[u].Span()) && b !in used)
    ensures Taken(ReclaimReplaced(d, u, replacements, freedBlocks).segs, b)
  {
    var e := ReclaimReplaced(d, u, replacements, freedBlocks);
    ReplacedSegments(d, u, replacements, freedBlocks);
    if v == u {
      var i :| 0 <= i < |Spans(replacements)| && Spans(replacements)[i].Has(b);
      ByIdPicks(replacements, i);
      assert replacements[i].uuid in e.segs && e.segs[replacements[i].uuid].Span().Has(b);
    } else {
      RetagKeepsSpan(d.segs[v], replacements);
      assert v in e.segs && e.segs[v].Span().Has(b);
    }
  }

  /** Whatever else lies on a block of a reserved segment is derived from that very segment. */
  lemma OthersOnReserved(d: DriveDoc, u: Uuid, v: Uuid, b: int)
    requires Layout(d) && u in d.segs && d.segs[u].isReserved && v in d.segs && v != u
    requires d.segs[u].Span().Has(b) && d.segs[v].Span().Has(b)
    ensures d.segs[v].fromReserved && d.segs[v].reservedUUID == u
  {
    assert Compatible(d.segs[u], d.segs[v]);
    assert WellPlaced(d, d.segs[u]) && WellPlaced(d, d.segs[v]);
    var r := d.segs[v].reservedUUID;
    assert r == u || Compatible(d.segs[u], d.segs[r]);
  }

  ghost predicate NoOneBlocks(segs: seq<Segment>) {
    forall i | 0 <= i < |segs| :: segs[i].lbs != segs[i].lbe
  }

  lemma ReplaceOneBlocks(d: DriveDoc, u: Uuid, replacements: seq<Segment>, freedBlocks: int)
    requires u in d.segs && !d.segs[u].OneBlock() && NoOneBlocks(replacements)
    requires forall i | 0 <= i < |replacements| :: replacements[i].uuid !in d.segs
    ensures OneBlocks(ReclaimReplaced(d, u, replacements, freedBlocks).segs) == OneBlocks(d.segs)
  {
    var e := ReclaimReplaced(d, u, replacements, freedBlocks);
    ReplacedSegments(d, u, replacements, freedBlocks);
    forall v ensures v in OneBlocks(e.segs) <==> v in OneBlocks(d.segs) {
      if v in d.segs {
        RetagKeepsSpan(d.segs[v], replacements);
      }
    }
  }

  lemma MoreOneBlocks(d: DriveDoc, u: Uuid, replacements: seq<Segment>, freedBlocks: int)
    requires u in d.segs && !d.segs[u].OneBlock() && !NoOneBlocks(replacements) && DistinctIds(replacements)
    requires forall i | 0 <= i < |replacements| :: replacements[i].uuid !in d.segs && !replacements[i].fromReserved
    ensures |OneBlocks(ReclaimReplaced(d, u, replacements, freedBlocks).segs)| > |OneBlocks(d.segs)|
  {
    var e := ReclaimReplaced(d, u, replacements, freedBlocks);
    ReplacedSegments(d, u, replacements, freedBlocks);
    forall v | v in OneBlocks(d.segs) ensures v in OneBlocks(e.segs) {
      RetagKeepsSpan(d.segs[v], replacements);
    }
    var i :| 0 <= i < |replacements| && replacements[i].lbs == replacements[i].lbe;
    ByIdPicks(replacements, i);
    assert replacements[i].uuid in OneBlocks(e.segs) && replacements[i].uuid !in OneBlocks(d.segs);
    hide *;
    MoreOf(OneBlocks(d.segs), OneBlocks(e.segs), replacements[i].uuid);
  }

  lemma MoreOf(a: set<Uuid>, b: set<Uuid>, u: Uuid)
    requires a <= b && u in b && u !in a
    ensures |b| > |a|
  {
    var more := b - a;
    assert u in more && b == a + more;
  }

  /** A replacement keeps the drive valid if and only if no used group is a single block, which the count of the
      drive would not know about. */
  lemma ReplaceKeepsValid(d: DriveDoc, u: Uuid, replacements: seq<Segment>, used: set<int>, freedBlocks: int)
    requires ValidDoc(d) && FitsUsed(d, u, replacements, used) && !d.segs[u].OneBlock()
    requires freedBlocks == d.segs[u].Span().Blocks() - |used|
    ensures ValidDoc(ReclaimReplaced(d, u, replacements, freedBlocks)) <==> NoOneBlocks(replacements)
  {
    ReplaceKeepsLayout(d, u, replacements, used, freedBlocks);
    ReplaceFrees(d, u, replacements, used, freedBlocks);
    if NoOneBlocks(replacements) {
      ReplaceOneBlocks(d, u, replacements, freedBlocks);
    } else {
      MoreOneBlocks(d, u, replacements, freedBlocks);
    }
  }
}
