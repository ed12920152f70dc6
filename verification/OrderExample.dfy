/** An input on which a crash tears two drives apart for good. One reserved pRaid on two drives, two chunks, each half
    used by a volume of its own; the lists hold the chunks the other way round than the reserved volume does. */
module OrderExample {
  import opened Ranges
  import opened Drives
  import opened DriveStore
  import opened Options
  import opened Orders
  import opened Chunks
  import opened ReclaimPlan
  import opened Reclaim
  import opened ReclaimFlags
  import opened ReclaimRun
  import opened ReclaimOutcome
  import opened ReservedSpace
  import opened SharedGapsHistory
  import opened ReclaimMoves
  import opened ReclaimOrder
  import opened ReclaimAlike
  import opened ReclaimLists
  import opened ReclaimPools
  import opened ReclaimBacking
  import opened ReclaimCrashes
  import ReclaimExample

  // -------------------------------------------------------------------- the input

  const VPG: VolumeID := 7
  const RESERVED: Uuid := 5

  /** Ten reserved blocks at 0 and ten at 10 on each drive; the first five of each are used, by pRaids 8 and 9. */
  function First(d: DiskID): Segment { Segment(10 * d + 1, d, VPG, RESERVED, 0, 9, true, false, NO_UUID, Idle) }
  function Second(d: DiskID): Segment { Segment(10 * d + 2, d, VPG, RESERVED, 10, 19, true, false, NO_UUID, Idle) }
  function InFirst(d: DiskID): Segment { Segment(10 * d + 3, d, 1, 8, 0, 4, false, true, 10 * d + 1, Idle) }
  function InSecond(d: DiskID): Segment { Segment(10 * d + 4, d, 2, 9, 10, 14, false, true, 10 * d + 2, Idle) }

  function ListOfDrive(d: DiskID): seq<Segment> { [First(d), Second(d), InFirst(d), InSecond(d)] }

  function SegmentsOf(d: DiskID): map<Uuid, Segment> {
    map[10 * d + 1 := First(d), 10 * d + 2 := Second(d), 10 * d + 3 := InFirst(d), 10 * d + 4 := InSecond(d)]
  }

  function DriveOf(d: DiskID): DriveDoc { DriveDoc(0, 99, SegmentsOf(d), 80, Largest(80, 20, 99)) }

  function TheChunks(): seq<Chunk> {
    [Chunk(0, 9, [[Second(0), Second(1)]]), Chunk(10, 19, [[First(0), First(1)]])]
  }

  function Volumes(): seq<seq<Segment>> { [[InFirst(0), InFirst(1)], [InSecond(0), InSecond(1)]] }

  function Input(): Db { Db(map[0 := DriveOf(0), 1 := DriveOf(1)], TheChunks(), Volumes()) }

  function InputLists(): DriveLists { map[0 := ListOfDrive(0), 1 := ListOfDrive(1)] }

  ghost function Example(): Job {
    Job(Input(), VPG, (u, i) => ReclaimExample.NewName(u + 20, i), 1)
  }

  /** Position 0 of the lists backs chunk 1, position 1 chunk 0. */
  const POOL := Pool(RESERVED, [0, 1], [1, 0])

  // ------------------------------------------------------------- the drives are valid

  lemma SegmentAt(d: DiskID, u: Uuid)
    requires u in SegmentsOf(d)
    ensures SegmentsOf(d)[u].uuid == u && SegmentsOf(d)[u] in ListOfDrive(d)
    ensures SegmentsOf(d)[u] == First(d) || SegmentsOf(d)[u] == Second(d) || SegmentsOf(d)[u] == InFirst(d)
            || SegmentsOf(d)[u] == InSecond(d)
  {
  }

  lemma DriveHolds(d: DiskID)
    ensures var m := SegmentsOf(d);
            && First(d).uuid in m && m[First(d).uuid] == First(d) && Second(d).uuid in m
            && m[Second(d).uuid] == Second(d)
            && InFirst(d).uuid in m && m[InFirst(d).uuid] == InFirst(d) && InSecond(d).uuid in m
            && m[InSecond(d).uuid] == InSecond(d)
  {
  }

  lemma DrivePlaced(d: DiskID, u: Uuid)
    requires u in SegmentsOf(d)
    ensures WellPlaced(DriveOf(d), SegmentsOf(d)[u])
  {
    SegmentAt(d, u);
    DriveHolds(d);
    hide SegmentsOf;
  }

  lemma DriveCompatible(d: DiskID, u: Uuid, v: Uuid)
    requires u in SegmentsOf(d) && v in SegmentsOf(d) && u != v
    ensures Compatible(SegmentsOf(d)[u], SegmentsOf(d)[v])
  {
    SegmentAt(d, u);
    SegmentAt(d, v);
    hide SegmentsOf;
  }

  lemma DriveTaken(d: DiskID, b: int)
    ensures Taken(SegmentsOf(d), b) <==> 0 <= b < 20
  {
    DriveHolds(d);
    if u :| u in SegmentsOf(d) && SegmentsOf(d)[u].Span().Has(b) {
      SegmentAt(d, u);
    }
    hide SegmentsOf;
    if 0 <= b < 10 {
      assert SegmentsOf(d)[First(d).uuid].Span().Has(b);
    }
    if 10 <= b < 20 {
      assert SegmentsOf(d)[Second(d).uuid].Span().Has(b);
    }
  }

  lemma DriveCounted(d: DiskID)
    ensures Accounted(DriveOf(d))
  {
    forall u | u in SegmentsOf(d) ensures !SegmentsOf(d)[u].OneBlock() {
      SegmentAt(d, u);
    }
    hide SegmentsOf, Taken;
    assert OneBlocks(SegmentsOf(d)) == {};
    forall b ensures b in Free(DriveOf(d)) <==> b in Interval(20, 100) {
      DriveTaken(d, b);
    }
    assert Free(DriveOf(d)) == Interval(20, 100);
  }

  lemma DriveValid(d: DiskID)
    ensures ValidDoc(DriveOf(d))
  {
    DriveCounted(d);
    hide Accounted, SegmentsOf, WellPlaced, Compatible;
    forall u | u in SegmentsOf(d) ensures SegmentsOf(d)[u].uuid == u && WellPlaced(DriveOf(d), SegmentsOf(d)[u]) {
      SegmentAt(d, u);
      DrivePlaced(d, u);
    }
    forall u, v | u in SegmentsOf(d) && v in SegmentsOf(d) && u != v
      ensures Compatible(SegmentsOf(d)[u], SegmentsOf(d)[v])
    {
      DriveCompatible(d, u, v);
    }
  }

  lemma DriveSound(d: DiskID, u: Uuid)
    requires u in SegmentsOf(d)
    ensures SegmentSound(d, SegmentsOf(d)[u])
  {
    SegmentAt(d, u);
    hide SegmentsOf;
  }

  lemma InputDrives(d: DiskID)
    ensures d in Input().drives <==> d == 0 || d == 1
    ensures d in Input().drives ==> Input().drives[d] == DriveOf(d) && InputLists()[d] == ListOfDrive(d)
  {
  }

  lemma InputDrivesSound()
    ensures DrivesSound(Input().drives)
  {
    hide ValidDoc, DriveOf, Input, SegmentSound;
    forall d | d in Input().drives
      ensures ValidDoc(Input().drives[d])
              && forall u | u in Input().drives[d].segs :: SegmentSound(d, Input().drives[d].segs[u])
    {
      InputDrives(d);
      DriveValid(d);
      DriveSegments(d);
      forall u | u in SegmentsOf(d) ensures SegmentSound(d, SegmentsOf(d)[u]) {
        DriveSound(d, u);
      }
    }
  }

  lemma DriveSegments(d: DiskID)
    ensures DriveOf(d).segs == SegmentsOf(d) && DriveOf(d).first == 0 && DriveOf(d).last == 99
  {
  }

  // ------------------------------------------------------------- the documents agree

  lemma InputAt(c: int, p: int, k: int)
    requires Pos(TheChunks(), c, p, k)
    ensures p == 0 && (c == 0 || c == 1) && (k == 0 || k == 1)
    ensures At(TheChunks(), c, p, k) == if c == 0 then Second(k) else First(k)
  {
  }

  lemma InputPos(c: int, k: int)
    requires (c == 0 || c == 1) && (k == 0 || k == 1)
    ensures Pos(TheChunks(), c, 0, k)
  {
  }

  lemma OnInput(d: DiskID)
    requires d == 0 || d == 1
    ensures OnDrive(Input().drives, First(d)) && OnDrive(Input().drives, Second(d))
    ensures OnDrive(Input().drives, InFirst(d)) && OnDrive(Input().drives, InSecond(d))
  {
    InputDrives(d);
    DriveHolds(d);
    DriveSegments(d);
    hide SegmentsOf, DriveOf, Input;
  }

  lemma InputChunks()
    ensures ChunksStored(Input(), VPG) && ChunksDistinct(Input().chunks)
  {
    hide OnDrive, TheChunks, DriveOf, InputLists;
    forall c, p, k | Pos(TheChunks(), c, p, k)
      ensures var s := At(TheChunks(), c, p, k); OnDrive(Input().drives, s) && s.isReserved && s.volume == VPG
    {
      InputAt(c, p, k);
      OnInput(k);
    }
    forall c, p, k, e, q, m | Pos(TheChunks(), c, p, k) && Pos(TheChunks(), e, q, m)
        && At(TheChunks(), c, p, k).uuid == At(TheChunks(), e, q, m).uuid
      ensures c == e && p == q && k == m
    {
      InputAt(c, p, k);
      InputAt(e, q, m);
    }
  }

  lemma InputReserved(d: DiskID, u: Uuid)
    ensures ReservedOf(Input(), VPG, d, u) <==> (d == 0 || d == 1) && (u == First(d).uuid || u == Second(d).uuid)
    ensures ReservedOf(Input(), VPG, d, u) ==>
              Input().drives[d].segs[u] == if u == First(d).uuid then First(d) else Second(d)
  {
    InputDrives(d);
    DriveHolds(d);
    DriveSegments(d);
    if u in SegmentsOf(d) {
      SegmentAt(d, u);
    }
    hide SegmentsOf, DriveOf, Input;
  }

  lemma InputChunksComplete()
    ensures ChunksComplete(Input(), VPG)
  {
    hide ReservedOf, DriveOf, TheChunks;
    forall d: DiskID, u: Uuid | ReservedOf(Input(), VPG, d, u)
      ensures d in Input().drives && u in Input().drives[d].segs
      ensures exists c, p, k :: Pos(TheChunks(), c, p, k) && At(TheChunks(), c, p, k) == Input().drives[d].segs[u]
    {
      InputReserved(d, u);
      StillReserved(d, u);
      var c := if u == First(d).uuid then 1 else 0;
      InputPos(c, d);
      InputAt(c, 0, d);
      assert Pos(TheChunks(), c, 0, d) && At(TheChunks(), c, 0, d) == Input().drives[d].segs[u];
    }
  }

  lemma StillReserved(d: DiskID, u: Uuid)
    requires ReservedOf(Input(), VPG, d, u)
    ensures d in Input().drives && u in Input().drives[d].segs
  {
    hide Input;
  }

  lemma InputVolumes()
    ensures VolumesStored(Input(), VPG)
  {
    hide OnDrive, ReservedOf, DriveOf, TheChunks, Input;
    VolumesAre();
    forall v, i | 0 <= v < |Volumes()| && 0 <= i < |Volumes()[v]|
      ensures var s := Volumes()[v][i];
              OnDrive(Input().drives, s) && !s.isReserved && (s.fromReserved ==> ReservedOf(Input(), VPG, s.diskID,
                  s.reservedUUID))
    {
      OnInput(i);
      InputReserved(i, First(i).uuid);
      InputReserved(i, Second(i).uuid);
    }
  }

  lemma VolumesAre()
    ensures Input().volumes == Volumes() && Input().chunks == TheChunks()
  {
  }

  lemma InputVolumesComplete()
    ensures VolumesComplete(Input(), VPG)
  {
    hide ReservedOf, DriveOf, TheChunks, Input;
    VolumesAre();
    forall d, u | d in Input().drives && u in Input().drives[d].segs && Input().drives[d].segs[u].fromReserved
        && ReservedOf(Input(), VPG, d, Input().drives[d].segs[u].reservedUUID)
      ensures exists v, i :: 0 <= v < |Volumes()| && 0 <= i < |Volumes()[v]|
                          && Volumes()[v][i] == Input().drives[d].segs[u]
    {
      InputDrives(d);
      DriveSegments(d);
      SegmentAt(d, u);
      hide SegmentsOf;
      var v := if Input().drives[d].segs[u] == InFirst(d) then 0 else 1;
      assert Volumes()[v][d] == Input().drives[d].segs[u];
    }
  }

  lemma InputUniform()
    ensures Uniform(Input().chunks)
  {
    hide Input;
    VolumesAre();
    forall c | 0 <= c < |TheChunks()|
      ensures HasRef(TheChunks()[c])
      ensures forall p, k | Pos(TheChunks(), c, p, k) ::
                At(TheChunks(), c, p, k).Span().Blocks() == Ref(TheChunks()[c]).Span().Blocks()
    {
      forall p, k | Pos(TheChunks(), c, p, k)
        ensures At(TheChunks(), c, p, k).Span().Blocks() == Ref(TheChunks()[c]).Span().Blocks()
      {
        InputAt(c, p, k);
      }
    }
  }

  // ------------------------------------------------------------------ equal use

  lemma UsedIs(d: DiskID, b: int)
    requires d == 0 || d == 1
    ensures b in UsedOf(Input(), First(d)) <==> 0 <= b < 5
    ensures b in UsedOf(Input(), Second(d)) <==> 10 <= b < 15
  {
    InputDrives(d);
    DriveSegments(d);
    hide Input, DriveOf;
    UsedAtFirst(d, b);
    UsedAtSecond(d, b);
  }

  lemma UsedAtFirst(d: DiskID, b: int)
    ensures UsedAt(SegmentsOf(d), First(d).uuid, b) <==> 0 <= b < 5
  {
    DriveHolds(d);
    if v :| v in SegmentsOf(d) && SegmentsOf(d)[v].fromReserved && SegmentsOf(d)[v].reservedUUID == First(d).uuid
            && SegmentsOf(d)[v].Span().Has(b) {
      SegmentAt(d, v);
    }
    hide SegmentsOf;
    if 0 <= b < 5 {
      assert SegmentsOf(d)[InFirst(d).uuid].Span().Has(b);
    }
  }

  lemma UsedAtSecond(d: DiskID, b: int)
    ensures UsedAt(SegmentsOf(d), Second(d).uuid, b) <==> 10 <= b < 15
  {
    DriveHolds(d);
    if v :| v in SegmentsOf(d) && SegmentsOf(d)[v].fromReserved && SegmentsOf(d)[v].reservedUUID == Second(d).uuid
            && SegmentsOf(d)[v].Span().Has(b) {
      SegmentAt(d, v);
    }
    hide SegmentsOf;
    if 10 <= b < 15 {
      assert SegmentsOf(d)[InSecond(d).uuid].Span().Has(b);
    }
  }

  lemma InputSharesGaps()
    ensures SharedGaps(Input())
  {
    hide UsedOf, Input;
    VolumesAre();
    forall c, p, k | Pos(TheChunks(), c, p, k) && HasRef(TheChunks()[c])
      ensures SameOffsets(Input(), Ref(TheChunks()[c]), At(TheChunks(), c, p, k))
    {
      InputAt(c, p, k);
      InputPos(c, 0);
      InputAt(c, 0, 0);
      var r, s := Ref(TheChunks()[c]), At(TheChunks(), c, p, k);
      assert r == At(TheChunks(), c, 0, 0) && s.lbs == r.lbs;
      hide TheChunks;
      forall b ensures b in UsedOf(Input(), r) <==> b + (s.lbs - r.lbs) in UsedOf(Input(), s) {
        UsedIs(0, b);
        UsedIs(k, b);
      }
    }
  }

  lemma InputConsistent()
    ensures Consistent(Input(), VPG)
  {
    InputDrivesSound();
    InputChunks();
    InputChunksComplete();
    InputVolumes();
    InputVolumesComplete();
    InputUniform();
    InputSharesGaps();
    hide Input, DrivesSound, ChunksStored, ChunksDistinct, ChunksComplete, VolumesStored, VolumesComplete, Uniform,
         SharedGaps;
  }

  lemma NamesAreNew()
    ensures FreshFor(Input(), Example().names)
  {
    var names := Example().names;
    forall u: Uuid, i, v: Uuid, j | names(u, i) == names(v, j) ensures u == v && i == j {
      ReclaimExample.NewNamesDiffer(u + 20, i, v + 20, j);
    }
    forall u: Uuid, i, d | d in Input().drives ensures names(u, i) !in Input().drives[d].segs {
      InputDrives(d);
      DriveSegments(d);
    }
    hide Input;
  }

  lemma ExampleIsGood()
    ensures GoodJob(Example())
  {
    InputConsistent();
    NamesAreNew();
    hide Consistent, FreshFor, Input;
  }

  // ----------------------------------------------------------------------- the pool

  lemma InputListed()
    ensures Listed(Input(), InputLists())
  {
    hide Input, Lists;
    forall d | d in InputLists() ensures d in Input().drives && Lists(InputLists()[d], Input().drives[d].segs) {
      InputDrives(d);
      DriveListed(d);
      DriveSegments(d);
    }
    forall d ensures d in Input().drives <==> d in InputLists() {
      InputDrives(d);
    }
  }

  lemma DriveListed(d: DiskID)
    ensures Lists(ListOfDrive(d), SegmentsOf(d))
  {
    DriveHolds(d);
    forall u | u in SegmentsOf(d) ensures SegmentsOf(d)[u].uuid == u && SegmentsOf(d)[u] in ListOfDrive(d) {
      SegmentAt(d, u);
    }
    hide SegmentsOf;
  }

  lemma MineOne(t: Segment)
    ensures Mine([t], VPG, RESERVED) == if Offered(t, VPG) && t.pRaid == RESERVED then [t] else []
  {
    assert [t][..0] == [];
    assert Mine([], VPG, RESERVED) == [];
  }

  lemma MineOfDrive(d: DiskID)
    ensures Mine(ListOfDrive(d), VPG, RESERVED) == [First(d), Second(d)]
  {
    MineOne(First(d));
    MineOne(Second(d));
    MineOne(InFirst(d));
    MineOne(InSecond(d));
    hide Mine;
    MineConcat([First(d)], [Second(d)], VPG, RESERVED);
    MineConcat([First(d)] + [Second(d)], [InFirst(d)], VPG, RESERVED);
    MineConcat([First(d)] + [Second(d)] + [InFirst(d)], [InSecond(d)], VPG, RESERVED);
    assert ListOfDrive(d) == [First(d)] + [Second(d)] + [InFirst(d)] + [InSecond(d)];
  }

  lemma PoolDriveAligned(i: int)
    requires i == 0 || i == 1
    ensures DriveAligned(Input().chunks, ListOfDrive(i), VPG, POOL, i)
  {
    VolumesAre();
    MineOfDrive(i);
    hide Mine, Input;
  }

  lemma PoolAligned()
    ensures Aligned(Input(), InputLists(), VPG, POOL) && OnDrives(Example(), InputLists(), POOL)
  {
    InputDrives(0);
    InputDrives(1);
    hide Input, DriveAligned;
    forall i | 0 <= i < |POOL.disks|
      ensures POOL.disks[i] in InputLists() && DriveAligned(Input().chunks, InputLists()[POOL.disks[i]], VPG, POOL, i)
    {
      PoolDriveAligned(i);
    }
  }

  lemma UsesOfDrive(d: DiskID)
    ensures Uses(ListOfDrive(d), First(d)) == {Use(8, 0, 5)} && Uses(ListOfDrive(d), Second(d)) == {Use(9, 0, 5)}
  {
    var segs := ListOfDrive(d);
    assert DerivedFrom(segs[2], First(d)) && DerivedFrom(segs[3], Second(d));
    assert UseBy(segs[2], First(d)) == Use(8, 0, 5) && UseBy(segs[3], Second(d)) == Use(9, 0, 5);
  }

  lemma ListSound(d: DiskID)
    ensures SoundList(ListOfDrive(d))
  {
    DriveValid(d);
    DriveListed(d);
    DriveSegments(d);
    hide ValidDoc, Lists, DriveOf, SoundList;
    ValidIsSound(ListOfDrive(d), DriveOf(d));
  }

  lemma DrivesAlike(d: DiskID, e: DiskID)
    ensures Alike(Listing(d, ListOfDrive(d)), Listing(e, ListOfDrive(e)), VPG, RESERVED)
  {
    MineOfDrive(d);
    MineOfDrive(e);
    UsesOfDrive(d);
    UsesOfDrive(e);
    hide Mine, Uses, ListOfDrive;
  }

  lemma PoolUsedAlike()
    ensures OnDrives(Example(), InputLists(), POOL) && UsedAlike(ListsOn(InputLists(), POOL), VPG, RESERVED)
    ensures OncePerDrive(InputLists(), POOL)
  {
    PoolAligned();
    InputDrives(0);
    InputDrives(1);
    hide Input, Alike, SoundList, ListOfDrive, OnePerPRaid, Aligned;
    var lists := ListsOn(InputLists(), POOL);
    forall k | 0 <= k < 2 ensures SoundList(lists[k].segs) && lists[k] == Listing(k, ListOfDrive(k))
           && OnePerPRaid(ListOfDrive(k)) {
      ListSound(k);
      DriveOncePerPRaid(k);
    }
    forall k, l | 0 <= k < 2 && 0 <= l < 2 ensures Alike(lists[k], lists[l], VPG, RESERVED) {
      DrivesAlike(k, l);
    }
  }

  lemma DriveOncePerPRaid(d: DiskID)
    ensures OnePerPRaid(ListOfDrive(d))
  {
  }

  // -------------------------------------------------------------- both chunks are split

  function TheSegment(c: int, d: DiskID): Segment { if c == 0 then Second(d) else First(d) }
  function TheGroup(c: int): Range { if c == 0 then Range(10, 14) else Range(0, 4) }

  lemma RowAt(c: int, i: int)
    requires (c == 0 || c == 1) && (i == 0 || i == 1)
    ensures InRow(Input().chunks, c, 2, i, TheSegment(c, i))
    ensures HasRef(Input().chunks[c]) && Ref(Input().chunks[c]) == TheSegment(c, 0)
  {
    VolumesAre();
    hide Input;
  }

  lemma UsedInterval(c: int)
    requires c == 0 || c == 1
    ensures UsedOf(Input(), TheSegment(c, 0)) == Interval(TheGroup(c).lbs, TheGroup(c).lbe + 1)
  {
    hide UsedOf, Input;
    forall b ensures b in UsedOf(Input(), TheSegment(c, 0)) <==> b in Interval(TheGroup(c).lbs, TheGroup(c).lbe + 1) {
      UsedIs(0, b);
    }
    hide Interval;
  }

  lemma OneRun(lo: int, hi: int)
    requires lo <= hi
    ensures IsRuns([Range(lo, hi)], Interval(lo, hi + 1))
  {
    var rs := [Range(lo, hi)];
    forall b ensures b in Interval(lo, hi + 1) <==> Covered(rs, b) {
      assert rs[0].Has(b) <==> lo <= b <= hi;
    }
  }

  lemma GroupsFacts(c: int)
    requires c == 0 || c == 1
    ensures 0 <= c < |Input().chunks| && HasRef(Input().chunks[c])
    ensures var groups := GroupsOf(Input().chunks[c], Volumes());
            && IsRuns(groups, Interval(TheGroup(c).lbs, TheGroup(c).lbe + 1)) && TotalBlocks(groups) == 5
            && !Dropped(Input().chunks[c], Volumes()) && Ref(Input().chunks[c]).Span().Blocks() == 10
  {
    hide *;
    RowAt(c, 0);
    InputConsistent();
    VolumesAre();
    UsedInterval(c);
    FiveBlocks(c);
    TenBlocks(c);
    RowPos(Input().chunks, c, 2, 0, TheSegment(c, 0));
    RunsOfUse(Input(), VPG, Example().names, c, 0, 0);
    NoShift(GroupsOf(Input().chunks[c], Volumes()));
  }

  lemma TenBlocks(c: int)
    ensures TheSegment(c, 0).Span().Blocks() == 10
  {
  }

  lemma GroupsAre(c: int)
    requires c == 0 || c == 1
    ensures 0 <= c < |Input().chunks| && HasRef(Input().chunks[c])
    ensures GroupsOf(Input().chunks[c], Volumes()) == [TheGroup(c)]
    ensures SplitUp(Input().chunks[c], Volumes())
  {
    GroupsFacts(c);
    hide Input, GroupsOf, IsRuns, Volumes, Interval, TotalBlocks, Dropped;
    OneRun(TheGroup(c).lbs, TheGroup(c).lbe);
    RunsUnique(GroupsOf(Input().chunks[c], Volumes()), [TheGroup(c)], Interval(TheGroup(c).lbs, TheGroup(c).lbe + 1));
  }

  lemma FiveBlocks(c: int)
    ensures var all := Interval(TheGroup(c).lbs, TheGroup(c).lbe + 1); |all| == 5 && all != {}
  {
    assert TheGroup(c).lbs in Interval(TheGroup(c).lbs, TheGroup(c).lbe + 1);
  }

  lemma NoShift(rs: seq<Range>)
    ensures ShiftAll(rs, 0) == rs
  {
  }

  lemma RowsSplit(c: int)
    requires c == 0 || c == 1
    ensures Uniform(Input().chunks) && RowSplit(Example(), c) && RowGroups(Example(), c) == [Range(0, 4)]
  {
    InputUniform();
    GroupsAre(c);
    RowAt(c, 0);
    VolumesAre();
    hide Input, GroupsOf, SplitUp, Uniform, Volumes;
  }

  // ------------------------------------------------------------------ what is left

  ghost function FirstPiece(d: DiskID): Segment { First(d).(uuid := Example().names(First(d).uuid, 0), lbe := 4) }
  ghost function SecondPiece(d: DiskID): Segment { Second(d).(uuid := Example().names(Second(d).uuid, 0), lbe := 14) }

  ghost function PieceAt(d: DiskID, j: int): seq<Segment> {
    if j == 0 then [FirstPiece(d)] else [SecondPiece(d)]
  }

  lemma PieceIs(c: int, d: DiskID)
    requires c == 0 || c == 1
    ensures [MovedTo(TheSegment(c, d), TheSegment(c, 0), TheGroup(c), Example().names(TheSegment(c, d).uuid, 0))]
            == PieceAt(d, 1 - c)
  {
  }

  lemma OneReplacement(s: Segment, r: Segment, group: Range, names: Names)
    ensures SegmentReplacements(s, r, [group], names) == [MovedTo(s, r, group, names(s.uuid, 0))]
  {
  }

  lemma RepsAre(db: Db, names: Names, c: int, s: Segment)
    requires 0 <= c < |db.chunks| && HasRef(db.chunks[c])
    ensures RepsFor(db, names, c, s)
            == SegmentReplacements(s, Ref(db.chunks[c]), GroupsOf(db.chunks[c], db.volumes), names)
  {
    hide GroupsOf, SegmentReplacements;
  }

  lemma PiecesAre(c: int, d: DiskID)
    requires c == 0 || c == 1
    ensures 0 <= c < |Input().chunks| && HasRef(Input().chunks[c])
    ensures RepsFor(Input(), Example().names, c, TheSegment(c, d)) == PieceAt(d, 1 - c)
  {
    hide *;
    RowAt(c, 0);
    GroupsAre(c);
    VolumesAre();
    RepsAre(Input(), Example().names, c, TheSegment(c, d));
    OneReplacement(TheSegment(c, d), TheSegment(c, 0), TheGroup(c), Example().names);
    PieceIs(c, d);
  }

  lemma PieceOnDrive(i: int, j: int)
    requires (i == 0 || i == 1) && (j == 0 || j == 1)
    ensures GoodJob(Example()) && i in Input().drives
    ensures CutOf(CutsOn(Example(), i), TheSegment(1 - j, i).uuid).pieces == PieceAt(i, j)
  {
    PoolFacts(i, j);
    hide *;
    ExampleIsGood();
    InputListed();
    PoolAligned();
    RowsSplit(1 - j);
    PiecesAre(1 - j, i);
    PoolCut(Example(), InputLists(), POOL, i, j);
  }

  lemma PoolFacts(i: int, j: int)
    requires (i == 0 || i == 1) && (j == 0 || j == 1)
    ensures POOL.disks[i] == i && POOL.rows[j] == 1 - j && i in InputLists() && i in Input().drives
    ensures Mine(InputLists()[i], VPG, RESERVED) == [First(i), Second(i)]
    ensures [First(i), Second(i)][j] == TheSegment(1 - j, i)
    ensures Example().start == Input() && Example().vpg == VPG && POOL.pRaid == RESERVED && |POOL.rows| == 2
            && |POOL.disks| == 2
  {
    InputDrives(i);
    MineOfDrive(i);
    hide Input, Mine, ListOfDrive;
  }

  lemma DrivePieces(i: int)
    requires i == 0 || i == 1
    ensures GoodJob(Example()) && i in Input().drives
    ensures PiecesAt([First(i), Second(i)], CutsOn(Example(), i)) == [PieceAt(i, 0), PieceAt(i, 1)]
  {
    hide *;
    PoolFacts(i, 0);
    PoolFacts(i, 1);
    PieceOnDrive(i, 0);
    PieceOnDrive(i, 1);
  }

  lemma AllWorked()
    ensures Uniform(Input().chunks) && Worked(Example(), POOL) == {0, 1}
  {
    InputUniform();
    forall j ensures j in Worked(Example(), POOL) <==> j == 0 || j == 1 {
      PositionWorked(j);
    }
    hide *;
    BothOnDrives();
    OnlyTwo(Worked(Example(), POOL));
  }

  lemma OnlyTwo(a: set<int>)
    requires forall j :: j in a <==> j == 0 || j == 1
    ensures a == {0, 1}
  {
    assert forall j :: j in a <==> j in {0, 1};
  }

  lemma PositionWorked(j: int)
    ensures Uniform(Input().chunks) && (j in Worked(Example(), POOL) <==> j == 0 || j == 1)
  {
    hide *;
    InputUniform();
    BothOnDrives();
    PoolShape();
    RowsSplit(0);
    RowsSplit(1);
    RowIsNotKept(0);
    RowIsNotKept(1);
    WorkedHas(Example(), POOL, j);
  }

  lemma RowIsNotKept(c: int)
    requires Uniform(Input().chunks) && RowSplit(Example(), c)
    ensures !RowKept(Example(), c)
  {
    hide Input, GroupsOf;
  }

  lemma TwoInOrder(order: seq<int>, j: int, k: int)
    requires NoneTwice(order) && Before(order, j, k) && forall x | x in order :: x == j || x == k
    ensures order == [j, k]
  {
    var x, y :| BeforeAt(order, j, k, x, y);
    forall z | 0 <= z < |order| ensures (order[z] == j && z == x) || (order[z] == k && z == y) {
      assert order[z] in order;
    }
    assert order[0] in order && order[|order| - 1] in order;
    assert x == 0 && y == |order| - 1;
    assert order[1] in order;
  }

  lemma TwoParts(parts: seq<seq<Segment>>, j: int, k: int)
    requires 0 <= j < |parts| && 0 <= k < |parts|
    ensures Together(parts, [j, k]) == parts[j] + parts[k]
  {
    assert [j, k][..1] == [j] && [j][..0] == [];
    assert Together(parts, []) == [];
    assert Together(parts, [j]) == [] + parts[j];
  }

  lemma NothingUndone(m: seq<Segment>)
    requires |m| == 2
    ensures Undone(m, {0, 1}) == []
  {
    assert Undone(m[..1], {0, 1}) == Undone(m[..1][..0], {0, 1});
  }

  /** The reserved segments of a drive that took position `j` before position `k`. */
  lemma DriveEnds(actions: seq<Action>, s: State, i: int, j: int, k: int)
    requires Reclaims(Example(), InputLists(), actions, s) && OnDrives(Example(), InputLists(), POOL)
    requires (i == 0 || i == 1) && ((j == 0 && k == 1) || (j == 1 && k == 0)) && Uniform(Example().start.chunks)
    requires Before(OrderOn(Example(), InputLists(), actions, POOL, i), j, k)
    ensures Mine(ListAfter(Example(), i, InputLists()[i], actions), VPG, RESERVED) == PieceAt(i, j) + PieceAt(i, k)
  {
    var job, order := Example(), OrderOn(Example(), InputLists(), actions, POOL, i);
    PoolAligned();
    InputDrives(i);
    hide *;
    OrdersOnce(job, InputLists(), actions, s, POOL, i);
    forall x | x in order ensures x == 0 || x == 1 {
      OrderHas(job, InputLists(), actions, s, POOL, i, x);
    }
    TwoInOrder(order, j, k);
    MineAfter(job, InputLists(), actions, s, POOL, i);
    AllWorked();
    MineOfDrive(i);
    DrivePieces(i);
    NothingUndone([First(i), Second(i)]);
    TwoParts([PieceAt(i, 0), PieceAt(i, 1)], j, k);
    NothingInFront(PieceAt(i, j) + PieceAt(i, k));
  }

  // ---------------------------------------------------------------- the crash

  ghost function EndList(actions: seq<Action>, d: DiskID): seq<Segment>
    requires Uniform(Example().start.chunks) && d in InputLists()
  {
    ListAfter(Example(), d, InputLists()[d], actions)
  }

  lemma BothOnDrives()
    ensures 0 in InputLists() && 1 in InputLists() && Example().start == Input() && Example().vpg == VPG
  {
    hide Input, ListOfDrive;
  }

  lemma PoolShape()
    ensures POOL.disks == [0, 1] && POOL.rows == [1, 0] && POOL.pRaid == RESERVED
  {
  }

  /** The reclaim works off the second segment of drive 0 and crashes; the recovery goes by the lists. On drive 0 the
      piece of the second segment comes first now, on drive 1 that of the first. */
  lemma CrashTearsApart() returns (n: int, before: seq<Action>, after: seq<Action>, ds: seq<DiskID>, s: State)
    ensures Interrupted(Example(), InputLists(), n, before, after, ds, s)
    ensures OnDrives(Example(), InputLists(), POOL) && 0 in InputLists() && 1 in InputLists()
    ensures !UsedAlike(ListsOn(ListsAfter(Example(), InputLists(), before + [Crash] + after), POOL), VPG, RESERVED)
    ensures Mine(EndList(before + [Crash] + after, 0), VPG, RESERVED) == [SecondPiece(0), FirstPiece(0)]
    ensures Mine(EndList(before + [Crash] + after, 1), VPG, RESERVED) == [FirstPiece(1), SecondPiece(1)]
  {
    hide *;
    ExampleIsGood();
    InputListed();
    PoolAligned();
    PoolUsedAlike();
    RowsSplit(0);
    RowsSplit(1);
    BothOnDrives();
    PoolShape();
    n, before, after, ds, s := HarmfulRun(Example(), InputLists(), POOL, 0, 1);
    var actions := before + [Crash] + after;
    InterruptedReclaims(Example(), InputLists(), n, before, after, ds, s);
    ReclaimKeepsUsedAlike(Example(), InputLists(), actions, s, POOL);
    ApartOnDrives(Example(), InputLists(), actions, POOL, 0, 1);
    DriveEnds(actions, s, 0, 1, 0);
    DriveEnds(actions, s, 1, 0, 1);
    EndListIs(actions, 0);
    EndListIs(actions, 1);
    PiecesTogether(0);
    PiecesTogether(1);
  }

  lemma EndListIs(actions: seq<Action>, d: DiskID)
    requires Uniform(Example().start.chunks) && d in InputLists()
    ensures EndList(actions, d) == ListAfter(Example(), d, InputLists()[d], actions)
  {
    hide ListAfter;
  }

  lemma PiecesTogether(d: DiskID)
    ensures PieceAt(d, 1) + PieceAt(d, 0) == [SecondPiece(d), FirstPiece(d)]
    ensures PieceAt(d, 0) + PieceAt(d, 1) == [FirstPiece(d), SecondPiece(d)]
  {
    hide FirstPiece, SecondPiece;
  }

  // --------------------------------------------------------- what is picked next

  /** The volumes of pRaids 8 and 9 are deleted. */
  const GONE: set<Uuid> := {8, 9}

  /** A segment of the reserved pRaid, or one derived from it that goes with its volume. */
  predicate OfPool(s: Segment) {
    if s.fromReserved then s.pRaid in GONE else Offered(s, VPG) && s.pRaid == RESERVED
  }

  ghost predicate OnlyPool(segs: seq<Segment>) {
    forall i | 0 <= i < |segs| :: OfPool(segs[i])
  }

  lemma PieceOfPool(segs: seq<Segment>, s: Segment, groups: seq<Range>, pieces: seq<Segment>, g: int)
    requires CutAt(segs, s, groups, pieces) && OfPool(s) && 0 <= g < |pieces|
    ensures OfPool(pieces[g])
  {
    assert IsPiece(pieces[g], s, groups[g]);
  }

  lemma OnlyPoolWorkedOff(segs: seq<Segment>, u: Uuid, cut: Cut)
    requires OnlyPool(segs) && CutsHere(segs, u, cut)
    ensures OnlyPool(WorkedOff(segs, u, cut.pieces))
  {
    var k :| 0 <= k < |segs| && segs[k].uuid == u && CutAt(segs, segs[k], cut.groups, cut.pieces);
    RestHas(segs, u, cut.pieces);
    var rest, all := Rest(segs, u, cut.pieces), WorkedOff(segs, u, cut.pieces);
    hide Rest, CutAt;
    forall i | 0 <= i < |all| ensures OfPool(all[i]) {
      if i < |rest| {
        assert rest[i] in rest;
        var x :| RestFrom(segs, x, u, cut.pieces, rest[i]);
        RetagKeepsSpan(segs[x], cut.pieces);
      } else {
        PieceOfPool(segs, segs[k], cut.groups, cut.pieces, i - |rest|);
      }
    }
  }

  lemma {:induction false} OnlyPoolStays(segs: seq<Segment>, us: seq<Uuid>, cuts: map<Uuid, Cut>)
    requires OnlyPool(segs) && Cuttable(segs, us, cuts) && NoneTwice(us) && NewPieces(us, cuts)
    ensures OnlyPool(AllOff(segs, us, cuts))
    decreases |us|
  {
    if us != [] {
      var n := |us| - 1;
      CuttablePrefix(segs, us, cuts, n);
      assert CutsHere(AllOff(segs, us[..n], cuts), us[n], CutOf(cuts, us[n]));
      hide Cuttable, CutsHere, OnlyPool, WorkedOff, NewPieces;
      OnlyPoolStays(segs, us[..n], cuts);
      OnlyPoolWorkedOff(AllOff(segs, us[..n], cuts), us[n], CutOf(cuts, us[n]));
    }
  }

  lemma StartOnlyPool(d: DiskID)
    ensures OnlyPool(ListOfDrive(d))
  {
  }

  lemma AfterOnlyPool(actions: seq<Action>, s: State, d: DiskID)
    requires Reclaims(Example(), InputLists(), actions, s) && (d == 0 || d == 1) && d in InputLists()
    requires Uniform(Example().start.chunks)
    ensures OnlyPool(EndList(actions, d)) && SoundList(EndList(actions, d))
  {
    hide *;
    PoolAligned();
    PoolShape();
    BothOnDrives();
    PoolDrive(Example(), InputLists(), actions, s, POOL, d);
    InputDrives(d);
    StartOnlyPool(d);
    EndListIs(actions, d);
    CutUp(InputLists()[d], WorkedOn(actions, d), CutsOn(Example(), d), d);
    OnlyPoolStays(InputLists()[d], WorkedOn(actions, d), CutsOn(Example(), d));
    ProfileAfter(InputLists()[d], WorkedOn(actions, d), CutsOn(Example(), d), VPG, RESERVED);
  }

  lemma CutUp(segs: seq<Segment>, us: seq<Uuid>, cuts: map<Uuid, Cut>, d: DiskID)
    requires WorksOff(Listing(d, segs), us, cuts)
    ensures SoundList(segs) && Cuttable(segs, us, cuts) && NoneTwice(us) && NewPieces(us, cuts)
  {
    hide SoundList, Cuttable, NewPieces;
  }

  /** A reserved segment nobody uses is one range. */
  lemma WholeGap(l: Listing, r: Segment)
    requires SoundList(l.segs) && r in l.segs && r.isReserved && Uses(l.segs, r) == {} && r.lbs <= r.lbe
    ensures UnusedIn(l.segs, l.disk, r) == [Avail(l.disk, r.pRaid, r.uuid, r.lbs, r.lbe)]
  {
    forall b ensures b in Unused(l.segs, r) <==> b in Interval(r.lbs, r.lbe + 1) {
      if r.Span().Has(b) {
        UnusedByUses(l.segs, r, b);
      }
    }
    hide SoundList, Uses, Unused;
    OneRun(r.lbs, r.lbe);
    assert Unused(l.segs, r) == Interval(r.lbs, r.lbe + 1);
    RunsUnique(RunsOf(Unused(l.segs, r)), [Range(r.lbs, r.lbe)], Unused(l.segs, r));
  }

  /** Of two unused reserved segments of one length the first in the list is picked. */
  lemma FirstIsPicked(l: Listing, r: Segment, t: Segment, vpg: VolumeID, p: Uuid)
    requires SoundList(l.segs) && Mine(l.segs, vpg, p) == [r, t] && r.Span().Blocks() == t.Span().Blocks()
    requires r.lbs <= r.lbe && Uses(l.segs, r) == {} && Uses(l.segs, t) == {}
    ensures FirstLargest(AvailOn(l, vpg), p) == Some(Avail(l.disk, p, r.uuid, r.lbs, r.lbe))
  {
    MineHas(l.segs, vpg, p);
    assert r in [r, t] && t in [r, t];
    hide SoundList, Uses, Mine;
    WholeGap(l, r);
    WholeGap(l, t);
    hide UnusedIn;
    OnlyGaps(l.segs, l.segs, l.disk, vpg, p);
    FirstOfOnly(AvailOn(l, vpg), p);
    var a, b := Avail(l.disk, p, r.uuid, r.lbs, r.lbe), Avail(l.disk, p, t.uuid, t.lbs, t.lbe);
    TwoGaps(l.segs, l.disk, r, t);
    hide *;
    TwoPicks(a, b, p);
  }

  lemma TwoGaps(all: seq<Segment>, disk: DiskID, r: Segment, t: Segment)
    ensures GapsOf(all, disk, [r, t]) == UnusedIn(all, disk, r) + UnusedIn(all, disk, t)
  {
    hide UnusedIn;
    assert [r, t][..1] == [r] && [r][..0] == [];
    assert GapsOf(all, disk, []) == [];
    assert GapsOf(all, disk, [r]) == [] + UnusedIn(all, disk, r);
  }

  lemma TwoPicks(a: Avail, b: Avail, p: Uuid)
    requires a.pRaid == p && b.pRaid == p && b.Capacity() <= a.Capacity()
    ensures FirstLargest([a] + [b], p) == Some(a)
  {
    assert ([a] + [b])[..1] == [a] && [a][..0] == [];
    assert FirstLargest([], p) == None;
    assert FirstLargest([a], p) == Some(a);
  }

  /** The list of a drive with both volumes deleted. */
  ghost function Emptied(actions: seq<Action>, d: DiskID): Listing
    requires Uniform(Example().start.chunks) && d in InputLists()
  {
    Listing(d, KeepPRaids(EndList(actions, d), GONE))
  }

  lemma NobodyLeft(segs: seq<Segment>, r: Segment)
    requires SoundList(segs) && OnlyPool(segs)
    ensures Uses(KeepPRaids(segs, GONE), r) == {}
  {
    KeepUses(segs, GONE, r);
    forall u | u in Uses(segs, r) ensures u.pRaid in GONE {
      var i :| 0 <= i < |segs| && DerivedFrom(segs[i], r) && UseBy(segs[i], r) == u;
    }
    hide SoundList, OnlyPool, KeepPRaids;
  }

  lemma EmptiedIs(actions: seq<Action>, s: State, d: DiskID)
    requires Reclaims(Example(), InputLists(), actions, s) && (d == 0 || d == 1) && d in InputLists()
    requires Uniform(Example().start.chunks)
    ensures var l := Emptied(actions, d);
            && l.disk == d && SoundList(l.segs)
                && Mine(l.segs, VPG, RESERVED) == Mine(EndList(actions, d), VPG, RESERVED)
            && forall r :: Uses(l.segs, r) == {}
  {
    AfterOnlyPool(actions, s, d);
    var segs := EndList(actions, d);
    hide Reclaims, EndList, SoundList, OnlyPool, Mine, Uses, KeepPRaids, Uniform;
    KeepSound(segs, GONE);
    KeepMine(segs, GONE, VPG, RESERVED);
    forall r ensures Uses(KeepPRaids(segs, GONE), r) == {} {
      NobodyLeft(segs, r);
    }
  }

  /** The next allocation takes the piece of the second segment on drive 0 and that of the first on drive 1. */
  lemma NextPicks(actions: seq<Action>, s: State)
    requires Reclaims(Example(), InputLists(), actions, s) && 0 in InputLists() && 1 in InputLists()
    requires Uniform(Example().start.chunks)
    requires Mine(EndList(actions, 0), VPG, RESERVED) == [SecondPiece(0), FirstPiece(0)]
    requires Mine(EndList(actions, 1), VPG, RESERVED) == [FirstPiece(1), SecondPiece(1)]
    ensures FirstLargest(AvailOn(Emptied(actions, 0), VPG), RESERVED)
            == Some(Avail(0, RESERVED, SecondPiece(0).uuid, 10, 14))
    ensures FirstLargest(AvailOn(Emptied(actions, 1), VPG), RESERVED)
            == Some(Avail(1, RESERVED, FirstPiece(1).uuid, 0, 4))
  {
    PieceSpans(0);
    PieceSpans(1);
    hide *;
    EmptiedIs(actions, s, 0);
    EmptiedIs(actions, s, 1);
    FirstIsPicked(Emptied(actions, 0), SecondPiece(0), FirstPiece(0), VPG, RESERVED);
    FirstIsPicked(Emptied(actions, 1), FirstPiece(1), SecondPiece(1), VPG, RESERVED);
  }

  lemma PieceSpans(d: DiskID)
    ensures FirstPiece(d).lbs == 0 && FirstPiece(d).lbe == 4 && SecondPiece(d).lbs == 10 && SecondPiece(d).lbe == 14
    ensures FirstPiece(d).Span().Blocks() == SecondPiece(d).Span().Blocks()
    ensures FirstPiece(d).uuid != SecondPiece(d).uuid && FirstPiece(d).diskID == d && SecondPiece(d).diskID == d
  {
    if FirstPiece(d).uuid == SecondPiece(d).uuid {
      ReclaimExample.NewNamesDiffer(First(d).uuid + 20, 0, Second(d).uuid + 20, 0);
    }
  }

  // ------------------------------------------------------------ the next reclaim

  /** The two pieces of the second segment back one chunk, and only one of them is used: the offsets differ. */
  lemma OffsetsDiffer(db: Db, a: seq<Segment>, r: Segment, b: seq<Segment>, t: Segment, u: Use)
    requires r.diskID in db.drives && ValidDoc(db.drives[r.diskID]) && ListOf(a, db.drives[r.diskID])
    requires t.diskID in db.drives && ValidDoc(db.drives[t.diskID]) && ListOf(b, db.drives[t.diskID])
    requires u in Uses(a, r) && u.blocks >= 1 && Uses(b, t) == {}
    ensures !SameOffsets(db, r, t)
  {
    var x := r.lbs + u.offset;
    UsesAreUse(db, a, r, x);
    UsesAreUse(db, b, t, x + (t.lbs - r.lbs));
    hide UsedOf, ValidDoc, ListOf;
    assert u.offset <= x - r.lbs < u.offset + u.blocks;
  }

  /** A segment was stored at the start of the picked range. */
  lemma TakenUses(a: Listing, b: Listing, q: Uuid, blocks: int, r: Segment, t: Segment, lbs: int, lbe: int)
    requires TakesAt(a, b, VPG, RESERVED, q, blocks)
    requires FirstLargest(AvailOn(a, VPG), RESERVED) == Some(Avail(a.disk, RESERVED, r.uuid, lbs, lbe)) && lbs == r.lbs
    requires (forall x :: Uses(a.segs, x) == {}) && t.uuid != r.uuid
    ensures Uses(b.segs, r) == {Use(q, 0, blocks)} && Uses(b.segs, t) == {}
  {
    hide Uses, AvailOn, FirstLargest;
    var s := b.segs[|a.segs|];
    UsesPush(a.segs, s, r);
    UsesPush(a.segs, s, t);
  }

  lemma SpoiledRow(db: Db, c: int)
    requires InRow(db.chunks, c, 2, 0, SecondPiece(0)) && InRow(db.chunks, c, 2, 1, SecondPiece(1))
    requires !SameOffsets(db, SecondPiece(0), SecondPiece(1))
    ensures !SharedGaps(db)
  {
    hide SameOffsets, SecondPiece;
    assert Pos(db.chunks, c, 0, 1) && HasRef(db.chunks[c]);
    assert Ref(db.chunks[c]) == SecondPiece(0) && At(db.chunks, c, 0, 1) == SecondPiece(1);
  }

  /** Documents after the deletion and the next allocation, with the lists of both drives. */
  ghost predicate ReusedIn(actions: seq<Action>, chunks: seq<Chunk>, a: Listing, b: Listing, q: Uuid, blocks: int,
                              db: Db)
    requires Uniform(Example().start.chunks) && 0 in InputLists() && 1 in InputLists()
  {
    && TakesAt(Emptied(actions, 0), a, VPG, RESERVED, q, blocks)
    && TakesAt(Emptied(actions, 1), b, VPG, RESERVED, q, blocks)
    && db.chunks == chunks
    && 0 in db.drives && ValidDoc(db.drives[0]) && Lists(a.segs, db.drives[0].segs)
    && 1 in db.drives && ValidDoc(db.drives[1]) && Lists(b.segs, db.drives[1].segs)
  }

  lemma GapsAreSpoiled(actions: seq<Action>, s: State, c: int, a: Listing, b: Listing, q: Uuid, blocks: int, db: Db)
    requires Reclaims(Example(), InputLists(), actions, s) && 0 in InputLists() && 1 in InputLists()
    requires Uniform(Example().start.chunks)
    requires Mine(EndList(actions, 0), VPG, RESERVED) == [SecondPiece(0), FirstPiece(0)]
    requires Mine(EndList(actions, 1), VPG, RESERVED) == [FirstPiece(1), SecondPiece(1)]
    requires ReusedIn(actions, s.db.chunks, a, b, q, blocks, db)
    requires InRow(s.db.chunks, c, 2, 0, SecondPiece(0)) && InRow(s.db.chunks, c, 2, 1, SecondPiece(1))
    ensures !SharedGaps(db)
  {
    NextPicks(actions, s);
    EmptiedIs(actions, s, 0);
    EmptiedIs(actions, s, 1);
    PieceSpans(0);
    PieceSpans(1);
    hide Reclaims, Emptied, AvailOn, FirstLargest, SecondPiece, FirstPiece, Mine, Uses, SharedGaps, InRow,
         ValidDoc, Lists, SoundList, EndList, Uniform, SameOffsets;
    TakenUses(Emptied(actions, 0), a, q, blocks, SecondPiece(0), FirstPiece(0), 10, 14);
    TakenUses(Emptied(actions, 1), b, q, blocks, FirstPiece(1), SecondPiece(1), 0, 4);
    OffsetsDiffer(db, a.segs, SecondPiece(0), b.segs, SecondPiece(1), Use(q, 0, blocks));
    SpoiledRow(db, c);
  }

  /** The chunk of the second segments. */
  lemma SecondChunk(actions: seq<Action>, s: State) returns (c: int)
    requires Reclaims(Example(), InputLists(), actions, s)
    ensures InRow(s.db.chunks, c, 2, 0, SecondPiece(0)) && InRow(s.db.chunks, c, 2, 1, SecondPiece(1))
  {
    ReclaimOutcomeOf(Example(), InputLists(), actions, s);
    RowsSplit(0);
    BothOnDrives();
    hide *;
    var o := Origin(0, 0);
    SplitOrigin(Example(), 0, 0);
    c := RowFrom(Example(), o);
    SecondTraced(s.db, 0);
    SecondTraced(s.db, 1);
  }

  lemma SecondTraced(db: Db, i: int)
    requires GoodJob(Example()) && Outcome(Example(), db) && (i == 0 || i == 1)
    requires ValidOrigin(Example().start.chunks, Example().start.volumes, Origin(0, 0))
    ensures InRow(db.chunks, RowFrom(Example(), Origin(0, 0)), 2, i, SecondPiece(i))
  {
    hide *;
    BothOnDrives();
    RowAt(0, i);
    PiecesAre(0, i);
    OutcomeRow(Example(), db, Origin(0, 0), 2, i, TheSegment(0, i));
    TracedIs(Example(), 0, TheSegment(0, i));
    RowsSplit(0);
    PieceIsSecond(i);
  }

  lemma PieceIsSecond(i: int)
    requires i == 0 || i == 1
    ensures PieceAt(i, 1) == [SecondPiece(i)]
  {
    hide SecondPiece, FirstPiece;
  }

  // ------------------------------------------------------- it can be allocated

  ghost predicate AllOffered(segs: seq<Segment>) {
    forall i | 0 <= i < |segs| :: Offered(segs[i], VPG) && segs[i].pRaid == RESERVED
  }

  lemma {:induction false} AllMine(segs: seq<Segment>)
    requires AllOffered(segs)
    ensures Mine(segs, VPG, RESERVED) == segs
    decreases |segs|
  {
    if segs != [] {
      AllMine(segs[..|segs| - 1]);
    }
  }

  lemma {:induction false} KeptOfPool(segs: seq<Segment>)
    requires OnlyPool(segs) && forall i | 0 <= i < |segs| :: !(segs[i].isReserved && segs[i].fromReserved)
    ensures AllOffered(KeepPRaids(segs, GONE))
    decreases |segs|
  {
    if segs != [] {
      var n := |segs| - 1;
      KeptOfPool(segs[..n]);
      var kept := KeepPRaids(segs[..n], GONE);
      assert OfPool(segs[n]) && !(segs[n].isReserved && segs[n].fromReserved);
      assert KeepPRaids(segs, GONE) == kept + if segs[n].fromReserved then [] else [segs[n]];
    }
  }

  /** Nothing but the two pieces is left on a drive. */
  lemma EmptiedHolds(actions: seq<Action>, s: State, d: DiskID)
    requires Reclaims(Example(), InputLists(), actions, s) && (d == 0 || d == 1) && d in InputLists()
    requires Uniform(Example().start.chunks)
    ensures Emptied(actions, d).disk == d
    ensures Emptied(actions, d).segs == Mine(EndList(actions, d), VPG, RESERVED)
  {
    hide Reclaims, EndList, SoundList, OnlyPool, Mine, Uses, KeepPRaids, Uniform, AllOffered;
    AfterOnlyPool(actions, s, d);
    var segs := EndList(actions, d);
    NeverBoth(segs);
    KeptOfPool(segs);
    AllMine(KeepPRaids(segs, GONE));
    KeepMine(segs, GONE, VPG, RESERVED);
  }

  lemma NeverBoth(segs: seq<Segment>)
    requires SoundList(segs)
    ensures forall i | 0 <= i < |segs| :: !(segs[i].isReserved && segs[i].fromReserved)
  {
  }

  /** Two reserved segments side by side, and one derived from the first of them. */
  predicate SideBySide(r: Segment, t: Segment, x: Segment) {
    && r.isReserved && !r.fromReserved && t.isReserved && !t.fromReserved && x.fromReserved && !x.isReserved
    && 0 <= r.lbs <= r.lbe <= 99 && 0 <= t.lbs <= t.lbe <= 99 && !r.Span().Meets(t.Span())
    && x.reservedUUID == r.uuid && x.Span() == r.Span()
    && r.uuid != t.uuid && r.uuid != x.uuid && t.uuid != x.uuid
  }

  lemma ThreeLaidOut(d: DriveDoc, r: Segment, t: Segment, x: Segment)
    requires SideBySide(r, t, x) && d.segs == map[r.uuid := r, t.uuid := t, x.uuid := x]
    requires d.first == 0 && d.last == 99
    ensures Layout(d)
  {
    assert Inside(x, r);
    assert WellPlaced(d, r) && WellPlaced(d, t) && WellPlaced(d, x);
    assert Compatible(r, x) && Compatible(x, r) && Compatible(r, t) && Compatible(t, r) && Compatible(t, x)
           && Compatible(x, t);
    hide WellPlaced, Compatible;
  }

  lemma ThreeListed(r: Segment, t: Segment, x: Segment)
    requires SideBySide(r, t, x)
    ensures Lists([r, t] + [x], map[r.uuid := r, t.uuid := t, x.uuid := x])
  {
    assert [r, t] + [x] == [r, t, x];
  }

  lemma FreeByLayout(e: DriveDoc, n: int)
    ensures Free(e.(available := n)) == Free(e)
  {
  }

  /** A document that holds them. */
  lemma StoresThree(r: Segment, t: Segment, x: Segment) returns (d: DriveDoc)
    requires SideBySide(r, t, x)
    ensures ValidDoc(d) && Lists([r, t] + [x], d.segs)
  {
    var e := DriveDoc(0, 99, map[r.uuid := r, t.uuid := t, x.uuid := x], 0, UNKNOWN_LARGEST);
    d := e.(available := |Free(e)| + |OneBlocks(e.segs)|);
    FreeByLayout(e, d.available);
    ThreeLaidOut(d, r, t, x);
    ThreeListed(r, t, x);
    hide Free, OneBlocks, Layout, Lists, SideBySide;
  }

  /** What a next volume of pRaid 10 takes on a drive: all of the piece that is offered first. */
  ghost function NextTaken(r: Segment, t: Segment): Segment {
    Segment(r.uuid + t.uuid + 1, r.diskID, 3, 10, r.lbs, r.lbe, false, true, r.uuid, Idle)
  }

  lemma TakenOnDrive(l: Listing, r: Segment, t: Segment, lbs: int) returns (b: Listing, doc: DriveDoc)
    requires l.segs == [r, t] && r.isReserved && !r.fromReserved && t.isReserved && !t.fromReserved
    requires r.lbs == lbs && r.lbe == lbs + 4 && 0 <= lbs <= 95 && 0 <= t.lbs <= t.lbe <= 99
    requires !r.Span().Meets(t.Span()) && r.uuid != t.uuid
    requires FirstLargest(AvailOn(l, VPG), RESERVED) == Some(Avail(l.disk, RESERVED, r.uuid, lbs, lbs + 4))
    ensures TakesAt(l, b, VPG, RESERVED, 10, 5) && ValidDoc(doc) && Lists(b.segs, doc.segs)
  {
    var x := NextTaken(r, t);
    doc := StoresThree(r, t, x);
    b := Listing(l.disk, l.segs + [x]);
    hide FirstLargest, AvailOn, ValidDoc, Lists;
  }

  /** The next allocation on the torn drives does happen. */
  lemma ReuseHappens(actions: seq<Action>, s: State)
    requires Reclaims(Example(), InputLists(), actions, s) && 0 in InputLists() && 1 in InputLists()
    requires Uniform(Example().start.chunks)
    requires Mine(EndList(actions, 0), VPG, RESERVED) == [SecondPiece(0), FirstPiece(0)]
    requires Mine(EndList(actions, 1), VPG, RESERVED) == [FirstPiece(1), SecondPiece(1)]
    ensures exists a, b, q, blocks, db :: ReusedIn(actions, s.db.chunks, a, b, q, blocks, db)
  {
    hide *;
    NextPicks(actions, s);
    EmptiedHolds(actions, s, 0);
    EmptiedHolds(actions, s, 1);
    var a, doc0 := PieceTaken(Emptied(actions, 0), 0, true);
    var b, doc1 := PieceTaken(Emptied(actions, 1), 1, false);
    ReusedBy(actions, s.db.chunks, a, doc0, b, doc1);
  }

  lemma ReusedBy(actions: seq<Action>, chunks: seq<Chunk>, a: Listing, doc0: DriveDoc, b: Listing, doc1: DriveDoc)
    requires Uniform(Example().start.chunks) && 0 in InputLists() && 1 in InputLists()
    requires TakesAt(Emptied(actions, 0), a, VPG, RESERVED, 10, 5) && ValidDoc(doc0) && Lists(a.segs, doc0.segs)
    requires TakesAt(Emptied(actions, 1), b, VPG, RESERVED, 10, 5) && ValidDoc(doc1) && Lists(b.segs, doc1.segs)
    ensures exists a, b, q, blocks, db :: ReusedIn(actions, chunks, a, b, q, blocks, db)
  {
    hide Emptied, TakesAt, ValidDoc, Lists, Uniform;
    var db := Db(map[0 := doc0, 1 := doc1], chunks, []);
    assert ReusedIn(actions, chunks, a, b, 10, 5, db);
  }

  /** One of the two pieces of a drive is taken whole, as it is the first in the list. */
  lemma PieceTaken(l: Listing, d: DiskID, second: bool) returns (b: Listing, doc: DriveDoc)
    requires l.segs == if second then [SecondPiece(d), FirstPiece(d)] else [FirstPiece(d), SecondPiece(d)]
    requires FirstLargest(AvailOn(l, VPG), RESERVED)
             == Some(if second then Avail(l.disk, RESERVED, SecondPiece(d).uuid, 10, 14)
                     else Avail(l.disk, RESERVED, FirstPiece(d).uuid, 0, 4))
    ensures TakesAt(l, b, VPG, RESERVED, 10, 5) && ValidDoc(doc) && Lists(b.segs, doc.segs)
  {
    PieceSpans(d);
    PiecesReserved(d);
    hide AvailOn, FirstLargest, SecondPiece, FirstPiece, ValidDoc, Lists, TakesAt;
    if second {
      b, doc := TakenOnDrive(l, SecondPiece(d), FirstPiece(d), 10);
    } else {
      b, doc := TakenOnDrive(l, FirstPiece(d), SecondPiece(d), 0);
    }
  }

  lemma PiecesReserved(d: DiskID)
    ensures FirstPiece(d).isReserved && !FirstPiece(d).fromReserved
    ensures SecondPiece(d).isReserved && !SecondPiece(d).fromReserved
    ensures !FirstPiece(d).Span().Meets(SecondPiece(d).Span()) && !SecondPiece(d).Span().Meets(FirstPiece(d).Span())
  {
  }

  /** From two drives used alike, through one reclaim with one crash, to documents on which the next reclaim would go
      wrong: after both volumes are deleted something can be allocated, and whatever it is, the drives no longer share
      their gaps. */
  lemma CrashSpoilsNextReclaim()
    returns (n: int, before: seq<Action>, after: seq<Action>, ds: seq<DiskID>, s: State)
    ensures GoodJob(Example()) && 0 in InputLists() && 1 in InputLists()
    ensures Interrupted(Example(), InputLists(), n, before, after, ds, s)
    ensures exists a, b, q, blocks, db :: ReusedIn(before + [Crash] + after, s.db.chunks, a, b, q, blocks, db)
    ensures forall a, b, q, blocks, db | ReusedIn(before + [Crash] + after, s.db.chunks, a, b, q, blocks, db) ::
              !SharedGaps(db)
  {
    hide *;
    ExampleIsGood();
    n, before, after, ds, s := CrashTearsApart();
    var actions := before + [Crash] + after;
    InterruptedReclaims(Example(), InputLists(), n, before, after, ds, s);
    var c := SecondChunk(actions, s);
    ReuseHappens(actions, s);
    forall a, b, q, blocks, db | ReusedIn(actions, s.db.chunks, a, b, q, blocks, db) ensures !SharedGaps(db) {
      GapsAreSpoiled(actions, s, c, a, b, q, blocks, db);
    }
  }
}
