/** A reserved chunk of several pRaids is reclaimed by the use of its first segment alone; when exactly that gives up
    blocks in use. */
module ReclaimStripes {
  import opened Ranges
  import opened Drives
  import opened Redo
  import opened Chunks
  import opened ReclaimPlan
  import opened Reclaim
  import opened ReclaimFlags
  import Small = ReclaimExample

  /** What a flag leaves of a reserved segment. */
  ghost function KeptBy(flag: Pending, s: Segment): set<int> {
    match flag
    case Idle => BlocksOf(s.Span())
    case Removal => {}
    case Replace(reps, _) => CoveredBlocks(Spans(reps))
  }

  ghost function KeptOf(plan: Plan, s: Segment): set<int> {
    KeptBy(FlagFor(plan, s), s)
  }

  /** The plan gives up a block that a derived segment uses. */
  ghost predicate GivesUpUse(db: Db, plan: Plan, s: Segment) {
    !(UsedOf(db, s) <= KeptOf(plan, s))
  }

  /** Blocks moved by a distance. */
  ghost function MovedBy(blocks: set<int>, d: int): set<int> {
    set b | b in blocks :: b + d
  }

  lemma MovedHas(blocks: set<int>, d: int, b: int)
    ensures b in MovedBy(blocks, d) <==> b - d in blocks
  {
    if b - d in blocks {
      assert (b - d) + d == b;
    }
  }

  /** Every block of `s` in use has a block of `ref` in use at the same offset. */
  ghost predicate UsedWithin(db: Db, ref: Segment, s: Segment) {
    UsedOf(db, s) <= MovedBy(UsedOf(db, ref), s.lbs - ref.lbs)
  }

  lemma WholeIsUsed(groups: seq<Range>, used: set<int>, r: Range)
    requires IsRuns(groups, used) && used <= BlocksOf(r) && TotalBlocks(groups) == r.Blocks() && r.Nonempty()
    ensures used == BlocksOf(r)
  {
    RunsTotal(groups, used);
    var rest := BlocksOf(r) - used;
    assert BlocksOf(r) == used + rest && |rest| == |BlocksOf(r)| - |used|;
  }

  lemma ShiftedHas(groups: seq<Range>, d: int, b: int)
    ensures Covered(ShiftAll(groups, d), b) <==> Covered(groups, b - d)
  {
    var moved := ShiftAll(groups, d);
    if Covered(moved, b) {
      var i :| 0 <= i < |moved| && moved[i].Has(b);
      assert groups[i].Has(b - d);
    }
    if Covered(groups, b - d) {
      var i :| 0 <= i < |groups| && groups[i].Has(b - d);
      assert moved[i].Has(b);
    }
  }

  lemma MovedCover(groups: seq<Range>, used: set<int>, d: int)
    requires forall b :: b in used <==> Covered(groups, b)
    ensures CoveredBlocks(ShiftAll(groups, d)) == MovedBy(used, d)
  {
    hide ShiftAll, MovedBy, Covered;
    forall b ensures b in CoveredBlocks(ShiftAll(groups, d)) <==> b in MovedBy(used, d) {
      ShiftedHas(groups, d, b);
      MovedHas(used, d, b);
    }
  }

  lemma MovedWhole(s: Segment, ref: Segment)
    requires ref.Span().Blocks() == s.Span().Blocks()
    ensures MovedBy(BlocksOf(ref.Span()), s.lbs - ref.lbs) == BlocksOf(s.Span())
  {
    hide MovedBy;
    forall b ensures b in MovedBy(BlocksOf(ref.Span()), s.lbs - ref.lbs) <==> b in BlocksOf(s.Span()) {
      MovedHas(BlocksOf(ref.Span()), s.lbs - ref.lbs, b);
    }
  }

  /** The chunk's first segment is as long as `s`, and its used blocks are those the decision goes by. */
  ghost predicate IsReference(db: Db, c: int, s: Segment, used: set<int>) {
    && 0 <= c < |db.chunks| && HasRef(db.chunks[c])
    && Ref(db.chunks[c]).Span().Blocks() == s.Span().Blocks() && Ref(db.chunks[c]).Span().Nonempty()
    && IsRuns(GroupsOf(db.chunks[c], db.volumes), used) && used <= BlocksOf(Ref(db.chunks[c]).Span())
    && (Dropped(db.chunks[c], db.volumes) <==> used == {})
  }

  /** What a decision leaves of a segment: nothing, everything or the used groups at its own place. */
  ghost function Decided(groups: seq<Range>, dropped: bool, s: Segment, ref: Segment): set<int> {
    if dropped then {}
    else if TotalBlocks(groups) == ref.Span().Blocks() then BlocksOf(s.Span())
    else CoveredBlocks(ShiftAll(groups, s.lbs - ref.lbs))
  }

  /** The decision on a chunk leaves of each segment the blocks at the offsets the reference uses. */
  lemma DecisionKeeps(db: Db, names: Names, c: int, s: Segment, used: set<int>)
    requires IsReference(db, c, s, used)
    ensures KeptBy(ExpectedFlag(db, names, c, s), s) == MovedBy(used, s.lbs - Ref(db.chunks[c]).lbs)
  {
    hide KeptBy, ExpectedFlag, IsRuns, GroupsOf, Dropped, Decided, MovedBy, BlocksOf, RangesNaming, CoveredBlocks;
    var chunk := db.chunks[c];
    DecisionByUse(db, names, c, s);
    GroupsKeep(s, Ref(chunk), GroupsOf(chunk, db.volumes), used);
  }

  /** In each case these are the used blocks, moved. */
  lemma GroupsKeep(s: Segment, ref: Segment, groups: seq<Range>, used: set<int>)
    requires ref.Span().Blocks() == s.Span().Blocks() && ref.Span().Nonempty()
    requires IsRuns(groups, used) && used <= BlocksOf(ref.Span())
    ensures MovedBy(used, s.lbs - ref.lbs)
         == Decided(groups, used == {}, s, ref)
  {
    hide BlocksOf, MovedBy, IsRuns, Covered, CoveredBlocks, ShiftAll, TotalBlocks;
    if used == {} {
      MovedNothing(s.lbs - ref.lbs);
    } else if TotalBlocks(groups) == ref.Span().Blocks() {
      WholeIsUsed(groups, used, ref.Span());
      MovedWhole(s, ref);
    } else {
      RunsCover(groups, used);
      MovedCover(groups, used, s.lbs - ref.lbs);
    }
  }

  lemma MovedNothing(d: int)
    ensures MovedBy({}, d) == {}
  {
  }

  lemma RunsCover(groups: seq<Range>, used: set<int>)
    requires IsRuns(groups, used)
    ensures forall b :: b in used <==> Covered(groups, b)
  {
  }

  lemma DecisionByUse(db: Db, names: Names, c: int, s: Segment)
    requires 0 <= c < |db.chunks| && HasRef(db.chunks[c])
    ensures var chunk := db.chunks[c];
            KeptBy(ExpectedFlag(db, names, c, s), s)
            == Decided(GroupsOf(chunk, db.volumes), Dropped(chunk, db.volumes), s, Ref(chunk))
  {
    hide GroupsOf, RangesNaming, CoveredBlocks, ShiftAll, BlocksOf, Dropped, Spans, SegmentReplacements, TotalBlocks;
    MovedSpans(s, Ref(db.chunks[c]), GroupsOf(db.chunks[c], db.volumes), names);
  }

  /** What the documents say of a segment and of the reference of its chunk. */
  lemma ReferenceFacts(db: Db, vpg: VolumeID, c: int, p: int, k: int)
    requires Agreeing(db, vpg) && Pos(db.chunks, c, p, k)
    ensures HasRef(db.chunks[c])
    ensures IsReference(db, c, At(db.chunks, c, p, k), UsedOf(db, Ref(db.chunks[c])))
  {
    hide Agreeing, UsedOf, IsRuns, GroupsOf, Dropped, RangesNaming, CoveredBlocks;
    ChunkFacts(db, vpg, c, p, k);
    assert WellPlaced(db.drives[At(db.chunks, c, p, k).diskID], At(db.chunks, c, p, k));
    RefUse(db, vpg, c);
    assert Pos(db.chunks, c, 0, 0) && At(db.chunks, c, 0, 0) == Ref(db.chunks[c]);
    DocsShowUse(db, vpg, c, 0, 0);
  }

  lemma ExpectedKeeps(db: Db, vpg: VolumeID, names: Names, c: int, p: int, k: int, used: set<int>)
    requires Agreeing(db, vpg) && Pos(db.chunks, c, p, k) && HasRef(db.chunks[c])
    requires used == UsedOf(db, Ref(db.chunks[c]))
    ensures var s, ref := At(db.chunks, c, p, k), Ref(db.chunks[c]);
            KeptBy(ExpectedFlag(db, names, c, s), s) == MovedBy(used, s.lbs - ref.lbs)
  {
    hide Agreeing, UsedOf, KeptBy, ExpectedFlag, MovedBy, IsReference, At, RangesNaming;
    ReferenceFacts(db, vpg, c, p, k);
    DecisionKeeps(db, names, c, At(db.chunks, c, p, k), used);
  }

  /** What is left of a segment: the blocks at the offsets its reference uses. */
  lemma KeptAsReference(db: Db, vpg: VolumeID, names: Names, m: int, c: int, p: int, k: int)
    requires Agreeing(db, vpg) && Pos(db.chunks, c, p, k)
    ensures HasRef(db.chunks[c])
    ensures var s, ref := At(db.chunks, c, p, k), Ref(db.chunks[c]);
            KeptOf(PlanFor(db.chunks, db.volumes, names, m), s) == MovedBy(UsedOf(db, ref), s.lbs - ref.lbs)
  {
    assert 0 <= c < |db.chunks| && forall e | 0 <= e < |db.chunks| :: HasRef(db.chunks[e]);
    hide *;
    FlagOfChunk(db, vpg, names, m, c, p, k);
    var s := At(db.chunks, c, p, k);
    KeptByItsFlag(PlanFor(db.chunks, db.volumes, names, m), s, ExpectedFlag(db, names, c, s));
    ExpectedKeeps(db, vpg, names, c, p, k, UsedOf(db, Ref(db.chunks[c])));
  }

  lemma KeptByItsFlag(plan: Plan, s: Segment, flag: Pending)
    requires FlagFor(plan, s) == flag
    ensures KeptOf(plan, s) == KeptBy(flag, s)
  {
    hide FlagFor, KeptBy;
  }

  /** A reclaim gives up a used block of a segment if and only if the segment is used at an offset its chunk's first
      segment is not. */
  lemma GivesUpExactly(db: Db, vpg: VolumeID, names: Names, m: int, c: int, p: int, k: int)
    requires Agreeing(db, vpg) && Pos(db.chunks, c, p, k)
    ensures HasRef(db.chunks[c])
    ensures GivesUpUse(db, PlanFor(db.chunks, db.volumes, names, m), At(db.chunks, c, p, k))
       <==> !UsedWithin(db, Ref(db.chunks[c]), At(db.chunks, c, p, k))
  {
    KeptAsReference(db, vpg, names, m, c, p, k);
    hide Agreeing, UsedOf, KeptOf, PlanFor, MovedBy;
  }

  // ---------------------------------------------------------------- the input

  const VPG: VolumeID := 7

  /** Two pRaids of one segment each, on two drives. A volume of one pRaid took half of the second, and nobody uses
      the first: a volume of another pRaid was there first and is gone. */
  const FIRST := Segment(1, 0, VPG, 5, 0, 9, true, false, NO_UUID, Idle)
  const SECOND := Segment(2, 1, VPG, 6, 0, 9, true, false, NO_UUID, Idle)
  const DERIVED := Segment(3, 1, 8, 9, 0, 4, false, true, 2, Idle)

  const DRIVE0 := DriveDoc(0, 99, map[1 := FIRST], 90, Largest(90, 10, 99))
  const DRIVE1 := DriveDoc(0, 99, map[2 := SECOND, 3 := DERIVED], 90, Largest(90, 10, 99))

  const START := Db(map[0 := DRIVE0, 1 := DRIVE1], [Chunk(0, 19, [[FIRST], [SECOND]])], [[DERIVED]])

  lemma Drive0IsValid()
    ensures ValidDoc(DRIVE0)
  {
    assert DRIVE0 == Small.DRIVE;
    Small.DriveIsValid();
  }

  lemma Drive1Taken(b: int)
    ensures Taken(DRIVE1.segs, b) <==> 0 <= b < 10
  {
    assert DRIVE1.segs[2] == SECOND && DRIVE1.segs[3] == DERIVED;
  }

  lemma Drive1Counted()
    ensures Accounted(DRIVE1)
  {
    Drive1Free();
    NoOneBlock();
    hide Free, OneBlocks;
  }

  lemma NoOneBlock()
    ensures OneBlocks(DRIVE1.segs) == {}
  {
  }

  lemma Drive1Free()
    ensures Free(DRIVE1) == Interval(10, 100)
  {
    hide Taken;
    forall b ensures b in Free(DRIVE1) <==> b in Interval(10, 100) {
      Drive1Taken(b);
    }
  }

  lemma Drive1LaidOut()
    ensures Layout(DRIVE1)
  {
    assert WellPlaced(DRIVE1, SECOND) && WellPlaced(DRIVE1, DERIVED);
    assert Compatible(SECOND, DERIVED) && Compatible(DERIVED, SECOND);
    hide WellPlaced, Compatible;
  }

  lemma DrivesAreSound()
    ensures DrivesSound(START.drives)
  {
    Drive0IsValid();
    Drive1Counted();
    Drive1LaidOut();
    hide Layout, Accounted;
    assert SegmentSound(0, FIRST) && SegmentSound(1, SECOND) && SegmentSound(1, DERIVED);
    hide SegmentSound;
  }

  lemma ChunksAgree()
    ensures ChunksStored(START, VPG) && ChunksDistinct(START.chunks) && ChunksComplete(START, VPG)
    ensures Uniform(START.chunks)
  {
    assert Pos(START.chunks, 0, 0, 0) && At(START.chunks, 0, 0, 0) == FIRST;
    assert Pos(START.chunks, 0, 1, 0) && At(START.chunks, 0, 1, 0) == SECOND;
  }

  lemma VolumesAgree()
    ensures VolumesStored(START, VPG) && VolumesComplete(START, VPG)
  {
    assert START.volumes[0][0] == DERIVED;
  }

  lemma DocumentsAgree()
    ensures Agreeing(START, VPG)
  {
    DrivesAreSound();
    ChunksAgree();
    VolumesAgree();
    hide DrivesSound, ChunksStored, ChunksDistinct, ChunksComplete, VolumesStored, VolumesComplete, Uniform;
  }

  lemma OnlySecondIsUsed()
    ensures 0 in UsedOf(START, SECOND) && UsedOf(START, FIRST) == {}
  {
    assert DERIVED.Span().Has(0) && DRIVE1.segs[3] == DERIVED;
    assert UsedAt(DRIVE1.segs, 2, 0);
    assert DRIVE0.segs.Keys == {1} && DRIVE0.segs[1] == FIRST;
  }

  /** The failing input: the documents agree with each other, and the reclaim gives up the blocks in use. */
  lemma SecondPRaidIsLost(names: Names, m: int)
    ensures Agreeing(START, VPG) && GivesUpUse(START, PlanFor(START.chunks, START.volumes, names, m), SECOND)
  {
    DocumentsAgree();
    OnlySecondIsUsed();
    assert Pos(START.chunks, 0, 1, 0) && At(START.chunks, 0, 1, 0) == SECOND && Ref(START.chunks[0]) == FIRST;
    hide Agreeing, UsedOf, GivesUpUse, PlanFor;
    GivesUpExactly(START, VPG, names, m, 0, 1, 0);
  }
}
