/** The whole life of the reserved space of a provisioning group: reservations, allocations, deletions and reclaims.
    Documents that agree also share their gaps, so every reclaim starts from what it rests on. */
module ReservedHistory {
  import opened Ranges
  import opened Drives
  import opened DriveStore
  import opened Orders
  import opened Chunks
  import opened ReclaimPlan
  import opened Reclaim
  import opened ReclaimRun
  import opened ReclaimSafety
  import opened ReclaimOutcome
  import opened ReservedSpace
  import opened SharedGapsHistory
  import opened ReclaimOrder
  import opened ReclaimLists
  import opened ReclaimPools
  import opened ReclaimBacking
  import opened PlanOrder
  import opened ReclaimSchedule
  import opened ReclaimCrashes

  /** The documents of a group and the order of the segments in its drives. */
  datatype Stage = Stage(db: Db, lists: DriveLists)

  ghost predicate IsStage(vpg: VolumeID, a: Stage) {
    Agreeing(a.db, vpg) && Listed(a.db, a.lists)
  }

  ghost predicate Backed(vpg: VolumeID, a: Stage, pool: Pool) {
    && Aligned(a.db, a.lists, vpg, pool)
    && UsedAlike(ListsOn(a.lists, pool), vpg, pool.pRaid)
  }

  ghost predicate InPool(pools: seq<Pool>, x: int, c: int) {
    0 <= x < |pools| && c in pools[x].rows
  }

  ghost predicate InSomePool(pools: seq<Pool>, c: int) {
    exists x :: InPool(pools, x, c)
  }

  /** Every reserved chunk stands behind one position of the drives of its pRaid, and these are used alike. */
  ghost predicate Grounded(vpg: VolumeID, a: Stage, pools: seq<Pool>) {
    && (forall x | 0 <= x < |pools| :: Backed(vpg, a, pools[x]))
    && (forall c | 0 <= c < |a.db.chunks| :: InSomePool(pools, c))
  }

  // ------------------------------------------------------------ shared gaps

  lemma RowIsHeld(vpg: VolumeID, a: Stage, pool: Pool, j: int)
    requires IsStage(vpg, a) && Backed(vpg, a, pool) && 0 <= j < |pool.rows|
    ensures 0 <= pool.rows[j] < |a.db.chunks|
    ensures Backs(a.db, vpg, a.db.chunks[pool.rows[j]], Backing(pool.pRaid, j, ListsOn(a.lists, pool)))
  {
    hide UsedAlike, Agreeing, Listed;
    PoolDisks(a.db, a.lists, vpg, pool);
    var lists := ListsOn(a.lists, pool);
    forall i | 0 <= i < |pool.disks|
      ensures InRow(a.db.chunks, pool.rows[j], |pool.disks|, i, Mine(lists[i].segs, vpg, pool.pRaid)[j])
      ensures |Mine(lists[i].segs, vpg, pool.pRaid)| == |pool.rows|
    {
      assert DriveAligned(a.db.chunks, a.lists[pool.disks[i]], vpg, pool, i);
    }
    forall i | 0 <= i < |pool.disks|
      ensures var s := Mine(lists[i].segs, vpg, pool.pRaid)[j];
              s.diskID in a.db.drives && ListOf(lists[i].segs, a.db.drives[s.diskID])
    {
      RowDisk(vpg, a, pool, i, j);
    }
    hide Aligned, Mine, ListOf;
    assert InRow(a.db.chunks, pool.rows[j], |pool.disks|, 0, Mine(lists[0].segs, vpg, pool.pRaid)[j]);
  }

  lemma RowDisk(vpg: VolumeID, a: Stage, pool: Pool, i: int, j: int)
    requires IsStage(vpg, a) && Aligned(a.db, a.lists, vpg, pool) && 0 <= i < |pool.disks| && 0 <= j < |pool.rows|
    ensures pool.disks[i] in a.lists && |Mine(a.lists[pool.disks[i]], vpg, pool.pRaid)| == |pool.rows|
    ensures var s := Mine(a.lists[pool.disks[i]], vpg, pool.pRaid)[j];
            s.diskID == pool.disks[i] && s.diskID in a.db.drives && Lists(a.lists[s.diskID], a.db.drives[s.diskID].segs)
  {
    PoolHas(a.db, a.lists, vpg, pool, i);
    MineInList(a.lists[pool.disks[i]], vpg, pool.pRaid, j);
    hide Mine, Aligned;
    DiskInList(vpg, a, pool.disks[i], Mine(a.lists[pool.disks[i]], vpg, pool.pRaid)[j]);
  }

  lemma DiskInList(vpg: VolumeID, a: Stage, d: DiskID, s: Segment)
    requires IsStage(vpg, a) && d in a.lists && s in a.lists[d]
    ensures s.diskID == d && d in a.db.drives && Lists(a.lists[d], a.db.drives[d].segs)
  {
    var k :| 0 <= k < |a.lists[d]| && a.lists[d][k] == s;
    assert SegmentSound(d, a.db.drives[d].segs[s.uuid]);
  }

  ghost function PlaceIn(rows: seq<int>, c: int): (j: int)
    requires c in rows
    ensures 0 <= j < |rows| && rows[j] == c
  {
    var j :| 0 <= j < |rows| && rows[j] == c;
    j
  }

  /** The backing of a chunk, from the pool that has it. */
  ghost function BackingOf(a: Stage, pools: seq<Pool>, c: int): Backing
    requires InSomePool(pools, c)
    requires forall x, i | 0 <= x < |pools| && 0 <= i < |pools[x].disks| :: pools[x].disks[i] in a.lists
  {
    var x :| InPool(pools, x, c);
    Backing(pools[x].pRaid, PlaceIn(pools[x].rows, c), ListsOn(a.lists, pools[x]))
  }

  lemma PoolsListed(vpg: VolumeID, a: Stage, pools: seq<Pool>)
    requires forall x | 0 <= x < |pools| :: Backed(vpg, a, pools[x])
    ensures forall x, i | 0 <= x < |pools| && 0 <= i < |pools[x].disks| :: pools[x].disks[i] in a.lists
  {
    hide UsedAlike, DriveAligned;
    forall x, i | 0 <= x < |pools| && 0 <= i < |pools[x].disks| ensures pools[x].disks[i] in a.lists {
      assert Backed(vpg, a, pools[x]);
    }
  }

  lemma BackedChunk(vpg: VolumeID, a: Stage, pools: seq<Pool>, c: int)
    requires IsStage(vpg, a) && Grounded(vpg, a, pools) && 0 <= c < |a.db.chunks|
    requires forall x, i | 0 <= x < |pools| && 0 <= i < |pools[x].disks| :: pools[x].disks[i] in a.lists
    ensures InSomePool(pools, c) && Backs(a.db, vpg, a.db.chunks[c], BackingOf(a, pools, c))
  {
    hide Backed, IsStage, Backs;
    assert InSomePool(pools, c);
    var x :| InPool(pools, x, c)
        && BackingOf(a, pools, c) == Backing(pools[x].pRaid, PlaceIn(pools[x].rows, c), ListsOn(a.lists, pools[x]));
    RowIsHeld(vpg, a, pools[x], PlaceIn(pools[x].rows, c));
  }

  /** Grounded documents that agree are consistent: the reclaim's assumption holds. */
  lemma GroundedIsConsistent(vpg: VolumeID, a: Stage, pools: seq<Pool>)
    requires IsStage(vpg, a) && Grounded(vpg, a, pools)
    ensures Consistent(a.db, vpg)
  {
    PoolsListed(vpg, a, pools);
    forall c | 0 <= c < |a.db.chunks| ensures InSomePool(pools, c) {
      hide Backed;
    }
    var backings := seq(|a.db.chunks|, c requires 0 <= c < |a.db.chunks| => BackingOf(a, pools, c));
    forall c | 0 <= c < |a.db.chunks| ensures Backs(a.db, vpg, a.db.chunks[c], backings[c]) {
      hide Grounded, IsStage, Backs, BackingOf;
      BackedChunk(vpg, a, pools, c);
    }
    hide Backs, Grounded, BackingOf, SharedGaps, DrivesSound, ChunksStored, ChunksDistinct, ChunksComplete,
         VolumesStored, VolumesComplete, Uniform, Listed;
    SharedGapsHold(a.db, vpg, backings);
  }

  // ------------------------------------------------------------------- events

  /** What happens to the reserved space of a group. */
  datatype GroupEvent =
    | Moved
    | NewReservation(pool: Pool)
    | Reclaimed(names: Names, multiplier: int, actions: seq<Action>, end: State)

  ghost predicate SameDrives(a: Stage, b: Stage) {
    a.lists.Keys == b.lists.Keys
  }

  /** A reserved pRaid as it is created: one segment on each of its drives, none of it used. */
  ghost predicate IsNew(b: Stage, vpg: VolumeID, pool: Pool) {
    && |pool.rows| == 1 && Aligned(b.db, b.lists, vpg, pool)
    && forall i | 0 <= i < |pool.disks| :: NothingDerived(b.lists[pool.disks[i]], vpg, pool.pRaid)
  }

  ghost predicate NothingDerived(segs: seq<Segment>, vpg: VolumeID, p: Uuid) {
    forall i, j | 0 <= i < |segs| && 0 <= j < |Mine(segs, vpg, p)| :: !DerivedFrom(segs[i], Mine(segs, vpg, p)[j])
  }

  /** What an allocation, a deletion or anything else means for one reserved pRaid. */
  ghost predicate Moves(a: Stage, b: Stage, vpg: VolumeID, pool: Pool, m: Move) {
    && (forall i | 0 <= i < |pool.disks| :: pool.disks[i] in a.lists && pool.disks[i] in b.lists)
    && Step(ListsOn(a.lists, pool), ListsOn(b.lists, pool), vpg, pool.pRaid, m)
  }

  ghost predicate Happens(vpg: VolumeID, a: Stage, b: Stage, e: GroupEvent) {
    match e
    case Moved =>
      && SameDrives(a, b) && b.db.chunks == a.db.chunks
      && (forall pool | Aligned(a.db, a.lists, vpg, pool) :: exists m :: Moves(a, b, vpg, pool, m))
    case NewReservation(pool) =>
      && SameDrives(a, b) && |b.db.chunks| == |a.db.chunks| + 1 && b.db.chunks[..|a.db.chunks|] == a.db.chunks
      && pool.rows == [|a.db.chunks|] && IsNew(b, vpg, pool)
      && (forall other | Aligned(a.db, a.lists, vpg, other) :: Moves(a, b, vpg, other, Other))
    case Reclaimed(names, multiplier, actions, end) => ReclaimedInOrder(vpg, a, b, names, multiplier, actions, end)
  }

  /** A reclaim ran to its end, crashed or not, and the drives of each reserved pRaid were cut in one order. */
  ghost predicate ReclaimedInOrder(vpg: VolumeID, a: Stage, b: Stage, names: Names, multiplier: int,
                                   actions: seq<Action>, end: State) {
    var job := Job(a.db, vpg, names, multiplier);
    && FreshFor(a.db, names) && Uniform(a.db.chunks)
    && IsRun(job, Initial(job), actions) && After(job, Initial(job), actions) == end && end.phase == Done
    && b.db == end.db && b.lists == ListsAfter(job, a.lists, actions)
    && (forall pool | Aligned(a.db, a.lists, vpg, pool) :: OneOrder(job, a.lists, actions, pool))
  }

  ghost predicate IsGroupHistory(vpg: VolumeID, stages: seq<Stage>, events: seq<GroupEvent>) {
    && |stages| == |events| + 1
    && (forall i | 0 <= i < |stages| :: IsStage(vpg, stages[i]))
    && (forall i | 0 <= i < |events| :: Happens(vpg, stages[i], stages[i + 1], events[i]))
  }

  // --------------------------------------------------------- allocations, deletions

  lemma StepKeepsMine(a: seq<Listing>, b: seq<Listing>, vpg: VolumeID, p: Uuid, m: Move, k: int)
    requires UsedAlike(a, vpg, p) && Step(a, b, vpg, p, m) && 0 <= k < |a|
    ensures |b| == |a| && Mine(b[k].segs, vpg, p) == Mine(a[k].segs, vpg, p)
  {
    hide SoundList, Alike, TakesAt, KeepPRaids, Mine;
    match m
    case Allocate(q, blocks) => TakenSound(a[k], b[k], vpg, p, q, blocks);
    case Delete(gone) => KeepMine(a[k].segs, gone, vpg, p);
    case Other => assert Untouched(a[k], b[k], vpg, p);
  }

  lemma MoveKeepsPool(vpg: VolumeID, a: Stage, b: Stage, pool: Pool, m: Move)
    requires Backed(vpg, a, pool) && Moves(a, b, vpg, pool, m)
    requires |a.db.chunks| <= |b.db.chunks| && b.db.chunks[..|a.db.chunks|] == a.db.chunks
    ensures Backed(vpg, b, pool)
  {
    var before, after := ListsOn(a.lists, pool), ListsOn(b.lists, pool);
    StepKeepsUsedAlike(before, after, vpg, pool.pRaid, m);
    forall i | 0 <= i < |pool.disks| ensures DriveAligned(b.db.chunks, b.lists[pool.disks[i]], vpg, pool, i) {
      assert DriveAligned(a.db.chunks, a.lists[pool.disks[i]], vpg, pool, i);
      hide Step, UsedAlike, Mine, Aligned;
      StepKeepsMine(before, after, vpg, pool.pRaid, m, i);
      MoreRows(a.db.chunks, b.db.chunks, a.lists[pool.disks[i]], b.lists[pool.disks[i]], vpg, pool, i);
    }
    hide Step, UsedAlike, DriveAligned;
  }

  lemma MoreRows(before: seq<Chunk>, after: seq<Chunk>, a: seq<Segment>, b: seq<Segment>, vpg: VolumeID, pool: Pool,
                 i: int)
    requires |before| <= |after| && after[..|before|] == before && DriveAligned(before, a, vpg, pool, i)
    requires Mine(b, vpg, pool.pRaid) == Mine(a, vpg, pool.pRaid)
    ensures DriveAligned(after, b, vpg, pool, i)
  {
    hide Mine;
    var m := Mine(a, vpg, pool.pRaid);
    forall j | 0 <= j < |m| ensures InRow(after, pool.rows[j], |pool.disks|, i, m[j]) {
      assert InRow(before, pool.rows[j], |pool.disks|, i, m[j]);
      assert after[pool.rows[j]] == before[pool.rows[j]];
    }
  }

  lemma MovedStaysGrounded(vpg: VolumeID, a: Stage, b: Stage, pools: seq<Pool>)
    requires Grounded(vpg, a, pools) && Happens(vpg, a, b, Moved)
    ensures Grounded(vpg, b, pools)
  {
    hide Aligned, UsedAlike, Moves, InPool;
    forall x | 0 <= x < |pools| ensures Backed(vpg, b, pools[x]) {
      assert Backed(vpg, a, pools[x]);
      assert Aligned(a.db, a.lists, vpg, pools[x]);
      var m :| Moves(a, b, vpg, pools[x], m);
      assert b.db.chunks[..|a.db.chunks|] == a.db.chunks;
      MoveKeepsPool(vpg, a, b, pools[x], m);
    }
  }

  // -------------------------------------------------------------- reservations

  lemma NewIsBacked(vpg: VolumeID, b: Stage, pool: Pool)
    requires IsStage(vpg, b) && IsNew(b, vpg, pool)
    ensures Backed(vpg, b, pool)
  {
    var lists := ListsOn(b.lists, pool);
    var blocks := Mine(lists[0].segs, vpg, pool.pRaid)[0].Span().Blocks();
    hide Agreeing, Listed, Mine, SoundList, Uses;
    forall i | 0 <= i < |lists|
      ensures SoundList(lists[i].segs) && |Mine(lists[i].segs, vpg, pool.pRaid)| == 1
      ensures Mine(lists[i].segs, vpg, pool.pRaid)[0].Span().Blocks() == blocks
      ensures Uses(lists[i].segs, Mine(lists[i].segs, vpg, pool.pRaid)[0]) == {}
    {
      PoolHas(b.db, b.lists, vpg, pool, i);
      PoolHas(b.db, b.lists, vpg, pool, 0);
      NewLengths(vpg, b, pool, i);
      StageSound(vpg, b, pool.disks[i]);
      NobodyUses(lists[i].segs, vpg, pool.pRaid);
    }
    FreshIsUsedAlike(lists, vpg, pool.pRaid, blocks);
  }

  lemma NobodyUses(segs: seq<Segment>, vpg: VolumeID, p: Uuid)
    requires NothingDerived(segs, vpg, p) && |Mine(segs, vpg, p)| == 1
    ensures Uses(segs, Mine(segs, vpg, p)[0]) == {}
  {
    hide Mine;
  }

  lemma StageSound(vpg: VolumeID, b: Stage, d: DiskID)
    requires IsStage(vpg, b) && d in b.lists
    ensures SoundList(b.lists[d])
  {
    assert ValidDoc(b.db.drives[d]) && Lists(b.lists[d], b.db.drives[d].segs);
    hide Agreeing, ValidDoc, Lists;
    ValidIsSound(b.lists[d], b.db.drives[d]);
  }

  lemma NewLengths(vpg: VolumeID, b: Stage, pool: Pool, i: int)
    requires IsStage(vpg, b) && Aligned(b.db, b.lists, vpg, pool) && |pool.rows| == 1 && 0 <= i < |pool.disks|
    requires pool.disks[i] in b.lists && |Mine(b.lists[pool.disks[i]], vpg, pool.pRaid)| == 1
    requires pool.disks[0] in b.lists && |Mine(b.lists[pool.disks[0]], vpg, pool.pRaid)| == 1
    ensures Mine(b.lists[pool.disks[i]], vpg, pool.pRaid)[0].Span().Blocks()
            == Mine(b.lists[pool.disks[0]], vpg, pool.pRaid)[0].Span().Blocks()
  {
    assert DriveAligned(b.db.chunks, b.lists[pool.disks[i]], vpg, pool, i);
    assert DriveAligned(b.db.chunks, b.lists[pool.disks[0]], vpg, pool, 0);
    hide Mine, Aligned;
    var s, r := Mine(b.lists[pool.disks[i]], vpg, pool.pRaid)[0], Mine(b.lists[pool.disks[0]], vpg, pool.pRaid)[0];
    var c := pool.rows[0];
    assert InRow(b.db.chunks, c, |pool.disks|, i, s) && InRow(b.db.chunks, c, |pool.disks|, 0, r);
    hide DriveAligned;
    SameLength(b.db.chunks, c, i, s);
    SameLength(b.db.chunks, c, 0, r);
  }

  lemma SameLength(chunks: seq<Chunk>, c: int, i: int, s: Segment)
    requires Uniform(chunks) && 0 <= c < |chunks| && |chunks[c].pRaids| == 1 && 0 <= i < |chunks[c].pRaids[0]|
    requires chunks[c].pRaids[0][i] == s
    ensures HasRef(chunks[c]) && s.Span().Blocks() == Ref(chunks[c]).Span().Blocks()
  {
    assert Pos(chunks, c, 0, i) && At(chunks, c, 0, i) == s;
  }

  lemma ReservedStaysGrounded(vpg: VolumeID, a: Stage, b: Stage, pools: seq<Pool>, pool: Pool)
    requires IsStage(vpg, b) && Grounded(vpg, a, pools) && Happens(vpg, a, b, NewReservation(pool))
    ensures Grounded(vpg, b, pools + [pool])
  {
    hide Aligned, UsedAlike, Moves, IsStage, NothingDerived;
    NewIsBacked(vpg, b, pool);
    forall x | 0 <= x < |pools| ensures Backed(vpg, b, pools[x]) {
      assert Backed(vpg, a, pools[x]);
      assert Aligned(a.db, a.lists, vpg, pools[x]);
      MoveKeepsPool(vpg, a, b, pools[x], Other);
    }
    hide Backed;
    forall c | 0 <= c < |b.db.chunks| ensures InSomePool(pools + [pool], c) {
      if c < |a.db.chunks| {
        assert InSomePool(pools, c);
        var x :| InPool(pools, x, c);
        assert InPool(pools + [pool], x, c);
      } else {
        assert InPool(pools + [pool], |pools|, c);
      }
    }
  }

  // ------------------------------------------------------------------ reclaims

  ghost function PoolsAfter(job: Job, lists: DriveLists, actions: seq<Action>, pools: seq<Pool>): (r: seq<Pool>)
    requires Uniform(job.start.chunks)
    requires forall x | 0 <= x < |pools| :: OnDrives(job, lists, pools[x]) && pools[x].disks != []
    ensures |r| == |pools|
    ensures forall x | 0 <= x < |r| :: r[x] == PoolAfter(job, pools[x], TheOrder(job, lists, actions, pools[x]))
  {
    seq(|pools|, x requires 0 <= x < |pools| => PoolAfter(job, pools[x], TheOrder(job, lists, actions, pools[x])))
  }

  lemma PoolOfOrder(job: Job, lists: DriveLists, actions: seq<Action>, pool: Pool)
    requires Uniform(job.start.chunks) && Aligned(job.start, lists, job.vpg, pool)
    requires OneOrder(job, lists, actions, pool)
    ensures OnDrives(job, lists, pool) && pool.disks != []
  {
    hide DriveAligned, OrderOn;
  }

  lemma ReclaimedPool(job: Job, a: Stage, b: Stage, actions: seq<Action>, end: State, pool: Pool)
    requires Reclaims(job, a.lists, actions, end) && job.start == a.db && Backed(job.vpg, a, pool)
    requires OneOrder(job, a.lists, actions, pool) && b == Stage(end.db, ListsAfter(job, a.lists, actions))
    ensures OnDrives(job, a.lists, pool) && pool.disks != []
    ensures Backed(job.vpg, b, PoolAfter(job, pool, TheOrder(job, a.lists, actions, pool)))
  {
    ReclaimsListed(job, a.lists, actions, end);
    hide Reclaims, Aligned, UsedAlike, OneOrder, OnDrives, ListsAfter, PoolAfter, TheOrder;
    PoolOfOrder(job, a.lists, actions, pool);
    ReclaimKeepsAligned(job, a.lists, actions, end, pool);
    ReclaimKeepsUsedAlike(job, a.lists, actions, end, pool);
    SameLists(b.lists, pool, PoolAfter(job, pool, TheOrder(job, a.lists, actions, pool)), job, a.lists, actions);
  }

  lemma SameLists(after: DriveLists, pool: Pool, next: Pool, job: Job, lists: DriveLists, actions: seq<Action>)
    requires Uniform(job.start.chunks) && OnDrives(job, lists, pool) && after == ListsAfter(job, lists, actions)
    requires pool.disks != [] && next == PoolAfter(job, pool, TheOrder(job, lists, actions, pool))
    ensures next.pRaid == pool.pRaid && next.disks == pool.disks
    ensures (forall i | 0 <= i < |pool.disks| :: pool.disks[i] in after)
            && ListsOn(after, next) == ListsOn(after, pool)
  {
    hide TheOrder, Undone, Together, KeptRows, SplitRows;
  }

  lemma ChunkOrigin(job: Job, db: Db, x: int)
    requires GoodJob(job) && Outcome(job, db) && 0 <= x < |db.chunks|
    ensures 0 <= x < |AllOrigins(job)| && 0 <= AllOrigins(job)[x].c < |job.start.chunks|
    ensures ValidOrigin(job.start.chunks, job.start.volumes, AllOrigins(job)[x])
  {
    OriginsOfPlan(job, db);
    hide GoodJob, Outcome, Origins, OriginPRaids, ValidOrigin;
    OriginBelow(job, AllOrigins(job)[x]);
  }

  lemma ReclaimedChunks(job: Job, a: Stage, actions: seq<Action>, end: State, pools: seq<Pool>, x: int)
    requires Reclaims(job, a.lists, actions, end) && job.start == a.db && Grounded(job.vpg, a, pools)
    requires forall y | 0 <= y < |pools| :: OneOrder(job, a.lists, actions, pools[y])
    requires forall y | 0 <= y < |pools| :: OnDrives(job, a.lists, pools[y]) && pools[y].disks != []
    requires 0 <= x < |end.db.chunks|
    ensures Uniform(job.start.chunks) && InSomePool(PoolsAfter(job, a.lists, actions, pools), x)
  {
    hide Reclaims, Backed, OneOrder, OnDrives, PoolAfter, TheOrder, ValidOrigin, Outcome, GoodJob, AllOrigins;
    ReclaimOutcomeOf(job, a.lists, actions, end);
    ReclaimsListed(job, a.lists, actions, end);
    ChunkOrigin(job, end.db, x);
    var o := AllOrigins(job)[x];
    assert InSomePool(pools, o.c);
    var y :| InPool(pools, y, o.c);
    assert Backed(job.vpg, a, pools[y]);
    NewRowIn(job, a, actions, end, pools[y], x);
    assert InPool(PoolsAfter(job, a.lists, actions, pools), y, x);
  }

  lemma NewRowIn(job: Job, a: Stage, actions: seq<Action>, end: State, pool: Pool, x: int)
    requires Reclaims(job, a.lists, actions, end) && job.start == a.db && Backed(job.vpg, a, pool)
    requires OnDrives(job, a.lists, pool) && pool.disks != []
    requires Uniform(job.start.chunks) && 0 <= x < |AllOrigins(job)| && AllOrigins(job)[x].c in pool.rows
    requires ValidOrigin(job.start.chunks, job.start.volumes, AllOrigins(job)[x])
    ensures x in PoolAfter(job, pool, TheOrder(job, a.lists, actions, pool)).rows
  {
    hide Reclaims, OnDrives, UsedAlike, Aligned, PoolAfter, TheOrder, ValidOrigin, AllOrigins;
    NewRowBacked(job, a.lists, actions, end, pool, x);
  }

  lemma ReclaimedRuns(vpg: VolumeID, a: Stage, b: Stage, pools: seq<Pool>, e: GroupEvent)
    requires IsStage(vpg, a) && Grounded(vpg, a, pools) && e.Reclaimed? && Happens(vpg, a, b, e)
    ensures var job := Job(a.db, vpg, e.names, e.multiplier);
            && Reclaims(job, a.lists, e.actions, e.end) && b == Stage(e.end.db, ListsAfter(job, a.lists, e.actions))
            && (forall x | 0 <= x < |pools| :: OneOrder(job, a.lists, e.actions, pools[x]))
  {
    var job := Job(a.db, vpg, e.names, e.multiplier);
    GroundedIsConsistent(vpg, a, pools);
    hide Agreeing, SharedGaps, FreshFor, IsRun, After, Aligned, UsedAlike, OneOrder, Listed, ListsAfter;
    forall x | 0 <= x < |pools| ensures OneOrder(job, a.lists, e.actions, pools[x]) {
      assert Backed(vpg, a, pools[x]);
      assert Aligned(a.db, a.lists, vpg, pools[x]);
    }
    assert GoodJob(job);
  }

  lemma ReclaimedStaysGrounded(vpg: VolumeID, a: Stage, b: Stage, pools: seq<Pool>, e: GroupEvent)
    returns (after: seq<Pool>)
    requires IsStage(vpg, a) && Grounded(vpg, a, pools) && e.Reclaimed? && Happens(vpg, a, b, e)
    ensures Grounded(vpg, b, after)
  {
    ReclaimedRuns(vpg, a, b, pools, e);
    var job := Job(a.db, vpg, e.names, e.multiplier);
    ReclaimsListed(job, a.lists, e.actions, e.end);
    hide Happens, Reclaims, OneOrder, OnDrives, Backed, IsStage, PoolAfter, TheOrder, ListsAfter, GoodJob, InPool;
    forall x | 0 <= x < |pools|
      ensures OnDrives(job, a.lists, pools[x]) && pools[x].disks != []
      ensures Backed(vpg, b, PoolAfter(job, pools[x], TheOrder(job, a.lists, e.actions, pools[x])))
    {
      ReclaimedPool(job, a, b, e.actions, e.end, pools[x]);
    }
    after := PoolsAfter(job, a.lists, e.actions, pools);
    forall c | 0 <= c < |b.db.chunks| ensures InSomePool(after, c) {
      ReclaimedChunks(job, a, e.actions, e.end, pools, c);
    }
  }

  // ---------------------------------------------------------------- the history

  lemma StepStaysGrounded(vpg: VolumeID, a: Stage, b: Stage, pools: seq<Pool>, e: GroupEvent) returns (after: seq<Pool>)
    requires IsStage(vpg, a) && IsStage(vpg, b) && Grounded(vpg, a, pools) && Happens(vpg, a, b, e)
    ensures Grounded(vpg, b, after)
  {
    hide IsStage, Grounded, Happens;
    match e
    case Moved =>
      MovedStaysGrounded(vpg, a, b, pools);
      after := pools;
    case NewReservation(pool) =>
      ReservedStaysGrounded(vpg, a, b, pools, pool);
      after := pools + [pool];
    case Reclaimed(_, _, _, _) =>
      after := ReclaimedStaysGrounded(vpg, a, b, pools, e);
  }

  lemma {:induction false} HistoryGrounds(vpg: VolumeID, stages: seq<Stage>, events: seq<GroupEvent>, n: nat)
    returns (pools: seq<Pool>)
    requires IsGroupHistory(vpg, stages, events) && stages[0].db.chunks == [] && n <= |events|
    ensures Grounded(vpg, stages[n], pools)
    decreases n
  {
    if n == 0 {
      pools := [];
    } else {
      var before := HistoryGrounds(vpg, stages, events, n - 1);
      hide Grounded, Happens, IsStage;
      pools := StepStaysGrounded(vpg, stages[n - 1], stages[n], before, events[n - 1]);
    }
  }

  /** From a group without reserved space, over every history of reservations, allocations, deletions, changes elsewhere
      and reclaims whose drives were cut in one order, the documents that agree also share their gaps: every reclaim
      finds what it rests on. */
  lemma HistoryIsConsistent(vpg: VolumeID, stages: seq<Stage>, events: seq<GroupEvent>, n: nat)
    requires IsGroupHistory(vpg, stages, events) && stages[0].db.chunks == [] && n <= |events|
    ensures Consistent(stages[n].db, vpg)
  {
    var pools := HistoryGrounds(vpg, stages, events, n);
    hide Grounded, Happens, Consistent;
    GroundedIsConsistent(vpg, stages[n], pools);
  }

  // ------------------------------------------------- which reclaims are in order

  /** A reclaim of the documents of a stage, from its start to its end. */
  ghost predicate ReclaimedFrom(vpg: VolumeID, a: Stage, b: Stage, names: Names, multiplier: int,
                                actions: seq<Action>, end: State) {
    var job := Job(a.db, vpg, names, multiplier);
    Reclaims(job, a.lists, actions, end) && Uniform(a.db.chunks)
        && b == Stage(end.db, ListsAfter(job, a.lists, actions))
  }

  lemma InOrderHappens(vpg: VolumeID, a: Stage, b: Stage, names: Names, multiplier: int, actions: seq<Action>,
                       end: State)
    requires ReclaimedFrom(vpg, a, b, names, multiplier, actions, end)
    requires var job := Job(a.db, vpg, names, multiplier);
             forall pool | Aligned(a.db, a.lists, vpg, pool) :: OneOrder(job, a.lists, actions, pool)
    ensures Happens(vpg, a, b, Reclaimed(names, multiplier, actions, end))
  {
    hide Consistent, FreshFor, IsRun, After, Aligned, OneOrder, ListsAfter, Listed;
  }

  /** A reclaim that goes through its plan without a crash is one of the events. */
  lemma UninterruptedHappens(vpg: VolumeID, a: Stage, b: Stage, names: Names, multiplier: int, actions: seq<Action>,
                             end: State)
    requires ReclaimedFrom(vpg, a, b, names, multiplier, actions, end)
    requires WorkedItems(actions) == PlanItems(Job(a.db, vpg, names, multiplier))
    ensures Happens(vpg, a, b, Reclaimed(names, multiplier, actions, end))
  {
    var job := Job(a.db, vpg, names, multiplier);
    forall pool | Aligned(a.db, a.lists, vpg, pool) ensures OneOrder(job, a.lists, actions, pool) {
      hide Reclaims, Aligned, OneOrder, ListsAfter, WorkedItems, PlanItems;
      PlanGivesOneOrder(job, a.lists, actions, end, pool);
    }
    hide ReclaimedFrom, Aligned, OneOrder, Happens;
    InOrderHappens(vpg, a, b, names, multiplier, actions, end);
  }

  /** So is one that crashes, when the lists of every reserved pRaid follow the chunks. */
  lemma InterruptedHappens(vpg: VolumeID, a: Stage, b: Stage, names: Names, multiplier: int, n: int,
                           before: seq<Action>, after: seq<Action>, ds: seq<DiskID>, end: State)
    requires ReclaimedFrom(vpg, a, b, names, multiplier, before + [Crash] + after, end)
    requires Interrupted(Job(a.db, vpg, names, multiplier), a.lists, n, before, after, ds, end)
    requires forall pool | Aligned(a.db, a.lists, vpg, pool) :: InOrder(Job(a.db, vpg, names, multiplier), pool)
    ensures Happens(vpg, a, b, Reclaimed(names, multiplier, before + [Crash] + after, end))
  {
    var job := Job(a.db, vpg, names, multiplier);
    forall pool | Aligned(a.db, a.lists, vpg, pool) ensures OneOrder(job, a.lists, before + [Crash] + after, pool) {
      hide Interrupted, Aligned, OneOrder, ListsAfter, Reclaims, InOrder;
      InOrderIsHarmless(job, a.lists, n, before, after, ds, end, pool);
    }
    hide ReclaimedFrom, Aligned, OneOrder, Happens;
    InOrderHappens(vpg, a, b, names, multiplier, before + [Crash] + after, end);
  }
}
