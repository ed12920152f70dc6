/** A reserved pRaid and the chunks it backs: one reserved segment per chunk on each of its drives, at one position of
    their lists. A reclaim keeps the drives used alike if and only if it cuts them in one order, and then leaves the
    new chunks backed in the same way. */
module ReclaimPools {
  import opened Ranges
  import opened Drives
  import opened DriveStore
  import opened Orders
  import opened Chunks
  import opened ReclaimPlan
  import opened Reclaim
  import opened ReclaimFlags
  import opened ReclaimRun
  import opened ReclaimSafety
  import opened ReclaimOutcome
  import opened ReservedSpace
  import opened SharedGapsHistory
  import opened ReclaimMoves
  import opened ReclaimOrder
  import opened ReclaimAlike
  import opened ReclaimLists

  type DriveLists = map<DiskID, seq<Segment>>

  /** A reserved pRaid, its drives, and for each position of their lists the chunk it backs. */
  datatype Pool = Pool(pRaid: Uuid, disks: seq<DiskID>, rows: seq<int>)

  ghost predicate Listed(db: Db, lists: DriveLists) {
    lists.Keys == db.drives.Keys && forall d | d in lists :: Lists(lists[d], db.drives[d].segs)
  }

  /** The chunk has one pRaid over `n` drives, and segment `s` is the one on drive `i`. */
  ghost predicate InRow(chunks: seq<Chunk>, c: int, n: int, i: int, s: Segment) {
    && 0 <= c < |chunks| && |chunks[c].pRaids| == 1 && |chunks[c].pRaids[0]| == n
    && 0 <= i < n && chunks[c].pRaids[0][i] == s
  }

  ghost predicate DriveAligned(chunks: seq<Chunk>, segs: seq<Segment>, vpg: VolumeID, pool: Pool, i: int) {
    var m := Mine(segs, vpg, pool.pRaid);
    |m| == |pool.rows| && forall j | 0 <= j < |m| :: InRow(chunks, pool.rows[j], |pool.disks|, i, m[j])
  }

  ghost predicate Aligned(db: Db, lists: DriveLists, vpg: VolumeID, pool: Pool) {
    && NoneTwice(pool.disks) && pool.disks != []
    && (forall i | 0 <= i < |pool.disks| ::
          pool.disks[i] in lists && DriveAligned(db.chunks, lists[pool.disks[i]], vpg, pool, i))
  }

  /** The lists of the drives of a pool. */
  function ListsOn(lists: DriveLists, pool: Pool): (r: seq<Listing>)
    requires forall i | 0 <= i < |pool.disks| :: pool.disks[i] in lists
    ensures |r| == |pool.disks|
    ensures forall i | 0 <= i < |r| :: r[i] == Listing(pool.disks[i], lists[pool.disks[i]])
  {
    seq(|pool.disks|, i requires 0 <= i < |pool.disks| => Listing(pool.disks[i], lists[pool.disks[i]]))
  }

  // -------------------------------------------------- what the plan does to a row

  lemma RowPos(chunks: seq<Chunk>, c: int, n: int, i: int, s: Segment)
    requires InRow(chunks, c, n, i, s)
    ensures Pos(chunks, c, 0, i) && At(chunks, c, 0, i) == s
  {
  }

  ghost predicate RowKept(job: Job, c: int)
    requires Uniform(job.start.chunks)
  {
    0 <= c < |job.start.chunks| && KeptWhole(job.start.chunks[c], job.start.volumes)
  }

  ghost predicate RowSplit(job: Job, c: int)
    requires Uniform(job.start.chunks)
  {
    0 <= c < |job.start.chunks| && SplitUp(job.start.chunks[c], job.start.volumes)
  }

  /** The used groups of a chunk that is split, by their offset in each of its segments. */
  ghost function RowGroups(job: Job, c: int): seq<Range>
    requires Uniform(job.start.chunks)
  {
    if RowSplit(job, c)
    then ShiftAll(GroupsOf(job.start.chunks[c], job.start.volumes), -Ref(job.start.chunks[c]).lbs)
    else []
  }

  /** The cut of a segment follows the decision on its chunk. */
  lemma RowCut(job: Job, segs: seq<Segment>, d: DiskID, c: int, n: int, i: int, s: Segment)
    requires GoodJob(job) && InRow(job.start.chunks, c, n, i, s)
    requires d in job.start.drives && Lists(segs, job.start.drives[d].segs) && s in segs
    ensures s.uuid in CutsOn(job, d) <==> !RowKept(job, c)
    ensures CutOf(CutsOn(job, d), s.uuid).groups == RowGroups(job, c)
    ensures CutOf(CutsOn(job, d), s.uuid).pieces == if RowSplit(job, c) then RepsFor(job.start, job.names, c, s) else []
  {
    var db := job.start;
    RowPos(db.chunks, c, n, i, s);
    FlagOfChunk(db, job.vpg, job.names, job.multiplier, c, 0, i);
    var k :| 0 <= k < |segs| && segs[k] == s;
    assert s.uuid in db.drives[d].segs && db.drives[d].segs[s.uuid] == s;
    var flag := FlagFor(PlanOf(job), s);
    assert flag == ExpectedFlag(db, job.names, c, s);
    hide GoodJob, PlanOf, FlagFor, Lists;
    ExpectedCut(job, c, s);
  }

  lemma ExpectedCut(job: Job, c: int, s: Segment)
    requires Uniform(job.start.chunks) && 0 <= c < |job.start.chunks|
    ensures var flag := ExpectedFlag(job.start, job.names, c, s);
            && (flag.Idle? <==> RowKept(job, c))
            && CutOfFlag(s, flag).groups == RowGroups(job, c)
            && CutOfFlag(s, flag).pieces == if RowSplit(job, c) then RepsFor(job.start, job.names, c, s) else []
  {
    hide GroupsOf, TotalBlocks, RangesNaming;
    if RowSplit(job, c) {
      ExpectedReps(job.start, job.names, c, s);
      var reps, groups := RepsFor(job.start, job.names, c, s), GroupsOf(job.start.chunks[c], job.start.volumes);
      var moved := ShiftAll(groups, -Ref(job.start.chunks[c]).lbs);
      forall g | 0 <= g < |reps| ensures OffsetsIn(s, reps)[g] == moved[g] {
      }
    }
  }

  lemma MineInList(segs: seq<Segment>, vpg: VolumeID, p: Uuid, j: int)
    requires 0 <= j < |Mine(segs, vpg, p)|
    ensures Mine(segs, vpg, p)[j] in segs
  {
    MineHas(segs, vpg, p);
    hide Mine;
    assert Mine(segs, vpg, p)[j] in Mine(segs, vpg, p);
  }

  lemma PoolHas(db: Db, lists: DriveLists, vpg: VolumeID, pool: Pool, i: int)
    requires Aligned(db, lists, vpg, pool) && 0 <= i < |pool.disks|
    ensures pool.disks[i] in lists && |Mine(lists[pool.disks[i]], vpg, pool.pRaid)| == |pool.rows|
    ensures Listed(db, lists) ==> pool.disks[i] in db.drives
  {
    hide Lists, Mine, InRow;
    assert DriveAligned(db.chunks, lists[pool.disks[i]], vpg, pool, i);
  }

  /** Position `j` of a drive of the pool is cut as its chunk says. */
  lemma PoolCut(job: Job, lists: DriveLists, pool: Pool, i: int, j: int)
    requires GoodJob(job) && Listed(job.start, lists) && Aligned(job.start, lists, job.vpg, pool)
    requires 0 <= i < |pool.disks| && 0 <= j < |pool.rows|
    ensures var d := pool.disks[i];
            var m, cuts := Mine(lists[d], job.vpg, pool.pRaid), CutsOn(job, d);
            && |m| == |pool.rows| && InRow(job.start.chunks, pool.rows[j], |pool.disks|, i, m[j])
            && (m[j].uuid in cuts <==> !RowKept(job, pool.rows[j]))
            && CutOf(cuts, m[j].uuid).groups == RowGroups(job, pool.rows[j])
            && CutOf(cuts, m[j].uuid).pieces
               == if RowSplit(job, pool.rows[j]) then RepsFor(job.start, job.names, pool.rows[j], m[j]) else []
  {
    var d := pool.disks[i];
    var m := Mine(lists[d], job.vpg, pool.pRaid);
    assert DriveAligned(job.start.chunks, lists[d], job.vpg, pool, i);
    MineInList(lists[d], job.vpg, pool.pRaid, j);
    hide GoodJob, Aligned, Mine, CutsOn, RowKept, RowGroups, RowSplit;
    RowCut(job, lists[d], d, pool.rows[j], |pool.disks|, i, m[j]);
  }

  // -------------------------------------------------------- the same work everywhere

  /** The reclaim ran to its end on documents in these lists. */
  ghost predicate Reclaims(job: Job, lists: DriveLists, actions: seq<Action>, s: State) {
    Reaches(job, actions, s) && s.phase == Done && Listed(job.start, lists)
  }

  ghost function ListsAfter(job: Job, lists: DriveLists, actions: seq<Action>): (r: DriveLists)
    requires Uniform(job.start.chunks)
    ensures r.Keys == lists.Keys && forall d | d in r :: r[d] == ListAfter(job, d, lists[d], actions)
  {
    map d | d in lists :: ListAfter(job, d, lists[d], actions)
  }

  /** The order in which drive `i` of the pool cuts its segments, by position. */
  ghost function OrderOn(job: Job, lists: DriveLists, actions: seq<Action>, pool: Pool, i: int): seq<int>
    requires Uniform(job.start.chunks) && 0 <= i < |pool.disks| && pool.disks[i] in lists
    requires pool.disks[i] in job.start.drives
  {
    var d := pool.disks[i];
    CutOrder(Mine(lists[d], job.vpg, pool.pRaid), WorkedOn(actions, d), CutsOn(job, d))
  }

  lemma PlacesAre(m: seq<Segment>, us: seq<Uuid>, j: int)
    requires DistinctIds(m) && 0 <= j < |m|
    ensures j in PlacesOf(m, us) <==> m[j].uuid in UuidSet(us)
  {
    PlacesHave(m, us, j);
    hide PlacesOf, PlaceOf;
    if t :| StandsAt(m, us, t, j) {
      StandsThere(m, us, t, j);
    }
    if m[j].uuid in UuidSet(us) {
      var t :| 0 <= t < |us| && us[t] == m[j].uuid;
      PlaceAt(m, j);
      assert StandsAt(m, us, t, j);
    }
  }

  lemma StandsThere(m: seq<Segment>, us: seq<Uuid>, t: int, j: int)
    requires StandsAt(m, us, t, j)
    ensures 0 <= j < |m| && us[t] == m[j].uuid && m[j].uuid in UuidSet(us)
  {
    assert us[t] in us;
  }

  lemma PlacesInRange(m: seq<Segment>, us: seq<Uuid>, j: int)
    requires j in PlacesOf(m, us)
    ensures 0 <= j < |m|
  {
    PlacesHave(m, us, j);
    hide PlacesOf, PlaceOf;
    var t :| StandsAt(m, us, t, j);
    StandsThere(m, us, t, j);
  }

  /** Which positions of the pool are worked off, on any of its drives: those of the chunks that are not kept. */
  ghost function Worked(job: Job, pool: Pool): set<int>
    requires Uniform(job.start.chunks)
  {
    set j | 0 <= j < |pool.rows| && !RowKept(job, pool.rows[j])
  }

  lemma PoolPlaces(job: Job, lists: DriveLists, actions: seq<Action>, s: State, pool: Pool, i: int)
    requires Reclaims(job, lists, actions, s) && Aligned(job.start, lists, job.vpg, pool) && 0 <= i < |pool.disks|
    ensures var d := pool.disks[i];
            && d in job.start.drives
            && SetOf(PlacesOf(Mine(lists[d], job.vpg, pool.pRaid), WorkedOn(actions, d))) == Worked(job, pool)
  {
    var d := pool.disks[i];
    PoolDrive(job, lists, actions, s, pool, i);
    hide *;
    forall j ensures j in PlacesOf(Mine(lists[d], job.vpg, pool.pRaid), WorkedOn(actions, d))
                <==> j in Worked(job, pool) {
      PoolPlace(job, lists, actions, s, pool, i, j);
    }
    SameAsSet(PlacesOf(Mine(lists[d], job.vpg, pool.pRaid), WorkedOn(actions, d)), Worked(job, pool));
  }

  lemma SameAsSet(order: seq<int>, done: set<int>)
    requires forall j :: j in order <==> j in done
    ensures SetOf(order) == done
  {
    assert forall j :: j in SetOf(order) <==> j in done;
  }

  /** What is known of a drive of the pool after the reclaim. */
  lemma PoolDrive(job: Job, lists: DriveLists, actions: seq<Action>, s: State, pool: Pool, i: int)
    requires Reclaims(job, lists, actions, s) && Aligned(job.start, lists, job.vpg, pool) && 0 <= i < |pool.disks|
    ensures var d := pool.disks[i];
            && GoodJob(job) && d in job.start.drives && Lists(lists[d], job.start.drives[d].segs)
            && |Mine(lists[d], job.vpg, pool.pRaid)| == |pool.rows|
            && DistinctIds(Mine(lists[d], job.vpg, pool.pRaid)) && SoundList(lists[d])
            && UuidSet(WorkedOn(actions, d)) == CutsOn(job, d).Keys
            && WorksOff(Listing(d, lists[d]), WorkedOn(actions, d), CutsOn(job, d))
            && ListAfter(job, d, lists[d], actions) == AllOff(lists[d], WorkedOn(actions, d), CutsOn(job, d))
            && d in s.db.drives && Lists(ListAfter(job, d, lists[d], actions), s.db.drives[d].segs)
  {
    var d := pool.disks[i];
    assert DriveAligned(job.start.chunks, lists[d], job.vpg, pool, i);
    hide IsRun, After, GoodJob, CutsOn, Mine, Lists, SoundList, Cuttable;
    FinishedList(job, actions, s, d, lists[d]);
    MineDistinctIds(lists[d], job.vpg, pool.pRaid);
  }

  lemma WorkedHas(job: Job, pool: Pool, j: int)
    requires Uniform(job.start.chunks)
    ensures j in Worked(job, pool) <==> 0 <= j < |pool.rows| && !RowKept(job, pool.rows[j])
  {
    hide RowKept;
  }

  lemma ReclaimsListed(job: Job, lists: DriveLists, actions: seq<Action>, s: State)
    requires Reclaims(job, lists, actions, s)
    ensures GoodJob(job) && Listed(job.start, lists)
  {
    hide GoodJob, Listed;
  }

  lemma PoolPlace(job: Job, lists: DriveLists, actions: seq<Action>, s: State, pool: Pool, i: int, j: int)
    requires Reclaims(job, lists, actions, s) && Aligned(job.start, lists, job.vpg, pool) && 0 <= i < |pool.disks|
    ensures j in PlacesOf(Mine(lists[pool.disks[i]], job.vpg, pool.pRaid), WorkedOn(actions, pool.disks[i]))
       <==> j in Worked(job, pool)
  {
    var d := pool.disks[i];
    PoolDrive(job, lists, actions, s, pool, i);
    ReclaimsListed(job, lists, actions, s);
    hide *;
    WorkedHas(job, pool, j);
    var m, us := Mine(lists[d], job.vpg, pool.pRaid), WorkedOn(actions, d);
    if 0 <= j < |m| {
      PoolCut(job, lists, pool, i, j);
      PlacesAre(m, us, j);
    } else if j in PlacesOf(m, us) {
      PlacesInRange(m, us, j);
    }
  }

  lemma PoolGroups(job: Job, lists: DriveLists, pool: Pool, i: int, k: int)
    requires GoodJob(job) && Listed(job.start, lists) && Aligned(job.start, lists, job.vpg, pool)
    requires 0 <= i < |pool.disks| && 0 <= k < |pool.disks|
    ensures var d, e := pool.disks[i], pool.disks[k];
            && d in job.start.drives && e in job.start.drives
            && GroupsAt(Mine(lists[d], job.vpg, pool.pRaid), CutsOn(job, d))
               == GroupsAt(Mine(lists[e], job.vpg, pool.pRaid), CutsOn(job, e))
  {
    hide *;
    PoolHas(job.start, lists, job.vpg, pool, i);
    PoolHas(job.start, lists, job.vpg, pool, k);
    var d, e := pool.disks[i], pool.disks[k];
    var m, n := Mine(lists[d], job.vpg, pool.pRaid), Mine(lists[e], job.vpg, pool.pRaid);
    forall j | 0 <= j < |m| ensures CutOf(CutsOn(job, d), m[j].uuid).groups == CutOf(CutsOn(job, e), n[j].uuid).groups {
      PoolCut(job, lists, pool, i, j);
      PoolCut(job, lists, pool, k, j);
    }
  }

  /** Any two drives of the pool work the same positions off, cut alike. */
  lemma PoolWork(job: Job, lists: DriveLists, actions: seq<Action>, s: State, pool: Pool, i: int, k: int)
    requires Reclaims(job, lists, actions, s) && Aligned(job.start, lists, job.vpg, pool)
    requires 0 <= i < |pool.disks| && 0 <= k < |pool.disks|
    ensures var d, e := pool.disks[i], pool.disks[k];
            && d in job.start.drives && e in job.start.drives
            && SameWork(Listing(d, lists[d]), WorkedOn(actions, d), CutsOn(job, d),
                        Listing(e, lists[e]), WorkedOn(actions, e), CutsOn(job, e), job.vpg, pool.pRaid)
  {
    PoolPlaces(job, lists, actions, s, pool, i);
    PoolPlaces(job, lists, actions, s, pool, k);
    hide IsRun, After, Aligned, Worked, GoodJob, CutsOn, Mine, PlacesOf, SetOf, Listed;
    PoolGroups(job, lists, pool, i, k);
  }

  // ---------------------------------------------------------- every group is used

  lemma GroupHasUse(job: Job, d: DiskID, segs: seq<Segment>, c: int, n: int, i: int, s: Segment, g: int)
    requires GoodJob(job) && InRow(job.start.chunks, c, n, i, s) && RowSplit(job, c)
    requires d in job.start.drives && Lists(segs, job.start.drives[d].segs) && s in segs
    requires 0 <= g < |RowGroups(job, c)|
    ensures HasUse(Uses(segs, s), RowGroups(job, c)[g])
  {
    hide *;
    RowRuns(job, c, n, i, s);
    SegmentDisk(job, d, segs, s);
    GroupIsRun(job, c, s, g);
    RunHasUse(job.start, d, segs, s,
              ShiftAll(GroupsOf(job.start.chunks[c], job.start.volumes), s.lbs - Ref(job.start.chunks[c]).lbs), g);
  }

  lemma RowRuns(job: Job, c: int, n: int, i: int, s: Segment)
    requires GoodJob(job) && InRow(job.start.chunks, c, n, i, s)
    ensures 0 <= c < |job.start.chunks| && HasRef(job.start.chunks[c])
    ensures IsRuns(ShiftAll(GroupsOf(job.start.chunks[c], job.start.volumes), s.lbs - Ref(job.start.chunks[c]).lbs),
                   UsedOf(job.start, s))
    ensures s.diskID in job.start.drives && ValidDoc(job.start.drives[s.diskID])
  {
    hide Agreeing, SharedGaps, FreshFor, IsRuns, UsedOf, GroupsOf, ValidDoc, TotalBlocks, ShiftAll, Dropped, Spans;
    RowPos(job.start.chunks, c, n, i, s);
    ChunkFacts(job.start, job.vpg, c, 0, i);
    RunsOfUse(job.start, job.vpg, job.names, c, 0, i);
  }

  lemma GroupIsRun(job: Job, c: int, s: Segment, g: int)
    requires Uniform(job.start.chunks) && RowSplit(job, c) && 0 <= g < |RowGroups(job, c)|
    ensures var runs := ShiftAll(GroupsOf(job.start.chunks[c], job.start.volumes),
            s.lbs - Ref(job.start.chunks[c]).lbs);
            |runs| == |RowGroups(job, c)|
            && RowGroups(job, c)[g] == Range(runs[g].lbs - s.lbs, runs[g].lbe - s.lbs)
  {
    hide GroupsOf;
  }

  lemma RunHasUse(db: Db, d: DiskID, segs: seq<Segment>, s: Segment, runs: seq<Range>, g: int)
    requires s.diskID == d && d in db.drives && ValidDoc(db.drives[d]) && Lists(segs, db.drives[d].segs)
    requires IsRuns(runs, UsedOf(db, s)) && 0 <= g < |runs|
    ensures HasUse(Uses(segs, s), Range(runs[g].lbs - s.lbs, runs[g].lbe - s.lbs))
  {
    hide UsedOf, ValidDoc, HasUse, Lists;
    assert runs[g].Nonempty() && runs[g].Has(runs[g].lbs);
    assert Covered(runs, runs[g].lbs);
    var x := UseWitness(db, s, runs[g].lbs);
    RunOfUse(db, s, d, runs, g, x);
    UseInList(db, d, segs, s, x, runs[g]);
  }

  lemma SegmentDisk(job: Job, d: DiskID, segs: seq<Segment>, s: Segment)
    requires GoodJob(job) && d in job.start.drives && Lists(segs, job.start.drives[d].segs) && s in segs
    ensures s.diskID == d
  {
    var k :| 0 <= k < |segs| && segs[k] == s;
    assert SegmentSound(d, job.start.drives[d].segs[s.uuid]);
  }

  /** A derived segment at the start of a used run lies in that run. */
  lemma RunOfUse(db: Db, s: Segment, d: DiskID, runs: seq<Range>, g: int, x: Uuid)
    requires s.diskID == d && d in db.drives && ValidDoc(db.drives[d]) && IsRuns(runs, UsedOf(db, s))
    requires 0 <= g < |runs| && x in db.drives[d].segs && runs[g].Nonempty()
    requires var t := db.drives[d].segs[x]; t.fromReserved && t.reservedUUID == s.uuid && t.Span().Has(runs[g].lbs)
    ensures db.drives[d].segs[x].Span().Within(runs[g])
  {
    var doc := db.drives[d];
    var t := doc.segs[x];
    assert WellPlaced(doc, t);
    forall b | t.Span().Has(b) ensures b in UsedOf(db, s) {
      assert UsedAt(doc.segs, s.uuid, b);
    }
    hide UsedOf, ValidDoc;
    var k := WithinOneRun(runs, UsedOf(db, s), t.Span());
    assert runs[g].Meets(t.Span());
  }

  lemma UseInList(db: Db, d: DiskID, segs: seq<Segment>, s: Segment, x: Uuid, run: Range)
    requires d in db.drives && Lists(segs, db.drives[d].segs) && x in db.drives[d].segs
    requires var t := db.drives[d].segs[x]; t.fromReserved && t.reservedUUID == s.uuid && t.Span().Within(run)
    ensures HasUse(Uses(segs, s), Range(run.lbs - s.lbs, run.lbe - s.lbs))
  {
    var t := db.drives[d].segs[x];
    var group := Range(run.lbs - s.lbs, run.lbe - s.lbs);
    var k :| 0 <= k < |segs| && segs[k] == t;
    assert DerivedFrom(segs[k], s);
    var w := UseBy(t, s);
    assert w in Uses(segs, s);
    hide Uses;
    IsUseWithin(Uses(segs, s), group, w, Use(w.pRaid, w.offset - group.lbs, w.blocks));
  }

  lemma PoolGroupsUsed(job: Job, lists: DriveLists, pool: Pool, i: int)
    requires GoodJob(job) && Listed(job.start, lists) && Aligned(job.start, lists, job.vpg, pool)
    requires 0 <= i < |pool.disks|
    ensures var d := pool.disks[i];
            d in job.start.drives
            && GroupsUsed(lists[d], Mine(lists[d], job.vpg, pool.pRaid), CutsOn(job, d))
  {
    var d := pool.disks[i];
    var m, cuts := Mine(lists[d], job.vpg, pool.pRaid), CutsOn(job, d);
    assert DriveAligned(job.start.chunks, lists[d], job.vpg, pool, i);
    assert Lists(lists[d], job.start.drives[d].segs);
    hide GoodJob, Mine, CutsOn, RowKept, RowSplit, RowGroups, Aligned, HasUse, Lists;
    forall j, g | 0 <= j < |m| && 0 <= g < |CutOf(cuts, m[j].uuid).groups|
      ensures HasUse(Uses(lists[d], m[j]), CutOf(cuts, m[j].uuid).groups[g])
    {
      PoolCut(job, lists, pool, i, j);
      MineInList(lists[d], job.vpg, pool.pRaid, j);
      GroupsOnlyIfSplit(job, pool.rows[j]);
      GroupHasUse(job, d, lists[d], pool.rows[j], |pool.disks|, i, m[j], g);
    }
  }

  lemma GroupsOnlyIfSplit(job: Job, c: int)
    requires Uniform(job.start.chunks)
    ensures RowGroups(job, c) != [] ==> RowSplit(job, c)
  {
  }

  // ------------------------------------------------------------------ the theorem

  ghost predicate OnDrives(job: Job, lists: DriveLists, pool: Pool) {
    forall i | 0 <= i < |pool.disks| :: pool.disks[i] in lists && pool.disks[i] in job.start.drives
  }

  /** All drives of the pool cut their segments in one order. */
  ghost predicate OneOrder(job: Job, lists: DriveLists, actions: seq<Action>, pool: Pool)
    requires Uniform(job.start.chunks)
  {
    OnDrives(job, lists, pool)
    && forall i, k | 0 <= i < |pool.disks| && 0 <= k < |pool.disks| ::
      OrderOn(job, lists, actions, pool, i) == OrderOn(job, lists, actions, pool, k)
  }

  /** No derived pRaid has two segments on one drive. */
  ghost predicate OncePerDrive(lists: DriveLists, pool: Pool) {
    forall i | 0 <= i < |pool.disks| :: pool.disks[i] in lists && OnePerPRaid(lists[pool.disks[i]])
  }

  lemma PoolOnDrives(job: Job, lists: DriveLists, pool: Pool)
    requires Listed(job.start, lists) && Aligned(job.start, lists, job.vpg, pool)
    ensures OnDrives(job, lists, pool)
  {
    hide Lists, DriveAligned;
  }

  lemma PairAlike(job: Job, lists: DriveLists, actions: seq<Action>, s: State, pool: Pool, i: int, k: int)
    requires Reclaims(job, lists, actions, s) && Aligned(job.start, lists, job.vpg, pool)
    requires OnDrives(job, lists, pool) && 0 <= i < |pool.disks| && 0 <= k < |pool.disks|
    requires Alike(ListsOn(lists, pool)[i], ListsOn(lists, pool)[k], job.vpg, pool.pRaid)
    ensures var same := OrderOn(job, lists, actions, pool, i) == OrderOn(job, lists, actions, pool, k);
            var after := ListsOn(ListsAfter(job, lists, actions), pool);
            && (same ==> Alike(after[i], after[k], job.vpg, pool.pRaid))
            && (OncePerDrive(lists, pool) ==> (same <==> Alike(after[i], after[k], job.vpg, pool.pRaid)))
  {
    ReclaimsListed(job, lists, actions, s);
    hide *;
    PoolDrive(job, lists, actions, s, pool, i);
    PoolDrive(job, lists, actions, s, pool, k);
    PoolWork(job, lists, actions, s, pool, i, k);
    PoolGroupsUsed(job, lists, pool, i);
    var d, e := pool.disks[i], pool.disks[k];
    AlikeIffSameOrder(Listing(d, lists[d]), WorkedOn(actions, d), CutsOn(job, d),
                      Listing(e, lists[e]), WorkedOn(actions, e), CutsOn(job, e), job.vpg, pool.pRaid);
    OrderIs(job, lists, actions, pool, i);
    OrderIs(job, lists, actions, pool, k);
    AfterIs(job, lists, actions, d);
    AfterIs(job, lists, actions, e);
    EachOnce(lists, pool, i);
  }

  lemma OrderIs(job: Job, lists: DriveLists, actions: seq<Action>, pool: Pool, i: int)
    requires Uniform(job.start.chunks) && OnDrives(job, lists, pool) && 0 <= i < |pool.disks|
    ensures OrderOn(job, lists, actions, pool, i)
         == CutOrder(Mine(lists[pool.disks[i]], job.vpg, pool.pRaid), WorkedOn(actions, pool.disks[i]),
                     CutsOn(job, pool.disks[i]))
  {
  }

  lemma AfterIs(job: Job, lists: DriveLists, actions: seq<Action>, d: DiskID)
    requires Uniform(job.start.chunks) && d in lists && d in job.start.drives
    requires ListAfter(job, d, lists[d], actions) == AllOff(lists[d], WorkedOn(actions, d), CutsOn(job, d))
    ensures Afterwards(Listing(d, lists[d]), WorkedOn(actions, d), CutsOn(job, d))
         == Listing(d, ListsAfter(job, lists, actions)[d])
  {
    hide AllOff, CutsOn, ListAfter;
  }

  lemma EachOnce(lists: DriveLists, pool: Pool, i: int)
    requires 0 <= i < |pool.disks|
    ensures OncePerDrive(lists, pool) ==> pool.disks[i] in lists && OnePerPRaid(lists[pool.disks[i]])
  {
    hide OnePerPRaid;
  }

  lemma AfterSound(job: Job, lists: DriveLists, actions: seq<Action>, s: State, pool: Pool, i: int)
    requires Reclaims(job, lists, actions, s) && Aligned(job.start, lists, job.vpg, pool)
    requires OnDrives(job, lists, pool) && 0 <= i < |pool.disks|
    ensures SoundList(ListsOn(ListsAfter(job, lists, actions), pool)[i].segs)
  {
    var d := pool.disks[i];
    PoolDrive(job, lists, actions, s, pool, i);
    hide Reaches, Aligned, GoodJob, CutsOn, AllOff, SoundList, Cuttable, NewPieces, Mine, Listed;
    ProfileAfter(lists[d], WorkedOn(actions, d), CutsOn(job, d), job.vpg, pool.pRaid);
  }

  ghost predicate PairIff(job: Job, lists: DriveLists, actions: seq<Action>, pool: Pool, i: int, k: int)
    requires Uniform(job.start.chunks) && OnDrives(job, lists, pool)
    requires 0 <= i < |pool.disks| && 0 <= k < |pool.disks|
  {
    var same := OrderOn(job, lists, actions, pool, i) == OrderOn(job, lists, actions, pool, k);
    var after := ListsOn(ListsAfter(job, lists, actions), pool);
    && (same ==> Alike(after[i], after[k], job.vpg, pool.pRaid))
    && (OncePerDrive(lists, pool) && Alike(after[i], after[k], job.vpg, pool.pRaid) ==> same)
  }

  lemma FromPairs(job: Job, lists: DriveLists, actions: seq<Action>, pool: Pool)
    requires Uniform(job.start.chunks) && OnDrives(job, lists, pool)
    requires forall i | 0 <= i < |pool.disks| :: SoundList(ListsOn(ListsAfter(job, lists, actions), pool)[i].segs)
    requires forall i, k | 0 <= i < |pool.disks| && 0 <= k < |pool.disks| :: PairIff(job, lists, actions, pool, i, k)
    ensures var after := ListsOn(ListsAfter(job, lists, actions), pool);
            && (OneOrder(job, lists, actions, pool) ==> UsedAlike(after, job.vpg, pool.pRaid))
            && (OncePerDrive(lists, pool) ==>
                  (UsedAlike(after, job.vpg, pool.pRaid) <==> OneOrder(job, lists, actions, pool)))
  {
    hide OrderOn, Alike, SoundList, ListsAfter, OncePerDrive;
    var after := ListsOn(ListsAfter(job, lists, actions), pool);
    if OneOrder(job, lists, actions, pool) {
      forall i, k | 0 <= i < |after| && 0 <= k < |after| ensures Alike(after[i], after[k], job.vpg, pool.pRaid) {
        assert PairIff(job, lists, actions, pool, i, k);
      }
    }
    if UsedAlike(after, job.vpg, pool.pRaid) && OncePerDrive(lists, pool) {
      forall i, k | 0 <= i < |pool.disks| && 0 <= k < |pool.disks|
        ensures OrderOn(job, lists, actions, pool, i) == OrderOn(job, lists, actions, pool, k)
      {
        assert PairIff(job, lists, actions, pool, i, k);
        assert Alike(after[i], after[k], job.vpg, pool.pRaid);
      }
    }
  }

  lemma BeforeAlike(lists: DriveLists, pool: Pool, vpg: VolumeID, i: int, k: int)
    requires (forall i | 0 <= i < |pool.disks| :: pool.disks[i] in lists)
             && UsedAlike(ListsOn(lists, pool), vpg, pool.pRaid)
    requires 0 <= i < |pool.disks| && 0 <= k < |pool.disks|
    ensures Alike(ListsOn(lists, pool)[i], ListsOn(lists, pool)[k], vpg, pool.pRaid)
  {
    hide Alike, SoundList;
  }

  /** A finished reclaim leaves the drives of a pool used alike if all of them cut in one order, and, where no derived
      pRaid has two segments on one drive, only then. */
  lemma ReclaimKeepsUsedAlike(job: Job, lists: DriveLists, actions: seq<Action>, s: State, pool: Pool)
    requires Reclaims(job, lists, actions, s) && Aligned(job.start, lists, job.vpg, pool)
    requires OnDrives(job, lists, pool) && UsedAlike(ListsOn(lists, pool), job.vpg, pool.pRaid)
    ensures var after := ListsOn(ListsAfter(job, lists, actions), pool);
            && (OneOrder(job, lists, actions, pool) ==> UsedAlike(after, job.vpg, pool.pRaid))
            && (OncePerDrive(lists, pool) ==>
                  (UsedAlike(after, job.vpg, pool.pRaid) <==> OneOrder(job, lists, actions, pool)))
  {
    ReclaimsListed(job, lists, actions, s);
    forall i | 0 <= i < |pool.disks| ensures SoundList(ListsOn(ListsAfter(job, lists, actions), pool)[i].segs) {
      hide *;
      AfterSound(job, lists, actions, s, pool, i);
    }
    forall i, k | 0 <= i < |pool.disks| && 0 <= k < |pool.disks| ensures PairIff(job, lists, actions, pool, i, k) {
      hide Reaches, Aligned, Listed, OrderOn, Alike, SoundList, ListsAfter, OncePerDrive, GoodJob, UsedAlike;
      BeforeAlike(lists, pool, job.vpg, i, k);
      PairAlike(job, lists, actions, s, pool, i, k);
    }
    hide *;
    FromPairs(job, lists, actions, pool);
  }
}
