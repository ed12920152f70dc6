/** When a crash tears the drives of a reserved pRaid apart. The reclaim works its flags off in the order of the chunks,
    a recovery in the order of each drive's list: every crash is harmless if and only if the two orders agree. */
module ReclaimCrashes {
  import opened Ranges
  import opened Drives
  import opened Redo
  import opened DriveStore
  import opened Orders
  import opened Chunks
  import opened ReclaimPlan
  import opened Reclaim
  import opened ReclaimFlags
  import opened ReclaimRun
  import opened ReclaimSafety
  import opened ReclaimRecovery
  import opened ReservedSpace
  import opened SharedGapsHistory
  import opened ReclaimOrder
  import opened ReclaimAlike
  import opened ReclaimLists
  import opened ReclaimPools
  import opened ReclaimBacking
  import opened PlanOrder
  import opened ReclaimSchedule

  // ------------------------------------------------------- the order of a recovery

  predicate IsKind(s: Segment, removal: bool) {
    if removal then s.pendingReclaim.Removal? else s.pendingReclaim.Replace?
  }

  /** The flagged segments of a list, of one kind. */
  function OfKind(segs: seq<Segment>, removal: bool): seq<Segment> {
    if segs == [] then []
    else
      var n := |segs| - 1;
      OfKind(segs[..n], removal) + if IsKind(segs[n], removal) then [segs[n]] else []
  }

  function DriveItems(d: DiskID, segs: seq<Segment>): (r: seq<Item>)
    ensures |r| == |segs| && forall i | 0 <= i < |r| :: r[i] == (d, segs[i].uuid)
  {
    seq(|segs|, i requires 0 <= i < |segs| => (d, segs[i].uuid))
  }

  /** Drive by drive, each in the order of its list. */
  function AllOfKind(lists: DriveLists, ds: seq<DiskID>, removal: bool): seq<Item> {
    if ds == [] then []
    else (if ds[0] in lists then DriveItems(ds[0], OfKind(lists[ds[0]], removal)) else [])
         + AllOfKind(lists, ds[1..], removal)
  }

  /** What a recovery goes through when it finds these lists, reading the drives in the order `ds`. */
  function RecoveryItems(lists: DriveLists, ds: seq<DiskID>): seq<Item> {
    AllOfKind(lists, ds, true) + AllOfKind(lists, ds, false)
  }

  ghost predicate DrivesInOrder(lists: DriveLists, ds: seq<DiskID>) {
    NoneTwice(ds) && forall d :: d in ds <==> d in lists
  }

  /** A reclaim that crashed after the first `n` steps of its plan, and the recovery that finished it. When the recovery
      crashes as well, the next one goes on where it stopped, so that `after` may hold further crashes. */
  ghost predicate Interrupted(job: Job, lists: DriveLists, n: int, before: seq<Action>, after: seq<Action>,
                              ds: seq<DiskID>, s: State) {
    && Reclaims(job, lists, before + [Crash] + after, s) && Uniform(job.start.chunks)
    && IsRun(job, Initial(job), before) && After(job, Initial(job), before).phase == Committing
    && 0 <= n <= |PlanItems(job)| && WorkedItems(before) == PlanItems(job)[..n]
    && DrivesInOrder(lists, ds) && WorkedItems(after) == RecoveryItems(ListsAfter(job, lists, before), ds)
  }

  // ------------------------------------------------------------ lists keep their order

  function Ids(segs: seq<Segment>): (r: seq<Uuid>)
    ensures |r| == |segs| && forall i | 0 <= i < |r| :: r[i] == segs[i].uuid
  {
    seq(|segs|, i requires 0 <= i < |segs| => segs[i].uuid)
  }

  lemma IdsConcat(a: seq<Segment>, b: seq<Segment>)
    ensures Ids(a + b) == Ids(a) + Ids(b)
  {
  }

  lemma {:induction false} WithoutBefore(segs: seq<Segment>, u: Uuid, a: Uuid, b: Uuid)
    requires Before(Ids(segs), a, b) && a != u && b != u
    ensures Before(Ids(Without(segs, u)), a, b)
    decreases |segs|
  {
    var n := |segs| - 1;
    var x, y :| BeforeAt(Ids(segs), a, b, x, y);
    var rest := Without(segs[..n], u);
    assert segs == segs[..n] + [segs[n]];
    if y < n {
      assert BeforeAt(Ids(segs[..n]), a, b, x, y);
      WithoutBefore(segs[..n], u, a, b);
      if segs[n].uuid != u {
        IdsConcat(rest, [segs[n]]);
        BeforeConcat(Ids(rest), Ids([segs[n]]), a, b);
      }
    } else {
      assert segs[..n][x] == segs[x] && segs[x] in segs[..n];
      assert segs[x] in rest;
      var i :| 0 <= i < |rest| && rest[i] == segs[x];
      IdsConcat(rest, [segs[n]]);
      assert Ids(rest)[i] == a && Ids([segs[n]])[0] == b;
      BeforeConcat(Ids(rest), Ids([segs[n]]), a, b);
    }
  }

  lemma WorkedOffBefore(segs: seq<Segment>, u: Uuid, pieces: seq<Segment>, a: Uuid, b: Uuid)
    requires Before(Ids(segs), a, b) && a != u && b != u
    ensures Before(Ids(WorkedOff(segs, u, pieces)), a, b)
  {
    WithoutBefore(segs, u, a, b);
    hide Without, Retag, Before;
    var kept, rest := Without(segs, u), Rest(segs, u, pieces);
    forall i | 0 <= i < |kept| ensures rest[i].uuid == kept[i].uuid {
      RetagKeepsSpan(kept[i], pieces);
    }
    assert Ids(rest) == Ids(kept);
    IdsConcat(rest, pieces);
    BeforeConcat(Ids(rest), Ids(pieces), a, b);
  }

  /** Segments that stay keep their order. */
  lemma {:induction false} AllOffBefore(segs: seq<Segment>, us: seq<Uuid>, cuts: map<Uuid, Cut>, a: Uuid, b: Uuid)
    requires Before(Ids(segs), a, b) && a !in us && b !in us
    ensures Before(Ids(AllOff(segs, us, cuts)), a, b)
    decreases |us|
  {
    hide WorkedOff, Before, Ids;
    if us != [] {
      var n := |us| - 1;
      assert forall u | u in us[..n] :: u in us;
      AllOffBefore(segs, us[..n], cuts, a, b);
      WorkedOffBefore(AllOff(segs, us[..n], cuts), us[n], CutOf(cuts, us[n]).pieces, a, b);
    }
  }

  lemma {:induction false} MineBefore(segs: seq<Segment>, vpg: VolumeID, p: Uuid, j: int, k: int)
    requires 0 <= j < k < |Mine(segs, vpg, p)|
    ensures Before(Ids(segs), Mine(segs, vpg, p)[j].uuid, Mine(segs, vpg, p)[k].uuid)
    decreases |segs|
  {
    var n := |segs| - 1;
    var rest := Mine(segs[..n], vpg, p);
    assert segs == segs[..n] + [segs[n]];
    IdsConcat(segs[..n], [segs[n]]);
    var a, b := Mine(segs, vpg, p)[j].uuid, Mine(segs, vpg, p)[k].uuid;
    if k < |rest| {
      MineBefore(segs[..n], vpg, p, j, k);
    } else {
      MineInList(segs[..n], vpg, p, j);
      var i :| 0 <= i < n && segs[..n][i] == rest[j];
      assert Ids(segs[..n])[i] == a && Ids([segs[n]])[0] == b;
    }
    hide Mine;
    BeforeConcat(Ids(segs[..n]), Ids([segs[n]]), a, b);
  }

  // ----------------------------------------------------------- what a recovery does

  lemma {:induction false} KindHas(segs: seq<Segment>, removal: bool, s: Segment)
    ensures s in OfKind(segs, removal) <==> s in segs && IsKind(s, removal)
    decreases |segs|
  {
    if segs != [] {
      KindHas(segs[..|segs| - 1], removal, s);
      assert segs == segs[..|segs| - 1] + [segs[|segs| - 1]];
    }
  }

  lemma {:induction false} KindBefore(segs: seq<Segment>, removal: bool, x: int, y: int)
    requires 0 <= x < y < |segs| && IsKind(segs[x], removal) && IsKind(segs[y], removal)
    ensures Before(OfKind(segs, removal), segs[x], segs[y])
    decreases |segs|
  {
    var n := |segs| - 1;
    var rest, last := OfKind(segs[..n], removal), if IsKind(segs[n], removal) then [segs[n]] else [];
    assert OfKind(segs, removal) == rest + last;
    if y < n {
      KindBefore(segs[..n], removal, x, y);
    } else {
      KindHas(segs[..n], removal, segs[x]);
      assert segs[..n][x] == segs[x];
    }
    hide OfKind;
    BeforeConcat(rest, last, segs[x], segs[y]);
  }

  lemma ItemsBefore(d: DiskID, segs: seq<Segment>, s: Segment, t: Segment)
    requires Before(segs, s, t)
    ensures Before(DriveItems(d, segs), (d, s.uuid), (d, t.uuid))
  {
    var x, y :| BeforeAt(segs, s, t, x, y);
    assert BeforeAt(DriveItems(d, segs), (d, s.uuid), (d, t.uuid), x, y);
  }

  lemma {:induction false} AllBefore(lists: DriveLists, ds: seq<DiskID>, removal: bool, d: DiskID, s: Segment,
                                     t: Segment)
    requires d in ds && d in lists && Before(OfKind(lists[d], removal), s, t)
    ensures Before(AllOfKind(lists, ds, removal), (d, s.uuid), (d, t.uuid))
    decreases |ds|
  {
    hide OfKind, Before;
    var here := if ds[0] in lists then DriveItems(ds[0], OfKind(lists[ds[0]], removal)) else [];
    if d == ds[0] {
      ItemsBefore(d, OfKind(lists[d], removal), s, t);
    } else {
      assert ds == [ds[0]] + ds[1..];
      AllBefore(lists, ds[1..], removal, d, s, t);
    }
    BeforeConcat(here, AllOfKind(lists, ds[1..], removal), (d, s.uuid), (d, t.uuid));
  }

  /** A recovery takes two replacements of a drive in the order of its list. */
  lemma RecoveryBefore(lists: DriveLists, ds: seq<DiskID>, d: DiskID, x: int, y: int)
    requires d in ds && d in lists && 0 <= x < y < |lists[d]|
    requires lists[d][x].pendingReclaim.Replace? && lists[d][y].pendingReclaim.Replace?
    ensures Before(RecoveryItems(lists, ds), (d, lists[d][x].uuid), (d, lists[d][y].uuid))
  {
    KindBefore(lists[d], false, x, y);
    AllBefore(lists, ds, false, d, lists[d][x], lists[d][y]);
    hide Before, AllOfKind, OfKind;
    BeforeConcat(AllOfKind(lists, ds, true), AllOfKind(lists, ds, false), (d, lists[d][x].uuid),
                 (d, lists[d][y].uuid));
  }

  // --------------------------------------------------------------- an interrupted run

  lemma InterruptedParts(job: Job, lists: DriveLists, n: int, before: seq<Action>, after: seq<Action>,
                         ds: seq<DiskID>, s: State)
    requires Interrupted(job, lists, n, before, after, ds, s)
    ensures GoodJob(job) && Listed(job.start, lists) && Reaches(job, before + [Crash] + after, s) && s.phase == Done
    ensures Reaches(job, before, After(job, Initial(job), before))
    ensures After(job, Initial(job), before).phase == Committing
    ensures 0 <= n <= |PlanItems(job)| && WorkedItems(before) == PlanItems(job)[..n]
    ensures DrivesInOrder(lists, ds) && WorkedItems(after) == RecoveryItems(ListsAfter(job, lists, before), ds)
  {
    hide GoodJob, IsRun, After, Listed, PlanItems, WorkedItems, RecoveryItems, DrivesInOrder, ListsAfter;
  }

  lemma WorkedAround(before: seq<Action>, after: seq<Action>, d: DiskID)
    ensures WorkedOn(before + [Crash] + after, d) == WorkedOn(before, d) + WorkedOn(after, d)
  {
    hide *;
    WorkedOnConcat(before + [Crash], after, d);
    WorkedOnConcat(before, [Crash], d);
    CrashWorksNothing(d);
    assert WorkedOn(before, d) + [] == WorkedOn(before, d);
  }

  lemma CrashWorksNothing(d: DiskID)
    ensures WorkedOn([Crash], d) == []
  {
    assert [Crash][1..] == [];
  }

  lemma NotInPrefix<T>(s: seq<T>, n: int, x: int)
    requires NoneTwice(s) && 0 <= n <= x < |s|
    ensures s[x] !in s[..n]
  {
  }

  lemma InFront<T>(s: seq<T>, n: int, x: int)
    requires 0 <= x < n <= |s|
    ensures s[x] in s[..n]
  {
    assert s[..n][x] == s[x];
  }

  /** The flag of a split chunk asks for a replacement. */
  lemma SplitIsReplaced(job: Job, lists: DriveLists, pool: Pool, i: int, j: int)
    requires GoodJob(job) && Listed(job.start, lists) && Aligned(job.start, lists, job.vpg, pool)
    requires 0 <= i < |pool.disks| && 0 <= j < |pool.rows| && RowSplit(job, pool.rows[j])
    ensures var d := pool.disks[i];
            var m := Mine(lists[d], job.vpg, pool.pRaid);
            && |m| == |pool.rows| && d in job.start.drives && m[j].uuid in job.start.drives[d].segs
            && job.start.drives[d].segs[m[j].uuid] == m[j] && m[j].uuid in CutsOn(job, d)
            && FlagFor(PlanOf(job), m[j]).Replace?
  {
    var d := pool.disks[i];
    PoolCut(job, lists, pool, i, j);
    PoolHas(job.start, lists, job.vpg, pool, i);
    ListedAt(job.start, lists, d);
    MineInList(lists[d], job.vpg, pool.pRaid, j);
    var s := Mine(lists[d], job.vpg, pool.pRaid)[j];
    hide Mine, Aligned, CutsOn, RepsFor, RowGroups;
    RowPos(job.start.chunks, pool.rows[j], |pool.disks|, i, s);
    RowNotKept(job, pool.rows[j]);
    hide PlanOf, FlagFor;
    FlagOfRow(job, pool.rows[j], i, s);
    InDocument(lists[d], job.start.drives[d].segs, s);
  }

  lemma InDocument(segs: seq<Segment>, m: map<Uuid, Segment>, s: Segment)
    requires Lists(segs, m) && s in segs
    ensures s.uuid in m && m[s.uuid] == s
  {
    var k :| 0 <= k < |segs| && segs[k] == s;
  }

  lemma RowNotKept(job: Job, c: int)
    requires Uniform(job.start.chunks) && RowSplit(job, c)
    ensures !RowKept(job, c)
  {
    hide GroupsOf;
  }

  lemma FlagOfRow(job: Job, c: int, i: int, s: Segment)
    requires GoodJob(job) && Pos(job.start.chunks, c, 0, i) && At(job.start.chunks, c, 0, i) == s && RowSplit(job, c)
    ensures FlagFor(PlanOf(job), s).Replace?
  {
    hide Agreeing, SharedGaps, FreshFor, PlanFor, FlagFor, ExpectedFlag, SplitUp;
    FlagOfChunk(job.start, job.vpg, job.names, job.multiplier, c, 0, i);
    ExpectedReps(job.start, job.names, c, s);
  }

  /** What is left at the crash still stands in the list, with its flag. */
  lemma StillFlagged(job: Job, before: seq<Action>, mid: State, d: DiskID, segs: seq<Segment>, u: Uuid)
    returns (x: int)
    requires Reaches(job, before, mid) && mid.phase == Committing
    requires d in job.start.drives && Lists(segs, job.start.drives[d].segs)
    requires u in CutsOn(job, d) && u !in WorkedOn(before, d)
    ensures var list := ListAfter(job, d, segs, before);
            && 0 <= x < |list| && list[x].uuid == u
            && u in job.start.drives[d].segs
            && list[x].pendingReclaim == FlagFor(PlanOf(job), job.start.drives[d].segs[u])
  {
    ReachedList(job, before, mid, d, segs);
    var list := ListAfter(job, d, segs, before);
    hide GoodJob, IsRun, After, CutsOn, Inv, Lists, PlanOf, FlagFor, SoundList, Cuttable;
    assert u in ToDo(job, mid, d);
    assert AsPlanned(job, mid, d, u);
    PiecesAreReps(list, mid.db.drives[d].segs, u);
    x := PlaceOf(list, u);
    hide PlaceOf, ListAfter;
  }

  lemma SameIds(segs: seq<Segment>)
    ensures Ids(PlainList(segs)) == Ids(segs)
  {
  }

  /** A crash leaves what is still to do in the order it had. */
  lemma CrashKeepsListOrder(job: Job, before: seq<Action>, mid: State, d: DiskID, segs: seq<Segment>, u: Uuid, v: Uuid)
    requires Reaches(job, before, mid) && d in job.start.drives && Lists(segs, job.start.drives[d].segs)
    requires Before(Ids(segs), u, v) && u !in WorkedOn(before, d) && v !in WorkedOn(before, d)
    ensures Before(Ids(ListAfter(job, d, segs, before)), u, v)
  {
    ReachedList(job, before, mid, d, segs);
    hide Reaches, CutsOn, Ids, Before, ListAfter, WorkedOn, AllOff, Lists, SoundList, Cuttable;
    AllOffBefore(segs, WorkedOn(before, d), CutsOn(job, d), u, v);
    SameIds(ListAfter(job, d, segs, before));
  }

  lemma UniqueIds(segs: seq<Segment>, m: map<Uuid, Segment>)
    requires Lists(segs, m)
    ensures NoneTwice(Ids(segs))
  {
  }

  /** Of two flags left at the crash the recovery takes the one first that stands first in the list. */
  lemma RecoveredInListOrder(job: Job, lists: DriveLists, before: seq<Action>, mid: State, ds: seq<DiskID>, d: DiskID,
                             u: Uuid, v: Uuid)
    requires Reaches(job, before, mid) && mid.phase == Committing && Listed(job.start, lists)
    requires DrivesInOrder(lists, ds) && d in lists && d in job.start.drives
    requires u in CutsOn(job, d) && v in CutsOn(job, d) && u !in WorkedOn(before, d) && v !in WorkedOn(before, d)
    requires FlagFor(PlanOf(job), job.start.drives[d].segs[u]).Replace?
    requires FlagFor(PlanOf(job), job.start.drives[d].segs[v]).Replace?
    requires Before(Ids(lists[d]), u, v)
    ensures Uniform(job.start.chunks) && Before(RecoveryItems(ListsAfter(job, lists, before), ds), (d, u), (d, v))
  {
    ListedAt(job.start, lists, d);
    var x := StillFlagged(job, before, mid, d, lists[d], u);
    var y := StillFlagged(job, before, mid, d, lists[d], v);
    CrashKeepsListOrder(job, before, mid, d, lists[d], u, v);
    ReachedList(job, before, mid, d, lists[d]);
    var list := ListAfter(job, d, lists[d], before);
    assert Lists(list, mid.db.drives[d].segs);
    hide Reaches, CutsOn, PlanOf, FlagFor, ListAfter, WorkedOn, Lists, RecoveryItems, Listed, Inv, Planned, ToDo,
         WorksOff, DrivesInOrder, AllOff;
    UniqueIds(list, mid.db.drives[d].segs);
    PlacesByIds(list, u, v, x, y);
    assert ListsAfter(job, lists, before)[d] == list;
    assert d in ds by { InOrderHas(lists, ds, d); }
    RecoveryBefore(ListsAfter(job, lists, before), ds, d, x, y);
  }

  lemma InOrderHas(lists: DriveLists, ds: seq<DiskID>, d: DiskID)
    requires DrivesInOrder(lists, ds) && d in lists
    ensures d in ds
  {
  }

  lemma PlacesByIds(segs: seq<Segment>, u: Uuid, v: Uuid, x: int, y: int)
    requires NoneTwice(Ids(segs)) && Before(Ids(segs), u, v)
    requires 0 <= x < |segs| && 0 <= y < |segs| && segs[x].uuid == u && segs[y].uuid == v
    ensures x < y
  {
    var i, k :| BeforeAt(Ids(segs), u, v, i, k);
    assert Ids(segs)[x] == u && Ids(segs)[y] == v;
    assert x == i && y == k;
  }

  // ------------------------------------------------------------ which crash is harmless

  /** The split chunks of the pool stand in the lists in the order of the chunks. */
  ghost predicate InOrder(job: Job, pool: Pool)
    requires Uniform(job.start.chunks)
  {
    forall j, k | 0 <= j < k < |pool.rows| && RowSplit(job, pool.rows[j]) && RowSplit(job, pool.rows[k]) ::
      pool.rows[j] < pool.rows[k]
  }

  /** What is known of two split chunks of the pool on drive `i`. */
  ghost predicate TwoSplit(job: Job, lists: DriveLists, pool: Pool, i: int, j: int, k: int) {
    && GoodJob(job) && Listed(job.start, lists) && Aligned(job.start, lists, job.vpg, pool)
    && 0 <= i < |pool.disks| && 0 <= j < |pool.rows| && 0 <= k < |pool.rows|
    && RowSplit(job, pool.rows[j]) && RowSplit(job, pool.rows[k])
  }

  lemma TwoSplitAt(job: Job, lists: DriveLists, pool: Pool, i: int, j: int, k: int)
    requires TwoSplit(job, lists, pool, i, j, k)
    ensures var d := pool.disks[i];
            var m := Mine(lists[d], job.vpg, pool.pRaid);
            && d in lists && d in job.start.drives && |m| == |pool.rows|
            && Lists(lists[d], job.start.drives[d].segs)
            && m[j].uuid in CutsOn(job, d) && m[k].uuid in CutsOn(job, d)
            && FlagFor(PlanOf(job), job.start.drives[d].segs[m[j].uuid]).Replace?
            && FlagFor(PlanOf(job), job.start.drives[d].segs[m[k].uuid]).Replace?
            && 0 <= PlanIndex(job, pool.rows[j], i) < |PlanItems(job)|
            && PlanItems(job)[PlanIndex(job, pool.rows[j], i)] == (d, m[j].uuid)
            && 0 <= PlanIndex(job, pool.rows[k], i) < |PlanItems(job)|
            && PlanItems(job)[PlanIndex(job, pool.rows[k], i)] == (d, m[k].uuid)
  {
    hide GoodJob, Listed, Aligned, RowSplit, Mine, CutsOn, PlanItems, PlanIndex, FlagFor, PlanOf, Lists;
    PoolHas(job.start, lists, job.vpg, pool, i);
    ListedAt(job.start, lists, pool.disks[i]);
    SplitIsReplaced(job, lists, pool, i, j);
    SplitIsReplaced(job, lists, pool, i, k);
    PoolInPlan(job, lists, pool, i, j);
    PoolInPlan(job, lists, pool, i, k);
  }

  /** Worked off before the crash: exactly what stands in that part of the plan. */
  lemma WorkedInPrefix(job: Job, before: seq<Action>, n: int, d: DiskID, u: Uuid, x: int)
    requires GoodJob(job) && 0 <= n <= |PlanItems(job)| && WorkedItems(before) == PlanItems(job)[..n]
    requires 0 <= x < |PlanItems(job)| && PlanItems(job)[x] == (d, u)
    ensures u in WorkedOn(before, d) <==> x < n
  {
    PlanItemsOnce(job);
    hide GoodJob, PlanItems, WorkedItems, NoneTwice;
    WorkedOfDrive(before, d);
    OfDriveHas(PlanItems(job)[..n], d, u);
    if x < n {
      InFront(PlanItems(job), n, x);
    } else {
      NotInPrefix(PlanItems(job), n, x);
    }
  }

  /** Worked off in the end, and so after the crash if not before. */
  lemma WorkedAfterwards(job: Job, actions: seq<Action>, s: State, before: seq<Action>, after: seq<Action>, d: DiskID,
                         segs: seq<Segment>, u: Uuid)
    requires Reaches(job, actions, s) && s.phase == Done && actions == before + [Crash] + after
    requires d in job.start.drives && Lists(segs, job.start.drives[d].segs) && u in CutsOn(job, d)
    ensures u in WorkedOn(before, d) || u in WorkedOn(after, d)
  {
    FinishedList(job, actions, s, d, segs);
    WorkedAround(before, after, d);
    hide Reaches, CutsOn, WorkedOn, Lists, WorksOff, AllOff, ListAfter;
    assert u in UuidSet(WorkedOn(actions, d));
  }

  lemma PrefixBefore<T>(s: seq<T>, n: int, x: int, y: int)
    requires 0 <= x < y < n <= |s|
    ensures Before(s[..n], s[x], s[y])
  {
    assert BeforeAt(s[..n], s[x], s[y], x, y);
  }

  /** Both before the crash: in the order of the plan. */
  lemma BothBefore(job: Job, before: seq<Action>, after: seq<Action>, n: int, d: DiskID, u: Uuid, x: int, v: Uuid,
                   y: int)
    requires Uniform(job.start.chunks) && 0 <= x < y < n <= |PlanItems(job)|
    requires WorkedItems(before) == PlanItems(job)[..n]
    requires PlanItems(job)[x] == (d, u) && PlanItems(job)[y] == (d, v)
    ensures Before(WorkedOn(before + [Crash] + after, d), u, v)
  {
    hide PlanItems, WorkedItems, Before, WorkedOn, Uniform;
    PrefixBefore(PlanItems(job), n, x, y);
    OfDriveBefore(PlanItems(job)[..n], d, u, v);
    WorkedOfDrive(before, d);
    WorkedAround(before, after, d);
    BeforeConcat(WorkedOn(before, d), WorkedOn(after, d), u, v);
  }

  /** One before, one after. */
  lemma OneBefore(before: seq<Action>, after: seq<Action>, d: DiskID, u: Uuid, v: Uuid)
    requires u in WorkedOn(before, d) && v in WorkedOn(after, d)
    ensures Before(WorkedOn(before + [Crash] + after, d), u, v)
  {
    WorkedAround(before, after, d);
    BeforeConcat(WorkedOn(before, d), WorkedOn(after, d), u, v);
  }

  /** Both after: in the order of the list. */
  lemma BothAfter(job: Job, lists: DriveLists, n: int, before: seq<Action>, after: seq<Action>, ds: seq<DiskID>,
                  s: State, pool: Pool, i: int, j: int, k: int)
    requires Interrupted(job, lists, n, before, after, ds, s) && TwoSplit(job, lists, pool, i, j, k) && j < k
    requires pool.disks[i] in lists && |Mine(lists[pool.disks[i]], job.vpg, pool.pRaid)| == |pool.rows|
    requires Mine(lists[pool.disks[i]], job.vpg, pool.pRaid)[j].uuid !in WorkedOn(before, pool.disks[i])
    requires Mine(lists[pool.disks[i]], job.vpg, pool.pRaid)[k].uuid !in WorkedOn(before, pool.disks[i])
    ensures var m := Mine(lists[pool.disks[i]], job.vpg, pool.pRaid);
            Before(WorkedOn(before + [Crash] + after, pool.disks[i]), m[j].uuid, m[k].uuid)
  {
    var d := pool.disks[i];
    var m := Mine(lists[d], job.vpg, pool.pRaid);
    var mid := After(job, Initial(job), before);
    InterruptedParts(job, lists, n, before, after, ds, s);
    TwoSplitAt(job, lists, pool, i, j, k);
    MineBefore(lists[d], job.vpg, pool.pRaid, j, k);
    hide *;
    RecoveredInListOrder(job, lists, before, mid, ds, d, m[j].uuid, m[k].uuid);
    OfDriveBefore(WorkedItems(after), d, m[j].uuid, m[k].uuid);
    WorkedOfDrive(after, d);
    WorkedAround(before, after, d);
    BeforeConcat(WorkedOn(before, d), WorkedOn(after, d), m[j].uuid, m[k].uuid);
  }

  /** Two split chunks in chunk order and list order are taken in this order, wherever the crash was. */
  lemma TakenInOrder(job: Job, lists: DriveLists, n: int, before: seq<Action>, after: seq<Action>, ds: seq<DiskID>,
                     s: State, pool: Pool, i: int, j: int, k: int)
    requires Interrupted(job, lists, n, before, after, ds, s) && TwoSplit(job, lists, pool, i, j, k)
    requires j < k && pool.rows[j] < pool.rows[k]
    requires pool.disks[i] in lists && |Mine(lists[pool.disks[i]], job.vpg, pool.pRaid)| == |pool.rows|
    ensures var m := Mine(lists[pool.disks[i]], job.vpg, pool.pRaid);
            Before(WorkedOn(before + [Crash] + after, pool.disks[i]), m[j].uuid, m[k].uuid)
  {
    var d := pool.disks[i];
    var m := Mine(lists[d], job.vpg, pool.pRaid);
    var x, y := PlanIndex(job, pool.rows[j], i), PlanIndex(job, pool.rows[k], i);
    InterruptedParts(job, lists, n, before, after, ds, s);
    TwoSplitAt(job, lists, pool, i, j, k);
    PlanByRows(job, lists, pool, i, j, k);
    hide *;
    WorkedInPrefix(job, before, n, d, m[j].uuid, x);
    WorkedInPrefix(job, before, n, d, m[k].uuid, y);
    if y < n {
      BothBefore(job, before, after, n, d, m[j].uuid, x, m[k].uuid, y);
    } else if x < n {
      WorkedAfterwards(job, before + [Crash] + after, s, before, after, d, lists[d], m[k].uuid);
      OneBefore(before, after, d, m[j].uuid, m[k].uuid);
    } else {
      BothAfter(job, lists, n, before, after, ds, s, pool, i, j, k);
    }
  }

  function Positions(n: nat): (r: seq<int>)
    ensures |r| == n && forall i | 0 <= i < n :: r[i] == i
  {
    seq(n, i => i)
  }

  lemma InterruptedByPosition(job: Job, lists: DriveLists, n: int, before: seq<Action>, after: seq<Action>,
                              ds: seq<DiskID>, s: State, pool: Pool)
    requires Interrupted(job, lists, n, before, after, ds, s)
    requires GoodJob(job) && Listed(job.start, lists) && Aligned(job.start, lists, job.vpg, pool)
    requires InOrder(job, pool)
    ensures WorkedByKey(job, lists, before + [Crash] + after, pool, Positions(|pool.rows|))
  {
    hide Interrupted, Aligned, GoodJob, Mine, RowSplit, Listed, Before, WorkedOn;
    var keys := Positions(|pool.rows|);
    forall i, j, k | 0 <= i < |pool.disks| && pool.disks[i] in lists && KeyLess(job, pool, keys, j, k)
        && |Mine(lists[pool.disks[i]], job.vpg, pool.pRaid)| == |pool.rows|
      ensures var m := Mine(lists[pool.disks[i]], job.vpg, pool.pRaid);
              Before(WorkedOn(before + [Crash] + after, pool.disks[i]), m[j].uuid, m[k].uuid)
    {
      TakenInOrder(job, lists, n, before, after, ds, s, pool, i, j, k);
    }
  }

  /** If the orders agree, a reclaim cuts all drives in one order however often it crashes. */
  lemma InOrderIsHarmless(job: Job, lists: DriveLists, n: int, before: seq<Action>, after: seq<Action>,
                          ds: seq<DiskID>, s: State, pool: Pool)
    requires Interrupted(job, lists, n, before, after, ds, s) && Aligned(job.start, lists, job.vpg, pool)
    requires Uniform(job.start.chunks) && InOrder(job, pool)
    ensures OneOrder(job, lists, before + [Crash] + after, pool)
  {
    InterruptedParts(job, lists, n, before, after, ds, s);
    InterruptedReclaims(job, lists, n, before, after, ds, s);
    hide *;
    InterruptedByPosition(job, lists, n, before, after, ds, s, pool);
    KeyGivesOneOrder(job, lists, before + [Crash] + after, s, pool, Positions(|pool.rows|));
  }

  lemma InterruptedReclaims(job: Job, lists: DriveLists, n: int, before: seq<Action>, after: seq<Action>,
                            ds: seq<DiskID>, s: State)
    requires Interrupted(job, lists, n, before, after, ds, s)
    ensures Reclaims(job, lists, before + [Crash] + after, s)
  {
    hide Reclaims, PlanItems, WorkedItems, RecoveryItems;
  }

  // --------------------------------------------------------------- runs that exist

  ghost function ItemSet(items: seq<Item>): set<Item> {
    set x | x in items
  }

  lemma FlagsLess(before: Db, d: DiskID, u: Uuid, after: Db)
    requires d in before.drives && u in FlaggedIn(before.drives[d])
    requires after.drives.Keys == before.drives.Keys
    requires forall e | e in after.drives && e != d :: after.drives[e] == before.drives[e]
    requires FlaggedIn(after.drives[d]) == FlaggedIn(before.drives[d]) - {u}
    ensures Flags(after) == Flags(before) - {(d, u)}
  {
    forall x ensures x in Flags(after) <==> x in Flags(before) - {(d, u)} {
      FlagIsIn(before, x);
      FlagIsIn(after, x);
    }
  }

  lemma FlagIsIn(db: Db, x: Item)
    ensures x in Flags(db) <==> x.0 in db.drives && x.1 in FlaggedIn(db.drives[x.0])
  {
  }

  lemma WorkOffFlags(job: Job, s: State, d: DiskID, u: Uuid)
    requires GoodJob(job) && Inv(job, s) && s.phase == Committing && (d, u) in Flags(s.db)
    ensures Enabled(job, s, WorkOff(d, u)) && Next(job, s, WorkOff(d, u)).phase == Committing
    ensures Flags(Next(job, s, WorkOff(d, u)).db) == Flags(s.db) - {(d, u)}
  {
    FlagIsIn(s.db, (d, u));
    hide GoodJob, Inv, Ready, Apply, Flags;
    DriveIsReady(job, s, d);
    ApplyKeepsReady(s.db.drives[d], u);
    FlagsLess(s.db, d, u, Next(job, s, WorkOff(d, u)).db);
  }

  /** Any flags can be worked off, in any order. */
  lemma {:induction false} ItemsCanGo(job: Job, s: State, items: seq<Item>) returns (actions: seq<Action>)
    requires GoodJob(job) && Inv(job, s) && s.phase == Committing && NoneTwice(items) && ItemSet(items) <= Flags(s.db)
    ensures IsRun(job, s, actions) && WorkedItems(actions) == items
    ensures var t := After(job, s, actions);
            Inv(job, t) && t.phase == Committing && Flags(t.db) == Flags(s.db) - ItemSet(items)
    decreases |items|
  {
    hide Inv, GoodJob, Enabled, Next, Flags;
    if items == [] {
      actions := [];
      assert ItemSet(items) == {};
    } else {
      var a := WorkOff(items[0].0, items[0].1);
      FirstItem(items);
      WorkOffFlags(job, s, items[0].0, items[0].1);
      StepKeeps(job, s, a);
      var rest := ItemsCanGo(job, Next(job, s, a), items[1..]);
      actions := [a] + rest;
      assert actions[1..] == rest;
      OneItem(a, rest, items);
    }
  }

  lemma OneItem(a: Action, rest: seq<Action>, items: seq<Item>)
    requires items != [] && a == WorkOff(items[0].0, items[0].1) && WorkedItems(rest) == items[1..]
    ensures WorkedItems([a] + rest) == items
  {
    assert ([a] + rest)[1..] == rest;
  }

  lemma FirstItem(items: seq<Item>)
    requires NoneTwice(items) && items != []
    ensures items[0] in ItemSet(items) && items[0] !in ItemSet(items[1..]) && NoneTwice(items[1..])
    ensures ItemSet(items) == {items[0]} + ItemSet(items[1..])
  {
    assert items == [items[0]] + items[1..];
  }

  lemma NoneAnywhere(db: Db)
    requires Flags(db) == {}
    ensures NoFlags(db)
  {
    forall d, u | d in db.drives && u in db.drives[d].segs ensures !Flagged(db.drives[d].segs[u]) {
      assert (d, u) !in Flags(db);
    }
  }

  lemma QuietStep(job: Job, s: State, a: Action)
    requires GoodJob(job) && Inv(job, s) && Enabled(job, s, a) && s.phase != Preparing && Flags(s.db) == {}
    ensures !a.WorkOff? && Next(job, s, a).phase != Preparing && Flags(Next(job, s, a).db) == {}
  {
    hide GoodJob, Inv, PlanOf, Affected, UuidMap, RenamedVolume, Apply, LargestSegment;
    NoneAnywhere(s.db);
    match a
    case Recalculate(d) =>
      forall x ensures x !in Flags(Next(job, s, a).db) {
        FlagIsIn(s.db, x);
        FlagIsIn(Next(job, s, a).db, x);
        assert FlaggedIn(Recalculated(s.db.drives[d])) == FlaggedIn(s.db.drives[d]);
      }
    case _ =>
  }

  /** Without flags there is nothing to work off. */
  lemma {:induction false} QuietRun(job: Job, s: State, actions: seq<Action>)
    requires GoodJob(job) && Inv(job, s) && IsRun(job, s, actions) && s.phase != Preparing && Flags(s.db) == {}
    ensures WorkedItems(actions) == []
    decreases |actions|
  {
    hide GoodJob, Inv, Enabled, Next, Flags;
    if actions != [] {
      QuietStep(job, s, actions[0]);
      StepKeeps(job, s, actions[0]);
      QuietRun(job, Next(job, s, actions[0]), actions[1..]);
    }
  }

  lemma {:induction false} NoWork(actions: seq<Action>)
    requires forall a | a in actions :: !a.WorkOff?
    ensures WorkedItems(actions) == []
    decreases |actions|
  {
    if actions != [] {
      assert actions[0] in actions;
      NoWork(actions[1..]);
    }
  }

  // --------------------------------------------------- the plan, and what is flagged

  lemma PlanSegmentAt(job: Job, x: int)
    requires GoodJob(job) && 0 <= x < |PlanSegments(job)|
    ensures var s := PlanSegments(job)[x];
            OnDrive(job.start.drives, s) && !FlagFor(PlanOf(job), s).Idle?
  {
    hide *;
    PlanSegmentIs(job, x);
    if x < |PlanOf(job).removals| {
      RemovalAt(job, x);
    } else {
      ReplacementAt(job, x - |PlanOf(job).removals|);
    }
  }

  lemma RemovalAt(job: Job, x: int)
    requires GoodJob(job) && 0 <= x < |PlanOf(job).removals|
    ensures var s := PlanOf(job).removals[x]; OnDrive(job.start.drives, s) && !FlagFor(PlanOf(job), s).Idle?
  {
    hide *;
    var c := RemovedIsDropped(job, x);
    StoredInChunk(job, c, PlanOf(job).removals[x]);
    RemovedFlag(PlanOf(job), x);
  }

  lemma ReplacementAt(job: Job, x: int)
    requires GoodJob(job) && 0 <= x < |PlanOf(job).replacements|
    ensures var s := PlanOf(job).replacements[x].original;
            OnDrive(job.start.drives, s) && !FlagFor(PlanOf(job), s).Idle?
  {
    hide *;
    var c := SplitChunk(job, x);
    StoredInChunk(job, c, PlanOf(job).replacements[x].original);
    ReplacedFlag(PlanOf(job), x);
  }

  lemma PlanSegmentIs(job: Job, x: int)
    requires GoodJob(job) && 0 <= x < |PlanSegments(job)|
    ensures |PlanSegments(job)| == |PlanOf(job).removals| + |PlanOf(job).replacements|
    ensures PlanSegments(job)[x] == if x < |PlanOf(job).removals| then PlanOf(job).removals[x]
                                    else PlanOf(job).replacements[x - |PlanOf(job).removals|].original
  {
    hide GoodJob, PlanOf;
  }

  lemma RemovedFlag(plan: Plan, x: int)
    requires 0 <= x < |plan.removals|
    ensures !FlagFor(plan, plan.removals[x]).Idle?
  {
  }

  lemma ReplacedFlag(plan: Plan, x: int)
    requires 0 <= x < |plan.replacements|
    ensures !FlagFor(plan, plan.replacements[x].original).Idle?
  {
    assert Replaces(plan, plan.replacements[x].original);
  }

  lemma StoredInChunk(job: Job, c: int, s: Segment)
    requires GoodJob(job) && 0 <= c < |job.start.chunks| && InChunk(job.start.chunks[c], s)
    ensures OnDrive(job.start.drives, s)
  {
    hide GoodJob, InChunk;
    var p, k := InChunkPos(job.start.chunks, c, s);
    ChunkFactsOf(job, c, p, k);
  }

  lemma ChunkFactsOf(job: Job, c: int, p: int, k: int)
    requires GoodJob(job) && Pos(job.start.chunks, c, p, k)
    ensures OnDrive(job.start.drives, At(job.start.chunks, c, p, k))
  {
    hide Agreeing, SharedGaps, FreshFor;
    ChunkFacts(job.start, job.vpg, c, p, k);
  }

  lemma CommittedKeys(job: Job, s: State)
    requires GoodJob(job) && Inv(job, s) && s.phase == Committing
    ensures s.db.drives.Keys == job.start.drives.Keys
  {
    assert DrivesOnTheWay(job, s.db.drives);
    hide GoodJob, Inv, DriveOnTheWay;
  }

  /** After the commit every step of the plan is flagged. */
  lemma PlanIsFlagged(job: Job, s: State)
    requires GoodJob(job) && Inv(job, s) && s.phase == Committing && AllMarked(job, s.db)
    ensures ItemSet(PlanItems(job)) <= Flags(s.db)
  {
    CommittedKeys(job, s);
    hide GoodJob, Inv, PlanSegments, PlanOf, FlagFor, Flags;
    var items := PlanItems(job);
    forall item | item in ItemSet(items) ensures item in Flags(s.db) {
      var x :| 0 <= x < |items| && items[x] == item;
      PlanSegmentAt(job, x);
      MarkedFlag(job, s, PlanSegments(job)[x]);
      FlagIsIn(s.db, item);
    }
  }

  lemma MarkedFlag(job: Job, s: State, t: Segment)
    requires Uniform(job.start.chunks) && AllMarked(job, s.db) && s.db.drives.Keys == job.start.drives.Keys
    requires OnDrive(job.start.drives, t) && !FlagFor(PlanOf(job), t).Idle?
    ensures t.diskID in s.db.drives && t.uuid in FlaggedIn(s.db.drives[t.diskID])
  {
    hide PlanOf, FlagFor;
    assert s.db.drives[t.diskID].segs == Marked(job.start.drives[t.diskID], PlanOf(job)).segs;
  }

  // ------------------------------------------------------------- recovery, once each

  lemma OnceConcat<T>(a: seq<T>, b: seq<T>)
    requires NoneTwice(a) && NoneTwice(b) && forall x | x in a :: x !in b
    ensures NoneTwice(a + b)
  {
    forall i, j | 0 <= i < j < |a + b| ensures (a + b)[i] != (a + b)[j] {
      assert i < |a| ==> a[i] in a;
      assert j >= |a| ==> b[j - |a|] in b;
    }
  }

  lemma {:induction false} KindOnce(segs: seq<Segment>, removal: bool)
    requires DistinctIds(segs)
    ensures DistinctIds(OfKind(segs, removal))
    decreases |segs|
  {
    if segs != [] {
      var n := |segs| - 1;
      KindOnce(segs[..n], removal);
      var rest := OfKind(segs[..n], removal);
      forall i | 0 <= i < |rest| ensures rest[i].uuid != segs[n].uuid {
        KindHas(segs[..n], removal, rest[i]);
        assert rest[i] in rest;
      }
    }
  }

  ghost predicate FlaggedThere(lists: DriveLists, d: DiskID, u: Uuid, removal: bool) {
    d in lists && exists x :: 0 <= x < |lists[d]| && lists[d][x].uuid == u && IsKind(lists[d][x], removal)
  }

  lemma DriveItemsHave(d: DiskID, segs: seq<Segment>, removal: bool, item: Item)
    ensures item in DriveItems(d, OfKind(segs, removal))
       <==> item.0 == d && exists x :: 0 <= x < |segs| && segs[x].uuid == item.1 && IsKind(segs[x], removal)
  {
    var of := OfKind(segs, removal);
    if item in DriveItems(d, of) {
      var i :| 0 <= i < |of| && DriveItems(d, of)[i] == item;
      KindHas(segs, removal, of[i]);
      assert of[i] in of;
      var x :| 0 <= x < |segs| && segs[x] == of[i];
    }
    if x :| item.0 == d && 0 <= x < |segs| && segs[x].uuid == item.1 && IsKind(segs[x], removal) {
      KindHas(segs, removal, segs[x]);
      var i :| 0 <= i < |of| && of[i] == segs[x];
      assert DriveItems(d, of)[i] == item;
    }
  }

  lemma {:induction false} AllHave(lists: DriveLists, ds: seq<DiskID>, removal: bool, item: Item)
    ensures item in AllOfKind(lists, ds, removal) <==> item.0 in ds && FlaggedThere(lists, item.0, item.1, removal)
    decreases |ds|
  {
    if ds != [] {
      AllHave(lists, ds[1..], removal, item);
      assert ds == [ds[0]] + ds[1..];
      if ds[0] in lists {
        DriveItemsHave(ds[0], lists[ds[0]], removal, item);
      }
      hide OfKind, IsKind;
    }
  }

  lemma DriveItemsOnce(d: DiskID, segs: seq<Segment>)
    requires DistinctIds(segs)
    ensures NoneTwice(DriveItems(d, segs))
  {
  }

  lemma {:induction false} AllOnce(lists: DriveLists, ds: seq<DiskID>, removal: bool)
    requires NoneTwice(ds) && forall d | d in lists :: DistinctIds(lists[d])
    ensures NoneTwice(AllOfKind(lists, ds, removal))
    decreases |ds|
  {
    if ds != [] {
      hide OfKind, DistinctIds, FlaggedThere, IsKind;
      AllOnce(lists, ds[1..], removal);
      var here := if ds[0] in lists then DriveItems(ds[0], OfKind(lists[ds[0]], removal)) else [];
      if ds[0] in lists {
        KindOnce(lists[ds[0]], removal);
        DriveItemsOnce(ds[0], OfKind(lists[ds[0]], removal));
      }
      forall item | item in here ensures item !in AllOfKind(lists, ds[1..], removal) {
        AllHave(lists, ds[1..], removal, item);
      }
      OnceConcat(here, AllOfKind(lists, ds[1..], removal));
    }
  }

  lemma RecoveryOnce(lists: DriveLists, ds: seq<DiskID>)
    requires NoneTwice(ds) && forall d | d in lists :: DistinctIds(lists[d])
    ensures NoneTwice(RecoveryItems(lists, ds))
  {
    AllOnce(lists, ds, true);
    AllOnce(lists, ds, false);
    hide AllOfKind, NoneTwice;
    forall item | item in AllOfKind(lists, ds, true) ensures item !in AllOfKind(lists, ds, false) {
      AllHave(lists, ds, true, item);
      AllHave(lists, ds, false, item);
      OneFlagKind(lists, item.0, item.1);
    }
    OnceConcat(AllOfKind(lists, ds, true), AllOfKind(lists, ds, false));
  }

  lemma OneFlagKind(lists: DriveLists, d: DiskID, u: Uuid)
    requires d in lists ==> DistinctIds(lists[d])
    ensures !(FlaggedThere(lists, d, u, true) && FlaggedThere(lists, d, u, false))
  {
    if d in lists {
      forall x, y | 0 <= x < |lists[d]| && 0 <= y < |lists[d]| && lists[d][x].uuid == u && lists[d][y].uuid == u
        ensures x == y
      {
      }
    }
  }

  /** The recovery goes through exactly the flags it finds. */
  lemma RecoveryIsFlags(lists: DriveLists, ds: seq<DiskID>, db: Db)
    requires Listed(db, lists) && DrivesInOrder(lists, ds)
    ensures ItemSet(RecoveryItems(lists, ds)) == Flags(db)
  {
    forall item ensures item in RecoveryItems(lists, ds) <==> item in Flags(db) {
      AllHave(lists, ds, true, item);
      AllHave(lists, ds, false, item);
      FlagIsIn(db, item);
      assert item in RecoveryItems(lists, ds)
        <==> item in AllOfKind(lists, ds, true) || item in AllOfKind(lists, ds, false);
      hide AllOfKind;
      if item.0 in lists {
        FlaggedOnList(db, lists, item.0, item.1);
      }
    }
    hide RecoveryItems, Flags;
  }

  lemma FlaggedOnList(db: Db, lists: DriveLists, d: DiskID, u: Uuid)
    requires Listed(db, lists) && d in lists
    ensures d in db.drives
    ensures u in FlaggedIn(db.drives[d]) <==> FlaggedThere(lists, d, u, true) || FlaggedThere(lists, d, u, false)
  {
    assert Lists(lists[d], db.drives[d].segs);
    if u in FlaggedIn(db.drives[d]) {
      var x :| 0 <= x < |lists[d]| && lists[d][x] == db.drives[d].segs[u];
      assert IsKind(lists[d][x], true) || IsKind(lists[d][x], false);
    }
  }

  lemma {:induction false} DrivesCanBeOrdered(all: set<DiskID>) returns (ds: seq<DiskID>)
    ensures NoneTwice(ds) && forall d :: d in ds <==> d in all
    decreases |all|
  {
    if d :| d in all {
      var rest := DrivesCanBeOrdered(all - {d});
      ds := [d] + rest;
      assert forall i | 0 <= i < |rest| :: rest[i] in rest;
    } else {
      ds := [];
    }
  }

  // ----------------------------------------------------------- the run that does harm

  /** A reclaim that crashes after `n` steps of its plan, and its recovery. */
  lemma CrashAfter(job: Job, lists: DriveLists, n: int)
    returns (before: seq<Action>, after: seq<Action>, ds: seq<DiskID>, s: State)
    requires GoodJob(job) && Listed(job.start, lists) && 0 <= n <= |PlanItems(job)| && PlanItems(job) != []
    ensures Interrupted(job, lists, n, before, after, ds, s)
  {
    hide GoodJob, Listed, PlanItems, Inv, Enabled, Next, AllMarked, Flags, RecoveryItems, DrivesInOrder, ListsAfter,
         IsRun, After, Reclaims;
    var mid;
    before, mid := PlanStarts(job, n);
    ds := DrivesCanBeOrdered(lists.Keys);
    OrderedDrives(lists, ds);
    after, s := RecoveryRuns(job, lists, before, mid, ds);
    IsInterrupted(job, lists, n, before, after, ds, s);
  }

  lemma IsInterrupted(job: Job, lists: DriveLists, n: int, before: seq<Action>, after: seq<Action>,
                      ds: seq<DiskID>, s: State)
    requires Reclaims(job, lists, before + [Crash] + after, s) && Uniform(job.start.chunks)
    requires IsRun(job, Initial(job), before) && After(job, Initial(job), before).phase == Committing
    requires 0 <= n <= |PlanItems(job)| && WorkedItems(before) == PlanItems(job)[..n]
    requires DrivesInOrder(lists, ds) && WorkedItems(after) == RecoveryItems(ListsAfter(job, lists, before), ds)
    ensures Interrupted(job, lists, n, before, after, ds, s)
  {
  }

  lemma OrderedDrives(lists: DriveLists, ds: seq<DiskID>)
    requires NoneTwice(ds) && forall d :: d in ds <==> d in lists.Keys
    ensures DrivesInOrder(lists, ds)
  {
    hide NoneTwice;
  }

  lemma SomethingPlanned(job: Job)
    requires Uniform(job.start.chunks) && PlanItems(job) != []
    ensures PlanOf(job).removals != [] || PlanOf(job).replacements != []
  {
    hide PlanOf;
  }

  lemma SetOfPrefix(items: seq<Item>, n: int)
    requires NoneTwice(items) && 0 <= n <= |items|
    ensures NoneTwice(items[..n]) && ItemSet(items[..n]) <= ItemSet(items)
  {
    assert forall x | x in items[..n] :: x in items;
  }

  lemma PlanStarts(job: Job, n: int) returns (before: seq<Action>, mid: State)
    requires GoodJob(job) && 0 <= n <= |PlanItems(job)| && PlanItems(job) != []
    ensures IsRun(job, Initial(job), before) && After(job, Initial(job), before) == mid
    ensures mid.phase == Committing && Inv(job, mid) && WorkedItems(before) == PlanItems(job)[..n]
  {
    hide *;
    SomethingPlanned(job);
    var commit := CommitIsReachable(job);
    var s := After(job, Initial(job), commit);
    PlanIsFlagged(job, s);
    PlanItemsOnce(job);
    SetOfPrefix(PlanItems(job), n);
    var work := ItemsCanGo(job, s, PlanItems(job)[..n]);
    RunConcat(job, Initial(job), commit, work);
    before, mid := commit + work, After(job, s, work);
    NoWork(commit);
    WorkedItemsConcat(commit, work);
    NothingInFront(PlanItems(job)[..n]);
  }

  lemma NothingInFront<T>(s: seq<T>)
    ensures [] + s == s
  {
  }

  lemma ReachedMid(job: Job, before: seq<Action>, mid: State)
    requires GoodJob(job) && IsRun(job, Initial(job), before) && After(job, Initial(job), before) == mid
    ensures Reaches(job, before, mid)
  {
  }

  lemma CrashedLists(job: Job, lists: DriveLists, before: seq<Action>, mid: State)
    requires GoodJob(job) && Listed(job.start, lists) && Inv(job, mid) && mid.phase == Committing
    requires Reaches(job, before, mid)
    ensures Listed(mid.db, ListsAfter(job, lists, before))
  {
    CommittedKeys(job, mid);
    hide GoodJob, Inv, Reaches, Lists;
    forall d | d in lists ensures Lists(ListAfter(job, d, lists[d], before), mid.db.drives[d].segs) {
      hide ListAfter;
      ReachedList(job, before, mid, d, lists[d]);
    }
  }

  lemma ListedDistinct(db: Db, lists: DriveLists)
    requires Listed(db, lists)
    ensures forall d | d in lists :: DistinctIds(lists[d])
  {
    forall d | d in lists ensures DistinctIds(lists[d]) {
      assert Lists(lists[d], db.drives[d].segs);
    }
  }

  lemma CrashStays(job: Job, mid: State)
    requires GoodJob(job) && Inv(job, mid) && mid.phase == Committing
    ensures Enabled(job, mid, Crash) && Inv(job, Next(job, mid, Crash))
    ensures Next(job, mid, Crash).phase == Committing && Next(job, mid, Crash).db == mid.db
  {
    CrashLooks(job, mid);
    StepKeeps(job, mid, Crash);
    hide *;
  }

  lemma RecoveryRuns(job: Job, lists: DriveLists, before: seq<Action>, mid: State, ds: seq<DiskID>)
    returns (after: seq<Action>, s: State)
    requires GoodJob(job) && Listed(job.start, lists) && DrivesInOrder(lists, ds)
    requires IsRun(job, Initial(job), before) && After(job, Initial(job), before) == mid
    requires mid.phase == Committing && Inv(job, mid)
    ensures Reclaims(job, lists, before + [Crash] + after, s)
    ensures WorkedItems(after) == RecoveryItems(ListsAfter(job, lists, before), ds)
  {
    hide *;
    ReachedMid(job, before, mid);
    CrashedLists(job, lists, before, mid);
    CrashStays(job, mid);
    var found := ListsAfter(job, lists, before);
    var items, t := RecoveryItems(found, ds), Next(job, mid, Crash);
    SameOrder(lists, found, ds);
    ListedDistinct(mid.db, found);
    OnceOrdered(found, ds);
    RecoveryOnce(found, ds);
    RecoveryIsFlags(found, ds, mid.db);
    var work := ItemsCanGo(job, t, items);
    var u := After(job, t, work);
    assert Flags(u.db) == {};
    var rest := RecoveryFinishes(job, u);
    QuietRun(job, u, rest);
    RunConcat(job, t, work, rest);
    after, s := work + rest, After(job, u, rest);
    WorkedItemsConcat(work, rest);
    NothingBehind(items);
    Joined(job, before, mid, after, s);
    IsReclaim(job, lists, before + [Crash] + after, s);
  }

  lemma NothingBehind<T>(s: seq<T>)
    ensures s + [] == s
  {
  }

  lemma OnceOrdered(lists: DriveLists, ds: seq<DiskID>)
    requires DrivesInOrder(lists, ds)
    ensures NoneTwice(ds)
  {
  }

  lemma SameOrder(lists: DriveLists, found: DriveLists, ds: seq<DiskID>)
    requires DrivesInOrder(lists, ds) && found.Keys == lists.Keys
    ensures DrivesInOrder(found, ds)
  {
    hide NoneTwice;
  }

  lemma IsReclaim(job: Job, lists: DriveLists, actions: seq<Action>, s: State)
    requires Reaches(job, actions, s) && s.phase == Done && Listed(job.start, lists)
    ensures Reclaims(job, lists, actions, s)
  {
  }

  /** Two split chunks out of order, and at least two drives: a crash right behind the first step on the later one lets
      the first two drives cut them in different orders. */
  lemma OutOfOrder(job: Job, lists: DriveLists, n: int, before: seq<Action>, after: seq<Action>, ds: seq<DiskID>,
                   s: State, pool: Pool, j: int, k: int)
    requires TwoSplit(job, lists, pool, 0, j, k) && TwoSplit(job, lists, pool, 1, j, k)
    requires j < k && pool.rows[k] < pool.rows[j]
    requires n == PlanIndex(job, pool.rows[k], 0) + 1 && Interrupted(job, lists, n, before, after, ds, s)
    ensures OrdersApart(job, lists, before + [Crash] + after, pool, j, k)
    ensures !OneOrder(job, lists, before + [Crash] + after, pool)
  {
    InterruptedParts(job, lists, n, before, after, ds, s);
    InterruptedReclaims(job, lists, n, before, after, ds, s);
    var actions := before + [Crash] + after;
    TwoSplitAligned(job, lists, pool, j, k);
    hide *;
    PoolOnDrives(job, lists, pool);
    FirstDriveOrder(job, lists, n, before, after, ds, s, pool, j, k);
    SecondDriveOrder(job, lists, n, before, after, ds, s, pool, j, k);
    CutsFollow(job, lists, actions, s, pool, 0, k, j);
    CutsFollow(job, lists, actions, s, pool, 1, j, k);
    OrdersOnce(job, lists, actions, s, pool, 0);
    OneWay(OrderOn(job, lists, actions, pool, 0), k, j);
    AreApart(job, lists, actions, pool, j, k);
    if OneOrder(job, lists, actions, pool) {
      SameOrders(job, lists, actions, pool, 0, 1);
    }
  }

  /** The first two drives of the pool cut two of its segments in opposite orders. */
  ghost predicate OrdersApart(job: Job, lists: DriveLists, actions: seq<Action>, pool: Pool, j: int, k: int) {
    && Uniform(job.start.chunks) && |pool.disks| >= 2 && OnDrives(job, lists, pool)
    && Before(OrderOn(job, lists, actions, pool, 0), k, j) && Before(OrderOn(job, lists, actions, pool, 1), j, k)
  }

  lemma ApartOnDrives(job: Job, lists: DriveLists, actions: seq<Action>, pool: Pool, j: int, k: int)
    requires OrdersApart(job, lists, actions, pool, j, k)
    ensures Uniform(job.start.chunks) && |pool.disks| >= 2 && OnDrives(job, lists, pool)
    ensures Before(OrderOn(job, lists, actions, pool, 0), k, j) && Before(OrderOn(job, lists, actions, pool, 1), j, k)
  {
    hide Uniform, OnDrives, OrderOn, Before;
  }

  lemma AreApart(job: Job, lists: DriveLists, actions: seq<Action>, pool: Pool, j: int, k: int)
    requires Uniform(job.start.chunks) && |pool.disks| >= 2 && OnDrives(job, lists, pool)
    requires Before(OrderOn(job, lists, actions, pool, 0), k, j) && Before(OrderOn(job, lists, actions, pool, 1), j, k)
    ensures OrdersApart(job, lists, actions, pool, j, k)
  {
    hide Uniform, OnDrives, OrderOn, Before;
  }

  lemma TwoSplitAligned(job: Job, lists: DriveLists, pool: Pool, j: int, k: int)
    requires TwoSplit(job, lists, pool, 0, j, k) && TwoSplit(job, lists, pool, 1, j, k)
    ensures GoodJob(job) && Listed(job.start, lists) && Aligned(job.start, lists, job.vpg, pool)
    ensures |pool.disks| >= 2 && 0 <= j < |pool.rows| && 0 <= k < |pool.rows|
    ensures RowSplit(job, pool.rows[j]) && RowSplit(job, pool.rows[k])
  {
    hide GoodJob, Listed, Aligned, RowSplit;
  }

  lemma SameOrders(job: Job, lists: DriveLists, actions: seq<Action>, pool: Pool, i: int, k: int)
    requires Uniform(job.start.chunks) && OneOrder(job, lists, actions, pool)
    requires 0 <= i < |pool.disks| && 0 <= k < |pool.disks|
    ensures OnDrives(job, lists, pool)
    ensures OrderOn(job, lists, actions, pool, i) == OrderOn(job, lists, actions, pool, k)
  {
    hide OrderOn;
  }

  lemma OrdersOnce(job: Job, lists: DriveLists, actions: seq<Action>, s: State, pool: Pool, i: int)
    requires Reclaims(job, lists, actions, s) && Aligned(job.start, lists, job.vpg, pool)
    requires OnDrives(job, lists, pool) && 0 <= i < |pool.disks|
    ensures NoneTwice(OrderOn(job, lists, actions, pool, i))
  {
    ReclaimsListed(job, lists, actions, s);
    hide *;
    WorkedOnce(job, lists, actions, s, pool, i);
    OrderIs(job, lists, actions, pool, i);
    CutOrderOnce(Mine(lists[pool.disks[i]], job.vpg, pool.pRaid), WorkedOn(actions, pool.disks[i]),
                 CutsOn(job, pool.disks[i]));
  }

  /** The cuts come in the order in which the segments were worked off. */
  lemma CutsFollow(job: Job, lists: DriveLists, actions: seq<Action>, s: State, pool: Pool, i: int, j: int, k: int)
    requires Reclaims(job, lists, actions, s) && TwoSplit(job, lists, pool, i, j, k) && j != k
    requires OnDrives(job, lists, pool) && pool.disks[i] in lists
    requires |Mine(lists[pool.disks[i]], job.vpg, pool.pRaid)| == |pool.rows|
    requires var m := Mine(lists[pool.disks[i]], job.vpg, pool.pRaid);
             Before(WorkedOn(actions, pool.disks[i]), m[j].uuid, m[k].uuid)
    ensures Before(OrderOn(job, lists, actions, pool, i), j, k)
  {
    var d := pool.disks[i];
    SplitAligned(job, lists, pool, i, j, k);
    hide *;
    var m, us, cuts := Mine(lists[d], job.vpg, pool.pRaid), WorkedOn(actions, d), CutsOn(job, d);
    OrderIs(job, lists, actions, pool, i);
    SplitIsCut(job, lists, actions, s, pool, i, j);
    SplitIsCut(job, lists, actions, s, pool, i, k);
    WorkedOnce(job, lists, actions, s, pool, i);
    OneWay(us, m[j].uuid, m[k].uuid);
    OneComesFirst(CutOrder(m, us, cuts), j, k);
    if Before(CutOrder(m, us, cuts), k, j) {
      CutsBefore(m, us, cuts, k, j);
    }
  }

  lemma SplitAligned(job: Job, lists: DriveLists, pool: Pool, i: int, j: int, k: int)
    requires TwoSplit(job, lists, pool, i, j, k)
    ensures GoodJob(job) && Listed(job.start, lists) && Aligned(job.start, lists, job.vpg, pool)
    ensures 0 <= i < |pool.disks| && 0 <= j < |pool.rows| && 0 <= k < |pool.rows|
    ensures RowSplit(job, pool.rows[j]) && RowSplit(job, pool.rows[k])
  {
    hide GoodJob, Listed, Aligned, RowSplit;
  }

  /** A split chunk leaves pieces. */
  lemma SplitIsCut(job: Job, lists: DriveLists, actions: seq<Action>, s: State, pool: Pool, i: int, j: int)
    requires Reclaims(job, lists, actions, s) && Aligned(job.start, lists, job.vpg, pool)
    requires OnDrives(job, lists, pool) && 0 <= i < |pool.disks| && 0 <= j < |pool.rows|
    requires Uniform(job.start.chunks) && RowSplit(job, pool.rows[j])
    ensures j in OrderOn(job, lists, actions, pool, i)
  {
    ReclaimsListed(job, lists, actions, s);
    hide *;
    OrderHas(job, lists, actions, s, pool, i, j);
    PoolCut(job, lists, pool, i, j);
    SplitHasGroups(job, pool.rows[j], |pool.disks|, i, Mine(lists[pool.disks[i]], job.vpg, pool.pRaid)[j]);
  }

  lemma SplitHasGroups(job: Job, c: int, n: int, i: int, s: Segment)
    requires GoodJob(job) && InRow(job.start.chunks, c, n, i, s) && RowSplit(job, c)
    ensures RowGroups(job, c) != []
  {
    var chunk := job.start.chunks[c];
    RowPos(job.start.chunks, c, n, i, s);
    RowRuns(job, c, n, i, s);
    NotDropped(chunk, job.start.volumes);
    hide Agreeing, SharedGaps, FreshFor, RangesNaming, ValidDoc, UsedOf;
    RunsOfUse(job.start, job.vpg, job.names, c, 0, i);
    hide GroupsOf, Consistent;
    if GroupsOf(chunk, job.start.volumes) == [] {
      NoRunsNoBlocks(UsedOf(job.start, s));
    }
  }

  lemma NoRunsNoBlocks(blocks: set<int>)
    requires IsRuns([], blocks)
    ensures blocks == {}
  {
    forall b ensures b !in blocks {
      assert !Covered([], b);
    }
  }

  /** On the first drive the later chunk goes before the crash, the other one behind it. */
  lemma FirstDriveOrder(job: Job, lists: DriveLists, n: int, before: seq<Action>, after: seq<Action>,
                        ds: seq<DiskID>, s: State, pool: Pool, j: int, k: int)
    requires TwoSplit(job, lists, pool, 0, j, k) && pool.rows[k] < pool.rows[j]
    requires n == PlanIndex(job, pool.rows[k], 0) + 1 && Interrupted(job, lists, n, before, after, ds, s)
    ensures pool.disks[0] in lists && |Mine(lists[pool.disks[0]], job.vpg, pool.pRaid)| == |pool.rows|
    ensures var m := Mine(lists[pool.disks[0]], job.vpg, pool.pRaid);
            Before(WorkedOn(before + [Crash] + after, pool.disks[0]), m[k].uuid, m[j].uuid)
  {
    var d := pool.disks[0];
    var m := Mine(lists[d], job.vpg, pool.pRaid);
    InterruptedParts(job, lists, n, before, after, ds, s);
    TwoSplitAt(job, lists, pool, 0, j, k);
    SplitAligned(job, lists, pool, 0, j, k);
    PlanByRows(job, lists, pool, 0, k, j);
    hide *;
    WorkedInPrefix(job, before, n, d, m[k].uuid, PlanIndex(job, pool.rows[k], 0));
    WorkedInPrefix(job, before, n, d, m[j].uuid, PlanIndex(job, pool.rows[j], 0));
    WorkedAfterwards(job, before + [Crash] + after, s, before, after, d, lists[d], m[j].uuid);
    OneBefore(before, after, d, m[k].uuid, m[j].uuid);
  }

  /** On the second drive both go behind it, in the order of the list. */
  lemma SecondDriveOrder(job: Job, lists: DriveLists, n: int, before: seq<Action>, after: seq<Action>,
                         ds: seq<DiskID>, s: State, pool: Pool, j: int, k: int)
    requires TwoSplit(job, lists, pool, 1, j, k) && j < k && pool.rows[k] < pool.rows[j]
    requires n == PlanIndex(job, pool.rows[k], 0) + 1 && Interrupted(job, lists, n, before, after, ds, s)
    ensures pool.disks[1] in lists && |Mine(lists[pool.disks[1]], job.vpg, pool.pRaid)| == |pool.rows|
    ensures var m := Mine(lists[pool.disks[1]], job.vpg, pool.pRaid);
            Before(WorkedOn(before + [Crash] + after, pool.disks[1]), m[j].uuid, m[k].uuid)
  {
    var d := pool.disks[1];
    var m := Mine(lists[d], job.vpg, pool.pRaid);
    InterruptedParts(job, lists, n, before, after, ds, s);
    TwoSplitAt(job, lists, pool, 1, j, k);
    SplitAligned(job, lists, pool, 1, j, k);
    PlanByRows(job, lists, pool, 1, k, j);
    NextDrive(job, pool.rows[k]);
    hide *;
    WorkedInPrefix(job, before, n, d, m[k].uuid, PlanIndex(job, pool.rows[k], 1));
    WorkedInPrefix(job, before, n, d, m[j].uuid, PlanIndex(job, pool.rows[j], 1));
    BothAfter(job, lists, n, before, after, ds, s, pool, 1, j, k);
  }

  lemma NextDrive(job: Job, c: int)
    requires Uniform(job.start.chunks) && 0 <= c < |job.start.chunks|
    ensures PlanIndex(job, c, 1) == PlanIndex(job, c, 0) + 1
  {
    hide PlanOf, Start;
  }

  // ----------------------------------------------------------------- the condition

  /** However the reclaim is interrupted, the drives of the pool end used alike. */
  ghost predicate EveryCrashHarmless(job: Job, lists: DriveLists, pool: Pool)
    requires Uniform(job.start.chunks) && OnDrives(job, lists, pool)
  {
    forall n, before, after, ds, s | Interrupted(job, lists, n, before, after, ds, s) ::
      UsedAlike(ListsOn(ListsAfter(job, lists, before + [Crash] + after), pool), job.vpg, pool.pRaid)
  }

  /** A crash is harmless wherever it happens if and only if the split chunks of the pRaid stand in the lists of its
      drives in the order of the chunks, which can be checked before the reclaim starts. One split chunk, or a pRaid on
      one drive, is always fine. */
  lemma CrashesHarmlessExactly(job: Job, lists: DriveLists, pool: Pool)
    requires GoodJob(job) && Listed(job.start, lists) && Aligned(job.start, lists, job.vpg, pool)
    requires OnDrives(job, lists, pool) && UsedAlike(ListsOn(lists, pool), job.vpg, pool.pRaid)
             && OncePerDrive(lists, pool)
    ensures EveryCrashHarmless(job, lists, pool) <==> |pool.disks| == 1 || InOrder(job, pool)
  {
    hide GoodJob, Listed, Aligned, UsedAlike, OncePerDrive, Interrupted, RowSplit, OneOrder;
    PoolDisks(job.start, lists, job.vpg, pool);
    if |pool.disks| == 1 || InOrder(job, pool) {
      forall n, before, after, ds, s | Interrupted(job, lists, n, before, after, ds, s)
        ensures UsedAlike(ListsOn(ListsAfter(job, lists, before + [Crash] + after), pool), job.vpg, pool.pRaid)
      {
        CrashDoesNoHarm(job, lists, n, before, after, ds, s, pool);
      }
    } else {
      var j, k :| 0 <= j < k < |pool.rows| && RowSplit(job, pool.rows[j]) && RowSplit(job, pool.rows[k])
          && pool.rows[j] >= pool.rows[k];
      CrashDoesHarm(job, lists, pool, j, k);
    }
  }

  lemma CrashDoesNoHarm(job: Job, lists: DriveLists, n: int, before: seq<Action>, after: seq<Action>,
                        ds: seq<DiskID>, s: State, pool: Pool)
    requires Interrupted(job, lists, n, before, after, ds, s) && Aligned(job.start, lists, job.vpg, pool)
    requires OnDrives(job, lists, pool) && UsedAlike(ListsOn(lists, pool), job.vpg, pool.pRaid)
    requires Uniform(job.start.chunks) && (|pool.disks| == 1 || InOrder(job, pool))
    ensures UsedAlike(ListsOn(ListsAfter(job, lists, before + [Crash] + after), pool), job.vpg, pool.pRaid)
  {
    InterruptedReclaims(job, lists, n, before, after, ds, s);
    hide Interrupted, Aligned, UsedAlike, InOrder, Reclaims, OnDrives, OrderOn;
    if |pool.disks| == 1 {
      OneDrive(job, lists, before + [Crash] + after, pool);
    } else {
      InOrderIsHarmless(job, lists, n, before, after, ds, s, pool);
    }
    ReclaimKeepsUsedAlike(job, lists, before + [Crash] + after, s, pool);
  }

  lemma OneDrive(job: Job, lists: DriveLists, actions: seq<Action>, pool: Pool)
    requires Uniform(job.start.chunks) && OnDrives(job, lists, pool) && |pool.disks| == 1
    ensures OneOrder(job, lists, actions, pool)
  {
    hide OrderOn;
  }

  /** The crash that does harm. */
  lemma CrashDoesHarm(job: Job, lists: DriveLists, pool: Pool, j: int, k: int)
    requires GoodJob(job) && Listed(job.start, lists) && Aligned(job.start, lists, job.vpg, pool)
    requires OnDrives(job, lists, pool) && UsedAlike(ListsOn(lists, pool), job.vpg, pool.pRaid)
             && OncePerDrive(lists, pool)
    requires |pool.disks| >= 2 && 0 <= j < k < |pool.rows| && pool.rows[k] <= pool.rows[j]
    requires RowSplit(job, pool.rows[j]) && RowSplit(job, pool.rows[k])
    ensures !EveryCrashHarmless(job, lists, pool)
  {
    var n, before, after, ds, s := HarmfulRun(job, lists, pool, j, k);
    InterruptedReclaims(job, lists, n, before, after, ds, s);
    hide GoodJob, Listed, Aligned, UsedAlike, OncePerDrive, Interrupted, RowSplit, OnDrives, OneOrder, Reclaims;
    ReclaimKeepsUsedAlike(job, lists, before + [Crash] + after, s, pool);
  }

  lemma HarmfulRun(job: Job, lists: DriveLists, pool: Pool, j: int, k: int)
    returns (n: int, before: seq<Action>, after: seq<Action>, ds: seq<DiskID>, s: State)
    requires GoodJob(job) && Listed(job.start, lists) && Aligned(job.start, lists, job.vpg, pool)
    requires |pool.disks| >= 2 && 0 <= j < k < |pool.rows| && pool.rows[k] <= pool.rows[j]
    requires RowSplit(job, pool.rows[j]) && RowSplit(job, pool.rows[k])
    ensures Interrupted(job, lists, n, before, after, ds, s)
    ensures OrdersApart(job, lists, before + [Crash] + after, pool, j, k)
    ensures !OneOrder(job, lists, before + [Crash] + after, pool)
  {
    hide GoodJob, Listed, Aligned, RowSplit, Interrupted, PlanItems, PlanIndex, OneOrder, OrdersApart;
    RowsDiffer(job, lists, pool, j, k);
    PoolInPlan(job, lists, pool, 0, k);
    n := PlanIndex(job, pool.rows[k], 0) + 1;
    before, after, ds, s := CrashAfter(job, lists, n);
    OutOfOrder(job, lists, n, before, after, ds, s, pool, j, k);
  }
}
