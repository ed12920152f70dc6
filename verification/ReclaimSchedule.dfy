/** When the drives of a reserved pRaid are cut in one order: whenever each of them takes its split chunks by one and
    the same key. A reclaim that is not interrupted takes them in the order of the chunks. */
module ReclaimSchedule {
  import opened Ranges
  import opened Drives
  import opened DriveStore
  import opened Orders
  import opened Chunks
  import opened ReclaimPlan
  import opened Reclaim
  import opened ReclaimFlags
  import opened ReclaimRun
  import opened ReservedSpace
  import opened SharedGapsHistory
  import opened ReclaimOrder
  import opened ReclaimAlike
  import opened ReclaimLists
  import opened ReclaimPools
  import opened ReclaimBacking
  import opened PlanOrder

  // ------------------------------------------------- from orders of names to positions

  lemma {:induction false} PlacesBefore(m: seq<Segment>, us: seq<Uuid>, j: int, k: int)
    requires Before(PlacesOf(m, us), j, k)
    ensures 0 <= j < |m| && 0 <= k < |m| && Before(us, m[j].uuid, m[k].uuid)
    decreases |us|
  {
    var n := |us| - 1;
    var x, y :| BeforeAt(PlacesOf(m, us), j, k, x, y);
    var rest, last := PlacesOf(m, us[..n]), PlaceSeq(m, us[n]);
    assert PlacesOf(m, us) == rest + last;
    hide PlacesOf;
    assert us == us[..n] + [us[n]];
    if y < |rest| {
      assert BeforeAt(rest, j, k, x, y);
      PlacesBefore(m, us[..n], j, k);
      BeforeConcat(us[..n], [us[n]], m[j].uuid, m[k].uuid);
    } else {
      assert j in rest;
      PlacesHave(m, us[..n], j);
      var t :| StandsAt(m, us[..n], t, j);
      StandsThere(m, us[..n], t, j);
      LastPlace(m, us[n], k);
      BeforeConcat(us[..n], [us[n]], m[j].uuid, m[k].uuid);
    }
  }

  lemma LastPlace(m: seq<Segment>, u: Uuid, k: int)
    requires k in PlaceSeq(m, u)
    ensures 0 <= k < |m| && m[k].uuid == u
  {
  }

  lemma {:induction false} CuttingBefore<T>(parts: seq<seq<T>>, order: seq<int>, j: int, k: int)
    requires Before(Cutting(parts, order), j, k)
    ensures Before(order, j, k)
    decreases |order|
  {
    var n := |order| - 1;
    var x, y :| BeforeAt(Cutting(parts, order), j, k, x, y);
    var rest := Cutting(parts, order[..n]);
    assert order == order[..n] + [order[n]];
    CuttingHas(parts, order[..n], j);
    if y < |rest| {
      assert BeforeAt(rest, j, k, x, y);
      CuttingBefore(parts, order[..n], j, k);
    } else {
      assert j in rest && k == order[n];
    }
    hide Cutting;
    BeforeConcat(order[..n], [order[n]], j, k);
  }

  /** The cuts of a drive come in the order in which it works its segments off. */
  lemma CutsBefore(m: seq<Segment>, us: seq<Uuid>, cuts: map<Uuid, Cut>, j: int, k: int)
    requires Before(CutOrder(m, us, cuts), j, k)
    ensures 0 <= j < |m| && 0 <= k < |m| && Before(us, m[j].uuid, m[k].uuid)
  {
    CuttingBefore(GroupsAt(m, cuts), PlacesOf(m, us), j, k);
    PlacesBefore(m, us, j, k);
  }

  /** Two cuts are never in doubt. */
  lemma OneComesFirst(order: seq<int>, j: int, k: int)
    requires j in order && k in order && j != k
    ensures Before(order, j, k) || Before(order, k, j)
  {
    var x :| 0 <= x < |order| && order[x] == j;
    var y :| 0 <= y < |order| && order[y] == k;
    assert if x < y then BeforeAt(order, j, k, x, y) else BeforeAt(order, k, j, y, x);
  }

  /** Positions `j` and `k` are told apart by their keys, and the smaller one comes first. */
  ghost predicate PairFollows(m: seq<Segment>, us: seq<Uuid>, keys: seq<int>, j: int, k: int) {
    && 0 <= j < |m| && 0 <= k < |m| && |keys| == |m| && keys[j] != keys[k]
    && (keys[j] < keys[k] ==> Before(us, m[j].uuid, m[k].uuid))
  }

  ghost predicate FollowsKeys(m: seq<Segment>, us: seq<Uuid>, order: seq<int>, keys: seq<int>) {
    && |keys| == |m| && (forall x | 0 <= x < |order| :: 0 <= order[x] < |m|)
    && (forall x, y | 0 <= x < y < |order| :: PairFollows(m, us, keys, order[x], order[y])
                                           && PairFollows(m, us, keys, order[y], order[x]))
  }

  /** If smaller keys come first, the cuts are sorted by key. */
  lemma CutsSorted(m: seq<Segment>, us: seq<Uuid>, cuts: map<Uuid, Cut>, keys: seq<int>)
    requires NoneTwice(us) && FollowsKeys(m, us, CutOrder(m, us, cuts), keys)
    ensures SortedBy(keys, CutOrder(m, us, cuts))
  {
    var order := CutOrder(m, us, cuts);
    hide CutOrder, Before;
    forall x, y | 0 <= x < y < |order| ensures keys[order[x]] < keys[order[y]] {
      assert PairFollows(m, us, keys, order[x], order[y]) && PairFollows(m, us, keys, order[y], order[x]);
      BeforeHere(order, x, y);
      CutsBefore(m, us, cuts, order[x], order[y]);
      if keys[order[y]] < keys[order[x]] {
        OneWay(us, m[order[x]].uuid, m[order[y]].uuid);
      }
    }
  }

  lemma BeforeHere<T>(s: seq<T>, x: int, y: int)
    requires 0 <= x < y < |s|
    ensures Before(s, s[x], s[y])
  {
    assert BeforeAt(s, s[x], s[y], x, y);
  }

  lemma {:induction false} CuttingOnce<T>(parts: seq<seq<T>>, order: seq<int>)
    requires NoneTwice(order)
    ensures NoneTwice(Cutting(parts, order))
    decreases |order|
  {
    if order != [] {
      var n := |order| - 1;
      CuttingOnce(parts, order[..n]);
      CuttingHas(parts, order[..n], order[n]);
      var rest := Cutting(parts, order[..n]);
      assert Cutting(parts, order) == rest || Cutting(parts, order) == rest + [order[n]];
      hide Cutting;
      assert order[n] !in rest;
    }
  }

  lemma CutOrderOnce(m: seq<Segment>, us: seq<Uuid>, cuts: map<Uuid, Cut>)
    requires NoneTwice(us)
    ensures NoneTwice(CutOrder(m, us, cuts))
  {
    PlacesOnce(m, us);
    CuttingOnce(GroupsAt(m, cuts), PlacesOf(m, us));
  }

  // ------------------------------------------------------- a pool, by keys

  /** On every drive of the pool, of two split chunks the one with the smaller key is worked off first. */
  ghost predicate WorkedByKey(job: Job, lists: DriveLists, actions: seq<Action>, pool: Pool, keys: seq<int>)
    requires Uniform(job.start.chunks)
  {
    && |keys| == |pool.rows|
    && (forall j, k | 0 <= j < |keys| && 0 <= k < |keys| && j != k && RowSplit(job, pool.rows[j])
                   && RowSplit(job, pool.rows[k]) :: keys[j] != keys[k])
    && (forall i, j, k | 0 <= i < |pool.disks| && pool.disks[i] in lists && KeyLess(job, pool, keys, j, k)
                      && |Mine(lists[pool.disks[i]], job.vpg, pool.pRaid)| == |pool.rows| ::
          var m := Mine(lists[pool.disks[i]], job.vpg, pool.pRaid);
          Before(WorkedOn(actions, pool.disks[i]), m[j].uuid, m[k].uuid))
  }

  ghost predicate KeyLess(job: Job, pool: Pool, keys: seq<int>, j: int, k: int)
    requires Uniform(job.start.chunks)
  {
    && 0 <= j < |keys| && 0 <= k < |keys| && |keys| == |pool.rows|
    && RowSplit(job, pool.rows[j]) && RowSplit(job, pool.rows[k]) && keys[j] < keys[k]
  }

  lemma KeySorts(job: Job, lists: DriveLists, actions: seq<Action>, s: State, pool: Pool, keys: seq<int>, i: int)
    requires Reclaims(job, lists, actions, s) && Aligned(job.start, lists, job.vpg, pool) && OnDrives(job, lists, pool)
    requires WorkedByKey(job, lists, actions, pool, keys) && 0 <= i < |pool.disks|
    ensures SortedBy(keys, OrderOn(job, lists, actions, pool, i))
  {
    ReclaimsListed(job, lists, actions, s);
    WorkedOnce(job, lists, actions, s, pool, i);
    OrderIs(job, lists, actions, pool, i);
    KeyFollows(job, lists, actions, s, pool, keys, i);
    hide *;
    var d := pool.disks[i];
    CutsSorted(Mine(lists[d], job.vpg, pool.pRaid), WorkedOn(actions, d), CutsOn(job, d), keys);
  }

  lemma WorkedOnce(job: Job, lists: DriveLists, actions: seq<Action>, s: State, pool: Pool, i: int)
    requires Reclaims(job, lists, actions, s) && Aligned(job.start, lists, job.vpg, pool) && 0 <= i < |pool.disks|
    ensures NoneTwice(WorkedOn(actions, pool.disks[i]))
  {
    PoolDrive(job, lists, actions, s, pool, i);
    hide Reclaims, Aligned, GoodJob, Mine, CutsOn, SoundList, Cuttable, Lists;
  }

  lemma CutIsSplit(job: Job, lists: DriveLists, actions: seq<Action>, s: State, pool: Pool, i: int, j: int)
    requires Reclaims(job, lists, actions, s) && Aligned(job.start, lists, job.vpg, pool) && OnDrives(job, lists, pool)
    requires 0 <= i < |pool.disks| && j in OrderOn(job, lists, actions, pool, i)
    ensures 0 <= j < |pool.rows| && RowSplit(job, pool.rows[j])
    ensures pool.disks[i] in lists && |Mine(lists[pool.disks[i]], job.vpg, pool.pRaid)| == |pool.rows|
  {
    ReclaimsListed(job, lists, actions, s);
    hide *;
    PoolHas(job.start, lists, job.vpg, pool, i);
    OrderHas(job, lists, actions, s, pool, i, j);
    GroupsOnlyIfSplit(job, pool.rows[j]);
  }

  lemma KeyFollowsPair(job: Job, lists: DriveLists, actions: seq<Action>, s: State, pool: Pool, keys: seq<int>, i: int,
                       j: int, k: int)
    requires Reclaims(job, lists, actions, s) && Aligned(job.start, lists, job.vpg, pool) && OnDrives(job, lists, pool)
    requires WorkedByKey(job, lists, actions, pool, keys) && 0 <= i < |pool.disks| && j != k
    requires j in OrderOn(job, lists, actions, pool, i) && k in OrderOn(job, lists, actions, pool, i)
    ensures PairFollows(Mine(lists[pool.disks[i]], job.vpg, pool.pRaid), WorkedOn(actions, pool.disks[i]), keys, j, k)
  {
    ReclaimsListed(job, lists, actions, s);
    hide Reclaims, Aligned, OnDrives, WorkedByKey, OrderOn, Mine, Before, WorkedOn, GoodJob, Uniform, RowSplit, Listed;
    KeysCount(job, lists, actions, pool, keys);
    CutIsSplit(job, lists, actions, s, pool, i, j);
    CutIsSplit(job, lists, actions, s, pool, i, k);
    KeyPair(job, lists, actions, pool, keys, i, j, k);
  }

  lemma KeyRange(job: Job, lists: DriveLists, actions: seq<Action>, s: State, pool: Pool, keys: seq<int>, i: int,
                 j: int)
    requires Reclaims(job, lists, actions, s) && Aligned(job.start, lists, job.vpg, pool) && OnDrives(job, lists, pool)
    requires WorkedByKey(job, lists, actions, pool, keys) && 0 <= i < |pool.disks|
    requires j in OrderOn(job, lists, actions, pool, i)
    ensures 0 <= j < |Mine(lists[pool.disks[i]], job.vpg, pool.pRaid)| && j < |keys|
  {
    ReclaimsListed(job, lists, actions, s);
    hide *;
    KeysCount(job, lists, actions, pool, keys);
    CutIsSplit(job, lists, actions, s, pool, i, j);
  }

  lemma KeyFollows(job: Job, lists: DriveLists, actions: seq<Action>, s: State, pool: Pool, keys: seq<int>, i: int)
    requires Reclaims(job, lists, actions, s) && Aligned(job.start, lists, job.vpg, pool) && OnDrives(job, lists, pool)
    requires WorkedByKey(job, lists, actions, pool, keys) && 0 <= i < |pool.disks|
    requires NoneTwice(WorkedOn(actions, pool.disks[i]))
    ensures FollowsKeys(Mine(lists[pool.disks[i]], job.vpg, pool.pRaid), WorkedOn(actions, pool.disks[i]),
                        OrderOn(job, lists, actions, pool, i), keys)
  {
    hide Reclaims, Aligned, OnDrives, WorkedByKey, OrderOn, Mine, PairFollows, WorkedOn, GoodJob, Uniform, CutOrder,
         Listed, NoneTwice;
    ReclaimsListed(job, lists, actions, s);
    OnDrivesAt(job, lists, pool, i);
    PoolHas(job.start, lists, job.vpg, pool, i);
    KeysCount(job, lists, actions, pool, keys);
    var m, us := Mine(lists[pool.disks[i]], job.vpg, pool.pRaid), WorkedOn(actions, pool.disks[i]);
    var order := OrderOn(job, lists, actions, pool, i);
    CutOrderOnce(m, us, CutsOn(job, pool.disks[i]));
    OrderIs(job, lists, actions, pool, i);
    forall x | 0 <= x < |order| ensures 0 <= order[x] < |m| {
      KeyRange(job, lists, actions, s, pool, keys, i, order[x]);
    }
    forall x, y | 0 <= x < y < |order|
      ensures PairFollows(m, us, keys, order[x], order[y]) && PairFollows(m, us, keys, order[y], order[x])
    {
      Differ(order, x, y);
      KeyFollowsPair(job, lists, actions, s, pool, keys, i, order[x], order[y]);
      KeyFollowsPair(job, lists, actions, s, pool, keys, i, order[y], order[x]);
    }
  }

  lemma OnDrivesAt(job: Job, lists: DriveLists, pool: Pool, i: int)
    requires OnDrives(job, lists, pool) && 0 <= i < |pool.disks|
    ensures pool.disks[i] in lists && pool.disks[i] in job.start.drives
  {
  }

  lemma Differ<T>(s: seq<T>, x: int, y: int)
    requires NoneTwice(s) && 0 <= x < y < |s|
    ensures s[x] != s[y]
  {
  }

  lemma KeysCount(job: Job, lists: DriveLists, actions: seq<Action>, pool: Pool, keys: seq<int>)
    requires Uniform(job.start.chunks) && WorkedByKey(job, lists, actions, pool, keys)
    ensures |keys| == |pool.rows|
  {
    hide KeyLess, RowSplit, Before;
  }

  lemma KeyPair(job: Job, lists: DriveLists, actions: seq<Action>, pool: Pool, keys: seq<int>, i: int, j: int, k: int)
    requires Uniform(job.start.chunks) && WorkedByKey(job, lists, actions, pool, keys)
    requires 0 <= i < |pool.disks| && pool.disks[i] in lists
    requires |Mine(lists[pool.disks[i]], job.vpg, pool.pRaid)| == |pool.rows|
    requires 0 <= j < |pool.rows| && 0 <= k < |pool.rows| && j != k
    requires RowSplit(job, pool.rows[j]) && RowSplit(job, pool.rows[k]) && |keys| == |pool.rows|
    ensures keys[j] != keys[k]
    ensures var m := Mine(lists[pool.disks[i]], job.vpg, pool.pRaid);
            keys[j] < keys[k] ==> Before(WorkedOn(actions, pool.disks[i]), m[j].uuid, m[k].uuid)
  {
    hide RowSplit, Before, Mine, WorkedOn;
    assert keys[j] < keys[k] ==> KeyLess(job, pool, keys, j, k);
  }

  /** Then all drives of the pool cut in one order. */
  lemma KeyGivesOneOrder(job: Job, lists: DriveLists, actions: seq<Action>, s: State, pool: Pool, keys: seq<int>)
    requires Reclaims(job, lists, actions, s) && Aligned(job.start, lists, job.vpg, pool)
    requires Uniform(job.start.chunks) && WorkedByKey(job, lists, actions, pool, keys)
    ensures OneOrder(job, lists, actions, pool)
  {
    ReclaimsListed(job, lists, actions, s);
    PoolOnDrives(job, lists, pool);
    forall i, k | 0 <= i < |pool.disks| && 0 <= k < |pool.disks|
      ensures OrderOn(job, lists, actions, pool, i) == OrderOn(job, lists, actions, pool, k)
    {
      hide Reclaims, Aligned, WorkedByKey, OrderOn, RowGroups, SortedBy, GoodJob;
      KeySorts(job, lists, actions, s, pool, keys, i);
      KeySorts(job, lists, actions, s, pool, keys, k);
      forall j ensures j in OrderOn(job, lists, actions, pool, i) <==> j in OrderOn(job, lists, actions, pool, k) {
        OrderHas(job, lists, actions, s, pool, i, j);
        OrderHas(job, lists, actions, s, pool, k, j);
      }
      SortedSame(keys, OrderOn(job, lists, actions, pool, i), OrderOn(job, lists, actions, pool, k));
    }
    hide Reclaims, Aligned, WorkedByKey, OrderOn;
  }

  // --------------------------------------------------------------- without a crash

  lemma RowsDiffer(job: Job, lists: DriveLists, pool: Pool, j: int, k: int)
    requires GoodJob(job) && Listed(job.start, lists) && Aligned(job.start, lists, job.vpg, pool)
    requires 0 <= j < |pool.rows| && 0 <= k < |pool.rows| && j != k
    ensures pool.rows[j] != pool.rows[k]
  {
    PoolDisks(job.start, lists, job.vpg, pool);
    PoolIds(job, lists, pool, 0);
    assert DriveAligned(job.start.chunks, lists[pool.disks[0]], job.vpg, pool, 0);
    var m := Mine(lists[pool.disks[0]], job.vpg, pool.pRaid);
    hide Mine, Aligned, GoodJob, Listed;
    assert InRow(job.start.chunks, pool.rows[j], |pool.disks|, 0, m[j]);
    assert InRow(job.start.chunks, pool.rows[k], |pool.disks|, 0, m[k]);
    assert m[j].uuid != m[k].uuid;
  }

  lemma PoolIds(job: Job, lists: DriveLists, pool: Pool, i: int)
    requires GoodJob(job) && Listed(job.start, lists) && Aligned(job.start, lists, job.vpg, pool)
    requires 0 <= i < |pool.disks|
    ensures pool.disks[i] in lists && DistinctIds(Mine(lists[pool.disks[i]], job.vpg, pool.pRaid))
    ensures |Mine(lists[pool.disks[i]], job.vpg, pool.pRaid)| == |pool.rows| && SoundList(lists[pool.disks[i]])
  {
    hide *;
    PoolHas(job.start, lists, job.vpg, pool, i);
    ListedAt(job.start, lists, pool.disks[i]);
    StartsTracked(job, pool.disks[i], lists[pool.disks[i]]);
    MineDistinctIds(lists[pool.disks[i]], job.vpg, pool.pRaid);
  }

  /** Where position `j` of the pool stands in the plan. */
  lemma PoolInPlan(job: Job, lists: DriveLists, pool: Pool, i: int, j: int)
    requires GoodJob(job) && Listed(job.start, lists) && Aligned(job.start, lists, job.vpg, pool)
    requires 0 <= i < |pool.disks| && 0 <= j < |pool.rows| && RowSplit(job, pool.rows[j])
    ensures 0 <= pool.rows[j] < |job.start.chunks|
    ensures var d, x := pool.disks[i], PlanIndex(job, pool.rows[j], i);
            && d in job.start.drives && |Mine(lists[d], job.vpg, pool.pRaid)| == |pool.rows|
            && 0 <= x < |PlanItems(job)| && PlanItems(job)[x] == (d, Mine(lists[d], job.vpg, pool.pRaid)[j].uuid)
  {
    SplitInRange(job, pool.rows[j]);
    hide *;
    var d := pool.disks[i];
    PoolHas(job.start, lists, job.vpg, pool, i);
    PoolCut(job, lists, pool, i, j);
    MineInList(lists[d], job.vpg, pool.pRaid, j);
    ListedAt(job.start, lists, d);
    SegmentDisk(job, d, lists[d], Mine(lists[d], job.vpg, pool.pRaid)[j]);
    PlanHas(job, pool.rows[j], |pool.disks|, i, Mine(lists[d], job.vpg, pool.pRaid)[j]);
    ItemsCount(job);
  }

  lemma SplitInRange(job: Job, c: int)
    requires Uniform(job.start.chunks) && RowSplit(job, c)
    ensures 0 <= c < |job.start.chunks|
  {
    hide SplitUp;
  }

  lemma ItemsCount(job: Job)
    requires Uniform(job.start.chunks)
    ensures |PlanItems(job)| == |PlanSegments(job)|
  {
    hide PlanSegments;
  }

  lemma ListedAt(db: Db, lists: DriveLists, d: DiskID)
    requires Listed(db, lists) && d in lists
    ensures d in db.drives && Lists(lists[d], db.drives[d].segs)
  {
    hide Lists;
  }

  /** Of two split chunks of the pool the plan takes the earlier one first, on every drive. */
  lemma PlanByRows(job: Job, lists: DriveLists, pool: Pool, i: int, j: int, k: int)
    requires GoodJob(job) && Listed(job.start, lists) && Aligned(job.start, lists, job.vpg, pool)
    requires 0 <= i < |pool.disks| && 0 <= j < |pool.rows| && 0 <= k < |pool.rows|
    requires RowSplit(job, pool.rows[j]) && RowSplit(job, pool.rows[k]) && pool.rows[j] < pool.rows[k]
    ensures 0 <= PlanIndex(job, pool.rows[j], i) < PlanIndex(job, pool.rows[k], i) < |PlanItems(job)|
  {
    PoolInPlan(job, lists, pool, i, j);
    PoolInPlan(job, lists, pool, i, k);
    PoolCut(job, lists, pool, i, j);
    hide GoodJob, Aligned, Mine, PlanItems, PlanIndex, CutsOn, RowGroups, RepsFor, InRow;
    PlanAscends(job, pool.rows[j], |pool.disks|, i, Mine(lists[pool.disks[i]], job.vpg, pool.pRaid)[j],
                pool.rows[k], i);
  }

  /** A reclaim that is not interrupted cuts all drives of a pool in the order of the chunks. */
  lemma PlanGivesOneOrder(job: Job, lists: DriveLists, actions: seq<Action>, s: State, pool: Pool)
    requires Reclaims(job, lists, actions, s) && Aligned(job.start, lists, job.vpg, pool)
    requires Uniform(job.start.chunks) && WorkedItems(actions) == PlanItems(job)
    ensures OneOrder(job, lists, actions, pool)
  {
    ReclaimsListed(job, lists, actions, s);
    hide *;
    PlanIsByRows(job, lists, actions, pool);
    KeyGivesOneOrder(job, lists, actions, s, pool, pool.rows);
  }

  lemma PlanIsByRows(job: Job, lists: DriveLists, actions: seq<Action>, pool: Pool)
    requires GoodJob(job) && Listed(job.start, lists) && Aligned(job.start, lists, job.vpg, pool)
    requires WorkedItems(actions) == PlanItems(job)
    ensures WorkedByKey(job, lists, actions, pool, pool.rows)
  {
    hide Aligned, GoodJob, Mine, PlanItems, RowSplit, Listed, Before, WorkedItems, WorkedOn;
    forall j, k | 0 <= j < |pool.rows| && 0 <= k < |pool.rows| && j != k ensures pool.rows[j] != pool.rows[k] {
      RowsDiffer(job, lists, pool, j, k);
    }
    forall i, j, k | 0 <= i < |pool.disks| && pool.disks[i] in lists && KeyLess(job, pool, pool.rows, j, k)
        && |Mine(lists[pool.disks[i]], job.vpg, pool.pRaid)| == |pool.rows|
      ensures var m := Mine(lists[pool.disks[i]], job.vpg, pool.pRaid);
              Before(WorkedOn(actions, pool.disks[i]), m[j].uuid, m[k].uuid)
    {
      PlanOnDrive(job, lists, actions, pool, i, j, k);
    }
  }

  lemma PlanOnDrive(job: Job, lists: DriveLists, actions: seq<Action>, pool: Pool, i: int, j: int, k: int)
    requires GoodJob(job) && Listed(job.start, lists) && Aligned(job.start, lists, job.vpg, pool)
    requires WorkedItems(actions) == PlanItems(job)
    requires 0 <= i < |pool.disks| && KeyLess(job, pool, pool.rows, j, k)
    requires pool.disks[i] in lists && |Mine(lists[pool.disks[i]], job.vpg, pool.pRaid)| == |pool.rows|
    ensures var m := Mine(lists[pool.disks[i]], job.vpg, pool.pRaid);
            Before(WorkedOn(actions, pool.disks[i]), m[j].uuid, m[k].uuid)
  {
    var d := pool.disks[i];
    var m := Mine(lists[d], job.vpg, pool.pRaid);
    PoolInPlan(job, lists, pool, i, j);
    PoolInPlan(job, lists, pool, i, k);
    PlanByRows(job, lists, pool, i, j, k);
    hide GoodJob, Aligned, Mine, PlanItems, PlanIndex, RowSplit, Listed, WorkedItems, WorkedOn;
    assert BeforeAt(PlanItems(job), (d, m[j].uuid), (d, m[k].uuid), PlanIndex(job, pool.rows[j], i),
                    PlanIndex(job, pool.rows[k], i));
    OfDriveBefore(PlanItems(job), d, m[j].uuid, m[k].uuid);
    WorkedOfDrive(actions, d);
  }
}
