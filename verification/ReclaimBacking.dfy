/** The chunks a finished reclaim leaves stand behind one position of their pRaid's drives each, as before: kept ones
    moved up, new ones at the end in the order they were cut. */
module ReclaimBacking {
  import opened Ranges
  import opened Drives
  import opened DriveStore
  import opened Chunks
  import opened ReclaimPlan
  import opened Reclaim
  import opened ReclaimFlags
  import opened ReclaimRun
  import opened ReclaimSafety
  import opened ReclaimOutcome
  import opened ReservedSpace
  import opened SharedGapsHistory
  import opened ReclaimOrder
  import opened ReclaimAlike
  import opened ReclaimLists
  import opened ReclaimPools

  // --------------------------------------------------------------- rows, then and now

  ghost function AllOrigins(job: Job): seq<Origin>
    requires Uniform(job.start.chunks)
  {
    Origins(job.start.chunks, |job.start.chunks|, job.start.volumes)
  }

  /** The new chunk that comes from `o`. */
  ghost function RowFrom(job: Job, o: Origin): int
    requires Uniform(job.start.chunks)
  {
    if o in AllOrigins(job) then var x :| 0 <= x < |AllOrigins(job)| && AllOrigins(job)[x] == o; x else -1
  }

  lemma RowFromIs(job: Job, o: Origin)
    requires Uniform(job.start.chunks) && ValidOrigin(job.start.chunks, job.start.volumes, o)
    ensures 0 <= RowFrom(job, o) < |AllOrigins(job)| && AllOrigins(job)[RowFrom(job, o)] == o
  {
    hide ValidOrigin, Origins;
    assert o.c < |job.start.chunks| && 0 <= o.c by { hide Origins; OriginBelow(job, o); }
    var x := OriginsComplete(job.start.chunks, |job.start.chunks|, job.start.volumes, o);
    assert AllOrigins(job)[x] in AllOrigins(job);
  }

  lemma OriginBelow(job: Job, o: Origin)
    requires Uniform(job.start.chunks) && ValidOrigin(job.start.chunks, job.start.volumes, o)
    ensures 0 <= o.c < |job.start.chunks|
  {
    hide GroupsOf;
  }

  lemma RowFromOnly(job: Job, x: int)
    requires Uniform(job.start.chunks) && 0 <= x < |AllOrigins(job)|
    ensures RowFrom(job, AllOrigins(job)[x]) == x
  {
    var o := AllOrigins(job)[x];
    assert o in AllOrigins(job);
    var y := RowFrom(job, o);
    assert AllOrigins(job)[y] == o;
    var n := |job.start.chunks|;
    if x < y {
      OriginsDistinct(job.start.chunks, n, job.start.volumes, x, y);
    } else if y < x {
      OriginsDistinct(job.start.chunks, n, job.start.volumes, y, x);
    }
  }

  ghost function KeptRows(job: Job, rows: seq<int>): (r: seq<int>)
    requires Uniform(job.start.chunks)
    ensures |r| == |rows| && forall j | 0 <= j < |r| :: r[j] == RowFrom(job, Origin(rows[j], -1))
  {
    seq(|rows|, j requires 0 <= j < |rows| => RowFrom(job, Origin(rows[j], -1)))
  }

  ghost function NewRows(job: Job, c: int): (r: seq<int>)
    requires Uniform(job.start.chunks)
    ensures |r| == |RowGroups(job, c)| && forall g | 0 <= g < |r| :: r[g] == RowFrom(job, Origin(c, g))
  {
    seq(|RowGroups(job, c)|, g requires 0 <= g < |RowGroups(job, c)| => RowFrom(job, Origin(c, g)))
  }

  ghost function SplitRows(job: Job, rows: seq<int>): (r: seq<seq<int>>)
    requires Uniform(job.start.chunks)
    ensures |r| == |rows| && forall j | 0 <= j < |r| :: r[j] == NewRows(job, rows[j])
  {
    seq(|rows|, j requires 0 <= j < |rows| => NewRows(job, rows[j]))
  }

  /** The pool after the reclaim, when its drives cut in this order. */
  ghost function PoolAfter(job: Job, pool: Pool, order: seq<int>): Pool
    requires Uniform(job.start.chunks)
  {
    pool.(rows := Undone(KeptRows(job, pool.rows), Worked(job, pool)) + Together(SplitRows(job, pool.rows), order))
  }

  // ---------------------------------------------------------------- one position

  lemma OutcomeRow(job: Job, db: Db, o: Origin, n: int, i: int, s: Segment)
    requires GoodJob(job) && Outcome(job, db) && ValidOrigin(job.start.chunks, job.start.volumes, o)
    requires InRow(job.start.chunks, o.c, n, i, s)
    ensures InRow(db.chunks, RowFrom(job, o), n, i, Traced(job, o, s))
  {
    RowFromIs(job, o);
    var x := RowFrom(job, o);
    OriginsOfPlan(job, db);
    TracedPRaids(job, o);
    assert db.chunks[x].pRaids == OriginPRaids(job.start.chunks, job.start.volumes, job.names, o);
    hide GoodJob, Outcome, RowFrom, ValidOrigin, OriginPRaids, Traced, Origins;
  }

  lemma KeptOrigin(job: Job, c: int)
    requires Uniform(job.start.chunks) && RowKept(job, c)
    ensures ValidOrigin(job.start.chunks, job.start.volumes, Origin(c, -1))
  {
    hide GroupsOf, KeptWhole;
  }

  lemma SplitOrigin(job: Job, c: int, g: int)
    requires Uniform(job.start.chunks) && 0 <= g < |RowGroups(job, c)|
    ensures RowSplit(job, c) && ValidOrigin(job.start.chunks, job.start.volumes, Origin(c, g))
  {
    hide GroupsOf, SplitUp;
  }

  lemma TracedIs(job: Job, c: int, s: Segment)
    requires GoodJob(job)
    ensures RowKept(job, c) ==>
              ValidOrigin(job.start.chunks, job.start.volumes, Origin(c, -1)) && Traced(job, Origin(c, -1), s) == s
    ensures RowSplit(job, c) ==> |RepsFor(job.start, job.names, c, s)| == |RowGroups(job, c)|
    ensures forall g | 0 <= g < |RowGroups(job, c)| ::
              ValidOrigin(job.start.chunks, job.start.volumes, Origin(c, g))
              && Traced(job, Origin(c, g), s) == RepsFor(job.start, job.names, c, s)[g]
  {
    hide GoodJob, GroupsOf, KeptWhole, SplitUp;
    if RowKept(job, c) {
      KeptOrigin(job, c);
    }
    forall g | 0 <= g < |RowGroups(job, c)|
      ensures ValidOrigin(job.start.chunks, job.start.volumes, Origin(c, g))
              && Traced(job, Origin(c, g), s) == RepsFor(job.start, job.names, c, s)[g]
    {
      SplitOrigin(job, c, g);
    }
  }

  // ------------------------------------------------------------- all positions

  /** Position by position the segments are those of the rows on drive `i`. */
  ghost predicate RowsMatch(chunks: seq<Chunk>, rows: seq<int>, n: int, i: int, m: seq<Segment>) {
    |m| == |rows| && forall j | 0 <= j < |m| :: InRow(chunks, rows[j], n, i, m[j])
  }

  lemma MatchConcat(chunks: seq<Chunk>, a: seq<int>, b: seq<int>, n: int, i: int, x: seq<Segment>, y: seq<Segment>)
    requires RowsMatch(chunks, a, n, i, x) && RowsMatch(chunks, b, n, i, y)
    ensures RowsMatch(chunks, a + b, n, i, x + y)
  {
    hide InRow;
  }

  lemma {:induction false} UndoneMatch(chunks: seq<Chunk>, rows: seq<int>, n: int, i: int, m: seq<Segment>,
                                       done: set<int>)
    requires |m| == |rows|
    requires forall j | 0 <= j < |m| && j !in done :: InRow(chunks, rows[j], n, i, m[j])
    ensures RowsMatch(chunks, Undone(rows, done), n, i, Undone(m, done))
    decreases |m|
  {
    hide InRow;
    if m != [] {
      var k := |m| - 1;
      UndoneMatch(chunks, rows[..k], n, i, m[..k], done);
      if k in done {
        assert Undone(m, done) == Undone(m[..k], done) && Undone(rows, done) == Undone(rows[..k], done);
      } else {
        MatchConcat(chunks, Undone(rows[..k], done), [rows[k]], n, i, Undone(m[..k], done), [m[k]]);
      }
    }
  }

  lemma {:induction false} TogetherMatch(chunks: seq<Chunk>, rows: seq<seq<int>>, n: int, i: int,
                                         pieces: seq<seq<Segment>>, order: seq<int>)
    requires |pieces| == |rows|
    requires forall j | 0 <= j < |rows| :: RowsMatch(chunks, rows[j], n, i, pieces[j])
    ensures RowsMatch(chunks, Together(rows, order), n, i, Together(pieces, order))
    decreases |order|
  {
    hide InRow;
    if order != [] {
      var k := |order| - 1;
      TogetherMatch(chunks, rows, n, i, pieces, order[..k]);
      assert RowsMatch(chunks, PartAt(rows, order[k]), n, i, PartAt(pieces, order[k]));
      hide RowsMatch, PartAt;
      MatchConcat(chunks, Together(rows, order[..k]), PartAt(rows, order[k]), n, i, Together(pieces, order[..k]),
                  PartAt(pieces, order[k]));
    }
  }

  lemma PiecesMatch(job: Job, lists: DriveLists, db: Db, pool: Pool, i: int, j: int)
    requires GoodJob(job) && Listed(job.start, lists) && Aligned(job.start, lists, job.vpg, pool) && Outcome(job, db)
    requires 0 <= i < |pool.disks| && 0 <= j < |pool.rows|
    requires |Mine(lists[pool.disks[i]], job.vpg, pool.pRaid)| == |pool.rows| && pool.disks[i] in job.start.drives
    ensures var m, cuts := Mine(lists[pool.disks[i]], job.vpg, pool.pRaid), CutsOn(job, pool.disks[i]);
            RowsMatch(db.chunks, SplitRows(job, pool.rows)[j], |pool.disks|, i, PiecesAt(m, cuts)[j])
  {
    PoolCut(job, lists, pool, i, j);
    var m, cuts := Mine(lists[pool.disks[i]], job.vpg, pool.pRaid), CutsOn(job, pool.disks[i]);
    var c := pool.rows[j];
    TracedIs(job, c, m[j]);
    GroupsOnlyIfSplit(job, c);
    hide GoodJob, Outcome, Mine, CutsOn, RowGroups, RowSplit, RowKept, Aligned, Traced, ValidOrigin, RepsFor, InRow,
         RowFrom, Listed;
    var rows, pieces := NewRows(job, c), PiecesAt(m, cuts)[j];
    assert |rows| == |pieces|;
    forall g | 0 <= g < |rows| ensures InRow(db.chunks, rows[g], |pool.disks|, i, pieces[g]) {
      OutcomeRow(job, db, Origin(c, g), |pool.disks|, i, m[j]);
    }
  }

  lemma KeptMatch(job: Job, lists: DriveLists, db: Db, pool: Pool, i: int, j: int)
    requires GoodJob(job) && Listed(job.start, lists) && Aligned(job.start, lists, job.vpg, pool) && Outcome(job, db)
    requires 0 <= i < |pool.disks| && 0 <= j < |pool.rows| && j !in Worked(job, pool)
    requires |Mine(lists[pool.disks[i]], job.vpg, pool.pRaid)| == |pool.rows|
    ensures InRow(db.chunks, KeptRows(job, pool.rows)[j], |pool.disks|, i,
                  Mine(lists[pool.disks[i]], job.vpg, pool.pRaid)[j])
  {
    PoolCut(job, lists, pool, i, j);
    WorkedHas(job, pool, j);
    var s, c := Mine(lists[pool.disks[i]], job.vpg, pool.pRaid)[j], pool.rows[j];
    TracedIs(job, c, s);
    hide GoodJob, Outcome, Mine, CutsOn, RowGroups, RowSplit, RowKept, Aligned, Traced, ValidOrigin, RepsFor, InRow,
         RowFrom, Worked, Listed;
    OutcomeRow(job, db, Origin(c, -1), |pool.disks|, i, s);
  }

  /** The reserved segments of a drive of the pool afterwards. */
  lemma MineAfter(job: Job, lists: DriveLists, actions: seq<Action>, s: State, pool: Pool, i: int)
    requires Reclaims(job, lists, actions, s) && Aligned(job.start, lists, job.vpg, pool) && OnDrives(job, lists, pool)
    requires 0 <= i < |pool.disks|
    ensures var d, m := pool.disks[i], Mine(lists[pool.disks[i]], job.vpg, pool.pRaid);
            Mine(ListAfter(job, d, lists[d], actions), job.vpg, pool.pRaid)
            == Undone(m, Worked(job, pool))
               + Together(PiecesAt(m, CutsOn(job, d)), OrderOn(job, lists, actions, pool, i))
  {
    var d := pool.disks[i];
    PoolDrive(job, lists, actions, s, pool, i);
    PoolPlaces(job, lists, actions, s, pool, i);
    var m, us, cuts := Mine(lists[d], job.vpg, pool.pRaid), WorkedOn(actions, d), CutsOn(job, d);
    hide Reaches, Aligned, GoodJob, CutsOn, AllOff, SoundList, Cuttable, NewPieces, Mine, Worked, PlacesOf, Listed,
         Undone, Together, SetOf, PiecesAt, GroupsAt, Cutting, DistinctIds, Lists;
    WorkedOffArranges(lists[d], us, cuts, job.vpg, pool.pRaid);
    TogetherCutting(PiecesAt(m, cuts), PlacesOf(m, us));
    PiecesCount(job, lists, actions, s, pool, i);
    CuttingSame(PiecesAt(m, cuts), GroupsAt(m, cuts), PlacesOf(m, us));
  }

  lemma PiecesCount(job: Job, lists: DriveLists, actions: seq<Action>, s: State, pool: Pool, i: int)
    requires Reclaims(job, lists, actions, s) && Aligned(job.start, lists, job.vpg, pool) && OnDrives(job, lists, pool)
    requires 0 <= i < |pool.disks|
    ensures var m, cuts := Mine(lists[pool.disks[i]], job.vpg, pool.pRaid), CutsOn(job, pool.disks[i]);
            forall j | 0 <= j < |m| :: |PiecesAt(m, cuts)[j]| == |GroupsAt(m, cuts)[j]|
  {
    PoolHas(job.start, lists, job.vpg, pool, i);
    ReclaimsListed(job, lists, actions, s);
    var m, cuts := Mine(lists[pool.disks[i]], job.vpg, pool.pRaid), CutsOn(job, pool.disks[i]);
    hide Reaches, Aligned, GoodJob, CutsOn, Mine, Listed, RowSplit, RowKept, RowGroups, RepsFor, InRow;
    forall j | 0 <= j < |m| ensures |PiecesAt(m, cuts)[j]| == |GroupsAt(m, cuts)[j]| {
      PoolCut(job, lists, pool, i, j);
      TracedIs(job, pool.rows[j], m[j]);
      GroupsOnlyIfSplit(job, pool.rows[j]);
    }
  }

  lemma DriveStaysAligned(job: Job, lists: DriveLists, actions: seq<Action>, s: State, pool: Pool, i: int)
    requires Reclaims(job, lists, actions, s) && Aligned(job.start, lists, job.vpg, pool) && OnDrives(job, lists, pool)
    requires 0 <= i < |pool.disks|
    ensures DriveAligned(s.db.chunks, ListsAfter(job, lists, actions)[pool.disks[i]], job.vpg,
                         PoolAfter(job, pool, OrderOn(job, lists, actions, pool, i)), i)
  {
    var d := pool.disks[i];
    var m, cuts := Mine(lists[d], job.vpg, pool.pRaid), CutsOn(job, d);
    var order := OrderOn(job, lists, actions, pool, i);
    ReclaimsListed(job, lists, actions, s);
    ReclaimOutcomeOf(job, lists, actions, s);
    PoolHas(job.start, lists, job.vpg, pool, i);
    MineAfter(job, lists, actions, s, pool, i);
    hide Reaches, Aligned, GoodJob, CutsOn, Mine, Listed, Outcome, Worked, OrderOn, InRow, Undone, Together, ListAfter;
    forall j | 0 <= j < |m| && j !in Worked(job, pool)
      ensures InRow(s.db.chunks, KeptRows(job, pool.rows)[j], |pool.disks|, i, m[j])
    {
      KeptMatch(job, lists, s.db, pool, i, j);
    }
    UndoneMatch(s.db.chunks, KeptRows(job, pool.rows), |pool.disks|, i, m, Worked(job, pool));
    forall j | 0 <= j < |m|
      ensures RowsMatch(s.db.chunks, SplitRows(job, pool.rows)[j], |pool.disks|, i, PiecesAt(m, cuts)[j])
    {
      PiecesMatch(job, lists, s.db, pool, i, j);
    }
    TogetherMatch(s.db.chunks, SplitRows(job, pool.rows), |pool.disks|, i, PiecesAt(m, cuts), order);
    MatchConcat(s.db.chunks, Undone(KeptRows(job, pool.rows), Worked(job, pool)),
                Together(SplitRows(job, pool.rows), order), |pool.disks|, i,
                Undone(m, Worked(job, pool)), Together(PiecesAt(m, cuts), order));
  }

  lemma ReclaimOutcomeOf(job: Job, lists: DriveLists, actions: seq<Action>, s: State)
    requires Reclaims(job, lists, actions, s)
    ensures GoodJob(job) && Outcome(job, s.db)
  {
    ReachedInv(job, actions, s);
    hide GoodJob, Inv, IsRun, After, Listed;
    DoneIsOutcome(job, s);
  }

  // ------------------------------------------------------------------- the pool

  /** The order in which the drives of the pool cut, when it is one. */
  ghost function TheOrder(job: Job, lists: DriveLists, actions: seq<Action>, pool: Pool): seq<int>
    requires Uniform(job.start.chunks) && OnDrives(job, lists, pool) && pool.disks != []
  {
    OrderOn(job, lists, actions, pool, 0)
  }

  /** Each chunk of the reclaimed pRaid stands behind one position of all its drives again. */
  lemma ReclaimKeepsAligned(job: Job, lists: DriveLists, actions: seq<Action>, s: State, pool: Pool)
    requires Reclaims(job, lists, actions, s) && Aligned(job.start, lists, job.vpg, pool)
    requires OneOrder(job, lists, actions, pool)
    ensures Aligned(s.db, ListsAfter(job, lists, actions), job.vpg,
                    PoolAfter(job, pool, TheOrder(job, lists, actions, pool)))
  {
    var after := PoolAfter(job, pool, TheOrder(job, lists, actions, pool));
    forall i | 0 <= i < |pool.disks|
      ensures DriveAligned(s.db.chunks, ListsAfter(job, lists, actions)[pool.disks[i]], job.vpg, after, i)
    {
      hide Reclaims, Aligned, DriveAligned, OrderOn, PoolAfter, ListsAfter;
      DriveStaysAligned(job, lists, actions, s, pool, i);
    }
    hide Reclaims, DriveAligned, OrderOn, KeptRows, SplitRows, ListsAfter, Undone, Together;
  }

  lemma OrderHas(job: Job, lists: DriveLists, actions: seq<Action>, s: State, pool: Pool, i: int, j: int)
    requires Reclaims(job, lists, actions, s) && Aligned(job.start, lists, job.vpg, pool) && OnDrives(job, lists, pool)
    requires 0 <= i < |pool.disks|
    ensures j in OrderOn(job, lists, actions, pool, i)
       <==> 0 <= j < |pool.rows| && RowGroups(job, pool.rows[j]) != []
  {
    var d := pool.disks[i];
    ReclaimsListed(job, lists, actions, s);
    PoolHas(job.start, lists, job.vpg, pool, i);
    PoolPlace(job, lists, actions, s, pool, i, j);
    OrderIs(job, lists, actions, pool, i);
    hide *;
    WorkedHas(job, pool, j);
    var m, us, cuts := Mine(lists[d], job.vpg, pool.pRaid), WorkedOn(actions, d), CutsOn(job, d);
    CutOrderHas(m, us, cuts, j);
    if 0 <= j < |pool.rows| {
      PoolCut(job, lists, pool, i, j);
      SplitNotKept(job, pool.rows[j]);
    }
  }

  lemma CutOrderHas(m: seq<Segment>, us: seq<Uuid>, cuts: map<Uuid, Cut>, j: int)
    ensures j in CutOrder(m, us, cuts)
       <==> j in PlacesOf(m, us) && 0 <= j < |m| && CutOf(cuts, m[j].uuid).groups != []
  {
    CuttingHas(GroupsAt(m, cuts), PlacesOf(m, us), j);
  }

  lemma SplitNotKept(job: Job, c: int)
    requires Uniform(job.start.chunks)
    ensures RowGroups(job, c) != [] ==> !RowKept(job, c)
  {
    hide GroupsOf;
  }

  /** A new chunk that comes from a chunk of the pool is one of the pool again. */
  lemma NewRowBacked(job: Job, lists: DriveLists, actions: seq<Action>, s: State, pool: Pool, x: int)
    requires Reclaims(job, lists, actions, s) && Aligned(job.start, lists, job.vpg, pool)
    requires OnDrives(job, lists, pool) && 0 <= x < |AllOrigins(job)| && AllOrigins(job)[x].c in pool.rows
    requires ValidOrigin(job.start.chunks, job.start.volumes, AllOrigins(job)[x])
    ensures x in PoolAfter(job, pool, TheOrder(job, lists, actions, pool)).rows
  {
    ReclaimsListed(job, lists, actions, s);
    PoolDisks(job.start, lists, job.vpg, pool);
    hide *;
    var o, order := AllOrigins(job)[x], TheOrder(job, lists, actions, pool);
    var j :| 0 <= j < |pool.rows| && pool.rows[j] == o.c;
    RowFromOnly(job, x);
    OriginKind(job, o);
    if o.g == -1 {
      WorkedHas(job, pool, j);
      KeptIsIn(job, pool, order, j, x);
    } else {
      FirstOrder(job, lists, actions, pool);
      OrderHas(job, lists, actions, s, pool, 0, j);
      SplitIsIn(job, pool, order, j, o.g, x);
    }
  }

  lemma PoolDisks(db: Db, lists: DriveLists, vpg: VolumeID, pool: Pool)
    requires Aligned(db, lists, vpg, pool)
    ensures pool.disks != []
  {
    hide DriveAligned;
  }

  lemma FirstOrder(job: Job, lists: DriveLists, actions: seq<Action>, pool: Pool)
    requires Uniform(job.start.chunks) && OnDrives(job, lists, pool) && pool.disks != []
    ensures OnDrives(job, lists, pool) ==> pool.disks[0] in lists && pool.disks[0] in job.start.drives
    ensures TheOrder(job, lists, actions, pool) == OrderOn(job, lists, actions, pool, 0)
  {
    hide OrderOn;
  }

  lemma KeptIsIn(job: Job, pool: Pool, order: seq<int>, j: int, x: int)
    requires Uniform(job.start.chunks) && 0 <= j < |pool.rows| && j !in Worked(job, pool)
    requires RowFrom(job, Origin(pool.rows[j], -1)) == x
    ensures x in PoolAfter(job, pool, order).rows
  {
    UndoneHas(KeptRows(job, pool.rows), Worked(job, pool));
    hide Worked, RowFrom, Undone, Together;
    assert KeptRows(job, pool.rows)[j] == x;
  }

  lemma SplitIsIn(job: Job, pool: Pool, order: seq<int>, j: int, g: int, x: int)
    requires Uniform(job.start.chunks) && 0 <= j < |pool.rows| && j in order
    requires 0 <= g < |RowGroups(job, pool.rows[j])| && RowFrom(job, Origin(pool.rows[j], g)) == x
    ensures x in PoolAfter(job, pool, order).rows
  {
    TogetherHas(SplitRows(job, pool.rows), order, x);
    hide Worked, RowFrom, Undone, Together, RowGroups;
    assert NewRows(job, pool.rows[j])[g] == x;
    var t :| 0 <= t < |order| && order[t] == j;
    assert InPart(SplitRows(job, pool.rows), order, t, x);
  }

  lemma OriginKind(job: Job, o: Origin)
    requires Uniform(job.start.chunks) && ValidOrigin(job.start.chunks, job.start.volumes, o)
    ensures o == Origin(o.c, o.g)
    ensures o.g == -1 ==> RowKept(job, o.c)
    ensures o.g != -1 ==> 0 <= o.g < |RowGroups(job, o.c)|
  {
    hide GroupsOf, KeptWhole;
  }

  // ------------------------------------------------------ how the order gets lost

  lemma {:induction false} OriginsAscend(chunks: seq<Chunk>, n: int, volumes: seq<seq<Segment>>, x: int, y: int)
    requires 0 <= n <= |chunks| && forall c | 0 <= c < |chunks| :: HasRef(chunks[c])
    requires 0 <= x <= y < |Origins(chunks, n, volumes)|
    ensures Origins(chunks, n, volumes)[x].c <= Origins(chunks, n, volumes)[y].c
    decreases n
  {
    hide OriginsAt;
    var prev, here := Origins(chunks, n - 1, volumes), OriginsAt(chunks[n - 1], n - 1, volumes);
    if y < |prev| {
      OriginsAscend(chunks, n - 1, volumes, x, y);
    } else if x < |prev| {
      OriginsBelow(chunks, n - 1, volumes, x);
    }
  }

  /** A kept chunk moves in front of the pieces of a chunk that was split, whichever came first: if the split one did,
      the lists of the pool do not follow the chunks any more, and the next reclaim must not be interrupted. */
  lemma SplitFallsBehind(job: Job, lists: DriveLists, actions: seq<Action>, s: State, pool: Pool, j: int, k: int)
    returns (a: int, b: int)
    requires Reclaims(job, lists, actions, s) && Aligned(job.start, lists, job.vpg, pool)
    requires OneOrder(job, lists, actions, pool) && 0 <= j < |pool.rows| && 0 <= k < |pool.rows|
    requires RowGroups(job, pool.rows[j]) != [] && RowKept(job, pool.rows[k]) && pool.rows[j] < pool.rows[k]
    ensures OnDrives(job, lists, pool) && pool.disks != []
    ensures var rows := PoolAfter(job, pool, TheOrder(job, lists, actions, pool)).rows;
            0 <= a < b < |rows| && rows[b] < rows[a]
  {
    ReclaimsListed(job, lists, actions, s);
    hide *;
    PoolDisks(job.start, lists, job.vpg, pool);
    OneOrderOn(job, lists, actions, pool);
    SplitInOrder(job, lists, actions, s, pool, j);
    a, b := RowsDisordered(job, pool, TheOrder(job, lists, actions, pool), j, k);
  }

  lemma SplitInOrder(job: Job, lists: DriveLists, actions: seq<Action>, s: State, pool: Pool, j: int)
    requires Reclaims(job, lists, actions, s) && Aligned(job.start, lists, job.vpg, pool)
    requires OnDrives(job, lists, pool) && pool.disks != [] && 0 <= j < |pool.rows|
    requires Uniform(job.start.chunks) && RowGroups(job, pool.rows[j]) != []
    ensures j in TheOrder(job, lists, actions, pool)
  {
    hide *;
    FirstOrder(job, lists, actions, pool);
    OrderHas(job, lists, actions, s, pool, 0, j);
  }

  lemma RowsDisordered(job: Job, pool: Pool, order: seq<int>, j: int, k: int) returns (a: int, b: int)
    requires Uniform(job.start.chunks) && 0 <= j < |pool.rows| && 0 <= k < |pool.rows| && j in order
    requires RowGroups(job, pool.rows[j]) != [] && RowKept(job, pool.rows[k]) && pool.rows[j] < pool.rows[k]
    ensures var rows := PoolAfter(job, pool, order).rows; 0 <= a < b < |rows| && rows[b] < rows[a]
  {
    hide *;
    WorkedHas(job, pool, k);
    a := KeptStands(job, pool, k);
    var i := SplitStands(job, pool, order, j);
    RowsOf(job, pool, order, a, i);
    FromSplitAndKept(job, pool.rows[j], pool.rows[k]);
    b := |Undone(KeptRows(job, pool.rows), Worked(job, pool))| + i;
  }

  lemma OneOrderOn(job: Job, lists: DriveLists, actions: seq<Action>, pool: Pool)
    requires Uniform(job.start.chunks) && OneOrder(job, lists, actions, pool)
    ensures OnDrives(job, lists, pool)
  {
    hide OrderOn;
  }

  lemma KeptStands(job: Job, pool: Pool, k: int) returns (a: int)
    requires Uniform(job.start.chunks) && 0 <= k < |pool.rows| && k !in Worked(job, pool)
    ensures var kept := Undone(KeptRows(job, pool.rows), Worked(job, pool));
            0 <= a < |kept| && kept[a] == RowFrom(job, Origin(pool.rows[k], -1))
  {
    UndoneHas(KeptRows(job, pool.rows), Worked(job, pool));
    hide Worked, RowFrom, Undone;
    var kept := Undone(KeptRows(job, pool.rows), Worked(job, pool));
    assert KeptRows(job, pool.rows)[k] in kept;
    a :| 0 <= a < |kept| && kept[a] == KeptRows(job, pool.rows)[k];
  }

  lemma SplitStands(job: Job, pool: Pool, order: seq<int>, j: int) returns (b: int)
    requires Uniform(job.start.chunks) && 0 <= j < |pool.rows| && j in order && RowGroups(job, pool.rows[j]) != []
    ensures var cut := Together(SplitRows(job, pool.rows), order);
            0 <= b < |cut| && cut[b] == RowFrom(job, Origin(pool.rows[j], 0))
  {
    var x := NewRows(job, pool.rows[j])[0];
    TogetherHas(SplitRows(job, pool.rows), order, x);
    hide RowFrom, Together, RowGroups;
    var t :| 0 <= t < |order| && order[t] == j;
    assert InPart(SplitRows(job, pool.rows), order, t, x);
    var cut := Together(SplitRows(job, pool.rows), order);
    b :| 0 <= b < |cut| && cut[b] == x;
  }

  lemma RowsOf(job: Job, pool: Pool, order: seq<int>, a: int, b: int)
    requires Uniform(job.start.chunks)
    ensures var kept, cut := Undone(KeptRows(job, pool.rows), Worked(job, pool)),
                Together(SplitRows(job, pool.rows), order);
            var rows := PoolAfter(job, pool, order).rows;
            && |rows| == |kept| + |cut|
            && (0 <= a < |kept| ==> rows[a] == kept[a]) && (0 <= b < |cut| ==> rows[|kept| + b] == cut[b])
  {
    hide Worked, Undone, Together, KeptRows, SplitRows;
  }

  lemma FromSplitAndKept(job: Job, c: int, d: int)
    requires Uniform(job.start.chunks) && RowGroups(job, c) != [] && RowKept(job, d) && c < d
    ensures RowFrom(job, Origin(c, 0)) < RowFrom(job, Origin(d, -1))
  {
    SplitOrigin(job, c, 0);
    KeptOrigin(job, d);
    RowFromIs(job, Origin(c, 0));
    RowFromIs(job, Origin(d, -1));
    var x, y := RowFrom(job, Origin(d, -1)), RowFrom(job, Origin(c, 0));
    hide RowFrom, ValidOrigin, Origins, RowGroups, RowKept;
    if x <= y {
      OriginsAscend(job.start.chunks, |job.start.chunks|, job.start.volumes, x, y);
    }
  }
}
