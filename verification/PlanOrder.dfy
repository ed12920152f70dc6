/** The order in which a reclaim works its plan off: the segments it removes, then those it replaces, chunk by chunk and
    within a chunk drive by drive. */
module PlanOrder {
  import opened Ranges
  import opened Drives
  import opened DriveStore
  import opened Orders
  import opened Chunks
  import opened ReclaimPlan
  import opened Reclaim
  import opened ReclaimFlags
  import opened ReclaimRun
  import opened ReclaimOrder
  import opened ReclaimLists
  import opened ReclaimPools

  type Item = (DiskID, Uuid)

  function ItemsOf(segs: seq<Segment>): (r: seq<Item>)
    ensures |r| == |segs| && forall i | 0 <= i < |r| :: r[i] == (segs[i].diskID, segs[i].uuid)
  {
    seq(|segs|, i requires 0 <= i < |segs| => (segs[i].diskID, segs[i].uuid))
  }

  function Originals(rs: seq<Replacement>): (r: seq<Segment>)
    ensures |r| == |rs| && forall i | 0 <= i < |r| :: r[i] == rs[i].original
  {
    seq(|rs|, i requires 0 <= i < |rs| => rs[i].original)
  }

  ghost function PlanSegments(job: Job): seq<Segment>
    requires Uniform(job.start.chunks)
  {
    PlanOf(job).removals + Originals(PlanOf(job).replacements)
  }

  /** What the apply phase goes through, without a crash. */
  ghost function PlanItems(job: Job): seq<Item>
    requires Uniform(job.start.chunks)
  {
    ItemsOf(PlanSegments(job))
  }

  // -------------------------------------------------------- where a segment comes

  /** The replacements of the chunks before `n`. */
  ghost function PlannedBefore(job: Job, n: int): seq<Replacement>
    requires Uniform(job.start.chunks) && 0 <= n <= |job.start.chunks|
  {
    PlanFor(job.start.chunks[..n], job.start.volumes, job.names, job.multiplier).replacements
  }

  lemma PlannedNext(job: Job, n: int)
    requires Uniform(job.start.chunks) && 0 <= n < |job.start.chunks|
    ensures PlannedBefore(job, n + 1)
         == PlannedBefore(job, n) + HereItems(job.start.chunks[n], job.start.volumes, job.names)
  {
    ReplacementsStep(job.start.chunks, n + 1, job.start.volumes, job.names, job.multiplier);
    hide PlanFor, HereItems;
  }

  ghost function Start(job: Job, n: int): int
    requires Uniform(job.start.chunks) && 0 <= n <= |job.start.chunks|
  {
    |PlannedBefore(job, n)|
  }

  lemma StartStep(job: Job, n: int)
    requires Uniform(job.start.chunks) && 0 <= n < |job.start.chunks|
    ensures Start(job, n + 1) == Start(job, n)
                                 + |HereItems(job.start.chunks[n], job.start.volumes, job.names)|
  {
    hide PlannedBefore, HereItems;
    PlannedNext(job, n);
  }

  lemma {:induction false} StartGrows(job: Job, m: int, n: int)
    requires Uniform(job.start.chunks) && 0 <= m <= n <= |job.start.chunks|
    ensures Start(job, m) <= Start(job, n)
    decreases n
  {
    hide *;
    if m < n {
      StartGrows(job, m, n - 1);
      StartStep(job, n - 1);
    }
  }

  lemma {:induction false} PlanPrefix(job: Job, m: int, n: int)
    requires Uniform(job.start.chunks) && 0 <= m <= n <= |job.start.chunks|
    ensures PlannedBefore(job, m) <= PlannedBefore(job, n)
    decreases n
  {
    hide *;
    if m < n {
      PlanPrefix(job, m, n - 1);
      PlannedNext(job, n - 1);
    }
  }

  lemma WholePlan(job: Job)
    requires Uniform(job.start.chunks)
    ensures PlanFor(job.start.chunks[..|job.start.chunks|], job.start.volumes, job.names, job.multiplier) == PlanOf(job)
  {
    assert job.start.chunks[..|job.start.chunks|] == job.start.chunks;
    hide PlanFor;
  }

  lemma OnePRaid(pRaids: seq<seq<Segment>>)
    requires |pRaids| == 1
    ensures Flatten(pRaids) == pRaids[0]
  {
    assert pRaids[1..] == [];
  }

  lemma HereAt(job: Job, c: int, n: int, i: int, s: Segment)
    requires Uniform(job.start.chunks) && InRow(job.start.chunks, c, n, i, s) && RowSplit(job, c)
    ensures var here := HereItems(job.start.chunks[c], job.start.volumes, job.names);
            |here| == n && here[i].original == s
  {
    OnePRaid(job.start.chunks[c].pRaids);
    hide GroupsOf, Flatten, TotalBlocks, RangesNaming;
  }

  ghost function PlanIndex(job: Job, c: int, i: int): int
    requires Uniform(job.start.chunks) && 0 <= c < |job.start.chunks|
  {
    |PlanOf(job).removals| + Start(job, c) + i
  }

  /** The segment of a split chunk on drive `i` stands in the plan behind those of the chunks before. */
  lemma PlanHas(job: Job, c: int, n: int, i: int, s: Segment)
    requires Uniform(job.start.chunks) && InRow(job.start.chunks, c, n, i, s) && RowSplit(job, c)
    ensures 0 <= PlanIndex(job, c, i) < |PlanSegments(job)| && PlanSegments(job)[PlanIndex(job, c, i)] == s
    ensures PlanItems(job)[PlanIndex(job, c, i)] == (s.diskID, s.uuid)
  {
    var chunks, volumes := job.start.chunks, job.start.volumes;
    PlanPrefix(job, c + 1, |chunks|);
    WholePlan(job);
    HereAt(job, c, n, i, s);
    ReplacementsStep(chunks, c + 1, volumes, job.names, job.multiplier);
    hide PlanFor, HereItems, RowSplit;
    var here := PlanFor(chunks[..c + 1], volumes, job.names, job.multiplier).replacements;
    assert here[Start(job, c) + i].original == s;
    assert PlanOf(job).replacements[Start(job, c) + i] == here[Start(job, c) + i];
    assert Originals(PlanOf(job).replacements)[Start(job, c) + i] == s;
  }

  lemma PlanAscends(job: Job, c: int, n: int, i: int, s: Segment, d: int, k: int)
    requires Uniform(job.start.chunks) && InRow(job.start.chunks, c, n, i, s) && RowSplit(job, c)
    requires c < d < |job.start.chunks| && 0 <= k
    ensures PlanIndex(job, c, i) < PlanIndex(job, d, k)
  {
    HereAt(job, c, n, i, s);
    StartStep(job, c);
    StartGrows(job, c + 1, d);
    hide Start, HereItems, PlanOf;
  }

  // ------------------------------------------------------------ each segment once

  lemma {:induction false} FlattenDistinct(pRaids: seq<seq<Segment>>)
    requires forall p | 0 <= p < |pRaids| :: DistinctIds(pRaids[p])
    requires forall p, q, k, m | 0 <= p < q < |pRaids| && 0 <= k < |pRaids[p]| && 0 <= m < |pRaids[q]| ::
               pRaids[p][k].uuid != pRaids[q][m].uuid
    ensures DistinctIds(Flatten(pRaids))
    decreases |pRaids|
  {
    if pRaids != [] {
      var tail := pRaids[1..];
      FlattenDistinct(tail);
      var rest := Flatten(tail);
      forall k, x | 0 <= k < |pRaids[0]| && 0 <= x < |rest| ensures pRaids[0][k].uuid != rest[x].uuid {
        FlattenHas(tail, rest[x]);
        var q, m :| 0 <= q < |tail| && 0 <= m < |tail[q]| && tail[q][m] == rest[x];
        assert tail[q] == pRaids[q + 1];
      }
      hide Flatten;
      DistinctConcat(pRaids[0], rest);
      assert Flatten(pRaids) == pRaids[0] + rest by { FlattenFront(pRaids); }
    }
  }

  lemma FlattenFront(pRaids: seq<seq<Segment>>)
    requires pRaids != []
    ensures Flatten(pRaids) == pRaids[0] + Flatten(pRaids[1..])
  {
  }

  lemma DistinctConcat(a: seq<Segment>, b: seq<Segment>)
    requires DistinctIds(a) && DistinctIds(b)
    requires forall k, x | 0 <= k < |a| && 0 <= x < |b| :: a[k].uuid != b[x].uuid
    ensures DistinctIds(a + b)
  {
  }

  lemma ChunkDistinctIds(job: Job, c: int)
    requires GoodJob(job) && 0 <= c < |job.start.chunks|
    ensures DistinctIds(Flatten(job.start.chunks[c].pRaids))
  {
    var chunks := job.start.chunks;
    var pRaids: seq<seq<Segment>> := chunks[c].pRaids;
    assert ChunksDistinct(chunks);
    hide GoodJob;
    forall p, q, k, m | 0 <= p < |pRaids| && 0 <= q < |pRaids| && 0 <= k < |pRaids[p]| && 0 <= m < |pRaids[q]|
        && (p != q || k != m)
      ensures pRaids[p][k].uuid != pRaids[q][m].uuid
    {
      assert Pos(chunks, c, p, k) && Pos(chunks, c, q, m);
      assert At(chunks, c, p, k) == pRaids[p][k] && At(chunks, c, q, m) == pRaids[q][m];
    }
    FlattenDistinct(pRaids);
  }

  /** Segments of different chunks have different names. */
  lemma ChunksApart(job: Job, c: int, s: Segment, e: int, t: Segment)
    requires GoodJob(job) && 0 <= c < |job.start.chunks| && 0 <= e < |job.start.chunks|
    requires InChunk(job.start.chunks[c], s) && InChunk(job.start.chunks[e], t) && s.uuid == t.uuid
    ensures c == e
  {
    hide InChunk;
    var p, k := InChunkPos(job.start.chunks, c, s);
    var q, m := InChunkPos(job.start.chunks, e, t);
    SamePosition(job, c, p, k, e, q, m);
  }

  ghost predicate FromChunks(job: Job, n: int, segs: seq<Segment>) {
    forall x | 0 <= x < |segs| :: FromBelow(job, n, segs[x])
  }

  ghost predicate FromBelow(job: Job, n: int, s: Segment) {
    exists c :: 0 <= c < n && c < |job.start.chunks| && InChunk(job.start.chunks[c], s)
  }

  lemma MoreDistinct(job: Job, n: int, segs: seq<Segment>, more: seq<Segment>)
    requires GoodJob(job) && 0 <= n < |job.start.chunks| && FromChunks(job, n, segs) && DistinctIds(segs)
    requires more == [] || more == Flatten(job.start.chunks[n].pRaids)
    ensures FromChunks(job, n + 1, segs + more) && DistinctIds(segs + more)
  {
    ChunkDistinctIds(job, n);
    hide GoodJob, Flatten;
    forall x | 0 <= x < |segs| ensures FromBelow(job, n + 1, segs[x]) {
      assert FromBelow(job, n, segs[x]);
    }
    forall x | 0 <= x < |more| ensures FromBelow(job, n + 1, more[x]) {
      assert InChunk(job.start.chunks[n], more[x]);
    }
    forall k, x | 0 <= k < |segs| && 0 <= x < |more| ensures segs[k].uuid != more[x].uuid {
      assert FromBelow(job, n, segs[k]);
      var c :| 0 <= c < n && c < |job.start.chunks| && InChunk(job.start.chunks[c], segs[k]);
      assert InChunk(job.start.chunks[n], more[x]);
      if segs[k].uuid == more[x].uuid {
        ChunksApart(job, c, segs[k], n, more[x]);
      }
    }
    DistinctConcat(segs, more);
  }

  ghost function Part(job: Job, n: int): Plan
    requires Uniform(job.start.chunks) && 0 <= n <= |job.start.chunks|
  {
    PlanFor(job.start.chunks[..n], job.start.volumes, job.names, job.multiplier)
  }

  lemma PartStep(job: Job, n: int)
    requires Uniform(job.start.chunks) && 0 <= n < |job.start.chunks|
    ensures Part(job, n + 1).removals == Part(job, n).removals
            + if Dropped(job.start.chunks[n], job.start.volumes) then Flatten(job.start.chunks[n].pRaids) else []
    ensures Part(job, n + 1).replacements
            == Part(job, n).replacements + HereItems(job.start.chunks[n], job.start.volumes, job.names)
  {
    PlanStep(job.start.chunks, n + 1, job.start.volumes, job.names, job.multiplier);
    ReplacementsStep(job.start.chunks, n + 1, job.start.volumes, job.names, job.multiplier);
    hide PlanFor, GroupsOf, HereItems, Flatten, TotalBlocks;
  }

  lemma HereOriginals(c: Chunk, volumes: seq<seq<Segment>>, names: Names)
    requires HasRef(c)
    ensures Originals(HereItems(c, volumes, names)) == if SplitUp(c, volumes) then Flatten(c.pRaids) else []
  {
    hide GroupsOf, Flatten, SplitUp, TotalBlocks;
  }

  lemma OriginalsConcat(a: seq<Replacement>, b: seq<Replacement>)
    ensures Originals(a + b) == Originals(a) + Originals(b)
  {
  }

  lemma {:induction false} PartDistinct(job: Job, n: int)
    requires GoodJob(job) && 0 <= n <= |job.start.chunks|
    ensures DistinctIds(Part(job, n).removals) && FromChunks(job, n, Part(job, n).removals)
    ensures DistinctIds(Originals(Part(job, n).replacements))
            && FromChunks(job, n, Originals(Part(job, n).replacements))
    decreases n
  {
    if n == 0 {
      hide *;
      NoPart(job);
    } else {
      hide GoodJob, Part, Flatten, Dropped, SplitUp, HereItems, InChunk, FromChunks;
      PartDistinct(job, n - 1);
      PartStep(job, n - 1);
      var c, volumes := job.start.chunks[n - 1], job.start.volumes;
      HereOriginals(c, volumes, job.names);
      OriginalsConcat(Part(job, n - 1).replacements, HereItems(c, volumes, job.names));
      MoreDistinct(job, n - 1, Part(job, n - 1).removals, if Dropped(c, volumes) then Flatten(c.pRaids) else []);
      MoreDistinct(job, n - 1, Originals(Part(job, n - 1).replacements), Originals(HereItems(c, volumes, job.names)));
    }
  }

  lemma NoPart(job: Job)
    requires Uniform(job.start.chunks)
    ensures DistinctIds(Part(job, 0).removals) && FromChunks(job, 0, Part(job, 0).removals)
    ensures DistinctIds(Originals(Part(job, 0).replacements))
            && FromChunks(job, 0, Originals(Part(job, 0).replacements))
  {
    hide FromBelow;
    assert job.start.chunks[..0] == [];
    assert Part(job, 0).removals == [] && Originals(Part(job, 0).replacements) == [];
  }

  lemma RemovedIsDropped(job: Job, x: int) returns (c: int)
    requires GoodJob(job) && 0 <= x < |PlanOf(job).removals|
    ensures 0 <= c < |job.start.chunks| && InChunk(job.start.chunks[c], PlanOf(job).removals[x])
    ensures Dropped(job.start.chunks[c], job.start.volumes)
  {
    var s := PlanOf(job).removals[x];
    assert s in PlanOf(job).removals;
    PlanWhole(job.start, job.names, job.multiplier, s);
    hide GoodJob, PlanFor, InChunk, Dropped;
    c :| 0 <= c < |job.start.chunks| && Dropped(job.start.chunks[c], job.start.volumes)
      && InChunk(job.start.chunks[c], s);
  }

  lemma PlanSegmentsDistinct(job: Job)
    requires GoodJob(job)
    ensures DistinctIds(PlanSegments(job))
  {
    WholePlan(job);
    PartDistinct(job, |job.start.chunks|);
    hide GoodJob, PlanFor, Dropped, SplitUp, InChunk;
    var removals, replaced := PlanOf(job).removals, Originals(PlanOf(job).replacements);
    forall k, x | 0 <= k < |removals| && 0 <= x < |replaced| ensures removals[k].uuid != replaced[x].uuid {
      var c := RemovedIsDropped(job, k);
      var e := SplitChunk(job, x);
      NotDropped(job.start.chunks[e], job.start.volumes);
      if removals[k].uuid == replaced[x].uuid {
        ChunksApart(job, c, removals[k], e, replaced[x]);
      }
    }
    DistinctConcat(removals, replaced);
  }

  lemma PlanItemsOnce(job: Job)
    requires GoodJob(job)
    ensures NoneTwice(PlanItems(job))
  {
    PlanSegmentsDistinct(job);
    hide GoodJob, PlanSegments;
  }

  // ----------------------------------------------------------------- on one drive

  function Here(item: Item, d: DiskID): seq<Uuid> {
    if item.0 == d then [item.1] else []
  }

  function OfDrive(items: seq<Item>, d: DiskID): seq<Uuid> {
    if items == [] then [] else Here(items[0], d) + OfDrive(items[1..], d)
  }

  lemma {:induction false} OfDriveConcat(a: seq<Item>, b: seq<Item>, d: DiskID)
    ensures OfDrive(a + b, d) == OfDrive(a, d) + OfDrive(b, d)
    decreases |a|
  {
    hide Here;
    if a == [] {
      assert a + b == b;
    } else {
      assert (a + b)[1..] == a[1..] + b && (a + b)[0] == a[0];
      OfDriveConcat(a[1..], b, d);
      Assoc(Here(a[0], d), OfDrive(a[1..], d), OfDrive(b, d));
    }
  }

  lemma {:induction false} OfDriveHas(items: seq<Item>, d: DiskID, u: Uuid)
    ensures u in OfDrive(items, d) <==> (d, u) in items
    decreases |items|
  {
    if items != [] {
      OfDriveHas(items[1..], d, u);
      assert items == [items[0]] + items[1..];
      assert u in OfDrive(items, d) <==> u in Here(items[0], d) || u in OfDrive(items[1..], d);
    }
  }

  /** The order on a drive is the order of all. */
  lemma OfDriveBefore(items: seq<Item>, d: DiskID, u: Uuid, v: Uuid)
    requires Before(items, (d, u), (d, v))
    ensures Before(OfDrive(items, d), u, v)
  {
    var x, y :| BeforeAt(items, (d, u), (d, v), x, y);
    assert items == items[..y] + items[y..];
    OfDriveConcat(items[..y], items[y..], d);
    OfDriveHas(items[..y], d, u);
    OfDriveHas(items[y..], d, v);
    assert items[..y][x] == (d, u) && items[y..][0] == (d, v);
    hide OfDrive;
    BeforeConcat(OfDrive(items[..y], d), OfDrive(items[y..], d), u, v);
  }

  function ItemAt(a: Action): seq<Item> {
    if a.WorkOff? then [(a.d, a.u)] else []
  }

  /** What a run works off, in order, on all drives. */
  function WorkedItems(actions: seq<Action>): seq<Item> {
    if actions == [] then [] else ItemAt(actions[0]) + WorkedItems(actions[1..])
  }

  lemma {:induction false} WorkedItemsConcat(a: seq<Action>, b: seq<Action>)
    ensures WorkedItems(a + b) == WorkedItems(a) + WorkedItems(b)
    decreases |a|
  {
    hide ItemAt;
    if a == [] {
      assert a + b == b;
    } else {
      assert (a + b)[1..] == a[1..] + b && (a + b)[0] == a[0];
      WorkedItemsConcat(a[1..], b);
      Assoc(ItemAt(a[0]), WorkedItems(a[1..]), WorkedItems(b));
    }
  }

  lemma {:induction false} WorkedOfDrive(actions: seq<Action>, d: DiskID)
    ensures WorkedOn(actions, d) == OfDrive(WorkedItems(actions), d)
    decreases |actions|
  {
    if actions != [] {
      WorkedOfDrive(actions[1..], d);
      OfDriveConcat(ItemAt(actions[0]), WorkedItems(actions[1..]), d);
      assert OfDrive(ItemAt(actions[0]), d) == WorkedHere(actions[0], d) by {
        assert ItemAt(actions[0]) != [] ==> ItemAt(actions[0])[1..] == [];
      }
      hide OfDrive, ItemAt, WorkedHere;
    }
  }
}
