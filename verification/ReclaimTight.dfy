/** The main results on a finished reclaim: it is sound and tight, its chunks tile the reserved volume,
    and doing it again finds nothing. */
module ReclaimTight {
  import opened Ranges
  import opened Drives
  import opened Redo
  import opened Arith
  import opened Chunks
  import opened ReclaimPlan
  import opened Reclaim
  import opened ReclaimFlags
  import opened ReclaimRun
  import opened ReclaimSafety
  import opened ReclaimOutcome
  import opened ReclaimConsistent

  // -------------------------------------------------- when nothing is found

  lemma FullWhenCounted(used: set<int>, all: set<int>)
    requires used <= all && all != {}
    ensures used != {} && |used| == |all| <==> used == all
  {
    if |used| == |all| {
      SameWhenFull(used, all);
    }
  }

  /** A chunk is kept whole exactly when each of its segments is used to the last block. */
  lemma KeptIffFull(db: Db, vpg: VolumeID, names: Names, c: int, p: int, k: int)
    requires Consistent(db, vpg) && Pos(db.chunks, c, p, k)
    ensures HasRef(db.chunks[c])
    ensures KeptWhole(db.chunks[c], db.volumes)
            <==> UsedOf(db, At(db.chunks, c, p, k)) == BlocksOf(At(db.chunks, c, p, k).Span())
  {
    hide Agreeing, SharedGaps, UsedOf, GroupsOf, Dropped;
    var s := At(db.chunks, c, p, k);
    RunsOfUse(db, vpg, names, c, p, k);
    DocsShowUse(db, vpg, c, p, k);
    ChunkFacts(db, vpg, c, p, k);
    assert WellPlaced(db.drives[s.diskID], s);
    hide IsRuns, ValidDoc;
    assert s.lbs in BlocksOf(s.Span());
    FullWhenCounted(UsedOf(db, s), BlocksOf(s.Span()));
  }

  ghost predicate AllKept(chunks: seq<Chunk>, n: int, volumes: seq<seq<Segment>>)
    requires 0 <= n <= |chunks| && forall c | 0 <= c < |chunks| :: HasRef(chunks[c])
  {
    forall c | 0 <= c < n :: KeptWhole(chunks[c], volumes)
  }

  lemma FlattenNonempty(c: Chunk)
    requires HasRef(c)
    ensures Flatten(c.pRaids) != []
  {
    FlattenHas(c.pRaids, Ref(c));
  }

  lemma {:induction false} NothingFound(chunks: seq<Chunk>, n: int, volumes: seq<seq<Segment>>, names: Names, m: int)
    requires 0 <= n <= |chunks| && forall c | 0 <= c < |chunks| :: HasRef(chunks[c])
    ensures var plan := PlanFor(chunks[..n], volumes, names, m);
            plan.removals == [] && plan.replacements == [] <==> AllKept(chunks, n, volumes)
    decreases n
  {
    hide GroupsOf, RangesNaming;
    if n > 0 {
      NothingFound(chunks, n - 1, volumes, names, m);
      PlanStep(chunks, n, volumes, names, m);
      hide PlanFor;
      FlattenNonempty(chunks[n - 1]);
    }
  }

  /** The identification comes up empty exactly when every reserved segment is fully used. */
  lemma NothingToReclaimIffTight(db: Db, vpg: VolumeID, names: Names, m: int)
    requires Consistent(db, vpg)
    ensures var plan := PlanFor(db.chunks, db.volumes, names, m);
            plan.removals == [] && plan.replacements == [] <==> Tight(db)
  {
    hide PlanFor, UsedOf, KeptWhole;
    assert db.chunks[..|db.chunks|] == db.chunks;
    NothingFound(db.chunks, |db.chunks|, db.volumes, names, m);
    forall c, p, k | Pos(db.chunks, c, p, k)
      ensures KeptWhole(db.chunks[c], db.volumes)
              <==> UsedOf(db, At(db.chunks, c, p, k)) == BlocksOf(At(db.chunks, c, p, k).Span())
    {
      KeptIffFull(db, vpg, names, c, p, k);
    }
    assert forall c | 0 <= c < |db.chunks| :: HasRef(db.chunks[c]) && Pos(db.chunks, c, 0, 0);
  }

  // -------------------------------------------------------- virtual tiling

  function FirstGroup(c: Chunk, groups: seq<Range>, i: int, names: Names, vlbs: int, m: int): (r: Chunk)
    requires HasRef(c) && 0 <= i < |groups|
    ensures HasRef(r) && Ref(r).Span().Blocks() == groups[i].Blocks()
  {
    Chunk(vlbs, vlbs + groups[i].Blocks() * m - 1, MovedPRaids(c, groups[i], i, names))
  }

  lemma {:induction false} GroupsTile(c: Chunk, groups: seq<Range>, i: int, names: Names, vlbs: int, m: int)
    requires HasRef(c) && 0 <= i <= |groups|
    ensures Tiles(GroupChunks(c, groups, i, names, vlbs, m), vlbs, vlbs + TotalBlocks(groups[i..]) * m, m)
    decreases |groups| - i
  {
    if i < |groups| {
      var size := groups[i].Blocks() * m;
      GroupsTile(c, groups, i + 1, names, vlbs + size, m);
      var first, rest := FirstGroup(c, groups, i, names, vlbs, m), GroupChunks(c, groups, i + 1, names, vlbs + size, m);
      assert GroupChunks(c, groups, i, names, vlbs, m) == [first] + rest;
      assert groups[i..][1..] == groups[i + 1..];
      assert TotalBlocks(groups[i..]) == groups[i].Blocks() + TotalBlocks(groups[i + 1..]);
      hide Tiles, TotalBlocks, GroupChunks, MovedPRaids;
      Distribute(groups[i].Blocks(), TotalBlocks(groups[i + 1..]), m);
      TilesCons(first, rest, vlbs, vlbs + size + TotalBlocks(groups[i + 1..]) * m, m);
    }
  }

  lemma HereTiles(c: Chunk, volumes: seq<seq<Segment>>, names: Names, vlbs: int, m: int)
    requires HasRef(c)
    ensures Tiles(ChunksHere(c, volumes, names, vlbs, m), vlbs,
                  vlbs + (if Dropped(c, volumes) then 0 else TotalBlocks(GroupsOf(c, volumes)) * m), m)
  {
    hide GroupsOf, RangesNaming;
    if KeptWhole(c, volumes) {
      var kept := c.(vlbs := vlbs, vlbe := vlbs + Ref(c).Span().Blocks() * m - 1);
      assert ChunksHere(c, volumes, names, vlbs, m) == [kept];
      assert Ref(kept) == Ref(c) && [kept][1..] == [];
    } else if SplitUp(c, volumes) {
      GroupsTile(c, GroupsOf(c, volumes), 0, names, vlbs, m);
      assert GroupsOf(c, volumes)[0..] == GroupsOf(c, volumes);
    }
  }

  lemma TilesStep(prev: Plan, next: Plan, c: Chunk, volumes: seq<seq<Segment>>, names: Names, m: int)
    requires HasRef(c) && Tiles(prev.chunks, 0, prev.vlbs, m)
    requires next.chunks == prev.chunks + ChunksHere(c, volumes, names, prev.vlbs, m)
    requires next.vlbs == prev.vlbs + if Dropped(c, volumes) then 0 else TotalBlocks(GroupsOf(c, volumes)) * m
    ensures Tiles(next.chunks, 0, next.vlbs, m)
  {
    hide ChunksHere, GroupsOf, Tiles, TotalBlocks, Dropped;
    HereTiles(c, volumes, names, prev.vlbs, m);
    TilesConcat(prev.chunks, ChunksHere(c, volumes, names, prev.vlbs, m), 0, prev.vlbs, next.vlbs, m);
  }

  /** The chunks a plan leaves tile the virtual range of the reserved volume from 0. */
  lemma {:induction false} PlanTiles(chunks: seq<Chunk>, n: int, volumes: seq<seq<Segment>>, names: Names, m: int)
    requires 0 <= n <= |chunks| && forall c | 0 <= c < |chunks| :: HasRef(chunks[c])
    ensures Tiles(PlanFor(chunks[..n], volumes, names, m).chunks, 0, PlanFor(chunks[..n], volumes, names, m).vlbs, m)
    decreases n
  {
    if n == 0 {
      EmptyPlan(chunks, volumes, names, m);
      hide PlanFor;
    } else {
      hide *;
      PlanTiles(chunks, n - 1, volumes, names, m);
      ChunksStep(chunks, n, volumes, names, m);
      TilesStep(PlanFor(chunks[..n - 1], volumes, names, m), PlanFor(chunks[..n], volumes, names, m), chunks[n - 1],
          volumes, names, m);
    }
  }

  // ------------------------------------------------------------ main results

  lemma DoneReached(job: Job, actions: seq<Action>, s: State)
    requires Reaches(job, actions, s) && s.phase == Done
    ensures GoodJob(job) && Outcome(job, s.db)
  {
    ReachedInv(job, actions, s);
    DoneIsOutcome(job, s);
  }

  /** However a reclaim ran and wherever it crashed: once done, the documents agree, no reserved block is
      unused, the rebuilt chunks tile the reserved volume, and a second identification finds nothing. */
  lemma ReclaimIsSound(job: Job, actions: seq<Action>, s: State, again: Names)
    requires Reaches(job, actions, s) && s.phase == Done
    ensures Consistent(s.db, job.vpg) && Tight(s.db)
    ensures Tiles(s.db.chunks, 0, PlanOf(job).vlbs, job.multiplier)
    ensures var plan := PlanFor(s.db.chunks, s.db.volumes, again, job.multiplier);
            plan.removals == [] && plan.replacements == []
  {
    DoneReached(job, actions, s);
    OutcomeIsConsistent(job, s.db);
    var chunks := job.start.chunks;
    assert chunks[..|chunks|] == chunks;
    PlanTiles(chunks, |chunks|, job.start.volumes, job.names, job.multiplier);
    assert s.db.chunks == PlanOf(job).chunks;
    hide GoodJob, Reaches, Outcome, PlanFor, Tiles, Tight, Consistent;
    NothingToReclaimIffTight(s.db, job.vpg, again, job.multiplier);
  }

  /** No block a derived volume uses was freed or moved: the segment covers the blocks it covered, on its
      disk and in its volume document, and lies inside exactly one live reserved segment, the one it names. */
  lemma DerivedSegmentsSurvive(job: Job, actions: seq<Action>, s: State, v: int, i: int)
    requires Reaches(job, actions, s) && s.phase == Done
    requires 0 <= v < |job.start.volumes| && 0 <= i < |job.start.volumes[v]| && job.start.volumes[v][i].fromReserved
    ensures 0 <= v < |s.db.volumes| && 0 <= i < |s.db.volumes[v]|
    ensures var before, after := job.start.volumes[v][i], s.db.volumes[v][i];
            && after == before.(reservedUUID := after.reservedUUID)
            && OnDrive(s.db.drives, after)
            && BlocksOf(after.Span()) !! Free(s.db.drives[after.diskID])
            && HoldsOnly(s.db.drives[after.diskID], after.reservedUUID, after)
  {
    DoneReached(job, actions, s);
    VolumeFollowsDrive(job, v, i);
    RenameKeepsRest(job, job.start.volumes[v][i].diskID, job.start.volumes[v][i]);
    assert s.db.volumes[v] == RenamedVolume(job.start.volumes[v], UuidMap(PlanOf(job).replacements));
    OutcomeVolumesStored(job, s.db);
    var t := s.db.volumes[v][i];
    assert OnDrive(s.db.drives, t);
    OutcomeDrive(job, s.db, t.diskID);
    hide GoodJob, Outcome, Reaches, Followed, Renaming;
    InOneReservation(s.db.drives[t.diskID], t.uuid);
  }

  ghost predicate HoldsOnly(d: DriveDoc, u: Uuid, s: Segment) {
    && u in d.segs && d.segs[u].isReserved && s.Span().Within(d.segs[u].Span())
    && (forall w | w in d.segs && d.segs[w].isReserved && s.Span().Meets(d.segs[w].Span()) :: w == u)
  }

  lemma InOneReservation(d: DriveDoc, x: Uuid)
    requires ValidDoc(d) && x in d.segs && d.segs[x].fromReserved
    ensures HoldsOnly(d, d.segs[x].reservedUUID, d.segs[x])
    ensures BlocksOf(d.segs[x].Span()) !! Free(d)
  {
    var s := d.segs[x];
    assert WellPlaced(d, s);
    forall w | w in d.segs && d.segs[w].isReserved && s.Span().Meets(d.segs[w].Span()) ensures w == s.reservedUUID {
      var b := Max(s.lbs, d.segs[w].lbs);
      assert WellPlaced(d, d.segs[w]);
      assert s.Span().Has(b) && d.segs[w].Span().Has(b);
      OthersOnReserved(d, w, x, b);
    }
    forall b | b in BlocksOf(s.Span()) ensures b !in Free(d) {
      assert s.Span().Has(b);
    }
  }
}
