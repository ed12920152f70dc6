/** What a finished reclaim leaves behind: documents that agree again, reserved segments without a single
    unused block, and nothing more to reclaim. */
module ReclaimOutcome {
  import opened Ranges
  import opened Drives
  import opened Redo
  import opened Chunks
  import opened ReclaimPlan
  import opened Reclaim
  import opened ReclaimFlags
  import opened ReclaimRun
  import opened ReclaimSafety

  // ------------------------------------------------ where new chunks come from

  /** A chunk of the plan: chunk `c` kept whole (`g == -1`) or its used group `g`. */
  datatype Origin = Origin(c: int, g: int)

  ghost function OriginsAt(c: Chunk, i: int, volumes: seq<seq<Segment>>): (r: seq<Origin>)
    requires HasRef(c)
    ensures forall x | 0 <= x < |r| :: r[x].c == i
  {
    if Dropped(c, volumes) then []
    else if KeptWhole(c, volumes) then [Origin(i, -1)]
    else seq(|GroupsOf(c, volumes)|, g => Origin(i, g))
  }

  ghost function Origins(chunks: seq<Chunk>, n: int, volumes: seq<seq<Segment>>): seq<Origin>
    requires 0 <= n <= |chunks| && forall c | 0 <= c < |chunks| :: HasRef(chunks[c])
    decreases n
  {
    if n == 0 then [] else Origins(chunks, n - 1, volumes) + OriginsAt(chunks[n - 1], n - 1, volumes)
  }

  ghost predicate ValidOrigin(chunks: seq<Chunk>, volumes: seq<seq<Segment>>, o: Origin)
    requires forall c | 0 <= c < |chunks| :: HasRef(chunks[c])
  {
    && 0 <= o.c < |chunks|
    && ((o.g == -1 && KeptWhole(chunks[o.c], volumes))
        || (SplitUp(chunks[o.c], volumes) && 0 <= o.g < |GroupsOf(chunks[o.c], volumes)|))
  }

  ghost function OriginPRaids(chunks: seq<Chunk>, volumes: seq<seq<Segment>>, names: Names,
                              o: Origin): seq<seq<Segment>>
    requires forall c | 0 <= c < |chunks| :: HasRef(chunks[c])
    requires ValidOrigin(chunks, volumes, o)
  {
    if o.g == -1 then chunks[o.c].pRaids
    else MovedPRaids(chunks[o.c], GroupsOf(chunks[o.c], volumes)[o.g], o.g, names)
  }

  lemma {:induction false} GroupChunkAt(c: Chunk, groups: seq<Range>, i: int, names: Names, vlbs: int, m: int, j: int)
    requires HasRef(c) && 0 <= i <= |groups| && 0 <= j < |groups| - i
    ensures GroupChunks(c, groups, i, names, vlbs, m)[j].pRaids == MovedPRaids(c, groups[i + j], i + j, names)
    decreases j
  {
    if j > 0 {
      GroupChunkAt(c, groups, i + 1, names, vlbs + groups[i].Blocks() * m, m, j - 1);
    }
  }

  ghost function ChunksHere(c: Chunk, volumes: seq<seq<Segment>>, names: Names, vlbs: int, m: int): seq<Chunk>
    requires HasRef(c)
  {
    if Dropped(c, volumes) then []
    else if KeptWhole(c, volumes) then [c.(vlbs := vlbs, vlbe := vlbs + Ref(c).Span().Blocks() * m - 1)]
    else GroupChunks(c, GroupsOf(c, volumes), 0, names, vlbs, m)
  }

  lemma ChunksStep(chunks: seq<Chunk>, n: int, volumes: seq<seq<Segment>>, names: Names, m: int)
    requires 0 < n <= |chunks| && forall c | 0 <= c < |chunks| :: HasRef(chunks[c])
    ensures var prev := PlanFor(chunks[..n - 1], volumes, names, m);
            && PlanFor(chunks[..n], volumes, names, m).chunks
                == prev.chunks + ChunksHere(chunks[n - 1], volumes, names, prev.vlbs, m)
            && PlanFor(chunks[..n], volumes, names, m).vlbs
            == prev.vlbs +
                   if Dropped(chunks[n - 1], volumes) then 0 else TotalBlocks(GroupsOf(chunks[n - 1], volumes)) * m
  {
    PlanStep(chunks, n, volumes, names, m);
    hide *;
    DecideChunks(PlanFor(chunks[..n - 1], volumes, names, m), chunks[n - 1], volumes, names, m);
  }

  lemma DecideChunks(plan: Plan, c: Chunk, volumes: seq<seq<Segment>>, names: Names, m: int)
    requires HasRef(c)
    ensures var next := Decide(plan, c, RangesNaming(volumes, Ref(c).uuid), GroupsOf(c, volumes), names, m);
            && next.chunks == plan.chunks + ChunksHere(c, volumes, names, plan.vlbs, m)
            && next.vlbs == plan.vlbs + if Dropped(c, volumes) then 0 else TotalBlocks(GroupsOf(c, volumes)) * m
  {
    hide GroupsOf, GroupChunks, TotalBlocks, RangesNaming, Flatten, ReplacementItems;
  }

  lemma HereSpec(c: Chunk, i: int, chunks: seq<Chunk>, volumes: seq<seq<Segment>>, names: Names, vlbs: int, m: int)
    requires 0 <= i < |chunks| && chunks[i] == c && forall c | 0 <= c < |chunks| :: HasRef(chunks[c])
    ensures var here, os := ChunksHere(c, volumes, names, vlbs, m), OriginsAt(c, i, volumes);
            && |here| == |os|
            && (forall x | 0 <= x < |os| :: ValidOrigin(chunks, volumes, os[x]) && os[x].c == i
                                         && here[x].pRaids == OriginPRaids(chunks, volumes, names, os[x]))
  {
    hide GroupsOf, GroupChunks, TotalBlocks, RangesNaming;
    var here, os := ChunksHere(c, volumes, names, vlbs, m), OriginsAt(c, i, volumes);
    forall x | 0 <= x < |os|
      ensures ValidOrigin(chunks, volumes, os[x]) && here[x].pRaids == OriginPRaids(chunks, volumes, names, os[x])
    {
      if SplitUp(c, volumes) {
        GroupChunkAt(c, GroupsOf(c, volumes), 0, names, vlbs, m, x);
      }
    }
  }

  /** Each chunk comes from its origin. */
  ghost predicate ComeFrom(cs: seq<Chunk>, os: seq<Origin>, chunks: seq<Chunk>, n: int, volumes: seq<seq<Segment>>,
                           names: Names)
    requires forall c | 0 <= c < |chunks| :: HasRef(chunks[c])
  {
    && |os| == |cs|
    && (forall x | 0 <= x < |os| :: ValidOrigin(chunks, volumes, os[x]) && os[x].c < n
                                 && cs[x].pRaids == OriginPRaids(chunks, volumes, names, os[x]))
  }

  lemma ComeFromBoth(cs: seq<Chunk>, os: seq<Origin>, ds: seq<Chunk>, ps: seq<Origin>, chunks: seq<Chunk>, n: int,
                     volumes: seq<seq<Segment>>, names: Names)
    requires forall c | 0 <= c < |chunks| :: HasRef(chunks[c])
    requires ComeFrom(cs, os, chunks, n, volumes, names) && ComeFrom(ds, ps, chunks, n + 1, volumes, names)
    ensures ComeFrom(cs + ds, os + ps, chunks, n + 1, volumes, names)
  {
    hide ValidOrigin, OriginPRaids;
  }

  lemma HereComesFrom(chunks: seq<Chunk>, n: int, volumes: seq<seq<Segment>>, names: Names, vlbs: int, m: int)
    requires 0 <= n < |chunks| && forall c | 0 <= c < |chunks| :: HasRef(chunks[c])
    ensures ComeFrom(ChunksHere(chunks[n], volumes, names, vlbs, m), OriginsAt(chunks[n], n, volumes), chunks, n + 1,
            volumes, names)
  {
    hide ChunksHere, OriginsAt, ValidOrigin, OriginPRaids;
    HereSpec(chunks[n], n, chunks, volumes, names, vlbs, m);
  }

  lemma EmptyPlan(chunks: seq<Chunk>, volumes: seq<seq<Segment>>, names: Names, m: int)
    requires forall c | 0 <= c < |chunks| :: HasRef(chunks[c])
    ensures PlanFor(chunks[..0], volumes, names, m) == Plan([], [], [], 0)
  {
    hide GroupsOf, RangesNaming, TotalBlocks;
  }

  lemma ChunksAdded(chunks: seq<Chunk>, n: int, volumes: seq<seq<Segment>>, names: Names, m: int)
    requires 0 < n <= |chunks| && forall c | 0 <= c < |chunks| :: HasRef(chunks[c])
    ensures var prev := PlanFor(chunks[..n - 1], volumes, names, m);
            PlanFor(chunks[..n], volumes, names, m).chunks
                == prev.chunks + ChunksHere(chunks[n - 1], volumes, names, prev.vlbs, m)
  {
    hide *;
    ChunksStep(chunks, n, volumes, names, m);
  }

  lemma {:induction false} PlanComesFrom(chunks: seq<Chunk>, n: int, volumes: seq<seq<Segment>>, names: Names, m: int)
    requires 0 <= n <= |chunks| && forall c | 0 <= c < |chunks| :: HasRef(chunks[c])
    ensures ComeFrom(PlanFor(chunks[..n], volumes, names, m).chunks, Origins(chunks, n, volumes), chunks, n, volumes,
            names)
    decreases n
  {
    if n == 0 {
      EmptyPlan(chunks, volumes, names, m);
      hide PlanFor;
    } else {
      hide PlanFor, ChunksHere, OriginsAt, ValidOrigin, OriginPRaids, ComeFrom, Dropped, TotalBlocks;
      PlanComesFrom(chunks, n - 1, volumes, names, m);
      ChunksAdded(chunks, n, volumes, names, m);
      var prev := PlanFor(chunks[..n - 1], volumes, names, m);
      HereComesFrom(chunks, n - 1, volumes, names, prev.vlbs, m);
      ComeFromBoth(prev.chunks, Origins(chunks, n - 1, volumes), ChunksHere(chunks[n - 1], volumes, names, prev.vlbs,
          m),
                   OriginsAt(chunks[n - 1], n - 1, volumes), chunks, n - 1, volumes, names);
    }
  }

  /** Chunk by chunk, the plan is built from its origins. */
  lemma OriginsSpec(chunks: seq<Chunk>, n: int, volumes: seq<seq<Segment>>, names: Names, m: int)
    requires 0 <= n <= |chunks| && forall c | 0 <= c < |chunks| :: HasRef(chunks[c])
    ensures var os, cs := Origins(chunks, n, volumes), PlanFor(chunks[..n], volumes, names, m).chunks;
            && |os| == |cs|
            && (forall x | 0 <= x < |os| :: ValidOrigin(chunks, volumes, os[x]) && os[x].c < n
                                         && cs[x].pRaids == OriginPRaids(chunks, volumes, names, os[x]))
  {
    PlanComesFrom(chunks, n, volumes, names, m);
    hide PlanFor, Origins, ValidOrigin, OriginPRaids;
  }

  lemma OriginsAtDistinct(c: Chunk, i: int, volumes: seq<seq<Segment>>, x: int, y: int)
    requires HasRef(c) && 0 <= x < y < |OriginsAt(c, i, volumes)|
    ensures OriginsAt(c, i, volumes)[x] != OriginsAt(c, i, volumes)[y]
  {
    hide GroupsOf, TotalBlocks, RangesNaming;
  }

  lemma {:induction false} OriginsDistinct(chunks: seq<Chunk>, n: int, volumes: seq<seq<Segment>>, x: int, y: int)
    requires 0 <= n <= |chunks| && forall c | 0 <= c < |chunks| :: HasRef(chunks[c])
    requires 0 <= x < y < |Origins(chunks, n, volumes)|
    ensures Origins(chunks, n, volumes)[x] != Origins(chunks, n, volumes)[y]
    decreases n
  {
    hide OriginsAt;
    var prev, here := Origins(chunks, n - 1, volumes), OriginsAt(chunks[n - 1], n - 1, volumes);
    if y < |prev| {
      OriginsDistinct(chunks, n - 1, volumes, x, y);
    } else if x < |prev| {
      OriginsBelow(chunks, n - 1, volumes, x);
      assert Origins(chunks, n, volumes)[y] == here[y - |prev|];
    } else {
      OriginsAtDistinct(chunks[n - 1], n - 1, volumes, x - |prev|, y - |prev|);
    }
  }

  lemma {:induction false} OriginsBelow(chunks: seq<Chunk>, n: int, volumes: seq<seq<Segment>>, x: int)
    requires 0 <= n <= |chunks| && forall c | 0 <= c < |chunks| :: HasRef(chunks[c])
    requires 0 <= x < |Origins(chunks, n, volumes)|
    ensures Origins(chunks, n, volumes)[x].c < n
    decreases n
  {
    hide OriginsAt;
    if x < |Origins(chunks, n - 1, volumes)| {
      OriginsBelow(chunks, n - 1, volumes, x);
    }
  }

  lemma OriginsAtComplete(chunks: seq<Chunk>, volumes: seq<seq<Segment>>, o: Origin)
    requires forall c | 0 <= c < |chunks| :: HasRef(chunks[c])
    requires ValidOrigin(chunks, volumes, o)
    ensures var y := if o.g == -1 then 0 else o.g;
            0 <= y < |OriginsAt(chunks[o.c], o.c, volumes)| && OriginsAt(chunks[o.c], o.c, volumes)[y] == o
  {
    hide GroupsOf, TotalBlocks, RangesNaming;
  }

  lemma {:induction false} OriginsComplete(chunks: seq<Chunk>, n: int, volumes: seq<seq<Segment>>, o: Origin)
    returns (x: int)
    requires 0 <= n <= |chunks| && forall c | 0 <= c < |chunks| :: HasRef(chunks[c])
    requires ValidOrigin(chunks, volumes, o) && 0 <= o.c < n
    ensures 0 <= x < |Origins(chunks, n, volumes)| && Origins(chunks, n, volumes)[x] == o
    decreases n
  {
    hide OriginsAt, ValidOrigin;
    var prev, here := Origins(chunks, n - 1, volumes), OriginsAt(chunks[n - 1], n - 1, volumes);
    assert Origins(chunks, n, volumes) == prev + here;
    if o.c == n - 1 {
      OriginsAtComplete(chunks, volumes, o);
      var y := if o.g == -1 then 0 else o.g;
      assert (prev + here)[|prev| + y] == here[y];
      x := |prev| + y;
    } else {
      x := OriginsComplete(chunks, n - 1, volumes, o);
      assert (prev + here)[x] == prev[x];
    }
  }

  // ------------------------------------------------------------- the outcome

  ghost predicate Outcome(job: Job, db: Db)
    requires GoodJob(job)
  {
    && db.chunks == PlanOf(job).chunks
    && db.drives.Keys == job.start.drives.Keys
    && (forall d | d in db.drives :: DriveOutcome(job, d, db.drives[d]))
    && |db.volumes| == |job.start.volumes|
    && (forall v | 0 <= v < |db.volumes| ::
          db.volumes[v] == RenamedVolume(job.start.volumes[v], UuidMap(PlanOf(job).replacements)))
  }

  ghost predicate DriveOutcome(job: Job, d: DiskID, doc: DriveDoc)
    requires GoodJob(job) && d in job.start.drives
  {
    && doc.first == job.start.drives[d].first && doc.last == job.start.drives[d].last
    && ValidDoc(doc)
    && IsSettled(Marked(job.start.drives[d], PlanOf(job)).segs, doc.segs)
  }

  lemma DoneIsOutcome(job: Job, s: State)
    requires GoodJob(job) && Inv(job, s) && s.phase == Done
    ensures Outcome(job, s.db)
  {
    forall d | d in s.db.drives ensures d in job.start.drives && DriveOutcome(job, d, s.db.drives[d]) {
      DoneDriveSettled(job, s, d);
    }
  }

  /** An unflagged segment is still there, following its reservation. */
  lemma OldStays(job: Job, db: Db, d: DiskID, v: Uuid)
    requires GoodJob(job) && Outcome(job, db) && d in job.start.drives && v in job.start.drives[d].segs
    requires FlagFor(PlanOf(job), job.start.drives[d].segs[v]).Idle?
    ensures d in db.drives && v in db.drives[d].segs
    ensures db.drives[d].segs[v] == Followed(Marked(job.start.drives[d], PlanOf(job)).segs, job.start.drives[d].segs[v])
  {
    assert d in db.drives;
    assert DriveOutcome(job, d, db.drives[d]);
    assert SegmentSound(d, job.start.drives[d].segs[v]);
    var marked := Marked(job.start.drives[d], PlanOf(job)).segs;
    hide PlanOf, FlagFor, Followed, ValidDoc;
    assert marked[v] == job.start.drives[d].segs[v];
  }

  /** A used group of a split chunk is there, on every disk of the chunk. */
  lemma NewIsThere(job: Job, db: Db, c: int, p: int, k: int, g: int)
    requires GoodJob(job) && Outcome(job, db) && Pos(job.start.chunks, c, p, k) && HasRef(job.start.chunks[c])
    requires SplitUp(job.start.chunks[c], job.start.volumes)
             && 0 <= g < |GroupsOf(job.start.chunks[c], job.start.volumes)|
    ensures OnDrive(db.drives, RepsFor(job.start, job.names, c, At(job.start.chunks, c, p, k))[g])
  {
    hide PlanOf, GroupsOf, ValidDoc, FlagFor, Agreeing, SharedGaps, FreshFor, IsRuns;
    var s := At(job.start.chunks, c, p, k);
    ChunkFacts(job.start, job.vpg, c, p, k);
    var marked := Marked(job.start.drives[s.diskID], PlanOf(job)).segs;
    MarkedReps(job, c, p, k);
    assert DriveOutcome(job, s.diskID, db.drives[s.diskID]);
    hide Marked, RepsFor;
    var r := RepsOf(marked[s.uuid])[g];
    assert r.uuid in db.drives[s.diskID].segs && db.drives[s.diskID].segs[r.uuid] == r;
    RepsForDisk(job, c, s, g);
  }

  lemma RepsForDisk(job: Job, c: int, s: Segment, g: int)
    requires GoodJob(job) && 0 <= c < |job.start.chunks| && HasRef(job.start.chunks[c])
    requires 0 <= g < |GroupsOf(job.start.chunks[c], job.start.volumes)|
    ensures var r := RepsFor(job.start, job.names, c, s)[g];
            && r == MovedTo(s, Ref(job.start.chunks[c]), GroupsOf(job.start.chunks[c], job.start.volumes)[g],
                job.names(s.uuid, g))
  {
    hide GroupsOf;
  }

  lemma MarkedReps(job: Job, c: int, p: int, k: int)
    requires GoodJob(job) && Pos(job.start.chunks, c, p, k) && HasRef(job.start.chunks[c])
    ensures var s := At(job.start.chunks, c, p, k);
            && OnDrive(job.start.drives, s)
            && RepsOf(Marked(job.start.drives[s.diskID], PlanOf(job)).segs[s.uuid])
            == if SplitUp(job.start.chunks[c], job.start.volumes) then RepsFor(job.start, job.names, c, s) else []
  {
    ChunkFacts(job.start, job.vpg, c, p, k);
    FlagOfChunk(job.start, job.vpg, job.names, job.multiplier, c, p, k);
    hide GroupsOf, FlagFor, Agreeing, SharedGaps, FreshFor, PlanFor, TotalBlocks, SegmentReplacements;
  }

  /** Nothing else is there. */
  lemma WhatIsThere(job: Job, db: Db, d: DiskID, v: Uuid) returns (isNew: bool, c: int, p: int, k: int, g: int)
    requires GoodJob(job) && Outcome(job, db) && d in db.drives && v in db.drives[d].segs
    ensures d in job.start.drives
    ensures !isNew ==> v in job.start.drives[d].segs && FlagFor(PlanOf(job), job.start.drives[d].segs[v]).Idle?
    ensures isNew ==>
              && Pos(job.start.chunks, c, p, k) && HasRef(job.start.chunks[c])
                  && SplitUp(job.start.chunks[c], job.start.volumes)
              && At(job.start.chunks, c, p, k).diskID == d
              && 0 <= g < |GroupsOf(job.start.chunks[c], job.start.volumes)|
              && db.drives[d].segs[v] == RepsFor(job.start, job.names, c, At(job.start.chunks, c, p, k))[g]
  {
    hide GroupsOf, FlagFor, PlanFor, ValidDoc, SharedGaps, FreshFor, IsRuns;
    assert DriveOutcome(job, d, db.drives[d]);
    var doc := job.start.drives[d];
    var marked := Marked(doc, PlanOf(job)).segs;
    isNew, c, p, k, g := false, 0, 0, 0, 0;
    if !(v in marked && !Flagged(marked[v])) {
      isNew := true;
      var u, i :| u in marked && 0 <= i < |RepsOf(marked[u])| && RepsOf(marked[u])[i].uuid == v;
      c, p, k := FlaggedIsInChunk(job.start, job.names, job.multiplier, doc.segs[u]);
      NewFrom(job, d, u, c, p, k);
      g := i;
    }
  }

  lemma NewFrom(job: Job, d: DiskID, u: Uuid, c: int, p: int, k: int)
    requires GoodJob(job) && d in job.start.drives && u in job.start.drives[d].segs
    requires Pos(job.start.chunks, c, p, k) && At(job.start.chunks, c, p, k) == job.start.drives[d].segs[u]
    requires RepsOf(Marked(job.start.drives[d], PlanOf(job)).segs[u]) != []
    ensures HasRef(job.start.chunks[c]) && SplitUp(job.start.chunks[c], job.start.volumes)
    ensures At(job.start.chunks, c, p, k).diskID == d
    ensures RepsOf(Marked(job.start.drives[d], PlanOf(job)).segs[u])
         == RepsFor(job.start, job.names, c, At(job.start.chunks, c, p, k))
    ensures |RepsFor(job.start, job.names, c, At(job.start.chunks, c, p, k))|
            == |GroupsOf(job.start.chunks[c], job.start.volumes)|
  {
    assert SegmentSound(d, job.start.drives[d].segs[u]);
    assert ValidDoc(job.start.drives[d]);
    assert At(job.start.chunks, c, p, k).uuid == u;
    hide GroupsOf, FlagFor, PlanFor, Agreeing, IsRuns, Marked;
    ChunkFacts(job.start, job.vpg, c, p, k);
    MarkedReps(job, c, p, k);
  }

  // ------------------------------------------------------------------- tight

  /** Every reserved segment is used to the last block. */
  ghost predicate Tight(db: Db) {
    forall c, p, k | Pos(db.chunks, c, p, k) :: UsedOf(db, At(db.chunks, c, p, k))
           == BlocksOf(At(db.chunks, c, p, k).Span())
  }

  /** Position `p, k` of chunk `x` of the plan, traced to where it came from. */
  lemma TraceChunk(job: Job, db: Db, x: int) returns (o: Origin)
    requires GoodJob(job) && Outcome(job, db) && 0 <= x < |db.chunks|
    ensures |Origins(job.start.chunks, |job.start.chunks|, job.start.volumes)| == |db.chunks|
    ensures o == Origins(job.start.chunks, |job.start.chunks|, job.start.volumes)[x]
    ensures ValidOrigin(job.start.chunks, job.start.volumes, o)
    ensures |db.chunks[x].pRaids| == |job.start.chunks[o.c].pRaids|
    ensures forall p | 0 <= p < |db.chunks[x].pRaids| :: |db.chunks[x].pRaids[p]| == |job.start.chunks[o.c].pRaids[p]|
    ensures forall p, k | Pos(db.chunks, x, p, k) ::
              && Pos(job.start.chunks, o.c, p, k)
              && At(db.chunks, x, p, k) == Traced(job, o, At(job.start.chunks, o.c, p, k))
  {
    var chunks, volumes := job.start.chunks, job.start.volumes;
    OriginsOfPlan(job, db);
    o := Origins(chunks, |chunks|, volumes)[x];
    hide PlanFor, Origins, GroupsOf, Outcome, Agreeing, SharedGaps, FreshFor;
    TracedPRaids(job, o);
    assert db.chunks[x].pRaids == OriginPRaids(chunks, volumes, job.names, o);
    hide OriginPRaids, ValidOrigin;
  }

  lemma OriginsOfPlan(job: Job, db: Db)
    requires GoodJob(job) && Outcome(job, db)
    ensures var os := Origins(job.start.chunks, |job.start.chunks|, job.start.volumes);
            && |os| == |db.chunks|
            && (forall x | 0 <= x < |os| :: ValidOrigin(job.start.chunks, job.start.volumes, os[x])
                                         && db.chunks[x].pRaids
                                             == OriginPRaids(job.start.chunks, job.start.volumes, job.names, os[x]))
  {
    var chunks := job.start.chunks;
    assert chunks[..|chunks|] == chunks;
    OriginsSpec(chunks, |chunks|, job.start.volumes, job.names, job.multiplier);
    hide PlanFor, Origins, DriveOutcome, RenamedVolume, OriginPRaids, ValidOrigin, Agreeing, SharedGaps, FreshFor;
  }

  lemma TracedPRaids(job: Job, o: Origin)
    requires GoodJob(job) && ValidOrigin(job.start.chunks, job.start.volumes, o)
    ensures var before, after := job.start.chunks[o.c].pRaids, OriginPRaids(job.start.chunks, job.start.volumes,
            job.names, o);
            && |after| == |before|
            && (forall p | 0 <= p < |after| :: |after[p]| == |before[p]|)
            && (forall p, k | 0 <= p < |after| && 0 <= k < |after[p]| :: after[p][k] == Traced(job, o, before[p][k]))
  {
    hide GroupsOf, Agreeing, SharedGaps, FreshFor;
  }

  ghost function Traced(job: Job, o: Origin, s: Segment): Segment
    requires GoodJob(job) && ValidOrigin(job.start.chunks, job.start.volumes, o)
  {
    if o.g == -1 then s else RepsFor(job.start, job.names, o.c, s)[o.g]
  }

  lemma DerivedUnflagged(job: Job, d: DiskID, v: Uuid)
    requires GoodJob(job) && d in job.start.drives && v in job.start.drives[d].segs
    requires !job.start.drives[d].segs[v].isReserved
    ensures FlagFor(PlanOf(job), job.start.drives[d].segs[v]).Idle?
  {
    if !FlagFor(PlanOf(job), job.start.drives[d].segs[v]).Idle? {
      hide FlagFor, PlanFor;
      var c, p, k := FlaggedIsInChunk(job.start, job.names, job.multiplier, job.start.drives[d].segs[v]);
      ChunkFacts(job.start, job.vpg, c, p, k);
    }
  }
}
