/** After a finished reclaim the documents of the group agree again and no reserved block is unused. */
module ReclaimConsistent {
  import opened Ranges
  import opened Drives
  import opened Redo
  import opened Chunks
  import opened ReclaimPlan
  import opened Reclaim
  import opened ReclaimFlags
  import opened ReclaimRun
  import opened ReclaimOutcome

  // ------------------------------------------------------------------- tight

  lemma OutcomeDrive(job: Job, db: Db, d: DiskID)
    requires GoodJob(job) && Outcome(job, db) && d in db.drives
    ensures d in job.start.drives && ValidDoc(db.drives[d])
    ensures db.drives[d].first == job.start.drives[d].first && db.drives[d].last == job.start.drives[d].last
    ensures db.drives.Keys == job.start.drives.Keys
  {
    assert DriveOutcome(job, d, db.drives[d]);
  }

  /** Derived segments never leave the reservation they name. */
  lemma UseInside(db: Db, s: Segment)
    requires OnDrive(db.drives, s) && ValidDoc(db.drives[s.diskID])
    ensures UsedOf(db, s) <= BlocksOf(s.Span())
  {
    forall b | b in UsedOf(db, s) ensures b in BlocksOf(s.Span()) {
      var x := UseWitness(db, s, b);
      assert WellPlaced(db.drives[s.diskID], db.drives[s.diskID].segs[x]);
    }
  }

  lemma UseFrom(db: Db, s: Segment, x: Uuid, b: int)
    requires s.diskID in db.drives && x in db.drives[s.diskID].segs && ValidDoc(db.drives[s.diskID])
    requires var t := db.drives[s.diskID].segs[x]; t.fromReserved && t.reservedUUID == s.uuid && t.Span().Has(b)
    ensures b in UsedOf(db, s)
  {
    assert WellPlaced(db.drives[s.diskID], db.drives[s.diskID].segs[x]);
    assert UsedAt(db.drives[s.diskID].segs, s.uuid, b);
  }

  lemma SameWhenFull(a: set<int>, b: set<int>)
    requires a <= b && |a| == |b|
    ensures a == b
  {
    var rest := b - a;
    assert |rest| == |b| - |a|;
    assert rest == {};
    assert forall y | y in b :: y in a || y in rest;
  }

  lemma KeptIsFull(job: Job, c: int, p: int, k: int)
    requires GoodJob(job) && Pos(job.start.chunks, c, p, k) && HasRef(job.start.chunks[c])
    requires KeptWhole(job.start.chunks[c], job.start.volumes)
    ensures UsedOf(job.start, At(job.start.chunks, c, p, k)) == BlocksOf(At(job.start.chunks, c, p, k).Span())
  {
    hide Agreeing, SharedGaps, FreshFor, UsedOf, GroupsOf;
    var s := At(job.start.chunks, c, p, k);
    RunsOfUse(job.start, job.vpg, job.names, c, p, k);
    DocsShowUse(job.start, job.vpg, c, p, k);
    ChunkFacts(job.start, job.vpg, c, p, k);
    hide IsRuns;
    assert WellPlaced(job.start.drives[s.diskID], s);
    SameWhenFull(UsedOf(job.start, s), BlocksOf(s.Span()));
  }

  lemma KeptStays(job: Job, db: Db, c: int, p: int, k: int)
    requires GoodJob(job) && Outcome(job, db) && Pos(job.start.chunks, c, p, k) && HasRef(job.start.chunks[c])
    requires KeptWhole(job.start.chunks[c], job.start.volumes)
    ensures OnDrive(db.drives, At(job.start.chunks, c, p, k))
  {
    hide Agreeing, SharedGaps, FreshFor, GroupsOf, PlanFor, Outcome, FlagFor;
    var s := At(job.start.chunks, c, p, k);
    FlagOfChunk(job.start, job.vpg, job.names, job.multiplier, c, p, k);
    ChunkFacts(job.start, job.vpg, c, p, k);
    OldStays(job, db, s.diskID, s.uuid);
    NotDerivedStays(Marked(job.start.drives[s.diskID], PlanOf(job)).segs, s);
  }

  /** A derived segment of the start, and the one reservation it names in the outcome. */
  lemma DerivedStays(job: Job, db: Db, c: int, p: int, k: int, x: Uuid)
    requires GoodJob(job) && Outcome(job, db) && Pos(job.start.chunks, c, p, k) && HasRef(job.start.chunks[c])
    requires var s := At(job.start.chunks, c, p, k);
             && s.diskID in job.start.drives && x in job.start.drives[s.diskID].segs
             && job.start.drives[s.diskID].segs[x].fromReserved
                 && job.start.drives[s.diskID].segs[x].reservedUUID == s.uuid
    ensures var s := At(job.start.chunks, c, p, k);
            var t := job.start.drives[s.diskID].segs[x];
            && s.diskID in db.drives && x in db.drives[s.diskID].segs
            && db.drives[s.diskID].segs[x]
               == (if SplitUp(job.start.chunks[c], job.start.volumes) then Retag(t, RepsFor(job.start, job.names, c,
                   s)) else t)
  {
    var s := At(job.start.chunks, c, p, k);
    var t := job.start.drives[s.diskID].segs[x];
    ChunkFacts(job.start, job.vpg, c, p, k);
    assert WellPlaced(job.start.drives[s.diskID], t);
    DerivedUnflagged(job, s.diskID, x);
    OldStays(job, db, s.diskID, x);
    MarkedReps(job, c, p, k);
    hide Agreeing, SharedGaps, FreshFor, GroupsOf, PlanFor, Outcome, FlagFor, RepsFor;
  }

  /** The reservation a derived segment of a split chunk ends up naming is the group it lies in. */
  lemma RetagToGroup(job: Job, c: int, p: int, k: int, x: Uuid, g: int, b: int)
    requires GoodJob(job) && Pos(job.start.chunks, c, p, k) && HasRef(job.start.chunks[c])
    requires var s := At(job.start.chunks, c, p, k);
             && s.diskID in job.start.drives && x in job.start.drives[s.diskID].segs
             && job.start.drives[s.diskID].segs[x].fromReserved
                 && job.start.drives[s.diskID].segs[x].reservedUUID == s.uuid
             && job.start.drives[s.diskID].segs[x].Span().Has(b)
    requires var reps := RepsFor(job.start, job.names, c, At(job.start.chunks, c, p, k));
             0 <= g < |reps| && reps[g].Span().Has(b)
    ensures var s := At(job.start.chunks, c, p, k);
            var reps := RepsFor(job.start, job.names, c, s);
            Retag(job.start.drives[s.diskID].segs[x], reps)
            == job.start.drives[s.diskID].segs[x].(reservedUUID := reps[g].uuid)
  {
    var s := At(job.start.chunks, c, p, k);
    var reps := RepsFor(job.start, job.names, c, s);
    GoodIsConsistent(job);
    UseOfDerived(job, s, x);
    hide GoodJob, Consistent, FreshFor, RepsFor, UsedOf, ValidDoc;
    RepsSpellUse(job.start, job.vpg, job.names, c, p, k);
    RetagToThe(job.start.drives[s.diskID].segs[x], reps, UsedOf(job.start, s), g, b);
  }

  lemma UseOfDerived(job: Job, s: Segment, x: Uuid)
    requires GoodJob(job) && s.diskID in job.start.drives && x in job.start.drives[s.diskID].segs
    requires job.start.drives[s.diskID].segs[x].fromReserved
             && job.start.drives[s.diskID].segs[x].reservedUUID == s.uuid
    ensures job.start.drives[s.diskID].segs[x].Span().Nonempty()
    ensures forall y | job.start.drives[s.diskID].segs[x].Span().Has(y) :: y in UsedOf(job.start, s)
  {
    var t := job.start.drives[s.diskID].segs[x];
    NamingIsUse(job.start, job.vpg, s, x);
    assert ValidDoc(job.start.drives[s.diskID]) && WellPlaced(job.start.drives[s.diskID], t);
    hide Agreeing, SharedGaps, FreshFor, UsedOf;
    forall y | t.Span().Has(y) ensures y in UsedOf(job.start, s) { assert y in BlocksOf(t.Span()); }
  }

  lemma RetagToThe(t: Segment, reps: seq<Segment>, used: set<int>, g: int, b: int)
    requires t.fromReserved && t.Span().Nonempty() && (forall y | t.Span().Has(y) :: y in used)
             && IsRuns(Spans(reps), used)
    requires 0 <= g < |reps| && t.Span().Has(b) && reps[g].Span().Has(b)
    ensures Retag(t, reps) == t.(reservedUUID := reps[g].uuid)
  {
    hide IsRuns, Retag;
    RetagPicks(t, reps);
    OneGroup(reps, used, t.Span(), g, b);
  }

  lemma OneGroup(reps: seq<Segment>, used: set<int>, r: Range, g: int, b: int)
    requires IsRuns(Spans(reps), used) && r.Nonempty() && (forall y | r.Has(y) :: y in used)
    requires 0 <= g < |reps| && r.Has(b) && reps[g].Span().Has(b)
    ensures r.Within(reps[g].Span())
    ensures forall k | 0 <= k < |reps| && r.Within(reps[k].Span()) :: k == g
  {
    var k := WithinOneRun(Spans(reps), used, r);
    assert Spans(reps)[g].Meets(r);
    forall j | 0 <= j < |reps| && r.Within(reps[j].Span()) ensures j == g {
      assert Spans(reps)[j].Meets(r);
    }
  }

  lemma TightKept(job: Job, db: Db, c: int, p: int, k: int)
    requires GoodJob(job) && Outcome(job, db) && Pos(job.start.chunks, c, p, k) && HasRef(job.start.chunks[c])
    requires KeptWhole(job.start.chunks[c], job.start.volumes)
    ensures UsedOf(db, At(job.start.chunks, c, p, k)) == BlocksOf(At(job.start.chunks, c, p, k).Span())
  {
    hide GoodJob, Outcome, GroupsOf, KeptWhole, SplitUp, PlanFor, UsedOf, ValidDoc;
    var s := At(job.start.chunks, c, p, k);
    KeptStays(job, db, c, p, k);
    OutcomeDrive(job, db, s.diskID);
    UseInside(db, s);
    KeptIsFull(job, c, p, k);
    forall b | b in BlocksOf(s.Span()) ensures b in UsedOf(db, s) {
      var x := UseWitness(job.start, s, b);
      DerivedStays(job, db, c, p, k, x);
      KeptNotSplit(job, c);
      UseFrom(db, s, x, b);
    }
  }

  lemma KeptNotSplit(job: Job, c: int)
    requires 0 <= c < |job.start.chunks| && HasRef(job.start.chunks[c])
             && KeptWhole(job.start.chunks[c], job.start.volumes)
    ensures !SplitUp(job.start.chunks[c], job.start.volumes)
  {
    hide GroupsOf;
  }

  lemma TightGroup(job: Job, db: Db, c: int, p: int, k: int, g: int)
    requires GoodJob(job) && Outcome(job, db) && Pos(job.start.chunks, c, p, k) && HasRef(job.start.chunks[c])
    requires SplitUp(job.start.chunks[c], job.start.volumes)
             && 0 <= g < |GroupsOf(job.start.chunks[c], job.start.volumes)|
    ensures var r := RepsFor(job.start, job.names, c, At(job.start.chunks, c, p, k))[g];
            UsedOf(db, r) == BlocksOf(r.Span())
  {
    hide GoodJob, Outcome, GroupsOf, KeptWhole, SplitUp, PlanFor, UsedOf, ValidDoc, IsRuns;
    var s := At(job.start.chunks, c, p, k);
    var r := RepsFor(job.start, job.names, c, s)[g];
    NewIsThere(job, db, c, p, k, g);
    OutcomeDrive(job, db, r.diskID);
    UseInside(db, r);
    RepsForDisk(job, c, s, g);
    RepsSpellUse(job.start, job.vpg, job.names, c, p, k) by {
      GoodIsConsistent(job);
    }
    ReplacementBlocks(RepsFor(job.start, job.names, c, s), UsedOf(job.start, s), g);
    forall b | b in BlocksOf(r.Span()) ensures b in UsedOf(db, r) {
      var x := UseWitness(job.start, s, b);
      DerivedStays(job, db, c, p, k, x);
      RetagToGroup(job, c, p, k, x, g, b);
      UseFrom(db, r, x, b);
    }
  }

  lemma GoodIsConsistent(job: Job)
    requires GoodJob(job)
    ensures Consistent(job.start, job.vpg) && FreshFor(job.start, job.names)
  {
  }

  lemma OutcomeIsTight(job: Job, db: Db)
    requires GoodJob(job) && Outcome(job, db)
    ensures Tight(db)
  {
    hide GoodJob, Outcome, GroupsOf, PlanFor, UsedOf, Origins;
    forall x, p, k | Pos(db.chunks, x, p, k) ensures UsedOf(db, At(db.chunks, x, p, k))
           == BlocksOf(At(db.chunks, x, p, k).Span()) {
      var o := TraceChunk(job, db, x);
      if o.g == -1 {
        TightKept(job, db, o.c, p, k);
      } else {
        TightGroup(job, db, o.c, p, k, o.g);
      }
    }
  }

  // --------------------------------------------------------- still agreeing

  lemma RenameKeepsRest(job: Job, d: DiskID, s: Segment)
    requires GoodJob(job) && d in job.start.drives
    ensures var f := Followed(Marked(job.start.drives[d], PlanOf(job)).segs, s);
            f == s.(reservedUUID := f.reservedUUID) && (!s.fromReserved ==> f == s)
  {
    var segs := Marked(job.start.drives[d], PlanOf(job)).segs;
    if s.fromReserved && s.reservedUUID in segs {
      RetagKeepsSpan(s, RepsOf(segs[s.reservedUUID]));
    }
  }

  lemma RepIsSound(job: Job, c: int, p: int, k: int, g: int)
    requires GoodJob(job) && Pos(job.start.chunks, c, p, k) && HasRef(job.start.chunks[c])
    requires 0 <= g < |GroupsOf(job.start.chunks[c], job.start.volumes)|
    ensures var s := At(job.start.chunks, c, p, k);
            var r := RepsFor(job.start, job.names, c, s)[g];
            && SegmentSound(s.diskID, r) && r.isReserved && !r.fromReserved && r.volume == job.vpg
                && r.diskID == s.diskID
            && r.uuid == job.names(s.uuid, g)
            && r.Span().Blocks() == GroupsOf(job.start.chunks[c], job.start.volumes)[g].Blocks()
  {
    hide GroupsOf, PlanFor, UsedOf, IsRuns;
    var s := At(job.start.chunks, c, p, k);
    ChunkFacts(job.start, job.vpg, c, p, k);
    RepsForDisk(job, c, s, g);
    RepsSpellUse(job.start, job.vpg, job.names, c, p, k);
    ReplacementBlocks(RepsFor(job.start, job.names, c, s), UsedOf(job.start, s), g);
    hide Agreeing, SharedGaps;
  }

  lemma StartSound(job: Job, d: DiskID, u: Uuid)
    requires GoodJob(job) && d in job.start.drives && u in job.start.drives[d].segs
    ensures ValidDoc(job.start.drives[d]) && SegmentSound(d, job.start.drives[d].segs[u])
            && job.start.drives[d].segs[u].uuid == u
  {
    assert ValidDoc(job.start.drives[d]);
  }

  lemma OutcomeDrivesSound(job: Job, db: Db)
    requires GoodJob(job) && Outcome(job, db)
    ensures DrivesSound(db.drives)
  {
    hide GoodJob, Outcome, GroupsOf, PlanFor, ValidDoc, RepsFor, Followed, FlagFor;
    forall d | d in db.drives ensures ValidDoc(db.drives[d]) {
      OutcomeDrive(job, db, d);
    }
    forall d, u | d in db.drives && u in db.drives[d].segs ensures SegmentSound(d, db.drives[d].segs[u]) {
      var isNew, c, p, k, g := WhatIsThere(job, db, d, u);
      if isNew {
        RepIsSound(job, c, p, k, g);
      } else {
        StartSound(job, d, u);
        OldStays(job, db, d, u);
        RenameKeepsRest(job, d, job.start.drives[d].segs[u]);
      }
    }
  }

  lemma OutcomeChunksStored(job: Job, db: Db)
    requires GoodJob(job) && Outcome(job, db)
    ensures ChunksStored(db, job.vpg)
  {
    hide GoodJob, Outcome, GroupsOf, PlanFor, RepsFor, Origins, Agreeing, KeptWhole, SplitUp;
    forall x, p, k | Pos(db.chunks, x, p, k)
      ensures var s := At(db.chunks, x, p, k); OnDrive(db.drives, s) && s.isReserved && s.volume == job.vpg
    {
      var o := TraceChunk(job, db, x);
      GoodIsConsistent(job);
      ChunkFacts(job.start, job.vpg, o.c, p, k);
      if o.g == -1 {
        KeptStays(job, db, o.c, p, k);
      } else {
        NewIsThere(job, db, o.c, p, k, o.g);
        RepIsSound(job, o.c, p, k, o.g);
      }
    }
  }

  /** The uuid of a position of the new chunks tells where the position came from. */
  lemma TracedUuid(job: Job, o: Origin, p: int, k: int)
    requires GoodJob(job) && ValidOrigin(job.start.chunks, job.start.volumes, o) && Pos(job.start.chunks, o.c, p, k)
    ensures var s := At(job.start.chunks, o.c, p, k);
            && Traced(job, o, s).uuid == (if o.g == -1 then s.uuid else job.names(s.uuid, o.g))
            && OnDrive(job.start.drives, s)
  {
    hide GroupsOf, PlanFor;
    ChunkFacts(job.start, job.vpg, o.c, p, k);
    hide Agreeing, SharedGaps, FreshFor;
    if o.g != -1 {
      RepIsSound(job, o.c, p, k, o.g);
    }
  }

  lemma SameOrigin(job: Job, o: Origin, p: int, k: int, e: Origin, q: int, n: int)
    requires GoodJob(job) && ValidOrigin(job.start.chunks, job.start.volumes, o)
             && ValidOrigin(job.start.chunks, job.start.volumes, e)
    requires Pos(job.start.chunks, o.c, p, k) && Pos(job.start.chunks, e.c, q, n)
    requires Traced(job, o, At(job.start.chunks, o.c, p, k)).uuid
             == Traced(job, e, At(job.start.chunks, e.c, q, n)).uuid
    ensures o == e && p == q && k == n
  {
    var s, t := At(job.start.chunks, o.c, p, k), At(job.start.chunks, e.c, q, n);
    TracedUuid(job, o, p, k);
    TracedUuid(job, e, q, n);
    assert s.uuid == t.uuid && o.g == e.g;
    SamePosition(job, o.c, p, k, e.c, q, n);
  }

  lemma OutcomeChunksDistinct(job: Job, db: Db)
    requires GoodJob(job) && Outcome(job, db)
    ensures ChunksDistinct(db.chunks)
  {
    hide GoodJob, Outcome, GroupsOf, PlanFor, RepsFor, Origins, ValidOrigin, Traced;
    forall c, p, k, e, q, m | Pos(db.chunks, c, p, k) && Pos(db.chunks, e, q, m)
           && At(db.chunks, c, p, k).uuid == At(db.chunks, e, q, m).uuid
      ensures c == e && p == q && k == m
    {
      var o := TraceChunk(job, db, c);
      var r := TraceChunk(job, db, e);
      SameOrigin(job, o, p, k, r, q, m);
      OriginsApart(job, db, c, e);
    }
  }

  lemma OriginsApart(job: Job, db: Db, x: int, y: int)
    requires GoodJob(job)
    requires var os := Origins(job.start.chunks, |job.start.chunks|, job.start.volumes);
             0 <= x < |os| && 0 <= y < |os| && os[x] == os[y]
    ensures x == y
  {
    hide Origins;
    if x < y {
      OriginsDistinct(job.start.chunks, |job.start.chunks|, job.start.volumes, x, y);
    } else if y < x {
      OriginsDistinct(job.start.chunks, |job.start.chunks|, job.start.volumes, y, x);
    }
  }

  lemma KeptFromFlag(job: Job, c: int, p: int, k: int)
    requires GoodJob(job) && Pos(job.start.chunks, c, p, k)
    requires FlagFor(PlanOf(job), At(job.start.chunks, c, p, k)).Idle?
    ensures ValidOrigin(job.start.chunks, job.start.volumes, Origin(c, -1))
  {
    FlagOfChunk(job.start, job.vpg, job.names, job.multiplier, c, p, k);
    hide GroupsOf, PlanFor, FlagFor;
  }

  lemma OriginsCount(job: Job, db: Db)
    requires GoodJob(job) && Outcome(job, db)
    ensures |Origins(job.start.chunks, |job.start.chunks|, job.start.volumes)| == |db.chunks|
  {
    var chunks := job.start.chunks;
    assert chunks[..|chunks|] == chunks;
    OriginsSpec(chunks, |chunks|, job.start.volumes, job.names, job.multiplier);
    hide GoodJob, Origins, PlanFor, DriveOutcome, RenamedVolume;
  }

  lemma TraceBack(job: Job, db: Db, o: Origin, p: int, k: int) returns (x: int)
    requires GoodJob(job) && Outcome(job, db) && ValidOrigin(job.start.chunks, job.start.volumes, o)
             && Pos(job.start.chunks, o.c, p, k)
    ensures Pos(db.chunks, x, p, k) && At(db.chunks, x, p, k) == Traced(job, o, At(job.start.chunks, o.c, p, k))
  {
    OriginsCount(job, db);
    hide GoodJob, Outcome, ValidOrigin, Origins, Traced;
    x := OriginsComplete(job.start.chunks, |job.start.chunks|, job.start.volumes, o);
    var t := TraceChunk(job, db, x);
  }

  lemma OutcomeChunksComplete(job: Job, db: Db)
    requires GoodJob(job) && Outcome(job, db)
    ensures ChunksComplete(db, job.vpg)
  {
    hide Outcome, GroupsOf, PlanFor, RepsFor, Origins, ValidOrigin, KeptWhole, FlagFor, Followed, FreshFor, SharedGaps;
    forall d, u | ReservedOf(db, job.vpg, d, u)
      ensures exists c, p, k :: Pos(db.chunks, c, p, k) && At(db.chunks, c, p, k) == db.drives[d].segs[u]
    {
      var isNew, c, p, k, g := WhatIsThere(job, db, d, u);
      if isNew {
        NewOrigin(job, c, g);
        var x := TraceBack(job, db, Origin(c, g), p, k);
      } else {
        OldStays(job, db, d, u);
        RenameKeepsRest(job, d, job.start.drives[d].segs[u]);
        StartSound(job, d, u);
        NotBoth(job, d, u);
        assert ReservedOf(job.start, job.vpg, d, u);
        c, p, k :| Pos(job.start.chunks, c, p, k) && At(job.start.chunks, c, p, k) == job.start.drives[d].segs[u];
        KeptFromFlag(job, c, p, k);
        var x := TraceBack(job, db, Origin(c, -1), p, k);
      }
    }
  }

  lemma NewOrigin(job: Job, c: int, g: int)
    requires GoodJob(job) && 0 <= c < |job.start.chunks| && HasRef(job.start.chunks[c])
    requires SplitUp(job.start.chunks[c], job.start.volumes)
             && 0 <= g < |GroupsOf(job.start.chunks[c], job.start.volumes)|
    ensures ValidOrigin(job.start.chunks, job.start.volumes, Origin(c, g))
  {
  }

  lemma NotBoth(job: Job, d: DiskID, u: Uuid)
    requires GoodJob(job) && d in job.start.drives && u in job.start.drives[d].segs
    ensures !(job.start.drives[d].segs[u].isReserved && job.start.drives[d].segs[u].fromReserved)
  {
    assert WellPlaced(job.start.drives[d], job.start.drives[d].segs[u]);
  }

  lemma ReservedPos(job: Job, d: DiskID, u: Uuid) returns (c: int, p: int, k: int)
    requires GoodJob(job) && ReservedOf(job.start, job.vpg, d, u)
    ensures Pos(job.start.chunks, c, p, k) && HasRef(job.start.chunks[c])
    ensures At(job.start.chunks, c, p, k) == job.start.drives[d].segs[u]
    ensures At(job.start.chunks, c, p, k).diskID == d && At(job.start.chunks, c, p, k).uuid == u
  {
    c, p, k :| Pos(job.start.chunks, c, p, k) && At(job.start.chunks, c, p, k) == job.start.drives[d].segs[u];
    StartSound(job, d, u);
  }

  lemma UsedNotDropped(job: Job, c: int, p: int, k: int, x: Uuid)
    requires GoodJob(job) && Pos(job.start.chunks, c, p, k) && HasRef(job.start.chunks[c])
    requires var s := At(job.start.chunks, c, p, k);
             && s.diskID in job.start.drives && x in job.start.drives[s.diskID].segs
             && job.start.drives[s.diskID].segs[x].fromReserved
                 && job.start.drives[s.diskID].segs[x].reservedUUID == s.uuid
    ensures !Dropped(job.start.chunks[c], job.start.volumes)
  {
    hide Agreeing, SharedGaps, FreshFor, UsedOf, GroupsOf, Dropped, IsRuns;
    var s := At(job.start.chunks, c, p, k);
    RunsOfUse(job.start, job.vpg, job.names, c, p, k);
    NamingIsUse(job.start, job.vpg, s, x);
  }

  /** After the reclaim a derived segment of the group names a reserved segment that is on its disk. */
  lemma StillNamed(job: Job, db: Db, d: DiskID, x: Uuid)
    requires GoodJob(job) && Outcome(job, db)
    requires d in job.start.drives && x in job.start.drives[d].segs && job.start.drives[d].segs[x].fromReserved
    requires ReservedOf(job.start, job.vpg, d, job.start.drives[d].segs[x].reservedUUID)
    ensures d in db.drives && x in db.drives[d].segs
    ensures ReservedOf(db, job.vpg, d, db.drives[d].segs[x].reservedUUID)
  {
    hide GoodJob, Outcome, GroupsOf, PlanFor, UsedOf, ValidDoc, IsRuns, KeptWhole, SplitUp, Dropped, RepsFor;
    var t := job.start.drives[d].segs[x];
    var c, p, k := ReservedPos(job, d, t.reservedUUID);
    var s := At(job.start.chunks, c, p, k);
    DerivedStays(job, db, c, p, k, x);
    if SplitUp(job.start.chunks[c], job.start.volumes) {
      var g := RetaggedTo(job, c, p, k, x);
      NewIsThere(job, db, c, p, k, g);
      RepIsSound(job, c, p, k, g);
    } else {
      UsedNotDropped(job, c, p, k, x);
      NotSplitIsKept(job, c);
      KeptStays(job, db, c, p, k);
      GoodIsConsistent(job);
      ChunkFacts(job.start, job.vpg, c, p, k);
      hide Consistent;
    }
  }

  lemma NotSplitIsKept(job: Job, c: int)
    requires 0 <= c < |job.start.chunks| && HasRef(job.start.chunks[c])
    requires !SplitUp(job.start.chunks[c], job.start.volumes) && !Dropped(job.start.chunks[c], job.start.volumes)
    ensures KeptWhole(job.start.chunks[c], job.start.volumes)
  {
    hide GroupsOf;
  }

  lemma RetaggedTo(job: Job, c: int, p: int, k: int, x: Uuid) returns (g: int)
    requires GoodJob(job) && Pos(job.start.chunks, c, p, k) && HasRef(job.start.chunks[c])
    requires var s := At(job.start.chunks, c, p, k);
             && s.diskID in job.start.drives && x in job.start.drives[s.diskID].segs
             && job.start.drives[s.diskID].segs[x].fromReserved
                 && job.start.drives[s.diskID].segs[x].reservedUUID == s.uuid
    ensures 0 <= g < |GroupsOf(job.start.chunks[c], job.start.volumes)|
    ensures Retag(job.start.drives[At(job.start.chunks, c, p, k).diskID].segs[x], RepsFor(job.start, job.names, c,
            At(job.start.chunks, c, p, k))).reservedUUID
         == RepsFor(job.start, job.names, c, At(job.start.chunks, c, p, k))[g].uuid
  {
    hide GroupsOf, PlanFor, UsedOf, Agreeing, SharedGaps, FreshFor;
    var s := At(job.start.chunks, c, p, k);
    var t := job.start.drives[s.diskID].segs[x];
    var reps := RepsFor(job.start, job.names, c, s);
    RepsSpellUse(job.start, job.vpg, job.names, c, p, k);
    NamingIsUse(job.start, job.vpg, s, x);
    StartSound(job, s.diskID, x);
    assert t.lbs in UsedOf(job.start, s) by {
      assert t.lbs in BlocksOf(t.Span()) by { assert WellPlaced(job.start.drives[s.diskID], t); }
    }
    g :| 0 <= g < |Spans(reps)| && Spans(reps)[g].Has(t.lbs);
    hide IsRuns;
    assert t.Span().Has(t.lbs) by { assert WellPlaced(job.start.drives[s.diskID], t); }
    RetagToGroup(job, c, p, k, x, g, t.lbs);
  }

  lemma VolumeSegment(job: Job, v: int, i: int)
    requires GoodJob(job) && 0 <= v < |job.start.volumes| && 0 <= i < |job.start.volumes[v]|
    ensures var s := job.start.volumes[v][i];
            && OnDrive(job.start.drives, s) && !s.isReserved
            && (s.fromReserved ==> ReservedOf(job.start, job.vpg, s.diskID, s.reservedUUID))
  {
  }

  /** The volume documents and the drives tell the same story: each segment of a derived volume is on
      its disk exactly as recorded, with the same `reservedUUID`, and that reservation is there. */
  lemma OutcomeVolumesStored(job: Job, db: Db)
    requires GoodJob(job) && Outcome(job, db)
    ensures VolumesStored(db, job.vpg)
  {
    hide GoodJob, PlanFor, ValidDoc, Followed, DriveOutcome, FlagFor, Marked, Renaming;
    forall v, i | 0 <= v < |db.volumes| && 0 <= i < |db.volumes[v]|
      ensures var s := db.volumes[v][i];
              OnDrive(db.drives, s) && !s.isReserved && (s.fromReserved
                  ==> ReservedOf(db, job.vpg, s.diskID, s.reservedUUID))
    {
      var s := job.start.volumes[v][i];
      VolumeSegment(job, v, i);
      VolumeFollowsDrive(job, v, i);
      DerivedUnflagged(job, s.diskID, s.uuid);
      OldStays(job, db, s.diskID, s.uuid);
      RenameKeepsRest(job, s.diskID, s);
      if s.fromReserved {
        StillNamed(job, db, s.diskID, s.uuid);
      }
    }
  }

  /** A derived segment whose reservation belongs to another group keeps its name. */
  lemma OtherGroupStays(job: Job, db: Db, d: DiskID, x: Uuid)
    requires GoodJob(job) && Outcome(job, db)
    requires d in job.start.drives && x in job.start.drives[d].segs && job.start.drives[d].segs[x].fromReserved
    requires !ReservedOf(job.start, job.vpg, d, job.start.drives[d].segs[x].reservedUUID)
    ensures x in db.drives[d].segs && !ReservedOf(db, job.vpg, d, db.drives[d].segs[x].reservedUUID)
  {
    hide PlanFor, GroupsOf, FreshFor, SharedGaps;
    var t := job.start.drives[d].segs[x];
    assert WellPlaced(job.start.drives[d], t);
    var r := t.reservedUUID;
    if !FlagFor(PlanOf(job), job.start.drives[d].segs[r]).Idle? {
      var c, p, k := FlaggedIsInChunk(job.start, job.names, job.multiplier, job.start.drives[d].segs[r]);
      ChunkFacts(job.start, job.vpg, c, p, k);
    }
    hide FlagFor, Agreeing, IsRuns, ValidDoc;
    NotBoth(job, d, x);
    NotBoth(job, d, r);
    DerivedUnflagged(job, d, x);
    OldStays(job, db, d, x);
    OldStays(job, db, d, r);
    NotDerivedStays(Marked(job.start.drives[d], PlanOf(job)).segs, job.start.drives[d].segs[r]);
    hide Outcome;
    assert RepsOf(Marked(job.start.drives[d], PlanOf(job)).segs[r]) == [];
  }

  lemma VolumeOfDerived(job: Job, d: DiskID, x: Uuid) returns (v: int, i: int)
    requires GoodJob(job) && d in job.start.drives && x in job.start.drives[d].segs
             && job.start.drives[d].segs[x].fromReserved
    requires ReservedOf(job.start, job.vpg, d, job.start.drives[d].segs[x].reservedUUID)
    ensures 0 <= v < |job.start.volumes| && 0 <= i < |job.start.volumes[v]|
    ensures job.start.volumes[v][i] == job.start.drives[d].segs[x]
    ensures job.start.volumes[v][i].diskID == d
  {
    StartSound(job, d, x);
    v, i :| 0 <= v < |job.start.volumes| && 0 <= i < |job.start.volumes[v]|
        && job.start.volumes[v][i] == job.start.drives[d].segs[x];
  }

  lemma OutcomeVolumesComplete(job: Job, db: Db)
    requires GoodJob(job) && Outcome(job, db)
    ensures VolumesComplete(db, job.vpg)
  {
    hide GoodJob, PlanFor, ValidDoc, Followed, DriveOutcome, FlagFor, Marked, Renaming, GroupsOf, RepsFor, SplitUp;
    forall d, u | d in db.drives && u in db.drives[d].segs && db.drives[d].segs[u].fromReserved
               && ReservedOf(db, job.vpg, d, db.drives[d].segs[u].reservedUUID)
      ensures exists v, i ::
                0 <= v < |db.volumes| && 0 <= i < |db.volumes[v]| && db.volumes[v][i] == db.drives[d].segs[u]
    {
      var isNew, c, p, k, g := WhatIsThere(job, db, d, u);
      if isNew {
        RepIsSound(job, c, p, k, g);
        assert false;
      } else {
        DerivedBefore(job, db, d, u);
        var v, i := VolumeOfDerived(job, d, u);
        VolumeFollowsDrive(job, v, i);
        OldStays(job, db, d, u);
        assert db.volumes[v][i] == db.drives[d].segs[u];
      }
    }
  }

  lemma DerivedBefore(job: Job, db: Db, d: DiskID, u: Uuid)
    requires GoodJob(job) && Outcome(job, db) && d in job.start.drives && u in job.start.drives[d].segs
    requires d in db.drives && u in db.drives[d].segs && db.drives[d].segs[u].fromReserved
    requires FlagFor(PlanOf(job), job.start.drives[d].segs[u]).Idle?
    requires ReservedOf(db, job.vpg, d, db.drives[d].segs[u].reservedUUID)
    ensures job.start.drives[d].segs[u].fromReserved
    ensures ReservedOf(job.start, job.vpg, d, job.start.drives[d].segs[u].reservedUUID)
  {
    hide GoodJob, PlanFor, Outcome, FlagFor, Followed;
    OldStays(job, db, d, u);
    RenameKeepsRest(job, d, job.start.drives[d].segs[u]);
    if !ReservedOf(job.start, job.vpg, d, job.start.drives[d].segs[u].reservedUUID) {
      OtherGroupStays(job, db, d, u);
    }
  }

  lemma OutcomeUniform(job: Job, db: Db)
    requires GoodJob(job) && Outcome(job, db)
    ensures Uniform(db.chunks)
  {
    hide GoodJob, Outcome, GroupsOf, PlanFor, RepsFor, Origins, Agreeing, KeptWhole, SplitUp;
    forall x | 0 <= x < |db.chunks|
      ensures HasRef(db.chunks[x])
      ensures forall p, k | Pos(db.chunks, x, p, k) ::
                At(db.chunks, x, p, k).Span().Blocks() == Ref(db.chunks[x]).Span().Blocks()
    {
      var o := TraceChunk(job, db, x);
      assert HasRef(db.chunks[x]) && At(db.chunks, x, 0, 0) == Ref(db.chunks[x]);
      forall p, k | Pos(db.chunks, x, p, k) ensures At(db.chunks, x, p, k).Span().Blocks()
             == Ref(db.chunks[x]).Span().Blocks() {
        TracedBlocks(job, o, p, k);
        TracedBlocks(job, o, 0, 0);
      }
    }
  }

  lemma TracedBlocks(job: Job, o: Origin, p: int, k: int)
    requires GoodJob(job) && ValidOrigin(job.start.chunks, job.start.volumes, o) && Pos(job.start.chunks, o.c, p, k)
    ensures Traced(job, o, At(job.start.chunks, o.c, p, k)).Span().Blocks()
         == if o.g == -1 then Ref(job.start.chunks[o.c]).Span().Blocks()
            else GroupsOf(job.start.chunks[o.c], job.start.volumes)[o.g].Blocks()
  {
    hide GroupsOf, PlanFor;
    ChunkFacts(job.start, job.vpg, o.c, p, k);
    hide Agreeing, SharedGaps, FreshFor;
    if o.g != -1 {
      RepIsSound(job, o.c, p, k, o.g);
    }
  }

  lemma TightSharesGaps(db: Db)
    requires Tight(db) && Uniform(db.chunks)
    ensures SharedGaps(db)
  {
    hide UsedOf;
    forall c, p, k | Pos(db.chunks, c, p, k)
           && HasRef(db.chunks[c]) ensures SameOffsets(db, Ref(db.chunks[c]), At(db.chunks, c, p, k)) {
      assert Pos(db.chunks, c, 0, 0) && At(db.chunks, c, 0, 0) == Ref(db.chunks[c]);
      var r, s := Ref(db.chunks[c]), At(db.chunks, c, p, k);
      forall b ensures b in UsedOf(db, r) <==> b + (s.lbs - r.lbs) in UsedOf(db, s) {
      }
    }
  }

  /** Reclaim is sound: the documents agree afterwards as they did before. Every drive is valid, every
      derived segment lies inside the one reserved segment it names, on the disk and in the volume
      document alike, and no reserved block is left unused. */
  lemma OutcomeIsConsistent(job: Job, db: Db)
    requires GoodJob(job) && Outcome(job, db)
    ensures Consistent(db, job.vpg) && Tight(db)
  {
    OutcomeDrivesSound(job, db);
    OutcomeChunksStored(job, db);
    OutcomeChunksDistinct(job, db);
    OutcomeChunksComplete(job, db);
    OutcomeVolumesStored(job, db);
    OutcomeVolumesComplete(job, db);
    OutcomeUniform(job, db);
    OutcomeIsTight(job, db);
    hide *;
    TightSharesGaps(db);
    AllAgree(db, job.vpg);
  }

  lemma AllAgree(db: Db, vpg: VolumeID)
    requires DrivesSound(db.drives) && ChunksStored(db, vpg) && ChunksDistinct(db.chunks) && ChunksComplete(db, vpg)
    requires VolumesStored(db, vpg) && VolumesComplete(db, vpg) && Uniform(db.chunks) && SharedGaps(db)
    ensures Consistent(db, vpg)
  {
    hide DrivesSound, ChunksStored, ChunksDistinct, ChunksComplete, VolumesStored, VolumesComplete, Uniform, SharedGaps;
  }
}
