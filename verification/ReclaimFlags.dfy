/** The flags a plan sets on the drives, and why each of them is fit to be worked off. */
module ReclaimFlags {
  import opened Ranges
  import opened Drives
  import opened Redo
  import opened Chunks
  import opened ReclaimPlan
  import opened Reclaim

  ghost predicate Replaces(plan: Plan, s: Segment) {
    exists x :: 0 <= x < |plan.replacements| && plan.replacements[x].original == s
  }

  /** The flag `markPendingOnDisks` puts on a segment. */
  ghost function FlagFor(plan: Plan, s: Segment): Pending {
    if s in plan.removals then Removal
    else if Replaces(plan, s) then
      var x :| 0 <= x < |plan.replacements| && plan.replacements[x].original == s;
      Replace(plan.replacements[x].replacements, plan.replacements[x].freedBlocks)
    else Idle
  }

  ghost function Marked(d: DriveDoc, plan: Plan): DriveDoc {
    d.(segs := map u | u in d.segs :: d.segs[u].(pendingReclaim := FlagFor(plan, d.segs[u])))
  }

  /** Two states of a drive that differ in nothing but the flags of its segments. */
  ghost predicate SameButFlags(d: DriveDoc, e: DriveDoc) {
    && e == d.(segs := e.segs)
    && d.segs.Keys == e.segs.Keys
    && (forall u | u in d.segs :: e.segs[u] == d.segs[u].(pendingReclaim := e.segs[u].pendingReclaim))
  }

  lemma FlagsKeepValid(d: DriveDoc, e: DriveDoc)
    requires ValidDoc(d) && SameButFlags(d, e)
    ensures ValidDoc(e)
  {
    forall u | u in e.segs ensures e.segs[u].uuid == u && WellPlaced(e, e.segs[u]) {
      assert WellPlaced(d, d.segs[u]);
    }
    forall u, v | u in e.segs && v in e.segs && u != v ensures Compatible(e.segs[u], e.segs[v]) {
      assert Compatible(d.segs[u], d.segs[v]);
    }
    forall b ensures Taken(d.segs, b) <==> Taken(e.segs, b) {
      if Taken(d.segs, b) {
        var u :| u in d.segs && d.segs[u].Span().Has(b);
        assert e.segs[u].Span().Has(b);
      }
      if Taken(e.segs, b) {
        var u :| u in e.segs && e.segs[u].Span().Has(b);
        assert d.segs[u].Span().Has(b);
      }
    }
    assert Free(d) == Free(e);
    assert OneBlocks(d.segs) == OneBlocks(e.segs);
  }

  // ---------------------------------------------- which flag a segment gets

  lemma InChunkPos(chunks: seq<Chunk>, c: int, s: Segment) returns (p: int, k: int)
    requires 0 <= c < |chunks| && InChunk(chunks[c], s)
    ensures Pos(chunks, c, p, k) && At(chunks, c, p, k) == s
  {
    FlattenHas(chunks[c].pRaids, s);
    p, k :| 0 <= p < |chunks[c].pRaids| && 0 <= k < |chunks[c].pRaids[p]| && chunks[c].pRaids[p][k] == s;
  }

  lemma PosInChunk(chunks: seq<Chunk>, c: int, p: int, k: int)
    requires Pos(chunks, c, p, k)
    ensures InChunk(chunks[c], At(chunks, c, p, k))
  {
    FlattenHas(chunks[c].pRaids, At(chunks, c, p, k));
  }

  lemma PlanWhole(db: Db, names: Names, m: int, s: Segment)
    requires Uniform(db.chunks)
    ensures var plan := PlanFor(db.chunks, db.volumes, names, m);
            && (s in plan.removals <==> DroppedAt(db.chunks, |db.chunks|, db.volumes, s))
            && (forall r :: r in plan.replacements <==> SplitAt(db.chunks, |db.chunks|, db.volumes, names, r))
  {
    var n := |db.chunks|;
    assert db.chunks[..n] == db.chunks;
    RemovalsSpec(db.chunks, n, db.volumes, names, m, s);
    forall r ensures r in PlanFor(db.chunks, db.volumes, names, m).replacements
           <==> SplitAt(db.chunks, n, db.volumes, names, r) {
      ReplacementsSpec(db.chunks, n, db.volumes, names, m, r);
    }
  }

  ghost function ExpectedFlag(db: Db, names: Names, c: int, s: Segment): Pending
    requires 0 <= c < |db.chunks| && HasRef(db.chunks[c])
  {
    var item := ItemFor(db.chunks[c], db.volumes, names, s);
    if Dropped(db.chunks[c], db.volumes) then Removal
    else if SplitUp(db.chunks[c], db.volumes) then Replace(item.replacements, item.freedBlocks)
    else Idle
  }

  /** A reserved segment belongs to one chunk. */
  lemma OnlyInChunk(db: Db, vpg: VolumeID, c: int, p: int, k: int)
    requires Agreeing(db, vpg) && Pos(db.chunks, c, p, k)
    ensures HasRef(db.chunks[c]) && InChunk(db.chunks[c], At(db.chunks, c, p, k))
    ensures forall e | 0 <= e < |db.chunks| && InChunk(db.chunks[e], At(db.chunks, c, p, k)) :: e == c
  {
    var s := At(db.chunks, c, p, k);
    PosInChunk(db.chunks, c, p, k);
    hide InChunk;
    forall e | 0 <= e < |db.chunks| && InChunk(db.chunks[e], s) ensures e == c {
      var q, n := InChunkPos(db.chunks, e, s);
    }
  }

  /** What the plan lists for a segment that is in chunk `c` only. */
  lemma PlanForSegment(db: Db, names: Names, m: int, c: int, s: Segment)
    requires Uniform(db.chunks) && 0 <= c < |db.chunks| && InChunk(db.chunks[c], s)
    requires forall e | 0 <= e < |db.chunks| && InChunk(db.chunks[e], s) :: e == c
    ensures var plan := PlanFor(db.chunks, db.volumes, names, m);
            && (s in plan.removals <==> Dropped(db.chunks[c], db.volumes))
            && (ItemFor(db.chunks[c], db.volumes, names, s) in plan.replacements <==> SplitUp(db.chunks[c], db.volumes))
            && (forall r | r in plan.replacements
                && r.original == s :: r == ItemFor(db.chunks[c], db.volumes, names, s))
  {
    var plan := PlanFor(db.chunks, db.volumes, names, m);
    PlanWhole(db, names, m, s);
    ItemOriginal(db.chunks[c], db.volumes, names, s);
    hide PlanFor, GroupsOf, InChunk, ItemFor, Dropped, SplitUp;
    forall r | r in plan.replacements && r.original == s ensures r == ItemFor(db.chunks[c], db.volumes, names, s) {
      assert SplitAt(db.chunks, |db.chunks|, db.volumes, names, r);
    }
  }

  /** The flag of a reserved segment follows the decision on its chunk. */
  lemma FlagOfChunk(db: Db, vpg: VolumeID, names: Names, m: int, c: int, p: int, k: int)
    requires Agreeing(db, vpg) && Pos(db.chunks, c, p, k)
    ensures HasRef(db.chunks[c])
    ensures FlagFor(PlanFor(db.chunks, db.volumes, names, m), At(db.chunks, c, p, k))
         == ExpectedFlag(db, names, c, At(db.chunks, c, p, k))
  {
    var s := At(db.chunks, c, p, k);
    OnlyInChunk(db, vpg, c, p, k);
    PlanForSegment(db, names, m, c, s);
    hide PlanFor, GroupsOf, InChunk, Agreeing, RangesNaming;
    var plan, item := PlanFor(db.chunks, db.volumes, names, m), ItemFor(db.chunks[c], db.volumes, names, s);
    ItemOriginal(db.chunks[c], db.volumes, names, s);
    hide ItemFor;
    if SplitUp(db.chunks[c], db.volumes) {
      var x :| 0 <= x < |plan.replacements| && plan.replacements[x] == item;
    }
    forall x | 0 <= x < |plan.replacements| && plan.replacements[x].original == s ensures plan.replacements[x] == item {
      assert plan.replacements[x] in plan.replacements;
    }
  }

  lemma ItemOriginal(c: Chunk, volumes: seq<seq<Segment>>, names: Names, s: Segment)
    requires HasRef(c)
    ensures ItemFor(c, volumes, names, s).original == s
  {
  }

  lemma FlaggedIsInChunk(db: Db, names: Names, m: int, s: Segment) returns (c: int, p: int, k: int)
    requires Uniform(db.chunks) && !FlagFor(PlanFor(db.chunks, db.volumes, names, m), s).Idle?
    ensures Pos(db.chunks, c, p, k) && At(db.chunks, c, p, k) == s
  {
    var plan := PlanFor(db.chunks, db.volumes, names, m);
    PlanWhole(db, names, m, s);
    hide PlanFor, GroupsOf, InChunk;
    if s in plan.removals {
      c :| 0 <= c < |db.chunks| && Dropped(db.chunks[c], db.volumes) && InChunk(db.chunks[c], s);
    } else {
      var x :| 0 <= x < |plan.replacements| && plan.replacements[x].original == s;
      assert SplitAt(db.chunks, |db.chunks|, db.volumes, names, plan.replacements[x]);
      c :| 0 <= c < |db.chunks| && SplitUp(db.chunks[c], db.volumes) && InChunk(db.chunks[c], s);
    }
    p, k := InChunkPos(db.chunks, c, s);
  }

  // ------------------------------------------------------- the flags are fit

  lemma {:induction false} TotalShift(rs: seq<Range>, d: int)
    ensures TotalBlocks(ShiftAll(rs, d)) == TotalBlocks(rs)
    decreases |rs|
  {
    if rs != [] {
      TotalShift(rs[1..], d);
      assert ShiftAll(rs, d)[1..] == ShiftAll(rs[1..], d);
    }
  }

  lemma RefUse(db: Db, vpg: VolumeID, c: int)
    requires Agreeing(db, vpg) && 0 <= c < |db.chunks|
    ensures HasRef(db.chunks[c])
    ensures IsRuns(GroupsOf(db.chunks[c], db.volumes), UsedOf(db, Ref(db.chunks[c])))
    ensures Dropped(db.chunks[c], db.volumes) <==> UsedOf(db, Ref(db.chunks[c])) == {}
  {
    assert Pos(db.chunks, c, 0, 0) && At(db.chunks, c, 0, 0) == Ref(db.chunks[c]);
    DocsShowUse(db, vpg, c, 0, 0);
  }

  /** What the documents say about one reserved segment. */
  lemma ChunkFacts(db: Db, vpg: VolumeID, c: int, p: int, k: int)
    requires Agreeing(db, vpg) && Pos(db.chunks, c, p, k)
    ensures HasRef(db.chunks[c])
    ensures var s := At(db.chunks, c, p, k);
            && OnDrive(db.drives, s) && SegmentSound(s.diskID, s) && ValidDoc(db.drives[s.diskID])
            && s.isReserved && !s.fromReserved && !s.OneBlock() && s.volume == vpg
            && Ref(db.chunks[c]).Span().Blocks() == s.Span().Blocks()
    ensures forall e | 0 <= e < |db.chunks| :: HasRef(db.chunks[e])
  {
    var s := At(db.chunks, c, p, k);
    assert OnDrive(db.drives, s);
    assert SegmentSound(s.diskID, s);
    assert ValidDoc(db.drives[s.diskID]);
    assert WellPlaced(db.drives[s.diskID], s);
  }

  lemma MovedSpans(s: Segment, refSeg: Segment, groups: seq<Range>, names: Names)
    ensures Spans(SegmentReplacements(s, refSeg, groups, names)) == ShiftAll(groups, s.lbs - refSeg.lbs)
  {
    var reps, moved := SegmentReplacements(s, refSeg, groups, names), ShiftAll(groups, s.lbs - refSeg.lbs);
    forall i | 0 <= i < |groups| ensures Spans(reps)[i] == moved[i] {
      assert reps[i].Span() == groups[i].Shift(s.lbs - refSeg.lbs);
    }
  }

  /** The used blocks of a reserved segment are those of its chunk's first segment, shifted; so are its runs. */
  lemma RunsOfUse(db: Db, vpg: VolumeID, names: Names, c: int, p: int, k: int)
    requires Consistent(db, vpg) && Pos(db.chunks, c, p, k)
    ensures HasRef(db.chunks[c])
    ensures var s, chunk := At(db.chunks, c, p, k), db.chunks[c];
            var groups := GroupsOf(chunk, db.volumes);
            && Spans(SegmentReplacements(s, Ref(chunk), groups, names)) == ShiftAll(groups, s.lbs - Ref(chunk).lbs)
            && IsRuns(ShiftAll(groups, s.lbs - Ref(chunk).lbs), UsedOf(db, s))
            && TotalBlocks(groups) == |UsedOf(db, s)|
            && (Dropped(chunk, db.volumes) <==> UsedOf(db, s) == {})
            && Ref(chunk).Span().Blocks() == s.Span().Blocks()
  {
    hide Agreeing, UsedOf, IsRuns, GroupsOf;
    var s, chunk := At(db.chunks, c, p, k), db.chunks[c];
    RefUse(db, vpg, c);
    ChunkFacts(db, vpg, c, p, k);
    var ref, groups := Ref(chunk), GroupsOf(chunk, db.volumes);
    var d := s.lbs - ref.lbs;
    assert SameOffsets(db, ref, s);
    MovedSpans(s, ref, groups, names);
    SameRuns(groups, UsedOf(db, ref), UsedOf(db, s), d);
  }

  lemma SameRuns(groups: seq<Range>, a: set<int>, z: set<int>, d: int)
    requires IsRuns(groups, a) && forall b :: b in a <==> b + d in z
    ensures IsRuns(ShiftAll(groups, d), z) && TotalBlocks(groups) == |z| && (a == {} <==> z == {})
  {
    RunsShift(groups, a, z, d);
    RunsTotal(ShiftAll(groups, d), z);
    TotalShift(groups, d);
    EmptyTogether(a, z, d);
  }

  lemma EmptyTogether(a: set<int>, z: set<int>, d: int)
    requires forall b :: b in a <==> b + d in z
    ensures a == {} <==> z == {}
  {
    if x :| x in z {
      assert (x - d) + d == x;
      assert x - d in a;
    } else {
      NothingIn(z);
    }
    if x :| x in a {
      assert x + d in z;
    } else {
      NothingIn(a);
    }
  }

  /** Used runs are at least as long as the derived segments in them. */
  lemma UsedRunsAreLong(db: Db, vpg: VolumeID, c: int, p: int, k: int, runs: seq<Range>, i: int)
    requires Agreeing(db, vpg) && Pos(db.chunks, c, p, k)
    requires IsRuns(runs, UsedOf(db, At(db.chunks, c, p, k))) && 0 <= i < |runs|
    ensures runs[i].lbs < runs[i].lbe
  {
    var s := At(db.chunks, c, p, k);
    assert runs[i].Nonempty();
    assert runs[i].Has(runs[i].lbs);
    var x := UseWitness(db, s, runs[i].lbs);
    var d := db.drives[s.diskID];
    var t := d.segs[x];
    assert ValidDoc(d);
    assert WellPlaced(d, t) && SegmentSound(s.diskID, t);
    forall b | t.Span().Has(b) ensures b in UsedOf(db, s) {
      assert UsedAt(d.segs, s.uuid, b);
    }
    hide Agreeing, UsedOf;
    var j := WithinOneRun(runs, UsedOf(db, s), t.Span());
    assert runs[i].Meets(t.Span());
  }

  lemma MarkedSame(d: DriveDoc, plan: Plan)
    ensures SameButFlags(d, Marked(d, plan))
  {
  }

  lemma RemovalFits(db: Db, vpg: VolumeID, names: Names, m: int, c: int, p: int, k: int)
    requires Consistent(db, vpg) && Pos(db.chunks, c, p, k) && HasRef(db.chunks[c]) && Dropped(db.chunks[c], db.volumes)
    ensures var s := At(db.chunks, c, p, k);
            && OnDrive(db.drives, s) && s.isReserved && !s.OneBlock()
            && Removable(Marked(db.drives[s.diskID], PlanFor(db.chunks, db.volumes, names, m)), s.uuid)
  {
    var s := At(db.chunks, c, p, k);
    RunsOfUse(db, vpg, names, c, p, k);
    assert OnDrive(db.drives, s);
    var d := db.drives[s.diskID];
    assert SegmentSound(s.diskID, s);
    forall v | v in d.segs && d.segs[v].fromReserved ensures d.segs[v].reservedUUID != s.uuid {
      NamingIsUse(db, vpg, s, v);
    }
    hide PlanFor, Agreeing;
  }

  lemma NamingIsUse(db: Db, vpg: VolumeID, s: Segment, v: Uuid)
    requires Agreeing(db, vpg) && s.diskID in db.drives && v in db.drives[s.diskID].segs
    requires db.drives[s.diskID].segs[v].fromReserved
    ensures db.drives[s.diskID].segs[v].reservedUUID == s.uuid
            ==> BlocksOf(db.drives[s.diskID].segs[v].Span()) <= UsedOf(db, s)
    ensures BlocksOf(db.drives[s.diskID].segs[v].Span()) != {}
  {
    var d := db.drives[s.diskID];
    var t := d.segs[v];
    assert ValidDoc(d) && WellPlaced(d, t);
    assert t.lbs in BlocksOf(t.Span());
    if t.reservedUUID == s.uuid {
      forall b | b in BlocksOf(t.Span()) ensures b in UsedOf(db, s) {
        assert t.Span().Has(b);
        assert UsedAt(d.segs, s.uuid, b);
      }
    }
  }

  ghost function RepsFor(db: Db, names: Names, c: int, s: Segment): seq<Segment>
    requires 0 <= c < |db.chunks| && HasRef(db.chunks[c])
  {
    SegmentReplacements(s, Ref(db.chunks[c]), GroupsOf(db.chunks[c], db.volumes), names)
  }

  /** The replacements spell out the used blocks, and none of them is a single block. */
  lemma RepsSpellUse(db: Db, vpg: VolumeID, names: Names, c: int, p: int, k: int)
    requires Consistent(db, vpg) && Pos(db.chunks, c, p, k) && HasRef(db.chunks[c])
    ensures var s := At(db.chunks, c, p, k);
            var reps := RepsFor(db, names, c, s);
            && IsRuns(Spans(reps), UsedOf(db, s)) && CoveredBlocks(Spans(reps)) == UsedOf(db, s)
            && NoOneBlocks(reps)
            && UsedOf(db, s) <= BlocksOf(s.Span())
  {
    hide Agreeing, UsedOf, GroupsOf, SharedGaps;
    var s := At(db.chunks, c, p, k);
    var reps := RepsFor(db, names, c, s);
    RunsOfUse(db, vpg, names, c, p, k);
    DocsShowUse(db, vpg, c, p, k);
    hide SegmentReplacements, RepsFor, IsRuns;
    RunsCover(Spans(reps), UsedOf(db, s));
    forall i | 0 <= i < |reps| ensures reps[i].lbs != reps[i].lbe {
      UsedRunsAreLong(db, vpg, c, p, k, Spans(reps), i);
    }
  }

  lemma RunsCover(rs: seq<Range>, blocks: set<int>)
    requires IsRuns(rs, blocks)
    ensures CoveredBlocks(rs) == blocks
  {
    var covered := CoveredBlocks(rs);
    assert forall b :: b in covered <==> b in blocks;
    assert covered == blocks;
  }

  lemma ReplacementFits(db: Db, vpg: VolumeID, names: Names, m: int, c: int, p: int, k: int)
    requires Consistent(db, vpg) && FreshFor(db, names) && Pos(db.chunks, c, p, k) && HasRef(db.chunks[c])
    ensures var s := At(db.chunks, c, p, k);
            var reps := RepsFor(db, names, c, s);
            && OnDrive(db.drives, s)
            && FitsUsed(Marked(db.drives[s.diskID], PlanFor(db.chunks, db.volumes, names, m)), s.uuid, reps,
                CoveredBlocks(Spans(reps)))
  {
    hide Agreeing, UsedOf, GroupsOf, IsRuns, FreshFor, PlanFor, Marked, FitsUsed, SegmentReplacements;
    var s := At(db.chunks, c, p, k);
    ChunkFacts(db, vpg, c, p, k);
    RepsSpellUse(db, vpg, names, c, p, k);
    var d := db.drives[s.diskID];
    forall v | v in d.segs && d.segs[v].fromReserved && d.segs[v].reservedUUID == s.uuid
      ensures BlocksOf(d.segs[v].Span()) <= UsedOf(db, s)
    {
      NamingIsUse(db, vpg, s, v);
    }
    MovedFits(db, s, Ref(db.chunks[c]), GroupsOf(db.chunks[c], db.volumes), names, UsedOf(db, s));
    FitsMarked(d, PlanFor(db.chunks, db.volumes, names, m), s.uuid, RepsFor(db, names, c, s), UsedOf(db, s));
  }

  lemma MovedFits(db: Db, s: Segment, refSeg: Segment, groups: seq<Range>, names: Names, used: set<int>)
    requires FreshFor(db, names) && OnDrive(db.drives, s) && s.isReserved && !s.fromReserved
             && used <= BlocksOf(s.Span())
    requires IsRuns(Spans(SegmentReplacements(s, refSeg, groups, names)), used)
    requires forall v | v in db.drives[s.diskID].segs && db.drives[s.diskID].segs[v].fromReserved
                     && db.drives[s.diskID].segs[v].reservedUUID == s.uuid ::
               BlocksOf(db.drives[s.diskID].segs[v].Span()) <= used
    ensures FitsUsed(db.drives[s.diskID], s.uuid, SegmentReplacements(s, refSeg, groups, names), used)
  {
    hide IsRuns;
    var reps := SegmentReplacements(s, refSeg, groups, names);
    forall i, j | 0 <= i < j < |reps| ensures reps[i].uuid != reps[j].uuid {
      assert reps[i].uuid == names(s.uuid, i) && reps[j].uuid == names(s.uuid, j);
    }
  }

  lemma FitsMarked(d: DriveDoc, plan: Plan, u: Uuid, reps: seq<Segment>, used: set<int>)
    requires FitsUsed(d, u, reps, used)
    ensures FitsUsed(Marked(d, plan), u, reps, used)
  {
    hide IsRuns, FlagFor;
  }

  lemma MarkedRemoval(db: Db, vpg: VolumeID, names: Names, m: int, c: int, p: int, k: int)
    requires Consistent(db, vpg) && FreshFor(db, names) && Pos(db.chunks, c, p, k) && HasRef(db.chunks[c])
    requires Dropped(db.chunks[c], db.volumes)
    ensures var s := At(db.chunks, c, p, k);
            OnDrive(db.drives, s)
                && ReadyItem(Marked(db.drives[s.diskID], PlanFor(db.chunks, db.volumes, names, m)), s.uuid)
  {
    FlagOfChunk(db, vpg, names, m, c, p, k);
    RemovalFits(db, vpg, names, m, c, p, k);
    hide PlanFor, Agreeing, FlagFor, Removable, ItemFor, SharedGaps, FreshFor;
  }

  lemma MarkedReplacement(db: Db, vpg: VolumeID, names: Names, m: int, c: int, p: int, k: int)
    requires Consistent(db, vpg) && FreshFor(db, names) && Pos(db.chunks, c, p, k) && HasRef(db.chunks[c])
    requires SplitUp(db.chunks[c], db.volumes)
    ensures var s := At(db.chunks, c, p, k);
            OnDrive(db.drives, s)
                && ReadyItem(Marked(db.drives[s.diskID], PlanFor(db.chunks, db.volumes, names, m)), s.uuid)
  {
    hide PlanFor, Agreeing, FlagFor, FitsUsed, SharedGaps, FreshFor, GroupsOf, IsRuns, UsedOf, NoOneBlocks, ValidDoc;
    var s := At(db.chunks, c, p, k);
    FlagOfChunk(db, vpg, names, m, c, p, k);
    ReplacementFits(db, vpg, names, m, c, p, k);
    RepsSpellUse(db, vpg, names, c, p, k);
    RunsOfUse(db, vpg, names, c, p, k);
    ChunkFacts(db, vpg, c, p, k);
    var reps := RepsFor(db, names, c, s);
    forall i | 0 <= i < |reps| ensures !Flagged(reps[i]) {
    }
    hide SegmentReplacements;
  }

  lemma MarkedItemReady(db: Db, vpg: VolumeID, names: Names, m: int, d: DiskID, u: Uuid)
    requires Consistent(db, vpg) && FreshFor(db, names) && d in db.drives && u in db.drives[d].segs
    ensures ReadyItem(Marked(db.drives[d], PlanFor(db.chunks, db.volumes, names, m)), u)
  {
    var plan := PlanFor(db.chunks, db.volumes, names, m);
    var s := db.drives[d].segs[u];
    assert SegmentSound(d, s);
    assert ValidDoc(db.drives[d]);
    if !FlagFor(plan, s).Idle? {
      var c, p, k := FlaggedIsInChunk(db, names, m, s);
      FlagOfChunk(db, vpg, names, m, c, p, k);
      if Dropped(db.chunks[c], db.volumes) {
        MarkedRemoval(db, vpg, names, m, c, p, k);
      } else {
        MarkedReplacement(db, vpg, names, m, c, p, k);
      }
      hide *;
    }
  }

  lemma FlagNames(db: Db, vpg: VolumeID, names: Names, m: int, d: DiskID, u: Uuid)
    requires Agreeing(db, vpg) && d in db.drives && u in db.drives[d].segs
    ensures var reps := RepsOf(Marked(db.drives[d], PlanFor(db.chunks, db.volumes, names, m)).segs[u]);
            forall i | 0 <= i < |reps| :: reps[i].uuid == names(u, i)
  {
    var plan := PlanFor(db.chunks, db.volumes, names, m);
    var s := db.drives[d].segs[u];
    assert ValidDoc(db.drives[d]);
    if !FlagFor(plan, s).Idle? {
      var c, p, k := FlaggedIsInChunk(db, names, m, s);
      FlagOfChunk(db, vpg, names, m, c, p, k);
      hide PlanFor, Agreeing, IsRuns, GroupsOf, FlagFor;
    }
  }

  lemma MarkedValid(db: Db, vpg: VolumeID, names: Names, m: int, d: DiskID)
    requires Agreeing(db, vpg) && d in db.drives
    ensures ValidDoc(Marked(db.drives[d], PlanFor(db.chunks, db.volumes, names, m)))
    ensures Marked(db.drives[d], PlanFor(db.chunks, db.volumes, names, m)).segs.Keys == db.drives[d].segs.Keys
  {
    hide PlanFor, FlagFor;
    var plan := PlanFor(db.chunks, db.volumes, names, m);
    assert ValidDoc(db.drives[d]);
    MarkedSame(db.drives[d], plan);
    FlagsKeepValid(db.drives[d], Marked(db.drives[d], plan));
  }

  lemma MarkedApart(db: Db, vpg: VolumeID, names: Names, m: int, d: DiskID, u: Uuid, v: Uuid)
    requires Agreeing(db, vpg) && FreshFor(db, names) && d in db.drives && u in db.drives[d].segs
             && v in db.drives[d].segs && u != v
    ensures var e := Marked(db.drives[d], PlanFor(db.chunks, db.volumes, names, m));
            u in e.segs && v in e.segs && NamesApart(e.segs[u], e.segs[v])
  {
    FlagNames(db, vpg, names, m, d, u);
    FlagNames(db, vpg, names, m, d, v);
    hide Agreeing, PlanFor, FlagFor;
  }

  /** Once all flags are set, every drive is ready to have them worked off in any order. */
  lemma MarkedReady(db: Db, vpg: VolumeID, names: Names, m: int, d: DiskID)
    requires Consistent(db, vpg) && FreshFor(db, names) && d in db.drives
    ensures Ready(Marked(db.drives[d], PlanFor(db.chunks, db.volumes, names, m)))
  {
    MarkedValid(db, vpg, names, m, d);
    hide Agreeing, SharedGaps, FreshFor, PlanFor, ReadyItem, NamesApart, ValidDoc, Marked;
    var e := Marked(db.drives[d], PlanFor(db.chunks, db.volumes, names, m));
    forall u | u in e.segs ensures ReadyItem(e, u) {
      MarkedItemReady(db, vpg, names, m, d, u);
    }
    forall u, v | u in e.segs && v in e.segs && u != v ensures NamesApart(e.segs[u], e.segs[v]) {
      MarkedApart(db, vpg, names, m, d, u, v);
    }
  }
}
