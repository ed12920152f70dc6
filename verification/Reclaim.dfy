/** The documents a reclaim works on, what holds of them, and why every flag it sets is fit to be
    worked off. */
module Reclaim {
  import opened Ranges
  import opened Drives
  import opened Redo
  import opened Chunks
  import opened ReclaimPlan

  /** The stored drives, the chunks of the reserved volume of a group, and the segments of each of the
      volumes derived from it. */
  datatype Db = Db(drives: map<DiskID, DriveDoc>, chunks: seq<Chunk>, volumes: seq<seq<Segment>>)

  ghost predicate Pos(chunks: seq<Chunk>, c: int, p: int, k: int) {
    0 <= c < |chunks| && 0 <= p < |chunks[c].pRaids| && 0 <= k < |chunks[c].pRaids[p]|
  }

  ghost function At(chunks: seq<Chunk>, c: int, p: int, k: int): Segment
    requires Pos(chunks, c, p, k)
  {
    chunks[c].pRaids[p][k]
  }

  ghost predicate OnDrive(drives: map<DiskID, DriveDoc>, s: Segment) {
    s.diskID in drives && s.uuid in drives[s.diskID].segs && drives[s.diskID].segs[s.uuid] == s
  }

  ghost predicate SegmentSound(disk: DiskID, s: Segment) {
    && s.diskID == disk && !Flagged(s) && s.uuid != NO_UUID
    && (s.fromReserved || s.isReserved ==> s.lbs < s.lbe)
    && (!s.fromReserved ==> s.reservedUUID == NO_UUID)
  }

  ghost predicate DrivesSound(drives: map<DiskID, DriveDoc>) {
    forall d | d in drives ::
      ValidDoc(drives[d]) && forall u | u in drives[d].segs :: SegmentSound(d, drives[d].segs[u])
  }

  ghost predicate ChunksStored(db: Db, vpg: VolumeID) {
    forall c, p, k | Pos(db.chunks, c, p, k) ::
      var s := At(db.chunks, c, p, k); OnDrive(db.drives, s) && s.isReserved && s.volume == vpg
  }

  ghost predicate ChunksDistinct(chunks: seq<Chunk>) {
    forall c, p, k, e, q, m | Pos(chunks, c, p, k) && Pos(chunks, e, q, m)
           && At(chunks, c, p, k).uuid == At(chunks, e, q, m).uuid ::
      c == e && p == q && k == m
  }

  ghost predicate ReservedOf(db: Db, vpg: VolumeID, d: DiskID, u: Uuid) {
    d in db.drives && u in db.drives[d].segs && db.drives[d].segs[u].isReserved && db.drives[d].segs[u].volume == vpg
  }

  ghost predicate ChunksComplete(db: Db, vpg: VolumeID) {
    forall d, u | ReservedOf(db, vpg, d, u) ::
           exists c, p, k :: Pos(db.chunks, c, p, k) && At(db.chunks, c, p, k) == db.drives[d].segs[u]
  }

  ghost predicate VolumesStored(db: Db, vpg: VolumeID) {
    forall v, i | 0 <= v < |db.volumes| && 0 <= i < |db.volumes[v]| ::
      var s := db.volumes[v][i];
      OnDrive(db.drives, s) && !s.isReserved && (s.fromReserved ==> ReservedOf(db, vpg, s.diskID, s.reservedUUID))
  }

  ghost predicate VolumesComplete(db: Db, vpg: VolumeID) {
    forall d, u | d in db.drives && u in db.drives[d].segs && db.drives[d].segs[u].fromReserved
               && ReservedOf(db, vpg, d, db.drives[d].segs[u].reservedUUID) ::
      exists v, i :: 0 <= v < |db.volumes| && 0 <= i < |db.volumes[v]| && db.volumes[v][i] == db.drives[d].segs[u]
  }

  ghost predicate Uniform(chunks: seq<Chunk>) {
    forall c | 0 <= c < |chunks| :: HasRef(chunks[c])
      && forall p, k | Pos(chunks, c, p, k) :: At(chunks, c, p, k).Span().Blocks() == Ref(chunks[c]).Span().Blocks()
  }

  ghost predicate UsedAt(segs: map<Uuid, Segment>, u: Uuid, b: int) {
    exists v :: v in segs && segs[v].fromReserved && segs[v].reservedUUID == u && segs[v].Span().Has(b)
  }

  /** The blocks of a drive covered by segments derived from reservation `u`. */
  ghost function UsedOn(d: DriveDoc, u: Uuid): set<int> {
    set b: int | d.first <= b < d.last + 1 && UsedAt(d.segs, u, b)
  }

  ghost function UsedOf(db: Db, s: Segment): set<int> {
    if s.diskID in db.drives then UsedOn(db.drives[s.diskID], s.uuid) else {}
  }

  ghost predicate SameOffsets(db: Db, s: Segment, t: Segment) {
    forall b :: b in UsedOf(db, s) <==> b + (t.lbs - s.lbs) in UsedOf(db, t)
  }

  /** All segments of a reserved chunk are used at the same offsets as its first one. */
  ghost predicate SharedGaps(db: Db) {
    forall c, p, k | Pos(db.chunks, c, p, k)
           && HasRef(db.chunks[c]) :: SameOffsets(db, Ref(db.chunks[c]), At(db.chunks, c, p, k))
  }

  /** The documents of a provisioning group agree with each other. */
  ghost predicate Agreeing(db: Db, vpg: VolumeID) {
    && DrivesSound(db.drives)
    && ChunksStored(db, vpg) && ChunksDistinct(db.chunks) && ChunksComplete(db, vpg)
    && VolumesStored(db, vpg) && VolumesComplete(db, vpg)
    && Uniform(db.chunks)
  }

  ghost predicate Consistent(db: Db, vpg: VolumeID) {
    Agreeing(db, vpg) && SharedGaps(db)
  }

  /** Uuids minted for replacements are new and all different. */
  ghost predicate FreshFor(db: Db, names: Names) {
    && (forall u, i, v, j :: names(u, i) == names(v, j) ==> u == v && i == j)
    && (forall u, i, d | d in db.drives :: names(u, i) !in db.drives[d].segs)
    && (forall u, i :: names(u, i) != NO_UUID)
  }

  // -------------------------------------------------- documents show the use

  lemma ReservedIsInChunk(db: Db, vpg: VolumeID, d: DiskID, c: int, p: int, k: int)
    requires DrivesSound(db.drives) && ChunksStored(db, vpg) && ChunksDistinct(db.chunks) && ChunksComplete(db, vpg)
    requires Pos(db.chunks, c, p, k) && ReservedOf(db, vpg, d, At(db.chunks, c, p, k).uuid)
    ensures At(db.chunks, c, p, k).diskID == d
    ensures db.drives[d].segs[At(db.chunks, c, p, k).uuid] == At(db.chunks, c, p, k)
  {
    var u := At(db.chunks, c, p, k).uuid;
    var e, q, m :| Pos(db.chunks, e, q, m) && At(db.chunks, e, q, m) == db.drives[d].segs[u];
    assert SegmentSound(d, db.drives[d].segs[u]);
    assert ValidDoc(db.drives[d]);
  }

  /** The ranges recorded in the volume documents are the blocks in use on the drive. */
  lemma DocsShowUse(db: Db, vpg: VolumeID, c: int, p: int, k: int)
    requires Agreeing(db, vpg) && Pos(db.chunks, c, p, k)
    ensures var s := At(db.chunks, c, p, k);
            && s.diskID in db.drives
            && AllNonempty(RangesNaming(db.volumes, s.uuid))
            && CoveredBlocks(RangesNaming(db.volumes, s.uuid)) == UsedOf(db, s)
            && UsedOf(db, s) <= BlocksOf(s.Span())
            && (RangesNaming(db.volumes, s.uuid) == [] <==> UsedOf(db, s) == {})
  {
    var s := At(db.chunks, c, p, k);
    var rs := RangesNaming(db.volumes, s.uuid);
    assert OnDrive(db.drives, s);
    DocsNonempty(db, vpg, c, p, k);
    forall b ensures b in UsedOf(db, s) <==> Covered(rs, b)
             ensures b in UsedOf(db, s) ==> s.Span().Has(b)
    {
      BlockUse(db, vpg, c, p, k, b);
      DocUseCovered(db, s.uuid, b);
    }
    hide Agreeing, UsedOf, RangesNaming;
    assert CoveredBlocks(rs) == UsedOf(db, s);
    if rs != [] {
      FirstCovered(rs);
    }
  }

  lemma DocsNonempty(db: Db, vpg: VolumeID, c: int, p: int, k: int)
    requires Agreeing(db, vpg) && Pos(db.chunks, c, p, k)
    ensures AllNonempty(RangesNaming(db.volumes, At(db.chunks, c, p, k).uuid))
  {
    var s := At(db.chunks, c, p, k);
    forall v, i | Names2(db.volumes, v, i, s.uuid) ensures db.volumes[v][i].Span().Nonempty() {
      VolumeUse(db, vpg, c, p, k, v, i);
    }
    hide Agreeing;
    RangesNamingSpec(db.volumes, s.uuid);
  }

  ghost predicate DocUse(volumes: seq<seq<Segment>>, u: Uuid, b: int) {
    exists v, i :: Names2(volumes, v, i, u) && volumes[v][i].Span().Has(b)
  }

  lemma DocUseCovered(db: Db, u: Uuid, b: int)
    ensures DocUse(db.volumes, u, b) <==> Covered(RangesNaming(db.volumes, u), b)
  {
    RangesNamingSpec(db.volumes, u);
  }

  lemma FirstCovered(rs: seq<Range>)
    requires AllNonempty(rs) && rs != []
    ensures CoveredBlocks(rs) != {}
  {
    assert rs[0].Nonempty();
    assert rs[0].Has(rs[0].lbs);
    assert rs[0].lbs in CoveredBlocks(rs);
  }

  lemma UseWitness(db: Db, s: Segment, b: int) returns (x: Uuid)
    requires b in UsedOf(db, s)
    ensures s.diskID in db.drives && x in db.drives[s.diskID].segs
    ensures var t := db.drives[s.diskID].segs[x]; t.fromReserved && t.reservedUUID == s.uuid && t.Span().Has(b)
  {
    x :| x in db.drives[s.diskID].segs && db.drives[s.diskID].segs[x].fromReserved
      && db.drives[s.diskID].segs[x].reservedUUID == s.uuid && db.drives[s.diskID].segs[x].Span().Has(b);
  }

  lemma BlockUse(db: Db, vpg: VolumeID, c: int, p: int, k: int, b: int)
    requires Agreeing(db, vpg) && Pos(db.chunks, c, p, k)
    ensures var s := At(db.chunks, c, p, k);
            && (b in UsedOf(db, s) <==> DocUse(db.volumes, s.uuid, b))
            && (b in UsedOf(db, s) ==> s.Span().Has(b))
  {
    hide Agreeing, UsedOf;
    var s := At(db.chunks, c, p, k);
    if DocUse(db.volumes, s.uuid, b) {
      var v, i :| Names2(db.volumes, v, i, s.uuid) && db.volumes[v][i].Span().Has(b);
      VolumeUse(db, vpg, c, p, k, v, i);
    }
    if b in UsedOf(db, s) {
      var x := UseWitness(db, s, b);
      DriveUse(db, vpg, c, p, k, x);
    }
  }

  lemma VolumeUse(db: Db, vpg: VolumeID, c: int, p: int, k: int, v: int, i: int)
    requires Agreeing(db, vpg) && Pos(db.chunks, c, p, k) && Names2(db.volumes, v, i, At(db.chunks, c, p, k).uuid)
    ensures db.volumes[v][i].Span().Nonempty()
    ensures forall b | db.volumes[v][i].Span().Has(b) :: b in UsedOf(db, At(db.chunks, c, p, k))
  {
    var t := db.volumes[v][i];
    ReservedIsInChunk(db, vpg, t.diskID, c, p, k);
    assert ValidDoc(db.drives[t.diskID]);
    assert WellPlaced(db.drives[t.diskID], t);
  }

  lemma DriveUse(db: Db, vpg: VolumeID, c: int, p: int, k: int, x: Uuid)
    requires Agreeing(db, vpg) && Pos(db.chunks, c, p, k)
    requires var s := At(db.chunks, c, p, k);
             && s.diskID in db.drives && x in db.drives[s.diskID].segs
             && db.drives[s.diskID].segs[x].fromReserved && db.drives[s.diskID].segs[x].reservedUUID == s.uuid
    ensures var s := At(db.chunks, c, p, k);
            && db.drives[s.diskID].segs[x].Span().Within(s.Span())
            && exists v, i :: Names2(db.volumes, v, i, s.uuid) && db.volumes[v][i] == db.drives[s.diskID].segs[x]
  {
    var s := At(db.chunks, c, p, k);
    var t := db.drives[s.diskID].segs[x];
    assert OnDrive(db.drives, s);
    assert ValidDoc(db.drives[s.diskID]);
    assert WellPlaced(db.drives[s.diskID], t);
    assert ReservedOf(db, vpg, s.diskID, t.reservedUUID);
    var v, i :| 0 <= v < |db.volumes| && 0 <= i < |db.volumes[v]| && db.volumes[v][i] == t;
    assert Names2(db.volumes, v, i, s.uuid);
  }

  // -------------------------------------------------------- decisions per chunk

  ghost predicate Dropped(c: Chunk, volumes: seq<seq<Segment>>)
    requires HasRef(c)
  {
    RangesNaming(volumes, Ref(c).uuid) == []
  }

  ghost predicate KeptWhole(c: Chunk, volumes: seq<seq<Segment>>)
    requires HasRef(c)
  {
    !Dropped(c, volumes) && TotalBlocks(GroupsOf(c, volumes)) == Ref(c).Span().Blocks()
  }

  ghost predicate SplitUp(c: Chunk, volumes: seq<seq<Segment>>)
    requires HasRef(c)
  {
    !Dropped(c, volumes) && TotalBlocks(GroupsOf(c, volumes)) != Ref(c).Span().Blocks()
  }

  ghost function ItemFor(c: Chunk, volumes: seq<seq<Segment>>, names: Names, s: Segment): Replacement
    requires HasRef(c)
  {
    Replacement(s, SegmentReplacements(s, Ref(c), GroupsOf(c, volumes), names),
                Ref(c).Span().Blocks() - TotalBlocks(GroupsOf(c, volumes)))
  }

  ghost predicate InChunk(c: Chunk, s: Segment) {
    s in Flatten(c.pRaids)
  }

  lemma PlanStep(chunks: seq<Chunk>, n: int, volumes: seq<seq<Segment>>, names: Names, m: int)
    requires 0 < n <= |chunks| && forall c | 0 <= c < |chunks| :: HasRef(chunks[c])
    ensures PlanFor(chunks[..n], volumes, names, m)
         == Decide(PlanFor(chunks[..n - 1], volumes, names, m), chunks[n - 1],
                   RangesNaming(volumes, Ref(chunks[n - 1]).uuid), GroupsOf(chunks[n - 1], volumes), names, m)
  {
    assert chunks[..n][..n - 1] == chunks[..n - 1];
  }

  ghost predicate DroppedAt(chunks: seq<Chunk>, n: int, volumes: seq<seq<Segment>>, s: Segment)
    requires 0 <= n <= |chunks| && forall c | 0 <= c < |chunks| :: HasRef(chunks[c])
  {
    exists c :: 0 <= c < n && Dropped(chunks[c], volumes) && InChunk(chunks[c], s)
  }

  /** What the identification removes: the segments of exactly the chunks nobody uses. */
  lemma {:induction false} RemovalsSpec(chunks: seq<Chunk>, n: int, volumes: seq<seq<Segment>>, names: Names, m: int,
                                        s: Segment)
    requires 0 <= n <= |chunks| && forall c | 0 <= c < |chunks| :: HasRef(chunks[c])
    ensures s in PlanFor(chunks[..n], volumes, names, m).removals <==> DroppedAt(chunks, n, volumes, s)
    decreases n
  {
    if n > 0 {
      RemovalsSpec(chunks, n - 1, volumes, names, m, s);
      PlanStep(chunks, n, volumes, names, m);
      hide PlanFor, GroupsOf;
    }
  }

  ghost predicate SplitAt(chunks: seq<Chunk>, n: int, volumes: seq<seq<Segment>>, names: Names, r: Replacement)
    requires 0 <= n <= |chunks| && forall c | 0 <= c < |chunks| :: HasRef(chunks[c])
  {
    exists c :: 0 <= c < n && SplitUp(chunks[c], volumes) && InChunk(chunks[c], r.original)
             && r == ItemFor(chunks[c], volumes, names, r.original)
  }

  lemma ItemsHave(c: Chunk, volumes: seq<seq<Segment>>, names: Names, r: Replacement)
    requires HasRef(c)
    ensures r in HereItems(c, volumes, names) <==>
              SplitUp(c, volumes) && InChunk(c, r.original) && r == ItemFor(c, volumes, names, r.original)
  {
    hide GroupsOf;
    var items := ReplacementItems(c, GroupsOf(c, volumes), names, Ref(c).Span().Blocks() - TotalBlocks(GroupsOf(c,
        volumes)));
    var all := Flatten(c.pRaids);
    assert forall x | 0 <= x < |items| :: items[x] == ItemFor(c, volumes, names, all[x]);
    if SplitUp(c, volumes) && InChunk(c, r.original) && r == ItemFor(c, volumes, names, r.original) {
      var x :| 0 <= x < |all| && all[x] == r.original;
      assert items[x] == r;
    }
  }

  lemma SplitMore(chunks: seq<Chunk>, n: int, volumes: seq<seq<Segment>>, names: Names, r: Replacement)
    requires 0 < n <= |chunks| && forall c | 0 <= c < |chunks| :: HasRef(chunks[c])
    ensures SplitAt(chunks, n, volumes, names, r) <==> (
              || SplitAt(chunks, n - 1, volumes, names, r)
              || (SplitUp(chunks[n - 1], volumes) && InChunk(chunks[n - 1], r.original)
                  && r == ItemFor(chunks[n - 1], volumes, names, r.original)))
  {
    hide ItemFor, SplitUp, InChunk;
  }

  /** What the identification replaces: the segments of exactly the partly used chunks. */
  lemma {:induction false} ReplacementsSpec(chunks: seq<Chunk>, n: int, volumes: seq<seq<Segment>>, names: Names,
                                            m: int, r: Replacement)
    requires 0 <= n <= |chunks| && forall c | 0 <= c < |chunks| :: HasRef(chunks[c])
    ensures r in PlanFor(chunks[..n], volumes, names, m).replacements <==> SplitAt(chunks, n, volumes, names, r)
    decreases n
  {
    if n > 0 {
      ReplacementsSpec(chunks, n - 1, volumes, names, m, r);
      ReplacementsStep(chunks, n, volumes, names, m);
      ItemsHave(chunks[n - 1], volumes, names, r);
      SplitMore(chunks, n, volumes, names, r);
      hide PlanFor, SplitAt, HereItems, ItemFor;
    }
  }

  ghost function HereItems(c: Chunk, volumes: seq<seq<Segment>>, names: Names): seq<Replacement>
    requires HasRef(c)
  {
    if SplitUp(c, volumes)
    then ReplacementItems(c, GroupsOf(c, volumes), names, Ref(c).Span().Blocks() - TotalBlocks(GroupsOf(c, volumes)))
    else []
  }

  lemma ReplacementsStep(chunks: seq<Chunk>, n: int, volumes: seq<seq<Segment>>, names: Names, m: int)
    requires 0 < n <= |chunks| && forall c | 0 <= c < |chunks| :: HasRef(chunks[c])
    ensures PlanFor(chunks[..n], volumes, names, m).replacements
         == PlanFor(chunks[..n - 1], volumes, names, m).replacements + HereItems(chunks[n - 1], volumes, names)
  {
    PlanStep(chunks, n, volumes, names, m);
    hide PlanFor, GroupsOf;
  }
}
