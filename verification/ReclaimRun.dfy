/** A reclaim as a run of atomic document updates: set flags, commit the new chunks, work off the flags,
    rename reservations in the derived volumes. Management may crash between any two updates. */
module ReclaimRun {
  import opened Ranges
  import opened Drives
  import opened Redo
  import opened Chunks
  import opened ReclaimPlan
  import opened Reclaim
  import opened ReclaimFlags

  datatype Job = Job(start: Db, vpg: VolumeID, names: Names, multiplier: int)

  datatype Phase = Preparing | Committing | Done

  /** What the running management remembers and a crash forgets: the drives it has to recalculate, the
      volumes it updated and the drives it recalculated. */
  datatype State = State(phase: Phase, db: Db, uuidMap: map<Uuid, seq<Segment>>, stale: set<DiskID>,
                         updated: set<int>, recalculated: set<DiskID>)

  datatype Action =
    | Mark(d: DiskID, u: Uuid)
    | Unmark(d: DiskID, u: Uuid)
    | Commit
    | WorkOff(d: DiskID, u: Uuid)
    | UpdateVolume(v: int)
    | Recalculate(d: DiskID)
    | Finish
    | Crash

  ghost predicate GoodJob(job: Job)
    ensures GoodJob(job) ==> Uniform(job.start.chunks)
  {
    Consistent(job.start, job.vpg) && FreshFor(job.start, job.names)
  }

  ghost function PlanOf(job: Job): Plan
    requires Uniform(job.start.chunks)
  {
    PlanFor(job.start.chunks, job.start.volumes, job.names, job.multiplier)
  }

  // --------------------------------------------- renaming in the volumes

  function UuidMap(rs: seq<Replacement>): map<Uuid, seq<Segment>> {
    if rs == [] then map[]
    else UuidMap(rs[..|rs| - 1])[rs[|rs| - 1].original.uuid := rs[|rs| - 1].replacements]
  }

  function Renamed(s: Segment, replacements: seq<Segment>): Segment {
    if replacements == [] then s
    else if s.lbs >= replacements[0].lbs && s.lbe <= replacements[0].lbe then s.(reservedUUID := replacements[0].uuid)
    else Renamed(s, replacements[1..])
  }

  /** The update `updateReservedUUIDsOnDerivedVolumes` applies to one segment of a derived volume. */
  function Renaming(s: Segment, uuidMap: map<Uuid, seq<Segment>>): Segment {
    if s.reservedUUID in uuidMap then Renamed(s, uuidMap[s.reservedUUID]) else s
  }

  function RenamedVolume(volume: seq<Segment>, uuidMap: map<Uuid, seq<Segment>>): (r: seq<Segment>)
    ensures |r| == |volume| && forall i | 0 <= i < |r| :: r[i] == Renaming(volume[i], uuidMap)
  {
    seq(|volume|, i requires 0 <= i < |volume| => Renaming(volume[i], uuidMap))
  }

  // -------------------------------------------------------------- the steps

  ghost predicate NoFlags(db: Db) {
    forall d, u | d in db.drives && u in db.drives[d].segs :: !Flagged(db.drives[d].segs[u])
  }

  ghost predicate AllMarked(job: Job, db: Db)
    requires Uniform(job.start.chunks)
  {
    forall d | d in db.drives
           && d in job.start.drives :: db.drives[d].segs == Marked(job.start.drives[d], PlanOf(job)).segs
  }

  ghost predicate Affects(job: Job, d: DiskID)
    requires Uniform(job.start.chunks)
  {
    d in job.start.drives
    && exists u :: u in job.start.drives[d].segs && !FlagFor(PlanOf(job), job.start.drives[d].segs[u]).Idle?
  }

  ghost function Affected(job: Job): set<DiskID>
    requires Uniform(job.start.chunks)
  {
    set d | d in job.start.drives && Affects(job, d)
  }

  ghost function FlaggedDrives(db: Db): set<DiskID> {
    set d | d in db.drives && FlaggedIn(db.drives[d]) != {}
  }

  ghost predicate Enabled(job: Job, s: State, a: Action)
    requires Uniform(job.start.chunks)
  {
    match a
    case Mark(d, u) =>
      && s.phase == Preparing && d in s.db.drives && u in s.db.drives[d].segs
      && d in job.start.drives && u in job.start.drives[d].segs
      && !FlagFor(PlanOf(job), job.start.drives[d].segs[u]).Idle?
    case Unmark(d, u) => s.phase == Preparing && d in s.db.drives && u in s.db.drives[d].segs
    case Commit => s.phase == Preparing && AllMarked(job, s.db) && (PlanOf(job).removals != []
        || PlanOf(job).replacements != [])
    case WorkOff(d, u) =>
      s.phase == Committing && d in s.db.drives && u in s.db.drives[d].segs && Flagged(s.db.drives[d].segs[u])
    case UpdateVolume(v) => s.phase == Committing && NoFlags(s.db) && 0 <= v < |s.db.volumes|
    case Recalculate(d) => s.phase == Committing && NoFlags(s.db) && d in s.db.drives && d in s.stale
    case Finish =>
      && s.phase == Committing && NoFlags(s.db)
      && (forall v | 0 <= v < |s.db.volumes| :: v in s.updated)
      && s.stale <= s.recalculated
    case Crash => true
  }

  ghost function WithDrive(s: State, d: DiskID, doc: DriveDoc): State {
    s.(db := s.db.(drives := s.db.drives[d := doc]))
  }

  function WithFlag(doc: DriveDoc, u: Uuid, flag: Pending): DriveDoc
    requires u in doc.segs
  {
    doc.(segs := doc.segs[u := doc.segs[u].(pendingReclaim := flag)])
  }

  /** The reclaim itself recalculates every drive it affects, a recovery only the drives that still carry a
      flag when it starts. */
  ghost function Next(job: Job, s: State, a: Action): State
    requires Uniform(job.start.chunks) && Enabled(job, s, a)
  {
    match a
    case Mark(d, u) =>
      WithDrive(s, d, WithFlag(s.db.drives[d], u, FlagFor(PlanOf(job), job.start.drives[d].segs[u])))
    case Unmark(d, u) => WithDrive(s, d, WithFlag(s.db.drives[d], u, Idle))
    case Commit =>
      s.(phase := Committing, db := s.db.(chunks := PlanOf(job).chunks), uuidMap := UuidMap(PlanOf(job).replacements),
         stale := Affected(job))
    case WorkOff(d, u) => WithDrive(s, d, Apply(s.db.drives[d], u))
    case UpdateVolume(v) =>
      s.(db := s.db.(volumes := s.db.volumes[v := RenamedVolume(s.db.volumes[v], s.uuidMap)]),
          updated := s.updated + {v})
    case Recalculate(d) => WithDrive(s, d, Recalculated(s.db.drives[d])).(recalculated := s.recalculated + {d})
    case Finish => s.(phase := Done, uuidMap := map[])
    case Crash => s.(stale := FlaggedDrives(s.db), updated := {}, recalculated := {})
  }

  ghost function Initial(job: Job): State {
    State(Preparing, job.start, map[], {}, {}, {})
  }

  ghost predicate IsRun(job: Job, s: State, actions: seq<Action>)
    requires Uniform(job.start.chunks)
    decreases |actions|
  {
    actions == [] || (Enabled(job, s, actions[0]) && IsRun(job, Next(job, s, actions[0]), actions[1..]))
  }

  ghost function After(job: Job, s: State, actions: seq<Action>): State
    requires Uniform(job.start.chunks) && IsRun(job, s, actions)
    decreases |actions|
  {
    if actions == [] then s else After(job, Next(job, s, actions[0]), actions[1..])
  }

  // -------------------------------------------------------------- invariant

  ghost predicate OnlyFlags(job: Job, s: State)
    requires Uniform(job.start.chunks)
  {
    && s.db.chunks == job.start.chunks && s.db.volumes == job.start.volumes
    && s.updated == {} && s.recalculated == {}
    && s.db.drives.Keys == job.start.drives.Keys
    && (forall d | d in s.db.drives :: SameButFlags(job.start.drives[d], s.db.drives[d]))
  }

  /** Whatever the remaining flags of a drive lead to is what the full set of flags led to. */
  ghost predicate LeadsOn(job: Job, d: DiskID, doc: DriveDoc)
    requires Uniform(job.start.chunks) && d in job.start.drives
  {
    forall f :: IsSettled(doc.segs, f) ==> IsSettled(Marked(job.start.drives[d], PlanOf(job)).segs, f)
  }

  ghost predicate DriveOnTheWay(job: Job, d: DiskID, doc: DriveDoc)
    requires Uniform(job.start.chunks) && d in job.start.drives
  {
    && doc.first == job.start.drives[d].first && doc.last == job.start.drives[d].last
    && Ready(doc)
    && LeadsOn(job, d, doc)
    && (d !in Affected(job) ==> doc == job.start.drives[d])
  }

  ghost predicate DrivesOnTheWay(job: Job, drives: map<DiskID, DriveDoc>)
    requires Uniform(job.start.chunks)
  {
    && drives.Keys == job.start.drives.Keys
    && (forall d | d in drives :: DriveOnTheWay(job, d, drives[d]))
  }

  ghost predicate Underway(job: Job, s: State)
    requires Uniform(job.start.chunks)
  {
    && s.db.chunks == PlanOf(job).chunks
    && DrivesOnTheWay(job, s.db.drives)
    && VolumesOnTheWay(job, s)
    && (s.phase == Committing ==> s.uuidMap == UuidMap(PlanOf(job).replacements))
    && s.stale <= Affected(job)
    && (s.phase == Done ==> NoFlags(s.db))
  }

  ghost predicate VolumesOnTheWay(job: Job, s: State)
    requires Uniform(job.start.chunks)
  {
    && |s.db.volumes| == |job.start.volumes|
    && (forall v | 0 <= v < |s.db.volumes| ::
          || s.db.volumes[v] == RenamedVolume(job.start.volumes[v], UuidMap(PlanOf(job).replacements))
          || (v !in s.updated && s.phase != Done && s.db.volumes[v] == job.start.volumes[v]))
  }

  ghost predicate Inv(job: Job, s: State)
    requires Uniform(job.start.chunks)
  {
    if s.phase == Preparing then OnlyFlags(job, s) else Underway(job, s)
  }

  // ---------------------------------------------------------- the uuid map

  lemma {:induction false} UuidMapSpec(rs: seq<Replacement>, u: Uuid)
    ensures u in UuidMap(rs) <==> exists x :: 0 <= x < |rs| && rs[x].original.uuid == u
    ensures u in UuidMap(rs) ==>
               exists x :: 0 <= x < |rs| && rs[x].original.uuid == u && rs[x].replacements == UuidMap(rs)[u]
    decreases |rs|
  {
    if rs != [] {
      var n := |rs| - 1;
      UuidMapSpec(rs[..n], u);
      assert forall x | 0 <= x < n :: rs[..n][x] == rs[x];
    }
  }

  /** Every replaced segment is one of a chunk that was split, with the replacements of that chunk. */
  lemma ReplacedIsSplit(job: Job, x: int) returns (c: int, p: int, k: int)
    requires GoodJob(job) && 0 <= x < |PlanOf(job).replacements|
    ensures Pos(job.start.chunks, c, p, k) && At(job.start.chunks, c, p, k) == PlanOf(job).replacements[x].original
    ensures HasRef(job.start.chunks[c]) && SplitUp(job.start.chunks[c], job.start.volumes)
    ensures PlanOf(job).replacements[x].replacements == RepsFor(job.start, job.names, c, At(job.start.chunks, c, p, k))
    ensures FlagFor(PlanOf(job), At(job.start.chunks, c, p, k)).Replace?
    ensures RepsOf(At(job.start.chunks, c, p, k).(pendingReclaim := FlagFor(PlanOf(job), At(job.start.chunks, c, p,
            k))))
         == PlanOf(job).replacements[x].replacements
  {
    var r, db := PlanOf(job).replacements[x], job.start;
    c := SplitChunk(job, x);
    p, k := InChunkPos(db.chunks, c, r.original);
    hide PlanFor, Agreeing, SharedGaps, FlagFor, InChunk, FreshFor, SplitUp, ItemFor, RepsFor, ExpectedFlag;
    FlagOfChunk(db, job.vpg, job.names, job.multiplier, c, p, k);
    ExpectedReps(db, job.names, c, r.original);
  }

  lemma ExpectedReps(db: Db, names: Names, c: int, s: Segment)
    requires 0 <= c < |db.chunks| && HasRef(db.chunks[c]) && SplitUp(db.chunks[c], db.volumes)
    ensures ExpectedFlag(db, names, c, s).Replace?
            && ExpectedFlag(db, names, c, s).replacements == RepsFor(db, names, c, s)
    ensures ItemFor(db.chunks[c], db.volumes, names, s).replacements == RepsFor(db, names, c, s)
  {
    NotDropped(db.chunks[c], db.volumes);
    hide GroupsOf, Dropped, TotalBlocks, SegmentReplacements;
  }

  lemma SplitChunk(job: Job, x: int) returns (c: int)
    requires GoodJob(job) && 0 <= x < |PlanOf(job).replacements|
    ensures 0 <= c < |job.start.chunks| && HasRef(job.start.chunks[c])
            && SplitUp(job.start.chunks[c], job.start.volumes)
    ensures var r := PlanOf(job).replacements[x];
            InChunk(job.start.chunks[c], r.original)
                && r == ItemFor(job.start.chunks[c], job.start.volumes, job.names, r.original)
  {
    var r, db := PlanOf(job).replacements[x], job.start;
    PlanWhole(db, job.names, job.multiplier, r.original);
    hide PlanFor, Agreeing, SharedGaps, GroupsOf, InChunk, FreshFor, SplitUp, ItemFor;
    assert r in PlanOf(job).replacements;
    assert SplitAt(db.chunks, |db.chunks|, db.volumes, job.names, r);
    c :| 0 <= c < |db.chunks| && SplitUp(db.chunks[c], db.volumes) && InChunk(db.chunks[c], r.original)
      && r == ItemFor(db.chunks[c], db.volumes, job.names, r.original);
  }

  lemma NotDropped(c: Chunk, volumes: seq<seq<Segment>>)
    requires HasRef(c) && SplitUp(c, volumes)
    ensures !Dropped(c, volumes)
  {
  }

  lemma SamePosition(job: Job, c: int, p: int, k: int, e: int, q: int, n: int)
    requires GoodJob(job) && Pos(job.start.chunks, c, p, k) && Pos(job.start.chunks, e, q, n)
    requires At(job.start.chunks, c, p, k).uuid == At(job.start.chunks, e, q, n).uuid
    ensures c == e && p == q && k == n
  {
  }

  lemma FlagForReplaces(plan: Plan, s: Segment)
    requires FlagFor(plan, s).Replace?
    ensures exists x :: 0 <= x < |plan.replacements| && plan.replacements[x].original == s
  {
  }

  /** Every replacement of a stored reserved segment is the one its flag carries. */
  lemma ReplacementIsFlag(job: Job, d: DiskID, u: Uuid, x: int)
    requires GoodJob(job) && ReservedOf(job.start, job.vpg, d, u)
    requires 0 <= x < |PlanOf(job).replacements| && PlanOf(job).replacements[x].original.uuid == u
    ensures var flag := FlagFor(PlanOf(job), job.start.drives[d].segs[u]);
            flag.Replace? && PlanOf(job).replacements[x].replacements == flag.replacements
  {
    var db := job.start;
    var c, p, k :| Pos(db.chunks, c, p, k) && At(db.chunks, c, p, k) == db.drives[d].segs[u];
    assert ValidDoc(db.drives[d]) && db.drives[d].segs[u].uuid == u;
    hide Agreeing, SharedGaps, FreshFor, PlanOf, FlagFor, RepsFor, IsRuns, ValidDoc;
    var e, q, n := ReplacedIsSplit(job, x);
    SamePosition(job, c, p, k, e, q, n);
  }

  /** A reservation is renamed in the volumes exactly when it is replaced on its drive, by the same segments. */
  lemma MapFollowsFlags(job: Job, d: DiskID, u: Uuid)
    requires GoodJob(job) && d in job.start.drives && u in job.start.drives[d].segs
    requires ReservedOf(job.start, job.vpg, d, u)
    ensures var s := job.start.drives[d].segs[u];
            var flag := FlagFor(PlanOf(job), s);
            && (u in UuidMap(PlanOf(job).replacements) <==> flag.Replace?)
            && (flag.Replace? ==> UuidMap(PlanOf(job).replacements)[u] == flag.replacements)
  {
    var rs := PlanOf(job).replacements;
    var s := job.start.drives[d].segs[u];
    UuidMapSpec(rs, u);
    assert ValidDoc(job.start.drives[d]) && s.uuid == u;
    hide GoodJob, PlanOf, FlagFor, ValidDoc, UuidMap;
    forall x | 0 <= x < |rs| && rs[x].original.uuid == u
      ensures FlagFor(PlanOf(job), s).Replace? && rs[x].replacements == FlagFor(PlanOf(job), s).replacements
    {
      ReplacementIsFlag(job, d, u, x);
    }
    if FlagFor(PlanOf(job), s).Replace? {
      FlagForReplaces(PlanOf(job), s);
    }
  }

  lemma {:induction false} RenamedIsRetag(s: Segment, replacements: seq<Segment>)
    requires s.fromReserved
    ensures Renamed(s, replacements) == Retag(s, replacements)
    decreases |replacements|
  {
    if replacements != [] {
      RenamedIsRetag(s, replacements[1..]);
    }
  }

  /** The volume documents and the drives rename a derived segment alike. */
  lemma VolumeFollowsDrive(job: Job, v: int, i: int)
    requires GoodJob(job) && 0 <= v < |job.start.volumes| && 0 <= i < |job.start.volumes[v]|
    ensures var s := job.start.volumes[v][i];
            && OnDrive(job.start.drives, s)
            && Renaming(s, UuidMap(PlanOf(job).replacements))
                == Followed(Marked(job.start.drives[s.diskID], PlanOf(job)).segs, s)
  {
    var db := job.start;
    var s := db.volumes[v][i];
    assert OnDrive(db.drives, s);
    assert SegmentSound(s.diskID, s);
    var marked := Marked(db.drives[s.diskID], PlanOf(job)).segs;
    if s.fromReserved {
      MapFollowsFlags(job, s.diskID, s.reservedUUID);
      assert RepsOf(marked[s.reservedUUID])
             == if FlagFor(PlanOf(job), db.drives[s.diskID].segs[s.reservedUUID]).Replace?
                                               then FlagFor(PlanOf(job),
                                                   db.drives[s.diskID].segs[s.reservedUUID]).replacements else [];
      if s.reservedUUID in UuidMap(PlanOf(job).replacements) {
        RenamedIsRetag(s, UuidMap(PlanOf(job).replacements)[s.reservedUUID]);
      }
    } else {
      NoUuidNotRenamed(job);
    }
  }

  lemma NoUuidNotRenamed(job: Job)
    requires GoodJob(job)
    ensures NO_UUID !in UuidMap(PlanOf(job).replacements)
  {
    var rs := PlanOf(job).replacements;
    UuidMapSpec(rs, NO_UUID);
    forall x | 0 <= x < |rs| ensures rs[x].original.uuid != NO_UUID {
      var c, p, k := ReplacedIsSplit(job, x);
      ChunkFacts(job.start, job.vpg, c, p, k);
    }
  }

  /** Renaming twice is renaming once, so a recovery may repeat it on every volume. */
  lemma RenamingTwice(job: Job, v: int)
    requires GoodJob(job) && 0 <= v < |job.start.volumes|
    ensures var m := UuidMap(PlanOf(job).replacements);
            RenamedVolume(RenamedVolume(job.start.volumes[v], m), m) == RenamedVolume(job.start.volumes[v], m)
  {
    var m := UuidMap(PlanOf(job).replacements);
    forall i | 0 <= i < |job.start.volumes[v]|
      ensures Renaming(Renaming(job.start.volumes[v][i], m), m) == Renaming(job.start.volumes[v][i], m)
    {
      NewNameNotRenamed(job, job.start.volumes[v][i]);
    }
  }

  lemma {:induction false} RenamedPicks(s: Segment, replacements: seq<Segment>)
    ensures Renamed(s, replacements) == s
         || exists k :: 0 <= k < |replacements| && Renamed(s, replacements) == s.(reservedUUID := replacements[k].uuid)
                     && s.Span().Within(replacements[k].Span())
    ensures Renamed(s, replacements) == s ==> Renamed(s, replacements).reservedUUID == s.reservedUUID
    decreases |replacements|
  {
    if replacements != [] && !(s.lbs >= replacements[0].lbs && s.lbe <= replacements[0].lbe) {
      RenamedPicks(s, replacements[1..]);
      var rest := replacements[1..];
      if k :| 0 <= k < |rest| && Renamed(s, rest) == s.(reservedUUID := rest[k].uuid)
              && s.Span().Within(rest[k].Span()) {
        assert s.Span().Within(replacements[k + 1].Span());
      }
    } else if replacements != [] {
      assert s.Span().Within(replacements[0].Span());
    }
  }

  lemma NewNameNotRenamed(job: Job, s: Segment)
    requires GoodJob(job)
    ensures var m := UuidMap(PlanOf(job).replacements); Renaming(Renaming(s, m), m) == Renaming(s, m)
  {
    var rs := PlanOf(job).replacements;
    var m := UuidMap(rs);
    if s.reservedUUID in m {
      UuidMapSpec(rs, s.reservedUUID);
      var x :| 0 <= x < |rs| && rs[x].original.uuid == s.reservedUUID && rs[x].replacements == m[s.reservedUUID];
      RenamedPicks(s, rs[x].replacements);
      if Renamed(s, rs[x].replacements) != s {
        var k :| 0 <= k < |rs[x].replacements|
            && Renamed(s, rs[x].replacements) == s.(reservedUUID := rs[x].replacements[k].uuid);
        NewNameIsNew(job, x, k);
      }
    }
  }

  lemma NewNameIsNew(job: Job, x: int, k: int)
    requires GoodJob(job) && 0 <= x < |PlanOf(job).replacements| && 0 <= k < |PlanOf(job).replacements[x].replacements|
    ensures PlanOf(job).replacements[x].replacements[k].uuid !in UuidMap(PlanOf(job).replacements)
  {
    var rs := PlanOf(job).replacements;
    var u := rs[x].replacements[k].uuid;
    UuidMapSpec(rs, u);
    var c, p, q := ReplacedIsSplit(job, x);
    assert u == job.names(rs[x].original.uuid, k);
    forall y | 0 <= y < |rs| ensures rs[y].original.uuid != u {
      var e, f, g := ReplacedIsSplit(job, y);
      ChunkFacts(job.start, job.vpg, e, f, g);
      assert OnDrive(job.start.drives, rs[y].original);
    }
  }

  // ----------------------------------------------------- every step keeps it

  lemma UnaffectedUnmarked(job: Job, d: DiskID)
    requires GoodJob(job) && d in job.start.drives && d !in Affected(job)
    ensures Marked(job.start.drives[d], PlanOf(job)) == job.start.drives[d]
    ensures forall u | u in job.start.drives[d].segs :: !Flagged(job.start.drives[d].segs[u])
  {
    var doc := job.start.drives[d];
    forall u | u in doc.segs ensures doc.segs[u].(pendingReclaim := FlagFor(PlanOf(job), doc.segs[u])) == doc.segs[u]
                             ensures !Flagged(doc.segs[u])
    {
      UnaffectedSegment(job, d, u);
    }
    hide GoodJob, PlanOf, Affected, FlagFor;
    assert Marked(doc, PlanOf(job)).segs == doc.segs;
  }

  lemma UnaffectedSegment(job: Job, d: DiskID, u: Uuid)
    requires GoodJob(job) && d in job.start.drives && d !in Affected(job) && u in job.start.drives[d].segs
    ensures FlagFor(PlanOf(job), job.start.drives[d].segs[u]).Idle? && !Flagged(job.start.drives[d].segs[u])
  {
    assert SegmentSound(d, job.start.drives[d].segs[u]);
    hide PlanOf, FlagFor, ValidDoc, ChunksStored, ChunksComplete, VolumesStored, VolumesComplete, SharedGaps, FreshFor;
  }

  lemma CommitStarts(job: Job, s: State, d: DiskID)
    requires GoodJob(job) && Inv(job, s) && Enabled(job, s, Commit) && d in s.db.drives
    ensures DriveOnTheWay(job, d, s.db.drives[d])
  {
    var marked := Marked(job.start.drives[d], PlanOf(job));
    assert SameButFlags(job.start.drives[d], s.db.drives[d]);
    assert s.db.drives[d] == marked;
    MarkedReady(job.start, job.vpg, job.names, job.multiplier, d);
    if d !in Affected(job) {
      UnaffectedUnmarked(job, d);
    }
  }

  lemma ApplyKeepsBounds(d: DriveDoc, u: Uuid)
    requires u in d.segs && Flagged(d.segs[u])
    ensures Apply(d, u).first == d.first && Apply(d, u).last == d.last
  {
  }

  lemma WorkOffKeeps(job: Job, d: DiskID, doc: DriveDoc, u: Uuid)
    requires GoodJob(job) && d in job.start.drives && DriveOnTheWay(job, d, doc)
    requires u in doc.segs && Flagged(doc.segs[u])
    ensures DriveOnTheWay(job, d, Apply(doc, u))
  {
    hide Ready, IsSettled, Apply, GoodJob, PlanOf;
    if d !in Affected(job) {
      UnaffectedUnmarked(job, d);
    }
    ApplyKeepsReady(doc, u);
    ApplyKeepsBounds(doc, u);
    forall f | IsSettled(Apply(doc, u).segs, f) ensures IsSettled(Marked(job.start.drives[d], PlanOf(job)).segs, f) {
      ApplySettles(doc, u, f);
    }
  }

  lemma RecalculateKeepsItem(doc: DriveDoc, u: Uuid)
    requires u in doc.segs && ReadyItem(doc, u)
    ensures ReadyItem(Recalculated(doc), u)
  {
    hide IsRuns, LargestSegment;
  }

  lemma LargestDependsOnSegments(doc: DriveDoc)
    ensures LargestSegment(Recalculated(doc)) == LargestSegment(doc)
  {
    assert Free(Recalculated(doc)) == Free(doc);
  }

  lemma RecalculateKeepsReady(doc: DriveDoc)
    requires Ready(doc)
    ensures Ready(Recalculated(doc))
  {
    var e := Recalculated(doc);
    assert Free(e) == Free(doc);
    assert ValidDoc(e);
    hide ReadyItem, ValidDoc, LargestSegment, NamesApart;
    forall u | u in e.segs ensures ReadyItem(e, u) {
      RecalculateKeepsItem(doc, u);
    }
  }

  lemma RecalculateKeeps(job: Job, d: DiskID, doc: DriveDoc)
    requires Uniform(job.start.chunks) && d in Affected(job) && d in job.start.drives && DriveOnTheWay(job, d, doc)
    ensures DriveOnTheWay(job, d, Recalculated(doc))
    ensures Recalculated(doc).largest == LargestSegment(Recalculated(doc))
  {
    hide Ready, IsSettled, PlanOf, LargestSegment, Affected, Marked;
    RecalculateKeepsReady(doc);
    LargestDependsOnSegments(doc);
    assert Recalculated(doc).segs == doc.segs;
  }

  lemma StartKeeps(job: Job)
    requires GoodJob(job)
    ensures Inv(job, Initial(job))
  {
    hide PlanOf;
  }

  lemma FlagIsOnlyFlag(d: DriveDoc, e: DriveDoc, u: Uuid, flag: Pending)
    requires SameButFlags(d, e) && u in e.segs
    ensures SameButFlags(d, WithFlag(e, u, flag))
  {
  }

  /** Another version of one drive that differs in flags only changes nothing else. */
  lemma FlagsOnly(job: Job, s: State, d: DiskID, doc: DriveDoc)
    requires Uniform(job.start.chunks) && OnlyFlags(job, s) && d in s.db.drives
             && SameButFlags(job.start.drives[d], doc)
    ensures OnlyFlags(job, WithDrive(s, d, doc))
  {
    hide SameButFlags;
  }

  lemma FlagStepKeeps(job: Job, s: State, a: Action)
    requires GoodJob(job) && Inv(job, s) && Enabled(job, s, a) && (a.Mark? || a.Unmark?)
    ensures Inv(job, Next(job, s, a))
  {
    assert SameButFlags(job.start.drives[a.d], s.db.drives[a.d]);
    var flag := if a.Mark? then FlagFor(PlanOf(job), job.start.drives[a.d].segs[a.u]) else Idle;
    hide GoodJob, PlanOf, FlagFor, SameButFlags, WithFlag;
    FlagIsOnlyFlag(job.start.drives[a.d], s.db.drives[a.d], a.u, flag);
    hide OnlyFlags;
    FlagsOnly(job, s, a.d, WithFlag(s.db.drives[a.d], a.u, flag));
  }

  lemma CommitDrives(job: Job, s: State)
    requires GoodJob(job) && Inv(job, s) && Enabled(job, s, Commit)
    ensures DrivesOnTheWay(job, s.db.drives)
    ensures s.phase == Preparing && s.db.volumes == job.start.volumes && s.updated == {} && s.recalculated == {}
  {
    hide GoodJob, PlanOf, DriveOnTheWay, AllMarked, SameButFlags;
    forall d | d in s.db.drives ensures d in job.start.drives && DriveOnTheWay(job, d, s.db.drives[d]) {
      CommitStarts(job, s, d);
    }
  }

  lemma CommitKeeps(job: Job, s: State)
    requires GoodJob(job) && Inv(job, s) && Enabled(job, s, Commit)
    ensures Inv(job, Next(job, s, Commit))
  {
    CommitDrives(job, s);
    var t := Next(job, s, Commit);
    VolumesAtStart(job, t);
    hide GoodJob, PlanOf, DrivesOnTheWay, VolumesOnTheWay, UuidMap, AllMarked, OnlyFlags, NoFlags, Affected;
  }

  lemma VolumesAtStart(job: Job, s: State)
    requires Uniform(job.start.chunks) && s.db.volumes == job.start.volumes && s.updated == {} && s.phase != Done
    ensures VolumesOnTheWay(job, s)
  {
    hide PlanOf, UuidMap, RenamedVolume;
  }

  /** What the apply phase has to keep. */
  lemma UnderwayStays(job: Job, s: State, t: State)
    requires Uniform(job.start.chunks) && Underway(job, s) && s.phase == Committing && t.phase == Committing
    requires t.db.chunks == s.db.chunks && t.uuidMap == s.uuidMap
    requires DrivesOnTheWay(job, t.db.drives) && VolumesOnTheWay(job, t)
    requires t.stale == s.stale
    ensures Inv(job, t)
  {
    hide DrivesOnTheWay, VolumesOnTheWay, NoFlags, PlanOf, UuidMap, Affected;
  }

  lemma WorkOffStepKeeps(job: Job, s: State, d: DiskID, u: Uuid)
    requires GoodJob(job) && Inv(job, s) && Enabled(job, s, WorkOff(d, u))
    ensures Inv(job, Next(job, s, WorkOff(d, u)))
  {
    hide GoodJob, PlanOf, UuidMap, Apply, NoFlags, Affected, LargestSegment, DriveOnTheWay, VolumesOnTheWay;
    var t := Next(job, s, WorkOff(d, u));
    WorkOffKeeps(job, d, s.db.drives[d], u);
    DriveSwap(job, s.db.drives, d, Apply(s.db.drives[d], u));
    VolumesStay(job, s, t);
    hide DrivesOnTheWay;
    UnderwayStays(job, s, t);
  }

  lemma DriveSwap(job: Job, drives: map<DiskID, DriveDoc>, d: DiskID, doc: DriveDoc)
    requires Uniform(job.start.chunks) && d in drives && DrivesOnTheWay(job, drives) && DriveOnTheWay(job, d, doc)
    ensures DrivesOnTheWay(job, drives[d := doc])
  {
    hide DriveOnTheWay;
  }

  lemma VolumesStay(job: Job, s: State, t: State)
    requires Uniform(job.start.chunks) && VolumesOnTheWay(job, s)
    requires t.db.volumes == s.db.volumes && t.updated == s.updated && t.phase == s.phase
    ensures VolumesOnTheWay(job, t)
  {
  }

  lemma RecalculateStepKeeps(job: Job, s: State, d: DiskID)
    requires GoodJob(job) && Inv(job, s) && Enabled(job, s, Recalculate(d))
    ensures Inv(job, Next(job, s, Recalculate(d)))
  {
    hide GoodJob, PlanOf, UuidMap, NoFlags, Affected, Recalculated, VolumesOnTheWay, DriveOnTheWay, LargestSegment;
    var t := Next(job, s, Recalculate(d));
    RecalculateKeeps(job, d, s.db.drives[d]);
    DriveSwap(job, s.db.drives, d, Recalculated(s.db.drives[d]));
    VolumesStay(job, s, t);
    hide DrivesOnTheWay;
    UnderwayStays(job, s, t);
  }

  lemma VolumeSwap(job: Job, s: State, t: State, v: int)
    requires Uniform(job.start.chunks) && VolumesOnTheWay(job, s) && 0 <= v < |s.db.volumes| && t.phase == s.phase
    requires t.db.volumes == s.db.volumes[v := RenamedVolume(job.start.volumes[v], UuidMap(PlanOf(job).replacements))]
    requires t.updated == s.updated + {v}
    ensures VolumesOnTheWay(job, t)
  {
    hide PlanOf, UuidMap, RenamedVolume;
  }

  /** Renamed once or twice, the volume is the same. */
  lemma RenamedOnce(job: Job, s: State, v: int)
    requires GoodJob(job) && VolumesOnTheWay(job, s) && 0 <= v < |s.db.volumes|
    ensures |s.db.volumes| == |job.start.volumes|
    ensures RenamedVolume(s.db.volumes[v], UuidMap(PlanOf(job).replacements))
            == RenamedVolume(job.start.volumes[v], UuidMap(PlanOf(job).replacements))
  {
    RenamingTwice(job, v);
    hide PlanOf, UuidMap, RenamedVolume, GoodJob;
  }

  lemma UpdateStepKeeps(job: Job, s: State, v: int)
    requires GoodJob(job) && Inv(job, s) && Enabled(job, s, UpdateVolume(v))
    ensures Inv(job, Next(job, s, UpdateVolume(v)))
  {
    var t := Next(job, s, UpdateVolume(v));
    hide GoodJob, PlanOf, DrivesOnTheWay, VolumesOnTheWay, UuidMap, LargestSegment, RenamedVolume, NoFlags;
    RenamedOnce(job, s, v);
    VolumeSwap(job, s, t, v);
    UnderwayStays(job, s, t);
  }

  lemma FinishKeeps(job: Job, s: State)
    requires GoodJob(job) && Inv(job, s) && Enabled(job, s, Finish)
    ensures Inv(job, Next(job, s, Finish))
  {
    hide GoodJob, PlanOf, DrivesOnTheWay, UuidMap, RenamedVolume, Affected, FlaggedDrives, OnlyFlags, NoFlags;
  }

  lemma CrashKeeps(job: Job, s: State)
    requires GoodJob(job) && Inv(job, s)
    ensures Inv(job, Next(job, s, Crash))
  {
    var t := Next(job, s, Crash);
    hide PlanOf, DrivesOnTheWay, VolumesOnTheWay, UuidMap, Affected, FlaggedDrives, SameButFlags, NoFlags, GoodJob;
    if s.phase != Preparing {
      FlaggedAreAffected(job, s);
      UpdatesForgotten(job, s, t);
    }
  }

  lemma UpdatesForgotten(job: Job, s: State, t: State)
    requires Uniform(job.start.chunks) && VolumesOnTheWay(job, s)
    requires t.db.volumes == s.db.volumes && t.phase == s.phase && t.updated == {}
    ensures VolumesOnTheWay(job, t)
  {
    hide PlanOf, UuidMap, RenamedVolume;
  }

  lemma FlaggedAreAffected(job: Job, s: State)
    requires GoodJob(job) && DrivesOnTheWay(job, s.db.drives)
    ensures FlaggedDrives(s.db) <= Affected(job)
  {
    hide GoodJob, PlanOf, DriveOnTheWay, Affected;
    forall d | d in FlaggedDrives(s.db) ensures d in Affected(job) {
      FlaggedIsAffected(job, s, d);
    }
  }

  lemma FlaggedIsAffected(job: Job, s: State, d: DiskID)
    requires GoodJob(job) && d in s.db.drives && d in job.start.drives && DriveOnTheWay(job, d, s.db.drives[d])
    requires FlaggedIn(s.db.drives[d]) != {}
    ensures d in Affected(job)
  {
    var u :| u in FlaggedIn(s.db.drives[d]);
    if d !in Affected(job) {
      UnaffectedUnmarked(job, d);
    }
  }

  lemma StepKeeps(job: Job, s: State, a: Action)
    requires GoodJob(job) && Inv(job, s) && Enabled(job, s, a)
    ensures Inv(job, Next(job, s, a))
  {
    hide GoodJob, Inv, Enabled, Next;
    match a
    case Mark(_, _) => FlagStepKeeps(job, s, a);
    case Unmark(_, _) => FlagStepKeeps(job, s, a);
    case Commit => CommitKeeps(job, s);
    case WorkOff(d, u) => WorkOffStepKeeps(job, s, d, u);
    case UpdateVolume(v) => UpdateStepKeeps(job, s, v);
    case Recalculate(d) => RecalculateStepKeeps(job, s, d);
    case Finish => FinishKeeps(job, s);
    case Crash => CrashKeeps(job, s);
  }

  lemma {:induction false} RunKeeps(job: Job, s: State, actions: seq<Action>)
    requires GoodJob(job) && Inv(job, s) && IsRun(job, s, actions)
    ensures Inv(job, After(job, s, actions))
    decreases |actions|
  {
    if actions != [] {
      StepKeeps(job, s, actions[0]);
      hide Inv, GoodJob, Next;
      RunKeeps(job, Next(job, s, actions[0]), actions[1..]);
    }
  }
}
