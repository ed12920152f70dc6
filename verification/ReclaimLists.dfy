/** The segment lists of the drives along a run of a reclaim. Flags come and go in place; working a flag off takes its
    segment out of the list and appends the pieces, as planned. */
module ReclaimLists {
  import opened Ranges
  import opened Drives
  import opened Redo
  import opened DriveStore
  import opened Orders
  import opened Chunks
  import opened ReclaimPlan
  import opened Reclaim
  import opened ReclaimFlags
  import opened ReclaimRun
  import opened ReclaimSafety
  import opened ReservedSpace
  import opened SharedGapsHistory
  import opened ReclaimMoves
  import opened ReclaimOrder
  import opened ReclaimAlike

  // ------------------------------------------------------------- one update

  function FlagSet(segs: seq<Segment>, u: Uuid, flag: Pending): (r: seq<Segment>)
    ensures |r| == |segs|
    ensures forall i | 0 <= i < |r| :: r[i] == if segs[i].uuid == u then segs[i].(pendingReclaim := flag) else segs[i]
  {
    seq(|segs|, i requires 0 <= i < |segs| =>
      if segs[i].uuid == u then segs[i].(pendingReclaim := flag) else segs[i])
  }

  /** What the flag of a segment of the list holds for it. */
  function PiecesIn(segs: seq<Segment>, u: Uuid): seq<Segment> {
    if PlaceOf(segs, u) < 0 then [] else RepsOf(segs[PlaceOf(segs, u)])
  }

  /** The list of drive `d` after an update: what `$set`, `$pull` and the pipeline of the replacements do to it. */
  ghost function ListNext(job: Job, d: DiskID, segs: seq<Segment>, a: Action): seq<Segment>
    requires Uniform(job.start.chunks)
  {
    match a
    case Mark(e, u) =>
      if e == d && d in job.start.drives && u in job.start.drives[d].segs
      then FlagSet(segs, u, FlagFor(PlanOf(job), job.start.drives[d].segs[u]))
      else segs
    case Unmark(e, u) => if e == d then FlagSet(segs, u, Idle) else segs
    case WorkOff(e, u) => if e == d then WorkedOff(segs, u, PiecesIn(segs, u)) else segs
    case _ => segs
  }

  ghost function ListAfter(job: Job, d: DiskID, segs: seq<Segment>, actions: seq<Action>): seq<Segment>
    requires Uniform(job.start.chunks)
    decreases |actions|
  {
    if actions == [] then segs else ListAfter(job, d, ListNext(job, d, segs, actions[0]), actions[1..])
  }

  lemma {:induction false} ListAfterConcat(job: Job, d: DiskID, segs: seq<Segment>, a: seq<Action>, b: seq<Action>)
    requires Uniform(job.start.chunks)
    ensures ListAfter(job, d, segs, a + b) == ListAfter(job, d, ListAfter(job, d, segs, a), b)
    decreases |a|
  {
    hide ListNext;
    if a == [] {
      assert a + b == b;
    } else {
      assert (a + b)[1..] == a[1..] + b;
      ListAfterConcat(job, d, ListNext(job, d, segs, a[0]), a[1..], b);
    }
  }

  /** The list without its flags. */
  function Plain(s: Segment): Segment { s.(pendingReclaim := Idle) }

  function PlainList(segs: seq<Segment>): (r: seq<Segment>)
    ensures |r| == |segs| && forall i | 0 <= i < |r| :: r[i] == Plain(segs[i])
  {
    seq(|segs|, i requires 0 <= i < |segs| => Plain(segs[i]))
  }

  function WorkedHere(a: Action, d: DiskID): seq<Uuid> {
    if a.WorkOff? && a.d == d then [a.u] else []
  }

  /** The segments worked off on drive `d`, in order. */
  function WorkedOn(actions: seq<Action>, d: DiskID): seq<Uuid> {
    if actions == [] then [] else WorkedHere(actions[0], d) + WorkedOn(actions[1..], d)
  }

  lemma {:induction false} WorkedOnConcat(a: seq<Action>, b: seq<Action>, d: DiskID)
    ensures WorkedOn(a + b, d) == WorkedOn(a, d) + WorkedOn(b, d)
    decreases |a|
  {
    hide WorkedHere;
    if a == [] {
      assert a + b == b;
    } else {
      assert (a + b)[1..] == a[1..] + b && (a + b)[0] == a[0];
      WorkedOnConcat(a[1..], b, d);
      Assoc(WorkedHere(a[0], d), WorkedOn(a[1..], d), WorkedOn(b, d));
    }
  }

  // ------------------------------------------------------------------ the cuts

  function OffsetsIn(s: Segment, pieces: seq<Segment>): (r: seq<Range>)
    ensures |r| == |pieces|
    ensures forall g | 0 <= g < |r| :: r[g] == Range(pieces[g].lbs - s.lbs, pieces[g].lbe - s.lbs)
  {
    seq(|pieces|, g requires 0 <= g < |pieces| => Range(pieces[g].lbs - s.lbs, pieces[g].lbe - s.lbs))
  }

  function CutOfFlag(s: Segment, flag: Pending): Cut {
    var pieces := RepsOf(s.(pendingReclaim := flag));
    Cut(OffsetsIn(s, pieces), pieces)
  }

  /** How the plan cuts the segments of a drive; a segment it removes is cut to nothing. */
  ghost function CutsOn(job: Job, d: DiskID): map<Uuid, Cut>
    requires Uniform(job.start.chunks) && d in job.start.drives
  {
    map u | u in job.start.drives[d].segs && !FlagFor(PlanOf(job), job.start.drives[d].segs[u]).Idle? ::
      CutOfFlag(job.start.drives[d].segs[u], FlagFor(PlanOf(job), job.start.drives[d].segs[u]))
  }

  // ------------------------------------------------------- lists and documents

  lemma FlagLists(segs: seq<Segment>, m: map<Uuid, Segment>, u: Uuid, flag: Pending)
    requires Lists(segs, m) && u in m
    ensures Lists(FlagSet(segs, u, flag), m[u := m[u].(pendingReclaim := flag)])
  {
    var r, n := FlagSet(segs, u, flag), m[u := m[u].(pendingReclaim := flag)];
    forall v | v in n ensures n[v].uuid == v && n[v] in r {
      var i :| 0 <= i < |segs| && segs[i] == m[v];
      assert r[i] == n[v];
    }
  }

  lemma PiecesAreReps(segs: seq<Segment>, m: map<Uuid, Segment>, u: Uuid)
    requires Lists(segs, m) && u in m
    ensures PlaceOf(segs, u) >= 0 && segs[PlaceOf(segs, u)] == m[u] && PiecesIn(segs, u) == RepsOf(m[u])
  {
    var i :| 0 <= i < |segs| && segs[i] == m[u];
  }

  lemma ApplyLists(d: DriveDoc, segs: seq<Segment>, u: Uuid)
    requires Lists(segs, d.segs) && u in d.segs && Flagged(d.segs[u]) && ReadyItem(d, u)
    ensures Lists(WorkedOff(segs, u, PiecesIn(segs, u)), Apply(d, u).segs)
  {
    PiecesAreReps(segs, d.segs, u);
    RepsAreNew(d, u);
    hide ReadyItem, IsRuns, WorkedOff, Lists;
    match d.segs[u].pendingReclaim
    case Removal =>
      RemovedOff(segs, u);
      WithoutLists(segs, d.segs, u);
      RemovalUuid(d, segs, u);
    case Replace(reps, freedBlocks) =>
      ListsById(reps);
      ReplacedMap(d, u, reps, freedBlocks);
      NewKeys(d.segs, reps);
      ReplacedLists(segs, d.segs, u, reps, ById(reps));
  }

  lemma RemovalUuid(d: DriveDoc, segs: seq<Segment>, u: Uuid)
    requires Lists(segs, d.segs) && u in d.segs && d.segs[u].pendingReclaim.Removal?
    ensures Apply(d, u).segs == d.segs - {u}
  {
  }

  lemma NewKeys(m: map<Uuid, Segment>, reps: seq<Segment>)
    requires forall i | 0 <= i < |reps| :: reps[i].uuid !in m
    ensures m.Keys !! ById(reps).Keys
  {
  }

  lemma StepLists(job: Job, s: State, d: DiskID, segs: seq<Segment>, a: Action)
    requires GoodJob(job) && Inv(job, s) && Enabled(job, s, a) && d in s.db.drives && Lists(segs, s.db.drives[d].segs)
    ensures d in Next(job, s, a).db.drives && Lists(ListNext(job, d, segs, a), Next(job, s, a).db.drives[d].segs)
  {
    hide Inv, GoodJob, PlanOf, FlagFor, Lists, FlagSet, Affected, NoFlags, AllMarked, UuidMap, RenamedVolume, Apply;
    match a
    case Mark(e, u) =>
      if e == d {
        FlagLists(segs, s.db.drives[d].segs, u, FlagFor(PlanOf(job), job.start.drives[d].segs[u]));
      }
    case Unmark(e, u) =>
      if e == d {
        FlagLists(segs, s.db.drives[d].segs, u, Idle);
      }
    case WorkOff(e, u) =>
      if e == d {
        FlaggedIsReady(job, s, d, u);
        ApplyLists(s.db.drives[d], segs, u);
      }
    case _ =>
  }

  lemma FlaggedIsReady(job: Job, s: State, d: DiskID, u: Uuid)
    requires GoodJob(job) && Inv(job, s) && s.phase == Committing && d in s.db.drives && u in s.db.drives[d].segs
    ensures ReadyItem(s.db.drives[d], u)
  {
    hide GoodJob, Affected, NoFlags, AllMarked, Apply, ReadyItem, ValidDoc;
    assert DriveOnTheWay(job, d, s.db.drives[d]);
  }

  // ------------------------------------------------------ flags stay as planned

  /** Past the commit point a flagged segment is as it was at the start, with the flag of the plan. */
  ghost predicate Planned(job: Job, s: State, d: DiskID)
    requires Uniform(job.start.chunks)
  {
    d in s.db.drives && d in job.start.drives
    && (s.phase != Preparing ==>
          forall u | u in FlaggedIn(s.db.drives[d]) :: u in job.start.drives[d].segs && AsPlanned(job, s, d, u))
  }

  ghost predicate AsPlanned(job: Job, s: State, d: DiskID, u: Uuid)
    requires Uniform(job.start.chunks) && d in s.db.drives && u in s.db.drives[d].segs
    requires d in job.start.drives && u in job.start.drives[d].segs
  {
    s.db.drives[d].segs[u]
    == job.start.drives[d].segs[u].(pendingReclaim := FlagFor(PlanOf(job), job.start.drives[d].segs[u]))
  }

  lemma FlaggedIsReserved(d: DriveDoc, u: Uuid)
    requires ValidDoc(d) && u in d.segs && Flagged(d.segs[u]) && ReadyItem(d, u)
    ensures d.segs[u].isReserved && !d.segs[u].fromReserved
  {
    assert WellPlaced(d, d.segs[u]);
    hide IsRuns;
  }

  lemma FlaggedStays(d: DriveDoc, u: Uuid, v: Uuid)
    requires Ready(d) && u in d.segs && Flagged(d.segs[u]) && v in FlaggedIn(Apply(d, u))
    ensures v in FlaggedIn(d) && Apply(d, u).segs[v] == d.segs[v]
  {
    assert ReadyItem(d, u);
    ApplyFlags(d, u, v);
    assert ReadyItem(d, v);
    FlaggedIsReserved(d, v);
    hide Ready, ReadyItem, Apply;
    ApplyOthers(d, u, v);
    RetagKeepsSpan(d.segs[v], RepsOf(d.segs[u]));
  }

  lemma CommitPlanned(job: Job, s: State, d: DiskID)
    requires Uniform(job.start.chunks) && Enabled(job, s, Commit) && Planned(job, s, d)
    ensures Planned(job, Next(job, s, Commit), d)
  {
    hide PlanOf, FlagFor, Affected, UuidMap;
    var t := Next(job, s, Commit);
    assert t.db.drives[d].segs == Marked(job.start.drives[d], PlanOf(job)).segs;
  }

  lemma WorkOffPlanned(job: Job, s: State, d: DiskID, e: DiskID, u: Uuid)
    requires GoodJob(job) && Inv(job, s) && Enabled(job, s, WorkOff(e, u)) && Planned(job, s, d)
    ensures Planned(job, Next(job, s, WorkOff(e, u)), d)
  {
    hide GoodJob, PlanOf, FlagFor, Affected, UuidMap, Apply;
    var t := Next(job, s, WorkOff(e, u));
    if e == d {
      assert DriveOnTheWay(job, d, s.db.drives[d]);
      hide Inv, Ready;
      forall v | v in FlaggedIn(t.db.drives[d]) ensures v in job.start.drives[d].segs && AsPlanned(job, t, d, v) {
        FlaggedStays(s.db.drives[d], u, v);
        assert AsPlanned(job, s, d, v);
      }
    } else {
      hide Inv;
      SamePlanned(job, s, t, d);
    }
  }

  lemma SamePlanned(job: Job, s: State, t: State, d: DiskID)
    requires Uniform(job.start.chunks) && Planned(job, s, d) && d in t.db.drives
    requires t.db.drives[d].segs == s.db.drives[d].segs && (s.phase != Preparing || t.phase == Preparing)
    ensures Planned(job, t, d)
  {
    hide PlanOf, FlagFor;
    forall v | t.phase != Preparing && v in FlaggedIn(t.db.drives[d])
      ensures v in job.start.drives[d].segs && AsPlanned(job, t, d, v)
    {
      assert v in FlaggedIn(s.db.drives[d]);
      assert AsPlanned(job, s, d, v);
    }
  }

  lemma StepPlanned(job: Job, s: State, d: DiskID, a: Action)
    requires GoodJob(job) && Inv(job, s) && Enabled(job, s, a) && Planned(job, s, d)
    ensures Planned(job, Next(job, s, a), d)
  {
    hide GoodJob, Inv, PlanOf, FlagFor, Affected, NoFlags, AllMarked, UuidMap, RenamedVolume, Apply, LargestSegment,
         AsPlanned, FlaggedIn;
    match a
    case Mark(_, _) =>
    case Unmark(_, _) =>
    case Commit => CommitPlanned(job, s, d);
    case WorkOff(e, u) => WorkOffPlanned(job, s, d, e, u);
    case _ => SamePlanned(job, s, Next(job, s, a), d);
  }

  // ------------------------------------------------------------ the plain lists

  lemma {:induction false} PlainRetag(s: Segment, pieces: seq<Segment>)
    ensures Plain(Retag(s, pieces)) == Retag(Plain(s), pieces)
    decreases |pieces|
  {
    if pieces != [] {
      PlainRetag(s, pieces[1..]);
    }
  }

  lemma {:induction false} PlainWithout(segs: seq<Segment>, u: Uuid)
    ensures PlainList(Without(segs, u)) == Without(PlainList(segs), u)
    decreases |segs|
  {
    if segs != [] {
      var n := |segs| - 1;
      PlainWithout(segs[..n], u);
      assert PlainList(segs)[..n] == PlainList(segs[..n]);
      hide PlainList;
    }
  }

  lemma PlainWorkedOff(segs: seq<Segment>, u: Uuid, pieces: seq<Segment>)
    requires forall g | 0 <= g < |pieces| :: !Flagged(pieces[g])
    ensures PlainList(WorkedOff(segs, u, pieces)) == WorkedOff(PlainList(segs), u, pieces)
  {
    PlainWithout(segs, u);
    hide Without, Retag;
    var x, y := PlainList(WorkedOff(segs, u, pieces)), WorkedOff(PlainList(segs), u, pieces);
    var kept := Without(segs, u);
    assert |x| == |y| == |kept| + |pieces|;
    forall i | 0 <= i < |x| ensures x[i] == y[i] {
      if i < |kept| {
        PlainRetag(kept[i], pieces);
      } else {
        assert x[i] == Plain(pieces[i - |kept|]);
      }
    }
  }

  lemma PlainFlagSet(segs: seq<Segment>, u: Uuid, flag: Pending)
    ensures PlainList(FlagSet(segs, u, flag)) == PlainList(segs)
  {
  }

  lemma StepPlain(job: Job, s: State, d: DiskID, segs: seq<Segment>, a: Action)
    requires GoodJob(job) && Inv(job, s) && Enabled(job, s, a) && d in s.db.drives && Lists(segs, s.db.drives[d].segs)
    ensures PlainList(ListNext(job, d, segs, a))
         == if a.WorkOff? && a.d == d then WorkedOff(PlainList(segs), a.u, PiecesIn(segs, a.u)) else PlainList(segs)
  {
    hide GoodJob, PlanOf, FlagFor, FlagSet, PlainList, WorkedOff;
    match a
    case Mark(e, u) =>
      if e == d && d in job.start.drives && u in job.start.drives[d].segs {
        PlainFlagSet(segs, u, FlagFor(PlanOf(job), job.start.drives[d].segs[u]));
      }
    case Unmark(e, u) =>
      PlainFlagSet(segs, u, Idle);
    case WorkOff(e, u) =>
      if e == d {
        assert DriveOnTheWay(job, d, s.db.drives[d]);
        PiecesAreReps(segs, s.db.drives[d].segs, u);
        hide Inv, Lists, ReadyItem;
        RepsAreNew(s.db.drives[d], u);
        PlainWorkedOff(segs, u, PiecesIn(segs, u));
      }
    case _ =>
  }

  // --------------------------------------------------- the plan cuts as it should

  /** The pieces are the segment, cut down. */
  ghost predicate CutDown(s: Segment, pieces: seq<Segment>) {
    forall g | 0 <= g < |pieces| ::
      pieces[g] == s.(uuid := pieces[g].uuid, lbs := pieces[g].lbs, lbe := pieces[g].lbe)
  }

  lemma OffsetsAreGroups(s: Segment, pieces: seq<Segment>, used: set<int>)
    requires IsRuns(Spans(pieces), used) && used <= BlocksOf(s.Span())
    ensures CutGroups(OffsetsIn(s, pieces), s.Span().Blocks())
  {
    var spans := Spans(pieces);
    forall g | 0 <= g < |pieces| ensures s.lbs <= pieces[g].lbs <= pieces[g].lbe <= s.lbe {
      ReplacementBlocks(pieces, used, g);
      assert pieces[g].lbs in BlocksOf(pieces[g].Span()) && pieces[g].lbe in BlocksOf(pieces[g].Span());
    }
    forall g, h | 0 <= g < h < |pieces| ensures pieces[g].lbe < pieces[h].lbs {
      assert spans[g].lbe < spans[h].lbs;
    }
  }

  lemma OffsetsArePieces(s: Segment, pieces: seq<Segment>, g: int)
    requires CutDown(s, pieces) && 0 <= g < |pieces|
    ensures IsPiece(pieces[g], s, OffsetsIn(s, pieces)[g])
  {
  }

  lemma ListedPlaced(d: DriveDoc, segs: seq<Segment>, i: int)
    requires ValidDoc(d) && Lists(segs, d.segs) && 0 <= i < |segs|
    ensures segs[i].uuid in d.segs && d.segs[segs[i].uuid] == segs[i] && WellPlaced(d, segs[i])
  {
  }

  lemma DerivedInPiece(d: DriveDoc, segs: seq<Segment>, u: Uuid, pieces: seq<Segment>, used: set<int>, i: int)
    requires ValidDoc(d) && Lists(segs, d.segs) && FitsUsed(d, u, pieces, used) && 0 <= i < |segs|
    requires segs[i].fromReserved && segs[i].reservedUUID == u
    ensures exists g :: 0 <= g < |pieces| && segs[i].Span().Within(pieces[g].Span())
  {
    ListedPlaced(d, segs, i);
    hide ValidDoc, Lists;
    forall b | segs[i].Span().Has(b) ensures b in used {
      assert b in BlocksOf(segs[i].Span());
    }
    var g := WithinOneRun(Spans(pieces), used, segs[i].Span());
    assert segs[i].Span().Within(pieces[g].Span());
  }

  /** Replacements that spell out the used blocks of a segment are a cut of it. */
  lemma FitsIsCut(d: DriveDoc, segs: seq<Segment>, u: Uuid, pieces: seq<Segment>, used: set<int>)
    requires ValidDoc(d) && Lists(segs, d.segs) && FitsUsed(d, u, pieces, used) && !d.segs[u].fromReserved
    requires CutDown(Plain(d.segs[u]), pieces)
    ensures var s := Plain(d.segs[u]); CutAt(PlainList(segs), s, OffsetsIn(s, pieces), pieces)
  {
    var s := Plain(d.segs[u]);
    PlainListed(d, segs, u);
    OffsetsAreGroups(s, pieces, used);
    hide IsRuns, ValidDoc, Lists, OffsetsIn, CutGroups, CutDown;
    forall g | 0 <= g < |pieces| ensures IsPiece(pieces[g], s, OffsetsIn(s, pieces)[g]) {
      OffsetsArePieces(s, pieces, g);
    }
    PiecesAreNew(d, segs, u, pieces, used);
    DerivedInPieces(d, segs, u, pieces, used);
  }

  lemma PlainListed(d: DriveDoc, segs: seq<Segment>, u: Uuid)
    requires Lists(segs, d.segs) && u in d.segs
    ensures Plain(d.segs[u]) in PlainList(segs) && d.segs[u].uuid == u
  {
    var k :| 0 <= k < |segs| && segs[k] == d.segs[u];
    assert PlainList(segs)[k] == Plain(d.segs[u]);
  }

  lemma PiecesAreNew(d: DriveDoc, segs: seq<Segment>, u: Uuid, pieces: seq<Segment>, used: set<int>)
    requires ValidDoc(d) && Lists(segs, d.segs) && FitsUsed(d, u, pieces, used)
    ensures forall g, i | 0 <= g < |pieces| && 0 <= i < |PlainList(segs)| ::
              PlainList(segs)[i].uuid != pieces[g].uuid && !DerivedFrom(PlainList(segs)[i], pieces[g])
  {
    hide ValidDoc, Lists, IsRuns;
    forall g, i | 0 <= g < |pieces| && 0 <= i < |segs|
      ensures PlainList(segs)[i].uuid != pieces[g].uuid && !DerivedFrom(PlainList(segs)[i], pieces[g])
    {
      ListedPlaced(d, segs, i);
    }
  }

  lemma DerivedInPieces(d: DriveDoc, segs: seq<Segment>, u: Uuid, pieces: seq<Segment>, used: set<int>)
    requires ValidDoc(d) && Lists(segs, d.segs) && FitsUsed(d, u, pieces, used)
    requires u in d.segs && d.segs[u].uuid == u
    ensures forall i | 0 <= i < |PlainList(segs)| && DerivedFrom(PlainList(segs)[i], Plain(d.segs[u])) ::
              exists g :: 0 <= g < |pieces| && PlainList(segs)[i].Span().Within(pieces[g].Span())
  {
    hide ValidDoc, Lists, FitsUsed;
    forall i | 0 <= i < |segs| && DerivedFrom(PlainList(segs)[i], Plain(d.segs[u]))
      ensures exists g :: 0 <= g < |pieces| && PlainList(segs)[i].Span().Within(pieces[g].Span())
    {
      DerivedInPiece(d, segs, u, pieces, used, i);
    }
  }

  /** Nothing names a segment that is removed, so a removal is a cut to nothing. */
  lemma RemovableIsCut(d: DriveDoc, segs: seq<Segment>, u: Uuid)
    requires ValidDoc(d) && Lists(segs, d.segs) && Removable(d, u) && d.segs[u].isReserved
    ensures CutAt(PlainList(segs), Plain(d.segs[u]), [], [])
  {
    var s := Plain(d.segs[u]);
    var k :| 0 <= k < |segs| && segs[k] == d.segs[u];
    assert PlainList(segs)[k] == s;
    ListedPlaced(d, segs, k);
    hide ValidDoc, Lists;
  }

  /** What the plan asks for on a segment of the chunk at `c, p, k`: cut down to the used groups. */
  lemma PlannedCut(job: Job, d: DiskID, u: Uuid)
    requires GoodJob(job) && d in job.start.drives && u in job.start.drives[d].segs
    ensures var s := job.start.drives[d].segs[u];
            CutDown(s, RepsOf(s.(pendingReclaim := FlagFor(PlanOf(job), s)))) && Plain(s) == s
  {
    var db := job.start;
    var s := db.drives[d].segs[u];
    assert SegmentSound(d, s);
    if FlagFor(PlanOf(job), s).Replace? {
      hide PlanFor, FlagFor, GroupsOf;
      var c, p, k := FlaggedIsInChunk(db, job.names, job.multiplier, s);
      FlagOfChunk(db, job.vpg, job.names, job.multiplier, c, p, k);
      hide Agreeing, SharedGaps, FreshFor;
      var reps := RepsFor(db, job.names, c, s);
      forall g | 0 <= g < |reps| ensures reps[g] == s.(uuid := reps[g].uuid, lbs := reps[g].lbs, lbe := reps[g].lbe) {
      }
    }
  }

  lemma ReadyIsCut(d: DriveDoc, segs: seq<Segment>, u: Uuid)
    requires ValidDoc(d) && Lists(segs, d.segs) && u in d.segs && Flagged(d.segs[u]) && ReadyItem(d, u)
    requires CutDown(Plain(d.segs[u]), RepsOf(d.segs[u]))
    ensures var s, pieces := Plain(d.segs[u]), RepsOf(d.segs[u]);
            CutAt(PlainList(segs), s, OffsetsIn(s, pieces), pieces)
  {
    FlaggedIsReserved(d, u);
    hide ValidDoc, IsRuns, Lists, CutAt;
    match d.segs[u].pendingReclaim
    case Removal => RemovableIsCut(d, segs, u);
    case Replace(reps, freedBlocks) => FitsIsCut(d, segs, u, reps, CoveredBlocks(Spans(reps)));
  }

  /** When a flag is worked off its segment is there, cut as planned. */
  lemma StepCuts(job: Job, s: State, d: DiskID, segs: seq<Segment>, u: Uuid)
    requires GoodJob(job) && Inv(job, s) && Enabled(job, s, WorkOff(d, u)) && Planned(job, s, d)
    requires Lists(segs, s.db.drives[d].segs)
    ensures u in CutsOn(job, d) && CutsOn(job, d)[u].pieces == PiecesIn(segs, u)
    ensures CutsHere(PlainList(segs), u, CutsOn(job, d)[u])
  {
    var doc := s.db.drives[d];
    FlagIsPlanned(job, s, d, u);
    PlannedCut(job, d, u);
    PiecesAreReps(segs, doc.segs, u);
    hide GoodJob, Inv, PlanOf, FlagFor, ReadyItem, ValidDoc, Lists, CutDown, CutAt, PlaceOf, PiecesIn, Planned, Enabled;
    ReadyIsCut(doc, segs, u);
    var i := PlaceOf(segs, u);
    assert PlainList(segs)[i] == Plain(doc.segs[u]);
    assert PlainList(segs)[i].uuid == u;
  }

  lemma FlagIsPlanned(job: Job, s: State, d: DiskID, u: Uuid)
    requires GoodJob(job) && Inv(job, s) && Enabled(job, s, WorkOff(d, u)) && Planned(job, s, d)
    ensures d in s.db.drives && d in job.start.drives && u in s.db.drives[d].segs && u in job.start.drives[d].segs
    ensures Flagged(s.db.drives[d].segs[u]) && AsPlanned(job, s, d, u)
    ensures ValidDoc(s.db.drives[d]) && ReadyItem(s.db.drives[d], u)
  {
    hide GoodJob, Inv, PlanOf, FlagFor, Ready;
    DriveIsReady(job, s, d);
    ReadyGives(s.db.drives[d], u);
    assert u in FlaggedIn(s.db.drives[d]);
  }

  lemma ReadyGives(d: DriveDoc, u: Uuid)
    requires Ready(d) && u in d.segs
    ensures ValidDoc(d) && ReadyItem(d, u)
  {
    hide ValidDoc, ReadyItem, NamesApart;
  }

  // ------------------------------------------------------------------- whole runs

  lemma {:induction false} AllOffFront(segs: seq<Segment>, u: Uuid, us: seq<Uuid>, cuts: map<Uuid, Cut>)
    ensures AllOff(segs, [u] + us, cuts) == AllOff(WorkedOff(segs, u, CutOf(cuts, u).pieces), us, cuts)
    decreases |us|
  {
    hide WorkedOff;
    if us == [] {
      assert [u] + us == [u] && [u][..0] == [];
    } else {
      var n := |us| - 1;
      assert ([u] + us)[..n + 1] == [u] + us[..n] && ([u] + us)[n + 1] == us[n];
      AllOffFront(segs, u, us[..n], cuts);
    }
  }

  lemma CuttableFront(segs: seq<Segment>, u: Uuid, us: seq<Uuid>, cuts: map<Uuid, Cut>)
    requires CutsHere(segs, u, CutOf(cuts, u)) && Cuttable(WorkedOff(segs, u, CutOf(cuts, u).pieces), us, cuts)
    ensures Cuttable(segs, [u] + us, cuts)
  {
    var all := [u] + us;
    assert AllOff(segs, [], cuts) == segs;
    hide CutsHere, WorkedOff, AllOff;
    forall t | 0 <= t < |all| ensures CutsHere(AllOff(segs, all[..t], cuts), all[t], CutOf(cuts, all[t])) {
      if t == 0 {
        assert all[..0] == [];
      } else {
        assert all[..t] == [u] + us[..t - 1] && all[t] == us[t - 1];
        AllOffFront(segs, u, us[..t - 1], cuts);
      }
    }
  }

  /** The list of a drive in a state of a run, and what is known of it. */
  ghost predicate Tracked(job: Job, s: State, d: DiskID, segs: seq<Segment>)
    requires Uniform(job.start.chunks)
  {
    Inv(job, s) && Planned(job, s, d) && Lists(segs, s.db.drives[d].segs)
  }

  lemma StepTracks(job: Job, s: State, d: DiskID, segs: seq<Segment>, a: Action)
    requires GoodJob(job) && Tracked(job, s, d, segs) && Enabled(job, s, a)
    ensures Tracked(job, Next(job, s, a), d, ListNext(job, d, segs, a))
  {
    hide GoodJob, Inv, Enabled, Next, Lists;
    StepKeeps(job, s, a);
    StepPlanned(job, s, d, a);
    StepLists(job, s, d, segs, a);
  }

  lemma TrackedStepPlain(job: Job, s: State, d: DiskID, segs: seq<Segment>, a: Action)
    requires GoodJob(job) && Tracked(job, s, d, segs) && Enabled(job, s, a) && d in job.start.drives
    ensures var here, cuts := a.WorkOff? && a.d == d, CutsOn(job, d);
            && (here ==> a.u in cuts && CutsHere(PlainList(segs), a.u, CutOf(cuts, a.u)))
            && PlainList(ListNext(job, d, segs, a))
               == if here then WorkedOff(PlainList(segs), a.u, CutOf(cuts, a.u).pieces) else PlainList(segs)
  {
    StepPlain(job, s, d, segs, a);
    if a.WorkOff? && a.d == d {
      StepCuts(job, s, d, segs, a.u);
    }
    hide *;
  }

  /** Over every run the list of a drive is the stored one, and without its flags it is the list of the start with the
      segments worked off so far, each cut as planned. */
  lemma {:induction false} RunTracks(job: Job, s: State, d: DiskID, segs: seq<Segment>, actions: seq<Action>)
    requires GoodJob(job) && Tracked(job, s, d, segs) && IsRun(job, s, actions) && d in job.start.drives
    ensures Tracked(job, After(job, s, actions), d, ListAfter(job, d, segs, actions))
    ensures Cuttable(PlainList(segs), WorkedOn(actions, d), CutsOn(job, d))
    ensures PlainList(ListAfter(job, d, segs, actions))
         == AllOff(PlainList(segs), WorkedOn(actions, d), CutsOn(job, d))
    decreases |actions|
  {
    if actions == [] {
      hide GoodJob, Tracked, CutsOn, PlainList;
    } else {
      hide GoodJob, Tracked, Enabled, Next, ListNext, CutsHere, WorkedOff, CutsOn, Cuttable, AllOff, PlainList;
      var a, cuts := actions[0], CutsOn(job, d);
      StepTracks(job, s, d, segs, a);
      TrackedStepPlain(job, s, d, segs, a);
      var next := ListNext(job, d, segs, a);
      RunTracks(job, Next(job, s, a), d, next, actions[1..]);
      if a.WorkOff? && a.d == d {
        CuttableFront(PlainList(segs), a.u, WorkedOn(actions[1..], d), cuts);
        AllOffFront(PlainList(segs), a.u, WorkedOn(actions[1..], d), cuts);
      } else {
        assert WorkedOn(actions, d) == WorkedOn(actions[1..], d);
      }
    }
  }

  // ----------------------------------------------------- every flag exactly once

  ghost function UuidSet(us: seq<Uuid>): set<Uuid> {
    set u | u in us
  }

  /** The segments of a drive that still have to be worked off. */
  ghost function ToDo(job: Job, s: State, d: DiskID): set<Uuid>
    requires Uniform(job.start.chunks) && d in s.db.drives && d in job.start.drives
  {
    if s.phase == Preparing then CutsOn(job, d).Keys else FlaggedIn(s.db.drives[d])
  }

  lemma MarkedToDo(job: Job, d: DiskID, doc: DriveDoc)
    requires Uniform(job.start.chunks) && d in job.start.drives
    requires doc.segs == Marked(job.start.drives[d], PlanOf(job)).segs
    ensures FlaggedIn(doc) == CutsOn(job, d).Keys
  {
    hide PlanOf, FlagFor, CutOfFlag;
  }

  lemma WorkOffToDo(job: Job, s: State, e: DiskID, u: Uuid)
    requires GoodJob(job) && Inv(job, s) && s.phase == Committing && e in s.db.drives
    requires u in s.db.drives[e].segs && Flagged(s.db.drives[e].segs[u])
    ensures FlaggedIn(Apply(s.db.drives[e], u)) == FlaggedIn(s.db.drives[e]) - {u}
    ensures u in FlaggedIn(s.db.drives[e])
  {
    hide GoodJob, PlanOf, Inv, Apply, Ready, FlaggedIn;
    DriveIsReady(job, s, e);
    ApplyKeepsReady(s.db.drives[e], u);
    FlaggedHere(s.db.drives[e], u);
  }

  lemma FlaggedHere(d: DriveDoc, u: Uuid)
    ensures u in FlaggedIn(d) <==> u in d.segs && Flagged(d.segs[u])
  {
  }

  lemma StepToDo(job: Job, s: State, d: DiskID, a: Action)
    requires GoodJob(job) && Inv(job, s) && Enabled(job, s, a) && d in s.db.drives && d in job.start.drives
    ensures d in Next(job, s, a).db.drives
    ensures ToDo(job, Next(job, s, a), d) == ToDo(job, s, d) - if a.WorkOff? && a.d == d then {a.u} else {}
    ensures a.WorkOff? && a.d == d ==> a.u in ToDo(job, s, d)
  {
    hide GoodJob, Inv, PlanOf, CutsOn, Affected, NoFlags, UuidMap, RenamedVolume, Apply, LargestSegment, FlagFor,
         FlaggedDrives;
    match a
    case Mark(_, _) =>
    case Unmark(_, _) =>
    case Commit => MarkedToDo(job, d, s.db.drives[d]);
    case WorkOff(e, u) => WorkOffToDo(job, s, e, u);
    case Recalculate(e) => assert FlaggedIn(Recalculated(s.db.drives[e])) == FlaggedIn(s.db.drives[e]);
    case _ =>
  }

  lemma {:induction false} RunToDo(job: Job, s: State, d: DiskID, actions: seq<Action>)
    requires GoodJob(job) && Inv(job, s) && IsRun(job, s, actions) && d in s.db.drives && d in job.start.drives
    ensures d in After(job, s, actions).db.drives
    ensures NoneTwice(WorkedOn(actions, d)) && UuidSet(WorkedOn(actions, d)) <= ToDo(job, s, d)
    ensures ToDo(job, After(job, s, actions), d) == ToDo(job, s, d) - UuidSet(WorkedOn(actions, d))
    decreases |actions|
  {
    hide GoodJob, Inv, Enabled, Next, ToDo;
    if actions != [] {
      var a := actions[0];
      StepKeeps(job, s, a);
      StepToDo(job, s, d, a);
      RunToDo(job, Next(job, s, a), d, actions[1..]);
      if a.WorkOff? && a.d == d {
        OneFirst(a.u, WorkedOn(actions[1..], d));
      } else {
        assert WorkedOn(actions, d) == WorkedOn(actions[1..], d);
      }
    }
  }

  lemma OneFirst(u: Uuid, us: seq<Uuid>)
    requires NoneTwice(us) && u !in UuidSet(us)
    ensures NoneTwice([u] + us) && UuidSet([u] + us) == UuidSet(us) + {u}
  {
    assert forall i | 0 <= i < |us| :: us[i] in UuidSet(us);
    assert forall i | 0 < i <= |us| :: ([u] + us)[i] == us[i - 1];
  }

  lemma StartsTracked(job: Job, d: DiskID, segs: seq<Segment>)
    requires GoodJob(job) && d in job.start.drives && Lists(segs, job.start.drives[d].segs)
    ensures Tracked(job, Initial(job), d, segs) && PlainList(segs) == segs && SoundList(segs)
  {
    StartKeeps(job);
    assert ValidDoc(job.start.drives[d]);
    forall i | 0 <= i < |segs| ensures Plain(segs[i]) == segs[i] {
      assert SegmentSound(d, job.start.drives[d].segs[segs[i].uuid]);
    }
    ValidIsSound(segs, job.start.drives[d]);
    hide GoodJob, PlanOf, Inv, ValidDoc, SoundList;
  }

  lemma FlagPieces(job: Job, d: DiskID, u: Uuid, g: int)
    requires GoodJob(job) && d in job.start.drives
    requires 0 <= g < |CutOf(CutsOn(job, d), u).pieces|
    ensures u in CutsOn(job, d) && CutOf(CutsOn(job, d), u).pieces[g].uuid !in job.start.drives[d].segs
  {
    MarkedReady(job.start, job.vpg, job.names, job.multiplier, d);
    var marked := Marked(job.start.drives[d], PlanOf(job));
    hide PlanFor, GoodJob, FlagFor, ReadyItem, ValidDoc;
    assert ReadyItem(marked, u);
    RepsAreNew(marked, u);
  }

  lemma PlanIsNew(job: Job, d: DiskID, us: seq<Uuid>)
    requires GoodJob(job) && d in job.start.drives && UuidSet(us) <= CutsOn(job, d).Keys
    ensures NewPieces(us, CutsOn(job, d))
  {
    var cuts := CutsOn(job, d);
    assert cuts.Keys <= job.start.drives[d].segs.Keys;
    hide GoodJob, CutsOn;
    forall t, x, g | 0 <= t < |us| && 0 <= x < |us| && 0 <= g < |CutOf(cuts, us[t]).pieces|
      ensures CutOf(cuts, us[t]).pieces[g].uuid != us[x]
    {
      FlagPieces(job, d, us[t], g);
      assert us[x] in UuidSet(us);
    }
  }

  /** The list of a drive after a run, without its flags. */
  lemma ReachedList(job: Job, actions: seq<Action>, s: State, d: DiskID, segs: seq<Segment>)
    requires Reaches(job, actions, s) && d in job.start.drives && Lists(segs, job.start.drives[d].segs)
    ensures WorksOff(Listing(d, segs), WorkedOn(actions, d), CutsOn(job, d))
    ensures Tracked(job, s, d, ListAfter(job, d, segs, actions))
    ensures PlainList(ListAfter(job, d, segs, actions)) == AllOff(segs, WorkedOn(actions, d), CutsOn(job, d))
    ensures ToDo(job, s, d) == CutsOn(job, d).Keys - UuidSet(WorkedOn(actions, d))
    ensures UuidSet(WorkedOn(actions, d)) <= CutsOn(job, d).Keys
  {
    StartsTracked(job, d, segs);
    hide GoodJob, IsRun, After, Tracked, SoundList, Cuttable, CutsOn, Lists;
    RunTracks(job, Initial(job), d, segs, actions);
    StartKeeps(job);
    RunToDo(job, Initial(job), d, actions);
    PlanIsNew(job, d, WorkedOn(actions, d));
  }

  /** A finished reclaim has worked every flag of the plan off once, and the list it leaves is the one these steps
      lead to. */
  lemma FinishedList(job: Job, actions: seq<Action>, s: State, d: DiskID, segs: seq<Segment>)
    requires Reaches(job, actions, s) && s.phase == Done
    requires d in job.start.drives && Lists(segs, job.start.drives[d].segs)
    ensures WorksOff(Listing(d, segs), WorkedOn(actions, d), CutsOn(job, d))
    ensures UuidSet(WorkedOn(actions, d)) == CutsOn(job, d).Keys
    ensures ListAfter(job, d, segs, actions) == AllOff(segs, WorkedOn(actions, d), CutsOn(job, d))
    ensures d in s.db.drives && Lists(ListAfter(job, d, segs, actions), s.db.drives[d].segs)
  {
    hide *;
    ReachedList(job, actions, s, d, segs);
    FinishedClean(job, actions, s, d);
    TrackedPlain(job, s, d, ListAfter(job, d, segs, actions));
    NothingLeft(CutsOn(job, d).Keys, UuidSet(WorkedOn(actions, d)));
  }

  lemma NothingLeft(a: set<Uuid>, b: set<Uuid>)
    requires b <= a && a - b == {}
    ensures a == b
  {
    assert forall u | u in a :: u in b || u in a - b;
  }

  lemma FinishedClean(job: Job, actions: seq<Action>, s: State, d: DiskID)
    requires Reaches(job, actions, s) && s.phase == Done && d in job.start.drives
    ensures GoodJob(job) && d in s.db.drives && ToDo(job, s, d) == {} && FlaggedIn(s.db.drives[d]) == {}
  {
    ReachedInv(job, actions, s);
    assert DrivesOnTheWay(job, s.db.drives);
    hide Reaches, ToDo;
    NothingToDo(job, s, d);
  }

  lemma TrackedPlain(job: Job, s: State, d: DiskID, segs: seq<Segment>)
    requires Uniform(job.start.chunks) && Tracked(job, s, d, segs) && FlaggedIn(s.db.drives[d]) == {}
    ensures PlainList(segs) == segs && Lists(segs, s.db.drives[d].segs)
  {
    hide Inv, AsPlanned, PlanOf, FlaggedIn, Lists;
    NoneFlaggedIn(segs, s.db.drives[d]);
  }

  lemma NothingToDo(job: Job, s: State, d: DiskID)
    requires GoodJob(job) && Inv(job, s) && s.phase == Done && d in s.db.drives && d in job.start.drives
    ensures ToDo(job, s, d) == {} && FlaggedIn(s.db.drives[d]) == {}
  {
    assert NoFlags(s.db);
    hide Inv, GoodJob, CutsOn;
  }

  lemma NoneFlaggedIn(segs: seq<Segment>, d: DriveDoc)
    requires Lists(segs, d.segs) && FlaggedIn(d) == {}
    ensures PlainList(segs) == segs
  {
    forall i | 0 <= i < |segs| ensures Plain(segs[i]) == segs[i] {
      assert segs[i].uuid !in FlaggedIn(d);
    }
  }
}
