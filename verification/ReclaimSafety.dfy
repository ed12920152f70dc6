/** Crash safety of a reclaim, over every run of its updates and any number of crashes. */
module ReclaimSafety {
  import opened Ranges
  import opened Drives
  import opened Redo
  import opened Chunks
  import opened ReclaimPlan
  import opened Reclaim
  import opened ReclaimFlags
  import opened ReclaimRun

  ghost predicate Reaches(job: Job, actions: seq<Action>, s: State) {
    GoodJob(job) && IsRun(job, Initial(job), actions) && After(job, Initial(job), actions) == s
  }

  lemma ReachedInv(job: Job, actions: seq<Action>, s: State)
    requires Reaches(job, actions, s)
    ensures Inv(job, s)
  {
    StartKeeps(job);
    RunKeeps(job, Initial(job), actions);
  }

  /** Before the commit point nothing has moved: only flags differ from the documents the reclaim
      started from, and unsetting the flags gives those documents back. */
  lemma BeforeCommitOnlyFlags(job: Job, actions: seq<Action>, s: State)
    requires Reaches(job, actions, s) && s.phase == Preparing
    ensures s.db.chunks == job.start.chunks && s.db.volumes == job.start.volumes
    ensures s.db.drives.Keys == job.start.drives.Keys
    ensures forall d | d in s.db.drives :: SameButFlags(job.start.drives[d], s.db.drives[d])
    ensures NoFlags(s.db) ==> s.db == job.start
  {
    ReachedInv(job, actions, s);
    if NoFlags(s.db) {
      forall d | d in s.db.drives ensures s.db.drives[d] == job.start.drives[d] {
        assert SameButFlags(job.start.drives[d], s.db.drives[d]);
        Unflagged(job, d, s.db.drives[d]);
      }
      hide GoodJob, Reaches, SameButFlags;
      assert s.db.drives == job.start.drives;
    }
  }

  lemma Unflagged(job: Job, d: DiskID, doc: DriveDoc)
    requires GoodJob(job) && d in job.start.drives && SameButFlags(job.start.drives[d], doc)
    requires forall u | u in doc.segs :: !Flagged(doc.segs[u])
    ensures doc == job.start.drives[d]
  {
    forall u | u in doc.segs ensures doc.segs[u] == job.start.drives[d].segs[u] {
      assert SegmentSound(d, job.start.drives[d].segs[u]);
    }
  }

  /** In every state of every run, crashed or not, each drive is valid: no overlap but derived inside
      reserved, every derived segment inside the reservation it names, the block count exact. */
  lemma EveryStateIsValid(job: Job, actions: seq<Action>, s: State, d: DiskID)
    requires Reaches(job, actions, s) && d in s.db.drives
    ensures ValidDoc(s.db.drives[d])
  {
    ReachedInv(job, actions, s);
    if s.phase == Preparing {
      assert SameButFlags(job.start.drives[d], s.db.drives[d]);
      FlagsKeepValid(job.start.drives[d], s.db.drives[d]);
    } else {
      assert DriveOnTheWay(job, d, s.db.drives[d]);
    }
  }

  lemma DoneDriveSettled(job: Job, s: State, d: DiskID)
    requires GoodJob(job) && Inv(job, s) && s.phase == Done && d in s.db.drives
    ensures d in job.start.drives
    ensures IsSettled(Marked(job.start.drives[d], PlanOf(job)).segs, s.db.drives[d].segs)
    ensures DriveOnTheWay(job, d, s.db.drives[d]) && ValidDoc(s.db.drives[d])
  {
    assert DriveOnTheWay(job, d, s.db.drives[d]);
    hide GoodJob, PlanOf, IsSettled, Marked;
    SettledWhenDone(s.db.drives[d].segs);
  }

  /** The same segments and the same count; the cached largest ranges may differ. */
  predicate SameButLargest(d: DriveDoc, e: DriveDoc) {
    d == e.(largest := d.largest)
  }

  lemma SameDrive(d: DriveDoc, e: DriveDoc)
    requires ValidDoc(d) && ValidDoc(e) && d.first == e.first && d.last == e.last && d.segs == e.segs
    ensures SameButLargest(d, e) && LargestSegment(d) == LargestSegment(e)
  {
    assert Free(d) == Free(e);
  }

  lemma DoneDriveUnique(job: Job, s: State, t: State, d: DiskID)
    requires GoodJob(job) && Inv(job, s) && Inv(job, t) && s.phase == Done && t.phase == Done
    requires d in s.db.drives && d in t.db.drives
    ensures SameButLargest(s.db.drives[d], t.db.drives[d])
    ensures d !in Affected(job) ==> s.db.drives[d] == t.db.drives[d]
    ensures LargestSegment(s.db.drives[d]) == LargestSegment(t.db.drives[d])
  {
    DoneDriveSettled(job, s, d);
    DoneDriveSettled(job, t, d);
    hide GoodJob, PlanOf, Ready, LeadsOn, IsSettled, ValidDoc, Affected, LargestSegment, Marked;
    if d in Affected(job) {
      SettledUnique(Marked(job.start.drives[d], PlanOf(job)).segs, s.db.drives[d].segs, t.db.drives[d].segs);
      SameDrive(s.db.drives[d], t.db.drives[d]);
    }
  }

  /** However often management crashed, and in whatever order the flags were worked off: a finished
      reclaim has one outcome, the same layout, counters, chunks and volumes. The cached largest range is
      the one thing that depends on the crashes (`LargestDecides`). */
  lemma OneOutcome(job: Job, actions: seq<Action>, s: State, others: seq<Action>, t: State)
    requires Reaches(job, actions, s) && Reaches(job, others, t) && s.phase == Done && t.phase == Done
    ensures s.db.chunks == t.db.chunks && s.db.volumes == t.db.volumes && s.db.drives.Keys == t.db.drives.Keys
    ensures forall d | d in s.db.drives :: SameButLargest(s.db.drives[d], t.db.drives[d])
  {
    ReachedInv(job, actions, s);
    ReachedInv(job, others, t);
    assert s.db.drives.Keys == t.db.drives.Keys;
    forall d | d in s.db.drives ensures SameButLargest(s.db.drives[d], t.db.drives[d]) {
      DoneDriveUnique(job, s, t, d);
    }
    assert s.db.volumes == t.db.volumes;
  }

  // ------------------------------------------------ recovery always gets there

  ghost function Flags(db: Db): set<(DiskID, Uuid)> {
    set d, u | d in db.drives && u in db.drives[d].segs && Flagged(db.drives[d].segs[u]) :: (d, u)
  }

  ghost function NotUpdated(s: State): set<int> {
    set v | 0 <= v < |s.db.volumes| && v !in s.updated
  }

  lemma DriveIsReady(job: Job, s: State, d: DiskID)
    requires GoodJob(job) && Inv(job, s) && s.phase == Committing && d in s.db.drives
    ensures Ready(s.db.drives[d]) && s.db.drives.Keys == job.start.drives.Keys
  {
    assert DriveOnTheWay(job, d, s.db.drives[d]);
  }

  lemma WorkOffShrinks(job: Job, s: State, d: DiskID, u: Uuid)
    requires GoodJob(job) && Inv(job, s) && Enabled(job, s, WorkOff(d, u))
    ensures Flags(Next(job, s, WorkOff(d, u)).db) < Flags(s.db)
  {
    hide GoodJob, Inv, Ready, Apply, Flags;
    var drives, t := s.db.drives, Next(job, s, WorkOff(d, u));
    DriveIsReady(job, s, d);
    ApplyKeepsReady(drives[d], u);
    FewerFlags(s.db, d, u, t.db);
  }

  lemma FewerFlags(before: Db, d: DiskID, u: Uuid, after: Db)
    requires d in before.drives && u in FlaggedIn(before.drives[d])
    requires after.drives.Keys == before.drives.Keys
    requires forall e | e in after.drives && e != d :: after.drives[e] == before.drives[e]
    requires FlaggedIn(after.drives[d]) == FlaggedIn(before.drives[d]) - {u}
    ensures Flags(after) < Flags(before)
  {
    forall x | x in Flags(after) ensures x in Flags(before) && x != (d, u) {
      assert x.1 in FlaggedIn(after.drives[x.0]);
      assert x.1 in FlaggedIn(before.drives[x.0]);
    }
    assert (d, u) in Flags(before);
  }

  /** How far a recovery still has to go, as three nested counts. */
  ghost predicate Closer(job: Job, t: State, s: State)
    requires Uniform(job.start.chunks)
  {
    || Flags(t.db) < Flags(s.db)
    || (Flags(t.db) == Flags(s.db) && NotUpdated(t) < NotUpdated(s))
    || (Flags(t.db) == Flags(s.db) && NotUpdated(t) == NotUpdated(s)
        && t.stale - t.recalculated < s.stale - s.recalculated)
  }

  lemma FlaggedStep(job: Job, s: State, d: DiskID, u: Uuid)
    requires GoodJob(job) && Inv(job, s) && s.phase == Committing
    requires d in s.db.drives && u in s.db.drives[d].segs && Flagged(s.db.drives[d].segs[u])
    ensures Enabled(job, s, WorkOff(d, u))
    ensures Next(job, s, WorkOff(d, u)).phase == Committing && Closer(job, Next(job, s, WorkOff(d, u)), s)
  {
    hide Flags, Inv, GoodJob, Affected, NotUpdated, NoFlags, Apply, PlanOf;
    WorkOffShrinks(job, s, d, u);
  }

  lemma NextStep(job: Job, s: State) returns (a: Action)
    requires GoodJob(job) && Inv(job, s) && s.phase == Committing
    ensures Enabled(job, s, a) && a != Crash
    ensures a == Finish || (Next(job, s, a).phase == Committing && Closer(job, Next(job, s, a), s))
  {
    hide GoodJob, Inv, Enabled, Next, Closer;
    if d, u :| d in s.db.drives && u in s.db.drives[d].segs && Flagged(s.db.drives[d].segs[u]) {
      a := WorkOff(d, u);
      FlaggedStep(job, s, d, u);
    } else {
      a := NextQuietStep(job, s);
    }
  }

  lemma StaleAreStored(job: Job, s: State)
    requires GoodJob(job) && Inv(job, s) && s.phase == Committing
    ensures s.stale <= s.db.drives.Keys
  {
    assert DrivesOnTheWay(job, s.db.drives);
    hide GoodJob, Inv, DriveOnTheWay;
  }

  lemma NextQuietStep(job: Job, s: State) returns (a: Action)
    requires GoodJob(job) && Inv(job, s) && s.phase == Committing && NoFlags(s.db)
    ensures Enabled(job, s, a) && a != Crash
    ensures a == Finish || (Next(job, s, a).phase == Committing && Closer(job, Next(job, s, a), s))
  {
    hide Inv, GoodJob, Flags, NoFlags, Recalculated, Affected, RenamedVolume;
    StaleAreStored(job, s);
    var left := NotUpdated(s);
    var stale := s.stale - s.recalculated;
    if v :| v in left {
      a := UpdateVolume(v);
      UpdateShrinks(job, s, v);
      hide NotUpdated;
    } else if d :| d in stale {
      a := Recalculate(d);
      RecalculateShrinks(job, s, d);
      hide NotUpdated;
    } else {
      a := Finish;
      assert forall v | 0 <= v < |s.db.volumes| :: v in s.updated || v in left;
      assert forall d | d in s.stale :: d in s.recalculated || d in stale;
    }
  }

  /** From every state past the commit point the remaining updates lead to the end: a recovery needs
      only the flags on the drives and the stored uuid map, from which `Crash` computes what is left to do. */
  lemma {:induction false} RecoveryFinishes(job: Job, s: State) returns (actions: seq<Action>)
    requires GoodJob(job) && Inv(job, s) && s.phase == Committing
    ensures IsRun(job, s, actions) && After(job, s, actions).phase == Done && Crash !in actions
    decreases Flags(s.db), NotUpdated(s), s.stale - s.recalculated
  {
    var a := NextStep(job, s);
    if a == Finish {
      actions := [a];
      assert actions[1..] == [];
      hide Inv, GoodJob, Enabled, Affected;
    } else {
      StepKeeps(job, s, a);
      hide Inv, GoodJob, Enabled, Affected, Flags, NotUpdated, Next;
      var rest := RecoveryFinishes(job, Next(job, s, a));
      actions := [a] + rest;
      assert actions[1..] == rest;
    }
  }

  lemma {:induction false} MapGoes(job: Job, s: State, actions: seq<Action>)
    requires Uniform(job.start.chunks) && IsRun(job, s, actions) && (s.phase == Done ==> s.uuidMap == map[])
    ensures After(job, s, actions).phase == Done ==> After(job, s, actions).uuidMap == map[]
    decreases |actions|
  {
    hide Uniform, FlagFor, PlanFor, Affected, FlaggedDrives, NoFlags, AllMarked;
    if actions != [] {
      MapGoes(job, Next(job, s, actions[0]), actions[1..]);
    }
  }

  /** A finished reclaim leaves nothing of itself: no flag on any drive, and no stored map. */
  lemma FinishedLeavesNothing(job: Job, actions: seq<Action>, s: State)
    requires Reaches(job, actions, s) && s.phase == Done
    ensures NoFlags(s.db) && s.uuidMap == map[]
  {
    ReachedInv(job, actions, s);
    MapGoes(job, Initial(job), actions);
    hide GoodJob, DrivesOnTheWay, VolumesOnTheWay, Affected, PlanOf;
  }

  lemma UpdateShrinks(job: Job, s: State, v: int)
    requires GoodJob(job) && Enabled(job, s, UpdateVolume(v)) && v in NotUpdated(s)
    ensures Flags(Next(job, s, UpdateVolume(v)).db) == Flags(s.db)
    ensures NotUpdated(Next(job, s, UpdateVolume(v))) < NotUpdated(s)
  {
    var t := Next(job, s, UpdateVolume(v));
    assert v !in NotUpdated(t);
  }

  lemma RecalculateShrinks(job: Job, s: State, d: DiskID)
    requires GoodJob(job) && Enabled(job, s, Recalculate(d)) && d !in s.recalculated
    ensures var t := Next(job, s, Recalculate(d));
            && Flags(t.db) == Flags(s.db) && NotUpdated(t) == NotUpdated(s)
            && t.stale - t.recalculated < s.stale - s.recalculated
  {
    hide GoodJob, Affected;
    var t := Next(job, s, Recalculate(d));
    assert d in s.stale - s.recalculated && d !in t.stale - t.recalculated;
  }
}
