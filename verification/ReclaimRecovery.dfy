/** The one thing crashes decide: which drives end a reclaim with an up-to-date largest range. A recovery
    recalculates the drives that still carry a flag when it starts, not those whose last flag went before. */
module ReclaimRecovery {
  import opened Ranges
  import opened Drives
  import opened Redo
  import opened Chunks
  import opened ReclaimPlan
  import opened Reclaim
  import opened ReclaimFlags
  import opened ReclaimRun
  import opened ReclaimSafety

  // ------------------------------------------------------ runs in two parts

  lemma {:induction false} RunConcat(job: Job, s: State, a: seq<Action>, b: seq<Action>)
    requires Uniform(job.start.chunks)
    ensures IsRun(job, s, a + b) <==> IsRun(job, s, a) && IsRun(job, After(job, s, a), b)
    ensures IsRun(job, s, a + b) ==> After(job, s, a + b) == After(job, After(job, s, a), b)
    decreases |a|
  {
    hide Enabled, Next;
    if a == [] {
      assert a + b == b;
    } else {
      assert (a + b)[1..] == a[1..] + b;
      if Enabled(job, s, a[0]) {
        RunConcat(job, Next(job, s, a[0]), a[1..], b);
      }
    }
  }

  lemma RunOne(job: Job, s: State, a: Action)
    requires Uniform(job.start.chunks) && Enabled(job, s, a)
    ensures IsRun(job, s, [a]) && After(job, s, [a]) == Next(job, s, a)
  {
    hide Enabled, Next;
    assert [a][1..] == [];
  }

  // -------------------------------------------------- the cached largest range

  /** What is known of the cached largest range of an affected drive, when `past` are the drives that were
      recalculated so far: it is up to date, or forgotten, or there is still a flag to work off. */
  ghost predicate CacheOf(doc: DriveDoc, recalculated: bool) {
    if recalculated then doc.largest == LargestSegment(doc)
    else FlaggedIn(doc) != {} || doc.largest == UNKNOWN_LARGEST
  }

  ghost predicate Caches(job: Job, s: State, past: set<DiskID>)
    requires Uniform(job.start.chunks)
  {
    && (s.phase == Preparing ==> past == {})
    && (past != {} ==> NoFlags(s.db))
    && s.recalculated <= past
    && (s.phase != Preparing ==>
          forall d | d in s.db.drives && d in Affected(job) :: CacheOf(s.db.drives[d], d in past))
  }

  ghost function More(past: set<DiskID>, a: Action): set<DiskID> {
    if a.Recalculate? then past + {a.d} else past
  }

  lemma AffectedHasFlag(job: Job, d: DiskID)
    requires GoodJob(job) && d in Affected(job)
    ensures FlaggedIn(Marked(job.start.drives[d], PlanOf(job))) != {}
  {
    var u :| u in job.start.drives[d].segs && !FlagFor(PlanOf(job), job.start.drives[d].segs[u]).Idle?;
    assert u in FlaggedIn(Marked(job.start.drives[d], PlanOf(job)));
  }

  lemma CommitCaches(job: Job, s: State)
    requires GoodJob(job) && Inv(job, s) && Enabled(job, s, Commit) && Caches(job, s, {})
    ensures Caches(job, Next(job, s, Commit), {})
  {
    var t := Next(job, s, Commit);
    forall d | d in t.db.drives && d in Affected(job) ensures CacheOf(t.db.drives[d], false) {
      AffectedHasFlag(job, d);
      assert t.db.drives[d].segs == Marked(job.start.drives[d], PlanOf(job)).segs;
    }
  }

  lemma RecalculatedCache(doc: DriveDoc)
    ensures CacheOf(Recalculated(doc), true) && FlaggedIn(Recalculated(doc)) == FlaggedIn(doc)
  {
    LargestDependsOnSegments(doc);
    hide LargestSegment;
  }

  lemma StepCaches(job: Job, s: State, a: Action, past: set<DiskID>)
    requires GoodJob(job) && Inv(job, s) && Enabled(job, s, a) && Caches(job, s, past)
    ensures Caches(job, Next(job, s, a), More(past, a))
  {
    hide GoodJob, Inv, LargestSegment, PlanOf, Affected, RenamedVolume, UuidMap, Recalculated, AllMarked, FlagFor;
    match a
    case Mark(_, _) =>
    case Unmark(_, _) =>
    case Commit => CommitCaches(job, s);
    case WorkOff(d, u) =>
      assert past == {};
      assert Apply(s.db.drives[d], u).largest == UNKNOWN_LARGEST;
    case UpdateVolume(_) =>
    case Recalculate(d) =>
      RecalculatedCache(s.db.drives[d]);
      assert NoFlags(Next(job, s, a).db) by {
        forall u | u in Recalculated(s.db.drives[d]).segs ensures !Flagged(Recalculated(s.db.drives[d]).segs[u]) {
          assert u !in FlaggedIn(Recalculated(s.db.drives[d]));
        }
      }
    case Finish =>
    case Crash =>
  }

  ghost function RecalculatedIn(actions: seq<Action>): set<DiskID> {
    set a | a in actions && a.Recalculate? :: a.d
  }

  lemma {:induction false} RunCaches(job: Job, s: State, actions: seq<Action>, past: set<DiskID>)
    requires GoodJob(job) && Inv(job, s) && IsRun(job, s, actions) && Caches(job, s, past)
    ensures Caches(job, After(job, s, actions), past + RecalculatedIn(actions))
    decreases |actions|
  {
    hide Inv, GoodJob, Next, Enabled, Caches;
    if actions == [] {
      assert past + RecalculatedIn(actions) == past;
    } else {
      StepKeeps(job, s, actions[0]);
      StepCaches(job, s, actions[0], past);
      RunCaches(job, Next(job, s, actions[0]), actions[1..], More(past, actions[0]));
      RecalculatedMore(actions, past);
    }
  }

  lemma RecalculatedMore(actions: seq<Action>, past: set<DiskID>)
    requires actions != []
    ensures More(past, actions[0]) + RecalculatedIn(actions[1..]) == past + RecalculatedIn(actions)
  {
    assert actions == [actions[0]] + actions[1..];
  }

  lemma ReachedCaches(job: Job, actions: seq<Action>, s: State)
    requires Reaches(job, actions, s)
    ensures Inv(job, s) && Caches(job, s, RecalculatedIn(actions))
  {
    ReachedInv(job, actions, s);
    StartKeeps(job);
    RunCaches(job, Initial(job), actions, {});
    assert {} + RecalculatedIn(actions) == RecalculatedIn(actions);
    hide *;
  }

  /** A finished reclaim leaves an affected drive with its largest range up to date if the run recalculated
      it, and with a forgotten one if not. */
  lemma LargestDecides(job: Job, actions: seq<Action>, s: State, d: DiskID)
    requires Reaches(job, actions, s) && s.phase == Done && d in s.db.drives && d in Affected(job)
    ensures var doc := s.db.drives[d];
            doc.largest == if Recalculate(d) in actions then LargestSegment(doc) else UNKNOWN_LARGEST
  {
    ReachedCaches(job, actions, s);
    assert FlaggedIn(s.db.drives[d]) == {} by {
      assert NoFlags(s.db);
    }
    assert d in RecalculatedIn(actions) <==> Recalculate(d) in actions;
    hide LargestSegment, Inv, Reaches, Affected;
  }

  /** While management does not crash, what it has to recalculate stays what it was. */
  lemma {:induction false} StaleStays(job: Job, s: State, actions: seq<Action>)
    requires GoodJob(job) && IsRun(job, s, actions) && Crash !in actions && s.phase != Preparing
    ensures After(job, s, actions).stale == s.stale
    ensures RecalculatedIn(actions) <= s.stale
    decreases |actions|
  {
    hide Enabled, Next, GoodJob;
    if actions != [] {
      assert actions[0] in actions;
      StaleStep(job, s, actions[0]);
      StaleStays(job, Next(job, s, actions[0]), actions[1..]);
      RecalculatedMore(actions, {});
    }
  }

  lemma StaleStep(job: Job, s: State, a: Action)
    requires Uniform(job.start.chunks) && Enabled(job, s, a) && a != Crash && s.phase != Preparing
    ensures Next(job, s, a).stale == s.stale && Next(job, s, a).phase != Preparing && More({}, a) <= s.stale
  {
    hide PlanOf, Affected, NoFlags, Apply, RenamedVolume, Recalculated, UuidMap;
  }

  lemma {:induction false} RecalculatedOnly(job: Job, s: State, actions: seq<Action>)
    requires GoodJob(job) && IsRun(job, s, actions)
    ensures After(job, s, actions).recalculated <= s.recalculated + RecalculatedIn(actions)
    decreases |actions|
  {
    if actions != [] {
      var t := Next(job, s, actions[0]);
      assert t.recalculated <= More(s.recalculated, actions[0]);
      hide Enabled, Next, GoodJob;
      RecalculatedOnly(job, t, actions[1..]);
      RecalculatedMore(actions, s.recalculated);
    }
  }

  /** A management that brings a reclaim to its end has recalculated exactly what it had to. */
  lemma FinishRecalculates(job: Job, s: State, actions: seq<Action>)
    requires GoodJob(job) && s.phase == Committing && s.recalculated == {}
    requires IsRun(job, s, actions) && Crash !in actions && After(job, s, actions).phase == Done
    ensures RecalculatedIn(actions) == s.stale
  {
    StaleStays(job, s, actions);
    RecalculatedOnly(job, s, actions);
    DoneCoversStale(job, s, actions);
  }

  lemma {:induction false} DoneCoversStale(job: Job, s: State, actions: seq<Action>)
    requires GoodJob(job) && s.phase == Committing
    requires IsRun(job, s, actions) && Crash !in actions && After(job, s, actions).phase == Done
    ensures After(job, s, actions).stale <= After(job, s, actions).recalculated
    decreases |actions|
  {
    var t := Next(job, s, actions[0]);
    assert actions[0] in actions;
    if actions[0] == Finish {
      NothingAfterDone(job, t, actions[1..]);
      hide Enabled, GoodJob, NoFlags;
    } else {
      assert t.phase == Committing;
      hide Enabled, Next, GoodJob;
      DoneCoversStale(job, t, actions[1..]);
    }
  }

  lemma {:induction false} NothingAfterDone(job: Job, s: State, actions: seq<Action>)
    requires GoodJob(job) && IsRun(job, s, actions) && Crash !in actions && s.phase == Done
    ensures actions == []
  {
  }

  /** A run through the step `a`. */
  lemma RunThrough(job: Job, before: seq<Action>, a: Action, after: seq<Action>, s: State)
    requires Reaches(job, before + [a] + after, s)
    ensures GoodJob(job) && IsRun(job, Initial(job), before)
    ensures var mid := After(job, Initial(job), before);
            Inv(job, mid) && Enabled(job, mid, a) && IsRun(job, Next(job, mid, a), after)
                && After(job, Next(job, mid, a), after) == s
  {
    hide Enabled, Next, GoodJob, Inv;
    assert before + [a] + after == before + ([a] + after);
    RunConcat(job, Initial(job), before, [a] + after);
    var mid := After(job, Initial(job), before);
    assert ([a] + after)[0] == a && ([a] + after)[1..] == after;
    StartKeeps(job);
    RunKeeps(job, Initial(job), before);
  }

  lemma CrashLooks(job: Job, s: State)
    requires Uniform(job.start.chunks)
    ensures Enabled(job, s, Crash)
    ensures var t := Next(job, s, Crash);
            t.stale == FlaggedDrives(s.db) && t.recalculated == {} && t.updated == {} && t.phase == s.phase
                && t.db == s.db
  {
  }

  lemma MoreRecalculated(before: seq<Action>, a: Action, after: seq<Action>, d: DiskID)
    requires !a.Recalculate?
    ensures Recalculate(d) in before + [a] + after <==> Recalculate(d) in before || d in RecalculatedIn(after)
  {
    assert Recalculate(d) in after <==> d in RecalculatedIn(after);
  }

  /** Over all runs with a crash past the commit point: an affected drive ends with its largest range up to
      date exactly when it still carried a flag at the last crash, or was recalculated before it (which
      happens only after its last flag went); otherwise the cache stays forgotten. */
  lemma LastRecoveryDecides(job: Job, before: seq<Action>, after: seq<Action>, s: State, d: DiskID)
    requires Reaches(job, before + [Crash] + after, s) && s.phase == Done && Crash !in after
    requires IsRun(job, Initial(job), before) && After(job, Initial(job), before).phase == Committing
    requires d in s.db.drives && d in Affected(job)
    ensures var doc := s.db.drives[d];
            var refreshed := d in FlaggedDrives(After(job, Initial(job), before).db) || Recalculate(d) in before;
            doc.largest == if refreshed then LargestSegment(doc) else UNKNOWN_LARGEST
  {
    hide *;
    LargestDecides(job, before + [Crash] + after, s, d);
    RunThrough(job, before, Crash, after, s);
    var mid := After(job, Initial(job), before);
    CrashLooks(job, mid);
    FinishRecalculates(job, Next(job, mid, Crash), after);
    MoreRecalculated(before, Crash, after, d);
  }

  /** A reclaim that is not interrupted past its commit point leaves every affected drive up to date. */
  lemma NoCrashRefreshesAll(job: Job, before: seq<Action>, after: seq<Action>, s: State, d: DiskID)
    requires Reaches(job, before + [Commit] + after, s) && s.phase == Done && Crash !in after
    requires d in s.db.drives && d in Affected(job)
    ensures s.db.drives[d].largest == LargestSegment(s.db.drives[d])
  {
    LargestDecides(job, before + [Commit] + after, s, d);
    RunThrough(job, before, Commit, after, s);
    var mid := After(job, Initial(job), before);
    var t := Next(job, mid, Commit);
    assert t.stale == Affected(job) && t.recalculated == {} && t.phase == Committing;
    hide Affected, LargestSegment, GoodJob, Enabled, Next, IsRun, After, Reaches, Inv;
    FinishRecalculates(job, t, after);
    MoreRecalculated(before, Commit, after, d);
  }

  // ------------------------------------------ a crash that forgets every drive

  /** The segments whose flag is not yet what the plan asks for. */
  ghost function Unset(job: Job, db: Db): set<(DiskID, Uuid)>
    requires Uniform(job.start.chunks)
  {
    set d, u | d in db.drives && u in db.drives[d].segs && d in job.start.drives && u in job.start.drives[d].segs
            && db.drives[d].segs[u].pendingReclaim != FlagFor(PlanOf(job), job.start.drives[d].segs[u]) :: (d, u)
  }

  lemma AllSet(job: Job, s: State)
    requires Uniform(job.start.chunks) && OnlyFlags(job, s) && Unset(job, s.db) == {}
    ensures AllMarked(job, s.db)
  {
    hide PlanOf;
    forall d | d in s.db.drives
           && d in job.start.drives ensures s.db.drives[d].segs == Marked(job.start.drives[d], PlanOf(job)).segs {
      assert SameButFlags(job.start.drives[d], s.db.drives[d]);
      forall u | u in s.db.drives[d].segs
        ensures s.db.drives[d].segs[u] == Marked(job.start.drives[d], PlanOf(job)).segs[u]
      {
        assert (d, u) !in Unset(job, s.db);
      }
    }
  }

  lemma SetOne(job: Job, s: State, d: DiskID, u: Uuid) returns (a: Action)
    requires GoodJob(job) && Inv(job, s) && s.phase == Preparing && (d, u) in Unset(job, s.db)
    ensures Enabled(job, s, a) && (a.Mark? || a.Unmark?) && Next(job, s, a).phase == Preparing
    ensures Unset(job, Next(job, s, a).db) < Unset(job, s.db)
  {
    hide PlanOf, GoodJob, FlagFor, SameButFlags;
    var flag := FlagFor(PlanOf(job), job.start.drives[d].segs[u]);
    a := if flag.Idle? then Unmark(d, u) else Mark(d, u);
    var t := Next(job, s, a);
    assert t == WithDrive(s, d, WithFlag(s.db.drives[d], u, flag));
    assert (d, u) !in Unset(job, t.db);
    forall x | x in Unset(job, t.db) ensures x in Unset(job, s.db) {
    }
  }

  lemma {:induction false} AllCanBeSet(job: Job, s: State) returns (actions: seq<Action>)
    requires GoodJob(job) && Inv(job, s) && s.phase == Preparing
    ensures IsRun(job, s, actions) && RecalculatedIn(actions) == {} && forall a | a in actions :: !a.WorkOff?
    ensures var t := After(job, s, actions); Inv(job, t) && t.phase == Preparing && AllMarked(job, t.db)
    decreases Unset(job, s.db)
  {
    if x :| x in Unset(job, s.db) {
      var a := SetOne(job, s, x.0, x.1);
      StepKeeps(job, s, a);
      hide Inv, GoodJob, Enabled, Unset, Next, AllMarked;
      var rest := AllCanBeSet(job, Next(job, s, a));
      actions := [a] + rest;
      assert actions[1..] == rest;
      RecalculatedMore(actions, {});
    } else {
      actions := [];
      assert Unset(job, s.db) == {};
      AllSet(job, s);
    }
  }

  lemma NoMoreRecalculated(a: seq<Action>, b: seq<Action>)
    ensures RecalculatedIn(a + b) == RecalculatedIn(a) + RecalculatedIn(b)
  {
  }

  /** A reclaim with something to do can get to its commit point. */
  lemma CommitIsReachable(job: Job) returns (actions: seq<Action>)
    requires GoodJob(job) && (PlanOf(job).removals != [] || PlanOf(job).replacements != [])
    ensures IsRun(job, Initial(job), actions) && RecalculatedIn(actions) == {}
    ensures forall a | a in actions :: !a.WorkOff?
    ensures var s := After(job, Initial(job), actions); s.phase == Committing && Inv(job, s) && AllMarked(job, s.db)
  {
    StartKeeps(job);
    var marks := AllCanBeSet(job, Initial(job));
    var s := After(job, Initial(job), marks);
    assert Enabled(job, s, Commit) by { hide GoodJob, Inv, PlanOf, AllMarked; }
    StepKeeps(job, s, Commit);
    assert Next(job, s, Commit).db.drives == s.db.drives;
    hide GoodJob, Inv, PlanOf, Enabled, Next;
    RunOne(job, s, Commit);
    RunConcat(job, Initial(job), marks, [Commit]);
    actions := marks + [Commit];
    NoMoreRecalculated(marks, [Commit]);
  }

  lemma {:induction false} FlagsCanGo(job: Job, s: State) returns (actions: seq<Action>)
    requires GoodJob(job) && Inv(job, s) && s.phase == Committing
    ensures IsRun(job, s, actions) && RecalculatedIn(actions) == {}
    ensures var t := After(job, s, actions); Inv(job, t) && t.phase == Committing && NoFlags(t.db)
    decreases Flags(s.db)
  {
    if d, u :| d in s.db.drives && u in s.db.drives[d].segs && Flagged(s.db.drives[d].segs[u]) {
      var a := WorkOff(d, u);
      FlaggedStep(job, s, d, u);
      WorkOffShrinks(job, s, d, u);
      StepKeeps(job, s, a);
      hide Inv, GoodJob, Enabled, Flags, Next, NoFlags;
      var rest := FlagsCanGo(job, Next(job, s, a));
      actions := [a] + rest;
      assert actions[1..] == rest;
      RecalculatedMore(actions, {});
    } else {
      actions := [];
    }
  }

  lemma AffectedMeansWork(job: Job, d: DiskID)
    requires Uniform(job.start.chunks) && d in Affected(job)
    ensures PlanOf(job).removals != [] || PlanOf(job).replacements != []
  {
    var u :| u in job.start.drives[d].segs && !FlagFor(PlanOf(job), job.start.drives[d].segs[u]).Idle?;
  }

  lemma NoneFlagged(db: Db)
    requires NoFlags(db)
    ensures FlaggedDrives(db) == {}
  {
    forall d | d in db.drives ensures FlaggedIn(db.drives[d]) == {} {
    }
  }

  lemma NotRecalculated(actions: seq<Action>, d: DiskID)
    requires RecalculatedIn(actions) == {}
    ensures Recalculate(d) !in actions
  {
    assert Recalculate(d) in actions ==> d in RecalculatedIn(actions);
  }

  lemma ForgetFrom(job: Job, before: seq<Action>, s: State, d: DiskID) returns (actions: seq<Action>, t: State)
    requires GoodJob(job) && d in Affected(job) && Recalculate(d) !in before
    requires IsRun(job, Initial(job), before) && After(job, Initial(job), before) == s
    requires Inv(job, s) && s.phase == Committing && NoFlags(s.db)
    ensures Reaches(job, actions, t) && t.phase == Done
    ensures d in t.db.drives && t.db.drives[d].largest == UNKNOWN_LARGEST
  {
    hide *;
    CrashLooks(job, s);
    NoneFlagged(s.db);
    StepKeeps(job, s, Crash);
    var r := Next(job, s, Crash);
    var after := RecoveryFinishes(job, r);
    t := After(job, r, after);
    actions := before + [Crash] + after;
    Joined(job, before, s, after, t);
    DoneDrives(job, actions, t);
    LastRecoveryDecides(job, before, after, t, d);
  }

  lemma Joined(job: Job, before: seq<Action>, s: State, after: seq<Action>, t: State)
    requires GoodJob(job) && IsRun(job, Initial(job), before) && After(job, Initial(job), before) == s
    requires Enabled(job, s, Crash) && IsRun(job, Next(job, s, Crash), after)
             && After(job, Next(job, s, Crash), after) == t
    ensures Reaches(job, before + [Crash] + after, t)
  {
    hide GoodJob, Enabled, Next;
    RunOne(job, s, Crash);
    RunConcat(job, s, [Crash], after);
    RunConcat(job, Initial(job), before, [Crash] + after);
    assert before + [Crash] + after == before + ([Crash] + after);
  }

  lemma DoneDrives(job: Job, actions: seq<Action>, s: State)
    requires Reaches(job, actions, s) && s.phase == Done
    ensures GoodJob(job) && Affected(job) <= s.db.drives.Keys
  {
    ReachedInv(job, actions, s);
    assert DrivesOnTheWay(job, s.db.drives);
  }

  /** Whatever a reclaim is about, a crash between the last flag and the recalculation leaves the drive
      without a known largest range for good: the recovery finds no flag on it and finishes. */
  lemma CrashForgets(job: Job, d: DiskID) returns (actions: seq<Action>, s: State)
    requires GoodJob(job) && d in Affected(job)
    ensures Reaches(job, actions, s) && s.phase == Done
    ensures d in s.db.drives && s.db.drives[d].largest == UNKNOWN_LARGEST
  {
    hide *;
    AffectedMeansWork(job, d);
    var commit := CommitIsReachable(job);
    var one := After(job, Initial(job), commit);
    var flags := FlagsCanGo(job, one);
    RunConcat(job, Initial(job), commit, flags);
    var before := commit + flags;
    var two := After(job, one, flags);
    NoMoreRecalculated(commit, flags);
    NotRecalculated(before, d);
    actions, s := ForgetFrom(job, before, two, d);
  }
}
