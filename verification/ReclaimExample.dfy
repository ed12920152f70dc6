/** A small reclaim, as an input on which a crash costs a drive its largest range. */
module ReclaimExample {
  import opened Ranges
  import opened Drives
  import opened Redo
  import opened Chunks
  import opened ReclaimPlan
  import opened Reclaim
  import opened ReclaimFlags
  import opened ReclaimRun
  import opened ReclaimSafety
  import opened ReclaimRecovery

  // ---------------------------------------------------- a supply of new names

  function Triangle(n: nat): nat {
    if n == 0 then 0 else Triangle(n - 1) + n
  }

  lemma {:induction false} TriangleGrows(m: nat, n: nat)
    requires m < n
    ensures Triangle(m) + m < Triangle(n)
    decreases n
  {
    if m < n - 1 {
      TriangleGrows(m, n - 1);
    }
  }

  function Index(i: int): nat { if i < 0 then -2 * i - 1 else 2 * i }

  /** Cantor's pairing, above the names the example uses. */
  function NewName(u: Uuid, i: int): Uuid {
    2 + Triangle(u + Index(i)) + u
  }

  lemma NewNamesDiffer(u: Uuid, i: int, v: Uuid, j: int)
    requires NewName(u, i) == NewName(v, j)
    ensures u == v && i == j
  {
    if u + Index(i) < v + Index(j) {
      TriangleGrows(u + Index(i), v + Index(j));
    } else if v + Index(j) < u + Index(i) {
      TriangleGrows(v + Index(j), u + Index(i));
    }
  }

  // ---------------------------------------------------------------- the input

  const VPG: VolumeID := 7

  /** Drive 0 has 100 blocks and one reserved segment of 10, which nobody uses. */
  const UNUSED := Segment(1, 0, VPG, 5, 0, 9, true, false, NO_UUID, Idle)

  const DRIVE := DriveDoc(0, 99, map[1 := UNUSED], 90, Largest(90, 10, 99))

  const START := Db(map[0 := DRIVE], [Chunk(0, 9, [[UNUSED]])], [])

  ghost function Example(): Job {
    Job(START, VPG, (u, i) => NewName(u, i), 1)
  }

  lemma DriveTaken(b: int)
    ensures Taken(DRIVE.segs, b) <==> 0 <= b < 10
  {
    assert DRIVE.segs[1] == UNUSED;
  }

  lemma DriveFree()
    ensures Free(DRIVE) == Interval(10, 100)
  {
    hide Taken;
    forall b ensures b in Free(DRIVE) <==> b in Interval(10, 100) {
      DriveTaken(b);
    }
  }

  lemma DriveCounted()
    ensures Accounted(DRIVE)
  {
    DriveFree();
    hide Free;
    assert OneBlocks(DRIVE.segs) == {};
  }

  lemma DriveLaidOut()
    ensures Layout(DRIVE)
  {
    forall u | u in DRIVE.segs ensures DRIVE.segs[u].uuid == u && WellPlaced(DRIVE, DRIVE.segs[u]) {
    }
  }

  lemma DriveIsValid()
    ensures ValidDoc(DRIVE)
  {
    DriveCounted();
    DriveLaidOut();
    hide Accounted, Layout;
  }

  lemma ExampleAgrees()
    ensures Consistent(START, VPG)
  {
    DriveIsValid();
    hide ValidDoc, Free, Taken;
    assert Pos(START.chunks, 0, 0, 0) && At(START.chunks, 0, 0, 0) == UNUSED;
    forall d, u | ReservedOf(START, VPG, d, u)
      ensures exists c, p, k :: Pos(START.chunks, c, p, k) && At(START.chunks, c, p, k) == START.drives[d].segs[u]
    {
    }
    assert ChunksComplete(START, VPG);
    assert VolumesComplete(START, VPG);
    assert SameOffsets(START, UNUSED, UNUSED);
  }

  lemma ExampleIsGood()
    ensures GoodJob(Example())
  {
    ExampleAgrees();
    var names := Example().names;
    forall u, i, v, j | names(u, i) == names(v, j) ensures u == v && i == j {
      NewNamesDiffer(u, i, v, j);
    }
    hide Consistent;
    assert FreshFor(START, names);
  }

  lemma ExampleRemoves()
    ensures GoodJob(Example()) && PlanOf(Example()).removals == [UNUSED] && 0 in Affected(Example())
  {
    ExampleIsGood();
    hide GoodJob, GroupsOf;
    assert START.chunks[..0] == [];
    assert Flatten([[UNUSED]]) == [UNUSED] by {
      assert [[UNUSED]][1..] == [];
    }
    assert FlagFor(PlanOf(Example()), UNUSED) == Removal;
    assert START.drives[0].segs[1] == UNUSED;
  }

  lemma ExampleIsEmptied(s: State)
    requires GoodJob(Example()) && PlanOf(Example()).removals == [UNUSED]
    requires Inv(Example(), s) && s.phase == Done && 0 in s.db.drives
    ensures s.db.drives[0].segs == map[] && s.db.drives[0].first == 0 && s.db.drives[0].last == 99
  {
    hide Inv, GoodJob, PlanOf, Affected;
    DoneDriveSettled(Example(), s, 0);
    DoneDriveBounds(s);
    var marked := Marked(DRIVE, PlanOf(Example())).segs;
    MarkedSettles(PlanOf(Example()));
    hide *;
    SettledUnique(marked, s.db.drives[0].segs, map[]);
  }

  lemma DoneDriveBounds(s: State)
    requires GoodJob(Example()) && Inv(Example(), s) && s.phase == Done && 0 in s.db.drives
    ensures s.db.drives[0].first == 0 && s.db.drives[0].last == 99 && Example().start == START
  {
    hide PlanOf, GoodJob, Affected, Ready, LeadsOn;
    assert DriveOnTheWay(Example(), 0, s.db.drives[0]);
  }

  lemma MarkedSettles(plan: Plan)
    requires plan.removals == [UNUSED]
    ensures IsSettled(Marked(DRIVE, plan).segs, map[])
  {
    var marked := Marked(DRIVE, plan).segs;
    assert marked.Keys == {1} && Flagged(marked[1]) && RepsOf(marked[1]) == [];
  }

  /** The failing input: every block of the drive is free in the end, and its cached largest range says none. */
  lemma ExampleForgets() returns (actions: seq<Action>, s: State)
    ensures Reaches(Example(), actions, s) && s.phase == Done
    ensures 0 in s.db.drives && s.db.drives[0].segs == map[] && LargestSegment(s.db.drives[0]).blocks >= 100
    ensures s.db.drives[0].largest == UNKNOWN_LARGEST
  {
    ExampleRemoves();
    actions, s := CrashForgets(Example(), 0);
    ReachedInv(Example(), actions, s);
    ExampleIsEmptied(s);
    hide *;
    AllFree(s.db.drives[0]);
  }

  lemma AllFree(d: DriveDoc)
    requires d.segs == map[] && d.first == 0 && d.last == 99
    ensures LargestSegment(d).blocks >= 100
  {
    assert BlocksOf(Range(0, 99)) <= Free(d);
    LargestIsLongest(d, Range(0, 99));
  }
}
