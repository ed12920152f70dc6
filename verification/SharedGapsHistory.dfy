/** Why all segments of a reserved pRaid are used at the same offsets: reserved space is handed out a whole
    pRaid at a time, at the first largest unused range of each drive, and given back a whole pRaid at a time. */
module SharedGapsHistory {
  import opened Ranges
  import opened Drives
  import opened DriveStore
  import opened Options
  import opened ReservedSpace
  import opened Chunks
  import opened Reclaim

  /** The reserved segments of pRaid `p` on a drive, in the order of its list. */
  function Mine(segs: seq<Segment>, vpg: VolumeID, p: Uuid): seq<Segment> {
    if segs == [] then []
    else
      var n := |segs| - 1;
      Mine(segs[..n], vpg, p) + if Offered(segs[n], vpg) && segs[n].pRaid == p then [segs[n]] else []
  }

  predicate DerivedFrom(t: Segment, s: Segment) {
    t.fromReserved && t.reservedUUID == s.uuid
  }

  /** A derived segment as seen from its reservation: which derived pRaid, at which offset, how long. */
  datatype Use = Use(pRaid: Uuid, offset: int, blocks: int)

  function UseBy(t: Segment, s: Segment): Use {
    Use(t.pRaid, t.lbs - s.lbs, t.Span().Blocks())
  }

  ghost function Uses(segs: seq<Segment>, s: Segment): set<Use> {
    set i | 0 <= i < |segs| && DerivedFrom(segs[i], s) :: UseBy(segs[i], s)
  }

  /** What a valid drive guarantees about its list. */
  ghost predicate SoundList(segs: seq<Segment>) {
    && (forall i | 0 <= i < |segs| :: segs[i].Span().Nonempty() && !(segs[i].isReserved && segs[i].fromReserved))
    && (forall i, j | 0 <= i < |segs| && 0 <= j < |segs| && i != j :: segs[i].uuid != segs[j].uuid)
    && (forall i, j | 0 <= i < |segs| && 0 <= j < |segs| && i != j
        && segs[i].isReserved :: BesideReserved(segs[i], segs[j]))
  }

  predicate BesideReserved(s: Segment, t: Segment) {
    if DerivedFrom(t, s) then t.Span().Within(s.Span()) else !t.Span().Meets(s.Span())
  }

  /** Any two drives of the pRaid hold as many of its segments, of the same lengths, used alike. */
  ghost predicate Alike(a: Listing, b: Listing, vpg: VolumeID, p: Uuid) {
    var r, s := Mine(a.segs, vpg, p), Mine(b.segs, vpg, p);
    && |r| == |s|
    && (forall j | 0 <= j < |r| ::
          r[j].Span().Blocks() == s[j].Span().Blocks() && Uses(a.segs, r[j]) == Uses(b.segs, s[j]))
  }

  ghost predicate UsedAlike(lists: seq<Listing>, vpg: VolumeID, p: Uuid) {
    && (forall k | 0 <= k < |lists| :: SoundList(lists[k].segs))
    && (forall k, l | 0 <= k < |lists| && 0 <= l < |lists| :: Alike(lists[k], lists[l], vpg, p))
  }

  // --------------------------------------------------------- mine, by position

  lemma {:induction false} MineHas(segs: seq<Segment>, vpg: VolumeID, p: Uuid)
    ensures forall s :: s in Mine(segs, vpg, p) <==> s in segs && Offered(s, vpg) && s.pRaid == p
    decreases |segs|
  {
    if segs != [] {
      MineHas(segs[..|segs| - 1], vpg, p);
      assert segs == segs[..|segs| - 1] + [segs[|segs| - 1]];
    }
  }

  lemma {:induction false} MineConcat(a: seq<Segment>, b: seq<Segment>, vpg: VolumeID, p: Uuid)
    ensures Mine(a + b, vpg, p) == Mine(a, vpg, p) + Mine(b, vpg, p)
    decreases |b|
  {
    if b == [] {
      assert a + b == a;
    } else {
      var n := |b| - 1;
      MineConcat(a, b[..n], vpg, p);
      assert (a + b)[..|a + b| - 1] == a + b[..n];
    }
  }

  // ----------------------------------------------- the gaps of a reserved pRaid

  ghost function GapsOf(all: seq<Segment>, disk: DiskID, rs: seq<Segment>): seq<Avail> {
    if rs == [] then [] else GapsOf(all, disk, rs[..|rs| - 1]) + UnusedIn(all, disk, rs[|rs| - 1])
  }

  lemma {:induction false} OnlyConcat(a: seq<Avail>, b: seq<Avail>, p: Uuid)
    ensures Only(a + b, p) == Only(a, p) + Only(b, p)
    decreases |b|
  {
    if b == [] {
      assert a + b == a;
    } else {
      var n := |b| - 1;
      OnlyConcat(a, b[..n], p);
      assert (a + b)[..|a + b| - 1] == a + b[..n];
    }
  }

  lemma {:induction false} OnlyAllOrNone(a: seq<Avail>, p: Uuid, q: Uuid)
    requires forall i | 0 <= i < |a| :: a[i].pRaid == q
    ensures Only(a, p) == if p == q then a else []
    decreases |a|
  {
    if a != [] {
      OnlyAllOrNone(a[..|a| - 1], p, q);
      assert a == a[..|a| - 1] + [a[|a| - 1]];
    }
  }

  lemma {:induction false} OnlyGaps(all: seq<Segment>, segs: seq<Segment>, disk: DiskID, vpg: VolumeID, p: Uuid)
    ensures Only(ReservedFree(all, segs, disk, vpg), p) == GapsOf(all, disk, Mine(segs, vpg, p))
    decreases |segs|
  {
    if segs != [] {
      var n := |segs| - 1;
      OnlyGaps(all, segs[..n], disk, vpg, p);
      var here := if Offered(segs[n], vpg) then UnusedIn(all, disk, segs[n]) else [];
      OnlyConcat(ReservedFree(all, segs[..n], disk, vpg), here, p);
      OnlyAllOrNone(here, p, segs[n].pRaid);
      hide UnusedIn;
      var mine := Mine(segs[..n], vpg, p);
      if Offered(segs[n], vpg) && segs[n].pRaid == p {
        assert Mine(segs, vpg, p) == mine + [segs[n]];
        assert (mine + [segs[n]])[..|mine|] == mine;
      } else {
        assert Mine(segs, vpg, p) == mine;
      }
    }
  }

  lemma {:induction false} FirstOfOnly(avails: seq<Avail>, p: Uuid)
    ensures FirstLargest(avails, p) == FirstLargest(Only(avails, p), p)
    decreases |avails|
  {
    if avails != [] {
      var n := |avails| - 1;
      FirstOfOnly(avails[..n], p);
      var only := Only(avails[..n], p);
      if avails[n].pRaid == p {
        assert Only(avails, p) == only + [avails[n]];
        assert (only + [avails[n]])[..|only|] == only;
      } else {
        assert Only(avails, p) == only;
      }
    }
  }

  /** Two ranges at the same place of matching reserved segments. */
  ghost predicate SamePlace(a: Avail, r: seq<Segment>, b: Avail, s: seq<Segment>) {
    a.Capacity() == b.Capacity() && a.pRaid == b.pRaid
    && exists j :: MatchAt(a, r, b, s, j)
  }

  ghost predicate MatchAt(a: Avail, r: seq<Segment>, b: Avail, s: seq<Segment>, j: int) {
    0 <= j < |r| && j < |s| && a.reserved == r[j].uuid && b.reserved == s[j].uuid
        && a.lbs - r[j].lbs == b.lbs - s[j].lbs
  }

  ghost predicate Parallel(a: seq<Avail>, r: seq<Segment>, b: seq<Avail>, s: seq<Segment>) {
    |a| == |b| && forall x | 0 <= x < |a| :: SamePlace(a[x], r, b[x], s)
  }

  /** On matching lists the same position is picked. */
  lemma {:induction false} SamePick(a: seq<Avail>, r: seq<Segment>, b: seq<Avail>, s: seq<Segment>, p: Uuid)
    requires Parallel(a, r, b, s)
    ensures FirstLargest(a, p).Some? <==> FirstLargest(b, p).Some?
    ensures FirstLargest(a, p).Some? ==> SamePlace(FirstLargest(a, p).value, r, FirstLargest(b, p).value, s)
    decreases |a|
  {
    if a != [] {
      var n := |a| - 1;
      SamePick(a[..n], r, b[..n], s, p);
      assert SamePlace(a[n], r, b[n], s);
    }
  }

  // ------------------------------------------------ equal use, equal gaps

  /** Inside a reserved segment exactly the derived segments that name it are in the way. */
  lemma UnusedByUses(segs: seq<Segment>, s: Segment, b: int)
    requires SoundList(segs) && s in segs && s.isReserved && s.Span().Has(b)
    ensures b in Unused(segs, s) <==> !exists u :: u in Uses(segs, s) && u.offset <= b - s.lbs < u.offset + u.blocks
  {
    PlainSpansCover(segs);
    var k :| 0 <= k < |segs| && segs[k] == s;
    if i :| 0 <= i < |segs| && !segs[i].isReserved && segs[i].Span().Has(b) {
      assert BesideReserved(segs[k], segs[i]);
      var u := UseBy(segs[i], s);
      assert u in Uses(segs, s) && u.offset <= b - s.lbs < u.offset + u.blocks;
    }
    if u :| u in Uses(segs, s) && u.offset <= b - s.lbs < u.offset + u.blocks {
      var i :| 0 <= i < |segs| && DerivedFrom(segs[i], s) && UseBy(segs[i], s) == u;
      assert !segs[i].isReserved && segs[i].Span().Has(b);
    }
  }

  lemma SameUnused(a: seq<Segment>, r: Segment, b: seq<Segment>, s: Segment)
    requires SoundList(a) && SoundList(b) && r in a && s in b && r.isReserved && s.isReserved
    requires r.Span().Blocks() == s.Span().Blocks() && Uses(a, r) == Uses(b, s)
    ensures forall x :: x in Unused(a, r) <==> x + (s.lbs - r.lbs) in Unused(b, s)
  {
    forall x ensures x in Unused(a, r) <==> x + (s.lbs - r.lbs) in Unused(b, s) {
      if r.Span().Has(x) {
        UnusedByUses(a, r, x);
        UnusedByUses(b, s, x + (s.lbs - r.lbs));
      }
    }
  }

  lemma SameGaps(a: Listing, r: Segment, b: Listing, s: Segment)
    requires SoundList(a.segs) && SoundList(b.segs) && r in a.segs && s in b.segs && r.isReserved && s.isReserved
    requires r.Span().Blocks() == s.Span().Blocks() && Uses(a.segs, r) == Uses(b.segs, s) && r.pRaid == s.pRaid
    ensures var x, y := UnusedIn(a.segs, a.disk, r), UnusedIn(b.segs, b.disk, s);
            && |x| == |y|
            && (forall i | 0 <= i < |x| ::
                  && x[i].reserved == r.uuid && y[i].reserved == s.uuid && x[i].pRaid == y[i].pRaid
                  && x[i].lbs - r.lbs == y[i].lbs - s.lbs && x[i].Capacity() == y[i].Capacity())
  {
    SameUnused(a.segs, r, b.segs, s);
    var d := s.lbs - r.lbs;
    RunsShift(RunsOf(Unused(a.segs, r)), Unused(a.segs, r), Unused(b.segs, s), d);
    RunsUnique(ShiftAll(RunsOf(Unused(a.segs, r)), d), RunsOf(Unused(b.segs, s)), Unused(b.segs, s));
  }

  lemma {:induction false} ParallelGaps(a: Listing, r: seq<Segment>, b: Listing, s: seq<Segment>, n: nat)
    requires SoundList(a.segs) && SoundList(b.segs) && |r| == |s| && n <= |r|
    requires forall j | 0 <= j < |r| ::
               && r[j] in a.segs && s[j] in b.segs && r[j].isReserved && s[j].isReserved && r[j].pRaid == s[j].pRaid
               && r[j].Span().Blocks() == s[j].Span().Blocks() && Uses(a.segs, r[j]) == Uses(b.segs, s[j])
    ensures Parallel(GapsOf(a.segs, a.disk, r[..n]), r, GapsOf(b.segs, b.disk, s[..n]), s)
    decreases n
  {
    hide UnusedIn, Uses, SoundList;
    if n > 0 {
      ParallelGaps(a, r, b, s, n - 1);
      assert r[..n][..n - 1] == r[..n - 1] && s[..n][..n - 1] == s[..n - 1];
      SameGaps(a, r[n - 1], b, s[n - 1]);
      var x, y := UnusedIn(a.segs, a.disk, r[n - 1]), UnusedIn(b.segs, b.disk, s[n - 1]);
      forall i | 0 <= i < |x| ensures SamePlace(x[i], r, y[i], s) {
        assert MatchAt(x[i], r, y[i], s, n - 1);
      }
    }
  }

  /** The heart of it: all drives of a pRaid offer the same offset. */
  lemma OfferedAlike(a: Listing, b: Listing, vpg: VolumeID, p: Uuid)
    requires SoundList(a.segs) && SoundList(b.segs) && Alike(a, b, vpg, p)
    ensures var x, y := FirstLargest(AvailOn(a, vpg), p), FirstLargest(AvailOn(b, vpg), p);
            && (x.Some? <==> y.Some?)
            && (x.Some? ==> SamePlace(x.value, Mine(a.segs, vpg, p), y.value, Mine(b.segs, vpg, p)))
  {
    var r, s := Mine(a.segs, vpg, p), Mine(b.segs, vpg, p);
    MineHas(a.segs, vpg, p);
    MineHas(b.segs, vpg, p);
    forall j | 0 <= j < |r|
      ensures r[j] in a.segs && s[j] in b.segs && r[j].isReserved && s[j].isReserved && r[j].pRaid == s[j].pRaid
    {
      assert r[j] in r && s[j] in s;
    }
    hide SoundList, Uses, Parallel;
    ParallelGaps(a, r, b, s, |r|);
    assert r[..|r|] == r && s[..|s|] == s;
    OnlyGaps(a.segs, a.segs, a.disk, vpg, p);
    OnlyGaps(b.segs, b.segs, b.disk, vpg, p);
    FirstOfOnly(AvailOn(a, vpg), p);
    FirstOfOnly(AvailOn(b, vpg), p);
    SamePick(GapsOf(a.segs, a.disk, r), r, GapsOf(b.segs, b.disk, s), s, p);
  }

  // -------------------------------------------------------------------- steps

  /** What one drive of the pRaid sees of an allocation: a segment at the start of its first largest range. */
  ghost predicate TakesAt(a: Listing, b: Listing, vpg: VolumeID, p: Uuid, q: Uuid, blocks: int) {
    var pick := FirstLargest(AvailOn(a, vpg), p);
    && pick.Some? && b.disk == a.disk && |b.segs| == |a.segs| + 1 && b.segs == a.segs + [b.segs[|a.segs|]]
    && var t := b.segs[|a.segs|];
    && 1 <= blocks <= pick.value.Capacity() + 1
    && t.Span() == Range(pick.value.lbs, pick.value.lbs + blocks - 1)
    && t.fromReserved && !t.isReserved && t.reservedUUID == pick.value.reserved && t.pRaid == q
    && (forall i | 0 <= i < |a.segs| :: a.segs[i].uuid != t.uuid)
  }

  /** A derived pRaid is placed on all drives of the reserved pRaid, with one length. */
  ghost predicate Allocates(a: seq<Listing>, b: seq<Listing>, vpg: VolumeID, p: Uuid, q: Uuid, blocks: int) {
    |a| == |b| && forall k | 0 <= k < |a| :: TakesAt(a[k], b[k], vpg, p, q, blocks)
  }

  function KeepPRaids(segs: seq<Segment>, gone: set<Uuid>): seq<Segment> {
    if segs == [] then []
    else
      var n := |segs| - 1;
      KeepPRaids(segs[..n], gone) + if !segs[n].isReserved && segs[n].pRaid in gone then [] else [segs[n]]
  }

  /** Volumes are deleted whole: each of their pRaids disappears from all drives. */
  ghost predicate Deletes(a: seq<Listing>, b: seq<Listing>, gone: set<Uuid>) {
    |a| == |b| && forall k | 0 <= k < |a| :: b[k] == Listing(a[k].disk, KeepPRaids(a[k].segs, gone))
  }

  /** Anything else on the drives: other volumes, other reservations. */
  ghost predicate Untouched(a: Listing, b: Listing, vpg: VolumeID, p: Uuid) {
    && b.disk == a.disk && SoundList(b.segs) && Mine(b.segs, vpg, p) == Mine(a.segs, vpg, p)
    && (forall s | s in Mine(a.segs, vpg, p) :: Uses(b.segs, s) == Uses(a.segs, s))
  }

  ghost predicate Elsewhere(a: seq<Listing>, b: seq<Listing>, vpg: VolumeID, p: Uuid) {
    |a| == |b| && forall k | 0 <= k < |a| :: Untouched(a[k], b[k], vpg, p)
  }

  datatype Move = Allocate(q: Uuid, blocks: int) | Delete(gone: set<Uuid>) | Other

  ghost predicate Step(a: seq<Listing>, b: seq<Listing>, vpg: VolumeID, p: Uuid, m: Move) {
    match m
    case Allocate(q, blocks) => Allocates(a, b, vpg, p, q, blocks)
    case Delete(gone) => Deletes(a, b, gone)
    case Other => Elsewhere(a, b, vpg, p)
  }

  ghost predicate IsHistory(states: seq<seq<Listing>>, moves: seq<Move>, vpg: VolumeID, p: Uuid) {
    && |states| == |moves| + 1
    && (forall i | 0 <= i < |moves| :: Step(states[i], states[i + 1], vpg, p, moves[i]))
  }

  // ------------------------------------------------------- every step keeps it

  lemma {:induction false} MineDistinct(segs: seq<Segment>, vpg: VolumeID, p: Uuid)
    requires SoundList(segs)
    ensures forall i, j | 0 <= i < j < |Mine(segs, vpg, p)| :: Mine(segs, vpg, p)[i].uuid != Mine(segs, vpg, p)[j].uuid
    decreases |segs|
  {
    if segs != [] {
      var n := |segs| - 1;
      SoundPrefix(segs, n);
      MineDistinct(segs[..n], vpg, p);
      MineHas(segs[..n], vpg, p);
      var mine := Mine(segs[..n], vpg, p);
      forall i | 0 <= i < |mine| ensures mine[i].uuid != segs[n].uuid {
        assert mine[i] in mine;
        assert mine[i] in segs[..n];
      }
    }
  }

  lemma SoundPrefix(segs: seq<Segment>, n: int)
    requires SoundList(segs) && 0 <= n <= |segs|
    ensures SoundList(segs[..n])
  {
  }

  lemma UsesPush(segs: seq<Segment>, t: Segment, s: Segment)
    ensures Uses(segs + [t], s) == Uses(segs, s) + if DerivedFrom(t, s) then {UseBy(t, s)} else {}
  {
    var all := segs + [t];
    forall u ensures u in Uses(all, s) <==> u in Uses(segs, s) || (DerivedFrom(t, s) && u == UseBy(t, s)) {
      if u in Uses(segs, s) {
        var i :| 0 <= i < |segs| && DerivedFrom(segs[i], s) && UseBy(segs[i], s) == u;
        assert all[i] == segs[i];
      }
      if DerivedFrom(t, s) && u == UseBy(t, s) {
        assert all[|segs|] == t;
      }
    }
  }

  /** The picked range lies in a reserved segment of the list and clear of everything not reserved. */
  lemma PickedClear(a: Listing, vpg: VolumeID, p: Uuid) returns (k: int)
    requires FirstLargest(AvailOn(a, vpg), p).Some?
    ensures InUnused(a, vpg, FirstLargest(AvailOn(a, vpg), p).value, k)
  {
    FirstLargestIs(AvailOn(a, vpg), p);
    PicksExact(AvailOn(a, vpg), FirstLargest(AvailOn(a, vpg), p).value);
    hide AvailOn, FirstLargest, InUnused, Picks;
    k := PickIsUnused(a, vpg, FirstLargest(AvailOn(a, vpg), p).value);
  }

  lemma NotReservedNotMine(segs: seq<Segment>, t: Segment, vpg: VolumeID, p: Uuid)
    requires !t.isReserved
    ensures Mine(segs + [t], vpg, p) == Mine(segs, vpg, p)
  {
    MineConcat(segs, [t], vpg, p);
    assert [t][..0] == [];
    assert Mine([t], vpg, p) == [];
  }

  lemma TakenBeside(a: Listing, vpg: VolumeID, pick: Avail, k: int, t: Segment, i: int)
    requires SoundList(a.segs) && InUnused(a, vpg, pick, k) && 0 <= i < |a.segs| && a.segs[i].isReserved
    requires t.Span().Nonempty() && t.Span().Within(pick.Span()) && t.fromReserved && t.reservedUUID == pick.reserved
    ensures BesideReserved(a.segs[i], t)
  {
    if i != k {
      assert BesideReserved(a.segs[i], a.segs[k]);
    }
  }

  lemma TakenSound(a: Listing, b: Listing, vpg: VolumeID, p: Uuid, q: Uuid, blocks: int)
    requires SoundList(a.segs) && TakesAt(a, b, vpg, p, q, blocks)
    ensures SoundList(b.segs) && Mine(b.segs, vpg, p) == Mine(a.segs, vpg, p)
  {
    var t := b.segs[|a.segs|];
    var pick := FirstLargest(AvailOn(a, vpg), p).value;
    NotReservedNotMine(a.segs, t, vpg, p);
    var k := PickedClear(a, vpg, p);
    hide AvailOn, FirstLargest, Mine, SoundList, InUnused, BesideReserved;
    forall i | 0 <= i < |a.segs| && a.segs[i].isReserved ensures BesideReserved(a.segs[i], t) {
      TakenBeside(a, vpg, pick, k, t, i);
    }
    SoundPush(a.segs, t);
  }

  lemma TakenAlike(a: Listing, b: Listing, c: Listing, d: Listing, vpg: VolumeID, p: Uuid, q: Uuid, blocks: int)
    requires SoundList(a.segs) && SoundList(c.segs) && Alike(a, c, vpg, p)
    requires TakesAt(a, b, vpg, p, q, blocks) && TakesAt(c, d, vpg, p, q, blocks)
    ensures Alike(b, d, vpg, p)
  {
    TakenSound(a, b, vpg, p, q, blocks);
    TakenSound(c, d, vpg, p, q, blocks);
    OfferedAlike(a, c, vpg, p);
    MineDistinct(a.segs, vpg, p);
    MineDistinct(c.segs, vpg, p);
    hide SoundList, Uses, Mine, FirstLargest, AvailOn;
    var r, s := Mine(a.segs, vpg, p), Mine(c.segs, vpg, p);
    var x, y := FirstLargest(AvailOn(a, vpg), p).value, FirstLargest(AvailOn(c, vpg), p).value;
    var j0 :| MatchAt(x, r, y, s, j0);
    forall j | 0 <= j < |r| ensures Uses(b.segs, r[j]) == Uses(d.segs, s[j]) {
      UsesPush(a.segs, b.segs[|a.segs|], r[j]);
      UsesPush(c.segs, d.segs[|c.segs|], s[j]);
      assert r[j].uuid == r[j0].uuid <==> j == j0;
      assert s[j].uuid == s[j0].uuid <==> j == j0;
    }
  }

  lemma {:induction false} KeepHas(segs: seq<Segment>, gone: set<Uuid>)
    ensures forall t :: t in KeepPRaids(segs, gone) <==> t in segs && (t.isReserved || t.pRaid !in gone)
    decreases |segs|
  {
    if segs != [] {
      KeepHas(segs[..|segs| - 1], gone);
      assert segs == segs[..|segs| - 1] + [segs[|segs| - 1]];
    }
  }

  lemma {:induction false} KeepMine(segs: seq<Segment>, gone: set<Uuid>, vpg: VolumeID, p: Uuid)
    ensures Mine(KeepPRaids(segs, gone), vpg, p) == Mine(segs, vpg, p)
    decreases |segs|
  {
    if segs != [] {
      var n := |segs| - 1;
      KeepMine(segs[..n], gone, vpg, p);
      var rest := KeepPRaids(segs[..n], gone);
      if !segs[n].isReserved && segs[n].pRaid in gone {
        assert KeepPRaids(segs, gone) == rest;
      } else {
        assert KeepPRaids(segs, gone) == rest + [segs[n]];
        assert (rest + [segs[n]])[..|rest|] == rest;
      }
    }
  }

  lemma {:induction false} KeepSound(segs: seq<Segment>, gone: set<Uuid>)
    requires SoundList(segs)
    ensures SoundList(KeepPRaids(segs, gone))
    decreases |segs|
  {
    if segs != [] {
      var n := |segs| - 1;
      SoundPrefix(segs, n);
      KeepSound(segs[..n], gone);
      KeepHas(segs[..n], gone);
      var rest := KeepPRaids(segs[..n], gone);
      forall i | 0 <= i < |rest|
        ensures rest[i].uuid != segs[n].uuid
        ensures rest[i].isReserved ==> BesideReserved(rest[i], segs[n])
        ensures segs[n].isReserved ==> BesideReserved(segs[n], rest[i])
      {
        assert rest[i] in rest;
        var k :| 0 <= k < n && segs[..n][k] == rest[i];
      }
      SoundPush(rest, segs[n]);
    }
  }

  lemma SoundPush(segs: seq<Segment>, t: Segment)
    requires SoundList(segs) && t.Span().Nonempty() && !(t.isReserved && t.fromReserved)
    requires forall i | 0 <= i < |segs| ::
               && segs[i].uuid != t.uuid
               && (segs[i].isReserved ==> BesideReserved(segs[i], t))
               && (t.isReserved ==> BesideReserved(t, segs[i]))
    ensures SoundList(segs + [t])
  {
  }

  lemma KeepUses(segs: seq<Segment>, gone: set<Uuid>, s: Segment)
    requires SoundList(segs)
    ensures forall u :: u in Uses(KeepPRaids(segs, gone), s) <==> u in Uses(segs, s) && u.pRaid !in gone
  {
    var kept := KeepPRaids(segs, gone);
    KeepHas(segs, gone);
    forall u ensures u in Uses(kept, s) <==> u in Uses(segs, s) && u.pRaid !in gone {
      if u in Uses(kept, s) {
        var i :| 0 <= i < |kept| && DerivedFrom(kept[i], s) && UseBy(kept[i], s) == u;
        assert kept[i] in segs;
        var k :| 0 <= k < |segs| && segs[k] == kept[i];
        assert DerivedFrom(segs[k], s);
      }
      if u in Uses(segs, s) && u.pRaid !in gone {
        var k :| 0 <= k < |segs| && DerivedFrom(segs[k], s) && UseBy(segs[k], s) == u;
        assert segs[k] in kept;
        var i :| 0 <= i < |kept| && kept[i] == segs[k];
        assert DerivedFrom(kept[i], s);
      }
    }
  }

  lemma DeletedAlike(a: Listing, c: Listing, vpg: VolumeID, p: Uuid, gone: set<Uuid>)
    requires SoundList(a.segs) && SoundList(c.segs) && Alike(a, c, vpg, p)
    ensures Alike(Listing(a.disk, KeepPRaids(a.segs, gone)), Listing(c.disk, KeepPRaids(c.segs, gone)), vpg, p)
  {
    KeepMine(a.segs, gone, vpg, p);
    KeepMine(c.segs, gone, vpg, p);
    hide SoundList, Uses, Mine, KeepPRaids;
    var r, s := Mine(a.segs, vpg, p), Mine(c.segs, vpg, p);
    forall j | 0 <= j < |r| ensures Uses(KeepPRaids(a.segs, gone), r[j]) == Uses(KeepPRaids(c.segs, gone), s[j]) {
      KeepUses(a.segs, gone, r[j]);
      KeepUses(c.segs, gone, s[j]);
    }
  }

  lemma UntouchedAlike(a: Listing, b: Listing, c: Listing, d: Listing, vpg: VolumeID, p: Uuid)
    requires Alike(a, c, vpg, p) && Untouched(a, b, vpg, p) && Untouched(c, d, vpg, p)
    ensures Alike(b, d, vpg, p)
  {
    hide SoundList, Uses, Mine;
    var r, s := Mine(a.segs, vpg, p), Mine(c.segs, vpg, p);
    forall j | 0 <= j < |r| ensures Uses(b.segs, r[j]) == Uses(d.segs, s[j]) {
      assert r[j] in r && s[j] in s;
    }
  }

  lemma StepKeepsUsedAlike(a: seq<Listing>, b: seq<Listing>, vpg: VolumeID, p: Uuid, m: Move)
    requires UsedAlike(a, vpg, p) && Step(a, b, vpg, p, m)
    ensures UsedAlike(b, vpg, p)
  {
    hide SoundList, Alike, TakesAt, KeepPRaids;
    forall k | 0 <= k < |b| ensures SoundList(b[k].segs) {
      match m
      case Allocate(q, blocks) => TakenSound(a[k], b[k], vpg, p, q, blocks);
      case Delete(gone) => KeepSound(a[k].segs, gone);
      case Other => assert Untouched(a[k], b[k], vpg, p);
    }
    forall k, l | 0 <= k < |b| && 0 <= l < |b| ensures Alike(b[k], b[l], vpg, p) {
      assert Alike(a[k], a[l], vpg, p);
      match m
      case Allocate(q, blocks) => TakenAlike(a[k], b[k], a[l], b[l], vpg, p, q, blocks);
      case Delete(gone) => DeletedAlike(a[k], a[l], vpg, p, gone);
      case Other => UntouchedAlike(a[k], b[k], a[l], b[l], vpg, p);
    }
  }

  /** Over every history of allocations from the reservation, deletions of whole volumes and changes
      elsewhere, all drives of the pRaid stay used alike. */
  lemma {:induction false} HistoryKeepsUsedAlike(states: seq<seq<Listing>>, moves: seq<Move>, vpg: VolumeID, p: Uuid,
                                                n: nat)
    requires IsHistory(states, moves, vpg, p) && UsedAlike(states[0], vpg, p) && n <= |moves|
    ensures UsedAlike(states[n], vpg, p)
    decreases n
  {
    if n > 0 {
      HistoryKeepsUsedAlike(states, moves, vpg, p, n - 1);
      hide UsedAlike, Step;
      StepKeepsUsedAlike(states[n - 1], states[n], vpg, p, moves[n - 1]);
    }
  }

  // ----------------------------------------------- what the reclaim may assume

  /** The list of a stored drive. */
  ghost predicate ListOf(segs: seq<Segment>, d: DriveDoc) {
    Lists(segs, d.segs)
  }

  lemma ValidIsSound(segs: seq<Segment>, d: DriveDoc)
    requires ValidDoc(d) && ListOf(segs, d)
    ensures SoundList(segs)
  {
    forall i | 0 <= i < |segs| ensures WellPlaced(d, segs[i]) {
      assert segs[i].uuid in d.segs && d.segs[segs[i].uuid] == segs[i];
    }
    forall i, j | 0 <= i < |segs| && 0 <= j < |segs| && i != j
           && segs[i].isReserved ensures BesideReserved(segs[i], segs[j]) {
      assert segs[i].uuid in d.segs && segs[j].uuid in d.segs;
      if segs[j].Span().Meets(segs[i].Span()) {
        OthersOnReserved(d, segs[i].uuid, segs[j].uuid, Max(segs[i].lbs, segs[j].lbs));
      }
    }
  }

  lemma UsesAreUse(db: Db, segs: seq<Segment>, s: Segment, b: int)
    requires s.diskID in db.drives && ValidDoc(db.drives[s.diskID]) && ListOf(segs, db.drives[s.diskID])
    ensures b in UsedOf(db, s) <==> exists u :: u in Uses(segs, s) && u.offset <= b - s.lbs < u.offset + u.blocks
  {
    var d := db.drives[s.diskID];
    if b in UsedOf(db, s) {
      var x := UseWitness(db, s, b);
      assert d.segs[x] in segs;
      var i :| 0 <= i < |segs| && segs[i] == d.segs[x];
      assert DerivedFrom(segs[i], s);
      var u := UseBy(segs[i], s);
      assert u in Uses(segs, s) && u.offset <= b - s.lbs < u.offset + u.blocks;
    }
    if u :| u in Uses(segs, s) && u.offset <= b - s.lbs < u.offset + u.blocks {
      var i :| 0 <= i < |segs| && DerivedFrom(segs[i], s) && UseBy(segs[i], s) == u;
      assert segs[i].uuid in d.segs && d.segs[segs[i].uuid] == segs[i];
      assert WellPlaced(d, segs[i]);
      assert UsedAt(d.segs, s.uuid, b);
    }
  }

  /** A reserved chunk of one pRaid, and the drive lists its history left behind. */
  datatype Backing = Backing(pRaid: Uuid, place: int, lists: seq<Listing>)

  /** The segments of the chunk are the `place`-th reserved ones of their pRaid on each drive. */
  ghost predicate Holds(db: Db, vpg: VolumeID, c: Chunk, lists: seq<Listing>, p: Uuid, place: int) {
    && |c.pRaids| == 1 && |lists| == |c.pRaids[0]|
    && (forall i | 0 <= i < |lists| ::
          var s := c.pRaids[0][i];
          && s.diskID in db.drives && ListOf(lists[i].segs, db.drives[s.diskID])
          && 0 <= place < |Mine(lists[i].segs, vpg, p)| && Mine(lists[i].segs, vpg, p)[place] == s)
  }

  ghost predicate Backs(db: Db, vpg: VolumeID, c: Chunk, k: Backing) {
    UsedAlike(k.lists, vpg, k.pRaid) && Holds(db, vpg, c, k.lists, k.pRaid, k.place)
  }

  lemma SameUsesShare(db: Db, a: seq<Segment>, s: Segment, b: seq<Segment>, t: Segment)
    requires s.diskID in db.drives && ValidDoc(db.drives[s.diskID]) && ListOf(a, db.drives[s.diskID])
    requires t.diskID in db.drives && ValidDoc(db.drives[t.diskID]) && ListOf(b, db.drives[t.diskID])
    requires Uses(a, s) == Uses(b, t)
    ensures SameOffsets(db, s, t)
  {
    hide Uses, ValidDoc, UsedOf, ListOf;
    forall x ensures x in UsedOf(db, s) <==> x + (t.lbs - s.lbs) in UsedOf(db, t) {
      UsesAreUse(db, a, s, x);
      UsesAreUse(db, b, t, x + (t.lbs - s.lbs));
      assert x - s.lbs == x + (t.lbs - s.lbs) - t.lbs;
    }
  }

  lemma BackedDrive(db: Db, vpg: VolumeID, c: Chunk, k: Backing, i: int)
    requires DrivesSound(db.drives) && Backs(db, vpg, c, k) && 0 <= i < |k.lists|
    ensures var s := c.pRaids[0][i];
            && s.diskID in db.drives && ValidDoc(db.drives[s.diskID]) && ListOf(k.lists[i].segs, db.drives[s.diskID])
            && 0 <= k.place < |Mine(k.lists[i].segs, vpg, k.pRaid)| && Mine(k.lists[i].segs, vpg, k.pRaid)[k.place] == s
  {
    hide UsedAlike, ValidDoc, ListOf, Mine;
  }

  lemma BackedAlike(db: Db, vpg: VolumeID, c: Chunk, k: Backing, i: int, j: int)
    requires Backs(db, vpg, c, k) && 0 <= i < |k.lists| && 0 <= j < |k.lists|
    ensures Alike(k.lists[i], k.lists[j], vpg, k.pRaid)
  {
    hide ListOf, Mine, Alike, SoundList;
  }

  lemma AlikeSharesOffsets(db: Db, vpg: VolumeID, c: Chunk, k: Backing, i: int, j: int)
    requires DrivesSound(db.drives) && Backs(db, vpg, c, k) && 0 <= i < |k.lists| && 0 <= j < |k.lists|
    ensures SameOffsets(db, c.pRaids[0][i], c.pRaids[0][j])
  {
    BackedDrive(db, vpg, c, k, i);
    BackedDrive(db, vpg, c, k, j);
    BackedAlike(db, vpg, c, k, i, j);
    hide Uses, ValidDoc, UsedOf, ListOf, DrivesSound, Mine, Backs;
    SameUsesShare(db, k.lists[i].segs, c.pRaids[0][i], k.lists[j].segs, c.pRaids[0][j]);
  }

  /** The assumption a reclaim rests on holds for chunks of one pRaid whose drives share a history. */
  lemma SharedGapsHold(db: Db, vpg: VolumeID, backings: seq<Backing>)
    requires DrivesSound(db.drives) && |backings| == |db.chunks|
    requires forall c | 0 <= c < |db.chunks| :: Backs(db, vpg, db.chunks[c], backings[c])
    ensures SharedGaps(db)
  {
    hide UsedAlike, Uses, SameOffsets, DrivesSound, UsedOf;
    forall c, p, k | Pos(db.chunks, c, p, k) && HasRef(db.chunks[c])
      ensures SameOffsets(db, Ref(db.chunks[c]), At(db.chunks, c, p, k))
    {
      AlikeSharesOffsets(db, vpg, db.chunks[c], backings[c], 0, k);
    }
  }

  /** Drives that hold one reserved segment of a pRaid each, all of one length and none of it used yet,
      are alike: this is where every history starts. */
  lemma FreshIsUsedAlike(lists: seq<Listing>, vpg: VolumeID, p: Uuid, blocks: int)
    requires forall k | 0 <= k < |lists| ::
               && SoundList(lists[k].segs)
               && |Mine(lists[k].segs, vpg, p)| == 1
               && Mine(lists[k].segs, vpg, p)[0].Span().Blocks() == blocks
               && Uses(lists[k].segs, Mine(lists[k].segs, vpg, p)[0]) == {}
    ensures UsedAlike(lists, vpg, p)
  {
    hide Mine, Uses, SoundList;
    forall k, l | 0 <= k < |lists| && 0 <= l < |lists| ensures Alike(lists[k], lists[l], vpg, p) {
      var r, s := Mine(lists[k].segs, vpg, p), Mine(lists[l].segs, vpg, p);
      assert r == [r[0]] && s == [s[0]];
    }
  }

  /** The drives of a pRaid when it was reserved: valid, one reserved segment of it on each, all of one length
      and none used yet. */
  ghost predicate Reserved(docs: seq<DriveDoc>, lists: seq<Listing>, vpg: VolumeID, p: Uuid, blocks: int) {
    && |docs| == |lists|
    && (forall k | 0 <= k < |lists| ::
          && ValidDoc(docs[k]) && ListOf(lists[k].segs, docs[k])
          && |Mine(lists[k].segs, vpg, p)| == 1
          && Mine(lists[k].segs, vpg, p)[0].Span().Blocks() == blocks
          && (forall u | u in docs[k].segs :: !DerivedFrom(docs[k].segs[u], Mine(lists[k].segs, vpg, p)[0])))
  }

  lemma ReservedIsUsedAlike(docs: seq<DriveDoc>, lists: seq<Listing>, vpg: VolumeID, p: Uuid, blocks: int)
    requires Reserved(docs, lists, vpg, p, blocks)
    ensures UsedAlike(lists, vpg, p)
  {
    hide ValidDoc, Mine, SoundList;
    forall k | 0 <= k < |lists|
      ensures SoundList(lists[k].segs) && Uses(lists[k].segs, Mine(lists[k].segs, vpg, p)[0]) == {}
    {
      ValidIsSound(lists[k].segs, docs[k]);
      forall i | 0 <= i < |lists[k].segs| ensures !DerivedFrom(lists[k].segs[i], Mine(lists[k].segs, vpg, p)[0]) {
        assert lists[k].segs[i].uuid in docs[k].segs && docs[k].segs[lists[k].segs[i].uuid] == lists[k].segs[i];
      }
    }
    FreshIsUsedAlike(lists, vpg, p, blocks);
  }

  // --------------------------------------- the selection takes every drive

  ghost function DisksOf(avails: seq<Avail>): set<DiskID> {
    set i | 0 <= i < |avails| :: avails[i].diskID
  }

  lemma {:induction false} DisksCounted(avails: seq<Avail>, p: Uuid)
    requires DistinctKeys(avails) && forall a | a in avails :: a.pRaid == p
    ensures |DisksOf(avails)| == |avails|
    decreases |avails|
  {
    if avails != [] {
      var n := |avails| - 1;
      assert forall a | a in avails[..n] :: a in avails;
      DisksCounted(avails[..n], p);
      NewDisk(avails, p);
      DisksMore(avails);
      hide DisksOf, DistinctKeys;
    }
  }

  lemma NewDisk(avails: seq<Avail>, p: Uuid)
    requires DistinctKeys(avails) && avails != [] && forall a | a in avails :: a.pRaid == p
    ensures avails[|avails| - 1].diskID !in DisksOf(avails[..|avails| - 1])
  {
    var n := |avails| - 1;
    assert avails[n] in avails;
    forall i | 0 <= i < n ensures avails[..n][i].diskID != avails[n].diskID {
      assert avails[i] in avails;
    }
  }

  lemma DisksMore(avails: seq<Avail>)
    requires avails != []
    ensures DisksOf(avails) == DisksOf(avails[..|avails| - 1]) + {avails[|avails| - 1].diskID}
  {
    assert forall i | 0 <= i < |avails| - 1 :: avails[..|avails| - 1][i] == avails[i];
  }

  /** When the chosen chunk touches a reserved pRaid that lives on `size` drives, each of these drives
      contributes its first largest range: the step of a history. */
  lemma EveryDriveContributes(lists: seq<Listing>, vpg: VolumeID, size: nat, stripes: nat, a: Avail,
                              disks: set<DiskID>, i: int)
    requires size >= 1 && DistinctDisks(lists) && |disks| == size
    requires a in ReservedChunk(OffersFrom(lists, vpg), size, stripes)
    requires forall x, y | 0 <= x < |lists| && y in Mine(lists[x].segs, vpg, a.pRaid) :: lists[x].disk in disks
    requires 0 <= i < |lists| && lists[i].disk in disks
    ensures FirstLargest(AvailOn(lists[i], vpg), a.pRaid).Some?
    ensures FirstLargest(AvailOn(lists[i], vpg), a.pRaid).value in ReservedChunk(OffersFrom(lists, vpg), size, stripes)
  {
    var offers := OffersFrom(lists, vpg);
    ChunkTakesWholePRaids(offers, size, stripes);
    OffersKnown(lists, vpg);
    var only := Only(offers, a.pRaid);
    OnlyHas(offers, a.pRaid);
    OnlyDistinct(offers, a.pRaid);
    DisksCounted(only, a.pRaid);
    hide Only, OffersFrom, ReservedChunk, Mine, Picks, AvailOn, DistinctKeys;
    forall d | d in DisksOf(only) ensures d in disks {
      var x :| 0 <= x < |only| && only[x].diskID == d;
      assert only[x] in only;
      OfferedDisk(lists, vpg, only[x]);
    }
    SameWhenAll(DisksOf(only), disks);
    var x :| 0 <= x < |only| && only[x].diskID == lists[i].disk;
    assert only[x] in only;
    OfferedHere(lists, vpg, only[x], i);
  }

  lemma SameWhenAll(a: set<DiskID>, b: set<DiskID>)
    requires a <= b && |a| == |b|
    ensures a == b
  {
    var rest := b - a;
    assert |rest| == 0;
    assert forall y | y in b :: y in a || y in rest;
  }

  /** An offer comes from a drive that holds a reserved segment of its pRaid. */
  lemma OfferedDisk(lists: seq<Listing>, vpg: VolumeID, a: Avail)
    requires DistinctDisks(lists) && a in OffersFrom(lists, vpg)
    ensures exists x, y :: 0 <= x < |lists| && y in Mine(lists[x].segs, vpg, a.pRaid) && lists[x].disk == a.diskID
  {
    OffersKnown(lists, vpg);
    var x :| 0 <= x < |lists| && a in Picks(AvailOn(lists[x], vpg));
    var k := PickIsUnused(lists[x], vpg, a);
    MineHas(lists[x].segs, vpg, a.pRaid);
    assert lists[x].segs[k] in Mine(lists[x].segs, vpg, a.pRaid);
  }

  lemma OfferedHere(lists: seq<Listing>, vpg: VolumeID, a: Avail, i: int)
    requires DistinctDisks(lists) && a in OffersFrom(lists, vpg) && 0 <= i < |lists| && lists[i].disk == a.diskID
    ensures FirstLargest(AvailOn(lists[i], vpg), a.pRaid) == Some(a)
  {
    OffersKnown(lists, vpg);
    var x :| 0 <= x < |lists| && a in Picks(AvailOn(lists[x], vpg));
    PicksDistinct(lists[x], vpg);
    PicksExact(AvailOn(lists[x], vpg), a);
  }
}
