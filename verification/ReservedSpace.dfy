/** Unused space inside the reserved segments of a provisioning group, and the reserved chunk picked from
    it: per drive and reserved pRaid the largest unused range, then whole groups of one range per drive. */
module ReservedSpace {
  import opened Ranges
  import opened Drives
  import opened DriveStore
  import opened Options
  import opened Arith
  import opened Sorting

  /** An unused range of reserved segment `reserved`, which belongs to reserved pRaid `pRaid`. */
  datatype Avail = Avail(diskID: DiskID, pRaid: Uuid, reserved: Uuid, lbs: int, lbe: int) {
    function Span(): Range { Range(lbs, lbe) }
    function Capacity(): int { lbe - lbs }
    function Blocks(): int { if lbe == lbs then 0 else lbe - lbs + 1 }
  }

  predicate Offered(s: Segment, vpg: VolumeID) {
    s.isReserved && s.volume == vpg && s.pendingReclaim.Idle?
  }

  function PlainSpans(segs: seq<Segment>): seq<Range> {
    if segs == [] then []
    else PlainSpans(segs[..|segs| - 1]) + if segs[|segs| - 1].isReserved then [] else [segs[|segs| - 1].Span()]
  }

  lemma {:induction false} PlainSpansCover(segs: seq<Segment>)
    ensures forall b :: Covered(PlainSpans(segs), b) <==>
               exists i :: 0 <= i < |segs| && !segs[i].isReserved && segs[i].Span().Has(b)
    ensures (forall i | 0 <= i < |segs| :: segs[i].Span().Nonempty()) ==> AllNonempty(PlainSpans(segs))
    decreases |segs|
  {
    if segs != [] {
      var n := |segs| - 1;
      var init := segs[..n];
      PlainSpansCover(init);
      assert forall i | 0 <= i < n :: init[i] == segs[i];
      forall b ensures Covered(PlainSpans(segs), b)
             <==> Covered(PlainSpans(init), b) || (!segs[n].isReserved && segs[n].Span().Has(b)) {
        if !segs[n].isReserved {
          CoveredSnoc(PlainSpans(init), segs[n].Span(), b);
          assert PlainSpans(segs) == PlainSpans(init) + [segs[n].Span()];
        } else {
          assert PlainSpans(segs) == PlainSpans(init);
        }
      }
    }
  }

  lemma CoveredSnoc(rs: seq<Range>, r: Range, b: int)
    ensures Covered(rs + [r], b) <==> Covered(rs, b) || r.Has(b)
  {
    if Covered(rs, b) {
      var i :| 0 <= i < |rs| && rs[i].Has(b);
      assert (rs + [r])[i].Has(b);
    }
    if r.Has(b) {
      assert (rs + [r])[|rs|].Has(b);
    }
    if Covered(rs + [r], b) {
      var i :| 0 <= i < |rs + [r]| && (rs + [r])[i].Has(b);
      assert if i < |rs| then rs[i].Has(b) else r.Has(b);
    }
  }

  function Tagged(rs: seq<Range>, disk: DiskID, s: Segment): (r: seq<Avail>)
    ensures |r| == |rs|
    ensures forall i | 0 <= i < |r| :: r[i] == Avail(disk, s.pRaid, s.uuid, rs[i].lbs, rs[i].lbe)
  {
    seq(|rs|, i requires 0 <= i < |rs| => Avail(disk, s.pRaid, s.uuid, rs[i].lbs, rs[i].lbe))
  }

  ghost function Unused(all: seq<Segment>, s: Segment): set<int> {
    FreeBlocks(PlainSpans(all), s.lbs, s.lbe + 1)
  }

  ghost function UnusedIn(all: seq<Segment>, disk: DiskID, s: Segment): seq<Avail> {
    Tagged(RunsOf(Unused(all, s)), disk, s)
  }

  /** The unused ranges of the reserved segments of a group, in the order of the drive's list. */
  ghost function ReservedFree(all: seq<Segment>, segs: seq<Segment>, disk: DiskID, vpg: VolumeID): seq<Avail> {
    if segs == [] then []
    else
      var n := |segs| - 1;
      ReservedFree(all, segs[..n], disk, vpg) + if Offered(segs[n], vpg) then UnusedIn(all, disk, segs[n]) else []
  }

  method GetReservedSegments(diskSegments: seq<Segment>, disk: DiskID, vpg: VolumeID)
    returns (availableReserved: seq<Avail>)
    requires forall i | 0 <= i < |diskSegments| :: diskSegments[i].Span().Nonempty()
    ensures availableReserved == ReservedFree(diskSegments, diskSegments, disk, vpg)
  {
    hide IsRuns;
    availableReserved := [];
    PlainSpansCover(diskSegments);
    for i := 0 to |diskSegments|
      invariant availableReserved == ReservedFree(diskSegments, diskSegments[..i], disk, vpg)
    {
      var rs := diskSegments[i];
      assert diskSegments[..i + 1][..i] == diskSegments[..i];
      if Offered(rs, vpg) {
        assert rs.Span().Nonempty();
        var availableSegments := GetAvailableSegments(rs.lbs, rs.lbe + 1, PlainSpans(diskSegments));
        RunsUnique(availableSegments, RunsOf(Unused(diskSegments, rs)), Unused(diskSegments, rs));
        availableReserved := availableReserved + Tagged(availableSegments, disk, rs);
      }
    }
    assert diskSegments[..|diskSegments|] == diskSegments;
  }

  // ---------------------------------------------------------- picks per drive

  /** The first of the largest ranges of one reserved pRaid. */
  function FirstLargest(avails: seq<Avail>, p: Uuid): Option<Avail> {
    if avails == [] then None
    else
      var a := avails[|avails| - 1];
      var best := FirstLargest(avails[..|avails| - 1], p);
      if a.pRaid != p then best
      else if best.None? || a.Capacity() > best.value.Capacity() then Some(a)
      else best
  }

  /** Position `k` holds the first of the largest ranges of `p`. */
  ghost predicate FirstAt(avails: seq<Avail>, p: Uuid, k: int) {
    && 0 <= k < |avails| && avails[k].pRaid == p
    && (forall i | 0 <= i < |avails| && avails[i].pRaid == p ::
          avails[i].Capacity() <= avails[k].Capacity() && (i < k ==> avails[i].Capacity() < avails[k].Capacity()))
  }

  lemma FirstAtNext(avails: seq<Avail>, p: Uuid, k: int)
    requires avails != [] && FirstAt(avails[..|avails| - 1], p, k)
    ensures var a := avails[|avails| - 1];
            if a.pRaid == p && a.Capacity() > avails[k].Capacity() then FirstAt(avails, p,
               |avails| - 1) else FirstAt(avails, p, k)
  {
    assert forall i | 0 <= i < |avails| - 1 :: avails[..|avails| - 1][i] == avails[i];
  }

  lemma {:induction false} FirstLargestAt(avails: seq<Avail>, p: Uuid) returns (k: int)
    ensures FirstLargest(avails, p).None? <==> forall i | 0 <= i < |avails| :: avails[i].pRaid != p
    ensures FirstLargest(avails, p).Some? ==> FirstAt(avails, p, k) && avails[k] == FirstLargest(avails, p).value
    decreases |avails|
  {
    k := 0;
    if avails != [] {
      var n := |avails| - 1;
      k := FirstLargestAt(avails[..n], p);
      assert forall i | 0 <= i < n :: avails[..n][i] == avails[i];
      if FirstLargest(avails[..n], p).Some? {
        FirstAtNext(avails, p, k);
        k := if avails[n].pRaid == p && avails[n].Capacity() > avails[k].Capacity() then n else k;
      } else {
        k := n;
      }
    }
  }

  lemma FirstLargestIs(avails: seq<Avail>, p: Uuid)
    ensures FirstLargest(avails, p).None? <==> forall i | 0 <= i < |avails| :: avails[i].pRaid != p
    ensures FirstLargest(avails, p).Some? ==>
              var best := FirstLargest(avails, p).value;
              best.pRaid == p && exists k :: FirstAt(avails, p, k) && avails[k] == best
  {
    var k := FirstLargestAt(avails, p);
  }

  /** The reserved pRaids that occur, each once. */
  function PRaidsOf(avails: seq<Avail>): (r: seq<Uuid>)
    ensures forall i, j | 0 <= i < j < |r| :: r[i] != r[j]
    ensures forall p :: p in r <==> exists i :: 0 <= i < |avails| && avails[i].pRaid == p
  {
    if avails == [] then []
    else
      var init := avails[..|avails| - 1];
      var rest := PRaidsOf(init);
      assert forall i | 0 <= i < |init| :: init[i] == avails[i];
      if avails[|avails| - 1].pRaid in rest then rest else rest + [avails[|avails| - 1].pRaid]
  }

  /** For each reserved pRaid of a drive its first largest range. */
  function PicksFor(avails: seq<Avail>, ps: seq<Uuid>): (r: seq<Avail>)
    requires forall i | 0 <= i < |ps| :: FirstLargest(avails, ps[i]).Some?
    ensures |r| == |ps| && forall i | 0 <= i < |r| :: r[i] == FirstLargest(avails, ps[i]).value
  {
    seq(|ps|, i requires 0 <= i < |ps| => FirstLargest(avails, ps[i]).value)
  }

  function Picks(avails: seq<Avail>): (r: seq<Avail>)
    ensures |r| == |PRaidsOf(avails)|
    ensures forall i | 0 <= i < |r| :: FirstLargest(avails, PRaidsOf(avails)[i]) == Some(r[i])
  {
    assert forall i | 0 <= i < |PRaidsOf(avails)| :: FirstLargest(avails, PRaidsOf(avails)[i]).Some? by {
      forall i | 0 <= i < |PRaidsOf(avails)| ensures FirstLargest(avails, PRaidsOf(avails)[i]).Some? {
        FirstLargestIs(avails, PRaidsOf(avails)[i]);
        assert PRaidsOf(avails)[i] in PRaidsOf(avails);
      }
    }
    PicksFor(avails, PRaidsOf(avails))
  }

  lemma PicksExact(avails: seq<Avail>, a: Avail)
    ensures a in Picks(avails) <==> FirstLargest(avails, a.pRaid) == Some(a)
  {
    var ps := PRaidsOf(avails);
    if a in Picks(avails) {
      var i :| 0 <= i < |ps| && Picks(avails)[i] == a;
      FirstLargestIs(avails, ps[i]);
    }
    if FirstLargest(avails, a.pRaid) == Some(a) {
      FirstLargestIs(avails, a.pRaid);
      assert a.pRaid in ps;
      var i :| 0 <= i < |ps| && ps[i] == a.pRaid;
      assert Picks(avails)[i] == a;
    }
  }

  // ------------------------------------------------------- the reserved chunk

  function BlocksOfAvail(): Avail -> int {
    (a: Avail) => a.Blocks()
  }

  function SortDesc(avails: seq<Avail>): (r: seq<Avail>)
    ensures multiset(r) == multiset(avails)
  {
    BySize(avails, BlocksOfAvail())
  }

  lemma SortDescends(avails: seq<Avail>)
    ensures var r := SortDesc(avails); forall i, j | 0 <= i < j < |r| :: r[i].Blocks() >= r[j].Blocks()
  {
    BySizeDescends(avails, BlocksOfAvail());
    hide BySize;
    var r := SortDesc(avails);
    forall i, j | 0 <= i < j < |r| ensures r[i].Blocks() >= r[j].Blocks() {
      assert BlocksOfAvail()(r[i]) >= BlocksOfAvail()(r[j]);
    }
  }

  function Only(avails: seq<Avail>, p: Uuid): seq<Avail> {
    if avails == [] then []
    else Only(avails[..|avails| - 1], p) + if avails[|avails| - 1].pRaid == p then [avails[|avails| - 1]] else []
  }

  function FullGroups(avails: seq<Avail>, ps: seq<Uuid>, size: nat): seq<Avail> {
    if ps == [] then []
    else
      var group := Only(avails, ps[|ps| - 1]);
      FullGroups(avails, ps[..|ps| - 1], size) + if |group| == size then group else []
  }

  /** The tail of `getLargestReservedChunk`: largest ranges first, arranged by reserved pRaid, whole groups
      of `size` drives only, as many as the stripe width asks for. */
  function ReservedChunk(offers: seq<Avail>, size: nat, stripes: nat): seq<Avail> {
    MulMono(0, stripes, size);
    FirstOf(offers, size, stripes * size)
  }

  function FirstOf(offers: seq<Avail>, size: nat, numberOfDisks: nat): seq<Avail> {
    var sorted := SortDesc(offers);
    var segments := FullGroups(sorted, PRaidsOf(sorted), size);
    if |segments| > numberOfDisks then segments[..numberOfDisks] else segments
  }

  lemma {:induction false} OnlyHas(avails: seq<Avail>, p: Uuid)
    ensures forall a :: a in Only(avails, p) <==> a in avails && a.pRaid == p
    ensures multiset(Only(avails, p)) <= multiset(avails)
    decreases |avails|
  {
    if avails != [] {
      OnlyHas(avails[..|avails| - 1], p);
      assert avails == avails[..|avails| - 1] + [avails[|avails| - 1]];
    }
  }

  /** One offer per drive and reserved pRaid. */
  ghost predicate DistinctKeys(avails: seq<Avail>) {
    forall i, j | 0 <= i < j < |avails| :: avails[i].pRaid != avails[j].pRaid || avails[i].diskID != avails[j].diskID
  }

  function Row(x: nat, size: nat): nat
    requires size >= 1
  {
    x / size
  }

  function Head(x: nat, size: nat): (h: nat)
    requires size >= 1
    ensures h <= x
  {
    x - x % size
  }

  /** Position `x` lies in a run of `size` offers of one reserved pRaid, all of that pRaid. */
  ghost predicate Grouped(chunk: seq<Avail>, size: nat)
    requires size >= 1
  {
    && |chunk| % size == 0
    && (forall x | 0 <= x < |chunk| :: chunk[x].pRaid == chunk[Head(x, size)].pRaid)
    && (forall x, y | 0 <= x < |chunk| && 0 <= y < |chunk|
        && Row(x, size) != Row(y, size) :: chunk[x].pRaid != chunk[y].pRaid)
  }

  lemma PositionIn(n: nat, x: nat, size: nat)
    requires size >= 1 && n % size == 0 && x < n + size
    ensures n <= x ==> Head(x, size) == n && Row(x, size) == Row(n, size)
    ensures x < n ==> Row(x, size) < Row(n, size) && Head(x, size) < n
    ensures (n + size) % size == 0
  {
    Position(n, x, size);
    Multiple(n, size);
  }

  lemma GroupedSnoc(groups: seq<Avail>, group: seq<Avail>, p: Uuid, size: nat)
    requires size >= 1 && |group| == size && Grouped(groups, size)
    requires forall a | a in group :: a.pRaid == p
    requires forall a | a in groups :: a.pRaid != p
    ensures Grouped(groups + group, size)
  {
    var all, n := groups + group, |groups|;
    forall x | 0 <= x < |all|
      ensures n <= x ==> Head(x, size) == n && Row(x, size) == Row(n, size) && all[x].pRaid == p
      ensures x < n ==> Row(x, size) < Row(n, size) && Head(x, size) < n && all[x].pRaid != p && all[x] == groups[x]
    {
      PositionIn(n, x, size);
      assert n <= x ==> all[x] in group;
      assert x < n ==> all[x] in groups;
    }
    PositionIn(n, 0, size);
    hide Row, Head;
    forall x | 0 <= x < |all| ensures all[x].pRaid == all[Head(x, size)].pRaid {
      assert n <= x ==> all[n].pRaid == p;
    }
  }

  lemma {:induction false} FullGroupsHave(avails: seq<Avail>, ps: seq<Uuid>, size: nat)
    requires size >= 1 && forall i, j | 0 <= i < j < |ps| :: ps[i] != ps[j]
    ensures Grouped(FullGroups(avails, ps, size), size)
    ensures forall a :: a in FullGroups(avails, ps, size)
               <==> a in avails && a.pRaid in ps && |Only(avails, a.pRaid)| == size
    decreases |ps|
  {
    if ps != [] {
      var n := |ps| - 1;
      FullGroupsHave(avails, ps[..n], size);
      OnlyHas(avails, ps[n]);
      var prev, group := FullGroups(avails, ps[..n], size), Only(avails, ps[n]);
      assert forall p :: p in ps <==> p in ps[..n] || p == ps[n];
      if |group| == size {
        assert forall a | a in prev :: a.pRaid in ps[..n];
        GroupedSnoc(prev, group, ps[n], size);
      }
    }
  }

  lemma OnlyCount(a: seq<Avail>, b: seq<Avail>, p: Uuid)
    requires multiset(a) == multiset(b)
    ensures |Only(a, p)| == |Only(b, p)|
  {
    OnlyMultiset(a, p);
    OnlyMultiset(b, p);
    assert multiset(Only(a, p)) == multiset(Only(b, p));
    assert |multiset(Only(a, p))| == |Only(a, p)|;
    assert |multiset(Only(b, p))| == |Only(b, p)|;
  }

  lemma {:induction false} OnlyMultiset(a: seq<Avail>, p: Uuid)
    ensures forall x :: multiset(Only(a, p))[x] == if x.pRaid == p then multiset(a)[x] else 0
    decreases |a|
  {
    if a != [] {
      OnlyMultiset(a[..|a| - 1], p);
      assert a == a[..|a| - 1] + [a[|a| - 1]];
    }
  }

  lemma GroupedPrefix(chunk: seq<Avail>, size: nat, k: nat, n: nat)
    requires size >= 1 && Grouped(chunk, size) && n == k * size && n <= |chunk|
    ensures Grouped(chunk[..n], size)
    ensures forall x, y | 0 <= x < n && n <= y < |chunk| :: chunk[x].pRaid != chunk[y].pRaid
  {
    DivRange(n, size, k);
    forall x | 0 <= x < n ensures Row(x, size) < k && Head(x, size) < n { Side(x, k, size); }
    forall y | n <= y < |chunk| ensures Row(y, size) >= k { Side(y, k, size); }
    hide Row, Head;
  }

  /** The chosen chunk consists of whole groups: for every reserved pRaid it touches it takes all the
      offers of that pRaid, which are exactly `size`, next to each other. */
  lemma ChunkTakesWholePRaids(offers: seq<Avail>, size: nat, stripes: nat)
    requires size >= 1
    ensures var chunk := ReservedChunk(offers, size, stripes);
            && |chunk| <= stripes * size && Grouped(chunk, size)
            && (forall a | a in chunk :: a in offers && |Only(offers, a.pRaid)| == size)
            && (forall a, b | a in chunk && b in offers && b.pRaid == a.pRaid :: b in chunk)
  {
    MulMono(0, stripes, size);
    FirstTakesWhole(offers, size, stripes, stripes * size);
    hide FirstOf, Grouped, Only;
  }

  lemma FirstTakesWhole(offers: seq<Avail>, size: nat, stripes: nat, n: nat)
    requires size >= 1 && n == stripes * size
    ensures var chunk := FirstOf(offers, size, n);
            && |chunk| <= n && Grouped(chunk, size)
            && (forall a | a in chunk :: a in offers && |Only(offers, a.pRaid)| == size)
            && (forall a, b | a in chunk && b in offers && b.pRaid == a.pRaid :: b in chunk)
  {
    var sorted := SortDesc(offers);
    var segments := FullGroups(sorted, PRaidsOf(sorted), size);
    GroupsTakeAll(offers, size);
    hide FullGroups, PRaidsOf, SortDesc, Only, Grouped;
    if |segments| > n {
      GroupedPrefix(segments, size, stripes, n);
      PrefixTakesAll(offers, segments, n);
    }
  }

  lemma GroupsTakeAll(offers: seq<Avail>, size: nat)
    requires size >= 1
    ensures var segments := FullGroups(SortDesc(offers), PRaidsOf(SortDesc(offers)), size);
            && Grouped(segments, size)
            && (forall a | a in segments :: a in offers && |Only(offers, a.pRaid)| == size)
            && (forall a, b | a in segments && b in offers && b.pRaid == a.pRaid :: b in segments)
  {
    var sorted := SortDesc(offers);
    var segments := FullGroups(sorted, PRaidsOf(sorted), size);
    FullGroupsHave(sorted, PRaidsOf(sorted), size);
    SameElements(sorted, offers);
    hide FullGroups, Grouped, Only, SortDesc;
    forall a | a in segments ensures a in offers && |Only(offers, a.pRaid)| == size {
      OnlyCount(sorted, offers, a.pRaid);
    }
    forall a, b | a in segments && b in offers && b.pRaid == a.pRaid ensures b in segments {
      assert b in sorted;
    }
  }

  lemma PrefixTakesAll(offers: seq<Avail>, segments: seq<Avail>, n: nat)
    requires n <= |segments|
    requires forall a, b | a in segments && b in offers && b.pRaid == a.pRaid :: b in segments
    requires forall x, y | 0 <= x < n && n <= y < |segments| :: segments[x].pRaid != segments[y].pRaid
    ensures forall a, b | a in segments[..n] && b in offers && b.pRaid == a.pRaid :: b in segments[..n]
  {
    var chunk := segments[..n];
    forall a, b | a in chunk && b in offers && b.pRaid == a.pRaid ensures b in chunk {
      var x :| 0 <= x < |chunk| && chunk[x] == a;
      assert segments[x] == a && a in segments;
      var y :| 0 <= y < |segments| && segments[y] == b;
      assert y < n ==> chunk[y] == b;
    }
  }

  // ----------------------------------------------------- the largest chunk

  /** The reserved pRaids with an offer on each of their drives. */
  ghost function FullPRaids(offers: seq<Avail>, size: nat): set<Uuid> {
    set a | a in offers && |Only(offers, a.pRaid)| == size :: a.pRaid
  }

  /** None of the offers of a reserved pRaid is larger. */
  ghost predicate NoneLarger(offers: seq<Avail>, p: Uuid, blocks: int) {
    forall c | c in offers && c.pRaid == p :: c.Blocks() <= blocks
  }

  /** The reserved pRaid of `a` has an offer in the chunk that none of pRaid `p` exceeds. */
  ghost predicate HoldsLarger(offers: seq<Avail>, chunk: seq<Avail>, p: Uuid, a: Avail) {
    exists b :: b in chunk && b.pRaid == a.pRaid && NoneLarger(offers, p, b.Blocks())
  }

  /** As many full pRaids as asked for, or all there are; and one that is left out has no offer larger than the largest
      of any that is taken. */
  ghost predicate IsLargestChunk(offers: seq<Avail>, chunk: seq<Avail>, size: nat, stripes: nat) {
    && |chunk| == Min(stripes, |FullPRaids(offers, size)|) * size
    && (forall p, a | p in FullPRaids(offers, size) && (forall c | c in chunk :: c.pRaid != p) && a in chunk ::
          HoldsLarger(offers, chunk, p, a))
  }

  ghost predicate OccursBefore(avails: seq<Avail>, p: Uuid, y: int) {
    exists x :: 0 <= x < y && x < |avails| && avails[x].pRaid == p
  }

  /** The pRaids come in the order of their first offers. */
  lemma {:induction false} FirstOccurrences(avails: seq<Avail>, i: int, j: int, y: int)
    requires 0 <= i < j < |PRaidsOf(avails)| && 0 <= y < |avails| && avails[y].pRaid == PRaidsOf(avails)[j]
    ensures OccursBefore(avails, PRaidsOf(avails)[i], y)
    decreases |avails|
  {
    var n := |avails| - 1;
    var init := avails[..n];
    var rest := PRaidsOf(init);
    if y < n {
      OccursIn(init, y);
      FirstOccurrences(init, i, j, y);
      var x :| 0 <= x < y && x < |init| && init[x].pRaid == rest[i];
      assert avails[x].pRaid == rest[i];
    } else {
      assert rest[i] in rest;
      var x :| 0 <= x < |init| && init[x].pRaid == rest[i];
      assert avails[x] == init[x];
    }
  }

  lemma OccursIn(avails: seq<Avail>, y: int)
    requires 0 <= y < |avails|
    ensures avails[y].pRaid in PRaidsOf(avails)
  {
  }

  /** The groups come in the order of their pRaids. */
  lemma {:induction false} GroupsInOrder(avails: seq<Avail>, ps: seq<Uuid>, size: nat, x: int, y: int, i: int, j: int)
    requires size >= 1 && forall k, l | 0 <= k < l < |ps| :: ps[k] != ps[l]
    requires 0 <= x < y < |FullGroups(avails, ps, size)| && 0 <= i < |ps| && 0 <= j < |ps|
    requires FullGroups(avails, ps, size)[x].pRaid == ps[i] && FullGroups(avails, ps, size)[y].pRaid == ps[j]
    ensures i <= j
    decreases |ps|
  {
    var n := |ps| - 1;
    var prev, group := FullGroups(avails, ps[..n], size), Only(avails, ps[n]);
    FullGroupsHave(avails, ps[..n], size);
    OnlyHas(avails, ps[n]);
    if y < |prev| {
      assert prev[x] in prev && prev[y] in prev;
      assert ps[i] in ps[..n] && ps[j] in ps[..n];
      GroupsInOrder(avails, ps[..n], size, x, y, i, j);
    } else {
      assert group[y - |prev|] in group;
    }
  }

  lemma {:induction false} GroupCount(avails: seq<Avail>, ps: seq<Uuid>, size: nat, full: set<Uuid>)
    requires forall k, l | 0 <= k < l < |ps| :: ps[k] != ps[l]
    requires forall p :: p in full <==> p in ps && |Only(avails, p)| == size
    ensures |FullGroups(avails, ps, size)| == |full| * size
    decreases |ps|
  {
    if ps == [] {
      assert full == {};
    } else {
      var n := |ps| - 1;
      OneMoreGroup(avails, ps, size);
      hide *;
      assert ps == ps[..n] + [ps[n]];
      GroupCount(avails, ps[..n], size, full - {ps[n]});
      OneLess(full, ps[n]);
      Distribute(|full - {ps[n]}|, 1, size);
    }
  }

  lemma OneMoreGroup(avails: seq<Avail>, ps: seq<Uuid>, size: nat)
    requires ps != []
    ensures |FullGroups(avails, ps, size)|
         == |FullGroups(avails, ps[..|ps| - 1], size)| + if |Only(avails, ps[|ps| - 1])| == size then size else 0
  {
    hide Only;
  }

  lemma OneLess(full: set<Uuid>, p: Uuid)
    ensures |full| == |full - {p}| + if p in full then 1 else 0
  {
    if p in full {
      assert full == (full - {p}) + {p};
    } else {
      assert full == full - {p};
    }
  }

  lemma FullOfSorted(offers: seq<Avail>, size: nat)
    requires size >= 1
    ensures var sorted := SortDesc(offers);
            |FullGroups(sorted, PRaidsOf(sorted), size)| == |FullPRaids(offers, size)| * size
  {
    var sorted := SortDesc(offers);
    SameElements(sorted, offers);
    hide SortDesc, Only;
    forall p ensures p in FullPRaids(offers, size) <==> p in PRaidsOf(sorted) && |Only(sorted, p)| == size {
      OnlyCount(sorted, offers, p);
      if p in PRaidsOf(sorted) {
        var i :| 0 <= i < |sorted| && sorted[i].pRaid == p;
        assert sorted[i] in offers;
      }
      if p in FullPRaids(offers, size) {
        var a :| a in offers && |Only(offers, a.pRaid)| == size && a.pRaid == p;
        assert a in sorted;
      }
    }
    GroupCount(sorted, PRaidsOf(sorted), size, FullPRaids(offers, size));
  }

  /** Where a pRaid occurs first, none of the pRaids that come later has a larger offer. */
  lemma FirstIsLargest(sorted: seq<Avail>, i: int, j: int) returns (f: nat)
    requires forall k, l | 0 <= k < l < |sorted| :: sorted[k].Blocks() >= sorted[l].Blocks()
    requires 0 <= i < j < |PRaidsOf(sorted)|
    ensures f < |sorted| && sorted[f].pRaid == PRaidsOf(sorted)[i]
    ensures NoneLarger(sorted, PRaidsOf(sorted)[j], sorted[f].Blocks())
  {
    var q, p := PRaidsOf(sorted)[i], PRaidsOf(sorted)[j];
    assert q in PRaidsOf(sorted);
    f := 0;
    while sorted[f].pRaid != q
      invariant f < |sorted| && (forall k | 0 <= k < f :: sorted[k].pRaid != q)
      invariant exists k :: 0 <= k < |sorted| && sorted[k].pRaid == q
      decreases |sorted| - f
    {
      f := f + 1;
    }
    forall c | c in sorted && c.pRaid == p ensures c.Blocks() <= sorted[f].Blocks() {
      var y :| 0 <= y < |sorted| && sorted[y] == c;
      FirstOccurrences(sorted, i, j, y);
      var x :| 0 <= x < y && x < |sorted| && sorted[x].pRaid == q;
      assert f <= x;
    }
  }

  lemma LeftOutIsSmaller(offers: seq<Avail>, size: nat, stripes: nat, p: Uuid, a: Avail)
    requires size >= 1 && p in FullPRaids(offers, size) && a in ReservedChunk(offers, size, stripes)
    requires forall c | c in ReservedChunk(offers, size, stripes) :: c.pRaid != p
    ensures HoldsLarger(offers, ReservedChunk(offers, size, stripes), p, a)
  {
    var chunk, sorted := ReservedChunk(offers, size, stripes), SortDesc(offers);
    ChunkOfGroups(offers, size, stripes);
    LeftOutIsFull(offers, size, p);
    hide ReservedChunk, FullGroups, SortDesc, Only, Grouped, FullPRaids, PRaidsOf;
    SortDescends(offers);
    var i, j := IndexesOf(sorted, FullGroups(sorted, PRaidsOf(sorted), size), chunk, size, p, a);
    var f := FirstIsLargest(sorted, i, j);
    ChunkTakesWholePRaids(offers, size, stripes);
    assert sorted[f] in sorted;
    assert sorted[f] in chunk;
    forall c | c in offers && c.pRaid == p ensures c.Blocks() <= sorted[f].Blocks() {
      assert c in sorted;
    }
  }

  lemma ChunkOfGroups(offers: seq<Avail>, size: nat, stripes: nat)
    ensures ReservedChunk(offers, size, stripes) <= FullGroups(SortDesc(offers), PRaidsOf(SortDesc(offers)), size)
    ensures forall x :: x in SortDesc(offers) <==> x in offers
  {
    SameElements(SortDesc(offers), offers);
    hide FullGroups, SortDesc, PRaidsOf;
  }

  lemma LeftOutIsFull(offers: seq<Avail>, size: nat, p: Uuid)
    requires p in FullPRaids(offers, size)
    ensures |Only(SortDesc(offers), p)| == size && exists c :: c in SortDesc(offers) && c.pRaid == p
  {
    OnlyCount(SortDesc(offers), offers, p);
    SameElements(SortDesc(offers), offers);
    hide SortDesc, Only;
    var a :| a in offers && |Only(offers, a.pRaid)| == size && a.pRaid == p;
    assert a in SortDesc(offers);
  }

  /** The pRaid of an offer in the chunk comes before the one left out. */
  lemma IndexesOf(sorted: seq<Avail>, segments: seq<Avail>, chunk: seq<Avail>, size: nat, p: Uuid, a: Avail)
    returns (i: int, j: int)
    requires size >= 1 && segments == FullGroups(sorted, PRaidsOf(sorted), size) && chunk <= segments
    requires |Only(sorted, p)| == size && a in chunk && forall c | c in chunk :: c.pRaid != p
    requires exists c :: c in sorted && c.pRaid == p
    ensures 0 <= i < j < |PRaidsOf(sorted)| && PRaidsOf(sorted)[i] == a.pRaid && PRaidsOf(sorted)[j] == p
  {
    var ps := PRaidsOf(sorted);
    FullGroupsHave(sorted, ps, size);
    var x, y := PositionsOf(sorted, segments, chunk, size, p, a);
    assert segments[x] in segments && segments[y] in segments;
    i := IndexIn(ps, a.pRaid);
    j := IndexIn(ps, p);
    hide FullGroups, Only, Grouped, PRaidsOf;
    GroupsInOrder(sorted, ps, size, x, y, i, j);
  }

  lemma IndexIn(ps: seq<Uuid>, p: Uuid) returns (i: int)
    requires p in ps
    ensures 0 <= i < |ps| && ps[i] == p
  {
    i :| 0 <= i < |ps| && ps[i] == p;
  }

  lemma PositionsOf(sorted: seq<Avail>, segments: seq<Avail>, chunk: seq<Avail>, size: nat, p: Uuid, a: Avail)
    returns (x: int, y: int)
    requires size >= 1 && segments == FullGroups(sorted, PRaidsOf(sorted), size) && chunk <= segments
    requires |Only(sorted, p)| == size && a in chunk && forall c | c in chunk :: c.pRaid != p
    requires exists c :: c in sorted && c.pRaid == p
    ensures 0 <= x < y < |segments| && segments[x].pRaid == a.pRaid && segments[y].pRaid == p && p != a.pRaid
  {
    FullGroupsHave(sorted, PRaidsOf(sorted), size);
    var c :| c in sorted && c.pRaid == p;
    var z :| 0 <= z < |sorted| && sorted[z] == c;
    OccursIn(sorted, z);
    hide FullGroups, Only, Grouped, PRaidsOf;
    x :| 0 <= x < |chunk| && chunk[x] == a;
    y :| 0 <= y < |segments| && segments[y] == c;
    LaterPosition(chunk, segments, y);
  }

  lemma LaterPosition(chunk: seq<Avail>, segments: seq<Avail>, y: int)
    requires chunk <= segments && 0 <= y < |segments| && forall c | c in chunk :: c.pRaid != segments[y].pRaid
    ensures y >= |chunk|
  {
    if y < |chunk| {
      AtPrefix(chunk, segments, y);
    }
  }

  lemma AtPrefix(chunk: seq<Avail>, segments: seq<Avail>, y: int)
    requires chunk <= segments && 0 <= y < |chunk|
    ensures segments[y] in chunk
  {
    assert chunk[y] == segments[y];
  }

  /** The chunk offered is the largest: nothing larger is left out. */
  lemma ChunkIsLargest(offers: seq<Avail>, size: nat, stripes: nat)
    requires size >= 1
    ensures IsLargestChunk(offers, ReservedChunk(offers, size, stripes), size, stripes)
  {
    FullOfSorted(offers, size);
    MulMono(0, stripes, size);
    CutShort(|FullPRaids(offers, size)|, stripes, size);
    hide FullGroups, SortDesc, Only, PRaidsOf;
    var chunk := ReservedChunk(offers, size, stripes);
    assert |chunk| == Min(stripes, |FullPRaids(offers, size)|) * size;
    hide ReservedChunk, HoldsLarger, FullPRaids;
    forall p, a | p in FullPRaids(offers, size) && (forall c | c in chunk :: c.pRaid != p) && a in chunk
      ensures HoldsLarger(offers, chunk, p, a)
    {
      LeftOutIsSmaller(offers, size, stripes, p, a);
    }
  }

  lemma CutShort(full: nat, stripes: nat, size: nat)
    requires size >= 1
    ensures full * size > stripes * size <==> full > stripes
  {
    if full > stripes {
      MulMono(stripes + 1, full, size);
      Distribute(stripes, 1, size);
    } else {
      MulMono(full, stripes, size);
    }
  }

  // ------------------------------------------------------ what is on offer

  /** A drive as the query returns it: its id and its segment list. */
  datatype Listing = Listing(disk: DiskID, segs: seq<Segment>)

  ghost predicate DistinctDisks(lists: seq<Listing>) {
    forall i, j | 0 <= i < j < |lists| :: lists[i].disk != lists[j].disk
  }

  ghost function AvailOn(l: Listing, vpg: VolumeID): seq<Avail> {
    ReservedFree(l.segs, l.segs, l.disk, vpg)
  }

  ghost function OffersFrom(lists: seq<Listing>, vpg: VolumeID): seq<Avail> {
    if lists == [] then []
    else OffersFrom(lists[..|lists| - 1], vpg) + Picks(AvailOn(lists[|lists| - 1], vpg))
  }

  /** The reserved chunk offered to a volume of `stripes` pRaids of `size` drives each. */
  method GetLargestReservedChunk(lists: seq<Listing>, vpg: VolumeID, size: nat, stripes: nat)
    returns (biggestChunk: seq<Avail>)
    requires forall i, k | 0 <= i < |lists| && 0 <= k < |lists[i].segs| :: lists[i].segs[k].Span().Nonempty()
    ensures biggestChunk == ReservedChunk(OffersFrom(lists, vpg), size, stripes)
    ensures size >= 1 ==> IsLargestChunk(OffersFrom(lists, vpg), biggestChunk, size, stripes)
  {
    var offers := [];
    for i := 0 to |lists|
      invariant offers == OffersFrom(lists[..i], vpg)
    {
      assert lists[..i + 1][..i] == lists[..i];
      var availableReserved := GetReservedSegments(lists[i].segs, lists[i].disk, vpg);
      offers := offers + Picks(availableReserved);
    }
    assert lists[..|lists|] == lists;
    biggestChunk := ReservedChunk(offers, size, stripes);
    if size >= 1 {
      ChunkIsLargest(offers, size, stripes);
    }
  }

  /** Unused space of a reserved segment: inside it, and clear of every segment that is not reserved. */
  ghost predicate InUnused(l: Listing, vpg: VolumeID, a: Avail, k: int) {
    && 0 <= k < |l.segs|
    && l.segs[k].isReserved && l.segs[k].volume == vpg && l.segs[k].pendingReclaim.Idle?
    && a.diskID == l.disk && a.reserved == l.segs[k].uuid && a.pRaid == l.segs[k].pRaid
    && a.Span().Nonempty() && a.Span().Within(l.segs[k].Span())
    && (forall j | 0 <= j < |l.segs| && !l.segs[j].isReserved
        && l.segs[j].Span().Nonempty() :: !l.segs[j].Span().Meets(a.Span()))
  }

  lemma UnusedRun(l: Listing, vpg: VolumeID, k: int, x: int)
    requires 0 <= k < |l.segs| && Offered(l.segs[k], vpg) && 0 <= x < |UnusedIn(l.segs, l.disk, l.segs[k])|
    ensures InUnused(l, vpg, UnusedIn(l.segs, l.disk, l.segs[k])[x], k)
  {
    var s := l.segs[k];
    var r := RunsOf(Unused(l.segs, s))[x];
    assert r.Nonempty();
    forall b | r.Has(b) ensures b in Unused(l.segs, s) {
      assert RunsOf(Unused(l.segs, s))[x].Has(b);
    }
    hide IsRuns;
    assert r.Has(r.lbs) && r.Has(r.lbe);
    PlainSpansCover(l.segs);
    forall j | 0 <= j < |l.segs| && !l.segs[j].isReserved
           && l.segs[j].Span().Nonempty() ensures !l.segs[j].Span().Meets(r) {
      var b := Max(r.lbs, l.segs[j].lbs);
      assert r.Has(b) ==> b in Unused(l.segs, s);
      assert l.segs[j].Span().Has(b) ==> Covered(PlainSpans(l.segs), b);
    }
  }

  lemma {:induction false} FreeIsUnused(l: Listing, vpg: VolumeID, n: nat, x: int) returns (k: int)
    requires n <= |l.segs| && 0 <= x < |ReservedFree(l.segs, l.segs[..n], l.disk, vpg)|
    ensures InUnused(l, vpg, ReservedFree(l.segs, l.segs[..n], l.disk, vpg)[x], k)
    decreases n
  {
    hide UnusedIn, InUnused;
    assert l.segs[..n][..n - 1] == l.segs[..n - 1];
    var prev := ReservedFree(l.segs, l.segs[..n - 1], l.disk, vpg);
    if x < |prev| {
      k := FreeIsUnused(l, vpg, n - 1, x);
    } else {
      k := n - 1;
      UnusedRun(l, vpg, k, x - |prev|);
    }
  }

  lemma PickIsUnused(l: Listing, vpg: VolumeID, a: Avail) returns (k: int)
    requires a in Picks(AvailOn(l, vpg))
    ensures InUnused(l, vpg, a, k)
  {
    var avails := AvailOn(l, vpg);
    PicksExact(avails, a);
    FirstLargestIs(avails, a.pRaid);
    var x :| 0 <= x < |avails| && avails[x] == a;
    assert l.segs[..|l.segs|] == l.segs;
    hide InUnused;
    k := FreeIsUnused(l, vpg, |l.segs|, x);
  }

  lemma PicksDistinct(l: Listing, vpg: VolumeID)
    ensures DistinctKeys(Picks(AvailOn(l, vpg)))
    ensures forall a | a in Picks(AvailOn(l, vpg)) :: a.diskID == l.disk
  {
    var avails := AvailOn(l, vpg);
    var ps := PRaidsOf(avails);
    forall i | 0 <= i < |ps| ensures Picks(avails)[i].pRaid == ps[i] {
      FirstLargestIs(avails, ps[i]);
    }
    hide InUnused;
    forall a | a in Picks(avails) ensures a.diskID == l.disk {
      var k := PickIsUnused(l, vpg, a);
      UnusedDisk(l, vpg, a, k);
    }
  }

  lemma UnusedDisk(l: Listing, vpg: VolumeID, a: Avail, k: int)
    requires InUnused(l, vpg, a, k)
    ensures a.diskID == l.disk
  {
  }

  /** Adding the picks of one more drive. */
  lemma OffersMore(prev: seq<Avail>, here: seq<Avail>, disk: DiskID)
    requires DistinctKeys(prev) && DistinctKeys(here)
    requires forall a | a in prev :: a.diskID != disk
    requires forall a | a in here :: a.diskID == disk
    ensures DistinctKeys(prev + here)
    ensures forall a :: a in prev + here <==> a in prev || a in here
  {
    assert forall i | 0 <= i < |prev| :: prev[i] in prev;
    assert forall i | 0 <= i < |here| :: here[i] in here;
  }

  ghost predicate OfferedBy(lists: seq<Listing>, vpg: VolumeID, a: Avail, i: int) {
    0 <= i < |lists| && a in Picks(AvailOn(lists[i], vpg))
  }

  lemma {:induction false} OfferedSomewhere(lists: seq<Listing>, vpg: VolumeID, a: Avail)
    ensures a in OffersFrom(lists, vpg) <==> exists i :: OfferedBy(lists, vpg, a, i)
    decreases |lists|
  {
    hide AvailOn, Picks;
    if lists != [] {
      var n := |lists| - 1;
      OfferedSomewhere(lists[..n], vpg, a);
      if i :| OfferedBy(lists[..n], vpg, a, i) {
        assert OfferedBy(lists, vpg, a, i);
      }
      if i :| OfferedBy(lists, vpg, a, i) && i < n {
        assert OfferedBy(lists[..n], vpg, a, i);
      }
      if a in Picks(AvailOn(lists[n], vpg)) {
        assert OfferedBy(lists, vpg, a, n);
      }
    }
  }

  lemma OfferDisk(lists: seq<Listing>, vpg: VolumeID, a: Avail)
    requires a in OffersFrom(lists, vpg)
    ensures exists i :: OfferedBy(lists, vpg, a, i) && a.diskID == lists[i].disk
  {
    OfferedSomewhere(lists, vpg, a);
    var i :| OfferedBy(lists, vpg, a, i);
    PicksDistinct(lists[i], vpg);
  }

  lemma {:induction false} OffersDistinct(lists: seq<Listing>, vpg: VolumeID)
    requires DistinctDisks(lists)
    ensures DistinctKeys(OffersFrom(lists, vpg))
    decreases |lists|
  {
    if lists != [] {
      var n := |lists| - 1;
      OffersDistinct(lists[..n], vpg);
      PicksDistinct(lists[n], vpg);
      hide AvailOn, Picks, DistinctKeys;
      forall a | a in OffersFrom(lists[..n], vpg) ensures a.diskID != lists[n].disk {
        OfferDisk(lists[..n], vpg, a);
      }
      OffersMore(OffersFrom(lists[..n], vpg), Picks(AvailOn(lists[n], vpg)), lists[n].disk);
    }
  }

  lemma OffersKnown(lists: seq<Listing>, vpg: VolumeID)
    requires DistinctDisks(lists)
    ensures DistinctKeys(OffersFrom(lists, vpg))
    ensures forall a :: a in OffersFrom(lists, vpg) <==>
               exists i :: 0 <= i < |lists| && a in Picks(AvailOn(lists[i], vpg))
    ensures forall a | a in OffersFrom(lists, vpg) :: exists i :: 0 <= i < |lists| && a.diskID == lists[i].disk
  {
    OffersDistinct(lists, vpg);
    hide AvailOn, Picks, DistinctKeys, OffersFrom;
    forall a ensures a in OffersFrom(lists, vpg) <==>
           exists i :: 0 <= i < |lists| && a in Picks(AvailOn(lists[i], vpg)) {
      OfferedSomewhere(lists, vpg, a);
      if i :| 0 <= i < |lists| && a in Picks(AvailOn(lists[i], vpg)) {
        assert OfferedBy(lists, vpg, a, i);
      }
    }
    forall a | a in OffersFrom(lists, vpg) ensures exists i :: 0 <= i < |lists| && a.diskID == lists[i].disk {
      OfferDisk(lists, vpg, a);
    }
  }

  lemma CountTwice(s: seq<Avail>, i: int, j: int)
    requires 0 <= i < j < |s| && s[i] == s[j]
    ensures multiset(s)[s[i]] >= 2
  {
    assert s == s[..j] + [s[j]] + s[j + 1..];
    assert s[..j][i] == s[j];
    assert s[j] in multiset(s[..j]);
  }

  lemma {:induction false} CountOnce(s: seq<Avail>, a: Avail)
    requires DistinctKeys(s)
    ensures multiset(s)[a] <= 1
    decreases |s|
  {
    if s != [] {
      var n := |s| - 1;
      CountOnce(s[..n], a);
      assert s == s[..n] + [s[n]];
      if s[n] == a {
        assert a !in s[..n];
        assert a !in multiset(s[..n]);
      }
    }
  }

  /** Sorting keeps one offer per drive and reserved pRaid. */
  lemma SortDistinct(avails: seq<Avail>)
    requires DistinctKeys(avails)
    ensures DistinctKeys(SortDesc(avails))
    ensures forall b :: b in SortDesc(avails) <==> b in avails
  {
    var r := SortDesc(avails);
    SameElements(r, avails);
    hide SortDesc;
    forall i, j | 0 <= i < j < |r| ensures r[i].pRaid != r[j].pRaid || r[i].diskID != r[j].diskID {
      if r[i] == r[j] {
        CountTwice(r, i, j);
        CountOnce(avails, r[i]);
      } else {
        assert r[i] in avails && r[j] in avails;
      }
    }
  }

  lemma {:induction false} OnlyDistinct(avails: seq<Avail>, p: Uuid)
    requires DistinctKeys(avails)
    ensures DistinctKeys(Only(avails, p))
    decreases |avails|
  {
    if avails != [] {
      var n := |avails| - 1;
      OnlyDistinct(avails[..n], p);
      OnlyHas(avails[..n], p);
      assert forall a | a in avails[..n] :: a.pRaid != avails[n].pRaid || a.diskID != avails[n].diskID;
      assert forall i | 0 <= i < |Only(avails[..n], p)| :: Only(avails[..n], p)[i] in Only(avails[..n], p);
    }
  }

  lemma {:induction false} FullGroupsDistinct(avails: seq<Avail>, ps: seq<Uuid>, size: nat)
    requires size >= 1 && DistinctKeys(avails) && forall i, j | 0 <= i < j < |ps| :: ps[i] != ps[j]
    ensures DistinctKeys(FullGroups(avails, ps, size))
    decreases |ps|
  {
    if ps != [] {
      var n := |ps| - 1;
      FullGroupsDistinct(avails, ps[..n], size);
      FullGroupsHave(avails, ps[..n], size);
      OnlyDistinct(avails, ps[n]);
      OnlyHas(avails, ps[n]);
      var prev, group := FullGroups(avails, ps[..n], size), Only(avails, ps[n]);
      assert forall i | 0 <= i < |prev| :: prev[i] in prev;
      assert forall i | 0 <= i < |group| :: group[i] in group;
    }
  }

  lemma FirstDistinct(offers: seq<Avail>, size: nat, n: nat)
    requires DistinctKeys(FullGroups(SortDesc(offers), PRaidsOf(SortDesc(offers)), size))
    ensures DistinctKeys(FirstOf(offers, size, n))
  {
    hide FullGroups, SortDesc, PRaidsOf;
  }

  /** The chosen ranges lie on different drives or belong to different reserved pRaids. */
  lemma ChunkDistinct(offers: seq<Avail>, size: nat, stripes: nat)
    requires size >= 1 && DistinctKeys(offers)
    ensures DistinctKeys(ReservedChunk(offers, size, stripes))
  {
    SortDistinct(offers);
    FullGroupsDistinct(SortDesc(offers), PRaidsOf(SortDesc(offers)), size);
    MulMono(0, stripes, size);
    FirstDistinct(offers, size, stripes * size);
  }
}
