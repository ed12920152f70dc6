/** The allocation loop takes part in the history of reserved space: storing the segments of a chunk picked from
    it is, for each reserved pRaid the chunk touches, one allocation on all of its drives at once. */
module ReservedRounds {
  import opened Ranges
  import opened Drives
  import opened Options
  import opened Arith
  import opened ReservedSpace
  import opened SharedGapsHistory
  import opened AllocationSpec
  import opened Allocation

  /** The list of a drive once these segments were stored one after the other. */
  function PlacedOn(l: Listing, segs: seq<Segment>): Listing {
    Listing(l.disk, l.segs + OnDisk(segs, l.disk))
  }

  lemma PlacedNext(l: Listing, segs: seq<Segment>, n: nat)
    requires n < |segs|
    ensures PlacedOn(l, segs[..n + 1]).segs
         == PlacedOn(l, segs[..n]).segs + if segs[n].diskID == l.disk then [segs[n]] else []
    ensures PlacedOn(l, segs[..0]) == l
  {
    assert segs[..n + 1][..n] == segs[..n];
  }

  // ------------------------------------------------- one drive, one more segment

  lemma UntouchedIsAlike(a: Listing, b: Listing, vpg: VolumeID, p: Uuid)
    requires Untouched(a, b, vpg, p)
    ensures Alike(a, b, vpg, p)
  {
    hide Uses, SoundList;
    var r := Mine(a.segs, vpg, p);
    forall j | 0 <= j < |r| ensures Uses(a.segs, r[j]) == Uses(b.segs, r[j]) {
      assert r[j] in r;
    }
  }

  lemma PickOnDisk(l: Listing, vpg: VolumeID, p: Uuid)
    requires FirstLargest(AvailOn(l, vpg), p).Some?
    ensures FirstLargest(AvailOn(l, vpg), p).value.diskID == l.disk && FirstLargest(AvailOn(l, vpg), p).value.pRaid == p
  {
    FirstLargestIs(AvailOn(l, vpg), p);
    PicksExact(AvailOn(l, vpg), FirstLargest(AvailOn(l, vpg), p).value);
    PicksDistinct(l, vpg);
  }

  /** A drive whose segments of the pRaid are not touched keeps offering the same range. */
  lemma UntouchedPick(a: Listing, b: Listing, vpg: VolumeID, p: Uuid)
    requires SoundList(a.segs) && Untouched(a, b, vpg, p)
    ensures FirstLargest(AvailOn(b, vpg), p) == FirstLargest(AvailOn(a, vpg), p)
  {
    UntouchedFacts(a, b, vpg, p);
    hide SoundList, Uses, Mine, AvailOn, FirstLargest, Alike, Untouched;
    OfferedAlike(a, b, vpg, p);
    var x, y := FirstLargest(AvailOn(a, vpg), p), FirstLargest(AvailOn(b, vpg), p);
    if x.Some? {
      PickOnDisk(a, vpg, p);
      PickOnDisk(b, vpg, p);
      var r := Mine(a.segs, vpg, p);
      var j :| MatchAt(x.value, r, y.value, r, j);
    }
  }

  lemma UntouchedFacts(a: Listing, b: Listing, vpg: VolumeID, p: Uuid)
    requires Untouched(a, b, vpg, p)
    ensures Alike(a, b, vpg, p) && b.disk == a.disk && SoundList(b.segs) && Mine(b.segs, vpg, p) == Mine(a.segs, vpg, p)
  {
    UntouchedIsAlike(a, b, vpg, p);
    hide Uses, SoundList, Mine, Alike;
  }

  lemma UntouchedTwice(a: Listing, b: Listing, c: Listing, vpg: VolumeID, p: Uuid)
    requires Untouched(a, b, vpg, p) && Untouched(b, c, vpg, p)
    ensures Untouched(a, c, vpg, p)
  {
    hide SoundList, Uses, Mine;
  }

  /** A segment taken from one reserved pRaid leaves all others of the drive alone. */
  lemma TakenElsewhere(a: Listing, b: Listing, vpg: VolumeID, p: Uuid, other: Uuid, q: Uuid, blocks: int)
    requires SoundList(a.segs) && TakesAt(a, b, vpg, other, q, blocks) && p != other
    ensures Untouched(a, b, vpg, p)
  {
    var t := b.segs[|a.segs|];
    var pick := FirstLargest(AvailOn(a, vpg), other).value;
    TakenSound(a, b, vpg, other, q, blocks);
    NotReservedNotMine(a.segs, t, vpg, p);
    MineHas(a.segs, vpg, p);
    var k := PickedClear(a, vpg, other);
    assert a.segs[k].uuid == pick.reserved;
    PickOnDisk(a, vpg, other);
    hide AvailOn, FirstLargest, Mine, Uses;
    forall s | s in Mine(a.segs, vpg, p) ensures Uses(b.segs, s) == Uses(a.segs, s) {
      UsesPush(a.segs, t, s);
      NamedOnce(a.segs, s, k);
    }
  }

  lemma NamedOnce(segs: seq<Segment>, s: Segment, k: int)
    requires SoundList(segs) && s in segs && 0 <= k < |segs|
    ensures s.uuid == segs[k].uuid ==> s == segs[k]
  {
  }

  // ------------------------------------------------------- one drive, a round

  /** The chunk as the drive `l` sees it: what is picked on it is its first largest range, once per reserved
      pRaid, and the segments cut from it are new and fit. */
  ghost predicate CutOff(l: Listing, vpg: VolumeID, chunk: seq<Avail>, segs: seq<Segment>, blocks: int) {
    && SoundList(l.segs) && |segs| == |chunk| && DistinctKeys(chunk)
    && (forall x | 0 <= x < |chunk| && chunk[x].diskID == l.disk ::
          FirstLargest(AvailOn(l, vpg), chunk[x].pRaid) == Some(chunk[x]))
    && (forall x | 0 <= x < |chunk| :: CutFrom(chunk[x], segs[x], blocks))
    && (forall x, y | 0 <= x < y < |segs| :: segs[x].uuid != segs[y].uuid)
    && (forall x, i | 0 <= x < |segs| && 0 <= i < |l.segs| :: l.segs[i].uuid != segs[x].uuid)
  }

  predicate CutFrom(a: Avail, s: Segment, blocks: int) {
    && 1 <= blocks <= a.Capacity() + 1
    && s.diskID == a.diskID && s.Span() == Range(a.lbs, a.lbs + blocks - 1)
    && s.fromReserved && !s.isReserved && s.reservedUUID == a.reserved
  }

  /** Position `x` of the chunk is on this drive, in this pRaid. */
  predicate Touches(chunk: seq<Avail>, x: int, l: Listing, p: Uuid) {
    0 <= x < |chunk| && chunk[x].diskID == l.disk && chunk[x].pRaid == p
  }

  lemma {:induction false} PlacedFrom(l: Listing, segs: seq<Segment>, n: nat, i: int) returns (x: int)
    requires n <= |segs| && |l.segs| <= i < |PlacedOn(l, segs[..n]).segs|
    ensures 0 <= x < n && PlacedOn(l, segs[..n]).segs[i] == segs[x]
    decreases n
  {
    if n == 0 {
      PlacedNothing(l, segs);
      assert false;
    } else {
      PlacedNext(l, segs, n - 1);
      if i < |PlacedOn(l, segs[..n - 1]).segs| {
        x := PlacedFrom(l, segs, n - 1, i);
      } else {
        x := n - 1;
      }
    }
  }

  lemma PlacedNothing(l: Listing, segs: seq<Segment>)
    ensures PlacedOn(l, segs[..0]) == l
  {
  }

  /** Storing position `n` takes from its own reserved pRaid, given that the drive offers it still. */
  lemma TakesNext(l: Listing, vpg: VolumeID, chunk: seq<Avail>, segs: seq<Segment>, blocks: int, n: nat)
    requires CutOff(l, vpg, chunk, segs, blocks) && n < |segs| && segs[n].diskID == l.disk
    requires Untouched(l, PlacedOn(l, segs[..n]), vpg, chunk[n].pRaid)
    ensures TakesAt(PlacedOn(l, segs[..n]), PlacedOn(l, segs[..n + 1]), vpg, chunk[n].pRaid, segs[n].pRaid, blocks)
  {
    var a, b := PlacedOn(l, segs[..n]), PlacedOn(l, segs[..n + 1]);
    assert CutFrom(chunk[n], segs[n], blocks);
    UntouchedPick(l, a, vpg, chunk[n].pRaid);
    PlacedNext(l, segs, n);
    hide AvailOn, FirstLargest, Untouched, SoundList, DistinctKeys;
    forall i | 0 <= i < |a.segs| ensures a.segs[i].uuid != segs[n].uuid {
      if i >= |l.segs| {
        var x := PlacedFrom(l, segs, n, i);
        assert segs[x].uuid != segs[n].uuid;
      } else {
        assert a.segs[i] == l.segs[i];
      }
    }
    assert b.segs == a.segs + [segs[n]];
  }

  lemma NothingUntouched(a: Listing, vpg: VolumeID, p: Uuid)
    requires SoundList(a.segs)
    ensures Untouched(a, a, vpg, p)
  {
  }

  /** Between two points of a round, a reserved pRaid the drive is not asked for stays as it is. */
  lemma {:induction false} RoundUntouched(l: Listing, vpg: VolumeID, chunk: seq<Avail>, segs: seq<Segment>,
                                          blocks: int, m: nat, n: nat, p: Uuid)
    requires CutOff(l, vpg, chunk, segs, blocks) && m <= n <= |segs|
    requires forall x | m <= x < n :: !Touches(chunk, x, l, p)
    ensures SoundList(PlacedOn(l, segs[..m]).segs)
    ensures Untouched(PlacedOn(l, segs[..m]), PlacedOn(l, segs[..n]), vpg, p)
    decreases n, 1
  {
    hide SoundList, DistinctKeys, AvailOn, FirstLargest, Untouched, TakesAt;
    if n == 0 {
      PlacedNothing(l, segs);
      NothingUntouched(l, vpg, p);
    } else {
      PlacedNext(l, segs, n - 1);
      var a, b := PlacedOn(l, segs[..n - 1]), PlacedOn(l, segs[..n]);
      RoundSound(l, vpg, chunk, segs, blocks, n);
      if m == n {
        NothingUntouched(b, vpg, p);
      } else {
        RoundUntouched(l, vpg, chunk, segs, blocks, m, n - 1, p);
        if segs[n - 1].diskID == l.disk {
          assert CutFrom(chunk[n - 1], segs[n - 1], blocks) && !Touches(chunk, n - 1, l, p);
          RoundTakes(l, vpg, chunk, segs, blocks, n - 1);
          RoundSound(l, vpg, chunk, segs, blocks, n - 1);
          TakenElsewhere(a, b, vpg, p, chunk[n - 1].pRaid, segs[n - 1].pRaid, blocks);
          UntouchedTwice(PlacedOn(l, segs[..m]), a, b, vpg, p);
        } else {
          assert b == a;
        }
      }
    }
  }

  lemma {:induction false} RoundSound(l: Listing, vpg: VolumeID, chunk: seq<Avail>, segs: seq<Segment>, blocks: int,
                                      n: nat)
    requires CutOff(l, vpg, chunk, segs, blocks) && n <= |segs|
    ensures SoundList(PlacedOn(l, segs[..n]).segs)
    decreases n, 0
  {
    hide SoundList, DistinctKeys, AvailOn, FirstLargest, TakesAt;
    if n == 0 {
      PlacedNothing(l, segs);
    } else {
      PlacedNext(l, segs, n - 1);
      RoundSound(l, vpg, chunk, segs, blocks, n - 1);
      if segs[n - 1].diskID == l.disk {
        RoundTakes(l, vpg, chunk, segs, blocks, n - 1);
        TakenSound(PlacedOn(l, segs[..n - 1]), PlacedOn(l, segs[..n]), vpg, chunk[n - 1].pRaid, segs[n - 1].pRaid,
            blocks);
      } else {
        assert PlacedOn(l, segs[..n]) == PlacedOn(l, segs[..n - 1]);
      }
    }
  }

  /** So every segment of the round takes the first largest range of its reserved pRaid. */
  lemma {:induction false} RoundTakes(l: Listing, vpg: VolumeID, chunk: seq<Avail>, segs: seq<Segment>, blocks: int,
                                      n: nat)
    requires CutOff(l, vpg, chunk, segs, blocks) && n < |segs| && segs[n].diskID == l.disk
    ensures TakesAt(PlacedOn(l, segs[..n]), PlacedOn(l, segs[..n + 1]), vpg, chunk[n].pRaid, segs[n].pRaid, blocks)
    decreases n, 2
  {
    hide SoundList, AvailOn, FirstLargest, Untouched, TakesAt;
    assert CutFrom(chunk[n], segs[n], blocks);
    forall x | 0 <= x < n ensures !Touches(chunk, x, l, chunk[n].pRaid) {
      assert chunk[x].pRaid != chunk[n].pRaid || chunk[x].diskID != chunk[n].diskID;
    }
    RoundUntouched(l, vpg, chunk, segs, blocks, 0, n, chunk[n].pRaid);
    PlacedNothing(l, segs);
    TakesNext(l, vpg, chunk, segs, blocks, n);
  }

  /** Positions `h` up to `h + size` hold the reserved pRaid `p`, no others do, and one of them is on this drive. */
  ghost predicate GroupAt(chunk: seq<Avail>, h: nat, size: nat, p: Uuid) {
    && h + size <= |chunk|
    && (forall x | 0 <= x < |chunk| :: chunk[x].pRaid == p <==> h <= x < h + size)
  }

  /** What a drive of the pRaid sees of a round: nothing, then one segment at its first largest range, then nothing. */
  lemma GroupOnDrive(l: Listing, vpg: VolumeID, chunk: seq<Avail>, segs: seq<Segment>, blocks: int, h: nat, size: nat,
                     p: Uuid, x: nat)
    requires CutOff(l, vpg, chunk, segs, blocks) && GroupAt(chunk, h, size, p)
    requires h <= x < h + size && chunk[x].diskID == l.disk
    ensures SoundList(l.segs) && Untouched(l, PlacedOn(l, segs[..h]), vpg, p)
    ensures TakesAt(PlacedOn(l, segs[..h]), PlacedOn(l, segs[..h + size]), vpg, p, segs[x].pRaid, blocks)
    ensures Untouched(PlacedOn(l, segs[..h + size]), PlacedOn(l, segs), vpg, p)
  {
    hide *;
    OnlyHere(l, vpg, chunk, segs, blocks, h, size, p, x);
    PlacedNothing(l, segs);
    RoundUntouched(l, vpg, chunk, segs, blocks, 0, h, p);
    RoundTakes(l, vpg, chunk, segs, blocks, x);
    RoundUntouched(l, vpg, chunk, segs, blocks, h + size, |segs|, p);
    assert segs[..|segs|] == segs;
    SkipOthers(l, vpg, chunk, segs, blocks, h, x, p);
    SkipOthers(l, vpg, chunk, segs, blocks, x + 1, h + size, p);
  }

  lemma OnlyHere(l: Listing, vpg: VolumeID, chunk: seq<Avail>, segs: seq<Segment>, blocks: int, h: nat, size: nat,
                 p: Uuid, x: nat)
    requires CutOff(l, vpg, chunk, segs, blocks) && GroupAt(chunk, h, size, p)
    requires h <= x < h + size && chunk[x].diskID == l.disk
    ensures SoundList(l.segs) && |segs| == |chunk| && h + size <= |chunk| && segs[x].diskID == l.disk
            && chunk[x].pRaid == p
    ensures forall y | 0 <= y < |chunk| && y != x :: !Touches(chunk, y, l, p)
    ensures forall y | h <= y < h + size :: chunk[y].pRaid == p
  {
    assert CutFrom(chunk[x], segs[x], blocks);
    hide SoundList, AvailOn, FirstLargest;
    forall y | 0 <= y < |chunk| && y != x ensures !Touches(chunk, y, l, p) {
      assert y < x ==> chunk[y].pRaid != chunk[x].pRaid || chunk[y].diskID != chunk[x].diskID;
    }
  }

  /** Positions of the group that are on other drives add nothing here. */
  lemma {:induction false} SkipOthers(l: Listing, vpg: VolumeID, chunk: seq<Avail>, segs: seq<Segment>, blocks: int,
                                      m: nat, n: nat, p: Uuid)
    requires CutOff(l, vpg, chunk, segs, blocks) && m <= n <= |segs|
    requires forall x | m <= x < n :: chunk[x].pRaid == p && !Touches(chunk, x, l, p)
    ensures PlacedOn(l, segs[..n]) == PlacedOn(l, segs[..m])
    decreases n
  {
    hide SoundList, AvailOn, FirstLargest, DistinctKeys;
    if m < n {
      SkipOthers(l, vpg, chunk, segs, blocks, m, n - 1, p);
      PlacedNext(l, segs, n - 1);
      assert CutFrom(chunk[n - 1], segs[n - 1], blocks) && !Touches(chunk, n - 1, l, p);
    }
  }

  // --------------------------------------------------- all drives of a pRaid

  function Pick(lists: seq<Listing>, ks: seq<int>, segs: seq<Segment>): (r: seq<Listing>)
    requires forall k | 0 <= k < |ks| :: 0 <= ks[k] < |lists|
    ensures |r| == |ks| && forall k | 0 <= k < |r| :: r[k] == PlacedOn(lists[ks[k]], segs)
  {
    seq(|ks|, k requires 0 <= k < |ks| => PlacedOn(lists[ks[k]], segs))
  }

  /** What a round on reserved space rests on: sound lists of different drives, the chunk picked from them, and
      segments with new names cut from it. */
  ghost predicate RoundOn(lists: seq<Listing>, v: Volume, chunk: seq<Avail>, segs: seq<Segment>, blocks: nat,
                          names: nat -> Uuid, base: nat)
    requires v.vpg.Some?
  {
    && DistinctDisks(lists) && (forall i | 0 <= i < |lists| :: SoundList(lists[i].segs))
    && chunk == ReservedChunk(OffersFrom(lists, v.vpg.value), v.GroupSize(), v.stripeWidth)
    && 1 <= blocks && (forall x | 0 <= x < |chunk| :: blocks <= chunk[x].Blocks())
    && !v.isReserved && segs == RoundSegments(AsOffers(chunk), blocks, v, true, names, base)
    && (forall i: nat, j: nat :: names(i) == names(j) ==> i == j)
    && (forall i, k, x: nat | 0 <= i < |lists| && 0 <= k < |lists[i].segs| && base <= x ::
          lists[i].segs[k].uuid != names(x))
  }

  lemma RoundIsCut(lists: seq<Listing>, v: Volume, chunk: seq<Avail>, segs: seq<Segment>, blocks: nat,
                   names: nat -> Uuid, base: nat, i: int)
    requires v.vpg.Some? && RoundOn(lists, v, chunk, segs, blocks, names, base) && 0 <= i < |lists|
    ensures CutOff(lists[i], v.vpg.value, chunk, segs, blocks)
  {
    var l, vpg := lists[i], v.vpg.value;
    CutParts(chunk, segs, blocks, v, names, base);
    CutNew(lists, segs, chunk, blocks, v, names, base, i);
    CutPicked(lists, vpg, v.GroupSize(), v.stripeWidth, i);
    hide OffersFrom, ReservedChunk, AvailOn, FirstLargest, DistinctKeys, SoundList, RoundSegments, CutFrom;
  }

  lemma CutParts(chunk: seq<Avail>, segs: seq<Segment>, blocks: nat, v: Volume, names: nat -> Uuid, base: nat)
    requires 1 <= blocks && (forall x | 0 <= x < |chunk| :: blocks <= chunk[x].Blocks()) && !v.isReserved
    requires segs == RoundSegments(AsOffers(chunk), blocks, v, true, names, base)
    ensures |segs| == |chunk| && forall x | 0 <= x < |chunk| :: CutFrom(chunk[x], segs[x], blocks)
  {
    forall x | 0 <= x < |chunk| ensures CutFrom(chunk[x], segs[x], blocks) {
      assert AsOffers(chunk)[x].disk == chunk[x].diskID;
    }
  }

  lemma CutNew(lists: seq<Listing>, segs: seq<Segment>, chunk: seq<Avail>, blocks: nat, v: Volume, names: nat -> Uuid,
               base: nat, i: int)
    requires segs == RoundSegments(AsOffers(chunk), blocks, v, true, names, base) && 0 <= i < |lists|
    requires forall i: nat, j: nat :: names(i) == names(j) ==> i == j
    requires forall i, k, x: nat | 0 <= i < |lists| && 0 <= k < |lists[i].segs| && base <= x ::
               lists[i].segs[k].uuid != names(x)
    ensures forall x, y | 0 <= x < y < |segs| :: segs[x].uuid != segs[y].uuid
    ensures forall x, k | 0 <= x < |segs| && 0 <= k < |lists[i].segs| :: lists[i].segs[k].uuid != segs[x].uuid
  {
    forall x, y | 0 <= x < y < |segs| ensures segs[x].uuid != segs[y].uuid {
      assert names(base + 2 * x) == names(base + 2 * y) ==> base + 2 * x == base + 2 * y;
    }
  }

  lemma CutPicked(lists: seq<Listing>, vpg: VolumeID, size: nat, stripes: nat, i: int)
    requires size >= 1 && DistinctDisks(lists) && 0 <= i < |lists|
    ensures var chunk := ReservedChunk(OffersFrom(lists, vpg), size, stripes);
            && DistinctKeys(chunk)
            && (forall x | 0 <= x < |chunk| && chunk[x].diskID == lists[i].disk ::
                  FirstLargest(AvailOn(lists[i], vpg), chunk[x].pRaid) == Some(chunk[x]))
  {
    var offers := OffersFrom(lists, vpg);
    OffersKnown(lists, vpg);
    ChunkTakesWholePRaids(offers, size, stripes);
    ChunkDistinct(offers, size, stripes);
    hide OffersFrom, ReservedChunk, AvailOn, FirstLargest, DistinctKeys, Only, Grouped;
    var chunk := ReservedChunk(offers, size, stripes);
    forall x | 0 <= x < |chunk| && chunk[x].diskID == lists[i].disk
      ensures FirstLargest(AvailOn(lists[i], vpg), chunk[x].pRaid) == Some(chunk[x])
    {
      assert chunk[x] in chunk;
      OfferedHere(lists, vpg, chunk[x], i);
    }
  }

  /** A whole group of a chunk. */
  lemma WholeGroup(chunk: seq<Avail>, size: nat, h: nat)
    requires size >= 1 && Grouped(chunk, size) && h < |chunk| && Head(h, size) == h
    ensures GroupAt(chunk, h, size, chunk[h].pRaid)
    ensures forall x | h <= x < h + size :: x - x % size == h
  {
    GroupFits(|chunk|, h, size);
    forall x | 0 <= x < |chunk| ensures chunk[x].pRaid == chunk[h].pRaid <==> h <= x < h + size {
      SameGroup(h, x, size);
    }
    forall x | h <= x < h + size ensures x - x % size == h {
      SameGroup(h, x, size);
    }
  }

  lemma GroupFits(n: nat, h: nat, size: nat)
    requires size >= 1 && n % size == 0 && h < n && h - h % size == h
    ensures h + size <= n
  {
    Multiple(n, size);
    Multiple(h, size);
    if h / size >= n / size {
      MulMono(n / size, h / size, size);
    } else {
      MulMono(h / size + 1, n / size, size);
      assert (h / size + 1) * size == h / size * size + size;
    }
  }

  lemma SameGroup(h: nat, x: nat, size: nat)
    requires size >= 1 && h - h % size == h
    ensures h <= x < h + size <==> Row(x, size) == Row(h, size)
    ensures h <= x < h + size ==> Head(x, size) == h
  {
    Multiple(h, size);
    assert x == x / size * size + x % size;
    if h <= x < h + size {
      DivRange(x, size, h / size);
    }
  }

  /** The drives `ks` are those of reserved pRaid `p`, as many as a pRaid needs. */
  ghost predicate DrivesOf(lists: seq<Listing>, ks: seq<int>, vpg: VolumeID, p: Uuid, disks: set<DiskID>) {
    && (forall k | 0 <= k < |ks| :: 0 <= ks[k] < |lists| && lists[ks[k]].disk in disks)
    && (forall x, y | 0 <= x < |lists| && y in Mine(lists[x].segs, vpg, p) :: lists[x].disk in disks)
  }

  lemma DriveHasPart(lists: seq<Listing>, v: Volume, chunk: seq<Avail>, segs: seq<Segment>, blocks: nat,
                     names: nat -> Uuid, base: nat,
                     h: nat, disks: set<DiskID>, ks: seq<int>, k: int) returns (x: nat)
    requires v.vpg.Some? && RoundOn(lists, v, chunk, segs, blocks, names, base)
    requires h < |chunk| && GroupAt(chunk, h, v.GroupSize(), chunk[h].pRaid)
    requires |disks| == v.GroupSize() && DrivesOf(lists, ks, v.vpg.value, chunk[h].pRaid, disks) && 0 <= k < |ks|
    ensures h <= x < h + v.GroupSize() && chunk[x].diskID == lists[ks[k]].disk
  {
    var l, vpg, p := lists[ks[k]], v.vpg.value, chunk[h].pRaid;
    assert chunk[h] in chunk;
    hide SoundList, Mine, OffersFrom, ReservedChunk, AvailOn, FirstLargest;
    EveryDriveContributes(lists, vpg, v.GroupSize(), v.stripeWidth, chunk[h], disks, ks[k]);
    PickOnDisk(l, vpg, p);
    x :| 0 <= x < |chunk| && chunk[x] == FirstLargest(AvailOn(l, vpg), p).value;
  }

  /** The round as one drive of a touched pRaid sees it. */
  ghost predicate RoundOnDrive(l: Listing, segs: seq<Segment>, h: nat, size: nat, vpg: VolumeID, p: Uuid, q: Uuid,
                               blocks: nat)
    requires h + size <= |segs|
  {
    && PlacedOn(l, []) == l
    && Untouched(l, PlacedOn(l, segs[..h]), vpg, p)
    && TakesAt(PlacedOn(l, segs[..h]), PlacedOn(l, segs[..h + size]), vpg, p, q, blocks)
    && Untouched(PlacedOn(l, segs[..h + size]), PlacedOn(l, segs), vpg, p)
  }

  lemma DriveInRound(lists: seq<Listing>, v: Volume, chunk: seq<Avail>, segs: seq<Segment>, blocks: nat,
                     names: nat -> Uuid, base: nat,
                     h: nat, disks: set<DiskID>, ks: seq<int>, k: int)
    requires v.vpg.Some? && RoundOn(lists, v, chunk, segs, blocks, names, base)
    requires h < |chunk| && Head(h, v.GroupSize()) == h && GroupAt(chunk, h, v.GroupSize(), chunk[h].pRaid)
    requires forall x | h <= x < h + v.GroupSize() :: x - x % v.GroupSize() == h
    requires |disks| == v.GroupSize() && DrivesOf(lists, ks, v.vpg.value, chunk[h].pRaid, disks) && 0 <= k < |ks|
    ensures |segs| == |chunk|
            && RoundOnDrive(lists[ks[k]], segs, h, v.GroupSize(), v.vpg.value, chunk[h].pRaid, segs[h].pRaid, blocks)
  {
    RoundFacts(lists, v, chunk, segs, blocks, names, base);
    DriveFacts(lists, ks, v.vpg.value, chunk[h].pRaid, disks);
    var x := DriveHasPart(lists, v, chunk, segs, blocks, names, base, h, disks, ks, k);
    var l, vpg, p, size := lists[ks[k]], v.vpg.value, chunk[h].pRaid, v.GroupSize();
    RoundIsCut(lists, v, chunk, segs, blocks, names, base, ks[k]);
    SamePRaid(chunk, segs, v, blocks, names, base, h, x);
    hide *;
    PlacedNone(l);
    GroupEnds(chunk, h, size, p);
    GroupOnDrive(l, vpg, chunk, segs, blocks, h, size, p, x);
    MakeRoundOnDrive(l, segs, h, size, vpg, p, segs[h].pRaid, blocks);
  }

  lemma PlacedNone(l: Listing)
    ensures PlacedOn(l, []) == l
  {
  }

  lemma GroupEnds(chunk: seq<Avail>, h: nat, size: nat, p: Uuid)
    requires GroupAt(chunk, h, size, p)
    ensures h + size <= |chunk|
  {
  }

  lemma MakeRoundOnDrive(l: Listing, segs: seq<Segment>, h: nat, size: nat, vpg: VolumeID, p: Uuid, q: Uuid,
                         blocks: nat)
    requires h + size <= |segs| && PlacedOn(l, []) == l
    requires Untouched(l, PlacedOn(l, segs[..h]), vpg, p)
    requires TakesAt(PlacedOn(l, segs[..h]), PlacedOn(l, segs[..h + size]), vpg, p, q, blocks)
    requires Untouched(PlacedOn(l, segs[..h + size]), PlacedOn(l, segs), vpg, p)
    ensures RoundOnDrive(l, segs, h, size, vpg, p, q, blocks)
  {
    hide Untouched, TakesAt, PlacedOn;
  }

  lemma RoundFacts(lists: seq<Listing>, v: Volume, chunk: seq<Avail>, segs: seq<Segment>, blocks: nat,
                   names: nat -> Uuid, base: nat)
    requires v.vpg.Some? && RoundOn(lists, v, chunk, segs, blocks, names, base)
    ensures |segs| == |chunk| && segs == RoundSegments(AsOffers(chunk), blocks, v, true, names, base)
    ensures chunk == ReservedChunk(OffersFrom(lists, v.vpg.value), v.GroupSize(), v.stripeWidth)
  {
    hide SoundList, ReservedChunk, OffersFrom;
  }

  lemma DriveFacts(lists: seq<Listing>, ks: seq<int>, vpg: VolumeID, p: Uuid, disks: set<DiskID>)
    requires DrivesOf(lists, ks, vpg, p, disks)
    ensures forall k | 0 <= k < |ks| :: 0 <= ks[k] < |lists|
  {
    hide Mine;
  }

  /** Storing the segments of a reserved chunk is, for each reserved pRaid it touches, one allocation on all of its
      drives at once, with changes elsewhere before and after. */
  lemma RoundIsHistory(lists: seq<Listing>, v: Volume, chunk: seq<Avail>, segs: seq<Segment>, blocks: nat,
                       names: nat -> Uuid, base: nat,
                       h: nat, disks: set<DiskID>, ks: seq<int>)
    requires v.vpg.Some? && RoundOn(lists, v, chunk, segs, blocks, names, base)
    requires h < |chunk| && Head(h, v.GroupSize()) == h
    requires |disks| == v.GroupSize() && DrivesOf(lists, ks, v.vpg.value, chunk[h].pRaid, disks)
    ensures var size := v.GroupSize();
            h + size <= |segs|
            && IsHistory([Pick(lists, ks, []), Pick(lists, ks, segs[..h]), Pick(lists, ks, segs[..h + size]),
                Pick(lists, ks, segs)],
                         [Other, Allocate(segs[h].pRaid, blocks), Other], v.vpg.value, chunk[h].pRaid)
  {
    hide *;
    var size, vpg, p := v.GroupSize(), v.vpg.value, chunk[h].pRaid;
    RoundFacts(lists, v, chunk, segs, blocks, names, base);
    DriveFacts(lists, ks, vpg, p, disks);
    ChunkTakesWholePRaids(OffersFrom(lists, vpg), size, v.stripeWidth);
    WholeGroup(chunk, size, h);
    GroupEnds(chunk, h, size, p);
    forall k | 0 <= k < |ks| ensures RoundOnDrive(lists[ks[k]], segs, h, size, vpg, p, segs[h].pRaid, blocks) {
      DriveInRound(lists, v, chunk, segs, blocks, names, base, h, disks, ks, k);
    }
    ThreeMoves(lists, ks, segs, h, size, vpg, p, segs[h].pRaid, blocks);
  }

  lemma ThreeMoves(lists: seq<Listing>, ks: seq<int>, segs: seq<Segment>, h: nat, size: nat, vpg: VolumeID, p: Uuid,
                   q: Uuid, blocks: nat)
    requires h + size <= |segs|
    requires forall k | 0 <= k < |ks| ::
               0 <= ks[k] < |lists| && RoundOnDrive(lists[ks[k]], segs, h, size, vpg, p, q, blocks)
    ensures IsHistory([Pick(lists, ks, []), Pick(lists, ks, segs[..h]), Pick(lists, ks, segs[..h + size]), Pick(lists,
            ks, segs)],
                      [Other, Allocate(q, blocks), Other], vpg, p)
  {
    hide Untouched, TakesAt, PlacedOn;
    var states := [Pick(lists, ks, []), Pick(lists, ks, segs[..h]), Pick(lists, ks, segs[..h + size]), Pick(lists, ks,
        segs)];
    assert Elsewhere(states[0], states[1], vpg, p);
    assert Allocates(states[1], states[2], vpg, p, q, blocks);
    assert Elsewhere(states[2], states[3], vpg, p);
  }

  lemma SamePRaid(chunk: seq<Avail>, segs: seq<Segment>, v: Volume, blocks: nat, names: nat -> Uuid, base: nat,
                  h: nat, x: nat)
    requires segs == RoundSegments(AsOffers(chunk), blocks, v, true, names, base) && h < |chunk| && x < |chunk|
    requires x - x % v.GroupSize() == h && h - h % v.GroupSize() == h
    ensures segs[x].pRaid == segs[h].pRaid
  {
  }

  /** So a round keeps the drives of every reserved pRaid it touches used alike. */
  lemma RoundKeepsUsedAlike(lists: seq<Listing>, v: Volume, chunk: seq<Avail>, segs: seq<Segment>, blocks: nat,
                           names: nat -> Uuid, base: nat,
                           h: nat, disks: set<DiskID>, ks: seq<int>)
    requires v.vpg.Some? && RoundOn(lists, v, chunk, segs, blocks, names, base)
    requires h < |chunk| && Head(h, v.GroupSize()) == h
    requires |disks| == v.GroupSize() && DrivesOf(lists, ks, v.vpg.value, chunk[h].pRaid, disks)
    requires UsedAlike(Pick(lists, ks, []), v.vpg.value, chunk[h].pRaid)
    ensures UsedAlike(Pick(lists, ks, segs), v.vpg.value, chunk[h].pRaid)
  {
    hide *;
    RoundIsHistory(lists, v, chunk, segs, blocks, names, base, h, disks, ks);
    DriveFacts(lists, ks, v.vpg.value, chunk[h].pRaid, disks);
    var size := v.GroupSize();
    var states := [Pick(lists, ks, []), Pick(lists, ks, segs[..h]), Pick(lists, ks, segs[..h + size]), Pick(lists, ks,
        segs)];
    HistoryKeepsUsedAlike(states, [Other, Allocate(segs[h].pRaid, blocks), Other], v.vpg.value, chunk[h].pRaid, 3);
  }

  /** And it leaves the others as they are. */
  lemma RoundElsewhere(lists: seq<Listing>, v: Volume, chunk: seq<Avail>, segs: seq<Segment>, blocks: nat,
                       names: nat -> Uuid, base: nat,
                       p: Uuid, ks: seq<int>)
    requires v.vpg.Some? && RoundOn(lists, v, chunk, segs, blocks, names, base)
    requires (forall x | 0 <= x < |chunk| :: chunk[x].pRaid != p) && forall k | 0 <= k < |ks| :: 0 <= ks[k] < |lists|
    ensures Elsewhere(Pick(lists, ks, []), Pick(lists, ks, segs), v.vpg.value, p)
  {
    forall k | 0 <= k < |ks| ensures Untouched(PlacedOn(lists[ks[k]], []), PlacedOn(lists[ks[k]], segs), v.vpg.value,
           p) {
      RoundIsCut(lists, v, chunk, segs, blocks, names, base, ks[k]);
      RoundUntouched(lists[ks[k]], v.vpg.value, chunk, segs, blocks, 0, |segs|, p);
      assert segs[..|segs|] == segs && segs[..0] == [];
    }
  }
}
