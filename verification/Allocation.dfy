/** `allocateBlocks`: round after round it asks for drives, places one chunk on them and goes on until the
    request is served, the drives are used up or nothing is left to try. */
module Allocation {
  import opened Ranges
  import opened Drives
  import opened DriveStore
  import opened Options
  import opened Chunks
  import opened Arith
  import opened ReservedSpace
  import opened AllocationSpec

  // ------------------------------------------------------ segments of a round

  function SegmentFor(o: Offer, blocks: nat, v: Volume, fromReserved: bool, id: Uuid, pRaid: Uuid): Segment {
    Segment(id, o.disk, v.id, pRaid, o.lbs, o.lbs + blocks - 1, v.isReserved, fromReserved,
            if fromReserved then o.reserved else NO_UUID, Idle)
  }

  /** Round `base` names its segments and pRaids from the stream of new uuids. */
  function RoundSegments(offers: seq<Offer>, blocks: nat, v: Volume, fromReserved: bool, names: nat -> Uuid,
                         base: nat): (r: seq<Segment>)
    ensures |r| == |offers|
    ensures forall i | 0 <= i < |r| ::
              && r[i].uuid == names(base + 2 * i) && r[i].diskID == offers[i].disk && r[i].volume == v.id
              && r[i].lbs == offers[i].lbs && r[i].lbe == offers[i].lbs + blocks - 1
              && r[i].isReserved == v.isReserved && r[i].fromReserved == fromReserved && r[i].pendingReclaim == Idle
              && r[i].reservedUUID == (if fromReserved then offers[i].reserved else NO_UUID)
  {
    seq(|offers|, i requires 0 <= i < |offers| =>
      SegmentFor(offers[i], blocks, v, fromReserved, names(base + 2 * i),
          names(base + 2 * (i - i % v.GroupSize()) + 1)))
  }

  /** Every `size` segments form a pRaid. */
  function Grouping(segs: seq<Segment>, size: nat): seq<seq<Segment>>
    requires size >= 1
  {
    if segs == [] then []
    else
      var n := |segs| - 1;
      var groups := Grouping(segs[..n], size);
      if n % size == 0 || groups == [] then groups + [[segs[n]]]
      else groups[|groups| - 1 := groups[|groups| - 1] + [segs[n]]]
  }

  lemma FlattenSnoc(groups: seq<seq<Segment>>, g: seq<Segment>)
    ensures Flatten(groups + [g]) == Flatten(groups) + g
  {
    if groups == [] {
      assert [g][1..] == [];
      assert Flatten([g]) == g + [];
    } else {
      FlattenSnoc(groups[1..], g);
      assert (groups + [g])[1..] == groups[1..] + [g];
    }
  }

  /** Where segment `n` of a round goes: group `n / size`, place `n % size`. */
  lemma NextIndex(n: nat, size: nat)
    requires size >= 1
    ensures n % size == 0 && n > 0 ==> n / size == (n - 1) / size + 1 && (n - 1) % size == size - 1
    ensures n % size != 0 ==> n / size == (n - 1) / size && n % size == (n - 1) % size + 1
    ensures n == n / size * size + n % size
  {
    var q, r := n / size, n % size;
    assert n == q * size + r;
    if r == 0 && n > 0 {
      assert (q - 1) * size == q * size - size;
      DivRange(n - 1, size, q - 1);
    } else if r != 0 {
      DivRange(n - 1, size, q);
    }
  }

  lemma {:induction false} GroupingFlat(segs: seq<Segment>, size: nat)
    requires size >= 1
    ensures Flatten(Grouping(segs, size)) == segs
    decreases |segs|
  {
    if segs != [] {
      var n := |segs| - 1;
      GroupingFlat(segs[..n], size);
      var prev := Grouping(segs[..n], size);
      assert segs == segs[..n] + [segs[n]];
      if n % size == 0 || prev == [] {
        FlattenSnoc(prev, [segs[n]]);
      } else {
        LastGrows(prev, segs[n]);
      }
    }
  }

  lemma LastGrows(groups: seq<seq<Segment>>, s: Segment)
    requires groups != []
    ensures Flatten(groups[|groups| - 1 := groups[|groups| - 1] + [s]]) == Flatten(groups) + [s]
  {
    var last := |groups| - 1;
    FlattenSnoc(groups[..last], groups[last]);
    FlattenSnoc(groups[..last], groups[last] + [s]);
    assert groups == groups[..last] + [groups[last]];
    assert groups[last := groups[last] + [s]] == groups[..last] + [groups[last] + [s]];
  }

  lemma {:induction false} GroupingSizes(segs: seq<Segment>, size: nat)
    requires size >= 1
    ensures var groups := Grouping(segs, size);
            && (segs == [] <==> groups == [])
            && (segs != [] ==> |groups| == (|segs| - 1) / size + 1 && |groups[|groups| - 1]| == (|segs| - 1) % size + 1)
            && (forall j | 0 <= j < |groups| - 1 :: |groups[j]| == size)
    decreases |segs|
  {
    if segs != [] {
      var n := |segs| - 1;
      GroupingSizes(segs[..n], size);
      if n > 0 {
        NextIndex(n, size);
      } else {
        DivRange(0, size, 0);
      }
    }
  }

  /** A full round gives `k` pRaids of `size` segments each. */
  lemma FullRound(segs: seq<Segment>, size: nat, k: nat)
    requires size >= 1 && k >= 1 && |segs| == size * k
    ensures var groups := Grouping(segs, size);
            |groups| == k && (forall j | 0 <= j < k :: |groups[j]| == size) && Flatten(groups) == segs
  {
    GroupingFlat(segs, size);
    GroupingSizes(segs, size);
    MulMono(1, k, size);
    assert (k - 1) * size == k * size - size;
    DivRange(|segs| - 1, size, k - 1);
  }

  // ---------------------------------------------------------- what is offered

  /** Drives answer with their cached largest range, each drive at most once. */
  ghost predicate HonestFree(docs: Docs, offers: seq<Offer>, v: Volume) {
    && |offers| <= v.NumberOfDisks()
    && (forall i | 0 <= i < |offers| ::
          && offers[i].disk in docs && 1 <= offers[i].blocks
          && offers[i].lbs == docs[offers[i].disk].largest.lbs
              && offers[i].blocks == docs[offers[i].disk].largest.blocks)
    && (forall i, j | 0 <= i < j < |offers| :: offers[i].disk != offers[j].disk)
  }

  type FreeQuery = (Docs, Option<seq<DiskID>>) -> seq<Offer>

  ghost predicate HonestQuery(free: FreeQuery, v: Volume) {
    forall docs, used :: HonestFree(docs, free(docs, used), v)
  }

  /** The drives a reserved query may list; `None` when the query failed. */
  type ListQuery = (Docs, Option<seq<DiskID>>) -> Option<seq<DiskID>>

  ghost predicate HonestIds(docs: Docs, ids: seq<DiskID>) {
    (forall i | 0 <= i < |ids| :: ids[i] in docs) && (forall i, j | 0 <= i < j < |ids| :: ids[i] != ids[j])
  }

  ghost predicate HonestList(list: ListQuery) {
    forall docs, used :: list(docs, used).Some? ==> HonestIds(docs, list(docs, used).value)
  }

  function AsOffers(chunk: seq<Avail>): (r: seq<Offer>)
    ensures |r| == |chunk|
            && forall i | 0 <= i < |r| :: r[i]
                == Offer(chunk[i].diskID, chunk[i].lbs, chunk[i].Blocks(), chunk[i].reserved)
  {
    seq(|chunk|, i requires 0 <= i < |chunk| => Offer(chunk[i].diskID, chunk[i].lbs, chunk[i].Blocks(),
        chunk[i].reserved))
  }

  ghost predicate FreshNames(docs: Docs, names: nat -> Uuid, base: nat) {
    && (forall i: nat, j: nat :: names(i) == names(j) ==> i == j)
    && (forall i: nat, d | base <= i && d in docs :: names(i) !in docs[d].segs)
  }

  /** A round on free space can be placed, every segment of it. */
  lemma FreeRoundFits(docs: Docs, offers: seq<Offer>, v: Volume, blocks: nat, names: nat -> Uuid, base: nat)
    requires ValidDocs(docs) && HonestFree(docs, offers, v) && FreshNames(docs, names, base)
    requires 2 <= blocks && forall i | 0 <= i < |offers| :: blocks <= offers[i].blocks
    ensures CanPlaceAll(docs, RoundSegments(offers, blocks, v, false, names, base))
  {
    hide ValidDoc, LargestSegment;
    var segs := RoundSegments(offers, blocks, v, false, names, base);
    forall i | 0 <= i < |segs| ensures CanPlace(docs, segs[i]) {
      LargestIsFree(docs[offers[i].disk], blocks);
    }
  }

  /** The lists the reserved query works on are those of the stored drives. */
  ghost predicate ListsOfDocs(docs: Docs, lists: seq<Listing>) {
    && DistinctDisks(lists)
    && (forall i | 0 <= i < |lists| :: lists[i].disk in docs && Lists(lists[i].segs, docs[lists[i].disk].segs))
  }

  ghost predicate InReserved(d: DriveDoc, a: Avail) {
    && a.reserved in d.segs && d.segs[a.reserved].isReserved && a.pRaid == d.segs[a.reserved].pRaid
    && a.Span().Nonempty() && a.Span().Within(d.segs[a.reserved].Span())
    && (forall u | u in d.segs && !d.segs[u].isReserved :: !d.segs[u].Span().Meets(a.Span()))
  }

  lemma UnusedInDoc(l: Listing, vpg: VolumeID, a: Avail, k: int, d: DriveDoc)
    requires InUnused(l, vpg, a, k) && Lists(l.segs, d.segs) && ValidDoc(d)
    ensures InReserved(d, a)
  {
    forall u | u in d.segs && !d.segs[u].isReserved ensures !d.segs[u].Span().Meets(a.Span()) {
      assert WellPlaced(d, d.segs[u]);
      var j :| 0 <= j < |l.segs| && l.segs[j] == d.segs[u];
    }
  }

  lemma ReservedOffer(docs: Docs, lists: seq<Listing>, vpg: VolumeID, a: Avail)
    requires ListsOfDocs(docs, lists) && a in OffersFrom(lists, vpg) && ValidDocs(docs)
    ensures a.diskID in docs && InReserved(docs[a.diskID], a)
  {
    OffersKnown(lists, vpg);
    var i :| 0 <= i < |lists| && a in Picks(AvailOn(lists[i], vpg));
    hide Picks, AvailOn, OffersFrom, InReserved, InUnused, Lists, ValidDoc;
    var k := PickIsUnused(lists[i], vpg, a);
    UnusedDisk(lists[i], vpg, a, k);
    UnusedInDoc(lists[i], vpg, a, k, docs[lists[i].disk]);
  }

  lemma ReservedPairApart(docs: Docs, lists: seq<Listing>, vpg: VolumeID, a: Avail, b: Avail)
    requires ListsOfDocs(docs, lists) && ValidDocs(docs) && a in OffersFrom(lists, vpg) && b in OffersFrom(lists, vpg)
    requires a.diskID == b.diskID && a.pRaid != b.pRaid
    ensures !a.Span().Meets(b.Span())
  {
    ReservedOffer(docs, lists, vpg, a);
    ReservedOffer(docs, lists, vpg, b);
    var d := docs[a.diskID];
    assert ValidDoc(d);
    hide OffersFrom, Accounted, CacheHonest, ListsOfDocs, ValidDocs;
    assert Compatible(d.segs[a.reserved], d.segs[b.reserved]);
    assert WellPlaced(d, d.segs[a.reserved]) && WellPlaced(d, d.segs[b.reserved]);
  }

  lemma ReservedFits(docs: Docs, s: Segment, a: Avail, blocks: nat)
    requires a.diskID in docs && InReserved(docs[a.diskID], a) && 1 <= blocks <= a.Blocks()
    requires s.diskID == a.diskID && s.Span() == Range(a.lbs, a.lbs + blocks - 1) && s.uuid !in docs[a.diskID].segs
    requires !s.isReserved && s.fromReserved && s.reservedUUID == a.reserved
    ensures CanPlace(docs, s) && s.Span().Within(a.Span())
  {
  }

  /** Ranges of unused reserved space that do not get in each other's way. */
  ghost predicate ChunkFits(docs: Docs, chunk: seq<Avail>) {
    && (forall i | 0 <= i < |chunk| :: chunk[i].diskID in docs && InReserved(docs[chunk[i].diskID], chunk[i]))
    && (forall i, j | 0 <= i < j < |chunk|
        && chunk[i].diskID == chunk[j].diskID :: !chunk[i].Span().Meets(chunk[j].Span()))
  }

  lemma OffersFit(docs: Docs, lists: seq<Listing>, vpg: VolumeID, chunk: seq<Avail>)
    requires ValidDocs(docs) && ListsOfDocs(docs, lists) && DistinctKeys(chunk)
    requires forall a | a in chunk :: a in OffersFrom(lists, vpg)
    ensures ChunkFits(docs, chunk)
  {
    hide OffersFrom, ListsOfDocs, ValidDocs, InReserved;
    forall i | 0 <= i < |chunk| ensures chunk[i].diskID in docs && InReserved(docs[chunk[i].diskID], chunk[i]) {
      assert chunk[i] in chunk;
      ReservedOffer(docs, lists, vpg, chunk[i]);
    }
    forall i, j | 0 <= i < j < |chunk|
           && chunk[i].diskID == chunk[j].diskID ensures !chunk[i].Span().Meets(chunk[j].Span()) {
      assert chunk[i] in chunk && chunk[j] in chunk;
      ReservedPairApart(docs, lists, vpg, chunk[i], chunk[j]);
    }
  }

  lemma ReservedChunkFits(docs: Docs, lists: seq<Listing>, vpg: VolumeID, size: nat, stripes: nat)
    requires ValidDocs(docs) && ListsOfDocs(docs, lists) && size >= 1
    ensures ChunkFits(docs, ReservedChunk(OffersFrom(lists, vpg), size, stripes))
  {
    assert DistinctDisks(lists);
    hide *;
    OffersKnown(lists, vpg);
    ChunkTakesWholePRaids(OffersFrom(lists, vpg), size, stripes);
    ChunkDistinct(OffersFrom(lists, vpg), size, stripes);
    OffersFit(docs, lists, vpg, ReservedChunk(OffersFrom(lists, vpg), size, stripes));
  }

  /** A round inside reserved space can be placed, every segment of it. */
  lemma ReservedRoundFits(docs: Docs, v: Volume, chunk: seq<Avail>, blocks: nat, names: nat -> Uuid, base: nat)
    requires FreshNames(docs, names, base) && !v.isReserved && ChunkFits(docs, chunk)
    requires 1 <= blocks && forall i | 0 <= i < |chunk| :: blocks <= chunk[i].Blocks()
    ensures CanPlaceAll(docs, RoundSegments(AsOffers(chunk), blocks, v, true, names, base))
  {
    hide CanPlace, InReserved;
    var segs := RoundSegments(AsOffers(chunk), blocks, v, true, names, base);
    forall i | 0 <= i < |segs| ensures CanPlace(docs, segs[i]) && segs[i].Span().Within(chunk[i].Span()) {
      ReservedFits(docs, segs[i], chunk[i], blocks);
    }
  }
}
