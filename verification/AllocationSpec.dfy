/** What one round of `allocateBlocks` places, and what placing does to the drives. */
module AllocationSpec {
  import opened Ranges
  import opened Drives
  import opened DriveStore
  import opened Options
  import opened Arith
  import opened Chunks

  const BLOCK_SET_SIZE := 256

  datatype Raid = Plain | Mirrored(mirrors: nat) | Coded(data: nat, parity: nat, striped: bool)

  datatype Volume = Volume(id: VolumeID, raid: Raid, stripeWidth: nat, stripeSize: nat,
                           isReserved: bool, vpg: Option<VolumeID>, allowOverflow: bool) {
    predicate WellFormed() {
      && stripeWidth >= 1 && stripeSize >= 1
      && (raid.Mirrored? ==> raid.mirrors >= 1)
      && (raid.Coded? ==> raid.data >= 1 && raid.parity >= 1)
    }

    /** Disk segments of one pRaid. */
    function GroupSize(): (n: nat)
      ensures n >= 1
    {
      match raid
      case Plain => 1
      case Mirrored(mirrors) => mirrors + 1
      case Coded(data, parity, _) => if data + parity == 0 then 1 else data + parity
    }

    function NumberOfDisks(): nat { GroupSize() * stripeWidth }

    /** Virtual blocks per block of a segment. */
    function Multiplier(): (n: nat)
      requires WellFormed()
      ensures n >= 1
    {
      if raid.Coded? then
        assert raid.data * stripeWidth >= 1 by { Positive(raid.data, stripeWidth); }
        raid.data * stripeWidth
      else stripeWidth
    }

    function BlockSetSize(): (n: nat)
      requires WellFormed()
      ensures n >= BLOCK_SET_SIZE
    {
      if raid.Coded? && raid.striped then BLOCK_SET_SIZE * raid.data else BLOCK_SET_SIZE
    }
  }

  datatype Request = MaxCapacity | Fixed(blocks: nat)

  function RoundBlocksToNearestBlockSet(blocks: nat, v: Volume): (r: nat)
    requires v.WellFormed()
    ensures r == 1 || (r % v.BlockSetSize() == 0 && r >= v.BlockSetSize())
    ensures blocks >= v.BlockSetSize() ==> 0 <= blocks - r < v.BlockSetSize() && r % v.BlockSetSize() == 0
    ensures r == 1 <==> blocks < v.BlockSetSize()
  {
    var size := v.BlockSetSize();
    WholeSets(blocks, size);
    var whole := RoundDown(blocks, size);
    if whole == 0 then 1 else whole
  }

  /** `Math.floor(n / size) * size`. */
  function RoundDown(n: nat, size: nat): (r: nat)
    requires size >= 1
    ensures r <= n < r + size && r % size == 0
  {
    Whole(n, size);
    n / size * size
  }

  /** The length of the segments of the next chunk. */
  function ChunkBlocks(todo: nat, isMax: bool, smallest: nat, v: Volume): nat
    requires v.WellFormed()
  {
    if todo <= smallest && !isMax then todo
    else if v.raid.Mirrored? then RoundDown(smallest, v.BlockSetSize())
    else RoundDown(RoundDown(smallest, v.stripeSize), v.BlockSetSize())
  }

  lemma RoundDownMost(n: nat, size: nat, b: nat)
    requires size >= 1 && b % size == 0 && b <= n
    ensures b <= RoundDown(n, size)
  {
    var k := b / size;
    assert b == k * size;
    Side(n, k, size);
    MulMono(k, n / size, size);
  }

  /** Blocks that a drive can give to the segments of this volume: as they are to a mirrored one, in whole stripes to
      the others. */
  ghost predicate CanGive(v: Volume, smallest: nat, blocks: nat)
    requires v.WellFormed()
  {
    if v.raid.Mirrored? then blocks <= smallest
    else exists w: nat :: w % v.stripeSize == 0 && blocks <= w <= smallest
  }

  /** The segments of a chunk take all that is left if it fits, and otherwise as many whole block sets as the smallest
      drive can give. */
  lemma ChunkBlocksMost(todo: nat, isMax: bool, smallest: nat, v: Volume)
    requires v.WellFormed()
    ensures !isMax && todo <= smallest ==> ChunkBlocks(todo, isMax, smallest, v) == todo
    ensures isMax || todo > smallest ==>
              var blocks := ChunkBlocks(todo, isMax, smallest, v);
              && blocks % v.BlockSetSize() == 0 && CanGive(v, smallest, blocks)
              && forall b: nat | b % v.BlockSetSize() == 0 && CanGive(v, smallest, b) :: b <= blocks
  {
    var size := v.BlockSetSize();
    if isMax || todo > smallest {
      var whole := RoundDown(smallest, v.stripeSize);
      forall b: nat | b % size == 0 && CanGive(v, smallest, b) ensures b <= ChunkBlocks(todo, isMax, smallest, v) {
        if v.raid.Mirrored? {
          RoundDownMost(smallest, size, b);
        } else {
          var w: nat :| w % v.stripeSize == 0 && b <= w <= smallest;
          RoundDownMost(smallest, v.stripeSize, w);
          RoundDownMost(whole, size, b);
        }
      }
      assert whole % v.stripeSize == 0 && ChunkBlocks(todo, isMax, smallest, v) <= smallest;
    }
  }

  /** The blocks of a chunk on all its drives together are its virtual blocks times the redundancy of the volume. */
  lemma RedundancyConserved(v: Volume)
    requires v.WellFormed()
    ensures v.raid.Plain? ==> v.NumberOfDisks() == v.Multiplier()
    ensures v.raid.Mirrored? ==> v.NumberOfDisks() == v.Multiplier() * (v.raid.mirrors + 1)
    ensures v.raid.Coded? ==>
              v.NumberOfDisks() * v.raid.data == v.Multiplier() * (v.raid.data + v.raid.parity)
    ensures v.Multiplier() % v.stripeWidth == 0
  {
    if v.raid.Coded? {
      Reorder(v.raid.data + v.raid.parity, v.stripeWidth, v.raid.data);
      DivRange(v.raid.data * v.stripeWidth, v.stripeWidth, v.raid.data);
    }
  }

  lemma Reorder(a: int, b: int, c: int)
    ensures a * b * c == c * b * a
  {
  }

  /** A block set gives each data segment of a striped erasure coded pRaid 256 blocks, and any other 256 blocks. */
  lemma BlockSetsPerSegment(v: Volume)
    requires v.WellFormed()
    ensures v.BlockSetSize() % 256 == 0
    ensures v.BlockSetSize() / 256 == if v.raid.Coded? && v.raid.striped then v.raid.data else 1
  {
    if v.raid.Coded? && v.raid.striped {
      DivRange(v.raid.data * 256, 256, v.raid.data);
    }
  }

  /** What a query offers on one drive: a start and a length, in reserved segment `reserved` or in free space. */
  datatype Offer = Offer(disk: DiskID, lbs: int, blocks: int, reserved: Uuid)

  function Smallest(offers: seq<Offer>): int
    requires offers != []
  {
    if |offers| == 1 then offers[0].blocks
    else Min(Smallest(offers[..|offers| - 1]), offers[|offers| - 1].blocks)
  }

  lemma {:induction false} SmallestIs(offers: seq<Offer>)
    requires offers != []
    ensures forall i | 0 <= i < |offers| :: Smallest(offers) <= offers[i].blocks
    ensures exists i :: 0 <= i < |offers| && Smallest(offers) == offers[i].blocks
    decreases |offers|
  {
    if |offers| > 1 {
      var n := |offers| - 1;
      SmallestIs(offers[..n]);
      var i :| 0 <= i < n && Smallest(offers[..n]) == offers[..n][i].blocks;
      assert offers[i].blocks == Smallest(offers[..n]);
      assert forall j | 0 <= j < n :: offers[j] == offers[..n][j];
    } else {
      assert offers[0].blocks == Smallest(offers);
    }
  }

  function CountAtLeast(offers: seq<Offer>, blocks: int): nat {
    if offers == [] then 0
    else CountAtLeast(offers[..|offers| - 1], blocks) + if offers[|offers| - 1].blocks >= blocks then 1 else 0
  }

  lemma {:induction false} AllAtLeast(offers: seq<Offer>, blocks: int)
    ensures CountAtLeast(offers, blocks) <= |offers|
    ensures CountAtLeast(offers, blocks) == |offers| ==> forall i | 0 <= i < |offers| :: offers[i].blocks >= blocks
    decreases |offers|
  {
    if offers != [] {
      AllAtLeast(offers[..|offers| - 1], blocks);
    }
  }

  /** `receivedEnoughDataDisks` together with the count of all offers. */
  predicate Enough(offers: seq<Offer>, v: Volume)
    requires v.WellFormed()
  {
    CountAtLeast(offers, v.BlockSetSize()) >= v.NumberOfDisks() && |offers| >= v.NumberOfDisks()
  }

  lemma AtLeastOneSet(n: nat, size: nat)
    requires size >= 2 && n >= size
    ensures RoundDown(n, size) >= size
  {
    WholeSets(n, size);
  }

  /** Rounding to stripes and then to block sets leaves at least a block set of every large enough range. */
  predicate StripesFitSets(v: Volume)
    requires v.WellFormed()
  {
    v.raid.Mirrored? || v.BlockSetSize() % v.stripeSize == 0
  }

  lemma BelowOneSet(n: nat, size: nat)
    requires size >= 1 && n < size
    ensures RoundDown(n, size) == 0
  {
    DivRange(n, size, 0);
  }

  lemma NotWhole(size: nat, stripe: nat)
    requires size >= 1 && stripe >= 1 && size % stripe != 0
    ensures RoundDown(size, stripe) < size
  {
    if RoundDown(size, stripe) == size {
      Whole(size, stripe);
    }
  }

  /** The stripes fit exactly when every range of at least a block set gives a chunk; otherwise a range of
      exactly one block set is rounded away. */
  lemma StripesFitExactly(v: Volume, todo: nat)
    requires v.WellFormed()
    ensures StripesFitSets(v) <==> forall s: nat | s >= v.BlockSetSize() :: ChunkBlocks(todo, true, s, v) >= 1
    ensures !StripesFitSets(v) ==> forall isMax | isMax
            || todo > v.BlockSetSize() :: ChunkBlocks(todo, isMax, v.BlockSetSize(), v) == 0
  {
    var size := v.BlockSetSize();
    if StripesFitSets(v) {
      forall s: nat | s >= size ensures ChunkBlocks(todo, true, s, v) >= 1 {
        RangeGivesSet(v, s);
      }
    } else {
      NotWhole(size, v.stripeSize);
      BelowOneSet(RoundDown(size, v.stripeSize), size);
      assert ChunkBlocks(todo, true, size, v) == 0;
    }
  }

  lemma RangeGivesSet(v: Volume, s: nat)
    requires v.WellFormed() && StripesFitSets(v) && s >= v.BlockSetSize()
    ensures ChunkBlocks(0, true, s, v) >= v.BlockSetSize()
  {
    var size := v.BlockSetSize();
    if v.raid.Mirrored? {
      AtLeastOneSet(s, size);
    } else {
      StripesFit(s, v.stripeSize, size);
      AtLeastOneSet(RoundDown(s, v.stripeSize), size);
    }
  }

  /** With enough drives a round always has at least a block set to place, or places all that is left. */
  lemma EnoughPlaces(offers: seq<Offer>, v: Volume, todo: nat, isMax: bool)
    requires v.WellFormed() && Enough(offers, v) && 0 < |offers| <= v.NumberOfDisks()
    requires StripesFitSets(v) || (!isMax && todo <= v.BlockSetSize())
    ensures Smallest(offers) >= v.BlockSetSize()
    ensures !(todo <= Smallest(offers) && !isMax) ==> ChunkBlocks(todo, isMax, Smallest(offers), v) >= v.BlockSetSize()
  {
    AllAtLeast(offers, v.BlockSetSize());
    SmallestIs(offers);
    if StripesFitSets(v) {
      RangeGivesSet(v, Smallest(offers));
    }
  }

  /** A round never places more than is left, and never more than each drive offers. */
  lemma ChunkBlocksFit(offers: seq<Offer>, v: Volume, todo: nat, isMax: bool)
    requires v.WellFormed() && offers != [] && Smallest(offers) >= 0
    ensures var blocks := ChunkBlocks(todo, isMax, Smallest(offers), v);
            && blocks <= Smallest(offers)
            && (!isMax ==> blocks <= todo)
            && ((blocks == todo && !isMax) || blocks % v.BlockSetSize() == 0)
  {
  }

  // ------------------------------------------------------------- placing

  type Docs = map<DiskID, DriveDoc>

  ghost predicate ValidDocs(docs: Docs) {
    forall d | d in docs :: ValidDoc(docs[d]) && CacheHonest(docs[d])
  }

  ghost function Placed(docs: Docs, s: Segment): Docs {
    if s.diskID in docs then docs[s.diskID := WithSegment(docs[s.diskID], s)] else docs
  }

  ghost function PlaceAll(docs: Docs, segs: seq<Segment>): Docs {
    if segs == [] then docs
    else Placed(PlaceAll(docs, segs[..|segs| - 1]), segs[|segs| - 1])
  }

  /** The segments that go to one drive, in order. */
  function OnDisk(segs: seq<Segment>, d: DiskID): seq<Segment> {
    if segs == [] then []
    else OnDisk(segs[..|segs| - 1], d) + if segs[|segs| - 1].diskID == d then [segs[|segs| - 1]] else []
  }

  /** No drive has a segment of these names yet. */
  ghost predicate NewTo(docs: Docs, segs: seq<Segment>) {
    forall i | 0 <= i < |segs| && segs[i].diskID in docs :: segs[i].uuid !in docs[segs[i].diskID].segs
  }

  lemma NewToBoth(docs: Docs, a: seq<Segment>, b: seq<Segment>)
    requires NewTo(docs, a) && NewTo(docs, b)
    ensures NewTo(docs, a + b)
  {
  }

  lemma {:induction false} PlaceConcat(docs: Docs, a: seq<Segment>, b: seq<Segment>)
    ensures PlaceAll(docs, a + b) == PlaceAll(PlaceAll(docs, a), b)
    decreases |b|
  {
    hide Placed;
    if b == [] {
      assert a + b == a;
    } else {
      var n := |b| - 1;
      PlaceConcat(docs, a, b[..n]);
      assert (a + b)[..|a + b| - 1] == a + b[..n];
    }
  }

  ghost predicate CanPlace(docs: Docs, s: Segment) {
    s.diskID in docs && FromAllocator(docs[s.diskID], s)
  }

  /** Two segments that can both be placed, in either order. */
  predicate Apart(s: Segment, t: Segment) {
    s.uuid != t.uuid && (s.diskID != t.diskID || (s.fromReserved && t.fromReserved && !s.Span().Meets(t.Span())))
  }

  lemma PlaceKeepsOther(docs: Docs, s: Segment, t: Segment)
    requires ValidDocs(docs) && CanPlace(docs, s) && CanPlace(docs, t) && Apart(s, t)
    ensures CanPlace(Placed(docs, s), t)
  {
    if s.diskID == t.diskID {
      var d := docs[s.diskID];
      var e := WithSegment(d, s);
      assert e.segs == d.segs[s.uuid := s];
    }
  }

  lemma PlaceKeepsValid(docs: Docs, s: Segment)
    requires ValidDocs(docs) && CanPlace(docs, s)
    ensures ValidDocs(Placed(docs, s)) && Placed(docs, s).Keys == docs.Keys
  {
    hide ValidDoc, CacheHonest, WithSegment, FromAllocator;
    AddKeeps(docs[s.diskID], s);
  }

  ghost predicate CanPlaceAll(docs: Docs, segs: seq<Segment>) {
    && (forall i | 0 <= i < |segs| :: CanPlace(docs, segs[i]))
    && (forall i, j | 0 <= i < j < |segs| :: Apart(segs[i], segs[j]))
  }

  /** None of the segments of a chunk is in the way of another: all of them are stored. */
  lemma {:induction false} PlacePrefix(docs: Docs, segs: seq<Segment>, n: nat)
    requires ValidDocs(docs) && CanPlaceAll(docs, segs) && n <= |segs|
    ensures ValidDocs(PlaceAll(docs, segs[..n])) && PlaceAll(docs, segs[..n]).Keys == docs.Keys
    ensures forall i | n <= i < |segs| :: CanPlace(PlaceAll(docs, segs[..n]), segs[i])
    decreases n
  {
    hide ValidDocs, CanPlace, Placed;
    if n == 0 {
      assert segs[..0] == [];
    } else {
      PlacePrefix(docs, segs, n - 1);
      assert segs[..n][..n - 1] == segs[..n - 1];
      var before := PlaceAll(docs, segs[..n - 1]);
      assert PlaceAll(docs, segs[..n]) == Placed(before, segs[n - 1]);
      PlaceKeepsValid(before, segs[n - 1]);
      hide PlaceAll;
      forall i | n <= i < |segs| ensures CanPlace(Placed(before, segs[n - 1]), segs[i]) {
        assert Apart(segs[n - 1], segs[i]);
        PlaceKeepsOther(before, segs[n - 1], segs[i]);
      }
    }
  }
}
