/** The allocation loop and what it guarantees: it ends, its chunks tile the volume, no drive turns away
    what it chose, and a failed allocation can be undone without a trace. */
module AllocateBlocks {
  import opened Ranges
  import opened Drives
  import opened DriveStore
  import opened Options
  import opened Chunks
  import opened Arith
  import opened ReservedSpace
  import opened AllocationSpec
  import opened Allocation
  import opened AllocationHeap
  import SharedGapsHistory
  import ReservedRounds

  /** `triedToTakeChunkFromReserved`, `triedToTakeChunkFromUsedResources` and
      `triedToTakeReservedChunkFromUsedResources`. */
  datatype Tried = Tried(reserved: bool, used: bool, usedReserved: bool) {
    function Left(): nat {
      (if reserved then 0 else 1) + (if used then 0 else 1) + (if usedReserved then 0 else 1)
    }
  }

  function AllSegments(chunks: seq<Chunk>): seq<Segment> {
    if chunks == [] then [] else AllSegments(chunks[..|chunks| - 1]) + Flatten(chunks[|chunks| - 1].pRaids)
  }

  /** `stripeWidth` pRaids, each of one segment per mirror or per data and parity share, all of one length. */
  ghost predicate WellShaped(c: Chunk, v: Volume) {
    && HasRef(c) && |c.pRaids| == v.stripeWidth
    && (forall p | 0 <= p < |c.pRaids| :: |c.pRaids[p]| == v.GroupSize())
    && (forall p, k | 0 <= p < |c.pRaids| && 0 <= k < |c.pRaids[p]| ::
          var s := c.pRaids[p][k];
          s.Span().Blocks() == Ref(c).Span().Blocks() && s.volume == v.id && s.isReserved == v.isReserved)
  }

  /** The loop ends for every answer of the drives: stripes fit a block set, unless at most one block set is
      asked for, and the rounded request does not shrink to a chunk of a single virtual block. */
  predicate Terminates(v: Volume, request: Request)
    requires v.WellFormed()
  {
    && (StripesFitSets(v) || (request.Fixed? && request.blocks < 2 * v.BlockSetSize()))
    && (request.MaxCapacity? || request.blocks >= v.BlockSetSize() || v.Multiplier() >= 2)
  }

  /** Requests of at least one block set, or of all there is. */
  predicate Sizable(v: Volume, request: Request)
    requires v.WellFormed()
  {
    request.MaxCapacity? || request.blocks >= v.BlockSetSize()
  }

  ghost predicate TodoOk(v: Volume, request: Request, todo: nat)
    requires v.WellFormed()
  {
    || todo % v.BlockSetSize() == 0
    || (todo == 1 && request.Fixed? && request.blocks < v.BlockSetSize())
  }

  // ------------------------------------------------------------ one round

  lemma BlockSets(todo: nat, size: nat)
    requires size >= 2 && todo % size == 0 && todo > 0
    ensures todo >= size
  {
    assert todo == todo / size * size;
    if todo / size < 1 {
      MulMono(todo / size, 0, size);
    } else {
      MulMono(1, todo / size, size);
    }
  }

  predicate InRequest(v: Volume, request: Request, todo: nat)
    requires v.WellFormed()
  {
    request.Fixed? ==> todo <= RoundBlocksToNearestBlockSet(request.blocks, v)
  }

  lemma SmallRequest(v: Volume, request: Request, todo: nat)
    requires v.WellFormed() && Terminates(v, request) && InRequest(v, request, todo)
    ensures StripesFitSets(v) || (request.Fixed? && todo <= v.BlockSetSize())
  {
    if !StripesFitSets(v) && request.blocks >= v.BlockSetSize() {
      DivRange(request.blocks, v.BlockSetSize(), 1);
    }
  }

  /** Enough drives always give a chunk of at least two virtual blocks. */
  lemma EnoughGrows(offers: seq<Offer>, v: Volume, request: Request, todo: nat)
    requires v.WellFormed() && Terminates(v, request) && Enough(offers, v) && 0 < |offers| <= v.NumberOfDisks()
    requires request.MaxCapacity? || (todo > 0 && TodoOk(v, request, todo) && InRequest(v, request, todo))
    ensures Smallest(offers) >= 0 && ChunkBlocks(todo, request.MaxCapacity?, Smallest(offers), v) * v.Multiplier() >= 2
  {
    SmallRequest(v, request, todo);
    EnoughPlaces(offers, v, todo, request.MaxCapacity?);
    var blocks := ChunkBlocks(todo, request.MaxCapacity?, Smallest(offers), v);
    if todo <= Smallest(offers) && request.Fixed? {
      if todo % v.BlockSetSize() == 0 {
        BlockSets(todo, v.BlockSetSize());
      }
    }
    assert blocks >= 2 || (blocks == 1 && v.Multiplier() >= 2);
    MulMono(1, v.Multiplier(), blocks);
  }

  /** What is left stays a whole number of block sets. */
  lemma TodoStaysOk(offers: seq<Offer>, v: Volume, request: Request, todo: nat)
    requires v.WellFormed() && request.Fixed? && offers != [] && Smallest(offers) >= 0 && TodoOk(v, request, todo)
    ensures var blocks := ChunkBlocks(todo, false, Smallest(offers), v);
            blocks <= todo && (blocks >= 1 ==> TodoOk(v, request, todo - blocks))
  {
    ChunkBlocksFit(offers, v, todo, false);
    var blocks, size := ChunkBlocks(todo, false, Smallest(offers), v), v.BlockSetSize();
    if blocks == todo {
      DivRange(0, size, 0);
    } else if todo % size == 0 {
      Difference(todo, blocks, size);
    } else if blocks >= 1 {
      BlockSets(blocks, size);
    }
  }

  lemma Difference(a: nat, b: nat, size: nat)
    requires size >= 1 && a % size == 0 && b % size == 0 && b <= a
    ensures (a - b) % size == 0
  {
    var p, q := a / size, b / size;
    assert a == p * size && b == q * size;
    assert a - b == (p - q) * size;
    DivRange(a - b, size, p - q);
  }

  lemma BigEnough(offers: seq<Offer>, v: Volume, request: Request, todo: nat, blocks: nat)
    requires v.WellFormed() && Sizable(v, request) && offers != [] && Smallest(offers) >= 0
    requires blocks == ChunkBlocks(todo, request.MaxCapacity?, Smallest(offers), v) && blocks >= 1
    requires request.MaxCapacity? || TodoOk(v, request, todo)
    ensures blocks >= 2
  {
    ChunkBlocksFit(offers, v, todo, request.MaxCapacity?);
    BlockSets(blocks, v.BlockSetSize());
  }

  ghost function RoundChunk(segs: seq<Segment>, blocks: nat, v: Volume, vlbs: int): Chunk
    requires v.WellFormed()
  {
    Chunk(vlbs, vlbs + blocks * v.Multiplier() - 1, Grouping(segs, v.GroupSize()))
  }

  /** Segments of one round: one length, one volume. */
  ghost predicate EvenlyCut(segs: seq<Segment>, blocks: nat, v: Volume) {
    forall s | s in segs :: s.Span().Blocks() == blocks && s.volume == v.id && s.isReserved == v.isReserved
  }

  lemma RoundAlike(offers: seq<Offer>, blocks: nat, v: Volume, fromReserved: bool, names: nat -> Uuid, base: nat)
    ensures EvenlyCut(RoundSegments(offers, blocks, v, fromReserved, names, base), blocks, v)
  {
    var segs := RoundSegments(offers, blocks, v, fromReserved, names, base);
    forall s | s in segs ensures s.Span().Blocks() == blocks && s.volume == v.id && s.isReserved == v.isReserved {
      var i :| 0 <= i < |segs| && segs[i] == s;
    }
  }

  lemma GroupedIsShaped(c: Chunk, segs: seq<Segment>, blocks: nat, v: Volume)
    requires v.WellFormed() && EvenlyCut(segs, blocks, v) && Flatten(c.pRaids) == segs
    requires |c.pRaids| == v.stripeWidth && forall p | 0 <= p < |c.pRaids| :: |c.pRaids[p]| == v.GroupSize()
    ensures WellShaped(c, v) && Ref(c).Span().Blocks() == blocks
  {
    hide Flatten, EvenlyCut;
    assert HasRef(c) by { assert |c.pRaids[0]| == v.GroupSize(); }
    forall p, k | 0 <= p < |c.pRaids| && 0 <= k < |c.pRaids[p]|
      ensures c.pRaids[p][k].Span().Blocks() == blocks && c.pRaids[p][k].volume == v.id
              && c.pRaids[p][k].isReserved == v.isReserved
    {
      FlattenHas(c.pRaids, c.pRaids[p][k]);
      AlikeOne(segs, blocks, v, c.pRaids[p][k]);
    }
  }

  lemma AlikeOne(segs: seq<Segment>, blocks: nat, v: Volume, s: Segment)
    requires EvenlyCut(segs, blocks, v) && s in segs
    ensures s.Span().Blocks() == blocks && s.volume == v.id && s.isReserved == v.isReserved
  {
  }

  lemma OneTile(c: Chunk, start: int, end: int, m: int)
    requires HasRef(c) && c.vlbs == start && c.vlbe + 1 == end && end == start + Ref(c).Span().Blocks() * m
    ensures Tiles([c], start, end, m)
  {
    assert [c][1..] == [];
  }

  lemma RoundIsChunk(offers: seq<Offer>, blocks: nat, v: Volume, fromReserved: bool, names: nat -> Uuid, base: nat,
                     vlbs: int)
    requires v.WellFormed() && |offers| == v.NumberOfDisks()
    ensures var segs := RoundSegments(offers, blocks, v, fromReserved, names, base);
            var c := RoundChunk(segs, blocks, v, vlbs);
            && WellShaped(c, v) && Flatten(c.pRaids) == segs
            && Tiles([c], vlbs, c.vlbe + 1, v.Multiplier())
            && Ref(c).Span().Blocks() == blocks
  {
    var segs := RoundSegments(offers, blocks, v, fromReserved, names, base);
    var c := RoundChunk(segs, blocks, v, vlbs);
    RoundAlike(offers, blocks, v, fromReserved, names, base);
    FullRound(segs, v.GroupSize(), v.stripeWidth);
    hide Grouping, Flatten, EvenlyCut, WellShaped, Tiles;
    GroupedIsShaped(c, segs, blocks, v);
    ShapedHasRef(c, v);
    OneTile(c, vlbs, c.vlbe + 1, v.Multiplier());
  }

  lemma ShapedHasRef(c: Chunk, v: Volume)
    requires WellShaped(c, v)
    ensures HasRef(c)
  {
  }

  lemma RoundIdsNew(docs: Docs, offers: seq<Offer>, blocks: nat, v: Volume, fromReserved: bool, names: nat -> Uuid,
                    base: nat)
    requires FreshNames(docs, names, base) && forall i | 0 <= i < |offers| :: offers[i].disk in docs
    ensures NewIds(docs, RoundSegments(offers, blocks, v, fromReserved, names, base))
  {
    var segs := RoundSegments(offers, blocks, v, fromReserved, names, base);
    forall i, j | 0 <= i < j < |segs| ensures segs[i].uuid != segs[j].uuid {
      assert names(base + 2 * i) == names(base + 2 * j) ==> base + 2 * i == base + 2 * j;
    }
  }

  lemma StillFresh(docs: Docs, offers: seq<Offer>, blocks: nat, v: Volume, fromReserved: bool, names: nat -> Uuid,
                   base: nat)
    requires FreshNames(docs, names, base)
    ensures FreshNames(PlaceAll(docs, RoundSegments(offers, blocks, v, fromReserved, names, base)), names,
            base + 2 * |offers|)
  {
    var segs := RoundSegments(offers, blocks, v, fromReserved, names, base);
    PlacedIds(docs, segs);
    hide PlaceAll;
    var after := PlaceAll(docs, segs);
    forall i: nat, d | base + 2 * |offers| <= i && d in after ensures names(i) !in after[d].segs {
      assert names(i) !in docs[d].segs;
      forall k | 0 <= k < |segs| ensures segs[k].uuid != names(i) {
        assert names(base + 2 * k) == names(i) ==> base + 2 * k == i;
      }
    }
  }

  // ------------------------------------------------------------- the queries

  function ListingsOf(drives: map<DiskID, Drive>, ids: seq<DiskID>): (r: seq<Listing>)
    requires forall i | 0 <= i < |ids| :: ids[i] in drives
    reads set d | d in drives :: drives[d]
    ensures |r| == |ids| && forall i | 0 <= i < |r| :: r[i] == Listing(ids[i], drives[ids[i]].diskSegments)
  {
    seq(|ids|, i requires 0 <= i < |ids| reads set d | d in drives ::
        drives[d] => Listing(ids[i], drives[ids[i]].diskSegments))
  }

  lemma ListingsAreDocs(drives: map<DiskID, Drive>, ids: seq<DiskID>)
    requires AllInBounds(drives) && HonestIds(DocsOf(drives), ids)
    ensures forall i | 0 <= i < |ids| :: ids[i] in drives
    ensures ListsOfDocs(DocsOf(drives), ListingsOf(drives, ids))
  {
    var docs := DocsOf(drives);
    forall i | 0 <= i < |ids| ensures ids[i] in drives { assert ids[i] in docs; }
    var lists := ListingsOf(drives, ids);
    forall i | 0 <= i < |lists| ensures lists[i].disk in docs && Lists(lists[i].segs, docs[lists[i].disk].segs) {
      assert drives[ids[i]].InBounds();
      ListsById(drives[ids[i]].diskSegments);
    }
  }

  /** What a round gets to work with. */
  datatype Answer = Answer(fromReserved: bool, hasChance: bool, offers: Option<seq<Offer>>)

  /** Everything a later placement relies on: the offers are cached largest ranges of different drives, or
      unused parts of reserved segments that do not meet. */
  ghost predicate Usable(docs: Docs, v: Volume, a: Answer, chunk: seq<Avail>) {
    a.offers.Some? ==>
      && |a.offers.value| <= v.NumberOfDisks()
      && (forall i | 0 <= i < |a.offers.value| :: a.offers.value[i].disk in docs && a.offers.value[i].blocks >= 0)
      && (!a.fromReserved ==> HonestFree(docs, a.offers.value, v))
      && (a.fromReserved ==>
                !v.isReserved && a.offers.value == AsOffers(chunk) && (ValidDocs(docs) ==> ChunkFits(docs, chunk)))
  }

  /** A reserved chunk was picked from the segment lists the drives hold at that moment. */
  ghost predicate PickedFrom(held: map<DiskID, seq<Segment>>, lists: seq<Listing>, v: Volume, a: Answer,
                             chunk: seq<Avail>) {
    a.fromReserved && a.offers.Some? ==>
      && v.vpg.Some? && AreHeld(held, lists)
      && chunk == ReservedChunk(OffersFrom(lists, v.vpg.value), v.GroupSize(), v.stripeWidth)
  }

  /** Lists of different drives, as those drives hold them. */
  ghost predicate AreHeld(held: map<DiskID, seq<Segment>>, lists: seq<Listing>) {
    DistinctDisks(lists) && forall i | 0 <= i < |lists| :: lists[i].disk in held && lists[i].segs == held[lists[i].disk]
  }

  lemma ListingsAreHeld(drives: map<DiskID, Drive>, ids: seq<DiskID>)
    requires HonestIds(DocsOf(drives), ids) && forall i | 0 <= i < |ids| :: ids[i] in drives
    ensures AreHeld(ListsOf(drives), ListingsOf(drives, ids))
  {
  }

  // --------------------------------------------- what a query has to answer

  ghost function ListingsIn(held: map<DiskID, seq<Segment>>, ids: seq<DiskID>): (r: seq<Listing>)
    requires forall i | 0 <= i < |ids| :: ids[i] in held
    ensures |r| == |ids| && forall i | 0 <= i < |r| :: r[i] == Listing(ids[i], held[ids[i]])
  {
    seq(|ids|, i requires 0 <= i < |ids| => Listing(ids[i], held[ids[i]]))
  }

  /** What reserved space has to offer on the drives in use, or on all drives. */
  ghost function ReservedAnswer(docs: Docs, held: map<DiskID, seq<Segment>>, v: Volume, list: ListQuery,
                                used: Option<seq<DiskID>>): Option<seq<Offer>> {
    var ids := list(docs, used);
    if v.vpg.None? || ids.None? || !(forall i | 0 <= i < |ids.value| :: ids.value[i] in held) then None
    else Some(AsOffers(ReservedChunk(OffersFrom(ListingsIn(held, ids.value), v.vpg.value), v.GroupSize(),
                                     v.stripeWidth)))
  }

  /** The answer of a query, to reserved or to free space. */
  ghost function QueryAnswer(docs: Docs, held: map<DiskID, seq<Segment>>, v: Volume, free: FreeQuery, list: ListQuery,
                             reserved: bool, used: Option<seq<DiskID>>): Option<seq<Offer>> {
    if reserved then ReservedAnswer(docs, held, v, list, used) else Some(free(docs, used))
  }

  /** An answer that does not suffice. */
  ghost predicate Short(offers: Option<seq<Offer>>, v: Volume)
    requires v.WellFormed()
  {
    offers.None? || !Enough(offers.value, v)
  }

  /** An answer that does not suffice and nothing can be placed on: too few drives, or no chunk of two virtual
      blocks. */
  ghost predicate Nothing(offers: Option<seq<Offer>>, v: Volume, isMax: bool, todo: nat)
    requires v.WellFormed()
  {
    Short(offers, v)
    && (offers.Some? && |offers.value| >= v.NumberOfDisks() && offers.value != [] && Smallest(offers.value) >= 0 ==>
          ChunkBlocks(todo, isMax, Smallest(offers.value), v) * v.Multiplier() <= 1)
  }

  /** A volume of a provisioning group that takes from its reserved space. */
  predicate TakesReserved(v: Volume) {
    !v.isReserved && v.vpg.Some?
  }

  /** With these flags the query just asked was the last chance: over all drives, and in vain. */
  ghost predicate LastChance(docs: Docs, held: map<DiskID, seq<Segment>>, v: Volume, request: Request, todo: nat,
                             free: FreeQuery, list: ListQuery, tried: Tried)
    requires v.WellFormed()
  {
    if TakesReserved(v) && !tried.reserved
    then !v.allowOverflow && Nothing(ReservedAnswer(docs, held, v, list, None), v, request.MaxCapacity?, todo)
    else Nothing(Some(free(docs, None)), v, request.MaxCapacity?, todo)
  }

  /** Reserved space was given up in this round: it was short, over all drives. */
  ghost predicate ReservedWasShort(docs: Docs, held: map<DiskID, seq<Segment>>, v: Volume, list: ListQuery, p: Tried,
                                   q: Tried)
    requires v.WellFormed()
  {
    !p.reserved && q.reserved ==> Short(ReservedAnswer(docs, held, v, list, None), v)
  }

  lemma ListingsAreIn(drives: map<DiskID, Drive>, ids: seq<DiskID>)
    requires forall i | 0 <= i < |ids| :: ids[i] in drives
    ensures ListingsOf(drives, ids) == ListingsIn(ListsOf(drives), ids)
    ensures forall i | 0 <= i < |ids| :: ids[i] in ListsOf(drives)
  {
  }

  predicate IsEnough(a: Answer, v: Volume)
    requires v.WellFormed()
  {
    a.offers.Some? && Enough(a.offers.value, v)
  }

  lemma ReservedUsable(docs: Docs, lists: seq<Listing>, vpg: VolumeID, v: Volume, chunk: seq<Avail>)
    requires v.WellFormed() && ListsOfDocs(docs, lists)
    requires chunk == ReservedChunk(OffersFrom(lists, vpg), v.GroupSize(), v.stripeWidth)
    ensures |chunk| <= v.NumberOfDisks()
    ensures forall i | 0 <= i < |chunk| :: chunk[i].diskID in docs && chunk[i].Blocks() >= 0
    ensures ValidDocs(docs) ==> ChunkFits(docs, chunk)
  {
    ChunkTakesWholePRaids(OffersFrom(lists, vpg), v.GroupSize(), v.stripeWidth);
    if ValidDocs(docs) {
      ReservedChunkFits(docs, lists, vpg, v.GroupSize(), v.stripeWidth);
    }
    hide ReservedChunk, OffersFrom;
    forall i | 0 <= i < |chunk| ensures chunk[i].diskID in docs && chunk[i].Blocks() >= 0 {
      assert chunk[i] in chunk;
      OfferOnDisk(lists, vpg, chunk[i]);
    }
  }

  lemma OfferOnDisk(lists: seq<Listing>, vpg: VolumeID, a: Avail)
    requires DistinctDisks(lists) && a in OffersFrom(lists, vpg)
    ensures (exists i :: 0 <= i < |lists| && a.diskID == lists[i].disk) && a.Span().Nonempty()
  {
    OffersKnown(lists, vpg);
    var i :| 0 <= i < |lists| && a in Picks(AvailOn(lists[i], vpg));
    var k := PickIsUnused(lists[i], vpg, a);
  }

  /** Whether the next query goes to reserved space. */
  predicate AsksReserved(v: Volume, tried: Tried) {
    !v.isReserved && v.vpg.Some? && !tried.reserved
  }

  /** The flags after a query. */
  function TriedNext(v: Volume, tried: Tried, enough: bool): Tried {
    if AsksReserved(v, tried) then Tried(tried.usedReserved && !enough, tried.used, true) else tried.(used := true)
  }

  /** Whether a query without a placement leaves anything to try. */
  predicate HasChance(v: Volume, tried: Tried, enough: bool) {
    if AsksReserved(v, tried) then !TriedNext(v, tried, enough).reserved || v.allowOverflow else !tried.used || enough
  }

  /** Who is asked: reserved space, as long as it was not tried in vain, then free space; of either the drives in use,
      until they were asked, then all. */
  ghost predicate Asks(docs: Docs, held: map<DiskID, seq<Segment>>, v: Volume, free: FreeQuery, list: ListQuery,
                       tried: Tried, inUse: seq<DiskID>, a: Answer) {
    && a.fromReserved == (TakesReserved(v) && !tried.reserved)
    && a.offers == QueryAnswer(docs, held, v, free, list, a.fromReserved,
                     if (if a.fromReserved then tried.usedReserved else tried.used) then None else Some(inUse))
  }

  /** One query: reserved space first, as long as it was not tried in vain; then free space. Either there is
      enough, or something new has been tried. */
  method GetChunk(drives: map<DiskID, Drive>, v: Volume, free: FreeQuery, list: ListQuery, tried: Tried,
                  inUse: seq<DiskID>)
    returns (answer: Answer, now: Tried, ghost chunk: seq<Avail>, ghost lists: seq<Listing>)
    requires v.WellFormed() && AllInBounds(drives) && HonestQuery(free, v) && HonestList(list)
    ensures Usable(DocsOf(drives), v, answer, chunk) && PickedFrom(ListsOf(drives), lists, v, answer, chunk)
    ensures now == TriedNext(v, tried, IsEnough(answer, v))
            && answer.hasChance == HasChance(v, tried, IsEnough(answer, v))
    ensures answer.hasChance && !IsEnough(answer, v) ==> now.Left() < tried.Left()
    ensures Asks(DocsOf(drives), ListsOf(drives), v, free, list, tried, inUse, answer)
  {
    hide ValidDocs, ListsOfDocs, ReservedChunk, OffersFrom, ChunkFits, AllInBounds, AreHeld;
    var docs := DocsOf(drives);
    chunk, lists := [], [];
    if AsksReserved(v, tried) {
      var ids := list(docs, if tried.usedReserved then None else Some(inUse));
      var offers: Option<seq<Offer>> := None;
      if ids.Some? {
        ListingsAreDocs(drives, ids.value);
        ListingsAreHeld(drives, ids.value);
        ListingsAreIn(drives, ids.value);
        var listings := ListingsOf(drives, ids.value);
        SpansKnown(drives, ids.value);
        lists := listings;
        var biggestChunk := GetLargestReservedChunk(listings, v.vpg.value, v.GroupSize(), v.stripeWidth);
        ReservedUsable(docs, lists, v.vpg.value, v, biggestChunk);
        chunk := biggestChunk;
        offers := Some(AsOffers(biggestChunk));
      }
      var notEnoughDrives := offers.None? || !Enough(offers.value, v);
      now := Tried(tried.usedReserved && notEnoughDrives, tried.used, true);
      answer := Answer(true, !now.reserved || v.allowOverflow, offers);
    } else {
      var data := free(docs, if tried.used then None else Some(inUse));
      answer := Answer(false, !tried.used || Enough(data, v), Some(data));
      now := tried.(used := true);
      assert HonestFree(docs, data, v);
    }
  }

  lemma SpansKnown(drives: map<DiskID, Drive>, ids: seq<DiskID>)
    requires AllInBounds(drives) && forall i | 0 <= i < |ids| :: ids[i] in drives
    ensures var lists := ListingsOf(drives, ids);
            forall i, k | 0 <= i < |lists| && 0 <= k < |lists[i].segs| :: lists[i].segs[k].Span().Nonempty()
  {
    var lists := ListingsOf(drives, ids);
    forall i, k | 0 <= i < |lists| && 0 <= k < |lists[i].segs| ensures lists[i].segs[k].Span().Nonempty() {
      assert drives[ids[i]].InBounds();
    }
  }

  // ---------------------------------------------------------------- placing

  lemma RoundFits(docs: Docs, v: Volume, a: Answer, chunk: seq<Avail>, blocks: nat, names: nat -> Uuid, base: nat)
    requires ValidDocs(docs) && Usable(docs, v, a, chunk) && a.offers.Some? && FreshNames(docs, names, base)
    requires 2 <= blocks && forall i | 0 <= i < |a.offers.value| :: blocks <= a.offers.value[i].blocks
    ensures CanPlaceAll(docs, RoundSegments(a.offers.value, blocks, v, a.fromReserved, names, base))
  {
    hide ValidDocs, FreshNames, ChunkFits, CanPlaceAll;
    if a.fromReserved {
      assert forall i | 0 <= i < |chunk| :: blocks <= a.offers.value[i].blocks == chunk[i].Blocks();
      ReservedRoundFits(docs, v, chunk, blocks, names, base);
    } else {
      FreeRoundFits(docs, a.offers.value, v, blocks, names, base);
    }
  }

  /** Stores the segments of one chunk. With segments of two blocks or more on valid drives it never fails. */
  method PlaceChunk(drives: map<DiskID, Drive>, v: Volume, a: Answer, ghost chunk: seq<Avail>, blocks: nat,
                    names: nat -> Uuid, base: nat)
    returns (pRaids: seq<seq<Segment>>, rejected: bool)
    requires v.WellFormed() && DistinctDrives(drives) && AllInBounds(drives)
    requires a.offers.Some? && |a.offers.value| == v.NumberOfDisks() && Usable(DocsOf(drives), v, a, chunk)
    requires FreshNames(DocsOf(drives), names, base)
    requires blocks >= 1 && forall i | 0 <= i < |a.offers.value| :: blocks <= a.offers.value[i].blocks
    modifies set d | d in drives :: drives[d]
    ensures AllInBounds(drives)
    ensures var segs := RoundSegments(a.offers.value, blocks, v, a.fromReserved, names, base);
            !rejected ==> (
              && pRaids == Grouping(segs, v.GroupSize())
              && DocsOf(drives) == PlaceAll(old(DocsOf(drives)), segs)
              && ListsOf(drives) == AppendedAll(old(ListsOf(drives)), segs)
              && FreshNames(DocsOf(drives), names, base + 2 * |segs|))
    ensures ValidDocs(old(DocsOf(drives))) && blocks >= 2 ==>
              !rejected && ValidDocs(DocsOf(drives)) && LessSpace(DocsOf(drives), old(DocsOf(drives)))
  {
    hide ValidDocs, FreshNames, ChunkFits, CanPlaceAll, AllInBounds, LessSpace, NewIds, PlaceAll, Grouping, AppendedAll;
    ghost var docs := DocsOf(drives);
    var segs := RoundSegments(a.offers.value, blocks, v, a.fromReserved, names, base);
    RoundIdsNew(docs, a.offers.value, blocks, v, a.fromReserved, names, base);
    StillFresh(docs, a.offers.value, blocks, v, a.fromReserved, names, base);
    if ValidDocs(docs) && blocks >= 2 {
      RoundFits(docs, v, a, chunk, blocks, names, base);
      PlacePrefix(docs, segs, |segs|);
      DisksPositive(v);
      RoundShrinks(docs, segs, |segs|);
      assert segs[..|segs|] == segs;
    }
    pRaids, rejected := PlaceRound(drives, segs, v.GroupSize());
  }

  lemma DisksPositive(v: Volume)
    requires v.WellFormed()
    ensures v.NumberOfDisks() >= 1
  {
    Positive(v.GroupSize(), v.stripeWidth);
  }

  // ----------------------------------------------------- the history of a loop

  /** What a round stored, if anything. */
  datatype StoredRound = NothingStored | StoredRound(answer: Answer, lists: seq<Listing>, chunk: seq<Avail>,
      blocks: nat, base: nat)

  ghost function StoredSegments(v: Volume, names: nat -> Uuid, r: StoredRound): seq<Segment> {
    if r.StoredRound? && r.answer.offers.Some?
    then RoundSegments(r.answer.offers.value, r.blocks, v, r.answer.fromReserved, names, r.base)
    else []
  }

  /** From these segment lists to those: a round appends its segments to the lists of their drives. On reserved space
      they are the cut of a chunk picked from the lists it found. */
  ghost predicate RoundTo(before: map<DiskID, seq<Segment>>, after: map<DiskID, seq<Segment>>, v: Volume,
                          names: nat -> Uuid, r: StoredRound) {
    if r.NothingStored? then after == before else
      && after == AppendedAll(before, StoredSegments(v, names, r))
      && (r.answer.fromReserved && r.answer.offers.Some? ==>
            && v.vpg.Some? && AreHeld(before, r.lists)
            && ReservedRounds.RoundOn(r.lists, v, r.chunk, StoredSegments(v, names, r), r.blocks, names, r.base))
  }

  ghost predicate RoundsOf(held: seq<map<DiskID, seq<Segment>>>, v: Volume, names: nat -> Uuid,
                           rounds: seq<StoredRound>) {
    |held| == |rounds| + 1 && forall i | 0 <= i < |rounds| :: RoundTo(held[i], held[i + 1], v, names, rounds[i])
  }

  lemma RoundsNext(held: seq<map<DiskID, seq<Segment>>>, after: map<DiskID, seq<Segment>>, v: Volume,
                   names: nat -> Uuid, rounds: seq<StoredRound>, r: StoredRound)
    requires RoundsOf(held, v, names, rounds) && RoundTo(held[|rounds|], after, v, names, r)
    ensures RoundsOf(held + [after], v, names, rounds + [r])
  {
    hide RoundTo;
  }

  /** The drives hold the lists of their documents. */
  ghost predicate HeldOf(held: map<DiskID, seq<Segment>>, docs: Docs) {
    held.Keys == docs.Keys && forall d | d in docs :: Lists(held[d], docs[d].segs)
  }

  lemma DrivesHold(drives: map<DiskID, Drive>)
    requires AllInBounds(drives)
    ensures HeldOf(ListsOf(drives), DocsOf(drives))
  {
    forall d | d in drives ensures Lists(drives[d].diskSegments, drives[d].Doc().segs) {
      assert drives[d].InBounds();
      ListsById(drives[d].diskSegments);
    }
  }

  /** A chunk picked from the lists of valid drives is the start of a round on reserved space. */
  lemma PickedIsRound(held: map<DiskID, seq<Segment>>, docs: Docs, lists: seq<Listing>, v: Volume, a: Answer,
                      chunk: seq<Avail>, blocks: nat, names: nat -> Uuid, base: nat)
    requires ValidDocs(docs) && HeldOf(held, docs) && FreshNames(docs, names, base)
    requires PickedFrom(held, lists, v, a, chunk) && Usable(docs, v, a, chunk) && a.fromReserved && a.offers.Some?
    requires 1 <= blocks && forall i | 0 <= i < |a.offers.value| :: blocks <= a.offers.value[i].blocks
    ensures v.vpg.Some? && AreHeld(held, lists)
    ensures ReservedRounds.RoundOn(lists, v, chunk, RoundSegments(a.offers.value, blocks, v, true, names, base), blocks,
              names, base)
  {
    hide ReservedChunk, OffersFrom, ChunkFits, RoundSegments, ValidDoc, Lists, SharedGapsHistory.SoundList;
    forall i | 0 <= i < |lists| ensures SharedGapsHistory.SoundList(lists[i].segs) {
      ListSound(held, docs, lists[i].disk);
    }
    forall i, k, x: nat | 0 <= i < |lists| && 0 <= k < |lists[i].segs| && base <= x
      ensures lists[i].segs[k].uuid != names(x)
    {
      ListNamed(held[lists[i].disk], docs[lists[i].disk], k);
    }
    forall x | 0 <= x < |chunk| ensures blocks <= chunk[x].Blocks() {
      assert a.offers.value[x].blocks == chunk[x].Blocks();
    }
  }

  lemma ListSound(held: map<DiskID, seq<Segment>>, docs: Docs, d: DiskID)
    requires ValidDocs(docs) && HeldOf(held, docs) && d in docs
    ensures SharedGapsHistory.SoundList(held[d])
  {
    hide ValidDoc, Lists, SharedGapsHistory.SoundList;
    SharedGapsHistory.ValidIsSound(held[d], docs[d]);
  }

  lemma ListNamed(segs: seq<Segment>, d: DriveDoc, k: int)
    requires Lists(segs, d.segs) && 0 <= k < |segs|
    ensures segs[k].uuid in d.segs
  {
  }

  /** The drives picked by `ks`, with the lists they hold. */
  ghost function OnThem(held: map<DiskID, seq<Segment>>, lists: seq<Listing>, ks: seq<int>): (r: seq<Listing>)
    requires forall k | 0 <= k < |ks| :: 0 <= ks[k] < |lists| && lists[ks[k]].disk in held
  {
    seq(|ks|, k requires 0 <= k < |ks| => Listing(lists[ks[k]].disk, held[lists[ks[k]].disk]))
  }

  lemma OnThemBefore(held: map<DiskID, seq<Segment>>, lists: seq<Listing>, ks: seq<int>)
    requires AreHeld(held, lists) && forall k | 0 <= k < |ks| :: 0 <= ks[k] < |lists|
    ensures OnThem(held, lists, ks) == ReservedRounds.Pick(lists, ks, [])
  {
    forall k | 0 <= k < |ks| ensures ReservedRounds.PlacedOn(lists[ks[k]], []) == lists[ks[k]] {
      assert lists[ks[k]].segs + [] == lists[ks[k]].segs;
    }
  }

  lemma OnThemAfter(held: map<DiskID, seq<Segment>>, lists: seq<Listing>, ks: seq<int>, segs: seq<Segment>)
    requires AreHeld(held, lists) && forall k | 0 <= k < |ks| :: 0 <= ks[k] < |lists|
    ensures OnThem(AppendedAll(held, segs), lists, ks) == ReservedRounds.Pick(lists, ks, segs)
  {
  }

  /** So a round of the loop on reserved space keeps the drives of every reserved pRaid it touches used alike, as the
      drives hold their lists before and after it. */
  lemma RoundOfLoopKeepsUsedAlike(before: map<DiskID, seq<Segment>>, after: map<DiskID, seq<Segment>>, v: Volume,
                                  names: nat -> Uuid, r: StoredRound, h: nat, disks: set<DiskID>, ks: seq<int>)
    requires RoundTo(before, after, v, names, r) && r.StoredRound? && r.answer.fromReserved && r.answer.offers.Some?
    requires h < |r.chunk| && Head(h, v.GroupSize()) == h && |disks| == v.GroupSize()
    requires ReservedRounds.DrivesOf(r.lists, ks, v.vpg.value, r.chunk[h].pRaid, disks)
    requires SharedGapsHistory.UsedAlike(OnThem(before, r.lists, ks), v.vpg.value, r.chunk[h].pRaid)
    ensures SharedGapsHistory.UsedAlike(OnThem(after, r.lists, ks), v.vpg.value, r.chunk[h].pRaid)
  {
    hide ReservedRounds.RoundOn, AppendedAll, SharedGapsHistory.UsedAlike, StoredSegments;
    var segs := StoredSegments(v, names, r);
    OnThemBefore(before, r.lists, ks);
    OnThemAfter(before, r.lists, ks, segs);
    ReservedRounds.RoundKeepsUsedAlike(r.lists, v, r.chunk, segs, r.blocks, names, r.base, h, disks, ks);
  }

  // --------------------------------------------------------------- the loop

  datatype Outcome = Outcome(chunks: seq<Chunk>, blocks: nat, success: bool, rejected: bool)

  /** What the loop knows about the chunks placed so far. */
  ghost predicate Built(docs: Docs, now: Docs, v: Volume, chunks: seq<Chunk>, start: int, vlbs: int, total: nat)
    requires v.WellFormed()
  {
    && vlbs == start + total * v.Multiplier()
    && Tiles(chunks, start, vlbs, v.Multiplier())
    && (forall i | 0 <= i < |chunks| :: WellShaped(chunks[i], v))
    && now == PlaceAll(docs, AllSegments(chunks))
    && NewTo(docs, AllSegments(chunks))
  }

  /** A chunk that goes right behind the others. */
  ghost predicate NextChunk(docs: Docs, v: Volume, c: Chunk, segs: seq<Segment>, vlbs: int, end: int)
    requires v.WellFormed()
  {
    && WellShaped(c, v) && Flatten(c.pRaids) == segs && NewTo(docs, segs)
    && Tiles([c], vlbs, c.vlbe + 1, v.Multiplier()) && c.vlbe + 1 == end
  }

  lemma BuiltMore(docs: Docs, now: Docs, v: Volume, chunks: seq<Chunk>, start: int, vlbs: int, total: nat,
                  offers: seq<Offer>, blocks: nat, fromReserved: bool, names: nat -> Uuid, base: nat)
    requires v.WellFormed() && |offers| == v.NumberOfDisks() && Built(docs, now, v, chunks, start, vlbs, total)
    requires FreshNames(docs, names, 0)
    ensures var segs := RoundSegments(offers, blocks, v, fromReserved, names, base);
            var c := RoundChunk(segs, blocks, v, vlbs);
            Built(docs, PlaceAll(now, segs), v, chunks + [c], start, vlbs + blocks * v.Multiplier(), total + blocks)
  {
    hide *;
    var segs := RoundSegments(offers, blocks, v, fromReserved, names, base);
    RoundIsNext(docs, offers, blocks, v, fromReserved, names, base, vlbs);
    ChunkMore(docs, now, v, chunks, RoundChunk(segs, blocks, v, vlbs), segs, start, vlbs, total, blocks);
  }

  lemma RoundIsNext(docs: Docs, offers: seq<Offer>, blocks: nat, v: Volume, fromReserved: bool, names: nat -> Uuid,
                    base: nat, vlbs: int)
    requires v.WellFormed() && |offers| == v.NumberOfDisks() && FreshNames(docs, names, 0)
    ensures var segs := RoundSegments(offers, blocks, v, fromReserved, names, base);
            NextChunk(docs, v, RoundChunk(segs, blocks, v, vlbs), segs, vlbs, vlbs + blocks * v.Multiplier())
  {
    RoundIsChunk(offers, blocks, v, fromReserved, names, base, vlbs);
    RoundIsNew(docs, offers, blocks, v, fromReserved, names, base);
    hide RoundSegments, WellShaped, Flatten, NewTo, Tiles, Grouping;
  }

  lemma ChunkMore(docs: Docs, now: Docs, v: Volume, chunks: seq<Chunk>, c: Chunk, segs: seq<Segment>, start: int,
                  vlbs: int, total: nat, blocks: nat)
    requires v.WellFormed() && Built(docs, now, v, chunks, start, vlbs, total)
    requires NextChunk(docs, v, c, segs, vlbs, vlbs + blocks * v.Multiplier())
    ensures Built(docs, PlaceAll(now, segs), v, chunks + [c], start, vlbs + blocks * v.Multiplier(), total + blocks)
  {
    hide WellShaped, Tiles, Flatten, PlaceAll, NewTo, AllSegments;
    Distribute(total, blocks, v.Multiplier());
    NewToBoth(docs, AllSegments(chunks), segs);
    TilesConcat(chunks, [c], start, vlbs, c.vlbe + 1, v.Multiplier());
    AllSegmentsMore(chunks, c);
    PlaceConcat(docs, AllSegments(chunks), segs);
  }

  lemma RoundIsNew(docs: Docs, offers: seq<Offer>, blocks: nat, v: Volume, fromReserved: bool, names: nat -> Uuid,
                   base: nat)
    requires FreshNames(docs, names, 0)
    ensures NewTo(docs, RoundSegments(offers, blocks, v, fromReserved, names, base))
  {
  }

  lemma AllSegmentsMore(chunks: seq<Chunk>, c: Chunk)
    ensures AllSegments(chunks + [c]) == AllSegments(chunks) + Flatten(c.pRaids)
  {
    assert (chunks + [c])[..|chunks|] == chunks;
  }

  lemma BuiltNothing(docs: Docs, v: Volume, start: int)
    requires v.WellFormed()
    ensures Built(docs, docs, v, [], start, start, 0)
  {
  }

  lemma SmallestOfOffers(offers: seq<Offer>, v: Volume, todo: nat, isMax: bool)
    requires v.WellFormed() && offers != [] && forall i | 0 <= i < |offers| :: offers[i].blocks >= 0
    ensures Smallest(offers) >= 0
    ensures forall i | 0 <= i < |offers| :: ChunkBlocks(todo, isMax, Smallest(offers), v) <= offers[i].blocks
  {
    SmallestIs(offers);
    ChunkBlocksFit(offers, v, todo, isMax);
  }

  lemma NotGrowing(offers: seq<Offer>, v: Volume, request: Request, todo: nat)
    requires v.WellFormed() && Terminates(v, request) && 0 < |offers| <= v.NumberOfDisks() && Smallest(offers) >= 0
    requires request.MaxCapacity? || (todo > 0 && TodoOk(v, request, todo) && InRequest(v, request, todo))
    requires ChunkBlocks(todo, request.MaxCapacity?, Smallest(offers), v) * v.Multiplier() <= 1
    ensures !Enough(offers, v)
  {
    if Enough(offers, v) {
      EnoughGrows(offers, v, request, todo);
    }
  }

  lemma Grows(blocks: nat, m: nat)
    requires blocks * m >= 2
    ensures blocks >= 1
  {
  }

  /** The variables of the loop. */
  datatype Progress = Progress(todo: nat, total: nat, vlbs: int, minted: nat, failed: bool, rejected: bool,
                               inUse: seq<DiskID>, chunks: seq<Chunk>, tried: Tried)

  ghost predicate LoopOk(docs: Docs, now: Docs, v: Volume, request: Request, start: int, names: nat -> Uuid,
                         p: Progress)
    requires v.WellFormed()
  {
    && FreshNames(docs, names, 0)
    && (!p.rejected ==> Built(docs, now, v, p.chunks, start, p.vlbs, p.total) && FreshNames(now, names, p.minted))
    && (Sizable(v, request) ==> !p.rejected && ValidDocs(now))
    && (request.Fixed? && !p.rejected ==>
          && p.todo + p.total == RoundBlocksToNearestBlockSet(request.blocks, v)
          && TodoOk(v, request, p.todo) && (p.failed ==> p.todo > 0))
  }

  function Untried(p: Progress): nat {
    if p.failed || p.rejected then 0 else 1 + p.tried.Left()
  }

  /** A round without a placement gives up or has tried something new. */
  ghost predicate Stalled(p: Progress, q: Progress) {
    q == p.(failed := q.failed, tried := q.tried) && Untried(q) < Untried(p)
  }

  /** A placement leaves less to do, or less space to do it in. */
  ghost predicate Advanced(p: Progress, q: Progress, before: Docs, after: Docs, isMax: bool) {
    (!isMax ==> q.todo < p.todo) && (isMax ==> LessSpace(after, before))
  }

  lemma PlacedOk(docs: Docs, now: Docs, after: Docs, v: Volume, request: Request, start: int, names: nat -> Uuid,
                 p: Progress, q: Progress, a: Answer, blocks: nat)
    requires v.WellFormed() && LoopOk(docs, now, v, request, start, names, p) && !p.rejected
    requires a.offers.Some? && |a.offers.value| == v.NumberOfDisks()
    requires q.minted == p.minted + 2 * |a.offers.value| && q.total == p.total + blocks && !q.failed
    requires request.Fixed? ==> q.todo == p.todo - blocks && TodoOk(v, request, q.todo)
    requires q.vlbs == p.vlbs + blocks * v.Multiplier()
    requires !q.rejected ==>
               var segs := RoundSegments(a.offers.value, blocks, v, a.fromReserved, names, p.minted);
               && after == PlaceAll(now, segs) && FreshNames(after, names, q.minted)
               && q.chunks == p.chunks + [RoundChunk(segs, blocks, v, p.vlbs)]
    requires Sizable(v, request) ==> !q.rejected && ValidDocs(after)
    ensures LoopOk(docs, after, v, request, start, names, q)
  {
    hide Built, FreshNames, ValidDocs, TodoOk, RoundSegments, PlaceAll, Sizable;
    if !q.rejected {
      BuiltMore(docs, now, v, p.chunks, start, p.vlbs, p.total, a.offers.value, blocks, a.fromReserved, names,
          p.minted);
    }
  }

  /** What a round left in the segment lists, unless a drive turned it away. */
  ghost predicate Recorded(before: map<DiskID, seq<Segment>>, after: map<DiskID, seq<Segment>>, v: Volume,
                           request: Request, names: nat -> Uuid, q: Progress, r: StoredRound)
    requires v.WellFormed()
  {
    Sizable(v, request) && !q.rejected ==> RoundTo(before, after, v, names, r)
  }

  lemma RecordsStored(before: map<DiskID, seq<Segment>>, after: map<DiskID, seq<Segment>>, docs: Docs, v: Volume,
                      request: Request, names: nat -> Uuid, q: Progress, r: StoredRound)
    requires v.WellFormed() && r.StoredRound? && r.answer.offers.Some? && HeldOf(before, docs)
    requires Sizable(v, request) && !q.rejected ==>
               && ValidDocs(docs) && FreshNames(docs, names, r.base)
               && after == AppendedAll(before, StoredSegments(v, names, r))
    requires Usable(docs, v, r.answer, r.chunk) && PickedFrom(before, r.lists, v, r.answer, r.chunk)
    requires 1 <= r.blocks && forall i | 0 <= i < |r.answer.offers.value| :: r.blocks <= r.answer.offers.value[i].blocks
    ensures Recorded(before, after, v, request, names, q, r)
  {
    hide HeldOf, ValidDocs, FreshNames, AppendedAll, Usable, PickedFrom, RoundSegments, ReservedRounds.RoundOn, Sizable,
         AreHeld;
    if Sizable(v, request) && !q.rejected && r.answer.fromReserved {
      PickedIsRound(before, docs, r.lists, v, r.answer, r.chunk, r.blocks, names, r.base);
    }
  }

  /** One pass through the body of the loop. */
  method Round(drives: map<DiskID, Drive>, v: Volume, request: Request, start: int, free: FreeQuery, list: ListQuery,
               names: nat -> Uuid, p: Progress, ghost docs: Docs)
    returns (q: Progress, ghost stored: StoredRound, ghost answer: Answer)
    requires v.WellFormed() && Terminates(v, request) && DistinctDrives(drives) && AllInBounds(drives)
    requires HonestQuery(free, v) && HonestList(list)
    requires LoopOk(docs, DocsOf(drives), v, request, start, names, p)
    requires !p.rejected && !p.failed && (request.MaxCapacity? || p.todo > 0)
    modifies set d | d in drives :: drives[d]
    ensures AllInBounds(drives) && LoopOk(docs, DocsOf(drives), v, request, start, names, q)
    ensures || (DocsOf(drives) == old(DocsOf(drives)) && Stalled(p, q))
            || Advanced(p, q, old(DocsOf(drives)), DocsOf(drives), request.MaxCapacity?)
    ensures Recorded(old(ListsOf(drives)), ListsOf(drives), v, request, names, q, stored)
    ensures ReservedWasShort(old(DocsOf(drives)), old(ListsOf(drives)), v, list, p.tried, q.tried)
    ensures p.tried.reserved ==> q.tried.reserved
    ensures q.failed ==>
              && DocsOf(drives) == old(DocsOf(drives)) && q.todo == p.todo && q.chunks == p.chunks
              && LastChance(DocsOf(drives), ListsOf(drives), v, request, q.todo, free, list, p.tried)
    ensures Asks(old(DocsOf(drives)), old(ListsOf(drives)), v, free, list, p.tried, p.inUse, answer)
    ensures Goes(p, q, v, request, answer)
  {
    hide Asks, Goes, AllInBounds, ValidDocs, FreshNames, Built, Usable, LessSpace, Terminates, TodoOk, HonestQuery,
         HonestList, ChunkBlocks, Smallest, Enough, PlaceAll, Grouping, RoundSegments, PickedFrom, Sizable,
         ReservedAnswer;
    stored := NothingStored;
    ghost var now := DocsOf(drives);
    var found, tried;
    ghost var chunk, lists;
    found, tried, chunk, lists := GetChunk(drives, v, free, list, p.tried, p.inUse);
    answer := found;
    GivesUpReserved(DocsOf(drives), ListsOf(drives), v, free, list, p.tried, p.inUse, found);
    if found.offers.None? || |found.offers.value| < v.NumberOfDisks() {
      NotEnough(found, v);
      GivesUpLast(DocsOf(drives), ListsOf(drives), v, request, p.todo, free, list, p.tried, p.inUse, found);
      q := p.(failed := !found.hasChance, tried := tried);
      GoesNowhere(p, q, v, request, found);
      return;
    }
    var offers := found.offers.value;
    OffersKnownUsable(now, v, found, chunk);
    SmallestOfOffers(offers, v, p.todo, request.MaxCapacity?);
    var blocks := ChunkBlocks(p.todo, request.MaxCapacity?, Smallest(offers), v);
    var vlbe := p.vlbs + blocks * v.Multiplier() - 1;
    if vlbe - p.vlbs <= 0 {
      assert InRequest(v, request, p.todo);
      NotGrowing(offers, v, request, p.todo);
      GivesUpLast(DocsOf(drives), ListsOf(drives), v, request, p.todo, free, list, p.tried, p.inUse, found);
      q := p.(failed := !found.hasChance, tried := tried);
      GoesNowhere(p, q, v, request, found);
      return;
    }
    q, stored := PlaceNext(drives, v, request, start, names, p, docs, found, chunk, lists, tried, blocks);
  }

  /** Blocks that a chunk takes of each drive on offer; none without enough drives or for a single virtual block. */
  function Given(a: Answer, v: Volume, request: Request, todo: nat): nat
    requires v.WellFormed()
  {
    if a.offers.None? || |a.offers.value| < v.NumberOfDisks() || a.offers.value == [] || Smallest(a.offers.value) < 0
    then 0
    else
      var blocks := ChunkBlocks(todo, request.MaxCapacity?, Smallest(a.offers.value), v);
      if blocks * v.Multiplier() <= 1 then 0 else blocks
  }

  /** How a round goes on from an answer: a chunk of all that can be given, or the next thing to try. */
  ghost predicate Goes(p: Progress, q: Progress, v: Volume, request: Request, a: Answer)
    requires v.WellFormed()
  {
    var tried, blocks := TriedNext(v, p.tried, IsEnough(a, v)), Given(a, v, request, p.todo);
    if blocks == 0 then q == p.(failed := !HasChance(v, p.tried, IsEnough(a, v)), tried := tried)
    else
      && q.total == p.total + blocks && q.todo == (if request.MaxCapacity? then p.todo else p.todo - blocks)
      && a.offers.Some? && UsesMore(p.inUse, a.offers.value, tried, q.inUse, q.tried)
  }

  lemma GoesNowhere(p: Progress, q: Progress, v: Volume, request: Request, a: Answer)
    requires v.WellFormed() && a.hasChance == HasChance(v, p.tried, IsEnough(a, v))
    requires || a.offers.None? || |a.offers.value| < v.NumberOfDisks()
             || (a.offers.value != [] && Smallest(a.offers.value) >= 0
                 && ChunkBlocks(p.todo, request.MaxCapacity?, Smallest(a.offers.value), v) * v.Multiplier() <= 1)
    requires q == p.(failed := !a.hasChance, tried := TriedNext(v, p.tried, IsEnough(a, v)))
    ensures Goes(p, q, v, request, a)
  {
    hide ChunkBlocks, Smallest, Enough, TriedNext, HasChance, UsesMore;
  }

  lemma GoesOn(p: Progress, q: Progress, v: Volume, request: Request, a: Answer, tried: Tried, blocks: nat)
    requires v.WellFormed() && a.offers.Some? && |a.offers.value| == v.NumberOfDisks() && a.offers.value != []
    requires Smallest(a.offers.value) >= 0 && blocks * v.Multiplier() >= 2
    requires blocks == ChunkBlocks(p.todo, request.MaxCapacity?, Smallest(a.offers.value), v)
    requires tried == TriedNext(v, p.tried, IsEnough(a, v))
    requires q.total == p.total + blocks && q.todo == (if request.MaxCapacity? then p.todo else p.todo - blocks)
    requires UsesMore(p.inUse, a.offers.value, tried, q.inUse, q.tried)
    ensures Goes(p, q, v, request, a)
  {
    hide ChunkBlocks, Smallest, Enough, TriedNext, HasChance, UsesMore;
  }

  /** A round that has no chance left asked all drives. */
  lemma GivesUpLast(docs: Docs, held: map<DiskID, seq<Segment>>, v: Volume, request: Request, todo: nat,
                    free: FreeQuery, list: ListQuery, tried: Tried, inUse: seq<DiskID>, a: Answer)
    requires v.WellFormed() && !IsEnough(a, v) && Asks(docs, held, v, free, list, tried, inUse, a)
    requires a.hasChance == HasChance(v, tried, false)
    requires || a.offers.None? || |a.offers.value| < v.NumberOfDisks()
             || (a.offers.value != [] && Smallest(a.offers.value) >= 0
                 && ChunkBlocks(todo, request.MaxCapacity?, Smallest(a.offers.value), v) * v.Multiplier() <= 1)
    ensures !a.hasChance ==> LastChance(docs, held, v, request, todo, free, list, tried)
  {
    hide ChunkBlocks, Smallest, Enough, ReservedAnswer;
  }

  /** Reserved space is given up only when it was short over all drives. */
  lemma GivesUpReserved(docs: Docs, held: map<DiskID, seq<Segment>>, v: Volume, free: FreeQuery, list: ListQuery,
                        tried: Tried, inUse: seq<DiskID>, a: Answer)
    requires v.WellFormed() && Asks(docs, held, v, free, list, tried, inUse, a)
    ensures ReservedWasShort(docs, held, v, list, tried, TriedNext(v, tried, IsEnough(a, v)))
  {
    hide Enough, ReservedAnswer;
  }

  lemma LoopNow(docs: Docs, now: Docs, v: Volume, request: Request, start: int, names: nat -> Uuid, p: Progress)
    requires v.WellFormed() && LoopOk(docs, now, v, request, start, names, p) && !p.rejected
    ensures FreshNames(now, names, p.minted)
    ensures Sizable(v, request) ==> ValidDocs(now)
    ensures request.Fixed? ==> TodoOk(v, request, p.todo)
  {
    hide Built, FreshNames, ValidDocs, TodoOk, Sizable;
  }

  /** The drives of a chunk are in use now. If one of them is new, drives in use are asked first again. */
  ghost predicate UsesMore(used: seq<DiskID>, offers: seq<Offer>, tried: Tried, inUse: seq<DiskID>, flags: Tried) {
    && (forall d :: d in inUse <==> d in used || OnOffer(offers, |offers|, d))
    && flags == if forall k | 0 <= k < |offers| :: offers[k].disk in used then tried
                else tried.(used := false, usedReserved := false)
  }

  ghost predicate OnOffer(offers: seq<Offer>, n: int, d: DiskID) {
    exists k :: 0 <= k < n && k < |offers| && offers[k].disk == d
  }

  method TakeIntoUse(used: seq<DiskID>, offers: seq<Offer>, tried: Tried) returns (inUse: seq<DiskID>, flags: Tried)
    ensures UsesMore(used, offers, tried, inUse, flags) && flags.reserved == tried.reserved
  {
    inUse, flags := used, tried;
    for i := 0 to |offers|
      invariant forall d :: d in inUse <==> d in used || OnOffer(offers, i, d)
      invariant flags == if forall k | 0 <= k < i :: offers[k].disk in used then tried
                         else tried.(used := false, usedReserved := false)
    {
      OneMoreOffer(offers, i);
      if offers[i].disk !in inUse {
        inUse := inUse + [offers[i].disk];
        flags := flags.(used := false, usedReserved := false);
      }
    }
  }

  lemma OneMoreOffer(offers: seq<Offer>, i: nat)
    requires i < |offers|
    ensures forall d :: OnOffer(offers, i + 1, d) <==> OnOffer(offers, i, d) || d == offers[i].disk
  {
  }

  lemma PlacedLess(p: Progress, q: Progress, before: Docs, after: Docs, isMax: bool, blocks: nat)
    requires blocks >= 1 && (!isMax ==> q.todo == p.todo - blocks) && (isMax ==> LessSpace(after, before))
    ensures Advanced(p, q, before, after, isMax)
  {
    hide LessSpace;
  }

  lemma StoredAre(v: Volume, names: nat -> Uuid, a: Answer, lists: seq<Listing>, chunk: seq<Avail>, blocks: nat,
                  base: nat, vlbs: int)
    requires v.WellFormed() && a.offers.Some?
    ensures var segs := RoundSegments(a.offers.value, blocks, v, a.fromReserved, names, base);
            && StoredSegments(v, names, StoredRound(a, lists, chunk, blocks, base)) == segs
            && RoundChunk(segs, blocks, v, vlbs)
               == Chunk(vlbs, vlbs + blocks * v.Multiplier() - 1, Grouping(segs, v.GroupSize()))
  {
    hide RoundSegments, Grouping;
  }

  lemma SizableMax(v: Volume, request: Request)
    requires v.WellFormed() && request.MaxCapacity?
    ensures Sizable(v, request)
  {
  }

  /** The part of a round that places a chunk. */
  method PlaceNext(drives: map<DiskID, Drive>, v: Volume, request: Request, start: int, names: nat -> Uuid, p: Progress,
                   ghost docs: Docs, answer: Answer, ghost chunk: seq<Avail>, ghost lists: seq<Listing>, tried: Tried,
                   blocks: nat)
    returns (q: Progress, ghost stored: StoredRound)
    requires v.WellFormed() && DistinctDrives(drives) && AllInBounds(drives)
    requires LoopOk(docs, DocsOf(drives), v, request, start, names, p)
    requires !p.rejected && !p.failed && (request.MaxCapacity? || p.todo > 0)
    requires answer.offers.Some? && |answer.offers.value| == v.NumberOfDisks() && answer.offers.value != []
    requires Usable(DocsOf(drives), v, answer, chunk) && Smallest(answer.offers.value) >= 0
    requires PickedFrom(ListsOf(drives), lists, v, answer, chunk)
    requires forall i | 0 <= i < |answer.offers.value| :: blocks <= answer.offers.value[i].blocks
    requires blocks == ChunkBlocks(p.todo, request.MaxCapacity?, Smallest(answer.offers.value), v)
             && blocks * v.Multiplier() >= 2
    requires tried == TriedNext(v, p.tried, IsEnough(answer, v))
    modifies set d | d in drives :: drives[d]
    ensures AllInBounds(drives) && LoopOk(docs, DocsOf(drives), v, request, start, names, q)
    ensures Advanced(p, q, old(DocsOf(drives)), DocsOf(drives), request.MaxCapacity?)
    ensures Recorded(old(ListsOf(drives)), ListsOf(drives), v, request, names, q, stored)
    ensures !q.failed && q.tried.reserved == tried.reserved
    ensures Goes(p, q, v, request, answer)
  {
    hide *;
    LoopNow(docs, DocsOf(drives), v, request, start, names, p);
    ghost var now, held := DocsOf(drives), ListsOf(drives);
    DrivesHold(drives);
    Grows(blocks, v.Multiplier());
    if request.Fixed? {
      TodoStaysOk(answer.offers.value, v, request, p.todo);
    }
    if Sizable(v, request) {
      BigEnough(answer.offers.value, v, request, p.todo, blocks);
    }
    q := StoreNext(drives, v, request, names, p, answer, chunk, tried, blocks);
    stored := StoredRound(answer, lists, chunk, blocks, p.minted);
    GoesOn(p, q, v, request, answer, tried, blocks);
    StoredAre(v, names, answer, lists, chunk, blocks, p.minted, p.vlbs);
    PlacedOk(docs, now, DocsOf(drives), v, request, start, names, p, q, answer, blocks);
    RecordsStored(held, ListsOf(drives), now, v, request, names, q, stored);
    if request.MaxCapacity? {
      SizableMax(v, request);
    }
    PlacedLess(p, q, now, DocsOf(drives), request.MaxCapacity?, blocks);
  }

  /** Stores the chunk and counts it. */
  method StoreNext(drives: map<DiskID, Drive>, v: Volume, request: Request, names: nat -> Uuid, p: Progress,
                   answer: Answer, ghost chunk: seq<Avail>, tried: Tried, blocks: nat)
    returns (q: Progress)
    requires v.WellFormed() && DistinctDrives(drives) && AllInBounds(drives)
    requires answer.offers.Some? && |answer.offers.value| == v.NumberOfDisks()
    requires Usable(DocsOf(drives), v, answer, chunk) && FreshNames(DocsOf(drives), names, p.minted)
    requires forall i | 0 <= i < |answer.offers.value| :: blocks <= answer.offers.value[i].blocks
    requires blocks >= 1 && (request.Fixed? ==> blocks <= p.todo)
    requires Sizable(v, request) ==> ValidDocs(DocsOf(drives)) && blocks >= 2
    modifies set d | d in drives :: drives[d]
    ensures AllInBounds(drives) && !q.failed && q.tried.reserved == tried.reserved
    ensures UsesMore(p.inUse, answer.offers.value, tried, q.inUse, q.tried)
    ensures q.minted == p.minted + 2 * |answer.offers.value| && q.total == p.total + blocks
            && q.todo == (if request.MaxCapacity? then p.todo else p.todo - blocks)
            && q.vlbs == p.vlbs + blocks * v.Multiplier()
    ensures !q.rejected ==>
              var segs := RoundSegments(answer.offers.value, blocks, v, answer.fromReserved, names, p.minted);
              && DocsOf(drives) == PlaceAll(old(DocsOf(drives)), segs)
              && ListsOf(drives) == AppendedAll(old(ListsOf(drives)), segs)
              && FreshNames(DocsOf(drives), names, q.minted)
              && q.chunks == p.chunks + [RoundChunk(segs, blocks, v, p.vlbs)]
    ensures Sizable(v, request) ==>
              !q.rejected && ValidDocs(DocsOf(drives)) && LessSpace(DocsOf(drives), old(DocsOf(drives)))
  {
    hide *;
    StoredAre(v, names, answer, [], [], blocks, p.minted, p.vlbs);
    var inUse, flags := TakeIntoUse(p.inUse, answer.offers.value, tried);
    var pRaids, rejected := PlaceChunk(drives, v, answer, chunk, blocks, names, p.minted);
    var vlbe := p.vlbs + blocks * v.Multiplier() - 1;
    q := Progress(if request.MaxCapacity? then p.todo else p.todo - blocks, p.total + blocks, vlbe + 1,
                  p.minted + 2 * |answer.offers.value|, false, rejected, inUse,
                  p.chunks + [Chunk(p.vlbs, vlbe, pRaids)], flags);
  }

  method AllocateBlocks(drives: map<DiskID, Drive>, v: Volume, request: Request, start: int, inUse: seq<DiskID>,
                        free: FreeQuery, list: ListQuery, names: nat -> Uuid, minimum: nat)
    returns (outcome: Outcome, ghost states: seq<Docs>, ghost held: seq<map<DiskID, seq<Segment>>>,
             ghost rounds: seq<StoredRound>, ghost steps: seq<Progress>, ghost asked: seq<Answer>)
    requires v.WellFormed() && Terminates(v, request)
    requires DistinctDrives(drives) && AllInBounds(drives) && ValidDocs(DocsOf(drives))
    requires HonestQuery(free, v) && HonestList(list) && FreshNames(DocsOf(drives), names, 0)
    modifies set d | d in drives :: drives[d]
    ensures Sizable(v, request) ==> !outcome.rejected && ValidDocs(DocsOf(drives))
    ensures AllInBounds(drives)
    ensures !outcome.rejected ==> DocsOf(drives) == PlaceAll(old(DocsOf(drives)), AllSegments(outcome.chunks))
    ensures !outcome.rejected ==> NewTo(old(DocsOf(drives)), AllSegments(outcome.chunks))
    ensures !outcome.rejected ==> forall i | 0 <= i < |outcome.chunks| :: WellShaped(outcome.chunks[i], v)
    ensures outcome.success ==>
              !outcome.rejected && Tiles(outcome.chunks, start, start + outcome.blocks, v.Multiplier())
    ensures outcome.success && request.Fixed? ==>
              outcome.blocks == RoundBlocksToNearestBlockSet(request.blocks, v) * v.Multiplier()
    ensures outcome.success && request.MaxCapacity? ==> outcome.blocks >= minimum
    ensures request.Fixed? ==>
              var wanted := RoundBlocksToNearestBlockSet(request.blocks, v);
              (outcome.success <==> !outcome.rejected && SegmentBlocks(outcome.chunks) == wanted)
    ensures request.MaxCapacity? ==>
              (outcome.success <==> !outcome.rejected && SegmentBlocks(outcome.chunks) * v.Multiplier() >= minimum)
    ensures !outcome.rejected && (request.MaxCapacity? || !outcome.success) ==>
              NoChanceLeft(states, held, v, request, LeftOver(v, request, outcome.chunks), free, list)
    ensures |states| == |held| == |rounds| + 1
            && states[0] == old(DocsOf(drives)) && states[|rounds|] == DocsOf(drives)
            && held[0] == old(ListsOf(drives)) && held[|rounds|] == ListsOf(drives)
    ensures Sizable(v, request) ==> RoundsOf(held, v, names, rounds)
    ensures |asked| == |rounds| && Passes(states, held, v, request, free, list, steps, asked)
    ensures steps[0].tried == Tried(false, false, false) && steps[0].inUse == inUse
            && steps[|asked|].chunks == outcome.chunks
  {
    hide *;
    ghost var docs := DocsOf(drives);
    var isMax := request.MaxCapacity?;
    var original := if isMax then 1 else RoundBlocksToNearestBlockSet(request.blocks, v);
    var p := Progress(original, 0, start, 0, false, false, inUse, [], Tried(false, false, false));
    LoopStarts(docs, v, request, start, names, p);
    ghost var first := ListsOf(drives);
    states, held, rounds := [docs], [first], [];
    HistoryStarts(v, request, names, first);
    ChancesStart(docs, first, v, request, p, free, list);
    steps, asked := [p], [];
    PassesStart(docs, first, v, request, free, list, p);
    while !p.rejected && !p.failed && (isMax || p.todo > 0)
      invariant AllInBounds(drives) && LoopOk(docs, DocsOf(drives), v, request, start, names, p)
      invariant History(held, v, request, names, rounds, first, ListsOf(drives))
      invariant |states| == |rounds| + 1 && states[0] == docs && states[|rounds|] == DocsOf(drives)
      invariant |held| == |rounds| + 1 && held[|rounds|] == ListsOf(drives)
      invariant Chances(states, held, v, request, p, free, list)
      invariant |asked| == |rounds| && |steps| == |asked| + 1 && steps[0].tried == Tried(false, false, false)
      invariant steps[0].inUse == inUse && steps[|asked|] == p
      invariant Passes(states, held, v, request, free, list, steps, asked)
      decreases if isMax then 0 else p.todo, FreePairs(DocsOf(drives)), UnownedPairs(DocsOf(drives)), Untried(p)
    {
      ghost var before, was, listed := DocsOf(drives), p, ListsOf(drives);
      ghost var stored, answer;
      p, stored, answer := Round(drives, v, request, start, free, list, names, p, docs);
      StepShrinks(was, p, before, DocsOf(drives), isMax);
      NeverRejected(docs, DocsOf(drives), v, request, start, names, p);
      HistoryNext(held, ListsOf(drives), v, request, names, p, rounds, stored, first, listed);
      ChancesNext(states, held, DocsOf(drives), ListsOf(drives), v, request, was, p, free, list);
      PassesNext(states, held, DocsOf(drives), ListsOf(drives), v, request, free, list, steps, asked, p, answer);
      states, held, rounds := states + [DocsOf(drives)], held + [ListsOf(drives)], rounds + [stored];
      steps, asked := steps + [p], asked + [answer];
    }
    LoopEnds(docs, DocsOf(drives), v, request, start, names, p);
    HistoryEnds(held, v, request, names, rounds, first, ListsOf(drives));
    ChancesEnd(docs, DocsOf(drives), start, names, states, held, v, request, p, free, list);
    var blocks := (if isMax then p.total else original) * v.Multiplier();
    var success := !p.rejected && !(p.failed && !isMax) && !(p.failed && isMax && blocks < minimum);
    outcome := Outcome(p.chunks, blocks, success, p.rejected);
  }

  /** A run of the loop: each pass asks who is to be asked on the drives as they are, and goes on from the answer. */
  ghost predicate Passes(states: seq<Docs>, held: seq<map<DiskID, seq<Segment>>>, v: Volume, request: Request,
                         free: FreeQuery, list: ListQuery, steps: seq<Progress>, asked: seq<Answer>)
    requires v.WellFormed()
  {
    && |states| == |held| == |steps| == |asked| + 1
    && forall i | 0 <= i < |asked| :: PassAt(states, held, v, request, free, list, steps, asked, i)
  }

  ghost predicate PassAt(states: seq<Docs>, held: seq<map<DiskID, seq<Segment>>>, v: Volume, request: Request,
                         free: FreeQuery, list: ListQuery, steps: seq<Progress>, asked: seq<Answer>, i: int)
    requires v.WellFormed() && |states| == |held| == |steps| == |asked| + 1 && 0 <= i < |asked|
  {
    && Asks(states[i], held[i], v, free, list, steps[i].tried, steps[i].inUse, asked[i])
    && Goes(steps[i], steps[i + 1], v, request, asked[i])
  }

  lemma PassesStart(docs: Docs, lists: map<DiskID, seq<Segment>>, v: Volume, request: Request, free: FreeQuery,
                    list: ListQuery, p: Progress)
    requires v.WellFormed()
    ensures Passes([docs], [lists], v, request, free, list, [p], [])
  {
  }

  lemma PassesNext(states: seq<Docs>, held: seq<map<DiskID, seq<Segment>>>, docs: Docs,
                   lists: map<DiskID, seq<Segment>>, v: Volume, request: Request, free: FreeQuery, list: ListQuery,
                   steps: seq<Progress>, asked: seq<Answer>, q: Progress, a: Answer)
    requires v.WellFormed() && Passes(states, held, v, request, free, list, steps, asked)
    requires var n := |asked|;
             && Asks(states[n], held[n], v, free, list, steps[n].tried, steps[n].inUse, a)
             && Goes(steps[n], q, v, request, a)
    ensures Passes(states + [docs], held + [lists], v, request, free, list, steps + [q], asked + [a])
  {
    hide Asks, Goes;
    forall i | 0 <= i < |asked| + 1
      ensures PassAt(states + [docs], held + [lists], v, request, free, list, steps + [q], asked + [a], i)
    {
      assert i < |asked| ==> PassAt(states, held, v, request, free, list, steps, asked, i);
    }
  }

  /** The rounds so far lead from the first lists to the current ones. */
  ghost predicate History(held: seq<map<DiskID, seq<Segment>>>, v: Volume, request: Request, names: nat -> Uuid,
                          rounds: seq<StoredRound>, first: map<DiskID, seq<Segment>>, now: map<DiskID, seq<Segment>>)
    requires v.WellFormed()
  {
    && |held| == |rounds| + 1 && held[0] == first && held[|rounds|] == now
    && (Sizable(v, request) ==> RoundsOf(held, v, names, rounds))
  }

  lemma HistoryStarts(v: Volume, request: Request, names: nat -> Uuid, first: map<DiskID, seq<Segment>>)
    requires v.WellFormed()
    ensures History([first], v, request, names, [], first, first)
  {
  }

  lemma HistoryNext(held: seq<map<DiskID, seq<Segment>>>, after: map<DiskID, seq<Segment>>, v: Volume,
                    request: Request, names: nat -> Uuid, q: Progress, rounds: seq<StoredRound>, r: StoredRound,
                    first: map<DiskID, seq<Segment>>, now: map<DiskID, seq<Segment>>)
    requires v.WellFormed() && History(held, v, request, names, rounds, first, now)
    requires Recorded(now, after, v, request, names, q, r) && (Sizable(v, request) ==> !q.rejected)
    ensures History(held + [after], v, request, names, rounds + [r], first, after)
  {
    hide RoundTo, Sizable;
    if Sizable(v, request) {
      RoundsNext(held, after, v, names, rounds, r);
    }
  }

  lemma HistoryEnds(held: seq<map<DiskID, seq<Segment>>>, v: Volume, request: Request, names: nat -> Uuid,
                    rounds: seq<StoredRound>, first: map<DiskID, seq<Segment>>, now: map<DiskID, seq<Segment>>)
    requires v.WellFormed() && History(held, v, request, names, rounds, first, now)
    ensures |held| == |rounds| + 1 && held[0] == first && held[|rounds|] == now
    ensures Sizable(v, request) ==> RoundsOf(held, v, names, rounds)
  {
    hide RoundTo, Sizable;
  }

  // --------------------------------------------------- why the loop gave up

  /** Blocks per drive of all chunks together. */
  function SegmentBlocks(chunks: seq<Chunk>): int {
    if chunks == [] then 0
    else SegmentBlocks(chunks[1..]) + if HasRef(chunks[0]) then Ref(chunks[0]).Span().Blocks() else 0
  }

  lemma {:induction false} TilesLength(chunks: seq<Chunk>, start: int, end: int, m: int)
    requires Tiles(chunks, start, end, m)
    ensures end - start == SegmentBlocks(chunks) * m
    decreases |chunks|
  {
    if chunks != [] {
      TilesLength(chunks[1..], chunks[0].vlbe + 1, end, m);
      Distribute(Ref(chunks[0]).Span().Blocks(), SegmentBlocks(chunks[1..]), m);
    }
  }

  /** Blocks per drive that are still to be placed; of a request for all there is, at least one. */
  function LeftOver(v: Volume, request: Request, chunks: seq<Chunk>): (n: nat)
    requires v.WellFormed()
  {
    if request.MaxCapacity? || SegmentBlocks(chunks) > RoundBlocksToNearestBlockSet(request.blocks, v) then 1
    else RoundBlocksToNearestBlockSet(request.blocks, v) - SegmentBlocks(chunks)
  }

  ghost predicate ShortAt(states: seq<Docs>, held: seq<map<DiskID, seq<Segment>>>, v: Volume, list: ListQuery, i: int)
    requires v.WellFormed()
  {
    0 <= i < |states| && i < |held| && Short(ReservedAnswer(states[i], held[i], v, list, None), v)
  }

  /** On the drives as they are in the end the query that counts, asked over all drives, has nothing to place on: that
      of reserved space where free space must not be used, and otherwise that of free space, after reserved space had
      turned out short over all drives. */
  ghost predicate NoChanceLeft(states: seq<Docs>, held: seq<map<DiskID, seq<Segment>>>, v: Volume, request: Request,
                               todo: nat, free: FreeQuery, list: ListQuery)
    requires v.WellFormed()
  {
    && |states| == |held| >= 1
    && var docs, lists := states[|states| - 1], held[|held| - 1];
       || (TakesReserved(v) && !v.allowOverflow
           && Nothing(ReservedAnswer(docs, lists, v, list, None), v, request.MaxCapacity?, todo))
       || (Nothing(Some(free(docs, None)), v, request.MaxCapacity?, todo)
           && (TakesReserved(v) ==> exists i :: ShortAt(states, held, v, list, i)))
  }

  ghost predicate Chances(states: seq<Docs>, held: seq<map<DiskID, seq<Segment>>>, v: Volume, request: Request,
                          p: Progress, free: FreeQuery, list: ListQuery)
    requires v.WellFormed()
  {
    && |states| == |held| >= 1
    && (p.tried.reserved ==> exists i :: ShortAt(states, held, v, list, i))
    && (p.failed ==> NoChanceLeft(states, held, v, request, p.todo, free, list))
  }

  lemma ChancesStart(docs: Docs, lists: map<DiskID, seq<Segment>>, v: Volume, request: Request, p: Progress,
                     free: FreeQuery, list: ListQuery)
    requires v.WellFormed() && !p.tried.reserved && !p.failed
    ensures Chances([docs], [lists], v, request, p, free, list)
  {
  }

  lemma ChancesNext(states: seq<Docs>, held: seq<map<DiskID, seq<Segment>>>, docs: Docs,
                    lists: map<DiskID, seq<Segment>>, v: Volume, request: Request, p: Progress, q: Progress,
                    free: FreeQuery, list: ListQuery)
    requires v.WellFormed() && Chances(states, held, v, request, p, free, list)
    requires ReservedWasShort(states[|states| - 1], held[|held| - 1], v, list, p.tried, q.tried)
    requires p.tried.reserved ==> q.tried.reserved
    requires q.failed ==> LastChance(docs, lists, v, request, q.todo, free, list, p.tried)
    ensures Chances(states + [docs], held + [lists], v, request, q, free, list)
  {
    hide Short, Nothing, ReservedAnswer;
    var more, lists2 := states + [docs], held + [lists];
    if q.tried.reserved || p.tried.reserved {
      var i := |states| - 1;
      if p.tried.reserved {
        i := WasShort(states, held, v, list);
      }
      assert more[i] == states[i] && lists2[i] == held[i];
      assert ShortAt(more, lists2, v, list, i);
    }
  }

  lemma WasShort(states: seq<Docs>, held: seq<map<DiskID, seq<Segment>>>, v: Volume, list: ListQuery)
    returns (i: int)
    requires v.WellFormed() && exists i :: ShortAt(states, held, v, list, i)
    ensures ShortAt(states, held, v, list, i)
  {
    i :| ShortAt(states, held, v, list, i);
  }

  lemma ChancesEnd(docs: Docs, now: Docs, start: int, names: nat -> Uuid, states: seq<Docs>,
                   held: seq<map<DiskID, seq<Segment>>>, v: Volume, request: Request, p: Progress, free: FreeQuery,
                   list: ListQuery)
    requires v.WellFormed() && LoopOk(docs, now, v, request, start, names, p)
    requires Chances(states, held, v, request, p, free, list)
    ensures !p.rejected ==> p.total == SegmentBlocks(p.chunks)
    ensures !p.rejected && p.failed ==>
              NoChanceLeft(states, held, v, request, LeftOver(v, request, p.chunks), free, list)
    ensures request.Fixed? && !p.rejected && p.failed ==> p.todo > 0
  {
    hide FreshNames, ValidDocs, TodoOk, Sizable, NoChanceLeft, ShortAt;
    if !p.rejected {
      BuiltTotal(docs, now, v, p.chunks, start, p.vlbs, p.total);
      if p.failed {
        AnyLeftOver(states, held, v, request, p.todo, LeftOver(v, request, p.chunks), free, list);
      }
    }
  }

  /** What is left does not matter to a request for all there is. */
  lemma AnyLeftOver(states: seq<Docs>, held: seq<map<DiskID, seq<Segment>>>, v: Volume, request: Request, todo: nat,
                    other: nat, free: FreeQuery, list: ListQuery)
    requires v.WellFormed() && NoChanceLeft(states, held, v, request, todo, free, list)
    requires request.MaxCapacity? || other == todo
    ensures NoChanceLeft(states, held, v, request, other, free, list)
  {
    hide Short, ReservedAnswer, Smallest, ShortAt, RoundDown;
  }

  lemma BuiltTotal(docs: Docs, now: Docs, v: Volume, chunks: seq<Chunk>, start: int, vlbs: int, total: nat)
    requires v.WellFormed() && Built(docs, now, v, chunks, start, vlbs, total)
    ensures total == SegmentBlocks(chunks)
  {
    TilesLength(chunks, start, vlbs, v.Multiplier());
    Cancel(total, SegmentBlocks(chunks), v.Multiplier());
  }

  lemma Cancel(a: int, b: int, m: int)
    requires m >= 1 && a * m == b * m
    ensures a == b
  {
    if a < b {
      MulMono(a + 1, b, m);
      Distribute(a, 1, m);
    } else if b < a {
      MulMono(b + 1, a, m);
      Distribute(b, 1, m);
    }
  }

  lemma NeverRejected(docs: Docs, now: Docs, v: Volume, request: Request, start: int, names: nat -> Uuid, p: Progress)
    requires v.WellFormed() && LoopOk(docs, now, v, request, start, names, p)
    ensures Sizable(v, request) ==> !p.rejected
  {
    hide Built, FreshNames, ValidDocs, TodoOk, Sizable;
  }

  lemma LoopStarts(docs: Docs, v: Volume, request: Request, start: int, names: nat -> Uuid, p: Progress)
    requires v.WellFormed() && ValidDocs(docs) && FreshNames(docs, names, 0)
    requires request.Fixed? ==> p.todo == RoundBlocksToNearestBlockSet(request.blocks, v)
    requires p.total == 0 && p.vlbs == start && p.minted == 0 && p.chunks == [] && !p.rejected
    ensures LoopOk(docs, docs, v, request, start, names, p)
  {
    hide ValidDocs, FreshNames, Built, TodoOk;
    BuiltNothing(docs, v, start);
    FirstTodo(v, request, p.todo);
  }

  /** In words of the measure: less to do, or less free space, or less unowned space, or less untried. */
  lemma StepShrinks(p: Progress, q: Progress, before: Docs, after: Docs, isMax: bool)
    requires (after == before && Stalled(p, q)) || Advanced(p, q, before, after, isMax)
    ensures || (!isMax && q.todo < p.todo)
            || (q.todo == p.todo && after == before && Untried(q) < Untried(p))
            || (isMax && FreePairs(after) < FreePairs(before))
            || (isMax && FreePairs(after) == FreePairs(before) && UnownedPairs(after) < UnownedPairs(before))
  {
    hide FreePairs, UnownedPairs, Untried;
  }

  lemma LoopEnds(docs: Docs, now: Docs, v: Volume, request: Request, start: int, names: nat -> Uuid, p: Progress)
    requires v.WellFormed() && LoopOk(docs, now, v, request, start, names, p)
    ensures Sizable(v, request) ==> !p.rejected && ValidDocs(now)
    ensures !p.rejected ==>
              && now == PlaceAll(docs, AllSegments(p.chunks)) && NewTo(docs, AllSegments(p.chunks))
              && Tiles(p.chunks, start, start + p.total * v.Multiplier(), v.Multiplier())
              && (forall i | 0 <= i < |p.chunks| :: WellShaped(p.chunks[i], v))
    ensures !p.rejected && request.Fixed? ==> p.todo + p.total == RoundBlocksToNearestBlockSet(request.blocks, v)
  {
    hide ValidDocs, FreshNames, Built, TodoOk, Sizable;
    if !p.rejected {
      BuiltMeans(docs, now, v, p.chunks, start, p.vlbs, p.total);
    }
  }

  lemma BuiltMeans(docs: Docs, now: Docs, v: Volume, chunks: seq<Chunk>, start: int, vlbs: int, total: nat)
    requires v.WellFormed() && Built(docs, now, v, chunks, start, vlbs, total)
    ensures Tiles(chunks, start, start + total * v.Multiplier(), v.Multiplier())
    ensures forall i | 0 <= i < |chunks| :: WellShaped(chunks[i], v)
    ensures now == PlaceAll(docs, AllSegments(chunks)) && NewTo(docs, AllSegments(chunks))
  {
  }

  lemma FirstTodo(v: Volume, request: Request, original: nat)
    requires v.WellFormed() && (request.Fixed? ==> original == RoundBlocksToNearestBlockSet(request.blocks, v))
    ensures request.Fixed? ==> TodoOk(v, request, original)
  {
  }

  lemma NotEnough(a: Answer, v: Volume)
    requires v.WellFormed() && (a.offers.None? || |a.offers.value| < v.NumberOfDisks())
    ensures !IsEnough(a, v)
  {
  }

  lemma OffersKnownUsable(docs: Docs, v: Volume, a: Answer, chunk: seq<Avail>)
    requires v.WellFormed() && Usable(docs, v, a, chunk) && a.offers.Some? && |a.offers.value| >= v.NumberOfDisks()
    ensures |a.offers.value| == v.NumberOfDisks() && a.offers.value != []
    ensures forall i | 0 <= i < |a.offers.value| :: a.offers.value[i].blocks >= 0
  {
    DisksPositive(v);
  }
}
