/** Results around the allocation loop: requests it never finishes, and extending a volume. */
module AllocationResults {
  import opened Ranges
  import opened Drives
  import opened DriveStore
  import opened Options
  import opened Chunks
  import opened Arith
  import opened AllocationSpec
  import opened AllocationHeap
  import opened AllocateBlocks

  // --------------------------------------------------- a request too small

  /** A request below one block set on a volume without striping rounds to one block, and a chunk of one
      virtual block is never placed, whatever the drives offer. */
  lemma TinyIsNeverPlaced(offers: seq<Offer>, v: Volume, request: Request)
    requires v.WellFormed() && request.Fixed? && request.blocks < v.BlockSetSize() && v.Multiplier() == 1
    requires offers != [] && Smallest(offers) >= 0
    ensures RoundBlocksToNearestBlockSet(request.blocks, v) == 1
    ensures ChunkBlocks(1, false, Smallest(offers), v) * v.Multiplier() <= 1
  {
    ChunkBlocksFit(offers, v, 1, false);
  }

  // -------------------------------------------------- rounds that place nothing

  /** What the queries offer while the drives do not change, with and without the restriction to drives
      already in use. */
  datatype Supply = Supply(reservedInUse: seq<Offer>, reservedAny: seq<Offer>, freeInUse: seq<Offer>,
      freeAny: seq<Offer>)

  function Asked(v: Volume, tried: Tried, supply: Supply): seq<Offer> {
    if AsksReserved(v, tried) then (if tried.usedReserved then supply.reservedAny else supply.reservedInUse)
    else (if tried.used then supply.freeAny else supply.freeInUse)
  }

  /** A round on these offers places nothing: too few drives, or a chunk of at most one virtual block. */
  predicate Stuck(v: Volume, request: Request, todo: nat, offers: seq<Offer>)
    requires v.WellFormed()
  {
    || |offers| < v.NumberOfDisks() || offers == [] || Smallest(offers) < 0
    || ChunkBlocks(todo, request.MaxCapacity?, Smallest(offers), v) * v.Multiplier() <= 1
  }

  /** The loop is still going after `n` rounds, none of which placed anything. */
  predicate Spins(v: Volume, request: Request, todo: nat, tried: Tried, supply: Supply, n: nat)
    requires v.WellFormed()
    decreases n
  {
    var offers := Asked(v, tried, supply);
    var enough := Enough(offers, v);
    || n == 0
    || (Stuck(v, request, todo, offers) && HasChance(v, tried, enough)
        && Spins(v, request, todo, TriedNext(v, tried, enough), supply, n - 1))
  }

  const UNTRIED := Tried(false, false, false)

  predicate FreeSpins(v: Volume, request: Request, todo: nat, supply: Supply)
    requires v.WellFormed()
  {
    Stuck(v, request, todo, supply.freeInUse) && Stuck(v, request, todo, supply.freeAny) && Enough(supply.freeAny, v)
  }

  /** What keeps the loop going without a placement: the query asked last finds enough drives, again and
      again, and nothing can be placed on what any query finds on the way there. */
  predicate SpinsForever(v: Volume, request: Request, todo: nat, supply: Supply)
    requires v.WellFormed()
  {
    if v.isReserved || v.vpg.None? then FreeSpins(v, request, todo, supply)
    else
      && Stuck(v, request, todo, supply.reservedInUse) && Stuck(v, request, todo, supply.reservedAny)
      && (Enough(supply.reservedAny, v) || (v.allowOverflow && FreeSpins(v, request, todo, supply)))
  }

  /** From these flags the same query is asked again and again. */
  predicate AsksAgain(v: Volume, request: Request, todo: nat, tried: Tried, supply: Supply)
    requires v.WellFormed()
  {
    if AsksReserved(v, tried) then tried.usedReserved && Enough(supply.reservedAny, v)
       && Stuck(v, request, todo, supply.reservedAny)
    else tried.used && Enough(supply.freeAny, v) && Stuck(v, request, todo, supply.freeAny)
  }

  lemma {:induction false} AgainIsForever(v: Volume, request: Request, todo: nat, tried: Tried, supply: Supply, n: nat)
    requires v.WellFormed() && AsksAgain(v, request, todo, tried, supply)
    ensures Spins(v, request, todo, tried, supply, n)
    decreases n
  {
    hide Stuck, Enough;
    if n > 0 {
      AgainIsForever(v, request, todo, TriedNext(v, tried, Enough(Asked(v, tried, supply), v)), supply, n - 1);
    }
  }

  lemma SpinOnce(v: Volume, request: Request, todo: nat, tried: Tried, supply: Supply, n: nat)
    requires v.WellFormed()
    ensures var offers := Asked(v, tried, supply);
            (Spins(v, request, todo, tried, supply, n + 1)
             <==> Stuck(v, request, todo, offers) && HasChance(v, tried, Enough(offers, v))
                  && Spins(v, request, todo, TriedNext(v, tried, Enough(offers, v)), supply, n))
  {
  }

  lemma {:induction false} SpinsLess(v: Volume, request: Request, todo: nat, tried: Tried, supply: Supply, n: nat)
    requires v.WellFormed() && Spins(v, request, todo, tried, supply, n + 1)
    ensures Spins(v, request, todo, tried, supply, n)
    decreases n
  {
    hide Stuck, Enough;
    if n > 0 {
      SpinsLess(v, request, todo, TriedNext(v, tried, Enough(Asked(v, tried, supply), v)), supply, n - 1);
    }
  }

  /** The loop spins forever exactly then, and otherwise places something or gives up within five rounds. */
  lemma SpinsExactly(v: Volume, request: Request, todo: nat, supply: Supply)
    requires v.WellFormed()
    ensures SpinsForever(v, request, todo, supply) ==> forall n: nat :: Spins(v, request, todo, UNTRIED, supply, n)
    ensures !SpinsForever(v, request, todo, supply) ==> !Spins(v, request, todo, UNTRIED, supply, 5)
  {
    var t1 := TriedNext(v, UNTRIED, Enough(Asked(v, UNTRIED, supply), v));
    var t2 := TriedNext(v, t1, Enough(Asked(v, t1, supply), v));
    var t3 := TriedNext(v, t2, Enough(Asked(v, t2, supply), v));
    var t4 := TriedNext(v, t3, Enough(Asked(v, t3, supply), v));
    if SpinsForever(v, request, todo, supply) {
      forall n: nat ensures Spins(v, request, todo, UNTRIED, supply, n) {
        SpinOnce(v, request, todo, UNTRIED, supply, n + 2);
        SpinOnce(v, request, todo, t1, supply, n + 1);
        SpinOnce(v, request, todo, t2, supply, n);
        hide Stuck, Enough, Spins;
        if AsksAgain(v, request, todo, t1, supply) {
          AgainIsForever(v, request, todo, t1, supply, n + 2);
        } else {
          AgainIsForever(v, request, todo, t3, supply, n);
        }
        SpinsLess(v, request, todo, UNTRIED, supply, n + 2);
        SpinsLess(v, request, todo, UNTRIED, supply, n + 1);
        SpinsLess(v, request, todo, UNTRIED, supply, n);
      }
    } else {
      SpinOnce(v, request, todo, UNTRIED, supply, 4);
      SpinOnce(v, request, todo, t1, supply, 3);
      SpinOnce(v, request, todo, t2, supply, 2);
      SpinOnce(v, request, todo, t3, supply, 1);
      hide Stuck, Enough, Spins;
    }
  }

  /** A request below one block set on a volume without striping is stuck on whatever is offered: it makes the
      loop spin exactly when enough drives keep being found. */
  lemma TinyLoopsExactly(v: Volume, request: Request, supply: Supply)
    requires v.WellFormed() && request.Fixed? && request.blocks < v.BlockSetSize() && v.Multiplier() == 1
    ensures SpinsForever(v, request, 1, supply)
       <==> if v.isReserved || v.vpg.None? then Enough(supply.freeAny, v)
            else Enough(supply.reservedAny, v) || (v.allowOverflow && Enough(supply.freeAny, v))
  {
    TinyIsStuck(v, request, supply.reservedInUse);
    TinyIsStuck(v, request, supply.reservedAny);
    TinyIsStuck(v, request, supply.freeInUse);
    TinyIsStuck(v, request, supply.freeAny);
  }

  lemma TinyIsStuck(v: Volume, request: Request, offers: seq<Offer>)
    requires v.WellFormed() && request.Fixed? && request.blocks < v.BlockSetSize() && v.Multiplier() == 1
    ensures Stuck(v, request, 1, offers)
  {
    if offers != [] && Smallest(offers) >= 0 {
      TinyIsNeverPlaced(offers, v, request);
    }
  }

  /** Offers of one block set on every drive needed. */
  function OneSetEach(v: Volume, n: nat): (r: seq<Offer>)
    requires v.WellFormed()
    ensures |r| == n && forall i | 0 <= i < n :: r[i] == Offer(i, 0, v.BlockSetSize(), NO_UUID)
  {
    seq(n, i requires 0 <= i => Offer(i, 0, v.BlockSetSize(), NO_UUID))
  }

  lemma {:induction false} OneSetCounts(v: Volume, n: nat)
    requires v.WellFormed()
    ensures CountAtLeast(OneSetEach(v, n), v.BlockSetSize()) == n
    ensures n >= 1 ==> Smallest(OneSetEach(v, n)) == v.BlockSetSize()
    decreases n
  {
    if n > 0 {
      OneSetCounts(v, n - 1);
      assert OneSetEach(v, n)[..n - 1] == OneSetEach(v, n - 1);
    }
  }

  /** No query returns more drives than a chunk needs. */
  predicate Limited(v: Volume, supply: Supply) {
    && |supply.reservedInUse| <= v.NumberOfDisks() && |supply.reservedAny| <= v.NumberOfDisks()
    && |supply.freeInUse| <= v.NumberOfDisks() && |supply.freeAny| <= v.NumberOfDisks()
  }

  ghost predicate MaySpin(v: Volume, request: Request, todo: nat)
    requires v.WellFormed()
  {
    exists supply :: Limited(v, supply) && SpinsForever(v, request, todo, supply)
  }

  /** What the request starts with. */
  function StartTodo(v: Volume, request: Request): nat
    requires v.WellFormed()
  {
    match request
    case MaxCapacity => 1
    case Fixed(blocks) => RoundBlocksToNearestBlockSet(blocks, v)
  }

  lemma SpinsOnOneSet(v: Volume, request: Request, todo: nat)
    requires v.WellFormed()
    requires ChunkBlocks(todo, request.MaxCapacity?, v.BlockSetSize(), v) * v.Multiplier() <= 1
    ensures MaySpin(v, request, todo)
  {
    var n := v.NumberOfDisks();
    DisksPositive(v);
    OneSetCounts(v, n);
    var offers := OneSetEach(v, n);
    assert Stuck(v, request, todo, offers) && Enough(offers, v);
    var supply := Supply(offers, offers, offers, offers);
    assert Limited(v, supply) && SpinsForever(v, request, todo, supply);
  }

  /** The condition the loop needs is exact: it spins forever on some supply of drives if and only if the
      condition fails, which a caller can check from the volume and the request. */
  lemma TerminatesExactly(v: Volume, request: Request)
    requires v.WellFormed()
    ensures Terminates(v, request) <==> !MaySpin(v, request, StartTodo(v, request))
  {
    var todo, isMax := StartTodo(v, request), request.MaxCapacity?;
    var size := v.BlockSetSize();
    if Terminates(v, request) {
      if supply :| Limited(v, supply) && SpinsForever(v, request, todo, supply) {
        NeverStuck(v, request, supply.reservedAny);
        NeverStuck(v, request, supply.freeAny);
      }
    } else {
      if !StripesFitSets(v) && (isMax || request.blocks >= 2 * size) {
        LargeRequest(v, request);
        StripesFitExactly(v, todo);
      } else {
        assert todo == 1 && v.Multiplier() == 1;
      }
      SpinsOnOneSet(v, request, todo);
    }
  }

  lemma NeverStuck(v: Volume, request: Request, offers: seq<Offer>)
    requires v.WellFormed() && Terminates(v, request) && |offers| <= v.NumberOfDisks()
    ensures !(Stuck(v, request, StartTodo(v, request), offers) && Enough(offers, v))
  {
    DisksPositive(v);
    if Enough(offers, v) && offers != [] {
      FirstTodo(v, request, StartTodo(v, request));
      EnoughGrows(offers, v, request, StartTodo(v, request));
    }
  }

  lemma LargeRequest(v: Volume, request: Request)
    requires v.WellFormed() && (request.MaxCapacity? || request.blocks >= 2 * v.BlockSetSize())
    ensures request.MaxCapacity? || StartTodo(v, request) > v.BlockSetSize()
  {
    if request.Fixed? {
      Side(request.blocks, 2, v.BlockSetSize());
      MulMono(2, request.blocks / v.BlockSetSize(), v.BlockSetSize());
    }
  }

  /** An input: RAID 0 of two drives with stripes of 300 blocks and 272 free blocks on each. Both drives count
      as enough, and the chunk they give is empty, round after round. */
  lemma StripesTooWide()
    ensures var v := Volume(1, Plain, 2, 300, false, None, false);
            var offers := [Offer(0, 0, 272, NO_UUID), Offer(1, 0, 272, NO_UUID)];
            && v.WellFormed() && !StripesFitSets(v) && Enough(offers, v)
            && forall n: nat :: Spins(v, MaxCapacity, 1, UNTRIED, Supply(offers, offers, offers, offers), n)
  {
    var v := Volume(1, Plain, 2, 300, false, None, false);
    var offers := [Offer(0, 0, 272, NO_UUID), Offer(1, 0, 272, NO_UUID)];
    var one := [Offer(0, 0, 272, NO_UUID)];
    assert offers[..1] == one && one[..0] == [];
    assert Smallest(one) == 272 && CountAtLeast(one, 256) == 1;
    assert Smallest(offers) == 272 && CountAtLeast(offers, 256) == 2;
    BelowOneSet(272, 300);
    BelowOneSet(0, 256);
    assert Stuck(v, MaxCapacity, 1, offers);
    SpinsExactly(v, MaxCapacity, 1, Supply(offers, offers, offers, offers));
  }

  // --------------------------------------------------------------- extension

  /** `getMaxOfArray` over the chunk ends. */
  function MaxVlbe(chunks: seq<Chunk>): (max: int)
    requires chunks != []
    ensures (exists c :: c in chunks && c.vlbe == max) && forall c | c in chunks :: c.vlbe <= max
  {
    if |chunks| == 1 then
      assert chunks[0] in chunks;
      chunks[0].vlbe
    else
      var n := |chunks| - 1;
      assert forall c :: c in chunks <==> c in chunks[..n] || c == chunks[n];
      Max(MaxVlbe(chunks[..n]), chunks[n].vlbe)
  }

  lemma {:induction false} TilesInit(cs: seq<Chunk>, start: int, end: int, m: int)
    requires Tiles(cs, start, end, m) && cs != []
    ensures Tiles(cs[..|cs| - 1], start, cs[|cs| - 1].vlbs, m) && cs[|cs| - 1].vlbe + 1 == end && HasRef(cs[|cs| - 1])
    ensures cs[|cs| - 1].vlbe + 1 == cs[|cs| - 1].vlbs + Ref(cs[|cs| - 1]).Span().Blocks() * m
    decreases |cs|
  {
    if |cs| > 1 {
      TilesInit(cs[1..], cs[0].vlbe + 1, end, m);
      var n := |cs| - 1;
      assert cs[1..][n - 1] == cs[n];
      assert cs[1..][..n - 1] == cs[..n][1..];
    } else {
      assert cs[1..] == [];
      assert cs[..0] == [];
    }
  }

  /** An extension starts right behind the volume, in whatever order its chunks are stored. */
  lemma ExtensionStartsAtEnd(chunks: seq<Chunk>, stored: seq<Chunk>, start: int, blocks: int, m: int)
    requires Tiles(chunks, start, blocks, m) && chunks != [] && m >= 1
    requires forall i | 0 <= i < |chunks| && HasRef(chunks[i]) :: Ref(chunks[i]).Span().Nonempty()
    requires multiset(stored) == multiset(chunks)
    ensures stored != [] && MaxVlbe(stored) + 1 == blocks
  {
    LastChunkEnds(chunks, start, blocks, m);
    assert |multiset(stored)| == |stored|;
    assert forall c :: c in stored <==> c in multiset(stored);
    assert forall c :: c in chunks <==> c in multiset(chunks);
    hide Tiles;
  }

  lemma {:induction false} LastChunkEnds(chunks: seq<Chunk>, start: int, blocks: int, m: int)
    requires Tiles(chunks, start, blocks, m) && chunks != [] && m >= 1
    requires forall i | 0 <= i < |chunks| && HasRef(chunks[i]) :: Ref(chunks[i]).Span().Nonempty()
    ensures MaxVlbe(chunks) + 1 == blocks
    decreases |chunks|
  {
    TilesInit(chunks, start, blocks, m);
    var n := |chunks| - 1;
    Positive(Ref(chunks[n]).Span().Blocks(), m);
    if n > 0 {
      assert forall i | 0 <= i < n :: chunks[..n][i] == chunks[i];
      LastChunkEnds(chunks[..n], start, chunks[n].vlbs, m);
    }
  }

  /** The extended volume tiles the sum of both sizes: no gap and no overlap at the seam. */
  lemma ExtendedTiles(chunks: seq<Chunk>, stored: seq<Chunk>, blocks: int, extension: seq<Chunk>, more: int, m: int)
    requires Tiles(chunks, 0, blocks, m) && chunks != [] && m >= 1
    requires forall i | 0 <= i < |chunks| && HasRef(chunks[i]) :: Ref(chunks[i]).Span().Nonempty()
    requires multiset(stored) == multiset(chunks) && stored != []
    requires Tiles(extension, MaxVlbe(stored) + 1, MaxVlbe(stored) + 1 + more, m)
    ensures Tiles(chunks + extension, 0, blocks + more, m)
  {
    ExtensionStartsAtEnd(chunks, stored, 0, blocks, m);
    TilesConcat(chunks, extension, 0, blocks, blocks + more, m);
  }
}
