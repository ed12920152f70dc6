/** What a drive offers of a reserved pRaid: a longest stretch of unused reserved space, whenever there is any. */
module ReservedOffers {
  import opened Options
  import opened Ranges
  import opened Drives
  import opened ReservedSpace

  /** A stretch that one reserved segment of the group leaves unused: the segment awaits no reclaim. */
  ghost predicate IsUnused(l: Listing, vpg: VolumeID, p: Uuid, r: Range, k: int) {
    && 0 <= k < |l.segs|
    && l.segs[k].isReserved && l.segs[k].volume == vpg && l.segs[k].pendingReclaim == Idle && l.segs[k].pRaid == p
    && r.Nonempty() && r.Within(l.segs[k].Span())
    && (forall j | 0 <= j < |l.segs| && !l.segs[j].isReserved :: !l.segs[j].Span().Meets(r))
  }

  lemma UnusedBlocks(l: Listing, vpg: VolumeID, p: Uuid, r: Range, k: int)
    requires IsUnused(l, vpg, p, r, k)
    ensures forall b | r.Has(b) :: b in Unused(l.segs, l.segs[k])
  {
    PlainSpansCover(l.segs);
    forall b | r.Has(b) ensures b in Unused(l.segs, l.segs[k]) {
      assert forall j | 0 <= j < |l.segs| && !l.segs[j].isReserved :: !l.segs[j].Span().Has(b);
    }
  }

  lemma {:induction false} OfferKept(l: Listing, vpg: VolumeID, n: nat, k: int, a: Avail)
    requires 0 <= k < n <= |l.segs| && Offered(l.segs[k], vpg) && a in UnusedIn(l.segs, l.disk, l.segs[k])
    ensures a in ReservedFree(l.segs, l.segs[..n], l.disk, vpg)
  {
    hide UnusedIn;
    assert l.segs[..n][..n - 1] == l.segs[..n - 1];
    if k < n - 1 {
      OfferKept(l, vpg, n - 1, k, a);
    }
  }

  /** Some range that the drive lists for the reserved pRaid holds the stretch. */
  lemma UnusedIsListed(l: Listing, vpg: VolumeID, p: Uuid, r: Range, k: int) returns (a: Avail)
    requires IsUnused(l, vpg, p, r, k)
    ensures a in AvailOn(l, vpg) && a.pRaid == p && r.Within(a.Span())
  {
    UnusedBlocks(l, vpg, p, r, k);
    var blocks := Unused(l.segs, l.segs[k]);
    var x := WithinOneRun(RunsOf(blocks), blocks, r);
    a := UnusedIn(l.segs, l.disk, l.segs[k])[x];
    assert a in UnusedIn(l.segs, l.disk, l.segs[k]);
    hide UnusedIn;
    OfferKept(l, vpg, |l.segs|, k, a);
    assert l.segs[..|l.segs|] == l.segs;
  }

  lemma UnusedIsOffered(l: Listing, vpg: VolumeID, p: Uuid, r: Range, k: int) returns (a: Avail)
    requires IsUnused(l, vpg, p, r, k)
    ensures a in Picks(AvailOn(l, vpg)) && a.pRaid == p && r.Blocks() <= a.Span().Blocks()
  {
    var listed := UnusedIsListed(l, vpg, p, r, k);
    hide AvailOn, IsUnused;
    FirstLargestIs(AvailOn(l, vpg), p);
    a := FirstLargest(AvailOn(l, vpg), p).value;
    PicksExact(AvailOn(l, vpg), a);
  }

  /** Each offer is unused space of its reserved pRaid on the drive, and no longer stretch of it is there. */
  lemma OfferIsLargest(l: Listing, vpg: VolumeID, a: Avail) returns (k: int)
    requires forall j | 0 <= j < |l.segs| :: l.segs[j].Span().Nonempty()
    requires a in Picks(AvailOn(l, vpg))
    ensures IsUnused(l, vpg, a.pRaid, a.Span(), k) && a.diskID == l.disk && a.reserved == l.segs[k].uuid
    ensures forall r, j | IsUnused(l, vpg, a.pRaid, r, j) :: r.Blocks() <= a.Span().Blocks()
  {
    k := PickIsUnused(l, vpg, a);
    forall r, j | IsUnused(l, vpg, a.pRaid, r, j) ensures r.Blocks() <= a.Span().Blocks() {
      hide IsUnused, InUnused;
      var b := UnusedIsOffered(l, vpg, a.pRaid, r, j);
      PicksExact(AvailOn(l, vpg), a);
      PicksExact(AvailOn(l, vpg), b);
    }
  }
}
