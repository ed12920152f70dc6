/** Which reserved space of a provisioning group nobody uses, and what to put in its place
    (`shrinkReservedSpaceVolume`, the identification step). */
module ReclaimPlan {
  import opened Ranges
  import opened Drives
  import opened Redo
  import opened Chunks

  datatype Replacement = Replacement(original: Segment, replacements: seq<Segment>, freedBlocks: int)

  datatype Plan = Plan(removals: seq<Segment>, replacements: seq<Replacement>, chunks: seq<Chunk>, vlbs: int)

  /** `uuid.v1()` as a parameter: the uuid of replacement `i` of a segment. */
  type Names = (Uuid, int) -> Uuid

  // ------------------------------------------------------------ used ranges

  function RangeIfNaming(s: Segment, u: Uuid): seq<Range> {
    if s.fromReserved && s.reservedUUID == u then [s.Span()] else []
  }

  /** The ranges of derived segments that name reservation `u`, in document order. */
  function RangesIn(volume: seq<Segment>, u: Uuid): seq<Range> {
    if volume == [] then []
    else RangesIn(volume[..|volume| - 1], u) + RangeIfNaming(volume[|volume| - 1], u)
  }

  function RangesNaming(volumes: seq<seq<Segment>>, u: Uuid): seq<Range> {
    if volumes == [] then []
    else RangesNaming(volumes[..|volumes| - 1], u) + RangesIn(volumes[|volumes| - 1], u)
  }

  function Lookup(m: map<Uuid, seq<Range>>, u: Uuid): seq<Range> {
    if u in m then m[u] else []
  }

  /** Collects the ranges of derived segments by the reservation they name. */
  method BuildUsedRangesByReservedUUID(volumes: seq<seq<Segment>>) returns (used: map<Uuid, seq<Range>>)
    ensures forall u :: Lookup(used, u) == RangesNaming(volumes, u)
  {
    used := map[];
    for v := 0 to |volumes|
      invariant forall u :: Lookup(used, u) == RangesNaming(volumes[..v], u)
    {
      assert volumes[..v + 1][..v] == volumes[..v];
      used := AddUsedRanges(used, volumes[v]);
    }
    assert volumes[..|volumes|] == volumes;
  }

  method AddUsedRanges(before: map<Uuid, seq<Range>>, segments: seq<Segment>) returns (used: map<Uuid, seq<Range>>)
    ensures forall u :: Lookup(used, u) == Lookup(before, u) + RangesIn(segments, u)
  {
    used := before;
    for i := 0 to |segments|
      invariant UsedAfter(before, segments[..i], used)
    {
      var diskSegment := segments[i];
      UsedNext(before, segments, i, used);
      if diskSegment.fromReserved {
        used := used[diskSegment.reservedUUID := Lookup(used, diskSegment.reservedUUID) + [diskSegment.Span()]];
      }
    }
    assert segments[..|segments|] == segments;
  }

  ghost predicate UsedAfter(before: map<Uuid, seq<Range>>, segments: seq<Segment>, used: map<Uuid, seq<Range>>) {
    forall u :: Lookup(used, u) == Lookup(before, u) + RangesIn(segments, u)
  }

  lemma RangesInNext(segments: seq<Segment>, i: int, u: Uuid)
    requires 0 <= i < |segments|
    ensures RangesIn(segments[..i + 1], u) == RangesIn(segments[..i], u) + RangeIfNaming(segments[i], u)
  {
    assert segments[..i + 1][..i] == segments[..i];
  }

  lemma UsedNext(before: map<Uuid, seq<Range>>, segments: seq<Segment>, i: int, used: map<Uuid, seq<Range>>)
    requires 0 <= i < |segments| && UsedAfter(before, segments[..i], used)
    ensures UsedAfter(before, segments[..i + 1],
              if segments[i].fromReserved
              then used[segments[i].reservedUUID := Lookup(used, segments[i].reservedUUID) + [segments[i].Span()]]
              else used)
  {
    hide RangesIn;
    var s := segments[i];
    var next := if s.fromReserved then used[s.reservedUUID := Lookup(used, s.reservedUUID) + [s.Span()]] else used;
    forall u ensures Lookup(next, u) == Lookup(before, u) + RangesIn(segments[..i + 1], u) {
      RangesInNext(segments, i, u);
      var a, b, c := Lookup(before, u), RangesIn(segments[..i], u), RangeIfNaming(s, u);
      assert Lookup(used, u) == a + b;
      assert Lookup(next, u) == Lookup(used, u) + c;
      assert (a + b) + c == a + (b + c);
    }
  }

  ghost predicate Names1(volume: seq<Segment>, i: int, u: Uuid) {
    0 <= i < |volume| && volume[i].fromReserved && volume[i].reservedUUID == u
  }

  lemma {:induction false} RangesInSpec(volume: seq<Segment>, u: Uuid)
    ensures forall b :: Covered(RangesIn(volume, u), b) <==> exists i :: Names1(volume, i, u) && volume[i].Span().Has(b)
    ensures RangesIn(volume, u) == [] <==> forall i :: !Names1(volume, i, u)
    ensures (forall i | Names1(volume, i, u) :: volume[i].Span().Nonempty()) ==> AllNonempty(RangesIn(volume, u))
    decreases |volume|
  {
    if volume != [] {
      var n := |volume| - 1;
      var init := volume[..n];
      RangesInSpec(init, u);
      assert forall i :: Names1(init, i, u) ==> Names1(volume, i, u) && init[i] == volume[i];
      assert forall i :: Names1(volume, i, u) && i != n ==> Names1(init, i, u);
      if Names1(volume, n, u) {
        assert RangesIn(volume, u) == RangesIn(init, u) + [volume[n].Span()];
        CoveredConcat(RangesIn(init, u), [volume[n].Span()]);
        CoveredOne(volume[n].Span());
      } else {
        assert RangesIn(volume, u) == RangesIn(init, u);
      }
    }
  }

  lemma CoveredConcat(a: seq<Range>, c: seq<Range>)
    ensures forall b :: Covered(a + c, b) <==> Covered(a, b) || Covered(c, b)
    ensures AllNonempty(a) && AllNonempty(c) ==> AllNonempty(a + c)
  {
    forall b ensures Covered(a + c, b) <==> Covered(a, b) || Covered(c, b) {
      if Covered(a, b) {
        var i :| 0 <= i < |a| && a[i].Has(b);
        assert (a + c)[i].Has(b);
      }
      if Covered(c, b) {
        var i :| 0 <= i < |c| && c[i].Has(b);
        assert (a + c)[|a| + i].Has(b);
      }
      if Covered(a + c, b) {
        var i :| 0 <= i < |a + c| && (a + c)[i].Has(b);
        assert if i < |a| then a[i].Has(b) else c[i - |a|].Has(b);
      }
    }
  }

  ghost predicate Names2(volumes: seq<seq<Segment>>, v: int, i: int, u: Uuid) {
    0 <= v < |volumes| && Names1(volumes[v], i, u)
  }

  lemma {:induction false} RangesNamingSpec(volumes: seq<seq<Segment>>, u: Uuid)
    ensures forall b :: Covered(RangesNaming(volumes, u), b)
                   <==> exists v, i :: Names2(volumes, v, i, u) && volumes[v][i].Span().Has(b)
    ensures RangesNaming(volumes, u) == [] <==> forall v, i :: !Names2(volumes, v, i, u)
    ensures (forall v, i | Names2(volumes, v, i, u) :: volumes[v][i].Span().Nonempty())
            ==> AllNonempty(RangesNaming(volumes, u))
    decreases |volumes|
  {
    if volumes != [] {
      var n := |volumes| - 1;
      var init := volumes[..n];
      RangesNamingSpec(init, u);
      RangesInSpec(volumes[n], u);
      CoveredConcat(RangesNaming(init, u), RangesIn(volumes[n], u));
      assert forall v, i :: Names2(init, v, i, u) ==> Names2(volumes, v, i, u) && init[v] == volumes[v];
      assert forall v, i :: Names2(volumes, v, i, u) && v != n ==> Names2(init, v, i, u);
      assert forall i :: Names1(volumes[n], i, u) <==> Names2(volumes, n, i, u);
    }
  }

  // ----------------------------------------------------------------- groups

  /** Sorted ranges, merged where they touch. */
  method MergeContiguousRanges(ranges: seq<Range>) returns (groups: seq<Range>)
    requires ranges != [] && AllNonempty(ranges)
    ensures groups == RunsOf(CoveredBlocks(ranges))
  {
    var sorted := Sorted(ranges);
    SameCover(sorted, ranges);
    groups := [];
    var groupStart, groupEnd := sorted[0].lbs, sorted[0].lbe;
    assert sorted[0].Nonempty();
    MergeStart(sorted);
    hide Merged, IsRuns, RunsOf;
    for i := 0 to |sorted|
      invariant i == 0 ==> groups == [] && Range(groupStart, groupEnd) == sorted[0]
      invariant groupStart <= groupEnd
      invariant Merged(groups, Range(groupStart, groupEnd), sorted, if i == 0 then 1 else i)
    {
      var range := sorted[i];
      assert range.Nonempty();
      if i > 0 {
        MergeNext(groups, Range(groupStart, groupEnd), sorted, i);
      }
      if range.lbs <= groupEnd + 1 {
        groupEnd := Max(groupEnd, range.lbe);
      } else {
        groups := groups + [Range(groupStart, groupEnd)];
        groupStart, groupEnd := range.lbs, range.lbe;
      }
    }
    MergeEnd(groups, Range(groupStart, groupEnd), sorted, ranges);
    groups := groups + [Range(groupStart, groupEnd)];
  }

  /** After `n` sorted ranges: the finished groups and the open one are the runs of what was seen. */
  ghost predicate Merged(groups: seq<Range>, open: Range, sorted: seq<Range>, n: int)
    requires 0 <= n <= |sorted|
  {
    && open.Nonempty()
    && IsRuns(groups + [open], CoveredBlocks(sorted[..n]))
    && (forall i | n <= i < |sorted| :: open.lbs <= sorted[i].lbs)
  }

  lemma MergeStart(sorted: seq<Range>)
    requires sorted != [] && AllNonempty(sorted) && SortedByLbs(sorted)
    ensures Merged([], sorted[0], sorted, 1)
  {
    hide IsRuns;
    assert sorted[0].Nonempty();
    assert sorted[..1] == [sorted[0]];
    assert [] + [sorted[0]] == [sorted[0]];
    RunOfOne(sorted[0]);
  }

  lemma RunOfOne(r: Range)
    requires r.Nonempty()
    ensures IsRuns([r], CoveredBlocks([r]))
  {
  }

  lemma RunsInit(rs: seq<Range>, r: Range, blocks: set<int>)
    requires IsRuns(rs + [r], blocks)
    ensures r.Nonempty() && IsRuns(rs, CoveredBlocks(rs))
    ensures forall i | 0 <= i < |rs| :: rs[i].lbe + 1 < r.lbs
    ensures forall b :: b in blocks <==> b in CoveredBlocks(rs) || r.Has(b)
  {
    assert forall i | 0 <= i < |rs| :: rs[i] == (rs + [r])[i];
    assert r == (rs + [r])[|rs|];
    CoveredConcat(rs, [r]);
    CoveredOne(r);
  }

  lemma CoveredOne(r: Range)
    ensures forall b :: Covered([r], b) <==> r.Has(b)
  {
    forall b ensures Covered([r], b) <==> r.Has(b) {
      assert r.Has(b) ==> [r][0].Has(b);
    }
  }

  lemma MergeNext(groups: seq<Range>, open: Range, sorted: seq<Range>, n: int)
    requires 0 < n < |sorted| && AllNonempty(sorted) && SortedByLbs(sorted)
    requires Merged(groups, open, sorted, n)
    ensures if sorted[n].lbs <= open.lbe + 1
            then Merged(groups, Range(open.lbs, Max(open.lbe, sorted[n].lbe)), sorted, n + 1)
            else Merged(groups + [open], sorted[n], sorted, n + 1)
  {
    if sorted[n].lbs <= open.lbe + 1 {
      MergeInto(groups, open, sorted, n);
    } else {
      MergeBehind(groups, open, sorted, n);
    }
  }

  /** One more range covers its own blocks besides those seen before. */
  lemma SeenNext(sorted: seq<Range>, n: int)
    requires 0 < n < |sorted|
    ensures CoveredBlocks(sorted[..n + 1]) == CoveredBlocks(sorted[..n]) + BlocksOf(sorted[n])
  {
    assert sorted[..n + 1] == sorted[..n] + [sorted[n]];
    CoveredConcat(sorted[..n], [sorted[n]]);
    CoveredOne(sorted[n]);
  }

  lemma MergeInto(groups: seq<Range>, open: Range, sorted: seq<Range>, n: int)
    requires 0 < n < |sorted| && AllNonempty(sorted) && SortedByLbs(sorted)
    requires Merged(groups, open, sorted, n) && sorted[n].lbs <= open.lbe + 1
    ensures Merged(groups, Range(open.lbs, Max(open.lbe, sorted[n].lbe)), sorted, n + 1)
  {
    hide IsRuns;
    assert sorted[n].Nonempty();
    var seen, more := CoveredBlocks(sorted[..n]), CoveredBlocks(sorted[..n + 1]);
    SeenNext(sorted, n);
    RunsInit(groups, open, seen);
    RunsPush(groups, CoveredBlocks(groups), Range(open.lbs, Max(open.lbe, sorted[n].lbe)), more);
  }

  lemma MergeBehind(groups: seq<Range>, open: Range, sorted: seq<Range>, n: int)
    requires 0 < n < |sorted| && AllNonempty(sorted) && SortedByLbs(sorted)
    requires Merged(groups, open, sorted, n) && open.lbe + 1 < sorted[n].lbs
    ensures Merged(groups + [open], sorted[n], sorted, n + 1)
  {
    hide IsRuns;
    var r := sorted[n];
    assert r.Nonempty();
    var seen, more := CoveredBlocks(sorted[..n]), CoveredBlocks(sorted[..n + 1]);
    SeenNext(sorted, n);
    RunsInit(groups, open, seen);
    forall i | 0 <= i < |groups + [open]| ensures (groups + [open])[i].lbe + 1 < r.lbs {
      assert i < |groups| ==> (groups + [open])[i] == groups[i];
    }
    RunsPush(groups + [open], seen, r, more);
  }

  lemma MergeEnd(groups: seq<Range>, open: Range, sorted: seq<Range>, ranges: seq<Range>)
    requires Merged(groups, open, sorted, |sorted|) && multiset(sorted) == multiset(ranges)
    ensures groups + [open] == RunsOf(CoveredBlocks(ranges))
  {
    assert sorted[..|sorted|] == sorted;
    SameCover(sorted, ranges);
    assert CoveredBlocks(sorted) == CoveredBlocks(ranges);
    RunsUnique(groups + [open], RunsOf(CoveredBlocks(ranges)), CoveredBlocks(ranges));
  }

  // ------------------------------------------------------------- replacements

  /** A segment cut down to one used group: the same offset and length on every disk. */
  function MovedTo(s: Segment, refSeg: Segment, group: Range, id: Uuid): Segment {
    var offset := group.lbs - refSeg.lbs;
    s.(uuid := id, lbs := s.lbs + offset, lbe := s.lbs + offset + group.Blocks() - 1)
  }

  function MovedPRaids(c: Chunk, group: Range, i: int, names: Names): (r: seq<seq<Segment>>)
    requires HasRef(c)
    ensures |r| == |c.pRaids|
    ensures forall p | 0 <= p < |r| :: |r[p]| == |c.pRaids[p]|
    ensures forall p, k | 0 <= p < |r| && 0 <= k < |r[p]| ::
              r[p][k] == MovedTo(c.pRaids[p][k], Ref(c), group, names(c.pRaids[p][k].uuid, i))
  {
    seq(|c.pRaids|, p requires 0 <= p < |c.pRaids| =>
      seq(|c.pRaids[p]|, k requires 0 <= k < |c.pRaids[p]| =>
        MovedTo(c.pRaids[p][k], Ref(c), group, names(c.pRaids[p][k].uuid, i))))
  }

  function SegmentReplacements(s: Segment, refSeg: Segment, groups: seq<Range>, names: Names): (r: seq<Segment>)
    ensures |r| == |groups|
    ensures forall i | 0 <= i < |r| :: r[i] == MovedTo(s, refSeg, groups[i], names(s.uuid, i))
  {
    seq(|groups|, i requires 0 <= i < |groups| => MovedTo(s, refSeg, groups[i], names(s.uuid, i)))
  }

  function ReplacementItems(c: Chunk, groups: seq<Range>, names: Names, freedBlocks: int): (r: seq<Replacement>)
    requires HasRef(c)
    ensures |r| == |Flatten(c.pRaids)|
    ensures forall x | 0 <= x < |r| ::
              r[x] == Replacement(Flatten(c.pRaids)[x],
                                  SegmentReplacements(Flatten(c.pRaids)[x], Ref(c), groups, names), freedBlocks)
  {
    var all := Flatten(c.pRaids);
    seq(|all|, x requires 0 <= x < |all| =>
      Replacement(all[x], SegmentReplacements(all[x], Ref(c), groups, names), freedBlocks))
  }

  /** One chunk per used group, from group `i` on. */
  function GroupChunks(c: Chunk, groups: seq<Range>, i: int, names: Names, vlbs: int, multiplier: int): (r: seq<Chunk>)
    requires HasRef(c) && 0 <= i <= |groups|
    ensures |r| == |groups| - i
    decreases |groups| - i
  {
    if i == |groups| then []
    else
      var size := groups[i].Blocks() * multiplier;
      [Chunk(vlbs, vlbs + size - 1, MovedPRaids(c, groups[i], i, names))]
      + GroupChunks(c, groups, i + 1, names, vlbs + size, multiplier)
  }

  /** What one chunk contributes: it is dropped, kept or split into its used groups. */
  function Decide(plan: Plan, c: Chunk, ranges: seq<Range>, groups: seq<Range>, names: Names, multiplier: int): Plan
    requires HasRef(c)
  {
    var blocks := Ref(c).Span().Blocks();
    var keptBlocks := TotalBlocks(groups);
    if ranges == [] then
      plan.(removals := plan.removals + Flatten(c.pRaids))
    else if keptBlocks == blocks then
      plan.(chunks := plan.chunks + [c.(vlbs := plan.vlbs, vlbe := plan.vlbs + blocks * multiplier - 1)],
            vlbs := plan.vlbs + blocks * multiplier)
    else
      plan.(replacements := plan.replacements + ReplacementItems(c, groups, names, blocks - keptBlocks),
            chunks := plan.chunks + GroupChunks(c, groups, 0, names, plan.vlbs, multiplier),
            vlbs := plan.vlbs + keptBlocks * multiplier)
  }

  ghost function GroupsOf(c: Chunk, volumes: seq<seq<Segment>>): seq<Range>
    requires HasRef(c)
  {
    RunsOf(CoveredBlocks(RangesNaming(volumes, Ref(c).uuid)))
  }

  ghost function PlanFor(chunks: seq<Chunk>, volumes: seq<seq<Segment>>, names: Names, multiplier: int): Plan
    requires forall c | 0 <= c < |chunks| :: HasRef(chunks[c])
  {
    if chunks == [] then Plan([], [], [], 0)
    else
      var n := |chunks| - 1;
      Decide(PlanFor(chunks[..n], volumes, names, multiplier), chunks[n],
             RangesNaming(volumes, Ref(chunks[n]).uuid), GroupsOf(chunks[n], volumes), names, multiplier)
  }

  method IdentifyReclaimableSegments(chunks: seq<Chunk>, volumes: seq<seq<Segment>>, names: Names, multiplier: int)
    returns (plan: Plan)
    requires forall c | 0 <= c < |chunks| :: HasRef(chunks[c])
    requires forall v, i | 0 <= v < |volumes| && 0 <= i < |volumes[v]| && volumes[v][i].fromReserved ::
               volumes[v][i].Span().Nonempty()
    ensures plan == PlanFor(chunks, volumes, names, multiplier)
  {
    var used := BuildUsedRangesByReservedUUID(volumes);
    plan := Plan([], [], [], 0);
    for c := 0 to |chunks|
      invariant plan == PlanFor(chunks[..c], volumes, names, multiplier)
    {
      var chunk := chunks[c];
      var refSeg := chunk.pRaids[0][0];
      var derivedRanges := Lookup(used, refSeg.uuid);
      var groups := [];
      RangesNamingSpec(volumes, refSeg.uuid);
      if derivedRanges != [] {
        groups := MergeContiguousRanges(derivedRanges);
      }
      assert chunks[..c + 1][..c] == chunks[..c];
      plan := Decide(plan, chunk, derivedRanges, groups, names, multiplier);
    }
    assert chunks[..|chunks|] == chunks;
  }
}
