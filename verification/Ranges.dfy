/** Closed block ranges, and the sequence of maximal runs that spells out a set of blocks.

    `IsRuns(rs, blocks)` is the reference definition behind every range list of the allocator: the
    free ranges of a drive, the unused parts of a reserved segment and the merged groups of used
    ranges are all "the maximal runs of some set of blocks", in ascending order. */
module Ranges {

  datatype Range = Range(lbs: int, lbe: int) {
    predicate Nonempty() { lbs <= lbe }
    function Blocks(): int { lbe - lbs + 1 }
    predicate Has(b: int) { lbs <= b <= lbe }
    predicate Within(r: Range) { r.lbs <= lbs && lbe <= r.lbe }
    predicate Meets(r: Range) { lbs <= r.lbe && r.lbs <= lbe }
    function Shift(d: int): Range { Range(lbs + d, lbe + d) }
  }

  function Max(a: int, b: int): int { if a < b then b else a }
  function Min(a: int, b: int): int { if a < b then a else b }

  ghost predicate AllNonempty(rs: seq<Range>) {
    forall i | 0 <= i < |rs| :: rs[i].Nonempty()
  }

  ghost predicate Covered(rs: seq<Range>, b: int) {
    exists i :: 0 <= i < |rs| && rs[i].Has(b)
  }

  ghost function Interval(lo: int, hi: int): (r: set<int>)
    ensures forall b :: b in r <==> lo <= b < hi
    ensures |r| == Max(0, hi - lo)
    decreases hi - lo
  {
    if hi <= lo then {} else Interval(lo, hi - 1) + {hi - 1}
  }

  lemma NothingIn(blocks: set<int>)
    requires forall b :: b !in blocks
    ensures blocks == {}
  {
    var none: set<int> := {};
    assert forall b :: b in blocks <==> b in none;
    assert blocks == none;
  }

  ghost function BlocksOf(r: Range): set<int> {
    Interval(r.lbs, r.lbe + 1)
  }

  ghost function CoveredBlocks(rs: seq<Range>): (r: set<int>)
    ensures forall b :: b in r <==> Covered(rs, b)
  {
    if rs == [] then {}
    else
      assert forall b :: Covered(rs, b) <==> rs[0].Has(b) || Covered(rs[1..], b) by {
        forall b ensures Covered(rs, b) <==> rs[0].Has(b) || Covered(rs[1..], b) {
          if Covered(rs, b) {
            var i :| 0 <= i < |rs| && rs[i].Has(b);
            assert i > 0 ==> rs[1..][i - 1].Has(b);
          }
          if Covered(rs[1..], b) {
            var i :| 0 <= i < |rs[1..]| && rs[1..][i].Has(b);
            assert rs[i + 1].Has(b);
          }
        }
      }
      BlocksOf(rs[0]) + CoveredBlocks(rs[1..])
  }

  /** The blocks of `[lo, hi)` that lie in none of the used ranges. */
  ghost function FreeBlocks(used: seq<Range>, lo: int, hi: int): set<int> {
    set b: int | lo <= b < hi && !Covered(used, b)
  }

  /** Ascending, pairwise disjoint, never adjacent (so each range is maximal), together exactly `blocks`. */
  ghost predicate IsRuns(rs: seq<Range>, blocks: set<int>) {
    && AllNonempty(rs)
    && (forall i, j | 0 <= i < j < |rs| :: rs[i].lbe + 1 < rs[j].lbs)
    && (forall b :: b in blocks <==> Covered(rs, b))
  }

  function TotalBlocks(rs: seq<Range>): int {
    if rs == [] then 0 else rs[0].Blocks() + TotalBlocks(rs[1..])
  }

  lemma RunsTail(rs: seq<Range>, blocks: set<int>)
    requires IsRuns(rs, blocks) && rs != []
    ensures BlocksOf(rs[0]) <= blocks
    ensures IsRuns(rs[1..], blocks - BlocksOf(rs[0]))
  {
    var rest := blocks - BlocksOf(rs[0]);
    forall b | b in BlocksOf(rs[0]) ensures b in blocks {
      assert rs[0].Has(b);
    }
    forall b ensures b in rest <==> Covered(rs[1..], b) {
      if b in rest {
        var i :| 0 <= i < |rs| && rs[i].Has(b);
        assert rs[1..][i - 1].Has(b);
      }
      if Covered(rs[1..], b) {
        var i :| 0 <= i < |rs[1..]| && rs[1..][i].Has(b);
        assert rs[i + 1].Has(b);
      }
    }
  }

  /** The lengths of the runs add up to the number of blocks. */
  lemma {:induction false} RunsTotal(rs: seq<Range>, blocks: set<int>)
    requires IsRuns(rs, blocks)
    ensures TotalBlocks(rs) == |blocks|
    decreases |rs|
  {
    if rs == [] {
      NoRuns(blocks);
    } else {
      RunsTail(rs, blocks);
      RunsTotal(rs[1..], blocks - BlocksOf(rs[0]));
    }
  }

  lemma RunsFirst(rs: seq<Range>, blocks: set<int>)
    requires IsRuns(rs, blocks) && rs != []
    ensures rs[0].lbs in blocks && rs[0].lbe in blocks && rs[0].lbe + 1 !in blocks
    ensures forall b | b in blocks :: rs[0].lbs <= b
    ensures forall b | rs[0].lbs <= b <= rs[0].lbe :: b in blocks
  {
    assert rs[0].Has(rs[0].lbs) && rs[0].Has(rs[0].lbe);
    assert !Covered(rs, rs[0].lbe + 1);
    forall b | rs[0].lbs <= b <= rs[0].lbe ensures b in blocks {
      assert rs[0].Has(b);
    }
  }

  lemma RunsOfNothing(rs: seq<Range>)
    requires IsRuns(rs, {})
    ensures rs == []
  {
    assert rs != [] ==> Covered(rs, rs[0].lbs) by {
      assert rs != [] ==> rs[0].Nonempty() && rs[0].Has(rs[0].lbs);
    }
  }

  /** A set of blocks has one list of runs: two finders that are both exact return the same list. */
  lemma {:induction false} RunsUnique(a: seq<Range>, b: seq<Range>, blocks: set<int>)
    requires IsRuns(a, blocks) && IsRuns(b, blocks)
    ensures a == b
    decreases |a|
  {
    if a == [] || b == [] {
      NoRuns(blocks);
      RunsOfNothing(a);
      RunsOfNothing(b);
    } else {
      RunsFirst(a, blocks);
      RunsFirst(b, blocks);
      assert a[0].lbs == b[0].lbs;
      assert a[0].lbe == b[0].lbe;
      RunsTail(a, blocks);
      RunsTail(b, blocks);
      RunsUnique(a[1..], b[1..], blocks - BlocksOf(a[0]));
    }
  }

  /** A contiguous stretch of the blocks never straddles two runs. */
  lemma WithinOneRun(rs: seq<Range>, blocks: set<int>, r: Range) returns (k: int)
    requires IsRuns(rs, blocks) && r.Nonempty()
    requires forall b | r.Has(b) :: b in blocks
    ensures 0 <= k < |rs| && r.Within(rs[k])
    ensures forall i | 0 <= i < |rs| && rs[i].Meets(r) :: i == k
  {
    assert r.Has(r.lbs);
    k :| 0 <= k < |rs| && rs[k].Has(r.lbs);
    assert !Covered(rs, rs[k].lbe + 1);
    assert !r.Has(rs[k].lbe + 1);
  }

  /** Moving every block by the same distance moves every run by that distance. */
  lemma RunsShift(rs: seq<Range>, blocks: set<int>, moved: set<int>, d: int)
    requires IsRuns(rs, blocks)
    requires forall b :: b in blocks <==> b + d in moved
    ensures IsRuns(ShiftAll(rs, d), moved)
  {
    var ss := ShiftAll(rs, d);
    forall b ensures b in moved <==> Covered(ss, b) {
      assert b in moved <==> b - d in blocks by {
        assert b - d in blocks <==> (b - d) + d in moved;
      }
      if Covered(rs, b - d) {
        var i :| 0 <= i < |rs| && rs[i].Has(b - d);
        assert ss[i].Has(b);
      }
      if Covered(ss, b) {
        var i :| 0 <= i < |ss| && ss[i].Has(b);
        assert rs[i].Has(b - d);
      }
    }
  }

  function ShiftAll(rs: seq<Range>, d: int): (r: seq<Range>)
    ensures |r| == |rs|
    ensures forall i | 0 <= i < |rs| :: r[i] == rs[i].Shift(d)
  {
    seq(|rs|, i requires 0 <= i < |rs| => rs[i].Shift(d))
  }

  // ---------------------------------------------------------------- sorting

  ghost predicate SortedByLbs(rs: seq<Range>) {
    forall i, j | 0 <= i < j < |rs| :: rs[i].lbs <= rs[j].lbs
  }

  function Insert(x: Range, rs: seq<Range>): (r: seq<Range>)
    ensures multiset(r) == multiset{x} + multiset(rs)
  {
    if rs == [] || x.lbs < rs[0].lbs then [x] + rs
    else
      assert rs == [rs[0]] + rs[1..];
      [rs[0]] + Insert(x, rs[1..])
  }

  lemma {:induction false} InsertSorted(x: Range, rs: seq<Range>)
    requires SortedByLbs(rs)
    ensures SortedByLbs(Insert(x, rs))
    ensures forall r | r in Insert(x, rs) :: r == x || r in rs
    decreases |rs|
  {
    if rs != [] && x.lbs >= rs[0].lbs {
      InsertSorted(x, rs[1..]);
      var t := Insert(x, rs[1..]);
      assert forall j | 0 <= j < |t| :: t[j] in t;
    }
  }

  /** The ascending order that `sort((a, b) => a.lbs - b.lbs)` establishes. */
  function Sorted(rs: seq<Range>): (r: seq<Range>)
    ensures SortedByLbs(r) && multiset(r) == multiset(rs)
  {
    if rs == [] then []
    else
      assert rs == [rs[0]] + rs[1..];
      InsertSorted(rs[0], Sorted(rs[1..]));
      Insert(rs[0], Sorted(rs[1..]))
  }

  lemma SameCover(a: seq<Range>, b: seq<Range>)
    requires multiset(a) == multiset(b)
    ensures |a| == |b|
    ensures AllNonempty(a) <==> AllNonempty(b)
    ensures forall x :: Covered(a, x) <==> Covered(b, x)
  {
    assert |multiset(a)| == |multiset(b)|;
    forall r ensures r in a <==> r in b {
      assert r in a <==> r in multiset(a);
      assert r in b <==> r in multiset(b);
    }
    forall x ensures Covered(a, x) <==> Covered(b, x) {
      if Covered(a, x) {
        var i :| 0 <= i < |a| && a[i].Has(x);
        assert a[i] in b;
      }
      if Covered(b, x) {
        var i :| 0 <= i < |b| && b[i].Has(x);
        assert b[i] in a;
      }
    }
    if AllNonempty(a) {
      forall i | 0 <= i < |b| ensures b[i].Nonempty() { assert b[i] in a; }
    }
    if AllNonempty(b) {
      forall i | 0 <= i < |a| ensures a[i].Nonempty() { assert a[i] in b; }
    }
  }

  // ------------------------------------------------------------ gap finders

  /** How far `GetAllFreeRanges` looks: it is not clamped, so a used range that starts past `endRange`
      drags the gap in front of it into the result. */
  function Horizon(used: seq<Range>, endRange: int): (h: int)
    ensures endRange <= h
    ensures forall i | 0 <= i < |used| :: used[i].lbs <= h
    ensures h == endRange || exists i :: 0 <= i < |used| && used[i].lbs == h
  {
    if used == [] then endRange
    else
      var h := Horizon(used[..|used| - 1], endRange);
      assert forall i | 0 <= i < |used| - 1 :: used[i] == used[..|used| - 1][i];
      Max(h, used[|used| - 1].lbs)
  }

  ghost predicate CoveredBefore(used: seq<Range>, n: nat, b: int)
    requires n <= |used|
  {
    exists i :: 0 <= i < n && used[i].Has(b)
  }

  ghost function FreeSoFar(used: seq<Range>, n: nat, lo: int, hi: int): set<int>
    requires n <= |used|
  {
    set b: int | lo <= b < hi && !CoveredBefore(used, n, b)
  }

  /** What both finders know after the first `n` used ranges: everything below `cursor` is settled. */
  ghost predicate Settled(found: seq<Range>, used: seq<Range>, n: nat, start: int, cursor: int)
    requires n <= |used|
  {
    && start <= cursor
    && IsRuns(found, FreeSoFar(used, n, start, cursor))
    && (forall i | 0 <= i < |found| :: found[i].lbe + 1 < cursor)
    && (forall i, j | 0 <= i < |found| && n <= j < |used| :: found[i].lbe < used[j].lbs)
    && (forall i | 0 <= i < n :: used[i].lbe < cursor)
  }

  /** One more run at the end of a list of runs. */
  lemma RunsPush(rs: seq<Range>, blocks: set<int>, r: Range, more: set<int>)
    requires IsRuns(rs, blocks) && r.Nonempty()
    requires forall i | 0 <= i < |rs| :: rs[i].lbe + 1 < r.lbs
    requires forall b :: b in more <==> b in blocks || r.Has(b)
    ensures IsRuns(rs + [r], more)
  {
    forall b ensures b in more <==> Covered(rs + [r], b) {
      if Covered(rs, b) {
        var i :| 0 <= i < |rs| && rs[i].Has(b);
        assert (rs + [r])[i].Has(b);
      }
      if r.Has(b) {
        assert (rs + [r])[|rs|].Has(b);
      }
      if Covered(rs + [r], b) {
        var i :| 0 <= i < |rs + [r]| && (rs + [r])[i].Has(b);
        if i < |rs| {
          assert rs[i].Has(b);
        }
      }
    }
  }

  /** Meeting one more used range settles everything up to its end. */
  lemma SettleNext(found: seq<Range>, used: seq<Range>, n: nat, start: int, cursor: int)
    requires n < |used| && AllNonempty(used) && SortedByLbs(used)
    requires Settled(found, used, n, start, cursor)
    ensures Settled(if used[n].lbs > cursor then found + [Range(cursor, used[n].lbs - 1)] else found,
                    used, n + 1, start, Max(cursor, used[n].lbe + 1))
  {
    var s := used[n];
    assert s.Nonempty();
    var before := FreeSoFar(used, n, start, cursor);
    var after := FreeSoFar(used, n + 1, start, Max(cursor, s.lbe + 1));
    SettleBlocks(found, used, n, start, cursor);
    if s.lbs > cursor {
      RunsPush(found, before, Range(cursor, s.lbs - 1), after);
    } else {
      assert after == before;
    }
  }

  /** The new range starts after everything found free so far, so it swallows none of it. */
  lemma SettleBlocks(found: seq<Range>, used: seq<Range>, n: nat, start: int, cursor: int)
    requires n < |used| && used[n].Nonempty()
    requires Settled(found, used, n, start, cursor)
    ensures forall b :: b in FreeSoFar(used, n + 1, start, Max(cursor, used[n].lbe + 1))
                   <==> b in FreeSoFar(used, n, start, cursor) || cursor <= b < used[n].lbs
  {
    var s := used[n];
    var before := FreeSoFar(used, n, start, cursor);
    forall b ensures CoveredBefore(used, n + 1, b) <==> CoveredBefore(used, n, b) || s.Has(b) {
      if s.Has(b) { assert used[n].Has(b); }
    }
    assert forall b | cursor <= b :: !CoveredBefore(used, n, b);
    forall b | b in before ensures !s.Has(b) {
      assert Covered(found, b);
      var i :| 0 <= i < |found| && found[i].Has(b);
      assert found[i].lbe < used[n].lbs;
    }
    var after := FreeSoFar(used, n + 1, start, Max(cursor, s.lbe + 1));
    forall b ensures b in after <==> b in before || cursor <= b < s.lbs {
      assert CoveredBefore(used, n + 1, b) <==> CoveredBefore(used, n, b) || s.Has(b);
    }
  }

  lemma SettleStart(used: seq<Range>, start: int)
    ensures Settled([], used, 0, start, start)
  {
    assert FreeSoFar(used, 0, start, start) == {};
  }

  /** All free ranges of `[startRange, endRange)`; exact when no used range starts beyond `endRange`,
      see `FreeRangesExactWhen`. */
  method GetAllFreeRanges(segments: seq<Range>, startRange: int, endRange: int) returns (freeRanges: seq<Range>)
    requires AllNonempty(segments)
    ensures IsRuns(freeRanges, FreeBlocks(segments, startRange, Horizon(segments, endRange)))
  {
    hide Settled;
    freeRanges := [];
    var cursor := startRange;
    var sorted := Sorted(segments);
    SameCover(sorted, segments);
    SettleStart(sorted, startRange);
    ghost var last := -1;
    for i := 0 to |sorted|
      invariant Settled(freeRanges, sorted, i, startRange, cursor)
      invariant cursor == startRange || (0 <= last < i && sorted[last].lbe + 1 == cursor)
    {
      var segment := sorted[i];
      SettleNext(freeRanges, sorted, i, startRange, cursor);
      if segment.lbs > cursor {
        freeRanges := freeRanges + [Range(cursor, segment.lbs - 1)];
      }
      if segment.lbe + 1 > cursor {
        cursor, last := segment.lbe + 1, i;
      }
    }
    SettleEnd(freeRanges, sorted, segments, startRange, endRange, cursor);
    if cursor < endRange {
      freeRanges := freeRanges + [Range(cursor, endRange - 1)];
    }
  }

  lemma SettleEnd(found: seq<Range>, sorted: seq<Range>, segments: seq<Range>, start: int, end: int, cursor: int)
    requires AllNonempty(segments) && multiset(sorted) == multiset(segments)
    requires Settled(found, sorted, |sorted|, start, cursor)
    requires cursor == start || exists j :: 0 <= j < |sorted| && sorted[j].lbe + 1 == cursor
    ensures IsRuns(if cursor < end then found + [Range(cursor, end - 1)] else found,
                   FreeBlocks(segments, start, Horizon(segments, end)))
  {
    var known := FreeSoFar(sorted, |sorted|, start, cursor);
    var wanted := FreeBlocks(segments, start, Horizon(segments, end));
    SameCover(sorted, segments);
    forall b ensures CoveredBefore(sorted, |sorted|, b) <==> Covered(segments, b) {
      assert Covered(sorted, b) <==> Covered(segments, b);
    }
    forall i | 0 <= i < |segments| ensures segments[i].lbe < cursor {
      assert segments[i] in multiset(sorted);
      assert segments[i] in sorted;
    }
    BeyondHorizon(segments, sorted, start, end, cursor);
    if cursor < end {
      RunsPush(found, known, Range(cursor, end - 1), wanted);
    } else {
      assert known == wanted;
    }
  }

  lemma BeyondHorizon(segments: seq<Range>, sorted: seq<Range>, startRange: int, endRange: int, cursor: int)
    requires AllNonempty(segments) && multiset(sorted) == multiset(segments)
    requires forall i | 0 <= i < |segments| :: segments[i].lbe < cursor
    requires cursor == startRange || exists j :: 0 <= j < |sorted| && sorted[j].lbe + 1 == cursor
    ensures forall b | Horizon(segments, endRange) <= b < cursor && startRange <= b :: Covered(segments, b)
    ensures cursor < endRange ==> Horizon(segments, endRange) == endRange
    ensures Horizon(segments, endRange) <= Max(cursor, endRange)
  {
    var h := Horizon(segments, endRange);
    if h != endRange {
      var i :| 0 <= i < |segments| && segments[i].lbs == h;
      assert segments[i].Nonempty();
    }
    forall b | h <= b < cursor && startRange <= b ensures Covered(segments, b) {
      var j :| 0 <= j < |sorted| && sorted[j].lbe + 1 == cursor;
      assert sorted[j] in multiset(segments);
      assert sorted[j] in segments;
      var i :| 0 <= i < |segments| && segments[i] == sorted[j];
      assert segments[i].Has(b);
    }
  }

  /** `getAllFreeRanges` answers for `[startRange, endRange)` exactly when every block between
      `endRange` and the last used start is used; in particular when nothing used lies past `endRange`. */
  lemma FreeRangesExactWhen(segments: seq<Range>, startRange: int, endRange: int, found: seq<Range>)
    requires AllNonempty(segments) && startRange <= endRange
    requires IsRuns(found, FreeBlocks(segments, startRange, Horizon(segments, endRange)))
    ensures IsRuns(found, FreeBlocks(segments, startRange, endRange))
       <==> (forall b | endRange <= b < Horizon(segments, endRange) :: Covered(segments, b))
    ensures (forall i | 0 <= i < |segments| :: segments[i].lbe < endRange)
            ==> IsRuns(found, FreeBlocks(segments, startRange, endRange))
  {
    var h := Horizon(segments, endRange);
    var all := FreeBlocks(segments, startRange, h);
    var wanted := FreeBlocks(segments, startRange, endRange);
    if IsRuns(found, wanted) {
      forall b | endRange <= b < h ensures Covered(segments, b) {
        assert b in all <==> Covered(found, b);
        assert b in wanted <==> Covered(found, b);
      }
    }
    if forall b | endRange <= b < h :: Covered(segments, b) {
      assert all == wanted;
    }
    if forall i | 0 <= i < |segments| :: segments[i].lbe < endRange {
      forall i | 0 <= i < |segments| ensures segments[i].lbs < endRange { assert segments[i].Nonempty(); }
    }
  }

  /** A used range far outside makes `getAllFreeRanges` report blocks outside the asked range. */
  lemma FreeRangesNotClamped(found: seq<Range>)
    requires IsRuns(found, FreeBlocks([Range(20, 29)], 0, Horizon([Range(20, 29)], 10)))
    ensures found == [Range(0, 19)]
    ensures !IsRuns(found, FreeBlocks([Range(20, 29)], 0, 10))
  {
    var used := [Range(20, 29)];
    assert Horizon(used, 10) == 20 by {
      assert used[0].lbs == 20;
    }
    var all := FreeBlocks(used, 0, 20);
    forall b ensures b in all <==> Covered([Range(0, 19)], b) {
      if Covered(used, b) { assert used[0].Has(b); }
      if 0 <= b < 20 { assert [Range(0, 19)][0].Has(b); }
    }
    RunsUnique(found, [Range(0, 19)], all);
    assert Covered(found, 15) by { assert found[0].Has(15); }
  }

  /** The free ranges of `[minValue, maxValue)`, whatever the used ranges are: overlapping, unsorted or
      partly outside. */
  method GetAvailableSegments(minValue: int, maxValue: int, diskSegments: seq<Range>) returns (segments: seq<Range>)
    requires AllNonempty(diskSegments) && minValue < maxValue
    ensures IsRuns(segments, FreeBlocks(diskSegments, minValue, maxValue))
  {
    hide Settled, IsRuns, FreeBlocks, SortedByLbs;
    segments := [];
    var minVal := minValue;
    if |diskSegments| > 0 {
      var sorted := Sorted(diskSegments);
      SameCover(sorted, diskSegments);
      SameFreeBlocks(sorted, diskSegments, minValue, maxValue);
      SettleStart(sorted, minValue);
      var i := 0;
      while i < |sorted|
        invariant 0 <= i <= |sorted|
        invariant i < |sorted| ==> Settled(segments, sorted, i, minValue, minVal) && minVal < maxValue
        invariant i == |sorted| ==> IsRuns(segments, FreeBlocks(diskSegments, minValue, maxValue))
      {
        var ds := sorted[i];
        assert ds.Nonempty();
        ghost var found, cursor := segments, minVal;
        if ds.lbs - minVal > 0 {
          segments := segments + [Range(minVal, Min(ds.lbs - 1, maxValue - 1))];
        }
        if ds.lbe + 1 > minVal {
          minVal := ds.lbe + 1;
        }
        if maxValue <= minVal {
          ClampLast(found, sorted, i, minValue, cursor, maxValue);
          break;
        }
        SettleNext(found, sorted, i, minValue, cursor);
        if |sorted| - 1 == i {
          var totalBlocks := maxValue;
          FillLast(segments, sorted, minValue, minVal, maxValue);
          if minVal < totalBlocks {
            segments := segments + [Range(minVal, totalBlocks - 1)];
          }
        }
        i := i + 1;
      }
    } else {
      segments := segments + [Range(minValue, maxValue - 1)];
      assert diskSegments == [] && segments == [Range(minValue, maxValue - 1)];
      AllIsFree(minValue, maxValue);
    }
  }

  lemma SameFreeBlocks(a: seq<Range>, b: seq<Range>, lo: int, hi: int)
    requires forall x :: Covered(a, x) <==> Covered(b, x)
    ensures FreeBlocks(a, lo, hi) == FreeBlocks(b, lo, hi)
  {
  }

  lemma AllIsFree(lo: int, hi: int)
    requires lo < hi
    ensures IsRuns([Range(lo, hi - 1)], FreeBlocks([], lo, hi))
  {
    var all := [Range(lo, hi - 1)];
    forall b ensures b in FreeBlocks([], lo, hi) <==> Covered(all, b) {
      assert all[0].Has(b) <==> lo <= b < hi;
    }
  }

  /** The last used range reaches past the end: the gap in front of it is cut at the end. */
  lemma ClampLast(found: seq<Range>, used: seq<Range>, n: nat, start: int, cursor: int, end: int)
    requires n < |used| && AllNonempty(used) && SortedByLbs(used)
    requires Settled(found, used, n, start, cursor) && cursor < end <= Max(cursor, used[n].lbe + 1)
    ensures IsRuns(if used[n].lbs > cursor then found + [Range(cursor, Min(used[n].lbs - 1, end - 1))] else found,
                   FreeBlocks(used, start, end))
  {
    var s := used[n];
    assert s.Nonempty();
    var known := FreeSoFar(used, n, start, cursor);
    var all := FreeBlocks(used, start, end);
    SettleBlocks(found, used, n, start, cursor);
    forall b ensures b in all <==> b in known || (cursor <= b < s.lbs && b < end) {
      assert b in known ==> Covered(found, b);
      assert CoveredBefore(used, n, b) ==> Covered(used, b);
      assert s.Has(b) ==> Covered(used, b);
      if b in known {
        assert !Covered(used, b);
      }
    }
    if s.lbs > cursor {
      RunsPush(found, known, Range(cursor, Min(s.lbs - 1, end - 1)), all);
    } else {
      assert all == known;
    }
  }

  /** No used range is left: the rest of the asked range is free. */
  lemma FillLast(found: seq<Range>, used: seq<Range>, start: int, cursor: int, end: int)
    requires Settled(found, used, |used|, start, cursor) && cursor < end
    ensures IsRuns(found + [Range(cursor, end - 1)], FreeBlocks(used, start, end))
  {
    forall b ensures CoveredBefore(used, |used|, b) <==> Covered(used, b) {
    }
    RunsPush(found, FreeSoFar(used, |used|, start, cursor), Range(cursor, end - 1), FreeBlocks(used, start, end));
  }

  /** On used ranges that end before `endRange` the two finders agree, range by range. */
  lemma FindersAgree(used: seq<Range>, lo: int, hi: int, a: seq<Range>, b: seq<Range>)
    requires AllNonempty(used) && lo < hi
    requires forall i | 0 <= i < |used| :: used[i].lbe < hi
    requires IsRuns(a, FreeBlocks(used, lo, Horizon(used, hi)))
    requires IsRuns(b, FreeBlocks(used, lo, hi))
    ensures a == b
  {
    FreeRangesExactWhen(used, lo, hi, a);
    RunsUnique(a, b, FreeBlocks(used, lo, hi));
  }

  // -------------------------------------------------------- canonical runs

  /** The block right behind the last run makes that run one longer. */
  lemma RunsGrow(rs: seq<Range>, rest: set<int>, blocks: set<int>)
    requires IsRuns(rs, rest) && rs != []
    requires forall b :: b in blocks <==> b in rest || b == rs[|rs| - 1].lbe + 1
    ensures IsRuns(rs[|rs| - 1 := Range(rs[|rs| - 1].lbs, rs[|rs| - 1].lbe + 1)], blocks)
  {
    var n := |rs| - 1;
    var grown := rs[n := Range(rs[n].lbs, rs[n].lbe + 1)];
    forall b ensures b in blocks <==> Covered(grown, b) {
      assert b in rest <==> Covered(rs, b);
      if Covered(rs, b) {
        var i :| 0 <= i < |rs| && rs[i].Has(b);
        assert grown[i].Has(b);
      }
      if b == rs[n].lbe + 1 {
        assert rs[n].Nonempty();
        assert grown[n].Has(b);
      }
      if Covered(grown, b) && b != rs[n].lbe + 1 {
        var i :| 0 <= i < |grown| && grown[i].Has(b);
        assert rs[i].Has(b);
      }
    }
  }

  /** Every finite set of blocks has a list of runs. */
  lemma {:induction false} RunsExist(blocks: set<int>, lo: int, hi: int) returns (rs: seq<Range>)
    requires forall b | b in blocks :: lo <= b < hi
    ensures IsRuns(rs, blocks)
    decreases hi - lo
  {
    if hi <= lo {
      rs := [];
      assert forall b :: b !in blocks;
    } else if hi - 1 !in blocks {
      rs := RunsExist(blocks, lo, hi - 1);
    } else {
      var rest := blocks - {hi - 1};
      rs := RunsExist(rest, lo, hi - 1);
      if rs != [] {
        RunsEnd(rs, rest);
      }
      if rs != [] && rs[|rs| - 1].lbe + 1 == hi - 1 {
        RunsGrow(rs, rest, blocks);
        rs := rs[|rs| - 1 := Range(rs[|rs| - 1].lbs, hi - 1)];
      } else {
        RunsPush(rs, rest, Range(hi - 1, hi - 1), blocks);
        rs := rs + [Range(hi - 1, hi - 1)];
      }
    }
  }

  lemma RunsEnd(rs: seq<Range>, blocks: set<int>)
    requires IsRuns(rs, blocks) && rs != []
    ensures rs[|rs| - 1].lbe in blocks
    ensures forall i | 0 <= i < |rs| :: rs[i].lbe <= rs[|rs| - 1].lbe
  {
    var n := |rs| - 1;
    assert rs[n].Nonempty();
    assert rs[n].Has(rs[n].lbe);
  }

  lemma {:induction false} Bounded(blocks: set<int>) returns (lo: int, hi: int)
    ensures forall b | b in blocks :: lo <= b < hi
    decreases |blocks|
  {
    lo, hi := 0, 0;
    if x :| x in blocks {
      lo, hi := Bounded(blocks - {x});
      lo, hi := Min(lo, x), Max(hi, x + 1);
      assert forall b | b in blocks :: b == x || b in blocks - {x};
    }
  }

  /** The maximal runs of a set of blocks, in ascending order. */
  ghost function RunsOf(blocks: set<int>): (rs: seq<Range>)
    ensures IsRuns(rs, blocks)
  {
    assert exists rs :: IsRuns(rs, blocks) by {
      var lo, hi := Bounded(blocks);
      var rs := RunsExist(blocks, lo, hi);
    }
    var rs :| IsRuns(rs, blocks);
    rs
  }

  // ---------------------------------------------------- largest free range

  /** `r` is free throughout, and no free stretch is longer. */
  ghost predicate IsLongestRun(r: Range, blocks: set<int>) {
    && r.Nonempty()
    && BlocksOf(r) <= blocks
    && (forall q: Range | q.Nonempty() && BlocksOf(q) <= blocks :: q.Blocks() <= r.Blocks())
  }

  /** The longest range of a list, the last one of several; `none` for the empty list. */
  function LastLongest(rs: seq<Range>, none: Range): Range {
    if rs == [] then none
    else
      var best := LastLongest(rs[..|rs| - 1], none);
      var r := rs[|rs| - 1];
      if |rs| == 1 || r.Blocks() >= best.Blocks() then r else best
  }

  lemma {:induction false} LastLongestIn(rs: seq<Range>, none: Range) returns (k: int)
    requires rs != []
    ensures 0 <= k < |rs| && LastLongest(rs, none) == rs[k]
    ensures forall j | 0 <= j < |rs| :: rs[j].Blocks() <= rs[k].Blocks()
    ensures forall j | k < j < |rs| :: rs[j].Blocks() < rs[k].Blocks()
    decreases |rs|
  {
    var n := |rs| - 1;
    if n == 0 {
      k := 0;
    } else {
      k := LastLongestIn(rs[..n], none);
      if rs[n].Blocks() >= rs[k].Blocks() {
        k := n;
      }
    }
  }

  /** The range picked from the runs of a set is a longest stretch of it, and the last such stretch. */
  lemma LastLongestIsLongest(blocks: set<int>, none: Range)
    requires blocks != {}
    ensures var r := LastLongest(RunsOf(blocks), none);
            && IsLongestRun(r, blocks)
            && (forall q: Range | q.Nonempty() && BlocksOf(q) <= blocks && r.lbe < q.lbs :: q.Blocks() < r.Blocks())
  {
    var rs := RunsOf(blocks);
    if rs == [] {
      NoRuns(blocks);
    } else {
      var k := LastLongestIn(rs, none);
      LongestAmongRuns(rs, blocks, k);
    }
  }

  datatype Space = Space(start: int, end: int, totalAvailableSpace: int)

  /** The longest free range of a used list and the number of free blocks. */
  method GetLargestRangeAndTotalAvailableSpace(segments: seq<Range>, startRange: int, endRange: int)
    returns (space: Space)
    requires AllNonempty(segments)
    ensures var free := FreeBlocks(segments, startRange, Horizon(segments, endRange));
            && space.totalAvailableSpace == |free|
            && Range(space.start, space.end) == LastLongest(RunsOf(free), Range(startRange, startRange - 1))
  {
    var freeRanges := GetAllFreeRanges(segments, startRange, endRange);
    var lbs, lbe, totalAvailableSpace, maxVal := startRange, startRange - 1, 0, 0;
    ghost var free := FreeBlocks(segments, startRange, Horizon(segments, endRange));
    ghost var none := Range(startRange, startRange - 1);
    for i := 0 to |freeRanges|
      invariant totalAvailableSpace == TotalBlocks(freeRanges[..i])
      invariant maxVal == lbe - lbs + 1
      invariant Range(lbs, lbe) == LastLongest(freeRanges[..i], none)
    {
      var range := freeRanges[i];
      var blocks := range.Blocks();
      assert range.Nonempty();
      TotalSnoc(freeRanges[..i], range);
      assert freeRanges[..i + 1] == freeRanges[..i] + [range];
      assert freeRanges[..i + 1][..i] == freeRanges[..i];
      totalAvailableSpace := totalAvailableSpace + blocks;
      if blocks >= maxVal {
        maxVal, lbs, lbe := blocks, range.lbs, range.lbe;
      }
    }
    assert freeRanges[..|freeRanges|] == freeRanges;
    RunsTotal(freeRanges, free);
    RunsUnique(freeRanges, RunsOf(free), free);
    space := Space(lbs, lbe, totalAvailableSpace);
  }

  lemma NoRuns(blocks: set<int>)
    requires IsRuns([], blocks)
    ensures blocks == {}
  {
    forall b ensures b !in blocks {
      assert !Covered([], b);
    }
  }

  lemma {:induction false} TotalSnoc(rs: seq<Range>, r: Range)
    ensures TotalBlocks(rs + [r]) == TotalBlocks(rs) + r.Blocks()
    decreases |rs|
  {
    if rs == [] {
      assert rs + [r] == [r];
      assert TotalBlocks([r][1..]) == 0;
    } else {
      TotalSnoc(rs[1..], r);
      assert (rs + [r])[1..] == rs[1..] + [r];
    }
  }

  lemma LongestAmongRuns(rs: seq<Range>, blocks: set<int>, k: int)
    requires IsRuns(rs, blocks) && 0 <= k < |rs|
    requires forall j | 0 <= j < |rs| :: rs[j].Blocks() <= rs[k].Blocks()
    requires forall j | k < j < |rs| :: rs[j].Blocks() < rs[k].Blocks()
    ensures IsLongestRun(rs[k], blocks)
    ensures forall q: Range | q.Nonempty() && BlocksOf(q) <= blocks && rs[k].lbe < q.lbs :: q.Blocks() < rs[k].Blocks()
  {
    assert rs[k].Nonempty();
    forall b | b in BlocksOf(rs[k]) ensures b in blocks { assert rs[k].Has(b); }
    forall q: Range | q.Nonempty() && BlocksOf(q) <= blocks
      ensures q.Blocks() <= rs[k].Blocks()
      ensures rs[k].lbe < q.lbs ==> q.Blocks() < rs[k].Blocks()
    {
      forall b | q.Has(b) ensures b in blocks { assert b in BlocksOf(q); }
      var j := WithinOneRun(rs, blocks, q);
    }
  }
}
