/** The chunks of a volume: a virtual range each, backed by the disk segments of their pRaids. */
module Chunks {
  import opened Ranges
  import opened Drives
  import opened Arith

  /** A chunk of a volume: its virtual range and the disk segments of its pRaids. */
  datatype Chunk = Chunk(vlbs: int, vlbe: int, pRaids: seq<seq<Segment>>)

  predicate HasRef(c: Chunk) { |c.pRaids| > 0 && |c.pRaids[0]| > 0 }

  function Ref(c: Chunk): Segment
    requires HasRef(c)
  {
    c.pRaids[0][0]
  }

  function Flatten(pRaids: seq<seq<Segment>>): seq<Segment> {
    if pRaids == [] then [] else pRaids[0] + Flatten(pRaids[1..])
  }

  lemma {:induction false} FlattenHas(pRaids: seq<seq<Segment>>, s: Segment)
    ensures s in Flatten(pRaids) <==> exists p, k :: 0 <= p < |pRaids| && 0 <= k < |pRaids[p]| && pRaids[p][k] == s
    decreases |pRaids|
  {
    if pRaids != [] {
      FlattenHas(pRaids[1..], s);
      if s in pRaids[0] {
        var k :| 0 <= k < |pRaids[0]| && pRaids[0][k] == s;
      }
      if s in Flatten(pRaids[1..]) {
        var p, k :| 0 <= p < |pRaids[1..]| && 0 <= k < |pRaids[1..][p]| && pRaids[1..][p][k] == s;
        assert pRaids[p + 1][k] == s;
      }
      if p, k :| 0 <= p < |pRaids| && 0 <= k < |pRaids[p]| && pRaids[p][k] == s {
        assert p > 0 ==> pRaids[1..][p - 1][k] == s;
      }
    }
  }

  // -------------------------------------------------------- virtual tiling

  /** The chunks lie end to end from `start` to `end`, each as long as its segments times the multiplier. */
  ghost predicate Tiles(cs: seq<Chunk>, start: int, end: int, m: int) {
    if cs == [] then start == end
    else
      && HasRef(cs[0])
      && cs[0].vlbs == start
      && cs[0].vlbe + 1 == start + Ref(cs[0]).Span().Blocks() * m
      && Tiles(cs[1..], cs[0].vlbe + 1, end, m)
  }

  lemma {:induction false} TilesConcat(a: seq<Chunk>, b: seq<Chunk>, start: int, mid: int, end: int, m: int)
    requires Tiles(a, start, mid, m) && Tiles(b, mid, end, m)
    ensures Tiles(a + b, start, end, m)
    decreases |a|
  {
    if a == [] {
      assert a + b == b;
    } else {
      TilesConcat(a[1..], b, a[0].vlbe + 1, mid, end, m);
      assert (a + b)[1..] == a[1..] + b;
    }
  }

  lemma TilesCons(c: Chunk, rest: seq<Chunk>, start: int, end: int, m: int)
    requires HasRef(c) && c.vlbs == start && c.vlbe + 1 == start + Ref(c).Span().Blocks() * m
    requires Tiles(rest, c.vlbe + 1, end, m)
    ensures Tiles([c] + rest, start, end, m)
  {
    assert ([c] + rest)[1..] == rest;
  }

  /** In a tiling every virtual block belongs to exactly one chunk. */
  lemma {:induction false} TilesOnce(cs: seq<Chunk>, start: int, end: int, m: int, b: int) returns (i: int)
    requires Tiles(cs, start, end, m) && m >= 1 && start <= b < end
    requires forall j | 0 <= j < |cs| && HasRef(cs[j]) :: Ref(cs[j]).Span().Nonempty()
    ensures 0 <= i < |cs| && cs[i].vlbs <= b <= cs[i].vlbe
    ensures forall j | 0 <= j < |cs| && cs[j].vlbs <= b <= cs[j].vlbe :: j == i
    decreases |cs|
  {
    if b <= cs[0].vlbe {
      i := 0;
      TilesAbove(cs[1..], cs[0].vlbe + 1, end, m);
      assert forall j | 0 < j < |cs| :: cs[j] == cs[1..][j - 1];
    } else {
      i := TilesOnce(cs[1..], cs[0].vlbe + 1, end, m, b);
      i := i + 1;
      assert forall j | 0 < j < |cs| :: cs[j] == cs[1..][j - 1];
    }
  }

  lemma {:induction false} TilesAbove(cs: seq<Chunk>, start: int, end: int, m: int)
    requires Tiles(cs, start, end, m) && m >= 1
    requires forall j | 0 <= j < |cs| && HasRef(cs[j]) :: Ref(cs[j]).Span().Nonempty()
    ensures forall j | 0 <= j < |cs| :: start <= cs[j].vlbs
    decreases |cs|
  {
    if cs != [] {
      Positive(Ref(cs[0]).Span().Blocks(), m);
      TilesAbove(cs[1..], cs[0].vlbe + 1, end, m);
      assert forall j | 0 < j < |cs| :: cs[j] == cs[1..][j - 1];
    }
  }
}
