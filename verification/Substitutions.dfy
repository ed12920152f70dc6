/** Substituting segments of a pRaid, and what any sequence of substitutions leaves of its fault tolerance. */
module Substitutions {
  import opened Ranges
  import opened Options
  import opened Selection
  import opened FaultTolerance

  /** Nodes a replacement of segment `k` may not use. */
  ghost predicate Excluded(raid: Redundancy, protection: Protection, nodes: seq<NodeID>, k: nat, n: NodeID)
    requires k < |nodes|
  {
    match protection
    case Ignore => false
    case Full => n in WithoutAt(nodes, k)
    case Minimal => OnNode(WithoutAt(nodes, k), n) >= GetMaxTolerableFaults(raid)
  }

  /** A replacement of segment `k`: on a drive found by query, or inside reserved space, on another drive of the
      node the segment was on. */
  datatype Substitution = Substitution(k: nat, node: NodeID, inReserved: bool)

  ghost predicate MaySubstitute(v: SeparatedVolume, nodes: seq<NodeID>, s: Substitution) {
    && s.k < |nodes|
    && if s.inReserved then s.node == nodes[s.k] else !Excluded(v.raid, SubstitutionLevel(v), nodes, s.k, s.node)
  }

  function Substituted(nodes: seq<NodeID>, s: Substitution): seq<NodeID>
    requires s.k < |nodes|
  {
    nodes[s.k := s.node]
  }

  /** A substitution that may be made keeps the spread, and on a drive found by query every one that keeps it may be
      made. */
  lemma SubstitutionKeepsSpread(v: SeparatedVolume, nodes: seq<NodeID>, s: Substitution)
    requires Redundant(v.raid) && SubstitutionLevel(v) != Ignore && s.k < |nodes|
    requires Spread(v.raid, SubstitutionLevel(v), nodes)
    ensures MaySubstitute(v, nodes, s) ==> Spread(v.raid, SubstitutionLevel(v), Substituted(nodes, s))
    ensures !s.inReserved && Spread(v.raid, SubstitutionLevel(v), Substituted(nodes, s)) ==> MaySubstitute(v, nodes, s)
  {
    if s.inReserved {
      assert s.node == nodes[s.k] ==> Substituted(nodes, s) == nodes;
    } else {
      ExcludedIsFull(v.raid, SubstitutionLevel(v), nodes, s.k, s.node);
      forall n ensures OnNode(Substituted(nodes, s), n)
                    == OnNode(WithoutAt(nodes, s.k), n) + if s.node == n then 1 else 0
               ensures OnNode(nodes, n) >= OnNode(WithoutAt(nodes, s.k), n)
      {
        AtPlace(nodes, s.k, s.node, n);
      }
    }
  }

  /** When a segment may move to a drive found by query, read off the volume: with a full level, to a node without
      another segment; with a minimal level and, mirrored, without a level, where the pRaid still survives the loss of
      the new node, unless the volume ignores separation; anywhere otherwise. */
  lemma MaySubstituteExactly(v: SeparatedVolume, nodes: seq<NodeID>, s: Substitution)
    requires s.k < |nodes| == Segments(v.raid) && !s.inReserved && !v.raid.Striped?
    ensures v.level == Some(Full) ==> (MaySubstitute(v, nodes, s) <==> s.node !in WithoutAt(nodes, s.k))
    ensures v.level == Some(Minimal) || (v.level.None? && v.raid.Copied? && !v.ignoreNodeSeparation) ==>
              (MaySubstitute(v, nodes, s) <==> SurvivesLosing(v.raid, Substituted(nodes, s), s.node))
    ensures v.level == Some(Ignore) || (v.level.None? && (v.raid.Copied? ==> v.ignoreNodeSeparation)) ==>
              MaySubstitute(v, nodes, s)
  {
    AtPlace(nodes, s.k, s.node, s.node);
    StatusTells(v.raid, Substituted(nodes, s), s.node);
    hide OnNode, SurvivesLosing;
  }

  /** Excluded are exactly the nodes whose other segments leave no room for one more. */
  lemma ExcludedIsFull(raid: Redundancy, protection: Protection, nodes: seq<NodeID>, k: nat, n: NodeID)
    requires k < |nodes| && protection != Ignore
    ensures Excluded(raid, protection, nodes, k, n) <==> OnNode(WithoutAt(nodes, k), n) + 1 > PerNode(raid, protection)
  {
    if protection == Full {
      if n in WithoutAt(nodes, k) {
        There(WithoutAt(nodes, k), n);
      } else {
        NotThere(WithoutAt(nodes, k), n);
      }
    }
  }

  lemma {:induction false} There(nodes: seq<NodeID>, n: NodeID)
    requires n in nodes
    ensures OnNode(nodes, n) >= 1
    decreases |nodes|
  {
    var k := |nodes| - 1;
    if nodes[k] != n {
      assert nodes == nodes[..k] + [nodes[k]];
      There(nodes[..k], n);
    }
  }

  ghost predicate SubstitutionRun(v: SeparatedVolume, nodes: seq<NodeID>, run: seq<Substitution>)
    decreases |run|
  {
    run == [] || (MaySubstitute(v, nodes, run[0]) && SubstitutionRun(v, Substituted(nodes, run[0]), run[1..]))
  }

  ghost function AfterRun(v: SeparatedVolume, nodes: seq<NodeID>, run: seq<Substitution>): seq<NodeID>
    requires SubstitutionRun(v, nodes, run)
    decreases |run|
  {
    if run == [] then nodes else AfterRun(v, Substituted(nodes, run[0]), run[1..])
  }

  /** After any sequence of substitutions enough segments to rebuild the pRaid live on when any one node is lost. */
  lemma {:induction false} LosingANodeIsSurvived(v: SeparatedVolume, nodes: seq<NodeID>, run: seq<Substitution>)
    requires Redundant(v.raid) && SubstitutionLevel(v) != Ignore && Spread(v.raid, SubstitutionLevel(v), nodes)
    requires |nodes| == Segments(v.raid) && SubstitutionRun(v, nodes, run)
    ensures forall n :: SurvivesLosing(v.raid, AfterRun(v, nodes, run), n)
    decreases |run|
  {
    if run == [] {
      assert Separated(v.raid, nodes);
      SeparatedSurvives(v.raid, nodes);
    } else {
      SubstitutionKeepsSpread(v, nodes, run[0]);
      LosingANodeIsSurvived(v, Substituted(nodes, run[0]), run[1..]);
    }
  }

  // ------------------------------------------------------ chosen, reshuffled

  lemma {:induction false} OnNodeIsMultiplicity(nodes: seq<NodeID>, n: NodeID)
    ensures OnNode(nodes, n) == multiset(nodes)[n]
    decreases |nodes|
  {
    if nodes != [] {
      var k := |nodes| - 1;
      OnNodeIsMultiplicity(nodes[..k], n);
      assert nodes == nodes[..k] + [nodes[k]];
    }
  }

  /** The drives are shuffled after they were chosen; the counts per node do not depend on their order. */
  lemma ShuffledIsSpread(raid: Redundancy, protection: Protection, chosen: seq<NodeID>, nodes: seq<NodeID>)
    requires Spread(raid, protection, chosen) && multiset(nodes) == multiset(chosen)
    ensures Spread(raid, protection, nodes)
  {
    forall n ensures OnNode(nodes, n) <= PerNode(raid, protection) {
      OnNodeIsMultiplicity(nodes, n);
      OnNodeIsMultiplicity(chosen, n);
    }
  }

  // ------------------------------------------------------------ exactly when

  /** The volumes that keep their separation for life, by what they say about it. */
  predicate KeepsSeparation(v: SeparatedVolume) {
    match v.raid
    case Copied(_) => v.level != Some(Ignore) && (v.level.None? ==> !v.ignoreNodeSeparation)
    case ErasureCoded(_, _) => v.level == Some(Full) || v.level == Some(Minimal)
    case Striped => false
  }

  /** However its drives were chosen, shuffled and substituted, the pRaid survives the loss of any one node. */
  ghost predicate AlwaysSurvives(v: SeparatedVolume) {
    forall chosen, nodes, run, n |
      ChosenFor(v, chosen) && multiset(nodes) == multiset(chosen) && SubstitutionRun(v, nodes, run) ::
      SurvivesLosing(v.raid, AfterRun(v, nodes, run), n)
  }

  /** Segments on nodes 0, 1, 2 and so on. */
  function Apart(size: nat): (r: seq<NodeID>)
    ensures |r| == size && forall i | 0 <= i < size :: r[i] == i
  {
    seq(size, i requires 0 <= i => i)
  }

  lemma {:induction false} ApartCounts(size: nat, n: NodeID)
    ensures OnNode(Apart(size), n) == if n < size then 1 else 0
    decreases size
  {
    if size > 0 {
      ApartCounts(size - 1, n);
      assert Apart(size)[..size - 1] == Apart(size - 1);
    }
  }

  /** The first `i` segments, one after the other, move to node 0. */
  function PileUp(i: nat): seq<Substitution> {
    if i == 0 then [] else [Substitution(i - 1, 0, false)] + PileUp(i - 1)
  }

  lemma {:induction false} PilesUp(v: SeparatedVolume, nodes: seq<NodeID>, i: nat)
    requires SubstitutionLevel(v) == Ignore && i <= |nodes|
    ensures SubstitutionRun(v, nodes, PileUp(i))
    ensures var after := AfterRun(v, nodes, PileUp(i));
            && |after| == |nodes| && (forall j | 0 <= j < i :: after[j] == 0)
            && (forall j | i <= j < |nodes| :: after[j] == nodes[j])
    decreases i
  {
    if i > 0 {
      var s := Substitution(i - 1, 0, false);
      assert PileUp(i)[0] == s && PileUp(i)[1..] == PileUp(i - 1);
      PilesUp(v, Substituted(nodes, s), i - 1);
    }
  }

  lemma {:induction false} PiledCount(nodes: seq<NodeID>, i: nat)
    requires i <= |nodes| && forall j | 0 <= j < i :: nodes[j] == 0
    ensures OnNode(nodes, 0) >= i
    decreases |nodes|
  {
    if i > 0 {
      var k := |nodes| - 1;
      PiledCount(nodes[..k], if i == |nodes| then i - 1 else i);
    }
  }

  /** A volume that does not keep its separation has a run after which losing node 0 takes the pRaid offline. */
  lemma SomeRunFails(v: SeparatedVolume)
    requires Redundant(v.raid) && SubstitutionLevel(v) == Ignore
    ensures var nodes, run := Apart(Segments(v.raid)), PileUp(GetMaxTolerableFaults(v.raid) + 1);
            && ChosenFor(v, nodes) && SubstitutionRun(v, nodes, run)
            && !SurvivesLosing(v.raid, AfterRun(v, nodes, run), 0)
  {
    var nodes, lost := Apart(Segments(v.raid)), GetMaxTolerableFaults(v.raid) + 1;
    forall n ensures OnNode(nodes, n) <= 1 {
      ApartCounts(Segments(v.raid), n);
    }
    PilesUp(v, nodes, lost);
    PiledCount(AfterRun(v, nodes, PileUp(lost)), lost);
    StatusTells(v.raid, AfterRun(v, nodes, PileUp(lost)), 0);
  }

  /** A redundant pRaid survives the loss of any one node, after any choice and any substitutions, if and only if
      the volume keeps its separation: a mirrored one unless it ignores it, an erasure coded one only with an
      explicit full or minimal level. */
  lemma SurvivesExactly(v: SeparatedVolume)
    requires Redundant(v.raid)
    ensures AlwaysSurvives(v) <==> KeepsSeparation(v)
  {
    if KeepsSeparation(v) {
      forall chosen, nodes, run, n | ChosenFor(v, chosen) && multiset(nodes) == multiset(chosen)
             && SubstitutionRun(v, nodes, run)
        ensures SurvivesLosing(v.raid, AfterRun(v, nodes, run), n)
      {
        ShuffledIsSpread(v.raid, ChosenLevel(v), chosen, nodes);
        assert |nodes| == |multiset(nodes)| == |multiset(chosen)| == |chosen|;
        LosingANodeIsSurvived(v, nodes, run);
      }
    } else {
      SomeRunFails(v);
    }
  }

  /** An input: one data and one parity segment on two nodes, no explicit level. The drives were chosen apart, and
      one substitution puts both segments on one node. */
  lemma NoLevelMayLoseAll(n: NodeID, m: NodeID)
    requires n != m
    ensures var v := SeparatedVolume(ErasureCoded(1, 1), None, false);
            && ChosenFor(v, [n, m]) && MaySubstitute(v, [n, m], Substitution(1, n, false))
            && !SurvivesLosing(v.raid, Substituted([n, m], Substitution(1, n, false)), n)
  {
    TwoOnOne(n, m);
    LiveAndLost([n, m][1 := n], n);
  }

  /** Without separation the guarantee is gone: both copies may end up on one node. */
  lemma IgnoreMayLoseAll(n: NodeID, m: NodeID)
    requires n != m
    ensures var v := SeparatedVolume(Copied(1), Some(Ignore), false);
            && MaySubstitute(v, [n, m], Substitution(1, n, false))
            && !SurvivesLosing(v.raid, Substituted([n, m], Substitution(1, n, false)), n)
  {
    TwoOnOne(n, m);
    LiveAndLost([n, m][1 := n], n);
  }

  lemma TwoOnOne(n: NodeID, m: NodeID)
    requires n != m
    ensures OnNode([n, m][1 := n], n) == 2
    ensures forall k :: OnNode([n, m], k) <= 1
  {
    assert [n, m][1 := n] == [n] + [n] && [n, m] == [n] + [m];
    OnNodeConcat([n], [n], n);
    OnNodeOne(n, n);
    forall k ensures OnNode([n, m], k) <= 1 {
      OnNodeConcat([n], [m], k);
      OnNodeOne(n, k);
      OnNodeOne(m, k);
    }
  }
}
