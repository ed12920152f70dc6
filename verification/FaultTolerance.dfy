/** Separation gives fault tolerance: what a pRaid may lose, what each protection level lets one node hold, and
    the choice of drives for a mirrored pRaid. */
module FaultTolerance {
  import opened Ranges
  import opened Options
  import opened Selection

  /** A node; for a mirrored volume with a protection domain, one value of that domain. */
  type NodeID = nat

  datatype Redundancy = Striped | Copied(mirrors: nat) | ErasureCoded(data: nat, parity: nat)

  datatype Status = Online | Degraded | Offline

  function GetMaxTolerableFaults(raid: Redundancy): nat {
    match raid
    case ErasureCoded(_, parity) => parity
    case Copied(mirrors) => mirrors
    case Striped => 0
  }

  function GetPRaidStatus(raid: Redundancy, nonFunctionalSegmentsCount: nat): Status {
    if nonFunctionalSegmentsCount == 0 then Online
    else if nonFunctionalSegmentsCount <= GetMaxTolerableFaults(raid) then Degraded
    else Offline
  }

  /** Segments of one pRaid. */
  function Segments(raid: Redundancy): nat {
    match raid
    case Copied(mirrors) => mirrors + 1
    case ErasureCoded(data, parity) => data + parity
    case Striped => 1
  }

  /** So many live segments give all data back: as many as there are data segments, any one copy, or all. */
  predicate Rebuildable(raid: Redundancy, live: nat) {
    match raid
    case ErasureCoded(data, _) => live >= data
    case Copied(_) => live >= 1
    case Striped => live == 1
  }

  /** The status tells what is left: online if nothing is lost, offline if and only if what is left does not suffice. */
  lemma StatusExactly(raid: Redundancy, live: nat, lost: nat)
    requires live + lost == match raid
                            case ErasureCoded(data, parity) => data + parity
                            case Copied(mirrors) => mirrors + 1
                            case Striped => 1
    ensures Segments(raid) == live + lost
    ensures GetPRaidStatus(raid, lost) == Online <==> lost == 0
    ensures GetPRaidStatus(raid, lost) != Offline <==> Rebuildable(raid, live)
  {
  }

  /** Segments of a pRaid on one node. */
  function OnNode(nodes: seq<NodeID>, n: NodeID): nat {
    if nodes == [] then 0 else OnNode(nodes[..|nodes| - 1], n) + if nodes[|nodes| - 1] == n then 1 else 0
  }

  lemma {:induction false} OnNodeConcat(a: seq<NodeID>, b: seq<NodeID>, n: NodeID)
    ensures OnNode(a + b, n) == OnNode(a, n) + OnNode(b, n)
    decreases |b|
  {
    if b == [] {
      assert a + b == a;
    } else {
      OnNodeConcat(a, b[..|b| - 1], n);
      assert (a + b)[..|a + b| - 1] == a + b[..|b| - 1];
    }
  }

  lemma OnNodeOne(m: NodeID, n: NodeID)
    ensures OnNode([m], n) == if m == n then 1 else 0
  {
    assert [m][..0] == [];
  }

  function WithoutAt(nodes: seq<NodeID>, k: nat): seq<NodeID>
    requires k < |nodes|
  {
    nodes[..k] + nodes[k + 1..]
  }

  lemma AtPlace(nodes: seq<NodeID>, k: nat, m: NodeID, n: NodeID)
    requires k < |nodes|
    ensures OnNode(nodes[k := m], n) == OnNode(WithoutAt(nodes, k), n) + if m == n then 1 else 0
    ensures OnNode(nodes, n) == OnNode(WithoutAt(nodes, k), n) + if nodes[k] == n then 1 else 0
  {
    assert nodes[k := m] == nodes[..k] + [m] + nodes[k + 1..];
    assert nodes == nodes[..k] + [nodes[k]] + nodes[k + 1..];
    OnNodeConcat(nodes[..k], nodes[k + 1..], n);
    OnNodeConcat(nodes[..k], [m], n);
    OnNodeConcat(nodes[..k] + [m], nodes[k + 1..], n);
    OnNodeConcat(nodes[..k], [nodes[k]], n);
    OnNodeConcat(nodes[..k] + [nodes[k]], nodes[k + 1..], n);
    OnNodeOne(m, n);
    OnNodeOne(nodes[k], n);
  }

  lemma {:induction false} NotThere(nodes: seq<NodeID>, n: NodeID)
    requires n !in nodes
    ensures OnNode(nodes, n) == 0
    decreases |nodes|
  {
    if nodes != [] {
      assert nodes[|nodes| - 1] in nodes;
      NotThere(nodes[..|nodes| - 1], n);
    }
  }

  /** No node holds more segments than the pRaid tolerates to lose. */
  ghost predicate Separated(raid: Redundancy, nodes: seq<NodeID>) {
    forall n :: OnNode(nodes, n) <= GetMaxTolerableFaults(raid)
  }

  /** Segments of a pRaid on all other nodes: those that live on when node `n` is lost. */
  function LiveWithout(nodes: seq<NodeID>, n: NodeID): nat {
    if nodes == [] then 0 else LiveWithout(nodes[..|nodes| - 1], n) + if nodes[|nodes| - 1] != n then 1 else 0
  }

  lemma {:induction false} LiveAndLost(nodes: seq<NodeID>, n: NodeID)
    ensures LiveWithout(nodes, n) + OnNode(nodes, n) == |nodes|
    decreases |nodes|
  {
    if nodes != [] {
      LiveAndLost(nodes[..|nodes| - 1], n);
    }
  }

  /** What lives on when node `n` is lost suffices to rebuild the pRaid. */
  predicate SurvivesLosing(raid: Redundancy, nodes: seq<NodeID>, n: NodeID) {
    Rebuildable(raid, LiveWithout(nodes, n))
  }

  /** The status reported for the loss of a node says so. */
  lemma StatusTells(raid: Redundancy, nodes: seq<NodeID>, n: NodeID)
    requires |nodes| == Segments(raid)
    ensures GetPRaidStatus(raid, OnNode(nodes, n)) != Offline <==> SurvivesLosing(raid, nodes, n)
    ensures OnNode(nodes, n) <= GetMaxTolerableFaults(raid) <==> SurvivesLosing(raid, nodes, n)
  {
    LiveAndLost(nodes, n);
    StatusExactly(raid, LiveWithout(nodes, n), OnNode(nodes, n));
  }

  /** After losing any one node enough segments live on, exactly when the pRaid is separated. */
  lemma SeparatedSurvives(raid: Redundancy, nodes: seq<NodeID>)
    requires |nodes| == Segments(raid)
    ensures Separated(raid, nodes) <==> forall n :: SurvivesLosing(raid, nodes, n)
  {
    forall n ensures OnNode(nodes, n) <= GetMaxTolerableFaults(raid) <==> SurvivesLosing(raid, nodes, n) {
      StatusTells(raid, nodes, n);
    }
    if forall n :: SurvivesLosing(raid, nodes, n) {
      forall n ensures OnNode(nodes, n) <= GetMaxTolerableFaults(raid) {
        assert SurvivesLosing(raid, nodes, n);
      }
    }
  }

  predicate Redundant(raid: Redundancy) {
    match raid
    case Copied(mirrors) => mirrors == 1 || mirrors == 2
    case ErasureCoded(data, parity) => data >= 1 && parity >= 1
    case Striped => false
  }

  /** What a volume says about separation; its protection level may be missing. */
  datatype SeparatedVolume = SeparatedVolume(raid: Redundancy, level: Option<Protection>, ignoreNodeSeparation: bool)

  function GetEffectiveProtectionLevel(v: SeparatedVolume): Protection {
    if v.level.Some? then v.level.value
    else if v.ignoreNodeSeparation && v.raid.Copied? then Ignore
    else Minimal
  }

  /** The separation its drives are chosen with: an erasure coded volume without a level gets one drive per node. */
  function ChosenLevel(v: SeparatedVolume): Protection {
    if v.raid.ErasureCoded? then (if v.level.Some? then v.level.value else Full)
    else GetEffectiveProtectionLevel(v)
  }

  /** The separation its substitutions observe: an erasure coded volume needs an explicit level. */
  function SubstitutionLevel(v: SeparatedVolume): Protection {
    match v.raid
    case Copied(_) => GetEffectiveProtectionLevel(v)
    case ErasureCoded(_, _) =>
      if v.level == Some(Full) || v.level == Some(Minimal) then GetEffectiveProtectionLevel(v) else Ignore
    case Striped => Ignore
  }

  /** The most segments of a pRaid a protection level lets one node hold. */
  function PerNode(raid: Redundancy, protection: Protection): nat {
    if protection == Full then 1 else GetMaxTolerableFaults(raid)
  }

  ghost predicate Spread(raid: Redundancy, protection: Protection, nodes: seq<NodeID>) {
    forall n :: OnNode(nodes, n) <= PerNode(raid, protection)
  }

  // ---------------------------------------------------------- mirrored pRaids

  function NodesOf(picks: seq<Pick>, nodeOf: seq<NodeID>): (r: seq<NodeID>)
    requires forall k | 0 <= k < |picks| :: 0 <= picks[k].group < |nodeOf|
    ensures |r| == |picks| && forall k | 0 <= k < |r| :: r[k] == nodeOf[picks[k].group]
  {
    seq(|picks|, k requires 0 <= k < |picks| => nodeOf[picks[k].group])
  }

  lemma {:induction false} NodeCount(picks: seq<Pick>, nodeOf: seq<NodeID>, g: int, n: NodeID)
    requires forall k | 0 <= k < |picks| :: 0 <= picks[k].group < |nodeOf|
    requires forall h, i | 0 <= h < |nodeOf| && 0 <= i < |nodeOf| && h != i :: nodeOf[h] != nodeOf[i]
    requires 0 <= g < |nodeOf| && nodeOf[g] == n
    ensures OnNode(NodesOf(picks, nodeOf), n) == InGroup(picks, g)
    decreases |picks|
  {
    if picks != [] {
      var k := |picks| - 1;
      NodeCount(picks[..k], nodeOf, g, n);
      assert NodesOf(picks, nodeOf)[..k] == NodesOf(picks[..k], nodeOf);
    }
  }

  lemma {:induction false} ElsewhereCount(picks: seq<Pick>, nodeOf: seq<NodeID>, n: NodeID)
    requires forall k | 0 <= k < |picks| :: 0 <= picks[k].group < |nodeOf|
    requires forall h | 0 <= h < |nodeOf| :: nodeOf[h] != n
    ensures OnNode(NodesOf(picks, nodeOf), n) == 0
    decreases |picks|
  {
    if picks != [] {
      var k := |picks| - 1;
      ElsewhereCount(picks[..k], nodeOf, n);
      assert NodesOf(picks, nodeOf)[..k] == NodesOf(picks[..k], nodeOf);
    }
  }

  /** A selection that respects the cap of its protection level is spread. */
  lemma SelectionIsSpread(groups: Groups, picks: seq<Pick>, nodeOf: seq<NodeID>, protection: Protection, mirrors: nat)
    requires Redundant(Copied(mirrors)) && protection != Ignore && |nodeOf| == |groups|
    requires forall h, i | 0 <= h < |nodeOf| && 0 <= i < |nodeOf| && h != i :: nodeOf[h] != nodeOf[i]
    requires forall k | 0 <= k < |picks| :: 0 <= picks[k].group < |groups|
    requires forall g | 0 <= g < |groups| :: InGroup(picks, g) <= Capped(Cap(protection, mirrors), |groups[g]|)
    ensures Spread(Copied(mirrors), protection, NodesOf(picks, nodeOf))
  {
    forall n ensures OnNode(NodesOf(picks, nodeOf), n) <= PerNode(Copied(mirrors), protection) {
      if g :| 0 <= g < |nodeOf| && nodeOf[g] == n {
        NodeCount(picks, nodeOf, g, n);
      } else {
        ElsewhereCount(picks, nodeOf, n);
      }
    }
  }

  /** A pRaid as it is chosen: all its segments, spread as its level asks. */
  ghost predicate ChosenFor(v: SeparatedVolume, nodes: seq<NodeID>) {
    |nodes| == Segments(v.raid) && (ChosenLevel(v) != Ignore ==> Spread(v.raid, ChosenLevel(v), nodes))
  }

  /** Each segment is on a node of its own. */
  ghost predicate OnOwnNodes(nodes: seq<NodeID>) {
    forall i, j | 0 <= i < j < |nodes| :: nodes[i] != nodes[j]
  }

  lemma {:induction false} OwnNodesCount(nodes: seq<NodeID>, n: NodeID)
    requires OnOwnNodes(nodes)
    ensures OnNode(nodes, n) <= 1
    decreases |nodes|
  {
    if nodes != [] {
      var k := |nodes| - 1;
      OwnNodesCount(nodes[..k], n);
      if nodes[k] == n {
        NotThere(nodes[..k], n);
      }
    }
  }

  lemma {:induction false} TwiceCount(nodes: seq<NodeID>, i: int, j: int)
    requires 0 <= i < j < |nodes| && nodes[i] == nodes[j]
    ensures OnNode(nodes, nodes[i]) >= 2
    decreases |nodes|
  {
    var k := |nodes| - 1;
    if j < k {
      TwiceCount(nodes[..k], i, j);
    } else {
      OnceCount(nodes[..k], i);
    }
  }

  lemma {:induction false} OnceCount(nodes: seq<NodeID>, i: int)
    requires 0 <= i < |nodes|
    ensures OnNode(nodes, nodes[i]) >= 1
    decreases |nodes|
  {
    if i < |nodes| - 1 {
      OnceCount(nodes[..|nodes| - 1], i);
    }
  }

  lemma FullIsOwnNodes(raid: Redundancy, nodes: seq<NodeID>)
    ensures Spread(raid, Full, nodes) <==> OnOwnNodes(nodes)
  {
    if OnOwnNodes(nodes) {
      forall n ensures OnNode(nodes, n) <= PerNode(raid, Full) {
        OwnNodesCount(nodes, n);
      }
    } else {
      var i, j :| 0 <= i < j < |nodes| && nodes[i] == nodes[j];
      TwiceCount(nodes, i, j);
    }
  }

  /** What is allowed, read off the volume: nodes of their own with a full level and, erasure coded, without a level;
      surviving the loss of any one node with a minimal level and, mirrored, without a level, unless the volume
      ignores separation; anything otherwise. */
  lemma ChosenExactly(v: SeparatedVolume, nodes: seq<NodeID>)
    requires |nodes| == Segments(v.raid) && !v.raid.Striped?
    ensures v.level == Some(Full) || (v.level.None? && v.raid.ErasureCoded?) ==>
              (ChosenFor(v, nodes) <==> OnOwnNodes(nodes))
    ensures v.level == Some(Minimal) || (v.level.None? && v.raid.Copied? && !v.ignoreNodeSeparation) ==>
              (ChosenFor(v, nodes) <==> forall n :: SurvivesLosing(v.raid, nodes, n))
    ensures v.level == Some(Ignore) || (v.level.None? && v.raid.Copied? && v.ignoreNodeSeparation) ==>
              ChosenFor(v, nodes)
  {
    hide OnNode, SurvivesLosing, OnOwnNodes;
    FullIsOwnNodes(v.raid, nodes);
    SeparatedSurvives(v.raid, nodes);
    assert Spread(v.raid, Minimal, nodes) <==> Separated(v.raid, nodes);
  }

  /** Choosing the drives of a mirrored pRaid; the separation groups are the nodes, `nodeOf` their names. It
      succeeds exactly when the groups have enough drives. */
  method ChooseMirrored(groups: Groups, nodeOf: seq<NodeID>, v: SeparatedVolume)
    returns (picks: seq<Pick>, nodes: seq<NodeID>)
    requires v.raid.Copied? && |nodeOf| == |groups|
    requires forall h, i | 0 <= h < |nodeOf| && 0 <= i < |nodeOf| && h != i :: nodeOf[h] != nodeOf[i]
    ensures |picks| == |nodes|
    ensures |nodes| == Segments(v.raid)
       <==> Available(groups, Cap(GetEffectiveProtectionLevel(v), v.raid.mirrors)) >= Segments(v.raid)
    ensures Redundant(v.raid) && |nodes| == Segments(v.raid) ==> ChosenFor(v, nodes)
  {
    var protection, mirrors := GetEffectiveProtectionLevel(v), v.raid.mirrors;
    picks := SelectDisksForRAID1(groups, mirrors + 1, protection, mirrors);
    forall k | 0 <= k < |picks| ensures 0 <= picks[k].group < |groups| {
      assert InGroups(groups, picks[k]);
    }
    nodes := NodesOf(picks, nodeOf);
    if Redundant(Copied(mirrors)) && protection != Ignore {
      SelectionIsSpread(groups, picks, nodeOf, protection, mirrors);
    }
  }
}
