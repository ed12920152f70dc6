/** The check that a volume has enough targets, and exactly when it is right. */
module RequiredTargets {
  import opened Arith
  import opened Options
  import opened Selection
  import opened FaultTolerance

  /** The quotient rounded up; none for a division by zero. */
  function CeilDiv(n: nat, d: nat): Option<nat> {
    if d == 0 then None else Some((n + d - 1) / d)
  }

  function CalcRequiredMirrorsBySeparation(separation: Protection, totalSegments: nat, redundancy: nat): Option<nat> {
    match separation
    case Full => Some(totalSegments)
    case Minimal => CeilDiv(totalSegments, redundancy)
    case Ignore => Some(1)
  }

  /** `availableMirrors` counts the other targets. No number of them is enough for a division by zero. */
  predicate CalcHasEnoughMirrors(v: SeparatedVolume, availableMirrors: nat) {
    v.raid.Striped?
    || var required := CalcRequiredMirrorsBySeparation(GetEffectiveProtectionLevel(v), Segments(v.raid),
                                                       GetMaxTolerableFaults(v.raid));
       required.Some? && availableMirrors >= required.value - 1
  }

  /** The segments of a pRaid can be put on so many nodes, spread as a level asks. */
  ghost predicate FitsOn(v: SeparatedVolume, level: Protection, targets: nat) {
    exists nodes :: FitsAs(v, level, targets, nodes)
  }

  ghost predicate FitsAs(v: SeparatedVolume, level: Protection, targets: nat, nodes: seq<NodeID>) {
    && |nodes| == Segments(v.raid) && (forall k | 0 <= k < |nodes| :: nodes[k] < targets)
    && (level != Ignore ==> Spread(v.raid, level, nodes))
  }

  // ------------------------------------------------------------- no fewer do

  function Below(nodes: seq<NodeID>, t: nat): nat {
    if nodes == [] then 0 else Below(nodes[..|nodes| - 1], t) + if nodes[|nodes| - 1] < t then 1 else 0
  }

  lemma {:induction false} BelowNext(nodes: seq<NodeID>, t: nat)
    ensures Below(nodes, 0) == 0
    ensures Below(nodes, t + 1) == Below(nodes, t) + OnNode(nodes, t)
    ensures (forall k | 0 <= k < |nodes| :: nodes[k] < t) ==> Below(nodes, t) == |nodes|
    decreases |nodes|
  {
    if nodes != [] {
      BelowNext(nodes[..|nodes| - 1], t);
    }
  }

  lemma {:induction false} NoMoreThan(nodes: seq<NodeID>, t: nat, cap: nat)
    requires forall n :: OnNode(nodes, n) <= cap
    ensures Below(nodes, t) <= t * cap
    decreases t
  {
    if t == 0 {
      BelowNext(nodes, 0);
    } else {
      NoMoreThan(nodes, t - 1, cap);
      BelowNext(nodes, t - 1);
      Distribute(t - 1, 1, cap);
    }
  }

  // ---------------------------------------------------------- that many will

  /** `cap` segments on node 0, `cap` on node 1 and so on. */
  function InTurn(n: nat, cap: nat): (r: seq<NodeID>)
    requires cap >= 1
    ensures |r| == n && forall k | 0 <= k < n :: r[k] == k / cap
  {
    seq(n, k requires 0 <= k => k / cap)
  }

  lemma {:induction false} InTurnCount(n: nat, cap: nat, node: NodeID)
    requires cap >= 1
    ensures OnNode(InTurn(n, cap), node) <= cap
    ensures n <= node * cap ==> OnNode(InTurn(n, cap), node) == 0
    ensures n > node * cap ==> OnNode(InTurn(n, cap), node) <= n - node * cap
    decreases n
  {
    if n > 0 {
      InTurnCount(n - 1, cap, node);
      assert InTurn(n, cap)[..n - 1] == InTurn(n - 1, cap);
      NodeOf(n - 1, cap, node);
    }
  }

  lemma NodeOf(k: nat, cap: nat, node: NodeID)
    requires cap >= 1
    ensures k / cap == node <==> node * cap <= k < node * cap + cap
  {
    Whole(k, cap);
    if node * cap <= k < node * cap + cap {
      DivRange(k, cap, node);
    }
  }

  // ------------------------------------------------------------- the theorem

  lemma SpreadFits(v: SeparatedVolume, level: Protection, targets: nat)
    requires level != Ignore
    ensures FitsOn(v, level, targets) <==> Segments(v.raid) <= targets * PerNode(v.raid, level)
  {
    var n, cap := Segments(v.raid), PerNode(v.raid, level);
    if nodes :| FitsAs(v, level, targets, nodes) {
      NoMoreThan(nodes, targets, cap);
      BelowNext(nodes, targets);
    }
    if n <= targets * cap {
      if cap == 0 {
        assert FitsAs(v, level, targets, []);
      } else {
        var nodes := InTurn(n, cap);
        forall k | 0 <= k < n ensures nodes[k] < targets {
          Side(k, targets, cap);
        }
        forall node ensures OnNode(nodes, node) <= cap {
          InTurnCount(n, cap, node);
        }
        assert FitsAs(v, level, targets, nodes);
      }
    }
  }

  lemma CeilEnough(n: nat, d: nat, available: nat)
    requires n >= 1
    ensures var q := CeilDiv(n, d); (q.Some? && available >= q.value - 1) <==> n <= (available + 1) * d
  {
    if d >= 1 {
      Whole(n + d - 1, d);
      var q := (n + d - 1) / d;
      if available + 1 >= q {
        MulMono(q, available + 1, d);
      } else {
        MulMono(available + 1, q - 1, d);
        Distribute(q - 1, 1, d);
      }
    }
  }

  /** The check says yes if and only if the segments of a pRaid can be spread over the targets as the effective level
      of the volume asks. */
  lemma EnoughExactly(v: SeparatedVolume, availableMirrors: nat)
    requires Segments(v.raid) >= 1 && !v.raid.Striped?
    ensures CalcHasEnoughMirrors(v, availableMirrors) <==>
            FitsOn(v, GetEffectiveProtectionLevel(v), availableMirrors + 1)
  {
    var level := GetEffectiveProtectionLevel(v);
    CeilEnough(Segments(v.raid), GetMaxTolerableFaults(v.raid), availableMirrors);
    if level == Ignore {
      IgnoringFits(v, availableMirrors + 1);
    } else {
      SpreadFits(v, level, availableMirrors + 1);
    }
    hide FitsOn;
  }

  lemma IgnoringFits(v: SeparatedVolume, targets: nat)
    requires targets >= 1
    ensures FitsOn(v, Ignore, targets)
  {
    var n := Segments(v.raid);
    var nodes: seq<NodeID> := seq(n, k requires 0 <= k => 0);
    assert FitsAs(v, Ignore, targets, nodes);
  }

  /** It says yes although no choice of drives can be found exactly for erasure coded volumes without a level, on
      targets that suffice for the minimal spread and are fewer than the segments: their drives are chosen on nodes of
      their own. */
  lemma EnoughButNotChosen(v: SeparatedVolume, availableMirrors: nat)
    requires Segments(v.raid) >= 1 && !v.raid.Striped?
    ensures var targets := availableMirrors + 1;
            CalcHasEnoughMirrors(v, availableMirrors) && !FitsOn(v, ChosenLevel(v), targets) <==>
            (&& v.raid.ErasureCoded? && v.level.None?
             && Segments(v.raid) <= targets * v.raid.parity && targets < Segments(v.raid))
  {
    hide FitsOn;
    EnoughExactly(v, availableMirrors);
    if ChosenLevel(v) != GetEffectiveProtectionLevel(v) {
      SpreadFits(v, Full, availableMirrors + 1);
      SpreadFits(v, Minimal, availableMirrors + 1);
    }
  }
}
