/** Picking the drives of a mirrored pRaid: one per separation group first, more than one only as far as
    the protection level allows (`selectDisksForRAID1`). */
module Selection {
  import opened Ranges
  import opened Options
  import opened Sequences
  import opened Sorting

  datatype Protection = Full | Minimal | Ignore

  /** The drives of each separation group by their largest free range; a drive is named by its position. */
  type Groups = seq<seq<int>>

  datatype Pick = Pick(group: int, disk: int)

  predicate InGroups(groups: Groups, p: Pick) {
    0 <= p.group < |groups| && 0 <= p.disk < |groups[p.group]|
  }

  /** The most drives one group may contribute, `None` for no limit. */
  function Cap(protection: Protection, mirrors: nat): Option<nat> {
    match protection
    case Full => Some(1)
    case Minimal => if mirrors > 1 then Some(2) else Some(1)
    case Ignore => None
  }

  function Capped(cap: Option<nat>, n: nat): nat {
    if cap.None? || n <= cap.value then n else cap.value
  }

  /** As many drives as the groups can contribute together. */
  function Available(groups: Groups, cap: Option<nat>): nat {
    if groups == [] then 0 else Available(groups[..|groups| - 1], cap) + Capped(cap, |groups[|groups| - 1]|)
  }

  // -------------------------------------------------------------- first round

  /** The first drive of each group that has one. */
  function Firsts(groups: Groups): seq<Pick> {
    if groups == [] then []
    else
      var n := |groups| - 1;
      if |groups[n]| > 0 then Firsts(groups[..n]) + [Pick(n, 0)] else Firsts(groups[..n])
  }

  function OthersIn(groups: Groups, g: int, i: int): seq<Pick>
    requires 0 <= g < |groups| && 1 <= i
    decreases |groups[g]| - i
  {
    if i >= |groups[g]| then [] else [Pick(g, i)] + OthersIn(groups, g, i + 1)
  }

  /** Every other drive. */
  function Others(groups: Groups, n: int): seq<Pick>
    requires 0 <= n <= |groups|
    decreases n
  {
    if n == 0 then [] else Others(groups, n - 1) + OthersIn(groups, n - 1, 1)
  }

  lemma {:induction false} FirstsCount(groups: Groups, p: Pick)
    ensures multiset(Firsts(groups))[p] == if InGroups(groups, p) && p.disk == 0 then 1 else 0
    decreases |groups|
  {
    if groups != [] {
      FirstsCount(groups[..|groups| - 1], p);
    }
  }

  lemma {:induction false} OthersInCount(groups: Groups, g: int, i: int, p: Pick)
    requires 0 <= g < |groups| && 1 <= i
    ensures multiset(OthersIn(groups, g, i))[p] == if InGroups(groups, p) && p.group == g && p.disk >= i then 1 else 0
    ensures i <= |groups[g]| ==> |OthersIn(groups, g, i)| == |groups[g]| - i
    decreases |groups[g]| - i
  {
    if i < |groups[g]| {
      OthersInCount(groups, g, i + 1, p);
    }
  }

  lemma {:induction false} OthersCount(groups: Groups, n: int, p: Pick)
    requires 0 <= n <= |groups|
    ensures multiset(Others(groups, n))[p] == if InGroups(groups, p) && p.group < n && p.disk >= 1 then 1 else 0
    decreases n
  {
    hide *;
    if n == 0 {
      NoOthers(groups, p);
    } else {
      OthersStep(groups, n, p);
      OthersCount(groups, n - 1, p);
      OthersInCount(groups, n - 1, 1, p);
    }
  }

  lemma NoOthers(groups: Groups, p: Pick)
    ensures multiset(Others(groups, 0))[p] == 0 && !(InGroups(groups, p) && p.group < 0)
  {
  }

  lemma OthersStep(groups: Groups, n: int, p: Pick)
    requires 0 < n <= |groups|
    ensures multiset(Others(groups, n))[p]
            == multiset(Others(groups, n - 1))[p] + multiset(OthersIn(groups, n - 1, 1))[p]
  {
    var a, b := Others(groups, n - 1), OthersIn(groups, n - 1, 1);
    assert Others(groups, n) == a + b;
    hide *;
    CountBoth(a, b, p);
  }

  lemma CountBoth(a: seq<Pick>, b: seq<Pick>, p: Pick)
    ensures multiset(a + b)[p] == multiset(a)[p] + multiset(b)[p]
  {
  }

  /** How many picks come from group `g`. */
  function InGroup(picks: seq<Pick>, g: int): nat {
    if picks == [] then 0 else InGroup(picks[..|picks| - 1], g) + if picks[|picks| - 1].group == g then 1 else 0
  }

  lemma {:induction false} InGroupConcat(a: seq<Pick>, b: seq<Pick>, g: int)
    ensures InGroup(a + b, g) == InGroup(a, g) + InGroup(b, g)
    decreases |b|
  {
    if b == [] {
      assert a + b == a;
    } else {
      InGroupConcat(a, b[..|b| - 1], g);
      assert (a + b)[..|a + b| - 1] == a + b[..|b| - 1];
    }
  }

  lemma InGroupOne(p: Pick, g: int)
    ensures InGroup([p], g) == if p.group == g then 1 else 0
  {
    assert [p][..0] == [];
  }

  lemma {:induction false} InGroupPermuted(a: seq<Pick>, b: seq<Pick>, g: int)
    requires multiset(a) == multiset(b)
    ensures InGroup(a, g) == InGroup(b, g)
    decreases |a|
  {
    if a == [] {
      assert |multiset(b)| == 0;
    } else {
      var i := WithoutOne(a, b);
      InGroupPermuted(a[..|a| - 1], b[..i] + b[i + 1..], g);
      InGroupConcat(b[..i], b[i + 1..], g);
      InGroupConcat(b[..i] + [b[i]], b[i + 1..], g);
      InGroupConcat(b[..i], [b[i]], g);
      InGroupOne(b[i], g);
    }
  }

  lemma {:induction false} OthersInGroup(groups: Groups, h: int, i: int, g: int)
    requires 0 <= h < |groups| && 1 <= i
    ensures InGroup(OthersIn(groups, h, i), g) == if g == h && i <= |groups[h]| then |groups[h]| - i else 0
    decreases |groups[h]| - i
  {
    if i < |groups[h]| {
      OthersInGroup(groups, h, i + 1, g);
      InGroupConcat([Pick(h, i)], OthersIn(groups, h, i + 1), g);
      assert [Pick(h, i)][..0] == [];
    }
  }

  lemma {:induction false} OthersPerGroup(groups: Groups, n: int, g: int)
    requires 0 <= n <= |groups|
    ensures InGroup(Others(groups, n), g) == if 0 <= g < n && |groups[g]| >= 1 then |groups[g]| - 1 else 0
    decreases n
  {
    if n > 0 {
      OthersPerGroup(groups, n - 1, g);
      OthersInGroup(groups, n - 1, 1, g);
      InGroupConcat(Others(groups, n - 1), OthersIn(groups, n - 1, 1), g);
    }
  }

  lemma {:induction false} FirstsPerGroup(groups: Groups, g: int)
    ensures InGroup(Firsts(groups), g) == if 0 <= g < |groups| && |groups[g]| > 0 then 1 else 0
    decreases |groups|
  {
    if groups != [] {
      var n := |groups| - 1;
      FirstsPerGroup(groups[..n], g);
      var prev := Firsts(groups[..n]);
      if |groups[n]| > 0 {
        assert Firsts(groups) == prev + [Pick(n, 0)];
        InGroupConcat(prev, [Pick(n, 0)], g);
        assert [Pick(n, 0)][..0] == [];
      } else {
        assert Firsts(groups) == prev;
      }
    }
  }

  lemma {:induction false} FirstsIn(groups: Groups)
    ensures forall k | 0 <= k < |Firsts(groups)| :: InGroups(groups, Firsts(groups)[k]) && Firsts(groups)[k].disk == 0
    ensures forall k, l | 0 <= k < l < |Firsts(groups)| :: Firsts(groups)[k].group < Firsts(groups)[l].group
    decreases |groups|
  {
    if groups != [] {
      FirstsIn(groups[..|groups| - 1]);
    }
  }

  lemma {:induction false} FirstsPrefix(groups: Groups, n: nat)
    requires n <= |groups|
    ensures |Firsts(groups[..n])| <= |Firsts(groups)| && Firsts(groups)[..|Firsts(groups[..n])|] == Firsts(groups[..n])
    decreases |groups|
  {
    if n < |groups| {
      FirstsPrefix(groups[..|groups| - 1], n);
      assert groups[..|groups| - 1][..n] == groups[..n];
    } else {
      assert groups[..n] == groups;
    }
  }

  // ------------------------------------------------------------------ sorting

  function BlocksOfPick(groups: Groups, p: Pick): int {
    if InGroups(groups, p) then groups[p.group][p.disk] else 0
  }

  function SizeIn(groups: Groups): Pick -> int {
    p => BlocksOfPick(groups, p)
  }

  function SortPicks(groups: Groups, picks: seq<Pick>): (r: seq<Pick>)
    ensures multiset(r) == multiset(picks)
  {
    BySize(picks, SizeIn(groups))
  }

  predicate LargestFirst(groups: Groups, picks: seq<Pick>) {
    forall i, j | 0 <= i < j < |picks| :: BlocksOfPick(groups, picks[i]) >= BlocksOfPick(groups, picks[j])
  }

  /** The candidates of the second round come largest first, those of one size in their order. */
  lemma SortedInOrder(groups: Groups, picks: seq<Pick>, blocks: int)
    ensures LargestFirst(groups, SortPicks(groups, picks))
    ensures OfSize(SortPicks(groups, picks), SizeIn(groups), blocks) == OfSize(picks, SizeIn(groups), blocks)
  {
    BySizeDescends(picks, SizeIn(groups));
    TiesInOrder(picks, SizeIn(groups), blocks);
    hide BySize, OfSize;
    var r := SortPicks(groups, picks);
    forall i, j | 0 <= i < j < |r| ensures BlocksOfPick(groups, r[i]) >= BlocksOfPick(groups, r[j]) {
      assert SizeIn(groups)(r[i]) >= SizeIn(groups)(r[j]);
    }
  }

  // ------------------------------------------------------------ the selection

  lemma InGroupSnoc(picks: seq<Pick>, p: Pick, g: int)
    ensures InGroup(picks + [p], g) == InGroup(picks, g) + if p.group == g then 1 else 0
  {
    assert (picks + [p])[..|picks|] == picks;
  }

  function UsageSum(usage: seq<nat>): nat {
    if usage == [] then 0 else UsageSum(usage[..|usage| - 1]) + usage[|usage| - 1]
  }

  lemma {:induction false} UsageBump(usage: seq<nat>, g: int)
    requires 0 <= g < |usage|
    ensures UsageSum(usage[g := usage[g] + 1]) == UsageSum(usage) + 1
    decreases |usage|
  {
    var n := |usage| - 1;
    var next := usage[g := usage[g] + 1];
    if g == n {
      assert next[..n] == usage[..n];
    } else {
      UsageBump(usage[..n], g);
      assert next[..n] == usage[..n][g := usage[..n][g] + 1];
    }
  }

  lemma {:induction false} UsageIsAvailable(groups: Groups, usage: seq<nat>, cap: Option<nat>)
    requires |usage| == |groups| && forall g | 0 <= g < |groups| :: usage[g] == Capped(cap, |groups[g]|)
    ensures UsageSum(usage) == Available(groups, cap)
    decreases |groups|
  {
    if groups != [] {
      var n := |groups| - 1;
      UsageIsAvailable(groups[..n], usage[..n], cap);
    }
  }

  /** No more than any group may give, so no more than all may give together. */
  lemma {:induction false} UsageAtMost(groups: Groups, usage: seq<nat>, cap: Option<nat>)
    requires |usage| == |groups| && forall g | 0 <= g < |groups| :: usage[g] <= Capped(cap, |groups[g]|)
    ensures UsageSum(usage) <= Available(groups, cap)
    decreases |groups|
  {
    if groups != [] {
      var n := |groups| - 1;
      UsageAtMost(groups[..n], usage[..n], cap);
    }
  }

  /** What is known of a selection under way. */
  ghost predicate Selecting(groups: Groups, selected: seq<Pick>, usage: seq<nat>, cap: Option<nat>) {
    && |usage| == |groups| && UsageSum(usage) == |selected|
    && (forall g | 0 <= g < |groups| :: usage[g] == InGroup(selected, g) <= Capped(cap, |groups[g]|))
    && (forall k | 0 <= k < |selected| :: InGroups(groups, selected[k]))
  }

  lemma SelectMore(groups: Groups, selected: seq<Pick>, usage: seq<nat>, cap: Option<nat>, p: Pick)
    requires Selecting(groups, selected, usage, cap) && InGroups(groups, p)
             && usage[p.group] < Capped(cap, |groups[p.group]|)
    ensures Selecting(groups, selected + [p], usage[p.group := usage[p.group] + 1], cap)
  {
    UsageBump(usage, p.group);
    forall g | 0 <= g < |groups| ensures usage[p.group := usage[p.group] + 1][g] == InGroup(selected + [p], g) {
      InGroupSnoc(selected, p, g);
    }
  }

  lemma {:induction false} ZeroUsage(n: nat)
    ensures UsageSum(seq(n, _ => 0)) == 0
    decreases n
  {
    if n > 0 {
      ZeroUsage(n - 1);
      assert seq(n, _ => 0 as nat)[..n - 1] == seq(n - 1, _ => 0 as nat);
    }
  }

  lemma {:induction false} OthersTotal(groups: Groups, n: nat)
    requires n <= |groups|
    ensures |Firsts(groups[..n])| + |Others(groups, n)| == Available(groups[..n], None)
    decreases n
  {
    if n > 0 {
      OthersTotal(groups, n - 1);
      assert groups[..n][..n - 1] == groups[..n - 1];
      OthersInCount(groups, n - 1, 1, Pick(0, 0));
    }
  }

  lemma {:induction false} CapLimits(groups: Groups, cap: Option<nat>)
    ensures Available(groups, cap) <= Available(groups, None)
    decreases |groups|
  {
    if groups != [] {
      CapLimits(groups[..|groups| - 1], cap);
    }
  }

  lemma FirstPhaseNext(groups: Groups, g: nat)
    requires g < |groups|
    ensures Firsts(groups[..g + 1])
            == if |groups[g]| > 0 then Firsts(groups[..g]) + [Pick(g, 0)] else Firsts(groups[..g])
  {
    assert groups[..g + 1][..g] == groups[..g];
  }

  // ----------------------------------------------------- the second round is best

  /** Some drive of a choice is no larger than that. */
  ghost predicate SomeAtMost(groups: Groups, others: seq<Pick>, blocks: int) {
    exists k :: 0 <= k < |others| && BlocksOfPick(groups, others[k]) <= blocks
  }

  /** Any choice of so many different drives within the caps that has the first drive of each group. */
  ghost predicate IsChoice(groups: Groups, cap: Option<nat>, needed: nat, others: seq<Pick>) {
    && |others| == needed && (forall k | 0 <= k < |others| :: InGroups(groups, others[k]))
    && (forall p :: multiset(others)[p] <= 1)
    && (forall g | 0 <= g < |groups| :: InGroup(others, g) <= Capped(cap, |groups[g]|))
    && (forall k | 0 <= k < |Firsts(groups)| :: Firsts(groups)[k] in others)
  }

  /** No such choice has a smallest drive larger than `p`. */
  ghost predicate NoneBetter(groups: Groups, cap: Option<nat>, needed: nat, p: Pick) {
    forall others | IsChoice(groups, cap, needed, others) :: SomeAtMost(groups, others, BlocksOfPick(groups, p))
  }

  /** A drive left out although its group may still give one. */
  ghost predicate PassedOver(groups: Groups, cap: Option<nat>, selected: seq<Pick>, d: Pick) {
    InGroups(groups, d) && d !in selected && (cap.None? || InGroup(selected, d.group) < cap.value)
  }

  /** No drive left out is larger than one taken behind the first `n`. */
  ghost predicate LargestTaken(groups: Groups, cap: Option<nat>, selected: seq<Pick>, n: nat) {
    forall d, m | PassedOver(groups, cap, selected, d) && n <= m < |selected| ::
      BlocksOfPick(groups, d) <= BlocksOfPick(groups, selected[m])
  }

  lemma InGroupWithout(b: seq<Pick>, i: nat, g: int)
    requires i < |b|
    ensures InGroup(b, g) == InGroup(b[..i] + b[i + 1..], g) + if b[i].group == g then 1 else 0
  {
    hide InGroup;
    assert b == b[..i] + [b[i]] + b[i + 1..];
    InGroupConcat(b[..i], b[i + 1..], g);
    InGroupConcat(b[..i] + [b[i]], b[i + 1..], g);
    InGroupConcat(b[..i], [b[i]], g);
    InGroupOne(b[i], g);
  }

  lemma MultisetWithout(b: seq<Pick>, i: nat)
    requires i < |b|
    ensures multiset(b) == multiset(b[..i] + b[i + 1..]) + multiset{b[i]}
  {
    assert b == b[..i] + [b[i]] + b[i + 1..];
  }

  lemma OneLess(a: multiset<Pick>, b: multiset<Pick>, p: Pick)
    requires a + multiset{p} <= b + multiset{p}
    ensures a <= b
  {
    forall q ensures a[q] <= b[q] {
      assert (a + multiset{p})[q] <= (b + multiset{p})[q];
    }
  }

  lemma {:induction false} InGroupMono(a: seq<Pick>, b: seq<Pick>, g: int)
    requires multiset(a) <= multiset(b)
    ensures InGroup(a, g) <= InGroup(b, g)
    decreases |a|
  {
    if a != [] {
      var n := |a| - 1;
      assert a == a[..n] + [a[n]];
      assert a[n] in multiset(a);
      var i :| 0 <= i < |b| && b[i] == a[n];
      var rest := b[..i] + b[i + 1..];
      MultisetWithout(b, i);
      assert multiset(a) == multiset(a[..n]) + multiset{a[n]};
      OneLess(multiset(a[..n]), multiset(rest), a[n]);
      InGroupMono(a[..n], rest, g);
      InGroupWithout(b, i, g);
    }
  }

  function Usages(picks: seq<Pick>, n: nat): (r: seq<nat>)
    ensures |r| == n && forall g | 0 <= g < n :: r[g] == InGroup(picks, g)
  {
    seq(n, g requires 0 <= g < n => InGroup(picks, g))
  }

  lemma {:induction false} UsagesAdd(groups: Groups, picks: seq<Pick>)
    requires forall k | 0 <= k < |picks| :: InGroups(groups, picks[k])
    ensures UsageSum(Usages(picks, |groups|)) == |picks|
    decreases |picks|
  {
    if picks == [] {
      ZeroUsage(|groups|);
      assert Usages(picks, |groups|) == seq(|groups|, _ => 0);
    } else {
      var n := |picks| - 1;
      var g := picks[n].group;
      assert InGroups(groups, picks[n]);
      UsagesAdd(groups, picks[..n]);
      var before := Usages(picks[..n], |groups|);
      assert picks == picks[..n] + [picks[n]];
      forall h | 0 <= h < |groups| ensures InGroup(picks, h) == before[h] + if g == h then 1 else 0 {
        InGroupSnoc(picks[..n], picks[n], h);
      }
      var now, next := Usages(picks, |groups|), before[g := before[g] + 1];
      assert forall h | 0 <= h < |groups| :: now[h] == next[h];
      assert now == next;
      UsageBump(before, g);
    }
  }

  lemma {:induction false} UsageMono(a: seq<nat>, b: seq<nat>)
    requires |a| == |b| && forall g | 0 <= g < |a| :: a[g] <= b[g]
    ensures UsageSum(a) <= UsageSum(b)
    decreases |a|
  {
    if a != [] {
      UsageMono(a[..|a| - 1], b[..|b| - 1]);
    }
  }

  /** A drive larger than the candidate is the first of its group or was seen before. */
  lemma LargerIsSeen(groups: Groups, sorted: seq<Pick>, c: nat, p: Pick)
    requires LargestFirst(groups, sorted) && multiset(sorted) == multiset(Others(groups, |groups|))
    requires c < |sorted| && InGroups(groups, p) && BlocksOfPick(groups, p) > BlocksOfPick(groups, sorted[c])
    ensures multiset(Firsts(groups) + sorted[..c])[p] >= 1
  {
    hide Firsts, Others;
    if p.disk == 0 {
      FirstsCount(groups, p);
    } else {
      OthersCount(groups, |groups|, p);
      LargerBefore(groups, sorted, c, p);
    }
    CountBoth(Firsts(groups), sorted[..c], p);
  }

  lemma LargerBefore(groups: Groups, sorted: seq<Pick>, c: nat, p: Pick)
    requires LargestFirst(groups, sorted) && c < |sorted| && multiset(sorted)[p] >= 1
    requires BlocksOfPick(groups, p) > BlocksOfPick(groups, sorted[c])
    ensures multiset(sorted[..c])[p] >= 1
  {
    assert p in multiset(sorted);
    var x :| 0 <= x < |sorted| && sorted[x] == p;
    assert sorted[..c][x] == p;
    assert p in sorted[..c];
  }

  /** So a choice of larger drives only has no more of a group than were taken from it. */
  lemma LargerInGroup(groups: Groups, usage: seq<nat>, cap: Option<nat>, sorted: seq<Pick>, c: nat, needed: nat,
                      others: seq<Pick>, g: int)
    requires LargestFirst(groups, sorted) && multiset(sorted) == multiset(Others(groups, |groups|))
    requires |usage| == |groups| && c < |sorted| && UsedUpTo(groups, usage, cap, sorted, c) && 0 <= g < |groups|
    requires IsChoice(groups, cap, needed, others)
    requires forall k | 0 <= k < |others| :: BlocksOfPick(groups, others[k]) > BlocksOfPick(groups, sorted[c])
    ensures InGroup(others, g) <= usage[g]
  {
    hide Firsts, Others, LargestFirst, InGroup;
    var seen := Firsts(groups) + sorted[..c];
    forall p ensures multiset(others)[p] <= multiset(seen)[p] {
      if p in multiset(others) {
        assert p in others;
        LargerIsSeen(groups, sorted, c, p);
      }
    }
    InGroupMono(others, seen, g);
    InGroupConcat(Firsts(groups), sorted[..c], g);
    FirstsPerGroup(groups, g);
  }

  /** When its turn comes, no choice of as many drives as are needed has only larger ones. */
  lemma TakenIsBest(groups: Groups, selected: seq<Pick>, usage: seq<nat>, cap: Option<nat>, sorted: seq<Pick>, c: nat,
                    needed: nat)
    requires LargestFirst(groups, sorted) && multiset(sorted) == multiset(Others(groups, |groups|))
    requires |usage| == |groups| && c < |sorted| && UsedUpTo(groups, usage, cap, sorted, c)
    requires UsageSum(usage) == |selected| < needed
    ensures NoneBetter(groups, cap, needed, sorted[c])
  {
    forall others | IsChoice(groups, cap, needed, others)
      ensures SomeAtMost(groups, others, BlocksOfPick(groups, sorted[c]))
    {
      if !SomeAtMost(groups, others, BlocksOfPick(groups, sorted[c])) {
        forall g | 0 <= g < |groups| ensures InGroup(others, g) <= usage[g] {
          LargerInGroup(groups, usage, cap, sorted, c, needed, others, g);
        }
        UsagesAdd(groups, others);
        UsageMono(Usages(others, |groups|), usage);
        assert false;
      }
    }
  }

  /** The drives of one pRaid: never two from one group beyond the cap, never one twice, and as many as are
      needed exactly when the groups can give them. */
  method SelectDisksForRAID1(groups: Groups, segmentsNeeded: nat, protection: Protection, mirrors: nat)
    returns (selected: seq<Pick>)
    ensures |selected| <= segmentsNeeded
    ensures |selected| == segmentsNeeded <==> Available(groups, Cap(protection, mirrors)) >= segmentsNeeded
    ensures forall k | 0 <= k < |selected| :: InGroups(groups, selected[k])
    ensures forall p :: multiset(selected)[p] <= 1
    ensures forall g | 0 <= g < |groups| :: InGroup(selected, g) <= Capped(Cap(protection, mirrors), |groups[g]|)
    ensures |Firsts(groups)| >= segmentsNeeded ==> selected == Firsts(groups)[..segmentsNeeded]
    ensures |Firsts(groups)| < segmentsNeeded ==> Firsts(groups) <= selected
    ensures |Firsts(groups)| < |selected| ==>
              LargestTaken(groups, Cap(protection, mirrors), selected, |Firsts(groups)|)
    ensures |Firsts(groups)| < |selected| == segmentsNeeded ==>
              forall m | 0 <= m < |selected| ::
                NoneBetter(groups, Cap(protection, mirrors), segmentsNeeded, selected[m])
  {
    hide Selecting, Available, InGroup, Firsts, Others, NoneBetter, LargestTaken, LargestFirst;
    ghost var cap := Cap(protection, mirrors);
    var usage: seq<nat>;
    selected, usage := FirstRound(groups, segmentsNeeded, cap);
    EnoughAvailable(groups, selected, usage, cap);
    if |selected| == segmentsNeeded {
      return;
    }
    if !(protection == Ignore || (protection == Minimal && mirrors > 1)) {
      AllUsed(groups, selected, usage, cap);
      return;
    }
    var remaining := Remaining(groups, usage);
    if |remaining| < segmentsNeeded - |selected| {
      OthersTotal(groups, |groups|);
      assert groups[..|groups|] == groups;
      CapLimits(groups, cap);
      return;
    }
    var sorted := SortPicks(groups, remaining);
    SortedInOrder(groups, remaining, 0);
    selected := SecondRound(groups, segmentsNeeded, protection, cap, selected, usage, sorted);
  }

  /** Every group before `g` that has a drive has given one. */
  ghost predicate OneEach(groups: Groups, usage: seq<nat>, g: nat) {
    && |usage| == |groups|
    && (forall h | 0 <= h < |groups| :: usage[h] == if h < g && |groups[h]| > 0 then 1 else 0)
  }

  lemma OneEachNext(groups: Groups, usage: seq<nat>, g: nat)
    requires g < |groups| && OneEach(groups, usage, g)
    ensures usage[g] == 0
    ensures OneEach(groups, if |groups[g]| > 0 then usage[g := usage[g] + 1] else usage, g + 1)
  {
  }

  lemma NothingSelected(groups: Groups, usage: seq<nat>, cap: Option<nat>)
    requires |usage| == |groups| && forall g | 0 <= g < |groups| :: usage[g] == 0
    ensures Selecting(groups, [], usage, cap) && OneEach(groups, usage, 0)
  {
    ZeroUsage(|groups|);
    assert usage == seq(|groups|, _ => 0);
  }

  lemma FirstsOnce(groups: Groups, n: nat)
    requires n <= |groups|
    ensures forall p :: multiset(Firsts(groups[..n]))[p] <= 1
  {
    forall p ensures multiset(Firsts(groups[..n]))[p] <= 1 { FirstsCount(groups[..n], p); }
  }

  method FirstRound(groups: Groups, segmentsNeeded: nat, ghost cap: Option<nat>)
    returns (selected: seq<Pick>, usage: seq<nat>)
    requires cap.None? || cap.value >= 1
    ensures |selected| <= segmentsNeeded && Selecting(groups, selected, usage, cap)
    ensures forall p :: multiset(selected)[p] <= 1
    ensures |Firsts(groups)| >= segmentsNeeded ==> selected == Firsts(groups)[..segmentsNeeded]
    ensures |selected| < segmentsNeeded ==> selected == Firsts(groups) && OneEach(groups, usage, |groups|)
    ensures selected <= Firsts(groups)
  {
    hide Selecting, OneEach, Firsts;
    selected, usage := [], seq(|groups|, _ => 0);
    NothingSelected(groups, usage, cap);
    NoFirsts(groups);
    var g := 0;
    while g < |groups|
      invariant 0 <= g <= |groups| && |selected| <= segmentsNeeded && |usage| == |groups|
      invariant selected == Firsts(groups[..g]) && Selecting(groups, selected, usage, cap) && OneEach(groups, usage, g)
    {
      if |selected| == segmentsNeeded {
        break;
      }
      FirstPhaseNext(groups, g);
      OneEachNext(groups, usage, g);
      if |groups[g]| > 0 {
        SelectMore(groups, selected, usage, cap, Pick(g, 0));
        selected := selected + [Pick(g, 0)];
        usage := usage[g := usage[g] + 1];
      }
      g := g + 1;
    }
    FirstsPrefix(groups, g);
    FirstsOnce(groups, g);
    assert groups[..|groups|] == groups;
  }

  lemma NoFirsts(groups: Groups)
    ensures Firsts(groups[..0]) == []
  {
  }

  lemma EnoughAvailable(groups: Groups, selected: seq<Pick>, usage: seq<nat>, cap: Option<nat>)
    requires Selecting(groups, selected, usage, cap)
    ensures |selected| <= Available(groups, cap)
    ensures forall k | 0 <= k < |selected| :: InGroups(groups, selected[k])
    ensures forall g | 0 <= g < |groups| :: InGroup(selected, g) <= Capped(cap, |groups[g]|)
  {
    UsageAtMost(groups, usage, cap);
  }

  lemma AllUsed(groups: Groups, selected: seq<Pick>, usage: seq<nat>, cap: Option<nat>)
    requires Selecting(groups, selected, usage, cap)
    requires forall g | 0 <= g < |groups| :: usage[g] == Capped(cap, |groups[g]|)
    ensures |selected| == Available(groups, cap)
    ensures forall k | 0 <= k < |selected| :: InGroups(groups, selected[k])
    ensures forall g | 0 <= g < |groups| :: InGroup(selected, g) <= Capped(cap, |groups[g]|)
  {
    UsageIsAvailable(groups, usage, cap);
  }

  method Remaining(groups: Groups, usage: seq<nat>) returns (remaining: seq<Pick>)
    requires OneEach(groups, usage, |groups|)
    ensures remaining == Others(groups, |groups|)
  {
    remaining := [];
    for g := 0 to |groups|
      invariant remaining == Others(groups, g)
    {
      var startIdx := if usage[g] != 0 then 1 else 0;
      ghost var before := remaining;
      var i := startIdx;
      while i < |groups[g]|
        invariant usage[g] != 0 ==> 1 <= i <= |groups[g]|
        invariant usage[g] != 0 ==> remaining + OthersIn(groups, g, i) == before + OthersIn(groups, g, 1)
        invariant usage[g] == 0 ==> remaining == before
      {
        assert remaining + OthersIn(groups, g, i) == (remaining + [Pick(g, i)]) + OthersIn(groups, g, i + 1);
        remaining := remaining + [Pick(g, i)];
        i := i + 1;
      }
      assert remaining == before + OthersIn(groups, g, 1);
    }
  }

  /** A candidate in turn: taken as long as its group is below the limit. */
  lemma CandidateCount(sorted: seq<Pick>, c: nat, g: int)
    requires c < |sorted|
    ensures InGroup(sorted[..c + 1], g) == InGroup(sorted[..c], g) + if sorted[c].group == g then 1 else 0
  {
    assert sorted[..c + 1] == sorted[..c] + [sorted[c]];
    InGroupSnoc(sorted[..c], sorted[c], g);
  }

  ghost predicate UsedUpTo(groups: Groups, usage: seq<nat>, cap: Option<nat>, sorted: seq<Pick>, c: nat)
    requires |usage| == |groups| && c <= |sorted|
  {
    forall g | 0 <= g < |groups| :: usage[g]
           == Capped(cap, (if |groups[g]| > 0 then 1 else 0) + InGroup(sorted[..c], g))
  }

  method SecondRound(groups: Groups, segmentsNeeded: nat, protection: Protection, ghost cap: Option<nat>,
                     first: seq<Pick>, firstUsage: seq<nat>, sorted: seq<Pick>)
    returns (selected: seq<Pick>)
    requires cap == (if protection == Minimal then Some(2) else None) && protection != Full
    requires |first| < segmentsNeeded && Selecting(groups, first, firstUsage, cap) && first == Firsts(groups)
    requires OneEach(groups, firstUsage, |groups|)
    requires multiset(sorted) == multiset(Others(groups, |groups|)) && LargestFirst(groups, sorted)
    ensures |selected| <= segmentsNeeded && first <= selected
    ensures LargestTaken(groups, cap, selected, |first|)
    ensures |selected| == segmentsNeeded ==>
              forall m | 0 <= m < |selected| :: NoneBetter(groups, cap, segmentsNeeded, selected[m])
    ensures |selected| == segmentsNeeded <==> Available(groups, cap) >= segmentsNeeded
    ensures forall k | 0 <= k < |selected| :: InGroups(groups, selected[k])
    ensures forall p :: multiset(selected)[p] <= 1
    ensures forall g | 0 <= g < |groups| :: InGroup(selected, g) <= Capped(cap, |groups[g]|)
  {
    hide Available, Others, Firsts, Selecting, UsedUpTo, OneEach, NoneBetter, LargestFirst, InGroup, SeenOrFull,
         LargestTaken, TakenSeen;
    var usage := firstUsage;
    selected := first;
    FirstsAreBest(groups, cap, segmentsNeeded);
    NothingTakenYet(sorted, selected, usage, cap);
    SortedIn(groups, sorted);
    NothingSeen(groups, usage, cap, sorted);
    assert sorted[..0] == [];
    var c := 0;
    while c < |sorted|
      invariant 0 <= c <= |sorted| && |selected| <= segmentsNeeded && |usage| == |groups|
      invariant Selecting(groups, selected, usage, cap) && UsedUpTo(groups, usage, cap, sorted, c)
      invariant multiset(selected) <= multiset(first) + multiset(sorted[..c]) && first <= selected
      invariant forall m | 0 <= m < |selected| :: NoneBetter(groups, cap, segmentsNeeded, selected[m])
      invariant SeenOrFull(sorted, c, selected, usage, cap) && TakenSeen(sorted, c, selected, |first|)
    {
      if |selected| == segmentsNeeded {
        break;
      }
      var candidate := sorted[c];
      assert InGroups(groups, candidate);
      SeenNext(groups, usage, cap, sorted, c);
      SumIsCount(groups, selected, usage, cap);
      TakenIsBest(groups, selected, usage, cap, sorted, c, segmentsNeeded);
      OneMoreSeen(sorted, c, selected, usage, cap, |first|);
      if protection == Ignore || usage[candidate.group] < 2 {
        SelectMore(groups, selected, usage, cap, candidate);
        selected := selected + [candidate];
        usage := usage[candidate.group := usage[candidate.group] + 1];
      }
      assert sorted[..c + 1] == sorted[..c] + [candidate];
      c := c + 1;
    }
    NoneTwice(groups, first, sorted, c, selected);
    UsageIsCount(groups, selected, usage, cap);
    NoneLarger(groups, cap, selected, usage, sorted, c);
    if c < |sorted| {
      EnoughAvailable(groups, selected, usage, cap);
    } else {
      AllSeen(groups, usage, cap, sorted);
      AllUsed(groups, selected, usage, cap);
    }
  }

  /** The first drives are in every choice. */
  lemma FirstsAreBest(groups: Groups, cap: Option<nat>, needed: nat)
    ensures forall m | 0 <= m < |Firsts(groups)| :: NoneBetter(groups, cap, needed, Firsts(groups)[m])
  {
    forall m, others | 0 <= m < |Firsts(groups)| && IsChoice(groups, cap, needed, others)
      ensures SomeAtMost(groups, others, BlocksOfPick(groups, Firsts(groups)[m]))
    {
      assert Firsts(groups)[m] in others;
      var k :| 0 <= k < |others| && others[k] == Firsts(groups)[m];
    }
  }

  /** Every candidate seen was taken or found its group at the cap. */
  ghost predicate SeenOrFull(sorted: seq<Pick>, c: nat, selected: seq<Pick>, usage: seq<nat>, cap: Option<nat>) {
    forall x | 0 <= x < c && x < |sorted| ::
      sorted[x] in selected
      || (cap.Some? && 0 <= sorted[x].group < |usage| && usage[sorted[x].group] >= cap.value)
  }

  /** What was taken behind the first `n` was seen. */
  ghost predicate TakenSeen(sorted: seq<Pick>, c: nat, selected: seq<Pick>, n: nat) {
    forall m | n <= m < |selected| :: exists x :: 0 <= x < c && x < |sorted| && sorted[x] == selected[m]
  }

  lemma NothingTakenYet(sorted: seq<Pick>, selected: seq<Pick>, usage: seq<nat>, cap: Option<nat>)
    ensures SeenOrFull(sorted, 0, selected, usage, cap) && TakenSeen(sorted, 0, selected, |selected|)
  {
  }

  lemma OneMoreSeen(sorted: seq<Pick>, c: nat, selected: seq<Pick>, usage: seq<nat>, cap: Option<nat>, n: nat)
    requires c < |sorted| && 0 <= sorted[c].group < |usage|
    requires SeenOrFull(sorted, c, selected, usage, cap) && TakenSeen(sorted, c, selected, n)
    ensures var g := sorted[c].group;
            if cap.None? || usage[g] < cap.value
            then
              && SeenOrFull(sorted, c + 1, selected + [sorted[c]], usage[g := usage[g] + 1], cap)
              && TakenSeen(sorted, c + 1, selected + [sorted[c]], n)
            else SeenOrFull(sorted, c + 1, selected, usage, cap) && TakenSeen(sorted, c + 1, selected, n)
  {
    var more := selected + [sorted[c]];
    assert more[|selected|] == sorted[c];
    forall m | n <= m < |selected| ensures exists x :: 0 <= x < c && sorted[x] == selected[m] {
      var x :| 0 <= x < c && x < |sorted| && sorted[x] == selected[m];
    }
  }

  lemma SumIsCount(groups: Groups, selected: seq<Pick>, usage: seq<nat>, cap: Option<nat>)
    requires Selecting(groups, selected, usage, cap)
    ensures |usage| == |groups| && UsageSum(usage) == |selected|
  {
  }

  lemma UsageIsCount(groups: Groups, selected: seq<Pick>, usage: seq<nat>, cap: Option<nat>)
    requires Selecting(groups, selected, usage, cap)
    ensures |usage| == |groups| && forall g | 0 <= g < |groups| :: usage[g] == InGroup(selected, g)
  {
  }

  /** Candidates come largest first, so whatever is left out and could still be taken comes behind what was taken. */
  lemma NoneLarger(groups: Groups, cap: Option<nat>, selected: seq<Pick>, usage: seq<nat>, sorted: seq<Pick>, c: nat)
    requires LargestFirst(groups, sorted) && multiset(sorted) == multiset(Others(groups, |groups|)) && c <= |sorted|
    requires |usage| == |groups| && forall g | 0 <= g < |groups| :: usage[g] == InGroup(selected, g)
    requires Firsts(groups) <= selected
    requires SeenOrFull(sorted, c, selected, usage, cap) && TakenSeen(sorted, c, selected, |Firsts(groups)|)
    ensures LargestTaken(groups, cap, selected, |Firsts(groups)|)
  {
    hide InGroup;
    forall d, m | PassedOver(groups, cap, selected, d) && |Firsts(groups)| <= m < |selected|
      ensures BlocksOfPick(groups, d) <= BlocksOfPick(groups, selected[m])
    {
      var y := LeftOutBehind(groups, cap, selected, usage, sorted, c, d);
      var x :| 0 <= x < c && x < |sorted| && sorted[x] == selected[m];
    }
  }

  lemma FirstIsTaken(groups: Groups, selected: seq<Pick>, d: Pick)
    requires Firsts(groups) <= selected && InGroups(groups, d) && d.disk == 0
    ensures d in selected
  {
    FirstsCount(groups, d);
    assert d in multiset(Firsts(groups));
    var k :| 0 <= k < |Firsts(groups)| && Firsts(groups)[k] == d;
    assert selected[k] == d;
  }

  lemma LeftOutBehind(groups: Groups, cap: Option<nat>, selected: seq<Pick>, usage: seq<nat>, sorted: seq<Pick>,
                      c: nat, d: Pick) returns (y: nat)
    requires multiset(sorted) == multiset(Others(groups, |groups|)) && c <= |sorted|
    requires |usage| == |groups| && forall g | 0 <= g < |groups| :: usage[g] == InGroup(selected, g)
    requires Firsts(groups) <= selected && SeenOrFull(sorted, c, selected, usage, cap)
    requires PassedOver(groups, cap, selected, d)
    ensures c <= y < |sorted| && sorted[y] == d
  {
    hide InGroup;
    if d.disk == 0 {
      FirstIsTaken(groups, selected, d);
      assert false;
    }
    OthersCount(groups, |groups|, d);
    assert d in multiset(sorted);
    y :| 0 <= y < |sorted| && sorted[y] == d;
  }

  lemma NothingSeen(groups: Groups, usage: seq<nat>, cap: Option<nat>, sorted: seq<Pick>)
    requires OneEach(groups, usage, |groups|) && (cap.None? || cap.value >= 1)
    ensures |usage| == |groups| && UsedUpTo(groups, usage, cap, sorted, 0)
  {
    assert sorted[..0] == [];
  }

  /** One more candidate is seen: it is taken exactly when its group is below the limit. */
  lemma SeenNext(groups: Groups, usage: seq<nat>, cap: Option<nat>, sorted: seq<Pick>, c: nat)
    requires |usage| == |groups| && c < |sorted| && UsedUpTo(groups, usage, cap, sorted, c)
    requires multiset(sorted) == multiset(Others(groups, |groups|)) && InGroups(groups, sorted[c])
    ensures var g := sorted[c].group;
            if cap.None? || usage[g] < cap.value
            then UsedUpTo(groups, usage[g := usage[g] + 1], cap, sorted, c + 1) && usage[g] < Capped(cap, |groups[g]|)
            else UsedUpTo(groups, usage, cap, sorted, c + 1)
  {
    var g := sorted[c].group;
    BelowSize(groups, sorted, c, g);
    hide InGroup, Others;
    forall h | 0 <= h < |groups| ensures InGroup(sorted[..c + 1], h) == InGroup(sorted[..c], h) + if g
           == h then 1 else 0 {
      CandidateCount(sorted, c, h);
    }
  }

  lemma SortedIn(groups: Groups, sorted: seq<Pick>)
    requires multiset(sorted) == multiset(Others(groups, |groups|))
    ensures forall c | 0 <= c < |sorted| :: InGroups(groups, sorted[c])
  {
    forall c | 0 <= c < |sorted| ensures InGroups(groups, sorted[c]) {
      OthersCount(groups, |groups|, sorted[c]);
      assert sorted[c] in multiset(sorted);
    }
  }

  lemma BelowSize(groups: Groups, sorted: seq<Pick>, c: nat, g: int)
    requires multiset(sorted) == multiset(Others(groups, |groups|)) && c < |sorted| && 0 <= g < |groups|
    ensures sorted[c].group == g ==> 1 + InGroup(sorted[..c], g) < |groups[g]|
  {
    OthersPerGroup(groups, |groups|, g);
    InGroupPermuted(sorted, Others(groups, |groups|), g);
    CandidateCount(sorted, c, g);
    assert sorted == sorted[..c + 1] + sorted[c + 1..];
    InGroupConcat(sorted[..c + 1], sorted[c + 1..], g);
  }

  lemma AllSeen(groups: Groups, usage: seq<nat>, cap: Option<nat>, sorted: seq<Pick>)
    requires |usage| == |groups| && UsedUpTo(groups, usage, cap, sorted, |sorted|)
    requires multiset(sorted) == multiset(Others(groups, |groups|))
    ensures forall g | 0 <= g < |groups| :: usage[g] == Capped(cap, |groups[g]|)
  {
    assert sorted[..|sorted|] == sorted;
    forall g | 0 <= g < |groups| ensures usage[g] == Capped(cap, |groups[g]|) {
      OthersPerGroup(groups, |groups|, g);
      InGroupPermuted(sorted, Others(groups, |groups|), g);
    }
  }

  lemma NoneTwice(groups: Groups, first: seq<Pick>, sorted: seq<Pick>, c: nat, selected: seq<Pick>)
    requires c <= |sorted| && first == Firsts(groups) && multiset(sorted) == multiset(Others(groups, |groups|))
    requires multiset(selected) <= multiset(first) + multiset(sorted[..c])
    ensures forall p :: multiset(selected)[p] <= 1
  {
    assert sorted == sorted[..c] + sorted[c..];
    forall p ensures multiset(selected)[p] <= 1 {
      FirstsCount(groups, p);
      OthersCount(groups, |groups|, p);
      assert multiset(sorted)[p] == multiset(sorted[..c])[p] + multiset(sorted[c..])[p];
    }
  }

  // ----------------------------------------------------------------- max-min

  /** As the query sorts them: drives of a group by size, groups by their largest drive; no empty group. */
  ghost predicate SortedGroups(groups: Groups) {
    && (forall g | 0 <= g < |groups| :: |groups[g]| > 0)
    && (forall g, i, j | 0 <= g < |groups| && 0 <= i < j < |groups[g]| :: groups[g][j] <= groups[g][i])
    && (forall g, h | 0 <= g < h < |groups| :: groups[h][0] <= groups[g][0])
  }

  ghost predicate OnePerGroup(groups: Groups, picks: seq<Pick>) {
    && (forall k | 0 <= k < |picks| :: InGroups(groups, picks[k]))
    && (forall k, l | 0 <= k < l < |picks| :: picks[k].group != picks[l].group)
  }

  lemma {:induction false} FirstsOfFull(groups: Groups)
    requires forall g | 0 <= g < |groups| :: |groups[g]| > 0
    ensures |Firsts(groups)| == |groups| && forall k | 0 <= k < |groups| :: Firsts(groups)[k] == Pick(k, 0)
    decreases |groups|
  {
    if groups != [] {
      FirstsOfFull(groups[..|groups| - 1]);
    }
  }

  lemma {:induction false} SomeFarGroup(groups: Groups, picks: seq<Pick>, n: nat) returns (k: nat)
    requires OnePerGroup(groups, picks) && |picks| > n
    ensures k < |picks| && picks[k].group >= n
    decreases n
  {
    if n == 0 {
      k := 0;
    } else if i :| 0 <= i < |picks| && picks[i].group == n - 1 {
      var rest := picks[..i] + picks[i + 1..];
      k := SomeFarGroup(groups, rest, n - 1);
      assert rest[k].group != n - 1;
      k := if k < i then k else k + 1;
    } else {
      k := SomeFarGroup(groups, picks, n - 1);
    }
  }

  /** With enough groups, no other choice of one drive per group has a larger smallest drive: the smallest
      drive selected is at least as large as some drive of any such choice. */
  lemma SelectionIsMaxMin(groups: Groups, needed: nat, others: seq<Pick>, m: nat)
    requires SortedGroups(groups) && 1 <= needed <= |groups| && m < needed
    requires OnePerGroup(groups, others) && |others| == needed
    ensures |Firsts(groups)| >= needed && OnePerGroup(groups, Firsts(groups)[..needed])
    ensures exists k ::
              0 <= k < needed && BlocksOfPick(groups, others[k]) <= BlocksOfPick(groups, Firsts(groups)[..needed][m])
  {
    FirstsOfFull(groups);
    var k := SomeFarGroup(groups, others, needed - 1);
    var p := others[k];
    assert InGroups(groups, p);
    assert groups[p.group][p.disk] <= groups[p.group][0];
    assert groups[p.group][0] <= groups[m][0];
  }
}
