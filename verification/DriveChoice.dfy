/** Choosing the drives of an erasure coded pRaid (`chooseDrivesForAllocation`): spread over the nodes, and
    found whenever the nodes have enough of them. */
module DriveChoice {
  import opened Ranges
  import opened Options
  import opened Selection
  import opened FaultTolerance

  /** A candidate drive, largest free range first; its protection domain matters when the volume has one. */
  datatype Candidate = Candidate(node: NodeID, blocks: nat, domain: Option<nat>)

  function NodesOfAll(cs: seq<Candidate>): (r: seq<NodeID>)
    ensures |r| == |cs| && forall k | 0 <= k < |r| :: r[k] == cs[k].node
  {
    seq(|cs|, k requires 0 <= k < |cs| => cs[k].node)
  }

  lemma NodesSnoc(cs: seq<Candidate>, c: Candidate, n: NodeID)
    ensures OnNode(NodesOfAll(cs + [c]), n) == OnNode(NodesOfAll(cs), n) + if c.node == n then 1 else 0
  {
    assert NodesOfAll(cs + [c])[..|cs|] == NodesOfAll(cs);
  }

  // ------------------------------------------------------- what there is to use

  /** Drives with free space on one node. */
  function DrivesOn(cs: seq<Candidate>, n: NodeID): nat {
    if cs == [] then 0
    else DrivesOn(cs[..|cs| - 1], n) + if cs[|cs| - 1].node == n && cs[|cs| - 1].blocks > 0 then 1 else 0
  }

  lemma DrivesSnoc(cs: seq<Candidate>, c: Candidate, n: NodeID)
    ensures DrivesOn(cs + [c], n) == DrivesOn(cs, n) + if c.node == n && c.blocks > 0 then 1 else 0
  {
    assert (cs + [c])[..|cs|] == cs;
  }

  /** How many drives one node may give when it has `k`. */
  function Allowed(cap: Option<nat>, k: nat): nat {
    if cap.Some? then Min(cap.value, k) else k
  }

  /** The drives with free space, counting no node beyond the cap: the sum over the nodes of `Allowed`. */
  function Usable(cs: seq<Candidate>, cap: Option<nat>): nat {
    if cs == [] then 0
    else
      var init, c := cs[..|cs| - 1], cs[|cs| - 1];
      Usable(init, cap) + if c.blocks > 0 && (cap.None? || DrivesOn(init, c.node) < cap.value) then 1 else 0
  }

  /** A choice with these counts per node has as many drives as there are to use. */
  ghost predicate TakesAtMost(nodes: seq<NodeID>, cs: seq<Candidate>, cap: Option<nat>) {
    forall n :: OnNode(nodes, n) <= Allowed(cap, DrivesOn(cs, n))
  }

  ghost predicate TakesAll(nodes: seq<NodeID>, cs: seq<Candidate>, cap: Option<nat>) {
    forall n :: OnNode(nodes, n) == Allowed(cap, DrivesOn(cs, n))
  }

  lemma {:induction false} Somewhere(nodes: seq<NodeID>, n: NodeID) returns (k: nat)
    requires OnNode(nodes, n) >= 1
    ensures k < |nodes| && nodes[k] == n
    decreases |nodes|
  {
    var last := |nodes| - 1;
    if nodes[last] == n {
      k := last;
    } else {
      k := Somewhere(nodes[..last], n);
    }
  }

  lemma {:induction false} UsableCounts(nodes: seq<NodeID>, cs: seq<Candidate>, cap: Option<nat>)
    requires TakesAtMost(nodes, cs, cap)
    ensures |nodes| <= Usable(cs, cap)
    ensures TakesAll(nodes, cs, cap) ==> |nodes| == Usable(cs, cap)
    decreases |cs|
  {
    if cs == [] {
      assert nodes != [] ==> OnNode(nodes, nodes[|nodes| - 1]) >= 1;
    } else {
      var init, c := cs[..|cs| - 1], cs[|cs| - 1];
      var counted := c.blocks > 0 && (cap.None? || DrivesOn(init, c.node) < cap.value);
      forall n ensures Allowed(cap, DrivesOn(cs, n)) == Allowed(cap, DrivesOn(init, n)) + if n == c.node
             && counted then 1 else 0 {
      }
      if counted && OnNode(nodes, c.node) > Allowed(cap, DrivesOn(init, c.node)) {
        var k := Somewhere(nodes, c.node);
        var rest := WithoutAt(nodes, k);
        forall n ensures OnNode(nodes, n) == OnNode(rest, n) + if c.node == n then 1 else 0 {
          AtPlace(nodes, k, c.node, n);
        }
        UsableCounts(rest, init, cap);
      } else {
        assert OnNode(nodes, c.node) <= Allowed(cap, DrivesOn(init, c.node));
        UsableCounts(nodes, init, cap);
        if counted {
          assert OnNode(nodes, c.node) != Allowed(cap, DrivesOn(cs, c.node));
        }
      }
    }
  }

  lemma {:induction false} PrefixHasLess(cs: seq<Candidate>, i: nat, n: NodeID)
    requires i <= |cs|
    ensures DrivesOn(cs[..i], n) <= DrivesOn(cs, n)
    decreases |cs|
  {
    if i < |cs| {
      PrefixHasLess(cs[..|cs| - 1], i, n);
      assert cs[..|cs| - 1][..i] == cs[..i];
    } else {
      assert cs[..i] == cs;
    }
  }

  // ------------------------------------------------------- what the passes reach

  /** With a domain only drives whose domain is known count. */
  predicate IsKnown(c: Candidate, hasDomain: bool) {
    hasDomain ==> c.domain.Some?
  }

  /** Two drives on one node, or in one domain of a volume that has one. */
  predicate Conflicts(c: Candidate, d: Candidate, hasDomain: bool) {
    c.node == d.node || (hasDomain && c.domain == d.domain)
  }

  /** A drive the first pass takes after those in `taken`. */
  predicate Joins(taken: seq<Candidate>, c: Candidate, hasDomain: bool) {
    c.blocks > 0 && IsKnown(c, hasDomain) && forall k | 0 <= k < |taken| :: !Conflicts(taken[k], c, hasDomain)
  }

  /** The drives the first pass takes when it is not stopped. */
  function FirstTaken(cs: seq<Candidate>, hasDomain: bool): seq<Candidate> {
    if cs == [] then []
    else
      var taken, c := FirstTaken(cs[..|cs| - 1], hasDomain), cs[|cs| - 1];
      if Joins(taken, c, hasDomain) then taken + [c] else taken
  }

  predicate OnNodes(taken: seq<Candidate>, n: NodeID) {
    OnNode(NodesOfAll(taken), n) >= 1
  }

  /** The drives both passes together may take: known ones and, where a node has a cap, on the nodes of the first
      pass. A drive whose domain kept it out of the first pass on a node of its own is lost. */
  predicate InReach(c: Candidate, taken: seq<Candidate>, hasDomain: bool, cap: Option<nat>) {
    IsKnown(c, hasDomain) && (cap.Some? ==> OnNodes(taken, c.node))
  }

  function Reached(cs: seq<Candidate>, taken: seq<Candidate>, hasDomain: bool, cap: Option<nat>): seq<Candidate> {
    if cs == [] then []
    else
      Reached(cs[..|cs| - 1], taken, hasDomain, cap)
      + if InReach(cs[|cs| - 1], taken, hasDomain, cap) then [cs[|cs| - 1]] else []
  }

  /** How many drives the two passes find, at most: those in reach, counting no node beyond the cap. */
  function Findable(cs: seq<Candidate>, hasDomain: bool, cap: Option<nat>): nat {
    Usable(Reached(cs, FirstTaken(cs, hasDomain), hasDomain, cap), cap)
  }

  lemma ReachedSnoc(cs: seq<Candidate>, c: Candidate, taken: seq<Candidate>, hasDomain: bool, cap: Option<nat>)
    ensures Reached(cs + [c], taken, hasDomain, cap)
         == Reached(cs, taken, hasDomain, cap) + if InReach(c, taken, hasDomain, cap) then [c] else []
  {
    assert (cs + [c])[..|cs|] == cs;
  }

  lemma FirstTakenSnoc(cs: seq<Candidate>, c: Candidate, hasDomain: bool)
    ensures FirstTaken(cs + [c], hasDomain)
         == var taken := FirstTaken(cs, hasDomain); if Joins(taken, c, hasDomain) then taken + [c] else taken
  {
    assert (cs + [c])[..|cs|] == cs;
  }

  /** What is in reach on a node: all its known drives, unless the first pass took none there. */
  lemma {:induction false} ReachedOn(cs: seq<Candidate>, taken: seq<Candidate>, hasDomain: bool, cap: Option<nat>,
                                     n: NodeID)
    ensures DrivesOn(Reached(cs, taken, hasDomain, cap), n)
         == if cap.Some? && !OnNodes(taken, n) then 0 else DrivesOn(Reached(cs, taken, hasDomain, None), n)
    decreases |cs|
  {
    if cs != [] {
      var init, c := cs[..|cs| - 1], cs[|cs| - 1];
      ReachedOn(init, taken, hasDomain, cap, n);
      DrivesSnoc(Reached(init, taken, hasDomain, cap), c, n);
      DrivesSnoc(Reached(init, taken, hasDomain, None), c, n);
      NothingBehind(Reached(init, taken, hasDomain, cap));
      NothingBehind(Reached(init, taken, hasDomain, None));
    }
  }

  lemma NothingBehind(cs: seq<Candidate>)
    ensures cs + [] == cs
  {
  }

  /** Drives that could be used and do not conflict. */
  ghost predicate Apart(taken: seq<Candidate>, hasDomain: bool) {
    && (forall k | 0 <= k < |taken| :: taken[k].blocks > 0 && IsKnown(taken[k], hasDomain))
    && (forall k, l | 0 <= k < l < |taken| :: !Conflicts(taken[k], taken[l], hasDomain))
  }

  /** None of the drives can be added to those taken. */
  ghost predicate NoneJoins(taken: seq<Candidate>, cs: seq<Candidate>, hasDomain: bool) {
    forall i | 0 <= i < |cs| :: !Joins(taken, cs[i], hasDomain)
  }

  /** The first pass takes drives that do not conflict, and none that could be used can be added to them. */
  lemma {:induction false} FirstTakenIsMaximal(cs: seq<Candidate>, hasDomain: bool)
    ensures var taken := FirstTaken(cs, hasDomain); Apart(taken, hasDomain) && NoneJoins(taken, cs, hasDomain)
    decreases |cs|
  {
    if cs != [] {
      hide *;
      var init, c := cs[..|cs| - 1], cs[|cs| - 1];
      assert init + [c] == cs;
      FirstTakenIsMaximal(init, hasDomain);
      FirstTakenSnoc(init, c, hasDomain);
      NextIsMaximal(FirstTaken(init, hasDomain), init, c, hasDomain);
    }
  }

  lemma NextIsMaximal(before: seq<Candidate>, init: seq<Candidate>, c: Candidate, hasDomain: bool)
    requires Apart(before, hasDomain) && NoneJoins(before, init, hasDomain)
    ensures var taken := if Joins(before, c, hasDomain) then before + [c] else before;
            Apart(taken, hasDomain) && NoneJoins(taken, init + [c], hasDomain)
  {
    var taken := if Joins(before, c, hasDomain) then before + [c] else before;
    forall i | 0 <= i < |init + [c]| ensures !Joins(taken, (init + [c])[i], hasDomain) {
      if i < |init| {
        StaysOut(before, taken, init[i], hasDomain);
      } else if Joins(before, c, hasDomain) {
        assert Conflicts(taken[|before|], c, hasDomain);
      }
    }
  }

  lemma StaysOut(before: seq<Candidate>, taken: seq<Candidate>, d: Candidate, hasDomain: bool)
    requires before <= taken && !Joins(before, d, hasDomain)
    ensures !Joins(taken, d, hasDomain)
  {
    if d.blocks > 0 && IsKnown(d, hasDomain) {
      var k :| 0 <= k < |before| && Conflicts(before[k], d, hasDomain);
      assert taken[k] == before[k];
    }
  }

  /** As the query sorts them. */
  ghost predicate LargestFirst(cs: seq<Candidate>) {
    forall i, j | 0 <= i < j < |cs| :: cs[i].blocks >= cs[j].blocks
  }

  /** A drive taken conflicts with this one and is at least as large. */
  ghost predicate OutTaken(taken: seq<Candidate>, c: Candidate, hasDomain: bool) {
    exists k :: 0 <= k < |taken| && Conflicts(taken[k], c, hasDomain) && taken[k].blocks >= c.blocks
  }

  lemma {:induction false} FirstTakenFrom(cs: seq<Candidate>, hasDomain: bool)
    ensures forall k | 0 <= k < |FirstTaken(cs, hasDomain)| :: FirstTaken(cs, hasDomain)[k] in cs
    decreases |cs|
  {
    if cs != [] {
      var n := |cs| - 1;
      FirstTakenFrom(cs[..n], hasDomain);
      assert forall c | c in cs[..n] :: c in cs;
    }
  }

  /** The first pass prefers larger drives: whatever it leaves out had to make way for a drive at least as large. */
  lemma {:induction false} FirstTakenIsLargest(cs: seq<Candidate>, hasDomain: bool, i: nat)
    requires LargestFirst(cs) && i < |cs| && cs[i].blocks > 0 && IsKnown(cs[i], hasDomain)
    ensures OutTaken(FirstTaken(cs, hasDomain), cs[i], hasDomain)
    decreases |cs|
  {
    var n := |cs| - 1;
    var before, taken := FirstTaken(cs[..n], hasDomain), FirstTaken(cs, hasDomain);
    assert before <= taken;
    if i < n {
      FirstTakenIsLargest(cs[..n], hasDomain, i);
      var k :| 0 <= k < |before| && Conflicts(before[k], cs[i], hasDomain) && before[k].blocks >= cs[i].blocks;
      assert taken[k] == before[k];
    } else if Joins(before, cs[n], hasDomain) {
      assert taken[|before|] == cs[n];
    } else {
      FirstTakenFrom(cs[..n], hasDomain);
      var k :| 0 <= k < |before| && Conflicts(before[k], cs[n], hasDomain);
      var x :| 0 <= x < n && cs[..n][x] == before[k];
      assert cs[x] == before[k] && taken[k] == before[k];
    }
  }

  /** A drive left out although it is in reach and its node may still give one. */
  ghost predicate PassedOver(cs: seq<Candidate>, hasDomain: bool, cap: Option<nat>, results: seq<Candidate>,
                             d: Candidate) {
    && d in cs && d.blocks > 0 && d !in results && InReach(d, FirstTaken(cs, hasDomain), hasDomain, cap)
    && (cap.Some? ==> OnNode(NodesOfAll(results), d.node) < cap.value)
  }

  /** No drive left out is larger than one taken behind the first `n`. */
  ghost predicate LargestTaken(cs: seq<Candidate>, hasDomain: bool, cap: Option<nat>, results: seq<Candidate>, n: nat) {
    forall d, m | PassedOver(cs, hasDomain, cap, results, d) && n <= m < |results| :: d.blocks <= results[m].blocks
  }

  lemma {:induction false} FirstTakenGrows(cs: seq<Candidate>, i: nat, hasDomain: bool)
    requires i <= |cs|
    ensures FirstTaken(cs[..i], hasDomain) <= FirstTaken(cs, hasDomain)
    decreases |cs|
  {
    if i < |cs| {
      FirstTakenGrows(cs[..|cs| - 1], i, hasDomain);
      assert cs[..|cs| - 1][..i] == cs[..i];
    } else {
      assert cs[..i] == cs;
    }
  }

  /** One drive per node, each of them in reach. */
  lemma {:induction false} FirstTakenOnNode(cs: seq<Candidate>, hasDomain: bool, n: NodeID)
    ensures OnNode(NodesOfAll(FirstTaken(cs, hasDomain)), n) <= 1
    ensures OnNode(NodesOfAll(FirstTaken(cs, hasDomain)), n) <= DrivesOn(Reached(cs, [], hasDomain, None), n)
    decreases |cs|
  {
    if cs != [] {
      var init, c := cs[..|cs| - 1], cs[|cs| - 1];
      FirstTakenOnNode(init, hasDomain, n);
      var taken := FirstTaken(init, hasDomain);
      NodesSnoc(taken, c, n);
      DrivesSnoc(Reached(init, [], hasDomain, None), c, n);
      NothingBehind(Reached(init, [], hasDomain, None));
      if c.node == n && OnNode(NodesOfAll(taken), n) >= 1 {
        var k := Somewhere(NodesOfAll(taken), n);
        assert Conflicts(taken[k], c, hasDomain);
      }
    }
  }

  lemma {:induction false} ReachedWithoutCap(cs: seq<Candidate>, a: seq<Candidate>, b: seq<Candidate>, hasDomain: bool)
    ensures Reached(cs, a, hasDomain, None) == Reached(cs, b, hasDomain, None)
    decreases |cs|
  {
    if cs != [] {
      ReachedWithoutCap(cs[..|cs| - 1], a, b, hasDomain);
    }
  }

  /** The drives of the first pass are among those both passes may take. */
  lemma FirstTakenInReach(cs: seq<Candidate>, i: nat, hasDomain: bool, cap: Option<nat>)
    requires i <= |cs| && (cap.Some? ==> cap.value >= 1)
    ensures TakesAtMost(NodesOfAll(FirstTaken(cs[..i], hasDomain)),
              Reached(cs, FirstTaken(cs, hasDomain), hasDomain, cap), cap)
  {
    var taken := FirstTaken(cs, hasDomain);
    FirstTakenGrows(cs, i, hasDomain);
    forall n ensures OnNode(NodesOfAll(FirstTaken(cs[..i], hasDomain)), n)
                  <= Allowed(cap, DrivesOn(Reached(cs, taken, hasDomain, cap), n))
    {
      PrefixNodes(FirstTaken(cs[..i], hasDomain), taken, n);
      FirstTakenOnNode(cs, hasDomain, n);
      ReachedOn(cs, taken, hasDomain, cap, n);
      ReachedWithoutCap(cs, [], taken, hasDomain);
    }
  }

  lemma {:induction false} PrefixNodes(a: seq<Candidate>, b: seq<Candidate>, n: NodeID)
    requires a <= b
    ensures OnNode(NodesOfAll(a), n) <= OnNode(NodesOfAll(b), n)
    decreases |b|
  {
    if |a| < |b| {
      var init, c := b[..|b| - 1], b[|b| - 1];
      PrefixNodes(a, init, n);
      NodesSnoc(init, c, n);
      assert init + [c] == b;
    } else {
      assert a == b;
    }
  }

  /** Without a domain every drive with free space is in reach. */
  lemma {:induction false} AllInReach(cs: seq<Candidate>, taken: seq<Candidate>, cap: Option<nat>)
    requires forall c | c in cs && c.blocks > 0 :: OnNodes(taken, c.node)
    ensures forall n :: DrivesOn(Reached(cs, taken, false, cap), n) == DrivesOn(cs, n)
    ensures Usable(Reached(cs, taken, false, cap), cap) == Usable(cs, cap)
    decreases |cs|
  {
    if cs != [] {
      var init, c := cs[..|cs| - 1], cs[|cs| - 1];
      AllInReach(init, taken, cap);
      var r := Reached(init, taken, false, cap);
      NothingBehind(r);
      assert (r + [c])[..|r|] == r;
      assert c in cs;
      forall n ensures DrivesOn(Reached(cs, taken, false, cap), n) == DrivesOn(cs, n) {
        DrivesSnoc(r, c, n);
      }
    }
  }

  lemma {:induction false} HasOnNode(cs: seq<Candidate>, k: nat)
    requires k < |cs|
    ensures OnNodes(cs, cs[k].node)
    decreases |cs|
  {
    var init, c := cs[..|cs| - 1], cs[|cs| - 1];
    NodesSnoc(init, c, cs[k].node);
    assert init + [c] == cs;
    if k < |init| {
      HasOnNode(init, k);
    }
  }

  /** Without a domain the drives are found exactly when the nodes have enough of them. */
  lemma FindableWithoutDomain(cs: seq<Candidate>, cap: Option<nat>)
    ensures Findable(cs, false, cap) == Usable(cs, cap)
  {
    var taken := FirstTaken(cs, false);
    FirstTakenIsMaximal(cs, false);
    forall c | c in cs && c.blocks > 0 ensures OnNodes(taken, c.node) {
      var i :| 0 <= i < |cs| && cs[i] == c;
      assert !Joins(taken, cs[i], false);
      var k :| 0 <= k < |taken| && Conflicts(taken[k], c, false);
      HasOnNode(taken, k);
    }
    AllInReach(cs, taken, cap);
  }

  /** Where each node may give one drive, what counts is how many the first pass takes. */
  lemma FindableApart(cs: seq<Candidate>, hasDomain: bool)
    ensures Findable(cs, hasDomain, Some(1)) == |FirstTaken(cs, hasDomain)|
  {
    var taken := FirstTaken(cs, hasDomain);
    var reached := Reached(cs, taken, hasDomain, Some(1));
    FirstTakenInReach(cs, |cs|, hasDomain, Some(1));
    assert cs[..|cs|] == cs;
    forall n ensures OnNode(NodesOfAll(taken), n) == Allowed(Some(1), DrivesOn(reached, n)) {
      ReachedOn(cs, taken, hasDomain, Some(1), n);
      FirstTakenOnNode(cs, hasDomain, n);
    }
    UsableCounts(NodesOfAll(taken), reached, Some(1));
  }

  const FIRST := Candidate(0, 9, Some(0))
  const SAME_NODE := Candidate(0, 8, Some(1))
  const SAME_DOMAIN := Candidate(1, 7, Some(0))

  /** With a domain it may miss a choice: the largest drive shares its node with one of the others and its domain
      with the other, which would do together. */
  lemma ChoiceIsMissed()
    ensures Findable([FIRST, SAME_NODE, SAME_DOMAIN], true, Some(1)) == 1
    ensures Apart([SAME_NODE, SAME_DOMAIN], true)
  {
    OnlyFirst();
    FindableApart([FIRST, SAME_NODE, SAME_DOMAIN], true);
    hide Findable, FirstTaken;
  }

  lemma OnlyFirst()
    ensures FirstTaken([FIRST, SAME_NODE, SAME_DOMAIN], true) == [FIRST]
  {
    FirstTakenSnoc([], FIRST, true);
    FirstTakenSnoc([FIRST], SAME_NODE, true);
    FirstTakenSnoc([FIRST, SAME_NODE], SAME_DOMAIN, true);
    hide FirstTaken;
    assert [] + [FIRST] == [FIRST] && [FIRST] + [SAME_NODE] == [FIRST, SAME_NODE];
    assert [FIRST, SAME_NODE] + [SAME_DOMAIN] == [FIRST, SAME_NODE, SAME_DOMAIN];
    NothingYet();
    assert Joins([], FIRST, true);
    assert Conflicts([FIRST][0], SAME_NODE, true) && Conflicts([FIRST][0], SAME_DOMAIN, true);
  }

  lemma NothingYet()
    ensures FirstTaken([], true) == []
  {
  }

  // -------------------------------------------------------------- the choice

  function Lookup(m: map<NodeID, nat>, n: NodeID): nat {
    if n in m then m[n] else 0
  }

  ghost predicate CountsNodes(inUse: map<NodeID, nat>, cs: seq<Candidate>) {
    forall n :: Lookup(inUse, n) == OnNode(NodesOfAll(cs), n)
  }

  /** The most drives one node may give: a volume without an explicit level gets one, like full protection. */
  function CapOf(level: Option<Protection>, parity: nat): Option<nat> {
    match level
    case Some(Ignore) => None
    case Some(Minimal) => Some(parity)
    case _ => Some(1)
  }

  /** The drives of the results and of the store are the known ones of the cursor so far. */
  ghost predicate Sorted(seen: seq<Candidate>, results: seq<Candidate>, store: seq<Candidate>, hasDomain: bool) {
    && results == FirstTaken(seen, hasDomain)
    && (forall n :: OnNode(NodesOfAll(results), n) + DrivesOn(store, n)
               == DrivesOn(Reached(seen, [], hasDomain, None), n))
  }

  lemma StoreMore(seen: seq<Candidate>, results: seq<Candidate>, store: seq<Candidate>, c: Candidate, hasDomain: bool)
    requires Sorted(seen, results, store, hasDomain) && IsKnown(c, hasDomain)
    requires exists k :: 0 <= k < |results| && Conflicts(results[k], c, hasDomain)
    ensures Sorted(seen + [c], results, store + [c], hasDomain)
  {
    FirstTakenSnoc(seen, c, hasDomain);
    ReachedSnoc(seen, c, [], hasDomain, None);
    forall n ensures OnNode(NodesOfAll(results), n) + DrivesOn(store + [c], n)
                  == DrivesOn(Reached(seen + [c], [], hasDomain, None), n)
    {
      DrivesSnoc(Reached(seen, [], hasDomain, None), c, n);
      DrivesSnoc(store, c, n);
    }
  }

  lemma TakeMore(seen: seq<Candidate>, results: seq<Candidate>, store: seq<Candidate>, c: Candidate, hasDomain: bool)
    requires Sorted(seen, results, store, hasDomain) && IsKnown(c, hasDomain)
    requires forall k | 0 <= k < |results| :: !Conflicts(results[k], c, hasDomain)
    ensures Sorted(seen + [c], if c.blocks > 0 then results + [c] else results, store, hasDomain)
  {
    FirstTakenSnoc(seen, c, hasDomain);
    ReachedSnoc(seen, c, [], hasDomain, None);
    forall n ensures DrivesOn(Reached(seen + [c], [], hasDomain, None), n)
                  == DrivesOn(Reached(seen, [], hasDomain, None), n) + if c.node == n && c.blocks > 0 then 1 else 0
             ensures OnNode(NodesOfAll(results + [c]), n)
                  == OnNode(NodesOfAll(results), n) + if c.node == n then 1 else 0
    {
      DrivesSnoc(Reached(seen, [], hasDomain, None), c, n);
      NodesSnoc(results, c, n);
    }
  }

  lemma SkipUnknown(seen: seq<Candidate>, results: seq<Candidate>, store: seq<Candidate>, c: Candidate,
                    hasDomain: bool)
    requires Sorted(seen, results, store, hasDomain) && !IsKnown(c, hasDomain)
    ensures Sorted(seen + [c], results, store, hasDomain)
  {
    FirstTakenSnoc(seen, c, hasDomain);
    ReachedSnoc(seen, c, [], hasDomain, None);
    NothingBehind(Reached(seen, [], hasDomain, None));
  }

  /** The nodes and domains in use are those of the results. */
  ghost predicate DomainsOf(domains: set<nat>, results: seq<Candidate>, hasDomain: bool) {
    hasDomain ==>
      && (forall k | 0 <= k < |results| :: results[k].domain.Some? && results[k].domain.value in domains)
      && (forall d | d in domains :: exists k :: 0 <= k < |results| && results[k].domain == Some(d))
  }

  /** The look-ups of the first pass tell whether a drive conflicts. */
  lemma LookupsTell(inUse: map<NodeID, nat>, domains: set<nat>, results: seq<Candidate>, c: Candidate, hasDomain: bool)
    requires CountsNodes(inUse, results) && DomainsOf(domains, results, hasDomain) && IsKnown(c, hasDomain)
    requires forall n | n in inUse :: inUse[n] >= 1
    ensures c.node in inUse || (hasDomain && c.domain.value in domains)
       <==> exists k :: 0 <= k < |results| && Conflicts(results[k], c, hasDomain)
  {
    if c.node in inUse {
      assert Lookup(inUse, c.node) >= 1;
      var k := Somewhere(NodesOfAll(results), c.node);
      assert Conflicts(results[k], c, hasDomain);
    }
    if k :| 0 <= k < |results| && Conflicts(results[k], c, hasDomain) {
      HasOnNode(results, k);
      assert Lookup(inUse, results[k].node) >= 1;
    }
  }

  method FirstPass(cursor: seq<Candidate>, drivesNeeded: nat, hasDomain: bool)
    returns (results: seq<Candidate>, store: seq<Candidate>, nodesInUse: map<NodeID, nat>, ghost seen: nat)
    requires drivesNeeded >= 1
    ensures |results| <= drivesNeeded && CountsNodes(nodesInUse, results)
    ensures forall n | n in nodesInUse :: nodesInUse[n] >= 1
    ensures forall c | c in results :: c in cursor && c.blocks > 0
    ensures forall c | c in store :: c in cursor
    ensures seen <= |cursor| && (|results| < drivesNeeded ==> seen == |cursor|)
    ensures Sorted(cursor[..seen], results, store, hasDomain)
    ensures StoreOrder(cursor[..seen], results, store, hasDomain) || !LargestFirst(cursor)
  {
    hide Sorted, Conflicts, StoreOrder, LargestFirst;
    results, store, nodesInUse := [], [], map[];
    var domainsInUse: set<nat> := {};
    var i := 0;
    NothingSorted(hasDomain);
    assert cursor[..0] == [];
    NothingStored(hasDomain);
    while i < |cursor| && |results| < drivesNeeded
      invariant 0 <= i <= |cursor| && |results| <= drivesNeeded
      invariant CountsNodes(nodesInUse, results) && DomainsOf(domainsInUse, results, hasDomain)
      invariant forall c | c in results :: c in cursor && c.blocks > 0
      invariant forall c | c in store :: c in cursor
      invariant forall n | n in nodesInUse :: nodesInUse[n] >= 1
      invariant Sorted(cursor[..i], results, store, hasDomain)
      invariant StoreOrder(cursor[..i], results, store, hasDomain) || !LargestFirst(cursor)
    {
      var diskObj := cursor[i];
      ghost var seenSoFar := cursor[..i];
      if LargestFirst(cursor) {
        StoreOrderNext(cursor, i, results, store, hasDomain);
      }
      assert cursor[..i + 1] == seenSoFar + [diskObj];
      i := i + 1;
      if hasDomain && diskObj.domain.None? {
        SkipUnknown(seenSoFar, results, store, diskObj, hasDomain);
        continue;
      }
      LookupsTell(nodesInUse, domainsInUse, results, diskObj, hasDomain);
      if diskObj.node in nodesInUse || (hasDomain && diskObj.domain.value in domainsInUse) {
        StoreMore(seenSoFar, results, store, diskObj, hasDomain);
        store := store + [diskObj];
      } else {
        TakeMore(seenSoFar, results, store, diskObj, hasDomain);
        if diskObj.blocks > 0 {
          DomainsMore(domainsInUse, results, diskObj, hasDomain);
          CountsMore(nodesInUse, results, diskObj);
          if hasDomain {
            domainsInUse := domainsInUse + {diskObj.domain.value};
          }
          nodesInUse := nodesInUse[diskObj.node := 1];
          results := results + [diskObj];
        }
      }
    }
    seen := i;
  }

  /** The store is in the order of the cursor, and holds every drive seen that could be used and was not taken. */
  ghost predicate StoreOrder(seen: seq<Candidate>, results: seq<Candidate>, store: seq<Candidate>, hasDomain: bool) {
    && LargestFirst(store) && (forall c | c in store :: c in seen)
    && (forall c | c in seen && c.blocks > 0 && IsKnown(c, hasDomain) :: c in results || c in store)
  }

  lemma NothingStored(hasDomain: bool)
    ensures StoreOrder([], [], [], hasDomain)
  {
  }

  lemma StoreOrderNext(cursor: seq<Candidate>, i: nat, results: seq<Candidate>, store: seq<Candidate>, hasDomain: bool)
    requires LargestFirst(cursor) && i < |cursor| && StoreOrder(cursor[..i], results, store, hasDomain)
    ensures var seen, c := cursor[..i + 1], cursor[i];
            && (!IsKnown(c, hasDomain) || c.blocks == 0 ==> StoreOrder(seen, results, store, hasDomain))
            && StoreOrder(seen, results, store + [c], hasDomain)
            && StoreOrder(seen, results + [c], store, hasDomain)
  {
    assert cursor[..i + 1] == cursor[..i] + [cursor[i]];
    forall k | 0 <= k < |store| ensures store[k].blocks >= cursor[i].blocks {
      assert store[k] in store;
      var x :| 0 <= x < i && cursor[..i][x] == store[k];
      assert cursor[x] == store[k];
    }
    assert forall k | 0 <= k < |results| :: results[k] == (results + [cursor[i]])[k];
  }

  lemma NothingSorted(hasDomain: bool)
    ensures Sorted([], [], [], hasDomain)
  {
  }

  lemma DomainsMore(domains: set<nat>, results: seq<Candidate>, c: Candidate, hasDomain: bool)
    requires DomainsOf(domains, results, hasDomain) && IsKnown(c, hasDomain)
    ensures hasDomain ==> DomainsOf(domains + {c.domain.value}, results + [c], hasDomain)
  {
    if hasDomain {
      var more := results + [c];
      forall d | d in domains + {c.domain.value} ensures exists k :: 0 <= k < |more| && more[k].domain == Some(d) {
        if d == c.domain.value {
          assert more[|results|].domain == Some(d);
        } else {
          var k :| 0 <= k < |results| && results[k].domain == Some(d);
          assert more[k].domain == Some(d);
        }
      }
    }
  }

  lemma CountsMore(inUse: map<NodeID, nat>, results: seq<Candidate>, c: Candidate)
    requires CountsNodes(inUse, results)
    ensures CountsNodes(inUse[c.node := Lookup(inUse, c.node) + 1], results + [c])
  {
    forall n ensures OnNode(NodesOfAll(results + [c]), n)
                  == OnNode(NodesOfAll(results), n) + if c.node == n then 1 else 0
    {
      NodesSnoc(results, c, n);
    }
  }

  /** What a node gives of `k` drives: nothing under a cap when the first pass took none there. */
  function Share(first: seq<Candidate>, cap: Option<nat>, n: NodeID, k: nat): nat {
    if cap.Some? && !OnNodes(first, n) then 0 else Allowed(cap, k)
  }

  /** What the second pass has taken from the first `i` drives put aside. */
  ghost predicate TakenSoFar(first: seq<Candidate>, store: seq<Candidate>, i: nat, results: seq<Candidate>,
                             cap: Option<nat>)
    requires i <= |store|
  {
    forall n :: OnNode(NodesOfAll(results), n)
             == Share(first, cap, n, OnNode(NodesOfAll(first), n) + DrivesOn(store[..i], n))
  }

  /** Whether the second pass takes a drive put aside. */
  ghost predicate Fits(first: seq<Candidate>, results: seq<Candidate>, e: Candidate, cap: Option<nat>) {
    && e.blocks > 0
    && (cap.Some? ==> OnNodes(first, e.node) && OnNode(NodesOfAll(results), e.node) < cap.value)
  }

  lemma TakenMore(first: seq<Candidate>, store: seq<Candidate>, i: nat, results: seq<Candidate>, cap: Option<nat>)
    requires i < |store| && TakenSoFar(first, store, i, results, cap)
    ensures TakenSoFar(first, store, i + 1,
              if Fits(first, results, store[i], cap) then results + [store[i]] else results, cap)
  {
    var e := store[i];
    assert store[..i + 1] == store[..i] + [e];
    forall n ensures DrivesOn(store[..i + 1], n)
                  == DrivesOn(store[..i], n) + if e.node == n && e.blocks > 0 then 1 else 0
             ensures OnNode(NodesOfAll(results + [e]), n)
                  == OnNode(NodesOfAll(results), n) + if e.node == n then 1 else 0
    {
      DrivesSnoc(store[..i], e, n);
      NodesSnoc(results, e, n);
    }
  }

  lemma NothingTaken(cursor: seq<Candidate>, first: seq<Candidate>, store: seq<Candidate>, hasDomain: bool,
                     cap: Option<nat>)
    requires Sorted(cursor, first, store, hasDomain) && (cap.Some? ==> cap.value >= 1)
    ensures TakenSoFar(first, store, 0, first, cap)
  {
    assert store[..0] == [];
    forall n ensures OnNode(NodesOfAll(first), n) <= 1 {
      FirstTakenOnNode(cursor, hasDomain, n);
    }
  }

  /** What is taken never exceeds what can be found, and meets it once the whole store is through. */
  lemma AllTaken(cursor: seq<Candidate>, first: seq<Candidate>, store: seq<Candidate>, i: nat, results: seq<Candidate>,
                 hasDomain: bool, cap: Option<nat>)
    requires Sorted(cursor, first, store, hasDomain) && i <= |store| && TakenSoFar(first, store, i, results, cap)
    ensures |results| <= Findable(cursor, hasDomain, cap)
    ensures i == |store| ==> |results| == Findable(cursor, hasDomain, cap)
  {
    var reached := Reached(cursor, first, hasDomain, cap);
    forall n ensures OnNode(NodesOfAll(results), n) <= Allowed(cap, DrivesOn(reached, n))
             ensures i == |store| ==> OnNode(NodesOfAll(results), n) == Allowed(cap, DrivesOn(reached, n))
    {
      PrefixHasLess(store, i, n);
      ReachedOn(cursor, first, hasDomain, cap, n);
      ReachedWithoutCap(cursor, [], first, hasDomain);
      if i == |store| {
        assert store[..i] == store;
      }
    }
    UsableCounts(NodesOfAll(results), reached, cap);
  }

  lemma FirstIsEnough(cursor: seq<Candidate>, seen: nat, hasDomain: bool, cap: Option<nat>)
    requires seen <= |cursor| && (cap.Some? ==> cap.value >= 1)
    ensures |FirstTaken(cursor[..seen], hasDomain)| <= Findable(cursor, hasDomain, cap)
  {
    FirstTakenInReach(cursor, seen, hasDomain, cap);
    UsableCounts(NodesOfAll(FirstTaken(cursor[..seen], hasDomain)),
      Reached(cursor, FirstTaken(cursor, hasDomain), hasDomain, cap), cap);
  }

  /** `chooseDrivesForAllocation`: one drive per node and domain in the first pass; in the second, what the
      protection level adds from the drives put aside. It finds the drives exactly when enough are in reach of the
      two passes; without a domain, exactly when the nodes have enough. */
  method ChooseDrivesForAllocation(cursor: seq<Candidate>, data: nat, parity: nat, level: Option<Protection>,
                                   hasDomain: bool)
    returns (results: seq<Candidate>)
    requires data >= 1 && parity >= 1
    ensures |results| == 0 || |results| == data + parity
    ensures forall c | c in results :: c in cursor && c.blocks > 0
    ensures results != [] ==> ChosenFor(SeparatedVolume(ErasureCoded(data, parity), level, false), NodesOfAll(results))
    ensures |results| == data + parity <==> Findable(cursor, hasDomain, CapOf(level, parity)) >= data + parity
    ensures !hasDomain ==> (|results| == data + parity <==> Usable(cursor, CapOf(level, parity)) >= data + parity)
    ensures results != [] ==>
              if |FirstTaken(cursor, hasDomain)| >= data + parity
              then results == FirstTaken(cursor, hasDomain)[..data + parity]
              else FirstTaken(cursor, hasDomain) <= results
    ensures results != [] && LargestFirst(cursor) && |FirstTaken(cursor, hasDomain)| < data + parity ==>
              LargestTaken(cursor, hasDomain, CapOf(level, parity), results, |FirstTaken(cursor, hasDomain)|)
  {
    hide Findable, Usable, Reached, Sorted, FirstTaken, CountsNodes, LargestTaken, LargestFirst, StoreOrder;
    var drivesNeeded := data + parity;
    ghost var cap := CapOf(level, parity);
    ghost var seen;
    var store: seq<Candidate>, nodesInUse: map<NodeID, nat>;
    results, store, nodesInUse, seen := FirstPass(cursor, drivesNeeded, hasDomain);
    SortedFirst(cursor, seen, results, store, hasDomain);
    FirstIsEnough(cursor, seen, hasDomain, cap);
    FirstTakenGrows(cursor, seen, hasDomain);
    FindableApart(cursor, hasDomain);
    if !hasDomain {
      FindableWithoutDomain(cursor, cap);
    }
    if |results| < drivesNeeded && level != Some(Full) {
      assert cursor[..|cursor|] == cursor;
      results := SecondPass(cursor, results, store, nodesInUse, drivesNeeded, parity, level, hasDomain);
    }
    if |results| < drivesNeeded {
      results := [];
    }
  }

  lemma SortedFirst(cursor: seq<Candidate>, seen: nat, results: seq<Candidate>, store: seq<Candidate>, hasDomain: bool)
    requires seen <= |cursor| && Sorted(cursor[..seen], results, store, hasDomain)
    ensures results == FirstTaken(cursor[..seen], hasDomain)
    ensures seen == |cursor| ==> results == FirstTaken(cursor, hasDomain)
    ensures forall n :: OnNode(NodesOfAll(results), n) <= 1
  {
    if seen == |cursor| {
      assert cursor[..seen] == cursor;
    }
    forall n ensures OnNode(NodesOfAll(results), n) <= 1 {
      FirstTakenOnNode(cursor[..seen], hasDomain, n);
    }
  }

  method SecondPass(cursor: seq<Candidate>, first: seq<Candidate>, store: seq<Candidate>, inUse: map<NodeID, nat>,
                    drivesNeeded: nat, parity: nat, level: Option<Protection>, hasDomain: bool)
    returns (results: seq<Candidate>)
    requires parity >= 1 && |first| < drivesNeeded && level != Some(Full)
    requires forall c | c in first :: c in cursor && c.blocks > 0
    requires forall c | c in store :: c in cursor
    requires CountsNodes(inUse, first) && (forall n | n in inUse :: inUse[n] >= 1)
             && forall n :: OnNode(NodesOfAll(first), n) <= 1
    requires Sorted(cursor, first, store, hasDomain)
    requires StoreOrder(cursor, first, store, hasDomain) || !LargestFirst(cursor)
    ensures |results| <= drivesNeeded && first <= results
    ensures LargestFirst(cursor) ==> LargestTaken(cursor, hasDomain, CapOf(level, parity), results, |first|)
    ensures forall c | c in results :: c in cursor && c.blocks > 0
    ensures level != Some(Ignore)
            ==> forall n :: OnNode(NodesOfAll(results), n) <= if level == Some(Minimal) then parity else 1
    ensures |results| <= Findable(cursor, hasDomain, CapOf(level, parity))
    ensures |results| < drivesNeeded ==> |results| == Findable(cursor, hasDomain, CapOf(level, parity))
  {
    hide Usable, Allowed, DrivesOn, OnNode, TakenSoFar, TakesAtMost, TakesAll, Sorted, Findable, SeenOrFull, TakenSeen,
         LargestTaken, LargestFirst, StoreOrder;
    var nodesInUse: map<NodeID, nat> := inUse;
    ghost var cap := CapOf(level, parity);
    results := first;
    NothingTaken(cursor, first, store, hasDomain, cap);
    NoneSeen(first, store, cap);
    var i := 0;
    while i < |store| && |results| < drivesNeeded
      invariant 0 <= i <= |store| && |results| <= drivesNeeded
      invariant forall c | c in results :: c in cursor && c.blocks > 0
      invariant CountsNodes(nodesInUse, results) && forall n | n in nodesInUse :: nodesInUse[n] >= 1
      invariant forall n :: OnNode(NodesOfAll(first), n) <= OnNode(NodesOfAll(results), n)
      invariant cap.Some? ==> forall n :: OnNode(NodesOfAll(results), n) >= 1 ==> OnNode(NodesOfAll(first), n) >= 1
      invariant level != Some(Ignore)
                ==> forall n :: OnNode(NodesOfAll(results), n) <= if level == Some(Minimal) then parity else 1
      invariant TakenSoFar(first, store, i, results, cap) && first <= results
      invariant SeenOrFull(first, store, i, results, cap) && TakenSeen(store, i, results, |first|)
    {
      var e := store[i];
      assert e in store;
      TakenMore(first, store, i, results, cap);
      OneMoreSeen(first, store, i, results, cap);
      assert Lookup(nodesInUse, e.node) == OnNode(NodesOfAll(results), e.node);
      i := i + 1;
      if (level == Some(Ignore) || (level == Some(Minimal) && e.node in nodesInUse
         && nodesInUse[e.node] < parity)) && e.blocks > 0 {
        assert Fits(first, results, e, cap);
        forall n ensures OnNode(NodesOfAll(results + [e]), n) == OnNode(NodesOfAll(results), n) + if e.node
               == n then 1 else 0 {
          NodesSnoc(results, e, n);
        }
        CountsMore(nodesInUse, results, e);
        results := results + [e];
        nodesInUse := nodesInUse[e.node := Lookup(nodesInUse, e.node) + 1];
      } else {
        assert !Fits(first, results, e, cap);
      }
    }
    AllTaken(cursor, first, store, i, results, hasDomain, cap);
    if LargestFirst(cursor) {
      NoneLarger(cursor, first, store, i, results, hasDomain, cap);
    }
  }

  /** Every drive of the store seen so far was taken, or could not be. */
  ghost predicate SeenOrFull(first: seq<Candidate>, store: seq<Candidate>, i: nat, results: seq<Candidate>,
                             cap: Option<nat>) {
    forall x | 0 <= x < i && x < |store| :: store[x] in results || !Fits(first, results, store[x], cap)
  }

  /** What was taken behind the first `n` was seen in the store. */
  ghost predicate TakenSeen(store: seq<Candidate>, i: nat, results: seq<Candidate>, n: nat) {
    forall m | n <= m < |results| :: exists x :: 0 <= x < i && x < |store| && store[x] == results[m]
  }

  lemma NoneSeen(first: seq<Candidate>, store: seq<Candidate>, cap: Option<nat>)
    ensures SeenOrFull(first, store, 0, first, cap) && TakenSeen(store, 0, first, |first|)
  {
  }

  lemma OneMoreSeen(first: seq<Candidate>, store: seq<Candidate>, i: nat, results: seq<Candidate>, cap: Option<nat>)
    requires i < |store| && SeenOrFull(first, store, i, results, cap) && TakenSeen(store, i, results, |first|)
    ensures if Fits(first, results, store[i], cap)
            then
              && SeenOrFull(first, store, i + 1, results + [store[i]], cap)
              && TakenSeen(store, i + 1, results + [store[i]], |first|)
            else SeenOrFull(first, store, i + 1, results, cap) && TakenSeen(store, i + 1, results, |first|)
  {
    hide OnNode;
    var e, more := store[i], results + [store[i]];
    assert more[|results|] == e;
    assert forall c | c in results :: c in more;
    forall x | 0 <= x < i && !Fits(first, results, store[x], cap) ensures !Fits(first, more, store[x], cap) {
      NodesSnoc(results, e, store[x].node);
    }
    forall m | |first| <= m < |results| ensures exists x :: 0 <= x < i && store[x] == results[m] {
      var x :| 0 <= x < i && x < |store| && store[x] == results[m];
    }
  }

  lemma InPrefix(first: seq<Candidate>, results: seq<Candidate>, d: Candidate)
    requires first <= results
    ensures d in first ==> d in results
  {
    if d in first {
      var k :| 0 <= k < |first| && first[k] == d;
      assert results[k] == d;
    }
  }

  /** The store comes largest first, so whatever is left out and could still be taken comes behind what was taken. */
  lemma NoneLarger(cursor: seq<Candidate>, first: seq<Candidate>, store: seq<Candidate>, i: nat,
                   results: seq<Candidate>, hasDomain: bool, cap: Option<nat>)
    requires Sorted(cursor, first, store, hasDomain) && StoreOrder(cursor, first, store, hasDomain) && i <= |store|
    requires first <= results && SeenOrFull(first, store, i, results, cap) && TakenSeen(store, i, results, |first|)
    ensures LargestTaken(cursor, hasDomain, cap, results, |first|)
  {
    hide OnNode, FirstTaken;
    forall d, m | PassedOver(cursor, hasDomain, cap, results, d) && |first| <= m < |results|
      ensures d.blocks <= results[m].blocks
    {
      InPrefix(first, results, d);
      var y :| 0 <= y < |store| && store[y] == d;
      assert Fits(first, results, d, cap);
      var x :| 0 <= x < i && x < |store| && store[x] == results[m];
    }
  }
}
