/** The apply phase of a reclaim on one drive. Every segment that still carries a `pendingReclaim` flag
    holds all that is needed to finish it, so the flags can be worked off in any order. */
module Redo {
  import opened Ranges
  import opened Drives

  predicate Flagged(s: Segment) { !s.pendingReclaim.Idle? }

  ghost function FlaggedIn(d: DriveDoc): set<Uuid> {
    set u | u in d.segs && Flagged(d.segs[u])
  }

  /** One step of the apply phase, or of a recovery: finish what the flag of segment `u` asks for. */
  function Apply(d: DriveDoc, u: Uuid): DriveDoc
    requires u in d.segs && Flagged(d.segs[u])
  {
    match d.segs[u].pendingReclaim
    case Removal => ReclaimRemoved(d, d.segs[u])
    case Replace(replacements, freedBlocks) => ReclaimReplaced(d, u, replacements, freedBlocks)
  }

  /** What the flag of a segment may ask for. */
  ghost predicate ReadyItem(d: DriveDoc, u: Uuid)
    requires u in d.segs
  {
    var s := d.segs[u];
    match s.pendingReclaim
    case Idle => true
    case Removal => s.isReserved && !s.OneBlock() && s.uuid == u && Removable(d, u)
    case Replace(replacements, freedBlocks) =>
      && !s.OneBlock() && NoOneBlocks(replacements)
      && FitsUsed(d, u, replacements, CoveredBlocks(Spans(replacements)))
      && freedBlocks == s.Span().Blocks() - |CoveredBlocks(Spans(replacements))|
      && (forall i | 0 <= i < |replacements| :: !Flagged(replacements[i]))
  }

  function RepsOf(s: Segment): seq<Segment> {
    match s.pendingReclaim
    case Replace(replacements, _) => replacements
    case _ => []
  }

  ghost predicate NamesApart(s: Segment, t: Segment) {
    forall i, j | 0 <= i < |RepsOf(s)| && 0 <= j < |RepsOf(t)| :: RepsOf(s)[i].uuid != RepsOf(t)[j].uuid
  }

  /** The replacements of two flagged segments never share a uuid. */
  ghost predicate FreshNames(d: DriveDoc) {
    forall u, v | u in d.segs && v in d.segs && u != v :: NamesApart(d.segs[u], d.segs[v])
  }

  ghost predicate Ready(d: DriveDoc) {
    ValidDoc(d) && FreshNames(d) && forall u | u in d.segs :: ReadyItem(d, u)
  }

  // ------------------------------------------------------- one step of redo

  lemma ApplyKeepsValid(d: DriveDoc, u: Uuid)
    requires Ready(d) && u in d.segs && Flagged(d.segs[u])
    ensures ValidDoc(Apply(d, u))
  {
    hide Layout, Accounted, FreshNames, FitsUsed, IsRuns;
    assert ReadyItem(d, u);
    match d.segs[u].pendingReclaim
    case Removal => ReclaimRemovalKeepsValid(d, u);
    case Replace(replacements, freedBlocks) =>
      ReplaceKeepsValid(d, u, replacements, CoveredBlocks(Spans(replacements)), freedBlocks);
  }

  lemma RepsAreNew(d: DriveDoc, u: Uuid)
    requires u in d.segs && ReadyItem(d, u)
    ensures DistinctIds(RepsOf(d.segs[u]))
    ensures forall i | 0 <= i < |RepsOf(d.segs[u])| ::
              var r := RepsOf(d.segs[u])[i]; r.uuid !in d.segs && !Flagged(r) && r.isReserved && !r.fromReserved
  {
  }

  /** The shape of a step: the finished segment goes, its replacements come, the others are retagged. */
  lemma ApplyShape(d: DriveDoc, u: Uuid)
    requires u in d.segs && Flagged(d.segs[u]) && ReadyItem(d, u)
    ensures var e, reps := Apply(d, u), RepsOf(d.segs[u]);
            && (forall v :: v in e.segs <==> (v in d.segs && v != u) || v in ById(reps))
            && (forall v | v in d.segs && v != u :: e.segs[v] == Retag(d.segs[v], reps))
            && (forall v | v in ById(reps) :: e.segs[v] == ById(reps)[v])
  {
    RepsAreNew(d, u);
    hide ReadyItem, IsRuns;
    match d.segs[u].pendingReclaim
    case Removal =>
    case Replace(replacements, freedBlocks) =>
      ReplacedSegments(d, u, replacements, freedBlocks);
  }

  /** What a step leaves of the others: they stay, and at most the reservation a derived one names changes. */
  lemma ApplyOthers(d: DriveDoc, u: Uuid, v: Uuid)
    requires u in d.segs && Flagged(d.segs[u]) && ReadyItem(d, u)
    requires v in d.segs && v != u
    ensures v in Apply(d, u).segs
    ensures Apply(d, u).segs[v] == Retag(d.segs[v], RepsOf(d.segs[u]))
    ensures Apply(d, u).segs[v] == d.segs[v].(reservedUUID := Apply(d, u).segs[v].reservedUUID)
  {
    hide ReadyItem, IsRuns;
    ApplyShape(d, u);
    RetagKeepsSpan(d.segs[v], RepsOf(d.segs[u]));
  }

  /** The only segments a step adds are the replacements of the segment it finishes. */
  lemma ApplyNew(d: DriveDoc, u: Uuid, v: Uuid)
    requires u in d.segs && Flagged(d.segs[u]) && ReadyItem(d, u)
    requires v in Apply(d, u).segs
    ensures (v in d.segs && v != u)
         || (v !in d.segs && !Apply(d, u).segs[v].fromReserved && !Flagged(Apply(d, u).segs[v])
             && exists i :: 0 <= i < |RepsOf(d.segs[u])| && RepsOf(d.segs[u])[i].uuid == v
                         && Apply(d, u).segs[v] == RepsOf(d.segs[u])[i])
  {
    hide ReadyItem, IsRuns;
    ApplyShape(d, u);
    RepsAreNew(d, u);
    var reps := RepsOf(d.segs[u]);
    if v in ById(reps) {
      var i :| 0 <= i < |reps| && reps[i].uuid == v;
      ByIdPicks(reps, i);
    }
  }

  lemma ApplyAdds(d: DriveDoc, u: Uuid, i: int)
    requires u in d.segs && Flagged(d.segs[u]) && ReadyItem(d, u) && 0 <= i < |RepsOf(d.segs[u])|
    ensures RepsOf(d.segs[u])[i].uuid in Apply(d, u).segs
    ensures Apply(d, u).segs[RepsOf(d.segs[u])[i].uuid] == RepsOf(d.segs[u])[i]
  {
    hide ReadyItem, IsRuns;
    ApplyShape(d, u);
    RepsAreNew(d, u);
    ByIdPicks(RepsOf(d.segs[u]), i);
  }

  /** A finished segment is gone. */
  lemma ApplyDrops(d: DriveDoc, u: Uuid)
    requires u in d.segs && Flagged(d.segs[u]) && ReadyItem(d, u)
    ensures u !in Apply(d, u).segs
  {
    hide ReadyItem, IsRuns;
    ApplyShape(d, u);
    RepsAreNew(d, u);
  }

  lemma ItemTransfers(d: DriveDoc, e: DriveDoc, v: Uuid)
    requires v in d.segs && ReadyItem(d, v) && v in e.segs
    requires e.segs[v] == d.segs[v].(reservedUUID := e.segs[v].reservedUUID)
    requires forall w | w in e.segs && e.segs[w].fromReserved && e.segs[w].reservedUUID == v ::
               w in d.segs && d.segs[w].fromReserved && d.segs[w].reservedUUID == v
                   && e.segs[w].Span() == d.segs[w].Span()
    requires forall i | 0 <= i < |RepsOf(d.segs[v])| :: RepsOf(d.segs[v])[i].uuid !in e.segs
    ensures ReadyItem(e, v)
  {
    hide IsRuns, NoOneBlocks, CoveredBlocks;
    match d.segs[v].pendingReclaim
    case Idle =>
    case Removal =>
    case Replace(replacements, freedBlocks) =>
      assert RepsOf(d.segs[v]) == replacements;
      FitTransfers(d, e, v, replacements, CoveredBlocks(Spans(replacements)));
      hide FitsUsed;
  }

  lemma FitTransfers(d: DriveDoc, e: DriveDoc, v: Uuid, replacements: seq<Segment>, used: set<int>)
    requires FitsUsed(d, v, replacements, used) && v in e.segs
    requires e.segs[v].isReserved && e.segs[v].Span() == d.segs[v].Span()
    requires forall w | w in e.segs && e.segs[w].fromReserved && e.segs[w].reservedUUID == v ::
               w in d.segs && d.segs[w].fromReserved && d.segs[w].reservedUUID == v
                   && e.segs[w].Span() == d.segs[w].Span()
    requires forall i | 0 <= i < |replacements| :: replacements[i].uuid !in e.segs
    ensures FitsUsed(e, v, replacements, used)
  {
    hide IsRuns;
    forall w | w in e.segs && e.segs[w].fromReserved && e.segs[w].reservedUUID == v
      ensures BlocksOf(e.segs[w].Span()) <= used
    {
      assert d.segs[w].fromReserved && d.segs[w].reservedUUID == v;
    }
  }

  /** The flag of another segment asks for the same thing before and after. */
  lemma ApplyKeepsItem(d: DriveDoc, u: Uuid, v: Uuid)
    requires u in d.segs && Flagged(d.segs[u]) && ReadyItem(d, u)
    requires v in Apply(d, u).segs && (v in d.segs && v != u ==> ReadyItem(d, v) && NamesApart(d.segs[u], d.segs[v]))
    ensures ReadyItem(Apply(d, u), v)
  {
    ApplyNew(d, u, v);
    if v in d.segs && v != u {
      hide ReadyItem, NamesApart, Apply;
      ApplyOthers(d, u, v);
      forall w | w in Apply(d, u).segs && Apply(d, u).segs[w].fromReserved && Apply(d, u).segs[w].reservedUUID == v
        ensures w in d.segs && d.segs[w].fromReserved && d.segs[w].reservedUUID == v
        ensures Apply(d, u).segs[w].Span() == d.segs[w].Span()
      {
        NamedBefore(d, u, v, w);
      }
      forall i | 0 <= i < |RepsOf(d.segs[v])| ensures RepsOf(d.segs[v])[i].uuid !in Apply(d, u).segs {
        RepsStayNew(d, u, v, i);
      }
      ItemTransfers(d, Apply(d, u), v);
    } else {
      hide IsRuns, FitsUsed, Apply;
    }
  }

  lemma RepsStayNew(d: DriveDoc, u: Uuid, v: Uuid, i: int)
    requires u in d.segs && Flagged(d.segs[u]) && ReadyItem(d, u)
    requires v in d.segs && v != u && ReadyItem(d, v) && NamesApart(d.segs[u], d.segs[v])
    requires 0 <= i < |RepsOf(d.segs[v])|
    ensures RepsOf(d.segs[v])[i].uuid !in Apply(d, u).segs
  {
    hide ReadyItem, IsRuns, Apply;
    RepsAreNew(d, v);
    var x := RepsOf(d.segs[v])[i].uuid;
    if x in Apply(d, u).segs {
      ApplyNew(d, u, x);
    }
  }

  /** Whoever names segment `v` after the step of another segment named it before. */
  lemma NamedBefore(d: DriveDoc, u: Uuid, v: Uuid, w: Uuid)
    requires u in d.segs && Flagged(d.segs[u]) && ReadyItem(d, u) && v in d.segs && v != u
    requires w in Apply(d, u).segs && Apply(d, u).segs[w].fromReserved && Apply(d, u).segs[w].reservedUUID == v
    ensures w in d.segs && d.segs[w].fromReserved && d.segs[w].reservedUUID == v
    ensures Apply(d, u).segs[w].Span() == d.segs[w].Span()
  {
    hide ReadyItem, IsRuns, Apply;
    ApplyNew(d, u, w);
    ApplyOthers(d, u, w);
    RepsAreNew(d, u);
    RetagPicks(d.segs[w], RepsOf(d.segs[u]));
  }

  lemma ApplyFlags(d: DriveDoc, u: Uuid, v: Uuid)
    requires u in d.segs && Flagged(d.segs[u]) && ReadyItem(d, u)
    ensures v in Apply(d, u).segs && !(v in d.segs && v != u
            && Apply(d, u).segs[v].pendingReclaim == d.segs[v].pendingReclaim)
            ==> Apply(d, u).segs[v].pendingReclaim.Idle?
    ensures v in FlaggedIn(Apply(d, u)) <==> v in FlaggedIn(d) && v != u
  {
    hide ReadyItem, IsRuns, Apply;
    ApplyDrops(d, u);
    if v in Apply(d, u).segs {
      ApplyNew(d, u, v);
    }
    if v in d.segs && v != u {
      ApplyOthers(d, u, v);
    }
  }

  /** Every step keeps the drive ready for the remaining ones, whichever is taken next. */
  lemma ApplyKeepsReady(d: DriveDoc, u: Uuid)
    requires Ready(d) && u in d.segs && Flagged(d.segs[u])
    ensures Ready(Apply(d, u))
    ensures FlaggedIn(Apply(d, u)) == FlaggedIn(d) - {u}
  {
    ApplyKeepsValid(d, u);
    hide ValidDoc, ReadyItem, Apply, NamesApart;
    var e := Apply(d, u);
    forall v | v in e.segs ensures ReadyItem(e, v) {
      ApplyKeepsItem(d, u, v);
    }
    forall v, w | v in e.segs && w in e.segs && v != w ensures NamesApart(e.segs[v], e.segs[w]) {
      ApplyFlags(d, u, v);
      ApplyFlags(d, u, w);
      StillApart(d, e, v, w);
    }
    forall v ensures v in FlaggedIn(e) <==> v in FlaggedIn(d) - {u} {
      ApplyFlags(d, u, v);
    }
  }

  lemma StillApart(d: DriveDoc, e: DriveDoc, v: Uuid, w: Uuid)
    requires FreshNames(d) && v in e.segs && w in e.segs && v != w
    requires (v in d.segs && e.segs[v].pendingReclaim == d.segs[v].pendingReclaim) || e.segs[v].pendingReclaim.Idle?
    requires (w in d.segs && e.segs[w].pendingReclaim == d.segs[w].pendingReclaim) || e.segs[w].pendingReclaim.Idle?
    ensures NamesApart(e.segs[v], e.segs[w])
  {
    assert RepsOf(e.segs[v]) == [] || (v in d.segs && RepsOf(e.segs[v]) == RepsOf(d.segs[v]));
    assert RepsOf(e.segs[w]) == [] || (w in d.segs && RepsOf(e.segs[w]) == RepsOf(d.segs[w]));
    assert v in d.segs && w in d.segs ==> NamesApart(d.segs[v], d.segs[w]);
  }

  // --------------------------------------------------- where the steps lead

  /** Where a segment ends up: a derived segment whose reservation is replaced follows it. */
  ghost function Followed(segs: map<Uuid, Segment>, s: Segment): Segment {
    if s.fromReserved && s.reservedUUID in segs then Retag(s, RepsOf(segs[s.reservedUUID])) else s
  }

  /** `f` is the layout after all flags are worked off: the unflagged segments, each following its
      reservation, and every replacement. */
  ghost predicate IsSettled(segs: map<Uuid, Segment>, f: map<Uuid, Segment>) {
    && (forall v | v in segs && !Flagged(segs[v]) :: v in f && f[v] == Followed(segs, segs[v]))
    && (forall u, i | u in segs && 0 <= i < |RepsOf(segs[u])| ::
          RepsOf(segs[u])[i].uuid in f && f[RepsOf(segs[u])[i].uuid] == RepsOf(segs[u])[i])
    && (forall v | v in f :: (v in segs && !Flagged(segs[v]))
                          || exists u, i :: u in segs && 0 <= i < |RepsOf(segs[u])| && RepsOf(segs[u])[i].uuid == v)
  }

  /** There is at most one such layout. */
  lemma SettledUnique(segs: map<Uuid, Segment>, f: map<Uuid, Segment>, g: map<Uuid, Segment>)
    requires IsSettled(segs, f) && IsSettled(segs, g)
    ensures f == g
  {
    forall v ensures v in f <==> v in g {
      SettledKeys(segs, f, g, v);
      SettledKeys(segs, g, f, v);
    }
    forall v | v in f && v in g ensures f[v] == g[v] {
      SettledKeys(segs, f, g, v);
    }
  }

  lemma SettledKeys(segs: map<Uuid, Segment>, f: map<Uuid, Segment>, g: map<Uuid, Segment>, v: Uuid)
    requires IsSettled(segs, f) && IsSettled(segs, g)
    ensures v in f ==> v in g && g[v] == f[v]
  {
    if v in f && !(v in segs && !Flagged(segs[v])) {
      var u, i :| u in segs && 0 <= i < |RepsOf(segs[u])| && RepsOf(segs[u])[i].uuid == v;
      assert f[RepsOf(segs[u])[i].uuid] == RepsOf(segs[u])[i];
      assert g[RepsOf(segs[u])[i].uuid] == RepsOf(segs[u])[i];
    }
  }

  /** A drive without flags is its own outcome. */
  lemma SettledWhenDone(segs: map<Uuid, Segment>)
    requires forall u | u in segs :: !Flagged(segs[u])
    ensures IsSettled(segs, segs)
  {
    forall v | v in segs ensures segs[v] == Followed(segs, segs[v]) {
      assert segs[v].reservedUUID in segs ==> RepsOf(segs[segs[v].reservedUUID]) == [];
    }
    forall u | u in segs ensures RepsOf(segs[u]) == [] {
      assert !Flagged(segs[u]);
    }
  }

  /** Following the reservation commutes with working off any flag. */
  lemma FollowedSame(d: DriveDoc, u: Uuid, v: Uuid)
    requires Ready(d) && u in d.segs && Flagged(d.segs[u]) && v in d.segs && v != u
    ensures Followed(Apply(d, u).segs, Apply(d, u).segs[v]) == Followed(d.segs, d.segs[v])
  {
    hide ValidDoc, Apply, FreshNames;
    var s := d.segs[v];
    ApplyOthers(d, u, v);
    RetagKeepsSpan(s, RepsOf(d.segs[u]));
    if s.fromReserved {
      if s.reservedUUID == u {
        FollowsFlagged(d, u, v);
      } else {
        StaysWithOther(d, u, v);
        ApplyOthers(d, u, s.reservedUUID);
      }
    }
  }

  lemma FollowsFlagged(d: DriveDoc, u: Uuid, v: Uuid)
    requires Ready(d) && u in d.segs && Flagged(d.segs[u]) && v in d.segs && v != u
    requires d.segs[v].fromReserved && d.segs[v].reservedUUID == u
    ensures Followed(Apply(d, u).segs, Apply(d, u).segs[v]) == Retag(d.segs[v], RepsOf(d.segs[u]))
  {
    hide Layout, Accounted, Apply, FreshNames, IsRuns;
    ApplyOthers(d, u, v);
    assert ReadyItem(d, u);
    match d.segs[u].pendingReclaim
    case Removal =>
    case Replace(replacements, _) =>
      assert RepsOf(d.segs[u]) == replacements;
      var k := RetagTarget(d, u, replacements, CoveredBlocks(Spans(replacements)), v);
      ApplyAdds(d, u, k);
      assert RepsOf(replacements[k]) == [];
  }

  lemma StaysWithOther(d: DriveDoc, u: Uuid, v: Uuid)
    requires Ready(d) && u in d.segs && Flagged(d.segs[u]) && v in d.segs && v != u
    requires d.segs[v].fromReserved && d.segs[v].reservedUUID != u
    ensures d.segs[v].reservedUUID in d.segs
    ensures Apply(d, u).segs[v] == d.segs[v]
  {
    hide Accounted, Apply, FreshNames, IsRuns;
    ApplyOthers(d, u, v);
    assert ReadyItem(d, u);
    assert WellPlaced(d, d.segs[v]);
    match d.segs[u].pendingReclaim
    case Removal =>
    case Replace(replacements, _) =>
      assert RepsOf(d.segs[u]) == replacements;
      var k := RetagTarget(d, u, replacements, CoveredBlocks(Spans(replacements)), v);
  }

  /** Whatever the remaining flags lead to after a step, they led to before it. */
  lemma ApplySettles(d: DriveDoc, u: Uuid, f: map<Uuid, Segment>)
    requires Ready(d) && u in d.segs && Flagged(d.segs[u])
    requires IsSettled(Apply(d, u).segs, f)
    ensures IsSettled(d.segs, f)
  {
    hide ValidDoc, Apply, Followed, FreshNames, ReadyItem;
    var e := Apply(d, u);
    forall v | v in d.segs && !Flagged(d.segs[v]) ensures v in f && f[v] == Followed(d.segs, d.segs[v]) {
      ApplyOthers(d, u, v);
      FollowedSame(d, u, v);
      assert !Flagged(e.segs[v]);
    }
    forall w, i | w in d.segs && 0 <= i < |RepsOf(d.segs[w])|
      ensures RepsOf(d.segs[w])[i].uuid in f && f[RepsOf(d.segs[w])[i].uuid] == RepsOf(d.segs[w])[i]
    {
      if w == u {
        ApplyAdds(d, u, i);
        RepsAreNew(d, u);
        var r := RepsOf(d.segs[u])[i];
        assert r.uuid in e.segs && !Flagged(e.segs[r.uuid]);
        NotDerivedStays(e.segs, r);
      } else {
        ApplyOthers(d, u, w);
        assert RepsOf(e.segs[w]) == RepsOf(d.segs[w]);
      }
    }
    forall v | v in f
      ensures (v in d.segs && !Flagged(d.segs[v]))
           || exists w, i :: w in d.segs && 0 <= i < |RepsOf(d.segs[w])| && RepsOf(d.segs[w])[i].uuid == v
    {
      if v in e.segs && !Flagged(e.segs[v]) {
        ApplyNew(d, u, v);
        ApplyFlags(d, u, v);
      } else {
        var w, i :| w in e.segs && 0 <= i < |RepsOf(e.segs[w])| && RepsOf(e.segs[w])[i].uuid == v;
        assert Flagged(e.segs[w]);
        ApplyFlags(d, u, w);
        assert RepsOf(d.segs[w])[i].uuid == v;
      }
    }
  }

  lemma NotDerivedStays(segs: map<Uuid, Segment>, s: Segment)
    requires !s.fromReserved
    ensures Followed(segs, s) == s
  {
  }
}
