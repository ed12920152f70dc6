/** Two drives used alike that work the same positions off stay alike if and only if their pieces end in one order. */
module ReclaimAlike {
  import opened Ranges
  import opened Drives
  import opened DriveStore
  import opened Orders
  import opened ReservedSpace
  import opened SharedGapsHistory
  import opened ReclaimMoves
  import opened ReclaimOrder

  /** What one drive of a pRaid sees of a reserved segment: its length and how it is used. */
  datatype Entry = Entry(blocks: int, uses: set<Use>)

  ghost function EntryOf(segs: seq<Segment>, s: Segment): Entry {
    Entry(s.Span().Blocks(), Uses(segs, s))
  }

  ghost function Profile(segs: seq<Segment>, rs: seq<Segment>): (r: seq<Entry>)
    ensures |r| == |rs| && forall i | 0 <= i < |r| :: r[i] == EntryOf(segs, rs[i])
  {
    seq(|rs|, i requires 0 <= i < |rs| => EntryOf(segs, rs[i]))
  }

  lemma AlikeIsProfile(a: Listing, b: Listing, vpg: VolumeID, p: Uuid)
    ensures Alike(a, b, vpg, p) <==> Profile(a.segs, Mine(a.segs, vpg, p)) == Profile(b.segs, Mine(b.segs, vpg, p))
  {
    hide Uses, Mine;
    var x, y := Profile(a.segs, Mine(a.segs, vpg, p)), Profile(b.segs, Mine(b.segs, vpg, p));
    if x == y {
      forall j | 0 <= j < |x| ensures EntryOf(a.segs, Mine(a.segs, vpg, p)[j]) == EntryOf(b.segs, Mine(b.segs, vpg,
                                                                                         p)[j]) {
        assert x[j] == y[j];
      }
    }
  }

  // ------------------------------------------------------------- uses afterwards

  ghost function PartOf(e: Entry, groups: seq<Range>): (r: seq<Entry>)
    ensures |r| == |groups|
    ensures forall g | 0 <= g < |r| :: r[g] == Entry(groups[g].Blocks(), UsesWithin(e.uses, groups[g]))
  {
    seq(|groups|, g requires 0 <= g < |groups| => Entry(groups[g].Blocks(), UsesWithin(e.uses, groups[g])))
  }

  ghost function PartsAt(segs: seq<Segment>, m: seq<Segment>, cuts: map<Uuid, Cut>): (r: seq<seq<Entry>>)
    ensures |r| == |m|
    ensures forall j | 0 <= j < |r| :: r[j] == PartOf(EntryOf(segs, m[j]), CutOf(cuts, m[j].uuid).groups)
  {
    seq(|m|, j requires 0 <= j < |m| => PartOf(EntryOf(segs, m[j]), CutOf(cuts, m[j].uuid).groups))
  }

  /** A segment that was not worked off is used as before. */
  ghost predicate StaysUsed(segs: seq<Segment>, now: seq<Segment>, m: seq<Segment>, order: seq<int>) {
    forall j | 0 <= j < |m| && j !in order :: EntryOf(now, m[j]) == EntryOf(segs, m[j])
  }

  /** The pieces of one that was are used as its groups were. */
  ghost predicate PiecesUsed(segs: seq<Segment>, now: seq<Segment>, m: seq<Segment>, cuts: map<Uuid, Cut>,
                             order: seq<int>) {
    forall j | 0 <= j < |m| && j in order ::
      Profile(now, PiecesAt(m, cuts)[j]) == PartsAt(segs, m, cuts)[j]
  }

  /** A reserved segment of the list keeps its uses when another one is worked off. */
  lemma EntryStays(now: seq<Segment>, s: Segment, groups: seq<Range>, pieces: seq<Segment>, r: Segment)
    requires SoundList(now) && CutAt(now, s, groups, pieces) && r in now && r.isReserved && r.uuid != s.uuid
    ensures EntryOf(WorkedOff(now, s.uuid, pieces), r) == EntryOf(now, r)
  {
    OtherUses(now, s, groups, pieces, r);
  }

  lemma PiecesEntries(now: seq<Segment>, s: Segment, groups: seq<Range>, pieces: seq<Segment>)
    requires SoundList(now) && CutAt(now, s, groups, pieces)
    ensures Profile(WorkedOff(now, s.uuid, pieces), pieces) == PartOf(EntryOf(now, s), groups)
  {
    var end := WorkedOff(now, s.uuid, pieces);
    forall g | 0 <= g < |pieces| ensures EntryOf(end, pieces[g])
           == Entry(groups[g].Blocks(), UsesWithin(EntryOf(now, s).uses, groups[g])) {
      PieceUses(now, s, groups, pieces, g);
      assert IsPiece(pieces[g], s, groups[g]);
    }
  }

  /** Where the reserved segments of a position are while others are worked off. */
  lemma StillThere(segs: seq<Segment>, us: seq<Uuid>, cuts: map<Uuid, Cut>, vpg: VolumeID, p: Uuid, r: Segment, j: int)
    requires IsWorkedOff(segs, us, cuts, vpg, p)
    requires var m, order := Mine(segs, vpg, p), PlacesOf(Mine(segs, vpg, p), us);
             0 <= j < |m| && if j in order then r in PiecesAt(m, cuts)[j] else r == m[j]
    ensures r in AllOff(segs, us, cuts) && r.isReserved
  {
    var m, now := Mine(segs, vpg, p), AllOff(segs, us, cuts);
    var order := PlacesOf(m, us);
    MineHas(now, vpg, p);
    hide Mine, AllOff, PlacesOf;
    if j in order {
      var t :| 0 <= t < |order| && order[t] == j;
      assert InPart(PiecesAt(m, cuts), order, t, r);
      TogetherHas(PiecesAt(m, cuts), order, r);
    } else {
      UndoneHas(m, SetOf(order));
      assert r in Undone(m, SetOf(order));
    }
    hide Undone, Together;
    assert r in Arranged(m, PiecesAt(m, cuts), order);
  }

  lemma PieceNotWorked(m: seq<Segment>, us: seq<Uuid>, cuts: map<Uuid, Cut>, n: int, j: int, r: Segment)
    requires NewPieces(us, cuts) && 0 <= n < |us| && 0 <= j < |m| && j in PlacesOf(m, us[..n])
    requires r in PiecesAt(m, cuts)[j]
    ensures r.uuid != us[n]
  {
    var order := PlacesOf(m, us[..n]);
    var t :| 0 <= t < |order| && order[t] == j;
    hide PlacesOf;
    assert InPart(PiecesAt(m, cuts), order, t, r);
    TogetherHas(PiecesAt(m, cuts), order, r);
    PieceIsNew(m, us, cuts, n, r);
  }

  ghost predicate UsesAfterAll(segs: seq<Segment>, us: seq<Uuid>, cuts: map<Uuid, Cut>, vpg: VolumeID, p: Uuid) {
    var m, order := Mine(segs, vpg, p), PlacesOf(Mine(segs, vpg, p), us);
    StaysUsed(segs, AllOff(segs, us, cuts), m, order) && PiecesUsed(segs, AllOff(segs, us, cuts), m, cuts, order)
  }

  lemma {:induction false} UsesFollow(segs: seq<Segment>, us: seq<Uuid>, cuts: map<Uuid, Cut>, vpg: VolumeID, p: Uuid)
    requires SoundList(segs) && Cuttable(segs, us, cuts) && NoneTwice(us) && NewPieces(us, cuts)
    ensures UsesAfterAll(segs, us, cuts, vpg, p)
    decreases |us|
  {
    if us == [] {
      hide SoundList, Mine;
    } else {
      var n := |us| - 1;
      CuttablePrefix(segs, us, cuts, n);
      UsesFollow(segs, us[..n], cuts, vpg, p);
      WorkedOffArranges(segs, us[..n], cuts, vpg, p);
      var now := AllOff(segs, us[..n], cuts);
      assert CutsHere(now, us[n], CutOf(cuts, us[n]));
      hide Cuttable, AllOff, SoundList, IsWorkedOff, UsesAfterAll;
      var i :| 0 <= i < |now| && now[i].uuid == us[n]
          && CutAt(now, now[i], CutOf(cuts, us[n]).groups, CutOf(cuts, us[n]).pieces);
      UsesOneMore(segs, us, cuts, vpg, p, now[i]);
    }
  }

  /** The segment `s` is the next one worked off. */
  ghost predicate NextOff(segs: seq<Segment>, us: seq<Uuid>, cuts: map<Uuid, Cut>, vpg: VolumeID, p: Uuid, s: Segment) {
    && us != [] && SoundList(segs) && NoneTwice(us) && NewPieces(us, cuts)
    && var n := |us| - 1;
    && IsWorkedOff(segs, us[..n], cuts, vpg, p) && SoundList(AllOff(segs, us[..n], cuts))
    && UsesAfterAll(segs, us[..n], cuts, vpg, p)
    && s.uuid == us[n] && CutAt(AllOff(segs, us[..n], cuts), s, CutOf(cuts, us[n]).groups, CutOf(cuts, us[n]).pieces)
  }

  lemma UsesOneMore(segs: seq<Segment>, us: seq<Uuid>, cuts: map<Uuid, Cut>, vpg: VolumeID, p: Uuid, s: Segment)
    requires NextOff(segs, us, cuts, vpg, p, s)
    ensures UsesAfterAll(segs, us, cuts, vpg, p)
  {
    var m := Mine(segs, vpg, p);
    var order := PlacesOf(m, us);
    hide NextOff, Mine, PlacesOf, EntryOf, Profile, PartsAt, PiecesAt, AllOff;
    forall j | 0 <= j < |m| && j !in order ensures EntryOf(AllOff(segs, us, cuts), m[j]) == EntryOf(segs, m[j]) {
      KeptOneMore(segs, us, cuts, vpg, p, s, j);
    }
    forall j | 0 <= j < |m| && j in order
      ensures Profile(AllOff(segs, us, cuts), PiecesAt(m, cuts)[j]) == PartsAt(segs, m, cuts)[j]
    {
      PiecesOneMore(segs, us, cuts, vpg, p, s, j);
    }
  }

  lemma OrderGrows(m: seq<Segment>, us: seq<Uuid>, j: int)
    requires us != []
    ensures j in PlacesOf(m, us) <==> j in PlacesOf(m, us[..|us| - 1]) || j in PlaceSeq(m, us[|us| - 1])
  {
  }

  lemma KeptOneMore(segs: seq<Segment>, us: seq<Uuid>, cuts: map<Uuid, Cut>, vpg: VolumeID, p: Uuid, s: Segment, j: int)
    requires NextOff(segs, us, cuts, vpg, p, s)
    requires 0 <= j < |Mine(segs, vpg, p)| && j !in PlacesOf(Mine(segs, vpg, p), us)
    ensures EntryOf(AllOff(segs, us, cuts), Mine(segs, vpg, p)[j]) == EntryOf(segs, Mine(segs, vpg, p)[j])
  {
    var n, m := |us| - 1, Mine(segs, vpg, p);
    var now := AllOff(segs, us[..n], cuts);
    OrderGrows(m, us, j);
    AllOffStep(segs, us, cuts);
    MineDistinctIds(segs, vpg, p);
    hide Mine, AllOff, SoundList, PlacesOf, EntryOf, CutAt, WorkedOff;
    PlaceAt(m, j);
    assert m[j].uuid != s.uuid;
    StillThere(segs, us[..n], cuts, vpg, p, m[j], j);
    EntryStays(now, s, CutOf(cuts, us[n]).groups, CutOf(cuts, us[n]).pieces, m[j]);
  }

  lemma PiecesOneMore(segs: seq<Segment>, us: seq<Uuid>, cuts: map<Uuid, Cut>, vpg: VolumeID, p: Uuid, s: Segment,
                      j: int)
    requires NextOff(segs, us, cuts, vpg, p, s)
    requires 0 <= j < |Mine(segs, vpg, p)| && j in PlacesOf(Mine(segs, vpg, p), us)
    ensures Profile(AllOff(segs, us, cuts), PiecesAt(Mine(segs, vpg, p), cuts)[j])
         == PartsAt(segs, Mine(segs, vpg, p), cuts)[j]
  {
    var n, m := |us| - 1, Mine(segs, vpg, p);
    var now, end := AllOff(segs, us[..n], cuts), AllOff(segs, us, cuts);
    var groups, pieces := CutOf(cuts, us[n]).groups, CutOf(cuts, us[n]).pieces;
    assert s in now;
    OrderGrows(m, us, j);
    AllOffStep(segs, us, cuts);
    WorkedOffPlace(segs, us, cuts, vpg, p, n, s);
    hide Mine, AllOff, SoundList, PlacesOf, EntryOf, CutAt, WorkedOff, PlaceOf;
    if j in PlacesOf(m, us[..n]) {
      var mine := PiecesAt(m, cuts)[j];
      forall g | 0 <= g < |mine| ensures EntryOf(end, mine[g]) == EntryOf(now, mine[g]) {
        StillThere(segs, us[..n], cuts, vpg, p, mine[g], j);
        PieceNotWorked(m, us, cuts, n, j, mine[g]);
        EntryStays(now, s, groups, pieces, mine[g]);
      }
      assert Profile(end, mine) == Profile(now, mine);
    } else {
      assert j == PlaceOf(m, us[n]) && s == m[j];
      PiecesEntries(now, s, groups, pieces);
      assert PiecesAt(m, cuts)[j] == pieces;
    }
  }

  // --------------------------------------------------------- the profile afterwards

  lemma ProfileConcat(segs: seq<Segment>, a: seq<Segment>, b: seq<Segment>)
    ensures Profile(segs, a + b) == Profile(segs, a) + Profile(segs, b)
  {
    hide EntryOf;
  }

  lemma {:induction false} UndoneProfile(segs: seq<Segment>, now: seq<Segment>, m: seq<Segment>, done: set<int>, n: nat)
    requires n <= |m| && forall j | 0 <= j < |m| && j !in done :: EntryOf(now, m[j]) == EntryOf(segs, m[j])
    ensures Profile(now, Undone(m[..n], done)) == Undone(Profile(segs, m)[..n], done)
    decreases n
  {
    hide EntryOf;
    if n > 0 {
      UndoneProfile(segs, now, m, done, n - 1);
      assert m[..n][..n - 1] == m[..n - 1] && Profile(segs, m)[..n][..n - 1] == Profile(segs, m)[..n - 1];
      var here := if n - 1 in done then [] else [m[n - 1]];
      ProfileConcat(now, Undone(m[..n - 1], done), here);
      assert Profile(now, here) == if n - 1 in done then [] else [Profile(segs, m)[n - 1]];
    }
  }

  lemma TogetherIs<T>(parts: seq<seq<T>>, order: seq<int>)
    requires order != []
    ensures Together(parts, order) == Together(parts, order[..|order| - 1]) + PartAt(parts, order[|order| - 1])
  {
    hide PartAt;
  }

  lemma {:induction false} TogetherProfile(now: seq<Segment>, pieces: seq<seq<Segment>>, parts: seq<seq<Entry>>,
                                           order: seq<int>)
    requires |pieces| == |parts|
    requires forall j | j in order && 0 <= j < |parts| :: Profile(now, pieces[j]) == parts[j]
    ensures Profile(now, Together(pieces, order)) == Together(parts, order)
    decreases |order|
  {
    hide EntryOf;
    if order != [] {
      var n := |order| - 1;
      assert order[n] in order && forall j | j in order[..n] :: j in order;
      assert Profile(now, PartAt(pieces, order[n])) == PartAt(parts, order[n]);
      TogetherIs(pieces, order);
      TogetherIs(parts, order);
      hide Together, PartAt, Profile;
      TogetherProfile(now, pieces, parts, order[..n]);
      ProfileConcat(now, Together(pieces, order[..n]), PartAt(pieces, order[n]));
    }
  }

  /** How the drive is used afterwards depends on how it was used before, the groups, and the order. */
  lemma ProfileAfter(segs: seq<Segment>, us: seq<Uuid>, cuts: map<Uuid, Cut>, vpg: VolumeID, p: Uuid)
    requires SoundList(segs) && Cuttable(segs, us, cuts) && NoneTwice(us) && NewPieces(us, cuts)
    ensures var m, end := Mine(segs, vpg, p), AllOff(segs, us, cuts);
            && SoundList(end)
            && Profile(end, Mine(end, vpg, p)) == Arranged(Profile(segs, m), PartsAt(segs, m, cuts), PlacesOf(m, us))
  {
    var m, end := Mine(segs, vpg, p), AllOff(segs, us, cuts);
    var order := PlacesOf(m, us);
    WorkedOffArranges(segs, us, cuts, vpg, p);
    UsesFollow(segs, us, cuts, vpg, p);
    hide Cuttable, AllOff, SoundList, Mine, PlacesOf, EntryOf, Profile, PartsAt, PiecesAt;
    forall j | 0 <= j < |m| && j !in SetOf(order) ensures EntryOf(end, m[j]) == EntryOf(segs, m[j]) {
    }
    UndoneProfile(segs, end, m, SetOf(order), |m|);
    assert m[..|m|] == m && Profile(segs, m)[..|m|] == Profile(segs, m);
    TogetherProfile(end, PiecesAt(m, cuts), PartsAt(segs, m, cuts), order);
    ProfileConcat(end, Undone(m, SetOf(order)), Together(PiecesAt(m, cuts), order));
  }

  // ----------------------------------------------------------- one order or another

  /** The order of the positions that leave pieces behind. */
  function Cutting<T>(parts: seq<seq<T>>, order: seq<int>): seq<int> {
    if order == [] then []
    else
      var n := |order| - 1;
      Cutting(parts, order[..n]) + if PartAt(parts, order[n]) == [] then [] else [order[n]]
  }

  lemma {:induction false} TogetherCutting<T>(parts: seq<seq<T>>, order: seq<int>)
    ensures Together(parts, Cutting(parts, order)) == Together(parts, order)
    decreases |order|
  {
    if order != [] {
      var n := |order| - 1;
      TogetherCutting(parts, order[..n]);
      var rest := Cutting(parts, order[..n]);
      if PartAt(parts, order[n]) == [] {
        assert Cutting(parts, order) == rest;
        assert Together(parts, order) == Together(parts, order[..n]);
      } else {
        assert Cutting(parts, order) == rest + [order[n]];
        assert (rest + [order[n]])[..|rest|] == rest;
      }
    }
  }

  lemma {:induction false} CuttingHas<T>(parts: seq<seq<T>>, order: seq<int>, j: int)
    ensures j in Cutting(parts, order) <==> j in order && PartAt(parts, j) != []
    decreases |order|
  {
    if order != [] {
      CuttingHas(parts, order[..|order| - 1], j);
      assert order == order[..|order| - 1] + [order[|order| - 1]];
    }
  }

  lemma {:induction false} TogetherFront<T>(parts: seq<seq<T>>, j: int, order: seq<int>)
    ensures Together(parts, [j] + order) == PartAt(parts, j) + Together(parts, order)
    decreases |order|
  {
    if order == [] {
      assert [j] + order == [j] && [j][..0] == [];
      assert Together(parts, [j]) == [] + PartAt(parts, j);
    } else {
      var n := |order| - 1;
      TogetherFront(parts, j, order[..n]);
      assert ([j] + order)[..n + 1] == [j] + order[..n] && ([j] + order)[n + 1] == order[n];
      hide PartAt;
      Assoc(PartAt(parts, j), Together(parts, order[..n]), PartAt(parts, order[n]));
    }
  }

  /** Parts that can be told apart by what they begin with. */
  ghost predicate ToldApart<T(!new)>(parts: seq<seq<T>>) {
    forall j, k | 0 <= j < |parts| && 0 <= k < |parts| && j != k && parts[j] != [] && parts[k] != [] ::
      parts[j][0] != parts[k][0]
  }

  ghost predicate AllCut<T>(parts: seq<seq<T>>, order: seq<int>) {
    forall t | 0 <= t < |order| :: PartAt(parts, order[t]) != []
  }

  lemma CuttingIsCut<T>(parts: seq<seq<T>>, order: seq<int>)
    ensures AllCut(parts, Cutting(parts, order))
  {
    var cut := Cutting(parts, order);
    forall t | 0 <= t < |cut| ensures PartAt(parts, cut[t]) != [] {
      CuttingHas(parts, order, cut[t]);
      assert cut[t] in cut;
    }
  }

  lemma FrontOf<T>(parts: seq<seq<T>>, order: seq<int>)
    requires order != [] && AllCut(parts, order)
    ensures PartAt(parts, order[0]) != [] && AllCut(parts, order[1..])
    ensures Together(parts, order) == PartAt(parts, order[0]) + Together(parts, order[1..])
  {
    TogetherFront(parts, order[0], order[1..]);
    assert [order[0]] + order[1..] == order;
    hide Together, PartAt;
    forall t | 0 <= t < |order[1..]| ensures PartAt(parts, order[1..][t]) != [] {
      assert order[1..][t] == order[t + 1];
    }
  }

  lemma SameRest<T>(a: seq<T>, b: seq<T>, c: seq<T>)
    requires a + b == a + c
    ensures b == c
  {
    assert b == (a + b)[|a|..] && c == (a + c)[|a|..];
  }

  /** What stands there tells the order. */
  lemma {:induction false} OneReading<T(!new)>(parts: seq<seq<T>>, a: seq<int>, b: seq<int>)
    requires ToldApart(parts) && AllCut(parts, a) && AllCut(parts, b)
    requires Together(parts, a) == Together(parts, b)
    ensures a == b
    decreases |a|
  {
    if a == [] {
      if b != [] {
        FrontOf(parts, b);
      }
    } else if b == [] {
      FrontOf(parts, a);
    } else {
      FrontOf(parts, a);
      FrontOf(parts, b);
      hide Together;
      var x, y := PartAt(parts, a[0]), PartAt(parts, b[0]);
      assert x[0] == Together(parts, a)[0] && y[0] == Together(parts, b)[0];
      assert a[0] == b[0];
      hide PartAt, ToldApart, AllCut;
      SameRest(x, Together(parts, a[1..]), Together(parts, b[1..]));
      OneReading(parts, a[1..], b[1..]);
      assert a == [a[0]] + a[1..] && b == [b[0]] + b[1..];
    }
  }

  lemma SameArrangement<T(!new)>(m: seq<T>, parts: seq<seq<T>>, a: seq<int>, b: seq<int>)
    requires SetOf(a) == SetOf(b)
    ensures Cutting(parts, a) == Cutting(parts, b) ==> Arranged(m, parts, a) == Arranged(m, parts, b)
    ensures ToldApart(parts) && Arranged(m, parts, a) == Arranged(m, parts, b)
            ==> Cutting(parts, a) == Cutting(parts, b)
  {
    TogetherCutting(parts, a);
    TogetherCutting(parts, b);
    CuttingIsCut(parts, a);
    CuttingIsCut(parts, b);
    hide Together, Cutting, Undone, ToldApart, AllCut, SetOf;
    if ToldApart(parts) && Arranged(m, parts, a) == Arranged(m, parts, b) {
      SameRest(Undone(m, SetOf(a)), Together(parts, a), Together(parts, b));
      OneReading(parts, Cutting(parts, a), Cutting(parts, b));
    }
  }

  // ---------------------------------------------------------------- two drives

  /** A derived pRaid has at most one segment on a drive. */
  ghost predicate OnePerPRaid(segs: seq<Segment>) {
    forall i, k | 0 <= i < |segs| && 0 <= k < |segs| && i != k && segs[i].fromReserved && segs[k].fromReserved ::
      segs[i].pRaid != segs[k].pRaid
  }

  ghost predicate HasUse(uses: set<Use>, group: Range) {
    exists u :: u in UsesWithin(uses, group)
  }

  /** No group is cut out for nobody. */
  ghost predicate GroupsUsed(segs: seq<Segment>, m: seq<Segment>, cuts: map<Uuid, Cut>) {
    forall j, g | 0 <= j < |m| && 0 <= g < |CutOf(cuts, m[j].uuid).groups| ::
      HasUse(Uses(segs, m[j]), CutOf(cuts, m[j].uuid).groups[g])
  }

  function GroupsAt(m: seq<Segment>, cuts: map<Uuid, Cut>): (r: seq<seq<Range>>)
    ensures |r| == |m| && forall j | 0 <= j < |r| :: r[j] == CutOf(cuts, m[j].uuid).groups
  {
    seq(|m|, j requires 0 <= j < |m| => CutOf(cuts, m[j].uuid).groups)
  }

  /** The order in which a drive works off the positions of a pRaid that leave pieces. */
  function CutOrder(m: seq<Segment>, us: seq<Uuid>, cuts: map<Uuid, Cut>): seq<int> {
    Cutting(GroupsAt(m, cuts), PlacesOf(m, us))
  }

  lemma UsesApart(segs: seq<Segment>, r: Segment, s: Segment, u: Use, w: Use)
    requires OnePerPRaid(segs) && r.uuid != s.uuid && u in Uses(segs, r) && w in Uses(segs, s)
    ensures u.pRaid != w.pRaid
  {
    var i :| 0 <= i < |segs| && DerivedFrom(segs[i], r) && UseBy(segs[i], r) == u;
    var k :| 0 <= k < |segs| && DerivedFrom(segs[k], s) && UseBy(segs[k], s) == w;
    assert i != k;
  }

  lemma GroupsApart(segs: seq<Segment>, r: Segment, g: Range, s: Segment, h: Range)
    requires OnePerPRaid(segs) && r.uuid != s.uuid && HasUse(Uses(segs, r), g)
    ensures UsesWithin(Uses(segs, r), g) != UsesWithin(Uses(segs, s), h)
  {
    hide Uses, OnePerPRaid, UsesWithin;
    var x :| x in UsesWithin(Uses(segs, r), g);
    var u := FromGroup(Uses(segs, r), g, x);
    if x in UsesWithin(Uses(segs, s), h) {
      var w := FromGroup(Uses(segs, s), h, x);
      UsesApart(segs, r, s, u, w);
    }
  }

  lemma UsedPartsApart(segs: seq<Segment>, m: seq<Segment>, cuts: map<Uuid, Cut>)
    requires OnePerPRaid(segs) && GroupsUsed(segs, m, cuts) && DistinctIds(m)
    ensures ToldApart(PartsAt(segs, m, cuts))
  {
    hide Uses, OnePerPRaid, UsesWithin;
    var parts := PartsAt(segs, m, cuts);
    forall j, k | 0 <= j < |parts| && 0 <= k < |parts| && j != k && parts[j] != [] && parts[k] != []
      ensures parts[j][0] != parts[k][0]
    {
      assert m[j].uuid != m[k].uuid;
      GroupsApart(segs, m[j], CutOf(cuts, m[j].uuid).groups[0], m[k], CutOf(cuts, m[k].uuid).groups[0]);
    }
  }

  lemma {:induction false} CuttingSame<S, T>(a: seq<seq<S>>, b: seq<seq<T>>, order: seq<int>)
    requires |a| == |b| && forall j | 0 <= j < |a| :: |a[j]| == |b[j]|
    ensures Cutting(a, order) == Cutting(b, order)
    decreases |order|
  {
    if order != [] {
      CuttingSame(a, b, order[..|order| - 1]);
    }
  }

  /** A drive whose segments can be worked off in this order. */
  ghost predicate WorksOff(a: Listing, us: seq<Uuid>, cuts: map<Uuid, Cut>) {
    SoundList(a.segs) && Cuttable(a.segs, us, cuts) && NoneTwice(us) && NewPieces(us, cuts)
  }

  function Afterwards(a: Listing, us: seq<Uuid>, cuts: map<Uuid, Cut>): Listing {
    Listing(a.disk, AllOff(a.segs, us, cuts))
  }

  /** The same positions, cut alike. */
  ghost predicate SameWork(a: Listing, us: seq<Uuid>, cuts: map<Uuid, Cut>, b: Listing, vs: seq<Uuid>,
                           others: map<Uuid, Cut>, vpg: VolumeID, p: Uuid) {
    var m, n := Mine(a.segs, vpg, p), Mine(b.segs, vpg, p);
    SetOf(PlacesOf(m, us)) == SetOf(PlacesOf(n, vs)) && GroupsAt(m, cuts) == GroupsAt(n, others)
  }

  lemma SameParts(a: Listing, cuts: map<Uuid, Cut>, b: Listing, others: map<Uuid, Cut>, vpg: VolumeID, p: Uuid)
    requires var m, n := Mine(a.segs, vpg, p), Mine(b.segs, vpg, p);
             Profile(a.segs, m) == Profile(b.segs, n) && GroupsAt(m, cuts) == GroupsAt(n, others)
    ensures PartsAt(a.segs, Mine(a.segs, vpg, p), cuts) == PartsAt(b.segs, Mine(b.segs, vpg, p), others)
  {
    hide Mine, EntryOf;
    var m, n := Mine(a.segs, vpg, p), Mine(b.segs, vpg, p);
    forall j | 0 <= j < |m| ensures PartsAt(a.segs, m, cuts)[j] == PartsAt(b.segs, n, others)[j] {
      assert EntryOf(a.segs, m[j]) == Profile(a.segs, m)[j] && EntryOf(b.segs, n[j]) == Profile(b.segs, n)[j];
      assert CutOf(cuts, m[j].uuid).groups == GroupsAt(m, cuts)[j];
      assert CutOf(others, n[j].uuid).groups == GroupsAt(n, others)[j];
    }
  }

  lemma CutOrderOfParts(a: Listing, us: seq<Uuid>, cuts: map<Uuid, Cut>, vpg: VolumeID, p: Uuid)
    ensures var m := Mine(a.segs, vpg, p);
            CutOrder(m, us, cuts) == Cutting(PartsAt(a.segs, m, cuts), PlacesOf(m, us))
  {
    hide Mine, EntryOf, PlacesOf;
    var m := Mine(a.segs, vpg, p);
    CuttingSame(GroupsAt(m, cuts), PartsAt(a.segs, m, cuts), PlacesOf(m, us));
  }

  /** Two drives used alike, working the same positions off, end alike if their pieces are cut in the same order,
      and, when every group is used and no derived pRaid occurs twice on a drive, only if they are. */
  lemma AlikeIffSameOrder(a: Listing, us: seq<Uuid>, cuts: map<Uuid, Cut>, b: Listing, vs: seq<Uuid>,
                          others: map<Uuid, Cut>, vpg: VolumeID, p: Uuid)
    requires WorksOff(a, us, cuts) && WorksOff(b, vs, others) && Alike(a, b, vpg, p)
    requires SameWork(a, us, cuts, b, vs, others, vpg, p)
    ensures var m, n := Mine(a.segs, vpg, p), Mine(b.segs, vpg, p);
            var same := CutOrder(m, us, cuts) == CutOrder(n, vs, others);
            && (same ==> Alike(Afterwards(a, us, cuts), Afterwards(b, vs, others), vpg, p))
            && (OnePerPRaid(a.segs) && GroupsUsed(a.segs, m, cuts) ==>
                  (same <==> Alike(Afterwards(a, us, cuts), Afterwards(b, vs, others), vpg, p)))
  {
    var m, n := Mine(a.segs, vpg, p), Mine(b.segs, vpg, p);
    AlikeIsProfile(a, b, vpg, p);
    AlikeIsProfile(Afterwards(a, us, cuts), Afterwards(b, vs, others), vpg, p);
    ProfileAfter(a.segs, us, cuts, vpg, p);
    ProfileAfter(b.segs, vs, others, vpg, p);
    SameParts(a, cuts, b, others, vpg, p);
    CutOrderOfParts(a, us, cuts, vpg, p);
    CutOrderOfParts(b, vs, others, vpg, p);
    MineDistinctIds(a.segs, vpg, p);
    hide Alike, SoundList, Cuttable, NewPieces, AllOff, Mine, Profile, PartsAt, PlacesOf, CutOrder, GroupsUsed,
         OnePerPRaid, Arranged, GroupsAt, Cutting, ToldApart;
    SameArrangement(Profile(a.segs, m), PartsAt(a.segs, m, cuts), PlacesOf(m, us), PlacesOf(n, vs));
    if OnePerPRaid(a.segs) && GroupsUsed(a.segs, m, cuts) {
      UsedPartsApart(a.segs, m, cuts);
    }
  }
}
