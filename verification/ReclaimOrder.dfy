/** What the order in which a drive works its reserved segments off leaves in its list: the others where they were,
    then the pieces in that order. Two drives used alike stay alike if and only if their orders agree. */
module ReclaimOrder {
  import opened Ranges
  import opened Drives
  import opened DriveStore
  import opened Orders
  import opened ReservedSpace
  import opened SharedGapsHistory
  import opened ReclaimMoves

  /** What a segment is cut to: its groups, by offset, and the pieces for them. Without groups it is removed. */
  datatype Cut = Cut(groups: seq<Range>, pieces: seq<Segment>)

  const NO_CUT := Cut([], [])

  function CutOf(cuts: map<Uuid, Cut>, u: Uuid): Cut {
    if u in cuts then cuts[u] else NO_CUT
  }

  /** The list after the segments were worked off, one after the other. */
  function AllOff(segs: seq<Segment>, us: seq<Uuid>, cuts: map<Uuid, Cut>): seq<Segment> {
    if us == [] then segs
    else
      var n := |us| - 1;
      WorkedOff(AllOff(segs, us[..n], cuts), us[n], CutOf(cuts, us[n]).pieces)
  }

  ghost predicate CutsHere(segs: seq<Segment>, u: Uuid, cut: Cut) {
    exists i :: 0 <= i < |segs| && segs[i].uuid == u && CutAt(segs, segs[i], cut.groups, cut.pieces)
  }

  /** Each segment is there when its turn comes, and its pieces fit. */
  ghost predicate Cuttable(segs: seq<Segment>, us: seq<Uuid>, cuts: map<Uuid, Cut>) {
    forall t | 0 <= t < |us| :: CutsHere(AllOff(segs, us[..t], cuts), us[t], CutOf(cuts, us[t]))
  }

  /** No piece takes the name of a segment that is worked off. */
  ghost predicate NewPieces(us: seq<Uuid>, cuts: map<Uuid, Cut>) {
    forall t, x, g | 0 <= t < |us| && 0 <= x < |us| && 0 <= g < |CutOf(cuts, us[t]).pieces| ::
      CutOf(cuts, us[t]).pieces[g].uuid != us[x]
  }

  lemma CuttablePrefix(segs: seq<Segment>, us: seq<Uuid>, cuts: map<Uuid, Cut>, n: nat)
    requires Cuttable(segs, us, cuts) && NoneTwice(us) && NewPieces(us, cuts) && n <= |us|
    ensures Cuttable(segs, us[..n], cuts) && NoneTwice(us[..n]) && NewPieces(us[..n], cuts)
  {
    hide AllOff, CutsHere;
    forall t | 0 <= t < n ensures CutsHere(AllOff(segs, us[..n][..t], cuts), us[..n][t], CutOf(cuts, us[..n][t])) {
      assert us[..n][..t] == us[..t];
      assert CutsHere(AllOff(segs, us[..t], cuts), us[t], CutOf(cuts, us[t]));
    }
    var vs := us[..n];
    forall t, x, g | 0 <= t < |vs| && 0 <= x < |vs| && 0 <= g < |CutOf(cuts, vs[t]).pieces|
      ensures CutOf(cuts, vs[t]).pieces[g].uuid != vs[x]
    {
      assert CutOf(cuts, us[t]).pieces[g].uuid != us[x];
    }
  }

  // ------------------------------------------------------------ rearranged lists

  function SetOf(order: seq<int>): set<int> {
    set j | j in order
  }

  /** The entries that are not done, in their order. */
  function Undone<T>(m: seq<T>, done: set<int>): seq<T> {
    if m == [] then []
    else Undone(m[..|m| - 1], done) + if |m| - 1 in done then [] else [m[|m| - 1]]
  }

  function PartAt<T>(parts: seq<seq<T>>, j: int): seq<T> {
    if 0 <= j < |parts| then parts[j] else []
  }

  /** The parts of the done entries, in the given order. */
  function Together<T>(parts: seq<seq<T>>, order: seq<int>): seq<T> {
    if order == [] then [] else Together(parts, order[..|order| - 1]) + PartAt(parts, order[|order| - 1])
  }

  function Arranged<T>(m: seq<T>, parts: seq<seq<T>>, order: seq<int>): seq<T> {
    Undone(m, SetOf(order)) + Together(parts, order)
  }

  function PlaceOf(m: seq<Segment>, u: Uuid): (j: int)
    ensures -1 <= j < |m|
    ensures j >= 0 ==> m[j].uuid == u
    ensures j < 0 ==> forall i | 0 <= i < |m| :: m[i].uuid != u
  {
    if m == [] then -1
    else if m[|m| - 1].uuid == u then |m| - 1
    else PlaceOf(m[..|m| - 1], u)
  }

  function PlaceSeq(m: seq<Segment>, u: Uuid): seq<int> {
    if PlaceOf(m, u) < 0 then [] else [PlaceOf(m, u)]
  }

  /** At which positions of the list the segments stand, those that are in it. */
  function PlacesOf(m: seq<Segment>, us: seq<Uuid>): seq<int> {
    if us == [] then [] else PlacesOf(m, us[..|us| - 1]) + PlaceSeq(m, us[|us| - 1])
  }

  ghost predicate StandsAt(m: seq<Segment>, us: seq<Uuid>, t: int, j: int) {
    0 <= t < |us| && j >= 0 && PlaceOf(m, us[t]) == j
  }

  lemma {:induction false} PlacesHave(m: seq<Segment>, us: seq<Uuid>, j: int)
    ensures j in PlacesOf(m, us) <==> exists t :: StandsAt(m, us, t, j)
    decreases |us|
  {
    if us != [] {
      var n := |us| - 1;
      PlacesHave(m, us[..n], j);
      hide PlaceOf;
      assert j in PlacesOf(m, us) <==> j in PlacesOf(m, us[..n]) || j in PlaceSeq(m, us[n]);
      hide PlacesOf;
      if t :| StandsAt(m, us, t, j) {
        assert t < n ==> StandsAt(m, us[..n], t, j);
      }
      if t :| StandsAt(m, us[..n], t, j) {
        assert StandsAt(m, us, t, j);
      }
      if j in PlaceSeq(m, us[n]) {
        assert StandsAt(m, us, n, j);
      }
    }
  }

  lemma {:induction false} PlacesOnce(m: seq<Segment>, us: seq<Uuid>)
    requires NoneTwice(us)
    ensures NoneTwice(PlacesOf(m, us))
    decreases |us|
  {
    if us != [] {
      var n := |us| - 1;
      PlacesOnce(m, us[..n]);
      PlacesHave(m, us[..n], PlaceOf(m, us[n]));
      hide PlaceOf;
      forall t ensures !StandsAt(m, us[..n], t, PlaceOf(m, us[n])) {
        if 0 <= t < n {
          PlaceIs(m, us[t], us[n]);
        }
      }
      var rest := PlacesOf(m, us[..n]);
      assert PlaceOf(m, us[n]) >= 0 ==> PlaceOf(m, us[n]) !in rest;
      assert PlacesOf(m, us) == rest + PlaceSeq(m, us[n]);
      hide PlacesOf;
    }
  }

  lemma PlaceIs(m: seq<Segment>, u: Uuid, v: Uuid)
    ensures PlaceOf(m, u) == PlaceOf(m, v) && PlaceOf(m, u) >= 0 ==> u == v
  {
  }

  lemma PlaceAt(m: seq<Segment>, j: int)
    requires DistinctIds(m) && 0 <= j < |m|
    ensures PlaceOf(m, m[j].uuid) == j
  {
  }

  // ------------------------------------------------------ where the segments go

  function PiecesAt(m: seq<Segment>, cuts: map<Uuid, Cut>): (r: seq<seq<Segment>>)
    ensures |r| == |m| && forall j | 0 <= j < |r| :: r[j] == CutOf(cuts, m[j].uuid).pieces
  {
    seq(|m|, j requires 0 <= j < |m| => CutOf(cuts, m[j].uuid).pieces)
  }

  lemma {:induction false} DropConcat(a: seq<Segment>, b: seq<Segment>, u: Uuid)
    ensures Drop(a + b, u) == Drop(a, u) + Drop(b, u)
    decreases |b|
  {
    if b == [] {
      assert a + b == a;
    } else {
      var n := |b| - 1;
      DropConcat(a, b[..n], u);
      DropSnoc(a + b[..n], b[n], u);
      DropSnoc(b[..n], b[n], u);
      SplitLast(a, b);
      hide *;
      Assoc(Drop(a, u), Drop(b[..n], u), if b[n].uuid == u then [] else [b[n]]);
    }
  }

  lemma SplitLast<T>(a: seq<T>, b: seq<T>)
    requires b != []
    ensures a + b == (a + b[..|b| - 1]) + [b[|b| - 1]] && b == b[..|b| - 1] + [b[|b| - 1]]
  {
  }

  lemma Assoc<T>(a: seq<T>, b: seq<T>, c: seq<T>)
    ensures (a + b) + c == a + (b + c)
  {
  }

  lemma {:induction false} UndoneHas<T>(m: seq<T>, done: set<int>)
    ensures forall x :: x in Undone(m, done) <==> exists j :: 0 <= j < |m| && j !in done && m[j] == x
    decreases |m|
  {
    if m != [] {
      var n := |m| - 1;
      UndoneHas(m[..n], done);
      forall x ensures x in Undone(m, done) <==> exists j :: 0 <= j < |m| && j !in done && m[j] == x {
        assert x in Undone(m, done) <==> x in Undone(m[..n], done) || (n !in done && x == m[n]);
        if j :| 0 <= j < n && j !in done && m[..n][j] == x {
          assert m[j] == x;
        }
        if j :| 0 <= j < |m| && j !in done && m[j] == x && j < n {
          assert m[..n][j] == x;
        }
      }
    }
  }

  ghost predicate InPart<T>(parts: seq<seq<T>>, order: seq<int>, t: int, x: T) {
    0 <= t < |order| && x in PartAt(parts, order[t])
  }

  lemma TogetherStep<T>(parts: seq<seq<T>>, order: seq<int>, x: T)
    requires order != []
    ensures x in Together(parts, order)
       <==> x in Together(parts, order[..|order| - 1]) || x in PartAt(parts, order[|order| - 1])
  {
    hide PartAt;
  }

  ghost predicate InSome<T>(parts: seq<seq<T>>, order: seq<int>, x: T) {
    exists t :: InPart(parts, order, t, x)
  }

  lemma PartStep<T>(parts: seq<seq<T>>, order: seq<int>, x: T)
    requires order != []
    ensures InSome(parts, order, x)
       <==> InSome(parts, order[..|order| - 1], x) || x in PartAt(parts, order[|order| - 1])
  {
    hide PartAt;
    var n := |order| - 1;
    if t :| InPart(parts, order[..n], t, x) {
      assert InPart(parts, order, t, x);
    }
    if x in PartAt(parts, order[n]) {
      assert InPart(parts, order, n, x);
    }
    if t :| InPart(parts, order, t, x) {
      assert t < n ==> InPart(parts, order[..n], t, x);
    }
  }

  lemma {:induction false} TogetherHas<T>(parts: seq<seq<T>>, order: seq<int>, x: T)
    ensures x in Together(parts, order) <==> InSome(parts, order, x)
    decreases |order|
  {
    if order != [] {
      TogetherStep(parts, order, x);
      PartStep(parts, order, x);
      hide Together, PartAt, InSome;
      TogetherHas(parts, order[..|order| - 1], x);
    }
  }

  lemma {:induction false} UndoneLess<T>(m: seq<T>, done: set<int>, j: int)
    requires j >= |m|
    ensures Undone(m, done + {j}) == Undone(m, done)
    decreases |m|
  {
    if m != [] {
      UndoneLess(m[..|m| - 1], done, j);
    }
  }

  lemma {:induction false} DropUndone(m: seq<Segment>, done: set<int>, j: int)
    requires DistinctIds(m) && 0 <= j < |m|
    ensures Drop(Undone(m, done), m[j].uuid) == Undone(m, done + {j})
    decreases |m|
  {
    var n := |m| - 1;
    if n == j {
      UndoneHas(m[..n], done);
      var rest := Undone(m[..n], done);
      forall i | 0 <= i < |rest| ensures rest[i].uuid != m[j].uuid {
        assert rest[i] in rest;
      }
      DropNothing(rest, m[j].uuid);
      UndoneLess(m[..n], done, j);
      assert Undone(m, done + {j}) == rest;
      if n in done {
        assert Undone(m, done) == rest;
      } else {
        DropSnoc(rest, m[n], m[j].uuid);
      }
    } else {
      DropUndone(m[..n], done, j);
      if n in done {
        assert Undone(m, done) == Undone(m[..n], done);
        assert Undone(m, done + {j}) == Undone(m[..n], done + {j});
      } else {
        DropSnoc(Undone(m[..n], done), m[n], m[j].uuid);
      }
    }
  }

  lemma SetOfMore(order: seq<int>, j: int)
    ensures SetOf(order + [j]) == SetOf(order) + {j}
  {
  }

  lemma TogetherMore<T>(parts: seq<seq<T>>, order: seq<int>, j: int)
    requires 0 <= j < |parts|
    ensures Together(parts, order + [j]) == Together(parts, order) + parts[j]
  {
    assert (order + [j])[..|order|] == order;
  }

  /** Working off the segment at position `j` moves its pieces to the end. */
  lemma ArrangedMore(m: seq<Segment>, parts: seq<seq<Segment>>, order: seq<int>, j: int)
    requires DistinctIds(m) && |parts| == |m| && 0 <= j < |m|
    requires forall x | x in Together(parts, order) :: x.uuid != m[j].uuid
    ensures Drop(Arranged(m, parts, order), m[j].uuid) + parts[j] == Arranged(m, parts, order + [j])
  {
    hide Together, Undone, Drop;
    SetOfMore(order, j);
    TogetherMore(parts, order, j);
    DropConcat(Undone(m, SetOf(order)), Together(parts, order), m[j].uuid);
    DropUndone(m, SetOf(order), j);
    var tail := Together(parts, order);
    forall i | 0 <= i < |tail| ensures tail[i].uuid != m[j].uuid {
      assert tail[i] in tail;
    }
    DropNothing(tail, m[j].uuid);
    ArrangedIs(m, parts, order);
    ArrangedIs(m, parts, order + [j]);
    hide *;
    Assoc(Undone(m, SetOf(order) + {j}), tail, parts[j]);
  }

  lemma ArrangedIs<T>(m: seq<T>, parts: seq<seq<T>>, order: seq<int>)
    ensures Arranged(m, parts, order) == Undone(m, SetOf(order)) + Together(parts, order)
  {
  }

  lemma ArrangedSame(m: seq<Segment>, parts: seq<seq<Segment>>, order: seq<int>, u: Uuid)
    requires |parts| == |m| && forall j | 0 <= j < |m| :: m[j].uuid != u
    requires forall x | x in Together(parts, order) :: x.uuid != u
    ensures Drop(Arranged(m, parts, order), u) == Arranged(m, parts, order)
  {
    UndoneHas(m, SetOf(order));
    hide Together, Undone, Drop;
    var all := Arranged(m, parts, order);
    forall i | 0 <= i < |all| ensures all[i].uuid != u {
      assert all[i] in Undone(m, SetOf(order)) || all[i] in Together(parts, order);
    }
    DropNothing(all, u);
  }

  lemma {:induction false} MineOthers(s: Segment, groups: seq<Range>, pieces: seq<Segment>, vpg: VolumeID, p: Uuid)
    requires !(Offered(s, vpg) && s.pRaid == p) && |pieces| == |groups|
    requires forall g | 0 <= g < |groups| :: IsPiece(pieces[g], s, groups[g])
    ensures Mine(pieces, vpg, p) == []
    decreases |pieces|
  {
    if pieces != [] {
      var n := |pieces| - 1;
      assert IsPiece(pieces[n], s, groups[n]);
      MineOthers(s, groups[..n], pieces[..n], vpg, p);
    }
  }

  /** One more segment worked off, whether it is one of the pRaid or not. */
  lemma MineStep(segs: seq<Segment>, s: Segment, groups: seq<Range>, pieces: seq<Segment>, vpg: VolumeID, p: Uuid)
    requires SoundList(segs) && CutAt(segs, s, groups, pieces)
    ensures Mine(WorkedOff(segs, s.uuid, pieces), vpg, p)
         == Drop(Mine(segs, vpg, p), s.uuid) + if s in Mine(segs, vpg, p) then pieces else []
  {
    MineHas(segs, vpg, p);
    MineRest(segs, s.uuid, pieces, vpg, p);
    hide SoundList, Mine, Drop, Rest;
    MineConcat(Rest(segs, s.uuid, pieces), pieces, vpg, p);
    if s in Mine(segs, vpg, p) {
      MinePieces(s, groups, pieces, vpg, p);
    } else {
      MineOthers(s, groups, pieces, vpg, p);
    }
  }

  lemma MineDistinctIds(segs: seq<Segment>, vpg: VolumeID, p: Uuid)
    requires SoundList(segs)
    ensures DistinctIds(Mine(segs, vpg, p))
  {
    hide SoundList, Mine;
    MineDistinct(segs, vpg, p);
  }

  ghost predicate IsWorkedOff(segs: seq<Segment>, us: seq<Uuid>, cuts: map<Uuid, Cut>, vpg: VolumeID, p: Uuid) {
    var m := Mine(segs, vpg, p);
    Mine(AllOff(segs, us, cuts), vpg, p) == Arranged(m, PiecesAt(m, cuts), PlacesOf(m, us))
  }

  lemma PieceIsNew(m: seq<Segment>, us: seq<Uuid>, cuts: map<Uuid, Cut>, n: int, x: Segment)
    requires NewPieces(us, cuts) && 0 <= n < |us|
    requires x in Together(PiecesAt(m, cuts), PlacesOf(m, us[..n]))
    ensures x.uuid != us[n]
  {
    var order := PlacesOf(m, us[..n]);
    TogetherHas(PiecesAt(m, cuts), order, x);
    hide PlacesOf, Together;
    var t :| InPart(PiecesAt(m, cuts), order, t, x);
    PlacesHave(m, us[..n], order[t]);
    assert order[t] in order;
    var y :| StandsAt(m, us[..n], y, order[t]);
    assert us[..n][y] == us[y];
    var g :| 0 <= g < |CutOf(cuts, us[y]).pieces| && CutOf(cuts, us[y]).pieces[g] == x;
  }

  /** Which reserved segment of the pRaid is worked off, if any: the one at the same original position. */
  lemma WorkedOffPlace(segs: seq<Segment>, us: seq<Uuid>, cuts: map<Uuid, Cut>, vpg: VolumeID, p: Uuid, n: int,
                       s: Segment)
    requires 0 <= n < |us| && NoneTwice(us) && NewPieces(us, cuts) && SoundList(segs)
    requires IsWorkedOff(segs, us[..n], cuts, vpg, p) && SoundList(AllOff(segs, us[..n], cuts))
    requires s in AllOff(segs, us[..n], cuts) && s.uuid == us[n]
    ensures var m, j := Mine(segs, vpg, p), PlaceOf(Mine(segs, vpg, p), us[n]);
            && (s in Mine(AllOff(segs, us[..n], cuts), vpg, p) <==> j >= 0)
            && (j >= 0 ==> s == m[j] && j !in PlacesOf(m, us[..n]))
  {
    var m, now := Mine(segs, vpg, p), AllOff(segs, us[..n], cuts);
    var order := PlacesOf(m, us[..n]);
    var parts := PiecesAt(m, cuts);
    MineHas(now, vpg, p);
    UndoneHas(m, SetOf(order));
    var j := PlaceOf(m, us[n]);
    PlacesHave(m, us[..n], j);
    forall x: Segment | x in Together(parts, order) ensures x.uuid != us[n] {
      PieceIsNew(m, us, cuts, n, x);
    }
    if j >= 0 {
      forall t ensures !StandsAt(m, us[..n], t, j) {
        if 0 <= t < n {
          PlaceIs(m, us[t], us[n]);
        }
      }
      hide PlaceOf, PlacesOf, Mine, Together, Undone, AllOff, PiecesAt;
      assert m[j] in Undone(m, SetOf(order));
      assert m[j] in Mine(now, vpg, p);
      SameByUuid(now, s, m[j]);
    } else {
      hide PlaceOf, PlacesOf, Mine, Together, Undone, AllOff, PiecesAt, SoundList;
      forall x | x in Mine(now, vpg, p) ensures x.uuid != us[n] {
        assert x in Undone(m, SetOf(order)) || x in Together(parts, order);
      }
    }
  }

  lemma SameByUuid(segs: seq<Segment>, s: Segment, t: Segment)
    requires SoundList(segs) && s in segs && t in segs && s.uuid == t.uuid
    ensures s == t
  {
    var i :| 0 <= i < |segs| && segs[i] == s;
    var k :| 0 <= k < |segs| && segs[k] == t;
  }

  /** Where everything stands afterwards: the reserved segments of the pRaid that were not worked off, in their
      order, then the pieces in the order their segments were worked off. */
  lemma {:induction false} WorkedOffArranges(segs: seq<Segment>, us: seq<Uuid>, cuts: map<Uuid, Cut>, vpg: VolumeID,
                                             p: Uuid)
    requires SoundList(segs) && Cuttable(segs, us, cuts) && NoneTwice(us) && NewPieces(us, cuts)
    ensures SoundList(AllOff(segs, us, cuts)) && IsWorkedOff(segs, us, cuts, vpg, p)
    decreases |us|
  {
    var m := Mine(segs, vpg, p);
    if us == [] {
      NothingArranged(m, PiecesAt(m, cuts));
      hide SoundList, Mine;
    } else {
      var n := |us| - 1;
      CuttablePrefix(segs, us, cuts, n);
      WorkedOffArranges(segs, us[..n], cuts, vpg, p);
      var now := AllOff(segs, us[..n], cuts);
      assert CutsHere(now, us[n], CutOf(cuts, us[n]));
      hide Cuttable, AllOff, SoundList, IsWorkedOff;
      var i :| 0 <= i < |now| && now[i].uuid == us[n]
          && CutAt(now, now[i], CutOf(cuts, us[n]).groups, CutOf(cuts, us[n]).pieces);
      WorkedOffSound(now, now[i], CutOf(cuts, us[n]).groups, CutOf(cuts, us[n]).pieces);
      ArrangesOneMore(segs, us, cuts, vpg, p, now[i]);
      AllOffStep(segs, us, cuts);
    }
  }

  lemma AllOffStep(segs: seq<Segment>, us: seq<Uuid>, cuts: map<Uuid, Cut>)
    requires us != []
    ensures AllOff(segs, us, cuts)
         == WorkedOff(AllOff(segs, us[..|us| - 1], cuts), us[|us| - 1], CutOf(cuts, us[|us| - 1]).pieces)
  {
  }

  lemma {:induction false} NothingArranged<T>(m: seq<T>, parts: seq<seq<T>>)
    ensures Arranged(m, parts, []) == m
    decreases |m|
  {
    if m != [] {
      NothingArranged(m[..|m| - 1], parts);
    }
  }

  lemma ArrangesOneMore(segs: seq<Segment>, us: seq<Uuid>, cuts: map<Uuid, Cut>, vpg: VolumeID, p: Uuid, s: Segment)
    requires SoundList(segs) && us != [] && NoneTwice(us) && NewPieces(us, cuts)
    requires var n := |us| - 1;
             && IsWorkedOff(segs, us[..n], cuts, vpg, p) && SoundList(AllOff(segs, us[..n], cuts))
             && s.uuid == us[n]
             && CutAt(AllOff(segs, us[..n], cuts), s, CutOf(cuts, us[n]).groups, CutOf(cuts, us[n]).pieces)
    ensures IsWorkedOff(segs, us, cuts, vpg, p)
  {
    var n := |us| - 1;
    var m, now := Mine(segs, vpg, p), AllOff(segs, us[..n], cuts);
    var order, parts := PlacesOf(m, us[..n]), PiecesAt(m, cuts);
    AllOffStep(segs, us, cuts);
    MineStep(now, s, CutOf(cuts, us[n]).groups, CutOf(cuts, us[n]).pieces, vpg, p);
    WorkedOffPlace(segs, us, cuts, vpg, p, n, s);
    MineDistinctIds(segs, vpg, p);
    var j := PlaceOf(m, us[n]);
    assert PlacesOf(m, us) == order + PlaceSeq(m, us[n]);
    hide PlaceOf, PlacesOf, Mine, Together, Undone, AllOff, SoundList, CutAt, WorkedOff, Drop, PiecesAt, Arranged;
    forall x: Segment | x in Together(parts, order) ensures x.uuid != us[n] {
      PieceIsNew(m, us, cuts, n, x);
    }
    if j >= 0 {
      ArrangedMore(m, parts, order, j);
    } else {
      ArrangedSame(m, parts, order, us[n]);
      assert order + [] == order;
    }
  }
}
