/** One reserved segment worked off on one drive: cut down to its used groups, or removed when nobody uses it. The
    segments derived from it follow the pieces they lie in, and each piece is used as its group was. */
module ReclaimMoves {
  import opened Ranges
  import opened Drives
  import opened DriveStore
  import opened ReservedSpace
  import opened SharedGapsHistory

  // ------------------------------------------------------ one segment worked off

  /** A piece of a reserved segment, by its offsets. */
  predicate IsPiece(piece: Segment, s: Segment, group: Range) {
    piece == s.(uuid := piece.uuid, lbs := s.lbs + group.lbs, lbe := s.lbs + group.lbe)
  }

  /** Used groups of a segment of so many blocks: ascending and apart. */
  ghost predicate CutGroups(groups: seq<Range>, blocks: int) {
    && (forall g | 0 <= g < |groups| :: groups[g].Nonempty() && 0 <= groups[g].lbs && groups[g].lbe < blocks)
    && (forall g, h | 0 <= g < h < |groups| :: groups[g].lbe < groups[h].lbs)
  }

  /** The pieces are cut at the groups, under new names. */
  ghost predicate CutAt(segs: seq<Segment>, s: Segment, groups: seq<Range>, pieces: seq<Segment>) {
    && s.isReserved && !s.fromReserved && s in segs
    && CutGroups(groups, s.Span().Blocks()) && |pieces| == |groups|
    && (forall g | 0 <= g < |groups| :: IsPiece(pieces[g], s, groups[g]))
    && (forall g, h | 0 <= g < h < |pieces| :: pieces[g].uuid != pieces[h].uuid)
    && (forall g, i | 0 <= g < |pieces| && 0 <= i < |segs| ::
          segs[i].uuid != pieces[g].uuid && !DerivedFrom(segs[i], pieces[g]))
    && (forall i | 0 <= i < |segs| && DerivedFrom(segs[i], s) ::
           exists g :: 0 <= g < |pieces| && segs[i].Span().Within(pieces[g].Span()))
  }

  /** What becomes of another segment of the list. */
  ghost predicate FollowsPiece(t: Segment, s: Segment, pieces: seq<Segment>, g: int) {
    && 0 <= g < |pieces| && t.Span().Within(pieces[g].Span())
    && Retag(t, pieces) == t.(reservedUUID := pieces[g].uuid)
  }

  lemma PiecesApart(s: Segment, groups: seq<Range>, pieces: seq<Segment>, blocks: int)
    requires CutGroups(groups, blocks) && |pieces| == |groups|
    requires forall g | 0 <= g < |groups| :: IsPiece(pieces[g], s, groups[g])
    ensures forall g, h | 0 <= g < |pieces| && 0 <= h < |pieces| && g != h :: !pieces[g].Span().Meets(pieces[h].Span())
  {
    forall g, h | 0 <= g < |pieces| && 0 <= h < |pieces| && g != h ensures !pieces[g].Span().Meets(pieces[h].Span()) {
      assert IsPiece(pieces[g], s, groups[g]) && IsPiece(pieces[h], s, groups[h]);
      assert if g < h then groups[g].lbe < groups[h].lbs else groups[h].lbe < groups[g].lbs;
    }
  }

  lemma PieceInside(s: Segment, groups: seq<Range>, pieces: seq<Segment>, g: int)
    requires CutGroups(groups, s.Span().Blocks()) && |pieces| == |groups| && 0 <= g < |groups|
    requires IsPiece(pieces[g], s, groups[g])
    ensures pieces[g].Span().Nonempty() && pieces[g].Span().Within(s.Span())
  {
  }

  lemma BesideOthers(segs: seq<Segment>, s: Segment, i: int)
    requires SoundList(segs) && s in segs && s.isReserved && 0 <= i < |segs| && segs[i].uuid != s.uuid
    ensures BesideReserved(s, segs[i]) && segs[i].Span().Nonempty()
    ensures segs[i].isReserved ==> BesideReserved(segs[i], s)
  {
    var k :| 0 <= k < |segs| && segs[k] == s;
    assert BesideReserved(segs[k], segs[i]);
  }

  /** A segment derived from `s` follows the piece it lies in; every other one stays as it is and clear of the
      pieces. */
  lemma RetagOne(segs: seq<Segment>, s: Segment, groups: seq<Range>, pieces: seq<Segment>, i: int)
    requires SoundList(segs) && CutAt(segs, s, groups, pieces) && 0 <= i < |segs| && segs[i].uuid != s.uuid
    ensures DerivedFrom(segs[i], s) ==> exists g :: FollowsPiece(segs[i], s, pieces, g)
    ensures !DerivedFrom(segs[i], s) ==>
              Retag(segs[i], pieces) == segs[i]
                  && forall g | 0 <= g < |pieces| :: !segs[i].Span().Meets(pieces[g].Span())
  {
    var t := segs[i];
    BesideOthers(segs, s, i);
    hide SoundList;
    if t.fromReserved {
      RetagPicks(t, pieces);
    } else {
      RetagPlain(t, pieces);
    }
    forall g | 0 <= g < |pieces| ensures pieces[g].Span().Nonempty() && pieces[g].Span().Within(s.Span()) {
      PieceInside(s, groups, pieces, g);
    }
    if DerivedFrom(t, s) {
      var g :| 0 <= g < |pieces| && t.Span().Within(pieces[g].Span());
      var k :| 0 <= k < |pieces| && t.Span().Within(pieces[k].Span())
          && Retag(t, pieces) == t.(reservedUUID := pieces[k].uuid);
      assert FollowsPiece(t, s, pieces, k);
    }
  }

  // -------------------------------------------------------------- what is left

  ghost predicate RestFrom(segs: seq<Segment>, i: int, u: Uuid, pieces: seq<Segment>, t: Segment) {
    0 <= i < |segs| && segs[i].uuid != u && t == Retag(segs[i], pieces)
  }

  lemma RestHas(segs: seq<Segment>, u: Uuid, pieces: seq<Segment>)
    ensures forall t :: t in Rest(segs, u, pieces) <==> exists i :: RestFrom(segs, i, u, pieces, t)
  {
    hide Without, Retag;
    var kept, rest := Without(segs, u), Rest(segs, u, pieces);
    forall t ensures t in rest <==> exists i :: RestFrom(segs, i, u, pieces, t) {
      if t in rest {
        var k :| 0 <= k < |rest| && rest[k] == t;
        assert kept[k] in kept;
        var i :| 0 <= i < |segs| && segs[i] == kept[k];
        assert RestFrom(segs, i, u, pieces, t);
      }
      if i :| RestFrom(segs, i, u, pieces, t) {
        assert segs[i] in kept;
        var k :| 0 <= k < |kept| && kept[k] == segs[i];
        assert rest[k] == t;
      }
    }
  }

  function Drop(segs: seq<Segment>, u: Uuid): seq<Segment> {
    if segs == [] then []
    else Drop(segs[..|segs| - 1], u) + if segs[|segs| - 1].uuid == u then [] else [segs[|segs| - 1]]
  }

  lemma DropSnoc(segs: seq<Segment>, t: Segment, u: Uuid)
    ensures Drop(segs + [t], u) == Drop(segs, u) + if t.uuid == u then [] else [t]
  {
    assert (segs + [t])[..|segs|] == segs;
  }

  lemma {:induction false} MineRest(segs: seq<Segment>, u: Uuid, pieces: seq<Segment>, vpg: VolumeID, p: Uuid)
    requires forall i | 0 <= i < |segs| :: !(segs[i].isReserved && segs[i].fromReserved)
    ensures Mine(Rest(segs, u, pieces), vpg, p) == Drop(Mine(segs, vpg, p), u)
    decreases |segs|
  {
    if segs != [] {
      var n := |segs| - 1;
      var s, rest := segs[n], Rest(segs[..n], u, pieces);
      MineRest(segs[..n], u, pieces, vpg, p);
      RestStep(segs, u, pieces);
      hide Rest;
      RetagKeepsSpan(s, pieces);
      var mine := Offered(s, vpg) && s.pRaid == p;
      if mine {
        DropSnoc(Mine(segs[..n], vpg, p), s, u);
      } else {
        assert Mine(segs, vpg, p) == Mine(segs[..n], vpg, p);
      }
      if s.uuid != u {
        assert (rest + [Retag(s, pieces)])[..|rest|] == rest;
      } else {
        assert Rest(segs, u, pieces) == rest;
      }
    }
  }

  lemma {:induction false} DropNothing(segs: seq<Segment>, u: Uuid)
    requires forall i | 0 <= i < |segs| :: segs[i].uuid != u
    ensures Drop(segs, u) == segs
    decreases |segs|
  {
    if segs != [] {
      DropNothing(segs[..|segs| - 1], u);
    }
  }

  lemma {:induction false} MinePieces(s: Segment, groups: seq<Range>, pieces: seq<Segment>, vpg: VolumeID, p: Uuid)
    requires Offered(s, vpg) && s.pRaid == p && |pieces| == |groups|
    requires forall g | 0 <= g < |groups| :: IsPiece(pieces[g], s, groups[g])
    ensures Mine(pieces, vpg, p) == pieces
    decreases |pieces|
  {
    if pieces != [] {
      var n := |pieces| - 1;
      assert IsPiece(pieces[n], s, groups[n]);
      MinePieces(s, groups[..n], pieces[..n], vpg, p);
    }
  }

  // -------------------------------------------------------------- still sound

  lemma {:induction false} RestSound(segs: seq<Segment>, n: nat, s: Segment, groups: seq<Range>, pieces: seq<Segment>)
    requires SoundList(segs) && CutAt(segs, s, groups, pieces) && n <= |segs|
    ensures SoundList(Rest(segs[..n], s.uuid, pieces))
    decreases n
  {
    if n > 0 {
      var k := n - 1;
      RestSound(segs, k, s, groups, pieces);
      assert segs[..n][..k] == segs[..k];
      RestStep(segs[..n], s.uuid, pieces);
      hide Rest;
      if segs[k].uuid != s.uuid {
        var rest := Rest(segs[..k], s.uuid, pieces);
        RestHas(segs[..k], s.uuid, pieces);
        RetagKeepsSpan(segs[k], pieces);
        forall i | 0 <= i < |rest|
          ensures rest[i].uuid != segs[k].uuid
          ensures rest[i].isReserved ==> BesideReserved(rest[i], Retag(segs[k], pieces))
          ensures segs[k].isReserved ==> BesideReserved(Retag(segs[k], pieces), rest[i])
        {
          assert rest[i] in rest;
          var x :| RestFrom(segs[..k], x, s.uuid, pieces, rest[i]);
          RetagKeepsSpan(segs[x], pieces);
          StillBeside(segs, s, groups, pieces, x, k);
          StillBeside(segs, s, groups, pieces, k, x);
        }
        SoundOne(segs, k);
        hide SoundList;
        SoundPush(rest, Retag(segs[k], pieces));
      }
    }
  }

  lemma SoundOne(segs: seq<Segment>, k: int)
    requires SoundList(segs) && 0 <= k < |segs|
    ensures segs[k].Span().Nonempty() && !(segs[k].isReserved && segs[k].fromReserved)
  {
  }

  /** Retagging both of two segments leaves a reserved one beside the other. */
  lemma StillBeside(segs: seq<Segment>, s: Segment, groups: seq<Range>, pieces: seq<Segment>, x: int, y: int)
    requires SoundList(segs) && CutAt(segs, s, groups, pieces) && 0 <= x < |segs| && 0 <= y < |segs| && x != y
    requires segs[x].uuid != s.uuid && segs[y].uuid != s.uuid
    ensures Retag(segs[x], pieces).uuid == segs[x].uuid && Retag(segs[x], pieces).uuid != Retag(segs[y], pieces).uuid
    ensures segs[x].isReserved ==> BesideReserved(Retag(segs[x], pieces), Retag(segs[y], pieces))
  {
    RetagKeepsSpan(segs[x], pieces);
    RetagKeepsSpan(segs[y], pieces);
    RetagOne(segs, s, groups, pieces, y);
    if segs[x].isReserved {
      assert BesideReserved(segs[x], segs[y]);
      RetagOne(segs, s, groups, pieces, x);
      if DerivedFrom(segs[y], s) {
        var g :| FollowsPiece(segs[y], s, pieces, g);
      }
    }
  }

  lemma {:induction false} PiecesSound(segs: seq<Segment>, s: Segment, groups: seq<Range>, pieces: seq<Segment>, n: nat)
    requires SoundList(segs) && CutAt(segs, s, groups, pieces) && n <= |pieces|
    ensures SoundList(Rest(segs, s.uuid, pieces) + pieces[..n])
    decreases n
  {
    var rest := Rest(segs, s.uuid, pieces);
    if n == 0 {
      assert segs[..|segs|] == segs && rest + pieces[..0] == rest;
      RestSound(segs, |segs|, s, groups, pieces);
    } else {
      PiecesSound(segs, s, groups, pieces, n - 1);
      var all := rest + pieces[..n - 1];
      assert IsPiece(pieces[n - 1], s, groups[n - 1]);
      PieceInside(s, groups, pieces, n - 1);
      RestHas(segs, s.uuid, pieces);
      PiecesApart(s, groups, pieces, s.Span().Blocks());
      forall i | 0 <= i < |all|
        ensures all[i].uuid != pieces[n - 1].uuid && BesideReserved(pieces[n - 1], all[i])
        ensures all[i].isReserved ==> BesideReserved(all[i], pieces[n - 1])
      {
        if i < |rest| {
          assert rest[i] in rest;
          var x :| RestFrom(segs, x, s.uuid, pieces, rest[i]);
          PieceBeside(segs, s, groups, pieces, x, n - 1);
        } else {
          assert all[i] == pieces[i - |rest|] && IsPiece(all[i], s, groups[i - |rest|]);
        }
      }
      assert rest + pieces[..n] == all + [pieces[n - 1]];
      hide SoundList, Rest;
      SoundPush(all, pieces[n - 1]);
    }
  }

  lemma PieceBeside(segs: seq<Segment>, s: Segment, groups: seq<Range>, pieces: seq<Segment>, x: int, g: int)
    requires SoundList(segs) && CutAt(segs, s, groups, pieces) && 0 <= x < |segs| && segs[x].uuid != s.uuid
             && 0 <= g < |pieces|
    ensures Retag(segs[x], pieces).uuid != pieces[g].uuid && BesideReserved(pieces[g], Retag(segs[x], pieces))
    ensures segs[x].isReserved ==> BesideReserved(Retag(segs[x], pieces), pieces[g])
  {
    assert IsPiece(pieces[g], s, groups[g]);
    RetagKeepsSpan(segs[x], pieces);
    RetagOne(segs, s, groups, pieces, x);
    PiecesApart(s, groups, pieces, s.Span().Blocks());
    BesideOthers(segs, s, x);
    hide SoundList;
    if DerivedFrom(segs[x], s) {
      var h :| FollowsPiece(segs[x], s, pieces, h);
      assert h != g ==> pieces[h].uuid != pieces[g].uuid && !pieces[h].Span().Meets(pieces[g].Span());
    }
  }

  /** Working a segment off keeps the list sound. */
  lemma WorkedOffSound(segs: seq<Segment>, s: Segment, groups: seq<Range>, pieces: seq<Segment>)
    requires SoundList(segs) && CutAt(segs, s, groups, pieces)
    ensures SoundList(WorkedOff(segs, s.uuid, pieces))
  {
    PiecesSound(segs, s, groups, pieces, |pieces|);
    assert pieces[..|pieces|] == pieces;
  }

  // ---------------------------------------------------------------- still used

  /** The uses inside a group, as seen from its piece. */
  ghost function UsesWithin(uses: set<Use>, group: Range): set<Use> {
    set u | u in uses && group.lbs <= u.offset
        && u.offset + u.blocks - 1 <= group.lbe :: Use(u.pRaid, u.offset - group.lbs, u.blocks)
  }

  ghost predicate UsesFrom(segs: seq<Segment>, i: int, s: Segment, u: Use) {
    0 <= i < |segs| && DerivedFrom(segs[i], s) && UseBy(segs[i], s) == u
  }

  lemma InUses(segs: seq<Segment>, s: Segment, u: Use)
    ensures u in Uses(segs, s) <==> exists i :: UsesFrom(segs, i, s, u)
  {
    if u in Uses(segs, s) {
      var i :| 0 <= i < |segs| && DerivedFrom(segs[i], s) && UseBy(segs[i], s) == u;
      assert UsesFrom(segs, i, s, u);
    }
  }

  ghost predicate UsesAfter(segs: seq<Segment>, u: Uuid, pieces: seq<Segment>, i: int, s: Segment, use: Use) {
    0 <= i < |segs| && segs[i].uuid != u && DerivedFrom(Retag(segs[i], pieces), s)
        && UseBy(Retag(segs[i], pieces), s) == use
  }

  lemma DerivedFirst(rest: seq<Segment>, pieces: seq<Segment>, i: int)
    requires forall g | 0 <= g < |pieces| :: !pieces[g].fromReserved
    requires 0 <= i < |rest + pieces| && (rest + pieces)[i].fromReserved
    ensures i < |rest|
  {
  }

  /** Who names a reservation afterwards: a derived segment that followed. */
  lemma UsesOfRest(segs: seq<Segment>, u: Uuid, pieces: seq<Segment>, s: Segment, use: Use)
    requires forall g | 0 <= g < |pieces| :: !pieces[g].fromReserved
    ensures use in Uses(WorkedOff(segs, u, pieces), s)
       <==> exists i :: UsesAfter(segs, u, pieces, i, s, use)
  {
    var rest, all := Rest(segs, u, pieces), WorkedOff(segs, u, pieces);
    RestHas(segs, u, pieces);
    InUses(all, s, use);
    hide Uses;
    if i :| UsesFrom(all, i, s, use) {
      DerivedFirst(rest, pieces, i);
      assert rest[i] in rest;
      var k :| RestFrom(segs, k, u, pieces, rest[i]);
      assert UsesAfter(segs, u, pieces, k, s, use);
    }
    if i :| UsesAfter(segs, u, pieces, i, s, use) {
      assert RestFrom(segs, i, u, pieces, Retag(segs[i], pieces));
      assert Retag(segs[i], pieces) in rest;
      var k :| 0 <= k < |rest| && rest[k] == Retag(segs[i], pieces);
      assert all[k] == rest[k];
      assert UsesFrom(all, k, s, use);
    }
  }

  lemma PiecesPlain(segs: seq<Segment>, s: Segment, groups: seq<Range>, pieces: seq<Segment>)
    requires CutAt(segs, s, groups, pieces)
    ensures forall g | 0 <= g < |pieces| :: !pieces[g].fromReserved && pieces[g].isReserved
  {
    forall g | 0 <= g < |pieces| ensures !pieces[g].fromReserved && pieces[g].isReserved {
      assert IsPiece(pieces[g], s, groups[g]);
    }
  }

  /** The uses of another reservation stay what they were. */
  lemma OtherUses(segs: seq<Segment>, s: Segment, groups: seq<Range>, pieces: seq<Segment>, r: Segment)
    requires SoundList(segs) && CutAt(segs, s, groups, pieces) && r in segs && r.isReserved && r.uuid != s.uuid
    ensures Uses(WorkedOff(segs, s.uuid, pieces), r) == Uses(segs, r)
  {
    PiecesPlain(segs, s, groups, pieces);
    forall i | 0 <= i < |segs| && segs[i].uuid != s.uuid
      ensures DerivedFrom(Retag(segs[i], pieces), r) <==> DerivedFrom(segs[i], r)
      ensures DerivedFrom(segs[i], r) ==> Retag(segs[i], pieces) == segs[i]
    {
      OtherName(segs, s, groups, pieces, r, i);
    }
    forall i | 0 <= i < |segs| && DerivedFrom(segs[i], r) ensures segs[i].uuid != s.uuid {
      DerivedIsNot(segs, s, i);
    }
    hide SoundList, CutAt, Rest, Retag, Uses, WorkedOff;
    forall u ensures u in Uses(WorkedOff(segs, s.uuid, pieces), r) <==> u in Uses(segs, r) {
      UsesOfRest(segs, s.uuid, pieces, r, u);
      InUses(segs, r, u);
      if i :| UsesFrom(segs, i, r, u) {
        assert UsesAfter(segs, s.uuid, pieces, i, r, u);
      }
      if i :| UsesAfter(segs, s.uuid, pieces, i, r, u) {
        assert UsesFrom(segs, i, r, u);
      }
    }
  }

  lemma DerivedIsNot(segs: seq<Segment>, s: Segment, i: int)
    requires SoundList(segs) && s in segs && s.isReserved && 0 <= i < |segs| && segs[i].fromReserved
    ensures segs[i].uuid != s.uuid
  {
  }

  lemma OtherName(segs: seq<Segment>, s: Segment, groups: seq<Range>, pieces: seq<Segment>, r: Segment, i: int)
    requires SoundList(segs) && CutAt(segs, s, groups, pieces) && r in segs && r.uuid != s.uuid
    requires 0 <= i < |segs| && segs[i].uuid != s.uuid
    ensures DerivedFrom(Retag(segs[i], pieces), r) <==> DerivedFrom(segs[i], r)
    ensures DerivedFrom(segs[i], r) ==> Retag(segs[i], pieces) == segs[i]
  {
    RetagOne(segs, s, groups, pieces, i);
    if DerivedFrom(segs[i], s) {
      var g :| FollowsPiece(segs[i], s, pieces, g);
      var k :| 0 <= k < |segs| && segs[k] == r;
      assert segs[k].uuid != pieces[g].uuid;
    }
  }

  /** The uses of a piece are the uses of the segment inside its group. */
  lemma PieceUses(segs: seq<Segment>, s: Segment, groups: seq<Range>, pieces: seq<Segment>, g: int)
    requires SoundList(segs) && CutAt(segs, s, groups, pieces) && 0 <= g < |pieces|
    ensures Uses(WorkedOff(segs, s.uuid, pieces), pieces[g]) == UsesWithin(Uses(segs, s), groups[g])
  {
    PiecesPlain(segs, s, groups, pieces);
    forall u ensures u in Uses(WorkedOff(segs, s.uuid, pieces), pieces[g])
           <==> u in UsesWithin(Uses(segs, s), groups[g]) {
      hide SoundList, CutAt, Rest, Retag, Uses, WorkedOff, UsesWithin;
      UsesOfRest(segs, s.uuid, pieces, pieces[g], u);
      if i :| UsesAfter(segs, s.uuid, pieces, i, pieces[g], u) {
        PieceName(segs, s, groups, pieces, g, i);
        var w := UseBy(segs[i], s);
        assert UsesFrom(segs, i, s, w);
        InUses(segs, s, w);
        IsUseWithin(Uses(segs, s), groups[g], w, u);
      }
      if u in UsesWithin(Uses(segs, s), groups[g]) {
        WithinIsUsed(segs, s, groups, pieces, g, u);
      }
    }
  }

  lemma WithinIsUsed(segs: seq<Segment>, s: Segment, groups: seq<Range>, pieces: seq<Segment>, g: int, u: Use)
    requires SoundList(segs) && CutAt(segs, s, groups, pieces) && 0 <= g < |pieces|
    requires u in UsesWithin(Uses(segs, s), groups[g])
    ensures exists i :: UsesAfter(segs, s.uuid, pieces, i, pieces[g], u)
  {
    assert s in segs && s.isReserved;
    hide SoundList, CutAt, Retag, Uses, UsesWithin;
    var w := FromGroup(Uses(segs, s), groups[g], u);
    InUses(segs, s, w);
    var i :| UsesFrom(segs, i, s, w);
    DerivedIsNot(segs, s, i);
    PieceName(segs, s, groups, pieces, g, i);
    assert UsesAfter(segs, s.uuid, pieces, i, pieces[g], u);
  }

  lemma IsUseWithin(uses: set<Use>, group: Range, w: Use, u: Use)
    requires w in uses && group.lbs <= w.offset && w.offset + w.blocks - 1 <= group.lbe
    requires u == Use(w.pRaid, w.offset - group.lbs, w.blocks)
    ensures u in UsesWithin(uses, group)
  {
  }

  lemma FromGroup(uses: set<Use>, group: Range, u: Use) returns (w: Use)
    requires u in UsesWithin(uses, group)
    ensures w in uses && group.lbs <= w.offset && w.offset + w.blocks - 1 <= group.lbe
    ensures u == Use(w.pRaid, w.offset - group.lbs, w.blocks)
  {
    w :| w in uses && group.lbs <= w.offset && w.offset + w.blocks - 1 <= group.lbe
         && u == Use(w.pRaid, w.offset - group.lbs, w.blocks);
  }

  lemma PieceName(segs: seq<Segment>, s: Segment, groups: seq<Range>, pieces: seq<Segment>, g: int, i: int)
    requires SoundList(segs) && CutAt(segs, s, groups, pieces) && 0 <= g < |pieces|
    requires 0 <= i < |segs| && segs[i].uuid != s.uuid
    ensures DerivedFrom(Retag(segs[i], pieces), pieces[g]) <==>
              DerivedFrom(segs[i], s) && groups[g].lbs <= UseBy(segs[i], s).offset
              && UseBy(segs[i], s).offset + UseBy(segs[i], s).blocks - 1 <= groups[g].lbe
    ensures DerivedFrom(Retag(segs[i], pieces), pieces[g]) ==>
              UseBy(Retag(segs[i], pieces), pieces[g])
              == Use(segs[i].pRaid, UseBy(segs[i], s).offset - groups[g].lbs, UseBy(segs[i], s).blocks)
  {
    assert IsPiece(pieces[g], s, groups[g]);
    RetagOne(segs, s, groups, pieces, i);
    SoundOne(segs, i);
    PiecesApart(s, groups, pieces, s.Span().Blocks());
    hide SoundList;
    if DerivedFrom(segs[i], s) {
      var h :| FollowsPiece(segs[i], s, pieces, h);
      assert h != g ==> pieces[h].uuid != pieces[g].uuid && !pieces[h].Span().Meets(pieces[g].Span());
      hide CutAt;
    }
  }
}
