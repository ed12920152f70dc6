/** The attachments of one client document and the atomic updates on them: references come and go, requests
    of many managements take turns through a `pending` mark, reports finish what the client did. */
module Attachments {
  import opened Options

  type Uuid = nat
  type RefID = nat

  datatype Wish = Attaching | Reattaching | Detaching

  /** One start of one management process. */
  datatype Boot = Boot(managementId: nat, bootVersion: nat)

  datatype Pending = Pending(action: Wish, handledBy: Boot)

  datatype Reservation = Reservation(mode: nat, version: int)

  /** A missing field is `None`. */
  datatype Attachment = Attachment(name: Option<string>, action: Option<Wish>, pending: Option<Pending>,
                                   refs: Option<set<RefID>>, version: Option<nat>, attachmentsVersion: Option<nat>,
                                   reservation: Option<Reservation>)

  const EMPTY := Attachment(None, None, None, None, None, None, None)

  datatype Client = Client(attachments: map<Uuid, Attachment>, attachmentsVersion: nat)

  function Put(c: Client, u: Uuid, a: Attachment): Client {
    c.(attachments := c.attachments[u := a])
  }

  // ------------------------------------------------------- the pending mark

  /** What a request wants to mark: an attach request knows the name of the volume, a detach does not. */
  datatype PendRequest = PendRequest(uuid: Uuid, name: Option<string>, pending: Pending)

  /** The stages of `getUpdatePendingAttachmentsPipeline` for one attachment: create it if it is missing,
      then write each field unless something is pending. */
  function Pend(c: Client, r: PendRequest): Client {
    var a := if r.uuid in c.attachments then c.attachments[r.uuid] else EMPTY;
    if a.pending.Some? then Put(c, r.uuid, a)
    else Put(c, r.uuid, a.(name := if r.name.Some? then r.name else a.name, pending := Some(r.pending)))
  }

  function PendAll(c: Client, rs: seq<PendRequest>): Client {
    if rs == [] then c else Pend(PendAll(c, rs[..|rs| - 1]), rs[|rs| - 1])
  }

  predicate Owns(a: Attachment, action: Wish, boot: Boot) {
    a.pending == Some(Pending(action, boot))
  }

  /** `buildClearPendingPipeline` with an owner: an attachment that has an action only loses the mark, one
      that was created for the mark disappears. */
  function ClearOwned(c: Client, u: Uuid, action: Wish, boot: Boot): Client {
    if u !in c.attachments || !Owns(c.attachments[u], action, boot) then c
    else if c.attachments[u].action.Some? then Put(c, u, c.attachments[u].(pending := None))
    else c.(attachments := c.attachments - {u})
  }

  function ClearAll(c: Client, us: seq<Uuid>, action: Wish, boot: Boot): Client {
    if us == [] then c else ClearOwned(ClearAll(c, us[..|us| - 1], action, boot), us[|us| - 1], action, boot)
  }

  /** What a caller can check before marking: the attachment is new, or it has an action, nothing is pending
      and the name is known; or another boot, or another action, holds it. */
  predicate CanUndo(c: Client, r: PendRequest) {
    || r.uuid !in c.attachments
    || (var a := c.attachments[r.uuid];
        if a.pending.None? then a.action.Some? && (r.name.Some? ==> a.name == r.name)
        else a.pending != Some(r.pending))
  }

  /** Marking and clearing by the same owner is no change at all, exactly then. */
  lemma PendThenClear(c: Client, r: PendRequest)
    ensures ClearOwned(Pend(c, r), r.uuid, r.pending.action, r.pending.handledBy) == c <==> CanUndo(c, r)
  {
    var d := Pend(c, r);
    var e := ClearOwned(d, r.uuid, r.pending.action, r.pending.handledBy);
    assert d.attachments[r.uuid].pending.Some?;
    if r.uuid !in c.attachments {
      assert e.attachments == c.attachments;
    } else {
      var a := c.attachments[r.uuid];
      assert c.attachments[r.uuid := a] == c.attachments;
      if a.pending.None? && a.action.Some? {
        var b := e.attachments[r.uuid];
        assert b == a.(name := if r.name.Some? then r.name else a.name);
        assert e.attachments == c.attachments[r.uuid := b];
        if e == c {
          assert b == a;
        }
      }
    }
  }

  ghost predicate DistinctUuids(rs: seq<PendRequest>) {
    forall i, j | 0 <= i < j < |rs| :: rs[i].uuid != rs[j].uuid
  }

  lemma {:induction false} PendAllElsewhere(c: Client, rs: seq<PendRequest>, u: Uuid)
    requires forall i | 0 <= i < |rs| :: rs[i].uuid != u
    ensures u in PendAll(c, rs).attachments <==> u in c.attachments
    ensures u in c.attachments ==> PendAll(c, rs).attachments[u] == c.attachments[u]
    ensures PendAll(c, rs).attachmentsVersion == c.attachmentsVersion
    decreases |rs|
  {
    if rs != [] {
      PendAllElsewhere(c, rs[..|rs| - 1], u);
    }
  }

  function UuidsOf(rs: seq<PendRequest>): (r: seq<Uuid>)
    ensures |r| == |rs| && forall i | 0 <= i < |r| :: r[i] == rs[i].uuid
  {
    seq(|rs|, i requires 0 <= i < |rs| => rs[i].uuid)
  }

  lemma ClearCommutes(c: Client, u: Uuid, v: Uuid, action: Wish, boot: Boot)
    requires u != v
    ensures ClearOwned(ClearOwned(c, u, action, boot), v, action, boot)
            == ClearOwned(ClearOwned(c, v, action, boot), u, action, boot)
  {
    var one := ClearOwned(ClearOwned(c, u, action, boot), v, action, boot);
    var other := ClearOwned(ClearOwned(c, v, action, boot), u, action, boot);
    assert one.attachments == other.attachments;
  }

  lemma {:induction false} ClearAllMoves(c: Client, us: seq<Uuid>, u: Uuid, action: Wish, boot: Boot)
    requires u !in us
    ensures ClearAll(ClearOwned(c, u, action, boot), us, action, boot)
            == ClearOwned(ClearAll(c, us, action, boot), u, action, boot)
    decreases |us|
  {
    if us != [] {
      var n := |us| - 1;
      ClearAllMoves(c, us[..n], u, action, boot);
      assert us[n] in us;
      ClearCommutes(ClearAll(c, us[..n], action, boot), us[n], u, action, boot);
    }
  }

  /** A request over several attachments that marks them and then gives up leaves the document as it was. */
  lemma {:induction false} PendAllThenClearAll(c: Client, rs: seq<PendRequest>, action: Wish, boot: Boot)
    requires DistinctUuids(rs) &&
                forall i | 0 <= i < |rs| :: CanUndo(c, rs[i]) && rs[i].pending == Pending(action, boot)
    ensures ClearAll(PendAll(c, rs), UuidsOf(rs), action, boot) == c
    decreases |rs|
  {
    if rs != [] {
      var n := |rs| - 1;
      var init, last := rs[..n], rs[n];
      var before := PendAll(c, init);
      PendAllElsewhere(c, init, last.uuid);
      assert CanUndo(before, last);
      PendThenClear(before, last);
      var marked := Pend(before, last);
      var us := UuidsOf(rs);
      assert us[..n] == UuidsOf(init);
      ClearAllMoves(marked, us[..n], last.uuid, action, boot);
      PendAllThenClearAll(c, init, action, boot);
    }
  }

  datatype MarkStep = MarkPend(r: PendRequest) | MarkClear(u: Uuid, action: Wish, boot: Boot)

  function Marked(c: Client, s: MarkStep): Client {
    match s
    case MarkPend(r) => Pend(c, r)
    case MarkClear(u, action, boot) => ClearOwned(c, u, action, boot)
  }

  function MarkedAll(c: Client, steps: seq<MarkStep>): Client {
    if steps == [] then c else Marked(MarkedAll(c, steps[..|steps| - 1]), steps[|steps| - 1])
  }

  /** Over any interleaving of marks and clears by any number of managements, a mark stays what it is until
      the boot that set it clears it. */
  lemma {:induction false} MarkBelongsToOwner(c: Client, steps: seq<MarkStep>, u: Uuid, p: Pending)
    requires u in c.attachments && c.attachments[u].pending == Some(p)
    requires forall i | 0 <= i < |steps| :: steps[i] != MarkClear(u, p.action, p.handledBy)
    ensures u in MarkedAll(c, steps).attachments && MarkedAll(c, steps).attachments[u].pending == Some(p)
    decreases |steps|
  {
    if steps != [] {
      MarkBelongsToOwner(c, steps[..|steps| - 1], u, p);
    }
  }

  /** The owner is the boot, not the request: a second request of the same boot that gives up takes the mark
      of the first one with it. */
  lemma SameBootSharesTheMark(c: Client, first: PendRequest, second: PendRequest)
    requires first.uuid == second.uuid && first.pending == second.pending
    requires first.uuid in c.attachments && c.attachments[first.uuid].action.Some?
             && c.attachments[first.uuid].pending.None?
    ensures var after := ClearOwned(Pend(Pend(c, first), second), second.uuid, second.pending.action,
            second.pending.handledBy);
            first.uuid in after.attachments && after.attachments[first.uuid].pending.None?
  {
  }

  // -------------------------------------------------------------- references

  function RefsOf(a: Attachment): set<RefID> {
    if a.refs.Some? then a.refs.value else {}
  }

  function Next(v: Option<nat>): Option<nat> {
    if v.Some? then Some(v.value + 1) else None
  }

  /** Version of the attachment, of the client, and the client's again on the attachment. */
  function Bumped(c: Client, u: Uuid, a: Attachment): Client {
    Put(c, u, a.(version := Next(a.version), attachmentsVersion := Some(c.attachmentsVersion + 1)))
    .(attachmentsVersion := c.attachmentsVersion + 1)
  }

  predicate CanAddRef(a: Attachment, join: Option<nat>) {
    && a.action == Some(Attaching) && RefsOf(a) != {}
    && !(a.pending.Some? && a.pending.value.action == Detaching)
    && (join.Some? ==> a.reservation.Some? && a.reservation.value.mode == join.value)
  }

  function AddRef(c: Client, u: Uuid, ref: RefID, join: Option<nat>): Client {
    if u in c.attachments && CanAddRef(c.attachments[u], join)
    then Bumped(c, u, c.attachments[u].(refs := Some(RefsOf(c.attachments[u]) + {ref})))
    else c
  }

  predicate CanRemoveRef(a: Attachment) {
    |RefsOf(a)| != 1 && a.pending.None?
  }

  function RemoveRef(c: Client, u: Uuid, ref: RefID): Client {
    if u in c.attachments && CanRemoveRef(c.attachments[u])
    then
      var a := c.attachments[u];
      Bumped(c, u, a.(refs := if a.refs.Some? then Some(RefsOf(a) - {ref}) else None))
    else c
  }

  function FinishAttach(c: Client, u: Uuid, name: string, ref: RefID, reservation: Reservation): Client {
    var a := if u in c.attachments then c.attachments[u] else EMPTY;
    Put(c, u, a.(name := Some(name), action := Some(Attaching), reservation := Some(reservation),
                 refs := Some(RefsOf(a) + {ref}),
                 version := if a.version.Some? then Next(a.version) else Some(1),
                 attachmentsVersion := Some(c.attachmentsVersion + 1), pending := None))
    .(attachmentsVersion := c.attachmentsVersion + 1)
  }

  /** The update fails, and changes nothing, on an attachment without a reference list. */
  function FinishDetach(c: Client, u: Uuid, ref: RefID): Client {
    if u !in c.attachments || c.attachments[u].refs.None? then c
    else
      var a := c.attachments[u];
      var left := RefsOf(a) - {ref};
      Bumped(c, u, a.(refs := Some(left), action := Some(if left == {} then Detaching else Attaching), pending := None))
  }

  predicate Preemptable(a: Attachment, reservationVersion: int) {
    a.action == Some(Attaching) && a.reservation.Some? && a.reservation.value.version < reservationVersion
  }

  /** Counts the versions of client and attachment, but not `attachmentsVersion` of the attachment. */
  function Preempt(c: Client, u: Uuid, reservationVersion: int): Client {
    if u in c.attachments && Preemptable(c.attachments[u], reservationVersion)
    then Put(c, u, c.attachments[u].(action := Some(Detaching), version := Next(c.attachments[u].version)))
         .(attachmentsVersion := c.attachmentsVersion + 1)
    else c
  }

  /** The guard of every report that changes the wishful state: the attachment is still at the version read. */
  predicate Unmoved(c: Client, u: Uuid, snapshot: Attachment) {
    u in c.attachments && snapshot.attachmentsVersion.Some?
        && c.attachments[u].attachmentsVersion == snapshot.attachmentsVersion
  }

  function SetAction(c: Client, u: Uuid, snapshot: Attachment, action: Wish): Client {
    if Unmoved(c, u, snapshot)
    then Put(c, u, c.attachments[u].(action := Some(action))).(attachmentsVersion := c.attachmentsVersion + 1)
    else c
  }

  function RemoveAttachment(c: Client, u: Uuid, snapshot: Attachment): Client {
    if Unmoved(c, u, snapshot) then c.(attachments := c.attachments - {u}) else c
  }
}
