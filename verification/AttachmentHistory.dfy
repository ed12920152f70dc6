/** What each update of an attachment does to its references, and which references a whole interleaving leaves: those
    that were added and not taken away since. */
module AttachmentHistory {
  import opened Options
  import opened Attachments
  import opened AttachmentRuns

  // ------------------------------------------------------------- one update

  /** Attachment `u` is there, and no other differs. */
  ghost predicate OnlyAttachment(c: Client, d: Client, u: Uuid) {
    && u in d.attachments && d.attachments.Keys == c.attachments.Keys + {u}
    && (forall v | v in c.attachments && v != u :: d.attachments[v] == c.attachments[v])
  }

  /** The update is a new version of the client and of the attachment. */
  ghost predicate NewVersion(c: Client, d: Client, u: Uuid)
    requires u in c.attachments && u in d.attachments
  {
    && d.attachmentsVersion == c.attachmentsVersion + 1
    && d.attachments[u].attachmentsVersion == Some(c.attachmentsVersion + 1)
    && (c.attachments[u].version.Some? ==> d.attachments[u].version == Some(c.attachments[u].version.value + 1))
  }

  ghost predicate SameWish(a: Attachment, b: Attachment) {
    b.name == a.name && b.action == a.action && b.pending == a.pending && b.reservation == a.reservation
  }

  /** Without a mark, and with no or several references, exactly the one reference goes; otherwise nothing changes. */
  lemma RemoveRefExactly(c: Client, u: Uuid, ref: RefID)
    ensures var d := RemoveRef(c, u, ref);
            if u in c.attachments && c.attachments[u].pending.None? && |RefsOf(c.attachments[u])| != 1
            then
              && OnlyAttachment(c, d, u) && NewVersion(c, d, u) && SameWish(c.attachments[u], d.attachments[u])
              && forall r :: r in RefsOf(d.attachments[u]) <==> r in RefsOf(c.attachments[u]) && r != ref
            else d == c
  {
  }

  /** A reference joins an attached volume that others refer to and nobody is about to detach, in the mode of its
      reservation where the request names one: exactly that one is added. Otherwise nothing changes. */
  lemma AddRefExactly(c: Client, u: Uuid, ref: RefID, join: Option<nat>)
    ensures var d := AddRef(c, u, ref, join);
            if && u in c.attachments && c.attachments[u].action == Some(Attaching) && RefsOf(c.attachments[u]) != {}
               && (c.attachments[u].pending.Some? ==> c.attachments[u].pending.value.action != Detaching)
               && (join.Some? ==> c.attachments[u].reservation.Some?
                                  && c.attachments[u].reservation.value.mode == join.value)
            then
              && OnlyAttachment(c, d, u) && NewVersion(c, d, u) && SameWish(c.attachments[u], d.attachments[u])
              && forall r :: r in RefsOf(d.attachments[u]) <==> r in RefsOf(c.attachments[u]) || r == ref
            else d == c
  {
  }

  /** A finished attach stores the name, the wish and the reservation, adds its reference and takes the mark off. */
  lemma FinishAttachExactly(c: Client, u: Uuid, name: string, ref: RefID, reservation: Reservation)
    ensures var d := FinishAttach(c, u, name, ref, reservation);
            && OnlyAttachment(c, d, u) && d.attachmentsVersion == c.attachmentsVersion + 1
            && d.attachments[u].attachmentsVersion == Some(c.attachmentsVersion + 1)
            && d.attachments[u].version == Some(if u in c.attachments && c.attachments[u].version.Some?
                                                then c.attachments[u].version.value + 1 else 1)
            && d.attachments[u].name == Some(name) && d.attachments[u].action == Some(Attaching)
            && d.attachments[u].pending.None? && d.attachments[u].reservation == Some(reservation)
            && forall r :: r in RefsOf(d.attachments[u])
                 <==> r == ref || (u in c.attachments && r in RefsOf(c.attachments[u]))
  {
  }

  /** A finished detach takes its reference and the mark; the wish is detaching if and only if nobody else refers to
      the attachment. It fails on an attachment without a list of references. */
  lemma FinishDetachExactly(c: Client, u: Uuid, ref: RefID)
    ensures var d := FinishDetach(c, u, ref);
            if u in c.attachments && c.attachments[u].refs.Some?
            then
              && OnlyAttachment(c, d, u) && NewVersion(c, d, u)
              && d.attachments[u].name == c.attachments[u].name && d.attachments[u].pending.None?
              && d.attachments[u].reservation == c.attachments[u].reservation
              && d.attachments[u].action
                 == Some(if exists r :: r in RefsOf(c.attachments[u]) && r != ref then Attaching else Detaching)
              && forall r :: r in RefsOf(d.attachments[u]) <==> r in RefsOf(c.attachments[u]) && r != ref
            else d == c
  {
    if u in c.attachments {
      SomebodyElse(RefsOf(c.attachments[u]), ref);
    }
  }

  lemma SomebodyElse(refs: set<RefID>, ref: RefID)
    ensures refs - {ref} != {} <==> exists r :: r in refs && r != ref
  {
    if r :| r in refs && r != ref {
      assert r in refs - {ref};
    }
    if r :| r in refs - {ref} {
      assert r in refs && r != ref;
    }
  }

  /** A newer reservation turns an attached volume to detaching and leaves its references. The version that guards
      the reports stays what it was. */
  lemma PreemptExactly(c: Client, u: Uuid, reservationVersion: int)
    ensures var d := Preempt(c, u, reservationVersion);
            if && u in c.attachments && c.attachments[u].action == Some(Attaching)
               && c.attachments[u].reservation.Some? && c.attachments[u].reservation.value.version < reservationVersion
            then
              && OnlyAttachment(c, d, u) && d.attachmentsVersion == c.attachmentsVersion + 1
              && d.attachments[u] == c.attachments[u].(action := Some(Detaching), version := d.attachments[u].version)
              && (c.attachments[u].version.Some? ==>
                    d.attachments[u].version == Some(c.attachments[u].version.value + 1))
            else d == c
  {
  }

  /** A report's update goes through if and only if the attachment still has the version it was read with; it sets
      the wish, announces it with a new version of the client and leaves everything else. */
  lemma SetActionExactly(c: Client, u: Uuid, snapshot: Attachment, action: Wish)
    ensures var d := SetAction(c, u, snapshot, action);
            if && u in c.attachments && snapshot.attachmentsVersion.Some?
               && c.attachments[u].attachmentsVersion == snapshot.attachmentsVersion
            then
              && OnlyAttachment(c, d, u) && d.attachmentsVersion == c.attachmentsVersion + 1
              && d.attachments[u] == c.attachments[u].(action := Some(action))
            else d == c
  {
  }

  /** A mark is put where there is none, without a new version: it changes nothing but the mark and the name. */
  lemma PendExactly(c: Client, r: PendRequest)
    ensures var d := Pend(c, r);
            && OnlyAttachment(c, d, r.uuid) && d.attachmentsVersion == c.attachmentsVersion
            && Said(d, r.uuid) == Said(c, r.uuid)
            && if r.uuid in c.attachments && c.attachments[r.uuid].pending.Some? then d == c
               else && d.attachments[r.uuid].pending == Some(r.pending)
                    && (r.name.Some? ==> d.attachments[r.uuid].name == r.name)
                    && (r.name.None? && r.uuid in c.attachments ==>
                          d.attachments[r.uuid].name == c.attachments[r.uuid].name)
  {
  }

  /** A clear takes the mark of its own action and boot and no other. An attachment without a wish goes with it. */
  lemma ClearOwnedExactly(c: Client, u: Uuid, action: Wish, boot: Boot)
    ensures var d := ClearOwned(c, u, action, boot);
            && d.attachmentsVersion == c.attachmentsVersion
            && (forall v | v in c.attachments && v != u :: v in d.attachments && d.attachments[v] == c.attachments[v])
            && if u in c.attachments && c.attachments[u].pending == Some(Pending(action, boot))
               then
                 && (u in d.attachments <==> c.attachments[u].action.Some?)
                 && d.attachments.Keys <= c.attachments.Keys
                 && (u in d.attachments ==> d.attachments[u] == c.attachments[u].(pending := None))
               else d == c
  {
  }

  /** What a client is told about an attachment. */
  datatype Told = Told(action: Option<Wish>, refs: set<RefID>, reservation: Option<Reservation>)

  function Said(c: Client, u: Uuid): Told {
    if u in c.attachments
    then Told(c.attachments[u].action, RefsOf(c.attachments[u]), c.attachments[u].reservation)
    else Told(None, {}, None)
  }

  /** Whatever a step changes about an attachment that stays is announced: the client's version goes up by one. */
  lemma ChangeIsAnnounced(s: State, step: Step, u: Uuid)
    requires Enabled(s, step) && u in After(s, step).client.attachments
    ensures var now, was := After(s, step).client, s.client;
            && now.attachmentsVersion - was.attachmentsVersion in {0, 1}
            && (Said(now, u) != Said(was, u) ==> now.attachmentsVersion == was.attachmentsVersion + 1)
  {
    hide Seen;
  }

  // ------------------------------------------------------------- whole runs

  /** What a step means for the references of one attachment. */
  datatype RefEvent = Adds(ref: RefID) | Drops(ref: RefID) | Forgets | Leaves

  ghost function RefsAt(c: Client, u: Uuid): set<RefID> {
    if u in c.attachments then RefsOf(c.attachments[u]) else {}
  }

  /** Nothing but a mark of this kind on an attachment that was created for it. */
  predicate OnlyMarked(c: Client, u: Uuid, mark: Pending) {
    u in c.attachments && c.attachments[u].action.None? && c.attachments[u].pending == Some(mark)
  }

  ghost function Effect(s: State, step: Step, u: Uuid): RefEvent
    requires Enabled(s, step)
  {
    match step
    case DoAddRef(v, ref, join) =>
      if && v == u && u in s.client.attachments && s.client.attachments[u].action == Some(Attaching)
         && RefsOf(s.client.attachments[u]) != {}
         && (s.client.attachments[u].pending.Some? ==> s.client.attachments[u].pending.value.action != Detaching)
         && (join.Some? ==> s.client.attachments[u].reservation.Some?
                            && s.client.attachments[u].reservation.value.mode == join.value)
      then Adds(ref) else Leaves
    case DoRemoveRef(v, ref) =>
      if && v == u && u in s.client.attachments && s.client.attachments[u].pending.None?
         && |RefsOf(s.client.attachments[u])| != 1
      then Drops(ref) else Leaves
    case DoFinishAttach(t, ref, _) => if s.tasks[t].uuid == u then Adds(ref) else Leaves
    case DoFinishDetach(t, ref) => if s.tasks[t].uuid == u then Drops(ref) else Leaves
    case DoRemove(t, snapshot) =>
      if && s.tasks[t].uuid == u && u in s.client.attachments && snapshot.attachmentsVersion.Some?
         && s.client.attachments[u].attachmentsVersion == snapshot.attachmentsVersion
      then Forgets else Leaves
    case DoGiveUp(t) =>
      if s.tasks[t].uuid == u && OnlyMarked(s.client, u, s.tasks[t].Mark()) then Forgets else Leaves
    case DoClear(v, action, boot) =>
      if v == u && OnlyMarked(s.client, u, Pending(action, boot)) then Forgets else Leaves
    case _ => Leaves
  }

  ghost function Applied(refs: set<RefID>, e: RefEvent): set<RefID> {
    match e
    case Adds(ref) => refs + {ref}
    case Drops(ref) => refs - {ref}
    case Forgets => {}
    case Leaves => refs
  }

  lemma StepRefs(s: State, step: Step, u: Uuid)
    requires Enabled(s, step)
    ensures RefsAt(After(s, step).client, u) == Applied(RefsAt(s.client, u), Effect(s, step, u))
  {
  }

  ghost function Events(s: State, steps: seq<Step>, u: Uuid): (es: seq<RefEvent>)
    requires IsRun(s, steps)
    ensures |es| == |steps|
    decreases |steps|
  {
    if steps == [] then [] else [Effect(s, steps[0], u)] + Events(After(s, steps[0]), steps[1..], u)
  }

  predicate Takes(e: RefEvent, ref: RefID) {
    e == Drops(ref) || e == Forgets
  }

  /** Since position `i` nothing took the reference. */
  ghost predicate KeptSince(es: seq<RefEvent>, i: int, ref: RefID) {
    forall k | i <= k < |es| && 0 <= k :: !Takes(es[k], ref)
  }

  ghost predicate AddedAt(es: seq<RefEvent>, i: int, ref: RefID) {
    0 <= i < |es| && es[i] == Adds(ref)
  }

  /** The reference was there and stayed, or was added and nothing took it after that. */
  ghost predicate Remains(held: bool, es: seq<RefEvent>, ref: RefID) {
    (held && KeptSince(es, 0, ref)) || exists i :: AddedAt(es, i, ref) && KeptSince(es, i + 1, ref)
  }

  lemma RemainsNext(held: bool, e: RefEvent, rest: seq<RefEvent>, ref: RefID)
    ensures Remains(held, [e] + rest, ref) <==> Remains((held && !Takes(e, ref)) || e == Adds(ref), rest, ref)
  {
    KeptFromStart(e, rest, ref);
    ShiftKept(e, rest, 0, ref);
    var es := [e] + rest;
    assert AddedAt(es, 0, ref) <==> e == Adds(ref);
    assert forall i | AddedAt(es, i, ref) || AddedAt(rest, i, ref) :: i >= 0;
    hide KeptSince, AddedAt, Takes;
    if i :| AddedAt(es, i, ref) && KeptSince(es, i + 1, ref) {
      if i > 0 {
        ShiftKept(e, rest, i - 1, ref);
        ShiftKept(e, rest, i, ref);
        assert AddedAt(rest, i - 1, ref) && KeptSince(rest, i - 1 + 1, ref);
      }
    }
    if i :| AddedAt(rest, i, ref) && KeptSince(rest, i + 1, ref) {
      ShiftKept(e, rest, i, ref);
      ShiftKept(e, rest, i + 1, ref);
      assert AddedAt(es, i + 1, ref) && KeptSince(es, i + 1 + 1, ref);
    }
    if e == Adds(ref) && KeptSince(rest, 0, ref) {
      assert AddedAt(es, 0, ref) && KeptSince(es, 0 + 1, ref);
    }
  }

  lemma KeptFromStart(e: RefEvent, rest: seq<RefEvent>, ref: RefID)
    ensures KeptSince([e] + rest, 0, ref) <==> !Takes(e, ref) && KeptSince(rest, 0, ref)
  {
    ShiftKept(e, rest, 0, ref);
    var es := [e] + rest;
    assert es[0] == e;
    if !Takes(e, ref) && KeptSince(es, 1, ref) {
      forall k | 0 <= k < |es| ensures !Takes(es[k], ref) {
        assert k >= 1 || es[k] == e;
      }
    }
    if KeptSince(es, 0, ref) {
      assert !Takes(es[0], ref);
    }
  }

  lemma ShiftKept(e: RefEvent, rest: seq<RefEvent>, i: int, ref: RefID)
    requires 0 <= i
    ensures KeptSince([e] + rest, i + 1, ref) <==> KeptSince(rest, i, ref)
    ensures AddedAt([e] + rest, i + 1, ref) <==> AddedAt(rest, i, ref)
  {
    var es := [e] + rest;
    assert forall k | 0 <= k < |rest| :: es[k + 1] == rest[k];
    if KeptSince(es, i + 1, ref) {
      forall k | i <= k < |rest| ensures !Takes(rest[k], ref) {
        assert !Takes(es[k + 1], ref);
      }
    }
    if KeptSince(rest, i, ref) {
      forall k | i + 1 <= k < |es| ensures !Takes(es[k], ref) {
        assert !Takes(rest[k - 1], ref);
      }
    }
  }

  /** Over every interleaving of requests, reports, stray clears and crashes, an attachment has exactly the references
      that were there or were added, by an attach or an add that applied, and that nothing took since. */
  lemma {:induction false} RefHeldExactly(s: State, steps: seq<Step>, u: Uuid, ref: RefID)
    requires IsRun(s, steps)
    ensures ref in RefsAt(AfterAll(s, steps).client, u)
       <==> Remains(ref in RefsAt(s.client, u), Events(s, steps, u), ref)
    decreases |steps|
  {
    if steps == [] {
      assert !exists i :: AddedAt([], i, ref);
    } else {
      StepRefs(s, steps[0], u);
      RemainsNext(ref in RefsAt(s.client, u), Effect(s, steps[0], u), Events(After(s, steps[0]), steps[1..], u), ref);
      hide Enabled, After, Effect, Remains, RefsAt;
      RefHeldExactly(After(s, steps[0]), steps[1..], u, ref);
    }
  }

  // ------------------------------------------------------- abandoned marks

  /** The attachment is marked, and no request that is at work set the mark. */
  ghost predicate Abandoned(s: State, u: Uuid, mark: Pending) {
    && u in s.client.attachments && s.client.attachments[u].pending == Some(mark)
    && (forall t | t in s.tasks && s.tasks[t].uuid == u :: !s.tasks[t].holds)
  }

  lemma StepAbandoned(s: State, step: Step, u: Uuid, mark: Pending)
    requires Enabled(s, step) && Abandoned(s, u, mark) && step != DoClear(u, mark.action, mark.handledBy)
    ensures Abandoned(After(s, step), u, mark)
  {
    hide Seen;
  }

  /** The mark of a request that crashes stays, and keeps everybody else out, whatever they do: only a clear of its own
      action and boot takes it. */
  lemma {:induction false} CrashLeavesItsMark(s: State, t: TaskID, steps: seq<Step>)
    requires Exclusive(s, t) && IsRun(After(s, DoCrash(t)), steps)
    requires forall i | 0 <= i < |steps| :: !Hits(steps[i], s.tasks[t])
    ensures Abandoned(AfterAll(After(s, DoCrash(t)), steps), s.tasks[t].uuid, s.tasks[t].Mark())
  {
    AbandonedStays(After(s, DoCrash(t)), steps, s.tasks[t].uuid, s.tasks[t].Mark());
  }

  lemma {:induction false} AbandonedStays(s: State, steps: seq<Step>, u: Uuid, mark: Pending)
    requires IsRun(s, steps) && Abandoned(s, u, mark)
    requires forall i | 0 <= i < |steps| :: steps[i] != DoClear(u, mark.action, mark.handledBy)
    ensures Abandoned(AfterAll(s, steps), u, mark)
    decreases |steps|
  {
    if steps != [] {
      StepAbandoned(s, steps[0], u, mark);
      hide Enabled, After, Abandoned;
      AbandonedStays(After(s, steps[0]), steps[1..], u, mark);
    }
  }
}
