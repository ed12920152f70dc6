/** Every interleaving of attach and detach requests, reference updates, preemptions and client reports on
    one client document. */
module AttachmentRuns {
  import opened Options
  import opened Attachments

  type TaskID = nat

  datatype Kind = AttachTask | DetachTask | ReportTask

  /** A request or report under way. It `holds` the attachment from the mark it set itself until it finishes
      or gives up. */
  datatype Task = Task(kind: Kind, uuid: Uuid, name: string, boot: Boot, holds: bool) {
    function Mark(): Pending {
      Pending(if kind.AttachTask? then Attaching else Detaching, boot)
    }
    function Request(): PendRequest {
      PendRequest(uuid, if kind.AttachTask? then Some(name) else None, Mark())
    }
  }

  /** `seen` holds every version an attachment ever had: what a report handler may have read. */
  datatype State = State(client: Client, tasks: map<TaskID, Task>, seen: set<(Uuid, Attachment)>)

  datatype Step =
    | DoAddRef(u: Uuid, ref: RefID, join: Option<nat>)
    | DoRemoveRef(u: Uuid, ref: RefID)
    | DoPreempt(u: Uuid, reservationVersion: int)
    | DoReattach(u: Uuid, snapshot: Attachment, reported: int)
    | DoReattached(u: Uuid, snapshot: Attachment)
    | DoPend(t: TaskID)
    | DoFinishAttach(t: TaskID, ref: RefID, reservation: Reservation)
    | DoFinishDetach(t: TaskID, ref: RefID)
    | DoRemove(t: TaskID, snapshot: Attachment)
    | DoGiveUp(t: TaskID)
    | DoClear(u: Uuid, action: Wish, boot: Boot)
    | DoCrash(t: TaskID)

  ghost predicate Holds(s: State, t: TaskID, kind: Kind) {
    t in s.tasks && s.tasks[t].holds && s.tasks[t].kind == kind
  }

  /** `DoClear` is the clear of a request that never set a mark: it names a reference the attachment does not
      have, or its marking failed. Any boot may send one at any time. */
  ghost predicate Enabled(s: State, step: Step) {
    match step
    case DoAddRef(_, _, _) => true
    case DoRemoveRef(_, _) => true
    case DoPreempt(_, _) => true
    case DoReattach(u, snapshot, reported) =>
      && (u, snapshot) in s.seen && snapshot.action == Some(Attaching)
      && snapshot.reservation.Some? && reported < snapshot.reservation.value.version
    case DoReattached(u, snapshot) => (u, snapshot) in s.seen && snapshot.action == Some(Reattaching)
    case DoPend(t) => t in s.tasks && !s.tasks[t].holds
    case DoFinishAttach(t, _, _) => Holds(s, t, AttachTask)
    case DoFinishDetach(t, _) => Holds(s, t, DetachTask)
    case DoRemove(t, snapshot) =>
      Holds(s, t, ReportTask) && (s.tasks[t].uuid, snapshot) in s.seen && snapshot.action == Some(Detaching)
    case DoGiveUp(t) => t in s.tasks && s.tasks[t].holds
    case DoClear(_, _, _) => true
    case DoCrash(t) => t in s.tasks
  }

  ghost function Seen(c: Client): set<(Uuid, Attachment)> {
    set u | u in c.attachments :: (u, c.attachments[u])
  }

  ghost function WithClient(s: State, c: Client): State {
    s.(client := c, seen := s.seen + Seen(c))
  }

  function WithTask(s: State, t: TaskID, holds: bool): State
    requires t in s.tasks
  {
    s.(tasks := s.tasks[t := s.tasks[t].(holds := holds)])
  }

  function IsPending(c: Client, u: Uuid): bool {
    u in c.attachments && c.attachments[u].pending.Some?
  }

  ghost function After(s: State, step: Step): State
    requires Enabled(s, step)
  {
    match step
    case DoAddRef(u, ref, join) => WithClient(s, AddRef(s.client, u, ref, join))
    case DoRemoveRef(u, ref) => WithClient(s, RemoveRef(s.client, u, ref))
    case DoPreempt(u, reservationVersion) => WithClient(s, Preempt(s.client, u, reservationVersion))
    case DoReattach(u, snapshot, _) => WithClient(s, SetAction(s.client, u, snapshot, Reattaching))
    case DoReattached(u, snapshot) => WithClient(s, SetAction(s.client, u, snapshot, Attaching))
    case DoPend(t) =>
      WithClient(WithTask(s, t, !IsPending(s.client, s.tasks[t].uuid)), Pend(s.client, s.tasks[t].Request()))
    case DoFinishAttach(t, ref, reservation) =>
      WithClient(WithTask(s, t, false), FinishAttach(s.client, s.tasks[t].uuid, s.tasks[t].name, ref, reservation))
    case DoFinishDetach(t, ref) => WithClient(WithTask(s, t, false), FinishDetach(s.client, s.tasks[t].uuid, ref))
    case DoRemove(t, snapshot) =>
      WithClient(WithTask(s, t, !Unmoved(s.client, s.tasks[t].uuid, snapshot)), RemoveAttachment(s.client,
          s.tasks[t].uuid, snapshot))
    case DoGiveUp(t) =>
      WithClient(WithTask(s, t, false), ClearOwned(s.client, s.tasks[t].uuid, s.tasks[t].Mark().action,
          s.tasks[t].boot))
    case DoClear(u, action, boot) => WithClient(s, ClearOwned(s.client, u, action, boot))
    case DoCrash(t) => WithTask(s, t, false)
  }

  // -------------------------------------------------------------- invariants

  predicate Wanted(a: Attachment) {
    a.action == Some(Attaching) || a.action == Some(Reattaching)
  }

  /** An attachment somebody wants has a reference; true of every version ever stored. */
  ghost predicate Referenced(s: State) {
    forall x | x in s.seen && Wanted(x.1) :: RefsOf(x.1) != {}
  }

  ghost predicate SameRefs(s: State, u: Uuid, h: Attachment) {
    Unmoved(s.client, u, h) ==> s.client.attachments[u].refs == h.refs
  }

  /** The version on an attachment dates its references: no two reference lists ever share one. */
  ghost predicate Dated(s: State) {
    && Seen(s.client) <= s.seen
    && (forall x | x in s.seen
        && x.1.attachmentsVersion.Some? :: x.1.attachmentsVersion.value <= s.client.attachmentsVersion)
    && (forall x | x in s.seen :: SameRefs(s, x.0, x.1))
  }

  ghost predicate Inv(s: State) {
    Referenced(s) && Dated(s)
  }

  // ------------------------------------------------------- references are safe

  /** What an update may do to one attachment. */
  ghost predicate GoodWrite(s: State, u: Uuid, a: Attachment, version: nat) {
    && version >= s.client.attachmentsVersion
    && (Wanted(a) ==> RefsOf(a) != {})
    && (|| (a.attachmentsVersion == Some(version) && version > s.client.attachmentsVersion)
        || (u in s.client.attachments && a.attachmentsVersion == s.client.attachments[u].attachmentsVersion
            && a.refs == s.client.attachments[u].refs)
        || a.attachmentsVersion.None?)
  }

  lemma WriteKeeps(s: State, u: Uuid, a: Attachment, version: nat, c: Client)
    requires Referenced(s) && Dated(s) && GoodWrite(s, u, a, version)
    requires c == Client(s.client.attachments[u := a], version)
    ensures Referenced(WithClient(s, c)) && Dated(WithClient(s, c))
  {
    var t := WithClient(s, c);
    forall x | x in t.seen ensures x in s.seen || x == (u, a) {
      if x in Seen(c) && x.0 != u {
        assert x in Seen(s.client);
      }
    }
    forall x | x in t.seen && x.1.attachmentsVersion.Some? ensures x.1.attachmentsVersion.value <= version {
      if x == (u, a) && u in s.client.attachments {
        assert (u, s.client.attachments[u]) in Seen(s.client);
      }
    }
    forall x | x in t.seen ensures SameRefs(t, x.0, x.1) {
      if x in s.seen {
        assert SameRefs(s, x.0, x.1);
      }
      if x == (u, a) && u in s.client.attachments {
        assert (u, s.client.attachments[u]) in Seen(s.client);
      }
    }
  }

  lemma DropKeeps(s: State, u: Uuid, c: Client)
    requires Referenced(s) && Dated(s) && c == s.client.(attachments := s.client.attachments - {u})
    ensures Referenced(WithClient(s, c)) && Dated(WithClient(s, c))
  {
    var t := WithClient(s, c);
    assert t.seen == s.seen by {
      forall x | x in Seen(c) ensures x in s.seen { assert x in Seen(s.client); }
    }
    forall x | x in t.seen ensures SameRefs(t, x.0, x.1) {
      assert SameRefs(s, x.0, x.1);
    }
  }

  lemma NothingKeeps(s: State)
    requires Dated(s)
    ensures WithClient(s, s.client) == s
  {
  }

  lemma CurrentOk(s: State, u: Uuid)
    requires Referenced(s) && Dated(s) && u in s.client.attachments
    ensures Wanted(s.client.attachments[u]) ==> RefsOf(s.client.attachments[u]) != {}
    ensures s.client.attachments[u].attachmentsVersion.Some? ==>
              s.client.attachments[u].attachmentsVersion.value <= s.client.attachmentsVersion
  {
    assert (u, s.client.attachments[u]) in Seen(s.client);
  }

  lemma SmallerByOne(refs: set<RefID>, ref: RefID)
    requires |refs| != 1 && refs != {}
    ensures refs - {ref} != {}
  {
    if refs - {ref} == {} {
      assert refs <= {ref};
      assert |refs| <= |{ref}| by {
        Subset(refs, {ref});
      }
    }
  }

  lemma Subset(a: set<RefID>, b: set<RefID>)
    requires a <= b
    ensures |a| <= |b|
  {
    assert |b| == |a| + |b - a| by { assert b == a + (b - a); }
  }

  /** The document part of a step: references stay dated and no wanted attachment loses its last one. */
  lemma UpdateKeeps(s: State, u: Uuid, c: Client)
    requires Referenced(s) && Dated(s)
    requires || c == s.client
             || c == s.client.(attachments := s.client.attachments - {u})
             || (u in c.attachments && GoodWrite(s, u, c.attachments[u], c.attachmentsVersion)
                 && c == Client(s.client.attachments[u := c.attachments[u]], c.attachmentsVersion))
    ensures Referenced(WithClient(s, c)) && Dated(WithClient(s, c))
  {
    if c == s.client {
      NothingKeeps(s);
    } else if u in c.attachments && GoodWrite(s, u, c.attachments[u], c.attachmentsVersion)
              && c == Client(s.client.attachments[u := c.attachments[u]], c.attachmentsVersion) {
      WriteKeeps(s, u, c.attachments[u], c.attachmentsVersion, c);
    } else {
      DropKeeps(s, u, c);
    }
  }

  lemma RefStepKeeps(s: State, step: Step)
    requires Inv(s) && Enabled(s, step) && (step.DoAddRef? || step.DoRemoveRef? || step.DoPreempt?)
    ensures Referenced(After(s, step)) && Dated(After(s, step))
  {
    if step.u in s.client.attachments {
      CurrentOk(s, step.u);
      if step.DoRemoveRef? && RefsOf(s.client.attachments[step.u]) != {}
         && |RefsOf(s.client.attachments[step.u])| != 1 {
        SmallerByOne(RefsOf(s.client.attachments[step.u]), step.ref);
      }
    }
    hide Referenced, Dated;
    UpdateKeeps(s, step.u, After(s, step).client);
  }

  lemma ReportKeeps(s: State, u: Uuid, snapshot: Attachment, action: Wish)
    requires Referenced(s) && Dated(s) && (u, snapshot) in s.seen && Wanted(snapshot) && action != Detaching
    ensures var c := SetAction(s.client, u, snapshot, action);
            Referenced(WithClient(s, c)) && Dated(WithClient(s, c))
  {
    var c := SetAction(s.client, u, snapshot, action);
    if Unmoved(s.client, u, snapshot) {
      assert SameRefs(s, u, snapshot);
      assert RefsOf(snapshot) != {};
    }
    UpdateKeeps(s, u, c);
  }

  lemma MarkKeeps(s: State, r: PendRequest)
    requires Referenced(s) && Dated(s)
    ensures var c := Pend(s.client, r); Referenced(WithClient(s, c)) && Dated(WithClient(s, c))
  {
    if r.uuid in s.client.attachments {
      CurrentOk(s, r.uuid);
    }
    hide Referenced, Dated;
    UpdateKeeps(s, r.uuid, Pend(s.client, r));
  }

  lemma ClearKeeps(s: State, u: Uuid, action: Wish, boot: Boot)
    requires Referenced(s) && Dated(s)
    ensures var c := ClearOwned(s.client, u, action, boot); Referenced(WithClient(s, c)) && Dated(WithClient(s, c))
  {
    if u in s.client.attachments {
      CurrentOk(s, u);
    }
    hide Referenced, Dated;
    UpdateKeeps(s, u, ClearOwned(s.client, u, action, boot));
  }

  lemma FinishKeeps(s: State, u: Uuid, name: string, ref: RefID, reservation: Reservation, snapshot: Attachment)
    requires Referenced(s) && Dated(s)
    ensures var c := FinishAttach(s.client, u, name, ref, reservation);
            Referenced(WithClient(s, c)) && Dated(WithClient(s, c))
    ensures var c := FinishDetach(s.client, u, ref); Referenced(WithClient(s, c)) && Dated(WithClient(s, c))
    ensures var c := RemoveAttachment(s.client, u, snapshot); Referenced(WithClient(s, c)) && Dated(WithClient(s, c))
  {
    hide Referenced, Dated;
    UpdateKeeps(s, u, FinishAttach(s.client, u, name, ref, reservation));
    UpdateKeeps(s, u, FinishDetach(s.client, u, ref));
    UpdateKeeps(s, u, RemoveAttachment(s.client, u, snapshot));
  }

  /** What a step does to the document does not depend on who holds what. */
  lemma TasksApart(s: State, t: TaskID, holds: bool, c: Client)
    requires t in s.tasks && Referenced(WithClient(s, c)) && Dated(WithClient(s, c))
    ensures Referenced(WithClient(WithTask(s, t, holds), c)) && Dated(WithClient(WithTask(s, t, holds), c))
  {
    var a, b := WithClient(s, c), WithClient(WithTask(s, t, holds), c);
    assert a.client == b.client && a.seen == b.seen;
    forall x | x in b.seen ensures SameRefs(b, x.0, x.1) { assert SameRefs(a, x.0, x.1); }
  }

  /** The guard on references never depends on who holds the attachment: stray clears cannot break it. */
  lemma StepKeepsReferences(s: State, step: Step)
    requires Inv(s) && Enabled(s, step)
    ensures Referenced(After(s, step)) && Dated(After(s, step))
  {
    if step.DoAddRef? || step.DoRemoveRef? || step.DoPreempt? {
      RefStepKeeps(s, step);
    } else {
      match step
      case DoReattach(u, snapshot, _) => ReportKeeps(s, u, snapshot, Reattaching);
      case DoReattached(u, snapshot) => ReportKeeps(s, u, snapshot, Attaching);
      case DoPend(t) =>
        MarkKeeps(s, s.tasks[t].Request());
        TasksApart(s, t, !IsPending(s.client, s.tasks[t].uuid), Pend(s.client, s.tasks[t].Request()));
      case DoFinishAttach(t, ref, reservation) =>
        FinishKeeps(s, s.tasks[t].uuid, s.tasks[t].name, ref, reservation, EMPTY);
        TasksApart(s, t, false, FinishAttach(s.client, s.tasks[t].uuid, s.tasks[t].name, ref, reservation));
      case DoFinishDetach(t, ref) =>
        FinishKeeps(s, s.tasks[t].uuid, "", ref, Reservation(0, 0), EMPTY);
        TasksApart(s, t, false, FinishDetach(s.client, s.tasks[t].uuid, ref));
      case DoRemove(t, snapshot) =>
        FinishKeeps(s, s.tasks[t].uuid, "", 0, Reservation(0, 0), snapshot);
        TasksApart(s, t, !Unmoved(s.client, s.tasks[t].uuid, snapshot), RemoveAttachment(s.client, s.tasks[t].uuid,
            snapshot));
      case DoGiveUp(t) =>
        ClearKeeps(s, s.tasks[t].uuid, s.tasks[t].Mark().action, s.tasks[t].boot);
        TasksApart(s, t, false, ClearOwned(s.client, s.tasks[t].uuid, s.tasks[t].Mark().action, s.tasks[t].boot));
      case DoClear(u, action, boot) => ClearKeeps(s, u, action, boot);
      case DoCrash(t) =>
        NothingKeeps(s);
        TasksApart(s, t, false, s.client);
        NothingKeeps(WithTask(s, t, false));
    }
  }

  // ------------------------------------------------------- marks and holders

  /** The uuid a step is about. */
  function About(s: State, step: Step): Option<Uuid> {
    match step
    case DoAddRef(u, _, _) => Some(u)
    case DoRemoveRef(u, _) => Some(u)
    case DoPreempt(u, _) => Some(u)
    case DoReattach(u, _, _) => Some(u)
    case DoReattached(u, _) => Some(u)
    case DoPend(t) => if t in s.tasks then Some(s.tasks[t].uuid) else None
    case DoFinishAttach(t, _, _) => if t in s.tasks then Some(s.tasks[t].uuid) else None
    case DoFinishDetach(t, _) => if t in s.tasks then Some(s.tasks[t].uuid) else None
    case DoRemove(t, _) => if t in s.tasks then Some(s.tasks[t].uuid) else None
    case DoGiveUp(t) => if t in s.tasks then Some(s.tasks[t].uuid) else None
    case DoClear(u, _, _) => Some(u)
    case DoCrash(_) => None
  }

  lemma OnlyAbout(s: State, step: Step, v: Uuid)
    requires Enabled(s, step) && About(s, step) != Some(v) && v in s.client.attachments
    ensures v in After(s, step).client.attachments && After(s, step).client.attachments[v] == s.client.attachments[v]
  {
  }

  /** Whoever holds an attachment is the only one to take the mark off it. */
  predicate Ends(step: Step, t: TaskID) {
    match step
    case DoFinishAttach(r, _, _) => r == t
    case DoFinishDetach(r, _) => r == t
    case DoRemove(r, _) => r == t
    case DoGiveUp(r) => r == t
    case DoCrash(r) => r == t
    case _ => false
  }

  /** A clear without a mark of its own that matches the mark of this request. */
  predicate Hits(step: Step, task: Task) {
    step == DoClear(task.uuid, task.Mark().action, task.boot)
  }

  /** The request holds the attachment, finds its own mark on it, and nobody else holds it. */
  ghost predicate Exclusive(s: State, t: TaskID) {
    && t in s.tasks && s.tasks[t].holds
    && s.tasks[t].uuid in s.client.attachments
    && s.client.attachments[s.tasks[t].uuid].pending == Some(s.tasks[t].Mark())
    && (forall r | r in s.tasks && r != t && s.tasks[r].holds :: s.tasks[r].uuid != s.tasks[t].uuid)
  }

  /** Whatever the others do, the request keeps the attachment to itself if and only if no clear hits its mark. */
  lemma ExclusiveStays(s: State, step: Step, t: TaskID)
    requires Exclusive(s, t) && Enabled(s, step) && !Ends(step, t)
    ensures Exclusive(After(s, step), t) <==> !Hits(step, s.tasks[t])
    ensures t in After(s, step).tasks && After(s, step).tasks[t] == s.tasks[t]
  {
    if About(s, step) != Some(s.tasks[t].uuid) {
      OnlyAbout(s, step, s.tasks[t].uuid);
    }
    assert After(s, step).tasks.Keys == s.tasks.Keys;
  }

  /** A request that set its mark has the attachment to itself, unless somebody lost it to a clear before and
      does not know yet. */
  lemma MarkIsExclusive(s: State, t: TaskID)
    requires Enabled(s, DoPend(t)) && !IsPending(s.client, s.tasks[t].uuid)
    ensures Exclusive(After(s, DoPend(t)), t)
       <==> forall r | r in s.tasks && r != t && s.tasks[r].holds :: s.tasks[r].uuid != s.tasks[t].uuid
  {
    var after := After(s, DoPend(t));
    assert after.tasks.Keys == s.tasks.Keys;
    forall r | r in s.tasks && r != t ensures after.tasks[r] == s.tasks[r] {
    }
  }

  /** Every holder has its attachment to itself. */
  ghost predicate Owned(s: State) {
    forall t | t in s.tasks && s.tasks[t].holds :: Exclusive(s, t)
  }

  ghost predicate MarkTaken(s: State, step: Step) {
    exists t :: t in s.tasks && s.tasks[t].holds && Hits(step, s.tasks[t])
  }

  /** Among requests that hold their attachments exclusively, every step keeps that, except exactly the clears
      that hit the mark of a holder. */
  lemma StepKeepsOwned(s: State, step: Step)
    requires Owned(s) && Enabled(s, step)
    ensures Owned(After(s, step)) <==> !MarkTaken(s, step)
  {
    var after := After(s, step);
    assert after.tasks.Keys == s.tasks.Keys;
    if t :| t in s.tasks && s.tasks[t].holds && Hits(step, s.tasks[t]) {
      ExclusiveStays(s, step, t);
    } else {
      forall t | t in after.tasks && after.tasks[t].holds ensures Exclusive(after, t) {
        if s.tasks[t].holds && !Ends(step, t) {
          ExclusiveStays(s, step, t);
        } else {
          HoldsAnew(s, step, t);
        }
      }
    }
  }

  lemma HoldsAnew(s: State, step: Step, t: TaskID)
    requires Owned(s) && Enabled(s, step) && t in s.tasks && After(s, step).tasks[t].holds
    requires !s.tasks[t].holds || Ends(step, t)
    ensures Exclusive(After(s, step), t)
  {
    assert After(s, step).tasks.Keys == s.tasks.Keys;
    if step == DoPend(t) {
      forall r | r in s.tasks && r != t && s.tasks[r].holds ensures s.tasks[r].uuid != s.tasks[t].uuid {
        assert Exclusive(s, r);
      }
      MarkIsExclusive(s, t);
    } else {
      assert Exclusive(s, t);
    }
  }

  // ------------------------------------------------------------- whole runs

  ghost predicate IsRun(s: State, steps: seq<Step>)
    decreases |steps|
  {
    steps == [] || (Enabled(s, steps[0]) && IsRun(After(s, steps[0]), steps[1..]))
  }

  ghost function AfterAll(s: State, steps: seq<Step>): State
    requires IsRun(s, steps)
    decreases |steps|
  {
    if steps == [] then s else AfterAll(After(s, steps[0]), steps[1..])
  }

  ghost predicate OwnedThroughout(s: State, steps: seq<Step>)
    requires IsRun(s, steps)
    decreases |steps|
  {
    Owned(s) && (steps == [] || OwnedThroughout(After(s, steps[0]), steps[1..]))
  }

  ghost predicate NoMarkTaken(s: State, steps: seq<Step>)
    requires IsRun(s, steps)
    decreases |steps|
  {
    steps == [] || (!MarkTaken(s, steps[0]) && NoMarkTaken(After(s, steps[0]), steps[1..]))
  }

  /** Over a whole run, holders have their attachments to themselves in every state if and only if no clear
      ever hits the mark of a holder. */
  lemma {:induction false} OwnedExactly(s: State, steps: seq<Step>)
    requires Owned(s) && IsRun(s, steps)
    ensures OwnedThroughout(s, steps) <==> NoMarkTaken(s, steps)
    decreases |steps|
  {
    if steps != [] {
      StepKeepsOwned(s, steps[0]);
      hide Owned, Enabled, After, MarkTaken;
      if Owned(After(s, steps[0])) {
        OwnedExactly(After(s, steps[0]), steps[1..]);
      }
    }
  }

  ghost predicate Initial(s: State) {
    && s.seen == Seen(s.client)
    && (forall t | t in s.tasks :: !s.tasks[t].holds)
    && (forall u | u in s.client.attachments ::
          && (Wanted(s.client.attachments[u]) ==> RefsOf(s.client.attachments[u]) != {})
          && (s.client.attachments[u].attachmentsVersion.Some? ==>
                s.client.attachments[u].attachmentsVersion.value <= s.client.attachmentsVersion))
  }

  lemma InitialInv(s: State)
    requires Initial(s)
    ensures Inv(s) && Owned(s)
  {
  }

  lemma {:induction false} RunKeeps(s: State, steps: seq<Step>)
    requires Inv(s) && IsRun(s, steps)
    ensures Inv(AfterAll(s, steps))
    decreases |steps|
  {
    if steps != [] {
      StepKeepsReferences(s, steps[0]);
      hide Inv, Enabled, After;
      RunKeeps(After(s, steps[0]), steps[1..]);
    }
  }

  /** Over every interleaving, stray clears included: an attachment whose wish is attaching or reattaching has
      a reference. */
  lemma WantedIsReferenced(s: State, steps: seq<Step>, u: Uuid)
    requires Initial(s) && IsRun(s, steps)
    ensures var c := AfterAll(s, steps).client;
            u in c.attachments && Wanted(c.attachments[u]) ==> RefsOf(c.attachments[u]) != {}
  {
    InitialInv(s);
    RunKeeps(s, steps);
    var c := AfterAll(s, steps).client;
    if u in c.attachments {
      assert (u, c.attachments[u]) in Seen(c);
    }
  }

  ghost predicate HasExclusive(s: State, t: TaskID) {
    Exclusive(s, t) && s.tasks[t].kind == DetachTask
  }

  /** While a detach request has an attachment to itself, whatever the others do leaves its references alone,
      and only a clear that hits its mark ends that. */
  lemma RefsFrozen(s: State, step: Step, t: TaskID)
    requires Enabled(s, step) && HasExclusive(s, t) && !Ends(step, t)
    ensures t in After(s, step).tasks && After(s, step).tasks[t] == s.tasks[t]
    ensures HasExclusive(After(s, step), t) <==> !Hits(step, s.tasks[t])
    ensures var u := s.tasks[t].uuid; u in After(s, step).client.attachments ==>
              After(s, step).client.attachments[u].refs == s.client.attachments[u].refs
  {
    ExclusiveStays(s, step, t);
    if About(s, step) != Some(s.tasks[t].uuid) {
      OnlyAbout(s, step, s.tasks[t].uuid);
    }
  }

  ghost predicate LeftAlone(s: State, steps: seq<Step>, t: TaskID)
    requires t in s.tasks
  {
    forall i | 0 <= i < |steps| :: !Ends(steps[i], t) && !Hits(steps[i], s.tasks[t])
  }

  lemma {:induction false} RefsFrozenAll(s: State, steps: seq<Step>, t: TaskID)
    requires IsRun(s, steps) && HasExclusive(s, t) && LeftAlone(s, steps, t)
    ensures HasExclusive(AfterAll(s, steps), t) && AfterAll(s, steps).tasks[t] == s.tasks[t]
    ensures var u := s.tasks[t].uuid;
            u in s.client.attachments && AfterAll(s, steps).client.attachments[u].refs == s.client.attachments[u].refs
    decreases |steps|
  {
    if steps != [] {
      RefsFrozen(s, steps[0], t);
      assert !Ends(steps[0], t) && !Hits(steps[0], s.tasks[t]);
      hide Enabled, After, Ends, Hits;
      RefsFrozenAll(After(s, steps[0]), steps[1..], t);
    }
  }

  /** A detach request that has the attachment to itself and finds its reference there takes exactly that one
      away, and sets the wish to detaching exactly when it was the last, no matter who tried to add one
      meanwhile, as long as no clear of the same boot and action hits its mark. */
  lemma DetachIsExact(s: State, steps: seq<Step>, t: TaskID, ref: RefID)
    requires IsRun(s, steps) && HasExclusive(s, t) && LeftAlone(s, steps, t)
    requires ref in RefsOf(s.client.attachments[s.tasks[t].uuid])
    ensures Enabled(AfterAll(s, steps), DoFinishDetach(t, ref))
    ensures var u := s.tasks[t].uuid;
            var before, after := s.client.attachments[u], After(AfterAll(s, steps), DoFinishDetach(t,
                ref)).client.attachments;
            && u in after && RefsOf(after[u]) == RefsOf(before) - {ref} && after[u].pending.None?
            && (after[u].action == Some(Detaching) <==> RefsOf(before) == {ref})
            && (after[u].action == Some(Attaching) <==> RefsOf(before) != {ref})
  {
    RefsFrozenAll(s, steps, t);
    hide AfterAll, IsRun;
  }

  /** Without that condition it fails: after one such clear somebody may add a reference, and the detach of the
      last one that was there leaves the attachment attached. */
  lemma ClearUnfreezes(s: State, t: TaskID, ref: RefID, other: RefID)
    requires HasExclusive(s, t) && other != ref
    requires var a := s.client.attachments[s.tasks[t].uuid]; RefsOf(a) == {ref} && a.action == Some(Attaching)
    ensures var u := s.tasks[t].uuid;
            var steps := [DoClear(u, Detaching, s.tasks[t].boot), DoAddRef(u, other, None), DoFinishDetach(t, ref)];
            && IsRun(s, steps) && u in AfterAll(s, steps).client.attachments
            && RefsOf(AfterAll(s, steps).client.attachments[u]) == {other}
            && AfterAll(s, steps).client.attachments[u].action == Some(Attaching)
  {
    var u := s.tasks[t].uuid;
    var clear, add, finish := DoClear(u, Detaching, s.tasks[t].boot), DoAddRef(u, other, None), DoFinishDetach(t, ref);
    var one := After(s, clear);
    var two := After(one, add);
    assert RefsOf(two.client.attachments[u]) == {ref, other};
    var three := After(two, finish);
    assert RefsOf(three.client.attachments[u]) == {other};
    ThreeSteps(s, clear, add, finish);
  }

  lemma ThreeSteps(s: State, a: Step, b: Step, c: Step)
    requires Enabled(s, a) && Enabled(After(s, a), b) && Enabled(After(After(s, a), b), c)
    ensures IsRun(s, [a, b, c]) && AfterAll(s, [a, b, c]) == After(After(After(s, a), b), c)
  {
    hide Enabled, After;
    assert [a, b, c][1..] == [b, c] && [b, c][1..] == [c] && [c][1..] == [];
    var two := After(After(s, a), b);
    assert IsRun(two, [c]) && AfterAll(two, [c]) == After(two, c);
    assert IsRun(After(s, a), [b, c]) && AfterAll(After(s, a), [b, c]) == After(two, c);
  }

  /** The failing input as a run: request 0 marks the attachment for the detach of its only reference, another
      request of the same boot clears, a third adds a reference, and the detach ends attached. */
  lemma StrayClearInput(boot: Boot)
    ensures var a := EMPTY.(action := Some(Attaching), refs := Some({1}));
            var s := State(Client(map[5 := a], 0), map[0 := Task(DetachTask, 5, "", boot, false)], {(5, a)});
            var steps := [DoPend(0), DoClear(5, Detaching, boot), DoAddRef(5, 2, None), DoFinishDetach(0, 1)];
            && Initial(s) && IsRun(s, steps) && 5 in AfterAll(s, steps).client.attachments
            && RefsOf(AfterAll(s, steps).client.attachments[5]) == {2}
            && AfterAll(s, steps).client.attachments[5].action == Some(Attaching)
  {
    var a := EMPTY.(action := Some(Attaching), refs := Some({1}));
    var s := State(Client(map[5 := a], 0), map[0 := Task(DetachTask, 5, "", boot, false)], {(5, a)});
    var steps := [DoPend(0), DoClear(5, Detaching, boot), DoAddRef(5, 2, None), DoFinishDetach(0, 1)];
    forall x | x in Seen(s.client) ensures x == (5, a) {
      assert x.0 in s.client.attachments;
    }
    assert (5, s.client.attachments[5]) in Seen(s.client);
    MarkIsExclusive(s, 0);
    ClearUnfreezes(After(s, DoPend(0)), 0, 1, 2);
    assert steps[1..] == [DoClear(5, Detaching, boot), DoAddRef(5, 2, None), DoFinishDetach(0, 1)];
  }

  // ------------------------------------------------------ references and wishes

  lemma RunPrefix(s: State, steps: seq<Step>)
    requires IsRun(s, steps) && steps != []
    ensures var n := |steps| - 1;
            IsRun(s, steps[..n]) && Enabled(AfterAll(s, steps[..n]), steps[n])
                && AfterAll(s, steps) == After(AfterAll(s, steps[..n]), steps[n])
    decreases |steps|
  {
    hide Enabled, After;
    if |steps| == 1 {
      assert steps[..0] == [] && steps[1..] == [];
    } else {
      RunPrefix(After(s, steps[0]), steps[1..]);
      var n := |steps| - 1;
      assert steps[1..][..n - 1] == steps[..n][1..] && steps[..n][0] == steps[0] && steps[1..][n - 1] == steps[n];
    }
  }

  predicate Unreferenced(c: Client, u: Uuid) {
    u in c.attachments && c.attachments[u].action == Some(Detaching) ==> RefsOf(c.attachments[u]) == {}
  }

  lemma StepKeepsUnreferenced(s: State, step: Step, u: Uuid)
    requires Enabled(s, step) && !step.DoPreempt? && Unreferenced(s.client, u)
    ensures Unreferenced(After(s, step).client, u)
  {
  }

  /** Without preemptions, and over every interleaving of all else, the wish and the references tell the same: an
      attachment with a wish is to be detached if and only if nobody refers to it. */
  lemma DetachingIsUnreferenced(s: State, steps: seq<Step>, u: Uuid)
    requires Initial(s) && Unreferenced(s.client, u) && IsRun(s, steps)
    requires forall i | 0 <= i < |steps| :: !steps[i].DoPreempt?
    ensures var c := AfterAll(s, steps).client;
            u in c.attachments && c.attachments[u].action.Some? ==>
                (c.attachments[u].action == Some(Detaching) <==> RefsOf(c.attachments[u]) == {})
  {
    NeverReferenced(s, steps, u);
    WantedIsReferenced(s, steps, u);
    hide Initial, IsRun, AfterAll;
    var c := AfterAll(s, steps).client;
    if u in c.attachments && c.attachments[u].action.Some? {
      match c.attachments[u].action.value
      case Attaching =>
      case Reattaching =>
      case Detaching =>
    }
  }

  lemma {:induction false} NeverReferenced(s: State, steps: seq<Step>, u: Uuid)
    requires Unreferenced(s.client, u) && IsRun(s, steps) && forall i | 0 <= i < |steps| :: !steps[i].DoPreempt?
    ensures Unreferenced(AfterAll(s, steps).client, u)
    decreases |steps|
  {
    if steps != [] {
      StepKeepsUnreferenced(s, steps[0], u);
      hide Enabled, After, Unreferenced;
      NeverReferenced(After(s, steps[0]), steps[1..], u);
    }
  }

  /** The step sets the wish of `u` to attaching or reattaching: an attach finishes, a detach leaves references
      behind, or a report acts on what it read at the version the attachment still has. */
  ghost predicate Attaches(s: State, step: Step, u: Uuid) {
    match step
    case DoFinishAttach(t, _, _) => t in s.tasks && s.tasks[t].uuid == u
    case DoFinishDetach(t, ref) =>
      && t in s.tasks && s.tasks[t].uuid == u && u in s.client.attachments
      && RefsOf(s.client.attachments[u]) - {ref} != {}
    case DoReattach(v, snapshot, _) => v == u && Unmoved(s.client, u, snapshot)
    case DoReattached(v, snapshot) => v == u && Unmoved(s.client, u, snapshot)
    case _ => false
  }

  /** The step sets it to detaching, or removes the attachment: a preemption by a newer reservation, the detach of the
      last reference, or the report that the client detached. */
  ghost predicate Detaches(s: State, step: Step, u: Uuid) {
    match step
    case DoPreempt(v, version) =>
      v == u && u in s.client.attachments && Preemptable(s.client.attachments[u], version)
    case DoFinishDetach(t, ref) =>
      && t in s.tasks && s.tasks[t].uuid == u && u in s.client.attachments
      && s.client.attachments[u].refs.Some? && RefsOf(s.client.attachments[u]) <= {ref}
    case DoRemove(t, snapshot) => t in s.tasks && s.tasks[t].uuid == u && Unmoved(s.client, u, snapshot)
    case _ => false
  }

  predicate IsAttached(c: Client, u: Uuid) {
    u in c.attachments && Wanted(c.attachments[u])
  }

  lemma StepDecides(s: State, step: Step, u: Uuid)
    requires Enabled(s, step)
    ensures Attaches(s, step, u) ==> IsAttached(After(s, step).client, u) && !Detaches(s, step, u)
    ensures Detaches(s, step, u) ==> !IsAttached(After(s, step).client, u)
    ensures !Attaches(s, step, u) && !Detaches(s, step, u) ==>
              (IsAttached(After(s, step).client, u) <==> IsAttached(s.client, u))
  {
    match step
    case DoFinishDetach(t, ref) =>
      var u := s.tasks[t].uuid;
      if u in s.client.attachments {
        assert RefsOf(s.client.attachments[u]) - {ref} == {} <==> RefsOf(s.client.attachments[u]) <= {ref};
      }
    case _ =>
  }

  lemma {:induction false} RunTo(s: State, steps: seq<Step>, i: int)
    requires IsRun(s, steps) && 0 <= i <= |steps|
    ensures IsRun(s, steps[..i])
    decreases |steps|
  {
    if i == |steps| {
      assert steps[..i] == steps;
    } else {
      RunPrefix(s, steps);
      var n := |steps| - 1;
      RunTo(s, steps[..n], i);
      assert steps[..n][..i] == steps[..i];
    }
  }

  ghost predicate AttachesAt(s: State, steps: seq<Step>, i: int, u: Uuid) {
    0 <= i < |steps| && IsRun(s, steps[..i]) && Attaches(AfterAll(s, steps[..i]), steps[i], u)
  }

  ghost predicate DetachesAt(s: State, steps: seq<Step>, i: int, u: Uuid) {
    0 <= i < |steps| && IsRun(s, steps[..i]) && Detaches(AfterAll(s, steps[..i]), steps[i], u)
  }

  ghost predicate AttachesLast(s: State, steps: seq<Step>, i: int, u: Uuid) {
    AttachesAt(s, steps, i, u) && forall k | i < k < |steps| :: !DetachesAt(s, steps, k, u)
  }

  lemma AtSame(s: State, steps: seq<Step>, i: int, u: Uuid)
    requires 0 <= i < |steps| - 1
    ensures AttachesAt(s, steps[..|steps| - 1], i, u) <==> AttachesAt(s, steps, i, u)
    ensures DetachesAt(s, steps[..|steps| - 1], i, u) <==> DetachesAt(s, steps, i, u)
  {
    assert steps[..|steps| - 1][..i] == steps[..i];
  }

  /** An attachment that was to be detached, preempted or not, ends attached if and only if some step attached it again
      and none detached it after that. */
  lemma {:induction false} EndsAttachedExactly(s: State, steps: seq<Step>, u: Uuid)
    requires IsRun(s, steps) && !IsAttached(s.client, u)
    ensures IsAttached(AfterAll(s, steps).client, u) <==> exists i :: AttachesLast(s, steps, i, u)
    decreases |steps|
  {
    if steps != [] {
      var n := |steps| - 1;
      RunPrefix(s, steps);
      var mid := AfterAll(s, steps[..n]);
      StepDecides(mid, steps[n], u);
      EndsAttachedExactly(s, steps[..n], u);
      forall i | 0 <= i < n
        ensures AttachesAt(s, steps[..n], i, u) <==> AttachesAt(s, steps, i, u)
        ensures DetachesAt(s, steps[..n], i, u) <==> DetachesAt(s, steps, i, u)
      {
        AtSame(s, steps, i, u);
      }
      assert AttachesAt(s, steps, n, u) <==> Attaches(mid, steps[n], u);
      assert DetachesAt(s, steps, n, u) <==> Detaches(mid, steps[n], u);
      hide IsRun, AfterAll, Enabled, After, Attaches, Detaches, AttachesAt, DetachesAt, IsAttached;
      LastOf(s, steps, u);
    }
  }

  lemma LastOf(s: State, steps: seq<Step>, u: Uuid)
    requires steps != []
    requires var n := |steps| - 1;
             forall i | 0 <= i < n :: (AttachesAt(s, steps[..n], i, u) <==> AttachesAt(s, steps, i, u))
                                   && (DetachesAt(s, steps[..n], i, u) <==> DetachesAt(s, steps, i, u))
    requires !(AttachesAt(s, steps, |steps| - 1, u) && DetachesAt(s, steps, |steps| - 1, u))
    ensures var n := |steps| - 1;
            (exists i :: AttachesLast(s, steps, i, u)) <==>
                AttachesAt(s, steps, n, u)
                || (!DetachesAt(s, steps, n, u) && exists i :: AttachesLast(s, steps[..n], i, u))
  {
    var n := |steps| - 1;
    InRange(s, steps, u);
    InRange(s, steps[..n], u);
    hide AttachesAt, DetachesAt;
    if AttachesAt(s, steps, n, u) {
      assert AttachesLast(s, steps, n, u);
    }
    if i :| AttachesLast(s, steps[..n], i, u) && !DetachesAt(s, steps, n, u) {
      forall k | i < k < |steps| ensures !DetachesAt(s, steps, k, u) {
        assert k < n ==> !DetachesAt(s, steps[..n], k, u);
      }
      assert AttachesLast(s, steps, i, u);
    }
    if i :| AttachesLast(s, steps, i, u) {
      if i < n {
        forall k | i < k < n ensures !DetachesAt(s, steps[..n], k, u) {
          assert !DetachesAt(s, steps, k, u);
        }
        assert AttachesLast(s, steps[..n], i, u);
      }
    }
  }

  lemma InRange(s: State, steps: seq<Step>, u: Uuid)
    ensures forall i | AttachesAt(s, steps, i, u) :: 0 <= i < |steps|
  {
  }

  /** A client without attachments, with an attach and a detach request to come. */
  function TwoRequests(boot: Boot): State {
    State(Client(map[], 0),
          map[0 := Task(AttachTask, 5, "v", boot, false), 1 := Task(DetachTask, 5, "", boot, false)], {})
  }

  ghost predicate Stands(s: State, boot: Boot, a: Attachment, version: nat) {
    s.client == Client(map[5 := a], version) && s.tasks == TwoRequests(boot).tasks
  }

  const ATTACHED := Attachment(Some("v"), Some(Attaching), None, Some({1}), Some(1), Some(1), Some(Reservation(0, 1)))

  lemma AttachOne(boot: Boot)
    ensures var s := TwoRequests(boot);
            && Initial(s) && Enabled(s, DoPend(0))
            && Enabled(After(s, DoPend(0)), DoFinishAttach(0, 1, Reservation(0, 1)))
            && Stands(After(After(s, DoPend(0)), DoFinishAttach(0, 1, Reservation(0, 1))), boot, ATTACHED, 1)
  {
    var s := TwoRequests(boot);
    assert Seen(s.client) == {};
    var one := After(s, DoPend(0));
    assert one.client == Client(map[5 := EMPTY.(name := Some("v"), pending := Some(Pending(Attaching, boot)))], 0);
    var two := After(one, DoFinishAttach(0, 1, Reservation(0, 1)));
    assert {} + {1} == {1};
    assert two.client == Client(map[5 := ATTACHED], 1);
    assert two.tasks == s.tasks;
  }

  lemma JoinAndPreempt(s: State, boot: Boot)
    requires Stands(s, boot, ATTACHED, 1)
    ensures Enabled(s, DoAddRef(5, 2, None)) && Enabled(After(s, DoAddRef(5, 2, None)), DoPreempt(5, 2))
    ensures Stands(After(After(s, DoAddRef(5, 2, None)), DoPreempt(5, 2)), boot,
                   ATTACHED.(action := Some(Detaching), refs := Some({1, 2}), version := Some(3),
                             attachmentsVersion := Some(2)), 3)
  {
    var one := After(s, DoAddRef(5, 2, None));
    assert {1} + {2} == {1, 2};
    assert one.client
        == Client(map[5 := ATTACHED.(refs := Some({1, 2}), version := Some(2), attachmentsVersion := Some(2))], 2);
    var two := After(one, DoPreempt(5, 2));
    assert two.client.attachments == map[5 := two.client.attachments[5]];
  }

  lemma DetachTheFirst(s: State, boot: Boot, a: Attachment, version: nat)
    requires Stands(s, boot, a, version) && a.pending.None? && a.refs == Some({1, 2})
    ensures Enabled(s, DoPend(1)) && Enabled(After(s, DoPend(1)), DoFinishDetach(1, 1))
    ensures var c := After(After(s, DoPend(1)), DoFinishDetach(1, 1)).client;
            5 in c.attachments && c.attachments[5].action == Some(Attaching) && RefsOf(c.attachments[5]) == {2}
  {
    var one := After(s, DoPend(1));
    assert one.client.attachments[5] == a.(pending := Some(Pending(Detaching, boot)));
    assert {1, 2} - {1} == {2};
  }

  /** A preemption undone, as a run from a client without attachments: attached with two references, preempted by a
      newer reservation, and attached again because one of the references was detached. */
  lemma DetachRevivesPreempted(boot: Boot)
    ensures var s := TwoRequests(boot);
            var steps := [DoPend(0), DoFinishAttach(0, 1, Reservation(0, 1)), DoAddRef(5, 2, None), DoPreempt(5, 2)];
            var more := [DoPend(1), DoFinishDetach(1, 1)];
            && Initial(s) && IsRun(s, steps) && IsRun(AfterAll(s, steps), more)
            && var c, d := AfterAll(s, steps).client, AfterAll(AfterAll(s, steps), more).client;
            && 5 in c.attachments && c.attachments[5].action == Some(Detaching) && RefsOf(c.attachments[5]) == {1, 2}
            && 5 in d.attachments && d.attachments[5].action == Some(Attaching) && RefsOf(d.attachments[5]) == {2}
  {
    var s := TwoRequests(boot);
    AttachOne(boot);
    var two := After(After(s, DoPend(0)), DoFinishAttach(0, 1, Reservation(0, 1)));
    JoinAndPreempt(two, boot);
    var four := After(After(two, DoAddRef(5, 2, None)), DoPreempt(5, 2));
    DetachTheFirst(four, boot, four.client.attachments[5], 3);
    hide Enabled, After, Initial;
    FourSteps(s, DoPend(0), DoFinishAttach(0, 1, Reservation(0, 1)), DoAddRef(5, 2, None), DoPreempt(5, 2));
    TwoSteps(four, DoPend(1), DoFinishDetach(1, 1));
  }

  lemma TwoSteps(s: State, a: Step, b: Step)
    requires Enabled(s, a) && Enabled(After(s, a), b)
    ensures IsRun(s, [a, b]) && AfterAll(s, [a, b]) == After(After(s, a), b)
  {
    hide Enabled, After;
    assert [a, b][1..] == [b] && [b][1..] == [];
    assert IsRun(After(s, a), [b]) && AfterAll(After(s, a), [b]) == After(After(s, a), b);
  }

  lemma FourSteps(s: State, a: Step, b: Step, c: Step, d: Step)
    requires Enabled(s, a) && Enabled(After(s, a), b) && Enabled(After(After(s, a), b), c)
    requires Enabled(After(After(After(s, a), b), c), d)
    ensures IsRun(s, [a, b, c, d]) && AfterAll(s, [a, b, c, d]) == After(After(After(After(s, a), b), c), d)
  {
    hide Enabled, After;
    ThreeSteps(After(s, a), b, c, d);
    assert [a, b, c, d][1..] == [b, c, d];
  }
}
