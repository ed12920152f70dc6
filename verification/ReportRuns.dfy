/** What reports do to attachments over whole runs: the reattach after a new reservation, and the removal of what was
    detached. */
module ReportRuns {
  import opened Options
  import opened Attachments
  import opened AttachmentRuns

  /** Whatever a report handler may have read as to be detached had no reference. */
  ghost predicate DetachedSeen(s: State) {
    Seen(s.client) <= s.seen && forall x | x in s.seen && x.1.action == Some(Detaching) :: RefsOf(x.1) == {}
  }

  lemma SeenNext(s: State, step: Step)
    requires Enabled(s, step)
    ensures After(s, step).seen == s.seen + Seen(After(s, step).client) || step.DoCrash?
    ensures step.DoCrash? ==> After(s, step).seen == s.seen && After(s, step).client == s.client
  {
    hide Seen, AddRef, RemoveRef, Preempt, SetAction, Pend, FinishAttach, FinishDetach, RemoveAttachment, ClearOwned;
  }

  lemma StepKeepsDetached(s: State, step: Step)
    requires Enabled(s, step) && !step.DoPreempt? && DetachedSeen(s)
    ensures DetachedSeen(After(s, step))
  {
    SeenNext(s, step);
    forall u ensures Unreferenced(After(s, step).client, u) {
      if u in s.client.attachments {
        assert (u, s.client.attachments[u]) in Seen(s.client);
      }
      StepKeepsUnreferenced(s, step, u);
    }
    hide Enabled, After;
    forall x | x in After(s, step).seen && x.1.action == Some(Detaching) ensures RefsOf(x.1) == {} {
      if x !in s.seen {
        assert Unreferenced(After(s, step).client, x.0);
      }
    }
  }

  lemma {:induction false} RunKeepsDetached(s: State, steps: seq<Step>)
    requires DetachedSeen(s) && IsRun(s, steps) && forall i | 0 <= i < |steps| :: !steps[i].DoPreempt?
    ensures DetachedSeen(AfterAll(s, steps))
    decreases |steps|
  {
    if steps != [] {
      StepKeepsDetached(s, steps[0]);
      hide DetachedSeen, Enabled, After;
      RunKeepsDetached(After(s, steps[0]), steps[1..]);
    }
  }

  /** Without preemptions, and over every interleaving of all else, a report that goes through removes an attachment
      only when nobody refers to it and nobody wishes it attached, however old what it read was. */
  lemma RemovalLosesNothing(s: State, steps: seq<Step>, t: TaskID, snapshot: Attachment)
    requires Initial(s) && IsRun(s, steps) && forall u :: Unreferenced(s.client, u)
    requires forall i | 0 <= i < |steps| :: !steps[i].DoPreempt?
    requires Enabled(AfterAll(s, steps), DoRemove(t, snapshot))
    ensures var now := AfterAll(s, steps);
            var u := now.tasks[t].uuid;
            Unmoved(now.client, u, snapshot) ==>
                RefsOf(now.client.attachments[u]) == {} && !Wanted(now.client.attachments[u])
  {
    var now := AfterAll(s, steps);
    var u := now.tasks[t].uuid;
    InitialInv(s);
    RunKeeps(s, steps);
    DetachedAtStart(s);
    RunKeepsDetached(s, steps);
    hide IsRun, AfterAll, Initial;
    assert (u, snapshot) in now.seen && SameRefs(now, u, snapshot);
    if Unmoved(now.client, u, snapshot) {
      assert (u, now.client.attachments[u]) in Seen(now.client);
    }
  }

  lemma DetachedAtStart(s: State)
    requires Initial(s) && forall u :: Unreferenced(s.client, u)
    ensures DetachedSeen(s)
  {
    forall x | x in s.seen && x.1.action == Some(Detaching) ensures RefsOf(x.1) == {} {
      assert Unreferenced(s.client, x.0);
    }
  }

  // ------------------------------------------------------ the reservation

  /** A snapshot at the version an attachment still has shows its reservation. */
  ghost predicate SameReservation(s: State, u: Uuid, h: Attachment) {
    Unmoved(s.client, u, h) ==> s.client.attachments[u].reservation == h.reservation
  }

  ghost predicate ReservationsDated(s: State) {
    forall x | x in s.seen :: SameReservation(s, x.0, x.1)
  }

  /** A write gives the attachment a new version, or leaves its version and its reservation. */
  lemma WriteKeepsReservation(s: State, step: Step, u: Uuid)
    requires Enabled(s, step) && u in After(s, step).client.attachments
    ensures var a := After(s, step).client.attachments[u];
            || a.attachmentsVersion == Some(s.client.attachmentsVersion + 1) || a.attachmentsVersion.None?
            || (u in s.client.attachments && a.attachmentsVersion == s.client.attachments[u].attachmentsVersion
                && a.reservation == s.client.attachments[u].reservation)
  {
    hide Seen;
  }

  lemma StepKeepsReservations(s: State, step: Step)
    requires Enabled(s, step) && Inv(s) && ReservationsDated(s)
    ensures ReservationsDated(After(s, step))
  {
    var t := After(s, step);
    SeenNext(s, step);
    forall x | x in t.seen ensures SameReservation(t, x.0, x.1) {
      if Unmoved(t.client, x.0, x.1) {
        WriteKeepsReservation(s, step, x.0);
        hide Enabled, After;
        if x in s.seen {
          assert SameReservation(s, x.0, x.1);
        }
      }
    }
  }

  lemma {:induction false} RunKeepsReservations(s: State, steps: seq<Step>)
    requires Inv(s) && ReservationsDated(s) && IsRun(s, steps)
    ensures ReservationsDated(AfterAll(s, steps))
    decreases |steps|
  {
    if steps != [] {
      StepKeepsReferences(s, steps[0]);
      StepKeepsReservations(s, steps[0]);
      hide ReservationsDated, Enabled, After, Inv;
      RunKeepsReservations(After(s, steps[0]), steps[1..]);
    }
  }

  /** Over every interleaving a report that goes through turns a volume to reattaching only if the client reports an
      older reservation than the volume has by then, however old what the handler read. */
  lemma ReattachIsDue(s: State, steps: seq<Step>, u: Uuid, snapshot: Attachment, reported: int)
    requires Initial(s) && IsRun(s, steps) && Enabled(AfterAll(s, steps), DoReattach(u, snapshot, reported))
    ensures var now := AfterAll(s, steps).client;
            Unmoved(now, u, snapshot) ==>
              && now.attachments[u].reservation.Some? && reported < now.attachments[u].reservation.value.version
              && RefsOf(now.attachments[u]) != {}
  {
    var now := AfterAll(s, steps);
    InitialInv(s);
    assert ReservationsDated(s);
    RunKeepsReservations(s, steps);
    RunKeeps(s, steps);
    hide IsRun, AfterAll, Initial;
    assert SameReservation(now, u, snapshot) && SameRefs(now, u, snapshot);
  }

  // ------------------------------------------------------------- a reattach

  const REATTACHING := ATTACHED.(action := Some(Reattaching))

  lemma Reattached(s: State, boot: Boot)
    requires Stands(s, boot, ATTACHED, 1) && (5, ATTACHED) in s.seen
    ensures Enabled(s, DoReattach(5, ATTACHED, 0))
    ensures Stands(After(s, DoReattach(5, ATTACHED, 0)), boot, REATTACHING, 2)
    ensures Enabled(After(s, DoReattach(5, ATTACHED, 0)), DoReattached(5, REATTACHING))
    ensures Stands(After(After(s, DoReattach(5, ATTACHED, 0)), DoReattached(5, REATTACHING)), boot, ATTACHED, 3)
  {
    var one := After(s, DoReattach(5, ATTACHED, 0));
    assert one.client.attachments == map[5 := REATTACHING];
    assert (5, one.client.attachments[5]) in Seen(one.client);
    var two := After(one, DoReattached(5, REATTACHING));
    assert two.client.attachments == map[5 := ATTACHED];
  }

  /** A reattach, as a run from a client without attachments: a report with an older reservation turns the volume to
      reattaching, the report that it is detached back to attaching; reference and reservation stay. */
  lemma ReattachRun(boot: Boot)
    ensures var s := TwoRequests(boot);
            var steps := [DoPend(0), DoFinishAttach(0, 1, Reservation(0, 1)), DoReattach(5, ATTACHED, 0),
                          DoReattached(5, REATTACHING)];
            && Initial(s) && IsRun(s, steps[..3]) && IsRun(s, steps)
            && AfterAll(s, steps[..3]).client == Client(map[5 := REATTACHING], 2)
            && AfterAll(s, steps).client == Client(map[5 := ATTACHED], 3)
  {
    var s := TwoRequests(boot);
    AttachOne(boot);
    var two := After(After(s, DoPend(0)), DoFinishAttach(0, 1, Reservation(0, 1)));
    assert (5, two.client.attachments[5]) in Seen(two.client);
    Reattached(two, boot);
    hide Enabled, After, Initial;
    ThreeSteps(s, DoPend(0), DoFinishAttach(0, 1, Reservation(0, 1)), DoReattach(5, ATTACHED, 0));
    FourSteps(s, DoPend(0), DoFinishAttach(0, 1, Reservation(0, 1)), DoReattach(5, ATTACHED, 0),
        DoReattached(5, REATTACHING));
    var steps := [DoPend(0), DoFinishAttach(0, 1, Reservation(0, 1)), DoReattach(5, ATTACHED, 0),
                  DoReattached(5, REATTACHING)];
    assert steps[..3] == [DoPend(0), DoFinishAttach(0, 1, Reservation(0, 1)), DoReattach(5, ATTACHED, 0)];
  }
}
