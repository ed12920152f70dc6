/** Attachment reports of a client: whatever order and however often they arrive, the stored list ends up
    with the newest report of each volume. */
module Reports {
  import opened Ranges

  type Uuid = nat

  datatype Device = Device(uuid: Uuid, reportID: int, content: string)

  datatype Stored = Stored(devices: seq<Device>, maxReportID: int)

  function Others(devices: seq<Device>, u: Uuid): seq<Device> {
    if devices == [] then []
    else Others(devices[..|devices| - 1], u) + if devices[|devices| - 1].uuid == u then [] else [devices[|devices| - 1]]
  }

  lemma {:induction false} OthersHave(devices: seq<Device>, u: Uuid)
    ensures forall d :: d in Others(devices, u) <==> d in devices && d.uuid != u
    ensures Unique(devices) ==> Unique(Others(devices, u))
    decreases |devices|
  {
    if devices != [] {
      var n := |devices| - 1;
      OthersHave(devices[..n], u);
      assert devices == devices[..n] + [devices[n]];
      assert Unique(devices) ==> forall d | d in Others(devices[..n], u) :: d.uuid != devices[n].uuid;
      var kept := Others(devices[..n], u);
      assert forall i | 0 <= i < |kept| :: kept[i] in kept;
    }
  }

  ghost predicate Unique(devices: seq<Device>) {
    forall i, j | 0 <= i < j < |devices| :: devices[i].uuid != devices[j].uuid
  }

  /** The guard of the update: nothing stored for the volume, or something older. */
  ghost predicate IsNews(devices: seq<Device>, d: Device) {
    (forall e | e in devices :: e.uuid != d.uuid) ||
          (exists e :: e in devices && e.uuid == d.uuid && e.reportID < d.reportID)
  }

  ghost function Updated(s: Stored, d: Device): Stored {
    if IsNews(s.devices, d) then Stored(Others(s.devices, d.uuid) + [d], Max(s.maxReportID, d.reportID)) else s
  }

  ghost function UpdatedAll(s: Stored, reports: seq<Device>): Stored {
    if reports == [] then s else Updated(UpdatedAll(s, reports[..|reports| - 1]), reports[|reports| - 1])
  }

  /** One entry per volume, none newer than `maxReportID`. */
  ghost predicate Valid(s: Stored) {
    Unique(s.devices) && forall d | d in s.devices :: d.reportID <= s.maxReportID
  }

  ghost predicate Known(s: Stored, reports: seq<Device>, d: Device) {
    d in s.devices || d in reports
  }

  /** One content per volume and report. */
  ghost predicate Consistent(s: Stored, reports: seq<Device>) {
    forall d, e | Known(s, reports, d) && Known(s, reports, e) && d.uuid == e.uuid && d.reportID == e.reportID :: d == e
  }

  /** An entry for the volume of `d` that is at least as new. */
  ghost predicate Covers(devices: seq<Device>, d: Device) {
    exists e :: e in devices && e.uuid == d.uuid && d.reportID <= e.reportID
  }

  /** The entries are the newest of what is known, one for each volume known at all. */
  ghost predicate HoldsNewest(s: Stored, reports: seq<Device>, devices: seq<Device>) {
    && Unique(devices)
    && (forall d | d in devices :: Known(s, reports, d))
    && (forall d | Known(s, reports, d) :: Covers(devices, d))
  }

  /** The largest of an initial id and all received. */
  ghost predicate IsLargest(initial: int, reports: seq<Device>, id: int) {
    && id >= initial
    && (forall i | 0 <= i < |reports| :: reports[i].reportID <= id)
    && (id == initial || exists i :: 0 <= i < |reports| && reports[i].reportID == id)
  }

  lemma UniqueEntry(devices: seq<Device>, d: Device, e: Device)
    requires Unique(devices) && d in devices && e in devices && d.uuid == e.uuid
    ensures d == e
  {
    var i :| 0 <= i < |devices| && devices[i] == d;
    var j :| 0 <= j < |devices| && devices[j] == e;
  }

  lemma NextIsValid(now: Stored, d: Device)
    requires Valid(now)
    ensures Valid(Updated(now, d))
  {
    OthersHave(now.devices, d.uuid);
    if IsNews(now.devices, d) {
      var kept := Others(now.devices, d.uuid);
      assert forall i | 0 <= i < |kept| :: kept[i] in kept;
    }
  }

  /** What was covered stays covered, and the new report is. */
  lemma StillCovered(now: Stored, d: Device, e: Device)
    requires Unique(now.devices) && (e == d || Covers(now.devices, e))
    ensures Covers(Updated(now, d).devices, e)
  {
    OthersHave(now.devices, d.uuid);
    var next := Updated(now, d);
    if IsNews(now.devices, d) {
      assert d in next.devices;
      if e != d {
        var f :| f in now.devices && f.uuid == e.uuid && e.reportID <= f.reportID;
        if f.uuid == d.uuid {
          var g :| g in now.devices && g.uuid == d.uuid && g.reportID < d.reportID;
          UniqueEntry(now.devices, f, g);
        } else {
          assert f in next.devices;
        }
      }
    } else if e == d {
      var f :| f in now.devices && f.uuid == d.uuid;
    }
  }

  lemma StepHoldsNewest(s: Stored, reports: seq<Device>, now: Stored, d: Device)
    requires HoldsNewest(s, reports, now.devices) && Valid(now)
    ensures HoldsNewest(s, reports + [d], Updated(now, d).devices)
  {
    NextIsValid(now, d);
    OthersHave(now.devices, d.uuid);
    var next := Updated(now, d);
    forall e | e in next.devices ensures Known(s, reports + [d], e) {
      assert e == d || e in now.devices;
    }
    hide Updated, Covers, Unique;
    forall e | Known(s, reports + [d], e) ensures Covers(next.devices, e) {
      assert e == d || Known(s, reports, e);
      StillCovered(now, d, e);
    }
    assert Unique(next.devices);
  }

  lemma StepIsLargest(initial: int, reports: seq<Device>, now: Stored, d: Device)
    requires Valid(now) && IsLargest(initial, reports, now.maxReportID)
    ensures IsLargest(initial, reports + [d], Updated(now, d).maxReportID)
  {
    var all, next := reports + [d], Updated(now, d);
    if !IsNews(now.devices, d) {
      var f :| f in now.devices && f.uuid == d.uuid;
      assert d.reportID <= f.reportID;
    }
    assert all[|reports|] == d;
    if next.maxReportID != initial && next.maxReportID == now.maxReportID {
      var i :| 0 <= i < |reports| && reports[i].reportID == now.maxReportID;
      assert all[i] == reports[i];
    }
  }

  /** After any sequence of reports the newest of each volume is stored, and `maxReportID` is the largest of
      its first value and all ids received. */
  lemma {:induction false} NewestIsStored(s: Stored, reports: seq<Device>)
    requires Valid(s)
    ensures Valid(UpdatedAll(s, reports))
    ensures HoldsNewest(s, reports, UpdatedAll(s, reports).devices)
    ensures IsLargest(s.maxReportID, reports, UpdatedAll(s, reports).maxReportID)
    decreases |reports|
  {
    if reports == [] {
      forall d | Known(s, reports, d) ensures Covers(s.devices, d) {
        assert d in s.devices;
      }
    } else {
      var n := |reports| - 1;
      var before := UpdatedAll(s, reports[..n]);
      assert UpdatedAll(s, reports) == Updated(before, reports[n]);
      assert reports[..n] + [reports[n]] == reports;
      hide *;
      NewestIsStored(s, reports[..n]);
      NextIsValid(before, reports[n]);
      StepHoldsNewest(s, reports[..n], before, reports[n]);
      StepIsLargest(s.maxReportID, reports[..n], before, reports[n]);
    }
  }

  lemma NewestUnique(s: Stored, reports: seq<Device>, others: seq<Device>, now: seq<Device>, other: seq<Device>,
                     d: Device)
    requires Consistent(s, reports) && (forall e :: Known(s, reports, e) <==> Known(s, others, e))
    requires HoldsNewest(s, reports, now) && HoldsNewest(s, others, other) && d in now
    ensures d in other
  {
    hide Known, Unique, Consistent, Covers;
    assert Known(s, reports, d) && Known(s, others, d);
    var e := CoveredBy(other, d);
    assert Known(s, others, e) && Known(s, reports, e);
    var f := CoveredBy(now, e);
    UniqueEntry(now, d, f);
    OneContent(s, reports, d, e);
  }

  lemma OneContent(s: Stored, reports: seq<Device>, d: Device, e: Device)
    requires Consistent(s, reports) && Known(s, reports, d) && Known(s, reports, e)
    requires d.uuid == e.uuid && d.reportID == e.reportID
    ensures d == e
  {
  }

  lemma CoveredBy(devices: seq<Device>, d: Device) returns (e: Device)
    requires Covers(devices, d)
    ensures e in devices && e.uuid == d.uuid && d.reportID <= e.reportID
  {
    e :| e in devices && e.uuid == d.uuid && d.reportID <= e.reportID;
  }

  lemma LargestUnique(initial: int, reports: seq<Device>, others: seq<Device>, a: int, b: int)
    requires IsLargest(initial, reports, a) && IsLargest(initial, others, b)
             && forall i | 0 <= i < |reports| :: reports[i] in others
    ensures a <= b
  {
    if a != initial {
      var i :| 0 <= i < |reports| && reports[i].reportID == a;
      var j :| 0 <= j < |others| && others[j] == reports[i];
    }
  }

  /** Reports converge: two deliveries of the same reports, reordered and repeated at will, end with the same
      entries and the same `maxReportID`. */
  lemma ReportsConverge(s: Stored, reports: seq<Device>, others: seq<Device>)
    requires Valid(s) && Consistent(s, reports) && forall d :: d in reports <==> d in others
    ensures var now, other := UpdatedAll(s, reports), UpdatedAll(s, others);
            && (forall d :: d in now.devices <==> d in other.devices)
            && now.maxReportID == other.maxReportID
            && Unique(now.devices)
  {
    hide *;
    NewestIsStored(s, reports);
    NewestIsStored(s, others);
    var now, other := UpdatedAll(s, reports), UpdatedAll(s, others);
    LargestUnique(s.maxReportID, reports, others, now.maxReportID, other.maxReportID);
    LargestUnique(s.maxReportID, others, reports, other.maxReportID, now.maxReportID);
    SameKnown(s, reports, others);
    SameConsistent(s, reports, others);
    forall d ensures d in now.devices <==> d in other.devices {
      if d in now.devices {
        NewestUnique(s, reports, others, now.devices, other.devices, d);
      }
      if d in other.devices {
        NewestUnique(s, others, reports, other.devices, now.devices, d);
      }
    }
    UniqueOf(s, reports, now.devices);
  }

  lemma SameKnown(s: Stored, reports: seq<Device>, others: seq<Device>)
    requires forall d :: d in reports <==> d in others
    ensures forall e :: Known(s, reports, e) <==> Known(s, others, e)
  {
  }

  lemma UniqueOf(s: Stored, reports: seq<Device>, devices: seq<Device>)
    requires HoldsNewest(s, reports, devices)
    ensures Unique(devices)
  {
  }

  lemma SameConsistent(s: Stored, reports: seq<Device>, others: seq<Device>)
    requires Consistent(s, reports) && forall e :: Known(s, reports, e) <==> Known(s, others, e)
    ensures Consistent(s, others)
  {
    hide Known;
  }

  /** The stored list as the report handler changes it, for reports that leave the wishful state alone. */
  class ClientReports {
    var devices: seq<Device>
    var maxReportID: int

    constructor (maxReportID: int)
      ensures Contents() == Stored([], maxReportID) && Valid(Contents())
    {
      devices, this.maxReportID := [], maxReportID;
    }

    function Contents(): Stored
      reads this
    {
      Stored(devices, maxReportID)
    }

    method HandleSingleUpdateAttachment(d: Device) returns (saved: bool)
      requires Valid(Contents())
      modifies this
      ensures Valid(Contents()) && Contents() == Updated(old(Contents()), d)
      ensures saved == IsNews(old(devices), d)
    {
      NextIsValid(Contents(), d);
      var known := false;
      saved := false;
      for i := 0 to |devices|
        invariant known <==> exists j :: 0 <= j < i && devices[j].uuid == d.uuid
        invariant saved <==> exists j :: 0 <= j < i && devices[j].uuid == d.uuid && devices[j].reportID < d.reportID
        invariant devices == old(devices) && maxReportID == old(maxReportID)
      {
        if devices[i].uuid == d.uuid {
          known := true;
          if devices[i].reportID < d.reportID {
            saved := true;
          }
        }
      }
      assert saved ==> exists e :: e in devices && e.uuid == d.uuid && e.reportID < d.reportID;
      saved := saved || !known;
      if saved {
        maxReportID := Max(maxReportID, d.reportID);
        devices := Others(devices, d.uuid) + [d];
      }
    }
  }
}
