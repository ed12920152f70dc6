/** In which order a run of the allocation loop asks: the drives in use before all drives, reserved space before free
    space. */
module AllocationOrder {
  import opened Drives
  import opened Options
  import opened ReservedSpace
  import opened AllocationSpec
  import opened Allocation
  import opened AllocateBlocks

  ghost predicate SameDrives(a: seq<DiskID>, b: seq<DiskID>) {
    forall d :: d in a <==> d in b
  }

  /** An earlier pass asked only for the drives that are in use now, for space of this kind. */
  ghost predicate AskedInUse(states: seq<Docs>, held: seq<map<DiskID, seq<Segment>>>, v: Volume, free: FreeQuery,
                             list: ListQuery, steps: seq<Progress>, asked: seq<Answer>, j: int, inUse: seq<DiskID>,
                             reserved: bool) {
    && 0 <= j < |asked| && j < |states| && j < |held| && j < |steps|
    && asked[j].fromReserved == reserved && SameDrives(steps[j].inUse, inUse)
    && asked[j].offers == QueryAnswer(states[j], held[j], v, free, list, reserved, Some(steps[j].inUse))
  }

  /** A pass that goes on keeps the flag only if it keeps the drives. */
  lemma KeepsDrives(p: Progress, q: Progress, v: Volume, request: Request, a: Answer)
    requires v.WellFormed() && Goes(p, q, v, request, a)
    ensures q.tried.used ==> SameDrives(p.inUse, q.inUse) && (p.tried.used || !AsksReserved(v, p.tried))
    ensures q.tried.usedReserved ==> SameDrives(p.inUse, q.inUse) && (p.tried.usedReserved || AsksReserved(v, p.tried))
  {
    hide Given, HasChance, IsEnough;
    if q.inUse != p.inUse {
      var offers := a.offers.value;
      if forall k | 0 <= k < |offers| :: offers[k].disk in p.inUse {
        forall d ensures d in q.inUse <==> d in p.inUse {
        }
      }
    }
  }

  lemma AskedLater(states: seq<Docs>, held: seq<map<DiskID, seq<Segment>>>, v: Volume, free: FreeQuery,
                   list: ListQuery, steps: seq<Progress>, asked: seq<Answer>, j: int, was: seq<DiskID>,
                   inUse: seq<DiskID>, reserved: bool)
    requires AskedInUse(states, held, v, free, list, steps, asked, j, was, reserved) && SameDrives(was, inUse)
    ensures AskedInUse(states, held, v, free, list, steps, asked, j, inUse, reserved)
  {
    hide QueryAnswer;
  }

  /** All drives are asked for free space, or for reserved space, only after those in use were. */
  lemma {:induction false} InUseIsAskedFirst(states: seq<Docs>, held: seq<map<DiskID, seq<Segment>>>, v: Volume,
                                             request: Request, free: FreeQuery, list: ListQuery,
                                             steps: seq<Progress>, asked: seq<Answer>, i: nat, reserved: bool)
    returns (j: int)
    requires v.WellFormed() && Passes(states, held, v, request, free, list, steps, asked)
    requires steps[0].tried == Tried(false, false, false) && i <= |asked|
    requires if reserved then steps[i].tried.usedReserved else steps[i].tried.used
    ensures j < i && AskedInUse(states, held, v, free, list, steps, asked, j, steps[i].inUse, reserved)
    decreases i
  {
    var n := i - 1;
    assert PassAt(states, held, v, request, free, list, steps, asked, n);
    KeepsDrives(steps[n], steps[i], v, request, asked[n]);
    hide Goes, QueryAnswer, Passes;
    if if reserved then steps[n].tried.usedReserved else steps[n].tried.used {
      j := InUseIsAskedFirst(states, held, v, request, free, list, steps, asked, n, reserved);
      AskedLater(states, held, v, free, list, steps, asked, j, steps[n].inUse, steps[i].inUse, reserved);
    } else {
      j := n;
    }
  }

  /** A volume that takes reserved space is given free space only after all drives together were short of reserved
      space. */
  lemma {:induction false} ReservedIsAskedFirst(states: seq<Docs>, held: seq<map<DiskID, seq<Segment>>>, v: Volume,
                                                request: Request, free: FreeQuery, list: ListQuery,
                                                steps: seq<Progress>, asked: seq<Answer>, i: nat)
    returns (j: int)
    requires v.WellFormed() && Passes(states, held, v, request, free, list, steps, asked)
    requires steps[0].tried == Tried(false, false, false) && i < |asked|
    requires TakesReserved(v) && !asked[i].fromReserved
    ensures 0 <= j < i && asked[j].fromReserved && !IsEnough(asked[j], v)
    ensures asked[j].offers == ReservedAnswer(states[j], held[j], v, list, None)
    decreases i
  {
    assert PassAt(states, held, v, request, free, list, steps, asked, i);
    j := ShortBefore(states, held, v, request, free, list, steps, asked, i);
  }

  lemma {:induction false} ShortBefore(states: seq<Docs>, held: seq<map<DiskID, seq<Segment>>>, v: Volume,
                                       request: Request, free: FreeQuery, list: ListQuery, steps: seq<Progress>,
                                       asked: seq<Answer>, i: nat)
    returns (j: int)
    requires v.WellFormed() && Passes(states, held, v, request, free, list, steps, asked)
    requires steps[0].tried == Tried(false, false, false) && i <= |asked| && steps[i].tried.reserved
    ensures 0 <= j < i && asked[j].fromReserved && !IsEnough(asked[j], v)
    ensures asked[j].offers == ReservedAnswer(states[j], held[j], v, list, None)
    decreases i
  {
    var n := i - 1;
    assert PassAt(states, held, v, request, free, list, steps, asked, n);
    KeepsReserved(steps[n], steps[i], v, request, asked[n]);
    hide Goes, Passes, ReservedAnswer, IsEnough;
    if steps[n].tried.reserved {
      j := ShortBefore(states, held, v, request, free, list, steps, asked, n);
    } else {
      j := n;
    }
  }

  lemma KeepsReserved(p: Progress, q: Progress, v: Volume, request: Request, a: Answer)
    requires v.WellFormed() && Goes(p, q, v, request, a)
    ensures q.tried.reserved ==>
              p.tried.reserved || (AsksReserved(v, p.tried) && p.tried.usedReserved && !IsEnough(a, v))
  {
    hide Given, HasChance, IsEnough;
  }
}
