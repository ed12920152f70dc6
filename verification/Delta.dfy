/** The delta recorder: it changes an in-memory object and records what to send, so that the one update it
    generates turns the stored object into the one in memory (class `calcDelta`). */
module Delta {
  import opened Options

  type Uuid = nat
  type Key = string

  datatype Value = Num(n: int) | Text(s: string) | Obj(fields: map<Key, Value>)

  /** A disk or a NIC of a target. */
  datatype EntityID = Disk(uuid: Uuid) | Nic(uuid: Uuid)

  datatype Seg = Seg(uuid: Uuid, content: Value)

  datatype Entity = Entity(fields: map<Key, Value>, segs: Option<seq<Seg>>)

  datatype Target = Target(fields: map<Key, Value>, entities: map<EntityID, Entity>)

  /** What was recorded for one entity. */
  datatype Changes = Changes(sets: map<Key, Value>, inc: seq<Key>, unset: seq<Key>)

  const NO_CHANGES := Changes(map[], [], [])

  datatype Recorded = Recorded(target: map<Key, Value>, entities: map<EntityID, Changes>,
                               pushed: map<EntityID, seq<Seg>>, pulled: map<EntityID, seq<Uuid>>)

  const NOTHING := Recorded(map[], map[], map[], map[])

  function ChangesOf(r: Recorded, e: EntityID): Changes {
    if e in r.entities then r.entities[e] else NO_CHANGES
  }

  // ------------------------------------------------------------- operations

  datatype Op =
    | UpdateTarget(key: Key, value: Value)
    | UpdateObjectInTarget(objectName: Key, key: Key, value: Value)
    | UpdateField(e: EntityID, key: Key, value: Value)
    | IncField(e: EntityID, key: Key)
    | UnsetField(e: EntityID, key: Key)
    | PushSegment(e: EntityID, seg: Seg)
    | PullSegments(e: EntityID, uuids: seq<Uuid>)

  function Inner(fields: map<Key, Value>, objectName: Key): map<Key, Value> {
    if objectName in fields && fields[objectName].Obj? then fields[objectName].fields else map[]
  }

  function PlusOne(v: Value): Value {
    match v
    case Num(n) => Num(n + 1)
    case _ => v
  }

  function Without(segs: seq<Seg>, uuids: seq<Uuid>): seq<Seg> {
    if segs == [] then []
    else Without(segs[..|segs| - 1], uuids) + if segs[|segs| - 1].uuid in uuids then [] else [segs[|segs| - 1]]
  }

  function SegsOf(e: Entity): seq<Seg> {
    if e.segs.Some? then e.segs.value else []
  }

  /** The in-memory change of one operation. */
  function Mutated(t: Target, op: Op): Target
    requires Applies(t, op)
  {
    match op
    case UpdateTarget(key, value) => t.(fields := t.fields[key := value])
    case UpdateObjectInTarget(objectName, key, value) =>
      t.(fields := t.fields[objectName := Obj(Inner(t.fields, objectName)[key := value])])
    case UpdateField(e, key, value) => WithEntity(t, e, t.entities[e].(fields := t.entities[e].fields[key := value]))
    case IncField(e, key) =>
      WithEntity(t, e, t.entities[e].(fields := t.entities[e].fields[key := PlusOne(t.entities[e].fields[key])]))
    case UnsetField(e, key) => WithEntity(t, e, t.entities[e].(fields := t.entities[e].fields - {key}))
    case PushSegment(e, seg) => WithEntity(t, e, t.entities[e].(segs := Some(SegsOf(t.entities[e]) + [seg])))
    case PullSegments(e, uuids) => WithEntity(t, e, t.entities[e].(segs := Some(Without(SegsOf(t.entities[e]), uuids))))
  }

  /** What one operation does to the object in memory, field by field: the value named is written, counted or removed,
      the other fields, inner fields and segments stay. */
  lemma MutatedExactly(t: Target, op: Op)
    requires Applies(t, op)
    ensures var u := Mutated(t, op);
            match op
            case UpdateTarget(key, value) => u.entities == t.entities && OneField(t.fields, u.fields, key, Some(value))
            case UpdateObjectInTarget(objectName, key, value) =>
              && u.entities == t.entities && objectName in u.fields && u.fields[objectName].Obj?
              && OneField(t.fields, u.fields, objectName, Some(u.fields[objectName]))
              && OneField(if objectName in t.fields && t.fields[objectName].Obj? then t.fields[objectName].fields
                          else map[], u.fields[objectName].fields, key, Some(value))
            case UpdateField(e, key, value) =>
              OneEntity(t, u, e) && u.entities[e].segs == t.entities[e].segs
              && OneField(t.entities[e].fields, u.entities[e].fields, key, Some(value))
            case IncField(e, key) =>
              OneEntity(t, u, e) && u.entities[e].segs == t.entities[e].segs
              && OneField(t.entities[e].fields, u.entities[e].fields, key, Some(Num(t.entities[e].fields[key].n + 1)))
            case UnsetField(e, key) =>
              OneEntity(t, u, e) && u.entities[e].segs == t.entities[e].segs
              && OneField(t.entities[e].fields, u.entities[e].fields, key, None)
            case PushSegment(e, seg) =>
              OneEntity(t, u, e) && u.entities[e].fields == t.entities[e].fields
              && u.entities[e].segs
                 == Some((if t.entities[e].segs.Some? then t.entities[e].segs.value else []) + [seg])
            case PullSegments(e, uuids) =>
              OneEntity(t, u, e) && u.entities[e].fields == t.entities[e].fields && u.entities[e].segs.Some?
              && forall seg :: seg in u.entities[e].segs.value
                   <==> seg in t.entities[e].segs.value && seg.uuid !in uuids
  {
    if op.PullSegments? {
      WithoutKeeps(t.entities[op.e].segs.value, op.uuids);
    }
  }

  /** The fields afterwards are those before, but for one that has this value, or is gone. */
  ghost predicate OneField(before: map<Key, Value>, after: map<Key, Value>, key: Key, value: Option<Value>) {
    forall k :: FieldOf(after, k) == if k == key then value else FieldOf(before, k)
  }

  ghost predicate OneEntity(t: Target, u: Target, e: EntityID) {
    && u.fields == t.fields && u.entities.Keys == t.entities.Keys && e in t.entities
    && (forall f | f in t.entities && f != e :: u.entities[f] == t.entities[f])
  }

  lemma {:induction false} WithoutKeeps(segs: seq<Seg>, uuids: seq<Uuid>)
    ensures forall seg :: seg in Without(segs, uuids) <==> seg in segs && seg.uuid !in uuids
    decreases |segs|
  {
    if segs != [] {
      WithoutKeeps(segs[..|segs| - 1], uuids);
    }
  }

  function WithEntity(t: Target, e: EntityID, entity: Entity): Target {
    t.(entities := t.entities[e := entity])
  }

  /** The recording keeps the changes of disks and NICs under these keys, so no field of a target is recorded there. */
  predicate IsTargetField(key: Key) {
    key != "disks" && key != "nics"
  }

  /** It keeps increments under `$inc`, and the segment list has operations of its own. */
  predicate IsEntityField(key: Key) {
    key != "$inc" && key != "diskSegments"
  }

  /** What the operations need: the key is that of a field, the disk or NIC is one of the target's, an incremented
      field is a number, a filtered segment list exists, an inner field sits in an object. Fields are removed from
      disks only, and only disks have segments. */
  predicate Applies(t: Target, op: Op) {
    match op
    case UpdateTarget(key, _) => IsTargetField(key)
    case UpdateObjectInTarget(objectName, _, _) =>
      IsTargetField(objectName) && (objectName in t.fields ==> t.fields[objectName].Obj?)
    case UpdateField(e, key, _) => e in t.entities && IsEntityField(key)
    case IncField(e, key) =>
      && e in t.entities && IsEntityField(key) && key in t.entities[e].fields
      && t.entities[e].fields[key].Num?
    case UnsetField(e, key) => e.Disk? && e in t.entities && IsEntityField(key)
    case PushSegment(e, _) => e.Disk? && e in t.entities
    case PullSegments(e, _) => e.Disk? && e in t.entities && t.entities[e].segs.Some?
  }

  /** What one operation records; `now` is the object after the change. */
  function Noted(r: Recorded, op: Op, now: Target): Recorded {
    match op
    case UpdateTarget(key, value) => r.(target := r.target[key := value])
    case UpdateObjectInTarget(objectName, _, _) =>
      if objectName in now.fields then r.(target := r.target[objectName := now.fields[objectName]]) else r
    case UpdateField(e, key, value) => WithChanges(r, e, ChangesOf(r, e).(sets := ChangesOf(r, e).sets[key := value]))
    case IncField(e, key) => WithChanges(r, e, ChangesOf(r, e).(inc := ChangesOf(r, e).inc + [key]))
    case UnsetField(e, key) => WithChanges(r, e, ChangesOf(r, e).(unset := ChangesOf(r, e).unset + [key]))
    case PushSegment(e, seg) => r.(pushed := r.pushed[e := (if e in r.pushed then r.pushed[e] else []) + [seg]])
    case PullSegments(e, uuids) => r.(pulled := r.pulled[e := (if e in r.pulled then r.pulled[e] else []) + uuids])
  }

  function WithChanges(r: Recorded, e: EntityID, c: Changes): Recorded {
    r.(entities := r.entities[e := c])
  }

  /** One kind of operation per key of an entity; a segment list is pushed to or pulled from, not both. */
  predicate KindsApart(r: Recorded, op: Op) {
    match op
    case UpdateTarget(_, _) => true
    case UpdateObjectInTarget(_, _, _) => true
    case UpdateField(e, key, _) => key !in ChangesOf(r, e).inc && key !in ChangesOf(r, e).unset
    case IncField(e, key) => key !in ChangesOf(r, e).sets && key !in ChangesOf(r, e).unset
    case UnsetField(e, key) => key !in ChangesOf(r, e).sets && key !in ChangesOf(r, e).inc
    case PushSegment(e, _) => e !in r.pulled
    case PullSegments(e, _) => e !in r.pushed
  }

  /** And one increment of a field at most. */
  predicate OneKind(r: Recorded, op: Op) {
    KindsApart(r, op) && (op.IncField? ==> op.key !in ChangesOf(r, op.e).inc)
  }

  // ------------------------------------------------------ the generated update

  datatype Path = TargetKey(key: Key) | EntityKey(e: EntityID, key: Key)

  datatype Query = Query(sets: map<Path, Value>, unset: set<Path>, inc: set<Path>,
                         push: map<EntityID, seq<Seg>>, pull: map<EntityID, set<Uuid>>)

  function SetPaths(r: Recorded): (paths: set<Path>)
    ensures forall p :: p in paths <==> match p
                                        case TargetKey(key) => key in r.target
                                        case EntityKey(e, key) => e in r.entities && key in r.entities[e].sets
  {
    (set key | key in r.target :: TargetKey(key))
    + (set e, key | e in r.entities && key in r.entities[e].sets :: EntityKey(e, key))
  }

  function SetValue(r: Recorded, p: Path): Value
    requires p in SetPaths(r)
  {
    match p
    case TargetKey(key) => r.target[key]
    case EntityKey(e, key) => r.entities[e].sets[key]
  }

  function AsSet(uuids: seq<Uuid>): (r: set<Uuid>)
    ensures forall u :: u in r <==> u in uuids
  {
    set u | u in uuids
  }

  function GenerateQueryParts(r: Recorded): Query {
    Query(map p | p in SetPaths(r) :: SetValue(r, p),
          set e, key | e in r.entities && key in r.entities[e].unset :: EntityKey(e, key),
          set e, key | e in r.entities && key in r.entities[e].inc :: EntityKey(e, key),
          r.pushed,
          map e | e in r.pulled :: AsSet(r.pulled[e]))
  }

  /** The store refuses an update that names a path twice. */
  ghost predicate NoConflict(q: Query) {
    q.sets.Keys !! q.unset && q.sets.Keys !! q.inc && q.unset !! q.inc && q.push.Keys !! q.pull.Keys
  }

  function PulledBy(segs: seq<Seg>, uuids: set<Uuid>): seq<Seg> {
    if segs == [] then []
    else PulledBy(segs[..|segs| - 1], uuids) + if segs[|segs| - 1].uuid in uuids then [] else [segs[|segs| - 1]]
  }

  /** What the store does with the fields of one object: set, unset and increment by one. */
  function UpdatedField(q: Query, p: Path, was: Option<Value>): Option<Value> {
    if p in q.sets then Some(q.sets[p])
    else if p in q.unset then None
    else if p in q.inc then (if was.Some? then Some(PlusOne(was.value)) else Some(Num(1)))
    else was
  }

  function FieldOf(fields: map<Key, Value>, key: Key): Option<Value> {
    if key in fields then Some(fields[key]) else None
  }

  function UpdatedSegs(q: Query, e: EntityID, segs: Option<seq<Seg>>): Option<seq<Seg>> {
    if e in q.push then Some((if segs.Some? then segs.value else []) + q.push[e])
    else if e in q.pull && segs.Some? then Some(PulledBy(segs.value, q.pull[e]))
    else segs
  }

  /** `now` is what the store makes of `before` when it applies `q`. */
  ghost predicate IsApplied(q: Query, before: Target, now: Target) {
    && (forall key :: FieldOf(now.fields, key) == UpdatedField(q, TargetKey(key), FieldOf(before.fields, key)))
    && now.entities.Keys == before.entities.Keys
    && (forall e | e in before.entities ::
          && now.entities[e].segs == UpdatedSegs(q, e, before.entities[e].segs)
          && (forall key ::
                FieldOf(now.entities[e].fields, key)
                == UpdatedField(q, EntityKey(e, key), FieldOf(before.entities[e].fields, key))))
  }

  /** The store has one way to apply an update. */
  lemma AppliedOnce(q: Query, before: Target, now: Target, other: Target)
    requires IsApplied(q, before, now) && IsApplied(q, before, other)
    ensures now == other
  {
    SameFields(now.fields, other.fields);
    forall e | e in now.entities ensures now.entities[e] == other.entities[e] {
      SameFields(now.entities[e].fields, other.entities[e].fields);
    }
    assert now.entities == other.entities;
  }

  lemma SameFields(a: map<Key, Value>, b: map<Key, Value>)
    requires forall key :: FieldOf(a, key) == FieldOf(b, key)
    ensures a == b
  {
    forall key ensures key in a <==> key in b {
      assert FieldOf(a, key) == FieldOf(b, key);
    }
    forall key | key in a ensures a[key] == b[key] {
      assert FieldOf(a, key) == FieldOf(b, key);
    }
  }

  // -------------------------------------------------------------- the invariant

  ghost predicate Disciplined(r: Recorded) {
    && r.pushed.Keys !! r.pulled.Keys
    && (forall e, key | e in r.entities :: OnceAt(r.entities[e], key))
  }

  predicate OnceAt(c: Changes, key: Key) {
    && !(key in c.sets && (key in c.inc || key in c.unset))
    && !(key in c.inc && key in c.unset)
  }

  function Count(keys: seq<Key>, key: Key): nat {
    if keys == [] then 0 else Count(keys[..|keys| - 1], key) + if keys[|keys| - 1] == key then 1 else 0
  }

  lemma {:induction false} CountIn(keys: seq<Key>, key: Key)
    ensures key in keys <==> Count(keys, key) >= 1
    decreases |keys|
  {
    if keys != [] {
      var n := |keys| - 1;
      CountIn(keys[..n], key);
      assert keys == keys[..n] + [keys[n]];
    }
  }

  function Plus(v: Value, k: nat): Value {
    match v
    case Num(n) => Num(n + k)
    case _ => v
  }

  /** What has become of a field in memory, where every recorded increment counts. */
  function FieldCounted(c: Changes, key: Key, was: Option<Value>): Option<Value> {
    if key in c.sets then Some(c.sets[key])
    else if key in c.unset then None
    else if key in c.inc then (if was.Some? then Some(Plus(was.value, Count(c.inc, key))) else None)
    else was
  }

  ghost predicate FieldFollows(c: Changes, key: Key, was: Option<Value>, now: Option<Value>) {
    now == FieldCounted(c, key, was) && (key in c.inc ==> was.Some? && was.value.Num?)
  }

  ghost predicate TargetFollows(r: Recorded, before: Target, now: Target) {
    forall key :: FieldOf(now.fields, key)
           == UpdatedField(GenerateQueryParts(r), TargetKey(key), FieldOf(before.fields, key))
  }

  ghost predicate SegsFollow(r: Recorded, before: Target, now: Target) {
    && now.entities.Keys == before.entities.Keys && r.entities.Keys <= before.entities.Keys
    && (forall e | e in before.entities ::
          now.entities[e].segs == UpdatedSegs(GenerateQueryParts(r), e, before.entities[e].segs))
  }

  ghost predicate FieldsFollow(r: Recorded, before: Target, now: Target)
    requires now.entities.Keys == before.entities.Keys
  {
    forall e, key | e in before.entities ::
      FieldFollows(ChangesOf(r, e), key, FieldOf(before.entities[e].fields, key), FieldOf(now.entities[e].fields, key))
  }

  /** How the object in memory and the recording belong together. */
  ghost predicate RecordFollows(r: Recorded, before: Target, now: Target) {
    Disciplined(r) && TargetFollows(r, before, now) && SegsFollow(r, before, now) && FieldsFollow(r, before, now)
  }

  /** No field was incremented twice. */
  ghost predicate IncOnce(r: Recorded) {
    forall e, key | e in r.entities :: Count(r.entities[e].inc, key) <= 1
  }

  /** The recording belongs to the object, and the update generated from it reproduces the object. */
  ghost predicate Replays(r: Recorded, before: Target, now: Target) {
    RecordFollows(r, before, now) && IsApplied(GenerateQueryParts(r), before, now)
  }

  lemma {:induction false} PullAgain(segs: seq<Seg>, uuids: seq<Uuid>, more: seq<Uuid>)
    ensures Without(PulledBy(segs, AsSet(uuids)), more) == PulledBy(segs, AsSet(uuids + more))
    decreases |segs|
  {
    if segs != [] {
      var n := |segs| - 1;
      var first, all := AsSet(uuids), AsSet(uuids + more);
      PullAgain(segs[..n], uuids, more);
      var kept := PulledBy(segs[..n], first);
      var u := segs[n].uuid;
      assert u in all <==> u in uuids || u in more;
      if u in uuids {
        assert PulledBy(segs, first) == kept;
        assert PulledBy(segs, all) == PulledBy(segs[..n], all);
      } else {
        assert PulledBy(segs, first) == kept + [segs[n]];
        assert (kept + [segs[n]])[..|kept|] == kept;
      }
    }
  }

  lemma {:induction false} PullFirst(segs: seq<Seg>, uuids: seq<Uuid>)
    ensures Without(segs, uuids) == PulledBy(segs, AsSet(uuids))
    decreases |segs|
  {
    if segs != [] {
      PullFirst(segs[..|segs| - 1], uuids);
    }
  }

  lemma StepDisciplined(r: Recorded, op: Op, now: Target)
    requires Disciplined(r) && KindsApart(r, op)
    ensures Disciplined(Noted(r, op, now))
  {
    var s := Noted(r, op, now);
    forall e, key | e in s.entities ensures OnceAt(s.entities[e], key) {
      if e in r.entities {
        assert OnceAt(r.entities[e], key);
      }
    }
  }

  /** What the recorded changes of an entity make of one of its fields. */
  function FieldAfter(c: Changes, key: Key, was: Option<Value>): Option<Value> {
    if key in c.sets then Some(c.sets[key])
    else if key in c.unset then None
    else if key in c.inc then (if was.Some? then Some(PlusOne(was.value)) else Some(Num(1)))
    else was
  }

  lemma QueryField(r: Recorded, e: EntityID, key: Key, was: Option<Value>)
    ensures UpdatedField(GenerateQueryParts(r), EntityKey(e, key), was) == FieldAfter(ChangesOf(r, e), key, was)
  {
    var q := GenerateQueryParts(r);
    assert EntityKey(e, key) in q.sets <==> EntityKey(e, key) in SetPaths(r);
  }

  lemma QueryTarget(r: Recorded, key: Key, was: Option<Value>)
    ensures UpdatedField(GenerateQueryParts(r), TargetKey(key), was)
            == if key in r.target then Some(r.target[key]) else was
  {
    var q := GenerateQueryParts(r);
    assert TargetKey(key) in q.sets <==> TargetKey(key) in SetPaths(r);
  }

  lemma CountMore(c: Changes, key: Key, other: Key)
    ensures Count(c.inc + [other], key) == Count(c.inc, key) + if other == key then 1 else 0
    ensures key in c.inc + [other] <==> key in c.inc || key == other
    ensures key !in c.inc ==> Count(c.inc, key) == 0
  {
    assert (c.inc + [other])[..|c.inc|] == c.inc;
    CountIn(c.inc, key);
  }

  lemma FieldStep(r: Recorded, op: Op, now: Target, e: EntityID, key: Key, was: Option<Value>)
    requires Applies(now, op) && KindsApart(r, op) && e in now.entities
    requires FieldFollows(ChangesOf(r, e), key, was, FieldOf(now.entities[e].fields, key))
    ensures var next := Mutated(now, op);
            e in next.entities && FieldFollows(ChangesOf(Noted(r, op, next), e), key, was,
                FieldOf(next.entities[e].fields, key))
  {
    hide Without, Count;
    if op.IncField? {
      CountMore(ChangesOf(r, e), key, op.key);
    }
  }

  /** What the recorded pushes or pulls make of a segment list. */
  function SegsAfter(r: Recorded, e: EntityID, segs: Option<seq<Seg>>): Option<seq<Seg>> {
    if e in r.pushed then Some((if segs.Some? then segs.value else []) + r.pushed[e])
    else if e in r.pulled && segs.Some? then Some(PulledBy(segs.value, AsSet(r.pulled[e])))
    else segs
  }

  lemma QuerySegs(r: Recorded, e: EntityID, segs: Option<seq<Seg>>)
    ensures UpdatedSegs(GenerateQueryParts(r), e, segs) == SegsAfter(r, e, segs)
  {
  }

  /** Pushed once more. */
  lemma PushAfter(r: Recorded, e: EntityID, seg: Seg, now: Option<seq<Seg>>, was: Option<seq<Seg>>)
    requires now == SegsAfter(r, e, was) && e !in r.pulled
    ensures SegsAfter(r.(pushed := r.pushed[e := (if e in r.pushed then r.pushed[e] else []) + [seg]]), e, was)
         == Some((if now.Some? then now.value else []) + [seg])
  {
    hide PulledBy;
    var segs := if was.Some? then was.value else [];
    if e in r.pushed {
      assert segs + (r.pushed[e] + [seg]) == (segs + r.pushed[e]) + [seg];
    } else {
      assert [] + [seg] == [seg];
    }
  }

  /** Pulled once more. */
  lemma PullAfter(r: Recorded, e: EntityID, uuids: seq<Uuid>, now: Option<seq<Seg>>, was: Option<seq<Seg>>)
    requires now == SegsAfter(r, e, was) && e !in r.pushed && now.Some?
    ensures SegsAfter(r.(pulled := r.pulled[e := (if e in r.pulled then r.pulled[e] else []) + uuids]), e, was)
         == Some(Without(now.value, uuids))
  {
    hide PulledBy, Without;
    var segs := if was.Some? then was.value else [];
    if e in r.pulled {
      PullAgain(segs, r.pulled[e], uuids);
    } else {
      PullFirst(segs, uuids);
      assert [] + uuids == uuids;
    }
  }

  lemma SegsStep(r: Recorded, op: Op, now: Target, e: EntityID, was: Option<seq<Seg>>)
    requires Applies(now, op) && KindsApart(r, op) && e in now.entities
    requires now.entities[e].segs == SegsAfter(r, e, was)
    ensures var next := Mutated(now, op);
            e in next.entities && next.entities[e].segs == SegsAfter(Noted(r, op, next), e, was)
  {
    match op
    case PushSegment(f, seg) =>
      if e == f {
        PushAfter(r, e, seg, now.entities[e].segs, was);
      }
      hide PulledBy, Without;
    case PullSegments(f, uuids) =>
      if e == f {
        PullAfter(r, e, uuids, now.entities[e].segs, was);
      }
      hide PulledBy, Without;
    case _ =>
      hide PulledBy, Without;
  }

  lemma StepSegs(r: Recorded, op: Op, before: Target, now: Target, e: EntityID)
    requires SegsFollow(r, before, now) && Applies(now, op) && KindsApart(r, op) && e in before.entities
    ensures var next := Mutated(now, op);
            && e in next.entities
            && next.entities[e].segs == UpdatedSegs(GenerateQueryParts(Noted(r, op, next)), e, before.entities[e].segs)
  {
    hide GenerateQueryParts, UpdatedSegs, Mutated, Noted, KindsApart, Applies, UpdatedField, SegsAfter;
    var was := before.entities[e].segs;
    assert now.entities[e].segs == UpdatedSegs(GenerateQueryParts(r), e, was);
    QuerySegs(r, e, was);
    QuerySegs(Noted(r, op, Mutated(now, op)), e, was);
    SegsStep(r, op, now, e, was);
  }

  lemma StepTarget(r: Recorded, op: Op, before: Target, now: Target, key: Key)
    requires TargetFollows(r, before, now) && Applies(now, op) && KindsApart(r, op)
    ensures var next := Mutated(now, op);
            FieldOf(next.fields, key)
                == UpdatedField(GenerateQueryParts(Noted(r, op, next)), TargetKey(key), FieldOf(before.fields, key))
  {
    var was := FieldOf(before.fields, key);
    assert FieldOf(now.fields, key) == UpdatedField(GenerateQueryParts(r), TargetKey(key), was);
    QueryTarget(r, key, was);
    QueryTarget(Noted(r, op, Mutated(now, op)), key, was);
    hide GenerateQueryParts, UpdatedField, IsApplied, Without;
  }

  /** Whatever the next operation is, recording and object stay together. */
  lemma StepFollows(r: Recorded, op: Op, before: Target, now: Target)
    requires RecordFollows(r, before, now) && Applies(now, op) && KindsApart(r, op)
    ensures RecordFollows(Noted(r, op, Mutated(now, op)), before, Mutated(now, op))
  {
    var next := Mutated(now, op);
    var s := Noted(r, op, next);
    StepDisciplined(r, op, next);
    assert next.entities.Keys == before.entities.Keys && s.entities.Keys <= before.entities.Keys;
    hide Mutated, Noted, GenerateQueryParts, UpdatedField, UpdatedSegs, FieldFollows, Disciplined;
    forall key ensures FieldOf(next.fields, key)
           == UpdatedField(GenerateQueryParts(s), TargetKey(key), FieldOf(before.fields, key)) {
      StepTarget(r, op, before, now, key);
    }
    forall e | e in before.entities
      ensures next.entities[e].segs == UpdatedSegs(GenerateQueryParts(s), e, before.entities[e].segs)
    {
      StepSegs(r, op, before, now, e);
    }
    forall e, key | e in before.entities
      ensures FieldFollows(ChangesOf(s, e), key, FieldOf(before.entities[e].fields, key),
              FieldOf(next.entities[e].fields, key))
    {
      FieldStep(r, op, now, e, key, FieldOf(before.entities[e].fields, key));
    }
  }

  /** The counted value of a field is what the update produces, unless the field was incremented twice. */
  lemma CountedIsProduced(c: Changes, key: Key, was: Option<Value>)
    requires OnceAt(c, key) && (key in c.inc ==> was.Some? && was.value.Num?)
    ensures FieldCounted(c, key, was) == FieldAfter(c, key, was) <==> Count(c.inc, key) <= 1
  {
    CountIn(c.inc, key);
  }

  /** The update generated from a recording reproduces the object if and only if no field was incremented
      twice. */
  lemma ReproducesExactly(r: Recorded, before: Target, now: Target)
    requires RecordFollows(r, before, now)
    ensures IsApplied(GenerateQueryParts(r), before, now) <==> IncOnce(r)
  {
    var q := GenerateQueryParts(r);
    forall e, key | e in before.entities
      ensures FieldOf(now.entities[e].fields, key)
              == UpdatedField(q, EntityKey(e, key), FieldOf(before.entities[e].fields, key))
         <==> Count(ChangesOf(r, e).inc, key) <= 1
    {
      var was := FieldOf(before.entities[e].fields, key);
      QueryField(r, e, key, was);
      assert FieldFollows(ChangesOf(r, e), key, was, FieldOf(now.entities[e].fields, key));
      assert OnceAt(ChangesOf(r, e), key);
      CountedIsProduced(ChangesOf(r, e), key, was);
    }
    hide GenerateQueryParts, UpdatedField, UpdatedSegs, FieldsFollow, Disciplined, Count;
    if IncOnce(r) {
      forall e, key | e in before.entities ensures Count(ChangesOf(r, e).inc, key) <= 1 {
        NoneCounted(key);
      }
    }
    if IsApplied(q, before, now) {
      forall e, key | e in r.entities ensures Count(r.entities[e].inc, key) <= 1 {
        assert e in before.entities;
        assert FieldOf(now.entities[e].fields, key)
               == UpdatedField(q, EntityKey(e, key), FieldOf(before.entities[e].fields, key));
      }
    }
  }

  lemma NoneCounted(key: Key)
    ensures Count(NO_CHANGES.inc, key) == 0
  {
  }

  lemma StepIncOnce(r: Recorded, op: Op, now: Target)
    requires IncOnce(r) && OneKind(r, op)
    ensures IncOnce(Noted(r, op, now))
  {
    var s := Noted(r, op, now);
    hide Count;
    forall e, key | e in s.entities ensures Count(s.entities[e].inc, key) <= 1 {
      NoneCounted(key);
      if op.IncField? {
        CountMore(ChangesOf(r, e), key, op.key);
      }
    }
  }

  /** Whatever the next operation is, the update generated afterwards still reproduces the object, as long as
      it is not a second increment. */
  lemma StepReplays(r: Recorded, op: Op, before: Target, now: Target)
    requires Replays(r, before, now) && Applies(now, op) && OneKind(r, op)
    ensures Replays(Noted(r, op, Mutated(now, op)), before, Mutated(now, op))
  {
    hide RecordFollows, IsApplied, IncOnce, Mutated, Noted, Applies;
    ReproducesExactly(r, before, now);
    StepFollows(r, op, before, now);
    StepIncOnce(r, op, Mutated(now, op));
    ReproducesExactly(Noted(r, op, Mutated(now, op)), before, Mutated(now, op));
  }

  lemma NothingFollows(t: Target)
    ensures RecordFollows(NOTHING, t, t) && IncOnce(NOTHING)
  {
    forall key ensures FieldOf(t.fields, key)
           == UpdatedField(GenerateQueryParts(NOTHING), TargetKey(key), FieldOf(t.fields, key)) {
      QueryTarget(NOTHING, key, FieldOf(t.fields, key));
    }
  }

  /** The generated update never names a path twice. */
  lemma GeneratedHasNoConflict(r: Recorded)
    requires Disciplined(r)
    ensures NoConflict(GenerateQueryParts(r))
  {
    var q := GenerateQueryParts(r);
    forall p ensures !(p in q.sets && p in q.unset) && !(p in q.sets && p in q.inc) && !(p in q.unset && p in q.inc) {
      match p
      case TargetKey(_) =>
      case EntityKey(e, key) =>
        if e in r.entities {
          assert OnceAt(r.entities[e], key);
        }
    }
  }

  // ----------------------------------------------------------------- whole runs

  /** One kind of operation per key; a field may be incremented any number of times. */
  predicate CanRun(t: Target, r: Recorded, ops: seq<Op>)
    decreases |ops|
  {
    ops == [] || (
      && Applies(t, ops[0]) && KindsApart(r, ops[0])
      && CanRun(Mutated(t, ops[0]), Noted(r, ops[0], Mutated(t, ops[0])), ops[1..]))
  }

  function RunAll(t: Target, r: Recorded, ops: seq<Op>): (Target, Recorded)
    requires CanRun(t, r, ops)
    decreases |ops|
  {
    if ops == [] then (t, r) else RunAll(Mutated(t, ops[0]), Noted(r, ops[0], Mutated(t, ops[0])), ops[1..])
  }

  lemma {:induction false} RunFollows(before: Target, t: Target, r: Recorded, ops: seq<Op>)
    requires RecordFollows(r, before, t) && CanRun(t, r, ops)
    ensures RecordFollows(RunAll(t, r, ops).1, before, RunAll(t, r, ops).0)
    decreases |ops|
  {
    if ops != [] {
      StepFollows(r, ops[0], before, t);
      hide RecordFollows, Mutated, Noted, Applies, KindsApart;
      RunFollows(before, Mutated(t, ops[0]), Noted(r, ops[0], Mutated(t, ops[0])), ops[1..]);
    }
  }

  /** How often a field is incremented in a run. */
  function Increments(ops: seq<Op>, e: EntityID, key: Key): nat {
    if ops == [] then 0 else (if ops[0] == IncField(e, key) then 1 else 0) + Increments(ops[1..], e, key)
  }

  lemma NotedCount(r: Recorded, op: Op, now: Target, e: EntityID, key: Key)
    ensures Count(ChangesOf(Noted(r, op, now), e).inc, key) == Count(ChangesOf(r, e).inc, key) + if op
            == IncField(e, key) then 1 else 0
  {
    if op.IncField? {
      CountMore(ChangesOf(r, op.e), key, op.key);
    }
    hide Count;
  }

  lemma {:induction false} RunCounts(t: Target, r: Recorded, ops: seq<Op>, e: EntityID, key: Key)
    requires CanRun(t, r, ops)
    ensures Count(ChangesOf(RunAll(t, r, ops).1, e).inc, key)
            == Count(ChangesOf(r, e).inc, key) + Increments(ops, e, key)
    decreases |ops|
  {
    hide Mutated, Noted, Applies, KindsApart, Count, ChangesOf;
    if ops != [] {
      var now := Mutated(t, ops[0]);
      NotedCount(r, ops[0], now, e, key);
      RunCounts(now, Noted(r, ops[0], now), ops[1..], e, key);
    }
  }

  /** No field is incremented twice in the run. */
  ghost predicate NoFieldTwice(ops: seq<Op>) {
    forall e, key :: Increments(ops, e, key) <= 1
  }

  lemma RunIncOnce(t: Target, ops: seq<Op>)
    requires CanRun(t, NOTHING, ops)
    ensures IncOnce(RunAll(t, NOTHING, ops).1) <==> NoFieldTwice(ops)
  {
    var r := RunAll(t, NOTHING, ops).1;
    forall e, key ensures Count(ChangesOf(r, e).inc, key) == Increments(ops, e, key) {
      RunCounts(t, NOTHING, ops, e, key);
      NoneCounted(key);
    }
    hide RunAll, CanRun, Count, Increments;
    forall e, key | e !in r.entities ensures Count(ChangesOf(r, e).inc, key) <= 1 {
      NoneCounted(key);
    }
    if IncOnce(r) {
      forall e, key ensures Increments(ops, e, key) <= 1 {
        if e in r.entities {
          assert Count(r.entities[e].inc, key) <= 1;
        }
      }
    }
    if NoFieldTwice(ops) {
      forall e, key | e in r.entities ensures Count(r.entities[e].inc, key) <= 1 {
        assert Increments(ops, e, key) <= 1;
      }
    }
  }

  /** Applied to the stored object, the update generated after any run gives the object in memory if and only
      if the run increments no field twice. */
  lemma GeneratedUpdateReproduces(stored: Target, ops: seq<Op>, applied: Target)
    requires CanRun(stored, NOTHING, ops)
    requires IsApplied(GenerateQueryParts(RunAll(stored, NOTHING, ops).1), stored, applied)
    ensures applied == RunAll(stored, NOTHING, ops).0 <==> NoFieldTwice(ops)
    ensures NoConflict(GenerateQueryParts(RunAll(stored, NOTHING, ops).1))
  {
    NothingFollows(stored);
    hide GenerateQueryParts, RunAll, CanRun, IsApplied, NoFieldTwice, IncOnce;
    RunFollows(stored, stored, NOTHING, ops);
    var end := RunAll(stored, NOTHING, ops);
    ReproducesExactly(end.1, stored, end.0);
    RunIncOnce(stored, ops);
    if NoFieldTwice(ops) {
      AppliedOnce(GenerateQueryParts(end.1), stored, applied, end.0);
    }
    GeneratedHasNoConflict(end.1);
  }

  /** Two increments of one field are recorded as one: memory is ahead of what the update produces. */
  lemma TwoIncrementsLost(e: EntityID, key: Key, stored: Target, applied: Target)
    requires IsEntityField(key) && stored == Target(map[], map[e := Entity(map[key := Num(0)], None)])
    requires var now := Mutated(stored, IncField(e, key));
             var twice := Noted(Noted(NOTHING, IncField(e, key), now), IncField(e, key), now);
             IsApplied(GenerateQueryParts(twice), stored, applied)
    ensures Mutated(Mutated(stored, IncField(e, key)), IncField(e, key)).entities[e].fields[key] == Num(2)
    ensures e in applied.entities && FieldOf(applied.entities[e].fields, key) == Some(Num(1))
  {
    var now := Mutated(stored, IncField(e, key));
    var twice := Noted(Noted(NOTHING, IncField(e, key), now), IncField(e, key), now);
    assert e in stored.entities;
    QueryField(twice, e, key, Some(Num(0)));
    assert ChangesOf(twice, e).inc == [key, key];
  }

  /** Whatever stored object the recording reproduced the one in memory from, it still does after `op`. */
  ghost predicate KeepsReplaying(r: Recorded, op: Op, was: Target, after: Recorded, now: Target) {
    OneKind(r, op) ==> forall before | Replays(r, before, was) :: Replays(after, before, now)
  }

  lemma AllKeepReplaying(r: Recorded, op: Op, was: Target)
    requires Applies(was, op)
    ensures KeepsReplaying(r, op, was, Noted(r, op, Mutated(was, op)), Mutated(was, op))
  {
    hide Replays, Mutated, Noted, Applies, OneKind;
    if OneKind(r, op) {
      forall before | Replays(r, before, was) ensures Replays(Noted(r, op, Mutated(was, op)), before, Mutated(was,
             op)) {
        StepReplays(r, op, before, was);
      }
    }
  }

  // ---------------------------------------------------------------- the class

  class InMemory {
    var doc: Target
    constructor (doc: Target)
      ensures this.doc == doc
    {
      this.doc := doc;
    }
  }

  class CalcDelta {
    var delta: map<Key, Value>
    var entityDelta: map<EntityID, Changes>
    var pushSegmentsDelta: map<EntityID, seq<Seg>>
    var pullSegmentsDelta: map<EntityID, seq<Uuid>>

    constructor ()
      ensures Recording() == NOTHING
    {
      delta, entityDelta, pushSegmentsDelta, pullSegmentsDelta := map[], map[], map[], map[];
    }

    function Recording(): Recorded
      reads this
    {
      Recorded(delta, entityDelta, pushSegmentsDelta, pullSegmentsDelta)
    }

    /** The object and the recording moved on by `op`. */
    twostate predicate Moved(target: InMemory, op: Op)
      reads this, target
    {
      && Applies(old(target.doc), op)
      && target.doc == Mutated(old(target.doc), op)
      && Recording() == Noted(old(Recording()), op, target.doc)
    }

    /** They moved on by `op`, and what reproduced the object before still does. */
    twostate predicate Performed(target: InMemory, op: Op)
      reads this, target
    {
      Moved(target, op) && KeepsReplaying(old(Recording()), op, old(target.doc), Recording(), target.doc)
    }

    method UpdateTarget(target: InMemory, key: Key, value: Value)
      requires IsTargetField(key)
      modifies this, target
      ensures Performed(target, Op.UpdateTarget(key, value))
    {
      target.doc := target.doc.(fields := target.doc.fields[key := value]);
      delta := delta[key := value];
      AllKeepReplaying(old(Recording()), Op.UpdateTarget(key, value), old(target.doc));
    }

    method UpdateObjectInTarget(target: InMemory, objectName: Key, key: Key, value: Value)
      requires IsTargetField(objectName)
      requires objectName in target.doc.fields ==> target.doc.fields[objectName].Obj?
      modifies this, target
      ensures Performed(target, Op.UpdateObjectInTarget(objectName, key, value))
    {
      if objectName !in target.doc.fields {
        target.doc := target.doc.(fields := target.doc.fields[objectName := Obj(map[])]);
      }
      var inner := target.doc.fields[objectName].fields[key := value];
      target.doc := target.doc.(fields := target.doc.fields[objectName := Obj(inner)]);
      delta := delta[objectName := target.doc.fields[objectName]];
      AllKeepReplaying(old(Recording()), Op.UpdateObjectInTarget(objectName, key, value), old(target.doc));
    }

    /** `updateDisk` and `updateNic`. */
    method UpdateField(target: InMemory, e: EntityID, key: Key, value: Value)
      requires e in target.doc.entities && IsEntityField(key)
      modifies this, target
      ensures Performed(target, Op.UpdateField(e, key, value))
    {
      var entity := target.doc.entities[e];
      target.doc := WithEntity(target.doc, e, entity.(fields := entity.fields[key := value]));
      Touch(e);
      entityDelta := entityDelta[e := entityDelta[e].(sets := entityDelta[e].sets[key := value])];
      AllKeepReplaying(old(Recording()), Op.UpdateField(e, key, value), old(target.doc));
    }

    /** `incDiskField` and `incNicField`. */
    method IncField(target: InMemory, e: EntityID, key: Key)
      requires e in target.doc.entities && IsEntityField(key) && key in target.doc.entities[e].fields
               && target.doc.entities[e].fields[key].Num?
      modifies this, target
      ensures Performed(target, Op.IncField(e, key))
    {
      var entity := target.doc.entities[e];
      target.doc := WithEntity(target.doc, e, entity.(fields := entity.fields[key := Num(entity.fields[key].n + 1)]));
      Touch(e);
      entityDelta := entityDelta[e := entityDelta[e].(inc := entityDelta[e].inc + [key])];
      AllKeepReplaying(old(Recording()), Op.IncField(e, key), old(target.doc));
    }

    /** Makes room for the changes of an entity. */
    method Touch(e: EntityID)
      modifies this`entityDelta
      ensures entityDelta == old(entityDelta)[e := ChangesOf(old(Recording()), e)]
    {
      if e !in entityDelta {
        entityDelta := entityDelta[e := NO_CHANGES];
      }
    }

    method UnsetFromDisk(target: InMemory, e: EntityID, key: Key)
      requires e.Disk? && e in target.doc.entities && IsEntityField(key)
      modifies this, target
      ensures Performed(target, UnsetField(e, key))
    {
      var entity := target.doc.entities[e];
      target.doc := WithEntity(target.doc, e, entity.(fields := entity.fields - {key}));
      Touch(e);
      entityDelta := entityDelta[e := entityDelta[e].(unset := entityDelta[e].unset + [key])];
      AllKeepReplaying(old(Recording()), UnsetField(e, key), old(target.doc));
    }

    method PushDiskSegmentToDisk(target: InMemory, e: EntityID, seg: Seg)
      requires e.Disk? && e in target.doc.entities
      modifies this, target
      ensures Performed(target, PushSegment(e, seg))
    {
      var entity := target.doc.entities[e];
      var segs := if entity.segs.Some? then entity.segs.value + [seg] else [seg];
      assert segs == SegsOf(entity) + [seg];
      target.doc := WithEntity(target.doc, e, entity.(segs := Some(segs)));
      if e !in pushSegmentsDelta {
        pushSegmentsDelta := pushSegmentsDelta[e := []];
      }
      pushSegmentsDelta := pushSegmentsDelta[e := pushSegmentsDelta[e] + [seg]];
      AllKeepReplaying(old(Recording()), PushSegment(e, seg), old(target.doc));
    }

    method PullDiskSegmentsFromDisk(target: InMemory, e: EntityID, uuids: seq<Uuid>)
      requires e.Disk? && e in target.doc.entities && target.doc.entities[e].segs.Some?
      modifies this, target
      ensures Performed(target, PullSegments(e, uuids))
    {
      var entity := target.doc.entities[e];
      target.doc := WithEntity(target.doc, e, entity.(segs := Some(Without(entity.segs.value, uuids))));
      if e !in pullSegmentsDelta {
        pullSegmentsDelta := pullSegmentsDelta[e := []];
      }
      pullSegmentsDelta := pullSegmentsDelta[e := pullSegmentsDelta[e] + uuids];
      AllKeepReplaying(old(Recording()), PullSegments(e, uuids), old(target.doc));
    }

    /** The operation by its name. */
    method Perform(target: InMemory, op: Op)
      requires Applies(target.doc, op)
      modifies this, target
      ensures Performed(target, op)
    {
      match op
      case UpdateTarget(key, value) => UpdateTarget(target, key, value);
      case UpdateObjectInTarget(objectName, key, value) => UpdateObjectInTarget(target, objectName, key, value);
      case UpdateField(e, key, value) => UpdateField(target, e, key, value);
      case IncField(e, key) => IncField(target, e, key);
      case UnsetField(e, key) => UnsetFromDisk(target, e, key);
      case PushSegment(e, seg) => PushDiskSegmentToDisk(target, e, seg);
      case PullSegments(e, uuids) => PullDiskSegmentsFromDisk(target, e, uuids);
    }

    method GenerateQuery() returns (query: Query)
      ensures query == GenerateQueryParts(Recording())
    {
      query := GenerateQueryParts(Recording());
    }
  }

  /** A caller's whole use of the recorder: whatever it does to the object in memory, the one update it sends
      turns the stored object into that one, if and only if no field is incremented twice. */
  method Record(target: InMemory, ops: seq<Op>) returns (query: Query)
    requires CanRun(target.doc, NOTHING, ops)
    modifies target
    ensures target.doc == RunAll(old(target.doc), NOTHING, ops).0
    ensures IsApplied(query, old(target.doc), target.doc) <==> NoFieldTwice(ops)
  {
    hide IsApplied, NoFieldTwice, Mutated, Noted, Applies, KindsApart, GenerateQueryParts, KeepsReplaying;
    ghost var stored := target.doc;
    var delta := new CalcDelta();
    for i := 0 to |ops|
      invariant fresh(delta)
      invariant CanRun(target.doc, delta.Recording(), ops[i..])
      invariant RunAll(target.doc, delta.Recording(), ops[i..]) == RunAll(stored, NOTHING, ops)
    {
      assert ops[i..][0] == ops[i] && ops[i..][1..] == ops[i + 1..];
      delta.Perform(target, ops[i]);
    }
    query := delta.GenerateQuery();
    WholeRun(stored, ops, query);
  }

  lemma WholeRun(stored: Target, ops: seq<Op>, query: Query)
    requires CanRun(stored, NOTHING, ops) && query == GenerateQueryParts(RunAll(stored, NOTHING, ops).1)
    ensures IsApplied(query, stored, RunAll(stored, NOTHING, ops).0) <==> NoFieldTwice(ops)
  {
    NothingFollows(stored);
    hide *;
    RunFollows(stored, stored, NOTHING, ops);
    var end := RunAll(stored, NOTHING, ops);
    ReproducesExactly(end.1, stored, end.0);
    RunIncOnce(stored, ops);
  }
}
