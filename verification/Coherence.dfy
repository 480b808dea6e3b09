/** What every console operation keeps: the catalog's shape, the cached resolution
    of every device, and a complete revision history. */
module Coherence {
  import opened Options
  import opened Revisions
  import opened Console

  // --------------------------------------------------------- catalog shape ---

  /** At most one default; soft-deleted strategies are disabled, not default and
      assigned to nothing; ids are positive. */
  ghost predicate Shape(db: Db) {
    ShapeOf(db.strategies, db.assignments)
  }

  ghost predicate ShapeOf(strategies: map<nat, Strategy>, assignments: map<Target, nat>) {
    && 0 !in strategies
    && (forall a, b ::
          a in strategies && b in strategies && strategies[a].isDefault && strategies[b].isDefault ==> a == b)
    && (forall s :: s in strategies && strategies[s].trashed ==> !strategies[s].enabled && !strategies[s].isDefault)
    && (forall t :: t in assignments ==> assignments[t] in strategies && !strategies[assignments[t]].trashed)
  }

  /** Clearing the other defaults makes room for a new one. */
  lemma ClearedShape(strategies: map<nat, Strategy>, assignments: map<Target, nat>, id: nat, s: Strategy)
    requires ShapeOf(strategies, assignments) && id > 0 && !s.trashed
    ensures ShapeOf(ClearOtherDefaults(strategies[id := s], id), assignments)
  {
  }

  lemma KeptShape(strategies: map<nat, Strategy>, assignments: map<Target, nat>, id: nat, s: Strategy)
    requires ShapeOf(strategies, assignments) && id > 0 && !s.trashed
    requires s.isDefault ==> id in strategies && strategies[id].isDefault
    ensures ShapeOf(strategies[id := s], assignments)
  {
  }

  lemma WriteShape(db: Db, id: nat, s: Strategy)
    requires Shape(db) && id > 0 && !s.trashed
    ensures Shape(Write(db, id, s))
  {
    if s.isDefault && (id !in db.strategies || !db.strategies[id].isDefault) {
      ClearedShape(db.strategies, db.assignments, id, s);
    } else {
      KeptShape(db.strategies, db.assignments, id, s);
    }
  }

  lemma CaptureShape(db: Db, id: nat)
    requires Shape(db) && id in db.strategies
    ensures Shape(Capture(db, id))
  {
  }

  lemma SaveShape(db: Db, id: nat, form: Form)
    requires Shape(db) && id > 0
    ensures Shape(Save(db, id, form))
  {
    var written := Write(db, id, Filled(db, id, form));
    WriteShape(db, id, Filled(db, id, form));
    CaptureShape(written, id);
    var displaced := Displaced(db, id, form);
    if displaced.Some? && displaced.value in Capture(written, id).strategies {
      CaptureShape(Capture(written, id), displaced.value);
    }
  }

  lemma RewriteShape(db: Db, id: nat, s: Strategy)
    requires Shape(db) && id in db.strategies && !s.trashed
    ensures Shape(Capture(Write(db, id, s), id))
  {
    WriteShape(db, id, s);
    CaptureShape(Write(db, id, s), id);
  }

  lemma RetireShape(db: Db, id: nat, stamp: string)
    requires Shape(db) && id in db.strategies
    ensures Shape(Retire(db, id, stamp))
  {
  }

  lemma StepShape(db: Db, op: Op)
    requires Shape(db)
    ensures Shape(Step(db, op))
  {
    if Applies(db, op) {
      match op
      case CreateStrategy(id, form) => SaveShape(db, id, form);
      case UpdateStrategy(id, form) => SaveShape(db, id, form);
      case ToggleEnabled(id) => RewriteShape(db, id, Toggled(db, id));
      case RestoreRevision(r) => RewriteShape(db, db.revisions[r].strategy, Restored(db, r));
      case DeleteStrategy(id, stamp) => RetireShape(db, id, stamp);
      case _ => OtherShape(db, op);
    }
  }

  /** Operations that leave the strategies alone. */
  lemma OtherShape(db: Db, op: Op)
    requires Shape(db) && Applies(db, op) && !op.CreateStrategy? && !op.UpdateStrategy?
    requires !op.ToggleEnabled? && !op.RestoreRevision? && !op.DeleteStrategy?
    ensures Shape(Step(db, op)) && Step(db, op).strategies == db.strategies
    ensures Step(db, op).revisions == db.revisions
  {
  }

  // ----------------------------------------------------- cached resolution ---

  ghost predicate Coherent(db: Db) {
    forall d :: d in db.devices ==> db.devices[d].cached == Resolve(db, d)
  }

  ghost predicate SameFlags(a: map<nat, Strategy>, b: map<nat, Strategy>) {
    a.Keys == b.Keys && forall s :: s in a ==>
      a[s].enabled == b[s].enabled && a[s].isDefault == b[s].isDefault && a[s].trashed == b[s].trashed
  }

  lemma {:induction false} WalkFrame(a: Db, b: Db, candidates: seq<(Level, Option<nat>)>)
    requires forall i :: 0 <= i < |candidates| && candidates[i].1.Some? ==>
      EnabledAt(a, Target(candidates[i].0, candidates[i].1.value)) ==
      EnabledAt(b, Target(candidates[i].0, candidates[i].1.value))
    ensures Walk(a, candidates) == Walk(b, candidates)
  {
    if candidates != [] {
      WalkFrame(a, b, candidates[1..]);
    }
  }

  /** Resolution depends on routing flags, on the device's owner and group, and on
      what is assigned to the device's own targets; on nothing else. */
  lemma ResolveFrame(a: Db, b: Db, d: nat)
    requires d in a.devices && d in b.devices
    requires a.devices[d].owner == b.devices[d].owner && a.devices[d].group == b.devices[d].group
    requires SameFlags(a.strategies, b.strategies)
    requires forall t :: Reaches(d, a.devices[d], t) ==>
      (t in a.assignments <==> t in b.assignments) && (t in a.assignments ==> a.assignments[t] == b.assignments[t])
    ensures Resolve(a, d) == Resolve(b, d)
  {
    var row := a.devices[d];
    assert Reaches(d, row, Target(OnDevice, d));
    assert row.owner.Some? ==> Reaches(d, row, Target(OnUser, row.owner.value));
    assert row.group.Some? ==> Reaches(d, row, Target(OnGroup, row.group.value));
    WalkFrame(a, b, Candidates(d, row));
    assert EnabledDefaults(a.strategies) == EnabledDefaults(b.strategies);
    assert AnyEnabled(a.strategies) <==> AnyEnabled(b.strategies) by {
      if s :| s in a.strategies && a.strategies[s].enabled && !a.strategies[s].trashed {
        assert b.strategies[s].enabled && !b.strategies[s].trashed;
      }
      if s :| s in b.strategies && b.strategies[s].enabled && !b.strategies[s].trashed {
        assert a.strategies[s].enabled && !a.strategies[s].trashed;
      }
    }
  }

  lemma {:induction false} WalkExists(db: Db, candidates: seq<(Level, Option<nat>)>)
    ensures Walk(db, candidates).Some? ==> Walk(db, candidates).value in db.strategies
  {
    if candidates != [] {
      WalkExists(db, candidates[1..]);
    }
  }

  lemma ResolveExists(db: Db, d: nat)
    requires d in db.devices
    ensures Resolve(db, d).Some? ==> Resolve(db, d).value in db.strategies
  {
    WalkExists(db, Candidates(d, db.devices[d]));
  }

  ghost predicate NoZero(db: Db) {
    forall d :: d in db.devices ==> db.devices[d].cached != Some(0)
  }

  /** A recompute brings the devices it visits up to date and changes no resolution. */
  lemma RecomputeIsRight(db: Db, ids: set<nat>, d: nat)
    requires Shape(db) && d in db.devices && db.devices[d].cached != Some(0)
    ensures Resolve(RecomputeOn(db, ids), d) == Resolve(db, d)
    ensures d in ids ==> RecomputeOn(db, ids).devices[d].cached == Resolve(db, d)
  {
    ResolveFrame(db, RecomputeOn(db, ids), d);
    ResolveExists(db, d);
  }

  lemma RecomputeAllCoherent(db: Db)
    requires Shape(db) && NoZero(db)
    ensures Coherent(RecomputeAll(db))
  {
    forall d | d in db.devices
      ensures RecomputeAll(db).devices[d].cached == Resolve(RecomputeAll(db), d)
    {
      RecomputeIsRight(db, db.devices.Keys, d);
    }
  }

  lemma CoherentNoZero(db: Db)
    requires Shape(db) && Coherent(db)
    ensures NoZero(db)
  {
    forall d | d in db.devices
      ensures db.devices[d].cached != Some(0)
    {
      ResolveExists(db, d);
    }
  }

  lemma CaptureCoherent(db: Db, id: nat)
    requires Coherent(db) && id in db.strategies
    ensures Coherent(Capture(db, id))
  {
    forall d | d in db.devices
      ensures Resolve(Capture(db, id), d) == Resolve(db, d)
    {
      ResolveFrame(db, Capture(db, id), d);
    }
  }

  lemma WriteCoherent(db: Db, id: nat, s: Strategy)
    requires Shape(db) && Coherent(db) && id > 0 && !s.trashed
    requires id in db.strategies ==> !db.strategies[id].trashed
    ensures Coherent(Write(db, id, s))
  {
    CoherentNoZero(db);
    var created := id !in db.strategies;
    var defaultMoved := created || db.strategies[id].isDefault != s.isDefault;
    var routingMoved := defaultMoved || db.strategies[id].enabled != s.enabled;
    var strategies := db.strategies[id := s];
    var next := db.(strategies := if s.isDefault && defaultMoved then ClearOtherDefaults(strategies, id) else strategies);
    if routingMoved {
      WriteShape(db, id, s);
      RecomputeAllCoherent(next);
    } else {
      forall d | d in db.devices
        ensures Resolve(next, d) == Resolve(db, d)
      {
        ResolveFrame(db, next, d);
      }
    }
  }

  lemma SaveCoherent(db: Db, id: nat, form: Form)
    requires Shape(db) && Coherent(db) && id > 0 && (id in db.strategies ==> !db.strategies[id].trashed)
    ensures Coherent(Save(db, id, form))
  {
    var written := Write(db, id, Filled(db, id, form));
    WriteCoherent(db, id, Filled(db, id, form));
    CaptureCoherent(written, id);
    var displaced := Displaced(db, id, form);
    if displaced.Some? && displaced.value in Capture(written, id).strategies {
      CaptureCoherent(Capture(written, id), displaced.value);
    }
  }

  /** Nothing outside the reach of a target notices an assignment there, so from a
      coherent cache the targeted recompute does all a full one would. */
  lemma TargetedIsFull(db: Db, t: Target, s: Option<nat>)
    requires Shape(db) && Coherent(db)
    ensures AssignTo(db, t, s) == RecomputeAll(Assign(db, t, s))
  {
    var next := Assign(db, t, s);
    forall d | d in db.devices && d !in Reached(next, t)
      ensures Sync(next, d) == next.devices[d]
    {
      ResolveFrame(db, next, d);
    }
    assert AssignTo(db, t, s).devices == RecomputeAll(next).devices;
  }

  lemma RewriteCoherent(db: Db, id: nat, s: Strategy)
    requires Shape(db) && Coherent(db) && IsLive(db, id) && !s.trashed
    ensures Coherent(Capture(Write(db, id, s), id))
  {
    WriteCoherent(db, id, s);
    CaptureCoherent(Write(db, id, s), id);
  }

  /** The query-builder writes: no hook ran, and the full recompute repairs them. */
  lemma BulkCoherent(db: Db, op: Op)
    requires Shape(db) && NoZero(db) && Applies(db, op)
    requires op.AssignOwners? || op.RemoveUser? || op.RemoveGroup?
    ensures Coherent(Step(db, op))
  {
    match op
    case AssignOwners(u, checked, mayGain, mayRelease) =>
      RecomputeAllCoherent(Reowned(db, u, checked, mayGain, mayRelease));
    case RemoveUser(u) => RecomputeAllCoherent(WithoutUser(db, u));
    case RemoveGroup(g) => RecomputeAllCoherent(WithoutGroup(db, g));
  }

  lemma AssignCoherent(db: Db, t: Target, s: Option<nat>)
    requires Shape(db) && Coherent(db) && (s.Some? ==> IsLive(db, s.value))
    ensures Coherent(AssignTo(db, t, s))
  {
    TargetedIsFull(db, t, s);
    CoherentNoZero(db);
    RecomputeAllCoherent(Assign(db, t, s));
  }

  lemma StepCoherent(db: Db, op: Op)
    requires Shape(db) && Coherent(db)
    ensures Coherent(Step(db, op))
  {
    CoherentNoZero(db);
    if Applies(db, op) {
      match op
      case CreateStrategy(id, form) => SaveCoherent(db, id, form);
      case UpdateStrategy(id, form) => SaveCoherent(db, id, form);
      case ToggleEnabled(id) => RewriteCoherent(db, id, Toggled(db, id));
      case RestoreRevision(r) => RewriteCoherent(db, db.revisions[r].strategy, Restored(db, r));
      case DeleteStrategy(id, stamp) => DeleteCoherent(db, id, stamp);
      case AssignStrategy(t, s) => AssignCoherent(db, t, s);
      case AddDevice(d, owner, group) => PutAndSyncCoherent(db, d, DeviceRow(owner, group, None, false));
      case MoveDevice(d, owner, group) =>
        PutAndSyncCoherent(db, d, db.devices[d].(owner := owner, group := group));
      case AssignOwners(_, _, _, _) => BulkCoherent(db, op);
      case RemoveUser(_) => BulkCoherent(db, op);
      case RemoveGroup(_) => BulkCoherent(db, op);
      case _ => RowOpCoherent(db, op);
    }
  }

  lemma DeleteCoherent(db: Db, id: nat, stamp: string)
    requires Shape(db) && NoZero(db) && IsLive(db, id)
    ensures Coherent(Delete(db, id, stamp))
  {
    RetireShape(db, id, stamp);
    RecomputeAllCoherent(Retire(db, id, stamp));
  }

  lemma PutAndSyncCoherent(db: Db, d: nat, row: DeviceRow)
    requires Shape(db) && Coherent(db) && row.cached != Some(0)
    ensures Coherent(PutAndSync(db, d, row))
  {
    CoherentNoZero(db);
    var put := PutDevice(db, d, row);
    forall e | e in put.devices
      ensures PutAndSync(db, d, row).devices[e].cached == Resolve(PutAndSync(db, d, row), e)
    {
      RecomputeIsRight(put, {d}, e);
      if e != d {
        ResolveFrame(db, put, e);
      }
    }
  }

  /** Operations that touch no routing input need no recompute at all. */
  lemma RowOpCoherent(db: Db, op: Op)
    requires Coherent(db) && Applies(db, op)
    requires op.SetTrashed? || op.PurgeDevice? || op.AddUser? || op.AddGroup?
    ensures Coherent(Step(db, op))
  {
    var next := Step(db, op);
    forall d | d in next.devices
      ensures Resolve(next, d) == Resolve(db, d)
    {
      ResolveFrame(db, next, d);
    }
  }

  // ------------------------------------------------------ inspector agrees ---

  lemma {:induction false} ExplainWalkAgrees(db: Db, candidates: seq<(Level, Option<nat>)>, winner: Option<nat>)
    requires Shape(db)
    ensures ExplainWalk(db, candidates, winner) == if winner.Some? then winner else Walk(db, candidates)
  {
    if candidates != [] {
      var s := FoundAt(db, candidates[0].0, candidates[0].1);
      var standing := StandingOf(db, candidates[0].1.None?, s, winner);
      ExplainWalkAgrees(db, candidates[1..], if standing == Applied then s else winner);
    }
  }

  lemma {:induction false} NothingEnabled(db: Db, candidates: seq<(Level, Option<nat>)>)
    requires Shape(db) && !AnyEnabled(db.strategies)
    ensures Walk(db, candidates) == None
  {
    if candidates != [] {
      NothingEnabled(db, candidates[1..]);
    }
  }

  /** The inspector's second implementation of the walk reports the same winner. */
  lemma ExplainAgrees(db: Db, d: nat)
    requires Shape(db) && d in db.devices
    ensures Explained(db, d) == Resolve(db, d)
  {
    var candidates := Candidates(d, db.devices[d]);
    ExplainWalkAgrees(db, candidates, None);
    if !AnyEnabled(db.strategies) {
      NothingEnabled(db, candidates);
    }
    var a, b := First(Defaults(db.strategies)), First(EnabledDefaults(db.strategies));
    if a.Some? && db.strategies[a.value].enabled {
      assert a.value in EnabledDefaults(db.strategies);
    }
    if b.Some? {
      assert b.value in Defaults(db.strategies);
    }
  }

  /** A strategy is on offer for a device at a target: assigned there, enabled, and the
      target is the device itself, its owner or its group. */
  ghost predicate OnOffer(db: Db, d: nat, t: Target, s: nat)
    requires d in db.devices
  {
    && t in db.assignments && db.assignments[t] == s && s in db.strategies && db.strategies[s].enabled
    && match t.level
       case OnDevice => t.id == d
       case OnUser => db.devices[d].owner == Some(t.id)
       case OnGroup => db.devices[d].group == Some(t.id)
  }

  /** Nothing is on offer at the given level. */
  ghost predicate NoneAt(db: Db, d: nat, level: Level)
    requires d in db.devices
  {
    forall id, s :: !OnOffer(db, d, Target(level, id), s)
  }

  /** What resolution means, level by level: the device's own strategy if it is enabled,
      else its owner's, else its group's, else the default if there is an enabled one. */
  lemma ResolveExactly(db: Db, d: nat, s: nat)
    requires Shape(db) && d in db.devices
    ensures Resolve(db, d) == Some(s) <==>
      || (exists id :: OnOffer(db, d, Target(OnDevice, id), s))
      || (NoneAt(db, d, OnDevice) && exists id :: OnOffer(db, d, Target(OnUser, id), s))
      || (NoneAt(db, d, OnDevice) && NoneAt(db, d, OnUser) && exists id :: OnOffer(db, d, Target(OnGroup, id), s))
      || (NoneAt(db, d, OnDevice) && NoneAt(db, d, OnUser) && NoneAt(db, d, OnGroup) &&
          s in db.strategies && db.strategies[s].isDefault && db.strategies[s].enabled)
  {
    var row := db.devices[d];
    var c := Candidates(d, row);
    assert c[1..][1..] == c[2..] && c[2..][1..] == c[3..] && |c[3..]| == 0;
    OfferAt(db, d, OnDevice, Some(d), s);
    OfferAt(db, d, OnUser, row.owner, s);
    OfferAt(db, d, OnGroup, row.group, s);
    assert Walk(db, c) == if At(db, OnDevice, Some(d)).Some? then At(db, OnDevice, Some(d)) else Walk(db, c[1..]);
    assert Walk(db, c[1..]) == if At(db, OnUser, row.owner).Some? then At(db, OnUser, row.owner) else Walk(db, c[2..]);
    assert Walk(db, c[2..]) == At(db, OnGroup, row.group);
    DefaultExactly(db, s);
    if !AnyEnabled(db.strategies) {
      NothingEnabled(db, c);
    }
  }

  lemma DefaultExactly(db: Db, s: nat)
    requires Shape(db)
    ensures First(EnabledDefaults(db.strategies)) == Some(s) <==>
      s in db.strategies && db.strategies[s].isDefault && db.strategies[s].enabled
    ensures s in db.strategies && db.strategies[s].enabled ==> AnyEnabled(db.strategies)
  {
    if s in db.strategies && db.strategies[s].enabled {
      assert !db.strategies[s].trashed;
      if db.strategies[s].isDefault {
        assert EnabledDefaults(db.strategies) == {s};
      }
    }
  }

  function At(db: Db, level: Level, id: Option<nat>): Option<nat> {
    if id.Some? then EnabledAt(db, Target(level, id.value)) else None
  }

  lemma OfferAt(db: Db, d: nat, level: Level, id: Option<nat>, s: nat)
    requires d in db.devices
    requires id == match level case OnDevice => Some(d) case OnUser => db.devices[d].owner case OnGroup => db.devices[d].group
    ensures At(db, level, id) == Some(s) <==> exists i :: OnOffer(db, d, Target(level, i), s)
    ensures At(db, level, id) == None <==> NoneAt(db, d, level)
  {
    if At(db, level, id).Some? {
      assert OnOffer(db, d, Target(level, id.value), At(db, level, id).value);
    }
  }

  lemma {:induction false} NothingAssigned(db: Db, candidates: seq<(Level, Option<nat>)>)
    requires db.assignments == map[]
    ensures Walk(db, candidates) == None && ExplainWalk(db, candidates, None) == None
  {
    if candidates != [] {
      NothingAssigned(db, candidates[1..]);
    }
  }

  /** Without the one-default invariant the two walks part: with a disabled default
      ahead of an enabled one the inspector reports nothing and the resolver does. */
  lemma ExplainNeedsOneDefault()
    ensures exists db: Db ::
      0 in db.devices && Explained(db, 0) == None && Resolve(db, 0) == Some(2)
  {
    var off := Strategy("a", None, false, true, false, map[], false, None);
    var on := off.(enabled := true);
    var db := Db(map[1 := off, 2 := on], [], map[], map[0 := DeviceRow(None, None, None, false)], {}, {});
    assert db.strategies[2].enabled && !db.strategies[2].trashed;
    NothingAssigned(db, Candidates(0, db.devices[0]));
    assert EnabledDefaults(db.strategies) == {2};
    assert Defaults(db.strategies) == {1, 2};
    assert First({1, 2}) == Some(1);
    assert Explained(db, 0) == None && Resolve(db, 0) == Some(2);
  }

  // --------------------------------------------------------------- history ---

  /** Every stored snapshot carries a sanitized option map. */
  ghost predicate CleanSnapshots(db: Db) {
    forall i :: 0 <= i < |db.revisions| ==>
      Sanitize(AsRaw(db.revisions[i].snapshot.options)) == db.revisions[i].snapshot.options
  }

  /** Every live strategy outside `open` has an active revision: its latest one,
      whose snapshot is the strategy's current state. */
  ghost predicate Described(db: Db, open: set<nat>) {
    && Numbered(db.revisions)
    && CleanSnapshots(db)
    && forall s :: s in db.strategies && !db.strategies[s].trashed && s !in open ==>
         IsDescribed(db, s)
  }

  ghost predicate IsDescribed(db: Db, s: nat)
    requires s in db.strategies
  {
    && db.strategies[s].active.Some?
    && var a := db.strategies[s].active.value;
       && IsRevision(db.revisions, a, s, CountOf(db.revisions, s))
       && db.revisions[a].snapshot == SnapshotOf(db.strategies[s])
  }

  lemma CaptureDescribesIt(db: Db, id: nat)
    requires Numbered(db.revisions) && id in db.strategies
    ensures IsDescribed(Capture(db, id), id)
  {
    AppendNumbered(db.revisions, id, SnapshotOf(db.strategies[id]));
    MaxIsCount(db.revisions, id);
  }

  lemma CaptureLeavesOthers(db: Db, id: nat, s: nat)
    requires Numbered(db.revisions) && id in db.strategies && s in db.strategies && s != id && IsDescribed(db, s)
    ensures IsDescribed(Capture(db, id), s)
  {
    AppendNumbered(db.revisions, id, SnapshotOf(db.strategies[id]));
  }

  lemma CaptureIsClean(db: Db, id: nat)
    requires CleanSnapshots(db) && id in db.strategies
    ensures CleanSnapshots(Capture(db, id))
  {
    var options := OptionMapOf(db.strategies[id]);
    assert Sanitize(AsRaw(options)) == options by {
      SanitizeIdempotent(AsRaw(db.strategies[id].options));
    }
    var revisions := Capture(db, id).revisions;
    forall i | 0 <= i < |revisions|
      ensures Sanitize(AsRaw(revisions[i].snapshot.options)) == revisions[i].snapshot.options
    {
      assert i < |db.revisions| ==> revisions[i] == db.revisions[i];
    }
  }

  lemma CaptureDescribesOne(db: Db, id: nat, open: set<nat>, s: nat)
    requires Described(db, open) && id in db.strategies && s in db.strategies && s !in open - {id}
    requires s == id || !db.strategies[s].trashed
    ensures IsDescribed(Capture(db, id), s)
  {
    if s == id {
      CaptureDescribesIt(db, id);
    } else {
      CaptureLeavesOthers(db, id, s);
    }
  }

  lemma CaptureDescribes(db: Db, id: nat, open: set<nat>)
    requires Described(db, open) && id in db.strategies
    ensures Described(Capture(db, id), open - {id})
    ensures db.revisions <= Capture(db, id).revisions
  {
    CaptureIsClean(db, id);
    AppendNumbered(db.revisions, id, SnapshotOf(db.strategies[id]));
    var next := Capture(db, id);
    forall s | s in next.strategies && !next.strategies[s].trashed && s !in open - {id}
      ensures IsDescribed(next, s)
    {
      CaptureDescribesOne(db, id, open, s);
    }
  }

  lemma WriteOpens(db: Db, id: nat, s: Strategy)
    requires Shape(db) && Described(db, {})
    ensures Described(Write(db, id, s), {id} + (if s.isDefault then Defaults(db.strategies) else {}))
    ensures Write(db, id, s).revisions == db.revisions
  {
    var next := Write(db, id, s);
    forall t | t in next.strategies && !next.strategies[t].trashed && t != id &&
               !(s.isDefault && t in Defaults(db.strategies))
      ensures IsDescribed(next, t)
    {
      assert IsDescribed(db, t);
      assert next.strategies[t] == db.strategies[t];
    }
  }

  /** The strategies a save leaves to be described again. */
  function Moved(db: Db, id: nat, form: Form): set<nat> {
    {id} + (if form.isDefault then Defaults(db.strategies) else {})
  }

  lemma DisplacedIsAll(db: Db, id: nat, form: Form)
    requires Shape(db)
    ensures var displaced := Displaced(db, id, form);
      && (displaced.Some? ==> displaced.value in db.strategies)
      && Moved(db, id, form) - {id} == if displaced.None? then {} else {displaced.value}
  {
  }

  /** Capturing the saved strategy and the default it displaced describes both. */
  lemma CapturesDescribe(written: Db, id: nat, displaced: Option<nat>, open: set<nat>)
    requires Described(written, open) && id in written.strategies
    requires displaced.Some? ==> displaced.value in written.strategies
    requires open - {id} == if displaced.None? then {} else {displaced.value}
    ensures var end := CaptureBoth(written, id, displaced);
      Described(end, {}) && written.revisions <= end.revisions
  {
    CaptureDescribes(written, id, open);
    if displaced.Some? {
      CaptureDescribes(Capture(written, id), displaced.value, open - {id});
      assert open - {id} - {displaced.value} == {};
    }
  }

  lemma WriteKeys(db: Db, id: nat, s: Strategy)
    ensures Write(db, id, s).strategies.Keys == db.strategies.Keys + {id}
  {
  }

  lemma SaveDescribes(db: Db, id: nat, form: Form)
    requires Shape(db) && Described(db, {})
    ensures Described(Save(db, id, form), {})
    ensures db.revisions <= Save(db, id, form).revisions
  {
    var s := Filled(db, id, form);
    WriteOpens(db, id, s);
    WriteKeys(db, id, s);
    DisplacedIsAll(db, id, form);
    CapturesDescribe(Write(db, id, s), id, Displaced(db, id, form), Moved(db, id, form));
  }

  lemma RewriteDescribes(db: Db, id: nat, s: Strategy)
    requires Shape(db) && Described(db, {}) && id in db.strategies
    requires s.isDefault == db.strategies[id].isDefault
    ensures Described(Capture(Write(db, id, s), id), {})
    ensures db.revisions <= Capture(Write(db, id, s), id).revisions
  {
    WriteOpens(db, id, s);
    var open := {id} + (if s.isDefault then Defaults(db.strategies) else {});
    CaptureDescribes(Write(db, id, s), id, open);
    assert open - {id} == {};
  }

  lemma StepDescribes(db: Db, op: Op)
    requires Shape(db) && Described(db, {})
    ensures Described(Step(db, op), {})
    ensures db.revisions <= Step(db, op).revisions
  {
    if Applies(db, op) {
      match op
      case CreateStrategy(id, form) => SaveDescribes(db, id, form);
      case UpdateStrategy(id, form) => SaveDescribes(db, id, form);
      case ToggleEnabled(id) => RewriteDescribes(db, id, Toggled(db, id));
      case RestoreRevision(r) => RewriteDescribes(db, db.revisions[r].strategy, Restored(db, r));
      case _ => OtherOpDescribes(db, op);
    }
  }

  lemma OtherOpDescribes(db: Db, op: Op)
    requires Shape(db) && Described(db, {}) && Applies(db, op)
    requires !op.CreateStrategy? && !op.UpdateStrategy? && !op.ToggleEnabled? && !op.RestoreRevision?
    ensures Described(Step(db, op), {})
    ensures Step(db, op).revisions == db.revisions
  {
    var next := Step(db, op);
    forall s | s in next.strategies && !next.strategies[s].trashed
      ensures IsDescribed(next, s)
    {
      assert next.strategies[s] == db.strategies[s];
      assert IsDescribed(db, s);
    }
  }

  // ------------------------------------------------------------------ runs ---

  ghost predicate Good(db: Db) {
    Shape(db) && Coherent(db) && Described(db, {})
  }

  lemma StepIsGood(db: Db, op: Op)
    requires Good(db)
    ensures Good(Step(db, op)) && db.revisions <= Step(db, op).revisions
  {
    StepShape(db, op);
    StepCoherent(db, op);
    StepDescribes(db, op);
  }

  lemma WriteLeavesRevisions(db: Db, id: nat, s: Strategy)
    ensures Write(db, id, s).revisions == db.revisions
  {
  }

  lemma CaptureAppends(db: Db, id: nat)
    requires id in db.strategies
    ensures db.revisions <= Capture(db, id).revisions
  {
  }

  lemma SaveAppends(db: Db, id: nat, form: Form)
    ensures db.revisions <= Save(db, id, form).revisions
  {
    var written := Write(db, id, Filled(db, id, form));
    WriteLeavesRevisions(db, id, Filled(db, id, form));
    CaptureAppends(written, id);
    var displaced := Displaced(db, id, form);
    if displaced.Some? && displaced.value in Capture(written, id).strategies {
      CaptureAppends(Capture(written, id), displaced.value);
    }
  }

  lemma RewriteAppends(db: Db, id: nat, s: Strategy)
    ensures db.revisions <= Capture(Write(db, id, s), id).revisions
  {
    WriteLeavesRevisions(db, id, s);
    CaptureAppends(Write(db, id, s), id);
  }

  /** Revisions are only ever appended, in whatever state the tables are. */
  lemma StepAppends(db: Db, op: Op)
    ensures db.revisions <= Step(db, op).revisions
  {
    if Applies(db, op) {
      match op
      case CreateStrategy(id, form) => SaveAppends(db, id, form);
      case UpdateStrategy(id, form) => SaveAppends(db, id, form);
      case ToggleEnabled(id) => RewriteAppends(db, id, Toggled(db, id));
      case RestoreRevision(r) => RewriteAppends(db, db.revisions[r].strategy, Restored(db, r));
      case _ =>
    }
  }

  /** What one operation may do to the tables. */
  ghost predicate Keeps(before: Db, after: Db) {
    (Good(before) ==> Good(after)) && before.revisions <= after.revisions
  }

  lemma StepKeeps(db: Db, op: Op)
    ensures Keeps(db, Step(db, op))
  {
    StepAppends(db, op);
    if Good(db) {
      StepIsGood(db, op);
    }
  }

  /** After every console operation of every run: the catalog is well shaped, every
      device's cached strategy is the one it resolves to, every live strategy is
      described by its latest revision, and no earlier revision has changed. */
  lemma {:induction false} RunIsGood(db: Db, ops: seq<Op>)
    requires Good(db)
    ensures Good(Run(db, ops))
    ensures db.revisions <= Run(db, ops).revisions
    decreases |ops|
  {
    if ops != [] {
      StepIsGood(db, ops[0]);
      RunIsGood(Step(db, ops[0]), ops[1..]);
    }
  }

  lemma EmptyIsGood()
    ensures Good(EMPTY)
  {
  }

  // ------------------------------------------------------------- restoring ---

  /** After restoring a revision the new revision differs from it at most in name,
      enabled and default. */
  lemma RestoreKeepsPolicy(db: Db, r: nat, changes: seq<Change>)
    requires Shape(db) && Described(db, {})
    requires r < |db.revisions| && IsLive(db, db.revisions[r].strategy)
    requires var after := Step(db, RestoreRevision(r));
      var latest := after.strategies[db.revisions[r].strategy].active;
      latest.Some? && latest.value < |after.revisions| &&
      IsDiff(changes, db.revisions[r].snapshot, after.revisions[latest.value].snapshot)
    ensures forall i :: 0 <= i < |changes| ==> changes[i].key in {NameKey, EnabledKey, DefaultKey}
  {
    var id := db.revisions[r].strategy;
    StepDescribes(db, RestoreRevision(r));
    assert IsDescribed(Step(db, RestoreRevision(r)), id);
    RestoredState(db, r);
    PolicyDiff(changes, db.revisions[r].snapshot, SnapshotOf(Step(db, RestoreRevision(r)).strategies[id]));
  }

  lemma RestoredState(db: Db, r: nat)
    requires CleanSnapshots(db) && r < |db.revisions| && IsLive(db, db.revisions[r].strategy)
    ensures var s := Step(db, RestoreRevision(r)).strategies[db.revisions[r].strategy];
      var snapshot := db.revisions[r].snapshot;
      !s.trashed && s.note == snapshot.note && s.enforce == snapshot.enforce && OptionMapOf(s) == snapshot.options
  {
    assert db.revisions[r].snapshot.options == Sanitize(AsRaw(db.revisions[r].snapshot.options));
  }

  lemma PolicyDiff(changes: seq<Change>, a: Snapshot, b: Snapshot)
    requires Sound(changes, a, b)
    requires a.note == b.note && a.enforce == b.enforce && a.options == b.options
    ensures forall i :: 0 <= i < |changes| ==> changes[i].key in {NameKey, EnabledKey, DefaultKey}
  {
    forall i | 0 <= i < |changes|
      ensures changes[i].key in {NameKey, EnabledKey, DefaultKey}
    {
      assert Look(a, changes[i].key) != Look(b, changes[i].key);
    }
  }
}
