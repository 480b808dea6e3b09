/** What each console operation leaves behind, in the operator's terms: who holds what
    afterwards, and what is as it was. */
module ConsoleEffects {
  import opened Options
  import opened Revisions
  import opened Console
  import opened Coherence

  // ---------------------------------------------------------------- frames ---

  ghost predicate SameCatalog(a: Db, b: Db) {
    a.strategies == b.strategies && a.revisions == b.revisions
  }

  ghost predicate SamePeople(a: Db, b: Db) {
    a.users == b.users && a.groups == b.groups
  }

  /** The devices are the same but for their cached strategy. */
  ghost predicate SameDevices(a: Db, b: Db) {
    && a.devices.Keys == b.devices.Keys
    && forall d :: d in a.devices && d in b.devices ==>
         && b.devices[d].owner == a.devices[d].owner && b.devices[d].group == a.devices[d].group
         && b.devices[d].trashed == a.devices[d].trashed
  }

  /** A snapshot shows the strategy as it is. */
  ghost predicate Shows(snapshot: Snapshot, s: Strategy) {
    && snapshot.name == s.name && snapshot.note == s.note && snapshot.options == Sanitize(AsRaw(s.options))
    && snapshot.enabled == s.enabled && snapshot.isDefault == s.isDefault && snapshot.enforce == s.enforce
  }

  /** The strategy's active revision is a new one of its own and shows it. */
  ghost predicate NewlyRecorded(before: Db, after: Db, id: nat)
    requires id in after.strategies
  {
    && after.strategies[id].active.Some?
    && var a := after.strategies[id].active.value;
       && |before.revisions| <= a < |after.revisions|
       && after.revisions[a].strategy == id && Shows(after.revisions[a].snapshot, after.strategies[id])
  }

  // ------------------------------------------------------------ strategies ---

  ghost predicate Fills(s: Strategy, form: Form) {
    && s.name == form.name && s.note == form.note
    && s.options == Sanitize(form.options) == Sanitize(AsRaw(s.options))
    && s.enabled == form.enabled && s.isDefault == form.isDefault && s.enforce == form.enforce && !s.trashed
  }

  /** The form is what is stored; another strategy loses at most the default, and then
      has a revision to show for it. */
  ghost predicate Saved(before: Db, after: Db, id: nat, form: Form) {
    && after.strategies.Keys == before.strategies.Keys + {id}
    && Fills(after.strategies[id], form) && NewlyRecorded(before, after, id)
    && forall t :: t in before.strategies && t != id ==>
         if form.isDefault && before.strategies[t].isDefault
         then LostDefault(before, after, t) else after.strategies[t] == before.strategies[t]
  }

  ghost predicate LostDefault(before: Db, after: Db, t: nat)
    requires t in before.strategies
  {
    && t in after.strategies
    && after.strategies[t] == before.strategies[t].(isDefault := false, active := after.strategies[t].active)
    && NewlyRecorded(before, after, t)
  }

  /** One strategy is rewritten and recorded; every other is as it was. */
  ghost predicate Rewritten(before: Db, after: Db, id: nat, s: Strategy) {
    && after.strategies.Keys == before.strategies.Keys && id in after.strategies
    && after.strategies[id] == s.(active := after.strategies[id].active)
    && NewlyRecorded(before, after, id)
    && forall t :: t in before.strategies && t != id ==> after.strategies[t] == before.strategies[t]
  }

  ghost predicate Toggles(before: Db, after: Db, id: nat) {
    id in before.strategies &&
    Rewritten(before, after, id, before.strategies[id].(enabled := !before.strategies[id].enabled))
  }

  /** Note, enforcement and options come back; name, enabled and default stay. */
  ghost predicate Restores(before: Db, after: Db, r: nat) {
    && r < |before.revisions| && before.revisions[r].strategy in before.strategies
    && var snapshot := before.revisions[r].snapshot;
       Rewritten(before, after, before.revisions[r].strategy, before.strategies[before.revisions[r].strategy].(
         note := snapshot.note, enforce := snapshot.enforce, options := snapshot.options))
  }

  /** The strategy is retired and nothing is assigned to it; all else stays. */
  ghost predicate Deleted(before: Db, after: Db, id: nat, stamp: string) {
    && id in before.strategies && after.revisions == before.revisions
    && after.strategies == before.strategies[id := before.strategies[id].(
         trashed := true, enabled := false, isDefault := false, name := before.strategies[id].name + stamp)]
    && (forall t :: t in after.assignments <==> t in before.assignments && before.assignments[t] != id)
    && (forall t :: t in after.assignments ==> after.assignments[t] == before.assignments[t])
  }

  // ---------------------------------------------------------------- devices ---

  /** Every device has the owner `owner` says and is otherwise the same. */
  ghost predicate OwnersAre(before: Db, after: Db, owner: map<nat, Option<nat>>) {
    && after.devices.Keys == before.devices.Keys == owner.Keys
    && forall d :: d in before.devices ==>
         && after.devices[d].owner == owner[d] && after.devices[d].group == before.devices[d].group
         && after.devices[d].trashed == before.devices[d].trashed
  }

  ghost predicate GroupsAre(before: Db, after: Db, group: map<nat, Option<nat>>) {
    && after.devices.Keys == before.devices.Keys == group.Keys
    && forall d :: d in before.devices ==>
         && after.devices[d].group == group[d] && after.devices[d].owner == before.devices[d].owner
         && after.devices[d].trashed == before.devices[d].trashed
  }

  /** Checked devices the actor may assign go to the user, the user's other devices the
      actor may release go free, and recycled ones stay where they are. */
  ghost function Reassigned(db: Db, u: nat, checked: set<nat>, mayGain: set<nat>, mayRelease: set<nat>): map<nat, Option<nat>> {
    map d | d in db.devices ::
      if db.devices[d].trashed then db.devices[d].owner
      else if d in checked && d in mayGain then Some(u)
      else if db.devices[d].owner == Some(u) && d in mayRelease then None
      else db.devices[d].owner
  }

  ghost function Disowned(db: Db, u: nat): map<nat, Option<nat>> {
    map d | d in db.devices ::
      if db.devices[d].owner == Some(u) && !db.devices[d].trashed then None else db.devices[d].owner
  }

  ghost function Ungrouped(db: Db, g: nat): map<nat, Option<nat>> {
    map d | d in db.devices ::
      if db.devices[d].group == Some(g) && !db.devices[d].trashed then None else db.devices[d].group
  }

  ghost predicate AssignmentsBut(before: Db, after: Db, t: Target, s: Option<nat>) {
    && (if s.Some? then t in after.assignments && after.assignments[t] == s.value else t !in after.assignments)
    && (forall u :: u != t ==> (u in after.assignments <==> u in before.assignments))
    && (forall u :: u != t && u in before.assignments ==> after.assignments[u] == before.assignments[u])
  }

  ghost predicate DeviceBut(before: Db, after: Db, d: nat, owner: Option<nat>, group: Option<nat>, trashed: bool) {
    && after.devices.Keys == before.devices.Keys + {d}
    && after.devices[d].owner == owner && after.devices[d].group == group && after.devices[d].trashed == trashed
    && forall e :: e in before.devices && e != d ==> after.devices[e] == before.devices[e]
  }

  // ------------------------------------------------------------- everything ---

  /** What the operation does to the catalog. */
  ghost predicate CatalogDone(before: Db, op: Op, after: Db) {
    match op
    case CreateStrategy(id, form) => Saved(before, after, id, form)
    case UpdateStrategy(id, form) => Saved(before, after, id, form)
    case ToggleEnabled(id) => Toggles(before, after, id)
    case RestoreRevision(r) => Restores(before, after, r)
    case DeleteStrategy(id, stamp) => Deleted(before, after, id, stamp)
    case _ => SameCatalog(before, after)
  }

  /** ... to the assignments, the users and the groups ... */
  ghost predicate PeopleDone(before: Db, op: Op, after: Db) {
    match op
    case AssignStrategy(t, s) => SamePeople(before, after) && AssignmentsBut(before, after, t, s)
    case PurgeDevice(d) => SamePeople(before, after) && AssignmentsBut(before, after, Target(OnDevice, d), None)
    case AddUser(u) =>
      after.users == before.users + {u} && after.groups == before.groups && after.assignments == before.assignments
    case AddGroup(g) =>
      after.groups == before.groups + {g} && after.users == before.users && after.assignments == before.assignments
    case RemoveUser(u) =>
      && after.users == before.users - {u} && after.groups == before.groups
      && AssignmentsBut(before, after, Target(OnUser, u), None)
    case RemoveGroup(g) =>
      && after.groups == before.groups - {g} && after.users == before.users
      && AssignmentsBut(before, after, Target(OnGroup, g), None)
    case DeleteStrategy(_, _) => SamePeople(before, after)
    case _ => SamePeople(before, after) && after.assignments == before.assignments
  }

  /** ... and to the devices. */
  ghost predicate DevicesDone(before: Db, op: Op, after: Db) {
    match op
    case AddDevice(d, owner, group) => DeviceBut(before, after, d, owner, group, false)
    case MoveDevice(d, owner, group) =>
      d in before.devices && DeviceBut(before, after, d, owner, group, before.devices[d].trashed)
    case SetTrashed(d, trashed) =>
      d in before.devices && DeviceBut(before, after, d, before.devices[d].owner, before.devices[d].group, trashed)
    case PurgeDevice(d) =>
      && after.devices.Keys == before.devices.Keys - {d}
      && forall e :: e in after.devices ==> after.devices[e] == before.devices[e]
    case AssignOwners(u, checked, mayGain, mayRelease) =>
      OwnersAre(before, after, Reassigned(before, u, checked, mayGain, mayRelease))
    case RemoveUser(u) => OwnersAre(before, after, Disowned(before, u))
    case RemoveGroup(g) => GroupsAre(before, after, Ungrouped(before, g))
    case _ => SameDevices(before, after)
  }

  // ------------------------------------------------------------------ proofs ---

  /** Only cached columns may differ. */
  ghost predicate OnlyCaches(a: Db, b: Db) {
    SameCatalog(a, b) && SamePeople(a, b) && a.assignments == b.assignments && SameDevices(a, b)
  }

  lemma RecomputeEffect(db: Db, ids: set<nat>)
    ensures OnlyCaches(db, RecomputeOn(db, ids))
    ensures forall d :: d in db.devices && d !in ids ==> RecomputeOn(db, ids).devices[d] == db.devices[d]
  {
  }

  /** The strategies after a write: the row, and at most one default. */
  lemma WrittenCatalog(db: Db, id: nat, s: Strategy, t: nat)
    requires Shape(db) && !s.trashed && t in db.strategies && t != id
    ensures t in Write(db, id, s).strategies
    ensures Write(db, id, s).strategies[t] ==
      if s.isDefault && db.strategies[t].isDefault then db.strategies[t].(isDefault := false) else db.strategies[t]
  {
  }

  /** Everything but strategies and devices is untouched by a write. */
  ghost predicate SameElsewhere(a: Db, b: Db) {
    SamePeople(a, b) && a.assignments == b.assignments && SameDevices(a, b)
  }

  lemma WriteElsewhere(db: Db, id: nat, s: Strategy)
    ensures var after := Write(db, id, s);
      && after.strategies.Keys == db.strategies.Keys + {id} && after.strategies[id] == s
      && after.revisions == db.revisions && SameElsewhere(db, after)
  {
    WriteKeys(db, id, s);
  }

  lemma CaptureEffect(db: Db, id: nat)
    requires id in db.strategies
    ensures var after := Capture(db, id);
      && after.strategies == db.strategies[id := db.strategies[id].(active := Some(|db.revisions|))]
      && db.revisions <= after.revisions && |after.revisions| == |db.revisions| + 1
      && after.revisions[|db.revisions|].strategy == id
      && Shows(after.revisions[|db.revisions|].snapshot, db.strategies[id])
      && after.devices == db.devices && SamePeople(db, after) && after.assignments == db.assignments
  {
  }

  lemma RewriteEffect(db: Db, id: nat, s: Strategy)
    requires Shape(db) && id in db.strategies && !s.trashed && s.isDefault == db.strategies[id].isDefault
    ensures var after := Capture(Write(db, id, s), id);
      Rewritten(db, after, id, s) && SameElsewhere(db, after)
  {
    var written := Write(db, id, s);
    WriteElsewhere(db, id, s);
    CaptureEffect(written, id);
    forall t | t in db.strategies && t != id
      ensures written.strategies[t] == db.strategies[t]
    {
      WrittenCatalog(db, id, s, t);
    }
  }

  lemma ToggleEffect(db: Db, id: nat)
    requires Shape(db) && IsLive(db, id)
    ensures Toggles(db, Toggle(db, id), id) && SameElsewhere(db, Toggle(db, id))
  {
    RewriteEffect(db, id, Toggled(db, id));
  }

  lemma RestoreEffect(db: Db, r: nat)
    requires Shape(db) && CleanSnapshots(db) && r < |db.revisions| && IsLive(db, db.revisions[r].strategy)
    ensures Restores(db, Restore(db, r), r) && SameElsewhere(db, Restore(db, r))
  {
    RewriteEffect(db, db.revisions[r].strategy, Restored(db, r));
    assert Sanitize(AsRaw(db.revisions[r].snapshot.options)) == db.revisions[r].snapshot.options;
  }

  lemma DeleteEffect(db: Db, id: nat, stamp: string)
    requires IsLive(db, id)
    ensures Deleted(db, Delete(db, id, stamp), id, stamp)
    ensures SamePeople(db, Delete(db, id, stamp)) && SameDevices(db, Delete(db, id, stamp))
  {
    var retired := Retire(db, id, stamp);
    RecomputeEffect(retired, retired.devices.Keys);
  }

  /** The default a form displaces is the one there is. */
  lemma DisplacedIsTheDefault(db: Db, id: nat, form: Form, t: nat)
    requires Shape(db) && t in db.strategies && t != id
    ensures form.isDefault && db.strategies[t].isDefault <==> Displaced(db, id, form) == Some(t)
  {
    if form.isDefault && db.strategies[t].isDefault {
      assert t in Defaults(db.strategies) - {id};
      assert Defaults(db.strategies) - {id} == {t};
    }
  }

  lemma FilledFills(db: Db, id: nat, form: Form)
    ensures Fills(Filled(db, id, form), form)
  {
    SanitizeIdempotent(form.options);
  }

  /** Both captures leave each captured strategy with a revision that shows it. */
  lemma CaptureBothEffect(written: Db, id: nat, displaced: Option<nat>)
    requires id in written.strategies && displaced != Some(id)
    requires displaced.Some? ==> displaced.value in written.strategies
    ensures var after := CaptureBoth(written, id, displaced);
      && after.strategies.Keys == written.strategies.Keys && SameElsewhere(written, after)
      && after.strategies[id] == written.strategies[id].(active := Some(|written.revisions|))
      && NewlyRecorded(written, after, id)
      && (displaced.Some? ==>
            && after.strategies[displaced.value] ==
                 written.strategies[displaced.value].(active := Some(|written.revisions| + 1))
            && NewlyRecorded(written, after, displaced.value))
      && forall t :: t in written.strategies && t != id && displaced != Some(t) ==>
           after.strategies[t] == written.strategies[t]
  {
    CaptureEffect(written, id);
    if displaced.Some? {
      CaptureEffect(Capture(written, id), displaced.value);
    }
  }

  lemma SaveEffect(db: Db, id: nat, form: Form)
    requires Shape(db) && id > 0
    ensures Saved(db, Save(db, id, form), id, form) && SameElsewhere(db, Save(db, id, form))
  {
    var s := Filled(db, id, form);
    var written, displaced := Write(db, id, s), Displaced(db, id, form);
    WriteElsewhere(db, id, s);
    FilledFills(db, id, form);
    CaptureBothEffect(written, id, displaced);
    forall t | t in db.strategies && t != id
      ensures if form.isDefault && db.strategies[t].isDefault
              then LostDefault(db, Save(db, id, form), t)
              else Save(db, id, form).strategies[t] == db.strategies[t]
    {
      WrittenCatalog(db, id, s, t);
      DisplacedIsTheDefault(db, id, form, t);
    }
  }

  lemma PutEffect(db: Db, d: nat, row: DeviceRow)
    ensures DeviceBut(db, PutAndSync(db, d, row), d, row.owner, row.group, row.trashed)
    ensures SameCatalog(db, PutAndSync(db, d, row)) && SamePeople(db, PutAndSync(db, d, row))
    ensures PutAndSync(db, d, row).assignments == db.assignments
  {
    RecomputeEffect(PutDevice(db, d, row), {d});
  }

  lemma ReownEffect(db: Db, u: nat, checked: set<nat>, mayGain: set<nat>, mayRelease: set<nat>)
    ensures var after := SaveOwners(db, u, checked, mayGain, mayRelease);
      && OwnersAre(db, after, Reassigned(db, u, checked, mayGain, mayRelease))
      && SameCatalog(db, after) && SamePeople(db, after) && after.assignments == db.assignments
  {
    var reowned := Reowned(db, u, checked, mayGain, mayRelease);
    RecomputeEffect(reowned, reowned.devices.Keys);
  }

  lemma RemoveUserEffect(db: Db, u: nat)
    ensures var after := DeleteUser(db, u);
      && OwnersAre(db, after, Disowned(db, u)) && SameCatalog(db, after)
      && after.users == db.users - {u} && after.groups == db.groups
      && AssignmentsBut(db, after, Target(OnUser, u), None)
  {
    var without := WithoutUser(db, u);
    RecomputeEffect(without, without.devices.Keys);
  }

  lemma RemoveGroupEffect(db: Db, g: nat)
    ensures var after := DeleteGroup(db, g);
      && GroupsAre(db, after, Ungrouped(db, g)) && SameCatalog(db, after)
      && after.groups == db.groups - {g} && after.users == db.users
      && AssignmentsBut(db, after, Target(OnGroup, g), None)
  {
    var without := WithoutGroup(db, g);
    RecomputeEffect(without, without.devices.Keys);
  }

  lemma AssignEffect(db: Db, t: Target, s: Option<nat>)
    ensures var after := AssignTo(db, t, s);
      SameCatalog(db, after) && SamePeople(db, after) && SameDevices(db, after) && AssignmentsBut(db, after, t, s)
  {
    var next := Assign(db, t, s);
    RecomputeEffect(next, Reached(next, t));
  }

  /** The operation names things that are there, and makes things that are not. */
  ghost predicate Finds(db: Db, op: Op) {
    match op
    case CreateStrategy(id, _) => id != 0 && id !in db.strategies
    case UpdateStrategy(id, _) => id in db.strategies && !db.strategies[id].trashed
    case ToggleEnabled(id) => id in db.strategies && !db.strategies[id].trashed
    case DeleteStrategy(id, _) => id in db.strategies && !db.strategies[id].trashed
    case RestoreRevision(r) =>
      && r < |db.revisions| && db.revisions[r].strategy in db.strategies
      && !db.strategies[db.revisions[r].strategy].trashed
    case AssignStrategy(t, s) =>
      && t.id in (match t.level case OnDevice => db.devices.Keys case OnUser => db.users case OnGroup => db.groups)
      && (s.None? || (s.value in db.strategies && !db.strategies[s.value].trashed))
    case AddDevice(d, _, _) => d !in db.devices
    case MoveDevice(d, _, _) => d in db.devices
    case SetTrashed(d, _) => d in db.devices
    case PurgeDevice(d) => d in db.devices
    case AddUser(u) => u !in db.users
    case AddGroup(g) => g !in db.groups
    case AssignOwners(u, _, _, _) => u in db.users
    case RemoveUser(u) => u in db.users
    case RemoveGroup(g) => g in db.groups
  }

  /** What an operation that finds its subject does, all of it. */
  ghost predicate Done(before: Db, op: Op, after: Db) {
    CatalogDone(before, op, after) && PeopleDone(before, op, after) && DevicesDone(before, op, after)
  }

  lemma CatalogOpDoes(db: Db, op: Op)
    requires Shape(db) && CleanSnapshots(db) && Applies(db, op)
    requires op.CreateStrategy? || op.UpdateStrategy? || op.ToggleEnabled? || op.RestoreRevision? || op.DeleteStrategy?
    ensures Done(db, op, Step(db, op))
  {
    match op
    case CreateStrategy(id, form) => SaveEffect(db, id, form);
    case UpdateStrategy(id, form) => SaveEffect(db, id, form);
    case ToggleEnabled(id) => ToggleEffect(db, id);
    case RestoreRevision(r) => RestoreEffect(db, r);
    case DeleteStrategy(id, stamp) => DeleteEffect(db, id, stamp);
  }

  lemma FleetOpDoes(db: Db, op: Op)
    requires Applies(db, op)
    requires op.AssignStrategy? || op.AssignOwners? || op.RemoveUser? || op.RemoveGroup?
    ensures Done(db, op, Step(db, op))
  {
    match op
    case AssignStrategy(t, s) => AssignEffect(db, t, s);
    case AssignOwners(u, checked, mayGain, mayRelease) => ReownEffect(db, u, checked, mayGain, mayRelease);
    case RemoveUser(u) => RemoveUserEffect(db, u);
    case RemoveGroup(g) => RemoveGroupEffect(db, g);
  }

  lemma RowOpDoes(db: Db, op: Op)
    requires Applies(db, op)
    requires op.AddDevice? || op.MoveDevice? || op.SetTrashed? || op.PurgeDevice? || op.AddUser? || op.AddGroup?
    ensures Done(db, op, Step(db, op))
  {
    match op
    case AddDevice(d, owner, group) => PutEffect(db, d, DeviceRow(owner, group, None, false));
    case MoveDevice(d, owner, group) => PutEffect(db, d, db.devices[d].(owner := owner, group := group));
    case SetTrashed(d, trashed) =>
    case PurgeDevice(d) =>
    case AddUser(u) =>
    case AddGroup(g) =>
  }

  /** Every operation does what its name says to the strategies, the assignments, the
      people and the devices, and nothing else; one that does not find its subject does
      nothing. */
  lemma StepDoes(db: Db, op: Op)
    requires Shape(db) && CleanSnapshots(db)
    ensures Finds(db, op) ==> Done(db, op, Step(db, op))
    ensures !Finds(db, op) ==> Step(db, op) == db
  {
    if Applies(db, op) {
      if op.CreateStrategy? || op.UpdateStrategy? || op.ToggleEnabled? || op.RestoreRevision? || op.DeleteStrategy? {
        CatalogOpDoes(db, op);
      } else if op.AssignStrategy? || op.AssignOwners? || op.RemoveUser? || op.RemoveGroup? {
        FleetOpDoes(db, op);
      } else {
        RowOpDoes(db, op);
      }
    }
  }

  /** An operation keeps the invariant, only appends revisions, and does what it says. */
  ghost predicate Performs(before: Db, op: Op, after: Db) {
    Keeps(before, after) && (Good(before) && Finds(before, op) ==> Done(before, op, after))
  }

  lemma StepPerforms(db: Db, op: Op)
    ensures Performs(db, op, Step(db, op))
  {
    StepKeeps(db, op);
    if Good(db) {
      StepDoes(db, op);
    }
  }
}
