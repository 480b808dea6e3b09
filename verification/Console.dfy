/** The console's database: strategies with their revisions, assignments at three
    levels, and devices that cache which strategy they resolve to. */
module Console {
  import opened Options
  import opened Revisions
  import opened Counting

  datatype Strategy = Strategy(
    name: string,
    note: Option<string>,
    enabled: bool,
    isDefault: bool,
    enforce: bool,
    options: OptionMap,
    trashed: bool,
    active: Option<nat>)         // row id of the revision that describes it

  datatype Level = OnDevice | OnUser | OnGroup

  datatype Target = Target(level: Level, id: nat)

  datatype DeviceRow = DeviceRow(owner: Option<nat>, group: Option<nat>, cached: Option<nat>, trashed: bool)

  datatype Db = Db(
    strategies: map<nat, Strategy>,
    revisions: seq<Revision>,
    assignments: map<Target, nat>,  // one strategy per target
    devices: map<nat, DeviceRow>,
    users: set<nat>,
    groups: set<nat>)

  const EMPTY: Db := Db(map[], [], map[], map[], {}, {})

  // ------------------------------------------------------------ resolution ---

  /** The first row of a query ordered by primary key. */
  function First(ids: set<nat>): (r: Option<nat>)
    ensures r.None? <==> ids == {}
    ensures r.Some? ==> r.value in ids && forall x :: x in ids ==> r.value <= x
  {
    if ids == {} then None
    else
      var m := Extreme(ids, true);
      assert forall x :: x in ids ==> NoLater(m, x, true);
      Some(m)
  }

  predicate AnyEnabled(strategies: map<nat, Strategy>) {
    exists s :: s in strategies && strategies[s].enabled && !strategies[s].trashed
  }

  /** The enabled strategy assigned to a target. The join ignores soft deletion. */
  function EnabledAt(db: Db, t: Target): Option<nat> {
    if t in db.assignments && db.assignments[t] in db.strategies && db.strategies[db.assignments[t]].enabled
    then Some(db.assignments[t]) else None
  }

  /** The levels to try, highest precedence first. */
  function Candidates(d: nat, row: DeviceRow): seq<(Level, Option<nat>)> {
    [(OnDevice, Some(d)), (OnUser, row.owner), (OnGroup, row.group)]
  }

  function Walk(db: Db, candidates: seq<(Level, Option<nat>)>): Option<nat> {
    if candidates == [] then None
    else
      var (level, id) := candidates[0];
      if id.Some? && EnabledAt(db, Target(level, id.value)).Some? then EnabledAt(db, Target(level, id.value))
      else Walk(db, candidates[1..])
  }

  function EnabledDefaults(strategies: map<nat, Strategy>): set<nat> {
    set s | s in strategies && strategies[s].isDefault && strategies[s].enabled && !strategies[s].trashed
  }

  /** Which strategy applies to a device: device > owner > group > default. */
  function Resolve(db: Db, d: nat): Option<nat>
    requires d in db.devices
  {
    if !AnyEnabled(db.strategies) then None
    else
      var won := Walk(db, Candidates(d, db.devices[d]));
      if won.Some? then won else First(EnabledDefaults(db.strategies))
  }

  // ----------------------------------------------------------- explanation ---

  function Defaults(strategies: map<nat, Strategy>): set<nat> {
    set s | s in strategies && strategies[s].isDefault && !strategies[s].trashed
  }

  /** The strategy the inspector finds at a level; soft-deleted rows are not found. */
  function FoundAt(db: Db, level: Level, id: Option<nat>): Option<nat> {
    if id.None? || Target(level, id.value) !in db.assignments then None
    else
      var s := db.assignments[Target(level, id.value)];
      if s in db.strategies && !db.strategies[s].trashed then Some(s) else None
  }

  datatype Standing = Unset | Unassigned | Disabled | Overridden | Applied

  datatype ExplainStep = ExplainStep(strategy: Option<nat>, standing: Standing)

  function StandingOf(db: Db, unset: bool, s: Option<nat>, winner: Option<nat>): Standing {
    if unset then Unset
    else if s.None? || s.value !in db.strategies then Unassigned
    else if !db.strategies[s.value].enabled then Disabled
    else if winner.Some? then Overridden
    else Applied
  }

  function ExplainWalk(db: Db, candidates: seq<(Level, Option<nat>)>, winner: Option<nat>): Option<nat> {
    if candidates == [] then winner
    else
      var s := FoundAt(db, candidates[0].0, candidates[0].1);
      var standing := StandingOf(db, candidates[0].1.None?, s, winner);
      ExplainWalk(db, candidates[1..], if standing == Applied then s else winner)
  }

  /** The winner the inspector reports. */
  function Explained(db: Db, d: nat): Option<nat>
    requires d in db.devices
  {
    var winner := ExplainWalk(db, Candidates(d, db.devices[d]), None);
    var fallback := First(Defaults(db.strategies));
    if StandingOf(db, false, fallback, winner) == Applied then fallback else winner
  }

  // ------------------------------------------------------------ recompute ---

  function AsInt(id: Option<nat>): nat { if id.None? then 0 else id.value }

  /** Refresh one device's cached resolution; null and 0 compare equal. */
  function Sync(db: Db, d: nat): DeviceRow
    requires d in db.devices
  {
    if AsInt(db.devices[d].cached) != AsInt(Resolve(db, d))
    then db.devices[d].(cached := Resolve(db, d)) else db.devices[d]
  }

  function RecomputeOn(db: Db, ids: set<nat>): Db {
    db.(devices := map d | d in db.devices :: if d in ids then Sync(db, d) else db.devices[d])
  }

  function RecomputeAll(db: Db): Db {
    RecomputeOn(db, db.devices.Keys)
  }

  predicate Reaches(d: nat, row: DeviceRow, t: Target) {
    match t.level
    case OnDevice => d == t.id
    case OnUser => row.owner == Some(t.id)
    case OnGroup => row.group == Some(t.id)
  }

  /** The devices an assignment at a target can reach, trashed ones included. */
  function Reached(db: Db, t: Target): set<nat> {
    set d | d in db.devices && Reaches(d, db.devices[d], t)
  }

  // ------------------------------------------------------------ operations ---

  /** What an editor form submits. */
  datatype Form = Form(
    name: string,
    note: Option<string>,
    enabled: bool,
    isDefault: bool,
    enforce: bool,
    options: map<string, RawValue>)

  function OptionMapOf(s: Strategy): OptionMap {
    Sanitize(AsRaw(s.options))
  }

  function SnapshotOf(s: Strategy): Snapshot {
    Snapshot(s.name, s.note, s.enabled, s.isDefault, s.enforce, OptionMapOf(s))
  }

  /** Append a revision of a strategy's current state and make it the active one. */
  function Capture(db: Db, id: nat): Db
    requires id in db.strategies
  {
    var revision := Revision(id, MaxNumber(db.revisions, id) + 1, SnapshotOf(db.strategies[id]));
    db.(revisions := db.revisions + [revision],
        strategies := db.strategies[id := db.strategies[id].(active := Some(|db.revisions|))])
  }

  function ClearOtherDefaults(strategies: map<nat, Strategy>, id: nat): map<nat, Strategy> {
    map s | s in strategies ::
      if s != id && !strategies[s].trashed then strategies[s].(isDefault := false) else strategies[s]
  }

  /** Write a strategy row and run the hook every save fires. */
  function Write(db: Db, id: nat, s: Strategy): Db {
    var created := id !in db.strategies;
    var defaultMoved := created || db.strategies[id].isDefault != s.isDefault;
    var routingMoved := defaultMoved || db.strategies[id].enabled != s.enabled;
    var strategies := db.strategies[id := s];
    var next := db.(strategies := if s.isDefault && defaultMoved then ClearOtherDefaults(strategies, id) else strategies);
    if routingMoved then RecomputeAll(next) else next
  }

  /** The row a form fills; an existing strategy keeps its active revision. */
  function Filled(db: Db, id: nat, form: Form): Strategy {
    Strategy(form.name, form.note, form.enabled, form.isDefault, form.enforce, Sanitize(form.options), false,
             if id in db.strategies then db.strategies[id].active else None)
  }

  /** The default a form displaces, read before anything is written. */
  function Displaced(db: Db, id: nat, form: Form): Option<nat> {
    if form.isDefault then First(Defaults(db.strategies) - {id}) else None
  }

  function CaptureBoth(db: Db, id: nat, displaced: Option<nat>): Db
    requires id in db.strategies
  {
    var saved := Capture(db, id);
    if displaced.Some? && displaced.value in saved.strategies then Capture(saved, displaced.value) else saved
  }

  /** Save the editor form: write, capture, and capture a default it displaced. */
  function Save(db: Db, id: nat, form: Form): Db {
    CaptureBoth(Write(db, id, Filled(db, id, form)), id, Displaced(db, id, form))
  }

  function Toggled(db: Db, id: nat): Strategy
    requires id in db.strategies
  {
    db.strategies[id].(enabled := !db.strategies[id].enabled)
  }

  function Toggle(db: Db, id: nat): Db
    requires id in db.strategies
  {
    Capture(Write(db, id, Toggled(db, id)), id)
  }

  /** A strategy with a revision's policy; name, enabled and default are left alone. */
  function Restored(db: Db, revision: nat): Strategy
    requires revision < |db.revisions| && db.revisions[revision].strategy in db.strategies
  {
    var snapshot := db.revisions[revision].snapshot;
    db.strategies[db.revisions[revision].strategy].(
      note := snapshot.note, enforce := snapshot.enforce, options := Sanitize(AsRaw(snapshot.options)))
  }

  function Restore(db: Db, revision: nat): Db
    requires revision < |db.revisions| && db.revisions[revision].strategy in db.strategies
  {
    var id := db.revisions[revision].strategy;
    Capture(Write(db, id, Restored(db, revision)), id)
  }

  /** What deleting a strategy clears before the fleet is re-resolved: its
      assignments, its flags, and its hold on its name. */
  function Retire(db: Db, id: nat, stamp: string): Db
    requires id in db.strategies
  {
    var s := db.strategies[id];
    db.(assignments := map t | t in db.assignments && db.assignments[t] != id :: db.assignments[t],
        strategies := db.strategies[id := s.(enabled := false, isDefault := false, trashed := true, name := s.name + stamp)])
  }

  function Delete(db: Db, id: nat, stamp: string): Db
    requires id in db.strategies
  {
    RecomputeAll(Retire(db, id, stamp))
  }

  function Assign(db: Db, t: Target, s: Option<nat>): Db {
    db.(assignments := if s.None? then db.assignments - {t} else db.assignments[t := s.value])
  }

  function AssignTo(db: Db, t: Target, s: Option<nat>): Db {
    var next := Assign(db, t, s);
    RecomputeOn(next, Reached(next, t))
  }

  function PutDevice(db: Db, d: nat, row: DeviceRow): Db {
    db.(devices := db.devices[d := row])
  }

  /** A model write of a device fires the hook that refreshes its cached resolution. */
  function PutAndSync(db: Db, d: nat, row: DeviceRow): Db {
    RecomputeOn(PutDevice(db, d, row), {d})
  }

  /** Query-builder write of owners: fires no hooks. */
  function SetOwners(db: Db, ids: set<nat>, owner: Option<nat>): Db {
    db.(devices := map d | d in db.devices :: if d in ids then db.devices[d].(owner := owner) else db.devices[d])
  }

  function SetGroups(db: Db, ids: set<nat>, group: Option<nat>): Db {
    db.(devices := map d | d in db.devices :: if d in ids then db.devices[d].(group := group) else db.devices[d])
  }

  function Live(db: Db): set<nat> {
    set d | d in db.devices && !db.devices[d].trashed
  }

  function OwnedBy(db: Db, u: nat): set<nat> {
    set d | d in db.devices && db.devices[d].owner == Some(u)
  }

  function GroupedIn(db: Db, g: nat): set<nat> {
    set d | d in db.devices && db.devices[d].group == Some(g)
  }

  /** Bulk owner reassignment: gain the checked devices, release the unchecked ones;
      each query acts on the devices the actor may assign at that moment. */
  function Reowned(db: Db, u: nat, checked: set<nat>, mayGain: set<nat>, mayRelease: set<nat>): Db {
    var ids := checked * mayGain * Live(db);
    var gained := SetOwners(db, ids, Some(u));
    SetOwners(gained, (OwnedBy(gained, u) * Live(gained) * mayRelease) - ids, None)
  }

  function SaveOwners(db: Db, u: nat, checked: set<nat>, mayGain: set<nat>, mayRelease: set<nat>): Db {
    RecomputeAll(Reowned(db, u, checked, mayGain, mayRelease))
  }

  /** Detach the user's live devices, then delete the user; assignments cascade. */
  function WithoutUser(db: Db, u: nat): Db {
    SetOwners(db, OwnedBy(db, u) * Live(db), None).(
      users := db.users - {u}, assignments := db.assignments - {Target(OnUser, u)})
  }

  function DeleteUser(db: Db, u: nat): Db {
    RecomputeAll(WithoutUser(db, u))
  }

  function WithoutGroup(db: Db, g: nat): Db {
    SetGroups(db, GroupedIn(db, g) * Live(db), None).(
      groups := db.groups - {g}, assignments := db.assignments - {Target(OnGroup, g)})
  }

  function DeleteGroup(db: Db, g: nat): Db {
    RecomputeAll(WithoutGroup(db, g))
  }

  predicate IsLive(db: Db, s: nat) { s in db.strategies && !db.strategies[s].trashed }

  predicate TargetExists(db: Db, t: Target) {
    match t.level
    case OnDevice => t.id in db.devices
    case OnUser => t.id in db.users
    case OnGroup => t.id in db.groups
  }

  datatype Op =
    | CreateStrategy(id: nat, form: Form)
    | UpdateStrategy(id: nat, form: Form)
    | ToggleEnabled(id: nat)
    | RestoreRevision(revision: nat)
    | DeleteStrategy(id: nat, stamp: string)
    | AssignStrategy(target: Target, strategy: Option<nat>)
    | AddDevice(d: nat, owner: Option<nat>, group: Option<nat>)
    | MoveDevice(d: nat, owner: Option<nat>, group: Option<nat>)
    | SetTrashed(d: nat, trashed: bool)
    | PurgeDevice(d: nat)
    | AddUser(u: nat)
    | AddGroup(g: nat)
    | AssignOwners(u: nat, checked: set<nat>, mayGain: set<nat>, mayRelease: set<nat>)
    | RemoveUser(u: nat)
    | RemoveGroup(g: nat)

  /** Whether the operation finds what it names; ids of new rows are fresh and positive. */
  predicate Applies(db: Db, op: Op) {
    match op
    case CreateStrategy(id, _) => id > 0 && id !in db.strategies
    case UpdateStrategy(id, _) => IsLive(db, id)
    case ToggleEnabled(id) => IsLive(db, id)
    case RestoreRevision(r) => r < |db.revisions| && IsLive(db, db.revisions[r].strategy)
    case DeleteStrategy(id, _) => IsLive(db, id)
    case AssignStrategy(t, s) => TargetExists(db, t) && (s.Some? ==> IsLive(db, s.value))
    case AddDevice(d, _, _) => d !in db.devices
    case MoveDevice(d, _, _) => d in db.devices
    case SetTrashed(d, _) => d in db.devices
    case PurgeDevice(d) => d in db.devices
    case AddUser(u) => u !in db.users
    case AddGroup(g) => g !in db.groups
    case AssignOwners(u, _, _, _) => u in db.users
    case RemoveUser(u) => u in db.users
    case RemoveGroup(g) => g in db.groups
  }

  /** One console operation; a lookup that fails leaves everything as it was. */
  function Step(db: Db, op: Op): Db {
    if !Applies(db, op) then db
    else
      match op
      case CreateStrategy(id, form) => Save(db, id, form)
      case UpdateStrategy(id, form) => Save(db, id, form)
      case ToggleEnabled(id) => Toggle(db, id)
      case RestoreRevision(r) => Restore(db, r)
      case DeleteStrategy(id, stamp) => Delete(db, id, stamp)
      case AssignStrategy(t, s) => AssignTo(db, t, s)
      case AddDevice(d, owner, group) => PutAndSync(db, d, DeviceRow(owner, group, None, false))
      case MoveDevice(d, owner, group) =>
        if db.devices[d].owner == owner && db.devices[d].group == group then db
        else PutAndSync(db, d, db.devices[d].(owner := owner, group := group))
      case SetTrashed(d, trashed) => PutDevice(db, d, db.devices[d].(trashed := trashed))
      case PurgeDevice(d) =>
        db.(devices := db.devices - {d}, assignments := db.assignments - {Target(OnDevice, d)})
      case AddUser(u) => db.(users := db.users + {u})
      case AddGroup(g) => db.(groups := db.groups + {g})
      case AssignOwners(u, checked, mayGain, mayRelease) => SaveOwners(db, u, checked, mayGain, mayRelease)
      case RemoveUser(u) => DeleteUser(db, u)
      case RemoveGroup(g) => DeleteGroup(db, g)
  }

  function Run(db: Db, ops: seq<Op>): Db
    decreases |ops|
  {
    if ops == [] then db else Run(Step(db, ops[0]), ops[1..])
  }
}
