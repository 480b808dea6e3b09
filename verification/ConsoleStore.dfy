/** The console's operations as they update the tables in place, with the
    per-process memo of "is anything enabled at all". Each is proved to perform
    exactly the corresponding step of the transition system; a subject that is not
    found leaves everything as it was. */
module ConsoleStore {
  import opened Options
  import opened Revisions
  import opened Console
  import opened Coherence
  import opened ConsoleEffects

  class Database {
    var strategies: map<nat, Strategy>
    var revisions: seq<Revision>
    var assignments: map<Target, nat>
    var devices: map<nat, DeviceRow>
    var users: set<nat>
    var groups: set<nat>
    var anyEnabled: Option<bool>     // memo, dropped by every strategy write

    function Now(): (db: Db)
      reads this
    {
      Db(strategies, revisions, assignments, devices, users, groups)
    }

    ghost predicate MemoHolds()
      reads this
    {
      anyEnabled.Some? ==> anyEnabled.value == AnyEnabled(strategies)
    }

    constructor ()
      ensures Now() == EMPTY && MemoHolds()
    {
      strategies, revisions, assignments, devices, users, groups := map[], [], map[], map[], {}, {};
      anyEnabled := None;
    }

    // ---------------------------------------------------------- resolution ---

    method Resolved(d: nat) returns (r: Option<nat>)
      requires MemoHolds() && d in devices
      modifies this`anyEnabled
      ensures MemoHolds()
      ensures r == Resolve(Now(), d)
    {
      if anyEnabled == None {
        anyEnabled := Some(AnyEnabled(strategies));
      }
      if !anyEnabled.value {
        return None;
      }
      var candidates := Candidates(d, devices[d]);
      var i := 0;
      while i < |candidates|
        invariant 0 <= i <= |candidates|
        invariant Walk(Now(), candidates) == Walk(Now(), candidates[i..])
      {
        var (level, id) := candidates[i];
        if id.Some? {
          var found := EnabledAt(Now(), Target(level, id.value));
          if found.Some? {
            return found;
          }
        }
        i := i + 1;
      }
      return First(EnabledDefaults(strategies));
    }

    /** Refresh one device's cached resolution, writing only when it moved. */
    method SyncResolvedFor(d: nat)
      requires MemoHolds() && d in devices
      modifies this`anyEnabled, this`devices
      ensures MemoHolds()
      ensures devices == old(devices)[d := Sync(old(Now()), d)]
    {
      var resolved := Resolved(d);
      if AsInt(devices[d].cached) != AsInt(resolved) {
        devices := devices[d := devices[d].(cached := resolved)];
      }
    }

    /** Refresh every listed device, in any order. */
    method RecomputeQuery(ids: set<nat>)
      requires MemoHolds() && ids <= devices.Keys
      modifies this`anyEnabled, this`devices
      ensures MemoHolds()
      ensures Now() == RecomputeOn(old(Now()), ids)
    {
      ghost var before := Now();
      var left := ids;
      while left != {}
        invariant MemoHolds() && left <= ids <= devices.Keys
        invariant Now() == RecomputeOn(before, ids - left)
        decreases left
      {
        var d :| d in left;
        ResolveFrame(before, Now(), d);
        SyncResolvedFor(d);
        assert devices == RecomputeOn(before, ids - (left - {d})).devices;
        left := left - {d};
      }
      assert ids - left == ids;
    }

    // --------------------------------------------------------- assignments ---

    /** Delete the target's row and insert the new one, if any. The deletion stands
        even when the insertion then names a row that is not there. */
    method SetAssignment(t: Target, s: Option<nat>) returns (done: bool)
      modifies this`assignments
      ensures done <==> (s.Some? ==> s.value in strategies && TargetExists(old(Now()), t))
      ensures Now() == Assign(old(Now()), t, if done then s else None)
    {
      ghost var before := assignments;
      done := true;
      assignments := assignments - {t};
      if s.Some? {
        if s.value !in strategies || !TargetExists(Now(), t) {
          return false;
        }
        assignments := assignments[t := s.value];
        assert assignments == before[t := s.value];
      }
    }

    /** Point a target at a strategy, or clear it, and re-resolve what it reaches. A
        failed insertion is thrown out of here before anything is re-resolved; callers
        look target and strategy up first. */
    method AssignTo(t: Target, s: Option<nat>) returns (done: bool)
      requires MemoHolds()
      modifies this
      ensures MemoHolds()
      ensures done <==> (s.Some? ==> s.value in old(strategies) && TargetExists(old(Now()), t))
      ensures Now() == if done then Console.AssignTo(old(Now()), t, s) else Assign(old(Now()), t, None)
      ensures old(Applies(Now(), AssignStrategy(t, s))) ==> Performs(old(Now()), AssignStrategy(t, s), Now())
    {
      if Applies(Now(), AssignStrategy(t, s)) {
        AssignPerforms(Now(), t, s);
      }
      done := SetAssignment(t, s);
      if done {
        RecomputeQuery(Reached(Now(), t));
      }
    }

    // ---------------------------------------------------------- strategies ---

    /** Write a strategy row; the save hook keeps the default unique, drops the memo
        and re-resolves the fleet when routing may have moved. */
    method SaveRow(id: nat, s: Strategy)
      requires MemoHolds()
      modifies this
      ensures MemoHolds()
      ensures Now() == Write(old(Now()), id, s)
    {
      var created := id !in strategies;
      var defaultMoved := created || strategies[id].isDefault != s.isDefault;
      var routingMoved := defaultMoved || strategies[id].enabled != s.enabled;
      strategies := strategies[id := s];
      anyEnabled := None;
      if s.isDefault && defaultMoved {
        strategies := ClearOtherDefaults(strategies, id);
      }
      if routingMoved {
        RecomputeQuery(devices.Keys);
      }
    }

    /** Append a revision of the strategy's current state and make it active. */
    method CaptureRevision(id: nat)
      requires id in strategies
      modifies this`revisions, this`strategies
      ensures Now() == Capture(old(Now()), id)
      ensures old(MemoHolds()) ==> MemoHolds()
    {
      ghost var before := strategies;
      revisions := revisions + [Revision(id, MaxNumber(revisions, id) + 1, SnapshotOf(strategies[id]))];
      strategies := strategies[id := strategies[id].(active := Some(|revisions| - 1))];
      AnyEnabledFrame(before, strategies);
    }

    /** Save the editor form, creating the strategy when the id is new. */
    method SaveStrategy(id: nat, form: Form)
      requires MemoHolds()
      modifies this
      ensures MemoHolds()
      ensures Now() == Step(old(Now()), if id in old(strategies) then UpdateStrategy(id, form) else CreateStrategy(id, form))
      ensures Performs(old(Now()), if id in old(strategies) then UpdateStrategy(id, form) else CreateStrategy(id, form), Now())
    {
      StepPerforms(Now(), if id in strategies then UpdateStrategy(id, form) else CreateStrategy(id, form));
      if (id !in strategies && id == 0) || (id in strategies && strategies[id].trashed) {
        return;
      }
      var displaced := Displaced(Now(), id, form);
      var s := Filled(Now(), id, form);
      WriteKeys(Now(), id, s);
      SaveRow(id, s);
      CaptureRevision(id);
      if displaced.Some? {
        CaptureRevision(displaced.value);
      }
    }

    method ToggleStrategy(id: nat)
      requires MemoHolds()
      modifies this
      ensures MemoHolds()
      ensures Now() == Step(old(Now()), ToggleEnabled(id))
      ensures Performs(old(Now()), ToggleEnabled(id), Now())
    {
      StepPerforms(Now(), ToggleEnabled(id));
      if !IsLive(Now(), id) {
        return;
      }
      var s := Toggled(Now(), id);
      WriteKeys(Now(), id, s);
      SaveRow(id, s);
      CaptureRevision(id);
    }

    method RestoreRevisionRow(r: nat)
      requires MemoHolds()
      modifies this
      ensures MemoHolds()
      ensures Now() == Step(old(Now()), RestoreRevision(r))
      ensures Performs(old(Now()), RestoreRevision(r), Now())
    {
      StepPerforms(Now(), RestoreRevision(r));
      if r >= |revisions| || !IsLive(Now(), revisions[r].strategy) {
        return;
      }
      var id, s := revisions[r].strategy, Restored(Now(), r);
      WriteKeys(Now(), id, s);
      SaveRow(id, s);
      CaptureRevision(id);
    }

    /** The hook that runs before the row is soft-deleted, and the deletion itself. */
    method RetireRow(id: nat, stamp: string)
      requires id in strategies
      modifies this`assignments, this`strategies
      ensures Now() == Retire(old(Now()), id, stamp)
    {
      var s := strategies[id];
      assignments := map t | t in assignments && assignments[t] != id :: assignments[t];
      strategies := strategies[id := s.(enabled := false, isDefault := false, name := s.name + stamp)];
      strategies := strategies[id := strategies[id].(trashed := true)];
    }

    /** Soft-delete a strategy; the memo is dropped before the fleet is re-resolved. */
    method DeleteStrategyRow(id: nat, stamp: string)
      requires MemoHolds()
      modifies this
      ensures MemoHolds()
      ensures Now() == Step(old(Now()), DeleteStrategy(id, stamp))
      ensures Performs(old(Now()), DeleteStrategy(id, stamp), Now())
    {
      StepPerforms(Now(), DeleteStrategy(id, stamp));
      if !IsLive(Now(), id) {
        return;
      }
      RetireRow(id, stamp);
      anyEnabled := None;
      RecomputeQuery(devices.Keys);
    }

    // ------------------------------------------- bulk writes without hooks ---

    method UpdateOwners(ids: set<nat>, owner: Option<nat>)
      modifies this`devices
      ensures Now() == SetOwners(old(Now()), ids, owner)
    {
      devices := map d | d in devices :: if d in ids then devices[d].(owner := owner) else devices[d];
    }

    /** The two bulk updates of an owner reassignment. */
    method Reown(u: nat, checked: set<nat>, mayGain: set<nat>, mayRelease: set<nat>)
      modifies this`devices
      ensures Now() == Reowned(old(Now()), u, checked, mayGain, mayRelease)
    {
      var ids := checked * mayGain * Live(Now());
      UpdateOwners(ids, Some(u));
      UpdateOwners((OwnedBy(Now(), u) * Live(Now()) * mayRelease) - ids, None);
    }

    /** Bulk owner reassignment, then the full recompute that repairs the cache. */
    method SaveAssign(u: nat, checked: set<nat>, mayGain: set<nat>, mayRelease: set<nat>)
      requires MemoHolds()
      modifies this
      ensures MemoHolds()
      ensures Now() == Step(old(Now()), AssignOwners(u, checked, mayGain, mayRelease))
      ensures Performs(old(Now()), AssignOwners(u, checked, mayGain, mayRelease), Now())
    {
      StepPerforms(Now(), AssignOwners(u, checked, mayGain, mayRelease));
      if u !in users {
        return;
      }
      Reown(u, checked, mayGain, mayRelease);
      RecomputeQuery(devices.Keys);
    }

    /** Detach a user's live devices and delete the row; assignments cascade. */
    method DropUser(u: nat)
      modifies this`devices, this`users, this`assignments
      ensures Now() == WithoutUser(old(Now()), u)
    {
      UpdateOwners(OwnedBy(Now(), u) * Live(Now()), None);
      users := users - {u};
      assignments := assignments - {Target(OnUser, u)};
    }

    /** Delete a user; the hook re-resolves the whole fleet. */
    method DeleteUserRow(u: nat)
      requires MemoHolds()
      modifies this
      ensures MemoHolds()
      ensures Now() == Step(old(Now()), RemoveUser(u))
      ensures Performs(old(Now()), RemoveUser(u), Now())
    {
      StepPerforms(Now(), RemoveUser(u));
      if u !in users {
        return;
      }
      DropUser(u);
      RecomputeQuery(devices.Keys);
    }

    /** Detach a group's live devices and delete the row; assignments cascade. */
    method DropGroup(g: nat)
      modifies this`devices, this`groups, this`assignments
      ensures Now() == WithoutGroup(old(Now()), g)
    {
      var ids := GroupedIn(Now(), g) * Live(Now());
      devices := map d | d in devices :: if d in ids then devices[d].(group := None) else devices[d];
      groups := groups - {g};
      assignments := assignments - {Target(OnGroup, g)};
    }

    /** Delete a device group; the hook re-resolves the whole fleet. */
    method DeleteGroupRow(g: nat)
      requires MemoHolds()
      modifies this
      ensures MemoHolds()
      ensures Now() == Step(old(Now()), RemoveGroup(g))
      ensures Performs(old(Now()), RemoveGroup(g), Now())
    {
      StepPerforms(Now(), RemoveGroup(g));
      if g !in groups {
        return;
      }
      DropGroup(g);
      RecomputeQuery(devices.Keys);
    }

    /** A model write of a device row and the hook it fires. */
    method WriteDevice(d: nat, row: DeviceRow)
      requires MemoHolds()
      modifies this`devices, this`anyEnabled
      ensures MemoHolds()
      ensures Now() == PutAndSync(old(Now()), d, row)
    {
      ghost var put := PutDevice(Now(), d, row);
      devices := devices[d := row];
      SyncResolvedFor(d);
      assert devices == RecomputeOn(put, {d}).devices;
    }

    method CreateDevice(d: nat, owner: Option<nat>, group: Option<nat>)
      requires MemoHolds() && Applies(Now(), AddDevice(d, owner, group))
      modifies this`devices, this`anyEnabled
      ensures MemoHolds()
      ensures Now() == Step(old(Now()), AddDevice(d, owner, group))
      ensures Performs(old(Now()), AddDevice(d, owner, group), Now())
    {
      StepPerforms(Now(), AddDevice(d, owner, group));
      WriteDevice(d, DeviceRow(owner, group, None, false));
    }

    /** A device update fires the hook only when owner or group changed. */
    method UpdateDevice(d: nat, owner: Option<nat>, group: Option<nat>)
      requires MemoHolds()
      modifies this`devices, this`anyEnabled
      ensures MemoHolds()
      ensures Now() == Step(old(Now()), MoveDevice(d, owner, group))
      ensures Performs(old(Now()), MoveDevice(d, owner, group), Now())
    {
      StepPerforms(Now(), MoveDevice(d, owner, group));
      if d !in devices {
        return;
      }
      if devices[d].owner != owner || devices[d].group != group {
        WriteDevice(d, devices[d].(owner := owner, group := group));
      }
    }
  }

  /** An assignment whose target and strategy were looked up is a console step. */
  lemma AssignPerforms(db: Db, t: Target, s: Option<nat>)
    requires Applies(db, AssignStrategy(t, s))
    ensures Console.AssignTo(db, t, s) == Step(db, AssignStrategy(t, s))
    ensures Performs(db, AssignStrategy(t, s), Console.AssignTo(db, t, s))
  {
    StepPerforms(db, AssignStrategy(t, s));
  }

  lemma AnyEnabledFrame(a: map<nat, Strategy>, b: map<nat, Strategy>)
    requires SameFlags(a, b)
    ensures AnyEnabled(a) == AnyEnabled(b)
  {
    if s :| s in a && a[s].enabled && !a[s].trashed {
      assert b[s].enabled && !b[s].trashed;
    }
    if s :| s in b && b[s].enabled && !b[s].trashed {
      assert a[s].enabled && !a[s].trashed;
    }
  }

  // ------------------------------------------------------------- inspector ---

  ghost predicate Lost(step: ExplainStep) {
    step.standing == Unset || step.standing == Unassigned || step.standing == Disabled
  }

  /** Step `i` is the one that applied; the levels above it lost, those below did not apply. */
  ghost predicate AppliedAt(steps: seq<ExplainStep>, i: int, winner: Option<nat>) {
    && 0 <= i < |steps| && steps[i] == ExplainStep(winner, Applied)
    && (forall j :: 0 <= j < i ==> Lost(steps[j]))
    && (forall j :: i < j < |steps| ==> steps[j].standing != Applied)
  }

  /** A level without a target is unset, one with nothing assigned is unassigned, one
      whose strategy is off is disabled, and any other applies or is overridden. */
  ghost predicate Reports(db: Db, step: ExplainStep, level: Level, id: Option<nat>) {
    && (step.standing == Unset <==> id.None?)
    && (step.standing == Unassigned <==> id.Some? && Target(level, id.value) !in db.assignments)
    && (id.Some? && Target(level, id.value) in db.assignments ==>
          && step.strategy == Some(db.assignments[Target(level, id.value)])
          && step.strategy.value in db.strategies
          && (step.standing == Disabled <==> !db.strategies[step.strategy.value].enabled))
  }

  /** The last step speaks of the default: unassigned if there is none, disabled if it is
      off. */
  ghost predicate ReportsDefault(db: Db, step: ExplainStep) {
    && step.standing != Unset
    && (step.standing == Unassigned <==> forall s :: s in db.strategies ==> !db.strategies[s].isDefault)
    && (step.standing != Unassigned ==>
          && step.strategy.Some? && step.strategy.value in db.strategies && db.strategies[step.strategy.value].isDefault
          && (step.standing == Disabled <==> !db.strategies[step.strategy.value].enabled))
  }

  lemma DefaultReports(db: Db, winner: Option<nat>)
    requires Shape(db)
    ensures var s := First(Defaults(db.strategies));
      ReportsDefault(db, ExplainStep(s, StandingOf(db, false, s, winner)))
  {
    forall s | s in db.strategies && db.strategies[s].isDefault
      ensures s in Defaults(db.strategies)
    {
      assert !db.strategies[s].trashed;
    }
  }

  lemma StandingReports(db: Db, level: Level, id: Option<nat>, winner: Option<nat>)
    requires Shape(db)
    ensures var s := FoundAt(db, level, id);
      Reports(db, ExplainStep(s, StandingOf(db, id.None?, s, winner)), level, id)
  {
  }

  /** The inspector's walk: exactly one step is applied when something wins, every
      level above it explains why it did not, and the winner is what the device
      resolves to. */
  method ExplainFor(db: Db, d: nat) returns (steps: seq<ExplainStep>, winner: Option<nat>)
    requires Shape(db) && d in db.devices
    ensures winner == Resolve(db, d)
    ensures |steps| == 4
    ensures winner.None? ==> forall i :: 0 <= i < 4 ==> Lost(steps[i])
    ensures winner.Some? ==> exists i :: AppliedAt(steps, i, winner)
    ensures forall i :: 0 <= i < 3 ==>
      Reports(db, steps[i], Candidates(d, db.devices[d])[i].0, Candidates(d, db.devices[d])[i].1)
    ensures ReportsDefault(db, steps[3])
  {
    var candidates := Candidates(d, db.devices[d]);
    steps, winner := [], None;
    ghost var at := 0;
    for n := 0 to |candidates|
      invariant |steps| == n
      invariant ExplainWalk(db, candidates, None) == ExplainWalk(db, candidates[n..], winner)
      invariant winner.None? ==> forall i :: 0 <= i < n ==> Lost(steps[i])
      invariant forall i :: 0 <= i < n ==> Reports(db, steps[i], candidates[i].0, candidates[i].1)
      invariant winner.Some? ==> AppliedAt(steps, at, winner)
    {
      var (level, id) := candidates[n];
      var s := FoundAt(db, level, id);
      var standing := StandingOf(db, id.None?, s, winner);
      StandingReports(db, level, id, winner);
      if standing == Applied {
        winner := s;
        at := n;
      }
      steps := steps + [ExplainStep(s, standing)];
    }
    var fallback := First(Defaults(db.strategies));
    var standing := StandingOf(db, false, fallback, winner);
    DefaultReports(db, winner);
    if standing == Applied {
      winner := fallback;
      at := 3;
    }
    steps := steps + [ExplainStep(fallback, standing)];
    assert winner.Some? ==> AppliedAt(steps, at, winner);
    ExplainAgrees(db, d);
  }
}
