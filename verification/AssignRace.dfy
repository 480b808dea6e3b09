/** Concurrent assignments. Pointing a target at a strategy is a deletion, an insertion
    and a re-resolution of every device it reaches, outside any transaction; requests
    interleave query by query. */
module AssignRace {
  import opened Options
  import opened Console
  import opened Coherence
  import opened Counting

  /** A device row as a request has loaded it. */
  datatype Seen = Seen(d: nat, row: DeviceRow)

  /** The query a request will issue next. */
  datatype Pc =
    | Clear(target: Target, strategy: Option<nat>)
    | Insert(target: Target, id: nat)
    | Fetch(target: Target)
    | Look(target: Target, todo: seq<Seen>, level: nat)
    | Save(target: Target, todo: seq<Seen>, found: Option<nat>)
    | Finished(target: Target)

  function Work(t: Target, todo: seq<Seen>): Pc {
    if todo == [] then Finished(t) else Look(t, todo, 0)
  }

  ghost predicate Listed(todo: seq<Seen>, d: nat) {
    exists i :: 0 <= i < |todo| && todo[i].d == d
  }

  /** The listed ids, in order, all of them in the table. */
  ghost predicate Ordered(db: Db, ids: seq<nat>) {
    && (forall i :: 0 <= i < |ids| ==> ids[i] in db.devices)
    && (forall i, j :: 0 <= i < j < |ids| ==> ids[i] < ids[j])
  }

  function Load(db: Db, ids: seq<nat>): (todo: seq<Seen>)
    requires Ordered(db, ids)
    ensures |todo| == |ids| && forall i :: 0 <= i < |ids| ==> todo[i] == Seen(ids[i], db.devices[ids[i]])
  {
    seq(|ids|, i requires 0 <= i < |ids| && ids[i] in db.devices => Seen(ids[i], db.devices[ids[i]]))
  }

  lemma AscendingIsOrdered(db: Db, ids: set<nat>)
    requires ids <= db.devices.Keys
    ensures Ordered(db, Ascending(ids))
    ensures forall i :: 0 <= i < |Ascending(ids)| ==> Ascending(ids)[i] in ids
  {
    AscendingIsEach(ids);
    RisingByIndex(Ascending(ids));
  }

  /** The rows a request loads for its target, ordered by id. */
  function Fetched(db: Db, t: Target): seq<Seen> {
    AscendingIsOrdered(db, Reached(db, t));
    Load(db, Ascending(Reached(db, t)))
  }

  lemma FetchedIsReached(db: Db, t: Target)
    ensures Current(db, t, Fetched(db, t))
    ensures forall d :: d in Reached(db, t) ==> Listed(Fetched(db, t), d)
  {
    var ids := Ascending(Reached(db, t));
    AscendingIsOrdered(db, Reached(db, t));
    forall d | d in Reached(db, t)
      ensures Listed(Fetched(db, t), d)
    {
      AscendingIsEach(Reached(db, t));
      var i := IndexOf(ids, d);
      assert Fetched(db, t)[i].d == d;
    }
  }

  /** One level of the walk, then the default. */
  function Probe(db: Db, seen: Seen, level: nat): Option<nat> {
    if level < 3 then
      var (l, id) := Candidates(seen.d, seen.row)[level];
      if id.Some? then EnabledAt(db, Target(l, id.value)) else None
    else First(EnabledDefaults(db.strategies))
  }

  /** Write the cached column when it differs from what was loaded. */
  function Store(db: Db, seen: Seen, found: Option<nat>): Db {
    if seen.d in db.devices && AsInt(seen.row.cached) != AsInt(found)
    then PutDevice(db, seen.d, db.devices[seen.d].(cached := found)) else db
  }

  function Turn(db: Db, pc: Pc): (Db, Pc) {
    match pc
    case Clear(t, s) => (Assign(db, t, None), if s.Some? then Insert(t, s.value) else Fetch(t))
    case Insert(t, s) =>
      // one row per target: a second insertion fails and ends the request
      if t in db.assignments then (db, Finished(t)) else (Assign(db, t, Some(s)), Fetch(t))
    case Fetch(t) =>
      (db, Work(t, Fetched(db, t)))
    case Look(t, todo, level) =>
      if todo == [] then (db, Finished(t))
      else if !AnyEnabled(db.strategies) then (db, Save(t, todo, None))
      else if Probe(db, todo[0], level).Some? || level >= 3 then (db, Save(t, todo, Probe(db, todo[0], level)))
      else (db, Look(t, todo, level + 1))
    case Save(t, todo, found) =>
      if todo == [] then (db, Finished(t)) else (Store(db, todo[0], found), Work(t, todo[1..]))
    case Finished(_) => (db, pc)
  }

  datatype World = World(db: Db, requests: seq<Pc>)

  /** Request `i` issues its next query. */
  function Next(w: World, i: nat): World {
    if i >= |w.requests| then w
    else
      var (db, pc) := Turn(w.db, w.requests[i]);
      World(db, w.requests[i := pc])
  }

  function Run(w: World, schedule: seq<nat>): World
    decreases |schedule|
  {
    if schedule == [] then w else Run(Next(w, schedule[0]), schedule[1..])
  }

  ghost predicate Over(w: World) {
    forall i :: 0 <= i < |w.requests| ==> w.requests[i].Finished?
  }

  // ------------------------------------------------ requests kept apart ---

  /** The loaded rows are still what the table says, and are the target's own. */
  ghost predicate Current(db: Db, t: Target, todo: seq<Seen>) {
    && (forall i :: 0 <= i < |todo| ==>
          todo[i].d in db.devices && todo[i].row == db.devices[todo[i].d] && Reaches(todo[i].d, todo[i].row, t))
    && (forall i, j :: 0 <= i < j < |todo| ==> todo[i].d != todo[j].d)
  }

  /** The levels above `level` have nothing enabled for the device. */
  ghost predicate NothingAbove(db: Db, seen: Seen, level: nat) {
    && level <= 3 && (level > 0 ==> AnyEnabled(db.strategies))
    && forall l :: 0 <= l < level ==> Probe(db, seen, l).None?
  }

  ghost predicate Sound(db: Db, pc: Pc) {
    match pc
    case Look(t, todo, level) => Current(db, t, todo) && todo != [] && NothingAbove(db, todo[0], level)
    case Save(t, todo, found) => Current(db, t, todo) && todo != [] && found == Resolve(db, todo[0].d)
    case Insert(t, _) => t !in db.assignments || forall d :: d in db.devices ==> !Reaches(d, db.devices[d], t)
    case _ => true
  }

  /** The request still has to bring the device up to date. */
  ghost predicate Owes(db: Db, pc: Pc, d: nat)
    requires d in db.devices
  {
    match pc
    case Clear(_, _) => false
    case Insert(t, _) => Reaches(d, db.devices[d], t)
    case Fetch(t) => Reaches(d, db.devices[d], t)
    case Look(_, todo, _) => Listed(todo, d)
    case Save(_, todo, _) => Listed(todo, d)
    case Finished(_) => false
  }

  ghost predicate Fresh(db: Db, d: nat)
    requires d in db.devices
  {
    db.devices[d].cached == Resolve(db, d)
  }

  /** The tables two moments of a race have in common. */
  ghost predicate SameRows(a: Db, b: Db) {
    && b == a.(assignments := b.assignments, devices := b.devices) && a.devices.Keys == b.devices.Keys
    && forall d :: d in a.devices && d in b.devices ==> b.devices[d] == a.devices[d].(cached := b.devices[d].cached)
  }

  /** What a query of a request can change. */
  lemma TurnChanges(db: Db, pc: Pc)
    ensures var db' := Turn(db, pc).0;
      && SameRows(db, db') && Turn(db, pc).1.target == pc.target
      && (forall t :: t != pc.target ==> (t in db'.assignments <==> t in db.assignments))
      && (forall t :: t != pc.target && t in db.assignments ==> db'.assignments[t] == db.assignments[t])
      && (pc.Look? || pc.Save? || pc.Fetch? || pc.Finished? ==> db'.assignments == db.assignments)
      && (!pc.Save? ==> db'.devices == db.devices)
      && (pc.Save? && pc.todo != [] ==>
            forall d :: d in db.devices && d != pc.todo[0].d ==> db'.devices[d] == db.devices[d])
  {
  }

  /** Resolution of a device sees only its own targets. */
  lemma SameTargets(a: Db, b: Db, d: nat)
    requires SameRows(a, b) && d in a.devices
    requires forall t :: Reaches(d, a.devices[d], t) ==>
      (t in a.assignments <==> t in b.assignments) && (t in a.assignments ==> a.assignments[t] == b.assignments[t])
    ensures Resolve(a, d) == Resolve(b, d)
    ensures forall l: nat, row :: row == a.devices[d] ==> Probe(a, Seen(d, row), l) == Probe(b, Seen(d, row), l)
  {
    ResolveFrame(a, b, d);
    var row := a.devices[d];
    assert Reaches(d, row, Target(OnDevice, d));
    assert row.owner.Some? ==> Reaches(d, row, Target(OnUser, row.owner.value));
    assert row.group.Some? ==> Reaches(d, row, Target(OnGroup, row.group.value));
  }

  /** A request leaves alone whatever its target does not reach. */
  lemma TurnFrame(db: Db, pc: Pc, d: nat)
    requires Sound(db, pc) && d in db.devices && !Reaches(d, db.devices[d], pc.target)
    ensures var db' := Turn(db, pc).0;
      && SameRows(db, db')
      && db'.devices[d] == db.devices[d]
      && Resolve(db', d) == Resolve(db, d)
      && forall l: nat, row :: row == db.devices[d] ==> Probe(db, Seen(d, row), l) == Probe(db', Seen(d, row), l)
  {
    TurnChanges(db, pc);
    SameTargets(db, Turn(db, pc).0, d);
  }

  lemma OwesOwn(db: Db, pc: Pc, d: nat)
    requires Sound(db, pc) && d in db.devices && Owes(db, pc, d)
    ensures Reaches(d, db.devices[d], pc.target)
  {
  }

  /** The walk's queries add up to the resolution. */
  lemma ProbesResolve(db: Db, seen: Seen, level: nat)
    requires seen.d in db.devices && seen.row.owner == db.devices[seen.d].owner && seen.row.group == db.devices[seen.d].group
    requires NothingAbove(db, seen, level) && AnyEnabled(db.strategies)
    requires Probe(db, seen, level).Some? || level == 3
    ensures Probe(db, seen, level) == Resolve(db, seen.d)
  {
    var c := Candidates(seen.d, seen.row);
    assert c == Candidates(seen.d, db.devices[seen.d]);
    assert c[1..][1..] == c[2..] && c[2..][1..] == c[3..] == [];
    assert Walk(db, c) == if Probe(db, seen, 0).Some? then Probe(db, seen, 0) else Walk(db, c[1..]);
    assert Walk(db, c[1..]) == if Probe(db, seen, 1).Some? then Probe(db, seen, 1) else Walk(db, c[2..]);
    assert Walk(db, c[2..]) == if Probe(db, seen, 2).Some? then Probe(db, seen, 2) else None;
  }

  ghost predicate Sane(db: Db) {
    0 !in db.strategies && NoZero(db)
  }

  /** Writing what a device resolves to brings it up to date and no other out of date. */
  lemma StoreIsRight(db: Db, seen: Seen)
    requires Sane(db) && seen.d in db.devices && seen.row == db.devices[seen.d]
    ensures var db' := Store(db, seen, Resolve(db, seen.d));
      && Sane(db') && Fresh(db', seen.d)
      && forall d :: d in db.devices ==> Resolve(db', d) == Resolve(db, d)
  {
    var db' := Store(db, seen, Resolve(db, seen.d));
    ResolveExists(db, seen.d);
    forall d | d in db.devices
      ensures Resolve(db', d) == Resolve(db, d)
    {
      SameTargets(db, db', d);
    }
  }

  /** A request keeps its own view sound. */
  lemma OwnSound(db: Db, pc: Pc)
    requires Sane(db) && Sound(db, pc)
    ensures Sane(Turn(db, pc).0) && Sound(Turn(db, pc).0, Turn(db, pc).1)
  {
    match pc
    case Clear(_, _) =>
    case Insert(_, _) =>
    case Fetch(t) => FetchedIsReached(db, t);
    case Look(t, todo, level) =>
      if AnyEnabled(db.strategies) && (Probe(db, todo[0], level).Some? || level >= 3) {
        ProbesResolve(db, todo[0], level);
      }
    case Save(t, todo, found) => StoreIsRight(db, todo[0]);
    case Finished(_) =>
  }

  /** A device its target reaches is up to date or owed, before and after. */
  lemma OwnTurn(db: Db, pc: Pc, d: nat)
    requires Sane(db) && Sound(db, pc) && d in db.devices && Reaches(d, db.devices[d], pc.target)
    requires Fresh(db, d) || Owes(db, pc, d)
    ensures var (db', pc') := Turn(db, pc); d in db'.devices && (Fresh(db', d) || Owes(db', pc', d))
  {
    match pc
    case Clear(_, _) =>
    case Insert(_, _) =>
    case Fetch(t) => FetchedIsReached(db, t);
    case Look(t, todo, level) =>
    case Save(t, todo, found) =>
      StoreIsRight(db, todo[0]);
      if d != todo[0].d && Listed(todo, d) {
        var i :| 0 <= i < |todo| && todo[i].d == d;
        assert todo[1..][i - 1].d == d;
      }
    case Finished(_) =>
  }

  /** No device is in the reach of two requests. */
  ghost predicate Apart(w: World) {
    forall i, j, d :: 0 <= i < j < |w.requests| && d in w.db.devices ==>
      !(Reaches(d, w.db.devices[d], w.requests[i].target) && Reaches(d, w.db.devices[d], w.requests[j].target))
  }

  ghost predicate UpToDateOrOwed(w: World, d: nat)
    requires d in w.db.devices
  {
    Fresh(w.db, d) || exists i :: 0 <= i < |w.requests| && Owes(w.db, w.requests[i], d)
  }

  ghost predicate Inv(w: World) {
    && Sane(w.db) && Apart(w)
    && (forall i :: 0 <= i < |w.requests| ==> Sound(w.db, w.requests[i]))
    && (forall d :: d in w.db.devices ==> UpToDateOrOwed(w, d))
  }

  /** A query of one request leaves the others' views sound. */
  lemma OthersSound(db: Db, pc: Pc, other: Pc)
    requires Sound(db, pc) && Sound(db, other)
    requires forall d :: d in db.devices ==>
      !(Reaches(d, db.devices[d], pc.target) && Reaches(d, db.devices[d], other.target))
    ensures Sound(Turn(db, pc).0, other)
  {
    TurnChanges(db, pc);
    if other.Look? || other.Save? {
      forall i | 0 <= i < |other.todo|
        ensures Turn(db, pc).0.devices[other.todo[i].d] == other.todo[i].row
      {
        TurnFrame(db, pc, other.todo[i].d);
      }
      TurnFrame(db, pc, other.todo[0].d);
    }
  }

  lemma NextApart(w: World, i: nat)
    requires Apart(w)
    ensures Apart(Next(w, i))
  {
    if i < |w.requests| {
      var next := Next(w, i);
      TurnChanges(w.db, w.requests[i]);
      assert forall k :: 0 <= k < |w.requests| ==> next.requests[k].target == w.requests[k].target;
      forall k, j, d | 0 <= k < j < |next.requests| && d in next.db.devices
        ensures !(Reaches(d, next.db.devices[d], next.requests[k].target) && Reaches(d, next.db.devices[d], next.requests[j].target))
      {
        assert Reaches(d, next.db.devices[d], w.requests[k].target) == Reaches(d, w.db.devices[d], w.requests[k].target);
      }
    }
  }

  lemma NextUpToDate(w: World, i: nat, d: nat)
    requires Inv(w) && i < |w.requests| && d in w.db.devices
    ensures d in Next(w, i).db.devices && UpToDateOrOwed(Next(w, i), d)
  {
    var pc, next := w.requests[i], Next(w, i);
    TurnChanges(w.db, pc);
    if Reaches(d, w.db.devices[d], pc.target) {
      if j :| 0 <= j < |w.requests| && Owes(w.db, w.requests[j], d) {
        OwesOwn(w.db, w.requests[j], d);
        assert j == i;
      }
      OwnTurn(w.db, pc, d);
      assert next.requests[i] == Turn(w.db, pc).1;
    } else {
      TurnFrame(w.db, pc, d);
      if j :| 0 <= j < |w.requests| && Owes(w.db, w.requests[j], d) {
        OwesOwn(w.db, w.requests[j], d);
        assert next.requests[j] == w.requests[j];
        assert Owes(next.db, next.requests[j], d);
      }
    }
  }

  lemma NextInv(w: World, i: nat)
    requires Inv(w)
    ensures Inv(Next(w, i))
  {
    if i < |w.requests| {
      var next := Next(w, i);
      NextApart(w, i);
      OwnSound(w.db, w.requests[i]);
      forall j | 0 <= j < |w.requests|
        ensures Sound(next.db, next.requests[j])
      {
        if j != i {
          OthersSound(w.db, w.requests[i], w.requests[j]);
        }
      }
      TurnChanges(w.db, w.requests[i]);
      forall d | d in next.db.devices
        ensures UpToDateOrOwed(next, d)
      {
        NextUpToDate(w, i, d);
      }
    }
  }

  lemma {:induction false} RunInv(w: World, schedule: seq<nat>)
    requires Inv(w)
    ensures Inv(Run(w, schedule))
    decreases |schedule|
  {
    if schedule != [] {
      NextInv(w, schedule[0]);
      RunInv(Next(w, schedule[0]), schedule[1..]);
    }
  }

  /** Requests about to start. */
  function Started(assignments: seq<(Target, Option<nat>)>): seq<Pc> {
    seq(|assignments|, i requires 0 <= i < |assignments| => Clear(assignments[i].0, assignments[i].1))
  }

  /** However the queries of any number of requests interleave: if no device is in the
      reach of two of them, then once they are over the cache is coherent. */
  lemma ApartEndsCoherent(db: Db, assignments: seq<(Target, Option<nat>)>, schedule: seq<nat>)
    requires 0 !in db.strategies && Coherent(db)
    requires Apart(World(db, Started(assignments)))
    requires Over(Run(World(db, Started(assignments)), schedule))
    ensures Coherent(Run(World(db, Started(assignments)), schedule).db)
  {
    var w := World(db, Started(assignments));
    forall d | d in db.devices
      ensures db.devices[d].cached != Some(0)
    {
      ResolveExists(db, d);
    }
    RunInv(w, schedule);
    var end := Run(w, schedule);
    forall d | d in end.db.devices
      ensures Fresh(end.db, d)
    {
      assert UpToDateOrOwed(end, d);
    }
  }

  // -------------------------------------------------- a request left alone ---

  /** `n` queries of one request with nobody in between. */
  function Solo(db: Db, pc: Pc, n: nat): (Db, Pc)
    decreases n
  {
    if n == 0 then (db, pc) else var (db', pc') := Turn(db, pc); Solo(db', pc', n - 1)
  }

  function Turns(i: nat, n: nat): seq<nat> {
    if n == 0 then [] else [i] + Turns(i, n - 1)
  }

  lemma {:induction false} TurnsAreSolo(w: World, i: nat, n: nat)
    requires i < |w.requests|
    ensures Run(w, Turns(i, n)) == World(Solo(w.db, w.requests[i], n).0, w.requests[i := Solo(w.db, w.requests[i], n).1])
    decreases n
  {
    if n == 0 {
      assert w.requests[i := w.requests[i]] == w.requests;
    } else {
      assert ([i] + Turns(i, n - 1))[1..] == Turns(i, n - 1);
      TurnsAreSolo(Next(w, i), i, n - 1);
    }
  }

  lemma {:induction false} SoloAppend(db: Db, pc: Pc, m: nat, n: nat)
    ensures Solo(db, pc, m + n) == Solo(Solo(db, pc, m).0, Solo(db, pc, m).1, n)
    decreases m
  {
    if m > 0 {
      SoloAppend(Turn(db, pc).0, Turn(db, pc).1, m - 1, n);
    }
  }

  /** The loaded rows name the right targets, even if their cached column is old. */
  ghost predicate Routed(db: Db, todo: seq<Seen>) {
    && (forall i :: 0 <= i < |todo| ==>
          && todo[i].d in db.devices
          && todo[i].row.owner == db.devices[todo[i].d].owner && todo[i].row.group == db.devices[todo[i].d].group)
    && (forall i, j :: 0 <= i < j < |todo| ==> todo[i].d != todo[j].d)
  }

  lemma RoutedTail(db: Db, todo: seq<Seen>, k: nat)
    requires Routed(db, todo) && k <= |todo|
    ensures Routed(db, todo[k..])
  {
  }

  lemma RoutedStill(a: Db, b: Db, todo: seq<Seen>)
    requires Routed(a, todo) && SameRows(a, b)
    ensures Routed(b, todo)
  {
  }

  lemma SameRowsTransitive(a: Db, b: Db, c: Db)
    requires SameRows(a, b) && SameRows(b, c)
    ensures SameRows(a, c)
  {
  }

  /** Alone, a walk finds what its device resolves to. */
  lemma {:induction false} SoloLook(db: Db, t: Target, todo: seq<Seen>, level: nat) returns (n: nat)
    requires Routed(db, todo) && todo != [] && NothingAbove(db, todo[0], level)
    ensures Solo(db, Look(t, todo, level), n) == (db, Save(t, todo, Resolve(db, todo[0].d)))
    decreases 3 - level
  {
    if !AnyEnabled(db.strategies) {
      n := 1;
    } else if Probe(db, todo[0], level).Some? || level == 3 {
      ProbesResolve(db, todo[0], level);
      n := 1;
    } else {
      n := SoloLook(db, t, todo, level + 1);
      n := n + 1;
    }
  }

  ghost predicate Among(todo: seq<Seen>, k: nat, d: nat) {
    exists i :: 0 <= i < k <= |todo| && todo[i].d == d
  }

  /** Only the cached column of the first `k` listed devices may differ. */
  ghost predicate OnlyCached(a: Db, b: Db, todo: seq<Seen>, k: nat) {
    && SameRows(a, b) && b.assignments == a.assignments
    && forall d :: d in a.devices && !Among(todo, k, d) ==> b.devices[d] == a.devices[d]
  }

  lemma AmongLater(todo: seq<Seen>, k: nat, d: nat)
    requires 0 < k <= |todo|
    ensures todo[0].d == d || Among(todo[1..], k - 1, d) ==> Among(todo, k, d)
  {
    if Among(todo[1..], k - 1, d) {
      var i :| 0 <= i < k - 1 <= |todo[1..]| && todo[1..][i].d == d;
      assert todo[i + 1].d == d;
    }
  }

  /** Storing the first row and then touching only the next ones touches only those. */
  lemma OnlyCachedCons(a: Db, stored: Db, b: Db, todo: seq<Seen>, k: nat)
    requires 0 < k <= |todo| && SameRows(a, stored) && stored.assignments == a.assignments
    requires forall d :: d in a.devices && d != todo[0].d ==> stored.devices[d] == a.devices[d]
    requires OnlyCached(stored, b, todo[1..], k - 1)
    ensures OnlyCached(a, b, todo, k)
  {
    SameRowsTransitive(a, stored, b);
    forall d | d in a.devices && !Among(todo, k, d)
      ensures b.devices[d] == a.devices[d]
    {
      AmongLater(todo, k, d);
    }
  }

  /** Alone, a request deals with the first row of its list. */
  lemma SoloHead(db: Db, t: Target, todo: seq<Seen>) returns (n: nat)
    requires Routed(db, todo) && todo != []
    ensures Solo(db, Work(t, todo), n) == (Store(db, todo[0], Resolve(db, todo[0].d)), Work(t, todo[1..]))
  {
    n := SoloLook(db, t, todo, 0);
    SoloAppend(db, Work(t, todo), n, 1);
    var save := Save(t, todo, Resolve(db, todo[0].d));
    assert Solo(db, save, 1) == Turn(db, save);
    n := n + 1;
  }

  lemma SoloChain(db: Db, pc: Pc, m: nat, db': Db, pc': Pc, n: nat, db'': Db, pc'': Pc)
    requires Solo(db, pc, m) == (db', pc') && Solo(db', pc', n) == (db'', pc'')
    ensures Solo(db, pc, m + n) == (db'', pc'')
  {
    SoloAppend(db, pc, m, n);
  }

  lemma StoreKeepsRows(db: Db, seen: Seen, found: Option<nat>)
    ensures var stored := Store(db, seen, found);
      && SameRows(db, stored) && stored.assignments == db.assignments
      && forall d :: d in db.devices && d != seen.d ==> stored.devices[d] == db.devices[d]
  {
  }

  /** Alone, a request works through its list. */
  lemma {:induction false} SoloThrough(db: Db, t: Target, todo: seq<Seen>, k: nat) returns (n: nat, end: Db)
    requires Routed(db, todo) && k <= |todo|
    ensures Solo(db, Work(t, todo), n) == (end, Work(t, todo[k..]))
    ensures OnlyCached(db, end, todo, k)
    decreases k
  {
    if k == 0 {
      n, end := 0, db;
      assert todo[0..] == todo;
    } else {
      var stored := Store(db, todo[0], Resolve(db, todo[0].d));
      StoreKeepsRows(db, todo[0], Resolve(db, todo[0].d));
      RoutedTail(db, todo, 1);
      RoutedStill(db, stored, todo[1..]);
      n, end := SoloThrough(stored, t, todo[1..], k - 1);
      OnlyCachedCons(db, stored, end, todo, k);
      assert todo[1..][k - 1..] == todo[k..];
      var m := SoloHead(db, t, todo);
      SoloChain(db, Work(t, todo), m, stored, Work(t, todo[1..]), n, end, Work(t, todo[k..]));
      n := m + n;
    }
  }

  lemma SoloAssign(db: Db, t: Target, s: Option<nat>) returns (n: nat)
    ensures Solo(db, Clear(t, s), n) == (Assign(db, t, s), Work(t, Fetched(Assign(db, t, s), t)))
  {
    var cleared, placed := Assign(db, t, None), Assign(db, t, s);
    if s.Some? {
      assert Assign(cleared, t, s).assignments == placed.assignments;
      assert Turn(cleared, Insert(t, s.value)) == (placed, Fetch(t));
      n := 3;
    } else {
      n := 2;
    }
    assert Solo(placed, Fetch(t), 1) == Turn(placed, Fetch(t));
    assert Solo(db, Clear(t, s), n) == Solo(cleared, Turn(db, Clear(t, s)).1, n - 1);
    if s.Some? {
      assert Solo(cleared, Insert(t, s.value), 2) == Solo(placed, Fetch(t), 1);
    }
  }

  /** Alone, a request comes to its end. */
  lemma SoloEnds(db: Db, t: Target, s: Option<nat>) returns (n: nat)
    ensures var (end, pc) := Solo(db, Clear(t, s), n);
      pc == Finished(t) && SameRows(db, end) && end.assignments == Assign(db, t, s).assignments
  {
    var placed := Assign(db, t, s);
    var todo := Fetched(placed, t);
    var m := SoloAssign(db, t, s);
    FetchedIsReached(placed, t);
    var end;
    n, end := SoloThrough(placed, t, todo, |todo|);
    SoloChain(db, Clear(t, s), m, placed, Work(t, todo), n, end, Finished(t));
    n := m + n;
  }

  // ------------------------------------------------ apart means one by one ---

  /** The target ends up as asked. */
  ghost predicate Holds(db: Db, t: Target, s: Option<nat>) {
    if s.Some? then t in db.assignments && db.assignments[t] == s.value else t !in db.assignments
  }

  ghost predicate OnCourse(db: Db, pc: Pc, s: Option<nat>) {
    match pc
    case Clear(_, strategy) => strategy == s
    case Insert(t, strategy) => s == Some(strategy) && t !in db.assignments
    case _ => Holds(db, pc.target, s)
  }

  ghost predicate DistinctTargets(assignments: seq<(Target, Option<nat>)>) {
    forall i, j :: 0 <= i < j < |assignments| ==> assignments[i].0 != assignments[j].0
  }

  ghost predicate Targeted(assignments: seq<(Target, Option<nat>)>, t: Target) {
    exists i :: 0 <= i < |assignments| && assignments[i].0 == t
  }

  ghost predicate SameAt(a: Db, b: Db, t: Target) {
    (t in a.assignments <==> t in b.assignments) && (t in a.assignments ==> a.assignments[t] == b.assignments[t])
  }

  lemma TargetedLater(assignments: seq<(Target, Option<nat>)>, t: Target)
    requires assignments != []
    ensures Targeted(assignments[1..], t) ==> Targeted(assignments, t)
  {
    if Targeted(assignments[1..], t) {
      var i :| 0 <= i < |assignments[1..]| && assignments[1..][i].0 == t;
      assert assignments[i + 1].0 == t;
    }
  }

  /** What the targets hold while the requests are under way. */
  ghost predicate Tracks(w: World, start: Db, assignments: seq<(Target, Option<nat>)>) {
    && |w.requests| == |assignments| && SameRows(start, w.db)
    && (forall i :: 0 <= i < |assignments| ==>
          w.requests[i].target == assignments[i].0 && OnCourse(w.db, w.requests[i], assignments[i].1))
    && (forall t :: !Targeted(assignments, t) ==> SameAt(start, w.db, t))
  }

  lemma OwnCourse(db: Db, pc: Pc, s: Option<nat>)
    requires OnCourse(db, pc, s)
    ensures OnCourse(Turn(db, pc).0, Turn(db, pc).1, s)
  {
  }

  lemma NextTracks(w: World, i: nat, start: Db, assignments: seq<(Target, Option<nat>)>)
    requires Tracks(w, start, assignments) && DistinctTargets(assignments)
    ensures Tracks(Next(w, i), start, assignments)
  {
    if i < |w.requests| {
      var next := Next(w, i);
      TurnChanges(w.db, w.requests[i]);
      OwnCourse(w.db, w.requests[i], assignments[i].1);
      forall j | 0 <= j < |assignments|
        ensures next.requests[j].target == assignments[j].0 && OnCourse(next.db, next.requests[j], assignments[j].1)
      {
        assert j != i ==> assignments[j].0 != w.requests[i].target;
      }
      forall t | !Targeted(assignments, t)
        ensures SameAt(start, next.db, t)
      {
        assert assignments[i].0 != t;
        assert SameAt(start, w.db, t);
      }
    }
  }

  lemma {:induction false} RunTracks(w: World, schedule: seq<nat>, start: Db, assignments: seq<(Target, Option<nat>)>)
    requires Tracks(w, start, assignments) && DistinctTargets(assignments)
    ensures Tracks(Run(w, schedule), start, assignments)
    decreases |schedule|
  {
    if schedule != [] {
      NextTracks(w, schedule[0], start, assignments);
      RunTracks(Next(w, schedule[0]), schedule[1..], start, assignments);
    }
  }

  /** The requests as console operations, one after the other. */
  function Serial(db: Db, assignments: seq<(Target, Option<nat>)>): Db
    decreases |assignments|
  {
    if assignments == [] then db
    else Serial(Step(db, AssignStrategy(assignments[0].0, assignments[0].1)), assignments[1..])
  }

  ghost predicate AllApply(db: Db, assignments: seq<(Target, Option<nat>)>) {
    forall i :: 0 <= i < |assignments| ==> Applies(db, AssignStrategy(assignments[i].0, assignments[i].1))
  }

  lemma AssignStep(db: Db, t: Target, s: Option<nat>)
    requires Shape(db) && Coherent(db) && Applies(db, AssignStrategy(t, s))
    ensures var next := Step(db, AssignStrategy(t, s));
      && Shape(next) && Coherent(next) && SameRows(db, next)
      && Holds(next, t, s) && forall u :: u != t ==> SameAt(db, next, u)
  {
    StepShape(db, AssignStrategy(t, s));
    StepCoherent(db, AssignStrategy(t, s));
  }

  lemma {:induction false} SerialHolds(db: Db, assignments: seq<(Target, Option<nat>)>)
    requires Shape(db) && Coherent(db) && AllApply(db, assignments) && DistinctTargets(assignments)
    ensures var end := Serial(db, assignments);
      && Coherent(end) && SameRows(db, end)
      && (forall i :: 0 <= i < |assignments| ==> Holds(end, assignments[i].0, assignments[i].1))
      && (forall t :: !Targeted(assignments, t) ==> SameAt(db, end, t))
    decreases |assignments|
  {
    if assignments != [] {
      var (t, s) := assignments[0];
      var rest := assignments[1..];
      var next := Step(db, AssignStrategy(t, s));
      AssignStep(db, t, s);
      forall i | 0 <= i < |rest|
        ensures Applies(next, AssignStrategy(rest[i].0, rest[i].1))
      {
        assert rest[i] == assignments[i + 1];
      }
      SerialHolds(next, rest);
      var end := Serial(db, assignments);
      assert !Targeted(rest, t);
      forall u | !Targeted(assignments, u)
        ensures SameAt(db, end, u)
      {
        assert assignments[0].0 != u;
        TargetedLater(assignments, u);
      }
    }
  }

  /** A coherent cache is determined by everything else. */
  lemma CoherentUnique(a: Db, b: Db)
    requires SameRows(a, b) && a.assignments == b.assignments && Coherent(a) && Coherent(b)
    ensures a == b
  {
    forall d | d in a.devices
      ensures a.devices[d] == b.devices[d]
    {
      SameTargets(a, b, d);
    }
    assert a.devices == b.devices;
  }

  /** Whatever the interleaving: requests for different targets with no device in the
      reach of two of them end exactly as if they had come one by one. */
  lemma ApartIsSerial(db: Db, assignments: seq<(Target, Option<nat>)>, schedule: seq<nat>)
    requires Shape(db) && Coherent(db) && AllApply(db, assignments) && DistinctTargets(assignments)
    requires Apart(World(db, Started(assignments)))
    requires Over(Run(World(db, Started(assignments)), schedule))
    ensures Run(World(db, Started(assignments)), schedule).db == Serial(db, assignments)
  {
    var w := World(db, Started(assignments));
    var end, serial := Run(w, schedule), Serial(db, assignments);
    ApartEndsCoherent(db, assignments, schedule);
    RunTracks(w, schedule, db, assignments);
    SerialHolds(db, assignments);
    forall t
      ensures SameAt(end.db, serial, t)
    {
      if Targeted(assignments, t) {
        var i :| 0 <= i < |assignments| && assignments[i].0 == t;
        assert end.requests[i].Finished?;
        assert OnCourse(end.db, end.requests[i], assignments[i].1);
      }
    }
    AgreeingMaps(end.db, serial);
    CoherentUnique(end.db, serial);
  }

  lemma AgreeingMaps(a: Db, b: Db)
    requires forall t :: SameAt(a, b, t)
    ensures a.assignments == b.assignments
  {
    assert forall t :: t in a.assignments ==> SameAt(a, b, t);
    assert forall t :: t in b.assignments ==> SameAt(a, b, t);
  }

  /** A request that finds what it had loaded writes nothing, whatever the column holds by
      now; and of two insertions for a target the second ends its request. */
  lemma NothingToWrite(db: Db, t: Target, todo: seq<Seen>, found: Option<nat>, s: nat)
    requires todo != []
    ensures todo[0].row.cached == found ==> Turn(db, Save(t, todo, found)).0 == db
    ensures t in db.assignments ==> Turn(db, Insert(t, s)) == (db, Finished(t))
  {
  }

  // ---------------------------------------------------- and otherwise not ---

  /** Two valid requests on tables with these device rows always end coherent. */
  ghost predicate AlwaysCoherent(rows: map<nat, DeviceRow>, t1: Target, t2: Target) {
    forall db, s1, s2, schedule :: MayRace(db, rows, t1, s1, t2, s2) ==>
      var end := Run(World(db, [Clear(t1, s1), Clear(t2, s2)]), schedule);
      Over(end) ==> Coherent(end.db)
  }

  ghost predicate MayRace(db: Db, rows: map<nat, DeviceRow>, t1: Target, s1: Option<nat>, t2: Target, s2: Option<nat>) {
    && db.devices.Keys == rows.Keys
    && (forall d :: d in rows ==> db.devices[d] == rows[d].(cached := db.devices[d].cached))
    && Shape(db) && Coherent(db)
    && Applies(db, AssignStrategy(t1, s1)) && Applies(db, AssignStrategy(t2, s2))
  }

  function Rank(t: Target): nat {
    match t.level
    case OnDevice => 0
    case OnUser => 1
    case OnGroup => 2
  }

  lemma ReachedOnce(d: nat, row: DeviceRow, t: Target, u: Target)
    requires Reaches(d, row, t) && Reaches(d, row, u) && Rank(t) == Rank(u)
    ensures t == u
  {
  }

  /** Precedence: the highest assigned target that reaches a device decides. */
  lemma TopWins(db: Db, d: nat, t: Target)
    requires d in db.devices && Reaches(d, db.devices[d], t) && EnabledAt(db, t).Some? && AnyEnabled(db.strategies)
    requires forall u :: u in db.assignments && Reaches(d, db.devices[d], u) ==> Rank(t) <= Rank(u)
    ensures Resolve(db, d) == EnabledAt(db, t)
  {
    var row := db.devices[d];
    var seen := Seen(d, row);
    assert t == Target(t.level, t.id);
    assert row.owner.Some? ==> Reaches(d, row, Target(OnUser, row.owner.value));
    assert Reaches(d, row, Target(OnDevice, d));
    ProbesResolve(db, seen, Rank(t));
  }

  const ON: Strategy := Strategy("", None, true, false, false, map[], false, None)

  /** Two enabled strategies and nothing assigned. */
  function Arena(rows: map<nat, DeviceRow>, ids: set<nat>): Db {
    Db(map[1 := ON, 2 := ON], [], map[], map d | d in rows :: rows[d].(cached := None), ids, ids)
  }

  lemma NothingResolves(db: Db, d: nat)
    requires d in db.devices && db.strategies == map[1 := ON, 2 := ON] && db.assignments == map[]
    ensures Resolve(db, d) == None
  {
    NothingAssigned(db, Candidates(d, db.devices[d]));
    assert EnabledDefaults(db.strategies) == {};
  }

  lemma ArenaIsCoherent(rows: map<nat, DeviceRow>, ids: set<nat>)
    ensures Shape(Arena(rows, ids)) && Coherent(Arena(rows, ids))
  {
    forall d | d in rows
      ensures Resolve(Arena(rows, ids), d) == None
    {
      NothingResolves(Arena(rows, ids), d);
    }
  }

  lemma PausesAt(db: Db, t: Target, todo: seq<Seen>, k: nat) returns (n: nat)
    requires Routed(db, todo) && k < |todo|
    ensures var (paused, pc) := Solo(db, Work(t, todo), n);
      && pc == Save(t, todo[k..], Resolve(db, todo[k].d))
      && SameRows(db, paused) && paused.assignments == db.assignments
  {
    var paused;
    n, paused := SoloThrough(db, t, todo, k);
    var m := SoloLook(paused, t, todo[k..], 0);
    SameTargets(db, paused, todo[k].d);
    SoloAppend(db, Work(t, todo), n, m);
    n := n + m;
  }

  lemma CurrentIsRouted(db: Db, t: Target, todo: seq<Seen>)
    requires Current(db, t, todo)
    ensures Routed(db, todo)
  {
  }

  lemma FetchedAt(db: Db, t: Target, d: nat) returns (k: nat)
    requires d in db.devices && Reaches(d, db.devices[d], t)
    ensures var todo := Fetched(db, t);
      k < |todo| && todo[k] == Seen(d, db.devices[d]) && Routed(db, todo) && Routed(db, todo[k..])
  {
    FetchedIsReached(db, t);
    assert d in Reached(db, t);
    k :| 0 <= k < |Fetched(db, t)| && Fetched(db, t)[k].d == d;
    CurrentIsRouted(db, t, Fetched(db, t));
    RoutedTail(db, Fetched(db, t), k);
  }

  /** A request gets as far as knowing what to write for the device, and pauses. */
  lemma Pauses(db: Db, t: Target, s: Option<nat>, d: nat) returns (n: nat, rest: seq<Seen>)
    requires d in db.devices && Reaches(d, db.devices[d], t)
    ensures var (paused, pc) := Solo(db, Clear(t, s), n);
      && pc == Save(t, rest, Resolve(Assign(db, t, s), d))
      && SameRows(db, paused) && paused.assignments == Assign(db, t, s).assignments
      && Routed(db, rest) && rest != [] && rest[0] == Seen(d, db.devices[d])
  {
    var placed := Assign(db, t, s);
    var todo := Fetched(placed, t);
    var k := FetchedAt(placed, t, d);
    var a := SoloAssign(db, t, s);
    n := PausesAt(placed, t, todo, k);
    rest := todo[k..];
    SoloAppend(db, Clear(t, s), a, n);
    n := a + n;
  }

  lemma SoloSave(db: Db, t: Target, rest: seq<Seen>, found: Option<nat>, n: nat)
    requires rest != []
    ensures Solo(db, Save(t, rest, found), n + 1) == Solo(Store(db, rest[0], found), Work(t, rest[1..]), n)
  {
  }

  /** It wakes up, writes what it knew and comes to its end. */
  lemma WakesUp(db: Db, t: Target, rest: seq<Seen>, found: Option<nat>) returns (n: nat)
    requires Routed(db, rest) && rest != [] && AsInt(rest[0].row.cached) != AsInt(found)
    ensures var (end, pc) := Solo(db, Save(t, rest, found), n);
      && pc == Finished(t) && SameRows(db, end) && end.assignments == db.assignments
      && rest[0].d in end.devices && end.devices[rest[0].d].cached == found
  {
    var stored, left := Store(db, rest[0], found), rest[1..];
    StoreKeepsRows(db, rest[0], found);
    RoutedTail(db, rest, 1);
    RoutedStill(db, stored, left);
    var end;
    n, end := SoloThrough(stored, t, left, |left|);
    assert !Among(left, |left|, rest[0].d);
    SameRowsTransitive(db, stored, end);
    SoloSave(db, t, rest, found, n);
    n := n + 1;
  }

  lemma {:induction false} RunAppend(w: World, a: seq<nat>, b: seq<nat>)
    ensures Run(w, a + b) == Run(Run(w, a), b)
    decreases |a|
  {
    if a == [] {
      assert a + b == b;
    } else {
      assert (a + b)[1..] == a[1..] + b;
      RunAppend(Next(w, a[0]), a[1..], b);
    }
  }

  /** One of two requests acts, then the other, then the first again. */
  lemma ThreePhases(w: World, late: nat, n: nat, m: nat, k: nat) returns (schedule: seq<nat>)
    requires |w.requests| == 2 && late < 2
    ensures var (db1, pc1) := Solo(w.db, w.requests[late], n);
      var (db2, pc2) := Solo(db1, w.requests[1 - late], m);
      var (db3, pc3) := Solo(db2, pc1, k);
      Run(w, schedule) == World(db3, if late == 0 then [pc3, pc2] else [pc2, pc3])
  {
    var other := 1 - late;
    TurnsAreSolo(w, late, n);
    var w1 := Run(w, Turns(late, n));
    TurnsAreSolo(w1, other, m);
    var w2 := Run(w1, Turns(other, m));
    TurnsAreSolo(w2, late, k);
    schedule := Turns(late, n) + Turns(other, m) + Turns(late, k);
    RunAppend(w, Turns(late, n), Turns(other, m));
    RunAppend(w, Turns(late, n) + Turns(other, m), Turns(late, k));
  }

  /** Two requests, the late one for `lo`, in the order of their arrival. */
  function Pair(lo: Target, hi: Target, s: Option<nat>, late: nat): seq<Pc> {
    if late == 0 then [Clear(lo, Some(2)), Clear(hi, s)] else [Clear(hi, s), Clear(lo, Some(2))]
  }

  /** One request pauses before its write while another comes and goes. */
  lemma PauseAndWake(db: Db, lo: Target, hi: Target, s: Option<nat>, d: nat) returns (n: nat, m: nat, k: nat)
    requires d in db.devices && Reaches(d, db.devices[d], lo) && db.devices[d].cached == None
    requires Resolve(Assign(db, lo, Some(2)), d) == Some(2)
    ensures var (db1, pc1) := Solo(db, Clear(lo, Some(2)), n);
      var (db2, pc2) := Solo(db1, Clear(hi, s), m);
      var (db3, pc3) := Solo(db2, pc1, k);
      && pc2.Finished? && pc3.Finished? && SameRows(db, db3) && d in db3.devices && db3.devices[d].cached == Some(2)
      && db3.assignments == Assign(Assign(db, lo, Some(2)), hi, s).assignments
  {
    var rest;
    n, rest := Pauses(db, lo, Some(2), d);
    var db1 := Solo(db, Clear(lo, Some(2)), n).0;
    m := SoloEnds(db1, hi, s);
    var db2 := Solo(db1, Clear(hi, s), m).0;
    SameRowsTransitive(db, db1, db2);
    RoutedStill(db, db2, rest);
    k := WakesUp(db2, lo, rest, Some(2));
    SameRowsTransitive(db, db2, Solo(db2, Save(lo, rest, Some(2)), k).0);
  }

  lemma LateWrite(db: Db, lo: Target, hi: Target, s: Option<nat>, d: nat, late: nat) returns (schedule: seq<nat>)
    requires late < 2 && d in db.devices && Reaches(d, db.devices[d], lo) && db.devices[d].cached == None
    requires Resolve(Assign(db, lo, Some(2)), d) == Some(2)
    ensures var end := Run(World(db, Pair(lo, hi, s, late)), schedule);
      && Over(end) && SameRows(db, end.db)
      && end.db.assignments == Assign(Assign(db, lo, Some(2)), hi, s).assignments
      && end.db.devices[d].cached == Some(2)
  {
    var n, m, k := PauseAndWake(db, lo, hi, s, d);
    schedule := ThreePhases(World(db, Pair(lo, hi, s, late)), late, n, m, k);
  }

  /** Two requests that reach one device, the other not below the late one, can leave
      its cached strategy stale. */
  lemma LateWriteIsStale(rows: map<nat, DeviceRow>, lo: Target, hi: Target, d: nat, late: nat)
      returns (s: Option<nat>, schedule: seq<nat>)
    requires late < 2 && d in rows && Reaches(d, rows[d], lo) && Reaches(d, rows[d], hi) && Rank(hi) <= Rank(lo)
    ensures var db := Arena(rows, {lo.id, hi.id});
      var end := Run(World(db, Pair(lo, hi, s, late)), schedule);
      && Applies(db, AssignStrategy(lo, Some(2))) && Applies(db, AssignStrategy(hi, s))
      && Over(end) && !Coherent(end.db)
  {
    var db := Arena(rows, {lo.id, hi.id});
    s := if lo == hi then None else Some(1);
    var row := db.devices[d];
    assert Reaches(d, row, lo) && Reaches(d, row, hi);
    assert db.strategies[2].enabled && !db.strategies[2].trashed;
    var placed := Assign(db, lo, Some(2));
    TopWins(placed, d, lo);
    schedule := LateWrite(db, lo, hi, s, d, late);
    var end := Run(World(db, Pair(lo, hi, s, late)), schedule).db;
    if lo == hi {
      assert end.assignments == map[];
      NothingResolves(end, d);
    } else {
      assert Rank(hi) < Rank(lo) by {
        if Rank(hi) == Rank(lo) { ReachedOnce(d, row, lo, hi); }
      }
      TopWins(end, d, hi);
    }
    assert end.devices[d].cached != Resolve(end, d);
  }

  ghost predicate Overlap(rows: map<nat, DeviceRow>, t1: Target, t2: Target) {
    exists d :: d in rows && Reaches(d, rows[d], t1) && Reaches(d, rows[d], t2)
  }

  lemma OverlapCanGoStale(rows: map<nat, DeviceRow>, t1: Target, t2: Target)
    requires Overlap(rows, t1, t2)
    ensures !AlwaysCoherent(rows, t1, t2)
  {
    var d :| d in rows && Reaches(d, rows[d], t1) && Reaches(d, rows[d], t2);
    var db := Arena(rows, {t1.id, t2.id});
    ArenaIsCoherent(rows, {t1.id, t2.id});
    assert {t2.id, t1.id} == {t1.id, t2.id};
    if Rank(t2) <= Rank(t1) {
      var s, schedule := LateWriteIsStale(rows, t1, t2, d, 0);
      assert MayRace(db, rows, t1, Some(2), t2, s);
    } else {
      var s, schedule := LateWriteIsStale(rows, t2, t1, d, 1);
      assert MayRace(db, rows, t1, s, t2, Some(2));
    }
  }

  /** Assignments run in no transaction: two of them end with a coherent cache on every
      schedule if and only if no device is in the reach of both. */
  lemma RaceIsSafeIffApart(rows: map<nat, DeviceRow>, t1: Target, t2: Target)
    ensures AlwaysCoherent(rows, t1, t2) <==> !Overlap(rows, t1, t2)
  {
    if Overlap(rows, t1, t2) {
      OverlapCanGoStale(rows, t1, t2);
    } else {
      forall db, s1, s2, schedule | MayRace(db, rows, t1, s1, t2, s2) &&
          Over(Run(World(db, [Clear(t1, s1), Clear(t2, s2)]), schedule))
        ensures Coherent(Run(World(db, [Clear(t1, s1), Clear(t2, s2)]), schedule).db)
      {
        var assignments := [(t1, s1), (t2, s2)];
        assert Started(assignments) == [Clear(t1, s1), Clear(t2, s2)];
        assert forall d :: d in db.devices ==>
          Reaches(d, db.devices[d], t1) == Reaches(d, rows[d], t1) && Reaches(d, db.devices[d], t2) == Reaches(d, rows[d], t2);
        ApartEndsCoherent(db, assignments, schedule);
      }
    }
  }
}
