/** The lifecycle of audited remote sessions: opened and closed by the client,
    disconnected at an operator's request, reconciled against each heartbeat, and
    swept when a device falls silent. */
module Sessions {
  import opened Options

  const DISCONNECT_RETRY_SECONDS: int := 60
  const RECONCILE_GRACE_SECONDS: int := 90
  const STALE_AFTER_SECONDS: int := 300

  datatype Session = Session(
    device: string,
    conn: int,
    createdAt: int,
    closedAt: Option<int>,
    requestedAt: Option<int>,
    sentAt: Option<int>)

  type Table = map<nat, Session>

  // --------------------------------------------------------------- queries ---

  predicate IsOpen(s: Session) { s.closedAt.None? }

  /** The rows a heartbeat's list of live connections says are over. */
  predicate IsGone(s: Session, device: string, live: set<int>, now: int) {
    s.device == device && IsOpen(s) && s.createdAt < now - RECONCILE_GRACE_SECONDS && s.conn !in live
  }

  function Reconcile(t: Table, device: string, live: set<int>, now: int): Table {
    map id | id in t :: if IsGone(t[id], device, live, now) then t[id].(closedAt := Some(now)) else t[id]
  }

  predicate IsDue(s: Session, device: string, now: int) {
    && s.device == device && IsOpen(s) && s.requestedAt.Some?
    && (s.sentAt.None? || s.sentAt.value < now - DISCONNECT_RETRY_SECONDS)
  }

  /** The sessions this device is told to close now. */
  function Due(t: Table, device: string, now: int): set<nat> {
    set id | id in t && IsDue(t[id], device, now)
  }

  function Instruct(t: Table, ids: set<nat>, now: int): Table {
    map id | id in t :: if id in ids then t[id].(sentAt := Some(now)) else t[id]
  }

  predicate IsStale(s: Session, heartbeating: set<string>, now: int) {
    IsOpen(s) && s.createdAt < now - STALE_AFTER_SECONDS && s.device !in heartbeating
  }

  function CloseStale(t: Table, heartbeating: set<string>, now: int): Table {
    map id | id in t :: if IsStale(t[id], heartbeating, now) then t[id].(closedAt := Some(now)) else t[id]
  }

  function Request(t: Table, id: nat, now: int): Table {
    if id in t && IsOpen(t[id]) then t[id := t[id].(requestedAt := Some(now), sentAt := None)] else t
  }

  /** The newest open row of a connection. */
  predicate IsLatestOpen(t: Table, device: string, conn: int, id: nat) {
    && id in t && t[id].device == device && t[id].conn == conn && IsOpen(t[id])
    && forall other :: other in t && t[other].device == device && t[other].conn == conn && IsOpen(t[other]) ==> other <= id
  }

  /** The audit table, updated in place. */
  class AuditConnections {
    var table: Table

    constructor ()
      ensures table == map[]
    {
      table := map[];
    }

    /** Close exactly this device's open sessions past the grace that it does not list. */
    method ReconcileFor(device: string, live: set<int>, now: int) returns (closed: nat)
      modifies this
      ensures table == Reconcile(old(table), device, live, now)
      ensures forall id :: id in table ==>
        (IsOpen(old(table)[id]) && !IsOpen(table[id]) <==> IsGone(old(table)[id], device, live, now))
      ensures closed == |set id | id in old(table) && IsGone(old(table)[id], device, live, now)|
    {
      var gone := set id | id in table && IsGone(table[id], device, live, now);
      table := map id | id in table :: if id in gone then table[id].(closedAt := Some(now)) else table[id];
      closed := |gone|;
    }

    /** The connections to close, marked as told in the same breath. */
    method PendingDisconnectsFor(device: string, now: int) returns (conns: set<int>)
      modifies this
      ensures table == Instruct(old(table), Due(old(table), device, now), now)
      ensures conns == set id | id in Due(old(table), device, now) :: old(table)[id].conn
      ensures Due(table, device, now) == {}
    {
      var due := set id | id in table && IsDue(table[id], device, now);
      conns := set id | id in due :: table[id].conn;
      if due != {} {
        table := map id | id in table :: if id in due then table[id].(sentAt := Some(now)) else table[id];
      }
      assert table == Instruct(old(table), due, now);
    }

    /** Close sessions of devices that are not heartbeating. */
    method CloseStaleSessions(lastSeen: map<string, int>, now: int) returns (closed: nat)
      modifies this
      ensures table == CloseStale(old(table), Heartbeating(lastSeen, now), now)
      ensures forall id :: id in table && IsOpen(table[id]) ==>
        || table[id].createdAt >= now - STALE_AFTER_SECONDS
        || (table[id].device in lastSeen && lastSeen[table[id].device] >= now - STALE_AFTER_SECONDS)
      ensures closed == |set id | id in old(table) && IsOpen(old(table)[id]) && !IsOpen(table[id])|
    {
      var heartbeating := Heartbeating(lastSeen, now);
      var stale := set id | id in table && IsStale(table[id], heartbeating, now);
      table := map id | id in table :: if id in stale then table[id].(closedAt := Some(now)) else table[id];
      closed := |stale|;
      assert stale == set id | id in old(table) && IsOpen(old(table)[id]) && !IsOpen(table[id]);
    }

    /** An operator asks for a session to end; a closed one is left alone. */
    method Disconnect(id: nat, now: int)
      modifies this
      ensures table == Request(old(table), id, now)
    {
      if id !in table || table[id].closedAt.Some? {
        return;
      }
      table := table[id := table[id].(requestedAt := Some(now), sentAt := None)];
    }
  }

  // ------------------------------------------------------------------ runs ---

  datatype Event = Requested(id: nat) | Instructed(ids: set<nat>, at: int)

  /** `devices` are the ids with a row that is not recycled; a recycled row keeps the
      time it was last seen. */
  datatype World = World(table: Table, devices: set<string>, lastSeen: map<string, int>, now: int, log: seq<Event>)

  datatype Op =
    | Wait(seconds: nat)
    | Opened(id: nat, device: string, conn: int)
    | ClientClosed(device: string, conn: int, id: nat)
    | OperatorAsks(id: nat)
    | Heartbeat(device: string, live: set<int>)
    | Register(device: string)
    | Recycle(device: string)
    | Restore(device: string)
    | Sweep

  function Heartbeating(lastSeen: map<string, int>, now: int): set<string> {
    set d | d in lastSeen && lastSeen[d] >= now - STALE_AFTER_SECONDS
  }

  /** When the devices a query finds were last seen. */
  function Visible(w: World): map<string, int> {
    map d | d in w.lastSeen && d in w.devices :: w.lastSeen[d]
  }

  function Next(w: World, op: Op): World {
    match op
    case Wait(seconds) => w.(now := w.now + seconds)
    case Opened(id, device, conn) =>
      if id in w.table then w
      else w.(table := w.table[id := Session(device, conn, w.now, None, None, None)])
    case ClientClosed(device, conn, id) =>
      if IsLatestOpen(w.table, device, conn, id)
      then w.(table := w.table[id := w.table[id].(closedAt := Some(w.now))]) else w
    case OperatorAsks(id) =>
      if id in w.table && IsOpen(w.table[id])
      then w.(table := Request(w.table, id, w.now), log := w.log + [Requested(id)]) else w
    case Heartbeat(device, live) =>
      // an unknown or recycled device is turned away before anything is reconciled
      if device !in w.devices then w else
      var t := Reconcile(w.table, device, live, w.now);
      var due := Due(t, device, w.now);
      w.(table := Instruct(t, due, w.now),
         lastSeen := w.lastSeen[device := w.now],
         log := w.log + [Instructed(due, w.now)])
    case Register(device) => w.(devices := w.devices + {device}, lastSeen := w.lastSeen[device := w.now])
    case Recycle(device) => w.(devices := w.devices - {device})
    case Restore(device) => w.(devices := w.devices + {device})
    case Sweep => w.(table := CloseStale(w.table, Heartbeating(Visible(w), w.now), w.now))
  }

  function Run(w: World, ops: seq<Op>): World
    decreases |ops|
  {
    if ops == [] then w else Run(Next(w, ops[0]), ops[1..])
  }

  const START: World := World(map[], {}, map[], 0, [])

  // ------------------------------------------------- closed means closed ---

  ghost predicate Frozen(w: World, later: World, id: nat)
    requires id in w.table
  {
    && id in later.table && later.table[id] == w.table[id]
    && w.log <= later.log
    && forall i :: |w.log| <= i < |later.log| ==> later.log[i].Instructed? ==> id !in later.log[i].ids
  }

  /** A closed session is never reopened or re-stamped, nor told to disconnect, nor
      asked to be: its row never changes again. */
  lemma {:induction false} ClosedIsFrozen(w: World, ops: seq<Op>, id: nat)
    requires id in w.table && !IsOpen(w.table[id])
    ensures Frozen(w, Run(w, ops), id)
    decreases |ops|
  {
    if ops != [] {
      var m := Next(w, ops[0]);
      assert Frozen(w, m, id);
      ClosedIsFrozen(m, ops[1..], id);
    }
  }

  // -------------------------------------------------------- retry spacing ---

  ghost predicate Told(log: seq<Event>, i: int, id: nat) {
    0 <= i < |log| && log[i].Instructed? && id in log[i].ids
  }

  ghost predicate AskedBetween(log: seq<Event>, i: int, j: int, id: nat) {
    exists k :: i < k < j && 0 <= k < |log| && log[k] == Requested(id)
  }

  /** A session told to close and not asked about since remembers when it was told. */
  ghost predicate Remembers(w: World) {
    forall i, id :: Told(w.log, i, id) ==>
      id in w.table &&
      (AskedBetween(w.log, i, |w.log|, id) ||
       (w.table[id].sentAt.Some? && w.table[id].sentAt.value >= w.log[i].at))
  }

  /** Between two operator requests a session is told at intervals over a minute. */
  ghost predicate Spaced(log: seq<Event>) {
    forall i, j, id :: Told(log, i, id) && Told(log, j, id) && i < j ==>
      AskedBetween(log, i, j, id) || log[j].at - log[i].at > 60
  }

  lemma QuietOp(w: World, op: Op)
    requires Remembers(w) && Spaced(w.log) && !op.OperatorAsks? && !op.Heartbeat?
    ensures Remembers(Next(w, op)) && Spaced(Next(w, op).log)
  {
  }

  lemma AskedStays(log: seq<Event>, e: Event, i: int, j: int, id: nat)
    requires AskedBetween(log, i, j, id) && j <= |log|
    ensures AskedBetween(log + [e], i, j, id) && AskedBetween(log + [e], i, j + 1, id)
  {
    var k :| i < k < j && 0 <= k < |log| && log[k] == Requested(id);
    assert (log + [e])[k] == Requested(id);
  }

  lemma AskOp(w: World, id: nat)
    requires Remembers(w) && Spaced(w.log) && id in w.table && IsOpen(w.table[id])
    ensures Remembers(Next(w, OperatorAsks(id))) && Spaced(Next(w, OperatorAsks(id)).log)
  {
    var next := Next(w, OperatorAsks(id));
    var n := |w.log|;
    assert next.log[n] == Requested(id);
    forall i, other | Told(next.log, i, other)
      ensures other in next.table
      ensures AskedBetween(next.log, i, n + 1, other) ||
              (next.table[other].sentAt.Some? && next.table[other].sentAt.value >= next.log[i].at)
    {
      assert Told(w.log, i, other);
      if AskedBetween(w.log, i, n, other) {
        AskedStays(w.log, Requested(id), i, n, other);
      }
    }
    forall i, j, other | Told(next.log, i, other) && Told(next.log, j, other) && i < j
      ensures AskedBetween(next.log, i, j, other) || next.log[j].at - next.log[i].at > DISCONNECT_RETRY_SECONDS
    {
      assert Told(w.log, i, other) && Told(w.log, j, other);
      if AskedBetween(w.log, i, j, other) {
        AskedStays(w.log, Requested(id), i, j, other);
      }
    }
  }

  lemma BeatOp(w: World, device: string, live: set<int>)
    requires device in w.devices && Remembers(w) && Spaced(w.log)
    ensures Remembers(Next(w, Heartbeat(device, live))) && Spaced(Next(w, Heartbeat(device, live)).log)
  {
    var next := Next(w, Heartbeat(device, live));
    var n := |w.log|;
    var told := next.log[n];
    forall i, id | Told(next.log, i, id)
      ensures id in next.table
      ensures AskedBetween(next.log, i, n + 1, id) ||
              (next.table[id].sentAt.Some? && next.table[id].sentAt.value >= next.log[i].at)
    {
      if i < n {
        assert Told(w.log, i, id);
        if AskedBetween(w.log, i, n, id) {
          AskedStays(w.log, told, i, n, id);
        }
      }
    }
    forall i, j, id | Told(next.log, i, id) && Told(next.log, j, id) && i < j
      ensures AskedBetween(next.log, i, j, id) || next.log[j].at - next.log[i].at > DISCONNECT_RETRY_SECONDS
    {
      assert Told(w.log, i, id);
      assert j < n ==> Told(w.log, j, id);
      if AskedBetween(w.log, i, j, id) {
        AskedStays(w.log, told, i, j, id);
      }
    }
  }

  lemma {:induction false} RunIsSpaced(w: World, ops: seq<Op>)
    requires Remembers(w) && Spaced(w.log)
    ensures Remembers(Run(w, ops)) && Spaced(Run(w, ops).log)
    decreases |ops|
  {
    if ops != [] {
      match ops[0] {
        case OperatorAsks(id) => if id in w.table && IsOpen(w.table[id]) { AskOp(w, id); }
        case Heartbeat(device, live) => if device in w.devices { BeatOp(w, device, live); }
        case _ => QuietOp(w, ops[0]);
      }
      RunIsSpaced(Next(w, ops[0]), ops[1..]);
    }
  }

  /** On every run: however often a device beats, a session is told to disconnect
      again only after more than a minute, unless an operator asked anew. */
  lemma RetriesAreSpaced(ops: seq<Op>)
    ensures Spaced(Run(START, ops).log)
  {
    RunIsSpaced(START, ops);
  }

  // -------------------------------------------------------- told exactly ---

  ghost predicate Asked(log: seq<Event>, id: nat) {
    exists k :: 0 <= k < |log| && log[k] == Requested(id)
  }

  /** When the session was last told to disconnect, unless it was asked for anew since. */
  function LastTold(log: seq<Event>, id: nat): Option<int> {
    if log == [] then None
    else
      var last := log[|log| - 1];
      if last == Requested(id) then None
      else if last.Instructed? && id in last.ids then Some(last.at)
      else LastTold(log[..|log| - 1], id)
  }

  /** The columns say what the log says. */
  ghost predicate LedgerHolds(w: World) {
    && (forall id :: id in w.table ==> (w.table[id].requestedAt.Some? <==> Asked(w.log, id)))
    && (forall id :: id in w.table ==> w.table[id].sentAt == LastTold(w.log, id))
    && (forall id :: id !in w.table ==> !Asked(w.log, id) && LastTold(w.log, id) == None)
  }

  function ToldAfter(told: Option<int>, e: Event, id: nat): Option<int> {
    if e == Requested(id) then None else if e.Instructed? && id in e.ids then Some(e.at) else told
  }

  lemma LogOne(log: seq<Event>, e: Event, id: nat)
    ensures Asked(log + [e], id) <==> Asked(log, id) || e == Requested(id)
    ensures LastTold(log + [e], id) == ToldAfter(LastTold(log, id), e, id)
  {
    var all := log + [e];
    assert all[..|log|] == log && all[|log|] == e;
    if k :| 0 <= k < |log| && log[k] == Requested(id) {
      assert all[k] == Requested(id);
    }
  }

  /** What one entry of the log does to every session's account. */
  lemma LogAll(log: seq<Event>, e: Event)
    ensures forall id :: Asked(log + [e], id) <==> Asked(log, id) || e == Requested(id)
    ensures forall id :: LastTold(log + [e], id) == ToldAfter(LastTold(log, id), e, id)
  {
    forall id
      ensures Asked(log + [e], id) <==> Asked(log, id) || e == Requested(id)
      ensures LastTold(log + [e], id) == ToldAfter(LastTold(log, id), e, id)
    {
      LogOne(log, e, id);
    }
  }

  lemma LedgerBeat(w: World, device: string, live: set<int>)
    requires LedgerHolds(w) && device in w.devices
    ensures LedgerHolds(Next(w, Heartbeat(device, live)))
  {
    LogAll(w.log, Instructed(Due(Reconcile(w.table, device, live, w.now), device, w.now), w.now));
  }

  lemma LedgerNext(w: World, op: Op)
    requires LedgerHolds(w) && !op.Heartbeat?
    ensures LedgerHolds(Next(w, op))
  {
    if op.OperatorAsks? {
      LogAll(w.log, Requested(op.id));
    }
  }

  lemma {:induction false} LedgerRun(w: World, ops: seq<Op>)
    requires LedgerHolds(w)
    ensures LedgerHolds(Run(w, ops))
    decreases |ops|
  {
    if ops != [] {
      if !ops[0].Heartbeat? {
        LedgerNext(w, ops[0]);
      } else if ops[0].device in w.devices {
        LedgerBeat(w, ops[0].device, ops[0].live);
      }
      LedgerRun(Next(w, ops[0]), ops[1..]);
    }
  }

  /** On every run a heartbeat tells a session to disconnect exactly when it is the
      heartbeat of its own, known device, the session is open and still listed or
      under 90 s old, an operator asked for it, and since the last request it was told
      never or more than 60 s ago. */
  lemma ToldExactly(ops: seq<Op>, device: string, live: set<int>, id: nat)
    ensures var w := Run(START, ops);
      Told(Next(w, Heartbeat(device, live)).log, |w.log|, id) <==>
        && device in w.devices && id in w.table && w.table[id].device == device && IsOpen(w.table[id])
        && (w.table[id].conn in live || w.now - w.table[id].createdAt <= 90)
        && Asked(w.log, id)
        && (LastTold(w.log, id).None? || w.now - LastTold(w.log, id).value > 60)
  {
    LedgerRun(START, ops);
  }

  // ------------------------------------------------------- nothing lingers ---

  ghost predicate HeardSince(w: World, device: string, since: int) {
    device in w.devices && device in w.lastSeen && w.lastSeen[device] >= since
  }

  /** After a sweep, whatever happened before, every open session is young or on a
      device heard from lately; and the sweep closed nothing else. */
  lemma SweepLeavesTheLiving(w: World, id: nat)
    requires id in w.table
    ensures var swept := Next(w, Sweep);
      IsOpen(swept.table[id]) <==>
        && IsOpen(w.table[id])
        && (w.now - w.table[id].createdAt <= 300 || HeardSince(w, w.table[id].device, w.now - 300))
  {
  }

  /** Every open session of the device was opened, or the device heard from, no
      earlier than `since`. */
  ghost predicate Young(w: World, device: string, since: int) {
    forall id :: id in w.table && w.table[id].device == device && IsOpen(w.table[id]) ==>
      w.table[id].createdAt >= since || HeardSince(w, device, since)
  }

  lemma OpStaysYoung(w: World, op: Op, device: string, since: int)
    requires Young(w, device, since) && since <= w.now && op != Recycle(device)
    ensures Young(Next(w, op), device, since)
  {
    var next := Next(w, op);
    assert HeardSince(w, device, since) ==> HeardSince(next, device, since);
    forall id | id in next.table && next.table[id].device == device && IsOpen(next.table[id])
      ensures next.table[id].createdAt >= since || HeardSince(next, device, since)
    {
      assert id in w.table ==> w.table[id].device == device && IsOpen(w.table[id]) && w.table[id].createdAt == next.table[id].createdAt;
    }
  }

  lemma {:induction false} StaysYoung(w: World, ops: seq<Op>, device: string, since: int)
    requires Young(w, device, since) && since <= w.now && Recycle(device) !in ops
    ensures Young(Run(w, ops), device, since)
    decreases |ops|
  {
    if ops != [] {
      OpStaysYoung(w, ops[0], device, since);
      StaysYoung(Next(w, ops[0]), ops[1..], device, since);
    }
  }

  /** Between sweeps: however long `after` takes, every open session, old or new, is
      older than five minutes by no more than the time since the last sweep, or so is
      the last word from its device, unless the device was recycled meanwhile. */
  lemma NothingLingers(w: World, after: seq<Op>, device: string)
    requires Recycle(device) !in after
    ensures Young(Run(Next(w, Sweep), after), device, w.now - 300)
  {
    StaysYoung(Next(w, Sweep), after, device, w.now - STALE_AFTER_SECONDS);
  }

  lemma {:induction false} HeardStays(w: World, ops: seq<Op>, device: string, since: int)
    requires HeardSince(w, device, since) && since <= w.now && Recycle(device) !in ops
    ensures HeardSince(Run(w, ops), device, since)
    decreases |ops|
  {
    if ops != [] {
      HeardStays(Next(w, ops[0]), ops[1..], device, since);
    }
  }

  /** A heartbeat spares the sessions of its device from every sweep of the next five
      minutes. */
  lemma HeartbeatSpares(w: World, device: string, live: set<int>, between: seq<Op>, id: nat)
    requires device in w.devices && Recycle(device) !in between
    requires var e := Run(Next(w, Heartbeat(device, live)), between);
      e.now - w.now <= 300 && id in e.table && e.table[id].device == device
    ensures var e := Run(Next(w, Heartbeat(device, live)), between);
      Next(e, Sweep).table[id] == e.table[id]
  {
    HeardStays(Next(w, Heartbeat(device, live)), between, device, w.now);
  }

  // ------------------------------------------------ nothing closes unasked ---

  /** The reasons a session has to end: its client said so, its device stopped listing
      it after the grace, or its device fell silent. */
  ghost predicate Ends(w: World, op: Op, id: nat)
    requires id in w.table
  {
    var s := w.table[id];
    match op
    case ClientClosed(device, conn, latest) =>
      latest == id && IsLatestOpen(w.table, device, conn, id)
    case Heartbeat(device, live) =>
      device == s.device && device in w.devices && s.conn !in live && w.now - s.createdAt > 90
    case Sweep =>
      w.now - s.createdAt > 300 && !HeardSince(w, s.device, w.now - 300)
    case _ => false
  }

  /** Step `k` of the run, at time `at`, is a reason, and the first one. */
  ghost predicate EndsAt(w: World, ops: seq<Op>, id: nat, k: int, at: int) {
    && 0 <= k < |ops| && id in Run(w, ops[..k]).table && IsOpen(Run(w, ops[..k]).table[id])
    && Ends(Run(w, ops[..k]), ops[k], id) && at == Run(w, ops[..k]).now
  }

  ghost predicate EndedIn(w: World, ops: seq<Op>, id: nat, at: int) {
    exists k :: EndsAt(w, ops, id, k, at)
  }

  lemma OneOpEnds(w: World, op: Op, id: nat)
    requires id in w.table && IsOpen(w.table[id])
    ensures id in Next(w, op).table
    ensures Next(w, op).table[id].closedAt == if Ends(w, op, id) then Some(w.now) else None
  {
  }

  lemma EndedLater(w: World, ops: seq<Op>, id: nat, at: int)
    requires ops != [] && id in w.table && !Ends(w, ops[0], id)
    ensures EndedIn(w, ops, id, at) <==> EndedIn(Next(w, ops[0]), ops[1..], id, at)
  {
    var next, rest := Next(w, ops[0]), ops[1..];
    forall k | 0 <= k < |rest|
      ensures Run(w, ops[..k + 1]) == Run(next, rest[..k])
    {
      assert ops[..k + 1][1..] == rest[..k];
    }
    if k :| EndsAt(w, ops, id, k, at) {
      assert k > 0;
      assert Run(w, ops[..k - 1 + 1]) == Run(next, rest[..k - 1]) && rest[k - 1] == ops[k];
      assert EndsAt(next, rest, id, k - 1, at);
    }
    if k :| EndsAt(next, rest, id, k, at) {
      assert Run(w, ops[..k + 1]) == Run(next, rest[..k]) && rest[k] == ops[k + 1];
      assert EndsAt(w, ops, id, k + 1, at);
    }
  }

  /** A session that ends at once has no other end. */
  lemma EndsOnce(w: World, ops: seq<Op>, id: nat, at: int)
    requires ops != [] && id in w.table && IsOpen(w.table[id]) && Ends(w, ops[0], id)
    ensures EndedIn(w, ops, id, at) <==> at == w.now
  {
    assert ops[..0] == [];
    assert EndsAt(w, ops, id, 0, w.now);
    OneOpEnds(w, ops[0], id);
    forall k | EndsAt(w, ops, id, k, at)
      ensures k == 0
    {
      if k > 0 {
        ClosedIsFrozen(Next(w, ops[0]), ops[..k][1..], id);
      }
    }
  }

  /** On every run an open session is closed at a moment if and only if the first reason
      for its end came at that moment; without a reason it stays open. */
  lemma {:induction false} ClosesExactlyForAReason(w: World, ops: seq<Op>, id: nat, at: int)
    requires id in w.table && IsOpen(w.table[id])
    ensures id in Run(w, ops).table && (Run(w, ops).table[id].closedAt == Some(at) <==> EndedIn(w, ops, id, at))
    decreases |ops|
  {
    if ops != [] {
      OneOpEnds(w, ops[0], id);
      if Ends(w, ops[0], id) {
        ClosedIsFrozen(Next(w, ops[0]), ops[1..], id);
        EndsOnce(w, ops, id, at);
      } else {
        EndedLater(w, ops, id, at);
        ClosesExactlyForAReason(Next(w, ops[0]), ops[1..], id, at);
      }
    }
  }

  /** Time passes and a session keeps who and when it is. */
  lemma {:induction false} SessionsKeepIdentity(w: World, ops: seq<Op>, id: nat)
    requires id in w.table
    ensures var e := Run(w, ops);
      && e.now >= w.now && id in e.table
      && e.table[id].device == w.table[id].device && e.table[id].conn == w.table[id].conn
      && e.table[id].createdAt == w.table[id].createdAt
    decreases |ops|
  {
    if ops != [] {
      SessionsKeepIdentity(Next(w, ops[0]), ops[1..], id);
    }
  }

  lemma RunSplit(w: World, ops: seq<Op>, k: nat)
    requires k <= |ops|
    ensures Run(w, ops) == Run(Run(w, ops[..k]), ops[k..])
    decreases |ops|
  {
    if k == 0 {
      assert ops[..0] == [] && ops[0..] == ops;
    } else {
      assert ops[..k][1..] == ops[1..][..k - 1] && ops[1..][k - 1..] == ops[k..];
      RunSplit(Next(w, ops[0]), ops[1..], k - 1);
    }
  }

  /** For a minute and a half after it was opened a session ends only if its own client
      says so, whatever its device lists and whoever sweeps. */
  lemma NewSessionIsSpared(w: World, id: nat, device: string, conn: int, ops: seq<Op>)
    requires id !in w.table && Run(Next(w, Opened(id, device, conn)), ops).now <= w.now + 90
    requires forall k :: 0 <= k < |ops| && ops[k].ClientClosed? ==> ops[k].device != device || ops[k].conn != conn
    ensures var e := Run(Next(w, Opened(id, device, conn)), ops); id in e.table && IsOpen(e.table[id])
  {
    var begun := Next(w, Opened(id, device, conn));
    SessionsKeepIdentity(begun, ops, id);
    var closed := Run(begun, ops).table[id].closedAt;
    if closed.Some? {
      ClosesExactlyForAReason(begun, ops, id, closed.value);
      var k :| EndsAt(begun, ops, id, k, closed.value);
      RunSplit(begun, ops, k);
      SessionsKeepIdentity(begun, ops[..k], id);
      SessionsKeepIdentity(Run(begun, ops[..k]), ops[k..], id);
      assert false;
    }
  }

  /** A client's close ends one session: the newest open one of its connection. */
  lemma CloseEndsTheNewest(w: World, device: string, conn: int, id: nat, other: nat)
    requires id in w.table && Ends(w, ClientClosed(device, conn, id), id) && other in w.table && other != id
    ensures w.table[id].device == device && w.table[id].conn == conn
    ensures Next(w, ClientClosed(device, conn, id)).table[other] == w.table[other]
    ensures IsOpen(w.table[other]) && w.table[other].device == device && w.table[other].conn == conn ==> other < id
  {
  }
}
