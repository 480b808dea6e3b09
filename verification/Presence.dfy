/** Presence notifications: concurrent sweeps and heartbeats contend for one durable
    row per device and for a legacy marker behind an expiring lock. Every query is
    one atomic step and contenders interleave freely. */
module Presence {

  const CLAIM_TIMEOUT_SECONDS: int := 300

  datatype Row = Absent | Pending(token: nat, at: int) | Delivered

  datatype Lock = Free | Held(owner: nat, expires: int)

  // -------------------------------------------------------------- queries ---

  predicate OwnedPending(row: Row, token: nat) {
    row.Pending? && row.token == token
  }

  function InsertPending(row: Row, token: nat, now: int): Row {
    if row.Absent? then Pending(token, now) else row
  }

  predicate Reclaimable(row: Row, now: int) {
    row.Pending? && row.at <= now - CLAIM_TIMEOUT_SECONDS
  }

  function Reclaim(row: Row, token: nat, now: int): Row {
    if Reclaimable(row, now) then Pending(token, now) else row
  }

  function Mark(row: Row, token: nat): Row {
    if OwnedPending(row, token) then Delivered else row
  }

  function Release(row: Row, token: nat): Row {
    if OwnedPending(row, token) then Absent else row
  }

  function Consume(row: Row): Row {
    if row.Delivered? then Absent else row
  }

  function InsertDelivered(row: Row): Row {
    if row.Absent? then Delivered else row
  }

  predicate Acquirable(lock: Lock, now: int) {
    lock.Free? || lock.expires <= now
  }

  predicate Owns(lock: Lock, token: nat, now: int) {
    lock.Held? && lock.owner == token && now < lock.expires
  }

  function Unlock(lock: Lock, token: nat): Lock {
    if lock.Held? && lock.owner == token then Free else lock
  }

  /** The durable row of one device, updated in place by guarded queries. */
  class NotificationState {
    var row: Row

    constructor ()
      ensures row == Absent
    {
      row := Absent;
    }

    /** The first query of a claim: insert a pending row unless there is one already. */
    method InsertClaim(token: nat, now: int) returns (claimed: bool)
      modifies this
      ensures row == InsertPending(old(row), token, now)
      ensures claimed <==> row != old(row)
    {
      claimed := row.Absent?;
      if claimed { row := Pending(token, now); }
    }

    /** The second: take over a pending row whose owner was silent for the timeout. */
    method TakeOverClaim(token: nat, now: int) returns (claimed: bool)
      modifies this
      ensures row == Reclaim(old(row), token, now)
      ensures claimed <==> Reclaimable(old(row), now)
    {
      claimed := row.Pending? && row.at <= now - CLAIM_TIMEOUT_SECONDS;
      if claimed { row := Pending(token, now); }
    }

    /** Claim the right to one offline delivery, when nothing comes between the two
        queries; contenders take them as two steps. */
    method ClaimOffline(token: nat, now: int) returns (claimed: bool)
      modifies this
      ensures row == if old(row).Absent? then InsertPending(old(row), token, now) else Reclaim(old(row), token, now)
      ensures claimed <==> old(row).Absent? || Reclaimable(old(row), now)
      ensures claimed ==> OwnedPending(row, token)
      ensures !claimed ==> row == old(row)
    {
      claimed := InsertClaim(token, now);
      if !claimed {
        claimed := TakeOverClaim(token, now);
      }
    }

    /** Complete a delivery, only while the claim is still owned. */
    method MarkDelivered(token: nat) returns (marked: bool)
      modifies this
      ensures row == Mark(old(row), token)
      ensures marked <==> OwnedPending(old(row), token)
    {
      marked := row.Pending? && row.token == token;
      if marked { row := Delivered; }
    }

    method ReleaseClaim(token: nat) returns (released: bool)
      modifies this
      ensures row == Release(old(row), token)
      ensures released <==> OwnedPending(old(row), token)
    {
      released := row.Pending? && row.token == token;
      if released { row := Absent; }
    }

    /** Consume the outstanding recovery marker, at most once. */
    method ConsumeRecovery() returns (consumed: bool)
      modifies this
      ensures row == Consume(old(row))
      ensures consumed <==> old(row).Delivered?
    {
      consumed := row.Delivered?;
      if consumed { row := Absent; }
    }
  }

  // ------------------------------------------------------------ contenders ---

  /** Where a contender stands: the query it will issue next, and what it carries. */
  datatype Pc =
    | SweepLock
    | SweepHas(token: nat)
    | SweepUnlock(token: nat)
    | SweepClock
    | SweepInsert(asOf: int)
    | SweepReclaim(token: nat, asOf: int)
    | SweepSend(token: nat)
    | SweepMark(token: nat)
    | SweepRelease(token: nat)
    | ConvertCheck(token: nat)
    | ConvertPull(token: nat)
    | ConvertRecord(token: nat)
    | ConvertUnlock(token: nat)
    | RecoverLock
    | RecoverHas(token: nat)
    | RecoverUnlock(token: nat)
    | RecoverConsume
    | DrainRow(token: nat)
    | DrainCheck(token: nat, durable: bool)
    | DrainPull(token: nat, durable: bool)
    | DrainUnlock(token: nat)
    | Done

  datatype Event = Marked | Recovered

  /** What the contenders share. */
  datatype Shared = Shared(
    now: int,
    row: Row,
    marker: bool,            // the legacy marker
    lock: Lock,              // the legacy claim
    unused: nat,             // the next unused token
    trace: seq<Event>,       // successful offline marks and consumed recoveries
    pulls: nat)              // how often the legacy marker was pulled

  function TryLock(s: Shared, won: Pc): (Shared, Pc) {
    if Acquirable(s.lock, s.now)
    then (s.(lock := Held(s.unused, s.now + CLAIM_TIMEOUT_SECONDS), unused := s.unused + 1), won)
    else (s.(unused := s.unused + 1), Done)
  }

  /** A sweep's offline branch: legacy marker first, then the durable claim. */
  function Sweep(s: Shared, pc: Pc, sent: bool): (Shared, Pc) {
    match pc
    case SweepLock => TryLock(s, SweepHas(s.unused))
    case SweepHas(t) => (s, if s.marker then ConvertCheck(t) else SweepUnlock(t))
    case SweepUnlock(t) => (s.(lock := Unlock(s.lock, t)), SweepClock)
    case SweepClock => (s, SweepInsert(s.now))
    case SweepInsert(asOf) =>
      (s.(row := InsertPending(s.row, s.unused, asOf), unused := s.unused + 1),
       if s.row.Absent? then SweepSend(s.unused) else SweepReclaim(s.unused, asOf))
    case SweepReclaim(t, asOf) =>
      (s.(row := Reclaim(s.row, t, asOf)), if Reclaimable(s.row, asOf) then SweepSend(t) else Done)
    case SweepSend(t) => (s, if sent then SweepMark(t) else SweepRelease(t))
    case SweepMark(t) =>
      if OwnedPending(s.row, t)
      then (s.(row := Mark(s.row, t), trace := s.trace + [Marked]), Done)
      else (s, SweepRelease(t))
    case SweepRelease(t) => (s.(row := Release(s.row, t)), Done)
    case _ => (s, pc)
  }

  /** Turn the legacy marker into a delivered row while holding the claim. */
  function Convert(s: Shared, pc: Pc): (Shared, Pc) {
    match pc
    case ConvertCheck(t) => (s, if Owns(s.lock, t, s.now) then ConvertPull(t) else Done)
    case ConvertPull(t) =>
      if s.marker then (s.(marker := false, pulls := s.pulls + 1), ConvertRecord(t)) else (s, ConvertUnlock(t))
    case ConvertRecord(t) => (s.(row := InsertDelivered(s.row)), ConvertUnlock(t))
    case ConvertUnlock(t) => (s.(lock := Unlock(s.lock, t)), Done)
    case _ => (s, pc)
  }

  /** A recovery: the durable row alone, or row and legacy marker under the claim. */
  function Recover(s: Shared, pc: Pc): (Shared, Pc) {
    match pc
    case RecoverLock => TryLock(s, RecoverHas(s.unused))
    case RecoverHas(t) => (s, if s.marker then DrainRow(t) else RecoverUnlock(t))
    case RecoverUnlock(t) => (s.(lock := Unlock(s.lock, t)), RecoverConsume)
    case RecoverConsume =>
      (s.(row := Consume(s.row), trace := if s.row.Delivered? then s.trace + [Recovered] else s.trace), Done)
    case DrainRow(t) => (s.(row := Consume(s.row)), DrainCheck(t, s.row.Delivered?))
    case DrainCheck(t, durable) =>
      if Owns(s.lock, t, s.now) then (s, DrainPull(t, durable))
      else (s.(trace := if durable then s.trace + [Recovered] else s.trace), Done)
    case DrainPull(t, durable) =>
      (s.(marker := false, pulls := if s.marker then s.pulls + 1 else s.pulls,
          trace := if durable || s.marker then s.trace + [Recovered] else s.trace), DrainUnlock(t))
    case DrainUnlock(t) => (s.(lock := Unlock(s.lock, t)), Done)
    case _ => (s, pc)
  }

  predicate Sweeps(pc: Pc) {
    pc.SweepLock? || pc.SweepHas? || pc.SweepUnlock? || pc.SweepClock? || pc.SweepInsert? ||
    pc.SweepReclaim? || pc.SweepSend? || pc.SweepMark? || pc.SweepRelease?
  }

  predicate Converts(pc: Pc) {
    pc.ConvertCheck? || pc.ConvertPull? || pc.ConvertRecord? || pc.ConvertUnlock?
  }

  /** One query of one contender. `sent` is a transport's answer. */
  function Turn(s: Shared, pc: Pc, sent: bool): (Shared, Pc) {
    if Sweeps(pc) then Sweep(s, pc, sent)
    else if Converts(pc) then Convert(s, pc)
    else Recover(s, pc)
  }

  datatype World = World(shared: Shared, contenders: seq<Pc>)

  datatype Step =
    | Spawn(sweep: bool)
    | Act(i: nat, sent: bool)
    | Die(i: nat)
    | Tick(seconds: nat)
    | Expire                 // the legacy marker's own lifetime ends

  function Next(w: World, step: Step): World {
    match step
    case Spawn(sweep) => w.(contenders := w.contenders + [if sweep then SweepLock else RecoverLock])
    case Act(i, sent) =>
      if i >= |w.contenders| then w
      else
        var (shared, pc) := Turn(w.shared, w.contenders[i], sent);
        World(shared, w.contenders[i := pc])
    case Die(i) => if i < |w.contenders| then w.(contenders := w.contenders[i := Done]) else w
    case Tick(seconds) => w.(shared := w.shared.(now := w.shared.now + seconds))
    case Expire => w.(shared := w.shared.(marker := false))
  }

  function Run(w: World, steps: seq<Step>): World
    decreases |steps|
  {
    if steps == [] then w else Run(Next(w, steps[0]), steps[1..])
  }

  /** A token nobody has left behind. */
  function Unused(row: Row, lock: Lock): (t: nat)
    ensures !OwnedPending(row, t) && (lock.Held? ==> lock.owner < t)
  {
    (if row.Pending? then row.token + 1 else 0) + (if lock.Held? then lock.owner + 1 else 0)
  }

  /** A world before any contender has started; a row that is already pending and a
      claim that is already held were left by contenders that are gone. */
  function Start(now: int, row: Row, marker: bool, lock: Lock): World {
    World(Shared(now, row, marker, lock, Unused(row, lock), [], 0), [])
  }

  // --------------------------------------------- no legacy marker: strict ---

  predicate TouchesMarker(pc: Pc) {
    Converts(pc) || pc.DrainRow? || pc.DrainCheck? || pc.DrainPull? || pc.DrainUnlock?
  }

  /** Marks and recoveries take turns; a recovery comes first exactly when an outage
      was open at the start. */
  ghost predicate Alternates(trace: seq<Event>, open: bool) {
    forall i :: 0 <= i < |trace| ==> trace[i] == if open == (i % 2 == 0) then Recovered else Marked
  }

  /** The row is delivered exactly while an outage awaits its recovery. */
  ghost predicate InTurn(s: Shared, open: bool) {
    !s.marker && Alternates(s.trace, open) && (s.row.Delivered? <==> open == (|s.trace| % 2 == 0))
  }

  lemma InTurnTurn(s: Shared, pc: Pc, sent: bool, open: bool)
    requires InTurn(s, open) && !TouchesMarker(pc)
    ensures InTurn(Turn(s, pc, sent).0, open) && !TouchesMarker(Turn(s, pc, sent).1)
  {
  }

  ghost predicate StrictInv(w: World, open: bool) {
    InTurn(w.shared, open) && forall i :: 0 <= i < |w.contenders| ==> !TouchesMarker(w.contenders[i])
  }

  lemma {:induction false} StrictRun(w: World, steps: seq<Step>, open: bool)
    requires StrictInv(w, open)
    ensures StrictInv(Run(w, steps), open)
    decreases |steps|
  {
    if steps != [] {
      if steps[0].Act? && steps[0].i < |w.contenders| {
        InTurnTurn(w.shared, w.contenders[steps[0].i], steps[0].sent, open);
      }
      StrictRun(Next(w, steps[0]), steps[1..], open);
    }
  }

  /** Without a legacy marker, on every interleaving of any number of sweeps and
      heartbeats, with stale snapshots, crashes and takeovers, from any row and claim:
      successful marks and consumed recoveries strictly alternate, starting with a
      mark unless an outage was already delivered. */
  lemma MarksAndRecoveriesAlternate(now: int, row: Row, lock: Lock, steps: seq<Step>)
    ensures Alternates(Run(Start(now, row, false, lock), steps).shared.trace, row.Delivered?)
  {
    StrictRun(Start(now, row, false, lock), steps, row.Delivered?);
  }
}
