/** The console and the fleet together: console operations interleaved with every
    device's heartbeats, local edits and reinstalls. A client outlives its row: when
    the row is purged and the device registers again, it meets a fresh one. */
module Fleet {
  import opened Options
  import D = Delivery
  import P = Protocol
  import R = Registration
  import C = Console
  import Coherence
  import ConsoleEffects

  datatype World = World(db: C.Db, ends: map<nat, P.State>)

  datatype Event =
    | Console(op: C.Op)
    | Heartbeat(d: nat, now: int, delivered: bool)
    | AtDevice(d: nat, step: P.Step)     // a local edit, a reinstall or a status change

  const START: World := World(C.EMPTY, map[])

  /** The map a strategy pushes: nothing while it is disabled. */
  function ConfigOptions(s: C.Strategy): OptionMap {
    if s.enabled then C.OptionMapOf(s) else map[]
  }

  /** What the heartbeat path asks for: it reads only the cached column. */
  function PolicyFor(db: C.Db, d: nat): D.Policy
    requires d in db.devices
  {
    var cached := db.devices[d].cached;
    if cached.Some? && C.IsLive(db, cached.value)
    then D.Policy(ConfigOptions(db.strategies[cached.value]), db.strategies[cached.value].enforce)
    else D.Policy(map[], false)
  }

  /** What precedence says the device should hold, computed from scratch. */
  function Wanted(db: C.Db, d: nat): OptionMap
    requires d in db.devices
  {
    var s := C.Resolve(db, d);
    if s.Some? && s.value in db.strategies then C.OptionMapOf(db.strategies[s.value]) else map[]
  }

  predicate Talks(w: World, d: nat) {
    d in w.db.devices && d in w.ends && !w.db.devices[d].trashed
  }

  /** The fleet beside new tables. A first row starts a new endpoint; a row that
      comes back after a purge is fresh, its client is not. */
  function Rehouse(w: World, db: C.Db): World {
    World(db, map d | d in w.ends.Keys + db.devices.Keys ::
      if d !in w.ends then P.START
      else if d in db.devices && d !in w.db.devices then R.Reregistered(w.ends[d])
      else w.ends[d])
  }

  function Move(w: World, d: nat, step: P.Step): World
    requires d in w.ends
  {
    w.(ends := w.ends[d := P.Next(w.ends[d], step)])
  }

  function Next(w: World, e: Event): World {
    match e
    case Console(op) => Rehouse(w, C.Step(w.db, op))
    case Heartbeat(d, now, delivered) =>
      if Talks(w, d) then Move(w, d, P.Heartbeat(PolicyFor(w.db, d), now, delivered)) else w
    case AtDevice(d, step) =>
      if d in w.ends && !step.Heartbeat? && (step.SetActive? ==> d in w.db.devices) then Move(w, d, step) else w
  }

  function Run(w: World, events: seq<Event>): World
    decreases |events|
  {
    if events == [] then w else Run(Next(w, events[0]), events[1..])
  }

  /** What holds of every endpoint on every run. */
  ghost predicate Safe(s: P.State) {
    && Pushable(s.server.sent) && Pushable(s.server.acked)
    && forall k :: k in s.client.held ==> s.client.held[k] != ""
  }

  ghost predicate Inv(w: World, d: nat) {
    Coherence.Good(w.db) && (d in w.ends ==> Safe(w.ends[d]))
  }

  /** What holds while no token clashes. */
  ghost predicate Paired(w: World, d: nat) {
    d in w.ends ==> R.Paired(w.ends[d])
  }

  /** The event does not hand a client that registered again the token it has kept. */
  predicate Unclashed(w: World, e: Event, d: nat) {
    e.Heartbeat? && e.d == d && Talks(w, d) ==> !R.Clashes(w.ends[d], PolicyFor(w.db, d), e.now)
  }

  predicate UnclashedRun(w: World, events: seq<Event>, d: nat)
    decreases |events|
  {
    events == [] || (Unclashed(w, events[0], d) && UnclashedRun(Next(w, events[0]), events[1..], d))
  }

  lemma PolicyIsPushable(db: C.Db, d: nat)
    requires d in db.devices
    ensures Pushable(PolicyFor(db, d).options)
  {
    var cached := db.devices[d].cached;
    if cached.Some? && C.IsLive(db, cached.value) {
      SanitizedIsPushable(AsRaw(db.strategies[cached.value].options));
    }
  }

  lemma SafeNext(s: P.State, step: P.Step)
    requires Safe(s) && (step.Heartbeat? ==> Pushable(step.policy.options))
    ensures Safe(P.Next(s, step))
  {
    if step.Heartbeat? {
      P.ResponseIsPushable(s.server, step.policy, s.client.token, step.now);
    }
  }

  lemma NextInv(w: World, e: Event, d: nat)
    requires Inv(w, d)
    ensures Inv(Next(w, e), d)
  {
    match e
    case Console(op) => Coherence.StepIsGood(w.db, op);
    case Heartbeat(b, now, delivered) =>
      if Talks(w, d) && b == d {
        PolicyIsPushable(w.db, d);
        SafeNext(w.ends[d], P.Heartbeat(PolicyFor(w.db, d), now, delivered));
      }
    case AtDevice(b, step) =>
      if d in w.ends && b == d && !step.Heartbeat? {
        SafeNext(w.ends[d], step);
      }
  }

  lemma {:induction false} RunInv(w: World, events: seq<Event>, d: nat)
    requires Inv(w, d)
    ensures Inv(Run(w, events), d)
    decreases |events|
  {
    if events != [] {
      NextInv(w, events[0], d);
      RunInv(Next(w, events[0]), events[1..], d);
    }
  }

  lemma PairedNext(w: World, e: Event, d: nat)
    requires Paired(w, d) && Unclashed(w, e, d)
    ensures Paired(Next(w, e), d)
  {
    P.StartInv();
    if d in w.ends {
      match e
      case Console(op) => R.ReregisteredIsPaired(w.ends[d]);
      case Heartbeat(b, now, delivered) =>
        if Talks(w, d) {
          var step := P.Heartbeat(PolicyFor(w.db, d), now, delivered);
          if b == d { R.PairedNext(w.ends[d], step); }
        }
      case AtDevice(b, step) => if b == d && !step.Heartbeat? { R.PairedNext(w.ends[d], step); }
    }
  }

  lemma {:induction false} PairedRun(w: World, events: seq<Event>, d: nat)
    requires Paired(w, d) && UnclashedRun(w, events, d)
    ensures Paired(Run(w, events), d)
    decreases |events|
  {
    if events != [] {
      PairedNext(w, events[0], d);
      PairedRun(Next(w, events[0]), events[1..], d);
    }
  }

  lemma {:induction false} WalkIsEnabled(db: C.Db, candidates: seq<(C.Level, Option<nat>)>)
    requires Coherence.Shape(db)
    ensures var s := C.Walk(db, candidates);
      s.Some? ==> C.IsLive(db, s.value) && db.strategies[s.value].enabled
  {
    if candidates != [] {
      WalkIsEnabled(db, candidates[1..]);
    }
  }

  /** The cached lookup of the heartbeat path asks for what precedence wants, and insists
      on it exactly when the resolved strategy does. */
  lemma PolicyIsWanted(db: C.Db, d: nat)
    requires Coherence.Good(db) && d in db.devices
    ensures PolicyFor(db, d).options == Wanted(db, d)
    ensures PolicyFor(db, d).enforce <==>
      exists s :: s in db.strategies && C.Resolve(db, d) == Some(s) && db.strategies[s].enforce
  {
    WalkIsEnabled(db, C.Candidates(d, db.devices[d]));
    assert db.devices[d].cached == C.Resolve(db, d);
  }

  lemma {:induction false} UnclashedSplit(w: World, events: seq<Event>, last: Event, d: nat)
    requires UnclashedRun(w, events + [last], d)
    ensures UnclashedRun(w, events, d) && Unclashed(Run(w, events), last, d)
    decreases |events|
  {
    if events != [] {
      assert (events + [last])[1..] == events[1..] + [last];
      UnclashedSplit(Next(w, events[0]), events[1..], last, d);
    }
  }

  /** Whatever the console and the fleet did before, purges, new registrations and
      clashing tokens included: a completed heartbeat of an active, not recycled device
      leaves it holding exactly the sanitized options of the strategy that precedence
      resolves to if and only if the answer covers what it held; and only safe keys
      go out. */
  lemma EndToEnd(events: seq<Event>, d: nat, now: int)
    requires var w := Run(START, events);
      Talks(w, d) && w.ends[d].server.active
    ensures var w := Run(START, events);
            var w' := Next(w, Heartbeat(d, now, true));
      && (w'.ends[d].client.held == P.Effective(Wanted(w.db, d)) <==> R.Covers(w.ends[d], PolicyFor(w.db, d), now))
      && (var push := P.PushOf(w.ends[d], PolicyFor(w.db, d), now); push.Some? ==> Pushable(push.value.wire))
  {
    Coherence.EmptyIsGood();
    RunInv(START, events, d);
    var w := Run(START, events);
    PolicyIsWanted(w.db, d);
    R.RoundExactly(w.ends[d], PolicyFor(w.db, d), now);
    PolicyIsPushable(w.db, d);
    P.ResponseIsPushable(w.ends[d].server, PolicyFor(w.db, d), w.ends[d].client.token, now);
  }

  /** Unless a token clashed, the device then holds those options in every key except
      those last written by the user or under an earlier row, and such keys only get
      fewer. */
  lemma EndToEndUpToEdits(events: seq<Event>, d: nat, now: int)
    requires UnclashedRun(START, events + [Heartbeat(d, now, true)], d)
    requires var w := Run(START, events);
      Talks(w, d) && w.ends[d].server.active
    ensures var w := Run(START, events);
            var w' := Next(w, Heartbeat(d, now, true));
      && P.Agree(w'.ends[d].client.held, P.Effective(Wanted(w.db, d)), w'.ends[d].client.touched)
      && w'.ends[d].client.touched <= w.ends[d].client.touched
  {
    UnclashedSplit(START, events, Heartbeat(d, now, true), d);
    Coherence.EmptyIsGood();
    RunInv(START, events, d);
    PairedRun(START, events, d);
    var w := Run(START, events);
    PolicyIsWanted(w.db, d);
    R.PairedRound(w.ends[d], PolicyFor(w.db, d), now);
  }

  // -------------------------------------------------- who is affected by what ---

  /** The console reaches no client: whatever it does, every client keeps its token and
      its settings, and every row its delivery columns, except that a row which comes
      back after a purge is fresh. */
  lemma ConsoleReachesNoClient(w: World, op: C.Op, d: nat)
    requires d in w.ends
    ensures var next := Next(w, Console(op));
      && d in next.ends
      && next.ends[d].client.token == w.ends[d].client.token && next.ends[d].client.held == w.ends[d].client.held
      && next.ends[d].server == (if d in next.db.devices && d !in w.db.devices then D.FRESH else w.ends[d].server)
  {
  }

  /** A heartbeat changes one device's endpoint and no table; that of a recycled, purged
      or quarantined device changes nothing. */
  lemma HeartbeatReachesOneDevice(w: World, d: nat, now: int, delivered: bool, other: nat)
    requires other in w.ends && other != d
    ensures var next := Next(w, Heartbeat(d, now, delivered));
      && next.db == w.db && other in next.ends && next.ends[other] == w.ends[other]
      && (d !in w.db.devices || w.db.devices[d].trashed ==> next == w)
      && (d in w.ends && !w.ends[d].server.active ==> next.ends[d] == w.ends[d])
  {
    if Talks(w, d) {
      D.QuarantineIsKept(w.ends[d].server, PolicyFor(w.db, d), w.ends[d].client.token, now);
    }
  }

  /** What the operator typed is what the devices are to hold: after a form with legal,
      unpadded values is saved, every device that resolves to the strategy wants exactly
      the form's options, enforced as the form says. */
  lemma FormIsWanted(db: C.Db, op: C.Op, options: OptionMap, d: nat)
    requires Coherence.Good(db) && C.Applies(db, op) && (op.CreateStrategy? || op.UpdateStrategy?)
    requires op.form.options == AsRaw(options) && Pushable(options) && forall k :: k in options ==> Tight(options[k])
    requires d in C.Step(db, op).devices && C.Resolve(C.Step(db, op), d) == Some(op.id)
    ensures var next := C.Step(db, op);
      Wanted(next, d) == options && (PolicyFor(next, d).enforce <==> op.form.enforce)
  {
    var next := C.Step(db, op);
    Coherence.StepIsGood(db, op);
    ConsoleEffects.StepDoes(db, op);
    SanitizeKeepsLegal(options);
    PolicyIsWanted(next, d);
    assert ConsoleEffects.Fills(next.strategies[op.id], op.form);
  }

  // ----------------------------------------------- when tokens cannot clash ---

  ghost predicate NeverPurged(events: seq<Event>, d: nat) {
    forall i :: 0 <= i < |events| ==> events[i] != Console(C.PurgeDevice(d))
  }

  /** Only a purge takes a device row away. */
  lemma RowStays(db: C.Db, op: C.Op, d: nat)
    requires d in db.devices && op != C.PurgeDevice(d)
    ensures d in C.Step(db, op).devices
  {
  }

  /** A device that is never purged never meets a row that does not know it. */
  lemma {:induction false} NoPurgeNoClash(w: World, events: seq<Event>, d: nat)
    requires d in w.ends ==> P.Inv(w.ends[d]) && d in w.db.devices
    requires NeverPurged(events, d)
    ensures UnclashedRun(w, events, d)
    decreases |events|
  {
    if events != [] {
      var e, next := events[0], Next(w, events[0]);
      P.StartInv();
      if d in w.ends {
        if e.Console? { RowStays(w.db, e.op, d); }
        if e.AtDevice? { P.NextInv(w.ends[d], e.step); }
        if e.Heartbeat? && Talks(w, d) { P.BeatInv(w.ends[d], PolicyFor(w.db, d), e.now, e.delivered); }
      }
      NoPurgeNoClash(next, events[1..], d);
    }
  }

  /** The device's heartbeats arrive at increasing times after `start`. */
  ghost predicate Ticking(events: seq<Event>, d: nat, start: int) {
    && (forall i :: 0 <= i < |events| && events[i].Heartbeat? && events[i].d == d ==> start < events[i].now)
    && (forall i, j :: 0 <= i < j < |events| ==>
          events[i].Heartbeat? && events[i].d == d && events[j].Heartbeat? && events[j].d == d ==>
            events[i].now < events[j].now)
  }

  /** No token of the device is ahead of the clock. */
  ghost predicate TokensPast(s: P.State, now: int) {
    s.client.token <= now && (s.server.version.Some? ==> s.server.version.value <= now)
  }

  lemma TokensFollowTheClock(s: P.State, policy: D.Policy, last: int, now: int, delivered: bool)
    requires TokensPast(s, last) && 0 <= last < now
    ensures !R.Clashes(s, policy, now)
    ensures TokensPast(P.Beat(s, policy, now, delivered), now)
  {
  }

  /** On a clock that advances between a device's heartbeats tokens never clash, not
      even across purges. */
  lemma {:induction false} NoClashOnAClock(w: World, events: seq<Event>, d: nat, last: int)
    requires d in w.ends ==> TokensPast(w.ends[d], last)
    requires 0 <= last && Ticking(events, d, last)
    ensures UnclashedRun(w, events, d)
    decreases |events|
  {
    if events != [] {
      var e, rest := events[0], events[1..];
      if e.Heartbeat? && e.d == d {
        if Talks(w, d) {
          TokensFollowTheClock(w.ends[d], PolicyFor(w.db, d), last, e.now, e.delivered);
        }
        NoClashOnAClock(Next(w, e), rest, d, e.now);
      } else {
        NoClashOnAClock(Next(w, e), rest, d, last);
      }
    }
  }
}
