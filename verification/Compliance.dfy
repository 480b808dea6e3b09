/** Fleet compliance: what the delivery columns say about each device, counted per
    strategy in one pass over the active fleet. */
module Compliance {
  import opened Options
  import opened Delivery
  import opened Counting
  import P = Protocol

  datatype Verdict = Confirmed | Waiting | Stale | Offline | Overridden

  const DEFAULT_TIMEOUT_MINUTES: int := 15

  /** What the report knows of a strategy: its pushed map, when that map last
      changed, and how long a confirmation may take. */
  datatype Terms = Terms(desired: OptionMap, changedAt: Option<int>, timeoutMinutes: int)

  function Deadline(terms: Terms): int {
    Max(1, if terms.timeoutMinutes == 0 then DEFAULT_TIMEOUT_MINUTES else terms.timeoutMinutes) * 60
  }

  predicate IsConfirmed(c: Columns, desired: OptionMap) {
    c.ackedAt.Some? && c.acked == desired && (c.sentAt.None? || c.ackedAt.value >= c.sentAt.value)
  }

  /** The state of a device under the strategy it resolved to. */
  function StateFor(c: Columns, online: bool, terms: Terms, now: int): Verdict {
    if IsConfirmed(c, terms.desired) then Confirmed
    else
      var from :=
        if c.sent == terms.desired && c.sentAt.Some? then c.sentAt else terms.changedAt;
      if from.None? || from.value > now - Deadline(terms) then Waiting
      else if online then Stale
      else Offline
  }

  /** With unchanged columns a verdict only ages: confirmed stays, a wait ends once
      and for all, and then the device is stale or offline by its presence alone. */
  lemma VerdictsOnlyAge(c: Columns, online: bool, onlineLater: bool, terms: Terms, now: int, later: int)
    requires now <= later
    ensures var v, u := StateFor(c, online, terms, now), StateFor(c, onlineLater, terms, later);
      && v != Overridden
      && (v == Confirmed <==> u == Confirmed)
      && (v == Stale || v == Offline ==> u == if onlineLater then Stale else Offline)
      && (u == Waiting ==> v == Waiting)
  {
  }

  // -------------------------------------------------- how long a wait lasts ---

  /** A strategy's confirmation window in seconds: a quarter of an hour when none is
      set, and never under a minute. */
  lemma WindowInSeconds(terms: Terms)
    ensures Deadline(terms) >= 60
    ensures terms.timeoutMinutes == 0 ==> Deadline(terms) == 900
    ensures terms.timeoutMinutes > 0 ==> Deadline(terms) == 60 * terms.timeoutMinutes
  {
  }

  /** The verdict on a device that owes a confirmation since `start`. */
  function Owing(start: int, window: int, online: bool, now: int): Verdict {
    if now - start < window then Waiting else if online then Stale else Offline
  }

  /** While the policy stands the row keeps the date of its push. */
  lemma {:induction false} PushDateStays(s: P.State, policy: Policy, steps: seq<P.Step>)
    requires s.server.version.Some? && s.server.sent == policy.options && s.server.sentAt.Some?
    requires forall i :: 0 <= i < |steps| ==> P.KeepsPolicy(steps[i], policy)
    ensures var c := P.Run(s, steps).server; c.sent == s.server.sent && c.sentAt == s.server.sentAt && c.version == s.server.version
    decreases |steps|
  {
    if steps != [] {
      assert P.KeepsPolicy(steps[0], policy);
      if steps[0].Heartbeat? {
        RespondIsFair(s.server, policy, s.client.token, steps[0].now);
        if s.server.active {
          RespondIsDated(s.server, policy, s.client.token, steps[0].now);
        }
      }
      PushDateStays(P.Next(s, steps[0]), policy, steps[1..]);
    }
  }

  /** A heartbeat that moves the token to the wanted map starts the clock, answered or
      not and whatever the history says: until it confirms, the device is waiting for
      the length of the window from that moment, and overdue from then on. */
  lemma PushStartsTheClock(s: P.State, policy: Policy, pushed: int, delivered: bool, after: seq<P.Step>,
                           online: bool, terms: Terms, now: int)
    requires policy.options == terms.desired
    requires P.Beat(s, policy, pushed, delivered).server.version != s.server.version
    requires forall i :: 0 <= i < |after| ==> P.KeepsPolicy(after[i], policy)
    requires !IsConfirmed(P.Run(P.Beat(s, policy, pushed, delivered), after).server, terms.desired)
    ensures StateFor(P.Run(P.Beat(s, policy, pushed, delivered), after).server, online, terms, now) ==
      Owing(pushed, Deadline(terms), online, now)
  {
    RespondIsFair(s.server, policy, s.client.token, pushed);
    RespondIsDated(s.server, policy, s.client.token, pushed);
    PushDateStays(P.Beat(s, policy, pushed, delivered), policy, after);
  }

  /** A device that was not sent the map yet owes its confirmation since the map
      changed; of a change without a date it is never overdue. */
  lemma UnsentWaitsSinceTheChange(c: Columns, online: bool, terms: Terms, now: int)
    requires c.sent != terms.desired && !IsConfirmed(c, terms.desired)
    ensures StateFor(c, online, terms, now) ==
      if terms.changedAt.None? then Waiting else Owing(terms.changedAt.value, Deadline(terms), online, now)
  {
  }

  // ------------------------------------------------- what confirmed means ---

  /** On runs without local edits or reinstalls, a confirmed device holds the wanted
      settings exactly when it is behind its token or was last sent those settings. */
  lemma ConfirmedExactly(steps: seq<P.Step>, online: bool, terms: Terms, now: int)
    requires P.Undisturbed(steps)
    requires StateFor(P.Run(P.START, steps).server, online, terms, now) == Confirmed
    ensures var s := P.Run(P.START, steps);
      s.client.held == P.Effective(terms.desired) <==>
        P.Behind(s) || P.Effective(s.server.sent) == P.Effective(terms.desired)
  {
    P.BeliefIsExact(steps);
  }

  /** A row with a token says when it was sent. */
  lemma {:induction false} TokensAreDated(s: P.State, steps: seq<P.Step>)
    requires s.server.version.Some? ==> s.server.sentAt.Some?
    ensures var c := P.Run(s, steps).server; c.version.Some? ==> c.sentAt.Some?
    decreases |steps|
  {
    if steps != [] {
      TokensAreDated(P.Next(s, steps[0]), steps[1..]);
    }
  }

  /** The steps that let a client catch up without a trace on the row. */
  function CatchUp(c: Columns): seq<P.Step> {
    [P.SetActive(true), P.Heartbeat(Policy(c.sent, false), 0, true), P.SetActive(c.active)]
  }

  lemma CatchUpRun(s: P.State)
    ensures P.Run(s, CatchUp(s.server)) ==
      P.Next(P.Beat(P.Next(s, P.SetActive(true)), Policy(s.server.sent, false), 0, true), P.SetActive(s.server.active))
  {
    var on, back := P.SetActive(true), P.SetActive(s.server.active);
    var beat := P.Heartbeat(Policy(s.server.sent, false), 0, true);
    P.RunCons(s, on, [beat, back]);
    P.RunCons(P.Next(s, on), beat, [back]);
    P.RunOne(P.Next(P.Next(s, on), beat), back);
    assert CatchUp(s.server) == [on] + [beat, back];
    assert [beat, back] == [beat] + [back];
  }

  /** A client that is behind can catch up and the row looks the same. */
  lemma CatchUpIsInvisible(s: P.State)
    requires P.Inv(s) && P.Behind(s) && s.server.version.Some? && s.server.sentAt.Some? && s.server.sent != s.server.acked
    ensures var e := P.Run(s, CatchUp(s.server)); e.server == s.server && !P.Behind(e)
  {
    CatchUpRun(s);
    var on := P.Next(s, P.SetActive(true));
    P.NextInv(s, P.SetActive(true));
    EmptyWire(s.server.sent, s.server.acked, s.server.sent);
    assert Acknowledge(on.server, s.client.token, 0) == on.server;
    assert Restamp(on.server, s.server.sent, 0) == on.server;
  }

  /** Some undisturbed run ends in the same columns with the client up to date. */
  lemma UpToDateTwin(steps: seq<P.Step>) returns (other: seq<P.Step>)
    requires P.Undisturbed(steps)
    requires var c := P.Run(P.START, steps).server; c.sent != c.acked
    ensures P.Undisturbed(other) && P.Run(P.START, other).server == P.Run(P.START, steps).server
    ensures !P.Behind(P.Run(P.START, other))
  {
    var s := P.Run(P.START, steps);
    other := steps;
    if P.Behind(s) {
      P.StartInv();
      P.RunInv(P.START, steps);
      TokensAreDated(P.START, steps);
      CatchUpIsInvisible(s);
      P.RunAppend(P.START, steps, CatchUp(s.server));
      other := steps + CatchUp(s.server);
    }
  }

  /** Every undisturbed run that ends in these columns leaves the wanted settings on
      the device. */
  ghost predicate AlwaysHolds(c: Columns, desired: OptionMap) {
    forall steps :: P.Undisturbed(steps) && P.Run(P.START, steps).server == c ==>
      P.Run(P.START, steps).client.held == P.Effective(desired)
  }

  /** What the report can see: confirmed columns vouch for the device exactly when
      the stored sent map has the effect of the wanted one. */
  lemma ConfirmedAsSeen(steps: seq<P.Step>, online: bool, terms: Terms, now: int)
    requires P.Undisturbed(steps)
    requires StateFor(P.Run(P.START, steps).server, online, terms, now) == Confirmed
    ensures var c := P.Run(P.START, steps).server;
      AlwaysHolds(c, terms.desired) <==> P.Effective(c.sent) == P.Effective(terms.desired)
  {
    var s := P.Run(P.START, steps);
    var c := s.server;
    if P.Effective(c.sent) == P.Effective(terms.desired) {
      forall other | P.Undisturbed(other) && P.Run(P.START, other).server == c
        ensures P.Run(P.START, other).client.held == P.Effective(terms.desired)
      {
        ConfirmedExactly(other, online, terms, now);
      }
    } else {
      var other := UpToDateTwin(steps);
      ConfirmedExactly(other, online, terms, now);
      assert P.Undisturbed(other) && P.Run(P.START, other).server == c;
    }
  }

  /** An echo of a current token is reported confirmed at once, except that an
      acknowledgement from before the last push may stand for up to a minute. */
  lemma EchoConfirms(s: P.State, policy: Policy, online: bool, terms: Terms, now: int, delivered: bool)
    requires P.Inv(s) && s.server.active && !P.Behind(s) && s.server.sent == policy.options == terms.desired
    requires s.server.sentAt.Some? && s.server.sentAt.value <= now
    ensures var c := s.server;
      StateFor(P.Beat(s, policy, now, delivered).server, online, terms, now) == Confirmed <==>
        || c.acked != c.sent || c.ackedAt.None?
        || c.ackedAt.value >= c.sentAt.value || c.ackedAt.value < now - ACK_REFRESH_SECONDS
  {
  }

  /** After any run: a completed round and a further heartbeat, answered or not, more
      than a minute later make an active device confirmed. */
  lemma TwoBeatsConfirm(before: seq<P.Step>, policy: Policy, online: bool, terms: Terms, now: int, next: int, delivered: bool)
    requires P.Run(P.START, before).server.active && policy.options == terms.desired != map[]
    requires var c := P.Run(P.START, before).server; c.sentAt.Some? ==> c.sentAt.value <= now
    requires now + ACK_REFRESH_SECONDS < next
    ensures var round := P.Beat(P.Run(P.START, before), policy, now, true);
      StateFor(P.Beat(round, policy, next, delivered).server, online, terms, next) == Confirmed
  {
    var s := P.Run(P.START, before);
    P.StartInv();
    P.RunInv(P.START, before);
    TokensAreDated(P.START, before);
    P.RoundDelivers(s, policy, now);
    var round := P.Beat(s, policy, now, true);
    RespondIsDated(s.server, policy, s.client.token, now);
    EchoConfirms(round, policy, online, terms, next, delivered);
  }

  /** So when the stored sent map is the wanted one, confirmed tells the truth. */
  lemma ConfirmedIsTrue(steps: seq<P.Step>, online: bool, terms: Terms, now: int)
    requires P.Undisturbed(steps)
    requires StateFor(P.Run(P.START, steps).server, online, terms, now) == Confirmed
    requires P.Run(P.START, steps).server.sent == terms.desired
    ensures P.Run(P.START, steps).client.held == P.Effective(terms.desired)
  {
    ConfirmedExactly(steps, online, terms, now);
  }

  /** A heartbeat that both brings the acknowledgement of one map and pushes another
      stamps both with the same time. */
  lemma AckAndPushShareATime(s: P.State, b: OptionMap, now: int)
    requires P.Inv(s) && s.server.active && !P.Behind(s)
    requires s.server.acked != s.server.sent && s.server.sent != b
    ensures var server := P.Beat(s, Policy(b, false), now, true).server;
      server.acked == s.server.sent && server.ackedAt == Some(now) && server.sentAt == Some(now)
  {
  }

  /** Without that hypothesis it can lie: editing the policy back after such a
      heartbeat looks confirmed at once, whatever the two maps are. */
  lemma ConfirmedCanLie(a: OptionMap, b: OptionMap, terms: Terms)
    requires P.Effective(a) != P.Effective(b) && a != map[] && terms.desired == a
    ensures var steps := [P.Heartbeat(Policy(a, false), 1, true), P.Heartbeat(Policy(b, false), 2, true)];
            var s := P.Run(P.START, steps);
      && P.Undisturbed(steps)
      && StateFor(s.server, true, terms, 2) == Confirmed
      && s.client.held != P.Effective(terms.desired)
  {
    FirstRound(a);
    LyingRound(P.Beat(P.START, Policy(a, false), 1, true), b, terms, 2);
    TwoRounds(Policy(a, false), Policy(b, false));
  }

  /** Any up-to-date, unedited client can be lied about. */
  lemma LyingRound(s: P.State, b: OptionMap, terms: Terms, now: int)
    requires P.Inv(s) && s.server.active && !P.Behind(s) && s.client.touched == {}
    requires s.server.acked != s.server.sent && terms.desired == s.server.sent
    requires P.Effective(s.server.sent) != P.Effective(b)
    ensures var s' := P.Beat(s, Policy(b, false), now, true);
      StateFor(s'.server, true, terms, now) == Confirmed && s'.client.held != P.Effective(terms.desired)
  {
    P.RoundDelivers(s, Policy(b, false), now);
    AckAndPushShareATime(s, b, now);
    P.AgreeEverywhere(P.Beat(s, Policy(b, false), now, true).client.held, P.Effective(b));
  }

  lemma FirstRound(a: OptionMap)
    requires a != map[]
    ensures var s := P.Beat(P.START, Policy(a, false), 1, true);
      P.Inv(s) && s.server.active && !P.Behind(s) && s.server.sent == a && s.server.acked == map[] && s.client.touched == {}
  {
    P.StartInv();
    P.RoundDelivers(P.START, Policy(a, false), 1);
  }

  lemma TwoRounds(a: Policy, b: Policy)
    ensures P.Run(P.START, [P.Heartbeat(a, 1, true), P.Heartbeat(b, 2, true)]) ==
            P.Beat(P.Beat(P.START, a, 1, true), b, 2, true)
  {
    var one, two := P.Heartbeat(a, 1, true), P.Heartbeat(b, 2, true);
    P.RunCons(P.START, one, [two]);
    P.RunOne(P.Next(P.START, one), two);
    assert [one, two] == [one] + [two];
  }

  // ----------------------------------------------------- when a map changed ---

  datatype Past = Past(options: OptionMap, at: int)

  /** The date of the last revision of a run, or the fallback for an empty run. */
  function DatedBy(newestFirst: seq<Past>, n: int, updatedAt: Option<int>): Option<int>
    requires 0 <= n <= |newestFirst|
  {
    if n == 0 then updatedAt else Some(newestFirst[n - 1].at)
  }

  /** How many of the newest revisions carry the map without a break. */
  function RunLength(current: OptionMap, newestFirst: seq<Past>): (n: nat)
    ensures IsRunLength(current, newestFirst, n)
  {
    if newestFirst == [] || newestFirst[0].options != current then 0
    else 1 + RunLength(current, newestFirst[1..])
  }

  /** When the map last changed, as far as the history knows. */
  function ChangedAt(current: OptionMap, newestFirst: seq<Past>, updatedAt: Option<int>): Option<int> {
    DatedBy(newestFirst, RunLength(current, newestFirst), updatedAt)
  }

  /** The first `n` revisions carry the map and the next one, if any, does not. */
  ghost predicate IsRunLength(current: OptionMap, newestFirst: seq<Past>, n: int) {
    && 0 <= n <= |newestFirst|
    && (forall i :: 0 <= i < n ==> newestFirst[i].options == current)
    && (n < |newestFirst| ==> newestFirst[n].options != current)
  }

  lemma RunLengthUnique(current: OptionMap, newestFirst: seq<Past>, m: int, n: int)
    requires IsRunLength(current, newestFirst, m) && IsRunLength(current, newestFirst, n)
    ensures m == n
  {
  }

  /** Scan revisions newest first while they carry the current map; the oldest one of
      that run dates the map. */
  method OptionsChangedAt(current: OptionMap, newestFirst: seq<Past>, updatedAt: Option<int>) returns (at: Option<int>)
    ensures at == ChangedAt(current, newestFirst, updatedAt)
    ensures exists n :: IsRunLength(current, newestFirst, n) && at == DatedBy(newestFirst, n, updatedAt)
  {
    at := None;
    var n := 0;
    while n < |newestFirst|
      invariant 0 <= n <= |newestFirst|
      invariant forall i :: 0 <= i < n ==> newestFirst[i].options == current
      invariant at == if n == 0 then None else Some(newestFirst[n - 1].at)
    {
      if newestFirst[n].options != current {
        break;
      }
      at := Some(newestFirst[n].at);
      n := n + 1;
    }
    assert IsRunLength(current, newestFirst, n);
    RunLengthUnique(current, newestFirst, n, RunLength(current, newestFirst));
    if at.None? {
      at := updatedAt;
    }
  }

  // ---------------------------------------------------------------- counts ---

  /** One active device joined to its assignments at the three levels. */
  datatype FleetRow = FleetRow(
    id: nat,
    name: string,
    resolved: Option<nat>,
    direct: Option<nat>,
    owner: Option<nat>,
    group: Option<nat>,
    columns: Columns,
    online: bool)

  datatype Detail = Detail(device: nat, name: string, verdict: Verdict)

  /** Which rows the caller wants listed, and how many at most. */
  datatype Wanted = Wanted(strategy: Option<nat>, verdict: Option<Verdict>, limit: nat)

  function Clamp(limit: int): (n: nat)
    ensures n <= 1000 && (0 <= limit <= 1000 ==> n == limit)
    ensures (limit > 1000 ==> n == 1000) && (limit < 0 ==> n == 0)
  {
    if limit < 0 then 0 else if limit > 1000 then 1000 else limit
  }

  predicate AssignedTo(row: FleetRow, s: nat) {
    row.direct == Some(s) || row.owner == Some(s) || row.group == Some(s)
  }

  /** A row's one verdict for a strategy, if it has any. */
  function VerdictFor(row: FleetRow, terms: map<nat, Terms>, now: int, s: nat): Option<Verdict> {
    if s !in terms then None
    else if row.resolved == Some(s) then Some(StateFor(row.columns, row.online, terms[s], now))
    else if AssignedTo(row, s) then Some(Overridden)
    else None
  }

  function Tally(rows: seq<FleetRow>, terms: map<nat, Terms>, now: int, s: nat, v: Verdict): nat {
    if rows == [] then 0
    else
      Tally(rows[..|rows| - 1], terms, now, s, v) +
      (if VerdictFor(rows[|rows| - 1], terms, now, s) == Some(v) then 1 else 0)
  }

  function Matches(rows: seq<FleetRow>, terms: map<nat, Terms>, now: int, want: Wanted): seq<Detail> {
    if rows == [] || want.strategy.None? then []
    else
      var last := rows[|rows| - 1];
      var v := VerdictFor(last, terms, now, want.strategy.value);
      Matches(rows[..|rows| - 1], terms, now, want) +
      (if v.Some? && (want.verdict.None? || want.verdict == v) then [Detail(last.id, last.name, v.value)] else [])
  }

  function ResolvedTo(rows: seq<FleetRow>, s: nat): nat {
    if rows == [] then 0
    else ResolvedTo(rows[..|rows| - 1], s) + (if rows[|rows| - 1].resolved == Some(s) then 1 else 0)
  }

  function AssignedElsewhere(rows: seq<FleetRow>, s: nat): nat {
    if rows == [] then 0
    else
      var last := rows[|rows| - 1];
      AssignedElsewhere(rows[..|rows| - 1], s) + (if AssignedTo(last, s) && last.resolved != Some(s) then 1 else 0)
  }

  /** The four states partition the devices resolved to a strategy, and overridden
      counts each device assigned to it at any level but resolved elsewhere once. */
  lemma {:induction false} CountsAreExact(rows: seq<FleetRow>, terms: map<nat, Terms>, now: int, s: nat)
    requires s in terms
    ensures Tally(rows, terms, now, s, Confirmed) + Tally(rows, terms, now, s, Waiting) +
            Tally(rows, terms, now, s, Stale) + Tally(rows, terms, now, s, Offline) == ResolvedTo(rows, s)
    ensures Tally(rows, terms, now, s, Overridden) == AssignedElsewhere(rows, s)
  {
    if rows != [] {
      CountsAreExact(rows[..|rows| - 1], terms, now, s);
    }
  }

  /** As many rows match as the counts say: those of the state asked for, or all five. */
  lemma {:induction false} MatchesAreCounted(rows: seq<FleetRow>, terms: map<nat, Terms>, now: int, want: Wanted)
    requires want.strategy.Some?
    ensures var s := want.strategy.value;
      |Matches(rows, terms, now, want)| ==
        if want.verdict.Some? then Tally(rows, terms, now, s, want.verdict.value)
        else Tally(rows, terms, now, s, Confirmed) + Tally(rows, terms, now, s, Waiting) +
             Tally(rows, terms, now, s, Stale) + Tally(rows, terms, now, s, Offline) + Tally(rows, terms, now, s, Overridden)
  {
    if rows != [] {
      MatchesAreCounted(rows[..|rows| - 1], terms, now, want);
    }
  }

  // ------------------------------------------------------------- head counts ---

  type Verdicts = map<nat, Option<Verdict>>

  function Having(verdicts: Verdicts, v: Verdict): set<nat> {
    set d | d in verdicts && verdicts[d] == Some(v)
  }

  /** The devices counted in one of the four states. */
  function InAState(verdicts: Verdicts): set<nat> {
    Having(verdicts, Confirmed) + Having(verdicts, Waiting) + Having(verdicts, Stale) + Having(verdicts, Offline)
  }

  lemma InAStateIs(verdicts: Verdicts, d: nat)
    requires d in verdicts
    ensures d in InAState(verdicts) <==> verdicts[d].Some? && verdicts[d] != Some(Overridden)
  {
    if verdicts[d].Some? {
      match verdicts[d].value
      case Confirmed => assert d in Having(verdicts, Confirmed);
      case Waiting => assert d in Having(verdicts, Waiting);
      case Stale => assert d in Having(verdicts, Stale);
      case Offline => assert d in Having(verdicts, Offline);
      case Overridden =>
    }
  }

  /** A device has one verdict at most, so the states add up. */
  lemma StatesAddUp(verdicts: Verdicts)
    ensures |InAState(verdicts)| ==
      |Having(verdicts, Confirmed)| + |Having(verdicts, Waiting)| + |Having(verdicts, Stale)| + |Having(verdicts, Offline)|
  {
    PartsOf(Having(verdicts, Confirmed), Having(verdicts, Waiting), Having(verdicts, Stale), Having(verdicts, Offline));
  }

  type Counts = map<(nat, Verdict), nat>

  function At(counts: Counts, s: nat, v: Verdict): nat {
    if (s, v) in counts then counts[(s, v)] else 0
  }

  /** Count one verdict and list the row if it is wanted and there is room. */
  method Record(counts: Counts, details: seq<Detail>, row: FleetRow, s: nat, v: Verdict, want: Wanted)
    returns (counts': Counts, details': seq<Detail>)
    ensures forall t, u :: At(counts', t, u) == At(counts, t, u) + (if t == s && u == v then 1 else 0)
    ensures details' == if want.strategy == Some(s) && (want.verdict.None? || want.verdict == Some(v)) && |details| < want.limit
                        then details + [Detail(row.id, row.name, v)] else details
  {
    counts' := counts[(s, v) := At(counts, s, v) + 1];
    details' := details;
    if want.strategy != Some(s) || (want.verdict.Some? && want.verdict != Some(v)) || |details| >= want.limit {
      return;
    }
    details' := details + [Detail(row.id, row.name, v)];
  }

  /** The candidate strategies of a row, each once. */
  method CandidateIds(row: FleetRow) returns (ids: seq<nat>)
    ensures forall s :: s in ids <==> AssignedTo(row, s)
    ensures forall i, j :: 0 <= i < j < |ids| ==> ids[i] != ids[j]
  {
    ids := [];
    if row.direct.Some? { ids := ids + [row.direct.value]; }
    if row.owner.Some? && row.owner.value !in ids { ids := ids + [row.owner.value]; }
    if row.group.Some? && row.group.value !in ids { ids := ids + [row.group.value]; }
  }

  function Min(a: nat, b: nat): nat { if a < b then a else b }

  /** The row is assigned the strategy, which is asked about, but resolves elsewhere. */
  predicate Overrides(row: FleetRow, terms: map<nat, Terms>, s: nat) {
    s in terms && AssignedTo(row, s) && row.resolved != Some(s)
  }

  /** The row's candidates that lost. */
  method RecordOverridden(counts: Counts, details: seq<Detail>, row: FleetRow, terms: map<nat, Terms>, want: Wanted)
    returns (counts': Counts, details': seq<Detail>)
    ensures forall s, v :: At(counts', s, v) == At(counts, s, v) + (if v == Overridden && Overrides(row, terms, s) then 1 else 0)
    ensures details' == if want.strategy.Some? && Overrides(row, terms, want.strategy.value) &&
        (want.verdict.None? || want.verdict == Some(Overridden)) && |details| < want.limit
      then details + [Detail(row.id, row.name, Overridden)] else details
  {
    counts', details' := counts, details;
    var ids := CandidateIds(row);
    for n := 0 to |ids|
      invariant forall s, v ::
        At(counts', s, v) == At(counts, s, v) + (if v == Overridden && s in ids[..n] && Overrides(row, terms, s) then 1 else 0)
      invariant details' == if want.strategy.Some? && want.strategy.value in ids[..n] && Overrides(row, terms, want.strategy.value) &&
          (want.verdict.None? || want.verdict == Some(Overridden)) && |details| < want.limit
        then details + [Detail(row.id, row.name, Overridden)] else details
    {
      var s := ids[n];
      assert ids[..n + 1] == ids[..n] + [s];
      if s in terms && row.resolved != Some(s) {
        counts', details' := Record(counts', details', row, s, Overridden, want);
      }
    }
    assert ids[..|ids|] == ids;
  }

  /** Everything one row adds to the report. */
  method RecordRow(counts: Counts, details: seq<Detail>, row: FleetRow, terms: map<nat, Terms>, now: int, want: Wanted)
    returns (counts': Counts, details': seq<Detail>)
    ensures forall s, v ::
      At(counts', s, v) == At(counts, s, v) + (if VerdictFor(row, terms, now, s) == Some(v) then 1 else 0)
    ensures var v := if want.strategy.Some? then VerdictFor(row, terms, now, want.strategy.value) else None;
      details' == if v.Some? && (want.verdict.None? || want.verdict == v) && |details| < want.limit
                  then details + [Detail(row.id, row.name, v.value)] else details
  {
    counts', details' := counts, details;
    if row.resolved.Some? && row.resolved.value in terms {
      var s := row.resolved.value;
      counts', details' := Record(counts', details', row, s, StateFor(row.columns, row.online, terms[s], now), want);
    }
    counts', details' := RecordOverridden(counts', details', row, terms, want);
  }

  /** The first detail rows there is room for. */
  function Shown(rows: seq<FleetRow>, terms: map<nat, Terms>, now: int, want: Wanted): (d: seq<Detail>)
    ensures |d| == Min(want.limit, |Matches(rows, terms, now, want)|)
  {
    var matches := Matches(rows, terms, now, want);
    matches[..Min(want.limit, |matches|)]
  }

  /** One streamed pass over the active fleet. */
  method Classify(rows: seq<FleetRow>, terms: map<nat, Terms>, now: int, want: Wanted)
    returns (counts: Counts, details: seq<Detail>)
    ensures forall s, v :: At(counts, s, v) == Tally(rows, terms, now, s, v)
    ensures details == Shown(rows, terms, now, want)
  {
    counts, details := map[], [];
    for n := 0 to |rows|
      invariant forall s, v :: At(counts, s, v) == Tally(rows[..n], terms, now, s, v)
      invariant details == Shown(rows[..n], terms, now, want)
    {
      assert rows[..n + 1][..n] == rows[..n];
      counts, details := RecordRow(counts, details, rows[n], terms, now, want);
    }
    assert rows[..|rows|] == rows;
  }

  // ------------------------------------------------------------- detail order ---

  /** Byte order of names. */
  predicate AtMost(a: string, b: string) {
    a == [] || (b != [] && (a[0] < b[0] || (a[0] == b[0] && AtMost(a[1..], b[1..]))))
  }

  lemma {:induction false} AtMostTotal(a: string, b: string)
    ensures AtMost(a, b) || AtMost(b, a)
  {
    if a != [] && b != [] && a[0] == b[0] {
      AtMostTotal(a[1..], b[1..]);
    }
  }

  lemma {:induction false} AtMostTransitive(a: string, b: string, c: string)
    requires AtMost(a, b) && AtMost(b, c)
    ensures AtMost(a, c)
  {
    if a != [] && a[0] == b[0] && b[0] == c[0] {
      AtMostTransitive(a[1..], b[1..], c[1..]);
    }
  }

  /** The first character that differs decides, and a shorter text comes first. */
  lemma {:induction false} AtMostDecides(common: string, a: string, b: string)
    ensures AtMost(common + a, common + b) <==> AtMost(a, b)
    ensures a != "" && b != "" && a[0] != b[0] ==> (AtMost(a, b) <==> a[0] < b[0])
    ensures AtMost("", b) && (b != "" ==> !AtMost(b, ""))
  {
    if common == "" {
      assert common + a == a && common + b == b;
    } else {
      assert (common + a)[1..] == common[1..] + a && (common + b)[1..] == common[1..] + b;
      AtMostDecides(common[1..], a, b);
    }
  }

  ghost predicate InOrder(list: seq<Detail>) {
    forall i, j :: 0 <= i < j < |list| ==> AtMost(list[i].name, list[j].name)
  }

  /** A row put behind those at most its equal and before the rest keeps the order. */
  lemma PlacedInOrder(row: Detail, list: seq<Detail>, n: nat)
    requires InOrder(list) && n <= |list|
    requires forall i :: 0 <= i < n ==> AtMost(list[i].name, row.name)
    requires n < |list| ==> !AtMost(list[n].name, row.name)
    ensures InOrder(list[..n] + [row] + list[n..])
  {
    var longer := list[..n] + [row] + list[n..];
    forall i, j | 0 <= i < j < |longer|
      ensures AtMost(longer[i].name, longer[j].name)
    {
      if i == n {
        AtMostTotal(list[n].name, row.name);
        if n < j - 1 {
          AtMostTransitive(row.name, list[n].name, list[j - 1].name);
        }
      }
    }
  }

  /** Put one row into an ordered list. */
  method Place(row: Detail, list: seq<Detail>) returns (longer: seq<Detail>)
    requires InOrder(list)
    ensures InOrder(longer) && multiset(longer) == multiset(list) + multiset{row}
  {
    var n := 0;
    while n < |list| && AtMost(list[n].name, row.name)
      invariant 0 <= n <= |list|
      invariant forall i :: 0 <= i < n ==> AtMost(list[i].name, row.name)
    {
      n := n + 1;
    }
    longer := list[..n] + [row] + list[n..];
    assert list == list[..n] + list[n..];
    PlacedInOrder(row, list, n);
  }

  function OfState(details: seq<Detail>, v: Verdict): seq<Detail> {
    if details == [] then []
    else
      var last := details[|details| - 1];
      OfState(details[..|details| - 1], v) + if last.verdict == v then [last] else []
  }

  /** The rows of one state, each as often as before, ordered by name. */
  ghost predicate IsArranged(list: seq<Detail>, details: seq<Detail>, v: Verdict) {
    InOrder(list) && multiset(list) == multiset(OfState(details, v))
  }

  method Arrange(details: seq<Detail>, v: Verdict) returns (list: seq<Detail>)
    ensures IsArranged(list, details, v)
  {
    list := [];
    for n := 0 to |details|
      invariant InOrder(list) && multiset(list) == multiset(OfState(details[..n], v))
    {
      assert details[..n + 1][..n] == details[..n];
      if details[n].verdict == v {
        list := Place(details[n], list);
      }
    }
    assert details[..|details|] == details;
  }

  method ArrangeAll(details: seq<Detail>) returns (lists: map<Verdict, seq<Detail>>)
    ensures forall v :: v in lists && IsArranged(lists[v], details, v)
  {
    var confirmed := Arrange(details, Confirmed);
    var waiting := Arrange(details, Waiting);
    var stale := Arrange(details, Stale);
    var offline := Arrange(details, Offline);
    var overridden := Arrange(details, Overridden);
    lists := map[Confirmed := confirmed, Waiting := waiting, Stale := stale, Offline := offline, Overridden := overridden];
    forall v: Verdict
      ensures v in lists && IsArranged(lists[v], details, v)
    {
      match v
      case Confirmed =>
      case Waiting =>
      case Stale =>
      case Offline =>
      case Overridden =>
    }
  }

  /** The whole report: exact counts, and for each state the rows there was room for,
      ordered by name. */
  method Summaries(rows: seq<FleetRow>, terms: map<nat, Terms>, now: int,
                   strategy: Option<nat>, verdict: Option<Verdict>, limit: int)
    returns (counts: Counts, lists: map<Verdict, seq<Detail>>)
    ensures forall s, v :: At(counts, s, v) == Tally(rows, terms, now, s, v)
    ensures var shown := Shown(rows, terms, now, Wanted(strategy, verdict, Clamp(limit)));
      forall v :: v in lists && IsArranged(lists[v], shown, v)
  {
    var details;
    counts, details := Classify(rows, terms, now, Wanted(strategy, verdict, Clamp(limit)));
    lists := ArrangeAll(details);
  }
}
