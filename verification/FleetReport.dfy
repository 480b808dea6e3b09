/** The compliance report over the tables themselves: the active fleet joined to its
    assignments and its delivery columns, each device once. */
module FleetReport {
  import opened Options
  import opened Counting
  import opened Revisions
  import opened History
  import C = Console
  import Coherence
  import D = Delivery
  import P = Protocol
  import R = Registration
  import F = Fleet
  import Q = Compliance

  /** What the report is asked about, and the columns the tables of this model leave
      out: names, presence, dates and confirmation windows. */
  datatype View = View(
    asked: set<nat>,
    names: map<nat, string>,
    online: set<nat>,
    createdAt: map<nat, int>,      // of revisions, by row id
    updatedAt: map<nat, int>,      // of strategies
    timeouts: map<nat, int>,
    now: int)

  // ------------------------------------------------------------ the terms ---

  function TermsFor(db: C.Db, s: nat, view: View): Q.Terms
    requires s in db.strategies
  {
    var desired := F.ConfigOptions(db.strategies[s]);
    Q.Terms(desired,
            Q.ChangedAt(desired, PastOf(EntriesOf(db.revisions), s, view.createdAt),
                        if s in view.updatedAt then Some(view.updatedAt[s]) else None),
            if s in view.timeouts then view.timeouts[s] else 0)
  }

  /** The terms of the live strategies the report is asked about. */
  function TermsOf(db: C.Db, view: View): map<nat, Q.Terms> {
    map s | s in view.asked && C.IsLive(db, s) :: TermsFor(db, s, view)
  }

  lemma CarriedNow(db: C.Db, s: nat)
    requires Coherence.Good(db) && C.IsLive(db, s)
    ensures db.strategies[s].active.Some?
    ensures var a := db.strategies[s].active.value;
      && a < |db.revisions| && db.revisions[a].strategy == s
      && CountOf(db.revisions[..a], s) + 1 == CountOf(db.revisions, s)
      && EntryOf(db.revisions[a]).options == C.OptionMapOf(db.strategies[s])
  {
    assert Coherence.IsDescribed(db, s);
    var a := db.strategies[s].active.value;
    assert db.revisions[a].number == CountOf(db.revisions[..a], db.revisions[a].strategy) + 1;
    assert db.revisions[a].snapshot.options == C.OptionMapOf(db.strategies[s]);
  }

  /** On the tables the console leaves, history dates what an enabled strategy pushes,
      by the revision with which that very map came in; the fallback is never needed. */
  lemma HistoryDatesThePolicy(db: C.Db, s: nat, view: View)
    requires Coherence.Good(db) && C.IsLive(db, s) && db.strategies[s].enabled
    ensures TermsFor(db, s, view).desired == C.OptionMapOf(db.strategies[s])
    ensures TermsFor(db, s, view).timeoutMinutes == if s in view.timeouts then view.timeouts[s] else 0
    ensures exists i ::
      && CameIn(EntriesOf(db.revisions), s, C.OptionMapOf(db.strategies[s]), i)
      && TermsFor(db, s, view).changedAt == Some(Date(view.createdAt, i))
  {
    CarriedNow(db, s);
    HighestIsNewest(db.revisions, s, db.strategies[s].active.value);
    DatedByHistory(EntriesOf(db.revisions), s, db.strategies[s].active.value, view.createdAt,
                   if s in view.updatedAt then Some(view.updatedAt[s]) else None);
  }

  /** A disabled strategy is to push nothing. */
  lemma DisabledPushesNothing(db: C.Db, s: nat, view: View)
    requires s in db.strategies && !db.strategies[s].enabled
    ensures TermsFor(db, s, view).desired == map[]
  {
  }

  // ------------------------------------------------------------- the join ---

  predicate Counted(w: F.World, d: nat) {
    F.Talks(w, d) && w.ends[d].server.active
  }

  /** The active fleet; recycled devices are not found. */
  function ActiveFleet(w: F.World): set<nat> {
    set d | d in w.db.devices && Counted(w, d)
  }

  /** What a level's pivot holds for a device, if anything. */
  function JoinedAt(db: C.Db, level: C.Level, id: Option<nat>): Option<nat> {
    if id.Some? && C.Target(level, id.value) in db.assignments
    then Some(db.assignments[C.Target(level, id.value)]) else None
  }

  /** One device's row of the joined query. */
  function RowOf(w: F.World, d: nat, view: View): Q.FleetRow
    requires Counted(w, d)
  {
    var row := w.db.devices[d];
    Q.FleetRow(d, if d in view.names then view.names[d] else "", row.cached,
               JoinedAt(w.db, C.OnDevice, Some(d)), JoinedAt(w.db, C.OnUser, row.owner), JoinedAt(w.db, C.OnGroup, row.group),
               w.ends[d].server, d in view.online)
  }

  function RowsOf(w: F.World, ids: seq<nat>, view: View): seq<Q.FleetRow>
    requires Elements(ids) <= ActiveFleet(w)
  {
    if ids == [] then []
    else
      assert ids[|ids| - 1] in Elements(ids);
      RowsOf(w, ids[..|ids| - 1], view) + [RowOf(w, ids[|ids| - 1], view)]
  }

  /** The joined query's result: the active fleet, each device once, ordered by id. */
  function Joined(w: F.World, view: View): seq<Q.FleetRow> {
    AscendingIsEach(ActiveFleet(w));
    RowsOf(w, Ascending(ActiveFleet(w)), view)
  }

  /** A device's one verdict under a strategy, if it has any. */
  function VerdictOn(w: F.World, d: nat, view: View, s: nat): Option<Q.Verdict> {
    if Counted(w, d) then Q.VerdictFor(RowOf(w, d, view), TermsOf(w.db, view), view.now, s) else None
  }

  // -------------------------------------------------- tallies are head counts ---

  function VerdictsOn(w: F.World, view: View, s: nat): Q.Verdicts {
    map d | d in w.db.devices :: VerdictOn(w, d, view, s)
  }

  /** The devices with a verdict under a strategy. */
  function With(w: F.World, view: View, s: nat, v: Q.Verdict): set<nat> {
    Q.Having(VerdictsOn(w, view, s), v)
  }

  lemma {:induction false} TallyIsHits(w: F.World, ids: seq<nat>, view: View, s: nat, v: Q.Verdict)
    requires Elements(ids) <= ActiveFleet(w)
    ensures Q.Tally(RowsOf(w, ids, view), TermsOf(w.db, view), view.now, s, v) == Hits(ids, With(w, view, s, v))
  {
    if ids != [] {
      var before, last := ids[..|ids| - 1], ids[|ids| - 1];
      assert last in Elements(ids);
      TallyIsHits(w, before, view, s, v);
      var rows := RowsOf(w, ids, view);
      assert rows == RowsOf(w, before, view) + [RowOf(w, last, view)];
      assert rows[..|rows| - 1] == RowsOf(w, before, view);
    }
  }

  lemma TallyIsHeadCount(w: F.World, view: View, s: nat, v: Q.Verdict)
    ensures Q.Tally(Joined(w, view), TermsOf(w.db, view), view.now, s, v) == |With(w, view, s, v)|
  {
    var fleet, marked := ActiveFleet(w), With(w, view, s, v);
    AscendingIsEach(fleet);
    TallyIsHits(w, Ascending(fleet), view, s, v);
    HitsAreElements(Ascending(fleet), marked);
    assert fleet * marked == marked;
  }

  /** The strategy is assigned to the device at some level. */
  ghost predicate IsAssigned(db: C.Db, d: nat, s: nat)
    requires d in db.devices
  {
    exists t :: C.Reaches(d, db.devices[d], t) && t in db.assignments && db.assignments[t] == s
  }

  lemma AssignedIsJoined(w: F.World, d: nat, view: View, s: nat)
    requires Counted(w, d)
    ensures Q.AssignedTo(RowOf(w, d, view), s) <==> IsAssigned(w.db, d, s)
  {
    var row := w.db.devices[d];
    if t :| C.Reaches(d, row, t) && t in w.db.assignments && w.db.assignments[t] == s {
      assert t == C.Target(t.level, t.id);
    }
    if Q.AssignedTo(RowOf(w, d, view), s) {
      if JoinedAt(w.db, C.OnDevice, Some(d)) == Some(s) {
        assert C.Reaches(d, row, C.Target(C.OnDevice, d));
      } else if JoinedAt(w.db, C.OnUser, row.owner) == Some(s) {
        assert C.Reaches(d, row, C.Target(C.OnUser, row.owner.value));
      } else {
        assert C.Reaches(d, row, C.Target(C.OnGroup, row.group.value));
      }
    }
  }

  /** Approved, enabled and not recycled. */
  ghost predicate IsActive(w: F.World, d: nat)
    requires d in w.db.devices
  {
    !w.db.devices[d].trashed && d in w.ends && w.ends[d].server.active
  }

  /** The active devices that resolve to a strategy. */
  ghost function Governed(w: F.World, s: nat): set<nat> {
    set d | d in w.db.devices && IsActive(w, d) && C.Resolve(w.db, d) == Some(s)
  }

  /** The active devices assigned a strategy that resolve to another, or to none. */
  ghost function Lost(w: F.World, s: nat): set<nat> {
    set d | d in w.db.devices && IsActive(w, d) && IsAssigned(w.db, d, s) && C.Resolve(w.db, d) != Some(s)
  }

  lemma VerdictExactly(w: F.World, d: nat, view: View, s: nat)
    requires Coherence.Good(w.db) && Counted(w, d) && s in TermsOf(w.db, view)
    ensures VerdictOn(w, d, view, s) ==
      if C.Resolve(w.db, d) == Some(s) then
        Some(Q.StateFor(w.ends[d].server, d in view.online, TermsOf(w.db, view)[s], view.now))
      else if IsAssigned(w.db, d, s) then Some(Q.Overridden)
      else None
  {
    AssignedIsJoined(w, d, view, s);
    assert w.db.devices[d].cached == C.Resolve(w.db, d);
  }

  lemma VerdictMeans(w: F.World, d: nat, view: View, s: nat)
    requires Coherence.Good(w.db) && s in TermsOf(w.db, view) && d in w.db.devices
    ensures VerdictOn(w, d, view, s) == Some(Q.Overridden) <==> d in Lost(w, s)
    ensures VerdictOn(w, d, view, s).Some? && VerdictOn(w, d, view, s) != Some(Q.Overridden) <==> d in Governed(w, s)
  {
    if Counted(w, d) {
      VerdictExactly(w, d, view, s);
      var terms := TermsOf(w.db, view)[s];
      Q.VerdictsOnlyAge(w.ends[d].server, d in view.online, d in view.online, terms, view.now, view.now);
    } else {
      assert VerdictOn(w, d, view, s) == None;
    }
  }

  /** One verdict per device, said without the join: a device in neither set has none. */
  ghost predicate Sorts(verdicts: Q.Verdicts, governed: set<nat>, lost: set<nat>) {
    && governed <= verdicts.Keys && lost <= verdicts.Keys
    && (forall d :: d in verdicts ==> (d in governed <==> verdicts[d].Some? && verdicts[d] != Some(Q.Overridden)))
    && (forall d :: d in verdicts ==> (d in lost <==> verdicts[d] == Some(Q.Overridden)))
  }

  lemma VerdictsSort(w: F.World, view: View, s: nat)
    requires Coherence.Good(w.db) && s in TermsOf(w.db, view)
    ensures Sorts(VerdictsOn(w, view, s), Governed(w, s), Lost(w, s))
  {
    forall d | d in w.db.devices
      ensures VerdictOn(w, d, view, s) == Some(Q.Overridden) <==> d in Lost(w, s)
      ensures VerdictOn(w, d, view, s).Some? && VerdictOn(w, d, view, s) != Some(Q.Overridden) <==> d in Governed(w, s)
    {
      VerdictMeans(w, d, view, s);
    }
  }

  lemma SortedSets(verdicts: Q.Verdicts, governed: set<nat>, lost: set<nat>)
    requires Sorts(verdicts, governed, lost)
    ensures Q.Having(verdicts, Q.Overridden) == lost && Q.InAState(verdicts) == governed
  {
    forall d | d in verdicts
      ensures d in Q.InAState(verdicts) <==> d in governed
    {
      Q.InAStateIs(verdicts, d);
    }
  }

  /** Over the tables the console leaves: the four states partition the active devices
      that resolve to a strategy, and overridden is exactly the active devices assigned
      it at any level that resolve elsewhere, each counted once. */
  lemma ReportIsExact(w: F.World, view: View, s: nat)
    requires Coherence.Good(w.db) && s in TermsOf(w.db, view)
    ensures With(w, view, s, Q.Overridden) == Lost(w, s)
    ensures Q.InAState(VerdictsOn(w, view, s)) == Governed(w, s)
    ensures |With(w, view, s, Q.Confirmed)| + |With(w, view, s, Q.Waiting)| +
            |With(w, view, s, Q.Stale)| + |With(w, view, s, Q.Offline)| == |Governed(w, s)|
  {
    VerdictsSort(w, view, s);
    SortedSets(VerdictsOn(w, view, s), Governed(w, s), Lost(w, s));
    Q.StatesAddUp(VerdictsOn(w, view, s));
  }

  /** Every count is the number of devices it names. */
  ghost predicate HeadCounts(w: F.World, view: View, counts: Q.Counts) {
    && (forall s, v :: Q.At(counts, s, v) == |With(w, view, s, v)|)
    && (forall s :: s in TermsOf(w.db, view) ==> StrategyCounts(w, counts, s))
  }

  /** The four states count the devices governed, overridden those lost. */
  ghost predicate StrategyCounts(w: F.World, counts: Q.Counts, s: nat) {
    && Q.At(counts, s, Q.Confirmed) + Q.At(counts, s, Q.Waiting) +
       Q.At(counts, s, Q.Stale) + Q.At(counts, s, Q.Offline) == |Governed(w, s)|
    && Q.At(counts, s, Q.Overridden) == |Lost(w, s)|
  }

  lemma TalliesAreHeadCounts(w: F.World, view: View, counts: Q.Counts)
    requires Coherence.Good(w.db)
    requires forall s, v :: Q.At(counts, s, v) == Q.Tally(Joined(w, view), TermsOf(w.db, view), view.now, s, v)
    ensures HeadCounts(w, view, counts)
  {
    forall s, v
      ensures Q.At(counts, s, v) == |With(w, view, s, v)|
    {
      TallyIsHeadCount(w, view, s, v);
    }
    forall s | s in TermsOf(w.db, view)
      ensures StrategyCounts(w, counts, s)
    {
      ReportIsExact(w, view, s);
    }
  }

  lemma TalliesAddUp(w: F.World, view: View, s: nat)
    requires Coherence.Good(w.db) && s in TermsOf(w.db, view)
    ensures var rows, terms, now := Joined(w, view), TermsOf(w.db, view), view.now;
      && Q.Tally(rows, terms, now, s, Q.Confirmed) + Q.Tally(rows, terms, now, s, Q.Waiting) +
         Q.Tally(rows, terms, now, s, Q.Stale) + Q.Tally(rows, terms, now, s, Q.Offline) == |Governed(w, s)|
      && Q.Tally(rows, terms, now, s, Q.Overridden) == |Lost(w, s)|
  {
    TallyIsHeadCount(w, view, s, Q.Confirmed);
    TallyIsHeadCount(w, view, s, Q.Waiting);
    TallyIsHeadCount(w, view, s, Q.Stale);
    TallyIsHeadCount(w, view, s, Q.Offline);
    TallyIsHeadCount(w, view, s, Q.Overridden);
    ReportIsExact(w, view, s);
  }

  /** The detail rows of a request. */
  function Details(w: F.World, view: View, want: Q.Wanted): seq<Q.Detail> {
    Q.Shown(Joined(w, view), TermsOf(w.db, view), view.now, want)
  }

  /** As many rows are shown as there is room for. */
  lemma DetailsAreCounted(w: F.World, view: View, s: nat, limit: nat)
    requires Coherence.Good(w.db) && s in TermsOf(w.db, view)
    ensures |Details(w, view, Q.Wanted(Some(s), None, limit))| == Q.Min(limit, |Governed(w, s)| + |Lost(w, s)|)
  {
    TalliesAddUp(w, view, s);
    Q.MatchesAreCounted(Joined(w, view), TermsOf(w.db, view), view.now, Q.Wanted(Some(s), None, limit));
  }

  ghost predicate AllArranged(lists: map<Q.Verdict, seq<Q.Detail>>, details: seq<Q.Detail>) {
    forall v :: v in lists && Q.IsArranged(lists[v], details, v)
  }

  ghost predicate FillsTheRoom(w: F.World, view: View, want: Q.Wanted) {
    want.strategy.Some? && want.strategy.value in TermsOf(w.db, view) && want.verdict.None? ==>
      |Details(w, view, want)| == Q.Min(want.limit, |Governed(w, want.strategy.value)| + |Lost(w, want.strategy.value)|)
  }

  lemma RoomIsFilled(w: F.World, view: View, want: Q.Wanted)
    requires Coherence.Good(w.db)
    ensures FillsTheRoom(w, view, want)
  {
    if want.strategy.Some? && want.strategy.value in TermsOf(w.db, view) && want.verdict.None? {
      DetailsAreCounted(w, view, want.strategy.value, want.limit);
    }
  }

  /** The report on the tables: every count is the number of devices it names, and the
      details are the first matches there is room for, ordered within each state. */
  method Report(w: F.World, view: View, strategy: Option<nat>, verdict: Option<Q.Verdict>, limit: int)
    returns (counts: Q.Counts, lists: map<Q.Verdict, seq<Q.Detail>>)
    requires Coherence.Good(w.db)
    ensures HeadCounts(w, view, counts)
    ensures AllArranged(lists, Details(w, view, Q.Wanted(strategy, verdict, Q.Clamp(limit))))
    ensures FillsTheRoom(w, view, Q.Wanted(strategy, verdict, Q.Clamp(limit)))
  {
    var rows, terms := Joined(w, view), TermsOf(w.db, view);
    counts, lists := Q.Summaries(rows, terms, view.now, strategy, verdict, limit);
    TalliesAreHeadCounts(w, view, counts);
    RoomIsFilled(w, view, Q.Wanted(strategy, verdict, Q.Clamp(limit)));
  }

  // ------------------------------------------------------ and tell the truth ---

  lemma ConfirmedEnd(s: P.State, desired: OptionMap)
    requires R.Paired(s) && s.client.touched == {} && !s.reinstalled
    requires Q.IsConfirmed(s.server, desired) && s.server.sent == desired
    ensures s.client.held == P.Effective(desired)
  {
    if P.Inv(s) {
      P.BeliefAt(s);
    }
  }

  /** Over every interleaving of console and fleet: a device counted as confirmed whose
      stored sent map is the wanted one holds what precedence wants of it, provided
      nobody but its row wrote its settings. */
  lemma ConfirmedHoldsPolicy(events: seq<F.Event>, d: nat, view: View, s: nat)
    requires F.UnclashedRun(F.START, events, d)
    requires var w := F.Run(F.START, events);
      && VerdictOn(w, d, view, s) == Some(Q.Confirmed)
      && w.ends[d].server.sent == F.Wanted(w.db, d)
      && w.ends[d].client.touched == {} && !w.ends[d].reinstalled
    ensures var w := F.Run(F.START, events);
      C.Resolve(w.db, d) == Some(s) && w.ends[d].client.held == P.Effective(F.Wanted(w.db, d))
  {
    Coherence.EmptyIsGood();
    F.RunInv(F.START, events, d);
    F.PairedRun(F.START, events, d);
    var w := F.Run(F.START, events);
    ConfirmedIsWanted(w, d, view, s);
    ConfirmedEnd(w.ends[d], F.Wanted(w.db, d));
  }

  /** A confirmed device acknowledged what precedence wants of it now. */
  lemma ConfirmedIsWanted(w: F.World, d: nat, view: View, s: nat)
    requires Coherence.Good(w.db) && VerdictOn(w, d, view, s) == Some(Q.Confirmed)
    ensures C.Resolve(w.db, d) == Some(s) && Q.IsConfirmed(w.ends[d].server, F.Wanted(w.db, d))
  {
    F.PolicyIsWanted(w.db, d);
    VerdictExactly(w, d, view, s);
  }

  // -------------------------------------------- what confirmed is worth ---

  /** Nobody but its row writes the device's settings, and the row stays. */
  ghost predicate Undisturbed(events: seq<F.Event>, d: nat) {
    && F.NeverPurged(events, d)
    && forall i :: 0 <= i < |events| && events[i].AtDevice? && events[i].d == d ==>
         !events[i].step.LocalEdit? && !events[i].step.Reinstall?
  }

  ghost predicate Clean(w: F.World, d: nat) {
    d in w.ends ==>
      d in w.db.devices && P.Inv(w.ends[d]) && w.ends[d].client.touched == {} && !w.ends[d].reinstalled
  }

  lemma CleanNext(w: F.World, e: F.Event, d: nat)
    requires Clean(w, d) && Undisturbed([e], d)
    ensures Clean(F.Next(w, e), d)
  {
    P.StartInv();
    assert [e][0] == e;
    if d in w.ends {
      if e.Console? { F.RowStays(w.db, e.op, d); }
      if e.AtDevice? { P.NextInv(w.ends[d], e.step); }
      if e.Heartbeat? && F.Talks(w, d) { P.BeatInv(w.ends[d], F.PolicyFor(w.db, d), e.now, e.delivered); }
    }
  }

  lemma {:induction false} CleanRun(w: F.World, events: seq<F.Event>, d: nat)
    requires Clean(w, d) && Undisturbed(events, d)
    ensures Clean(F.Run(w, events), d)
    decreases |events|
  {
    if events != [] {
      assert events[..1] == [events[0]];
      CleanNext(w, events[0], d);
      CleanRun(F.Next(w, events[0]), events[1..], d);
    }
  }

  /** The report cannot tell these two apart. */
  ghost predicate LooksLike(u: F.World, w: F.World, d: nat) {
    u.db == w.db && d in u.ends && d in w.ends && u.ends[d].server == w.ends[d].server
  }

  /** The device is behind a token that stands for another map than it acknowledged. */
  ghost predicate Lagging(s: P.State) {
    P.Behind(s) && s.server.version.Some? && s.server.sent != s.server.acked
  }

  /** The endpoint was as it is, or would be up to date had the answer arrived. */
  ghost predicate CouldCatchUp(s: P.State, next: P.State, on: P.State) {
    (Lagging(s) && s.server == next.server) || (on.server == next.server && !P.Behind(on))
  }

  /** If a heartbeat leaves a client lagging, either it changed nothing or its answer,
      had it arrived, would have brought the client up to date. */
  lemma LaggingBeat(s: P.State, policy: D.Policy, now: int, delivered: bool)
    requires P.Inv(s) && Lagging(P.Beat(s, policy, now, delivered))
    ensures CouldCatchUp(s, P.Beat(s, policy, now, delivered), P.Beat(s, policy, now, true))
  {
    D.RespondIsFair(s.server, policy, s.client.token, now);
  }

  lemma {:induction false} RunLast(w: F.World, events: seq<F.Event>, e: F.Event)
    ensures F.Run(w, events + [e]) == F.Next(F.Run(w, events), e)
    decreases |events|
  {
    if events == [] {
      assert (events + [e])[1..] == [];
      assert F.Run(F.Next(w, e), []) == F.Next(w, e);
    } else {
      assert (events + [e])[1..] == events[1..] + [e];
      RunLast(F.Next(w, events[0]), events[1..], e);
    }
  }

  lemma UndisturbedSplit(events: seq<F.Event>, e: F.Event, d: nat)
    ensures Undisturbed(events + [e], d) <==> Undisturbed(events, d) && Undisturbed([e], d)
  {
    var all := events + [e];
    assert all[|events|] == e == [e][0];
    assert forall i :: 0 <= i < |events| ==> all[i] == events[i];
  }

  /** The heartbeat's answer would have brought the device up to date unnoticed. */
  ghost predicate CatchesUp(v: F.World, e: F.Event, d: nat)
    requires e.Heartbeat?
  {
    var on := F.Next(v, F.Heartbeat(d, e.now, true));
    LooksLike(on, F.Next(v, e), d) && !P.Behind(on.ends[d])
  }

  lemma HeartbeatEnd(v: F.World, d: nat, now: int, delivered: bool)
    requires F.Talks(v, d)
    ensures F.Next(v, F.Heartbeat(d, now, delivered)) ==
      v.(ends := v.ends[d := P.Beat(v.ends[d], F.PolicyFor(v.db, d), now, delivered)])
  {
  }

  lemma LaggingTalk(v: F.World, e: F.Event, d: nat, next: P.State, on: P.State)
    requires e.Heartbeat? && e.d == d && F.Talks(v, d)
    requires F.Next(v, e) == v.(ends := v.ends[d := next])
    requires F.Next(v, F.Heartbeat(d, e.now, true)) == v.(ends := v.ends[d := on])
    requires CouldCatchUp(v.ends[d], next, on)
    ensures (Lagging(v.ends[d]) && LooksLike(v, F.Next(v, e), d)) || CatchesUp(v, e, d)
  {
  }

  /** What the last event did to a lagging device: a heartbeat of its own either did
      nothing or could have caught up ... */
  lemma LaggingHeartbeat(v: F.World, e: F.Event, d: nat)
    requires Clean(v, d) && e.Heartbeat? && e.d == d
    requires d in F.Next(v, e).ends && Lagging(F.Next(v, e).ends[d])
    ensures d in v.ends
    ensures (Lagging(v.ends[d]) && LooksLike(v, F.Next(v, e), d)) || CatchesUp(v, e, d)
  {
    if F.Talks(v, d) {
      var s, policy := v.ends[d], F.PolicyFor(v.db, d);
      HeartbeatEnd(v, d, e.now, e.delivered);
      HeartbeatEnd(v, d, e.now, true);
      LaggingBeat(s, policy, e.now, e.delivered);
      LaggingTalk(v, e, d, P.Beat(s, policy, e.now, e.delivered), P.Beat(s, policy, e.now, true));
    }
  }

  /** ... and nothing else made it lag. */
  lemma LaggingBefore(v: F.World, e: F.Event, d: nat)
    requires Clean(v, d) && Undisturbed([e], d) && !(e.Heartbeat? && e.d == d)
    requires d in F.Next(v, e).ends && Lagging(F.Next(v, e).ends[d])
    ensures d in v.ends && Lagging(v.ends[d])
  {
    assert [e][0] == e;
    if d in v.ends && e.Console? {
      F.RowStays(v.db, e.op, d);
    }
  }

  /** An event that leaves a device lagging acts alike on states that look alike. */
  lemma LikewiseNext(u: F.World, v: F.World, e: F.Event, d: nat)
    requires Clean(u, d) && Clean(v, d) && Undisturbed([e], d) && LooksLike(u, v, d)
    requires !(e.Heartbeat? && e.d == d) && !P.Behind(u.ends[d])
    ensures LooksLike(F.Next(u, e), F.Next(v, e), d) && !P.Behind(F.Next(u, e).ends[d])
  {
    assert [e][0] == e;
    if e.Console? { F.RowStays(v.db, e.op, d); }
  }

  /** Some undisturbed run that looks the same to the report has the client up to date. */
  lemma {:induction false} UpToDateTwin(events: seq<F.Event>, d: nat) returns (other: seq<F.Event>)
    requires Undisturbed(events, d)
    requires var w := F.Run(F.START, events); d in w.ends && Lagging(w.ends[d])
    ensures Undisturbed(other, d)
    ensures var u := F.Run(F.START, other); LooksLike(u, F.Run(F.START, events), d) && !P.Behind(u.ends[d])
    decreases |events|
  {
    var n := |events| - 1;
    var before, e := events[..n], events[n];
    assert events == before + [e];
    RunLast(F.START, before, e);
    UndisturbedSplit(before, e, d);
    CleanRun(F.START, before, d);
    var v := F.Run(F.START, before);
    if e.Heartbeat? && e.d == d {
      LaggingHeartbeat(v, e, d);
    } else {
      LaggingBefore(v, e, d);
    }
    if e.Heartbeat? && e.d == d && CatchesUp(v, e, d) {
      var on := F.Heartbeat(d, e.now, true);
      other := before + [on];
      RunLast(F.START, before, on);
      UndisturbedSplit(before, on, d);
    } else {
      other := UpToDateTwin(before, d);
      if !(e.Heartbeat? && e.d == d) {
        CleanRun(F.START, other, d);
        LikewiseNext(F.Run(F.START, other), v, e, d);
        RunLast(F.START, other, e);
        UndisturbedSplit(other, e, d);
        other := other + [e];
      }
    }
  }

  /** Every undisturbed run that looks like this one leaves the device holding what
      precedence wants. */
  ghost predicate Vouched(w: F.World, d: nat)
    requires d in w.db.devices
  {
    forall other :: Undisturbed(other, d) && LooksLike(F.Run(F.START, other), w, d) ==>
      F.Run(F.START, other).ends[d].client.held == P.Effective(F.Wanted(w.db, d))
  }

  lemma HeldByBelief(events: seq<F.Event>, d: nat)
    requires Undisturbed(events, d) && d in F.Run(F.START, events).ends
    ensures var s := F.Run(F.START, events).ends[d];
      && P.Inv(s) && s.client.held == P.Effective(if P.Behind(s) then s.server.acked else s.server.sent)
  {
    CleanRun(F.START, events, d);
    P.BeliefAt(F.Run(F.START, events).ends[d]);
  }

  /** What a confirmed count is worth, over every interleaving of console and fleet:
      what the report sees vouches for the device exactly when the stored sent map has
      the effect of the wanted one. */
  lemma ConfirmedAsSeen(events: seq<F.Event>, d: nat, view: View, s: nat)
    requires Undisturbed(events, d)
    requires VerdictOn(F.Run(F.START, events), d, view, s) == Some(Q.Confirmed)
    ensures var w := F.Run(F.START, events);
      Vouched(w, d) <==> P.Effective(w.ends[d].server.sent) == P.Effective(F.Wanted(w.db, d))
  {
    var w := F.Run(F.START, events);
    Coherence.EmptyIsGood();
    F.RunInv(F.START, events, d);
    ConfirmedIsWanted(w, d, view, s);
    var want := F.Wanted(w.db, d);
    if P.Effective(w.ends[d].server.sent) == P.Effective(want) {
      forall other | Undisturbed(other, d) && LooksLike(F.Run(F.START, other), w, d)
        ensures F.Run(F.START, other).ends[d].client.held == P.Effective(want)
      {
        HeldByBelief(other, d);
      }
    } else {
      HeldByBelief(events, d);
      var other := events;
      if P.Behind(w.ends[d]) {
        other := UpToDateTwin(events, d);
      }
      HeldByBelief(other, d);
      assert LooksLike(F.Run(F.START, other), w, d);
    }
  }
}
