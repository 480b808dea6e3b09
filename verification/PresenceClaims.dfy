/** Who may act on a claim, and how many recoveries there can be, with and without
    a legacy marker. */
module PresenceClaims {
  import opened Presence

  // ----------------------------------------------------- taken-over claims ---

  /** The contender carries a token for the durable row. */
  predicate Claims(pc: Pc) {
    pc.SweepReclaim? || pc.SweepSend? || pc.SweepMark? || pc.SweepRelease?
  }

  /** A row token is either kept or freshly drawn; a pending row is under the token
      of whoever made it so. */
  lemma TurnTokens(s: Shared, pc: Pc, sent: bool)
    ensures var (s', pc') := Turn(s, pc, sent);
      && s.unused <= s'.unused
      && (Claims(pc') ==> if Claims(pc) then pc'.token == pc.token else pc'.token == s.unused < s'.unused)
      && (pc'.SweepReclaim? ==> !Claims(pc))
      && (s'.row.Pending? ==> s'.row == s.row || (Claims(pc') && s'.row.token == pc'.token))
      && (s'.row.Pending? && s'.row != s.row && Claims(pc) ==> pc.SweepReclaim?)
  {
  }

  ghost predicate TokensDistinct(w: World) {
    && (w.shared.row.Pending? ==> w.shared.row.token < w.shared.unused)
    && (forall i :: 0 <= i < |w.contenders| && Claims(w.contenders[i]) ==> w.contenders[i].token < w.shared.unused)
    && (forall i, j :: 0 <= i < |w.contenders| && 0 <= j < |w.contenders| && i != j ==>
          Claims(w.contenders[i]) && Claims(w.contenders[j]) ==> w.contenders[i].token != w.contenders[j].token)
  }

  lemma DistinctNext(w: World, step: Step)
    requires TokensDistinct(w)
    ensures TokensDistinct(Next(w, step))
  {
    if step.Act? && step.i < |w.contenders| {
      TurnTokens(w.shared, w.contenders[step.i], step.sent);
    }
  }

  lemma {:induction false} DistinctRun(w: World, steps: seq<Step>)
    requires TokensDistinct(w)
    ensures TokensDistinct(Run(w, steps))
    decreases |steps|
  {
    if steps != [] {
      DistinctNext(w, steps[0]);
      DistinctRun(Next(w, steps[0]), steps[1..]);
    }
  }

  /** Token `t` is spent: the row is not pending under it and nobody can make it so. */
  ghost predicate Spent(w: World, t: nat) {
    && t < w.shared.unused
    && !OwnedPending(w.shared.row, t)
    && forall i :: 0 <= i < |w.contenders| && w.contenders[i].SweepReclaim? ==> w.contenders[i].token != t
  }

  lemma SpentNext(w: World, step: Step, t: nat)
    requires Spent(w, t)
    ensures Spent(Next(w, step), t)
  {
    if step.Act? && step.i < |w.contenders| {
      TurnTokens(w.shared, w.contenders[step.i], step.sent);
    }
  }

  lemma {:induction false} SpentRun(w: World, steps: seq<Step>, t: nat)
    requires Spent(w, t)
    ensures Spent(Run(w, steps), t)
    decreases |steps|
  {
    if steps != [] {
      SpentNext(w, steps[0], t);
      SpentRun(Next(w, steps[0]), steps[1..], t);
    }
  }

  /** A contender past its claim whose row is gone holds a spent token. */
  lemma LosingSpends(w: World, i: nat)
    requires TokensDistinct(w) && i < |w.contenders|
    requires Claims(w.contenders[i]) && !w.contenders[i].SweepReclaim?
    requires !OwnedPending(w.shared.row, w.contenders[i].token)
    ensures Spent(w, w.contenders[i].token)
  {
  }

  /** Once a contender's claim has been taken over, then after any further run, and
      whoever owns the row by then, neither its completion nor its release touches
      the row or counts as a mark. */
  lemma LateOwnerIsPowerless(now: int, row: Row, marker: bool, lock: Lock, before: seq<Step>, i: nat, after: seq<Step>, sent: bool)
    requires var w := Run(Start(now, row, marker, lock), before);
      && i < |w.contenders| && Claims(w.contenders[i]) && !w.contenders[i].SweepReclaim?
      && !OwnedPending(w.shared.row, w.contenders[i].token)
    requires var w := Run(Start(now, row, marker, lock), before);
      var e := Run(w, after);
      i < |e.contenders| && Claims(e.contenders[i]) && e.contenders[i].token == w.contenders[i].token
    ensures var e := Run(Run(Start(now, row, marker, lock), before), after);
      var (s, _) := Turn(e.shared, e.contenders[i], sent);
      s.row == e.shared.row && s.trace == e.shared.trace
  {
    DistinctRun(Start(now, row, marker, lock), before);
    var w := Run(Start(now, row, marker, lock), before);
    LosingSpends(w, i);
    SpentRun(w, after, w.contenders[i].token);
  }

  /** Clock readings a contender carries are not in the future. */
  ghost predicate ReadingsPast(w: World) {
    forall i :: 0 <= i < |w.contenders| ==>
      var pc := w.contenders[i];
      pc.SweepInsert? || pc.SweepReclaim? ==> pc.asOf <= w.shared.now
  }

  lemma TurnReadings(s: Shared, pc: Pc, sent: bool)
    requires pc.SweepInsert? || pc.SweepReclaim? ==> pc.asOf <= s.now
    ensures var (s', pc') := Turn(s, pc, sent);
      && s'.now == s.now
      && (pc'.SweepInsert? || pc'.SweepReclaim? ==> pc'.asOf <= s'.now)
      && (s.row.Pending? && s.now < s.row.at + CLAIM_TIMEOUT_SECONDS && s'.row != s.row ==>
            (pc.SweepMark? || pc.SweepRelease?) && pc.token == s.row.token)
  {
  }

  lemma {:induction false} ReadingsRun(w: World, steps: seq<Step>)
    requires ReadingsPast(w)
    ensures ReadingsPast(Run(w, steps))
    decreases |steps|
  {
    if steps != [] {
      if steps[0].Act? && steps[0].i < |w.contenders| {
        TurnReadings(w.shared, w.contenders[steps[0].i], steps[0].sent);
      }
      ReadingsRun(Next(w, steps[0]), steps[1..]);
    }
  }

  /** Before its timeout a claim yields to nobody: only the contender that carries
      its token, completing or releasing it, can change the row. */
  lemma YoungClaimIsSafe(now: int, row: Row, marker: bool, lock: Lock, before: seq<Step>, step: Step)
    requires var s := Run(Start(now, row, marker, lock), before).shared;
      s.row.Pending? && s.now - s.row.at < 300
    ensures var w := Run(Start(now, row, marker, lock), before);
      Next(w, step).shared.row != w.shared.row ==>
        && step.Act? && step.i < |w.contenders|
        && (w.contenders[step.i].SweepMark? || w.contenders[step.i].SweepRelease?)
        && w.contenders[step.i].token == w.shared.row.token
  {
    ReadingsRun(Start(now, row, marker, lock), before);
    var w := Run(Start(now, row, marker, lock), before);
    if step.Act? && step.i < |w.contenders| {
      TurnReadings(w.shared, w.contenders[step.i], step.sent);
    }
  }

  // ---------------------------------------------------------- conservation ---

  /** Markers a contender has taken and not yet put anywhere. */
  function Carried(pc: Pc): nat {
    if pc.ConvertRecord? then 1
    else if (pc.DrainCheck? || pc.DrainPull?) && pc.durable then 1
    else 0
  }

  function CarriedByAll(pcs: seq<Pc>): nat {
    if pcs == [] then 0 else CarriedByAll(pcs[..|pcs| - 1]) + Carried(pcs[|pcs| - 1])
  }

  lemma {:induction false} CarriedUpdate(pcs: seq<Pc>, i: nat, pc: Pc)
    requires i < |pcs|
    ensures CarriedByAll(pcs[i := pc]) == CarriedByAll(pcs) - Carried(pcs[i]) + Carried(pc)
  {
    var n := |pcs| - 1;
    if i < n {
      CarriedUpdate(pcs[..n], i, pc);
      assert pcs[i := pc][..n] == pcs[..n][i := pc];
    } else {
      assert pcs[i := pc][..n] == pcs[..n];
    }
  }

  function Stored(s: Shared): nat {
    (if s.row.Delivered? then 1 else 0) + (if s.marker then 1 else 0)
  }

  /** Recoveries, less the marks that pay for them. */
  function Balance(trace: seq<Event>): int {
    multiset(trace)[Recovered] as int - multiset(trace)[Marked] as int
  }

  lemma BalanceAppend(trace: seq<Event>, e: Event)
    ensures Balance(trace + [e]) == Balance(trace) + if e == Recovered then 1 else -1
  {
  }

  lemma TurnPulls(s: Shared, pc: Pc, sent: bool)
    ensures var (s', _) := Turn(s, pc, sent);
      s'.pulls + (if s'.marker then 1 else 0) == s.pulls + (if s.marker then 1 else 0)
  {
  }

  /** A turn moves markers about but never makes one without a mark. */
  lemma TurnConserves(s: Shared, pc: Pc, sent: bool)
    ensures var (s', pc') := Turn(s, pc, sent);
      Balance(s'.trace) + Stored(s') + Carried(pc') <= Balance(s.trace) + Stored(s) + Carried(pc)
  {
    var (s', pc') := Turn(s, pc, sent);
    TurnAppends(s, pc, sent);
    if s'.trace == s.trace + [Recovered] {
      BalanceAppend(s.trace, Recovered);
    } else if s'.trace == s.trace + [Marked] {
      BalanceAppend(s.trace, Marked);
    }
  }

  /** The same, with the announcement weighed by its kind. */
  lemma TurnAppends(s: Shared, pc: Pc, sent: bool)
    ensures var (s', pc') := Turn(s, pc, sent);
      || (s'.trace == s.trace && Stored(s') + Carried(pc') <= Stored(s) + Carried(pc))
      || (s'.trace == s.trace + [Recovered] && Stored(s') + Carried(pc') + 1 <= Stored(s) + Carried(pc))
      || (s'.trace == s.trace + [Marked] && Stored(s') + Carried(pc') <= Stored(s) + Carried(pc) + 1)
  {
  }

  /** Recoveries and markers still about, against marks delivered and markers given. */
  ghost predicate Conserved(w: World, given: nat, legacy: nat) {
    && Balance(w.shared.trace) + Stored(w.shared) + CarriedByAll(w.contenders) <= given
    && w.shared.pulls + (if w.shared.marker then 1 else 0) <= legacy
  }

  lemma ConservedAct(w: World, i: nat, sent: bool, given: nat, legacy: nat)
    requires Conserved(w, given, legacy) && i < |w.contenders|
    ensures Conserved(Next(w, Act(i, sent)), given, legacy)
  {
    TurnConserves(w.shared, w.contenders[i], sent);
    TurnPulls(w.shared, w.contenders[i], sent);
    CarriedUpdate(w.contenders, i, Turn(w.shared, w.contenders[i], sent).1);
  }

  lemma CarriedAppend(pcs: seq<Pc>, pc: Pc)
    ensures CarriedByAll(pcs + [pc]) == CarriedByAll(pcs) + Carried(pc)
  {
    assert (pcs + [pc])[..|pcs|] == pcs;
  }

  lemma CarriedOtherwise(w: World, step: Step)
    requires !step.Act?
    ensures CarriedByAll(Next(w, step).contenders) <= CarriedByAll(w.contenders)
  {
    match step
    case Spawn(sweep) => CarriedAppend(w.contenders, if sweep then SweepLock else RecoverLock);
    case Die(i) => if i < |w.contenders| { CarriedUpdate(w.contenders, i, Done); }
    case Tick(seconds) =>
    case Expire =>
  }

  lemma ConservedOtherwise(w: World, step: Step, given: nat, legacy: nat)
    requires Conserved(w, given, legacy) && !step.Act?
    ensures Conserved(Next(w, step), given, legacy)
  {
    CarriedOtherwise(w, step);
    assert Stored(Next(w, step).shared) <= Stored(w.shared);
  }

  lemma {:induction false} ConservedRun(w: World, steps: seq<Step>, given: nat, legacy: nat)
    requires Conserved(w, given, legacy)
    ensures Conserved(Run(w, steps), given, legacy)
    decreases |steps|
  {
    if steps != [] {
      if !steps[0].Act? {
        ConservedOtherwise(w, steps[0], given, legacy);
      } else if steps[0].i < |w.contenders| {
        ConservedAct(w, steps[0].i, steps[0].sent, given, legacy);
      }
      ConservedRun(Next(w, steps[0]), steps[1..], given, legacy);
    }
  }

  /** Short of its own lifetime ending, a legacy marker goes only by being pulled. */
  lemma {:induction false} PullsAreExact(w: World, steps: seq<Step>)
    requires forall i :: 0 <= i < |steps| ==> !steps[i].Expire?
    ensures var e := Run(w, steps);
      e.shared.pulls + (if e.shared.marker then 1 else 0) == w.shared.pulls + (if w.shared.marker then 1 else 0)
    decreases |steps|
  {
    if steps != [] {
      assert !steps[0].Expire?;
      if steps[0].Act? && steps[0].i < |w.contenders| {
        TurnPulls(w.shared, w.contenders[steps[0].i], steps[0].sent);
      }
      PullsAreExact(Next(w, steps[0]), steps[1..]);
    }
  }

  /** On every run, expired locks and crashes included: recoveries plus markers still
      outstanding never exceed delivered marks plus the markers there at the start;
      a legacy marker is pulled at most once in all, and unless its lifetime ended it
      is still there or was pulled exactly once. */
  lemma MarkersAreConserved(now: int, row: Row, marker: bool, lock: Lock, steps: seq<Step>)
    ensures var w := Run(Start(now, row, marker, lock), steps);
      && multiset(w.shared.trace)[Recovered] + Stored(w.shared) + CarriedByAll(w.contenders) <=
           multiset(w.shared.trace)[Marked] + Stored(Start(now, row, marker, lock).shared)
      && w.shared.pulls + (if w.shared.marker then 1 else 0) <= (if marker then 1 else 0)
      && ((forall i :: 0 <= i < |steps| ==> !steps[i].Expire?) ==>
            w.shared.pulls + (if w.shared.marker then 1 else 0) == if marker then 1 else 0)
  {
    if forall i :: 0 <= i < |steps| ==> !steps[i].Expire? {
      PullsAreExact(Start(now, row, marker, lock), steps);
    }
    var start := Start(now, row, marker, lock);
    ConservedRun(start, steps, Stored(start.shared), if marker then 1 else 0);
  }

  // ----------------------------------------- legacy markers, timely locks ---

  /** The contender is inside the section the legacy claim guards. */
  predicate Critical(pc: Pc) {
    pc.SweepHas? || pc.SweepUnlock? || Converts(pc) || pc.RecoverHas? || pc.RecoverUnlock? ||
    pc.DrainRow? || pc.DrainCheck? || pc.DrainPull? || pc.DrainUnlock?
  }

  /** The contender saw the marker and has not finished with it. */
  predicate SawMarker(pc: Pc) {
    pc.ConvertCheck? || pc.ConvertPull? || pc.ConvertRecord? || pc.DrainRow? || pc.DrainCheck? || pc.DrainPull?
  }

  /** The contender saw that there was no marker. */
  predicate SawNone(pc: Pc) {
    pc.SweepUnlock? || pc.SweepClock? || pc.SweepInsert? || Claims(pc) || pc.RecoverUnlock? || pc.RecoverConsume?
  }

  predicate Draining(pc: Pc) { pc.DrainCheck? || pc.DrainPull? }

  /** No live holder of the legacy claim outlives it. */
  ghost predicate Timely(w: World, step: Step) {
    step.Tick? ==>
      forall i :: 0 <= i < |w.contenders| && Critical(w.contenders[i]) ==>
        Owns(w.shared.lock, w.contenders[i].token, w.shared.now + step.seconds)
  }

  ghost predicate TimelyRun(w: World, steps: seq<Step>)
    decreases |steps|
  {
    steps == [] || (Timely(w, steps[0]) && TimelyRun(Next(w, steps[0]), steps[1..]))
  }

  /** Inside the section a contender owns the claim, and it is there alone. */
  ghost predicate Exclusive(w: World) {
    && (forall i :: 0 <= i < |w.contenders| && Critical(w.contenders[i]) ==>
          Owns(w.shared.lock, w.contenders[i].token, w.shared.now))
    && (forall i, j :: 0 <= i < |w.contenders| && 0 <= j < |w.contenders| && i != j ==>
          !(Critical(w.contenders[i]) && Critical(w.contenders[j])))
  }

  lemma TurnLock(s: Shared, pc: Pc, sent: bool)
    ensures var (s', pc') := Turn(s, pc, sent);
      && s'.now == s.now
      && (Critical(pc) && Critical(pc') ==> pc'.token == pc.token && s'.lock == s.lock)
      && (!Critical(pc) && Critical(pc') ==>
            Acquirable(s.lock, s.now) && s'.lock == Held(pc'.token, s.now + CLAIM_TIMEOUT_SECONDS))
      && (!Critical(pc) && !Critical(pc') ==> s'.lock == s.lock)
  {
  }

  /** The marker is pulled only by a contender whose claim was found to stand in the query
      before; one that finds its claim gone leaves the marker alone and is done. */
  lemma OnlyOwnersPull(s: Shared, pc: Pc, sent: bool)
    ensures var (s', pc') := Turn(s, pc, sent);
      && (s'.pulls != s.pulls || s'.marker != s.marker ==> pc.ConvertPull? || pc.DrainPull?)
      && (pc'.ConvertPull? || pc'.DrainPull? ==> (pc.ConvertCheck? || pc.DrainCheck?) && Owns(s.lock, pc.token, s.now))
      && ((pc.ConvertCheck? || pc.DrainCheck?) && !Owns(s.lock, pc.token, s.now) ==> pc'.Done? && s'.marker == s.marker)
  {
  }

  /** A claim on the legacy marker that has not run out changes hands through nobody but
      its holder: a holder that outlived its own claim cannot free another's. */
  lemma LiveLockIsSafe(s: Shared, pc: Pc, sent: bool)
    requires s.lock.Held? && s.now < s.lock.expires && Turn(s, pc, sent).0.lock != s.lock
    ensures Critical(pc) && pc.token == s.lock.owner && Turn(s, pc, sent).0.lock == Free
  {
  }

  lemma ExclusiveNext(w: World, step: Step)
    requires Exclusive(w) && Timely(w, step)
    ensures Exclusive(Next(w, step))
  {
    if step.Act? && step.i < |w.contenders| {
      TurnLock(w.shared, w.contenders[step.i], step.sent);
    }
  }

  /** While anybody knows of a marker, nobody believes there is none. */
  ghost predicate Apart(w: World) {
    && (w.shared.marker || (exists i :: 0 <= i < |w.contenders| && SawMarker(w.contenders[i])) ==>
          forall j :: 0 <= j < |w.contenders| ==> !SawNone(w.contenders[j]))
    && (forall i :: 0 <= i < |w.contenders| && Draining(w.contenders[i]) ==> !w.shared.row.Delivered?)
  }

  lemma TurnSees(s: Shared, pc: Pc, sent: bool)
    ensures var (s', pc') := Turn(s, pc, sent);
      && (s'.marker ==> s.marker)
      && (SawMarker(pc') ==> SawMarker(pc) || s.marker)
      && (SawNone(pc') ==> SawNone(pc) || (!s.marker && Critical(pc)))
      && (!s.row.Delivered? && s'.row.Delivered? ==> SawNone(pc) || pc.ConvertRecord?)
      && (Draining(pc') && (Draining(pc) ==> !s.row.Delivered?) ==> !s'.row.Delivered?)
  {
  }

  lemma ApartAct(w: World, i: nat, sent: bool)
    requires Exclusive(w) && Apart(w) && i < |w.contenders|
    ensures Apart(Next(w, Act(i, sent)))
  {
    var next := Next(w, Act(i, sent));
    TurnSees(w.shared, w.contenders[i], sent);
    if k :| 0 <= k < |next.contenders| && SawMarker(next.contenders[k]) {
      assert SawMarker(w.contenders[k]) || w.shared.marker;
      assert forall j :: 0 <= j < |w.contenders| ==> !SawNone(w.contenders[j]);
      assert k != i ==> !Critical(w.contenders[i]);
    }
    forall k | 0 <= k < |next.contenders| && Draining(next.contenders[k])
      ensures !next.shared.row.Delivered?
    {
      assert SawMarker(next.contenders[k]);
      assert SawMarker(w.contenders[k]) || w.shared.marker;
      assert k != i ==> Draining(w.contenders[k]) && !Critical(w.contenders[i]);
    }
  }

  lemma ApartNext(w: World, step: Step)
    requires Exclusive(w) && Apart(w)
    ensures Apart(Next(w, step))
  {
    if step.Act? && step.i < |w.contenders| {
      ApartAct(w, step.i, step.sent);
    } else {
      var next := Next(w, step);
      if k :| 0 <= k < |next.contenders| && SawMarker(next.contenders[k]) {
        assert SawMarker(w.contenders[k]);
      }
    }
  }

  /** An outage is announced and not yet recovered from. */
  ghost predicate Open(w: World) {
    Stored(w.shared) > 0 || exists i :: 0 <= i < |w.contenders| && Carried(w.contenders[i]) > 0
  }

  ghost predicate NoDoubleRecovery(trace: seq<Event>, open: bool) {
    && (forall i :: 0 < i < |trace| && trace[i] == Recovered ==> trace[i - 1] == Marked)
    && (trace != [] && trace[0] == Recovered ==> open)
  }

  /** After a recovery, and before the first mark of a quiet start, nothing is open. */
  ghost predicate Closed(w: World, open: bool) {
    var trace := w.shared.trace;
    (if trace == [] then !open else trace[|trace| - 1] == Recovered) ==> !Open(w)
  }

  lemma TurnEvents(s: Shared, pc: Pc, sent: bool)
    requires Critical(pc) ==> Owns(s.lock, pc.token, s.now)
    ensures var (s', pc') := Turn(s, pc, sent);
      && (s'.trace == s.trace || s'.trace == s.trace + [Marked] || s'.trace == s.trace + [Recovered])
      && (s'.trace == s.trace && Stored(s') + Carried(pc') > 0 ==> Stored(s) + Carried(pc) > 0)
      && (s'.trace == s.trace + [Recovered] ==>
            && Stored(s) + Carried(pc) > 0 && Carried(pc') == 0
            && (pc.RecoverConsume? || pc.DrainPull?)
            && (pc.RecoverConsume? ==> s'.row.Absent? && s'.marker == s.marker)
            && (pc.DrainPull? ==> s'.row == s.row && !s'.marker))
  {
    assert (s.trace + [Marked])[|s.trace|] != (s.trace + [Recovered])[|s.trace|];
  }

  lemma LegacyAct(w: World, i: nat, sent: bool, open: bool)
    requires Exclusive(w) && Apart(w) && NoDoubleRecovery(w.shared.trace, open) && Closed(w, open)
    requires i < |w.contenders|
    ensures NoDoubleRecovery(Next(w, Act(i, sent)).shared.trace, open) && Closed(Next(w, Act(i, sent)), open)
  {
    var next := Next(w, Act(i, sent));
    var pc := w.contenders[i];
    TurnEvents(w.shared, pc, sent);
    if Stored(w.shared) + Carried(pc) > 0 {
      assert Open(w);
    }
    if next.shared.trace == w.shared.trace + [Recovered] {
      forall k | 0 <= k < |next.contenders|
        ensures Carried(next.contenders[k]) == 0
      {
        assert Carried(w.contenders[k]) > 0 ==> SawMarker(w.contenders[k]) && Critical(w.contenders[k]);
      }
      assert pc.RecoverConsume? ==> SawNone(pc);
      assert pc.DrainPull? ==> Draining(pc);
      assert !Open(next);
    } else if next.shared.trace == w.shared.trace && Open(next) {
      if k :| 0 <= k < |next.contenders| && Carried(next.contenders[k]) > 0 && k != i {
        assert Carried(w.contenders[k]) > 0;
      }
      assert Open(w);
    }
  }

  lemma LegacyNext(w: World, step: Step, open: bool)
    requires Exclusive(w) && Apart(w) && NoDoubleRecovery(w.shared.trace, open) && Closed(w, open)
    ensures NoDoubleRecovery(Next(w, step).shared.trace, open) && Closed(Next(w, step), open)
  {
    if step.Act? && step.i < |w.contenders| {
      LegacyAct(w, step.i, step.sent, open);
    } else {
      var next := Next(w, step);
      if k :| 0 <= k < |next.contenders| && Carried(next.contenders[k]) > 0 {
        assert Carried(w.contenders[k]) > 0;
      }
    }
  }

  lemma {:induction false} LegacyRun(w: World, steps: seq<Step>, open: bool)
    requires Exclusive(w) && Apart(w) && NoDoubleRecovery(w.shared.trace, open) && Closed(w, open)
    requires TimelyRun(w, steps)
    ensures NoDoubleRecovery(Run(w, steps).shared.trace, open)
    decreases |steps|
  {
    if steps != [] {
      ExclusiveNext(w, steps[0]);
      ApartNext(w, steps[0]);
      LegacyNext(w, steps[0], open);
      LegacyRun(Next(w, steps[0]), steps[1..], open);
    }
  }

  /** With a legacy marker, a delivered row or both at the start, and holders that do
      not outlive the claim: no two recoveries without a mark between them, and none
      first unless an outage was already open. */
  lemma OneRecoveryPerOutage(now: int, row: Row, marker: bool, lock: Lock, steps: seq<Step>)
    requires TimelyRun(Start(now, row, marker, lock), steps)
    ensures NoDoubleRecovery(Run(Start(now, row, marker, lock), steps).shared.trace, marker || row.Delivered?)
  {
    LegacyRun(Start(now, row, marker, lock), steps, marker || row.Delivered?);
  }

  lemma RunCons(w: World, step: Step, rest: seq<Step>)
    ensures Run(w, [step] + rest) == Run(Next(w, step), rest)
  {
    assert ([step] + rest)[1..] == rest;
  }

  lemma {:induction false} RunAppend(w: World, a: seq<Step>, b: seq<Step>)
    ensures Run(w, a + b) == Run(Run(w, a), b)
    decreases |a|
  {
    if a == [] {
      assert a + b == b;
    } else {
      assert a + b == [a[0]] + (a[1..] + b);
      RunCons(w, a[0], a[1..] + b);
      RunAppend(Next(w, a[0]), a[1..], b);
    }
  }

  // --------------------------------------- when one recovery is guaranteed ---

  /** The first `n` turns of a contender that has just started. */
  function Turns(i: nat, n: nat): seq<Step> {
    if n == 0 then [] else [Act(i, true)] + Turns(i, n - 1)
  }

  function Starts(w: World, sweep: bool, n: nat): seq<Step> {
    [Spawn(sweep)] + Turns(|w.contenders|, n)
  }

  /** A contender's own view of consecutive turns. */
  function Alone(s: Shared, pc: Pc, n: nat): (Shared, Pc)
    decreases n
  {
    if n == 0 then (s, pc)
    else var (s', pc') := Turn(s, pc, true); Alone(s', pc', n - 1)
  }

  lemma {:induction false} TurnsAreAlone(w: World, i: nat, n: nat)
    requires i < |w.contenders|
    ensures var (s, pc) := Alone(w.shared, w.contenders[i], n);
      Run(w, Turns(i, n)) == World(s, w.contenders[i := pc])
    decreases n
  {
    if n == 0 {
      assert w.contenders[i := w.contenders[i]] == w.contenders;
    } else {
      var next := Next(w, Act(i, true));
      RunCons(w, Act(i, true), Turns(i, n - 1));
      TurnsAreAlone(next, i, n - 1);
    }
  }

  lemma StartsAreAlone(w: World, sweep: bool, n: nat)
    ensures var (s, pc) := Alone(w.shared, if sweep then SweepLock else RecoverLock, n);
      Run(w, Starts(w, sweep, n)) == World(s, w.contenders + [pc])
  {
    var spawned := Next(w, Spawn(sweep));
    RunCons(w, Spawn(sweep), Turns(|w.contenders|, n));
    TurnsAreAlone(spawned, |w.contenders|, n);
  }

  ghost predicate Quiet(s: Shared) {
    !s.marker && Acquirable(s.lock, s.now)
  }

  /** The shared state of a contender that has just taken the claim. */
  function Locked(s: Shared): Shared {
    s.(lock := Held(s.unused, s.now + CLAIM_TIMEOUT_SECONDS), unused := s.unused + 1)
  }

  lemma AloneStep(s: Shared, pc: Pc, n: nat, s': Shared, pc': Pc)
    requires n > 0 && Turn(s, pc, true) == (s', pc')
    ensures Alone(s, pc, n) == Alone(s', pc', n - 1)
  {
  }

  /** Undisturbed, a heartbeat recovers from a delivered row. */
  lemma BeatRecovers(s: Shared, n: nat)
    requires Quiet(s) && s.row.Delivered? && n == 4
    ensures Alone(s, RecoverLock, n) ==
      (s.(lock := Free, row := Absent, unused := s.unused + 1, trace := s.trace + [Recovered]), Done)
  {
    var free := s.(lock := Free, unused := s.unused + 1);
    var end := free.(row := Absent, trace := s.trace + [Recovered]);
    AloneStep(s, RecoverLock, n, Locked(s), RecoverHas(s.unused));
    AloneStep(Locked(s), RecoverHas(s.unused), n - 1, Locked(s), RecoverUnlock(s.unused));
    AloneStep(Locked(s), RecoverUnlock(s.unused), n - 2, free, RecoverConsume);
    AloneStep(free, RecoverConsume, n - 3, end, Done);
  }

  lemma {:induction false} DoneStays(s: Shared, n: nat)
    ensures Alone(s, Done, n) == (s, Done)
    decreases n
  {
    if n > 0 {
      DoneStays(s, n - 1);
    }
  }

  lemma OwnerMarks(s: Shared, n: nat)
    requires s.row.Pending? && n >= 2
    ensures Alone(s, SweepSend(s.row.token), n) == (s.(row := Delivered, trace := s.trace + [Marked]), Done)
  {
    var t, end := s.row.token, s.(row := Delivered, trace := s.trace + [Marked]);
    AloneStep(s, SweepSend(t), n, s, SweepMark(t));
    AloneStep(s, SweepMark(t), n - 1, end, Done);
    DoneStays(end, n - 2);
  }

  lemma ClaimMarks(s: Shared, n: nat)
    requires (s.row.Absent? || Reclaimable(s.row, s.now)) && n >= 4
    ensures Alone(s, SweepInsert(s.now), n) ==
      (s.(row := Delivered, unused := s.unused + 1, trace := s.trace + [Marked]), Done)
  {
    var t := s.unused;
    var mine := s.(row := Pending(t, s.now), unused := t + 1);
    if s.row.Absent? {
      AloneStep(s, SweepInsert(s.now), n, mine, SweepSend(t));
      OwnerMarks(mine, n - 1);
    } else {
      var drawn := s.(unused := t + 1);
      AloneStep(s, SweepInsert(s.now), n, drawn, SweepReclaim(t, s.now));
      AloneStep(drawn, SweepReclaim(t, s.now), n - 1, mine, SweepSend(t));
      OwnerMarks(mine, n - 2);
    }
  }

  /** Undisturbed, a sweep marks an absent row or one it may take over. */
  lemma SweepMarks(s: Shared, n: nat)
    requires Quiet(s) && (s.row.Absent? || Reclaimable(s.row, s.now)) && n >= 8
    ensures Alone(s, SweepLock, n) ==
      (s.(lock := Free, row := Delivered, unused := s.unused + 2, trace := s.trace + [Marked]), Done)
  {
    var free := s.(lock := Free, unused := s.unused + 1);
    AloneStep(s, SweepLock, n, Locked(s), SweepHas(s.unused));
    AloneStep(Locked(s), SweepHas(s.unused), n - 1, Locked(s), SweepUnlock(s.unused));
    AloneStep(Locked(s), SweepUnlock(s.unused), n - 2, free, SweepClock);
    AloneStep(free, SweepClock, n - 3, free, SweepInsert(s.now));
    ClaimMarks(free, n - 4);
  }

  /** Undisturbed, a sweep that finds the marker pulls it. */
  lemma SweepPulls(s: Shared, n: nat)
    requires s.marker && Acquirable(s.lock, s.now) && n == 4
    ensures Alone(s, SweepLock, n) == (Locked(s).(marker := false, pulls := s.pulls + 1), ConvertRecord(s.unused))
  {
    var t := s.unused;
    AloneStep(s, SweepLock, n, Locked(s), SweepHas(t));
    AloneStep(Locked(s), SweepHas(t), n - 1, Locked(s), ConvertCheck(t));
    AloneStep(Locked(s), ConvertCheck(t), n - 2, Locked(s), ConvertPull(t));
    AloneStep(Locked(s), ConvertPull(t), n - 3, Locked(s).(marker := false, pulls := s.pulls + 1), ConvertRecord(t));
  }

  /** A converter has pulled the marker and sleeps past the end of its claim; by the
      time `w` describes it has recorded nothing. */
  ghost predicate Asleep(w: World) {
    Quiet(w.shared) && w.contenders != [] && w.contenders[0].ConvertRecord?
  }

  lemma PullAndSleep(w: World, seconds: nat) returns (steps: seq<Step>)
    requires w.contenders == [] && w.shared.marker && Acquirable(w.shared.lock, w.shared.now)
    requires seconds >= CLAIM_TIMEOUT_SECONDS
    ensures var e := Run(w, steps);
      Asleep(e) && e.shared.row == w.shared.row && e.shared.now == w.shared.now + seconds && e.shared.trace == w.shared.trace
  {
    SweepPulls(w.shared, 4);
    StartsAreAlone(w, true, 4);
    var mid := Run(w, Starts(w, true, 4));
    steps := Starts(w, true, 4) + [Tick(seconds)];
    RunAppend(w, Starts(w, true, 4), [Tick(seconds)]);
    assert Run(mid, [Tick(seconds)]) == Next(mid, Tick(seconds));
  }

  /** Whoever left the claim held, it runs out first. */
  lemma FallAsleep(now: int, row: Row, lock: Lock, until: int) returns (steps: seq<Step>)
    ensures var w := Run(Start(now, row, true, lock), steps);
      Asleep(w) && w.shared.row == row && w.shared.now >= until && w.shared.trace == []
  {
    var w := Start(now, row, true, lock);
    var wait := if lock.Held? && lock.expires > now then lock.expires - now else 0;
    var ready := Next(w, Tick(wait));
    var seconds := if until > ready.shared.now then until - ready.shared.now + CLAIM_TIMEOUT_SECONDS else CLAIM_TIMEOUT_SECONDS;
    steps := PullAndSleep(ready, seconds);
    RunCons(w, Tick(wait), steps);
    steps := [Tick(wait)] + steps;
  }

  /** While it sleeps, a sweep marks the outage. */
  lemma MarkMeanwhile(w: World) returns (steps: seq<Step>)
    requires Asleep(w) && (w.shared.row.Absent? || Reclaimable(w.shared.row, w.shared.now))
    ensures var e := Run(w, steps);
      Asleep(e) && e.shared.row.Delivered? && e.shared.trace == w.shared.trace + [Marked]
  {
    SweepMarks(w.shared, 8);
    StartsAreAlone(w, true, 8);
    steps := Starts(w, true, 8);
  }

  /** A heartbeat recovers; the sleeper wakes and records the marker; another
      heartbeat recovers again. */
  lemma WakeAndRecoverTwice(w: World) returns (steps: seq<Step>)
    requires Asleep(w) && w.shared.row.Delivered?
    ensures Run(w, steps).shared.trace == w.shared.trace + [Recovered, Recovered]
  {
    BeatRecovers(w.shared, 4);
    StartsAreAlone(w, false, 4);
    var a := Starts(w, false, 4);
    var awake := Next(Run(w, a), Act(0, false));
    BeatRecovers(awake.shared, 4);
    StartsAreAlone(awake, false, 4);
    var b := Starts(awake, false, 4);
    steps := a + ([Act(0, false)] + b);
    RunAppend(w, a, [Act(0, false)] + b);
    RunCons(Run(w, a), Act(0, false), b);
  }

  /** The mark that a row without a delivered outage needs first. */
  function Announced(row: Row): seq<Event> {
    if row.Delivered? then [] else [Marked]
  }

  /** Whatever the row, a legacy marker lets one outage recover twice: a converter
      that outlives its claim puts back an outage that was already recovered from. */
  lemma OutlivedClaimRecoversTwice(now: int, row: Row, lock: Lock)
    ensures exists steps ::
      Run(Start(now, row, true, lock), steps).shared.trace == Announced(row) + [Recovered, Recovered]
  {
    var start := Start(now, row, true, lock);
    var a := FallAsleep(now, row, lock, if row.Pending? then row.at + CLAIM_TIMEOUT_SECONDS else now);
    if !row.Delivered? {
      var b := MarkMeanwhile(Run(start, a));
      RunAppend(start, a, b);
      a := a + b;
    }
    var c := WakeAndRecoverTwice(Run(start, a));
    RunAppend(start, a, c);
  }

  lemma AlternationIsEnough(trace: seq<Event>, open: bool)
    requires Alternates(trace, open)
    ensures NoDoubleRecovery(trace, open)
  {
  }

  /** One recovery per outage on every schedule, late holders included, is promised
      exactly when no legacy marker is there at the start. */
  lemma OneRecoveryIffNoMarker(now: int, row: Row, marker: bool, lock: Lock)
    ensures (forall steps ::
               NoDoubleRecovery(Run(Start(now, row, marker, lock), steps).shared.trace, marker || row.Delivered?)) <==> !marker
  {
    if marker {
      OutlivedClaimRecoversTwice(now, row, lock);
      var first := Announced(row);
      var steps :| Run(Start(now, row, true, lock), steps).shared.trace == first + [Recovered, Recovered];
      assert (first + [Recovered, Recovered])[|first|] == (first + [Recovered, Recovered])[|first| + 1] == Recovered;
    } else {
      forall steps
        ensures NoDoubleRecovery(Run(Start(now, row, false, lock), steps).shared.trace, row.Delivered?)
      {
        MarksAndRecoveriesAlternate(now, row, lock, steps);
        AlternationIsEnough(Run(Start(now, row, false, lock), steps).shared.trace, row.Delivered?);
      }
    }
  }
}
