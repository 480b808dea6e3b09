/** What a contender's own steps do: a mark stands for a message that went out, a
    message that did not gives the claim back, and an undisturbed contender does the
    whole of its job. */
module PresenceSends {
  import opened Presence
  import opened PresenceClaims

  // ---------------------------------------------------- marks were sent ---

  /** Step `j` of the run is contender `i` being told that its message went out. */
  ghost predicate SentAt(w: World, steps: seq<Step>, i: nat, j: int) {
    && 0 <= j < |steps| && steps[j] == Act(i, true)
    && var before := Run(w, steps[..j]); i < |before.contenders| && before.contenders[i].SweepSend?
  }

  ghost predicate Sent(w: World, steps: seq<Step>, i: nat) {
    exists j :: SentAt(w, steps, i, j)
  }

  lemma RunLast(w: World, steps: seq<Step>, step: Step)
    ensures Run(w, steps + [step]) == Next(Run(w, steps), step)
  {
    RunAppend(w, steps, [step]);
    assert Run(Next(Run(w, steps), step), []) == Next(Run(w, steps), step);
  }

  lemma SentStays(w: World, steps: seq<Step>, step: Step, i: nat)
    requires Sent(w, steps, i)
    ensures Sent(w, steps + [step], i)
  {
    var j :| SentAt(w, steps, i, j);
    assert (steps + [step])[..j] == steps[..j];
    assert SentAt(w, steps + [step], i, j);
  }

  /** Only a send that succeeded leads to the marking query. */
  lemma ToMark(s: Shared, pc: Pc, sent: bool)
    ensures Turn(s, pc, sent).1.SweepMark? ==> pc.SweepSend? && sent
  {
  }

  lemma {:induction false} MarkersWereSent(now: int, row: Row, marker: bool, lock: Lock, steps: seq<Step>, i: nat)
    requires var w := Run(Start(now, row, marker, lock), steps); i < |w.contenders| && w.contenders[i].SweepMark?
    ensures Sent(Start(now, row, marker, lock), steps, i)
    decreases |steps|
  {
    var start := Start(now, row, marker, lock);
    var n := |steps| - 1;
    var before, last := steps[..n], steps[n];
    assert steps == before + [last];
    RunLast(start, before, last);
    var w := Run(start, before);
    if last.Act? && last.i == i {
      ToMark(w.shared, w.contenders[i], last.sent);
      assert SentAt(start, steps, i, n);
    } else {
      MarkersWereSent(now, row, marker, lock, before, i);
      SentStays(start, before, last, i);
    }
  }

  /** A query announces a mark only as the marking query of a sweep that still owns the
      pending row. */
  lemma MarkExactly(s: Shared, pc: Pc, sent: bool)
    ensures Turn(s, pc, sent).0.trace == s.trace + [Marked] <==> pc.SweepMark? && OwnedPending(s.row, pc.token)
  {
    assert (s.trace + [Recovered])[|s.trace|] != (s.trace + [Marked])[|s.trace|];
  }

  /** On every run, whoever marks an outage was told before that its own message went
      out: an outage nobody could be notified of is never counted. */
  lemma MarksWereSent(now: int, row: Row, marker: bool, lock: Lock, steps: seq<Step>, step: Step)
    requires var w := Run(Start(now, row, marker, lock), steps);
      Next(w, step).shared.trace == w.shared.trace + [Marked]
    ensures step.Act? && Sent(Start(now, row, marker, lock), steps, step.i)
  {
    var w := Run(Start(now, row, marker, lock), steps);
    assert |w.shared.trace + [Marked]| != |w.shared.trace|;
    MarkExactly(w.shared, w.contenders[step.i], step.sent);
    MarkersWereSent(now, row, marker, lock, steps, step.i);
  }

  // ----------------------------------------------- what follows a message ---

  /** Nobody but itself moves a contender. */
  lemma {:induction false} OthersLeaveIt(w: World, steps: seq<Step>, i: nat)
    requires i < |w.contenders|
    requires forall k :: 0 <= k < |steps| ==>
      !(steps[k].Act? && steps[k].i == i) && !(steps[k].Die? && steps[k].i == i)
    ensures var e := Run(w, steps); i < |e.contenders| && e.contenders[i] == w.contenders[i]
    decreases |steps|
  {
    if steps != [] {
      assert !(steps[0].Act? && steps[0].i == i) && !(steps[0].Die? && steps[0].i == i);
      OthersLeaveIt(Next(w, steps[0]), steps[1..], i);
    }
  }

  /** The query a sweep issues after its message. */
  function Following(token: nat, sent: bool): Pc {
    if sent then SweepMark(token) else SweepRelease(token)
  }

  lemma SendStep(w: World, i: nat, sent: bool)
    requires i < |w.contenders| && w.contenders[i].SweepSend?
    ensures var next := Next(w, Act(i, sent));
      i < |next.contenders| && next.contenders[i] == Following(w.contenders[i].token, sent)
  {
  }

  lemma LastSay(e: World, i: nat, token: nat, sent: bool, any: bool)
    requires i < |e.contenders| && e.contenders[i] == Following(token, sent)
    ensures var after := Next(e, Act(i, any));
      if OwnedPending(e.shared.row, token) then
        if sent then after.shared.row == Delivered && after.shared.trace == e.shared.trace + [Marked]
        else after.shared.row == Absent && after.shared.trace == e.shared.trace
      else after.shared.row == e.shared.row && after.shared.trace == e.shared.trace
  {
  }

  /** After its message a sweep has one more say, whatever others do meanwhile. If its
      claim still stands then, a message that went out makes the row delivered and
      counts, and one that did not gives the row back, for the next sweep to claim at
      once. If the claim is gone, neither changes anything. */
  lemma MessageDecides(w: World, i: nat, sent: bool, meanwhile: seq<Step>, any: bool)
    requires i < |w.contenders| && w.contenders[i].SweepSend?
    requires forall k :: 0 <= k < |meanwhile| ==>
      !(meanwhile[k].Act? && meanwhile[k].i == i) && !(meanwhile[k].Die? && meanwhile[k].i == i)
    ensures var e := Run(Next(w, Act(i, sent)), meanwhile);
      var after := Next(e, Act(i, any));
      if OwnedPending(e.shared.row, w.contenders[i].token) then
        if sent then after.shared.row == Delivered && after.shared.trace == e.shared.trace + [Marked]
        else after.shared.row == Absent && after.shared.trace == e.shared.trace
      else after.shared.row == e.shared.row && after.shared.trace == e.shared.trace
  {
    SendStep(w, i, sent);
    OthersLeaveIt(Next(w, Act(i, sent)), meanwhile, i);
    LastSay(Run(Next(w, Act(i, sent)), meanwhile), i, w.contenders[i].token, sent, any);
  }

  // ------------------------------------------------- undisturbed contenders ---

  /** A heartbeat that nobody disturbs recovers exactly when there is something to
      recover from, a delivered row or a legacy marker, and recovers once from both. */
  lemma HeartbeatAlone(s: Shared, n: nat)
    requires Acquirable(s.lock, s.now) && n >= 6
    ensures var (s', pc) := Alone(s, RecoverLock, n);
      && pc.Done? && s'.lock.Free? && !s'.marker
      && s'.row == (if s.row.Delivered? then Absent else s.row)
      && s'.trace == (if s.row.Delivered? || s.marker then s.trace + [Recovered] else s.trace)
  {
    var t := s.unused;
    AloneStep(s, RecoverLock, n, Locked(s), RecoverHas(t));
    if s.marker {
      DrainAlone(Locked(s), t, n - 1);
    } else {
      var free := Locked(s).(lock := Free);
      var end := Turn(free, RecoverConsume, true).0;
      AloneStep(Locked(s), RecoverHas(t), n - 1, Locked(s), RecoverUnlock(t));
      AloneStep(Locked(s), RecoverUnlock(t), n - 2, free, RecoverConsume);
      AloneStep(free, RecoverConsume, n - 3, end, Done);
      DoneStays(end, n - 4);
    }
  }

  lemma DrainAlone(s: Shared, t: nat, n: nat)
    requires s.marker && Owns(s.lock, t, s.now) && n >= 5
    ensures Alone(s, RecoverHas(t), n) ==
      (s.(row := Consume(s.row), marker := false, pulls := s.pulls + 1, lock := Free, trace := s.trace + [Recovered]), Done)
  {
    var taken := s.(row := Consume(s.row));
    AloneStep(s, RecoverHas(t), n, s, DrainRow(t));
    AloneStep(s, DrainRow(t), n - 1, taken, DrainCheck(t, s.row.Delivered?));
    PullAlone(taken, t, s.row.Delivered?, n - 2);
  }

  lemma PullAlone(s: Shared, t: nat, durable: bool, n: nat)
    requires s.marker && Owns(s.lock, t, s.now) && n >= 3
    ensures Alone(s, DrainCheck(t, durable), n) ==
      (s.(marker := false, pulls := s.pulls + 1, lock := Free, trace := s.trace + [Recovered]), Done)
  {
    var told := s.(marker := false, pulls := s.pulls + 1, trace := s.trace + [Recovered]);
    AloneStep(s, DrainCheck(t, durable), n, s, DrainPull(t, durable));
    AloneStep(s, DrainPull(t, durable), n - 1, told, DrainUnlock(t));
    AloneStep(told, DrainUnlock(t), n - 2, told.(lock := Free), Done);
    DoneStays(told.(lock := Free), n - 3);
  }

  /** A sweep that nobody disturbs and whose message goes out turns a legacy marker into
      a delivered row without counting it again, marks an outage nobody has claimed or
      whose claim ran out, and leaves everything else as it is. */
  lemma SweepAlone(s: Shared, n: nat)
    requires Acquirable(s.lock, s.now) && n >= 8
    ensures var (s', pc) := Alone(s, SweepLock, n);
      var may := s.row.Absent? || (s.row.Pending? && s.now - s.row.at >= 300);
      && pc.Done? && s'.lock.Free? && !s'.marker
      && s'.row == (if s.marker then if s.row.Absent? then Delivered else s.row
                    else if may then Delivered else s.row)
      && s'.trace == (if !s.marker && may then s.trace + [Marked] else s.trace)
  {
    if s.marker {
      ConvertAlone(s, n);
    } else if s.row.Absent? || Reclaimable(s.row, s.now) {
      SweepMarks(s, n);
    } else {
      ClaimedAlone(s, n);
    }
  }

  lemma ConvertAlone(s: Shared, n: nat)
    requires s.marker && Acquirable(s.lock, s.now) && n >= 6
    ensures Alone(s, SweepLock, n) ==
      (s.(row := InsertDelivered(s.row), marker := false, pulls := s.pulls + 1, lock := Free, unused := s.unused + 1), Done)
  {
    var t := s.unused;
    AloneStep(s, SweepLock, n, Locked(s), SweepHas(t));
    AloneStep(Locked(s), SweepHas(t), n - 1, Locked(s), ConvertCheck(t));
    RecordAlone(Locked(s), t, n - 2);
  }

  lemma RecordAlone(s: Shared, t: nat, n: nat)
    requires s.marker && Owns(s.lock, t, s.now) && n >= 4
    ensures Alone(s, ConvertCheck(t), n) ==
      (s.(row := InsertDelivered(s.row), marker := false, pulls := s.pulls + 1, lock := Free), Done)
  {
    var pulled := s.(marker := false, pulls := s.pulls + 1);
    var recorded := pulled.(row := InsertDelivered(s.row));
    AloneStep(s, ConvertCheck(t), n, s, ConvertPull(t));
    AloneStep(s, ConvertPull(t), n - 1, pulled, ConvertRecord(t));
    AloneStep(pulled, ConvertRecord(t), n - 2, recorded, ConvertUnlock(t));
    AloneStep(recorded, ConvertUnlock(t), n - 3, recorded.(lock := Free), Done);
    DoneStays(recorded.(lock := Free), n - 4);
  }

  lemma ClaimedAlone(s: Shared, n: nat)
    requires Quiet(s) && !s.row.Absent? && !Reclaimable(s.row, s.now) && n >= 6
    ensures Alone(s, SweepLock, n) == (s.(lock := Free, unused := s.unused + 2), Done)
  {
    var t, free := s.unused, s.(lock := Free, unused := s.unused + 1);
    var drawn := free.(unused := t + 2);
    AloneStep(s, SweepLock, n, Locked(s), SweepHas(t));
    AloneStep(Locked(s), SweepHas(t), n - 1, Locked(s), SweepUnlock(t));
    AloneStep(Locked(s), SweepUnlock(t), n - 2, free, SweepClock);
    AloneStep(free, SweepClock, n - 3, free, SweepInsert(s.now));
    AloneStep(free, SweepInsert(s.now), n - 4, drawn, SweepReclaim(t + 1, s.now));
    AloneStep(drawn, SweepReclaim(t + 1, s.now), n - 5, drawn, Done);
    DoneStays(drawn, n - 6);
  }

  /** While another holds the claim a contender goes away and changes nothing. */
  lemma LockedOut(s: Shared, sweep: bool, sent: bool)
    requires s.lock.Held? && s.now < s.lock.expires
    ensures Turn(s, if sweep then SweepLock else RecoverLock, sent) == (s.(unused := s.unused + 1), Done)
  {
  }
}
