/** The delivery protocol as a transition system: a server row, a device that
    latches tokens and holds settings, responses that may be lost, local edits,
    reinstalls and a clock that may step back. */
module Protocol {
  import opened Options
  import opened Delivery

  /** The client. A key absent from `held` is at its built-in default; `touched`
      holds the keys whose last write was local rather than the server's. */
  datatype Client = Client(token: int, held: OptionMap, touched: set<string>)

  datatype State = State(
    server: Columns,
    client: Client,
    issued: map<int, OptionMap>,   // every token handed out, and the map it stands for
    reinstalled: bool)             // whether the client ever lost its settings

  datatype Step =
    | Heartbeat(policy: Policy, now: int, delivered: bool)
    | LocalEdit(key: string, value: string)
    | Reinstall
    | SetActive(active: bool)

  const START: State := State(FRESH, Client(0, map[], {}), map[], false)

  /** The settings a map amounts to: "" means default, so nothing is held. */
  function Effective(m: OptionMap): (e: OptionMap) {
    map k | k in m && m[k] != "" :: m[k]
  }

  /** The client writes every key it is handed. */
  function Written(held: OptionMap, wire: OptionMap): OptionMap {
    Effective(held + wire)
  }

  function Receive(c: Client, push: Option<Push>): Client {
    if push.None? then c
    else Client(push.value.token, Written(c.held, push.value.wire), c.touched - push.value.wire.Keys)
  }

  function PushOf(s: State, policy: Policy, now: int): Option<Push> {
    Respond(s.server, policy, s.client.token, now).1
  }

  /** The state after the server has moved to new columns and answered. */
  function Answered(s: State, server: Columns, push: Option<Push>, delivered: bool): State {
    s.(server := server,
       client := if delivered then Receive(s.client, push) else s.client,
       issued := if server.version == s.server.version || server.version.None? then s.issued
                 else s.issued[server.version.value := server.sent])
  }

  function Beat(s: State, policy: Policy, now: int, delivered: bool): State {
    var (server, push) := Respond(s.server, policy, s.client.token, now);
    Answered(s, server, push, delivered)
  }

  function Next(s: State, step: Step): State {
    match step
    case Heartbeat(policy, now, delivered) => Beat(s, policy, now, delivered)
    case LocalEdit(key, value) =>
      s.(client := s.client.(held := Written(s.client.held, map[key := value]),
                             touched := s.client.touched + {key}))
    case Reinstall => s.(client := Client(0, map[], {}), reinstalled := true)
    case SetActive(active) => s.(server := s.server.(active := active))
  }

  function Run(s: State, steps: seq<Step>): State
    decreases |steps|
  {
    if steps == [] then s else Run(Next(s, steps[0]), steps[1..])
  }

  lemma RunCons(s: State, step: Step, rest: seq<Step>)
    ensures Run(s, [step] + rest) == Run(Next(s, step), rest)
  {
    assert ([step] + rest)[1..] == rest;
  }

  lemma RunOne(s: State, step: Step)
    ensures Run(s, [step]) == Next(s, step)
  {
    assert [step][1..] == [];
    assert Run(Next(s, step), []) == Next(s, step);
  }

  lemma {:induction false} RunAppend(s: State, a: seq<Step>, b: seq<Step>)
    ensures Run(s, a + b) == Run(Run(s, a), b)
    decreases |a|
  {
    if a == [] {
      assert a + b == b;
    } else {
      assert (a + b)[1..] == a[1..] + b;
      RunAppend(Next(s, a[0]), a[1..], b);
    }
  }

  // ------------------------------------------------------------- invariant ---

  /** The map a token stands for; 0 is the token of a client that never latched one. */
  function Meaning(s: State, token: int): OptionMap {
    if token in s.issued then s.issued[token] else map[]
  }

  /** Two setting maps agree on every key outside `except`. */
  ghost predicate Agree(a: OptionMap, b: OptionMap, except: set<string>) {
    forall k :: k !in except ==> (k in a <==> k in b) && (k in a && k in b ==> a[k] == b[k])
  }

  ghost predicate Tokens(s: State) {
    match s.server.version
    case None => s.issued == map[] && s.server.sent == map[] && s.server.acked == map[]
    case Some(v) =>
      && v in s.issued && s.issued[v] == s.server.sent
      && forall t :: t in s.issued ==> 1 <= t <= v
  }

  ghost predicate Behind(s: State) {
    s.server.version != Some(s.client.token)
  }

  ghost predicate Inv(s: State) {
    && Tokens(s)
    && (s.client.token == 0 || s.client.token in s.issued)
    && (forall k :: k in s.client.held ==> s.client.held[k] != "")
    && Agree(s.client.held, Effective(Meaning(s, s.client.token)), s.client.touched)
    && (Behind(s) && s.client.token != 0 ==> s.server.acked == s.issued[s.client.token])
    && (s.client.token == 0 && !s.reinstalled ==> s.server.acked == map[])
  }

  lemma StartInv()
    ensures Inv(START)
  {
  }

  ghost predicate IsFair(s: State, policy: Policy, server: Columns, push: Option<Push>) {
    Fair(s.server, policy, s.client.token, server, push)
  }

  /** A heartbeat keeps the server's side of the invariant; the token only grows,
      and it moves exactly when the map it stands for does. */
  lemma AnsweredTokens(s: State, policy: Policy, server: Columns, push: Option<Push>, delivered: bool)
    requires Inv(s) && IsFair(s, policy, server, push)
    ensures var s' := Answered(s, server, push, delivered);
      && Tokens(s')
      && (server.version == s.server.version ==> s'.issued == s.issued && server.sent == s.server.sent)
      && (server.version != s.server.version ==>
            && server.version.Some? && (forall t :: t in s.issued ==> t < server.version.value)
            && s'.issued == s.issued[server.version.value := policy.options])
  {
  }

  lemma ReceiveAgrees(held: OptionMap, was: OptionMap, touched: set<string>, desired: OptionMap, wire: OptionMap)
    requires Agree(held, Effective(was), touched)
    requires was.Keys + desired.Keys <= wire.Keys
    requires forall k :: k in wire ==> wire[k] == if k in desired then desired[k] else ""
    ensures Agree(Written(held, wire), Effective(desired), touched - wire.Keys)
  {
  }

  /** The resets in a response cover whatever the client holds under its token. */
  lemma WireCovers(s: State, policy: Policy, server: Columns, push: Push)
    requires Inv(s) && IsFair(s, policy, server, Some(push))
    ensures Meaning(s, s.client.token).Keys + policy.options.Keys <= push.wire.Keys
  {
  }

  lemma PushedInv(s: State, policy: Policy, server: Columns, push: Push)
    requires Inv(s) && IsFair(s, policy, server, Some(push))
    ensures var s' := Answered(s, server, Some(push), true);
      && Inv(s') && !Behind(s') && s'.server.sent == policy.options
      && Agree(s'.client.held, Effective(policy.options), s'.client.touched)
  {
    AnsweredTokens(s, policy, server, Some(push), true);
    WireCovers(s, policy, server, push);
    ReceiveAgrees(s.client.held, Meaning(s, s.client.token), s.client.touched, policy.options, push.wire);
  }

  lemma UnansweredInv(s: State, policy: Policy, server: Columns, push: Option<Push>)
    requires Inv(s) && IsFair(s, policy, server, push)
    ensures Inv(Answered(s, server, push, false))
  {
    AnsweredTokens(s, policy, server, push, false);
  }

  lemma BeatInv(s: State, policy: Policy, now: int, delivered: bool)
    requires Inv(s)
    ensures Inv(Beat(s, policy, now, delivered))
  {
    var (server, push) := Respond(s.server, policy, s.client.token, now);
    RespondIsFair(s.server, policy, s.client.token, now);
    if delivered && push.Some? {
      PushedInv(s, policy, server, push.value);
    } else {
      UnansweredInv(s, policy, server, push);
      assert Answered(s, server, push, delivered) == Answered(s, server, push, false);
    }
  }

  lemma NextInv(s: State, step: Step)
    requires Inv(s)
    ensures Inv(Next(s, step))
  {
    match step
    case Heartbeat(policy, now, delivered) => BeatInv(s, policy, now, delivered);
    case LocalEdit(key, value) =>
    case Reinstall =>
    case SetActive(active) =>
  }

  lemma {:induction false} RunInv(s: State, steps: seq<Step>)
    requires Inv(s)
    ensures Inv(Run(s, steps))
    decreases |steps|
  {
    if steps != [] {
      NextInv(s, steps[0]);
      RunInv(Next(s, steps[0]), steps[1..]);
    }
  }

  // ------------------------------------------------- what the server knows ---

  ghost predicate Undisturbed(steps: seq<Step>) {
    forall i :: 0 <= i < |steps| ==> !steps[i].LocalEdit? && !steps[i].Reinstall?
  }

  lemma {:induction false} UndisturbedRun(s: State, steps: seq<Step>)
    requires Undisturbed(steps) && s.client.touched == {} && !s.reinstalled
    ensures Run(s, steps).client.touched == {} && !Run(s, steps).reinstalled
    decreases |steps|
  {
    if steps != [] {
      assert !steps[0].LocalEdit? && !steps[0].Reinstall?;
      UndisturbedRun(Next(s, steps[0]), steps[1..]);
    }
  }

  lemma AgreeEverywhere(a: OptionMap, b: OptionMap)
    requires Agree(a, b, {})
    ensures a == b
  {
    assert forall k :: k in a <==> k in b;
  }

  /** A client whose every key was last written by the server, and that was never
      reinstalled, holds what the server believes. */
  lemma BeliefAt(s: State)
    requires Inv(s) && s.client.touched == {} && !s.reinstalled
    ensures s.client.held == Effective(if Behind(s) then s.server.acked else s.server.sent)
  {
    AgreeEverywhere(s.client.held, Effective(Meaning(s, s.client.token)));
  }

  /** On every run without local edits or reinstalls, whatever responses were lost:
      a client on the current token holds exactly the sent map, any other client
      exactly the acknowledged one. */
  lemma BeliefIsExact(steps: seq<Step>)
    requires Undisturbed(steps)
    ensures var s := Run(START, steps);
      s.client.held == Effective(if Behind(s) then s.server.acked else s.server.sent)
  {
    StartInv();
    RunInv(START, steps);
    UndisturbedRun(START, steps);
    BeliefAt(Run(START, steps));
  }

  /** On every run at all, the same holds for the keys the user has not edited since
      the server last wrote them, except that a reinstalled client holds nothing. */
  lemma BeliefUpToEdits(steps: seq<Step>)
    ensures var s := Run(START, steps);
      Agree(s.client.held,
            if !Behind(s) then Effective(s.server.sent)
            else if s.client.token == 0 then map[]
            else Effective(s.server.acked),
            s.client.touched)
  {
    StartInv();
    RunInv(START, steps);
  }

  /** An acknowledgement is recorded only for a map the client really applied. */
  lemma AckIsTruthful(s: State, policy: Policy, now: int, delivered: bool)
    requires Inv(s)
    requires Beat(s, policy, now, delivered).server.acked != s.server.acked
    ensures s.client.token in s.issued
    ensures Beat(s, policy, now, delivered).server.acked == s.issued[s.client.token]
    ensures Agree(s.client.held, Effective(Beat(s, policy, now, delivered).server.acked), s.client.touched)
  {
    RespondIsFair(s.server, policy, s.client.token, now);
  }

  // ------------------------------------------------------ rounds converge ---

  /** The server has nothing more to say about `desired`. */
  ghost predicate Settled(s: State, desired: OptionMap) {
    && Inv(s)
    && (|| (!Behind(s) && s.server.sent == desired)
        || (desired == map[] && s.server.acked == map[] && s.server.sent == map[]))
  }

  /** The server says nothing only when the client is up to date or nothing is held. */
  lemma SilenceMeansSettled(s: State, policy: Policy, server: Columns)
    requires Inv(s) && s.server.active && IsFair(s, policy, server, None)
    ensures var s' := Answered(s, server, None, true);
      && Settled(s', policy.options)
      && Agree(s'.client.held, Effective(policy.options), s'.client.touched)
  {
    UnansweredInv(s, policy, server, None);
  }

  /** One completed round from any reachable state leaves an active client holding
      exactly the wanted map, up to local edits the server has not overwritten. */
  lemma RoundDelivers(s: State, policy: Policy, now: int)
    requires Inv(s) && s.server.active
    ensures var s' := Beat(s, policy, now, true);
      && Settled(s', policy.options)
      && s'.client.touched <= s.client.touched
      && Agree(s'.client.held, Effective(policy.options), s'.client.touched)
  {
    var (server, push) := Respond(s.server, policy, s.client.token, now);
    RespondIsFair(s.server, policy, s.client.token, now);
    if push.Some? {
      PushedInv(s, policy, server, push.value);
    } else {
      SilenceMeansSettled(s, policy, server);
    }
  }

  /** Under `enforce` a completed round also overwrites every local edit of a policy key. */
  lemma EnforceOverwrites(s: State, policy: Policy, now: int)
    requires Inv(s) && s.server.active && policy.enforce
    ensures var s' := Beat(s, policy, now, true);
      forall k :: k in policy.options ==>
        && k !in s'.client.touched
        && (k in s'.client.held <==> policy.options[k] != "")
        && (k in s'.client.held ==> s'.client.held[k] == policy.options[k])
  {
    RespondIsFair(s.server, policy, s.client.token, now);
  }

  /** Anything but a changed policy or a client that lost its token. */
  predicate KeepsPolicy(step: Step, policy: Policy) {
    (step.Heartbeat? && step.policy == policy) || step.LocalEdit? || step.SetActive?
  }

  lemma SettledStays(s: State, policy: Policy, step: Step)
    requires Settled(s, policy.options) && KeepsPolicy(step, policy)
    ensures Settled(Next(s, step), policy.options)
    ensures Next(s, step).server.version == s.server.version
    ensures step.Heartbeat? && s.server.active && policy.options != map[] ==>
      Next(s, step).server.acked == policy.options
    ensures step.Heartbeat? && !policy.enforce ==> PushOf(s, policy, step.now) == None
  {
    NextInv(s, step);
    if step.Heartbeat? {
      RespondIsFair(s.server, policy, s.client.token, step.now);
    }
  }

  /** No heartbeat of the run is answered with a policy. */
  ghost predicate Silent(s: State, steps: seq<Step>)
    decreases |steps|
  {
    steps == [] ||
    (&& (steps[0].Heartbeat? ==> PushOf(s, steps[0].policy, steps[0].now) == None)
     && Silent(Next(s, steps[0]), steps[1..]))
  }

  /** Once settled the server is silent until the policy changes, through local edits
      and through the device being disabled and enabled again. */
  lemma {:induction false} QuietUntilPolicyChanges(s: State, policy: Policy, steps: seq<Step>)
    requires Settled(s, policy.options) && !policy.enforce
    requires forall i :: 0 <= i < |steps| ==> KeepsPolicy(steps[i], policy)
    ensures Silent(s, steps)
    ensures Run(s, steps).server.version == s.server.version
    decreases |steps|
  {
    if steps != [] {
      assert KeepsPolicy(steps[0], policy);
      SettledStays(s, policy, steps[0]);
      QuietUntilPolicyChanges(Next(s, steps[0]), policy, steps[1..]);
    }
  }

  /** After a round that left the server settled, the next heartbeat acknowledges and
      the server falls silent. */
  lemma EchoSettles(s: State, policy: Policy, now: int, delivered: bool, after: seq<Step>)
    requires Settled(s, policy.options) && s.server.active
    requires forall i :: 0 <= i < |after| ==> KeepsPolicy(after[i], policy)
    ensures var echo := Beat(s, policy, now, delivered);
      && (policy.options != map[] ==> echo.server.acked == policy.options)
      && (!policy.enforce ==> Silent(echo, after))
  {
    SettledStays(s, policy, Heartbeat(policy, now, delivered));
    if !policy.enforce {
      QuietUntilPolicyChanges(Beat(s, policy, now, delivered), policy, after);
    }
  }

  /** From any reachable state: one completed round delivers, the next heartbeat,
      answered or not, acknowledges, and from then on the server is silent for as
      long as the policy stands and is not enforced. */
  lemma NothingStranded(before: seq<Step>, policy: Policy, now: int, next: int, delivered: bool, after: seq<Step>)
    requires Run(START, before).server.active
    requires forall i :: 0 <= i < |after| ==> KeepsPolicy(after[i], policy)
    ensures var round := Beat(Run(START, before), policy, now, true);
            var echo := Beat(round, policy, next, delivered);
      && Agree(round.client.held, Effective(policy.options), round.client.touched)
      && (policy.options != map[] ==> echo.server.acked == policy.options)
      && (!policy.enforce ==> Silent(echo, after))
  {
    StartInv();
    RunInv(START, before);
    var s := Run(START, before);
    RoundDelivers(s, policy, now);
    RespondIsFair(s.server, policy, s.client.token, now);
    EchoSettles(Beat(s, policy, now, true), policy, next, delivered, after);
  }

  // ------------------------------------------------------------ quarantine ---

  /** While a device is not active its heartbeats are answered with no policy and leave
      its row as it was; nothing but the client's own doings reaches the client. */
  lemma {:induction false} QuarantineHolds(s: State, steps: seq<Step>)
    requires !s.server.active && forall i :: 0 <= i < |steps| ==> !steps[i].SetActive?
    ensures Silent(s, steps) && Run(s, steps).server == s.server
    ensures (forall i :: 0 <= i < |steps| ==> steps[i].Heartbeat?) ==> Run(s, steps) == s
    decreases |steps|
  {
    if steps != [] {
      assert !steps[0].SetActive?;
      if steps[0].Heartbeat? {
        QuarantineIsKept(s.server, steps[0].policy, s.client.token, steps[0].now);
      }
      QuarantineHolds(Next(s, steps[0]), steps[1..]);
    }
  }

  // ---------------------------------------------------------------- tokens ---

  /** The token moves exactly when the map it stands for changes, or is first set. */
  lemma TokenMovesWithMap(s: State, policy: Policy, now: int, delivered: bool)
    requires Inv(s)
    ensures var s' := Beat(s, policy, now, delivered);
      s'.server.version != s.server.version <==>
        s'.server.sent != s.server.sent || (s.server.version.None? && s'.server.version.Some?)
  {
    RespondIsFair(s.server, policy, s.client.token, now);
  }

  /** Along every run, whatever the clock does: a token keeps its meaning for ever,
      is never 0, and every later token is larger than every earlier one. */
  lemma {:induction false} TokensAreForever(s: State, steps: seq<Step>)
    requires Inv(s)
    ensures var e := Run(s, steps);
      && (forall t :: t in s.issued ==> t in e.issued && e.issued[t] == s.issued[t])
      && (forall t, u :: t in s.issued && u in e.issued && u !in s.issued ==> t < u)
      && 0 !in e.issued
    decreases |steps|
  {
    if steps != [] {
      var m := Next(s, steps[0]);
      NextInv(s, steps[0]);
      if steps[0].Heartbeat? {
        var Heartbeat(policy, now, delivered) := steps[0];
        RespondIsFair(s.server, policy, s.client.token, now);
        var (server, push) := Respond(s.server, policy, s.client.token, now);
        AnsweredTokens(s, policy, server, push, delivered);
      }
      TokensAreForever(m, steps[1..]);
    }
  }

  // ------------------------------------------------------------ wire safety ---

  ghost predicate PushesArePushable(s: State, steps: seq<Step>)
    decreases |steps|
  {
    steps == [] ||
    (&& (steps[0].Heartbeat? && PushOf(s, steps[0].policy, steps[0].now).Some? ==>
           Pushable(PushOf(s, steps[0].policy, steps[0].now).value.wire))
     && PushesArePushable(Next(s, steps[0]), steps[1..]))
  }

  lemma PushableStays(m: OptionMap, desired: OptionMap, keys: set<string>)
    requires Pushable(desired)
    requires forall k :: k in keys ==> SpecOf(k).Some?
    requires m.Keys <= desired.Keys + keys
    requires forall k :: k in m ==> m[k] == if k in desired then desired[k] else ""
    ensures Pushable(m)
  {
    forall k | k in m
      ensures SpecOf(k).Some? && Accepts(SpecOf(k).value, m[k])
    {
      ResetIsAccepted(k);
    }
  }

  lemma ResponseIsPushable(c: Columns, policy: Policy, echoed: int, now: int)
    requires Pushable(c.sent) && Pushable(c.acked) && Pushable(policy.options)
    ensures var (c', push) := Respond(c, policy, echoed, now);
      Pushable(c'.sent) && Pushable(c'.acked) && (push.Some? ==> Pushable(push.value.wire))
  {
    RespondIsFair(c, policy, echoed, now);
    var (c', push) := Respond(c, policy, echoed, now);
    if push.Some? {
      PushableStays(push.value.wire, policy.options, c'.acked.Keys + c.sent.Keys);
    }
  }

  /** When every policy came out of the sanitizer, every key that ever reaches the
      wire is allowlisted with an accepted value, resets of stored keys included. */
  lemma {:induction false} WireStaysSafe(s: State, steps: seq<Step>)
    requires Pushable(s.server.sent) && Pushable(s.server.acked)
    requires forall i :: 0 <= i < |steps| && steps[i].Heartbeat? ==> Pushable(steps[i].policy.options)
    ensures PushesArePushable(s, steps)
    decreases |steps|
  {
    if steps != [] {
      if steps[0].Heartbeat? {
        ResponseIsPushable(s.server, steps[0].policy, s.client.token, steps[0].now);
      }
      WireStaysSafe(Next(s, steps[0]), steps[1..]);
    }
  }
}
