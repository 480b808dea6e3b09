/** A device whose row was purged registers again: the row is new, but the client
    still has its token and its settings, of which the new row knows nothing. */
module Registration {
  import opened Options
  import opened Delivery
  import opened Protocol

  /** The new row beside the old client. What the client holds was not written by
      this row, so every held key counts as touched. */
  function Reregistered(s: State): State {
    s.(server := FRESH, issued := map[],
       client := s.client.(touched := s.client.touched + s.client.held.Keys))
  }

  /** The client echoes a token this row never handed out. */
  predicate Foreign(s: State) {
    s.client.token != 0 && s.client.token !in s.issued
  }

  ghost predicate Stranger(s: State) {
    && Tokens(s) && Foreign(s) && s.server.acked == map[]
    && (forall k :: k in s.client.held ==> s.client.held[k] != "")
    && s.client.held.Keys <= s.client.touched
  }

  /** What holds of any client and row that found each other. */
  ghost predicate Paired(s: State) {
    Inv(s) || Stranger(s)
  }

  lemma ReregisteredIsPaired(s: State)
    requires Paired(s)
    ensures Paired(Reregistered(s))
  {
  }

  /** The heartbeat would hand a foreign client the very token it already has. */
  predicate Clashes(s: State, policy: Policy, now: int) {
    && Foreign(s) && s.server.active
    && (s.server.version.Some? || policy.options != map[] || s.server.acked != map[])
    && (s.server.version.None? || s.server.sent != policy.options)
    && Max(now, (if s.server.version.None? then 0 else s.server.version.value) + 1) == s.client.token
  }

  lemma ClashIsTheToken(s: State, policy: Policy, now: int)
    requires Stranger(s)
    ensures Clashes(s, policy, now) <==>
      Respond(s.server, policy, s.client.token, now).0.version == Some(s.client.token)
  {
  }

  lemma StrangerTokens(s: State, policy: Policy, server: Columns, push: Option<Push>, delivered: bool)
    requires Stranger(s) && IsFair(s, policy, server, push)
    ensures Tokens(Answered(s, server, push, delivered))
  {
  }

  /** A foreign client's first latched token makes it an ordinary one. */
  lemma StrangerPushed(s: State, policy: Policy, server: Columns, push: Push)
    requires Stranger(s) && IsFair(s, policy, server, Some(push)) && server.version != Some(s.client.token)
    ensures var s' := Answered(s, server, Some(push), true);
      && Inv(s') && push.wire.Keys == policy.options.Keys + s.server.sent.Keys
      && Agree(s'.client.held, Effective(policy.options), s'.client.touched)
  {
    ReceiveAgrees(s.client.held, map[], s.client.touched, policy.options, push.wire);
    StrangerTokens(s, policy, server, Some(push), true);
  }

  lemma StrangerUnanswered(s: State, policy: Policy, server: Columns, push: Option<Push>)
    requires Stranger(s) && IsFair(s, policy, server, push) && server.version != Some(s.client.token)
    ensures Stranger(Answered(s, server, push, false))
  {
  }

  lemma StrangerBeat(s: State, policy: Policy, now: int, delivered: bool)
    requires Stranger(s) && !Clashes(s, policy, now)
    ensures Paired(Beat(s, policy, now, delivered))
  {
    var (server, push) := Respond(s.server, policy, s.client.token, now);
    RespondIsFair(s.server, policy, s.client.token, now);
    ClashIsTheToken(s, policy, now);
    if delivered && push.Some? {
      StrangerPushed(s, policy, server, push.value);
    } else {
      StrangerUnanswered(s, policy, server, push);
      assert Answered(s, server, push, delivered) == Answered(s, server, push, false);
    }
  }

  lemma PairedNext(s: State, step: Step)
    requires Paired(s) && (step.Heartbeat? ==> !Clashes(s, step.policy, step.now))
    ensures Paired(Next(s, step))
  {
    if Inv(s) {
      NextInv(s, step);
    } else if step.Heartbeat? {
      StrangerBeat(s, step.policy, step.now, step.delivered);
    }
  }

  /** What a write leaves behind: exactly the keys it did not name. */
  lemma WrittenExactly(held: OptionMap, desired: OptionMap, wire: OptionMap)
    requires forall k :: k in held ==> held[k] != ""
    requires desired.Keys <= wire.Keys
    requires forall k :: k in wire ==> wire[k] == if k in desired then desired[k] else ""
    ensures Written(held, wire) == Effective(desired) <==> held.Keys <= wire.Keys
  {
    if k :| k in held && k !in wire {
      assert k in Written(held, wire) && k !in Effective(desired);
    }
    if held.Keys <= wire.Keys {
      assert forall k :: k in Written(held, wire) <==> k in Effective(desired);
    }
  }

  /** The token the row stands on after a heartbeat. */
  function TokenAfter(c: Columns, policy: Policy, now: int): int {
    if c.version.None? || c.sent != policy.options
    then Max(now, (if c.version.None? then 0 else c.version.value) + 1)
    else c.version.value
  }

  /** What has to hold before a heartbeat for its answer to set the client right: an
      answer with resets must name every key held, an enforced repetition only names
      the policy's, and silence changes nothing. */
  predicate Covers(s: State, policy: Policy, now: int) {
    var c, held := s.server, s.client.held;
    if c.version.None? && policy.options == map[] && c.acked == map[] then held == map[]
    else if TokenAfter(c, policy, now) != s.client.token then
      held.Keys <= policy.options.Keys + c.sent.Keys + (if c.version == Some(s.client.token) then {} else c.acked.Keys)
    else if policy.enforce && policy.options != map[] then held.Keys <= policy.options.Keys
    else held == Effective(policy.options)
  }

  lemma TokenAfterIsIt(c: Columns, policy: Policy, echoed: int, now: int)
    requires c.active && (c.version.Some? || policy.options != map[] || c.acked != map[])
    ensures Respond(c, policy, echoed, now).0.version == Some(TokenAfter(c, policy, now))
  {
  }

  /** Exactly when a completed round delivers, in every state there is: whether or not
      the row and the client ever agreed on anything. */
  lemma RoundExactly(s: State, policy: Policy, now: int)
    requires s.server.active && forall k :: k in s.client.held ==> s.client.held[k] != ""
    ensures Beat(s, policy, now, true).client.held == Effective(policy.options) <==> Covers(s, policy, now)
  {
    if s.server.version.Some? || policy.options != map[] || s.server.acked != map[] {
      var (server, push) := Respond(s.server, policy, s.client.token, now);
      RespondIsFair(s.server, policy, s.client.token, now);
      TokenAfterIsIt(s.server, policy, s.client.token, now);
      if push.Some? {
        WrittenExactly(s.client.held, policy.options, push.value.wire);
      } else if TokenAfter(s.server, policy, now) != s.client.token {
        assert policy.options == map[];
        WrittenExactly(s.client.held, map[], map[]);
      }
    }
  }

  /** Exactly when a completed round delivers to a client the row does not know: the
      policy and the maps sent so far must name every key it holds, and if the new
      token happens to be the one the client has, nothing is reset and without
      `enforce` nothing is even sent. */
  lemma RoundAfterPurge(s: State, policy: Policy, now: int)
    requires Stranger(s) && s.server.active
    ensures Beat(s, policy, now, true).client.held == Effective(policy.options) <==>
      if !Clashes(s, policy, now) then s.client.held.Keys <= policy.options.Keys + s.server.sent.Keys
      else if policy.enforce then s.client.held.Keys <= policy.options.Keys
      else s.client.held == Effective(policy.options)
  {
    RoundExactly(s, policy, now);
    if policy.options == map[] {
      WrittenExactly(s.client.held, map[], map[]);
    }
  }

  /** One completed round, whether or not the row knows the client. */
  lemma PairedRound(s: State, policy: Policy, now: int)
    requires Paired(s) && s.server.active && !Clashes(s, policy, now)
    ensures var s' := Beat(s, policy, now, true);
      && Agree(s'.client.held, Effective(policy.options), s'.client.touched)
      && s'.client.touched <= s.client.touched
  {
    if Inv(s) {
      RoundDelivers(s, policy, now);
    } else {
      var (server, push) := Respond(s.server, policy, s.client.token, now);
      RespondIsFair(s.server, policy, s.client.token, now);
      ClashIsTheToken(s, policy, now);
      if push.Some? {
        StrangerPushed(s, policy, server, push.value);
      }
    }
  }

  /** A clash is possible: purged, registered again and given another policy within
      the same second, a client keeps the old one and the server believes it current. */
  lemma ClashStrands(a: OptionMap, b: OptionMap, now: int)
    requires now >= 1 && b != map[] && Effective(a) != Effective(b) && a != map[]
    ensures var s := Reregistered(Beat(START, Policy(a, false), now, true));
            var s' := Beat(s, Policy(b, false), now, true);
      && Stranger(s) && Clashes(s, Policy(b, false), now)
      && !Behind(s') && s'.server.sent == b && s'.client.held == Effective(a) != Effective(b)
  {
    var first := Beat(START, Policy(a, false), now, true);
    StartInv();
    RoundDelivers(START, Policy(a, false), now);
    AgreeEverywhere(first.client.held, Effective(a));
    assert first.client.token == now;
    ClashIsTheToken(Reregistered(first), Policy(b, false), now);
  }
}
