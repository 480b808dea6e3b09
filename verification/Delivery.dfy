/** The server half of the heartbeat protocol: the per-device bookkeeping columns
    and the decision what, if anything, a heartbeat response says about policy. */
module Delivery {
  import opened Options

  const ACK_REFRESH_SECONDS: int := 60

  /** The delivery columns of a device row. */
  datatype Columns = Columns(
    active: bool,
    version: Option<int>,      // the token the device is expected to echo
    sent: OptionMap,           // the map that token stands for
    acked: OptionMap,          // the map the device last echoed the token of
    ackedAt: Option<int>,
    sentAt: Option<int>)

  const FRESH: Columns := Columns(true, None, map[], map[], None, None)

  /** What the resolved strategy, if any, wants of the device. */
  datatype Policy = Policy(options: OptionMap, enforce: bool)

  datatype Push = Push(token: int, wire: OptionMap)

  function Max(a: int, b: int): int { if a < b then b else a }

  // An echo of the current token is evidence about the map last sent.
  function Acknowledge(c: Columns, echoed: int, now: int): Columns {
    if c.version != Some(echoed) then c
    else if c.acked != c.sent || c.ackedAt.None? || c.ackedAt.value < now - ACK_REFRESH_SECONDS then
      c.(acked := c.sent, ackedAt := Some(now))
    else c
  }

  // The token moves when the wanted map is not the one it stands for.
  function Restamp(c: Columns, desired: OptionMap, now: int): Columns {
    if c.version.None? || c.sent != desired then
      c.(version := Some(Max(now, (if c.version.None? then 0 else c.version.value) + 1)),
         sent := desired,
         sentAt := Some(now))
    else c
  }

  // The wanted map, plus a reset for every other key the device may hold.
  function WireMap(desired: OptionMap, acked: OptionMap, sent: OptionMap): OptionMap {
    map k | k in desired.Keys + acked.Keys + sent.Keys :: if k in desired then desired[k] else ""
  }

  predicate NothingToSay(c: Columns, policy: Policy) {
    !c.active || (policy.options == map[] && c.acked == map[] && c.version.None?)
  }

  // Answer from columns whose token is current; `told` is the map sent before.
  function Reply(c: Columns, policy: Policy, echoed: int, told: OptionMap, now: int): (Columns, Option<Push>)
    requires c.version.Some?
  {
    var token := c.version.value;
    if echoed == token then
      (c, if policy.enforce && policy.options != map[] then Some(Push(token, policy.options)) else None)
    else
      var wire := WireMap(policy.options, c.acked, told);
      if wire == map[] then (c, None)
      else (c.(sentAt := if c.sentAt.None? then Some(now) else c.sentAt), Some(Push(token, wire)))
  }

  /** The columns after a heartbeat that echoed a token, and the response's policy part. */
  function Respond(c: Columns, policy: Policy, echoed: int, now: int): (Columns, Option<Push>) {
    if NothingToSay(c, policy) then (c, None)
    else Reply(Restamp(Acknowledge(c, echoed, now), policy.options, now), policy, echoed, c.sent, now)
  }

  /** The server's half of the bargain, said without its branches: a row that is not
      active is left alone, and so is one that never had a policy and is to have none;
      otherwise an echo of the stored token acknowledges the map it stood for; afterwards the token stands for
      the wanted map, and is new and larger exactly when that map is new; a response
      names some key, sets every wanted one and resets every other key sent or acknowledged; and
      silence means the echo is current or no key is in play. */
  ghost predicate Fair(c: Columns, policy: Policy, echoed: int, c': Columns, push: Option<Push>) {
    && c'.active == c.active
    && (!c.active ==> c' == c && push == None)
    && (c.active && c.version.None? && policy.options == map[] && c.acked == map[] ==> c' == c && push == None)
    && (c.active && (c.version.Some? || policy.options != map[] || c.acked != map[]) ==>
          && c'.version.Some? && c'.sent == policy.options
          && c'.acked == (if c.version == Some(echoed) then c.sent else c.acked)
          && (c'.version == c.version <==> c.version.Some? && c.sent == policy.options)
          && (c'.version != c.version ==> c'.version.value > if c.version.None? then 0 else c.version.value)
          && (push.Some? ==>
                && push.value.token == c'.version.value && push.value.wire != map[]
                && (forall k :: k in push.value.wire ==>
                      push.value.wire[k] == if k in policy.options then policy.options[k] else "")
                && (if echoed == c'.version.value
                    then policy.enforce && push.value.wire.Keys == policy.options.Keys
                    else push.value.wire.Keys == policy.options.Keys + c'.acked.Keys + c.sent.Keys))
          && (push.None? ==>
                if echoed == c'.version.value then !policy.enforce || policy.options == map[]
                else policy.options == map[] && c'.acked == map[] && c.sent == map[]))
  }

  lemma EmptyWire(desired: OptionMap, acked: OptionMap, sent: OptionMap)
    ensures WireMap(desired, acked, sent).Keys == desired.Keys + acked.Keys + sent.Keys
    ensures WireMap(desired, acked, sent) == map[] ==> desired == map[] && acked == map[] && sent == map[]
  {
    if WireMap(desired, acked, sent) == map[] {
      assert desired.Keys == {} && acked.Keys == {} && sent.Keys == {};
    }
  }

  lemma RespondIsFair(c: Columns, policy: Policy, echoed: int, now: int)
    ensures var (c', push) := Respond(c, policy, echoed, now); Fair(c, policy, echoed, c', push)
  {
    if !NothingToSay(c, policy) {
      var acked := Acknowledge(c, echoed, now);
      assert acked.acked == if c.version == Some(echoed) then c.sent else c.acked;
      EmptyWire(policy.options, acked.acked, c.sent);
    }
  }

  /** A row that is not active is neither answered nor touched, whatever its columns and
      the policy are; an active one stays without a token exactly as long as there was
      never anything to say. */
  lemma QuarantineIsKept(c: Columns, policy: Policy, echoed: int, now: int)
    ensures !c.active ==> Respond(c, policy, echoed, now) == (c, None)
    ensures c.active ==>
      (Respond(c, policy, echoed, now).0.version.None? <==> c.version.None? && policy.options == map[] && c.acked == map[])
    ensures c.active && c.version.None? && policy.options == map[] && c.acked == map[] ==>
      Respond(c, policy, echoed, now) == (c, None)
  {
    RespondIsFair(c, policy, echoed, now);
  }

  /** What the two timestamps promise: an echo of the current token leaves a
      confirmation at most a minute old, rewritten only when the map changed or the
      old one had aged; a moved token is dated now, an unmoved one keeps its date. */
  ghost predicate Dated(c: Columns, echoed: int, now: int, c': Columns, push: Option<Push>) {
    && (c.version == Some(echoed) ==>
          && c'.ackedAt.Some? && (c'.ackedAt == c.ackedAt || c'.ackedAt == Some(now))
          && now - c'.ackedAt.value <= 60)
    && (c'.ackedAt != c.ackedAt ==>
          && c.version == Some(echoed)
          && (c.acked != c.sent || c.ackedAt.None? || now - c.ackedAt.value > 60))
    && (c'.version != c.version ==> c'.sentAt == Some(now))
    && (c'.version == c.version && c.sentAt.Some? ==> c'.sentAt == c.sentAt)
    && (push.Some? && push.value.token != echoed ==> c'.sentAt.Some?)
  }

  lemma RespondIsDated(c: Columns, policy: Policy, echoed: int, now: int)
    requires c.active && (c.version.Some? || policy.options != map[] || c.acked != map[])
    ensures var (c', push) := Respond(c, policy, echoed, now); Dated(c, echoed, now, c', push)
  {
    var acked := Acknowledge(c, echoed, now);
    var next := Restamp(acked, policy.options, now);
    assert next.ackedAt == acked.ackedAt;
    assert Reply(next, policy, echoed, c.sent, now).0.ackedAt == acked.ackedAt;
  }

  /** The device row as the heartbeat updates it in place. */
  class DeviceRecord {
    var active: bool
    var version: Option<int>
    var sent: OptionMap
    var acked: OptionMap
    var ackedAt: Option<int>
    var sentAt: Option<int>

    constructor ()
      ensures Current() == FRESH
    {
      active, version, sent, acked, ackedAt, sentAt := true, None, map[], map[], None, None;
    }

    function Current(): (c: Columns)
      reads this
    {
      Columns(active, version, sent, acked, ackedAt, sentAt)
    }

    /** An echo of the stored token acknowledges the map last sent; the timestamp is
        refreshed when the map changed and otherwise at most once a minute. */
    method RecordAck(echoed: int, now: int)
      modifies this`acked, this`ackedAt
      ensures Current() == Acknowledge(old(Current()), echoed, now)
    {
      if version != None && echoed == version.value {
        var stale := ackedAt == None || ackedAt.value < now - ACK_REFRESH_SECONDS;
        if acked != sent || stale {
          acked := sent;
          ackedAt := Some(now);
        }
      }
    }

    /** Move the token, unless it already stands for the wanted map. */
    method Bump(desired: OptionMap, now: int)
      modifies this`version, this`sent, this`sentAt
      ensures Current() == Restamp(old(Current()), desired, now)
    {
      if version == None || sent != desired {
        version := Some(Max(now, (if version == None then 0 else version.value) + 1));
        sent := desired;
        sentAt := Some(now);
      }
    }

    /** Say nothing, re-push under `enforce`, or send the wanted map with resets. */
    method Answer(policy: Policy, echoed: int, told: OptionMap, now: int) returns (push: Option<Push>)
      requires version.Some?
      modifies this`sentAt
      ensures (Current(), push) == Reply(old(Current()), policy, echoed, told, now)
    {
      if echoed == version.value {
        if !policy.enforce || policy.options == map[] {
          return None;
        }
        return Some(Push(version.value, policy.options));
      }
      var wire := AddResets(policy.options, acked.Keys + told.Keys);
      assert wire == WireMap(policy.options, acked, told);
      if wire == map[] {
        return None;
      }
      if sentAt == None {
        sentAt := Some(now);
      }
      return Some(Push(version.value, wire));
    }

    /** Build the policy half of a heartbeat response, recording acknowledgements
        before anything can move the token. */
    method DeliveryFor(policy: Policy, echoed: int, now: int) returns (push: Option<Push>)
      modifies this
      ensures (Current(), push) == Respond(old(Current()), policy, echoed, now)
      ensures Fair(old(Current()), policy, echoed, Current(), push)
      ensures !old(active) ==> push == None && Current() == old(Current())
    {
      RespondIsFair(Current(), policy, echoed, now);
      if !active || (policy.options == map[] && acked == map[] && version == None) {
        return None;
      }
      var told := sent;
      RecordAck(echoed, now);
      Bump(policy.options, now);
      push := Answer(policy, echoed, told, now);
    }
  }

  /** Give every listed key that is not wanted an empty string. */
  method AddResets(desired: OptionMap, keys: set<string>) returns (wire: OptionMap)
    ensures wire.Keys == desired.Keys + keys
    ensures forall k :: k in wire ==> wire[k] == if k in desired then desired[k] else ""
  {
    wire := desired;
    var left := keys;
    while left != {}
      invariant left <= keys
      invariant wire.Keys == desired.Keys + (keys - left)
      invariant forall k :: k in wire ==> wire[k] == if k in desired then desired[k] else ""
      decreases left
    {
      var key :| key in left;
      if key !in wire {
        wire := wire[key := ""];
      }
      left := left - {key};
    }
  }
}
