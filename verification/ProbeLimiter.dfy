/** The fixed-window limiter of health probes: one counter per window, whose expiry
    is set when the window opens and never moved. */
module ProbeLimiter {
  import opened Options

  const WINDOW_SECONDS: int := 60

  datatype Bucket = Bucket(count: nat, expires: int)

  function Limit(maximum: int): (m: nat)
    ensures m >= 1 && (maximum >= 1 ==> m == maximum) && (maximum <= 1 ==> m == 1)
  {
    if maximum < 1 then 1 else maximum
  }

  /** The bucket a probe is counted in: the stored one, or a new one if none is live. */
  function Current(b: Option<Bucket>, now: int): Bucket {
    if b.Some? && now < b.value.expires then b.value else Bucket(0, now + WINDOW_SECONDS)
  }

  /** How a probe fares with the cache: it gets the lock, waits for it in vain, or the
      cache fails, before or after a new window was stored. A window can run out
      between the probe's two queries; what the store then makes of the increment is
      its own affair: a count of one that lasts until `slip`. */
  datatype Access = Granted(slip: int) | Contended | Broken(created: bool)

  /** A probe looks for its window at one time and counts itself at another. */
  datatype Probe = Probe(at: int, counted: int, access: Access)

  function Count(b: Option<Bucket>, p: Probe): Bucket
    requires p.access.Granted?
  {
    var c := Current(b, p.at);
    if p.counted < c.expires then c.(count := c.count + 1) else Bucket(1, p.access.slip)
  }

  predicate Slips(b: Option<Bucket>, p: Probe) {
    p.access.Granted? && Current(b, p.at).expires <= p.counted
  }

  /** What is stored after a probe. */
  function Stored(b: Option<Bucket>, p: Probe): Option<Bucket> {
    match p.access
    case Granted(_) => Some(Count(b, p))
    case Contended => b
    case Broken(created) => if created then Some(Current(b, p.at)) else b
  }

  predicate Admits(b: Option<Bucket>, p: Probe, m: nat) {
    match p.access
    case Granted(_) => Count(b, p).count <= m
    case Contended => false
    case Broken(_) => true
  }

  /** The stored counter of one endpoint and client. */
  class FileBucket {
    var bucket: Option<Bucket>

    constructor ()
      ensures bucket == None
    {
      bucket := None;
    }

    /** Create the window's counter unless there is a live one. */
    method Open(now: int)
      modifies this
      ensures bucket == Some(Current(old(bucket), now))
    {
      if bucket.None? || bucket.value.expires <= now {
        bucket := Some(Bucket(0, now + WINDOW_SECONDS));
      }
    }

    /** Count a probe in the stored window, or in what the store makes of one that is gone. */
    method Increment(now: int, slip: int) returns (attempts: nat)
      requires bucket.Some?
      modifies this
      ensures bucket == Some(if now < old(bucket).value.expires
                             then old(bucket).value.(count := old(bucket).value.count + 1) else Bucket(1, slip))
      ensures attempts == bucket.value.count
    {
      if now < bucket.value.expires {
        bucket := Some(bucket.value.(count := bucket.value.count + 1));
      } else {
        bucket := Some(Bucket(1, slip));
      }
      attempts := bucket.value.count;
    }

    /** Count a probe and say whether it is within the limit; a contested lock rejects
        and a failing cache admits. */
    method Allows(maximum: int, p: Probe) returns (allowed: bool)
      modifies this
      ensures bucket == Stored(old(bucket), p)
      ensures allowed <==> Admits(old(bucket), p, Limit(maximum))
    {
      match p.access {
        case Granted(slip) =>
          Open(p.at);
          var attempts := Increment(p.counted, slip);
          allowed := attempts <= Limit(maximum);
        case Contended =>
          allowed := false;
        case Broken(created) =>
          if created { Open(p.at); }
          allowed := true;
      }
    }
  }

  // ------------------------------------------------------------------ runs ---

  function After(probes: seq<Probe>): Option<Bucket> {
    if probes == [] then None else Stored(After(probes[..|probes| - 1]), probes[|probes| - 1])
  }

  /** Whether the last probe of a sequence is admitted. */
  predicate LastAdmitted(probes: seq<Probe>, m: nat)
    requires probes != []
  {
    Admits(After(probes[..|probes| - 1]), probes[|probes| - 1], m)
  }

  /** How many of the probes from index `i` on are admitted. */
  function Admitted(probes: seq<Probe>, i: nat, m: nat): nat
    requires i <= |probes|
  {
    if i == |probes| then 0
    else Admitted(probes[..|probes| - 1], i, m) + (if LastAdmitted(probes, m) then 1 else 0)
  }

  /** How many of them met a failing cache. */
  function Failed(probes: seq<Probe>, i: nat): nat
    requires i <= |probes|
  {
    if i == |probes| then 0
    else Failed(probes[..|probes| - 1], i) + (if probes[|probes| - 1].access.Broken? then 1 else 0)
  }

  /** Probes hold the lock one after the other. */
  ghost predicate Ordered(probes: seq<Probe>) {
    && (forall i :: 0 <= i < |probes| ==> probes[i].at <= probes[i].counted)
    && (forall i, j :: 0 <= i < j < |probes| ==> probes[i].counted <= probes[j].at)
  }

  /** A window that runs out under a probe is replaced by one that lasts at least, or at
      most, a minute. */
  predicate SlipFits(b: Option<Bucket>, p: Probe, atLeast: bool) {
    Slips(b, p) ==>
      if atLeast then p.access.slip >= p.counted + WINDOW_SECONDS else p.access.slip <= p.counted + WINDOW_SECONDS
  }

  ghost predicate SlipsLast(probes: seq<Probe>, atLeast: bool) {
    probes == [] ||
    (&& SlipsLast(probes[..|probes| - 1], atLeast)
     && SlipFits(After(probes[..|probes| - 1]), probes[|probes| - 1], atLeast))
  }

  lemma {:induction false} SlipsBefore(probes: seq<Probe>, n: nat, atLeast: bool)
    requires SlipsLast(probes, atLeast) && n <= |probes|
    ensures SlipsLast(probes[..n], atLeast)
  {
    if n < |probes| {
      var before := probes[..|probes| - 1];
      SlipsBefore(before, n, atLeast);
      assert before[..n] == probes[..n];
    } else {
      assert probes[..n] == probes;
    }
  }

  /** What the stored window says about the `a` probes counted and admitted since
      `start`: it is over and there are none, it ends within the minute, or it does not. */
  ghost predicate Accounts(b: Option<Bucket>, start: int, a: int, m: nat) {
    if b.None? || b.value.expires <= start then a <= 0
    else if b.value.expires <= start + WINDOW_SECONDS then a <= b.value.count && a <= m
    else a <= 2 * m && a <= m + b.value.count
  }

  lemma OneMore(b: Option<Bucket>, p: Probe, start: int, a: int, m: nat)
    requires Accounts(b, start, a, m) && m >= 1
    requires p.at <= p.counted && start <= p.counted <= start + WINDOW_SECONDS
    requires start <= p.at || (p.counted == start && a == 0)
    requires SlipFits(b, p, true)
    ensures Accounts(Stored(b, p), start, a + if Admits(b, p, m) && !p.access.Broken? then 1 else 0, m)
  {
  }

  // A window open at the start admits at most m more; at most one further window
  // opens before the minute is over.
  lemma {:induction false} TwoWindows(probes: seq<Probe>, i: nat, m: nat)
    requires Ordered(probes) && SlipsLast(probes, true) && i < |probes| && m >= 1
    requires probes[|probes| - 1].counted <= probes[i].counted + WINDOW_SECONDS
    ensures Accounts(After(probes), probes[i].counted, Admitted(probes, i, m) - Failed(probes, i), m)
  {
    var n := |probes| - 1;
    var before := probes[..n];
    if i < n {
      TwoWindows(before, i, m);
    } else {
      assert Admitted(before, i, m) == 0 && Failed(before, i) == 0;
    }
    OneMore(After(before), probes[n], probes[i].counted, Admitted(before, i, m) - Failed(before, i), m);
  }

  /** However probes are timed and whatever the cache does, no interval of a minute,
      both ends included, admits more than twice the limit besides the probes that met
      a failing cache; if a window that runs out under a probe is replaced by one that
      lasts at least a minute. */
  lemma AnyMinuteAdmitsTwice(probes: seq<Probe>, i: nat, j: nat, maximum: int)
    requires Ordered(probes) && SlipsLast(probes, true)
    requires i <= j < |probes| && probes[j].counted - probes[i].counted <= 60
    ensures Admitted(probes[..j + 1], i, Limit(maximum)) <= 2 * Limit(maximum) + Failed(probes[..j + 1], i)
  {
    SlipsBefore(probes, j + 1, true);
    var upTo := probes[..j + 1];
    assert upTo[i] == probes[i] && upTo[|upTo| - 1] == probes[j];
    TwoWindows(upTo, i, Limit(maximum));
  }

  /** The least time `k` gaps take. */
  function Span(k: nat, gap: nat): nat {
    if k == 0 then 0 else Span(k - 1, gap) + gap
  }

  lemma {:induction false} SpanIsProduct(k: nat, gap: nat)
    ensures Span(k, gap) == k * gap
  {
    if k > 0 {
      SpanIsProduct(k - 1, gap);
      assert k * gap == (k - 1) * gap + gap;
    }
  }

  lemma {:induction false} SpanGrows(k: nat, m: nat, gap: nat)
    requires m <= k
    ensures Span(m, gap) <= Span(k, gap)
  {
    if m < k {
      SpanGrows(k - 1, m, gap);
    }
  }

  ghost predicate Apart(probes: seq<Probe>, gap: nat) {
    && (forall i :: 0 <= i < |probes| ==> probes[i].at <= probes[i].counted)
    && (forall i :: 0 < i < |probes| ==> probes[i].counted - probes[i - 1].counted >= gap)
  }

  /** The probes counted in a window took at least their gaps since it opened. */
  lemma {:induction false} CountTakesTime(probes: seq<Probe>, gap: nat)
    requires probes != [] && Apart(probes, gap) && SlipsLast(probes, false) && After(probes).Some?
    ensures var e := After(probes).value;
      probes[|probes| - 1].counted >= e.expires - WINDOW_SECONDS + Span(if e.count == 0 then 0 else e.count - 1, gap)
  {
    var n := |probes| - 1;
    var before := probes[..n];
    if n > 0 && After(before).Some? {
      CountTakesTime(before, gap);
    }
  }

  /** A client that spaces its probes by `gap` seconds with gap * limit at least a
      minute is rejected only by a contested lock; if a window that runs out under a
      probe is replaced by one that lasts at most a minute. */
  lemma SteadyClientIsAdmitted(probes: seq<Probe>, gap: nat, maximum: int)
    requires probes != [] && Apart(probes, gap) && SlipsLast(probes, false)
    requires Limit(maximum) * gap >= 60
    ensures LastAdmitted(probes, Limit(maximum)) <==> !probes[|probes| - 1].access.Contended?
  {
    var m, last := Limit(maximum), probes[|probes| - 1];
    if last.access.Granted? && !Slips(After(probes[..|probes| - 1]), last) {
      CountTakesTime(probes, gap);
      SpanIsProduct(m, gap);
      var e := After(probes).value;
      assert last.counted < e.expires;
      if e.count > m {
        SpanGrows(e.count - 1, m, gap);
      }
    }
  }

  // ----------------------------------------- both conditions are needed ---

  /** One probe, one whose window runs out under it, and a third one. */
  function SlipRun(slip: int, third: int): seq<Probe> {
    [Probe(0, 0, Granted(0)), Probe(59, 60, Granted(slip)), Probe(third, third, Granted(0))]
  }

  lemma SlipRunIs(slip: int, third: int)
    ensures After(SlipRun(slip, third)[..1]) == Some(Bucket(1, 60))
    ensures After(SlipRun(slip, third)[..2]) == Some(Bucket(1, slip))
  {
    var run := SlipRun(slip, third);
    assert run[..1][..0] == [] && run[..2][..1] == run[..1];
    assert After(run[..1]) == Stored(After(run[..1][..0]), run[0]);
  }

  /** A replacement that is already over lets three probes through within a minute
      where the limit is one. */
  lemma ShortSlipAdmitsThree()
    ensures Ordered(SlipRun(60, 60)) && Admitted(SlipRun(60, 60), 0, 1) == 3 && Failed(SlipRun(60, 60), 0) == 0
  {
    var run := SlipRun(60, 60);
    SlipRunIs(60, 60);
    assert run[..2][..1] == run[..1] && run[..1][..0] == [] && run[..3] == run;
    assert Admitted(run[..1], 0, 1) == 1 && Failed(run[..1], 0) == 0;
    assert Admitted(run[..2], 0, 1) == 2 && Failed(run[..2], 0) == 0;
  }

  /** A replacement that lasts longer rejects a client that keeps a minute's distance
      where the limit is one. */
  lemma LongSlipRejects(slip: int)
    requires slip > 120
    ensures Apart(SlipRun(slip, 120), 60) && !LastAdmitted(SlipRun(slip, 120), 1)
  {
    SlipRunIs(slip, 120);
    var run := SlipRun(slip, 120);
    assert run[..|run| - 1] == run[..2];
  }
}
