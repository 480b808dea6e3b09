/** A strategy's revisions as the compliance report reads them: newest first, to find
    the one with which the current map came in. */
module History {
  import opened Options
  import opened Revisions
  import Q = Compliance

  /** What the report takes from a revision: whose it is and the map it carries. */
  datatype Entry = Entry(strategy: nat, options: OptionMap)

  function EntryOf(r: Revision): Entry {
    Entry(r.strategy, Sanitize(AsRaw(r.snapshot.options)))
  }

  function EntriesOf(revisions: seq<Revision>): (entries: seq<Entry>)
    ensures |entries| == |revisions| && forall i :: 0 <= i < |revisions| ==> entries[i] == EntryOf(revisions[i])
  {
    seq(|revisions|, i requires 0 <= i < |revisions| => EntryOf(revisions[i]))
  }

  function Date(createdAt: map<nat, int>, row: nat): int {
    if row in createdAt then createdAt[row] else 0
  }

  /** A strategy's revisions, newest first, with their dates. */
  function PastOf(entries: seq<Entry>, s: nat, createdAt: map<nat, int>): seq<Q.Past> {
    if entries == [] then []
    else
      var n := |entries| - 1;
      (if entries[n].strategy == s then [Q.Past(entries[n].options, Date(createdAt, n))] else []) +
      PastOf(entries[..n], s, createdAt)
  }

  /** No later revision of the strategy. */
  ghost predicate IsNewest(entries: seq<Entry>, s: nat, j: nat) {
    && j < |entries| && entries[j].strategy == s
    && forall k :: j < k < |entries| ==> entries[k].strategy != s
  }

  /** The revision with the highest number is the newest. */
  lemma HighestIsNewest(revisions: seq<Revision>, s: nat, a: nat)
    requires a < |revisions| && revisions[a].strategy == s && CountOf(revisions[..a], s) + 1 == CountOf(revisions, s)
    ensures IsNewest(EntriesOf(revisions), s, a)
  {
    forall k | a < k < |revisions|
      ensures revisions[k].strategy != s
    {
      if revisions[k].strategy == s {
        assert revisions[..k][..a] == revisions[..a] && revisions[..a + 1][..a] == revisions[..a];
        Revisions.CountGrows(revisions[..k], a, s);
        Revisions.CountGrows(revisions, k, s);
      }
    }
  }

  lemma {:induction false} NewestIsFirst(entries: seq<Entry>, s: nat, j: nat, createdAt: map<nat, int>)
    requires IsNewest(entries, s, j)
    ensures var past := PastOf(entries, s, createdAt); past != [] && past[0].options == entries[j].options
  {
    var n := |entries| - 1;
    if j < n {
      assert entries[n].strategy != s;
      NewestIsFirst(entries[..n], s, j, createdAt);
    }
  }

  /** Row `i` is where the map came in: it and every later revision of the strategy carry
      it, and the revision before does not. */
  ghost predicate CameIn(entries: seq<Entry>, s: nat, current: OptionMap, i: nat) {
    && i < |entries| && entries[i].strategy == s
    && (forall j :: i <= j < |entries| && entries[j].strategy == s ==> entries[j].options == current)
    && (forall j :: 0 <= j < i && IsNewest(entries[..i], s, j) ==> entries[j].options != current)
  }

  /** A further revision, of another strategy or with the same map, changes nothing. */
  lemma CameInStays(entries: seq<Entry>, s: nat, current: OptionMap, i: nat)
    requires entries != [] && CameIn(entries[..|entries| - 1], s, current, i)
    requires entries[|entries| - 1].strategy == s ==> entries[|entries| - 1].options == current
    ensures CameIn(entries, s, current, i)
  {
    assert entries[..|entries| - 1][..i] == entries[..i];
  }

  /** A revision with the map, after none or after one without it, brings it in. */
  lemma CameInNow(entries: seq<Entry>, s: nat, current: OptionMap, createdAt: map<nat, int>)
    requires entries != []
    requires entries[|entries| - 1].strategy == s && entries[|entries| - 1].options == current
    requires Q.RunLength(current, PastOf(entries[..|entries| - 1], s, createdAt)) == 0
    ensures CameIn(entries, s, current, |entries| - 1)
  {
    var before := entries[..|entries| - 1];
    forall j | 0 <= j < |before| && IsNewest(before, s, j)
      ensures entries[j].options != current
    {
      NewestIsFirst(before, s, j, createdAt);
    }
  }

  /** The date of the oldest revision in the current run of equal maps, if there is one. */
  ghost function RunDate(current: OptionMap, past: seq<Q.Past>): Option<int> {
    Q.ChangedAt(current, past, None)
  }

  lemma RunDateCons(current: OptionMap, first: Q.Past, past: seq<Q.Past>)
    ensures RunDate(current, [first] + past) ==
      if first.options != current then None
      else if RunDate(current, past).Some? then RunDate(current, past)
      else Some(first.at)
  {
    assert ([first] + past)[1..] == past;
  }

  lemma PastStep(entries: seq<Entry>, s: nat, createdAt: map<nat, int>)
    requires entries != []
    ensures var n := |entries| - 1;
      PastOf(entries, s, createdAt) ==
        if entries[n].strategy == s
        then [Q.Past(entries[n].options, Date(createdAt, n))] + PastOf(entries[..n], s, createdAt)
        else PastOf(entries[..n], s, createdAt)
  {
  }

  lemma {:induction false} DatedRow(entries: seq<Entry>, s: nat, current: OptionMap, createdAt: map<nat, int>) returns (i: nat)
    requires RunDate(current, PastOf(entries, s, createdAt)).Some?
    ensures CameIn(entries, s, current, i) && RunDate(current, PastOf(entries, s, createdAt)) == Some(Date(createdAt, i))
  {
    var n := |entries| - 1;
    var before := entries[..n];
    var past := PastOf(before, s, createdAt);
    PastStep(entries, s, createdAt);
    RunDateCons(current, Q.Past(entries[n].options, Date(createdAt, n)), past);
    if entries[n].strategy != s || RunDate(current, past).Some? {
      i := DatedRow(before, s, current, createdAt);
      CameInStays(entries, s, current, i);
    } else {
      i := n;
      CameInNow(entries, s, current, createdAt);
    }
  }

  /** A strategy is dated by the revision with which the map of its newest one came in. */
  lemma DatedByHistory(entries: seq<Entry>, s: nat, a: nat, createdAt: map<nat, int>, updatedAt: Option<int>)
    requires IsNewest(entries, s, a)
    ensures exists i ::
      && CameIn(entries, s, entries[a].options, i)
      && Q.ChangedAt(entries[a].options, PastOf(entries, s, createdAt), updatedAt) == Some(Date(createdAt, i))
  {
    NewestIsFirst(entries, s, a, createdAt);
    var i := DatedRow(entries, s, entries[a].options, createdAt);
  }
}
