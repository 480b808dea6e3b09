/** Revision history of strategies: an append-only table numbered per strategy,
    and the diff of two snapshots as a patch. */
module Revisions {
  import opened Options

  datatype Snapshot = Snapshot(
    name: string,
    note: Option<string>,
    enabled: bool,
    isDefault: bool,
    enforce: bool,
    options: OptionMap)

  /** A row of the table; its position is its id and rows are never changed. */
  datatype Revision = Revision(strategy: nat, number: nat, snapshot: Snapshot)

  // ------------------------------------------------------------- numbering ---

  function CountOf(revs: seq<Revision>, id: nat): nat {
    if revs == [] then 0
    else CountOf(revs[..|revs| - 1], id) + (if revs[|revs| - 1].strategy == id then 1 else 0)
  }

  /** MAX(revision) over one strategy's rows, 0 when it has none. */
  function MaxNumber(revs: seq<Revision>, id: nat): nat {
    if revs == [] then 0
    else
      var m := MaxNumber(revs[..|revs| - 1], id);
      var last := revs[|revs| - 1];
      if last.strategy == id && last.number > m then last.number else m
  }

  ghost predicate Numbered(revs: seq<Revision>) {
    forall i :: 0 <= i < |revs| ==> revs[i].number == CountOf(revs[..i], revs[i].strategy) + 1
  }

  lemma NumberedPrefix(revs: seq<Revision>, n: nat)
    requires Numbered(revs) && n <= |revs|
    ensures Numbered(revs[..n])
  {
    forall i | 0 <= i < n
      ensures revs[..n][i].number == CountOf(revs[..n][..i], revs[..n][i].strategy) + 1
    {
      assert revs[..n][..i] == revs[..i];
    }
  }

  lemma {:induction false} MaxIsCount(revs: seq<Revision>, id: nat)
    requires Numbered(revs)
    ensures MaxNumber(revs, id) == CountOf(revs, id)
  {
    if revs != [] {
      NumberedPrefix(revs, |revs| - 1);
      MaxIsCount(revs[..|revs| - 1], id);
    }
  }

  lemma CountAppend(revs: seq<Revision>, r: Revision, id: nat)
    ensures CountOf(revs + [r], id) == CountOf(revs, id) + (if r.strategy == id then 1 else 0)
  {
    assert (revs + [r])[..|revs|] == revs;
  }

  lemma CountsAppend(revs: seq<Revision>, r: Revision)
    ensures forall s :: CountOf(revs + [r], s) == CountOf(revs, s) + (if s == r.strategy then 1 else 0)
  {
    forall s
      ensures CountOf(revs + [r], s) == CountOf(revs, s) + (if s == r.strategy then 1 else 0)
    {
      CountAppend(revs, r, s);
    }
  }

  lemma NextNumber(revs: seq<Revision>, r: Revision)
    requires Numbered(revs) && r.number == CountOf(revs, r.strategy) + 1
    ensures Numbered(revs + [r])
  {
    var revs' := revs + [r];
    forall i | 0 <= i < |revs'|
      ensures revs'[i].number == CountOf(revs'[..i], revs'[i].strategy) + 1
    {
      if i == |revs| {
        assert revs'[..i] == revs;
      } else {
        assert revs'[..i] == revs[..i] && revs'[i] == revs[i];
      }
    }
  }

  /** Allocating MAX + 1 keeps the numbering gapless. */
  lemma AppendNumbered(revs: seq<Revision>, id: nat, snapshot: Snapshot)
    requires Numbered(revs)
    ensures var revs' := revs + [Revision(id, MaxNumber(revs, id) + 1, snapshot)];
      && Numbered(revs')
      && (forall s :: CountOf(revs', s) == CountOf(revs, s) + (if s == id then 1 else 0))
  {
    MaxIsCount(revs, id);
    NextNumber(revs, Revision(id, MaxNumber(revs, id) + 1, snapshot));
    CountsAppend(revs, Revision(id, MaxNumber(revs, id) + 1, snapshot));
  }

  ghost predicate IsRevision(revs: seq<Revision>, i: nat, id: nat, number: nat) {
    i < |revs| && revs[i].strategy == id && revs[i].number == number
  }

  lemma {:induction false} NumberFound(revs: seq<Revision>, id: nat, number: nat) returns (i: nat)
    requires Numbered(revs) && 1 <= number <= CountOf(revs, id)
    ensures IsRevision(revs, i, id, number)
  {
    var n := |revs| - 1;
    if revs[n].strategy == id && CountOf(revs, id) == number {
      i := n;
    } else {
      NumberedPrefix(revs, n);
      i := NumberFound(revs[..n], id, number);
    }
  }

  lemma {:induction false} CountGrows(revs: seq<Revision>, i: nat, id: nat)
    requires i < |revs| && revs[i].strategy == id
    ensures CountOf(revs[..i], id) < CountOf(revs, id)
  {
    var n := |revs| - 1;
    if i < n {
      CountGrows(revs[..n], i, id);
      assert revs[..n][..i] == revs[..i];
    }
  }

  /** A strategy's revisions carry exactly the numbers 1..n, each once. */
  lemma NumbersAreGapless(revs: seq<Revision>, id: nat, number: nat)
    requires Numbered(revs)
    ensures 1 <= number <= CountOf(revs, id) <==> exists i: nat :: IsRevision(revs, i, id, number)
    ensures forall i: nat, j: nat :: IsRevision(revs, i, id, number) && IsRevision(revs, j, id, number) ==> i == j
  {
    if 1 <= number <= CountOf(revs, id) {
      var i := NumberFound(revs, id, number);
    }
    forall i: nat | IsRevision(revs, i, id, number)
      ensures 1 <= number <= CountOf(revs, id)
    {
      CountGrows(revs, i, id);
    }
    forall i: nat, j: nat | IsRevision(revs, i, id, number) && IsRevision(revs, j, id, number)
      ensures i == j
    {
      if i < j { assert revs[..j][..i] == revs[..i]; CountGrows(revs[..j], i, id); }
      if j < i { assert revs[..i][..j] == revs[..j]; CountGrows(revs[..i], j, id); }
    }
  }

  // ------------------------------------------------------------------ diff ---

  datatype Key = NameKey | NoteKey | EnabledKey | DefaultKey | EnforceKey | OptionKey(key: string)

  datatype Value = Missing | Words(text: string) | Bit(flag: bool)

  datatype Change = Change(key: Key, before: Value, after: Value)

  function Nullable(o: Option<string>): Value {
    match o case None => Missing case Some(t) => Words(t)
  }

  function At(m: OptionMap, k: string): Value {
    if k in m then Words(m[k]) else Missing
  }

  /** The value a snapshot has under a key. */
  function Look(s: Snapshot, key: Key): Value {
    match key
    case NameKey => Words(s.name)
    case NoteKey => Nullable(s.note)
    case EnabledKey => Bit(s.enabled)
    case DefaultKey => Bit(s.isDefault)
    case EnforceKey => Bit(s.enforce)
    case OptionKey(k) => At(s.options, k)
  }

  /** Snapshots are equal exactly when they look equal under every key. */
  lemma LookDecides(a: Snapshot, b: Snapshot)
    requires forall key :: Look(a, key) == Look(b, key)
    ensures a == b
  {
    assert Look(a, NameKey) == Look(b, NameKey);
    assert Look(a, NoteKey) == Look(b, NoteKey);
    assert Look(a, EnabledKey) == Look(b, EnabledKey);
    assert Look(a, DefaultKey) == Look(b, DefaultKey);
    assert Look(a, EnforceKey) == Look(b, EnforceKey);
    forall k
      ensures k in a.options <==> k in b.options
      ensures k in a.options ==> a.options[k] == b.options[k]
    {
      assert Look(a, OptionKey(k)) == Look(b, OptionKey(k));
    }
    assert a.options == b.options;
  }

  /** Every change is a true difference, and no key is named twice. */
  ghost predicate Sound(changes: seq<Change>, a: Snapshot, b: Snapshot) {
    && (forall i :: 0 <= i < |changes| ==>
          && changes[i].before == Look(a, changes[i].key)
          && changes[i].after == Look(b, changes[i].key)
          && changes[i].before != changes[i].after)
    && (forall i, j :: 0 <= i < j < |changes| ==> changes[i].key != changes[j].key)
  }

  ghost predicate Handled(changes: seq<Change>, a: Snapshot, b: Snapshot, key: Key) {
    Look(a, key) != Look(b, key) ==> exists i :: 0 <= i < |changes| && changes[i].key == key
  }

  /** A change list says exactly what differs: one change per differing key. */
  ghost predicate IsDiff(changes: seq<Change>, a: Snapshot, b: Snapshot) {
    Sound(changes, a, b) && forall key :: Handled(changes, a, b, key)
  }

  /** Set one key of a snapshot; a value of the wrong kind leaves it alone. */
  function Put(s: Snapshot, key: Key, v: Value): Snapshot {
    match (key, v)
    case (NameKey, Words(t)) => s.(name := t)
    case (NoteKey, Missing) => s.(note := None)
    case (NoteKey, Words(t)) => s.(note := Some(t))
    case (EnabledKey, Bit(f)) => s.(enabled := f)
    case (DefaultKey, Bit(f)) => s.(isDefault := f)
    case (EnforceKey, Bit(f)) => s.(enforce := f)
    case (OptionKey(k), Missing) => s.(options := s.options - {k})
    case (OptionKey(k), Words(t)) => s.(options := s.options[k := t])
    case _ => s
  }

  function Patch(s: Snapshot, changes: seq<Change>): Snapshot {
    if changes == [] then s
    else Put(Patch(s, changes[..|changes| - 1]), changes[|changes| - 1].key, changes[|changes| - 1].after)
  }

  function Undo(s: Snapshot, changes: seq<Change>): Snapshot {
    if changes == [] then s
    else Put(Undo(s, changes[..|changes| - 1]), changes[|changes| - 1].key, changes[|changes| - 1].before)
  }

  lemma PutLook(s: Snapshot, like: Snapshot, key: Key, other: Key)
    ensures Look(Put(s, key, Look(like, key)), other) == if other == key then Look(like, key) else Look(s, other)
  {
  }

  lemma {:induction false} PatchLook(s: Snapshot, changes: seq<Change>, a: Snapshot, b: Snapshot, key: Key)
    requires forall i :: 0 <= i < |changes| ==>
      changes[i].before == Look(a, changes[i].key) && changes[i].after == Look(b, changes[i].key)
    ensures Look(Patch(s, changes), key) ==
      if exists i :: 0 <= i < |changes| && changes[i].key == key then Look(b, key) else Look(s, key)
    ensures Look(Undo(s, changes), key) ==
      if exists i :: 0 <= i < |changes| && changes[i].key == key then Look(a, key) else Look(s, key)
  {
    if changes != [] {
      var n := |changes| - 1;
      PatchLook(s, changes[..n], a, b, key);
      PutLook(Patch(s, changes[..n]), b, changes[n].key, key);
      PutLook(Undo(s, changes[..n]), a, changes[n].key, key);
      if i :| 0 <= i < n && changes[i].key == key {
        assert changes[..n][i].key == key;
      }
    }
  }

  /** A diff is a faithful patch in both directions, and empty exactly on equal snapshots. */
  lemma DiffIsPatch(changes: seq<Change>, a: Snapshot, b: Snapshot)
    requires IsDiff(changes, a, b)
    ensures Patch(a, changes) == b && Undo(b, changes) == a
    ensures changes == [] <==> a == b
  {
    forall key
      ensures Look(Patch(a, changes), key) == Look(b, key)
      ensures Look(Undo(b, changes), key) == Look(a, key)
    {
      PatchLook(a, changes, a, b, key);
      PatchLook(b, changes, a, b, key);
      assert Handled(changes, a, b, key);
    }
    LookDecides(Patch(a, changes), b);
    LookDecides(Undo(b, changes), a);
  }

  const FIELDS: seq<Key> := [NameKey, NoteKey, EnabledKey, DefaultKey, EnforceKey]

  /** The two diff loops: the fixed fields in order, then every option key of either side. */
  method DiffSnapshots(before: Snapshot, after: Snapshot) returns (changes: seq<Change>)
    ensures IsDiff(changes, before, after)
  {
    changes := [];
    for f := 0 to |FIELDS|
      invariant forall i :: 0 <= i < |changes| ==> changes[i].key in FIELDS[..f]
      invariant Sound(changes, before, after)
      invariant forall g :: 0 <= g < f ==> Handled(changes, before, after, FIELDS[g])
    {
      changes := Compare(changes, before, after, FIELDS[f]);
    }
    var left := before.options.Keys + after.options.Keys;
    while left != {}
      invariant left <= before.options.Keys + after.options.Keys
      invariant forall i :: 0 <= i < |changes| ==> !changes[i].key.OptionKey? || changes[i].key.key !in left
      invariant Sound(changes, before, after)
      invariant forall g :: 0 <= g < |FIELDS| ==> Handled(changes, before, after, FIELDS[g])
      invariant forall k :: k in before.options.Keys + after.options.Keys - left ==>
        Handled(changes, before, after, OptionKey(k))
      decreases left
    {
      var k :| k in left;
      changes := Compare(changes, before, after, OptionKey(k));
      left := left - {k};
    }
    forall key
      ensures Handled(changes, before, after, key)
    {
      match key
      case NameKey => assert FIELDS[0] == key;
      case NoteKey => assert FIELDS[1] == key;
      case EnabledKey => assert FIELDS[2] == key;
      case DefaultKey => assert FIELDS[3] == key;
      case EnforceKey => assert FIELDS[4] == key;
      case OptionKey(k) =>
    }
  }

  /** One comparison of the diff loops. */
  method Compare(changes: seq<Change>, before: Snapshot, after: Snapshot, key: Key) returns (r: seq<Change>)
    requires Sound(changes, before, after)
    requires forall i :: 0 <= i < |changes| ==> changes[i].key != key
    ensures Sound(r, before, after)
    ensures changes <= r && (r == changes || (|r| == |changes| + 1 && r[|changes|].key == key))
    ensures Handled(r, before, after, key)
    ensures forall other :: Handled(changes, before, after, other) ==> Handled(r, before, after, other)
  {
    r := changes;
    if Look(before, key) != Look(after, key) {
      r := changes + [Change(key, Look(before, key), Look(after, key))];
      assert r[|changes|].key == key;
    }
    forall other | Handled(changes, before, after, other)
      ensures Handled(r, before, after, other)
    {
      if i :| 0 <= i < |changes| && changes[i].key == other {
        assert r[i].key == other;
      }
    }
  }
}
