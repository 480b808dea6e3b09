/** Streaming a set of ids in order and counting heads on the way. */
module Counting {

  /** `a` comes no later than `b`, counting up or down. */
  predicate NoLater(a: nat, b: nat, up: bool) {
    if up then a <= b else b <= a
  }

  ghost predicate IsFirst(m: nat, ids: set<nat>, up: bool) {
    m in ids && forall x :: x in ids ==> NoLater(m, x, up)
  }

  lemma {:induction false} FirstOf(ids: set<nat>, up: bool) returns (m: nat)
    requires ids != {}
    ensures IsFirst(m, ids, up)
    decreases |ids|
  {
    var any :| any in ids;
    var rest := ids - {any};
    assert ids == rest + {any};
    if rest == {} {
      m := any;
    } else {
      m := FirstOf(rest, up);
      if NoLater(any, m, up) {
        m := any;
      }
    }
  }

  /** The least element counting up, the greatest counting down. */
  function Extreme(ids: set<nat>, up: bool): (m: nat)
    requires ids != {}
    ensures IsFirst(m, ids, up)
  {
    assert exists m :: m in ids && forall x :: x in ids ==> NoLater(m, x, up) by {
      var m := FirstOf(ids, up);
      assert m in ids && forall x :: x in ids ==> NoLater(m, x, up);
    }
    var m :| m in ids && forall x :: x in ids ==> NoLater(m, x, up);
    m
  }

  /** The ids in increasing order, as a query ordered by primary key streams them. */
  function Ascending(ids: set<nat>): seq<nat>
    decreases |ids|
  {
    if ids == {} then [] else Ascending(ids - {Extreme(ids, false)}) + [Extreme(ids, false)]
  }

  function Elements(ids: seq<nat>): set<nat> {
    if ids == [] then {} else Elements(ids[..|ids| - 1]) + {ids[|ids| - 1]}
  }

  ghost predicate AllBelow(ids: set<nat>, m: nat) {
    forall x :: x in ids ==> x < m
  }

  ghost predicate Rising(ids: seq<nat>) {
    ids == [] || (Rising(ids[..|ids| - 1]) && AllBelow(Elements(ids[..|ids| - 1]), ids[|ids| - 1]))
  }

  lemma {:induction false} AscendingIsEach(ids: set<nat>)
    ensures Elements(Ascending(ids)) == ids && Rising(Ascending(ids))
    decreases |ids|
  {
    if ids != {} {
      var m := Extreme(ids, false);
      var before := Ascending(ids - {m});
      AscendingIsEach(ids - {m});
      assert (before + [m])[..|before + [m]| - 1] == before;
    }
  }

  lemma {:induction false} RisingByIndex(ids: seq<nat>)
    requires Rising(ids)
    ensures forall i :: 0 <= i < |ids| ==> ids[i] in Elements(ids)
    ensures forall i, j :: 0 <= i < j < |ids| ==> ids[i] < ids[j]
  {
    if ids != [] {
      var before := ids[..|ids| - 1];
      RisingByIndex(before);
      assert forall i :: 0 <= i < |before| ==> ids[i] == before[i];
    }
  }

  lemma {:induction false} IndexOf(ids: seq<nat>, d: nat) returns (i: nat)
    requires d in Elements(ids)
    ensures i < |ids| && ids[i] == d
  {
    var n := |ids| - 1;
    if d == ids[n] {
      i := n;
    } else {
      i := IndexOf(ids[..n], d);
    }
  }

  /** How many of the listed ids are in a set. */
  function Hits(ids: seq<nat>, marked: set<nat>): nat {
    if ids == [] then 0
    else Hits(ids[..|ids| - 1], marked) + if ids[|ids| - 1] in marked then 1 else 0
  }

  lemma OneMoreElement(ids: set<nat>, last: nat, marked: set<nat>)
    requires AllBelow(ids, last)
    ensures |(ids + {last}) * marked| == |ids * marked| + if last in marked then 1 else 0
  {
    assert last !in ids;
    if last in marked {
      assert (ids + {last}) * marked == ids * marked + {last};
    } else {
      assert (ids + {last}) * marked == ids * marked;
    }
  }

  lemma {:induction false} HitsAreElements(ids: seq<nat>, marked: set<nat>)
    requires Rising(ids)
    ensures Hits(ids, marked) == |Elements(ids) * marked|
  {
    if ids != [] {
      var before, last := ids[..|ids| - 1], ids[|ids| - 1];
      HitsAreElements(before, marked);
      OneMoreElement(Elements(before), last, marked);
    }
  }

  lemma PartsOf(a: set<nat>, b: set<nat>, c: set<nat>, d: set<nat>)
    requires a !! b && a !! c && a !! d && b !! c && b !! d && c !! d
    ensures |a + b + c + d| == |a| + |b| + |c| + |d|
  {
    assert (a + b) !! c && (a + b + c) !! d;
    assert |a + b| == |a| + |b|;
    assert |a + b + c| == |a + b| + |c|;
  }
}
