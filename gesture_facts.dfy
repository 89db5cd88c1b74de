/**
 * What performMultiPointerGesture guarantees about the events it injects:
 * every event is a well-formed motion event, a run without an exception ends
 * with every finger lifted, gestures whose fingers each touch down once and
 * lift once never throw, and a finger that never touches makes it throw.
 */
module MultiPointerGestureFacts {

  import opened Wrappers
  import opened MultiPointerGesture

  /** The ids of the fingers down, in list order. */
  function Ids(c: Contacts): seq<nat> {
    seq(|c|, j requires 0 <= j < |c| => c[j].id)
  }

  predicate Increasing(d: seq<nat>) {
    forall i, j :: 0 <= i < j < |d| ==> d[i] < d[j]
  }

  /** Downs lists, in increasing order, exactly the fingers below n that go down at step s. */
  lemma {:induction false} DownsExactly(pcs: Rows, s: nat, n: nat)
    requires n <= |pcs|
    ensures forall id: nat :: id in Downs(pcs, s, n) <==> id < n && GoesDown(pcs[id], s)
    ensures Increasing(Downs(pcs, s, n))
  {
    if n > 0 {
      DownsExactly(pcs, s, n - 1);
      var prev := Downs(pcs, s, n - 1);
      assert forall j :: 0 <= j < |prev| ==> prev[j] in prev;
    }
  }

  /** Ups lists, in increasing order, exactly the fingers below n whose row has length s. */
  lemma {:induction false} UpsExactly(pcs: Rows, s: nat, n: nat)
    requires n <= |pcs|
    ensures forall id: nat :: id in Ups(pcs, s, n) <==> id < n && |pcs[id]| == s
    ensures Increasing(Ups(pcs, s, n))
  {
    if n > 0 {
      UpsExactly(pcs, s, n - 1);
      var prev := Ups(pcs, s, n - 1);
      assert forall j :: 0 <= j < |prev| ==> prev[j] in prev;
    }
  }

  // ---------------------------------------------------------------------
  // Every injected event is well formed
  // ---------------------------------------------------------------------

  /**
   * A motion event as Android expects it: DOWN and UP carry the one finger,
   * MOVE carries at least one, POINTER_DOWN names the newly added last
   * pointer and POINTER_UP one of the pointers, both among at least two.
   */
  predicate WellFormed(e: Event) {
    || (e.action == ACTION_DOWN && |e.pointers| == 1)
    || (e.action == ACTION_UP && |e.pointers| == 1)
    || (e.action == ACTION_MOVE && |e.pointers| >= 1)
    || (|e.pointers| >= 2 && e.action == GetPointerAction(ACTION_POINTER_DOWN, |e.pointers| - 1))
    || (|e.pointers| >= 2 && exists i :: 0 <= i < |e.pointers| && e.action == GetPointerAction(ACTION_POINTER_UP, i))
  }

  predicate AllWellFormed(evs: seq<Event>) {
    forall e :: e in evs ==> WellFormed(e)
  }

  lemma {:induction false} ReleaseWellFormed(c: Contacts, ups: seq<nat>)
    ensures AllWellFormed(Release(c, ups).events)
    decreases |ups|
  {
    if ups != [] && IndexOf(c, ups[0]).Some? {
      var i := IndexOf(c, ups[0]).value;
      ReleaseWellFormed(ReleaseOne(c, i).contacts, ups[1..]);
      var e := ReleaseOne(c, i).events[0];
      assert |c| != 1 ==> 0 <= i < |e.pointers| && e.action == GetPointerAction(ACTION_POINTER_UP, i);
    }
  }

  lemma {:induction false} AddEachWellFormed(c: Contacts, ds: seq<nat>, pcs: Rows, s: nat)
    requires |c| >= 1 || ds == []
    ensures AllWellFormed(AddEach(c, ds, pcs, s).events)
    decreases |ds|
  {
    if ds != [] && HasEntry(pcs, ds[0], s) {
      AddEachWellFormed(AddOne(c, ds[0], pcs, s).contacts, ds[1..], pcs, s);
    }
  }

  lemma PressWellFormed(c: Contacts, downs: seq<nat>, pcs: Rows, s: nat)
    ensures AllWellFormed(Press(c, downs, pcs, s).events)
  {
    var first := FirstDown(c, downs, pcs, s);
    if first.failure.None? {
      assert |first.contacts| >= 1 || PointerDowns(c, downs) == [];
      AddEachWellFormed(first.contacts, PointerDowns(c, downs), pcs, s);
    }
  }

  lemma StepWellFormed(c: Contacts, pcs: Rows, s: nat)
    ensures AllWellFormed(Step(c, pcs, s).events)
  {
    var r := Release(c, Ups(pcs, s, |pcs|));
    ReleaseWellFormed(c, Ups(pcs, s, |pcs|));
    var m := Move(r.contacts, pcs, s);
    PressWellFormed(m.contacts, Downs(pcs, s, |pcs|), pcs, s);
  }

  lemma {:induction false} RunWellFormed(c: Contacts, pcs: Rows, s: nat)
    requires s <= MaxLen(pcs)
    ensures AllWellFormed(Run(c, pcs, s).events)
    decreases MaxLen(pcs) - s
  {
    StepWellFormed(c, pcs, s);
    var p := Step(c, pcs, s);
    if !(p.failure.Some? || s == MaxLen(pcs)) {
      RunWellFormed(p.contacts, pcs, s + 1);
    }
  }

  /** Every event performMultiPointerGesture injects is well formed. */
  lemma PerformWellFormed(pcs: Rows)
    ensures AllWellFormed(Perform(pcs).events)
  {
    RunWellFormed([], pcs, 0);
  }

  // ---------------------------------------------------------------------
  // A run without an exception lifts every finger
  // ---------------------------------------------------------------------

  /** How a run's outcome follows from its first step. */
  lemma RunStep(c: Contacts, pcs: Rows, s: nat)
    requires s <= MaxLen(pcs)
    ensures Step(c, pcs, s).failure.Some? ==> Run(c, pcs, s).failure.Some?
    ensures Step(c, pcs, s).failure.None? && s == MaxLen(pcs) ==>
      Run(c, pcs, s).failure.None? && Run(c, pcs, s).contacts == Step(c, pcs, s).contacts
    ensures Step(c, pcs, s).failure.None? && s < MaxLen(pcs) ==>
      Run(c, pcs, s).failure == Run(Step(c, pcs, s).contacts, pcs, s + 1).failure &&
      Run(c, pcs, s).contacts == Run(Step(c, pcs, s).contacts, pcs, s + 1).contacts
  {
  }

  /** Live holds exactly when every finger down has an entry at step s. */
  lemma {:induction false} LiveAll(c: Contacts, pcs: Rows, s: nat)
    ensures Live(c, pcs, s) <==> forall j :: 0 <= j < |c| ==> HasEntry(pcs, c[j].id, s)
    decreases |c|
  {
    if c != [] {
      var init := c[..|c| - 1];
      LiveAll(init, pcs, s);
      assert forall j :: 0 <= j < |init| ==> init[j] == c[j];
    }
  }

  /** The move phase keeps the fingers and their order. */
  lemma {:induction false} IdsMoved(c: Contacts, pcs: Rows, s: nat)
    requires Live(c, pcs, s)
    ensures Ids(Moved(c, pcs, s)) == Ids(c)
    decreases |c|
  {
    if c != [] {
      var init := c[..|c| - 1];
      IdsMoved(init, pcs, s);
      IdsAppend(Moved(init, pcs, s), Pointer(c[|c| - 1].id, pcs[c[|c| - 1].id][s]));
      IdsAppend(init, c[|c| - 1]);
      assert init + [c[|c| - 1]] == c;
    }
  }

  /** No finger has an entry at the last step. */
  lemma NoneLiveAtEnd(c: Contacts, pcs: Rows)
    ensures |c| > 0 ==> !Live(c, pcs, MaxLen(pcs))
  {
    MaxLenBounds(pcs);
    LiveAll(c, pcs, MaxLen(pcs));
    if |c| > 0 && c[0].id < |pcs| {
      assert |pcs[c[0].id]| <= MaxLen(pcs);
    }
  }

  /** No finger goes down at a step that no row below n reaches. */
  lemma {:induction false} NoDownsPast(pcs: Rows, s: nat, n: nat)
    requires n <= |pcs| && forall id :: 0 <= id < n ==> |pcs[id]| <= s
    ensures Downs(pcs, s, n) == []
  {
    if n > 0 {
      NoDownsPast(pcs, s, n - 1);
    }
  }

  /** At the last step, a step without an exception leaves no finger down. */
  lemma LastStepLiftsAll(c: Contacts, pcs: Rows)
    requires Step(c, pcs, MaxLen(pcs)).failure.None?
    ensures Step(c, pcs, MaxLen(pcs)).contacts == []
  {
    var s := MaxLen(pcs);
    var r := Release(c, Ups(pcs, s, |pcs|));
    NoneLiveAtEnd(r.contacts, pcs);
    MaxLenBounds(pcs);
    NoDownsPast(pcs, s, |pcs|);
    var m := Move(r.contacts, pcs, s);
    assert m.contacts == [];
  }

  lemma {:induction false} RunLiftsAll(c: Contacts, pcs: Rows, s: nat)
    requires s <= MaxLen(pcs)
    ensures Run(c, pcs, s).failure.None? ==> Run(c, pcs, s).contacts == []
    decreases MaxLen(pcs) - s
  {
    var p := Step(c, pcs, s);
    if p.failure.None? {
      if s == MaxLen(pcs) {
        LastStepLiftsAll(c, pcs);
      } else {
        RunLiftsAll(p.contacts, pcs, s + 1);
      }
    }
  }

  /** A gesture performed without an exception ends with every finger lifted. */
  lemma PerformLiftsAll(pcs: Rows)
    ensures Perform(pcs).failure.None? ==> Perform(pcs).contacts == []
  {
    RunLiftsAll([], pcs, 0);
  }

  // ---------------------------------------------------------------------
  // List facts
  // ---------------------------------------------------------------------

  predicate Distinct(d: seq<nat>) {
    forall i, j :: 0 <= i < j < |d| ==> d[i] != d[j]
  }

  lemma IdsRemoveAt(c: Contacts, i: nat)
    requires i < |c|
    ensures Ids(RemoveAt(c, i)) == RemoveAt(Ids(c), i)
  {
  }

  lemma IdsAppend(c: Contacts, p: Pointer)
    ensures Ids(c + [p]) == Ids(c) + [p.id]
  {
  }

  /** Removing a position keeps the other elements and, in a list without repeats, drops exactly that one. */
  lemma RemoveAtMembers(d: seq<nat>, i: nat)
    requires i < |d|
    ensures forall x :: x in RemoveAt(d, i) ==> x in d
    ensures Distinct(d) ==> Distinct(RemoveAt(d, i)) && forall x :: x in RemoveAt(d, i) <==> x in d && x != d[i]
  {
    var r := RemoveAt(d, i);
    assert forall j :: 0 <= j < |r| ==> r[j] == if j < i then d[j] else d[j + 1];
    if Distinct(d) {
      forall x | x in d && x != d[i]
        ensures x in r
      {
        var j :| 0 <= j < |d| && d[j] == x;
        if j < i {
          assert r[j] == x;
        } else {
          assert r[j - 1] == x;
        }
      }
    }
  }

  lemma DistinctAppend(a: seq<nat>, b: seq<nat>)
    requires Distinct(a) && Increasing(b) && forall x :: x in b ==> x !in a
    ensures Distinct(a + b)
  {
    var ab := a + b;
    forall i, j | 0 <= i < j < |ab|
      ensures ab[i] != ab[j]
    {
      if i < |a| && j >= |a| {
        assert ab[j] == b[j - |a|] && b[j - |a|] in b;
      }
    }
  }

  /** A finger in the list is found by findIndex. */
  lemma FoundIfDown(c: Contacts, id: nat)
    requires id in Ids(c)
    ensures IndexOf(c, id).Some? && c[IndexOf(c, id).value].id == id
  {
    IndexOfFirst(c, id);
    var j :| 0 <= j < |c| && Ids(c)[j] == id;
  }

  // ---------------------------------------------------------------------
  // Gestures whose fingers each touch down once and lift once never throw
  // ---------------------------------------------------------------------

  /** The row is one contact: null entries before step a, a non-null entry at every step from a to its end. */
  predicate IsContact(row: seq<Option<Coords>>, a: nat) {
    a < |row| && forall t :: 0 <= t < |row| ==> (row[t].Some? <==> a <= t)
  }

  /** Finger id's row is one contact that goes down at step downAt[id]. */
  predicate Contacting(pcs: Rows, downAt: seq<nat>) {
    |downAt| == |pcs| && forall id :: 0 <= id < |pcs| ==> IsContact(pcs[id], downAt[id])
  }

  /** Just before step s: each finger down once only, exactly those that went down before s and whose row reaches s. */
  predicate DownBefore(c: Contacts, pcs: Rows, downAt: seq<nat>, s: nat)
    requires |downAt| == |pcs|
  {
    && Distinct(Ids(c))
    && (forall x :: x in Ids(c) ==> x < |pcs|)
    && (forall id: nat :: id < |pcs| ==> (id in Ids(c) <==> downAt[id] < s <= |pcs[id]|))
  }

  lemma GoesDownOnce(row: seq<Option<Coords>>, a: nat, s: nat)
    requires IsContact(row, a)
    ensures GoesDown(row, s) <==> s == a
  {
    if s == a {
      assert row[s].Some?;
      if s > 0 {
        assert row[s - 1].None?;
      }
    }
  }

  /** The release phase lifts every finger of `ups` when each is down once. */
  lemma {:induction false} ReleaseDown(c: Contacts, ups: seq<nat>)
    requires Distinct(Ids(c)) && Increasing(ups) && forall u :: u in ups ==> u in Ids(c)
    ensures Release(c, ups).failure.None?
    ensures Distinct(Ids(Release(c, ups).contacts))
    ensures forall x :: x in Ids(Release(c, ups).contacts) <==> x in Ids(c) && x !in ups
    decreases |ups|
  {
    if ups != [] {
      assert ups[0] in ups;
      FoundIfDown(c, ups[0]);
      var i := IndexOf(c, ups[0]).value;
      var c1 := ReleaseOne(c, i).contacts;
      IdsRemoveAt(c, i);
      RemoveAtMembers(Ids(c), i);
      assert forall u :: u in ups[1..] ==> u in ups && u != ups[0];
      ReleaseDown(c1, ups[1..]);
      assert forall x :: x in ups <==> x == ups[0] || x in ups[1..];
    }
  }

  /** The POINTER_DOWN loop appends every finger of ds when each has an entry. */
  lemma {:induction false} AddEachAppends(c: Contacts, ds: seq<nat>, pcs: Rows, s: nat)
    requires forall d :: d in ds ==> HasEntry(pcs, d, s)
    ensures AddEach(c, ds, pcs, s).failure.None?
    ensures Ids(AddEach(c, ds, pcs, s).contacts) == Ids(c) + ds
    decreases |ds|
  {
    if ds != [] {
      assert ds[0] in ds;
      var c1 := AddOne(c, ds[0], pcs, s).contacts;
      IdsAppend(c, Pointer(ds[0], pcs[ds[0]][s]));
      assert forall d :: d in ds[1..] ==> d in ds;
      AddEachAppends(c1, ds[1..], pcs, s);
      assert Ids(c) + [ds[0]] + ds[1..] == Ids(c) + ds;
    }
  }

  /** The press phase appends every new finger when each has an entry. */
  lemma PressAppends(c: Contacts, downs: seq<nat>, pcs: Rows, s: nat)
    requires forall d :: d in downs ==> HasEntry(pcs, d, s)
    ensures Press(c, downs, pcs, s).failure.None?
    ensures Ids(Press(c, downs, pcs, s).contacts) == Ids(c) + downs
  {
    var first := FirstDown(c, downs, pcs, s);
    var rest := PointerDowns(c, downs);
    if downs != [] && |c| == 0 {
      assert downs[0] in downs;
      assert Ids(first.contacts) == [downs[0]];
      assert [downs[0]] + rest == downs;
    }
    assert forall d :: d in rest ==> d in downs;
    AddEachAppends(first.contacts, rest, pcs, s);
  }

  /** One step of a contact gesture throws nothing and keeps the fingers down as DownBefore describes. */
  lemma StepKeepsContacts(c: Contacts, pcs: Rows, downAt: seq<nat>, s: nat)
    requires Contacting(pcs, downAt) && DownBefore(c, pcs, downAt, s)
    ensures Step(c, pcs, s).failure.None?
    ensures DownBefore(Step(c, pcs, s).contacts, pcs, downAt, s + 1)
  {
    var ups := Ups(pcs, s, |pcs|);
    UpsExactly(pcs, s, |pcs|);
    ReleaseDown(c, ups);
    var r := Release(c, ups);
    assert forall x :: x in Ids(r.contacts) ==> x < |pcs| && downAt[x] < s < |pcs[x]|;
    assert Live(r.contacts, pcs, s) by {
      forall j | 0 <= j < |r.contacts|
        ensures HasEntry(pcs, r.contacts[j].id, s)
      {
        assert Ids(r.contacts)[j] in Ids(r.contacts);
      }
      LiveAll(r.contacts, pcs, s);
    }
    var m := Move(r.contacts, pcs, s);
    if |r.contacts| > 0 {
      IdsMoved(r.contacts, pcs, s);
    }
    var downs := Downs(pcs, s, |pcs|);
    DownsExactly(pcs, s, |pcs|);
    forall d | d in downs
      ensures d < |pcs| && downAt[d] == s && HasEntry(pcs, d, s)
    {
      GoesDownOnce(pcs[d], downAt[d], s);
    }
    PressAppends(m.contacts, downs, pcs, s);
    DistinctAppend(Ids(m.contacts), downs);
    forall id: nat | id < |pcs|
      ensures id in downs <==> downAt[id] == s
    {
      GoesDownOnce(pcs[id], downAt[id], s);
    }
  }

  lemma {:induction false} RunKeepsContacts(c: Contacts, pcs: Rows, downAt: seq<nat>, s: nat)
    requires Contacting(pcs, downAt) && DownBefore(c, pcs, downAt, s) && s <= MaxLen(pcs)
    ensures Run(c, pcs, s).failure.None?
    decreases MaxLen(pcs) - s
  {
    StepKeepsContacts(c, pcs, downAt, s);
    RunStep(c, pcs, s);
    if s < MaxLen(pcs) {
      RunKeepsContacts(Step(c, pcs, s).contacts, pcs, downAt, s + 1);
    }
  }

  /**
   * A gesture in which every finger's row is null entries followed by at
   * least one non-null entry is performed without an exception and ends
   * with every finger lifted.
   */
  lemma ContactGestureCompletes(pcs: Rows, downAt: seq<nat>)
    requires Contacting(pcs, downAt)
    ensures Perform(pcs).failure.None?
    ensures Perform(pcs).contacts == []
  {
    RunKeepsContacts([], pcs, downAt, 0);
    PerformLiftsAll(pcs);
  }

  // ---------------------------------------------------------------------
  // A finger that never touches makes the gesture throw
  // ---------------------------------------------------------------------

  /** Releasing a finger that is not down throws, here or at an earlier finger. */
  lemma {:induction false} ReleaseMissing(c: Contacts, ups: seq<nat>, id: nat)
    requires id in ups && id !in Ids(c)
    ensures Release(c, ups).failure.Some?
    decreases |ups|
  {
    if ups[0] == id {
      IndexOfFirst(c, id);
      forall j | 0 <= j < |c|
        ensures c[j].id != id
      {
        assert Ids(c)[j] == c[j].id;
      }
    } else if IndexOf(c, ups[0]).Some? {
      var i := IndexOf(c, ups[0]).value;
      IdsRemoveAt(c, i);
      RemoveAtMembers(Ids(c), i);
      ReleaseMissing(ReleaseOne(c, i).contacts, ups[1..], id);
    }
  }

  lemma {:induction false} ReleaseKeepsOut(c: Contacts, ups: seq<nat>, id: nat)
    requires id !in Ids(c)
    ensures id !in Ids(Release(c, ups).contacts)
    decreases |ups|
  {
    if ups != [] && IndexOf(c, ups[0]).Some? {
      var i := IndexOf(c, ups[0]).value;
      IdsRemoveAt(c, i);
      RemoveAtMembers(Ids(c), i);
      ReleaseKeepsOut(ReleaseOne(c, i).contacts, ups[1..], id);
    }
  }

  lemma {:induction false} AddEachKeepsOut(c: Contacts, ds: seq<nat>, pcs: Rows, s: nat, id: nat)
    requires id !in Ids(c) && id !in ds
    ensures id !in Ids(AddEach(c, ds, pcs, s).contacts)
    decreases |ds|
  {
    if ds != [] && HasEntry(pcs, ds[0], s) {
      IdsAppend(c, Pointer(ds[0], pcs[ds[0]][s]));
      assert ds[0] in ds;
      assert forall d :: d in ds[1..] ==> d in ds;
      AddEachKeepsOut(AddOne(c, ds[0], pcs, s).contacts, ds[1..], pcs, s, id);
    }
  }

  /** A finger whose row is all null entries is never put down. */
  lemma StepKeepsOut(c: Contacts, pcs: Rows, s: nat, id: nat)
    requires id < |pcs| && (forall t :: 0 <= t < |pcs[id]| ==> pcs[id][t].None?) && id !in Ids(c)
    ensures id !in Ids(Step(c, pcs, s).contacts)
  {
    var r := Release(c, Ups(pcs, s, |pcs|));
    ReleaseKeepsOut(c, Ups(pcs, s, |pcs|), id);
    var m := Move(r.contacts, pcs, s);
    if |r.contacts| > 0 && Live(r.contacts, pcs, s) {
      IdsMoved(r.contacts, pcs, s);
    }
    var downs := Downs(pcs, s, |pcs|);
    DownsExactly(pcs, s, |pcs|);
    var first := FirstDown(m.contacts, downs, pcs, s);
    if downs != [] && |m.contacts| == 0 {
      assert downs[0] in downs;
    }
    assert forall d :: d in PointerDowns(m.contacts, downs) ==> d in downs;
    AddEachKeepsOut(first.contacts, PointerDowns(m.contacts, downs), pcs, s, id);
  }

  lemma {:induction false} RunSilent(c: Contacts, pcs: Rows, s: nat, id: nat)
    requires id < |pcs| && (forall t :: 0 <= t < |pcs[id]| ==> pcs[id][t].None?) && id !in Ids(c)
    requires s <= |pcs[id]| && s <= MaxLen(pcs)
    ensures Run(c, pcs, s).failure.Some?
    decreases |pcs[id]| - s
  {
    RunStep(c, pcs, s);
    if s == |pcs[id]| {
      UpsExactly(pcs, s, |pcs|);
      ReleaseMissing(c, Ups(pcs, s, |pcs|), id);
    } else if Step(c, pcs, s).failure.None? {
      MaxLenBounds(pcs);
      StepKeepsOut(c, pcs, s, id);
      RunSilent(Step(c, pcs, s).contacts, pcs, s + 1, id);
    }
  }

  /** A finger whose row has no non-null entry (an empty row included) makes the gesture throw: findIndex when its row ends, unless an earlier exception ends it first. */
  lemma SilentFingerThrows(pcs: Rows, id: nat)
    requires id < |pcs| && forall t :: 0 <= t < |pcs[id]| ==> pcs[id][t].None?
    ensures Perform(pcs).failure.Some?
  {
    RunSilent([], pcs, 0, id);
  }
}
