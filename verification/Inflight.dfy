/**
 The in-flight window that turns "these events are done" into a safe offset (pkg/runner/inflight.go).  Events
 are registered in ascending order and completed in any order; the committed offset is the largest id with
 nothing open at or below it.  The tracker never looks back: it passes completed entries at the bottom of the
 window and forgets them, so completing an id that it has passed, which the runner never does, moves it back.
 */
module Inflight {
  import opened Wrappers

  /** The tracker as a value: dispatched ids with their completion flag, and the committed offset. */
  datatype Tracker = Tracker(pending: map<int, bool>, committed: int)

  const NewTracker := Tracker(map[], 0)

  ghost function Least(s: set<int>): (m: int)
    requires s != {}
    ensures m in s && forall x :: x in s ==> m <= x
  {
    SomeOrNone(s);
    var x :| x in s;
    if s == {x} then x
    else
      var m := Least(s - {x});
      assert forall y :: y in s ==> y == x || y in s - {x};
      if x < m then x else m
  }

  lemma {:induction false} LeastIs(s: set<int>, m: int)
    requires m in s && forall x :: x in s ==> m <= x
    ensures s != {} && Least(s) == m
  {
  }

  /** Pass every completed entry at the bottom of the window. */
  ghost function Advance(t: Tracker): Tracker
    decreases |t.pending.Keys|
  {
    if t.pending == map[] then t
    else
      var m := Least(t.pending.Keys);
      if t.pending[m] then
        assert (t.pending - {m}).Keys == t.pending.Keys - {m};
        Advance(Tracker(t.pending - {m}, m))
      else t
  }

  function Dispatch(t: Tracker, id: int): Tracker { t.(pending := t.pending[id := false]) }

  ghost function Finish(t: Tracker, id: int): Tracker { Advance(t.(pending := t.pending[id := true])) }

  // ---------------------------------------------------------------------------------------------
  // The specification: registered ids and completed ids
  // ---------------------------------------------------------------------------------------------

  datatype Action = Dispatched(id: int) | Completed(id: int)

  function Registered(trace: seq<Action>): set<int> { set a | a in trace && a.Dispatched? :: a.id }

  function Done(trace: seq<Action>): set<int> { set a | a in trace && a.Completed? :: a.id }

  /** Ids are dispatched in increasing order and each is completed at most once, after its dispatch. */
  ghost predicate WellFormed(trace: seq<Action>) {
    trace == [] ||
    var front, a := trace[..|trace| - 1], trace[|trace| - 1];
    && WellFormed(front)
    && match a
       case Dispatched(id) => id > 0 && forall r :: r in Registered(front) ==> r < id
       case Completed(id) => id in Registered(front) && id !in Done(front)
  }

  ghost function Play(trace: seq<Action>): Tracker {
    if trace == [] then NewTracker
    else
      var t := Play(trace[..|trace| - 1]);
      match trace[|trace| - 1]
      case Dispatched(id) => Dispatch(t, id)
      case Completed(id) => Finish(t, id)
  }

  /** Every registered id up to c is done. */
  ghost predicate Contiguous(reg: set<int>, done: set<int>, c: int) {
    c in reg && forall r :: r in reg && r <= c ==> r in done
  }

  /** c is the largest registered id with nothing open at or below it, 0 when there is none. */
  ghost predicate IsCommittable(reg: set<int>, done: set<int>, c: int) {
    if exists x :: Contiguous(reg, done, x) then
      Contiguous(reg, done, c) && forall x :: Contiguous(reg, done, x) ==> x <= c
    else c == 0
  }

  /** The tracker holds exactly the registered ids above the committable offset, with their flags. */
  ghost predicate Represents(t: Tracker, reg: set<int>, done: set<int>) {
    && IsCommittable(reg, done, t.committed)
    && (forall r :: r in t.pending <==> r in reg && r > t.committed)
    && (forall r :: r in t.pending ==> t.pending[r] == (r in done))
  }

  /** As Represents, but completed entries may still sit at the bottom of the window. */
  ghost predicate Window(t: Tracker, reg: set<int>, done: set<int>) {
    && (if t.committed == 0 then forall r :: r in reg ==> r > 0 else Contiguous(reg, done, t.committed))
    && t.committed >= 0
    && (forall r :: r in t.pending <==> r in reg && r > t.committed)
    && (forall r :: r in t.pending ==> t.pending[r] == (r in done))
  }

  lemma {:induction false} AdvanceRepresents(t: Tracker, reg: set<int>, done: set<int>)
    requires Window(t, reg, done)
    ensures Represents(Advance(t), reg, done) && Advance(t).committed >= t.committed
    decreases |t.pending.Keys|
  {
    if t.pending == map[] {
      assert forall r :: r in reg ==> r <= t.committed;
    } else {
      var m := Least(t.pending.Keys);
      if t.pending[m] {
        assert (t.pending - {m}).Keys == t.pending.Keys - {m};
        var next := Tracker(t.pending - {m}, m);
        assert Contiguous(reg, done, m) by {
          assert forall r :: r in reg && r <= m ==> r == m || r <= t.committed || r in t.pending;
        }
        assert Window(next, reg, done);
        AdvanceRepresents(next, reg, done);
      } else {
        assert m in reg && m !in done;
        assert forall x :: Contiguous(reg, done, x) ==> x < m;
      }
    }
  }

  lemma {:induction false} RepresentsIsWindow(t: Tracker, reg: set<int>, done: set<int>)
    requires Represents(t, reg, done) && forall r :: r in reg ==> r > 0
    ensures Window(t, reg, done)
  {
  }

  lemma {:induction false} SnocSets(front: seq<Action>, a: Action)
    ensures Registered(front + [a]) == Registered(front) + if a.Dispatched? then {a.id} else {}
    ensures Done(front + [a]) == Done(front) + if a.Completed? then {a.id} else {}
  {
  }

  lemma {:induction false} PositiveIds(trace: seq<Action>)
    requires WellFormed(trace)
    ensures forall r :: r in Registered(trace) ==> r > 0
    ensures Done(trace) <= Registered(trace)
    decreases |trace|
  {
    if trace != [] {
      PositiveIds(trace[..|trace| - 1]);
      assert trace == trace[..|trace| - 1] + [trace[|trace| - 1]];
      SnocSets(trace[..|trace| - 1], trace[|trace| - 1]);
    }
  }

  lemma {:induction false} DispatchRepresents(t: Tracker, reg: set<int>, done: set<int>, id: int)
    requires Represents(t, reg, done) && id > 0 && id !in done && forall r :: r in reg ==> 0 < r < id
    ensures Represents(Dispatch(t, id), reg + {id}, done)
  {
    assert !Contiguous(reg + {id}, done, id);
    assert forall x :: Contiguous(reg + {id}, done, x) <==> Contiguous(reg, done, x);
  }

  lemma {:induction false} FinishRepresents(t: Tracker, reg: set<int>, done: set<int>, id: int)
    requires Represents(t, reg, done) && id in reg && id !in done && forall r :: r in reg ==> r > 0
    ensures Represents(Finish(t, id), reg, done + {id}) && Finish(t, id).committed >= t.committed
  {
    assert t.committed != 0 ==> Contiguous(reg, done, t.committed);
    AdvanceRepresents(t.(pending := t.pending[id := true]), reg, done + {id});
  }

  /** The tracker refines its specification, after every well-formed trace. */
  lemma {:induction false} TrackerIsWindow(trace: seq<Action>)
    requires WellFormed(trace)
    ensures Represents(Play(trace), Registered(trace), Done(trace))
    decreases |trace|
  {
    if trace != [] {
      var front, a := trace[..|trace| - 1], trace[|trace| - 1];
      TrackerIsWindow(front);
      PositiveIds(front);
      assert trace == front + [a];
      SnocSets(front, a);
      match a
      case Dispatched(id) =>
        assert Registered(trace) == Registered(front) + {id} && Done(trace) == Done(front);
        DispatchRepresents(Play(front), Registered(front), Done(front), id);
      case Completed(id) =>
        assert Registered(trace) == Registered(front) && Done(trace) == Done(front) + {id};
        FinishRepresents(Play(front), Registered(front), Done(front), id);
    }
  }

  /** The committed offset never goes back, whatever the trace does next. */
  lemma {:induction false} NeverBack(trace: seq<Action>, n: nat)
    requires WellFormed(trace) && n <= |trace|
    ensures WellFormed(trace[..n]) && Play(trace[..n]).committed <= Play(trace).committed
    decreases |trace|
  {
    if n == |trace| {
      assert trace[..n] == trace;
    } else {
      var front, a := trace[..|trace| - 1], trace[|trace| - 1];
      assert front[..n] == trace[..n];
      NeverBack(front, n);
      TrackerIsWindow(front);
      PositiveIds(front);
      if a.Completed? {
        FinishRepresents(Play(front), Registered(front), Done(front), a.id);
      }
    }
  }

  lemma {:induction false} SameCommittable(reg: set<int>, done: set<int>, c: int, d: int)
    requires IsCommittable(reg, done, c) && IsCommittable(reg, done, d)
    ensures c == d
  {
    if exists x :: Contiguous(reg, done, x) {
      assert Contiguous(reg, done, c) && Contiguous(reg, done, d);
    }
  }

  /** The same offset, and the same entries with the same flags. */
  ghost predicate SameTracker(t: Tracker, u: Tracker) {
    && t.committed == u.committed
    && (forall id :: id in t.pending <==> id in u.pending)
    && (forall id :: id in t.pending ==> t.pending[id] == u.pending[id])
  }

  /** Only which ids were dispatched and which completed matters, not the order of anything. */
  lemma {:induction false} OrderDoesNotMatter(a: seq<Action>, b: seq<Action>)
    requires WellFormed(a) && WellFormed(b) && Registered(a) == Registered(b) && Done(a) == Done(b)
    ensures SameTracker(Play(a), Play(b))
  {
    TrackerIsWindow(a);
    TrackerIsWindow(b);
    SameCommittable(Registered(a), Done(a), Play(a).committed, Play(b).committed);
  }

  /** In a tracker that Play built, the entry at the bottom of the window is still open. */
  lemma {:induction false} BottomIsOpen(t: Tracker, reg: set<int>, done: set<int>, m: int)
    requires Represents(t, reg, done) && forall r :: r in reg ==> r > 0
    requires m in t.pending && forall x :: x in t.pending ==> m <= x
    ensures !t.pending[m]
  {
    if t.pending[m] {
      assert t.committed > 0 ==> Contiguous(reg, done, t.committed);
      assert forall r :: r in reg && r <= m ==> r == m || r <= t.committed || r in t.pending;
      assert Contiguous(reg, done, m);
    }
  }

  /** Completing an id moves the offset back exactly when the window had already passed that id. */
  lemma {:induction false} BackwardsIff(trace: seq<Action>, id: int)
    requires WellFormed(trace)
    ensures Finish(Play(trace), id).committed < Play(trace).committed <==> id < Play(trace).committed
  {
    var t := Play(trace);
    TrackerIsWindow(trace);
    PositiveIds(trace);
    var t' := t.(pending := t.pending[id := true]);
    if id < t.committed {
      LeastIs(t'.pending.Keys, id);
      var rest := Tracker(t'.pending - {id}, id);
      if rest.pending != map[] {
        var m := Least(rest.pending.Keys);
        assert forall x :: x in t.pending ==> x in rest.pending.Keys;
        BottomIsOpen(t, Registered(trace), Done(trace), m);
      }
      assert Advance(rest).committed == id;
    } else {
      AdvanceOnlyForward(t');
    }
  }

  lemma {:induction false} AdvanceOnlyForward(t: Tracker)
    requires forall r :: r in t.pending ==> r >= t.committed
    ensures Advance(t).committed >= t.committed
    decreases |t.pending.Keys|
  {
    if t.pending != map[] {
      var m := Least(t.pending.Keys);
      if t.pending[m] {
        assert (t.pending - {m}).Keys == t.pending.Keys - {m};
        AdvanceOnlyForward(Tracker(t.pending - {m}, m));
      }
    }
  }

  // ---------------------------------------------------------------------------------------------
  // The object
  // ---------------------------------------------------------------------------------------------

  predicate Ascending(s: seq<int>) { forall i, j :: 0 <= i < j < |s| ==> s[i] < s[j] }

  /** One insertion of a sort. */
  method InsertSorted(ids: seq<int>, x: int) returns (r: seq<int>)
    requires Ascending(ids) && x !in ids
    ensures Ascending(r) && forall y :: y in r <==> y == x || y in ids
  {
    var i := 0;
    while i < |ids| && ids[i] < x
      invariant 0 <= i <= |ids| && forall j :: 0 <= j < i ==> ids[j] < x
    {
      i := i + 1;
    }
    assert ids == ids[..i] + ids[i..];
    r := ids[..i] + [x] + ids[i..];
  }

  /** sort.Slice over the keys. */
  method SortIds(keys: set<int>) returns (ids: seq<int>)
    ensures Ascending(ids) && forall x :: x in ids <==> x in keys
  {
    ids := [];
    var left := keys;
    while left != {}
      invariant left <= keys && Ascending(ids) && forall x :: x in ids <==> x in keys && x !in left
      decreases |left|
    {
      SomeOrNone(left);
      var x :| x in left;
      left := left - {x};
      ids := InsertSorted(ids, x);
    }
  }

  class InflightTracker {
    var pending: map<int, bool>
    var committed: int

    constructor ()
      ensures View() == NewTracker
    {
      pending, committed := map[], 0;
    }

    ghost function View(): Tracker
      reads this
    {
      Tracker(pending, committed)
    }

    method Register(globalId: int)
      modifies this
      ensures View() == Dispatch(old(View()), globalId)
    {
      pending := pending[globalId := false];
    }

    method MarkDone(globalId: int)
      modifies this
      ensures View() == Finish(old(View()), globalId)
    {
      pending := pending[globalId := true];
      AdvanceWindow();
    }

    method AdvanceWindow()
      modifies this
      ensures View() == Advance(old(View()))
    {
      var ids := SortIds(pending.Keys);
      while ids != []
        invariant Ascending(ids) && forall x :: x in ids <==> x in pending
        invariant Advance(View()) == Advance(old(View()))
      {
        var gid := ids[0];
        HeadOfRest(ids);
        AdvanceOne(View(), gid);
        if !pending[gid] { return; }
        committed, pending, ids := gid, pending - {gid}, ids[1..];
      }
      AdvanceNone(View());
    }
  }

  lemma {:induction false} HeadOfRest(ids: seq<int>)
    requires Ascending(ids) && ids != []
    ensures ids[0] in ids && (forall x :: x in ids ==> ids[0] <= x) && Ascending(ids[1..])
    ensures forall x :: x in ids[1..] <==> x in ids && x != ids[0]
  {
    assert ids == [ids[0]] + ids[1..];
  }

  lemma {:induction false} AdvanceOne(t: Tracker, m: int)
    requires m in t.pending && forall x :: x in t.pending ==> m <= x
    ensures Advance(t) == if t.pending[m] then Advance(Tracker(t.pending - {m}, m)) else t
  {
    LeastIs(t.pending.Keys, m);
  }

  lemma {:induction false} AdvanceNone(t: Tracker)
    requires forall x :: x !in t.pending
    ensures Advance(t) == t
  {
    if t.pending != map[] {
      var m := Least(t.pending.Keys);
    }
  }
}
