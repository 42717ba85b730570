/** The subscriptions table, and external topics, against the folded state (pkg/repo/repo.go, pkg/model/workflow.go). */
module SubscriptionProjection {
  import opened Wrappers
  import opened WorkflowModel
  import opened EventStore
  import opened SerialHistory
  import opened GlobalOrder
  import opened Interleaving

  // The table has one row a (workflow, emitter, event type); the state keeps a list that is searched by full equality.
  // The two agree exactly as long as no event adds a second subscription under one key or removes a different one.

  type Subs = map<SubKey, SubRow>

  function RowAt(subs: Subs, w: Id, emitter: Id, eventType: string): Option<Sub> {
    var k := SubKey(w, emitter, eventType);
    if k in subs then Some(subs[k].sub) else None
  }

  predicate Under(s: Sub, emitter: Id, eventType: string) { s.workflowId == emitter && s.eventType == eventType }

  /** The first subscription of the list under a key. */
  function ListedAt(list: seq<Sub>, emitter: Id, eventType: string): Option<Sub> {
    if list == [] then None
    else if Under(list[0], emitter, eventType) then Some(list[0])
    else ListedAt(list[1..], emitter, eventType)
  }

  ghost predicate UniqueKeys(list: seq<Sub>) {
    forall i, j :: 0 <= i < j < |list| ==> !Under(list[i], list[j].workflowId, list[j].eventType)
  }

  /** As maps from (emitter, event type) to subscription, the rows of w and the list are equal. */
  ghost predicate Projects(subs: Subs, w: Id, list: seq<Sub>) {
    UniqueKeys(list) && forall m, t :: RowAt(subs, w, m, t) == ListedAt(list, m, t)
  }

  function ListAfter(list: seq<Sub>, e: Event): seq<Sub> {
    match e
    case SubscriptionAdded(s) => list + [s]
    case SubscriptionRemoved(s) => RemoveFirst(list, s)
    case _ => list
  }

  function ListAfterAll(list: seq<Sub>, es: seq<Event>): seq<Sub> {
    if es == [] then list else ListAfter(ListAfterAll(list, es[..|es| - 1]), es[|es| - 1])
  }

  /** An addition under a free key; a removal of the subscription that is there, or of nothing. */
  predicate KeepsOneRow(list: seq<Sub>, e: Event) {
    match e
    case SubscriptionAdded(s) => ListedAt(list, s.workflowId, s.eventType).None?
    case SubscriptionRemoved(s) => ListedAt(list, s.workflowId, s.eventType) in [None, Some(s)]
    case _ => true
  }

  predicate KeepsRows(list: seq<Sub>, es: seq<Event>) {
    es == [] ||
    (KeepsRows(list, es[..|es| - 1]) && KeepsOneRow(ListAfterAll(list, es[..|es| - 1]), es[|es| - 1]))
  }

  // ---------------------------------------------------------------------------------------------
  // One event
  // ---------------------------------------------------------------------------------------------

  lemma {:induction false} ListedIff(list: seq<Sub>, m: Id, t: string, x: Sub)
    requires UniqueKeys(list)
    ensures ListedAt(list, m, t) == Some(x) <==> x in list && Under(x, m, t)
  {
    if list != [] {
      var rest := list[1..];
      assert list == [list[0]] + rest;
      assert forall i :: 0 <= i < |rest| ==> rest[i] == list[i + 1];
      ListedIff(rest, m, t, x);
    }
  }

  lemma {:induction false} AddedList(list: seq<Sub>, s: Sub, m: Id, t: string)
    ensures ListedAt(list + [s], m, t) ==
            if ListedAt(list, m, t).Some? then ListedAt(list, m, t) else if Under(s, m, t) then Some(s) else None
  {
    if list != [] {
      AddedList(list[1..], s, m, t);
      assert (list + [s])[1..] == list[1..] + [s];
    } else {
      assert (list + [s])[1..] == [];
    }
  }

  lemma {:induction false} AddedUnique(list: seq<Sub>, s: Sub)
    requires UniqueKeys(list)
    ensures UniqueKeys(list + [s]) <==> ListedAt(list, s.workflowId, s.eventType).None?
  {
    var all, x := list + [s], ListedAt(list, s.workflowId, s.eventType);
    if x.Some? {
      ListedIff(list, s.workflowId, s.eventType, x.value);
      var i :| 0 <= i < |list| && list[i] == x.value;
      assert Under(all[i], all[|list|].workflowId, all[|list|].eventType);
    } else {
      forall i, j | 0 <= i < j < |all| ensures !Under(all[i], all[j].workflowId, all[j].eventType) {
        if j == |list| {
          ListedIff(list, s.workflowId, s.eventType, list[i]);
        }
      }
    }
  }

  lemma {:induction false} RemovedList(list: seq<Sub>, s: Sub)
    requires UniqueKeys(list)
    ensures UniqueKeys(RemoveFirst(list, s)) && forall x :: x in RemoveFirst(list, s) <==> x in list && x != s
  {
    if list != [] {
      var rest := list[1..];
      assert list == [list[0]] + rest;
      assert forall i :: 0 <= i < |rest| ==> rest[i] == list[i + 1];
      RemovedList(rest, s);
      if list[0] == s {
        assert forall x :: x in rest ==> x != s;
      } else {
        RemovedHead(list[0], rest, s);
      }
    }
  }

  lemma {:induction false} RemovedHead(x: Sub, rest: seq<Sub>, s: Sub)
    requires UniqueKeys([x] + rest) && UniqueKeys(RemoveFirst(rest, s))
    requires forall y :: y in RemoveFirst(rest, s) <==> y in rest && y != s
    ensures UniqueKeys([x] + RemoveFirst(rest, s))
  {
    var all, after := [x] + rest, [x] + RemoveFirst(rest, s);
    forall i, j | 0 <= i < j < |after| ensures !Under(after[i], after[j].workflowId, after[j].eventType) {
      if i == 0 {
        var y := RemoveFirst(rest, s)[j - 1];
        assert after[j] == y && y in rest;
        var k :| 0 <= k < |rest| && rest[k] == y;
        assert all[k + 1] == y && all[0] == x;
      } else {
        assert after[i] == RemoveFirst(rest, s)[i - 1] && after[j] == RemoveFirst(rest, s)[j - 1];
      }
    }
  }

  lemma {:induction false} RemovedAt(list: seq<Sub>, s: Sub, m: Id, t: string)
    requires UniqueKeys(list)
    ensures ListedAt(RemoveFirst(list, s), m, t) == if ListedAt(list, m, t) == Some(s) then None else ListedAt(list, m, t)
  {
    RemovedList(list, s);
    var a, b := ListedAt(list, m, t), ListedAt(RemoveFirst(list, s), m, t);
    if a.Some? {
      ListedIff(list, m, t, a.value);
      ListedIff(RemoveFirst(list, s), m, t, a.value);
    }
    if b.Some? {
      ListedIff(list, m, t, b.value);
      ListedIff(RemoveFirst(list, s), m, t, b.value);
    }
  }

  lemma {:induction false} AddIff(subs: Subs, w: Id, list: seq<Sub>, s: Sub)
    requires Projects(subs, w, list)
    ensures Projects(SyncSub(subs, w, SubscriptionAdded(s)), w, list + [s]) <==> ListedAt(list, s.workflowId, s.eventType).None?
  {
    AddedUnique(list, s);
    var subs' := SyncSub(subs, w, SubscriptionAdded(s));
    if ListedAt(list, s.workflowId, s.eventType).None? {
      forall m, t ensures RowAt(subs', w, m, t) == ListedAt(list + [s], m, t) {
        AddedList(list, s, m, t);
        assert RowAt(subs, w, m, t) == ListedAt(list, m, t);
      }
    }
  }

  lemma {:induction false} RemoveIff(subs: Subs, w: Id, list: seq<Sub>, s: Sub)
    requires Projects(subs, w, list)
    ensures Projects(SyncSub(subs, w, SubscriptionRemoved(s)), w, RemoveFirst(list, s)) <==>
            ListedAt(list, s.workflowId, s.eventType) in [None, Some(s)]
  {
    var subs' := SyncSub(subs, w, SubscriptionRemoved(s));
    var there := ListedAt(list, s.workflowId, s.eventType);
    RemovedList(list, s);
    if there in [None, Some(s)] {
      forall m, t ensures RowAt(subs', w, m, t) == ListedAt(RemoveFirst(list, s), m, t) {
        RemovedAt(list, s, m, t);
        assert RowAt(subs, w, m, t) == ListedAt(list, m, t);
        if ListedAt(list, m, t) == Some(s) { ListedIff(list, m, t, s); }
      }
    } else {
      RemovedAt(list, s, s.workflowId, s.eventType);
      assert RowAt(subs', w, s.workflowId, s.eventType) != ListedAt(RemoveFirst(list, s), s.workflowId, s.eventType);
    }
  }

  /** One event keeps table and state equal if and only if it keeps one row a key. */
  lemma {:induction false} EventProjectsIff(subs: Subs, w: Id, list: seq<Sub>, e: Event)
    requires Projects(subs, w, list)
    ensures Projects(SyncSub(subs, w, e), w, ListAfter(list, e)) <==> KeepsOneRow(list, e)
  {
    match e
    case SubscriptionAdded(s) => AddIff(subs, w, list, s);
    case SubscriptionRemoved(s) => RemoveIff(subs, w, list, s);
    case _ =>
  }

  // ---------------------------------------------------------------------------------------------
  // One batch, one call
  // ---------------------------------------------------------------------------------------------

  lemma {:induction false} BatchProjects(subs: Subs, w: Id, list: seq<Sub>, es: seq<Event>)
    requires Projects(subs, w, list) && KeepsRows(list, es)
    ensures Projects(SyncSubs(subs, w, es), w, ListAfterAll(list, es))
    decreases |es|
  {
    if es != [] {
      var front := es[..|es| - 1];
      BatchProjects(subs, w, list, front);
      EventProjectsIff(SyncSubs(subs, w, front), w, ListAfterAll(list, front), es[|es| - 1]);
    }
  }

  /** Table and state are equal once the first k events of the batch are in both. */
  ghost predicate ProjectsAfter(subs: Subs, w: Id, list: seq<Sub>, es: seq<Event>, k: nat)
    requires k <= |es|
  {
    Projects(SyncSubs(subs, w, es[..k]), w, ListAfterAll(list, es[..k]))
  }

  /** Over a batch the condition is exact, too: it says that table and state are equal after each of its events. */
  lemma {:induction false} BatchProjectsIff(subs: Subs, w: Id, list: seq<Sub>, es: seq<Event>)
    requires Projects(subs, w, list)
    ensures KeepsRows(list, es) <==> forall k :: 0 <= k <= |es| ==> ProjectsAfter(subs, w, list, es, k)
    decreases |es|
  {
    if es == [] {
      assert forall k :: 0 <= k <= |es| ==> es[..k] == [];
    } else {
      var n := |es| - 1;
      var front := es[..n];
      BatchProjectsIff(subs, w, list, front);
      forall k | 0 <= k <= n ensures ProjectsAfter(subs, w, list, es, k) <==> ProjectsAfter(subs, w, list, front, k) {
        assert es[..k] == front[..k];
      }
      assert es[..|es|] == es && front[..n] == front;
      assert (forall k :: 0 <= k <= |es| ==> ProjectsAfter(subs, w, list, es, k)) <==>
             ProjectsAfter(subs, w, list, es, |es|) && forall k :: 0 <= k <= n ==> ProjectsAfter(subs, w, list, front, k);
      if ProjectsAfter(subs, w, list, front, n) {
        EventProjectsIff(SyncSubs(subs, w, front), w, ListAfterAll(list, front), es[n]);
      }
    }
  }

  /** Stamping changes no subscription. */
  lemma {:induction false} StampKeepsRows(subs: Subs, w: Id, es: seq<Event>, gid: int, u: Id, m: Id, t: string)
    requires StampSubs(subs, w, es, gid).Some?
    ensures RowAt(StampSubs(subs, w, es, gid).value, u, m, t) == RowAt(subs, u, m, t)
  {
    StampedRow(subs, w, es, gid, SubKey(u, m, t));
  }

  lemma {:induction false} OthersKept(subs: Subs, w: Id, es: seq<Event>, u: Id, m: Id, t: string)
    requires u != w
    ensures RowAt(SyncSubs(subs, w, es), u, m, t) == RowAt(subs, u, m, t)
    decreases |es|
  {
    if es != [] { OthersKept(subs, w, es[..|es| - 1], u, m, t); }
  }

  function SubscriptionsOf(s: Option<State>): seq<Sub> {
    match s case Some(st) => st.base.subscriptions case None => []
  }

  /** The state's list changes as the events say, whatever the user's code does. */
  lemma {:induction false} EvolveSubscriptions(wf: Workflow, s: Option<State>, es: seq<Event>)
    requires KeepsBase(wf) && StartsWell(s, es)
    ensures SubscriptionsOf(EvolveAll(wf, s, es)) == ListAfterAll(SubscriptionsOf(s), es)
    decreases |es|
  {
    if es != [] {
      var front, e := es[..|es| - 1], es[|es| - 1];
      EvolveSubscriptions(wf, s, front);
      BatchStaysConcrete(wf, s, front);
      var r := EvolveAll(wf, s, front);
      if r.Some? {
        EvolveBase(wf, r.value, e);
      } else {
        assert front == [] && es[0] == e;
      }
    }
  }

  function ExternalsOf(s: Option<State>): seq<string> {
    match s case Some(st) => st.base.externals case None => []
  }

  /** How often a topic is held after the events, n times before: an addition counts once, a removal takes one away. */
  function TopicCount(n: nat, es: seq<Event>, topic: string): nat {
    if es == [] then n else CountAfter(TopicCount(n, es[..|es| - 1], topic), es[|es| - 1], topic)
  }

  function CountAfter(k: nat, e: Event, topic: string): nat {
    if e == ExternalSubscriptionAdded(topic) then k + 1
    else if e == ExternalSubscriptionRemoved(topic) && k > 0 then k - 1
    else k
  }

  lemma {:induction false} RemoveOne(xs: seq<string>, x: string, y: string)
    ensures multiset(RemoveFirst(xs, x))[y] ==
            if x == y && multiset(xs)[x] > 0 then multiset(xs)[y] - 1 else multiset(xs)[y]
  {
    if xs != [] {
      RemoveOne(xs[1..], x, y);
      assert xs == [xs[0]] + xs[1..];
    }
  }

  /** The state holds an external topic as often as it was added and not removed again, whatever the user's code does. */
  lemma {:induction false} EvolveExternals(wf: Workflow, s: Option<State>, es: seq<Event>, topic: string)
    requires KeepsBase(wf) && StartsWell(s, es)
    ensures multiset(ExternalsOf(EvolveAll(wf, s, es)))[topic] == TopicCount(multiset(ExternalsOf(s))[topic], es, topic)
    decreases |es|
  {
    if es != [] {
      var front, e := es[..|es| - 1], es[|es| - 1];
      EvolveExternals(wf, s, front, topic);
      BatchStaysConcrete(wf, s, front);
      var r := EvolveAll(wf, s, front);
      assert r.None? ==> front == [] && es[0] == e;
      EventExternals(wf, r, e, topic);
    }
  }

  lemma {:induction false} BaseExternals(b: StateBase, e: Event, topic: string)
    requires SystemBase(b, e).Some?
    ensures multiset(SystemBase(b, e).value.externals)[topic] == CountAfter(multiset(b.externals)[topic], e, topic)
  {
    if e.ExternalSubscriptionRemoved? { RemoveOne(b.externals, e.topic, topic); }
  }

  lemma {:induction false} EventExternals(wf: Workflow, s: Option<State>, e: Event, topic: string)
    requires KeepsBase(wf) && (if s.Some? then s.value.evolver else SystemBase(NewStateBase, e).None?)
    ensures multiset(ExternalsOf(Some(Evolve(wf, s, e))))[topic] == CountAfter(multiset(ExternalsOf(s))[topic], e, topic)
  {
    if s.Some? {
      EvolveBase(wf, s.value, e);
      if SystemBase(s.value.base, e).Some? { BaseExternals(s.value.base, e, topic); }
    }
  }

  /** Over every interleaving the folded state of w holds the topics that its log adds and does not remove again. */
  lemma {:induction false} ExternalsAreLogged(u: Setup, steps: seq<Step>, s: World, w: Id, topic: string)
    requires FrameworkNotFinal(u.cfg.wf) && KeepsBase(u.cfg.wf) && BornByUser(u.cfg.wf) && Reachable(u, steps, s)
    ensures multiset(ExternalsOf(FoldTo(u.cfg, s.db, w, Head(s.db, w))))[topic] == TopicCount(0, Log(s.db, w), topic)
  {
    Serializable(u, steps, s);
    SerialStart(u.cfg, s.history, s.db, w);
    EvolveExternals(u.cfg.wf, None, Log(s.db, w), topic);
  }

  lemma {:induction false} SerialStart(cfg: Config, ops: seq<Op>, db: Db, w: Id)
    requires KeepsBase(cfg.wf) && BornByUser(cfg.wf) && Replay(cfg, EmptyDb, ops) == Some(db)
    ensures StartsWell(None, Log(db, w))
    decreases |ops|
  {
    EmptyDbOk(cfg);
    if ops != [] {
      var front, op := ops[..|ops| - 1], ops[|ops| - 1];
      var d := Replay(cfg, EmptyDb, front).value;
      SerialStart(cfg, front, d, w);
      ReplayKeeps(cfg, EmptyDb, front, d);
      SerialConcrete(cfg, front, d, op.w);
      ApplyOpKeeps(cfg, d, op, db);
      if op.w == w {
        BatchStartsWell(cfg, d, op, db);
        if Log(d, w) != [] { assert Log(db, w)[0] == Log(d, w)[0]; }
      }
    }
  }

  ghost predicate TableIsProjection(cfg: Config, db: Db, w: Id) {
    Projects(db.subs, w, SubscriptionsOf(FoldTo(cfg, db, w, Head(db, w))))
  }

  /** The events of the call keep one row a key, on the state they are appended to. */
  ghost predicate KeepsTable(cfg: Config, db: Db, op: Op) {
    KeepsRows(SubscriptionsOf(FoldTo(cfg, db, op.w, Head(db, op.w))), Batch(cfg, db, op))
  }

  ghost predicate KeepingHistory(cfg: Config, ops: seq<Op>) {
    ops != [] ==>
      && KeepingHistory(cfg, ops[..|ops| - 1])
      && match Replay(cfg, EmptyDb, ops[..|ops| - 1]) { case Some(d) => KeepsTable(cfg, d, ops[|ops| - 1]) case None => true }
  }

  /** What the call leaves in the table. */
  lemma {:induction false} CallSyncs(cfg: Config, db: Db, op: Op, db': Db)
    requires DbOk(cfg, db) && ApplyOp(cfg, db, op) == Some(db')
    ensures if Decides(op) then
              var es := Batch(cfg, db, op); StampSubs(SyncSubs(db.subs, op.w, es), op.w, es, db.nextGid) == Some(db'.subs)
            else db'.subs == db.subs
  {
    if Loads(op) {
      var base, es := LoadedBatch(cfg, db, op, db');
    }
  }

  lemma {:induction false} OwnStep(cfg: Config, db: Db, op: Op, db': Db)
    requires KeepsBase(cfg.wf) && BornByUser(cfg.wf) && DbOk(cfg, db) && Concrete(cfg, db, op.w)
    requires TableIsProjection(cfg, db, op.w) && KeepsTable(cfg, db, op) && ApplyOp(cfg, db, op) == Some(db')
    ensures TableIsProjection(cfg, db', op.w)
  {
    var w, s, es := op.w, FoldTo(cfg, db, op.w, Head(db, op.w)), Batch(cfg, db, op);
    BatchStartsWell(cfg, db, op, db');
    EvolveSubscriptions(cfg.wf, s, es);
    CallSyncs(cfg, db, op, db');
    var list := ListAfterAll(SubscriptionsOf(s), es);
    if Decides(op) {
      BatchProjects(db.subs, w, SubscriptionsOf(s), es);
      StampProjects(SyncSubs(db.subs, w, es), w, es, db.nextGid, list);
    } else {
      assert list == SubscriptionsOf(s) by {
        if op.Fire? { assert es[..0] == []; }
      }
    }
  }

  lemma {:induction false} StampProjects(subs: Subs, w: Id, es: seq<Event>, gid: int, list: seq<Sub>)
    requires Projects(subs, w, list) && StampSubs(subs, w, es, gid).Some?
    ensures Projects(StampSubs(subs, w, es, gid).value, w, list)
  {
    forall m, t ensures RowAt(StampSubs(subs, w, es, gid).value, w, m, t) == ListedAt(list, m, t) {
      StampKeepsRows(subs, w, es, gid, w, m, t);
      assert RowAt(subs, w, m, t) == ListedAt(list, m, t);
    }
  }

  lemma {:induction false} OtherStep(cfg: Config, db: Db, op: Op, db': Db, u: Id)
    requires DbOk(cfg, db) && u != op.w && TableIsProjection(cfg, db, u) && ApplyOp(cfg, db, op) == Some(db')
    ensures TableIsProjection(cfg, db', u)
  {
    ApplyOpKeeps(cfg, db, op, db');
    CallSyncs(cfg, db, op, db');
    assert SameWorkflow(db, db', u) && Log(db', u) == Log(db, u);
    var list, es := SubscriptionsOf(FoldTo(cfg, db, u, Head(db, u))), Batch(cfg, db, op);
    forall m, t ensures RowAt(db'.subs, u, m, t) == ListedAt(list, m, t) {
      assert RowAt(db.subs, u, m, t) == ListedAt(list, m, t);
      if Decides(op) {
        OthersKept(db.subs, op.w, es, u, m, t);
        StampKeepsRows(SyncSubs(db.subs, op.w, es), op.w, es, db.nextGid, u, m, t);
      }
    }
  }

  lemma {:induction false} SerialProjection(cfg: Config, ops: seq<Op>, db: Db, w: Id)
    requires KeepsBase(cfg.wf) && BornByUser(cfg.wf) && KeepingHistory(cfg, ops) && Replay(cfg, EmptyDb, ops) == Some(db)
    ensures TableIsProjection(cfg, db, w)
    decreases |ops|
  {
    EmptyDbOk(cfg);
    if ops != [] {
      var front, op := ops[..|ops| - 1], ops[|ops| - 1];
      var d := Replay(cfg, EmptyDb, front).value;
      SerialProjection(cfg, front, d, w);
      ReplayKeeps(cfg, EmptyDb, front, d);
      SerialConcrete(cfg, front, d, w);
      if op.w == w {
        OwnStep(cfg, d, op, db);
      } else {
        OtherStep(cfg, d, op, db, w);
      }
    }
  }

  /** Over every interleaving whose batches keep one row a key, the rows of w are the subscriptions of its state. */
  lemma {:induction false} SubscriptionTableIsProjection(u: Setup, steps: seq<Step>, s: World, w: Id)
    requires FrameworkNotFinal(u.cfg.wf) && KeepsBase(u.cfg.wf) && BornByUser(u.cfg.wf)
    requires Reachable(u, steps, s) && KeepingHistory(u.cfg, s.history)
    ensures TableIsProjection(u.cfg, s.db, w)
  {
    Serializable(u, steps, s);
    SerialProjection(u.cfg, s.history, s.db, w);
  }
}
