/** Horizon subscriptions, and live ones, on the running system of module Interleaving. */
module HorizonRun {
  import opened Wrappers
  import opened WorkflowModel
  import opened EventStore
  import opened SerialHistory
  import GlobalOrder
  import H = Horizon
  import I = Interleaving
  import SP = SubscriptionProjection

  // The runner of module Horizon reads the log and the subscription table that the repository writes, under any
  // interleaving of both.  That a horizon's row is there and carries the global id of its own event is proved.

  /** What a row has besides its event: type name and tags. */
  datatype Labels = Labels(eventType: string, tags: seq<string>, wfTags: seq<string>)

  /** The runner, the workflows of its own type, and the labels that events are stored with. */
  datatype Site = Site(runner: H.Runner, ours: Id -> bool, labels: (Key, Event) -> Labels)

  datatype World = World(sys: I.World, next: nat, out: multiset<H.Delivery>)

  datatype Step = Sys(step: I.Step) | Process

  const Start := World(I.Start, 0, multiset{})

  // ---------------------------------------------------------------------------------------------
  // The log, in global order
  // ---------------------------------------------------------------------------------------------

  function RowOf(v: Site, w: Id, version: int, gid: int, e: Event): H.Row {
    var l := v.labels(Key(w, version), e);
    H.Row(gid, w, version, v.ours(w), l.eventType, l.tags, l.wfTags, e)
  }

  function RowsOf(v: Site, w: Id, base: int, gid: int, es: seq<Event>): seq<H.Row> {
    seq(|es|, i requires 0 <= i < |es| => RowOf(v, w, base + i + 1, gid + i, es[i]))
  }

  /** What `op` appends after the calls `front`. */
  ghost function NewRows(cfg: Config, v: Site, front: seq<Op>, op: Op): seq<H.Row> {
    match Replay(cfg, EmptyDb, front)
    case Some(d) => RowsOf(v, op.w, Head(d, op.w), d.nextGid, Batch(cfg, d, op))
    case None => []
  }

  /** The rows that the calls appended, in commit order. */
  ghost function LogOf(cfg: Config, v: Site, ops: seq<Op>): seq<H.Row> {
    if ops == [] then [] else LogOf(cfg, v, ops[..|ops| - 1]) + NewRows(cfg, v, ops[..|ops| - 1], ops[|ops| - 1])
  }

  /** WHERE workflow_type = the runner's. */
  function OurSubs(v: Site, subs: map<SubKey, SubRow>): H.Subs { map k | k in subs && v.ours(k.w) :: subs[k] }

  ghost function Take(u: I.Setup, v: Site, s: World, step: Step): Option<World> {
    match step
    case Sys(st) =>
      (match I.Take(u, s.sys, st)
       case Some(sys) => Some(s.(sys := sys))
       case None => None)
    case Process =>
      var log := LogOf(u.cfg, v, s.sys.history);
      if s.next >= |log| then None
      else Some(s.(next := s.next + 1, out := s.out + H.Handed(v.runner, log, OurSubs(v, s.sys.db.subs), log[s.next])))
  }

  ghost function Run(u: I.Setup, v: Site, s: World, steps: seq<Step>): Option<World> {
    if steps == [] then Some(s)
    else match Run(u, v, s, steps[..|steps| - 1])
      case None => None
      case Some(r) => Take(u, v, r, steps[|steps| - 1])
  }

  /** What module Horizon sees of a state. */
  ghost function View(u: I.Setup, v: Site, s: World): H.World {
    H.World(LogOf(u.cfg, v, s.sys.history), OurSubs(v, s.sys.db.subs), s.next, s.out)
  }

  // ---------------------------------------------------------------------------------------------
  // The log is the events table
  // ---------------------------------------------------------------------------------------------

  /** Row i of the log is the row of the table with its key. */
  ghost predicate Stored(db: Db, row: H.Row) {
    var k := Key(row.w, row.v);
    k in db.events && db.events[k].gid == row.gid && db.events[k].event == row.event
  }

  ghost predicate IsTable(db: Db, log: seq<H.Row>) {
    && H.InOrder(log)
    && (forall r :: r in log ==> Stored(db, r) && r.gid < db.nextGid)
    && (forall k :: k in db.events ==> exists r :: r in log && r.w == k.w && r.v == k.v)
  }

  /** `db'` has n events more of w than `db`, and the next global ids for them. */
  ghost predicate Appends(db: Db, db': Db, w: Id, base: int, es: seq<Event>) {
    && db'.nextGid == db.nextGid + |es|
    && (forall k :: k in db'.events <==> k in db.events || InBatch(k, w, base, |es|))
    && (forall k :: k in db.events ==> db'.events[k] == db.events[k])
    && (forall k :: InBatch(k, w, base, |es|) ==>
          db'.events[k] == EventRow(db.nextGid + k.v - base - 1, es[k.v - base - 1], false))
  }

  /** The rows that one call adds to the table. */
  lemma {:induction false} CallRows(cfg: Config, db: Db, op: Op, db': Db)
    requires DbOk(cfg, db) && ApplyOp(cfg, db, op) == Some(db')
    ensures Appends(db, db', op.w, Head(db, op.w), Batch(cfg, db, op))
  {
    if Decides(op) {
      CommittedAtHead(cfg, db, op, db');
      InsertAppends(db, db', op.w, Head(db, op.w), Batch(cfg, db, op));
    } else if op.Fire? {
      FireAppends(cfg, db, op, db');
    }
  }

  lemma {:induction false} InsertAppends(db: Db, db': Db, w: Id, base: int, es: seq<Event>)
    requires db'.events == Insert(db.events, w, base, es, db.nextGid) && db'.nextGid == db.nextGid + |es|
    requires forall k :: InBatch(k, w, base, |es|) ==> k !in db.events
    ensures Appends(db, db', w, base, es)
  {
    InsertKeys(db.events, w, base, es, db.nextGid);
  }

  lemma {:induction false} FireAppends(cfg: Config, db: Db, op: Op, db': Db)
    requires DbOk(cfg, db) && op.Fire? && ApplyOp(cfg, db, op) == Some(db')
    ensures Appends(db, db', op.w, Head(db, op.w), [DelayComplete(op.delayId)])
  {
    assert LogOk(cfg, db, op.w);
    assert db'.events == db.events[Key(op.w, Head(db, op.w) + 1) := EventRow(db.nextGid, DelayComplete(op.delayId), false)];
  }

  lemma {:induction false} CommittedAtHead(cfg: Config, db: Db, op: Op, db': Db)
    requires DbOk(cfg, db) && Decides(op) && ApplyOp(cfg, db, op) == Some(db')
    ensures db'.events == Insert(db.events, op.w, Head(db, op.w), Batch(cfg, db, op), db.nextGid)
    ensures db'.nextGid == db.nextGid + |Batch(cfg, db, op)|
    ensures forall k :: InBatch(k, op.w, Head(db, op.w), |Batch(cfg, db, op)|) ==> k !in db.events
  {
    assert LogOk(cfg, db, op.w);
    if Loads(op) {
      var base, es := LoadedBatch(cfg, db, op, db');
      LoadedVersion(cfg, db, op.w);
      CommitRows(cfg, db, op, base, es, db');
    } else {
      CreateAtZero(cfg, db, op, db');
      CommitRows(cfg, db, op, None, Batch(cfg, db, op), db');
    }
  }

  lemma {:induction false} CommitRows(cfg: Config, db: Db, op: Op, base: Option<Stored>, es: seq<Event>, db': Db)
    requires es != [] && CommitOp(cfg, db, op, base, es) == Committed(db')
    ensures db'.events == Insert(db.events, op.w, BaseVersion(base), es, db.nextGid) && db'.nextGid == db.nextGid + |es|
    ensures forall k :: InBatch(k, op.w, BaseVersion(base), |es|) ==> k !in db.events
  {
    assert forall v :: BaseVersion(base) < v <= BaseVersion(base) + |es| ==> Key(op.w, v) !in db.events;
  }

  lemma {:induction false} AppendInOrder(log: seq<H.Row>, v: Site, w: Id, base: int, gid: int, es: seq<Event>)
    requires H.InOrder(log) && forall r :: r in log ==> r.gid < gid
    ensures H.InOrder(log + RowsOf(v, w, base, gid, es))
  {
    var all := log + RowsOf(v, w, base, gid, es);
    forall i, j | 0 <= i < j < |all| ensures all[i].gid < all[j].gid {
      assert i < |log| ==> log[i] in log;
      assert j < |log| ==> all[j] == log[j];
    }
  }

  lemma {:induction false} RowIsStored(v: Site, db: Db, db': Db, w: Id, base: int, es: seq<Event>, i: nat)
    requires Appends(db, db', w, base, es) && i < |es|
    ensures var r := RowsOf(v, w, base, db.nextGid, es)[i]; Stored(db', r) && r.gid < db'.nextGid
  {
    assert InBatch(Key(w, base + i + 1), w, base, |es|);
  }

  lemma {:induction false} AppendExtendsTable(v: Site, db: Db, db': Db, w: Id, base: int, es: seq<Event>, log: seq<H.Row>)
    requires Appends(db, db', w, base, es) && IsTable(db, log)
    ensures IsTable(db', log + RowsOf(v, w, base, db.nextGid, es))
  {
    var rows := RowsOf(v, w, base, db.nextGid, es);
    AppendInOrder(log, v, w, base, db.nextGid, es);
    forall r | r in log + rows ensures Stored(db', r) && r.gid < db'.nextGid {
      if r in log {
        assert Stored(db, r);
      } else {
        var i :| 0 <= i < |rows| && rows[i] == r;
        RowIsStored(v, db, db', w, base, es, i);
      }
    }
    forall k | k in db'.events ensures exists r :: r in log + rows && r.w == k.w && r.v == k.v {
      KeyHasRow(v, db, db', w, base, es, log, k);
    }
  }

  lemma {:induction false} KeyHasRow(v: Site, db: Db, db': Db, w: Id, base: int, es: seq<Event>, log: seq<H.Row>, k: Key)
    requires Appends(db, db', w, base, es) && IsTable(db, log) && k in db'.events
    ensures exists r :: r in log + RowsOf(v, w, base, db.nextGid, es) && r.w == k.w && r.v == k.v
  {
    var rows := RowsOf(v, w, base, db.nextGid, es);
    if k in db.events {
      var r :| r in log && r.w == k.w && r.v == k.v;
      assert r in log + rows;
    } else {
      assert rows[k.v - base - 1] in log + rows;
    }
  }

  /** The log is exactly the events table, in the order of the global ids. */
  lemma {:induction false} LogIsTable(cfg: Config, v: Site, ops: seq<Op>, db: Db)
    requires Replay(cfg, EmptyDb, ops) == Some(db)
    ensures IsTable(db, LogOf(cfg, v, ops))
    decreases |ops|
  {
    EmptyDbOk(cfg);
    if ops != [] {
      var front, op := ops[..|ops| - 1], ops[|ops| - 1];
      var d := Replay(cfg, EmptyDb, front).value;
      LogIsTable(cfg, v, front, d);
      ReplayKeeps(cfg, EmptyDb, front, d);
      CallRows(cfg, d, op, db);
      AppendExtendsTable(v, d, db, op.w, Head(d, op.w), Batch(cfg, d, op), LogOf(cfg, v, front));
    }
  }

  lemma {:induction false} LogGrows(cfg: Config, v: Site, ops: seq<Op>, n: nat)
    requires n <= |ops|
    ensures LogOf(cfg, v, ops[..n]) <= LogOf(cfg, v, ops)
    decreases |ops|
  {
    if n == |ops| {
      assert ops[..n] == ops;
    } else {
      var front := ops[..|ops| - 1];
      LogGrows(cfg, v, front, n);
      assert front[..n] == ops[..n];
    }
  }

  // ---------------------------------------------------------------------------------------------
  // The subscription table follows the log
  // ---------------------------------------------------------------------------------------------

  predicate AddsRow(row: H.Row, k: SubKey) {
    row.event.SubscriptionAdded? && SubKeyOf(row.w, row.event.sub) == k
  }

  predicate RemovesRow(row: H.Row, k: SubKey) {
    row.event.SubscriptionRemoved? && SubKeyOf(row.w, row.event.sub) == k
  }

  predicate TouchesRow(row: H.Row, k: SubKey) { AddsRow(row, k) || RemovesRow(row, k) }

  predicate Touches(w: Id, e: Event, k: SubKey) {
    (e.SubscriptionAdded? || e.SubscriptionRemoved?) && SubKeyOf(w, e.sub) == k
  }

  /** A batch that does not touch a key leaves its row alone. */
  lemma {:induction false} Untouched(subs: map<SubKey, SubRow>, w: Id, es: seq<Event>, k: SubKey)
    requires forall i :: 0 <= i < |es| ==> !Touches(w, es[i], k)
    ensures k in SyncSubs(subs, w, es) <==> k in subs
    ensures k in subs ==> SyncSubs(subs, w, es)[k] == subs[k]
    ensures GlobalOrder.LastAdded(w, es, k) < 0
    decreases |es|
  {
    if es != [] {
      var front := es[..|es| - 1];
      assert forall i :: 0 <= i < |front| ==> front[i] == es[i];
      Untouched(subs, w, front, k);
    }
  }

  /** A batch that touches a key once, by adding, leaves a row for it. */
  lemma {:induction false} AddedOnce(subs: map<SubKey, SubRow>, w: Id, es: seq<Event>, k: SubKey, b: nat)
    requires b < |es| && GlobalOrder.Adds(w, es[b], k) && forall i :: 0 <= i < |es| && i != b ==> !Touches(w, es[i], k)
    ensures k in SyncSubs(subs, w, es) && GlobalOrder.LastAdded(w, es, k) == b
    decreases |es|
  {
    var front := es[..|es| - 1];
    assert forall i :: 0 <= i < |front| ==> front[i] == es[i];
    if b < |front| {
      AddedOnce(subs, w, front, k, b);
    }
  }

  /** Every row of the table was added by an event of the log. */
  ghost predicate AddedInLog(log: seq<H.Row>, k: SubKey, r: SubRow) {
    exists i :: 0 <= i < |log| && AddsRow(log[i], k) && log[i].event.sub == r.sub
  }

  /** Event i is the only one that touches the key, and adds it with a horizon. */
  ghost predicate OnlyAdd(log: seq<H.Row>, k: SubKey, i: int) {
    && 0 <= i < |log| && AddsRow(log[i], k) && log[i].event.sub.after.Some?
    && forall j :: 0 <= j < |log| && j != i ==> !TouchesRow(log[j], k)
  }

  ghost predicate FollowsLog(subs: map<SubKey, SubRow>, log: seq<H.Row>) {
    && (forall k :: k in subs ==> AddedInLog(log, k, subs[k]))
    && (forall k, i :: OnlyAdd(log, k, i) ==> k in subs && subs[k] == SubRow(log[i].event.sub, Some(log[i].gid)))
  }

  lemma {:induction false} BatchAddedInLog(subs: map<SubKey, SubRow>, log: seq<H.Row>, v: Site, w: Id, base: int, gid: int, es: seq<Event>, k: SubKey)
    requires FollowsLog(subs, log) && StampSubs(SyncSubs(subs, w, es), w, es, gid).Some?
    requires k in StampSubs(SyncSubs(subs, w, es), w, es, gid).value
    ensures AddedInLog(log + RowsOf(v, w, base, gid, es), k, StampSubs(SyncSubs(subs, w, es), w, es, gid).value[k])
  {
    var rows := RowsOf(v, w, base, gid, es);
    GlobalOrder.StampedRow(SyncSubs(subs, w, es), w, es, gid, k);
    GlobalOrder.SyncedRow(subs, w, es, k);
    var b := GlobalOrder.LastAdded(w, es, k);
    if b >= 0 {
      assert (log + rows)[|log| + b] == rows[b];
    } else {
      var i :| 0 <= i < |log| && AddsRow(log[i], k) && log[i].event.sub == subs[k].sub;
      assert (log + rows)[i] == log[i];
    }
  }

  lemma {:induction false} BatchOnlyAdd(subs: map<SubKey, SubRow>, log: seq<H.Row>, v: Site, w: Id, base: int, gid: int, es: seq<Event>, k: SubKey, i: int)
    requires FollowsLog(subs, log) && StampSubs(SyncSubs(subs, w, es), w, es, gid).Some?
    requires OnlyAdd(log + RowsOf(v, w, base, gid, es), k, i)
    ensures var subs', all := StampSubs(SyncSubs(subs, w, es), w, es, gid).value, log + RowsOf(v, w, base, gid, es);
            k in subs' && subs'[k] == SubRow(all[i].event.sub, Some(all[i].gid))
  {
    var rows := RowsOf(v, w, base, gid, es);
    var all := log + rows;
    forall b | 0 <= b < |es| && |log| + b != i ensures !Touches(w, es[b], k) {
      assert all[|log| + b] == rows[b] && !TouchesRow(rows[b], k);
    }
    GlobalOrder.StampedRow(SyncSubs(subs, w, es), w, es, gid, k);
    if i < |log| {
      assert all[i] == log[i];
      assert forall j :: 0 <= j < |log| ==> all[j] == log[j];
      assert OnlyAdd(log, k, i);
      Untouched(subs, w, es, k);
      GlobalOrder.NoAddNoHorizon(w, es, k);
    } else {
      var b := i - |log|;
      assert all[i] == rows[b];
      AddedOnce(subs, w, es, k, b);
      GlobalOrder.SyncedRow(subs, w, es, k);
      GlobalOrder.LastAddedIsLastHorizon(w, es, k);
    }
  }

  lemma {:induction false} BatchFollows(subs: map<SubKey, SubRow>, log: seq<H.Row>, v: Site, w: Id, base: int, gid: int, es: seq<Event>)
    requires FollowsLog(subs, log) && StampSubs(SyncSubs(subs, w, es), w, es, gid).Some?
    ensures FollowsLog(StampSubs(SyncSubs(subs, w, es), w, es, gid).value, log + RowsOf(v, w, base, gid, es))
  {
    var subs', all := StampSubs(SyncSubs(subs, w, es), w, es, gid).value, log + RowsOf(v, w, base, gid, es);
    forall k | k in subs' ensures AddedInLog(all, k, subs'[k]) {
      BatchAddedInLog(subs, log, v, w, base, gid, es, k);
    }
    forall k, i | OnlyAdd(all, k, i) ensures k in subs' && subs'[k] == SubRow(all[i].event.sub, Some(all[i].gid)) {
      BatchOnlyAdd(subs, log, v, w, base, gid, es, k, i);
    }
  }

  /** Calls that decide nothing append at most a delay_complete and touch no subscription. */
  lemma {:induction false} QuietFollows(subs: map<SubKey, SubRow>, log: seq<H.Row>, rows: seq<H.Row>)
    requires FollowsLog(subs, log) && forall r :: r in rows ==> r.event.DelayComplete?
    ensures FollowsLog(subs, log + rows)
  {
    var all := log + rows;
    forall k | k in subs ensures AddedInLog(all, k, subs[k]) {
      var i :| 0 <= i < |log| && AddsRow(log[i], k) && log[i].event.sub == subs[k].sub;
      assert all[i] == log[i];
    }
    forall k, i | OnlyAdd(all, k, i) ensures k in subs && subs[k] == SubRow(all[i].event.sub, Some(all[i].gid)) {
      assert forall j :: |log| <= j < |all| ==> all[j] in rows;
      assert forall j :: 0 <= j < |log| ==> all[j] == log[j];
      assert OnlyAdd(log, k, i);
    }
  }

  lemma {:induction false} TableFollowsLog(cfg: Config, v: Site, ops: seq<Op>, db: Db)
    requires Replay(cfg, EmptyDb, ops) == Some(db)
    ensures FollowsLog(db.subs, LogOf(cfg, v, ops))
    decreases |ops|
  {
    EmptyDbOk(cfg);
    if ops != [] {
      var front, op := ops[..|ops| - 1], ops[|ops| - 1];
      var d := Replay(cfg, EmptyDb, front).value;
      TableFollowsLog(cfg, v, front, d);
      ReplayKeeps(cfg, EmptyDb, front, d);
      CallFollows(cfg, v, LogOf(cfg, v, front), d, op, db);
    }
  }

  lemma {:induction false} CallFollows(cfg: Config, v: Site, log: seq<H.Row>, d: Db, op: Op, db: Db)
    requires DbOk(cfg, d) && ApplyOp(cfg, d, op) == Some(db) && FollowsLog(d.subs, log)
    ensures FollowsLog(db.subs, log + RowsOf(v, op.w, Head(d, op.w), d.nextGid, Batch(cfg, d, op)))
  {
    SP.CallSyncs(cfg, d, op, db);
    var es := Batch(cfg, d, op);
    if Decides(op) {
      BatchFollows(d.subs, log, v, op.w, Head(d, op.w), d.nextGid, es);
    } else {
      QuietFollows(d.subs, log, RowsOf(v, op.w, Head(d, op.w), d.nextGid, es));
    }
  }

  // ---------------------------------------------------------------------------------------------
  // The hypothesis, on events alone
  // ---------------------------------------------------------------------------------------------

  /**
   The watched subscription is added once, by the event with its id, and never removed; the subscriber adds
   no other subscription that covers the emitter; and the emitter's events do not address it directly.
   */
  ghost predicate Sole(x: H.Watch, log: seq<H.Row>) {
    forall r :: r in log ==>
      && (r.gid == x.gid ==> H.Added(x, r))
      && (r.w == x.subscriber && r.event.SubscriptionAdded? && r.event.sub.workflowId in ["*", x.sub.workflowId] ==>
            r.gid == x.gid)
      && !RemovesRow(r, SubKeyOf(x.subscriber, x.sub))
      && (r.w == x.sub.workflowId ==> x.subscriber !in H.DirectTarget(r))
  }

  lemma {:induction false} WatchedIsOnlyAdd(x: H.Watch, log: seq<H.Row>, i: int)
    requires H.Named(x) && H.InOrder(log) && Sole(x, log) && 0 <= i < |log| && log[i].gid == x.gid
    ensures OnlyAdd(log, SubKeyOf(x.subscriber, x.sub), i) && log[i].event.sub == x.sub
  {
    assert log[i] in log;
    forall j | 0 <= j < |log| && j != i ensures !TouchesRow(log[j], SubKeyOf(x.subscriber, x.sub)) {
      assert log[j] in log;
      assert log[j].gid != log[i].gid by { assert j < i || i < j; }
    }
  }

  /** A row that reaches the subscriber was added by the watched event. */
  lemma {:induction false} ReachingIsWatched(x: H.Watch, log: seq<H.Row>, j: SubKey, r: SubRow) returns (i: int)
    requires Sole(x, log) && AddedInLog(log, j, r) && H.Reaches(x, j, r)
    ensures 0 <= i < |log| && log[i].gid == x.gid && j == SubKeyOf(x.subscriber, x.sub)
  {
    i :| 0 <= i < |log| && AddsRow(log[i], j) && log[i].event.sub == r.sub;
    assert log[i] in log;
  }

  /** With that, the row is in the table, stamped, and the only route, whenever its event is visible. */
  lemma {:induction false} RouteFollows(x: H.Watch, v: Site, subs: map<SubKey, SubRow>, s: H.World)
    requires H.Named(x) && H.InOrder(s.log) && Sole(x, s.log) && FollowsLog(subs, s.log) && s.subs == OurSubs(v, subs)
    requires forall r :: r in s.log ==> r.ours == v.ours(r.w)
    ensures H.OnlyRoute(x, s)
  {
    var k := SubKeyOf(x.subscriber, x.sub);
    assert forall i :: 0 <= i < |s.log| ==> s.log[i] in s.log;
    assert H.Visible(x, s) ==> k in s.subs && s.subs[k] == SubRow(x.sub, Some(x.gid)) by {
      if H.Visible(x, s) {
        var i :| 0 <= i < |s.log| && s.log[i].gid == x.gid;
        WatchedIsOnlyAdd(x, s.log, i);
      }
    }
    forall j | j in s.subs && H.Reaches(x, j, s.subs[j]) ensures j == k && H.Visible(x, s) {
      var i := ReachingIsWatched(x, s.log, j, subs[j]);
    }
  }

  lemma {:induction false} NewRowsLabelled(cfg: Config, v: Site, front: seq<Op>, op: Op)
    ensures forall r :: r in NewRows(cfg, v, front, op) ==> r.ours == v.ours(r.w)
  {
  }

  lemma {:induction false} RowsAreLabelled(cfg: Config, v: Site, ops: seq<Op>)
    ensures forall r :: r in LogOf(cfg, v, ops) ==> r.ours == v.ours(r.w)
    decreases |ops|
  {
    if ops != [] {
      RowsAreLabelled(cfg, v, ops[..|ops| - 1]);
      NewRowsLabelled(cfg, v, ops[..|ops| - 1], ops[|ops| - 1]);
    }
  }

  // ---------------------------------------------------------------------------------------------
  // Runs
  // ---------------------------------------------------------------------------------------------

  lemma {:induction false} SystemRuns(u: I.Setup, v: Site, steps: seq<Step>, s: World) returns (sys: seq<I.Step>)
    requires Run(u, v, Start, steps) == Some(s)
    ensures I.Reachable(u, sys, s.sys)
    decreases |steps|
  {
    if steps == [] {
      sys := [];
    } else {
      var r := Run(u, v, Start, steps[..|steps| - 1]).value;
      sys := SystemRuns(u, v, steps[..|steps| - 1], r);
      match steps[|steps| - 1]
      case Sys(st) =>
        assert (sys + [st])[..|sys|] == sys;
        sys := sys + [st];
      case Process =>
    }
  }

  /** In a reachable state the view is well formed, and the watched subscription is the only route. */
  lemma {:induction false} ViewOk(u: I.Setup, v: Site, x: H.Watch, steps: seq<Step>, s: World)
    requires FrameworkNotFinal(u.cfg.wf) && H.Named(x) && Run(u, v, Start, steps) == Some(s)
    requires Sole(x, LogOf(u.cfg, v, s.sys.history))
    ensures IsTable(s.sys.db, View(u, v, s).log) && H.OnlyRoute(x, View(u, v, s))
  {
    var sys := SystemRuns(u, v, steps, s);
    I.Serializable(u, sys, s.sys);
    LogIsTable(u.cfg, v, s.sys.history, s.sys.db);
    TableFollowsLog(u.cfg, v, s.sys.history, s.sys.db);
    RowsAreLabelled(u.cfg, v, s.sys.history);
    RouteFollows(x, v, s.sys.db.subs, View(u, v, s));
  }

  /** One step of the system appends rows to the log. */
  lemma {:induction false} StepGrows(u: I.Setup, v: Site, s: World, step: Step, s': World)
    requires Take(u, v, s, step) == Some(s')
    ensures LogOf(u.cfg, v, s.sys.history) <= LogOf(u.cfg, v, s'.sys.history)
  {
    if step.Sys? && s'.sys.history != s.sys.history {
      assert s'.sys.history[..|s.sys.history|] == s.sys.history;
      LogGrows(u.cfg, v, s'.sys.history, |s.sys.history|);
    }
  }

  lemma {:induction false} RunCounts(u: I.Setup, v: Site, x: H.Watch, steps: seq<Step>, s: World)
    requires FrameworkNotFinal(u.cfg.wf) && H.Named(x) && Run(u, v, Start, steps) == Some(s)
    requires Sole(x, LogOf(u.cfg, v, s.sys.history))
    ensures H.Inv(v.runner, x, View(u, v, s))
    decreases |steps|
  {
    ViewOk(u, v, x, steps, s);
    if steps != [] {
      var front, step := steps[..|steps| - 1], steps[|steps| - 1];
      var r := Run(u, v, Start, front).value;
      StepGrows(u, v, r, step, s);
      RunCounts(u, v, x, front, r);
      ViewOk(u, v, x, front, r);
      var h := StepIsViewed(u, v, r, step, s);
      H.StepKeepsInv(v.runner, x, View(u, v, r), h, View(u, v, s));
    }
  }

  /** A step of the system, seen by module Horizon. */
  lemma {:induction false} SysIsViewed(u: I.Setup, v: Site, r: World, s: World) returns (h: H.Step)
    requires s.next == r.next && s.out == r.out && H.InOrder(View(u, v, s).log) && View(u, v, r).log <= View(u, v, s).log
    ensures H.Take(v.runner, View(u, v, r), h) == Some(View(u, v, s))
  {
    var a, b := View(u, v, r), View(u, v, s);
    var rows := b.log[|a.log|..];
    assert a.log + rows == b.log;
    h := H.Commit(rows, b.subs);
  }

  lemma {:induction false} ProcessIsViewed(u: I.Setup, v: Site, r: World, s: World)
    requires Take(u, v, r, Process) == Some(s)
    ensures H.Take(v.runner, View(u, v, r), H.Process) == Some(View(u, v, s))
  {
  }

  lemma {:induction false} StepIsViewed(u: I.Setup, v: Site, r: World, step: Step, s: World) returns (h: H.Step)
    requires Take(u, v, r, step) == Some(s) && H.InOrder(View(u, v, s).log)
    ensures H.Take(v.runner, View(u, v, r), h) == Some(View(u, v, s))
  {
    StepGrows(u, v, r, step, s);
    match step
    case Sys(st) => h := SysIsViewed(u, v, r, s);
    case Process =>
      ProcessIsViewed(u, v, r, s);
      h := H.Process;
  }

  /**
   Exactly once, over every interleaving of the repository's processes and the runner: when the runner has
   passed the event that added the subscription, an emitter event that the subscription asks for has been
   handed over once if it is older than the subscription, or if it was processed and the live path looks
   at it.  In every other case, and so for every other emitter event, it has not been handed over.
   */
  lemma {:induction false} ExactlyOnce(u: I.Setup, v: Site, x: H.Watch, steps: seq<Step>, s: World, i: int)
    requires FrameworkNotFinal(u.cfg.wf) && H.Named(x) && Run(u, v, Start, steps) == Some(s)
    requires var log := LogOf(u.cfg, v, s.sys.history);
             Sole(x, log) && 0 <= i < |log| && log[i].w == x.sub.workflowId
    ensures var view := View(u, v, s);
            var row := view.log[i];
            var times := s.out[H.Delivery(x.subscriber, row)];
            && times <= 1
            && (times == 1 <==>
                  && H.Wanted(v.runner, x, row) && H.Passed(x, view)
                  && (row.gid < x.gid || (i < s.next && row.eventType != "" && !H.Cancels(row))))
  {
    RunCounts(u, v, x, steps, s);
  }

  // ---------------------------------------------------------------------------------------------
  // What processing one event hands over, for every subscription
  // ---------------------------------------------------------------------------------------------

  predicate Tagged(sub: Sub, row: H.Row) {
    && (sub.tags == [] || exists t :: t in sub.tags && (t in row.tags || t in row.wfTags))
    && forall t :: t in sub.tagsAll ==> t in row.tags || t in row.wfTags
  }

  /**
   The subscription row asks for the event: emitter and event type are named or "*", but not both "*"; the tags
   match; the event is past the horizon, if there is one, and not older than the stamp, if there is one.
   */
  predicate Asks(r: SubRow, row: H.Row) {
    && (r.sub.workflowId == row.w || r.sub.workflowId == "*") && (r.sub.eventType == row.eventType || r.sub.eventType == "*")
    && (r.sub.workflowId == "*" && r.sub.eventType == "*" ==> row.w == "*" || row.eventType == "*")
    && Tagged(r.sub, row)
    && (r.sub.after.Some? ==> row.v > r.sub.after.value)
    && (r.addedGid.Some? ==> row.gid >= r.addedGid.value)
  }

  ghost predicate Subscribed(v: Site, subs: map<SubKey, SubRow>, w: Id, row: H.Row) {
    v.ours(w) && exists k :: k in subs && k.w == w && Asks(subs[k], row)
  }

  /** A delay_complete of w itself, or a direct message to w, in the runner's own workflow type. */
  predicate Addressed(row: H.Row, w: Id) {
    row.ours && ((row.event.DelayComplete? && w == row.w) || row.event == DirectMessage(w))
  }

  /** w gets the event live. */
  ghost predicate GetsLive(v: Site, subs: map<SubKey, SubRow>, w: Id, row: H.Row) {
    && v.runner.routable(row) && !(row.ours && row.event.ActionCancel?)
    && (Addressed(row, w) || (row.eventType != "" && Subscribed(v, subs, w, row)))
  }

  /** Processing `added` replays q to w: it adds a horizon subscription of w's, and q is an older event that it asks for. */
  predicate Replays(v: Site, w: Id, added: H.Row, q: H.Row) {
    && added.ours && added.w == w && added.event.SubscriptionAdded?
    && var sub := added.event.sub;
       && sub.after.Some? && sub.workflowId != "*" && q.w == sub.workflowId && (sub.eventType == q.eventType || sub.eventType == "*")
       && Tagged(sub, q) && q.v > sub.after.value && q.gid < added.gid && v.runner.routable(q)
  }

  lemma {:induction false} TaggedIff(sub: Sub, row: H.Row)
    ensures H.MatchesTags(sub, row.tags, row.wfTags) <==> Tagged(sub, row)
  {
    assert forall t :: t in row.tags + row.wfTags <==> t in row.tags || t in row.wfTags;
    if sub.tags != [] { assert sub.tags[0] in sub.tags; }
  }

  lemma {:induction false} HitsIff(r: SubRow, row: H.Row)
    ensures H.Hits(r, row) <==> Asks(r, row)
  {
    TaggedIff(r.sub, row);
    H.SqlMatchIff(r.sub, row);
  }

  lemma {:induction false} LiveIff(v: Site, subs: map<SubKey, SubRow>, row: H.Row, w: Id)
    ensures H.Delivery(w, row) in H.Live(v.runner, OurSubs(v, subs), row) <==> GetsLive(v, subs, w, row)
  {
    var ours := OurSubs(v, subs);
    forall k | k in ours ensures H.Hits(ours[k], row) <==> Asks(subs[k], row) {
      HitsIff(subs[k], row);
    }
    if Subscribed(v, subs, w, row) {
      var k :| k in subs && k.w == w && Asks(subs[k], row);
      assert k in ours && H.Hits(ours[k], row);
    }
  }

  lemma {:induction false} ReplayIff(v: Site, log: seq<H.Row>, row: H.Row, w: Id, q: H.Row)
    requires H.InOrder(log)
    ensures multiset(H.BackfillFor(v.runner, log, row))[H.Delivery(w, q)] == if q in log && Replays(v, w, row, q) then 1 else 0
  {
    if H.Triggers(row) {
      H.BackfillCounts(v.runner, log, row.w, row.event.sub, row.gid, H.Delivery(w, q));
      TaggedIff(row.event.sub, q);
    }
  }

  /** Everything handed over so far came from events that were processed. */
  ghost predicate OnlyProcessed(log: seq<H.Row>, s: World) {
    s.next <= |log| && forall d :: d in s.out ==> d.row in log[..s.next]
  }

  lemma {:induction false} BackfillIsOlder(v: Site, log: seq<H.Row>, i: nat)
    requires H.InOrder(log) && i < |log|
    ensures forall d :: d in H.BackfillFor(v.runner, log, log[i]) ==> d.row in log[..i]
  {
    forall d | d in H.BackfillFor(v.runner, log, log[i]) ensures d.row in log[..i] {
      assert d in multiset(H.BackfillFor(v.runner, log, log[i]));
      ReplayIff(v, log, log[i], d.to, d.row);
      var j :| 0 <= j < |log| && log[j] == d.row;
      assert j < i by { assert log[j].gid < log[i].gid; }
      assert log[..i][j] == d.row;
    }
  }

  lemma {:induction false} ProcessKeepsProcessed(v: Site, log: seq<H.Row>, subs: map<SubKey, SubRow>, s: World, s': World)
    requires H.InOrder(log) && OnlyProcessed(log, s) && s.next < |log|
    requires s'.next == s.next + 1 && s'.out == s.out + H.Handed(v.runner, log, OurSubs(v, subs), log[s.next])
    ensures OnlyProcessed(log, s')
  {
    var row, live := log[s.next], H.Live(v.runner, OurSubs(v, subs), log[s.next]);
    BackfillIsOlder(v, log, s.next);
    assert log[..s'.next] == log[..s.next] + [row];
    forall d | d in s'.out ensures d.row in log[..s'.next] {
      assert d in s.out || d in multiset(H.BackfillFor(v.runner, log, row)) || d in multiset(live);
      assert d in multiset(live) ==> d in live;
    }
  }

  lemma {:induction false} LogInOrder(u: I.Setup, v: Site, steps: seq<Step>, s: World)
    requires FrameworkNotFinal(u.cfg.wf) && Run(u, v, Start, steps) == Some(s)
    ensures H.InOrder(LogOf(u.cfg, v, s.sys.history))
  {
    var sys := SystemRuns(u, v, steps, s);
    I.Serializable(u, sys, s.sys);
    LogIsTable(u.cfg, v, s.sys.history, s.sys.db);
  }

  lemma {:induction false} RunKeepsProcessed(u: I.Setup, v: Site, steps: seq<Step>, s: World)
    requires FrameworkNotFinal(u.cfg.wf) && Run(u, v, Start, steps) == Some(s)
    ensures OnlyProcessed(LogOf(u.cfg, v, s.sys.history), s)
    decreases |steps|
  {
    if steps != [] {
      var front, step := steps[..|steps| - 1], steps[|steps| - 1];
      var r := Run(u, v, Start, front).value;
      RunKeepsProcessed(u, v, front, r);
      var log, log' := LogOf(u.cfg, v, r.sys.history), LogOf(u.cfg, v, s.sys.history);
      match step
      case Sys(_) =>
        StepGrows(u, v, r, step, s);
        assert log'[..s.next] == log[..r.next];
      case Process =>
        LogInOrder(u, v, front, r);
        ProcessKeepsProcessed(v, log, r.sys.db.subs, r, s);
    }
  }

  /**
   Whatever was interleaved: when the runner processes an event, exactly the workflows that are addressed by
   it or have a row asking for it in the table get it, once, and nobody got it before; and besides that exactly
   the older events are replayed that the event's own subscription asks for.
   */
  lemma {:induction false} ProcessHandsOver(u: I.Setup, v: Site, steps: seq<Step>, r: World, s: World)
    requires FrameworkNotFinal(u.cfg.wf) && Run(u, v, Start, steps) == Some(r) && Take(u, v, r, Process) == Some(s)
    ensures var log := LogOf(u.cfg, v, r.sys.history);
            && r.next < |log| && s.sys == r.sys && s.next == r.next + 1
            && (forall w :: r.out[H.Delivery(w, log[r.next])] == 0)
            && (forall w :: s.out[H.Delivery(w, log[r.next])] == if GetsLive(v, r.sys.db.subs, w, log[r.next]) then 1 else 0)
            && (forall w, q :: q != log[r.next] ==>
                  s.out[H.Delivery(w, q)] == r.out[H.Delivery(w, q)] + if q in log && Replays(v, w, log[r.next], q) then 1 else 0)
  {
    LogInOrder(u, v, steps, r);
    RunKeepsProcessed(u, v, steps, r);
    var log := LogOf(u.cfg, v, r.sys.history);
    var row := log[r.next];
    NotYetProcessed(log, r.next);
    forall w ensures r.out[H.Delivery(w, row)] == 0 {
      assert H.Delivery(w, row) !in r.out;
    }
    forall w, q ensures
      s.out[H.Delivery(w, q)] == r.out[H.Delivery(w, q)] + (if q in log && Replays(v, w, row, q) then 1 else 0)
        + (if q == row && GetsLive(v, r.sys.db.subs, w, row) then 1 else 0)
    {
      ReplayIff(v, log, row, w, q);
      if q == row { LiveIff(v, r.sys.db.subs, row, w); }
    }
  }

  lemma {:induction false} NotYetProcessed(log: seq<H.Row>, i: nat)
    requires H.InOrder(log) && i < |log|
    ensures log[i] !in log[..i]
  {
    assert forall j :: 0 <= j < i ==> log[..i][j] == log[j] && log[j].gid < log[i].gid;
  }
}
