/**
 Global ids and the subscription rows stamped with them (pkg/repo/repo.go).

 Ids are handed out at commit, so they become visible in increasing order: BIGSERIAL alone does not
 promise that, and every reader of the global order (modules Horizon, StreamReader, Outbox) assumes it.
 */
module GlobalOrder {
  import opened Wrappers
  import opened WorkflowModel
  import opened EventStore
  import opened SerialHistory
  import opened Interleaving

  /** Global ids are unique, and within one workflow they ascend with the version. */
  ghost predicate GidsOk(db: Db) {
    && 0 < db.nextGid && (forall k :: k in db.events ==> 0 < db.events[k].gid < db.nextGid)
    && (forall j, k :: j in db.events && k in db.events && j != k ==> db.events[j].gid != db.events[k].gid)
    && (forall j, k :: j in db.events && k in db.events && j.w == k.w && j.v < k.v ==> db.events[j].gid < db.events[k].gid)
  }

  /** The event whose commit set the row's subscription_added_global_id. */
  ghost predicate StampedBy(db: Db, k: SubKey, v: int) {
    && k in db.subs && Key(k.w, v) in db.events && SubKeyOf(k.w, db.subs[k].sub) == k
    && db.events[Key(k.w, v)].event == SubscriptionAdded(db.subs[k].sub)
    && db.subs[k].addedGid == Some(db.events[Key(k.w, v)].gid)
  }

  /** Every subscription row with a horizon carries the global id of the event that added it. */
  ghost predicate SubsOk(db: Db) {
    forall k :: k in db.subs && db.subs[k].sub.after.Some? ==> exists v :: StampedBy(db, k, v)
  }

  // ---------------------------------------------------------------------------------------------
  // One batch
  // ---------------------------------------------------------------------------------------------

  predicate Adds(w: Id, e: Event, k: SubKey) { e.SubscriptionAdded? && SubKeyOf(w, e.sub) == k }

  function LastAdded(w: Id, es: seq<Event>, k: SubKey): (i: int)
    ensures -1 <= i < |es|
    ensures i >= 0 ==> Adds(w, es[i], k)
  {
    if es == [] then -1
    else if Adds(w, es[|es| - 1], k) then |es| - 1
    else LastAdded(w, es[..|es| - 1], k)
  }

  function LastHorizon(w: Id, es: seq<Event>, k: SubKey): (i: int)
    ensures -1 <= i < |es|
    ensures i >= 0 ==> Adds(w, es[i], k) && SetsHorizon(es[i])
  {
    if es == [] then -1
    else if Adds(w, es[|es| - 1], k) && SetsHorizon(es[|es| - 1]) then |es| - 1
    else LastHorizon(w, es[..|es| - 1], k)
  }

  lemma {:induction false} LastAddedIsLastHorizon(w: Id, es: seq<Event>, k: SubKey)
    requires var i := LastAdded(w, es, k); i >= 0 && SetsHorizon(es[i])
    ensures LastHorizon(w, es, k) == LastAdded(w, es, k)
    decreases |es|
  {
    if !Adds(w, es[|es| - 1], k) { LastAddedIsLastHorizon(w, es[..|es| - 1], k); }
  }

  lemma {:induction false} NoAddNoHorizon(w: Id, es: seq<Event>, k: SubKey)
    requires LastAdded(w, es, k) < 0
    ensures LastHorizon(w, es, k) < 0
    decreases |es|
  {
    if es != [] { NoAddNoHorizon(w, es[..|es| - 1], k); }
  }

  lemma {:induction false} SyncedRow(subs: map<SubKey, SubRow>, w: Id, es: seq<Event>, k: SubKey)
    requires k in SyncSubs(subs, w, es)
    ensures var i := LastAdded(w, es, k);
            if i >= 0 then SyncSubs(subs, w, es)[k].sub == es[i].sub
            else k in subs && SyncSubs(subs, w, es)[k] == subs[k]
    decreases |es|
  {
    if es != [] && !Adds(w, es[|es| - 1], k) { SyncedRow(subs, w, es[..|es| - 1], k); }
  }

  lemma {:induction false} StampedRow(subs: map<SubKey, SubRow>, w: Id, es: seq<Event>, gid: int, k: SubKey)
    requires StampSubs(subs, w, es, gid).Some?
    ensures var r := StampSubs(subs, w, es, gid).value;
            && (k in r <==> k in subs)
            && (k in r ==> var i := LastHorizon(w, es, k);
                r[k] == SubRow(subs[k].sub, if i >= 0 then Some(gid + i) else subs[k].addedGid))
    decreases |es|
  {
    if es != [] { StampedRow(subs, w, es[..|es| - 1], gid, k); }
  }

  predicate Drops(w: Id, e: Event, k: SubKey) { e.SubscriptionRemoved? && SubKeyOf(w, e.sub) == k }

  /** The last event of the batch that adds or drops the key; -1 if none does. */
  function LastNamed(w: Id, es: seq<Event>, k: SubKey): (i: int)
    ensures -1 <= i < |es| && (i >= 0 ==> Adds(w, es[i], k) || Drops(w, es[i], k))
    ensures forall j :: i < j < |es| ==> !Adds(w, es[j], k) && !Drops(w, es[j], k)
  {
    if es == [] then -1
    else if Adds(w, es[|es| - 1], k) || Drops(w, es[|es| - 1], k) then |es| - 1
    else LastNamed(w, es[..|es| - 1], k)
  }

  predicate DropsAny(w: Id, es: seq<Event>, k: SubKey) { exists i :: 0 <= i < |es| && Drops(w, es[i], k) }

  lemma {:induction false} DropsAnySnoc(w: Id, es: seq<Event>, k: SubKey)
    requires es != []
    ensures DropsAny(w, es, k) <==> DropsAny(w, es[..|es| - 1], k) || Drops(w, es[|es| - 1], k)
  {
    var front := es[..|es| - 1];
    if DropsAny(w, front, k) {
      var i :| 0 <= i < |front| && Drops(w, front[i], k);
      assert Drops(w, es[i], k);
    }
    if DropsAny(w, es, k) {
      var i :| 0 <= i < |es| && Drops(w, es[i], k);
      assert i < |front| ==> Drops(w, front[i], k);
    }
  }

  lemma {:induction false} SyncedIs(subs: map<SubKey, SubRow>, w: Id, es: seq<Event>, k: SubKey)
    ensures var r, i := SyncSubs(subs, w, es), LastNamed(w, es, k);
            && (k in r <==> if i >= 0 then Adds(w, es[i], k) else k in subs)
            && (k in r ==> r[k].addedGid == if DropsAny(w, es, k) || k !in subs then None else subs[k].addedGid)
            && (k in r ==> r[k].sub == if i >= 0 then es[i].sub else subs[k].sub)
    decreases |es|
  {
    if es != [] {
      SyncedIs(subs, w, es[..|es| - 1], k);
      DropsAnySnoc(w, es, k);
    }
  }

  /**
   The row of a key after a batch: there if the last event naming the key adds it, with that subscription.  Its
   stamp is the id of the last addition with a horizon, wherever that stands in the batch; without one, the old
   stamp stays, also when the row is overwritten by a subscription without a horizon, unless the row was dropped.
   */
  lemma {:induction false} BatchRow(subs: map<SubKey, SubRow>, w: Id, es: seq<Event>, gid: int, k: SubKey)
    requires StampSubs(SyncSubs(subs, w, es), w, es, gid).Some?
    ensures var r, i, h := StampSubs(SyncSubs(subs, w, es), w, es, gid).value, LastNamed(w, es, k), LastHorizon(w, es, k);
            && (k in r <==> if i >= 0 then Adds(w, es[i], k) else k in subs)
            && (k in r ==> r[k] == SubRow(
                  if i >= 0 then es[i].sub else subs[k].sub,
                  if h >= 0 then Some(gid + h) else if DropsAny(w, es, k) || k !in subs then None else subs[k].addedGid))
  {
    SyncedIs(subs, w, es, k);
    StampedRow(SyncSubs(subs, w, es), w, es, gid, k);
  }

  lemma {:induction false} CommitKeepsGids(cfg: Config, db: Db, w: Id, state: Option<State>, es: seq<Event>, db': Db)
    requires LogOk(cfg, db, w) && GidsOk(db) && es != []
    requires Commit(cfg, db, w, Head(db, w), state, es) == Committed(db')
    ensures GidsOk(db')
  {
    InsertKeys(db.events, w, Head(db, w), es, db.nextGid);
  }

  lemma {:induction false} CommitKeepsSub(cfg: Config, db: Db, w: Id, n: int, state: Option<State>, es: seq<Event>, db': Db, k: SubKey)
    requires SubsOk(db) && es != []
    requires Commit(cfg, db, w, n, state, es) == Committed(db')
    requires k in db'.subs && db'.subs[k].sub.after.Some?
    ensures exists v :: StampedBy(db', k, v)
  {
    InsertKeys(db.events, w, n, es, db.nextGid);
    StampedRow(SyncSubs(db.subs, w, es), w, es, db.nextGid, k);
    SyncedRow(db.subs, w, es, k);
    var i := LastAdded(w, es, k);
    if i >= 0 {
      LastAddedIsLastHorizon(w, es, k);
      assert InBatch(Key(w, n + i + 1), w, n, |es|);
      assert StampedBy(db', k, n + i + 1);
    } else {
      NoAddNoHorizon(w, es, k);
      var v :| StampedBy(db, k, v);
      assert Key(k.w, v) in db.events && !InBatch(Key(k.w, v), w, n, |es|);
      assert StampedBy(db', k, v);
    }
  }

  lemma {:induction false} CommitKeepsOrder(cfg: Config, db: Db, w: Id, state: Option<State>, es: seq<Event>, db': Db)
    requires LogOk(cfg, db, w) && GidsOk(db) && SubsOk(db) && es != []
    requires Commit(cfg, db, w, Head(db, w), state, es) == Committed(db')
    ensures GidsOk(db') && SubsOk(db')
  {
    CommitKeepsGids(cfg, db, w, state, es, db');
    forall k | k in db'.subs && db'.subs[k].sub.after.Some? ensures exists v :: StampedBy(db', k, v) {
      CommitKeepsSub(cfg, db, w, Head(db, w), state, es, db', k);
    }
  }

  lemma {:induction false} FireKeepsOrder(cfg: Config, db: Db, op: Op, db': Db)
    requires LogOk(cfg, db, op.w) && GidsOk(db) && SubsOk(db) && Unordered(op) && ApplyOp(cfg, db, op) == Some(db')
    ensures GidsOk(db') && SubsOk(db')
  {
    forall k | k in db'.subs && db'.subs[k].sub.after.Some? ensures exists v :: StampedBy(db', k, v) {
      var v :| StampedBy(db, k, v);
      assert StampedBy(db', k, v);
    }
  }

  lemma {:induction false} StepKeepsOrder(cfg: Config, db: Db, op: Op, db': Db)
    requires DbOk(cfg, db) && GidsOk(db) && SubsOk(db) && ApplyOp(cfg, db, op) == Some(db')
    ensures GidsOk(db') && SubsOk(db')
  {
    assert LogOk(cfg, db, op.w);
    if Unordered(op) {
      FireKeepsOrder(cfg, db, op, db');
    } else if op.Create? {
      CreateAtZero(cfg, db, op, db');
      CommitKeepsOrder(cfg, db, op.w, None, Batch(cfg, db, op), db');
    } else {
      LoadedKeepsOrder(cfg, db, op, db');
    }
  }

  lemma {:induction false} LoadedKeepsOrder(cfg: Config, db: Db, op: Op, db': Db)
    requires DbOk(cfg, db) && GidsOk(db) && SubsOk(db) && Loads(op) && ApplyOp(cfg, db, op) == Some(db')
    ensures GidsOk(db') && SubsOk(db')
  {
    var base, es := LoadedBatch(cfg, db, op, db');
    LoadedVersion(cfg, db, op.w);
    assert LogOk(cfg, db, op.w);
    CommitKeepsOrder(cfg, db, op.w, StateOf(base), es, db');
  }

  lemma {:induction false} SerialOrder(cfg: Config, ops: seq<Op>, db: Db)
    requires Replay(cfg, EmptyDb, ops) == Some(db)
    ensures GidsOk(db) && SubsOk(db)
    decreases |ops|
  {
    EmptyDbOk(cfg);
    if ops != [] {
      var d := Replay(cfg, EmptyDb, ops[..|ops| - 1]).value;
      SerialOrder(cfg, ops[..|ops| - 1], d);
      ReplayKeeps(cfg, EmptyDb, ops[..|ops| - 1], d);
      StepKeepsOrder(cfg, d, ops[|ops| - 1], db);
    }
  }

  /** Over every interleaving: ids ascend with versions, and horizon rows carry the id of their own event. */
  lemma {:induction false} IdsAndStamps(u: Setup, steps: seq<Step>, s: World)
    requires FrameworkNotFinal(u.cfg.wf) && Reachable(u, steps, s)
    ensures GidsOk(s.db) && SubsOk(s.db)
  {
    Serializable(u, steps, s);
    SerialOrder(u.cfg, s.history, s.db);
  }
}
