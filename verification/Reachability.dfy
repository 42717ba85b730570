/**
 The converse of Interleaving.Serializable: every serial history is a run of the interleaved system.  So
 the reachable databases are exactly the serial ones, and a failure that a serial history shows is real.
 */
module Reachability {
  import opened Wrappers
  import opened WorkflowModel
  import opened EventStore
  import opened SerialHistory
  import opened Interleaving

  lemma {:induction false} RunSnoc(u: Setup, s: World, steps: seq<Step>, step: Step)
    ensures Run(u, s, steps + [step]) == match Run(u, s, steps) { case None => None case Some(r) => Take(u, r, step) }
  {
    assert (steps + [step])[..|steps|] == steps;
  }

  lemma {:induction false} RunConcat(u: Setup, s: World, a: seq<Step>, b: seq<Step>)
    ensures Run(u, s, a + b) == match Run(u, s, a) { case None => None case Some(r) => Run(u, r, b) }
    decreases |b|
  {
    if b == [] {
      assert a + b == a;
    } else {
      RunConcat(u, s, a, b[..|b| - 1]);
      assert (a + b)[..|a + b| - 1] == a + b[..|b| - 1];
    }
  }

  /** The world after a call that ran with nothing in between and was not cached. */
  function AfterCall(s: World, op: Op, db: Db): World { World(db, s.caches, s.txns, s.history + [op]) }

  /** From its loaded state on, a call commits what it decided. */
  lemma {:induction false} CommitRuns(u: Setup, s: World, r: World, t: TxnId, op: Op, base: Option<Stored>, es: seq<Event>, db: Db)
    requires t !in s.txns && es != [] && CommitOp(u.cfg, s.db, op, base, es) == Committed(db)
    requires r == s.(txns := s.txns[t := Ready(0, op, base, es)])
    ensures Run(u, r, [WriteAndCommit(t), Abandon(t)]) == Some(AfterCall(s, op, db))
  {
    var txn := Written(0, op.w, ResultOf(u.cfg, base, es), ActionAfter(u.cfg.wf, op, es));
    var r' := World(db, s.caches, s.txns[t := txn], s.history + [op]);
    assert r.txns[t := txn] == r'.txns;
    RunSnoc(u, r, [], WriteAndCommit(t));
    assert [] + [WriteAndCommit(t)] == [WriteAndCommit(t)];
    assert Run(u, r, [WriteAndCommit(t)]) == Some(r');
    RunSnoc(u, r, [WriteAndCommit(t)], Abandon(t));
    assert [WriteAndCommit(t)] + [Abandon(t)] == [WriteAndCommit(t), Abandon(t)];
    assert r'.txns - {t} == s.txns;
  }

  lemma {:induction false} LoadRuns(u: Setup, s: World, t: TxnId, op: Op, base: Stored, es: seq<Event>)
    requires t !in s.txns && Loads(op) && (op.Command? ==> Key(op.w, 1) in s.db.events)
    requires Load(u.cfg, s.db, op.w, None) == Some(base) && Decide(u.cfg.wf, op, Some(base.state)) == Some(es)
    ensures Run(u, s, [ReadSnapshot(t, 0, op), ReadEvents(t)]) == Some(s.(txns := s.txns[t := Ready(0, op, Some(base), es)]))
  {
    var snap := SnapshotFor(u.cfg, s.db, op.w, None);
    var r := s.(txns := s.txns[t := Loading(0, op, snap)]);
    RunSnoc(u, s, [], ReadSnapshot(t, 0, op));
    assert [] + [ReadSnapshot(t, 0, op)] == [ReadSnapshot(t, 0, op)];
    assert Run(u, s, [ReadSnapshot(t, 0, op)]) == Some(r);
    RunSnoc(u, s, [ReadSnapshot(t, 0, op)], ReadEvents(t));
    assert [ReadSnapshot(t, 0, op)] + [ReadEvents(t)] == [ReadSnapshot(t, 0, op), ReadEvents(t)];
    assert r.txns[t := Ready(0, op, Some(base), es)] == s.txns[t := Ready(0, op, Some(base), es)];
  }

  lemma {:induction false} FireRuns(u: Setup, s: World, t: TxnId, op: Op, db: Db)
    requires t !in s.txns && op.Fire? && ApplyOp(u.cfg, s.db, op) == Some(db)
    ensures Run(u, s, [ReadMax(t, op), WriteAndCommit(t)]) == Some(AfterCall(s, op, db))
  {
    var r := s.(txns := s.txns[t := Firing(op, MaxVersion(s.db.events, op.w))]);
    RunSnoc(u, s, [], ReadMax(t, op));
    assert [] + [ReadMax(t, op)] == [ReadMax(t, op)];
    assert Run(u, s, [ReadMax(t, op)]) == Some(r);
    RunSnoc(u, s, [ReadMax(t, op)], WriteAndCommit(t));
    assert [ReadMax(t, op)] + [WriteAndCommit(t)] == [ReadMax(t, op), WriteAndCommit(t)];
    assert r.txns - {t} == s.txns;
  }

  /** A call that succeeds alone is a run of the system from any state, whatever else is in flight. */
  lemma {:induction false} CallRuns(u: Setup, s: World, t: TxnId, op: Op, db: Db) returns (steps: seq<Step>)
    requires t !in s.txns && ApplyOp(u.cfg, s.db, op) == Some(db)
    ensures Run(u, s, steps) == Some(AfterCall(s, op, db))
  {
    if op.Register? {
      steps := [RegisterDelay(op)];
      RunSnoc(u, s, [], RegisterDelay(op));
      assert [] + steps == steps;
    } else if op.Fire? {
      steps := [ReadMax(t, op), WriteAndCommit(t)];
      FireRuns(u, s, t, op, db);
    } else {
      var base := if Loads(op) then Load(u.cfg, s.db, op.w, None) else None;
      var es := Batch(u.cfg, s.db, op);
      var load := if Loads(op) then [ReadSnapshot(t, 0, op), ReadEvents(t)] else [BeginCreate(t, 0, op)];
      var r := s.(txns := s.txns[t := Ready(0, op, base, es)]);
      if Loads(op) {
        LoadRuns(u, s, t, op, base.value, es);
      } else {
        RunSnoc(u, s, [], BeginCreate(t, 0, op));
        assert [] + load == load;
      }
      CommitRuns(u, s, r, t, op, base, es, db);
      RunConcat(u, s, load, [WriteAndCommit(t), Abandon(t)]);
      steps := load + [WriteAndCommit(t), Abandon(t)];
    }
  }

  /** Every serial history is reachable. */
  lemma {:induction false} SerialIsReachable(u: Setup, ops: seq<Op>, db: Db) returns (steps: seq<Step>)
    requires Replay(u.cfg, EmptyDb, ops) == Some(db)
    ensures Reachable(u, steps, World(db, map[], map[], ops))
    decreases |ops|
  {
    if ops == [] {
      steps := [];
    } else {
      var front, op := ops[..|ops| - 1], ops[|ops| - 1];
      var d := Replay(u.cfg, EmptyDb, front).value;
      var s := World(d, map[], map[], front);
      var before := SerialIsReachable(u, front, d);
      var call := CallRuns(u, s, 0, op, db);
      RunConcat(u, Start, before, call);
      steps := before + call;
      assert front + [op] == ops;
    }
  }
}
