/** Repositories in any number of processes, and the delay scheduler, working on one database at once. */
module Interleaving {
  import opened Wrappers
  import opened WorkflowModel
  import opened EventStore
  import opened SerialHistory

  // A transaction is cut where PostgreSQL's READ COMMITTED lets others in: the snapshot statement, the event
  // statement, and the writes, which become visible together at commit.  The cache is written after the commit, so
  // that write is a step of its own and may come late or never.  The version-1 row lock is not modelled: it only
  // removes interleavings, and no theorem here needs it.

  type ProcId = nat
  type TxnId = nat

  datatype CacheKey = CacheKey(p: ProcId, w: Id)
  datatype CacheAction = Put | Remove | Leave

  datatype Txn =
    | Loading(p: ProcId, op: Op, snap: Option<Snapshot>)
    | Ready(p: ProcId, op: Op, base: Option<Stored>, es: seq<Event>)
    | Firing(op: Op, version: int)
    | Written(p: ProcId, w: Id, result: Stored, action: CacheAction)

  /** `history` lists the committed calls in commit order. */
  datatype World = World(db: Db, caches: map<CacheKey, Stored>, txns: map<TxnId, Txn>, history: seq<Op>)

  const Start := World(EmptyDb, map[], map[], [])

  /** `trusts(p)` is the trustCache option of the repository in process p. */
  datatype Setup = Setup(cfg: Config, trusts: ProcId -> bool)

  datatype Step =
    | BeginCreate(t: TxnId, p: ProcId, op: Op)
    | UseCache(t: TxnId, p: ProcId, op: Op)
    | ReadSnapshot(t: TxnId, p: ProcId, op: Op)
    | ReadEvents(t: TxnId)
    | ReadMax(t: TxnId, op: Op)
    | WriteAndCommit(t: TxnId)
    | RegisterDelay(op: Op)
    | WriteCache(t: TxnId)
    | Evict(key: CacheKey)
    | Abandon(t: TxnId)

  /** The transaction after its state is known: it decides, or it ends without writing. */
  function Decided(cfg: Config, s: World, t: TxnId, p: ProcId, op: Op, base: Option<Stored>): World
    requires Decides(op) && (Loads(op) ==> base.Some?)
  {
    match Decide(cfg.wf, op, StateOf(base))
    case None => s.(txns := s.txns - {t})
    case Some(es) => s.(txns := s.txns[t := Ready(p, op, base, es)])
  }

  /** What the call does to its process's cache once the commit is through. */
  function ActionAfter(wf: Workflow, op: Op, es: seq<Event>): CacheAction
    requires es != []
  {
    var terminal := IsTerminal(wf, es[|es| - 1]);
    match op
    case Create(_, _) => if terminal then Leave else Put
    case Command(_, _) => if terminal then Remove else Put
    case Cancel(_, _) => Remove
    case _ => Put
  }

  /** One step; None when it is not enabled. */
  ghost function Take(u: Setup, s: World, step: Step): Option<World> {
    match step
    case BeginCreate(t, p, op) =>
      if t in s.txns || !op.Create? then None else Some(Decided(u.cfg, s, t, p, op, None))
    case UseCache(t, p, op) =>
      var k := CacheKey(p, op.w);
      if t in s.txns || !op.Command? || Key(op.w, 1) !in s.db.events || k !in s.caches
         || !(u.trusts(p) || MaxVersion(s.db.events, op.w) == s.caches[k].version) then None
      else Some(Decided(u.cfg, s, t, p, op, Some(s.caches[k])))
    case ReadSnapshot(t, p, op) =>
      if t in s.txns || !Loads(op) || (op.Command? && Key(op.w, 1) !in s.db.events) then None
      else Some(s.(txns := s.txns[t := Loading(p, op, SnapshotFor(u.cfg, s.db, op.w, None))]))
    case ReadEvents(t) =>
      if !(t in s.txns && s.txns[t].Loading? && Loads(s.txns[t].op)) then None
      else
        var Loading(p, op, snap) := s.txns[t];
        (match LoadFrom(u.cfg, s.db.events, op.w, snap, None)
         case None => Some(s.(txns := s.txns - {t}))
         case Some(b) => Some(Decided(u.cfg, s, t, p, op, Some(b))))
    case ReadMax(t, op) =>
      if t in s.txns || !op.Fire? || Versions(s.db.events, op.w) == {} then None
      else Some(s.(txns := s.txns[t := Firing(op, MaxVersion(s.db.events, op.w))]))
    case WriteAndCommit(t) =>
      if t !in s.txns then None
      else (match s.txns[t]
        case Ready(p, op, base, es) =>
          if es == [] then None
          else (match CommitOp(u.cfg, s.db, op, base, es)
            case Committed(db) =>
              var txn := Written(p, op.w, ResultOf(u.cfg, base, es), ActionAfter(u.cfg.wf, op, es));
              Some(World(db, s.caches, s.txns[t := txn], s.history + [op]))
            case _ => Some(s.(txns := s.txns - {t})))
        case Firing(op, version) =>
          if !op.Fire? then None
          else (match FireAt(s.db, op.w, op.delayId, op.row, version + 1)
            case Committed(db) => Some(World(db, s.caches, s.txns - {t}, s.history + [op]))
            case _ => Some(s.(txns := s.txns - {t})))
        case _ => None)
    case RegisterDelay(op) =>
      if !op.Register? then None
      else Some(s.(db := RegisterIn(s.db, op.w, op.delayId, op.nextCmd), history := s.history + [op]))
    case WriteCache(t) =>
      if !(t in s.txns && s.txns[t].Written?) then None
      else
        var Written(p, w, result, action) := s.txns[t];
        var k := CacheKey(p, w);
        var caches := if action.Put? then s.caches[k := result]
                      else if action.Remove? then s.caches - {k} else s.caches;
        Some(s.(caches := caches, txns := s.txns - {t}))
    case Evict(k) => Some(s.(caches := s.caches - {k}))
    case Abandon(t) => Some(s.(txns := s.txns - {t}))
  }

  ghost function Run(u: Setup, s: World, steps: seq<Step>): Option<World> {
    if steps == [] then Some(s)
    else match Run(u, s, steps[..|steps| - 1])
      case None => None
      case Some(r) => Take(u, r, steps[|steps| - 1])
  }

  // ---------------------------------------------------------------------------------------------
  // The invariant
  // ---------------------------------------------------------------------------------------------

  ghost predicate IsFold(cfg: Config, db: Db, w: Id, b: Stored) {
    1 <= b.version <= Head(db, w) && FoldTo(cfg, db, w, b.version) == Some(b.state)
  }

  /** A cached state is the fold of some prefix that does not end in a final event. */
  ghost predicate CachedOk(cfg: Config, db: Db, w: Id, b: Stored) {
    && IsFold(cfg, db, w, b)
    && Key(w, b.version) in db.events && !IsTerminal(cfg.wf, db.events[Key(w, b.version)].event)
  }

  /** A final last event is only loaded when a snapshot hides it. */
  ghost predicate BaseOk(cfg: Config, db: Db, w: Id, b: Stored) {
    && IsFold(cfg, db, w, b)
    && (CachedOk(cfg, db, w, b)
        || (cfg.interval > 0 && w in db.snapshots && db.snapshots[w].version >= b.version))
  }

  ghost predicate SnapOk(cfg: Config, db: Db, w: Id, snap: Snapshot) {
    && IsFold(cfg, db, w, Stored(snap.version, snap.state))
    && cfg.interval > 0 && w in db.snapshots && db.snapshots[w].version >= snap.version
  }

  ghost predicate TxnOk(cfg: Config, db: Db, txn: Txn) {
    match txn
    case Loading(_, op, snap) => Loads(op) && (snap.Some? ==> SnapOk(cfg, db, op.w, snap.value))
    case Ready(_, op, base, es) =>
      && Decides(op) && (Loads(op) <==> base.Some?)
      && (base.Some? ==> BaseOk(cfg, db, op.w, base.value))
      && Decide(cfg.wf, op, StateOf(base)) == Some(es)
    case Firing(op, version) => op.Fire? && 1 <= version <= Head(db, op.w)
    case Written(_, w, result, action) => action.Put? ==> CachedOk(cfg, db, w, result)
  }

  ghost predicate Inv(u: Setup, s: World) {
    && Replay(u.cfg, EmptyDb, s.history) == Some(s.db)
    && DbOk(u.cfg, s.db)
    && (forall k :: k in s.caches ==> CachedOk(u.cfg, s.db, k.w, s.caches[k]))
    && (forall t :: t in s.txns ==> TxnOk(u.cfg, s.db, s.txns[t]))
  }

  // ---------------------------------------------------------------------------------------------
  // Facts about captured states
  // ---------------------------------------------------------------------------------------------

  lemma {:induction false} CachedGrows(cfg: Config, db: Db, db': Db, w: Id, b: Stored)
    requires Grows(db, db', w) && CachedOk(cfg, db, w, b)
    ensures CachedOk(cfg, db', w, b)
  {
    FoldFrame(cfg, db, db', w, b.version);
  }

  lemma {:induction false} TxnGrows(cfg: Config, db: Db, db': Db, txn: Txn)
    requires Extends(db, db') && TxnOk(cfg, db, txn)
    ensures TxnOk(cfg, db', txn)
  {
    var w := if txn.Written? then txn.w else txn.op.w;
    assert Grows(db, db', w);
    match txn
    case Loading(_, _, snap) =>
      if snap.Some? { FoldFrame(cfg, db, db', w, snap.value.version); }
    case Ready(_, _, base, _) =>
      if base.Some? {
        FoldFrame(cfg, db, db', w, base.value.version);
        if CachedOk(cfg, db, w, base.value) { CachedGrows(cfg, db, db', w, base.value); }
      }
    case Firing(_, _) =>
    case Written(_, _, result, action) =>
      if action.Put? { CachedGrows(cfg, db, db', w, result); }
  }

  /** A version-checked cache hit, or any captured state still at the head, is what a cold load returns. */
  lemma {:induction false} BaseAtHeadIsLoad(cfg: Config, db: Db, w: Id, b: Stored)
    requires LogOk(cfg, db, w) && BaseOk(cfg, db, w, b) && b.version == Head(db, w)
    ensures Load(cfg, db, w, None) == Some(b)
  {
    LoadFromIsFold(cfg, db, w, SnapshotFor(cfg, db, w, None), None);
  }

  /** The two statements of a load, with anything committed in between, still capture a fold. */
  lemma {:induction false} SplitLoadOk(cfg: Config, db: Db, w: Id, snap: Option<Snapshot>)
    requires LogOk(cfg, db, w) && (snap.Some? ==> SnapOk(cfg, db, w, snap.value))
    ensures var r := LoadFrom(cfg, db.events, w, snap, None); r.Some? ==> BaseOk(cfg, db, w, r.value)
  {
    LoadFromIsFold(cfg, db, w, snap, None);
    if Head(db, w) > 0 {
      FoldSome(cfg, db, w, Head(db, w));
    }
  }

  /** A transaction that passes the unique key does exactly what the call does when run alone now. */
  lemma {:induction false} CommitIsSerial(cfg: Config, db: Db, op: Op, base: Option<Stored>, es: seq<Event>, db': Db)
    requires DbOk(cfg, db) && TxnOk(cfg, db, Ready(0, op, base, es))
    requires CommitOp(cfg, db, op, base, es) == Committed(db')
    ensures ApplyOp(cfg, db, op) == Some(db')
    ensures Batch(cfg, db, op) == es && BaseVersion(base) == Head(db, op.w)
    ensures StateOf(base) == FoldTo(cfg, db, op.w, Head(db, op.w))
  {
    assert LogOk(cfg, db, op.w);
    NoConflictAtHead(db.events, op.w, Head(db, op.w), BaseVersion(base), |es|);
    if base.Some? {
      BaseAtHeadIsLoad(cfg, db, op.w, base.value);
    }
  }

  lemma {:induction false} LastRow(cfg: Config, db: Db, w: Id, n: int, state: Option<State>, es: seq<Event>, db': Db)
    requires es != [] && Commit(cfg, db, w, n, state, es) == Committed(db')
    ensures Key(w, n + |es|) in db'.events && db'.events[Key(w, n + |es|)].event == es[|es| - 1]
  {
    InsertKeys(db.events, w, n, es, db.nextGid);
    assert InBatch(Key(w, n + |es|), w, n, |es|);
  }

  /** A call that puts its result in the cache ended on an event that is not final. */
  lemma {:induction false} PutMeansLive(wf: Workflow, op: Op, state: Option<State>, es: seq<Event>)
    requires FrameworkNotFinal(wf) && Decides(op) && (Loads(op) ==> state.Some?)
    requires Decide(wf, op, state) == Some(es) && ActionAfter(wf, op, es).Put?
    ensures !IsTerminal(wf, es[|es| - 1])
  {
  }

  lemma {:induction false} ResultIsFold(cfg: Config, db: Db, op: Op, base: Option<Stored>, es: seq<Event>, db': Db)
    requires DbOk(cfg, db) && es != [] && BaseVersion(base) == Head(db, op.w)
    requires StateOf(base) == FoldTo(cfg, db, op.w, Head(db, op.w))
    requires CommitOp(cfg, db, op, base, es) == Committed(db')
    requires !IsTerminal(cfg.wf, es[|es| - 1])
    ensures CachedOk(cfg, db', op.w, ResultOf(cfg, base, es))
  {
    assert LogOk(cfg, db, op.w);
    CommitAtHead(cfg, db, op.w, StateOf(base), es, db');
    LastRow(cfg, db, op.w, Head(db, op.w), StateOf(base), es, db');
  }

  lemma {:induction false} WrittenOk(u: Setup, db: Db, p: ProcId, op: Op, base: Option<Stored>, es: seq<Event>, db': Db)
    requires FrameworkNotFinal(u.cfg.wf)
    requires DbOk(u.cfg, db) && TxnOk(u.cfg, db, Ready(0, op, base, es))
    requires CommitOp(u.cfg, db, op, base, es) == Committed(db')
    ensures TxnOk(u.cfg, db', Written(p, op.w, ResultOf(u.cfg, base, es), ActionAfter(u.cfg.wf, op, es)))
  {
    if ActionAfter(u.cfg.wf, op, es).Put? {
      CommitIsSerial(u.cfg, db, op, base, es, db');
      PutMeansLive(u.cfg.wf, op, StateOf(base), es);
      ResultIsFold(u.cfg, db, op, base, es, db');
    }
  }

  // ---------------------------------------------------------------------------------------------
  // Preservation
  // ---------------------------------------------------------------------------------------------

  lemma {:induction false} AllGrow(u: Setup, s: World, op: Op, db': Db)
    requires Inv(u, s) && ApplyOp(u.cfg, s.db, op) == Some(db')
    ensures Replay(u.cfg, EmptyDb, s.history + [op]) == Some(db')
    ensures DbOk(u.cfg, db')
    ensures forall k :: k in s.caches ==> CachedOk(u.cfg, db', k.w, s.caches[k])
    ensures forall t :: t in s.txns ==> TxnOk(u.cfg, db', s.txns[t])
  {
    assert (s.history + [op])[..|s.history|] == s.history;
    ApplyOpKeeps(u.cfg, s.db, op, db');
    forall k | k in s.caches ensures CachedOk(u.cfg, db', k.w, s.caches[k]) {
      assert Grows(s.db, db', k.w);
      CachedGrows(u.cfg, s.db, db', k.w, s.caches[k]);
    }
    forall t | t in s.txns ensures TxnOk(u.cfg, db', s.txns[t]) {
      TxnGrows(u.cfg, s.db, db', s.txns[t]);
    }
  }

  lemma {:induction false} ReadyCommitKeepsInv(u: Setup, s: World, t: TxnId, s': World)
    requires FrameworkNotFinal(u.cfg.wf) && Inv(u, s) && t in s.txns && s.txns[t].Ready?
    requires CommitOp(u.cfg, s.db, s.txns[t].op, s.txns[t].base, s.txns[t].es) == Committed(s'.db)
    requires s'.caches == s.caches && s'.history == s.history + [s.txns[t].op]
    requires s'.txns == s.txns[t := Written(s.txns[t].p, s.txns[t].op.w, ResultOf(u.cfg, s.txns[t].base, s.txns[t].es),
                                            ActionAfter(u.cfg.wf, s.txns[t].op, s.txns[t].es))]
    ensures Inv(u, s')
  {
    var Ready(p, op, base, es) := s.txns[t];
    assert TxnOk(u.cfg, s.db, s.txns[t]);
    assert TxnOk(u.cfg, s'.db, s'.txns[t]) by {
      WrittenOk(u, s.db, p, op, base, es, s'.db);
    }
    CommitIsSerial(u.cfg, s.db, op, base, es, s'.db);
    AllGrow(u, s, op, s'.db);
  }

  lemma {:induction false} FireCommitKeepsInv(u: Setup, s: World, t: TxnId, db': Db)
    requires Inv(u, s) && t in s.txns && s.txns[t].Firing?
    requires var Firing(op, version) := s.txns[t];
             op.Fire? && FireAt(s.db, op.w, op.delayId, op.row, version + 1) == Committed(db')
    ensures Inv(u, World(db', s.caches, s.txns - {t}, s.history + [s.txns[t].op]))
  {
    var Firing(op, version) := s.txns[t];
    assert TxnOk(u.cfg, s.db, s.txns[t]) && LogOk(u.cfg, s.db, op.w);
    HeadOf(s.db.events, op.w, Head(s.db, op.w));
    AllGrow(u, s, op, db');
  }

  lemma {:induction false} CommitKeepsInv(u: Setup, s: World, t: TxnId, s': World)
    requires FrameworkNotFinal(u.cfg.wf)
    requires Inv(u, s) && Take(u, s, WriteAndCommit(t)) == Some(s')
    ensures Inv(u, s')
  {
    if s'.history == s.history {
      assert s' == s.(txns := s.txns - {t});
    } else if s.txns[t].Ready? {
      ReadyCommitKeepsInv(u, s, t, s');
    } else {
      FireCommitKeepsInv(u, s, t, s'.db);
    }
  }

  lemma {:induction false} DecidedKeepsInv(u: Setup, s: World, t: TxnId, p: ProcId, op: Op, base: Option<Stored>)
    requires Inv(u, s) && Decides(op) && (Loads(op) <==> base.Some?)
    requires base.Some? ==> BaseOk(u.cfg, s.db, op.w, base.value)
    ensures Inv(u, Decided(u.cfg, s, t, p, op, base))
  {
  }

  lemma {:induction false} ReadEventsKeepsInv(u: Setup, s: World, t: TxnId, s': World)
    requires Inv(u, s) && Take(u, s, ReadEvents(t)) == Some(s')
    ensures Inv(u, s')
  {
    var Loading(p, op, snap) := s.txns[t];
    assert TxnOk(u.cfg, s.db, s.txns[t]) && LogOk(u.cfg, s.db, op.w);
    SplitLoadOk(u.cfg, s.db, op.w, snap);
    var b := LoadFrom(u.cfg, s.db.events, op.w, snap, None);
    if b.Some? { DecidedKeepsInv(u, s, t, p, op, b); }
  }

  lemma {:induction false} SnapshotStepsKeepInv(u: Setup, s: World, step: Step, s': World)
    requires step.ReadSnapshot? || step.ReadMax?
    requires Inv(u, s) && Take(u, s, step) == Some(s')
    ensures Inv(u, s')
  {
    assert LogOk(u.cfg, s.db, step.op.w);
    HeadOf(s.db.events, step.op.w, Head(s.db, step.op.w));
  }

  lemma {:induction false} StepKeepsInv(u: Setup, s: World, step: Step, s': World)
    requires FrameworkNotFinal(u.cfg.wf)
    requires Inv(u, s) && Take(u, s, step) == Some(s')
    ensures Inv(u, s')
  {
    match step
    case WriteAndCommit(t) => CommitKeepsInv(u, s, t, s');
    case RegisterDelay(op) => AllGrow(u, s, op, s'.db);
    case WriteCache(t) =>
    case Evict(_) =>
    case Abandon(_) =>
    case BeginCreate(t, p, op) => DecidedKeepsInv(u, s, t, p, op, None);
    case UseCache(t, p, op) => DecidedKeepsInv(u, s, t, p, op, Some(s.caches[CacheKey(p, op.w)]));
    case ReadEvents(t) => ReadEventsKeepsInv(u, s, t, s');
    case _ => SnapshotStepsKeepInv(u, s, step, s');
  }

  lemma {:induction false} RunKeepsInv(u: Setup, s: World, steps: seq<Step>, s': World)
    requires FrameworkNotFinal(u.cfg.wf)
    requires Inv(u, s) && Run(u, s, steps) == Some(s')
    ensures Inv(u, s')
    decreases |steps|
  {
    if steps != [] {
      var r := Run(u, s, steps[..|steps| - 1]).value;
      RunKeepsInv(u, s, steps[..|steps| - 1], r);
      StepKeepsInv(u, r, steps[|steps| - 1], s');
    }
  }

  lemma {:induction false} StartInv(u: Setup)
    ensures Inv(u, Start)
  {
    EmptyDbOk(u.cfg);
  }

  // ---------------------------------------------------------------------------------------------
  // Theorems over every interleaving
  // ---------------------------------------------------------------------------------------------

  ghost predicate Reachable(u: Setup, steps: seq<Step>, s: World) { Run(u, Start, steps) == Some(s) }

  lemma {:induction false} ReachableInv(u: Setup, steps: seq<Step>, s: World)
    requires FrameworkNotFinal(u.cfg.wf) && Reachable(u, steps, s)
    ensures Inv(u, s)
  {
    StartInv(u);
    RunKeepsInv(u, Start, steps, s);
  }

  /** Serializability: whatever was interleaved, the database is the one the committed calls build alone. */
  lemma {:induction false} Serializable(u: Setup, steps: seq<Step>, s: World)
    requires FrameworkNotFinal(u.cfg.wf) && Reachable(u, steps, s)
    ensures Replay(u.cfg, EmptyDb, s.history) == Some(s.db)
  {
    ReachableInv(u, steps, s);
  }

  /**
   Every log is exactly 1..n and is tiled by the batches of its committed calls; each batch stands right
   behind the log that its call found at its place in commit order, and was decided on the fold of that log.
   */
  lemma {:induction false} OptimisticConcurrency(u: Setup, steps: seq<Step>, s: World)
    requires FrameworkNotFinal(u.cfg.wf) && Reachable(u, steps, s)
    ensures forall w :: Contiguous(s.db.events, w, Head(s.db, w))
    ensures forall w :: Log(s.db, w) == BatchesOf(u.cfg, s.history, w)
    ensures forall i :: 0 <= i < |s.history| && Decides(s.history[i]) ==>
              var op, before := s.history[i], DbBefore(u.cfg, s.history, i);
              before.Some? && DecidedOnPrefix(u.cfg, s.db, op, Head(before.value, op.w), Batch(u.cfg, before.value, op))
  {
    ReachableInv(u, steps, s);
    forall w ensures Contiguous(s.db.events, w, Head(s.db, w)) && Log(s.db, w) == BatchesOf(u.cfg, s.history, w) {
      assert LogOk(u.cfg, s.db, w);
      LogIsBatches(u.cfg, s.history, s.db, w);
    }
    forall i | 0 <= i < |s.history| && Decides(s.history[i])
      ensures var op, before := s.history[i], DbBefore(u.cfg, s.history, i);
              before.Some? && DecidedOnPrefix(u.cfg, s.db, op, Head(before.value, op.w), Batch(u.cfg, before.value, op))
    {
      SerialDecisions(u.cfg, s.history, s.db, i);
    }
  }

  /** In every reachable state a version-checked cache hit returns what a cold load would. */
  lemma {:induction false} CheckedCacheIsColdLoad(u: Setup, steps: seq<Step>, s: World, p: ProcId, w: Id)
    requires FrameworkNotFinal(u.cfg.wf) && Reachable(u, steps, s)
    ensures var k := CacheKey(p, w);
            var cached := if k in s.caches then Some(s.caches[k]) else None;
            && CurrentState(u.cfg, s.db, w, cached, false) == Load(u.cfg, s.db, w, None)
            && (cached.Some? ==> CachedOk(u.cfg, s.db, w, cached.value))
  {
    ReachableInv(u, steps, s);
    assert LogOk(u.cfg, s.db, w);
    var k := CacheKey(p, w);
    if k in s.caches && s.caches[k].version == Head(s.db, w) {
      BaseAtHeadIsLoad(u.cfg, s.db, w, s.caches[k]);
    }
  }

  /** In every reachable state, snapshot plus suffix is the full replay, unless a final event hides under the snapshot. */
  lemma {:induction false} LoadIsReplayEverywhere(u: Setup, steps: seq<Step>, s: World, w: Id, at: Option<int>)
    requires FrameworkNotFinal(u.cfg.wf) && Reachable(u, steps, s)
    ensures Load(u.cfg, s.db, w, at) == FullReplay(u.cfg, s.db, w, at) <==> !FinalOnSnapshot(u.cfg, s.db, w, at)
  {
    ReachableInv(u, steps, s);
    assert LogOk(u.cfg, s.db, w);
    LoadIsFullReplay(u.cfg, s.db, w, at);
  }

  lemma {:induction false} HistoryGrows(u: Setup, s: World, steps: seq<Step>, s': World)
    requires Run(u, s, steps) == Some(s')
    ensures s.history <= s'.history
    decreases |steps|
  {
    if steps != [] {
      HistoryGrows(u, s, steps[..|steps| - 1], Run(u, s, steps[..|steps| - 1]).value);
    }
  }

  /** The later database is the earlier one after the calls that were committed in between. */
  lemma {:induction false} LaterIsReplay(u: Setup, a: seq<Step>, s: World, b: seq<Step>, s': World)
    requires FrameworkNotFinal(u.cfg.wf) && Reachable(u, a, s) && Run(u, s, b) == Some(s')
    ensures s.history <= s'.history
    ensures Replay(u.cfg, s.db, s'.history[|s.history|..]) == Some(s'.db) && DbOk(u.cfg, s.db)
  {
    ReachableInv(u, a, s);
    RunKeepsInv(u, s, b, s');
    HistoryGrows(u, s, b, s');
    assert s'.history == s.history + s'.history[|s.history|..];
    ReplayConcat(u.cfg, EmptyDb, s.history, s'.history[|s.history|..]);
  }

  /**
   Once w is cancelled it stays cancelled, no transaction of any process commits a command or a
   lifecycle call on it, and only delay_complete rows follow.
   */
  lemma {:induction false} CancellationIsAbsorbing(u: Setup, a: seq<Step>, s: World, b: seq<Step>, s': World, w: Id)
    requires FrameworkNotFinal(u.cfg.wf) && KeepsBase(u.cfg.wf)
    requires Reachable(u, a, s) && IsCancelled(u.cfg, s.db, w) && Run(u, s, b) == Some(s')
    ensures IsCancelled(u.cfg, s'.db, w) && OnlyDelaysAfter(Log(s.db, w), Log(s'.db, w))
    ensures s.history <= s'.history && NoOrders(s'.history[|s.history|..], w)
  {
    LaterIsReplay(u, a, s, b, s');
    HeldThroughout(u.cfg, s.db, s'.history[|s.history|..], s'.db, w, Cancelled);
  }

  /** A paused workflow takes no command from any process until a resume or a cancel of it is committed. */
  lemma {:induction false} PausedUntilLifted(u: Setup, a: seq<Step>, s: World, b: seq<Step>, s': World, w: Id)
    requires FrameworkNotFinal(u.cfg.wf) && KeepsBase(u.cfg.wf)
    requires Reachable(u, a, s) && Held(u.cfg, s.db, w, Paused) && Run(u, s, b) == Some(s')
    ensures s.history <= s'.history
    ensures var later := s'.history[|s.history|..];
            NeverLifted(later, w, Paused) ==>
              Held(u.cfg, s'.db, w, Paused) && OnlyDelaysAfter(Log(s.db, w), Log(s'.db, w)) && NoOrders(later, w)
  {
    LaterIsReplay(u, a, s, b, s');
    if NeverLifted(s'.history[|s.history|..], w, Paused) {
      HeldThroughout(u.cfg, s.db, s'.history[|s.history|..], s'.db, w, Paused);
    }
  }

  /** The commit of a CancelWorkflow transaction cancels. */
  lemma {:induction false} CancelCommitCancels(u: Setup, a: seq<Step>, s: World, t: TxnId, s': World)
    requires FrameworkNotFinal(u.cfg.wf) && KeepsBase(u.cfg.wf) && BornByUser(u.cfg.wf)
    requires Reachable(u, a, s) && t in s.txns && s.txns[t].Ready? && s.txns[t].op.Cancel?
    requires Take(u, s, WriteAndCommit(t)) == Some(s') && s'.history != s.history
    ensures IsCancelled(u.cfg, s'.db, s.txns[t].op.w)
  {
    ReachableInv(u, a, s);
    var Ready(p, op, base, es) := s.txns[t];
    assert TxnOk(u.cfg, s.db, s.txns[t]);
    CommitIsSerial(u.cfg, s.db, op, base, es, s'.db);
    CancelCancels(u.cfg, s.history, s.db, op.w, op.reason, s'.db);
  }
}
