/**
 The repository object against the machine of module Interleaving.  Each call of a process, with its LRU
 cache, is a run of the machine: the statements it executes are steps that are enabled, and it ends in the
 database, the history and the cached states that the call leaves.  So what Interleaving proves about every
 run holds of everything that repositories do, one call after the other, or cut into their statements and
 interleaved.  An entry that the LRU drops is an Evict step; a refused call ends without a trace.
 */
module RepositoryRuns {
  import opened Wrappers
  import opened WorkflowModel
  import opened EventStore
  import opened SerialHistory
  import opened EphemeralStorage
  import opened Repository
  import opened Interleaving
  import opened Reachability

  // ---------------------------------------------------------------------------------------------
  // The cache of a process
  // ---------------------------------------------------------------------------------------------

  function Cached(s: World, p: ProcId, w: Id): Option<Stored> {
    if CacheKey(p, w) in s.caches then Some(s.caches[CacheKey(p, w)]) else None
  }

  /** The machine's entries of process p are those of its LRU cache. */
  ghost predicate SameCache(s: World, p: ProcId, c: Lru) {
    DistinctKeys(c.entries) && forall w :: Cached(s, p, w) == Find(c.entries, w)
  }

  /** The state after a call: what it wrote, p's cache, and everything else as it was. */
  ghost predicate Left(s: World, p: ProcId, op: Op, a: After, wrote: bool, s': World) {
    && s'.db == a.db && s'.txns == s.txns && s'.history == s.history + (if wrote then [op] else [])
    && SameCache(s', p, a.cache) && forall q, w :: q != p ==> Cached(s', q, w) == Cached(s, q, w)
  }

  lemma {:induction false} RunOne(u: Setup, s: World, step: Step)
    ensures Run(u, s, [step]) == Take(u, s, step)
  {
    RunSnoc(u, s, [], step);
    assert [] + [step] == [step];
  }

  lemma {:induction false} RunTwo(u: Setup, s: World, a: seq<Step>, r: World, step: Step, s': World)
    requires Run(u, s, a) == Some(r) && Take(u, r, step) == Some(s')
    ensures Run(u, s, a + [step]) == Some(s')
  {
    RunSnoc(u, s, a, step);
  }

  lemma {:induction false} FindLast(es: seq<Entry>, j: Id)
    requires DistinctKeys(es) && es != []
    ensures Find(ButLast(es), j) == if j == es[|es| - 1].key then None else Find(es, j)
  {
    var front, last := ButLast(es), es[|es| - 1];
    assert es == front + [last];
    if |es| > 1 {
      FindLast(es[1..], j);
      assert ButLast(es)[1..] == ButLast(es[1..]);
    }
  }

  lemma {:induction false} FindPut(c: Lru, k: Id, v: Stored, j: Id)
    requires DistinctKeys(c.entries)
    ensures Find(PutIn(c, k, v).entries, j) ==
            if j == k then Some(v)
            else if Find(c.entries, k).None? && c.entries != [] && |c.entries| >= c.maxSize && j == c.entries[|c.entries| - 1].key then None
            else Find(c.entries, j)
  {
    var es := c.entries;
    var rest := if Find(es, k).Some? then Drop(es, k) else if |es| >= c.maxSize then ButLast(es) else es;
    FindBehind(Entry(k, v), rest, j);
    if Find(es, k).Some? {
      if j != k { FindDrop(es, k, j); }
    } else if es != [] && |es| >= c.maxSize {
      FindLast(es, j);
    }
  }

  // ---------------------------------------------------------------------------------------------
  // The cache write
  // ---------------------------------------------------------------------------------------------

  /** The key that a put drops, if it drops one. */
  function Victim(c: Lru, w: Id): Option<Id> {
    if Find(c.entries, w).None? && c.entries != [] && |c.entries| >= c.maxSize then Some(c.entries[|c.entries| - 1].key) else None
  }

  lemma {:induction false} PutCaches(s: World, p: ProcId, c: Lru, w: Id, v: Stored, s': World)
    requires SameCache(s, p, c)
    requires var put := s.caches[CacheKey(p, w) := v];
             s'.caches == match Victim(c, w) { case None => put case Some(j) => put - {CacheKey(p, j)} }
    ensures SameCache(s', p, PutIn(c, w, v)) && forall q, x :: q != p ==> Cached(s', q, x) == Cached(s, q, x)
  {
    var es := c.entries;
    PutEntries(c, w, v);
    assert Victim(c, w).Some? ==> es[|es| - 1] in es && Victim(c, w).value != w;
    forall x ensures Cached(s', p, x) == Find(PutIn(c, w, v).entries, x) {
      FindPut(c, w, v, x);
      assert Cached(s, p, x) == Find(es, x);
    }
  }

  /** PutState as a cache write, followed by the eviction that it causes. */
  lemma {:induction false} PutRuns(u: Setup, s: World, t: TxnId, p: ProcId, c: Lru, w: Id, v: Stored) returns (steps: seq<Step>, s': World)
    requires t in s.txns && s.txns[t] == Written(p, w, v, CacheAction.Put) && SameCache(s, p, c)
    ensures Run(u, s, steps) == Some(s') && s'.db == s.db && s'.txns == s.txns - {t} && s'.history == s.history
    ensures SameCache(s', p, PutIn(c, w, v)) && forall q, x :: q != p ==> Cached(s', q, x) == Cached(s, q, x)
  {
    var r := s.(caches := s.caches[CacheKey(p, w) := v], txns := s.txns - {t});
    RunOne(u, s, WriteCache(t));
    steps, s' := [WriteCache(t)], r;
    if Victim(c, w).Some? {
      var k := CacheKey(p, Victim(c, w).value);
      s' := r.(caches := r.caches - {k});
      RunTwo(u, s, steps, r, Evict(k), s');
      steps := steps + [Evict(k)];
    }
    PutCaches(s, p, c, w, v, s');
  }

  lemma {:induction false} RemoveRuns(u: Setup, s: World, t: TxnId, p: ProcId, c: Lru, w: Id, v: Stored) returns (steps: seq<Step>, s': World)
    requires t in s.txns && s.txns[t] == Written(p, w, v, CacheAction.Remove) && SameCache(s, p, c)
    ensures Run(u, s, steps) == Some(s') && s'.db == s.db && s'.txns == s.txns - {t} && s'.history == s.history
    ensures SameCache(s', p, RemoveFrom(c, w)) && forall q, x :: q != p ==> Cached(s', q, x) == Cached(s, q, x)
  {
    s' := s.(caches := s.caches - {CacheKey(p, w)}, txns := s.txns - {t});
    steps := [WriteCache(t)];
    RunOne(u, s, WriteCache(t));
    DropKeeps(c.entries, w);
    forall x ensures Cached(s', p, x) == Find(RemoveFrom(c, w).entries, x) {
      GetAndRemoveKeep(c, w, x);
      assert Cached(s, p, x) == Find(c.entries, x);
    }
  }

  /** The cache as the call's action leaves it. */
  function CacheAfter(c: Lru, w: Id, v: Stored, action: CacheAction): Lru {
    match action case Put => PutIn(c, w, v) case Remove => RemoveFrom(c, w) case Leave => c
  }

  lemma {:induction false} CacheRuns(u: Setup, s: World, t: TxnId, p: ProcId, c: Lru, w: Id, v: Stored, action: CacheAction) returns (steps: seq<Step>, s': World)
    requires t in s.txns && s.txns[t] == Written(p, w, v, action) && SameCache(s, p, c)
    ensures Run(u, s, steps) == Some(s') && s'.db == s.db && s'.txns == s.txns - {t} && s'.history == s.history
    ensures SameCache(s', p, CacheAfter(c, w, v, action)) && forall q, x :: q != p ==> Cached(s', q, x) == Cached(s, q, x)
  {
    match action
    case Put => steps, s' := PutRuns(u, s, t, p, c, w, v);
    case Remove => steps, s' := RemoveRuns(u, s, t, p, c, w, v);
    case Leave =>
      s' := s.(txns := s.txns - {t});
      steps := [WriteCache(t)];
      RunOne(u, s, WriteCache(t));
      assert forall x :: Cached(s', p, x) == Cached(s, p, x);
  }

  // ---------------------------------------------------------------------------------------------
  // From the decision on
  // ---------------------------------------------------------------------------------------------

  /** The write, the commit and the cache, or the rollback. */
  lemma {:induction false} ReadyRuns(u: Setup, s: World, t: TxnId, p: ProcId, op: Op, base: Option<Stored>, es: seq<Event>, c: Lru, a: After)
    returns (steps: seq<Step>, s': World)
    requires t !in s.txns && es != [] && SameCache(s, p, c)
    requires match CommitOp(u.cfg, s.db, op, base, es)
             case Committed(db) => a.db == db && a.cache == CacheAfter(c, op.w, ResultOf(u.cfg, base, es), ActionAfter(u.cfg.wf, op, es))
             case _ => a.db == s.db && a.cache == c
    ensures Run(u, s.(txns := s.txns[t := Ready(p, op, base, es)]), steps) == Some(s')
    ensures Left(s, p, op, a, CommitOp(u.cfg, s.db, op, base, es).Committed?, s')
  {
    var ready := s.(txns := s.txns[t := Ready(p, op, base, es)]);
    var r := CommitOp(u.cfg, s.db, op, base, es);
    RunOne(u, ready, WriteAndCommit(t));
    if r.Committed? {
      var v, action := ResultOf(u.cfg, base, es), ActionAfter(u.cfg.wf, op, es);
      var next := World(r.db, s.caches, s.txns[t := Written(p, op.w, v, action)], s.history + [op]);
      assert ready.txns[t := Written(p, op.w, v, action)] == next.txns;
      assert forall q, x :: Cached(next, q, x) == Cached(s, q, x);
      var rest;
      rest, s' := CacheRuns(u, next, t, p, c, op.w, v, action);
      RunConcat(u, ready, [WriteAndCommit(t)], rest);
      steps := [WriteAndCommit(t)] + rest;
      assert next.txns - {t} == s.txns;
    } else {
      s' := ready.(txns := ready.txns - {t});
      steps := [WriteAndCommit(t)];
      assert s'.txns == s.txns;
      assert forall q, x :: Cached(s', q, x) == Cached(s, q, x);
    }
  }

  /** From a loaded state: the decision, and what follows from it. */
  lemma {:induction false} DecidedRuns(u: Setup, s: World, t: TxnId, p: ProcId, op: Op, base: Option<Stored>, c: Lru, a: After)
    returns (steps: seq<Step>, s': World)
    requires t !in s.txns && SameCache(s, p, c) && Decides(op) && (Loads(op) ==> base.Some?)
    requires match Decide(u.cfg.wf, op, StateOf(base))
             case None => a.db == s.db && a.cache == c
             case Some(es) =>
               match CommitOp(u.cfg, s.db, op, base, es)
               case Committed(db) => a.db == db && a.cache == CacheAfter(c, op.w, ResultOf(u.cfg, base, es), ActionAfter(u.cfg.wf, op, es))
               case _ => a.db == s.db && a.cache == c
    ensures Run(u, Decided(u.cfg, s, t, p, op, base), steps) == Some(s')
    ensures Left(s, p, op, a, ApplyDecided(u.cfg, s.db, op, base).Some?, s')
  {
    var d := Decide(u.cfg.wf, op, StateOf(base));
    if d.Some? {
      steps, s' := ReadyRuns(u, s, t, p, op, base, d.value, c, a);
    } else {
      steps, s' := [], s.(txns := s.txns - {t});
      assert s'.txns == s.txns;
      assert forall q, x :: Cached(s', q, x) == Cached(s, q, x);
    }
  }

  // ---------------------------------------------------------------------------------------------
  // The calls
  // ---------------------------------------------------------------------------------------------

  /** A call that ends before it does anything. */
  lemma {:induction false} NothingRuns(u: Setup, s: World, p: ProcId, op: Op, c: Lru, a: After)
    requires SameCache(s, p, c) && a.db == s.db && SameCache(s, p, a.cache)
    ensures Run(u, s, []) == Some(s) && Left(s, p, op, a, false, s)
  {
  }

  /** The two statements of a load, and the rest. */
  lemma {:induction false} LoadedRuns(u: Setup, s: World, t: TxnId, p: ProcId, op: Op, c: Lru, a: After) returns (steps: seq<Step>, s': World)
    requires t !in s.txns && SameCache(s, p, c) && Loads(op) && (op.Command? ==> Key(op.w, 1) in s.db.events)
    requires var base := Load(u.cfg, s.db, op.w, None);
             if base.None? then a.db == s.db && a.cache == c
             else match Decide(u.cfg.wf, op, StateOf(base))
               case None => a.db == s.db && a.cache == c
               case Some(es) =>
                 match CommitOp(u.cfg, s.db, op, base, es)
                 case Committed(db) => a.db == db && a.cache == CacheAfter(c, op.w, ResultOf(u.cfg, base, es), ActionAfter(u.cfg.wf, op, es))
                 case _ => a.db == s.db && a.cache == c
    ensures Run(u, s, steps) == Some(s')
    ensures var base := Load(u.cfg, s.db, op.w, None);
            Left(s, p, op, a, base.Some? && ApplyDecided(u.cfg, s.db, op, base).Some?, s')
  {
    var base := Load(u.cfg, s.db, op.w, None);
    steps := [ReadSnapshot(t, p, op)] + [ReadEvents(t)];
    LoadSteps(u, s, t, p, op);
    if base.Some? {
      var rest;
      rest, s' := DecidedRuns(u, s, t, p, op, base, c, a);
      RunConcat(u, s, steps, rest);
      steps := steps + rest;
    } else {
      s' := s.(txns := s.txns - {t});
      assert s'.txns == s.txns;
      assert forall q, x :: Cached(s', q, x) == Cached(s, q, x);
    }
  }

  lemma {:induction false} LoadSteps(u: Setup, s: World, t: TxnId, p: ProcId, op: Op)
    requires t !in s.txns && Loads(op) && (op.Command? ==> Key(op.w, 1) in s.db.events)
    ensures var base := Load(u.cfg, s.db, op.w, None);
            Run(u, s, [ReadSnapshot(t, p, op)] + [ReadEvents(t)]) ==
            Some(if base.Some? then Decided(u.cfg, s, t, p, op, base) else s.(txns := s.txns - {t}))
  {
    var snap := SnapshotFor(u.cfg, s.db, op.w, None);
    var r := s.(txns := s.txns[t := Loading(p, op, snap)]);
    RunOne(u, s, ReadSnapshot(t, p, op));
    RunSnoc(u, s, [ReadSnapshot(t, p, op)], ReadEvents(t));
    var base := Load(u.cfg, s.db, op.w, None);
    assert Take(u, r, ReadEvents(t)) == Some(if base.Some? then Decided(u.cfg, r, t, p, op, base) else r.(txns := r.txns - {t}));
    assert r.txns - {t} == s.txns - {t};
    assert forall es :: r.txns[t := Ready(p, op, base, es)] == s.txns[t := Ready(p, op, base, es)];
  }

  /** PauseWorkflow, ResumeWorkflow and CancelWorkflow. */
  lemma {:induction false} LifecycleRuns(u: Setup, s: World, t: TxnId, p: ProcId, op: Op, c: Lru) returns (steps: seq<Step>, s': World)
    requires t !in s.txns && SameCache(s, p, c) && IsLifecycle(op)
    ensures var a := LifecycleCall(u.cfg, s.db, c, op); Run(u, s, steps) == Some(s') && Left(s, p, op, a, a.outcome.Done?, s')
  {
    var base := Load(u.cfg, s.db, op.w, None);
    if base.Some? { LifecycleIs(u.cfg, s.db, c, op, base.value); }
    steps, s' := LoadedRuns(u, s, t, p, op, c, LifecycleCall(u.cfg, s.db, c, op));
  }

  lemma {:induction false} LifecycleIs(cfg: Config, db: Db, c: Lru, op: Op, b: Stored)
    requires IsLifecycle(op)
    ensures var a := LifecycleFrom(cfg, db, c, op, b);
            match Decide(cfg.wf, op, Some(b.state))
            case None => a.db == db && a.cache == c && !a.outcome.Done?
            case Some(es) =>
              match CommitOp(cfg, db, op, Some(b), es)
              case Committed(d) =>
                a.db == d && a.outcome.Done? && a.cache == CacheAfter(c, op.w, ResultOf(cfg, Some(b), es), ActionAfter(cfg.wf, op, es))
              case _ => a.db == db && a.cache == c && !a.outcome.Done?
  {
  }

  /** CreateNew. */
  lemma {:induction false} CreateRuns(u: Setup, s: World, t: TxnId, p: ProcId, op: Op, c: Lru) returns (steps: seq<Step>, s': World)
    requires t !in s.txns && SameCache(s, p, c) && op.Create?
    ensures var a := CreateCall(u.cfg, s.db, c, op.w, op.cmd); Run(u, s, steps) == Some(s') && Left(s, p, op, a, a.outcome.Done?, s')
  {
    var a := CreateCall(u.cfg, s.db, c, op.w, op.cmd);
    RunOne(u, s, BeginCreate(t, p, op));
    var rest;
    rest, s' := DecidedRuns(u, s, t, p, op, None, c, a);
    RunConcat(u, s, [BeginCreate(t, p, op)], rest);
    steps := [BeginCreate(t, p, op)] + rest;
  }

  /** One attempt of ProcessCommand, from the cache or by a load. */
  lemma {:induction false} AttemptRuns(u: Setup, s: World, t: TxnId, p: ProcId, op: Op, c: Lru) returns (steps: seq<Step>, s': World)
    requires t !in s.txns && SameCache(s, p, c) && op.Command?
    ensures var a := Attempt(u.cfg, u.trusts(p), s.db, c, op.w, op.cmd);
            Run(u, s, steps) == Some(s') && Left(s, p, op, a, a.outcome.Done? && a.outcome.events != [], s')
  {
    var a := Attempt(u.cfg, u.trusts(p), s.db, c, op.w, op.cmd);
    if Key(op.w, 1) !in s.db.events {
      NothingRuns(u, s, p, op, c, a);
      steps, s' := [], s;
    } else {
      var c', cached := GetFrom(c, op.w).0, GetFrom(c, op.w).1;
      HitKeepsCache(s, p, c, op.w);
      var base := CurrentState(u.cfg, s.db, op.w, cached, u.trusts(p));
      CommandIs(u.cfg, s.db, c', op, base);
      if cached.Some? && (u.trusts(p) || MaxVersion(s.db.events, op.w) == cached.value.version) {
        steps, s' := HitRuns(u, s, t, p, op, c', cached, a);
      } else {
        steps, s' := LoadedRuns(u, s, t, p, op, c', a);
      }
    }
  }

  lemma {:induction false} HitKeepsCache(s: World, p: ProcId, c: Lru, w: Id)
    requires SameCache(s, p, c)
    ensures SameCache(s, p, GetFrom(c, w).0) && GetFrom(c, w).1 == Cached(s, p, w)
  {
    GetEntries(c, w);
    forall x ensures Find(GetFrom(c, w).0.entries, x) == Cached(s, p, x) {
      GetAndRemoveKeep(c, w, x);
    }
    GetAndRemoveKeep(c, w, w);
  }

  lemma {:induction false} CommandIs(cfg: Config, db: Db, c: Lru, op: Op, base: Option<Stored>)
    requires op.Command?
    ensures var a := DecideAndWrite(cfg, db, c, op.w, op.cmd, base);
            var wrote := a.outcome.Done? && a.outcome.events != [];
            if base.None? then a.db == db && a.cache == c && !wrote
            else match Decide(cfg.wf, op, StateOf(base))
              case None => a.db == db && a.cache == c && !wrote
              case Some(es) =>
                match CommitOp(cfg, db, op, base, es)
                case Committed(d) =>
                  a.db == d && wrote && a.cache == CacheAfter(c, op.w, ResultOf(cfg, base, es), ActionAfter(cfg.wf, op, es))
                case _ => a.db == db && a.cache == c && !wrote
  {
  }

  lemma {:induction false} HitRuns(u: Setup, s: World, t: TxnId, p: ProcId, op: Op, c: Lru, base: Option<Stored>, a: After) returns (steps: seq<Step>, s': World)
    requires t !in s.txns && SameCache(s, p, c) && op.Command? && Key(op.w, 1) in s.db.events
    requires base.Some? && base == Cached(s, p, op.w) && (u.trusts(p) || MaxVersion(s.db.events, op.w) == base.value.version)
    requires match Decide(u.cfg.wf, op, StateOf(base))
             case None => a.db == s.db && a.cache == c
             case Some(es) =>
               match CommitOp(u.cfg, s.db, op, base, es)
               case Committed(db) => a.db == db && a.cache == CacheAfter(c, op.w, ResultOf(u.cfg, base, es), ActionAfter(u.cfg.wf, op, es))
               case _ => a.db == s.db && a.cache == c
    ensures Run(u, s, steps) == Some(s') && Left(s, p, op, a, ApplyDecided(u.cfg, s.db, op, base).Some?, s')
  {
    RunOne(u, s, UseCache(t, p, op));
    var rest;
    rest, s' := DecidedRuns(u, s, t, p, op, base, c, a);
    RunConcat(u, s, [UseCache(t, p, op)], rest);
    steps := [UseCache(t, p, op)] + rest;
  }
}
