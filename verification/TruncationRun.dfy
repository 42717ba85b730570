/** The truncation service beside the whole system of module Interleaving, the readers and the publisher. */
module TruncationRun {
  import opened Wrappers
  import opened WorkflowModel
  import opened EventStore
  import opened SerialHistory
  import opened GlobalOrder
  import opened OffsetsTable
  import opened Truncation
  import I = Interleaving

  // A cycle reads the smallest reader offset, later reads the snapshots, later still deletes, in any number of
  // statements.  `full` is the database that the committed calls build when nothing is deleted; the theorems
  // compare the real database with it.

  datatype Phase = Idle | HaveMin(min: int) | Sweeping(min: int, snaps: map<Id, int>)

  datatype World = World(sys: I.World, full: Db, readers: map<Reader, int>, published: set<int>, phase: Phase)

  datatype Step =
    | Sys(step: I.Step)
    | Advance(r: Reader, offset: int)
    | Publish(k: Key)
    | MarkPushed(k: Key)
    | ResetPushed(ks: set<Key>)
    | ReadMin(min: int)
    | ReadSnapshots(ws: set<Id>)
    | Delete(w: Id, ks: set<Key>)
    | EndCycle

  function SetEvents(s: World, t: Table): World { s.(sys := s.sys.(db := s.sys.db.(events := t))) }

  /** The full database after the calls `history`, when it was `full` after `before`. */
  ghost function Mirror(cfg: Config, full: Db, before: seq<Op>, history: seq<Op>): Db {
    if |history| <= |before| then full
    else match ApplyOp(cfg, full, history[|history| - 1]) { case Some(f) => f case None => full }
  }

  /** One step; None when it is not enabled. */
  ghost function Take(u: I.Setup, s: World, step: Step): Option<World> {
    var t := s.sys.db.events;
    match step
    case Sys(st) =>
      (match I.Take(u, s.sys, st)
       case Some(sys) => Some(s.(sys := sys, full := Mirror(u.cfg, s.full, s.sys.history, sys.history)))
       case None => None)
    case Advance(r, offset) =>
      if r !in s.readers || offset < s.readers[r] then None else Some(s.(readers := s.readers[r := offset]))
    case Publish(k) => if k !in t then None else Some(s.(published := s.published + {t[k].gid}))
    case MarkPushed(k) =>
      if k !in t || t[k].gid !in s.published then None else Some(SetEvents(s, t[k := t[k].(pushed := true)]))
    case ResetPushed(ks) => Some(SetEvents(s, Unpush(t, ks)))
    case ReadMin(m) =>
      if !s.phase.Idle? || !IsMin(s.readers, m) || m == 0 then None else Some(s.(phase := HaveMin(m)))
    case ReadSnapshots(ws) =>
      if !s.phase.HaveMin? then None
      else
        var snaps := map w | w in s.sys.db.snapshots && w in ws :: s.sys.db.snapshots[w].version;
        Some(s.(phase := Sweeping(s.phase.min, snaps)))
    case Delete(w, ks) =>
      if !s.phase.Sweeping? || w !in s.phase.snaps
         || !(forall k :: k in ks ==> Eligible(t, k, w, s.phase.snaps[w], s.phase.min)) then None
      else Some(SetEvents(s, Without(t, ks)))
    case EndCycle => Some(s.(phase := Idle))
  }

  ghost function Run(u: I.Setup, s: World, steps: seq<Step>): Option<World> {
    if steps == [] then Some(s)
    else match Run(u, s, steps[..|steps| - 1])
      case None => None
      case Some(r) => Take(u, r, steps[|steps| - 1])
  }

  function Start(names: set<Reader>): World {
    World(I.Start, EmptyDb, map r | r in names :: 0, {}, Idle)
  }

  // ---------------------------------------------------------------------------------------------
  // The hypothesis on a run
  // ---------------------------------------------------------------------------------------------

  /** The version right above the state that the transaction was decided on. */
  function NextVersion(txn: I.Txn): Option<Key> {
    match txn
    case Ready(_, op, base, _) => Some(Key(op.w, BaseVersion(base) + 1))
    case Firing(op, version) => Some(Key(op.w, version + 1))
    case _ => None
  }

  /**
   No transaction commits where a row was deleted.  Such a transaction is one that was overtaken: its load
   was torn, or waited long, or came from a stale trusted cache, or it creates an id that was used before.
   */
  ghost predicate Careful(u: I.Setup, s: World, step: Step) {
    step.Sys? && step.step.WriteAndCommit? && step.step.t in s.sys.txns && Commits(u, s, step.step) ==>
      var next := NextVersion(s.sys.txns[step.step.t]);
      next.Some? ==> !Gone(s.sys.db.events, s.full.events, next.value)
  }

  ghost predicate Commits(u: I.Setup, s: World, step: I.Step) {
    var r := I.Take(u, s.sys, step); r.Some? && r.value.history != s.sys.history
  }

  ghost predicate CarefulRun(u: I.Setup, s: World, steps: seq<Step>) {
    steps != [] ==>
      && CarefulRun(u, s, steps[..|steps| - 1])
      && match Run(u, s, steps[..|steps| - 1]) { case Some(r) => Careful(u, r, steps[|steps| - 1]) case None => true }
  }

  // ---------------------------------------------------------------------------------------------
  // The invariant
  // ---------------------------------------------------------------------------------------------

  ghost predicate GoneWasRead(s: World) {
    forall k, r :: Gone(s.sys.db.events, s.full.events, k) && r in s.readers ==> s.full.events[k].gid < s.readers[r]
  }

  ghost predicate GoneWasPublished(s: World) {
    forall k :: Gone(s.sys.db.events, s.full.events, k) ==> s.full.events[k].gid in s.published
  }

  ghost predicate PushedWasPublished(s: World) {
    forall k :: k in s.sys.db.events && s.sys.db.events[k].pushed ==> s.sys.db.events[k].gid in s.published
  }

  ghost predicate PhaseOk(s: World) {
    && (!s.phase.Idle? ==> forall r :: r in s.readers ==> s.phase.min <= s.readers[r])
    && (s.phase.Sweeping? ==> forall w :: w in s.phase.snaps ==>
          w in s.full.snapshots && s.phase.snaps[w] <= s.full.snapshots[w].version)
  }

  ghost predicate SweepOk(s: World) { GoneWasRead(s) && GoneWasPublished(s) && PushedWasPublished(s) && PhaseOk(s) }

  /** The log has grown past the state that the transaction was decided on. */
  ghost predicate Behind(full: Db, txn: I.Txn) {
    match txn
    case Ready(_, op, base, _) => 0 <= BaseVersion(base) < Head(full, op.w)
    case Firing(op, version) => 0 <= version < Head(full, op.w)
    case _ => false
  }

  ghost function Current(full: Db, txns: map<I.TxnId, I.Txn>): map<I.TxnId, I.Txn> {
    map t | t in txns && !Behind(full, txns[t]) :: txns[t]
  }

  /** The system over the full database, without the transactions that can only fail there. */
  ghost function Untruncated(s: World): I.World {
    I.World(s.full, s.sys.caches, Current(s.full, s.sys.txns), s.sys.history)
  }

  /** The real database is a part of the full one, on which the system satisfies its own invariant. */
  ghost predicate SysOk(u: I.Setup, s: World) { Shadow(u.cfg, s.sys.db, s.full) && I.Inv(u, Untruncated(s)) }

  ghost predicate Inv(u: I.Setup, s: World) { SysOk(u, s) && SweepOk(s) }

  /** What a load returns is the fold of a prefix of the full log, or its version is below the head. */
  lemma {:induction false} TornOrFold(cfg: Config, db: Db, full: Db, w: Id, snap: Option<Snapshot>)
    requires Shadow(cfg, db, full) && (snap.Some? ==> I.SnapOk(cfg, full, w, snap.value))
    ensures var r := LoadFrom(cfg, db.events, w, snap, None);
            r.Some? ==> I.BaseOk(cfg, full, w, r.value) || r.value.version < Head(full, w)
  {
    var lo, n := if snap.Some? then snap.value.version else 0, Head(full, w);
    assert LogOk(cfg, full, w);
    SameHead(cfg, db, full, w);
    SelectShrinks(db.events, full.events, w, lo, n);
    LoadSuffix(cfg, db.events, w, snap, None, SelectEvents(db.events, w, lo, n));
    if forall v :: lo < v <= n ==> Key(w, v) in db.events {
      SelectSame(db.events, full.events, w, lo, n);
      LoadFromSame(cfg, db.events, full.events, w, snap, None);
      I.SplitLoadOk(cfg, full, w, snap);
    }
  }

  // ---------------------------------------------------------------------------------------------
  // Steps of the system that commit nothing
  // ---------------------------------------------------------------------------------------------

  /** The same system with fewer transactions in flight. */
  lemma {:induction false} FewerTxns(u: I.Setup, a: I.World, b: I.World)
    requires I.Inv(u, a) && b.db == a.db && b.caches == a.caches && b.history == a.history
    requires forall t :: t in b.txns ==> t in a.txns && a.txns[t] == b.txns[t]
    ensures I.Inv(u, b)
  {
  }

  /** Only the transactions changed, and each new one is sound or behind. */
  lemma {:induction false} TxnStep(u: I.Setup, s: World, s': World)
    requires SysOk(u, s) && s' == s.(sys := s.sys.(txns := s'.sys.txns))
    requires forall t :: t in s'.sys.txns ==>
               || (t in s.sys.txns && s.sys.txns[t] == s'.sys.txns[t])
               || I.TxnOk(u.cfg, s.full, s'.sys.txns[t]) || Behind(s.full, s'.sys.txns[t])
    ensures SysOk(u, s')
  {
    forall t | t in Untruncated(s').txns ensures I.TxnOk(u.cfg, s.full, Untruncated(s').txns[t]) {
      assert t in s.sys.txns && s.sys.txns[t] == s'.sys.txns[t] ==> t in Untruncated(s).txns;
    }
  }

  lemma {:induction false} DecidedKeeps(u: I.Setup, s: World, t: I.TxnId, p: I.ProcId, op: Op, base: Option<Stored>, s': World)
    requires SysOk(u, s) && Decides(op) && (Loads(op) <==> base.Some?)
    requires base.Some? ==> I.BaseOk(u.cfg, s.full, op.w, base.value) || 0 <= base.value.version < Head(s.full, op.w)
    requires s' == s.(sys := I.Decided(u.cfg, s.sys, t, p, op, base))
    ensures SysOk(u, s')
  {
    TxnStep(u, s, s');
  }

  lemma {:induction false} BeginKeeps(u: I.Setup, s: World, st: I.Step, s': World)
    requires SysOk(u, s) && (st.BeginCreate? || st.UseCache?)
    requires I.Take(u, s.sys, st) == Some(s'.sys) && s' == s.(sys := s'.sys)
    ensures SysOk(u, s')
  {
    var base := if st.UseCache? then Some(s.sys.caches[I.CacheKey(st.p, st.op.w)]) else None;
    DecidedKeeps(u, s, st.t, st.p, st.op, base, s');
  }

  lemma {:induction false} ReadEventsKeeps(u: I.Setup, s: World, t: I.TxnId, s': World)
    requires SysOk(u, s) && I.Take(u, s.sys, I.ReadEvents(t)) == Some(s'.sys) && s' == s.(sys := s'.sys)
    ensures SysOk(u, s')
  {
    var p, op, snap := s.sys.txns[t].p, s.sys.txns[t].op, s.sys.txns[t].snap;
    assert t in Untruncated(s).txns && I.TxnOk(u.cfg, s.full, s.sys.txns[t]);
    TornOrFold(u.cfg, s.sys.db, s.full, op.w, snap);
    var b := LoadFrom(u.cfg, s.sys.db.events, op.w, snap, None);
    if b.Some? {
      DecidedKeeps(u, s, t, p, op, b, s');
    } else {
      TxnStep(u, s, s');
    }
  }

  lemma {:induction false} ReadKeeps(u: I.Setup, s: World, st: I.Step, s': World)
    requires SysOk(u, s) && (st.ReadSnapshot? || st.ReadMax?)
    requires I.Take(u, s.sys, st) == Some(s'.sys) && s' == s.(sys := s'.sys)
    ensures SysOk(u, s')
  {
    assert LogOk(u.cfg, s.full, st.op.w);
    HeadSurvives(u.cfg, s.sys.db, s.full, st.op.w);
    HeadOf(s.full.events, st.op.w, Head(s.full, st.op.w));
    TxnStep(u, s, s');
  }

  lemma {:induction false} CacheKeeps(u: I.Setup, s: World, st: I.Step, s': World)
    requires SysOk(u, s) && (st.WriteCache? || st.Evict? || st.Abandon?)
    requires I.Take(u, s.sys, st) == Some(s'.sys) && s' == s.(sys := s'.sys)
    ensures SysOk(u, s')
  {
    if st.WriteCache? {
      assert st.t in Untruncated(s).txns && I.TxnOk(u.cfg, s.full, s.sys.txns[st.t]);
    }
    assert forall t :: t in Untruncated(s').txns ==> t in Untruncated(s).txns;
  }

  // ---------------------------------------------------------------------------------------------
  // Steps of the system that commit
  // ---------------------------------------------------------------------------------------------

  /** A commit that both databases take part in. */
  ghost predicate BothCommit(s: World, s': World) {
    SameCall(s.sys.db, s.full, s'.sys.db, s'.full) && Extends(s.full, s'.full)
  }

  lemma {:induction false} ShadowAfter(u: I.Setup, s: World, s': World)
    requires Shadow(u.cfg, s.sys.db, s.full) && BothCommit(s, s') && DbOk(u.cfg, s'.full)
    ensures Shadow(u.cfg, s'.sys.db, s'.full)
  {
    forall k | Gone(s'.sys.db.events, s'.full.events, k)
      ensures k.w in s'.full.snapshots && k.v < s'.full.snapshots[k.w].version
    {
      assert Grows(s.full, s'.full, k.w);
    }
  }

  lemma {:induction false} BehindStays(full: Db, full': Db, txn: I.Txn)
    requires Extends(full, full') && Behind(full, txn)
    ensures Behind(full', txn)
  {
    assert Grows(full, full', txn.op.w);
  }

  /** The database after the commit, given the system that the same commit makes of the full one. */
  lemma {:induction false} CommitKeeps(u: I.Setup, s: World, w': I.World, s': World)
    requires SysOk(u, s) && BothCommit(s, s') && I.Inv(u, w')
    requires w'.db == s'.full && w'.caches == s'.sys.caches && w'.history == s'.sys.history
    requires forall t :: t in s'.sys.txns && !Behind(s.full, s'.sys.txns[t]) ==> t in w'.txns && w'.txns[t] == s'.sys.txns[t]
    ensures SysOk(u, s')
  {
    ShadowAfter(u, s, s');
    forall t | t in s'.sys.txns && !Behind(s'.full, s'.sys.txns[t]) ensures t in w'.txns && w'.txns[t] == s'.sys.txns[t] {
      if Behind(s.full, s'.sys.txns[t]) { BehindStays(s.full, s'.full, s'.sys.txns[t]); }
    }
    FewerTxns(u, w', Untruncated(s'));
  }

  /** A transaction that is behind cannot commit unless the row above its state was deleted. */
  lemma {:induction false} BehindConflicts(u: I.Setup, s: World, t: I.TxnId)
    requires Shadow(u.cfg, s.sys.db, s.full) && t in s.sys.txns && Behind(s.full, s.sys.txns[t])
    requires Commits(u, s, I.WriteAndCommit(t))
    ensures Gone(s.sys.db.events, s.full.events, NextVersion(s.sys.txns[t]).value)
  {
    var txn := s.sys.txns[t];
    assert LogOk(u.cfg, s.full, txn.op.w);
    var k := NextVersion(txn).value;
    assert k in s.full.events;
  }

  lemma {:induction false} ReadyAtHead(u: I.Setup, s: World, t: I.TxnId)
    requires SysOk(u, s) && t in s.sys.txns && s.sys.txns[t].Ready? && !Behind(s.full, s.sys.txns[t])
    ensures I.TxnOk(u.cfg, s.full, s.sys.txns[t])
    ensures BaseVersion(s.sys.txns[t].base) == Head(s.full, s.sys.txns[t].op.w)
  {
    assert t in Untruncated(s).txns;
    assert LogOk(u.cfg, s.full, s.sys.txns[t].op.w);
  }

  /** The full database accepts the same call and writes the same rows. */
  lemma {:induction false} ReadyOnFull(u: I.Setup, s: World, t: I.TxnId, db': Db)
    requires SysOk(u, s) && t in s.sys.txns && s.sys.txns[t].Ready? && !Behind(s.full, s.sys.txns[t])
    requires s.sys.txns[t].es != [] && CommitOp(u.cfg, s.sys.db, s.sys.txns[t].op, s.sys.txns[t].base, s.sys.txns[t].es) == Committed(db')
    ensures var r := CommitOp(u.cfg, s.full, s.sys.txns[t].op, s.sys.txns[t].base, s.sys.txns[t].es);
            && r.Committed? && ApplyOp(u.cfg, s.full, s.sys.txns[t].op) == Some(r.db)
            && SameCall(s.sys.db, s.full, db', r.db) && Extends(s.full, r.db)
  {
    var op, base, es := s.sys.txns[t].op, s.sys.txns[t].base, s.sys.txns[t].es;
    ReadyAtHead(u, s, t);
    CommitMirrors(u.cfg, s.sys.db, s.full, op.w, BaseVersion(base), StateOf(base), es, db');
    var full' := CommitOp(u.cfg, s.full, op, base, es).db;
    I.CommitIsSerial(u.cfg, s.full, op, base, es, full');
    ApplyOpKeeps(u.cfg, s.full, op, full');
  }

  /** What a step that commits `op` leaves in both databases. */
  ghost predicate Moved(u: I.Setup, s: World, op: Op, s': World) {
    && s' == s.(sys := s'.sys, full := s'.full) && s'.sys.history == s.sys.history + [op]
    && s'.sys.caches == s.sys.caches
    && s'.full == match ApplyOp(u.cfg, s.full, op) { case Some(f) => f case None => s.full }
  }

  lemma {:induction false} ReadyMoves(u: I.Setup, s: World, t: I.TxnId, s': World)
    requires t in s.sys.txns && s.sys.txns[t].Ready? && Commits(u, s, I.WriteAndCommit(t))
    requires Take(u, s, Sys(I.WriteAndCommit(t))) == Some(s')
    ensures var op, base, es := s.sys.txns[t].op, s.sys.txns[t].base, s.sys.txns[t].es;
            && es != [] && CommitOp(u.cfg, s.sys.db, op, base, es) == Committed(s'.sys.db) && Moved(u, s, op, s')
            && s'.sys.txns == s.sys.txns[t := I.Written(s.sys.txns[t].p, op.w, ResultOf(u.cfg, base, es),
                                                        I.ActionAfter(u.cfg.wf, op, es))]
  {
  }

  lemma {:induction false} FiringMoves(u: I.Setup, s: World, t: I.TxnId, s': World)
    requires t in s.sys.txns && s.sys.txns[t].Firing? && Commits(u, s, I.WriteAndCommit(t))
    requires Take(u, s, Sys(I.WriteAndCommit(t))) == Some(s')
    ensures var op, version := s.sys.txns[t].op, s.sys.txns[t].version;
            && op.Fire? && FireAt(s.sys.db, op.w, op.delayId, op.row, version + 1) == Committed(s'.sys.db)
            && Moved(u, s, op, s') && s'.sys.txns == s.sys.txns - {t}
  {
  }

  lemma {:induction false} ReadyKeeps(u: I.Setup, s: World, t: I.TxnId, s': World)
    requires FrameworkNotFinal(u.cfg.wf) && SysOk(u, s) && t in s.sys.txns && s.sys.txns[t].Ready?
    requires !Behind(s.full, s.sys.txns[t]) && Commits(u, s, I.WriteAndCommit(t))
    requires Take(u, s, Sys(I.WriteAndCommit(t))) == Some(s')
    ensures SysOk(u, s') && BothCommit(s, s')
  {
    ReadyMoves(u, s, t, s');
    ReadyCommitKeeps(u, s, t, s');
  }

  lemma {:induction false} ReadyCommitKeeps(u: I.Setup, s: World, t: I.TxnId, s': World)
    requires FrameworkNotFinal(u.cfg.wf) && SysOk(u, s) && t in s.sys.txns && s.sys.txns[t].Ready?
    requires !Behind(s.full, s.sys.txns[t]) && Moved(u, s, s.sys.txns[t].op, s')
    requires var op, base, es := s.sys.txns[t].op, s.sys.txns[t].base, s.sys.txns[t].es;
             && es != [] && CommitOp(u.cfg, s.sys.db, op, base, es) == Committed(s'.sys.db)
             && s'.sys.txns == s.sys.txns[t := I.Written(s.sys.txns[t].p, op.w, ResultOf(u.cfg, base, es),
                                                         I.ActionAfter(u.cfg.wf, op, es))]
    ensures SysOk(u, s') && BothCommit(s, s')
  {
    ReadyOnFull(u, s, t, s'.sys.db);
    ReadyKeepsFull(u, s, t, s');
    ReadyDone(u, s, t, s');
  }

  lemma {:induction false} ReadyDone(u: I.Setup, s: World, t: I.TxnId, s': World)
    requires SysOk(u, s) && BothCommit(s, s') && s'.sys.caches == s.sys.caches
    requires t in s'.sys.txns && s'.sys.txns == s.sys.txns[t := s'.sys.txns[t]]
    requires var w := Untruncated(s); I.Inv(u, I.World(s'.full, w.caches, w.txns[t := s'.sys.txns[t]], s'.sys.history))
    ensures SysOk(u, s')
  {
    var w := Untruncated(s);
    CommitKeeps(u, s, I.World(s'.full, w.caches, w.txns[t := s'.sys.txns[t]], s'.sys.history), s');
  }

  lemma {:induction false} ReadyKeepsFull(u: I.Setup, s: World, t: I.TxnId, s': World)
    requires FrameworkNotFinal(u.cfg.wf) && I.Inv(u, Untruncated(s)) && t in s.sys.txns && s.sys.txns[t].Ready?
    requires !Behind(s.full, s.sys.txns[t]) && s'.sys.history == s.sys.history + [s.sys.txns[t].op]
    requires var op, base, es := s.sys.txns[t].op, s.sys.txns[t].base, s.sys.txns[t].es;
             && es != [] && CommitOp(u.cfg, s.full, op, base, es) == Committed(s'.full)
             && s'.sys.txns == s.sys.txns[t := I.Written(s.sys.txns[t].p, op.w, ResultOf(u.cfg, base, es),
                                                         I.ActionAfter(u.cfg.wf, op, es))]
    ensures var w := Untruncated(s); I.Inv(u, I.World(s'.full, w.caches, w.txns[t := s'.sys.txns[t]], s'.sys.history))
  {
    var w := Untruncated(s);
    I.ReadyCommitKeepsInv(u, w, t, I.World(s'.full, w.caches, w.txns[t := s'.sys.txns[t]], s'.sys.history));
  }

  /** A fire at the head of the truncated log is one at the head of the full log. */
  lemma {:induction false} FireOnFull(cfg: Config, db: Db, full: Db, op: Op, version: int, db': Db)
    requires Shadow(cfg, db, full) && op.Fire? && 1 <= version == Head(full, op.w)
    requires FireAt(db, op.w, op.delayId, op.row, version + 1) == Committed(db')
    ensures var r := FireAt(full, op.w, op.delayId, op.row, version + 1);
            && r.Committed? && ApplyOp(cfg, full, op) == Some(r.db) && SameCall(db, full, db', r.db)
  {
    assert LogOk(cfg, full, op.w);
    FireRows(db, full, op, version + 1);
    HeadOf(full.events, op.w, version);
    FireApply(cfg, full, op, version + 1);
  }

  lemma {:induction false} FiringAtHead(u: I.Setup, s: World, t: I.TxnId)
    requires SysOk(u, s) && t in s.sys.txns && s.sys.txns[t].Firing? && !Behind(s.full, s.sys.txns[t])
    ensures 1 <= s.sys.txns[t].version == Head(s.full, s.sys.txns[t].op.w)
  {
    assert t in Untruncated(s).txns && I.TxnOk(u.cfg, s.full, s.sys.txns[t]);
  }

  lemma {:induction false} FiringKeeps(u: I.Setup, s: World, t: I.TxnId, s': World)
    requires SysOk(u, s) && t in s.sys.txns && s.sys.txns[t].Firing?
    requires !Behind(s.full, s.sys.txns[t]) && Commits(u, s, I.WriteAndCommit(t))
    requires Take(u, s, Sys(I.WriteAndCommit(t))) == Some(s')
    ensures SysOk(u, s') && BothCommit(s, s')
  {
    var op := s.sys.txns[t].op;
    FiringMoves(u, s, t, s');
    FiringAtHead(u, s, t);
    FireOnFull(u.cfg, s.sys.db, s.full, op, s.sys.txns[t].version, s'.sys.db);
    FireExtends(u.cfg, s.full, op, s'.full);
    FiringKeepsFull(u, s, t, s');
    var w := Untruncated(s);
    CommitKeeps(u, s, I.World(s'.full, w.caches, w.txns - {t}, s'.sys.history), s');
  }

  lemma {:induction false} FireExtends(cfg: Config, full: Db, op: Op, full': Db)
    requires DbOk(cfg, full) && ApplyOp(cfg, full, op) == Some(full')
    ensures Extends(full, full')
  {
    ApplyOpKeeps(cfg, full, op, full');
  }

  lemma {:induction false} FiringKeepsFull(u: I.Setup, s: World, t: I.TxnId, s': World)
    requires I.Inv(u, Untruncated(s)) && t in s.sys.txns && s.sys.txns[t].Firing?
    requires !Behind(s.full, s.sys.txns[t]) && s'.sys.history == s.sys.history + [s.sys.txns[t].op]
    requires var op := s.sys.txns[t].op;
             op.Fire? && FireAt(s.full, op.w, op.delayId, op.row, s.sys.txns[t].version + 1) == Committed(s'.full)
    ensures var w := Untruncated(s); I.Inv(u, I.World(s'.full, w.caches, w.txns - {t}, s'.sys.history))
  {
    I.FireCommitKeepsInv(u, Untruncated(s), t, s'.full);
  }

  lemma {:induction false} RegisterOnFull(u: I.Setup, s: World, op: Op)
    requires SysOk(u, s) && op.Register?
    ensures var full' := RegisterIn(s.full, op.w, op.delayId, op.nextCmd);
            var w := Untruncated(s);
            && ApplyOp(u.cfg, s.full, op) == Some(full') && Extends(s.full, full')
            && I.Inv(u, I.World(full', w.caches, w.txns, w.history + [op]))
  {
    var full' := RegisterIn(s.full, op.w, op.delayId, op.nextCmd);
    ApplyOpKeeps(u.cfg, s.full, op, full');
    I.AllGrow(u, Untruncated(s), op, full');
  }

  lemma {:induction false} RegisterMoves(u: I.Setup, s: World, op: Op, s': World)
    requires Take(u, s, Sys(I.RegisterDelay(op))) == Some(s')
    ensures op.Register? && Moved(u, s, op, s') && s'.sys.txns == s.sys.txns
    ensures s'.sys.db == RegisterIn(s.sys.db, op.w, op.delayId, op.nextCmd)
  {
  }

  lemma {:induction false} RegisterKeepsShadow(u: I.Setup, s: World, op: Op, s': World)
    requires SysOk(u, s) && Take(u, s, Sys(I.RegisterDelay(op))) == Some(s')
    ensures SysOk(u, s') && BothCommit(s, s')
  {
    RegisterMoves(u, s, op, s');
    RegisterOnFull(u, s, op);
    var w := Untruncated(s);
    CommitKeeps(u, s, I.World(s'.full, w.caches, w.txns, s'.sys.history), s');
  }

  lemma {:induction false} CommitStepKeeps(u: I.Setup, s: World, t: I.TxnId, s': World)
    requires FrameworkNotFinal(u.cfg.wf) && SysOk(u, s) && Careful(u, s, Sys(I.WriteAndCommit(t)))
    requires Take(u, s, Sys(I.WriteAndCommit(t))) == Some(s')
    ensures SysOk(u, s') && BothCommit(s, s')
  {
    if !Commits(u, s, I.WriteAndCommit(t)) {
      assert s' == s.(sys := s.sys.(txns := s.sys.txns - {t}));
      TxnStep(u, s, s');
      NothingCommitted(u, s, s');
    } else {
      if Behind(s.full, s.sys.txns[t]) { BehindConflicts(u, s, t); }
      if s.sys.txns[t].Ready? { ReadyKeeps(u, s, t, s'); } else { FiringKeeps(u, s, t, s'); }
    }
  }

  lemma {:induction false} NothingCommitted(u: I.Setup, s: World, s': World)
    requires Shadow(u.cfg, s.sys.db, s.full) && s'.sys.db == s.sys.db && s'.full == s.full
    ensures BothCommit(s, s')
  {
    forall w ensures Grows(s.full, s'.full, w) {
      assert LogOk(u.cfg, s.full, w);
    }
  }

  lemma {:induction false} LocalKeeps(u: I.Setup, s: World, st: I.Step, s': World)
    requires SysOk(u, s) && !st.WriteAndCommit? && !st.RegisterDelay?
    requires I.Take(u, s.sys, st) == Some(s'.sys) && s' == s.(sys := s'.sys)
    ensures SysOk(u, s')
  {
    match st
    case BeginCreate(_, _, _) => BeginKeeps(u, s, st, s');
    case UseCache(_, _, _) => BeginKeeps(u, s, st, s');
    case ReadEvents(t) => ReadEventsKeeps(u, s, t, s');
    case ReadSnapshot(_, _, _) => ReadKeeps(u, s, st, s');
    case ReadMax(_, _) => ReadKeeps(u, s, st, s');
    case _ => CacheKeeps(u, s, st, s');
  }

  lemma {:induction false} LocalStep(u: I.Setup, s: World, st: I.Step, s': World)
    requires !st.WriteAndCommit? && !st.RegisterDelay? && Take(u, s, Sys(st)) == Some(s')
    ensures I.Take(u, s.sys, st) == Some(s'.sys) && s' == s.(sys := s'.sys) && s'.sys.db == s.sys.db
  {
  }

  lemma {:induction false} SysKeeps(u: I.Setup, s: World, st: I.Step, s': World)
    requires FrameworkNotFinal(u.cfg.wf) && SysOk(u, s) && Careful(u, s, Sys(st))
    requires Take(u, s, Sys(st)) == Some(s')
    ensures SysOk(u, s') && BothCommit(s, s')
  {
    if st.WriteAndCommit? {
      CommitStepKeeps(u, s, st.t, s');
    } else if st.RegisterDelay? {
      RegisterKeepsShadow(u, s, st.op, s');
    } else {
      LocalStep(u, s, st, s');
      LocalKeeps(u, s, st, s');
      NothingCommitted(u, s, s');
    }
  }

  // ---------------------------------------------------------------------------------------------
  // The other steps
  // ---------------------------------------------------------------------------------------------

  lemma {:induction false} SweepAfterCommit(s: World, s': World)
    requires SweepOk(s) && BothCommit(s, s') && s' == s.(sys := s'.sys, full := s'.full)
    ensures SweepOk(s')
  {
    forall w | w in s.full.snapshots
      ensures w in s'.full.snapshots && s.full.snapshots[w].version <= s'.full.snapshots[w].version
    {
      assert Grows(s.full, s'.full, w);
    }
  }

  /** Deleting eligible rows, and moving the pushed marks of published ones. */
  lemma {:induction false} TableStep(u: I.Setup, s: World, t': Table)
    requires Inv(u, s)
    requires forall k :: k in t' ==> k in s.sys.db.events && SameRow(t'[k], s.sys.db.events[k])
    requires forall k :: k in t' && t'[k].pushed ==> t'[k].gid in s.published
    requires forall k :: k in s.sys.db.events && k !in t' ==>
               && k.w in s.full.snapshots && k.v < s.full.snapshots[k.w].version
               && s.sys.db.events[k].gid in s.published
               && forall r :: r in s.readers ==> s.sys.db.events[k].gid < s.readers[r]
    ensures Inv(u, SetEvents(s, t'))
  {
    var s' := SetEvents(s, t');
    forall k | Gone(t', s.full.events, k)
      ensures k.w in s.full.snapshots && k.v < s.full.snapshots[k.w].version
      ensures s.full.events[k].gid in s.published && forall r :: r in s.readers ==> s.full.events[k].gid < s.readers[r]
    {
      if k in s.sys.db.events { assert SameRow(s.sys.db.events[k], s.full.events[k]); }
      else { assert Gone(s.sys.db.events, s.full.events, k); }
    }
  }

  lemma {:induction false} DeleteKeeps(u: I.Setup, s: World, w: Id, ks: set<Key>, s': World)
    requires Inv(u, s) && Take(u, s, Delete(w, ks)) == Some(s')
    ensures Inv(u, s')
  {
    var t := s.sys.db.events;
    forall k | k in t && k !in Without(t, ks)
      ensures k.w in s.full.snapshots && k.v < s.full.snapshots[k.w].version && t[k].gid in s.published
      ensures forall r :: r in s.readers ==> t[k].gid < s.readers[r]
    {
      assert k in ks && Eligible(t, k, w, s.phase.snaps[w], s.phase.min);
    }
    TableStep(u, s, Without(t, ks));
  }

  lemma {:induction false} MarksKeep(u: I.Setup, s: World, step: Step, s': World)
    requires step.MarkPushed? || step.ResetPushed?
    requires Inv(u, s) && Take(u, s, step) == Some(s')
    ensures Inv(u, s')
  {
    TableStep(u, s, s'.sys.db.events);
  }

  lemma {:induction false} StepKeepsInv(u: I.Setup, s: World, step: Step, s': World)
    requires FrameworkNotFinal(u.cfg.wf) && Inv(u, s) && Careful(u, s, step)
    requires Take(u, s, step) == Some(s')
    ensures Inv(u, s')
  {
    match step
    case Sys(st) =>
      SysKeeps(u, s, st, s');
      SweepAfterCommit(s, s');
    case Delete(w, ks) => DeleteKeeps(u, s, w, ks, s');
    case MarkPushed(_) => MarksKeep(u, s, step, s');
    case ResetPushed(_) => MarksKeep(u, s, step, s');
    case _ => QuietKeeps(u, s, step, s');
  }

  lemma {:induction false} QuietKeeps(u: I.Setup, s: World, step: Step, s': World)
    requires step.Advance? || step.Publish? || step.ReadMin? || step.ReadSnapshots? || step.EndCycle?
    requires Inv(u, s) && Take(u, s, step) == Some(s')
    ensures Inv(u, s')
  {
    assert SysOk(u, s');
  }

  lemma {:induction false} RunKeepsInv(u: I.Setup, s: World, steps: seq<Step>, s': World)
    requires FrameworkNotFinal(u.cfg.wf) && CarefulRun(u, s, steps)
    requires Inv(u, s) && Run(u, s, steps) == Some(s')
    ensures Inv(u, s')
    decreases |steps|
  {
    if steps != [] {
      var r := Run(u, s, steps[..|steps| - 1]).value;
      RunKeepsInv(u, s, steps[..|steps| - 1], r);
      StepKeepsInv(u, r, steps[|steps| - 1], s');
    }
  }

  lemma {:induction false} StartInv(u: I.Setup, names: set<Reader>)
    ensures Inv(u, Start(names))
  {
    I.StartInv(u);
  }

  // ---------------------------------------------------------------------------------------------
  // Theorems
  // ---------------------------------------------------------------------------------------------

  ghost predicate Reachable(u: I.Setup, names: set<Reader>, steps: seq<Step>, s: World) {
    Run(u, Start(names), steps) == Some(s)
  }

  lemma {:induction false} ReachableInv(u: I.Setup, names: set<Reader>, steps: seq<Step>, s: World)
    requires FrameworkNotFinal(u.cfg.wf)
    requires Reachable(u, names, steps, s) && CarefulRun(u, Start(names), steps)
    ensures Inv(u, s)
  {
    StartInv(u, names);
    RunKeepsInv(u, Start(names), steps, s);
  }

  /** A deleted row lies below its workflow's current snapshot and every reader's current offset, and was published. */
  lemma {:induction false} OnlyUnneededRowsGo(u: I.Setup, names: set<Reader>, steps: seq<Step>, s: World, k: Key)
    requires FrameworkNotFinal(u.cfg.wf)
    requires Reachable(u, names, steps, s) && CarefulRun(u, Start(names), steps)
    requires Gone(s.sys.db.events, s.full.events, k)
    ensures k.w in s.sys.db.snapshots && k.v < s.sys.db.snapshots[k.w].version
    ensures s.full.events[k].gid in s.published
    ensures forall r :: r in s.readers ==> s.full.events[k].gid < s.readers[r]
  {
    ReachableInv(u, names, steps, s);
  }

  /**
   Beside any number of processes with split loads and caches, trusted ones included: the real database is
   the one that the committed calls build without truncation, as far as head loads, MAX and the readers go.
   */
  lemma {:induction false} TruncationIsInvisible(u: I.Setup, names: set<Reader>, steps: seq<Step>, s: World)
    requires FrameworkNotFinal(u.cfg.wf) && u.cfg.interval > 0
    requires Reachable(u, names, steps, s) && CarefulRun(u, Start(names), steps)
    ensures Replay(u.cfg, EmptyDb, s.sys.history) == Some(s.full)
    ensures s.sys.db == s.full.(events := s.sys.db.events) && PartOf(s.sys.db.events, s.full.events)
    ensures forall w :: Head(s.sys.db, w) == Head(s.full, w) && Load(u.cfg, s.sys.db, w, None) == Load(u.cfg, s.full, w, None)
    ensures forall k, r :: k in s.full.events && r in s.readers && s.full.events[k].gid >= s.readers[r] ==>
              k in s.sys.db.events && SameRow(s.sys.db.events[k], s.full.events[k])
  {
    ReachableInv(u, names, steps, s);
    forall w ensures Head(s.sys.db, w) == Head(s.full, w) && Load(u.cfg, s.sys.db, w, None) == Load(u.cfg, s.full, w, None) {
      SameHead(u.cfg, s.sys.db, s.full, w);
      LoadSurvives(u.cfg, s.sys.db, s.full, w, None);
    }
    forall k, r | k in s.full.events && r in s.readers && s.full.events[k].gid >= s.readers[r]
      ensures k in s.sys.db.events && SameRow(s.sys.db.events[k], s.full.events[k])
    {
      assert !Gone(s.sys.db.events, s.full.events, k);
    }
  }

  // ---------------------------------------------------------------------------------------------
  // The hypothesis is exact
  // ---------------------------------------------------------------------------------------------

  /** A commit into the gap writes a row that the full database holds with another global id. */
  lemma {:induction false} CarelessBreaks(u: I.Setup, s: World, t: I.TxnId, s': World)
    requires Inv(u, s) && t in s.sys.txns && NextVersion(s.sys.txns[t]).Some? && Commits(u, s, I.WriteAndCommit(t))
    requires Gone(s.sys.db.events, s.full.events, NextVersion(s.sys.txns[t]).value)
    requires Take(u, s, Sys(I.WriteAndCommit(t))) == Some(s')
    ensures !PartOf(s'.sys.db.events, s'.full.events)
  {
    var k := NextVersion(s.sys.txns[t]).value;
    SerialOrder(u.cfg, s.sys.history, s.full);
    NewRow(u, s, t, k, s');
    FullKeepsRow(u, s, s.sys.txns[t].op, s', k);
  }

  lemma {:induction false} NewRow(u: I.Setup, s: World, t: I.TxnId, k: Key, s': World)
    requires t in s.sys.txns && NextVersion(s.sys.txns[t]) == Some(k) && Commits(u, s, I.WriteAndCommit(t))
    requires Take(u, s, Sys(I.WriteAndCommit(t))) == Some(s')
    ensures k in s'.sys.db.events && s'.sys.db.events[k].gid == s.sys.db.nextGid && Moved(u, s, s.sys.txns[t].op, s')
  {
    if s.sys.txns[t].Ready? {
      ReadyMoves(u, s, t, s');
      var op, base, es := s.sys.txns[t].op, s.sys.txns[t].base, s.sys.txns[t].es;
      InsertKeys(s.sys.db.events, op.w, BaseVersion(base), es, s.sys.db.nextGid);
      assert InBatch(k, op.w, BaseVersion(base), |es|);
    } else {
      FiringMoves(u, s, t, s');
    }
  }

  lemma {:induction false} FullKeepsRow(u: I.Setup, s: World, op: Op, s': World, k: Key)
    requires DbOk(u.cfg, s.full) && k in s.full.events && Moved(u, s, op, s')
    ensures k in s'.full.events && s'.full.events[k] == s.full.events[k]
  {
    var f := ApplyOp(u.cfg, s.full, op);
    if f.Some? {
      ApplyOpKeeps(u.cfg, s.full, op, f.value);
      assert LogOk(u.cfg, s.full, k.w) && Grows(s.full, f.value, k.w);
    }
  }

  /** A step keeps the real database a part of the full one if and only if it is careful. */
  lemma {:induction false} StepKeepsInvIff(u: I.Setup, s: World, step: Step, s': World)
    requires FrameworkNotFinal(u.cfg.wf) && Inv(u, s) && Take(u, s, step) == Some(s')
    ensures Careful(u, s, step) <==> PartOf(s'.sys.db.events, s'.full.events)
    ensures Careful(u, s, step) <==> Inv(u, s')
  {
    if Careful(u, s, step) {
      StepKeepsInv(u, s, step, s');
    } else {
      CarelessBreaks(u, s, step.step.t, s');
    }
  }

  /** A transaction that was overtaken commits if and only if all the rows it would repeat were deleted. */
  lemma {:induction false} OvertakenCommitsIffGone(u: I.Setup, s: World, t: I.TxnId)
    requires Inv(u, s) && t in s.sys.txns && s.sys.txns[t].Ready? && s.sys.txns[t].es != [] && Behind(s.full, s.sys.txns[t])
    ensures var op, base, es := s.sys.txns[t].op, s.sys.txns[t].base, s.sys.txns[t].es;
            Commits(u, s, I.WriteAndCommit(t)) <==>
            && (forall v :: BaseVersion(base) < v <= BaseVersion(base) + |es| ==> Gone(s.sys.db.events, s.full.events, Key(op.w, v)))
            && StampSubs(SyncSubs(s.sys.db.subs, op.w, es), op.w, es, s.sys.db.nextGid).Some?
  {
    OvertakenCommitsIff(u.cfg, s.sys.db, s.full, s.sys.txns[t].op, s.sys.txns[t].base, s.sys.txns[t].es);
  }

  /**
   What a cold load returns after such a commit.  Off the snapshot interval it is what it was before: the
   batch is lost.  On the interval it goes on from the overtaken state, with the rows that are left above
   the batch, so the deleted rows in between are lost.
   */
  lemma {:induction false} AfterOvertakenCommit(u: I.Setup, s: World, t: I.TxnId, s': World)
    requires Inv(u, s) && u.cfg.interval > 0 && t in s.sys.txns && s.sys.txns[t].Ready? && Behind(s.full, s.sys.txns[t])
    requires Commits(u, s, I.WriteAndCommit(t)) && Take(u, s, Sys(I.WriteAndCommit(t))) == Some(s')
    ensures var op, base, es := s.sys.txns[t].op, s.sys.txns[t].base, s.sys.txns[t].es;
            && es != [] && s'.sys.history == s.sys.history + [op]
            && Load(u.cfg, s'.sys.db, op.w, None) == AfterOverwrite(u.cfg, s.sys.db, op, base, es)
  {
    ReadyMoves(u, s, t, s');
    OverwriteLoads(u.cfg, s.sys.db, s.full, s.sys.txns[t].op, s.sys.txns[t].base, s.sys.txns[t].es, s'.sys.db);
  }

  ghost function AfterOverwrite(cfg: Config, db: Db, op: Op, base: Option<Stored>, es: seq<Event>): Option<Stored>
    requires es != [] && cfg.interval > 0
  {
    var v := BaseVersion(base) + |es|;
    if v % cfg.interval != 0 then Load(cfg, db, op.w, None)
    else LoadAbove(cfg, db, op.w, v, EvolveAll(cfg.wf, StateOf(base), es).value)
  }

  lemma {:induction false} OverwriteLoads(cfg: Config, db: Db, full: Db, op: Op, base: Option<Stored>, es: seq<Event>, db': Db)
    requires Shadow(cfg, db, full) && cfg.interval > 0 && es != [] && 0 <= BaseVersion(base) < Head(full, op.w)
    requires CommitOp(cfg, db, op, base, es) == Committed(db')
    ensures Load(cfg, db', op.w, None) == AfterOverwrite(cfg, db, op, base, es)
  {
    var n, state := BaseVersion(base), EvolveAll(cfg.wf, StateOf(base), es).value;
    CommitWrites(cfg, db, op, base, es, db');
    OverwriteCases(cfg, db, full, op.w, n, state, es, db');
    AfterOverwriteIs(cfg, db, op, base, es);
  }

  lemma {:induction false} AfterOverwriteIs(cfg: Config, db: Db, op: Op, base: Option<Stored>, es: seq<Event>)
    requires es != [] && cfg.interval > 0
    ensures var v := BaseVersion(base) + |es|;
            AfterOverwrite(cfg, db, op, base, es) ==
            if v % cfg.interval != 0 then Load(cfg, db, op.w, None)
            else LoadAbove(cfg, db, op.w, v, EvolveAll(cfg.wf, StateOf(base), es).value)
  {
  }

  lemma {:induction false} OverwriteCases(cfg: Config, db: Db, full: Db, w: Id, base: int, state: State, es: seq<Event>, db': Db)
    requires Shadow(cfg, db, full) && cfg.interval > 0 && es != [] && 0 <= base < Head(full, w) && !Conflicts(db.events, w, base, |es|)
    requires Written(cfg, db, w, base + |es|, state, Insert(db.events, w, base, es, db.nextGid), db')
    ensures Load(cfg, db', w, None) ==
            if (base + |es|) % cfg.interval != 0 then Load(cfg, db, w, None) else LoadAbove(cfg, db, w, base + |es|, state)
  {
    if (base + |es|) % cfg.interval != 0 {
      OverwriteIsLost(cfg, db, full, w, base, state, es, db');
    } else {
      OverwriteIsBase(cfg, db, full, w, base, state, es, db');
    }
  }

  // ---------------------------------------------------------------------------------------------
  // What truncation does change
  // ---------------------------------------------------------------------------------------------

  /** A command that would be accepted answers not-found exactly when row 1 is gone. */
  lemma {:induction false} CommandLostIff(u: I.Setup, s: World, op: Op)
    requires Inv(u, s) && u.cfg.interval > 0 && op.Command? && ApplyOp(u.cfg, s.full, op).Some?
    ensures ApplyOp(u.cfg, s.sys.db, op).None? <==> Gone(s.sys.db.events, s.full.events, Key(op.w, 1))
  {
    var db, full := s.sys.db, s.full;
    var base, es := LoadedBatch(u.cfg, full, op, ApplyOp(u.cfg, full, op).value);
    LoadSurvives(u.cfg, db, full, op.w, None);
    LoadedVersion(u.cfg, full, op.w);
    HeadSurvives(u.cfg, db, full, op.w);
    assert forall v :: Key(op.w, v) in db.events ==> v <= Head(full, op.w);
    assert !Conflicts(db.events, op.w, Head(full, op.w), |es|);
  }

  /** An id in use can be created again exactly when the rows under the new batch are gone. */
  lemma {:induction false} CreateReusesId(u: I.Setup, s: World, op: Op)
    requires Inv(u, s) && op.Create? && Head(s.full, op.w) > 0
    requires ApplyOp(u.cfg, EmptyDb.(subs := s.full.subs, nextGid := s.full.nextGid), op).Some?
    ensures ApplyOp(u.cfg, s.full, op).None?
    ensures ApplyOp(u.cfg, s.sys.db, op).Some? <==>
            forall v :: 1 <= v <= |Batch(u.cfg, s.full, op)| ==> Gone(s.sys.db.events, s.full.events, Key(op.w, v))
  {
    var es := Batch(u.cfg, s.full, op);
    assert LogOk(u.cfg, s.full, op.w);
    NoConflictAtHead(s.full.events, op.w, Head(s.full, op.w), 0, |es|);
    OverwriteIff(u.cfg, s.sys.db, s.full, op.w, 0, |es|);
  }

  // ---------------------------------------------------------------------------------------------
  // A cycle of the service as a run
  // ---------------------------------------------------------------------------------------------

  lemma {:induction false} OneMore(u: I.Setup, s: World, steps: seq<Step>, r: World, step: Step)
    requires Run(u, s, steps) == Some(r)
    ensures Run(u, s, steps + [step]) == Take(u, r, step)
  {
    assert (steps + [step])[..|steps|] == steps;
  }

  /** The deletions, workflow by workflow. */
  lemma {:induction false} DeletesRun(u: I.Setup, s: World, gone: set<Key>, ws: set<Id>) returns (steps: seq<Step>)
    requires s.phase.Sweeping?
    requires forall k :: k in gone ==>
               k.w in ws && k.w in s.phase.snaps && Eligible(s.sys.db.events, k, k.w, s.phase.snaps[k.w], s.phase.min)
    ensures Run(u, s, steps) == Some(SetEvents(s, Without(s.sys.db.events, gone)))
    decreases ws
  {
    var t := s.sys.db.events;
    if ws == {} {
      steps := [];
      assert Without(t, gone) == t;
    } else {
      var w :| w in ws;
      var one := RowsOfOne(gone, w);
      var rest := gone - one;
      steps := DeletesRun(u, s, rest, ws - {w});
      assert Without(Without(t, rest), one) == Without(t, gone);
      if one == {} {
        assert Without(t, rest) == Without(t, gone);
      } else {
        var before := SetEvents(s, Without(t, rest));
        assert forall k :: k in one ==> Eligible(Without(t, rest), k, w, s.phase.snaps[w], s.phase.min);
        OneMore(u, s, steps, before, Delete(w, one));
        steps := steps + [Delete(w, one)];
      }
    }
  }

  /**
   What TruncationService.RunTruncationCycle takes out of the table is what a run of the machine takes out: the
   smallest offset is read, then the snapshots, then each workflow's rows are deleted.
   */
  lemma {:induction false} CycleRuns(u: I.Setup, s: World, m: int, ws: set<Id>, gone: set<Key>) returns (steps: seq<Step>)
    requires s.phase.Idle? && m != 0 && IsMin(s.readers, m)
    requires forall k :: k in gone ==>
               k.w in ws && k.w in s.sys.db.snapshots && Eligible(s.sys.db.events, k, k.w, s.sys.db.snapshots[k.w].version, m)
    ensures Run(u, s, steps) == Some(SetEvents(s, Without(s.sys.db.events, gone)))
  {
    var snaps := map w | w in s.sys.db.snapshots && w in ws :: s.sys.db.snapshots[w].version;
    var s1, s2 := s.(phase := HaveMin(m)), s.(phase := Sweeping(m, snaps));
    OneMore(u, s, [], s, ReadMin(m));
    OneMore(u, s, [] + [ReadMin(m)], s1, ReadSnapshots(ws));
    var front := [] + [ReadMin(m)] + [ReadSnapshots(ws)];
    var deletes := DeletesRun(u, s2, gone, ws);
    RunAppend(u, s, front, s2, deletes);
    var s3 := SetEvents(s2, Without(s.sys.db.events, gone));
    OneMore(u, s, front + deletes, s3, EndCycle);
    steps := front + deletes + [EndCycle];
  }

  lemma {:induction false} RunAppend(u: I.Setup, s: World, a: seq<Step>, r: World, b: seq<Step>)
    requires Run(u, s, a) == Some(r)
    ensures Run(u, s, a + b) == Run(u, r, b)
    decreases |b|
  {
    if b == [] {
      assert a + b == a;
    } else {
      RunAppend(u, s, a, r, b[..|b| - 1]);
      assert (a + b)[..|a + b| - 1] == a + b[..|b| - 1];
    }
  }
}
