/**
 The repository object (pkg/repo/repo.go): one process's calls, statement by statement, on a database
 and an LRU cache that it changes in place.  Each method is proved against a function of the database
 and the cache it found: the lookup, the load, the inserts, the sync of the schedule and subscription
 rows, the stamps, the snapshot and the cache refresh.  What those functions have to do with the calls of
 module EventStore is the subject of CallsAreOps, and with the test harness that of Harness.
 */
module Repository {
  import opened Wrappers
  import opened WorkflowModel
  import opened EventStore
  import opened EphemeralStorage

  datatype Reason = NotFound | WorkflowPaused | WorkflowCancelled | NotPaused | AlreadyPaused | AlreadyCancelled
    | ByDecide(msg: string) | NoEvents | AlreadyExists | InsertFailed | NoSubscriptionRow | TooManyRetries

  datatype Outcome = Refused(reason: Reason) | Retry | Done(result: Stored, events: seq<Event>)

  /** What a call returns and leaves behind. */
  datatype After = After(outcome: Outcome, db: Db, cache: Lru)

  // ---------------------------------------------------------------------------------------------
  // The calls as functions
  // ---------------------------------------------------------------------------------------------

  /** What follows the write: the error, or the result and the cache. */
  function Concluded(r: CommitResult, result: Stored, terminal: bool, db: Db, c: Lru, w: Id, known: bool, es: seq<Event>, onConflict: Outcome): After {
    match r
    case Conflict => After(onConflict, db, c)
    case Failed => After(Refused(NoSubscriptionRow), db, c)
    case Committed(db') =>
      After(Done(result, es), db', if !terminal then PutIn(c, w, result) else if known then RemoveFrom(c, w) else c)
  }

  /** The tail of a command attempt and of CreateNew: write, commit, then refresh the cache. */
  function WriteBatch(cfg: Config, db: Db, c: Lru, w: Id, base: Option<Stored>, es: seq<Event>, onConflict: Outcome): After
    requires es != []
  {
    Concluded(Commit(cfg, db, w, BaseVersion(base), StateOf(base), es), ResultOf(cfg, base, es),
              IsTerminal(cfg.wf, es[|es| - 1]), db, c, w, base.Some?, es, onConflict)
  }

  /** processCommandAttempt after its state is loaded. */
  function DecideAndWrite(cfg: Config, db: Db, c: Lru, w: Id, cmd: Json, base: Option<Stored>): After {
    match base
    case None => After(Refused(NotFound), db, c)
    case Some(b) =>
      if b.state.base.lifecycle == Paused then After(Refused(WorkflowPaused), db, c)
      else if b.state.base.lifecycle == Cancelled then After(Refused(WorkflowCancelled), db, c)
      else match cfg.wf.decide(Some(b.state), cmd)
        case Rejected(msg) => After(Refused(ByDecide(msg)), db, c)
        case Accepted(es) => if es == [] then After(Done(b, []), db, c) else WriteBatch(cfg, db, c, w, base, es, Retry)
  }

  ghost function Attempt(cfg: Config, trust: bool, db: Db, c: Lru, w: Id, cmd: Json): After {
    if Key(w, 1) !in db.events then After(Refused(NotFound), db, c) else OnCurrent(cfg, trust, db, c, w, cmd)
  }

  ghost function OnCurrent(cfg: Config, trust: bool, db: Db, c: Lru, w: Id, cmd: Json): After {
    var (c', cached) := GetFrom(c, w);
    DecideAndWrite(cfg, db, c', w, cmd, CurrentState(cfg, db, w, cached, trust))
  }

  /** At most n attempts, each from what the last one left. */
  ghost function Attempts(cfg: Config, trust: bool, db: Db, c: Lru, w: Id, cmd: Json, n: nat): After
    decreases n
  {
    if n == 0 then After(Refused(TooManyRetries), db, c)
    else
      var a := Attempt(cfg, trust, db, c, w, cmd);
      if a.outcome.Retry? then Attempts(cfg, trust, a.db, a.cache, w, cmd, n - 1) else a
  }

  function CreateCall(cfg: Config, db: Db, c: Lru, w: Id, cmd: Json): After {
    match cfg.wf.decide(None, cmd)
    case Rejected(msg) => After(Refused(ByDecide(msg)), db, c)
    case Accepted(es) =>
      if es == [] then After(Refused(NoEvents), db, c)
      else WriteBatch(cfg, db, c, w, None, es, Refused(AlreadyExists))
  }

  function LifecycleRefusal(op: Op, l: Lifecycle): Option<Reason> {
    match op
    case Pause(_, _) => if l == Paused then Some(AlreadyPaused) else if l == Cancelled then Some(WorkflowCancelled) else None
    case Resume(_) => if l != Paused then Some(NotPaused) else None
    case Cancel(_, _) => if l == Cancelled then Some(AlreadyCancelled) else None
    case _ => Some(NotFound)
  }

  function LifecycleEvent(op: Op): Event {
    match op
    case Pause(_, reason) => SystemPause(reason)
    case Cancel(_, reason) => SystemCancel(reason)
    case _ => SystemResume
  }

  predicate IsLifecycle(op: Op) { op.Pause? || op.Resume? || op.Cancel? }

  /** PauseWorkflow, ResumeWorkflow and CancelWorkflow: a cold load, one event, the cache. */
  ghost function LifecycleCall(cfg: Config, db: Db, c: Lru, op: Op): After
    requires IsLifecycle(op)
  {
    match Load(cfg, db, op.w, None)
    case None => After(Refused(NotFound), db, c)
    case Some(b) => LifecycleFrom(cfg, db, c, op, b)
  }

  function LifecycleFrom(cfg: Config, db: Db, c: Lru, op: Op, b: Stored): After {
    match LifecycleRefusal(op, b.state.base.lifecycle)
    case Some(r) => After(Refused(r), db, c)
    case None =>
      var es := [LifecycleEvent(op)];
      LifecycleDone(Commit(cfg, db, op.w, b.version, Some(b.state), es), ResultOf(cfg, Some(b), es), db, c, op, es)
  }

  function LifecycleDone(r: CommitResult, result: Stored, db: Db, c: Lru, op: Op, es: seq<Event>): After {
    if r.Committed? then After(Done(result, es), r.db, if op.Cancel? then RemoveFrom(c, op.w) else PutIn(c, op.w, result))
    else After(Refused(InsertFailed), db, c)
  }

  // ---------------------------------------------------------------------------------------------
  // The objects
  // ---------------------------------------------------------------------------------------------

  class Database {
    var events: Table
    var nextGid: int
    var snapshots: map<Id, Snapshot>
    var delays: map<DelayKey, DelayRow>
    var subs: map<SubKey, SubRow>

    ghost function View(): Db
      reads this
    {
      Db(events, nextGid, snapshots, delays, subs)
    }

    constructor ()
      ensures View() == EmptyDb
    {
      events, nextGid, snapshots, delays, subs := map[], 1, map[], map[], map[];
    }

    /** The writes of a transaction become visible. */
    method Commit(d: Db)
      modifies this
      ensures View() == d
    {
      events, nextGid, snapshots, delays, subs := d.events, d.nextGid, d.snapshots, d.delays, d.subs;
    }

    /** maxWorkflowVersionTx. */
    method MaxWorkflowVersion(w: Id) returns (m: int)
      ensures m == MaxVersion(events, w)
    {
      var left := Versions(events, w);
      if left == {} { return 0; }
      SomeOrNone(left);
      m :| m in left;
      left := left - {m};
      while left != {}
        invariant left <= Versions(events, w) && m in Versions(events, w) && m !in left
        invariant forall v :: v in Versions(events, w) ==> v in left || v <= m
        decreases |left|
      {
        SomeOrNone(left);
        var v :| v in left;
        left := left - {v};
        if v > m { m := v; }
      }
    }

    /** loadEventsTx. */
    method LoadEvents(w: Id, after: int, at: Option<int>) returns (es: seq<Event>)
      ensures es == SelectEvents(events, w, after,
                                 if at.Some? then Min(at.value, MaxVersion(events, w)) else MaxVersion(events, w))
    {
      var hi := MaxWorkflowVersion(w);
      if at.Some? { hi := Min(at.value, hi); }
      es := [];
      var v := after;
      while v < hi
        invariant v <= hi || v == after
        invariant es == SelectEvents(events, w, after, v)
      {
        v := v + 1;
        if Key(w, v) in events { es := es + [events[Key(w, v)].event]; }
      }
    }
  }

  class Repo {
    const cfg: Config
    const trustCache: bool
    const db: Database
    const es: LruCache
    const maxRetries: nat

    constructor (cfg: Config, trustCache: bool, db: Database, es: LruCache)
      ensures this.cfg == cfg && this.trustCache == trustCache && this.db == db && this.es == es
      ensures maxRetries == 100
    {
      this.cfg, this.trustCache, this.db, this.es, this.maxRetries := cfg, trustCache, db, es, 100;
    }

    ghost predicate Is(a: After)
      reads this, db, es, es.order
    {
      db.View() == a.db && es.View() == a.cache
    }

    method LoadState(w: Id, at: Option<int>) returns (r: Option<Stored>)
      ensures r == Load(cfg, db.View(), w, at)
    {
      var snap: Option<Snapshot> := None;
      if cfg.interval > 0 && w in db.snapshots && (at.Some? ==> db.snapshots[w].version <= at.value) {
        snap := Some(db.snapshots[w]);
      }
      r := LoadAfter(w, snap, at);
    }

    /** The event statement and the rest of loadStateTx. */
    method LoadAfter(w: Id, snap: Option<Snapshot>, at: Option<int>) returns (r: Option<Stored>)
      ensures r == LoadFrom(cfg, db.events, w, snap, at)
    {
      var base := if snap.Some? then Some(snap.value.state) else None;
      var baseVersion := if snap.Some? then snap.value.version else 0;
      var events := db.LoadEvents(w, baseVersion, at);
      LoadSuffix(cfg, db.events, w, snap, at, events);
      if |events| == 0 && base.None? { return None; }
      if |events| == 0 { return Some(Stored(baseVersion, base.value)); }
      var state := EvolveAllLoop(cfg.wf, base, events);
      if IsTerminal(cfg.wf, events[|events| - 1]) { return None; }
      return Some(Stored(baseVersion + |events|, state.value));
    }

    method GetCurrentState(w: Id, forceCheck: bool) returns (r: Option<Stored>)
      requires es.Valid()
      modifies es
      ensures es.Valid() && es.View() == old(GetFrom(es.View(), w).0)
      ensures r == old(CurrentState(cfg, db.View(), w, GetFrom(es.View(), w).1, trustCache && !forceCheck))
      ensures forall e :: e in es.order <==> e in old(es.order)
    {
      var cached := es.GetState(w);
      if cached.Some? {
        if forceCheck || !trustCache {
          var dbVersion := db.MaxWorkflowVersion(w);
          if dbVersion != cached.value.version {
            r := LoadState(w, None);
            return;
          }
        }
        return cached;
      }
      r := LoadState(w, None);
    }

    /**
     One transaction's writes: sync tables, event rows, horizon stamps, snapshot.  The tables of the
     transaction are local until the commit, so every early return is a rollback.
     */
    method WriteTx(w: Id, base: int, state: Option<State>, events: seq<Event>) returns (r: CommitResult, newState: State)
      requires events != []
      modifies db
      ensures r == old(Commit(cfg, db.View(), w, base, state, events))
      ensures db.View() == if r.Committed? then r.db else old(db.View())
      ensures r.Committed? ==> Some(newState) == EvolveAll(cfg.wf, state, events)
    {
      var evolved := EvolveAllLoop(cfg.wf, state, events);
      newState := evolved.value;
      var delays, subs := HandleSyncEvents(w, events);
      var table := InsertRows(w, base, events);
      if table.None? { return Conflict, newState; }
      var stamped := StampLoop(subs, w, events, db.nextGid);
      if stamped.None? { return Failed, newState; }
      var version := base + |events|;
      var snapshots := db.snapshots;
      if cfg.interval > 0 && version % cfg.interval == 0 {
        snapshots := snapshots[w := Snapshot(version, newState)];
      }
      r := Committed(Db(table.value, db.nextGid + |events|, snapshots, delays, stamped.value));
      db.Commit(r.db);
    }

    /** handleSyncEventsTx: the schedule and subscription rows, event by event. */
    method HandleSyncEvents(w: Id, events: seq<Event>) returns (delays: map<DelayKey, DelayRow>, subs: map<SubKey, SubRow>)
      ensures delays == SyncDelays(db.delays, w, events) && subs == SyncSubs(db.subs, w, events)
    {
      delays, subs := db.delays, db.subs;
      for i := 0 to |events|
        invariant delays == SyncDelays(db.delays, w, events[..i])
        invariant subs == SyncSubs(db.subs, w, events[..i])
      {
        assert events[..i + 1][..i] == events[..i];
        delays, subs := SyncDelay(delays, w, events[i]), SyncSub(subs, w, events[i]);
      }
      assert events[..|events|] == events;
    }

    /** The insert loop; None on the first unique violation. */
    method InsertRows(w: Id, base: int, events: seq<Event>) returns (r: Option<Table>)
      ensures r == if Conflicts(db.events, w, base, |events|) then None
                   else Some(Insert(db.events, w, base, events, db.nextGid))
    {
      var table := db.events;
      for i := 0 to |events|
        invariant table == Insert(db.events, w, base, events[..i], db.nextGid)
        invariant forall v :: base < v <= base + i ==> Key(w, v) !in db.events
      {
        InsertKeys(db.events, w, base, events[..i], db.nextGid);
        assert events[..i + 1][..i] == events[..i];
        var k := Key(w, base + i + 1);
        assert !InBatch(k, w, base, i);
        if k in table { return None; }
        table := table[k := EventRow(db.nextGid + i, events[i], false)];
      }
      assert events[..|events|] == events;
      r := Some(table);
    }

    /** updateSubscriptionAddedGlobalIDsTx. */
    method StampLoop(subs: map<SubKey, SubRow>, w: Id, events: seq<Event>, gid: int) returns (r: Option<map<SubKey, SubRow>>)
      ensures r == StampSubs(subs, w, events, gid)
    {
      var rows := subs;
      for i := 0 to |events|
        invariant StampSubs(subs, w, events[..i], gid) == Some(rows)
      {
        assert events[..i + 1][..i] == events[..i];
        if SetsHorizon(events[i]) {
          var k := SubKeyOf(w, events[i].sub);
          if k !in rows {
            StampStops(subs, w, events, i + 1, gid);
            return None;
          }
          rows := rows[k := rows[k].(addedGid := Some(gid + i))];
        }
      }
      assert events[..|events|] == events;
      r := Some(rows);
    }

    method ProcessCommandAttempt(w: Id, cmd: Json) returns (r: Outcome)
      requires es.Valid()
      modifies db, es, es.order
      ensures es.Valid() && r == old(Attempt(cfg, trustCache, db.View(), es.View(), w, cmd)).outcome
      ensures Is(old(Attempt(cfg, trustCache, db.View(), es.View(), w, cmd)))
      ensures forall e :: e in es.order ==> e in old(es.order) || fresh(e)
    {
      if Key(w, 1) !in db.events { return Refused(NotFound); }
      r := AttemptAfterLock(w, cmd);
    }

    method AttemptAfterLock(w: Id, cmd: Json) returns (r: Outcome)
      requires es.Valid()
      modifies db, es, es.order
      ensures es.Valid() && r == old(OnCurrent(cfg, trustCache, db.View(), es.View(), w, cmd)).outcome
      ensures Is(old(OnCurrent(cfg, trustCache, db.View(), es.View(), w, cmd)))
      ensures forall e :: e in es.order ==> e in old(es.order) || fresh(e)
    {
      var state := GetCurrentState(w, false);
      r := DecideAndWriteTx(w, cmd, state);
    }

    method DecideAndWriteTx(w: Id, cmd: Json, base: Option<Stored>) returns (r: Outcome)
      requires es.Valid()
      modifies db, es, es.order
      ensures es.Valid() && r == old(DecideAndWrite(cfg, db.View(), es.View(), w, cmd, base)).outcome
      ensures Is(old(DecideAndWrite(cfg, db.View(), es.View(), w, cmd, base)))
      ensures forall e :: e in es.order ==> e in old(es.order) || fresh(e)
    {
      if base.None? { return Refused(NotFound); }
      var b := base.value;
      if b.state.base.lifecycle == Paused { return Refused(WorkflowPaused); }
      if b.state.base.lifecycle == Cancelled { return Refused(WorkflowCancelled); }
      match cfg.wf.decide(Some(b.state), cmd) {
        case Rejected(msg) => r := Refused(ByDecide(msg));
        case Accepted(events) =>
          if events == [] {
            r := Done(b, []);
          } else {
            r := WriteBatchTx(w, base, events, Retry);
          }
      }
    }

    method WriteBatchTx(w: Id, base: Option<Stored>, events: seq<Event>, onConflict: Outcome) returns (r: Outcome)
      requires es.Valid() && events != []
      modifies db, es, es.order
      ensures es.Valid() && r == old(WriteBatch(cfg, db.View(), es.View(), w, base, events, onConflict)).outcome
      ensures Is(old(WriteBatch(cfg, db.View(), es.View(), w, base, events, onConflict)))
      ensures forall e :: e in es.order ==> e in old(es.order) || fresh(e)
    {
      ghost var db0, c := db.View(), es.View();
      var committed, newState := WriteTx(w, BaseVersion(base), StateOf(base), events);
      assert es.Valid() && es.View() == c;
      var result := Stored(BaseVersion(base) + |events|, newState);
      var terminal := IsTerminal(cfg.wf, events[|events| - 1]);
      r := Conclude(committed, result, terminal, db0, w, base.Some?, events, onConflict);
    }

    /** After the write: the error, or the cache and the result. */
    method Conclude(committed: CommitResult, result: Stored, terminal: bool, ghost db0: Db, w: Id, known: bool,
                    events: seq<Event>, onConflict: Outcome) returns (r: Outcome)
      requires es.Valid()
      modifies es, es.order
      ensures var a := Concluded(committed, result, terminal, db0, old(es.View()), w, known, events, onConflict);
              r == a.outcome && es.Valid() && es.View() == a.cache
      ensures forall e :: e in es.order ==> e in old(es.order) || fresh(e)
    {
      if committed.Conflict? { return onConflict; }
      if committed.Failed? { return Refused(NoSubscriptionRow); }
      if !terminal {
        es.PutState(w, result);
      } else if known {
        es.RemoveState(w);
      }
      r := Done(result, events);
    }

    method ProcessCommand(w: Id, cmd: Json) returns (r: Outcome)
      requires es.Valid()
      modifies db, es, es.order
      ensures es.Valid() && r == old(Attempts(cfg, trustCache, db.View(), es.View(), w, cmd, maxRetries)).outcome
      ensures Is(old(Attempts(cfg, trustCache, db.View(), es.View(), w, cmd, maxRetries)))
    {
      ghost var goal := Attempts(cfg, trustCache, db.View(), es.View(), w, cmd, maxRetries);
      r := AttemptLoop(w, cmd, goal);
    }

    /** The retry loop. */
    method AttemptLoop(w: Id, cmd: Json, ghost goal: After) returns (r: Outcome)
      requires es.Valid() && Leads(w, cmd, maxRetries, goal)
      modifies db, es, es.order
      ensures es.Valid() && r == goal.outcome && Is(goal)
    {
      ghost var left := maxRetries;
      for retry := 0 to maxRetries
        invariant es.Valid() && forall e :: e in es.order ==> e in old(es.order) || fresh(e)
        invariant left == maxRetries - retry && Leads(w, cmd, left, goal)
      {
        r := NextAttempt(w, cmd, left, goal);
        if !r.Retry? { return; }
        left := left - 1;
      }
      r := NoAttemptLeft(w, cmd, goal);
    }

    /** From here, n more attempts end in `goal`. */
    ghost predicate Leads(w: Id, cmd: Json, n: nat, goal: After)
      reads this, db, es, es.order
    {
      goal == Attempts(cfg, trustCache, db.View(), es.View(), w, cmd, n)
    }

    method NoAttemptLeft(w: Id, cmd: Json, ghost goal: After) returns (r: Outcome)
      requires Leads(w, cmd, 0, goal)
      ensures r == goal.outcome && Is(goal)
    {
      r := Refused(TooManyRetries);
    }

    /** The body of the retry loop, with n attempts left. */
    method NextAttempt(w: Id, cmd: Json, ghost n: nat, ghost goal: After) returns (r: Outcome)
      requires es.Valid() && n > 0 && Leads(w, cmd, n, goal)
      modifies db, es, es.order
      ensures es.Valid() && forall e :: e in es.order ==> e in old(es.order) || fresh(e)
      ensures if r.Retry? then Leads(w, cmd, n - 1, goal)
              else r == goal.outcome && Is(goal)
    {
      ghost var a := Attempt(cfg, trustCache, db.View(), es.View(), w, cmd);
      AttemptsStep(cfg, trustCache, db.View(), es.View(), w, cmd, n);
      r := ProcessCommandAttempt(w, cmd);
      assert r == a.outcome && Is(a);
    }

    method CreateNew(w: Id, cmd: Json) returns (r: Outcome)
      requires es.Valid()
      modifies db, es, es.order
      ensures es.Valid() && r == old(CreateCall(cfg, db.View(), es.View(), w, cmd)).outcome
      ensures Is(old(CreateCall(cfg, db.View(), es.View(), w, cmd)))
    {
      match cfg.wf.decide(None, cmd) {
        case Rejected(msg) => r := Refused(ByDecide(msg));
        case Accepted(events) =>
          if events == [] {
            r := Refused(NoEvents);
          } else {
            r := WriteBatchTx(w, None, events, Refused(AlreadyExists));
          }
      }
    }

    /** PauseWorkflow, ResumeWorkflow and CancelWorkflow, which differ in the check, the event and the cache. */
    method ChangeLifecycle(op: Op) returns (r: Outcome)
      requires es.Valid() && IsLifecycle(op)
      modifies db, es, es.order
      ensures es.Valid() && r == old(LifecycleCall(cfg, db.View(), es.View(), op)).outcome
      ensures Is(old(LifecycleCall(cfg, db.View(), es.View(), op)))
    {
      var state := LoadState(op.w, None);
      if state.None? { return Refused(NotFound); }
      var b := state.value;
      var refusal := LifecycleRefusal(op, b.state.base.lifecycle);
      if refusal.Some? { return Refused(refusal.value); }
      var events := [LifecycleEvent(op)];
      ghost var db0, c := db.View(), es.View();
      var committed, newState := WriteTx(op.w, b.version, Some(b.state), events);
      assert es.Valid() && es.View() == c;
      r := ConcludeLifecycle(committed, Stored(b.version + 1, newState), db0, op, events);
    }

    method ConcludeLifecycle(committed: CommitResult, result: Stored, ghost db0: Db, op: Op, events: seq<Event>) returns (r: Outcome)
      requires es.Valid()
      modifies es, es.order
      ensures var a := LifecycleDone(committed, result, db0, old(es.View()), op, events);
              r == a.outcome && es.Valid() && es.View() == a.cache
    {
      if !committed.Committed? { return Refused(InsertFailed); }
      if op.Cancel? {
        es.RemoveState(op.w);
      } else {
        es.PutState(op.w, result);
      }
      r := Done(result, events);
    }
  }

  /** One attempt, then the others. */
  lemma {:induction false} AttemptsStep(cfg: Config, trust: bool, db: Db, c: Lru, w: Id, cmd: Json, n: nat)
    requires n > 0
    ensures var a := Attempt(cfg, trust, db, c, w, cmd);
            Attempts(cfg, trust, db, c, w, cmd, n) ==
            if a.outcome.Retry? then Attempts(cfg, trust, a.db, a.cache, w, cmd, n - 1) else a
  {
  }

  /** Once a horizon row is missing, the rest of the batch cannot bring it back. */
  lemma {:induction false} StampStops(subs: map<SubKey, SubRow>, w: Id, events: seq<Event>, n: nat, gid: int)
    requires n <= |events| && StampSubs(subs, w, events[..n], gid).None?
    ensures StampSubs(subs, w, events, gid).None?
    decreases |events| - n
  {
    if n < |events| {
      assert events[..n + 1][..n] == events[..n];
      StampStops(subs, w, events, n + 1, gid);
    } else {
      assert events[..n] == events;
    }
  }
}
