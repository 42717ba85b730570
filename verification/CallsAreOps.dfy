/**
 What the repository's calls do, against the serial calls of module EventStore: the calls of one process,
 with its cache, write what the call alone writes.  An accepted call has the effect of the serial call, and
 a refused one leaves the database alone; the only call that is refused though the serial one would be
 accepted is a command on a trusted cached state that has fallen behind, which no retry can help.
 */
module CallsAreOps {
  import opened Wrappers
  import opened WorkflowModel
  import opened EventStore
  import opened SerialHistory
  import opened Interleaving
  import opened EphemeralStorage
  import opened Repository

  lemma {:induction false} DecidedIsOp(cfg: Config, db: Db, c: Lru, w: Id, cmd: Json, base: Option<Stored>)
    requires base.Some?
    ensures var a := DecideAndWrite(cfg, db, c, w, cmd, base);
            if a.outcome.Done? && a.outcome.events != [] then ApplyDecided(cfg, db, Command(w, cmd), base) == Some(a.db)
            else a.db == db && ApplyDecided(cfg, db, Command(w, cmd), base).None?
  {
  }

  /** A stale state can be decided on, but what was decided is not written. */
  lemma {:induction false} StaleWritesNothing(cfg: Config, db: Db, c: Lru, w: Id, cmd: Json, b: Stored)
    requires LogOk(cfg, db, w) && 1 <= b.version < Head(db, w)
    ensures var a := DecideAndWrite(cfg, db, c, w, cmd, Some(b));
            a.db == db && (a.outcome.Done? ==> a.outcome.events == [])
  {
    var d := cfg.wf.decide(Some(b.state), cmd);
    if d.Accepted? && d.events != [] {
      NoConflictAtHead(db.events, w, Head(db, w), b.version, |d.events|);
    }
  }

  /**
   An attempt that writes does to the database what the command does when run alone, trusted cache or not.
   One that does not write leaves the database alone, and only a trusted cache that has fallen behind can
   keep it from writing what the command alone would write.  `CachedOk` holds of every cached state.
   */
  lemma {:induction false} AttemptIsOp(cfg: Config, trust: bool, db: Db, c: Lru, w: Id, cmd: Json)
    requires LogOk(cfg, db, w)
    requires var cached := GetFrom(c, w).1; cached.Some? ==> CachedOk(cfg, db, w, cached.value)
    ensures var a := Attempt(cfg, trust, db, c, w, cmd);
            var cached := GetFrom(c, w).1;
            if a.outcome.Done? && a.outcome.events != [] then ApplyOp(cfg, db, Command(w, cmd)) == Some(a.db)
            else
              && a.db == db
              && (ApplyOp(cfg, db, Command(w, cmd)).Some? ==> trust && cached.Some? && cached.value.version < Head(db, w))
  {
    var c', cached := GetFrom(c, w).0, GetFrom(c, w).1;
    var base := CurrentState(cfg, db, w, cached, trust);
    if cached.Some? && cached.value.version < Head(db, w) && base == cached {
      StaleWritesNothing(cfg, db, c', w, cmd, cached.value);
    } else {
      if cached.Some? && base == cached {
        BaseAtHeadIsLoad(cfg, db, w, cached.value);
      }
      if base.Some? {
        DecidedIsOp(cfg, db, c', w, cmd, base);
      }
    }
  }

  lemma {:induction false} CreateIsOp(cfg: Config, db: Db, c: Lru, w: Id, cmd: Json)
    ensures var a := CreateCall(cfg, db, c, w, cmd);
            if a.outcome.Done? then ApplyOp(cfg, db, Create(w, cmd)) == Some(a.db)
            else a.db == db && ApplyOp(cfg, db, Create(w, cmd)).None?
  {
  }

  lemma {:induction false} LifecycleIsOp(cfg: Config, db: Db, c: Lru, op: Op)
    requires IsLifecycle(op)
    ensures var a := LifecycleCall(cfg, db, c, op);
            if a.outcome.Done? then ApplyOp(cfg, db, op) == Some(a.db)
            else a.db == db && ApplyOp(cfg, db, op).None?
  {
    var base := Load(cfg, db, op.w, None);
    if base.Some? {
      LifecycleFromIsOp(cfg, db, c, op, base.value);
    }
  }

  lemma {:induction false} LifecycleFromIsOp(cfg: Config, db: Db, c: Lru, op: Op, b: Stored)
    requires IsLifecycle(op)
    ensures var a := LifecycleFrom(cfg, db, c, op, b);
            if a.outcome.Done? then ApplyDecided(cfg, db, op, Some(b)) == Some(a.db)
            else a.db == db && ApplyDecided(cfg, db, op, Some(b)).None?
  {
  }

  /**
   A trusted cache that has fallen behind is never refreshed by retrying: every attempt meets the same
   conflict, so ProcessCommand gives up after its last retry and nothing is written.
   */
  lemma {:induction false} StaleTrustedCacheGivesUp(cfg: Config, db: Db, c: Lru, w: Id, cmd: Json, n: nat)
    requires LogOk(cfg, db, w) && Find(c.entries, w).Some? && 1 <= Find(c.entries, w).value.version < Head(db, w)
    requires var b := Find(c.entries, w).value;
             && b.state.base.lifecycle == Active
             && var d := cfg.wf.decide(Some(b.state), cmd); d.Accepted? && d.events != []
    ensures var a := Attempts(cfg, true, db, c, w, cmd, n); a.outcome == Refused(TooManyRetries) && a.db == db
    decreases n
  {
    if n > 0 {
      var b := Find(c.entries, w).value;
      assert Key(w, 1) in db.events;
      NoConflictAtHead(db.events, w, Head(db, w), b.version, |cfg.wf.decide(Some(b.state), cmd).events|);
      var c' := GetFrom(c, w).0;
      assert Find(c'.entries, w) == Some(b);
      StaleTrustedCacheGivesUp(cfg, db, c', w, cmd, n - 1);
    }
  }
}
