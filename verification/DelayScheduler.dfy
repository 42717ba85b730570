/** The scheduler's transactions (pkg/delay/scheduler.go), statement by statement on the database. */
module DelayScheduler {
  import opened Wrappers
  import opened WorkflowModel
  import opened EventStore
  import opened Repository

  class Scheduler {
    const db: Database

    constructor (db: Database)
      ensures this.db == db
    {
      this.db := db;
    }

    /**
     resumeWorkflow with nothing in between: the call Fire, or the row of a workflow without events is
     dropped.  (Interleaving cuts it in two, between MAX and the insert.)
     */
    method ResumeWorkflow(cfg: Config, w: Id, delayId: Id, row: DelayRow) returns (fired: bool)
      modifies db
      ensures old(ApplyOp(cfg, db.View(), Fire(w, delayId, row))) == if fired then Some(db.View()) else None
      ensures !fired ==> db.View() == old(db.View()).(delays := old(db.delays) - {DelayKey(w, delayId)})
    {
      var k := DelayKey(w, delayId);
      if Versions(db.events, w) == {} {
        db.delays := db.delays - {k};
        return false;
      }
      var currentMax := db.MaxWorkflowVersion(w);
      var version := currentMax + 1;
      assert version !in Versions(db.events, w);
      db.events, db.nextGid := db.events[Key(w, version) := EventRow(db.nextGid, DelayComplete(delayId), false)], db.nextGid + 1;
      if row.cron != "" {
        db.delays := db.delays - {k};
        db.delays := db.delays[k := row];
        assert db.delays == old(db.delays)[k := row];
      } else {
        db.delays := db.delays - {k};
      }
      fired := true;
    }

    /** RegisterDelay: delete, then insert a one-shot row. */
    method RegisterDelay(cfg: Config, w: Id, delayId: Id, nextCmd: Json)
      modifies db`delays
      ensures Some(db.View()) == old(ApplyOp(cfg, db.View(), Register(w, delayId, nextCmd)))
    {
      db.delays := db.delays - {DelayKey(w, delayId)};
      db.delays := db.delays[DelayKey(w, delayId) := DelayRow("", "", nextCmd)];
      assert db.delays == old(db.delays)[DelayKey(w, delayId) := DelayRow("", "", nextCmd)];
    }
  }
}
