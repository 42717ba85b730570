/**
 Workflows that answer each command with a fixed batch, whatever their state.  The runs of modules
 Witnesses, TruncationWitness and HorizonWitness are played by them.  A create writes one batch, every
 later command what the script says for it, and the user's Evolve keeps the state it is given.  The lemmas
 say that such calls are accepted, on a workflow that is neither paused nor cancelled nor completed, and
 which rows, schedules, subscriptions and snapshots they leave.
 */
module Scripted {
  import opened Wrappers
  import opened WorkflowModel
  import opened EventStore
  import opened SerialHistory
  import opened Harness

  type Script = Json -> seq<Event>

  const Tick := UserEvent("tick", "")
  const Live := State(true, NewStateBase, "")

  const Ticks: Script := _ => [Tick]

  /** Every create writes `born`, every later command what the script says. */
  function Plays(born: seq<Event>, script: Script, final: Event -> bool): Workflow {
    Workflow((s: Option<State>, c: Json) => Accepted(if s.None? then born else script(c)),
             (s: Option<State>, e: Event) => match s { case Some(st) => st case None => Live },
             final)
  }

  lemma {:induction false} PlaysWell(born: seq<Event>, script: Script, final: Event -> bool)
    requires born != [] && born[0].UserEvent?
    ensures var wf := Plays(born, script, final); KeepsBase(wf) && BornByUser(wf)
  {
  }

  /** Events that leave the lifecycle alone. */
  predicate Calm(e: Event) {
    e.UserEvent? || e.SubscriptionAdded? || e.SubscriptionRemoved? || e.ScheduleAdded? || e.ScheduleRemoved? || e.ActionCancel?
  }

  predicate Awake(s: Option<State>) { s.Some? && s.value.evolver && s.value.base.lifecycle == Active }

  ghost predicate AwakeIn(cfg: Config, db: Db, w: Id) { Head(db, w) >= 1 && Awake(FoldTo(cfg, db, w, Head(db, w))) }

  lemma {:induction false} CalmBatch(wf: Workflow, s: Option<State>, es: seq<Event>)
    requires KeepsBase(wf) && es != [] && (forall i :: 0 <= i < |es| ==> Calm(es[i]))
    requires if s.Some? then Awake(s) else es[0].UserEvent?
    ensures Awake(EvolveAll(wf, s, es))
    decreases |es|
  {
    var front := es[..|es| - 1];
    if front != [] { CalmBatch(wf, s, front); }
  }

  /** `es` on top of the log of w, and the tables that follow it. */
  ghost predicate Appended(cfg: Config, db: Db, w: Id, es: seq<Event>, db': Db) {
    && DbOk(cfg, db') && AwakeIn(cfg, db', w) && Head(db', w) == Head(db, w) + |es|
    && db'.events == Insert(db.events, w, Head(db, w), es, db.nextGid) && db'.nextGid == db.nextGid + |es|
    && db'.delays == SyncDelays(db.delays, w, es)
    && StampSubs(SyncSubs(db.subs, w, es), w, es, db.nextGid) == Some(db'.subs)
    && db'.snapshots == MaybeSnapshot(cfg, db.snapshots, w, FoldTo(cfg, db', w, Head(db', w)).value, Head(db', w))
  }

  /** The call is accepted and writes `es`. */
  ghost predicate Wrote(cfg: Config, db: Db, op: Op, es: seq<Event>, db': Db) {
    ApplyOp(cfg, db, op) == Some(db') && Batch(cfg, db, op) == es && Appended(cfg, db, op.w, es, db')
  }

  lemma {:induction false} CommitWrites(cfg: Config, db: Db, w: Id, state: Option<State>, es: seq<Event>) returns (db': Db)
    requires KeepsBase(cfg.wf) && DbOk(cfg, db) && es != [] && (forall i :: 0 <= i < |es| ==> Calm(es[i]))
    requires state == FoldTo(cfg, db, w, Head(db, w)) && (if state.Some? then Awake(state) else es[0].UserEvent?)
    requires StampSubs(SyncSubs(db.subs, w, es), w, es, db.nextGid).Some?
    ensures Commit(cfg, db, w, Head(db, w), state, es) == Committed(db')
    ensures Appended(cfg, db, w, es, db')
  {
    assert LogOk(cfg, db, w);
    NoConflictAtHead(db.events, w, Head(db, w), Head(db, w), |es|);
    db' := Commit(cfg, db, w, Head(db, w), state, es).db;
    CommitAtHead(cfg, db, w, state, es, db');
    CalmBatch(cfg.wf, state, es);
  }

  lemma {:induction false} CreateWrites(cfg: Config, db: Db, op: Op, es: seq<Event>) returns (db': Db)
    requires KeepsBase(cfg.wf) && DbOk(cfg, db) && op.Create? && Head(db, op.w) == 0
    requires cfg.wf.decide(None, op.cmd) == Accepted(es)
    requires es != [] && es[0].UserEvent? && (forall i :: 0 <= i < |es| ==> Calm(es[i]))
    requires StampSubs(SyncSubs(db.subs, op.w, es), op.w, es, db.nextGid).Some?
    ensures Wrote(cfg, db, op, es, db')
  {
    db' := CommitWrites(cfg, db, op.w, None, es);
    CreateApplies(cfg, db, op, es, db');
  }

  lemma {:induction false} CreateApplies(cfg: Config, db: Db, op: Op, es: seq<Event>, db': Db)
    requires op.Create? && es != [] && cfg.wf.decide(None, op.cmd) == Accepted(es)
    requires Commit(cfg, db, op.w, 0, None, es) == Committed(db')
    ensures ApplyOp(cfg, db, op) == Some(db') && Batch(cfg, db, op) == es
  {
  }

  lemma {:induction false} CommandWrites(cfg: Config, db: Db, op: Op, es: seq<Event>) returns (db': Db)
    requires KeepsBase(cfg.wf) && NeverFinal(cfg.wf) && DbOk(cfg, db) && op.Command? && AwakeIn(cfg, db, op.w)
    requires cfg.wf.decide(FoldTo(cfg, db, op.w, Head(db, op.w)), op.cmd) == Accepted(es)
    requires es != [] && (forall i :: 0 <= i < |es| ==> Calm(es[i]))
    requires StampSubs(SyncSubs(db.subs, op.w, es), op.w, es, db.nextGid).Some?
    ensures Wrote(cfg, db, op, es, db')
  {
    assert LogOk(cfg, db, op.w) && Open(cfg, db, op.w);
    LoadIsFold(cfg, db, op.w);
    db' := CommitWrites(cfg, db, op.w, FoldTo(cfg, db, op.w, Head(db, op.w)), es);
    CommandApplies(cfg, db, op, es, Head(db, op.w), FoldTo(cfg, db, op.w, Head(db, op.w)).value, db');
  }

  lemma {:induction false} CommandApplies(cfg: Config, db: Db, op: Op, es: seq<Event>, n: int, state: State, db': Db)
    requires op.Command? && es != [] && Key(op.w, 1) in db.events && state.base.lifecycle == Active
    requires Load(cfg, db, op.w, None) == Some(Stored(n, state)) && cfg.wf.decide(Some(state), op.cmd) == Accepted(es)
    requires Commit(cfg, db, op.w, n, Some(state), es) == Committed(db')
    ensures ApplyOp(cfg, db, op) == Some(db') && Batch(cfg, db, op) == es
  {
    LoadedApply(cfg, db, op, es, db');
  }

  /** One more call on a serial history. */
  lemma {:induction false} ReplaySnoc(cfg: Config, db: Db, ops: seq<Op>, op: Op)
    requires Replay(cfg, db, ops).Some?
    ensures Replay(cfg, db, ops + [op]) == ApplyOp(cfg, Replay(cfg, db, ops).value, op)
  {
    assert (ops + [op])[..|ops|] == ops;
  }

  /** A batch without subscription events leaves their table alone. */
  lemma {:induction false} NoSubEvents(subs: map<SubKey, SubRow>, w: Id, es: seq<Event>, gid: int)
    requires forall i :: 0 <= i < |es| ==> !es[i].SubscriptionAdded? && !es[i].SubscriptionRemoved?
    ensures SyncSubs(subs, w, es) == subs && StampSubs(subs, w, es, gid) == Some(subs)
    decreases |es|
  {
    if es != [] { NoSubEvents(subs, w, es[..|es| - 1], gid); }
  }

  function Endless(born: seq<Event>, script: Script): Workflow { Plays(born, script, _ => false) }

  lemma {:induction false} EndlessWell(born: seq<Event>, script: Script)
    requires born != [] && born[0].UserEvent?
    ensures var wf := Endless(born, script); NeverFinal(wf) && FrameworkNotFinal(wf) && KeepsBase(wf) && BornByUser(wf)
  {
  }
}
