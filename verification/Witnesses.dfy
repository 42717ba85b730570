/**
 Runs from the empty database that end in the exceptions of the theorems: each exact condition that is
 stated elsewhere does fail in a reachable state.  A completed workflow that loads as a live one, a removed
 schedule that a stale fire brings back, two subscriptions under one key, calls that only the test harness
 accepts, and an event behind a ContinueAsNew marker that no cold load sees.  What truncation and horizon
 subscriptions do wrong is shown in TruncationWitness and HorizonWitness.
 */
module Witnesses {
  import opened Wrappers
  import opened WorkflowModel
  import opened EventStore
  import opened SerialHistory
  import opened Interleaving
  import opened Reachability
  import opened Scripted
  import D = DelayProjection
  import P = SubscriptionProjection
  import H = Harness
  import C = ContinueAsNewCall
  import L = EphemeralStorage
  import R = Repository
  import A = Ledger

  // ---------------------------------------------------------------------------------------------
  // A final event under a snapshot
  // ---------------------------------------------------------------------------------------------

  /** A completed workflow is loaded as a live one: its final event sits on its snapshot. */
  lemma {:induction false} CompletedLoadsAsLive() returns (u: Setup, steps: seq<Step>, s: World, w: Id)
    ensures FrameworkNotFinal(u.cfg.wf) && KeepsBase(u.cfg.wf) && BornByUser(u.cfg.wf)
    ensures Reachable(u, steps, s) && FinalOnSnapshot(u.cfg, s.db, w, None)
    ensures Load(u.cfg, s.db, w, None) == Some(Stored(1, Live)) && FullReplay(u.cfg, s.db, w, None) == None
  {
    var final := (e: Event) => e.UserEvent?;
    u := Setup(Config(Plays([Tick], Ticks, final), 1), _ => false);
    w := "w";
    PlaysWell([Tick], Ticks, final);
    EmptyDbOk(u.cfg);
    NoSubEvents(map[], w, [Tick], 1);
    var db := CreateWrites(u.cfg, EmptyDb, Create(w, ""), [Tick]);
    ReplaySnoc(u.cfg, EmptyDb, [], Create(w, ""));
    assert [] + [Create(w, "")] == [Create(w, "")];
    steps := SerialIsReachable(u, [Create(w, "")], db);
    s := World(db, map[], map[], [Create(w, "")]);
    InsertKeys(map[], w, 0, [Tick], 1);
    assert InBatch(Key(w, 1), w, 0, 1);
    assert LogOk(u.cfg, db, w);
    LoadIsFullReplay(u.cfg, db, w, None);
    FoldOfTicks(u.cfg, db, w);
  }

  lemma {:induction false} FoldOfTicks(cfg: Config, db: Db, w: Id)
    requires DbOk(cfg, db) && Head(db, w) == 1 && Load(cfg, db, w, None).Some?
    requires Key(w, 1) in db.events && db.events[Key(w, 1)].event == Tick && cfg.wf.evolve(None, Tick) == Live
    ensures Load(cfg, db, w, None) == Some(Stored(1, Live))
  {
    LoadedVersion(cfg, db, w);
    assert SelectEvents(db.events, w, 0, 0) == [];
    assert SelectEvents(db.events, w, 0, 1) == [Tick];
    assert [Tick][..0] == [] && EvolveSystem(None, Tick) == None;
    assert EvolveAll(cfg.wf, None, [Tick]) == Some(Evolve(cfg.wf, None, Tick));
  }

  // ---------------------------------------------------------------------------------------------
  // A fire with a stale row
  // ---------------------------------------------------------------------------------------------

  const Job := Schedule("job", "* * * * *", "UTC", "")
  const JobRow := DelayRow("* * * * *", "UTC", "")

  const JobAdded := [Tick, ScheduleAdded(Job)]
  const JobRemoved := [ScheduleRemoved("job")]
  const JobScript: Script := _ => JobRemoved

  lemma {:induction false} JobRows()
    ensures var rows := map[DelayKey("w", "job") := JobRow];
            SyncDelays(map[], "w", JobAdded) == rows && SyncDelays(rows, "w", JobRemoved) == map[]
  {
    var rows := map[DelayKey("w", "job") := JobRow];
    assert JobAdded[..1] == [Tick] && [Tick][..0] == [] && JobRemoved[..0] == [];
    assert SyncDelays(map[], "w", [Tick]) == map[];
    assert SyncDelays(rows, "w", JobRemoved) == rows - {DelayKey("w", "job")};
  }

  /** A schedule is added by one call and removed by the next. */
  lemma {:induction false} JobCalls(cfg: Config) returns (d: Db, d': Db)
    requires cfg.wf == Endless(JobAdded, JobScript)
    ensures ApplyOp(cfg, EmptyDb, Create("w", "")) == Some(d) && ApplyOp(cfg, d, Command("w", "")) == Some(d')
    ensures d.delays == map[DelayKey("w", "job") := JobRow] && d'.delays == map[]
    ensures DbOk(cfg, d') && Head(d', "w") >= 1
  {
    EndlessWell(JobAdded, JobScript);
    EmptyDbOk(cfg);
    JobRows();
    NoSubEvents(map[], "w", JobAdded, 1);
    d := CreateWrites(cfg, EmptyDb, Create("w", ""), JobAdded);
    NoSubEvents(d.subs, "w", JobRemoved, d.nextGid);
    d' := CommandWrites(cfg, d, Command("w", ""), JobRemoved);
  }

  const IsJob: Id -> bool := id => id == "job"

  lemma {:induction false} JobNamesWell()
    ensures D.NamesWell(IsJob, Endless(JobAdded, JobScript))
  {
    forall e | e in JobAdded ensures D.WellNamed(IsJob, e) {}
    forall e | e in JobRemoved ensures D.WellNamed(IsJob, e) {}
  }

  /** The table is right after the two calls, and wrong after a fire of the row that the first call added. */
  lemma {:induction false} JobComesBack(cfg: Config, d: Db, d': Db) returns (d'': Db)
    requires cfg.wf == Endless(JobAdded, JobScript) && d'.delays == map[] && DbOk(cfg, d') && Head(d', "w") >= 1
    requires ApplyOp(cfg, EmptyDb, Create("w", "")) == Some(d) && ApplyOp(cfg, d, Command("w", "")) == Some(d')
    ensures D.TableIsProjection(cfg, IsJob, d', "w")
    ensures ApplyOp(cfg, d', Fire("w", "job", JobRow)) == Some(d'') && DelayKey("w", "job") in d''.delays
    ensures !D.TableIsProjection(cfg, IsJob, d'', "w")
  {
    EndlessWell(JobAdded, JobScript);
    JobNamesWell();
    Replayed(cfg, Create("w", ""), Command("w", ""), d, d');
    ScheduleProjects(cfg, IsJob, Create("w", ""), Command("w", ""), d, d', "w");
    d'' := FireSucceeds(cfg, d', Fire("w", "job", JobRow));
    FireUnprojects(cfg, IsJob, [Create("w", ""), Command("w", "")], d', Fire("w", "job", JobRow), d'');
  }

  /** The scheduler read the row, the schedule was removed, the fire brings it back. */
  lemma {:induction false} RemovedScheduleComesBack()
    returns (u: Setup, a: seq<Step>, s: World, b: seq<Step>, s': World, c: seq<Step>, s'': World)
    ensures FrameworkNotFinal(u.cfg.wf) && KeepsBase(u.cfg.wf) && BornByUser(u.cfg.wf) && D.NamesWell(IsJob, u.cfg.wf)
    ensures Reachable(u, a, s) && s.db.delays == map[DelayKey("w", "job") := JobRow]
    ensures Run(u, s, b) == Some(s') && s'.db.delays == map[] && D.TableIsProjection(u.cfg, IsJob, s'.db, "w")
    ensures Run(u, s', c) == Some(s'') && s''.history == s'.history + [Fire("w", "job", JobRow)]
    ensures DelayKey("w", "job") in s''.db.delays && !D.TableIsProjection(u.cfg, IsJob, s''.db, "w")
  {
    u := Setup(Config(Endless(JobAdded, JobScript), 100), _ => false);
    EndlessWell(JobAdded, JobScript);
    JobNamesWell();
    var d, d' := JobCalls(u.cfg);
    var d'' := JobComesBack(u.cfg, d, d');
    Replayed(u.cfg, Create("w", ""), Command("w", ""), d, d');
    a := SerialIsReachable(u, [Create("w", "")], d);
    s := World(d, map[], map[], [Create("w", "")]);
    b := CallRuns(u, s, 0, Command("w", ""), d');
    s' := AfterCall(s, Command("w", ""), d');
    c := CallRuns(u, s', 0, Fire("w", "job", JobRow), d'');
    s'' := AfterCall(s', Fire("w", "job", JobRow), d'');
  }

  lemma {:induction false} FireUnprojects(cfg: Config, isCron: Id -> bool, ops: seq<Op>, db: Db, op: Op, db': Db)
    requires KeepsBase(cfg.wf) && BornByUser(cfg.wf) && DbOk(cfg, db) && Replay(cfg, EmptyDb, ops) == Some(db)
    requires D.TableIsProjection(cfg, isCron, db, op.w) && op.Fire? && ApplyOp(cfg, db, op) == Some(db')
    requires DelayKey(op.w, op.delayId) !in db.delays && op.row.cron != ""
    ensures !D.TableIsProjection(cfg, isCron, db', op.w)
  {
    SerialConcrete(cfg, ops, db, op.w);
    D.FireKeepsProjectionIff(cfg, isCron, db, op, db');
  }

  lemma {:induction false} Replayed(cfg: Config, first: Op, second: Op, d: Db, d': Db)
    requires ApplyOp(cfg, EmptyDb, first) == Some(d) && ApplyOp(cfg, d, second) == Some(d')
    ensures Replay(cfg, EmptyDb, [first]) == Some(d) && Replay(cfg, EmptyDb, [first, second]) == Some(d')
  {
    ReplaySnoc(cfg, EmptyDb, [], first);
    assert [] + [first] == [first];
    ReplaySnoc(cfg, EmptyDb, [first], second);
    assert [first] + [second] == [first, second];
  }

  lemma {:induction false} ScheduleProjects(cfg: Config, isCron: Id -> bool, first: Op, second: Op, d: Db, d': Db, w: Id)
    requires KeepsBase(cfg.wf) && BornByUser(cfg.wf) && D.NamesWell(isCron, cfg.wf) && Decides(first) && Decides(second)
    requires Replay(cfg, EmptyDb, [first]) == Some(d) && Replay(cfg, EmptyDb, [first, second]) == Some(d')
    ensures D.TableIsProjection(cfg, isCron, d', w)
  {
    assert [first, second][..1] == [first] && [first][..0] == [];
    assert D.FreshHistory(cfg, isCron, [first]);
    D.SerialProjection(cfg, isCron, [first, second], d', w);
  }

  lemma {:induction false} FireSucceeds(cfg: Config, db: Db, op: Op) returns (db': Db)
    requires op.Fire? && DbOk(cfg, db) && Head(db, op.w) >= 1
    ensures ApplyOp(cfg, db, op) == Some(db')
    ensures db'.delays == if op.row.cron != "" then db.delays[DelayKey(op.w, op.delayId) := op.row] else db.delays - {DelayKey(op.w, op.delayId)}
  {
    assert LogOk(cfg, db, op.w);
    HeadOf(db.events, op.w, Head(db, op.w));
    db' := ApplyOp(cfg, db, op).value;
  }

  // ---------------------------------------------------------------------------------------------
  // Two subscriptions under one key
  // ---------------------------------------------------------------------------------------------

  const One := Sub("x", "e", ["a"], [], None)
  const Two := Sub("x", "e", ["b"], [], None)
  const BothAdded := [Tick, SubscriptionAdded(One), SubscriptionAdded(Two)]

  lemma {:induction false} BothRows()
    ensures var rows := map[SubKey("w", "e", "x") := SubRow(Two, None)];
            SyncSubs(map[], "w", BothAdded) == rows && StampSubs(rows, "w", BothAdded, 1) == Some(rows)
    ensures P.ListAfterAll([], BothAdded) == [One, Two]
  {
    var front := [Tick, SubscriptionAdded(One)];
    assert BothAdded[..2] == front && front[..1] == [Tick] && [Tick][..0] == [];
    assert SyncSubs(map[], "w", [Tick]) == map[];
    assert SyncSubs(map[], "w", front) == map[SubKey("w", "e", "x") := SubRow(One, None)];
    var rows := map[SubKey("w", "e", "x") := SubRow(Two, None)];
    NotStamped(rows, "w", BothAdded, 1);
    assert P.ListAfterAll([], [Tick]) == [];
    assert P.ListAfterAll([], front) == P.ListAfter(P.ListAfterAll([], [Tick]), SubscriptionAdded(One));
    assert P.ListAfterAll([], BothAdded) == P.ListAfter(P.ListAfterAll([], front), SubscriptionAdded(Two));
  }

  lemma {:induction false} NotStamped(subs: map<SubKey, SubRow>, w: Id, es: seq<Event>, gid: int)
    requires forall i :: 0 <= i < |es| ==> !SetsHorizon(es[i])
    ensures StampSubs(subs, w, es, gid) == Some(subs)
    decreases |es|
  {
    if es != [] { NotStamped(subs, w, es[..|es| - 1], gid); }
  }

  /** A batch may add two subscriptions for one emitter and event type: the state lists both, the table has one row. */
  lemma {:induction false} TwoUnderOneKey() returns (u: Setup, steps: seq<Step>, s: World)
    ensures FrameworkNotFinal(u.cfg.wf) && KeepsBase(u.cfg.wf) && BornByUser(u.cfg.wf)
    ensures Reachable(u, steps, s) && !P.TableIsProjection(u.cfg, s.db, "w")
    ensures P.SubscriptionsOf(FoldTo(u.cfg, s.db, "w", Head(s.db, "w"))) == [One, Two]
    ensures s.db.subs == map[SubKey("w", "e", "x") := SubRow(Two, None)]
  {
    u := Setup(Config(Endless(BothAdded, Ticks), 100), _ => false);
    EndlessWell(BothAdded, Ticks);
    EmptyDbOk(u.cfg);
    BothRows();
    var create := Create("w", "");
    var d := CreateWrites(u.cfg, EmptyDb, create, BothAdded);
    ReplaySnoc(u.cfg, EmptyDb, [], create);
    assert [] + [create] == [create];
    steps := SerialIsReachable(u, [create], d);
    s := World(d, map[], map[], [create]);
    SubscriptionsAfterCreate(u.cfg, create, d);
    var list := [One, Two];
    assert P.Under(list[0], list[1].workflowId, list[1].eventType);
  }

  lemma {:induction false} SubscriptionsAfterCreate(cfg: Config, op: Op, d: Db)
    requires KeepsBase(cfg.wf) && BornByUser(cfg.wf) && op.Create? && ApplyOp(cfg, EmptyDb, op) == Some(d)
    ensures P.SubscriptionsOf(FoldTo(cfg, d, op.w, Head(d, op.w))) == P.ListAfterAll([], Batch(cfg, EmptyDb, op))
  {
    EmptyDbOk(cfg);
    var es := Batch(cfg, EmptyDb, op);
    assert FoldTo(cfg, EmptyDb, op.w, 0) == None;
    BatchStartsWell(cfg, EmptyDb, op, d);
    P.EvolveSubscriptions(cfg.wf, None, es);
  }

  // ---------------------------------------------------------------------------------------------
  // The harness and the repository part
  // ---------------------------------------------------------------------------------------------

  const Fickle := Sub("x", "e", [], [], Some(0))
  const FickleBatch := [Tick, SubscriptionAdded(Fickle), SubscriptionRemoved(Fickle)]

  /** A create that emits nothing, and one that drops the horizon it adds: only the harness accepts them. */
  lemma {:induction false} HarnessAcceptsMore(born: seq<Event>, trust: bool, n: nat, maxSize: int)
    requires born in [[], FickleBatch]
    ensures var cfg := Config(Endless(born, Ticks), 100);
            var r := H.RepoCall(cfg, trust, n, H.Shop(EmptyDb, L.NewLru(maxSize)), H.NewWorkflow("w", "")).1;
            var a := H.HarnessCreate(cfg.wf, H.Book(map[], map[]), "w", "").1;
            r.No? && a.Yes?
  {
    H.FirstCreateAgreesIff(Config(Endless(born, Ticks), 100), trust, n, maxSize, "w", "");
    if born == FickleBatch {
      assert born[..2] == [Tick, SubscriptionAdded(Fickle)];
      assert SetsHorizon(born[1]) && SubKeyOf("w", Fickle) !in SyncSubs(map[], "w", born);
    }
  }

  /** After a final event the repository no longer finds the workflow; the harness goes on. */
  lemma {:induction false} OnlyHarnessGoesOn(trust: bool, n: nat, maxSize: int) returns (cfg: Config)
    requires n > 0
    ensures FrameworkNotFinal(cfg.wf)
    ensures var (s, r) := H.RepoCall(cfg, trust, n, H.Shop(EmptyDb, L.NewLru(maxSize)), H.NewWorkflow("w", ""));
            var (h, a) := H.HarnessCreate(cfg.wf, H.Book(map[], map[]), "w", "");
            && r == a
            && H.RepoCall(cfg, trust, n, s, H.Send("w", "")).1 == H.No(R.NotFound)
            && H.HarnessSend(cfg.wf, h, "w", "").1.Yes?
  {
    var final := (e: Event) => e.UserEvent?;
    cfg := Config(Plays([Tick], Ticks, final), 100);
    PlaysWell([Tick], Ticks, final);
    EmptyDbOk(cfg);
    NoSubEvents(map[], "w", [Tick], 1);
    var db := CreateWrites(cfg, EmptyDb, Create("w", ""), [Tick]);
    assert LogOk(cfg, db, "w");
    TickAlone(cfg, db);
    FinalCreate(cfg, L.NewLru(maxSize), "w", "", [Tick], db);
    NotFoundAgain(cfg, trust, n, H.Shop(db, L.NewLru(maxSize)), "w", "");
    assert [Tick][..0] == [] && EvolveAll(cfg.wf, None, [Tick]) == Some(Live);
  }

  /** A create whose batch ends the workflow is committed and not cached. */
  lemma {:induction false} FinalCreate(cfg: Config, c: L.Lru, w: Id, cmd: Json, es: seq<Event>, db: Db)
    requires es != [] && cfg.wf.decide(None, cmd) == Accepted(es) && IsTerminal(cfg.wf, es[|es| - 1])
    requires ApplyOp(cfg, EmptyDb, Create(w, cmd)) == Some(db)
    ensures R.CreateCall(cfg, EmptyDb, c, w, cmd) == R.After(R.Done(Stored(|es|, EvolveAll(cfg.wf, None, es).value), es), db, c)
  {
  }

  lemma {:induction false} NotFoundAgain(cfg: Config, trust: bool, n: nat, s: H.Shop, w: Id, cmd: Json)
    requires n > 0 && Key(w, 1) in s.db.events && Load(cfg, s.db, w, None) == None && L.GetFrom(s.cache, w).1 == None
    ensures H.RepoCall(cfg, trust, n, s, H.Send(w, cmd)).1 == H.No(R.NotFound)
  {
    assert R.Attempt(cfg, trust, s.db, s.cache, w, cmd).outcome == R.Refused(R.NotFound);
  }

  lemma {:induction false} TickAlone(cfg: Config, db: Db)
    requires LogOk(cfg, db, "w") && Head(db, "w") == 1 && "w" !in db.snapshots && IsTerminal(cfg.wf, Tick)
    requires db.events == Insert(map[], "w", 0, [Tick], 1)
    ensures Key("w", 1) in db.events && Load(cfg, db, "w", None) == None
  {
    InsertKeys(map[], "w", 0, [Tick], 1);
    assert InBatch(Key("w", 1), "w", 0, 1);
    LoadFromIsFold(cfg, db, "w", None, None);
  }

  // ---------------------------------------------------------------------------------------------
  // A workflow born from a system event
  // ---------------------------------------------------------------------------------------------

  const Subscribes := [SubscriptionAdded(One)]
  const BornSubscribed := Bare(NewStateBase.(subscriptions := [One]))

  lemma {:induction false} BareStays(wf: Workflow, e: Event)
    requires wf == Endless(Subscribes, Ticks)
    ensures EvolveAll(wf, None, Subscribes) == Some(BornSubscribed) && EvolveAll(wf, Some(BornSubscribed), [e]) == Some(BornSubscribed)
  {
    assert Subscribes[..0] == [] && [e][..0] == [];
    BornBare(wf, SubscriptionAdded(One), e);
    assert [] + [One] == [One];
    assert EvolveAll(wf, None, Subscribes) == Some(Evolve(wf, None, SubscriptionAdded(One)));
    assert EvolveAll(wf, Some(BornSubscribed), [e]) == Some(Evolve(wf, Some(BornSubscribed), e));
  }

  function BareAccount(version: int): A.Accounts { map["w" := A.Account(version, BornSubscribed, false)] }

  /** Create, pause and command are all accepted, and the state stays what the create gave. */
  lemma {:induction false} BareCalls(cfg: Config)
    requires cfg == Config(Endless(Subscribes, Ticks), 100)
    ensures A.LedgerCall(cfg, map[], Create("w", "")) == (BareAccount(1), H.Yes(Subscribes, Some(BornSubscribed), 1))
    ensures A.LedgerCall(cfg, BareAccount(1), Pause("w", "why")) == (BareAccount(2), H.Yes([SystemPause("why")], Some(BornSubscribed), 2))
    ensures A.LedgerCall(cfg, BareAccount(2), Command("w", "")).1 == H.Yes([Tick], Some(BornSubscribed), 3)
  {
    BareStays(cfg.wf, SystemPause("why"));
    BareStays(cfg.wf, Tick);
    assert BareAccount(1)["w" := A.Account(2, BornSubscribed, false)] == BareAccount(2);
    assert A.Enter(cfg, BareAccount(1), "w", 1, Some(BornSubscribed), [SystemPause("why")]).0 == BareAccount(2);
  }

  lemma {:induction false} RunThree(cfg: Config, a: Op, b: Op, c: Op)
    requires Decides(a) && Decides(b) && Decides(c)
    ensures A.AllDecide([a, b, c])
    ensures var (l1, r1) := A.LedgerCall(cfg, map[], a);
            var (l2, r2) := A.LedgerCall(cfg, l1, b);
            A.LedgerRun(cfg, map[], [a, b, c]).1 == [r1, r2, A.LedgerCall(cfg, l2, c).1]
  {
    assert [a, b, c][..2] == [a, b] && [a, b][..1] == [a] && [a][..0] == [];
    assert A.LedgerRun(cfg, map[], []) == (map[], []);
    assert A.LedgerRun(cfg, map[], [a]).1 == [] + [A.LedgerCall(cfg, map[], a).1];
  }

  /** It is paused, the event is in its log, and the next command is accepted: `BornByUser` is needed. */
  lemma {:induction false} PauseWithoutEffect(trust: bool, n: nat, maxSize: int)
    requires n > 0
    ensures var cfg, ops := Config(Endless(Subscribes, Ticks), 100), [Create("w", ""), Pause("w", "why"), Command("w", "")];
            A.AllDecide(ops)
            && A.ShopRun(cfg, trust, n, H.Shop(EmptyDb, L.NewLru(maxSize)), ops).1 ==
               [H.Yes(Subscribes, Some(BornSubscribed), 1), H.Yes([SystemPause("why")], Some(BornSubscribed), 2), H.Yes([Tick], Some(BornSubscribed), 3)]
  {
    var cfg, ops := Config(Endless(Subscribes, Ticks), 100), [Create("w", ""), Pause("w", "why"), Command("w", "")];
    BareCalls(cfg);
    RunThree(cfg, ops[0], ops[1], ops[2]);
    A.RepositoryKeepsLedger(cfg, trust, n, maxSize, ops);
  }

  // ---------------------------------------------------------------------------------------------
  // A batch behind the ContinueAsNew marker
  // ---------------------------------------------------------------------------------------------

  /** Three events, ContinueAsNew, one more event: it is in the table, and no cold load sees it. */
  lemma {:induction false} EventBehindMarkerIsLost()
    returns (u: Setup, steps: seq<Step>, s: World, continued: Db, later: Db)
    ensures Reachable(u, steps, s) && C.Continue(u.cfg, s.db, "w") == Some(continued)
    ensures Commit(u.cfg, continued, "w", 1, Some(Live), [Tick]) == Committed(later)
    ensures Key("w", 2) in later.events && later.events[Key("w", 2)].event == Tick
    ensures Load(u.cfg, later, "w", None) == Load(u.cfg, s.db, "w", None) != None
  {
    var born := [Tick, Tick, Tick];
    u := Setup(Config(Endless(born, Ticks), 5), _ => false);
    EndlessWell(born, Ticks);
    EmptyDbOk(u.cfg);
    var create := Create("w", "");
    NoSubEvents(map[], "w", born, 1);
    var d := CreateWrites(u.cfg, EmptyDb, create, born);
    ReplaySnoc(u.cfg, EmptyDb, [], create);
    assert [] + [create] == [create];
    steps := SerialIsReachable(u, [create], d);
    s := World(d, map[], map[], [create]);
    assert LogOk(u.cfg, d, "w");
    H.LoadIsFold(u.cfg, d, "w");
    continued := C.Continue(u.cfg, d, "w").value;
    C.MarkerAlone(d.events, "w", d.nextGid);
    NoConflictAtHead(continued.events, "w", 1, 1, 1);
    NoSubEvents(continued.subs, "w", [Tick], continued.nextGid);
    later := Commit(u.cfg, continued, "w", 1, Some(Live), [Tick]).db;
    C.LostIff(u.cfg, d, "w", continued, Some(Live), [Tick], later);
    InsertKeys(continued.events, "w", 1, [Tick], continued.nextGid);
    assert InBatch(Key("w", 2), "w", 1, 1);
  }
}
