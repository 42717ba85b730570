/**
 A run from the empty database in which truncation does harm.  A workflow has two events, as old as one
 likes.  A cancel reads that there is no snapshot; meanwhile the third event is committed with a snapshot,
 and rows 1 and 2 are deleted.  The cancel then finds one event, takes itself to be at version 1, and
 commits into the gap at version 2, where no load ever looks.  In the same state a command answers that
 the workflow does not exist, and its id can be created again.
 */
module TruncationWitness {
  import opened Wrappers
  import opened WorkflowModel
  import opened EventStore
  import opened SerialHistory
  import opened Reachability
  import opened Scripted
  import opened OffsetsTable
  import opened Truncation
  import opened TruncationRun
  import H = Harness
  import I = Interleaving

  // ---------------------------------------------------------------------------------------------
  // Runs without truncation steps
  // ---------------------------------------------------------------------------------------------

  function Lifted(steps: seq<I.Step>): seq<Step> {
    if steps == [] then [] else Lifted(steps[..|steps| - 1]) + [Sys(steps[|steps| - 1])]
  }

  lemma {:induction false} Extend(u: I.Setup, start: World, steps: seq<Step>, s: World, step: Step, s': World)
    requires Run(u, start, steps) == Some(s) && CarefulRun(u, start, steps)
    requires Careful(u, s, step) && Take(u, s, step) == Some(s')
    ensures Run(u, start, steps + [step]) == Some(s') && CarefulRun(u, start, steps + [step])
  {
    assert (steps + [step])[..|steps|] == steps;
  }

  /** Until a row is deleted the full database is the real one, so every run of the system is one here. */
  lemma {:induction false} SystemAlone(u: I.Setup, names: set<Reader>, steps: seq<I.Step>, sys: I.World)
    requires FrameworkNotFinal(u.cfg.wf) && I.Reachable(u, steps, sys)
    ensures Reachable(u, names, Lifted(steps), Start(names).(sys := sys, full := sys.db))
    ensures CarefulRun(u, Start(names), Lifted(steps))
    decreases |steps|
  {
    if steps != [] {
      var front, st := steps[..|steps| - 1], steps[|steps| - 1];
      var r := I.Run(u, I.Start, front).value;
      SystemAlone(u, names, front, r);
      I.Serializable(u, front, r);
      I.Serializable(u, steps, sys);
      var s, s' := Start(names).(sys := r, full := r.db), Start(names).(sys := sys, full := sys.db);
      StepAlone(u, s, st, s');
      Extend(u, Start(names), Lifted(front), s, Sys(st), s');
    }
  }

  lemma {:induction false} StepAlone(u: I.Setup, s: World, st: I.Step, s': World)
    requires s.full == s.sys.db && s' == s.(sys := s'.sys, full := s'.sys.db)
    requires I.Take(u, s.sys, st) == Some(s'.sys)
    requires Replay(u.cfg, EmptyDb, s.sys.history) == Some(s.sys.db)
    requires Replay(u.cfg, EmptyDb, s'.sys.history) == Some(s'.sys.db)
    ensures Take(u, s, Sys(st)) == Some(s') && Careful(u, s, Sys(st))
  {
    if s'.sys.history != s.sys.history {
      var op := s'.sys.history[|s.sys.history|];
      assert s'.sys.history == s.sys.history + [op];
      ReplaySnoc(u.cfg, EmptyDb, s.sys.history, op);
    }
  }

  // ---------------------------------------------------------------------------------------------
  // Three events
  // ---------------------------------------------------------------------------------------------

  /** The rows of "w" are n ticks, with the global ids 1..n. */
  ghost predicate TickRows(t: Table, n: int) {
    && (forall k :: k in t <==> k.w == "w" && 1 <= k.v <= n)
    && (forall k :: k in t ==> t[k] == EventRow(k.v, Tick, false))
  }

  /** Nothing else is there but the snapshot at 3. */
  ghost predicate TickTables(db: Db, n: int) {
    && TickRows(db.events, n) && db.nextGid == n + 1
    && db.snapshots.Keys == (if n < 3 then {} else {"w"}) && (n == 3 ==> db.snapshots["w"].version == 3)
  }

  ghost predicate Ticked(cfg: Config, db: Db, n: int) {
    DbOk(cfg, db) && Head(db, "w") == n && AwakeIn(cfg, db, "w") && TickTables(db, n)
  }

  const TickSetup := I.Setup(Config(Endless([Tick], Ticks), 3), _ => false)
  const create := Create("w", "")
  const command := Command("w", "")
  const cancel := Cancel("w", "why")

  lemma {:induction false} OneRowMore(t: Table, n: nat)
    requires TickRows(t, n)
    ensures TickRows(Insert(t, "w", n, [Tick], n + 1), n + 1)
  {
    InsertKeys(t, "w", n, [Tick], n + 1);
  }

  lemma {:induction false} OneTickMore(cfg: Config, db: Db, n: nat, state: State, db': Db)
    requires n < 3 && cfg.interval == 3 && TickTables(db, n)
    requires db'.events == Insert(db.events, "w", n, [Tick], db.nextGid) && db'.nextGid == db.nextGid + 1
    requires db'.snapshots == MaybeSnapshot(cfg, db.snapshots, "w", state, n + 1)
    ensures TickTables(db', n + 1)
  {
    OneRowMore(db.events, n);
  }

  lemma {:induction false} FirstTick(cfg: Config) returns (db: Db)
    requires cfg.wf == Endless([Tick], Ticks) && cfg.interval == 3
    ensures ApplyOp(cfg, EmptyDb, create) == Some(db) && Ticked(cfg, db, 1)
  {
    EndlessWell([Tick], Ticks);
    EmptyDbOk(cfg);
    NoSubEvents(map[], "w", [Tick], 1);
    db := CreateWrites(cfg, EmptyDb, create, [Tick]);
    OneTickMore(cfg, EmptyDb, 0, FoldTo(cfg, db, "w", 1).value, db);
  }

  lemma {:induction false} NextTick(cfg: Config, db: Db, n: nat) returns (db': Db)
    requires cfg.wf == Endless([Tick], Ticks) && cfg.interval == 3 && 1 <= n < 3 && Ticked(cfg, db, n)
    ensures ApplyOp(cfg, db, command) == Some(db') && Ticked(cfg, db', n + 1)
  {
    db' := TickWrites(cfg, db);
    OneTickMore(cfg, db, n, FoldTo(cfg, db', "w", n + 1).value, db');
  }

  lemma {:induction false} TickWrites(cfg: Config, db: Db) returns (db': Db)
    requires cfg.wf == Endless([Tick], Ticks) && DbOk(cfg, db) && AwakeIn(cfg, db, "w")
    ensures ApplyOp(cfg, db, command) == Some(db') && DbOk(cfg, db') && AwakeIn(cfg, db', "w")
    ensures Head(db', "w") == Head(db, "w") + 1 && db'.nextGid == db.nextGid + 1
    ensures db'.events == Insert(db.events, "w", Head(db, "w"), [Tick], db.nextGid)
    ensures db'.snapshots == MaybeSnapshot(cfg, db.snapshots, "w", FoldTo(cfg, db', "w", Head(db', "w")).value, Head(db', "w"))
  {
    EndlessWell([Tick], Ticks);
    NoSubEvents(db.subs, "w", [Tick], db.nextGid);
    db' := CommandWrites(cfg, db, command, [Tick]);
  }

  /** A create, a command, the snapshot statement of a cancel, and another command. */
  lemma {:induction false} TickRuns(u: I.Setup, d1: Db, d2: Db, d3: Db) returns (steps: seq<I.Step>, sys: I.World)
    requires ApplyOp(u.cfg, EmptyDb, create) == Some(d1) && ApplyOp(u.cfg, d1, command) == Some(d2)
    requires ApplyOp(u.cfg, d2, command) == Some(d3) && "w" !in d2.snapshots
    ensures I.Reachable(u, steps, sys) && sys == I.World(d3, map[], map[1 := I.Loading(0, cancel, None)], [create, command, command])
  {
    steps, sys := CreateRuns(u, d1);
    steps, sys := OneMore(u, steps, sys, d2);
    RunSnoc(u, I.Start, steps, I.ReadSnapshot(1, 0, cancel));
    CancelReads(u, sys);
    steps, sys := steps + [I.ReadSnapshot(1, 0, cancel)], sys.(txns := map[1 := I.Loading(0, cancel, None)]);
    steps, sys := OneMore(u, steps, sys, d3);
    assert [create] + [command] + [command] == [create, command, command];
  }

  lemma {:induction false} CreateRuns(u: I.Setup, d1: Db) returns (steps: seq<I.Step>, sys: I.World)
    requires ApplyOp(u.cfg, EmptyDb, create) == Some(d1)
    ensures I.Reachable(u, steps, sys) && sys == I.World(d1, map[], map[], [create])
  {
    ReplaySnoc(u.cfg, EmptyDb, [], create);
    assert [] + [create] == [create];
    steps := SerialIsReachable(u, [create], d1);
    sys := I.World(d1, map[], map[], [create]);
  }

  lemma {:induction false} CancelReads(u: I.Setup, s: I.World)
    requires s.txns == map[] && "w" !in s.db.snapshots
    ensures I.Take(u, s, I.ReadSnapshot(1, 0, cancel)) == Some(s.(txns := map[1 := I.Loading(0, cancel, None)]))
  {
  }

  lemma {:induction false} OneMore(u: I.Setup, steps: seq<I.Step>, s: I.World, db: Db) returns (more: seq<I.Step>, s': I.World)
    requires I.Reachable(u, steps, s) && 0 !in s.txns && ApplyOp(u.cfg, s.db, command) == Some(db)
    ensures I.Reachable(u, more, s') && s' == AfterCall(s, command, db)
  {
    var call := CallRuns(u, s, 0, command, db);
    RunConcat(u, I.Start, steps, call);
    more, s' := steps + call, AfterCall(s, command, db);
  }

  /** The cancel reads that there is no snapshot; then comes the third event. */
  lemma {:induction false} ThreeTicks() returns (steps: seq<I.Step>, sys: I.World)
    ensures I.Reachable(TickSetup, steps, sys) && Ticked(TickSetup.cfg, sys.db, 3)
    ensures sys.txns == map[1 := I.Loading(0, cancel, None)]
  {
    var d1 := FirstTick(TickSetup.cfg);
    var d2 := NextTick(TickSetup.cfg, d1, 1);
    var d3 := NextTick(TickSetup.cfg, d2, 2);
    steps, sys := TickRuns(TickSetup, d1, d2, d3);
  }

  // ---------------------------------------------------------------------------------------------
  // Two deletions
  // ---------------------------------------------------------------------------------------------

  const k1 := Key("w", 1)
  const k2 := Key("w", 2)

  lemma {:induction false} PublishTwo(u: I.Setup, start: World, steps: seq<Step>, s: World) returns (more: seq<Step>, s': World)
    requires Run(u, start, steps) == Some(s) && CarefulRun(u, start, steps)
    requires forall k :: k in {k1, k2} ==> k in s.sys.db.events && s.sys.db.events[k].gid == k.v
    ensures Run(u, start, more) == Some(s') && CarefulRun(u, start, more)
    ensures s' == s.(published := s.published + {1} + {2})
  {
    assert k1 in {k1, k2} && k2 in {k1, k2};
    var s1 := s.(published := s.published + {1});
    s' := s1.(published := s1.published + {2});
    Extend(u, start, steps, s, Publish(k1), s1);
    more := steps + [Publish(k1)];
    Extend(u, start, more, s1, Publish(k2), s');
    more := more + [Publish(k2)];
  }

  function Marked(t: Table): Table
    requires k1 in t && k2 in t
  {
    t[k1 := t[k1].(pushed := true)][k2 := t[k2].(pushed := true)]
  }

  lemma {:induction false} MarkTwo(u: I.Setup, start: World, steps: seq<Step>, s: World) returns (more: seq<Step>, s': World)
    requires Run(u, start, steps) == Some(s) && CarefulRun(u, start, steps)
    requires forall k :: k in {k1, k2} ==> k in s.sys.db.events && s.sys.db.events[k].gid in s.published
    ensures k1 in s.sys.db.events && k2 in s.sys.db.events
    ensures Run(u, start, more) == Some(s') && CarefulRun(u, start, more) && s' == SetEvents(s, Marked(s.sys.db.events))
  {
    assert k1 in {k1, k2} && k2 in {k1, k2};
    var t := s.sys.db.events;
    var t1 := t[k1 := t[k1].(pushed := true)];
    Extend(u, start, steps, s, MarkPushed(k1), SetEvents(s, t1));
    more := steps + [MarkPushed(k1)];
    s' := SetEvents(s, Marked(t));
    Extend(u, start, more, SetEvents(s, t1), MarkPushed(k2), s');
    more := more + [MarkPushed(k2)];
  }

  /** The one reader passes both rows, and a cycle begins. */
  lemma {:induction false} BeginCycle(u: I.Setup, start: World, steps: seq<Step>, s: World) returns (more: seq<Step>, s': World)
    requires Run(u, start, steps) == Some(s) && CarefulRun(u, start, steps)
    requires s.readers == map["r" := 0] && s.phase == Idle
    ensures Run(u, start, more) == Some(s') && CarefulRun(u, start, more)
    ensures s' == s.(readers := map["r" := 3], phase := HaveMin(3))
  {
    var s1 := s.(readers := s.readers["r" := 3]);
    assert s1.readers == map["r" := 3];
    Extend(u, start, steps, s, Advance("r", 3), s1);
    more := steps + [Advance("r", 3)];
    s' := s1.(phase := HaveMin(3));
    assert "r" in s1.readers && s1.readers["r"] == 3;
    assert IsMin(s1.readers, 3);
    Extend(u, start, more, s1, ReadMin(3), s');
    more := more + [ReadMin(3)];
  }

  lemma {:induction false} DeleteTwo(u: I.Setup, start: World, steps: seq<Step>, s: World) returns (more: seq<Step>, s': World)
    requires Run(u, start, steps) == Some(s) && CarefulRun(u, start, steps)
    requires s.phase == HaveMin(3) && s.sys.db.snapshots.Keys == {"w"} && s.sys.db.snapshots["w"].version == 3
    requires forall k :: k in {k1, k2} ==> k in s.sys.db.events && s.sys.db.events[k].gid == k.v && s.sys.db.events[k].pushed
    ensures Run(u, start, more) == Some(s') && CarefulRun(u, start, more)
    ensures s' == SetEvents(s, Without(s.sys.db.events, {k1, k2})).(phase := Sweeping(3, map["w" := 3]))
  {
    var s1 := s.(phase := Sweeping(3, map["w" := 3]));
    ReadsSnapshot(u, s);
    Extend(u, start, steps, s, ReadSnapshots({"w"}), s1);
    more := steps + [ReadSnapshots({"w"})];
    s' := SetEvents(s1, Without(s.sys.db.events, {k1, k2}));
    Deletes(u, s1);
    Extend(u, start, more, s1, Delete("w", {k1, k2}), s');
    more := more + [Delete("w", {k1, k2})];
  }

  lemma {:induction false} Deletes(u: I.Setup, s: World)
    requires s.phase == Sweeping(3, map["w" := 3])
    requires forall k :: k in {k1, k2} ==> k in s.sys.db.events && s.sys.db.events[k].gid == k.v && s.sys.db.events[k].pushed
    ensures Take(u, s, Delete("w", {k1, k2})) == Some(SetEvents(s, Without(s.sys.db.events, {k1, k2})))
  {
    assert forall k :: k in {k1, k2} ==> Eligible(s.sys.db.events, k, "w", 3, 3);
  }

  lemma {:induction false} ReadsSnapshot(u: I.Setup, s: World)
    requires s.phase == HaveMin(3) && s.sys.db.snapshots.Keys == {"w"} && s.sys.db.snapshots["w"].version == 3
    ensures Take(u, s, ReadSnapshots({"w"})) == Some(s.(phase := Sweeping(3, map["w" := 3])))
  {
    var ws := {"w"};
    var snaps := map w | w in s.sys.db.snapshots && w in ws :: s.sys.db.snapshots[w].version;
    assert snaps.Keys == {"w"};
    assert snaps == map["w" := 3];
    assert Take(u, s, ReadSnapshots(ws)) == Some(s.(phase := Sweeping(3, snaps)));
  }

  /** A reachable state, by careful steps alone, in which rows 1 and 2 of three are gone and a cancel is in flight. */
  lemma {:induction false} TwoRowsGone() returns (steps: seq<Step>, s: World)
    ensures FrameworkNotFinal(TickSetup.cfg.wf) && KeepsBase(TickSetup.cfg.wf) && BornByUser(TickSetup.cfg.wf)
    ensures Reachable(TickSetup, {"r"}, steps, s) && CarefulRun(TickSetup, Start({"r"}), steps)
    ensures Ticked(TickSetup.cfg, s.full, 3) && s.sys.txns == map[1 := I.Loading(0, cancel, None)]
    ensures forall k :: Gone(s.sys.db.events, s.full.events, k) <==> k in {k1, k2}
  {
    EndlessWell([Tick], Ticks);
    var quiet, sys := ThreeTicks();
    SystemAlone(TickSetup, {"r"}, quiet, sys);
    var s0 := Start({"r"}).(sys := sys, full := sys.db);
    assert s0.readers == map["r" := 0];
    assert TickRows(sys.db.events, 3);
    steps, s := PublishTwo(TickSetup, Start({"r"}), Lifted(quiet), s0);
    steps, s := MarkTwo(TickSetup, Start({"r"}), steps, s);
    steps, s := BeginCycle(TickSetup, Start({"r"}), steps, s);
    steps, s := DeleteTwo(TickSetup, Start({"r"}), steps, s);
  }

  // ---------------------------------------------------------------------------------------------
  // The harm
  // ---------------------------------------------------------------------------------------------

  lemma {:induction false} OneLeft(t: Table)
    requires k1 !in t && k2 !in t && Key("w", 3) in t && t[Key("w", 3)].event == Tick
    ensures SelectEvents(t, "w", 0, 3) == [Tick]
  {
    assert SelectEvents(t, "w", 0, 0) == [];
    assert SelectEvents(t, "w", 0, 1) == [];
    assert SelectEvents(t, "w", 0, 2) == [];
  }

  lemma {:induction false} TickFold(wf: Workflow)
    requires wf == Endless([Tick], Ticks)
    ensures EvolveAll(wf, None, [Tick]) == Some(Live) && !IsTerminal(wf, Tick)
  {
    assert [Tick][..0] == [] && EvolveSystem(None, Tick) == None;
    assert EvolveAll(wf, None, [Tick]) == Some(Evolve(wf, None, Tick));
  }

  /** The event statement of the cancel finds one row. */
  lemma {:induction false} TornLoad(cfg: Config, db: Db, full: Db)
    requires Shadow(cfg, db, full) && Ticked(cfg, full, 3) && cfg.wf == Endless([Tick], Ticks)
    requires forall k :: Gone(db.events, full.events, k) <==> k in {k1, k2}
    ensures LoadFrom(cfg, db.events, "w", None, None) == Some(Stored(1, Live))
    ensures LoadFrom(cfg, db.events, "w", None, None) != LoadFrom(cfg, full.events, "w", None, None)
  {
    var t, k3 := db.events, Key("w", 3);
    HeadSurvives(cfg, db, full, "w");
    assert Gone(t, full.events, k1) && Gone(t, full.events, k2) && !Gone(t, full.events, k3);
    assert TickRows(full.events, 3);
    OneLeft(t);
    TickFold(cfg.wf);
    LoadSuffix(cfg, t, "w", None, None, [Tick]);
    LoadIsTorn(cfg, db, full);
  }

  lemma {:induction false} LoadIsTorn(cfg: Config, db: Db, full: Db)
    requires Shadow(cfg, db, full) && Head(full, "w") == 3 && k1 !in db.events
    requires Key("w", 3) in full.events && full.events[Key("w", 3)].event == Tick && !IsTerminal(cfg.wf, Tick)
    ensures LoadFrom(cfg, db.events, "w", None, None) != LoadFrom(cfg, full.events, "w", None, None)
  {
    TornLoadIff(cfg, db, full, "w", None);
  }

  /** A cancel that is accepted and lost: the workflow loads as the active one it was. */
  lemma {:induction false} CancelIsLost() returns (steps: seq<Step>, s: World, s': World)
    ensures FrameworkNotFinal(TickSetup.cfg.wf) && KeepsBase(TickSetup.cfg.wf) && BornByUser(TickSetup.cfg.wf)
    ensures Reachable(TickSetup, {"r"}, steps, s) && CarefulRun(TickSetup, Start({"r"}), steps)
    ensures Take(TickSetup, s, Sys(I.WriteAndCommit(1))) == Some(s') && s'.sys.history == s.sys.history + [cancel]
    ensures Load(TickSetup.cfg, s'.sys.db, "w", None) == Load(TickSetup.cfg, s.sys.db, "w", None)
    ensures Awake(StateOf(Load(TickSetup.cfg, s'.sys.db, "w", None)))
  {
    var before, r := TwoRowsGone();
    ReachableInv(TickSetup, {"r"}, before, r);
    TornLoad(TickSetup.cfg, r.sys.db, r.full);
    EventsRead(TickSetup, r.sys, Stored(1, Live));
    CancelDecides(TickSetup.cfg, r.sys);
    s := ReadTorn(TickSetup, r);
    Extend(TickSetup, Start({"r"}), before, r, Sys(I.ReadEvents(1)), s);
    steps := before + [Sys(I.ReadEvents(1))];
    var db' := TornCommits(TickSetup.cfg, s.sys.db, s.full);
    s' := CommitTorn(TickSetup, s, db');
    StillActive(s, s');
  }

  const torn := I.Ready(0, cancel, Some(Stored(1, Live)), [SystemCancel("why")])

  lemma {:induction false} CancelDecides(cfg: Config, sys: I.World)
    requires sys.txns == map[1 := I.Loading(0, cancel, None)]
    ensures I.Decided(cfg, sys, 1, 0, cancel, Some(Stored(1, Live))) == sys.(txns := map[1 := torn])
  {
    assert sys.txns[1 := torn] == map[1 := torn];
    assert Decide(cfg.wf, cancel, Some(Live)) == Some([SystemCancel("why")]);
  }

  lemma {:induction false} EventsRead(u: I.Setup, sys: I.World, b: Stored)
    requires 1 in sys.txns && sys.txns[1] == I.Loading(0, cancel, None)
    requires LoadFrom(u.cfg, sys.db.events, "w", None, None) == Some(b)
    ensures I.Take(u, sys, I.ReadEvents(1)) == Some(I.Decided(u.cfg, sys, 1, 0, cancel, Some(b)))
  {
  }

  lemma {:induction false} ReadTorn(u: I.Setup, r: World) returns (s: World)
    requires r.sys.txns == map[1 := I.Loading(0, cancel, None)]
    requires I.Take(u, r.sys, I.ReadEvents(1)) == Some(r.sys.(txns := map[1 := torn]))
    ensures s == r.(sys := r.sys.(txns := map[1 := torn])) && Take(u, r, Sys(I.ReadEvents(1))) == Some(s)
  {
    s := r.(sys := r.sys.(txns := map[1 := torn]));
  }

  lemma {:induction false} TornCommits(cfg: Config, db: Db, full: Db) returns (db': Db)
    requires Shadow(cfg, db, full) && Ticked(cfg, full, 3) && forall k :: Gone(db.events, full.events, k) <==> k in {k1, k2}
    ensures CommitOp(cfg, db, cancel, Some(Stored(1, Live)), [SystemCancel("why")]) == Committed(db')
  {
    var es := [SystemCancel("why")];
    NoSubEvents(db.subs, "w", es, db.nextGid);
    assert Gone(db.events, full.events, k2);
    OvertakenCommitsIff(cfg, db, full, cancel, Some(Stored(1, Live)), es);
    db' := CommitOp(cfg, db, cancel, Some(Stored(1, Live)), es).db;
  }

  lemma {:induction false} CommitTorn(u: I.Setup, s: World, db': Db) returns (s': World)
    requires s.sys.txns == map[1 := torn]
    requires CommitOp(u.cfg, s.sys.db, cancel, Some(Stored(1, Live)), [SystemCancel("why")]) == Committed(db')
    ensures Take(u, s, Sys(I.WriteAndCommit(1))) == Some(s') && s'.sys.history == s.sys.history + [cancel] && s'.sys.db == db'
  {
    s' := Take(u, s, Sys(I.WriteAndCommit(1))).value;
  }

  lemma {:induction false} StillActive(s: World, s': World)
    requires Shadow(TickSetup.cfg, s.sys.db, s.full) && Ticked(TickSetup.cfg, s.full, 3)
    requires CommitOp(TickSetup.cfg, s.sys.db, cancel, Some(Stored(1, Live)), [SystemCancel("why")]) == Committed(s'.sys.db)
    ensures Load(TickSetup.cfg, s'.sys.db, "w", None) == Load(TickSetup.cfg, s.sys.db, "w", None)
    ensures Awake(StateOf(Load(TickSetup.cfg, s'.sys.db, "w", None)))
  {
    EndlessWell([Tick], Ticks);
    OverwriteLoads(TickSetup.cfg, s.sys.db, s.full, cancel, Some(Stored(1, Live)), [SystemCancel("why")], s'.sys.db);
    LoadSurvives(TickSetup.cfg, s.sys.db, s.full, "w", None);
    assert LogOk(TickSetup.cfg, s.full, "w");
    H.LoadIsFold(TickSetup.cfg, s.full, "w");
  }

  lemma {:induction false} CommandIsMissed(s: World)
    requires Inv(TickSetup, s) && Ticked(TickSetup.cfg, s.full, 3) && Gone(s.sys.db.events, s.full.events, k1)
    ensures ApplyOp(TickSetup.cfg, s.full, command).Some? && ApplyOp(TickSetup.cfg, s.sys.db, command).None?
  {
    var next := TickWrites(TickSetup.cfg, s.full);
    CommandLostIff(TickSetup, s, command);
  }

  lemma {:induction false} IdIsReused(s: World)
    requires Inv(TickSetup, s) && Ticked(TickSetup.cfg, s.full, 3) && Gone(s.sys.db.events, s.full.events, k1)
    ensures ApplyOp(TickSetup.cfg, s.full, create).None? && ApplyOp(TickSetup.cfg, s.sys.db, create).Some?
  {
    FreshCreate(TickSetup.cfg, s.full.subs, s.full.nextGid);
    CreateReusesId(TickSetup, s, create);
  }

  lemma {:induction false} FreshCreate(cfg: Config, subs: map<SubKey, SubRow>, gid: int)
    requires cfg.wf.decide(None, "") == Accepted([Tick])
    ensures ApplyOp(cfg, EmptyDb.(subs := subs, nextGid := gid), create).Some?
  {
    NoSubEvents(subs, "w", [Tick], gid);
    assert !Conflicts(map[], "w", 0, 1);
  }

  /** In the same run: a command answers not-found, the id can be created again, and the split load is wrong. */
  lemma {:induction false} GoneRowsAreMissed() returns (steps: seq<Step>, s: World)
    ensures Reachable(TickSetup, {"r"}, steps, s) && CarefulRun(TickSetup, Start({"r"}), steps)
    ensures ApplyOp(TickSetup.cfg, s.full, command).Some? && ApplyOp(TickSetup.cfg, s.sys.db, command).None?
    ensures ApplyOp(TickSetup.cfg, s.full, create).None? && ApplyOp(TickSetup.cfg, s.sys.db, create).Some?
    ensures LoadFrom(TickSetup.cfg, s.sys.db.events, "w", None, None) != LoadFrom(TickSetup.cfg, s.full.events, "w", None, None)
  {
    steps, s := TwoRowsGone();
    ReachableInv(TickSetup, {"r"}, steps, s);
    TornLoad(TickSetup.cfg, s.sys.db, s.full);
    assert Gone(s.sys.db.events, s.full.events, k1);
    CommandIsMissed(s);
    IdIsReused(s);
  }
}
