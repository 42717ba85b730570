/**
 A run in which a subscribed event is never handed over: the emitter's action_cancel comes after the
 subscription, and the live path returns before it looks for subscribers.  Three calls are enough: the
 emitter is created, the subscriber is created with a subscription to everything of the emitter from its
 first event on, and the emitter cancels its actions.  The runner then processes all five events.  The same
 event would have been replayed if the subscription had come after it.
 */
module HorizonWitness {
  import opened Wrappers
  import opened WorkflowModel
  import opened EventStore
  import opened SerialHistory
  import opened Reachability
  import opened Scripted
  import opened HorizonRun
  import Harness
  import H = Horizon
  import I = Interleaving

  // ---------------------------------------------------------------------------------------------
  // Runs of the system, then of the runner
  // ---------------------------------------------------------------------------------------------

  function Lifted(steps: seq<I.Step>): seq<Step> {
    if steps == [] then [] else Lifted(steps[..|steps| - 1]) + [Sys(steps[|steps| - 1])]
  }

  lemma {:induction false} SystemFirst(u: I.Setup, v: Site, steps: seq<I.Step>, sys: I.World)
    requires I.Reachable(u, steps, sys)
    ensures Run(u, v, Start, Lifted(steps)) == Some(Start.(sys := sys))
    decreases |steps|
  {
    if steps != [] {
      var front, st := steps[..|steps| - 1], steps[|steps| - 1];
      SystemFirst(u, v, front, I.Run(u, I.Start, front).value);
      assert (Lifted(front) + [Sys(st)])[..|Lifted(front)|] == Lifted(front);
    }
  }

  /** The runner processes everything that is visible. */
  lemma {:induction false} ProcessAll(u: I.Setup, v: Site, steps: seq<Step>, s: World) returns (more: seq<Step>, s': World)
    requires Run(u, v, Start, steps) == Some(s) && s.next <= |LogOf(u.cfg, v, s.sys.history)|
    ensures Run(u, v, Start, more) == Some(s') && s'.sys == s.sys && s'.next == |LogOf(u.cfg, v, s.sys.history)|
    decreases |LogOf(u.cfg, v, s.sys.history)| - s.next
  {
    if s.next == |LogOf(u.cfg, v, s.sys.history)| {
      more, s' := steps, s;
    } else {
      var r := Take(u, v, s, Process).value;
      assert (steps + [Process])[..|steps|] == steps;
      more, s' := ProcessAll(u, v, steps + [Process], r);
    }
  }

  // ---------------------------------------------------------------------------------------------
  // Three calls
  // ---------------------------------------------------------------------------------------------

  /** Both workflows subscribe to everything of "e" from its first event on. */
  const Wish := Sub("*", "e", [], [], Some(0))
  const Born := [Tick, SubscriptionAdded(Wish)]
  const Stop := [ActionCancel([])]
  const Stops: Script := _ => Stop

  lemma {:induction false} BornStamps(subs: map<SubKey, SubRow>, w: Id, gid: int)
    ensures StampSubs(SyncSubs(subs, w, Born), w, Born, gid).Some?
  {
    Harness.StampFailsIff(subs, w, Born, gid);
    assert Born[..1] == [Tick];
    assert SubKeyOf(w, Wish) in SyncSubs(map[], w, Born);
  }

  lemma {:induction false} Creates(cfg: Config, db: Db, w: Id) returns (db': Db)
    requires cfg.wf == Endless(Born, Stops) && DbOk(cfg, db) && Head(db, w) == 0
    ensures Wrote(cfg, db, Create(w, ""), Born, db')
  {
    EndlessWell(Born, Stops);
    BornStamps(db.subs, w, db.nextGid);
    db' := CreateWrites(cfg, db, Create(w, ""), Born);
  }

  lemma {:induction false} StopsActions(cfg: Config, db: Db, w: Id) returns (db': Db)
    requires cfg.wf == Endless(Born, Stops) && DbOk(cfg, db) && AwakeIn(cfg, db, w)
    ensures Wrote(cfg, db, Command(w, ""), Stop, db')
  {
    EndlessWell(Born, Stops);
    NoSubEvents(db.subs, w, Stop, db.nextGid);
    db' := CommandWrites(cfg, db, Command(w, ""), Stop);
  }

  /** "e" is created, then "s", then "e" cancels its actions. */
  lemma {:induction false} ThreeCalls(cfg: Config) returns (d1: Db, d2: Db, d3: Db)
    requires cfg.wf == Endless(Born, Stops)
    ensures ApplyOp(cfg, EmptyDb, Create("e", "")) == Some(d1) && Batch(cfg, EmptyDb, Create("e", "")) == Born
    ensures ApplyOp(cfg, d1, Create("s", "")) == Some(d2) && Batch(cfg, d1, Create("s", "")) == Born
    ensures ApplyOp(cfg, d2, Command("e", "")) == Some(d3) && Batch(cfg, d2, Command("e", "")) == Stop
    ensures Head(EmptyDb, "e") == 0 && Head(d1, "s") == 0 && Head(d2, "e") == 2
    ensures d1.nextGid == 3 && d2.nextGid == 5
  {
    EmptyDbOk(cfg);
    d1 := Creates(cfg, EmptyDb, "e");
    Apart(cfg, EmptyDb, Create("e", ""), d1, "s");
    d2 := Creates(cfg, d1, "s");
    Apart(cfg, d1, Create("s", ""), d2, "e");
    d3 := StopsActions(cfg, d2, "e");
  }

  /** A call leaves the other workflow as it was. */
  lemma {:induction false} Apart(cfg: Config, db: Db, op: Op, db': Db, w: Id)
    requires DbOk(cfg, db) && ApplyOp(cfg, db, op) == Some(db') && w != op.w
    ensures Head(db', w) == Head(db, w) && FoldTo(cfg, db', w, Head(db', w)) == FoldTo(cfg, db, w, Head(db, w))
  {
    ApplyOpKeeps(cfg, db, op, db');
    assert LogOk(cfg, db, w) && SameWorkflow(db, db', w);
    FrameLog(cfg, db, db', w);
    assert Log(db', w) == Log(db, w);
  }

  lemma {:induction false} LogSnoc(cfg: Config, v: Site, front: seq<Op>, op: Op, d: Db)
    requires Replay(cfg, EmptyDb, front) == Some(d)
    ensures LogOf(cfg, v, front + [op]) == LogOf(cfg, v, front) + RowsOf(v, op.w, Head(d, op.w), d.nextGid, Batch(cfg, d, op))
  {
    assert (front + [op])[..|front|] == front;
  }

  const ops := [Create("e", ""), Create("s", ""), Command("e", "")]

  const site := Site(H.Runner(_ => true), _ => true, (k: Key, e: Event) => Labels("x", [], []))

  /** The row of a site where every workflow is the runner's and every event has type "x". */
  function PlainRow(gid: int, w: Id, version: int, e: Event): H.Row { H.Row(gid, w, version, true, "x", [], [], e) }

  function FiveRows(): seq<H.Row> {
    [PlainRow(1, "e", 1, Tick), PlainRow(2, "e", 2, SubscriptionAdded(Wish)),
     PlainRow(3, "s", 1, Tick), PlainRow(4, "s", 2, SubscriptionAdded(Wish)), PlainRow(5, "e", 3, ActionCancel([]))]
  }

  lemma {:induction false} RowsAreFive()
    ensures [] + RowsOf(site, "e", 0, 1, Born) + RowsOf(site, "s", 0, 3, Born) + RowsOf(site, "e", 2, 5, Stop) == FiveRows()
  {
    assert RowsOf(site, "e", 0, 1, Born) == FiveRows()[..2];
    assert RowsOf(site, "s", 0, 3, Born) == FiveRows()[2..4];
    assert RowsOf(site, "e", 2, 5, Stop) == FiveRows()[4..];
  }

  lemma {:induction false} LogOfThree(cfg: Config, v: Site, a: Op, b: Op, c: Op, d1: Db, d2: Db, d3: Db)
    requires ApplyOp(cfg, EmptyDb, a) == Some(d1) && ApplyOp(cfg, d1, b) == Some(d2) && ApplyOp(cfg, d2, c) == Some(d3)
    ensures Replay(cfg, EmptyDb, [a, b, c]) == Some(d3)
    ensures LogOf(cfg, v, [a, b, c]) ==
            [] + RowsOf(v, a.w, Head(EmptyDb, a.w), 1, Batch(cfg, EmptyDb, a))
            + RowsOf(v, b.w, Head(d1, b.w), d1.nextGid, Batch(cfg, d1, b))
            + RowsOf(v, c.w, Head(d2, c.w), d2.nextGid, Batch(cfg, d2, c))
  {
    ReplaySnoc(cfg, EmptyDb, [], a);
    ReplaySnoc(cfg, EmptyDb, [a], b);
    ReplaySnoc(cfg, EmptyDb, [a, b], c);
    assert [] + [a] == [a] && [a] + [b] == [a, b] && [a, b] + [c] == [a, b, c];
    LogSnoc(cfg, v, [], a, EmptyDb);
    LogSnoc(cfg, v, [a], b, d1);
    LogSnoc(cfg, v, [a, b], c, d2);
  }

  // ---------------------------------------------------------------------------------------------
  // The event that is not handed over
  // ---------------------------------------------------------------------------------------------

  const watch := H.Watch("s", Wish, 4)

  /** The runner has passed the subscription and the wanted event behind it, and has not handed that event over. */
  lemma {:induction false} ActionCancelIsNotHandedOver() returns (u: I.Setup, steps: seq<Step>, s: World)
    ensures FrameworkNotFinal(u.cfg.wf) && H.Named(watch) && Run(u, site, Start, steps) == Some(s)
    ensures LogOf(u.cfg, site, s.sys.history) == FiveRows() && Sole(watch, FiveRows()) && s.next == 5
    ensures H.Wanted(site.runner, watch, FiveRows()[4]) && H.Passed(watch, View(u, site, s))
    ensures s.out[H.Delivery("s", FiveRows()[4])] == 0
  {
    u := I.Setup(Config(Endless(Born, Stops), 100), _ => false);
    EndlessWell(Born, Stops);
    var d1, d2, d3 := ThreeCalls(u.cfg);
    LogOfThree(u.cfg, site, ops[0], ops[1], ops[2], d1, d2, d3);
    RowsAreFive();
    var quiet := SerialIsReachable(u, ops, d3);
    SystemFirst(u, site, quiet, I.World(d3, map[], map[], ops));
    steps, s := ProcessAll(u, site, Lifted(quiet), Start.(sys := I.World(d3, map[], map[], ops)));
    FiveRowsWatched();
    assert View(u, site, s).log[3].gid == watch.gid;
    ExactlyOnce(u, site, watch, steps, s, 4);
  }

  lemma {:induction false} FiveRowsWatched()
    ensures H.Named(watch) && Sole(watch, FiveRows()) && H.Wanted(site.runner, watch, FiveRows()[4]) && H.Cancels(FiveRows()[4])
  {
  }
}
