/**
 What holds when repository calls run one at a time.  The interleaved system of module Interleaving is
 shown to be equivalent to such a run, so these are the facts that its theorems rest on.
 */
module SerialHistory {
  import opened Wrappers
  import opened WorkflowModel
  import opened EventStore

  /** The events that `op` appends when it is run alone on `db`. */
  ghost function Batch(cfg: Config, db: Db, op: Op): seq<Event> {
    match op
    case Register(_, _, _) => []
    case Fire(_, id, _) => [DelayComplete(id)]
    case _ =>
      var base := if Loads(op) then Load(cfg, db, op.w, None) else None;
      if Loads(op) && base.None? then []
      else match Decide(cfg.wf, op, StateOf(base)) case None => [] case Some(es) => es
  }

  lemma {:induction false} EmptyDbOk(cfg: Config)
    ensures DbOk(cfg, EmptyDb)
    ensures forall w :: Head(EmptyDb, w) == 0
  {
    forall w ensures LogOk(cfg, EmptyDb, w) && Head(EmptyDb, w) == 0 {
      HeadOf(EmptyDb.events, w, 0);
    }
  }

  /** A loaded state is the fold of the whole log. */
  lemma {:induction false} LoadAtHead(cfg: Config, db: Db, w: Id)
    requires LogOk(cfg, db, w)
    ensures var r := Load(cfg, db, w, None);
            r.Some? ==> r.value.version == Head(db, w) >= 1 && FoldTo(cfg, db, w, Head(db, w)) == Some(r.value.state)
  {
    LoadFromIsFold(cfg, db, w, SnapshotFor(cfg, db, w, None), None);
    if Head(db, w) > 0 {
      FoldSome(cfg, db, w, Head(db, w));
    }
  }

  lemma {:induction false} LoadedVersion(cfg: Config, db: Db, w: Id)
    requires DbOk(cfg, db)
    ensures var r := Load(cfg, db, w, None);
            r.Some? ==> r.value.version == Head(db, w) && StateOf(r) == FoldTo(cfg, db, w, Head(db, w))
  {
    assert LogOk(cfg, db, w);
    LoadAtHead(cfg, db, w);
  }

  /** What a call that loads has loaded and decided. */
  lemma {:induction false} LoadedBatch(cfg: Config, db: Db, op: Op, db': Db) returns (base: Option<Stored>, es: seq<Event>)
    requires Loads(op) && ApplyOp(cfg, db, op) == Some(db')
    ensures base == Load(cfg, db, op.w, None) && base.Some?
    ensures es != [] && es == Batch(cfg, db, op) && Decide(cfg.wf, op, StateOf(base)) == Some(es)
    ensures CommitOp(cfg, db, op, base, es) == Committed(db') && (op.Command? ==> Key(op.w, 1) in db.events)
  {
    base, es := Load(cfg, db, op.w, None), Batch(cfg, db, op);
  }

  lemma {:induction false} LoadedApply(cfg: Config, db: Db, op: Op, es: seq<Event>, db': Db)
    requires Loads(op) && es != [] && (op.Command? ==> Key(op.w, 1) in db.events)
    requires var base := Load(cfg, db, op.w, None);
             && base.Some? && Decide(cfg.wf, op, StateOf(base)) == Some(es)
             && CommitOp(cfg, db, op, base, es) == Committed(db')
    ensures ApplyOp(cfg, db, op) == Some(db')
  {
  }

  /** One call appends its batch to its own log, touches no other log, and keeps every log well formed. */
  lemma {:induction false} ApplyOpKeeps(cfg: Config, db: Db, op: Op, db': Db)
    requires DbOk(cfg, db) && ApplyOp(cfg, db, op) == Some(db')
    ensures DbOk(cfg, db') && Extends(db, db')
    ensures Log(db', op.w) == Log(db, op.w) + Batch(cfg, db, op)
    ensures Head(db', op.w) == Head(db, op.w) + |Batch(cfg, db, op)|
    ensures forall u :: u != op.w ==> SameWorkflow(db, db', u) && Log(db', u) == Log(db, u)
  {
    if op.Register? {
      RegisterKeeps(cfg, db, op, db');
    } else if op.Fire? {
      FireAtHead(cfg, db, op.w, op.delayId, op.row, db');
    } else if Loads(op) {
      var base, es := LoadedBatch(cfg, db, op, db');
      LoadedVersion(cfg, db, op.w);
      CommitAtHead(cfg, db, op.w, StateOf(base), es, db');
    } else {
      CreateAtZero(cfg, db, op, db');
    }
  }

  lemma {:induction false} RegisterKeeps(cfg: Config, db: Db, op: Op, db': Db)
    requires DbOk(cfg, db) && op.Register? && ApplyOp(cfg, db, op) == Some(db')
    ensures DbOk(cfg, db') && Extends(db, db')
    ensures forall u :: SameWorkflow(db, db', u) && Log(db', u) == Log(db, u)
    ensures Log(db', op.w) == Log(db, op.w) + Batch(cfg, db, op) && Head(db', op.w) == Head(db, op.w)
  {
    forall u ensures LogOk(cfg, db', u) && Grows(db, db', u) && Log(db', u) == Log(db, u) {
      assert LogOk(cfg, db, u);
      FrameLog(cfg, db, db', u);
    }
  }

  lemma {:induction false} CreateAtZero(cfg: Config, db: Db, op: Op, db': Db)
    requires DbOk(cfg, db) && op.Create? && ApplyOp(cfg, db, op) == Some(db')
    ensures Head(db, op.w) == 0
    ensures DbOk(cfg, db') && Extends(db, db')
    ensures Log(db', op.w) == Log(db, op.w) + Batch(cfg, db, op)
    ensures Head(db', op.w) == Head(db, op.w) + |Batch(cfg, db, op)|
    ensures forall u :: u != op.w ==> SameWorkflow(db, db', u) && Log(db', u) == Log(db, u)
  {
    assert LogOk(cfg, db, op.w);
    var es := Batch(cfg, db, op);
    NoConflictAtHead(db.events, op.w, Head(db, op.w), 0, |es|);
    CommitAtHead(cfg, db, op.w, None, es, db');
  }

  lemma {:induction false} GrowsTrans(a: Db, b: Db, c: Db)
    requires Extends(a, b) && Extends(b, c)
    ensures Extends(a, c)
  {
    forall w ensures Grows(a, c, w) {
      assert Grows(a, b, w) && Grows(b, c, w);
    }
  }

  lemma {:induction false} ReplayKeeps(cfg: Config, db: Db, ops: seq<Op>, db': Db)
    requires DbOk(cfg, db) && Replay(cfg, db, ops) == Some(db')
    ensures DbOk(cfg, db') && Extends(db, db')
    decreases |ops|
  {
    if ops == [] {
      forall w ensures Grows(db, db, w) {
        assert LogOk(cfg, db, w);
      }
    } else {
      var d := Replay(cfg, db, ops[..|ops| - 1]).value;
      ReplayKeeps(cfg, db, ops[..|ops| - 1], d);
      ApplyOpKeeps(cfg, d, ops[|ops| - 1], db');
      GrowsTrans(db, d, db');
    }
  }

  lemma {:induction false} ReplayConcat(cfg: Config, db: Db, a: seq<Op>, b: seq<Op>)
    ensures Replay(cfg, db, a + b) ==
            match Replay(cfg, db, a) { case None => None case Some(d) => Replay(cfg, d, b) }
    decreases |b|
  {
    if b == [] {
      assert a + b == a;
    } else {
      ReplayConcat(cfg, db, a, b[..|b| - 1]);
      assert (a + b)[..|a + b| - 1] == a + b[..|b| - 1];
    }
  }

  // ---------------------------------------------------------------------------------------------
  // Every batch was decided on the prefix it follows
  // ---------------------------------------------------------------------------------------------

  /** The events at n+1.. of w are what `op` decides on the fold of the events 1..n. */
  ghost predicate DecidedOnPrefix(cfg: Config, db: Db, op: Op, n: int, es: seq<Event>) {
    && Decides(op) && 0 <= n && n + |es| <= |Log(db, op.w)|
    && Log(db, op.w)[n..n + |es|] == es
    && var state := EvolveAll(cfg.wf, None, Log(db, op.w)[..n]);
       (Loads(op) ==> state.Some?) && (op.Create? ==> n == 0) && Decide(cfg.wf, op, state) == Some(es)
  }

  lemma {:induction false} LogLength(cfg: Config, db: Db, w: Id)
    requires LogOk(cfg, db, w)
    ensures |Log(db, w)| == Head(db, w)
  {
    SelectLen(db.events, w, 0, Head(db, w));
  }

  lemma {:induction false} LogPrefix(cfg: Config, db: Db, db': Db, w: Id)
    requires LogOk(cfg, db, w) && LogOk(cfg, db', w) && Grows(db, db', w)
    ensures Log(db, w) <= Log(db', w)
  {
    SelectSame(db.events, db'.events, w, 0, Head(db, w));
    SelectSplit(db'.events, w, 0, Head(db, w), Head(db', w));
  }

  /** What a call decides, it decides on the fold of the log it finds. */
  lemma {:induction false} DecidesOnFold(cfg: Config, db: Db, op: Op, db': Db)
    requires DbOk(cfg, db) && ApplyOp(cfg, db, op) == Some(db') && Decides(op)
    ensures var state := FoldTo(cfg, db, op.w, Head(db, op.w));
            && (Loads(op) ==> state.Some?) && (op.Create? ==> Head(db, op.w) == 0)
            && Decide(cfg.wf, op, state) == Some(Batch(cfg, db, op))
  {
    assert LogOk(cfg, db, op.w);
    if op.Create? {
      CreateAtZero(cfg, db, op, db');
    } else {
      LoadAtHead(cfg, db, op.w);
    }
  }

  lemma {:induction false} DecidedNow(cfg: Config, db: Db, op: Op, db': Db)
    requires DbOk(cfg, db) && ApplyOp(cfg, db, op) == Some(db') && Decides(op)
    ensures DecidedOnPrefix(cfg, db', op, Head(db, op.w), Batch(cfg, db, op))
  {
    ApplyOpKeeps(cfg, db, op, db');
    DecidesOnFold(cfg, db, op, db');
    assert LogOk(cfg, db, op.w) && LogOk(cfg, db', op.w);
    LogLength(cfg, db, op.w);
    LogLength(cfg, db', op.w);
    assert Log(db', op.w)[..Head(db, op.w)] == Log(db, op.w);
  }

  lemma {:induction false} DecidedLater(cfg: Config, db: Db, db': Db, op: Op, n: int, es: seq<Event>)
    requires DbOk(cfg, db) && DbOk(cfg, db') && Extends(db, db') && DecidedOnPrefix(cfg, db, op, n, es)
    ensures DecidedOnPrefix(cfg, db', op, n, es)
  {
    assert LogOk(cfg, db, op.w) && LogOk(cfg, db', op.w) && Grows(db, db', op.w);
    LogPrefix(cfg, db, db', op.w);
    assert Log(db', op.w)[..n] == Log(db, op.w)[..n];
  }

  /** The database that the first i calls leave. */
  ghost function DbBefore(cfg: Config, ops: seq<Op>, i: nat): Option<Db>
    requires i <= |ops|
  {
    Replay(cfg, EmptyDb, ops[..i])
  }

  lemma {:induction false} DbBeforeSome(cfg: Config, ops: seq<Op>, i: nat)
    requires i <= |ops| && Replay(cfg, EmptyDb, ops).Some?
    ensures DbBefore(cfg, ops, i).Some?
  {
    assert ops == ops[..i] + ops[i..];
    ReplayConcat(cfg, EmptyDb, ops[..i], ops[i..]);
  }

  /** The batch of call i stands right behind the log it found, and is what it decides on the fold of that log. */
  lemma {:induction false} SerialDecisions(cfg: Config, ops: seq<Op>, db: Db, i: nat)
    requires Replay(cfg, EmptyDb, ops) == Some(db) && i < |ops| && Decides(ops[i])
    ensures var before := DbBefore(cfg, ops, i);
            before.Some? && DecidedOnPrefix(cfg, db, ops[i], Head(before.value, ops[i].w), Batch(cfg, before.value, ops[i]))
    decreases |ops|
  {
    EmptyDbOk(cfg);
    var rest := ops[..|ops| - 1];
    var d := Replay(cfg, EmptyDb, rest).value;
    var op := ops[|ops| - 1];
    ReplayKeeps(cfg, EmptyDb, rest, d);
    ApplyOpKeeps(cfg, d, op, db);
    if i < |rest| {
      assert rest[..i] == ops[..i];
      SerialDecisions(cfg, rest, d, i);
      var before := DbBefore(cfg, ops, i).value;
      DecidedLater(cfg, d, db, ops[i], Head(before, ops[i].w), Batch(cfg, before, ops[i]));
    } else {
      DecidedNow(cfg, d, op, db);
    }
  }

  /** The batches that the calls on w appended, in order. */
  ghost function BatchesOf(cfg: Config, ops: seq<Op>, w: Id): seq<Event> {
    if ops == [] then []
    else
      var front, op := ops[..|ops| - 1], ops[|ops| - 1];
      var d := Replay(cfg, EmptyDb, front);
      BatchesOf(cfg, front, w) + if op.w == w && d.Some? then Batch(cfg, d.value, op) else []
  }

  /** The batches tile the log: nothing between them, nothing besides them. */
  lemma {:induction false} LogIsBatches(cfg: Config, ops: seq<Op>, db: Db, w: Id)
    requires Replay(cfg, EmptyDb, ops) == Some(db)
    ensures Log(db, w) == BatchesOf(cfg, ops, w)
    decreases |ops|
  {
    EmptyDbOk(cfg);
    if ops != [] {
      var front, op := ops[..|ops| - 1], ops[|ops| - 1];
      var d := Replay(cfg, EmptyDb, front).value;
      LogIsBatches(cfg, front, d, w);
      ReplayKeeps(cfg, EmptyDb, front, d);
      ApplyOpKeeps(cfg, d, op, db);
    }
  }

  // ---------------------------------------------------------------------------------------------
  // Paused and cancelled workflows
  // ---------------------------------------------------------------------------------------------

  ghost predicate Held(cfg: Config, db: Db, w: Id, l: Lifecycle) {
    var s := FoldTo(cfg, db, w, Head(db, w));
    s.Some? && s.value.evolver && s.value.base.lifecycle == l
  }

  ghost predicate IsCancelled(cfg: Config, db: Db, w: Id) { Held(cfg, db, w, Cancelled) }

  /** Only a pause can be lifted. */
  predicate Lifts(op: Op, l: Lifecycle) { l == Paused && (op.Resume? || op.Cancel?) }

  /** The log grew from l to r by delay_complete rows alone. */
  predicate OnlyDelaysAfter(l: seq<Event>, r: seq<Event>) {
    l <= r && forall i :: |l| <= i < |r| ==> r[i].DelayComplete?
  }

  lemma {:induction false} OnlyDelaysTrans(l: seq<Event>, m: seq<Event>, r: seq<Event>)
    requires OnlyDelaysAfter(l, m) && OnlyDelaysAfter(m, r)
    ensures OnlyDelaysAfter(l, r)
  {
    forall i | |l| <= i < |r| ensures r[i].DelayComplete? {
      assert i < |m| ==> r[i] == m[i];
    }
  }

  predicate Unordered(op: Op) { op.Fire? || op.Register? }

  /** A state that is held refuses every command and lifecycle call that does not lift it. */
  lemma {:induction false} HeldRefuses(cfg: Config, db: Db, op: Op, l: Lifecycle)
    requires DbOk(cfg, db) && l != Active && Held(cfg, db, op.w, l) && ApplyOp(cfg, db, op).Some? && !Lifts(op, l)
    ensures Unordered(op)
  {
    if op.Create? {
      CreateAtZero(cfg, db, op, ApplyOp(cfg, db, op).value);
    } else if Loads(op) {
      HeldDecides(cfg.wf, op, FoldTo(cfg, db, op.w, Head(db, op.w)).value, l);
      var base, es := LoadedBatch(cfg, db, op, ApplyOp(cfg, db, op).value);
      LoadedVersion(cfg, db, op.w);
    }
  }

  lemma {:induction false} HeldDecides(wf: Workflow, op: Op, s: State, l: Lifecycle)
    requires Loads(op) && l != Active && s.base.lifecycle == l && !Lifts(op, l)
    ensures Decide(wf, op, Some(s)) == None
  {
  }

  lemma {:induction false} HeldFire(cfg: Config, db: Db, op: Op, db': Db, l: Lifecycle)
    requires KeepsBase(cfg.wf) && op.Fire? && Held(cfg, db, op.w, l)
    requires Log(db', op.w) == Log(db, op.w) + [DelayComplete(op.delayId)]
    ensures Held(cfg, db', op.w, l) && OnlyDelaysAfter(Log(db, op.w), Log(db', op.w))
  {
    EvolveAllConcat(cfg.wf, None, Log(db, op.w), [DelayComplete(op.delayId)]);
    EvolveBase(cfg.wf, FoldTo(cfg, db, op.w, Head(db, op.w)).value, DelayComplete(op.delayId));
  }

  lemma {:induction false} HeldStep(cfg: Config, db: Db, op: Op, db': Db, w: Id, l: Lifecycle)
    requires KeepsBase(cfg.wf) && DbOk(cfg, db) && ApplyOp(cfg, db, op) == Some(db')
    requires l != Active && Held(cfg, db, w, l) && (op.w == w ==> !Lifts(op, l))
    ensures Held(cfg, db', w, l) && (op.w == w ==> Unordered(op))
    ensures OnlyDelaysAfter(Log(db, w), Log(db', w))
  {
    ApplyOpKeeps(cfg, db, op, db');
    if op.w == w {
      HeldRefuses(cfg, db, op, l);
      if op.Fire? {
        HeldFire(cfg, db, op, db', l);
      }
    } else {
      assert SameWorkflow(db, db', w) && Log(db', w) == Log(db, w);
    }
  }

  /** No call in `ops` was a command or a lifecycle call on w. */
  predicate NoOrders(ops: seq<Op>, w: Id) { forall i :: 0 <= i < |ops| && ops[i].w == w ==> Unordered(ops[i]) }

  lemma {:induction false} NoOrdersSnoc(ops: seq<Op>, w: Id)
    requires ops != [] && NoOrders(ops[..|ops| - 1], w) && (ops[|ops| - 1].w == w ==> Unordered(ops[|ops| - 1]))
    ensures NoOrders(ops, w)
  {
    forall i | 0 <= i < |ops| && ops[i].w == w ensures Unordered(ops[i]) {
      assert i < |ops| - 1 ==> ops[..|ops| - 1][i] == ops[i];
    }
  }

  predicate NeverLifted(ops: seq<Op>, w: Id, l: Lifecycle) {
    forall i :: 0 <= i < |ops| && ops[i].w == w ==> !Lifts(ops[i], l)
  }

  lemma {:induction false} HeldThroughout(cfg: Config, db: Db, ops: seq<Op>, db': Db, w: Id, l: Lifecycle)
    requires KeepsBase(cfg.wf) && DbOk(cfg, db) && Replay(cfg, db, ops) == Some(db')
    requires l != Active && Held(cfg, db, w, l) && NeverLifted(ops, w, l)
    ensures Held(cfg, db', w, l) && OnlyDelaysAfter(Log(db, w), Log(db', w)) && NoOrders(ops, w)
    decreases |ops|
  {
    if ops != [] {
      var front, op := ops[..|ops| - 1], ops[|ops| - 1];
      var d := Replay(cfg, db, front).value;
      assert NeverLifted(front, w, l) by {
        assert forall i :: 0 <= i < |front| ==> front[i] == ops[i];
      }
      HeldThroughout(cfg, db, front, d, w, l);
      ReplayKeeps(cfg, db, front, d);
      HeldStep(cfg, d, op, db', w, l);
      OnlyDelaysTrans(Log(db, w), Log(d, w), Log(db', w));
      NoOrdersSnoc(ops, w);
    }
  }

  // ---------------------------------------------------------------------------------------------
  // Every state is a SystemEvolver
  // ---------------------------------------------------------------------------------------------

  /** The batch can follow the state: a missing state is only ever met by an event of the user's. */
  predicate StartsWell(s: Option<State>, es: seq<Event>) {
    match s
    case Some(st) => st.evolver
    case None => es != [] ==> SystemBase(NewStateBase, es[0]).None?
  }

  lemma {:induction false} BatchStaysConcrete(wf: Workflow, s: Option<State>, es: seq<Event>)
    requires KeepsBase(wf) && StartsWell(s, es)
    ensures var r := EvolveAll(wf, s, es); r.Some? ==> r.value.evolver
    decreases |es|
  {
    if es != [] {
      BatchStaysConcrete(wf, s, es[..|es| - 1]);
      var r := EvolveAll(wf, s, es[..|es| - 1]);
      if r.Some? { EvolveBase(wf, r.value, es[|es| - 1]); }
    }
  }

  ghost predicate Concrete(cfg: Config, db: Db, w: Id) {
    var s := FoldTo(cfg, db, w, Head(db, w)); s.Some? ==> s.value.evolver
  }

  /** What a call appends can follow the state it is appended to. */
  lemma {:induction false} BatchStartsWell(cfg: Config, db: Db, op: Op, db': Db)
    requires KeepsBase(cfg.wf) && BornByUser(cfg.wf) && DbOk(cfg, db) && Concrete(cfg, db, op.w)
    requires ApplyOp(cfg, db, op) == Some(db')
    ensures StartsWell(FoldTo(cfg, db, op.w, Head(db, op.w)), Batch(cfg, db, op))
    ensures FoldTo(cfg, db', op.w, Head(db', op.w)) ==
            EvolveAll(cfg.wf, FoldTo(cfg, db, op.w, Head(db, op.w)), Batch(cfg, db, op))
  {
    ApplyOpKeeps(cfg, db, op, db');
    EvolveAllConcat(cfg.wf, None, Log(db, op.w), Batch(cfg, db, op));
    assert LogOk(cfg, db, op.w);
    if op.Create? {
      CreateAtZero(cfg, db, op, db');
    } else if Loads(op) {
      LoadAtHead(cfg, db, op.w);
    } else if op.Fire? {
      HeadOf(db.events, op.w, Head(db, op.w));
      FoldSome(cfg, db, op.w, Head(db, op.w));
    }
  }

  lemma {:induction false} ConcreteStep(cfg: Config, db: Db, op: Op, db': Db, w: Id)
    requires KeepsBase(cfg.wf) && BornByUser(cfg.wf) && DbOk(cfg, db) && Concrete(cfg, db, w)
    requires ApplyOp(cfg, db, op) == Some(db')
    ensures Concrete(cfg, db', w)
  {
    if op.w == w {
      BatchStartsWell(cfg, db, op, db');
      BatchStaysConcrete(cfg.wf, FoldTo(cfg, db, w, Head(db, w)), Batch(cfg, db, op));
    } else {
      ApplyOpKeeps(cfg, db, op, db');
      assert SameWorkflow(db, db', w) && Log(db', w) == Log(db, w);
    }
  }

  lemma {:induction false} SerialConcrete(cfg: Config, ops: seq<Op>, db: Db, w: Id)
    requires KeepsBase(cfg.wf) && BornByUser(cfg.wf) && Replay(cfg, EmptyDb, ops) == Some(db)
    ensures Concrete(cfg, db, w)
    decreases |ops|
  {
    EmptyDbOk(cfg);
    if ops != [] {
      var d := Replay(cfg, EmptyDb, ops[..|ops| - 1]).value;
      SerialConcrete(cfg, ops[..|ops| - 1], d, w);
      ReplayKeeps(cfg, EmptyDb, ops[..|ops| - 1], d);
      ConcreteStep(cfg, d, ops[|ops| - 1], db, w);
    }
  }

  /** CancelWorkflow leaves the workflow cancelled. */
  lemma {:induction false} CancelCancels(cfg: Config, ops: seq<Op>, db: Db, w: Id, reason: string, db': Db)
    requires KeepsBase(cfg.wf) && BornByUser(cfg.wf) && Replay(cfg, EmptyDb, ops) == Some(db)
    requires ApplyOp(cfg, db, Cancel(w, reason)) == Some(db')
    ensures IsCancelled(cfg, db', w)
  {
    EmptyDbOk(cfg);
    ReplayKeeps(cfg, EmptyDb, ops, db);
    SerialConcrete(cfg, ops, db, w);
    assert LogOk(cfg, db, w);
    LoadAtHead(cfg, db, w);
    BatchStartsWell(cfg, db, Cancel(w, reason), db');
  }

  // ---------------------------------------------------------------------------------------------
  // Pausing and resuming
  // ---------------------------------------------------------------------------------------------

  /** A pause or a resume appends its one event to a state that exists. */
  lemma {:induction false} LifecycleEvolves(cfg: Config, db: Db, op: Op, db': Db)
    requires KeepsBase(cfg.wf) && BornByUser(cfg.wf) && DbOk(cfg, db) && Concrete(cfg, db, op.w)
    requires (op.Pause? || op.Resume?) && ApplyOp(cfg, db, op) == Some(db')
    ensures var s := FoldTo(cfg, db, op.w, Head(db, op.w));
            && s.Some? && s.value.evolver && s.value.base.lifecycle == (if op.Pause? then Active else Paused)
            && FoldTo(cfg, db', op.w, Head(db', op.w)) ==
               Some(s.value.(base := s.value.base.(lifecycle := if op.Pause? then Paused else Active)))
  {
    var base, es := LoadedBatch(cfg, db, op, db');
    LoadedVersion(cfg, db, op.w);
    BatchStartsWell(cfg, db, op, db');
    assert es[..0] == [];
  }

  /** Pausing holds the workflow; resuming gives back the very state it had before the pause. */
  lemma {:induction false} ResumeUndoesPause(cfg: Config, db: Db, w: Id, reason: string, paused: Db, resumed: Db)
    requires KeepsBase(cfg.wf) && BornByUser(cfg.wf) && DbOk(cfg, db) && Concrete(cfg, db, w)
    requires ApplyOp(cfg, db, Pause(w, reason)) == Some(paused)
    ensures Held(cfg, paused, w, Paused)
    ensures ApplyOp(cfg, paused, Resume(w)) == Some(resumed) ==>
              FoldTo(cfg, resumed, w, Head(resumed, w)) == FoldTo(cfg, db, w, Head(db, w))
  {
    LifecycleEvolves(cfg, db, Pause(w, reason), paused);
    if ApplyOp(cfg, paused, Resume(w)) == Some(resumed) {
      ApplyOpKeeps(cfg, db, Pause(w, reason), paused);
      LifecycleEvolves(cfg, paused, Resume(w), resumed);
    }
  }
}
