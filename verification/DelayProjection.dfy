/**
 The delay_schedules table is a projection of state: its cron rows for a workflow are the Schedules of
 that workflow's folded state (pkg/repo/repo.go, pkg/model/workflow.go, pkg/delay/scheduler.go).
 */
module DelayProjection {
  import opened Wrappers
  import opened WorkflowModel
  import opened EventStore
  import opened SerialHistory
  import opened Interleaving

  type Delays = map<DelayKey, DelayRow>

  /** The cron row of (w, id), read as a schedule. */
  function CronRow(delays: Delays, w: Id, id: Id): Option<Schedule> {
    var k := DelayKey(w, id);
    if k in delays && delays[k].cron != ""
    then Some(Schedule(id, delays[k].cron, delays[k].timezone, delays[k].nextCmd)) else None
  }

  function ScheduleOf(ss: seq<Schedule>, id: Id): Option<Schedule> {
    var i := FindSchedule(ss, id);
    if i >= 0 then Some(ss[i]) else None
  }

  ghost predicate UniqueIds(ss: seq<Schedule>) {
    forall i, j :: 0 <= i < j < |ss| ==> ss[i].id != ss[j].id
  }

  /** As maps from id to (cron, timezone, next command), the cron rows of w and the schedules are equal. */
  ghost predicate Projects(delays: Delays, w: Id, ss: seq<Schedule>) {
    forall id :: CronRow(delays, w, id) == ScheduleOf(ss, id)
  }

  /** Schedules have cron ids and a cron expression, and no two share an id. */
  ghost predicate CronOnly(isCron: Id -> bool, ss: seq<Schedule>) {
    UniqueIds(ss) && forall i :: 0 <= i < |ss| ==> isCron(ss[i].id) && ss[i].cron != ""
  }

  /** Cron schedules and one-shot delays use disjoint ids, and a schedule has a cron expression. */
  predicate WellNamed(isCron: Id -> bool, e: Event) {
    && (e.ScheduleAdded? ==> isCron(e.schedule.id) && e.schedule.cron != "")
    && (e.Delay? ==> (isCron(e.id) <==> e.cron != ""))
  }

  ghost predicate AllWellNamed(isCron: Id -> bool, es: seq<Event>) {
    forall e :: e in es ==> WellNamed(isCron, e)
  }

  ghost predicate NamesWell(isCron: Id -> bool, wf: Workflow) {
    forall s, c :: var d := wf.decide(s, c); d.Accepted? ==> AllWellNamed(isCron, d.events)
  }

  function SchedulesOf(s: Option<State>): seq<Schedule> {
    match s case Some(st) => st.base.schedules case None => []
  }

  // ---------------------------------------------------------------------------------------------
  // The list operations, as operations on the map
  // ---------------------------------------------------------------------------------------------

  lemma {:induction false} FindUnique(ss: seq<Schedule>, i: nat)
    requires UniqueIds(ss) && i < |ss|
    ensures FindSchedule(ss, ss[i].id) == i
  {
  }

  lemma {:induction false} UpsertIsUpdate(isCron: Id -> bool, ss: seq<Schedule>, s: Schedule, id: Id)
    requires CronOnly(isCron, ss) && isCron(s.id) && s.cron != ""
    ensures CronOnly(isCron, UpsertSchedule(ss, s))
    ensures ScheduleOf(UpsertSchedule(ss, s), id) == if id == s.id then Some(s) else ScheduleOf(ss, id)
  {
    var r := UpsertSchedule(ss, s);
    var i := FindSchedule(ss, id);
    var j := FindSchedule(r, id);
    if i >= 0 { FindUnique(r, i); }
    if j >= 0 { FindUnique(r, j); }
    if id == s.id && i < 0 { FindUnique(r, |ss|); }
  }

  lemma {:induction false} WithoutOne(isCron: Id -> bool, ss: seq<Schedule>, k: nat)
    requires CronOnly(isCron, ss) && k < |ss|
    ensures CronOnly(isCron, ss[..k] + ss[k + 1..])
    ensures FindSchedule(ss[..k] + ss[k + 1..], ss[k].id) == -1
  {
    var r := ss[..k] + ss[k + 1..];
    assert forall x :: 0 <= x < |r| ==> r[x] == if x < k then ss[x] else ss[x + 1];
  }

  lemma {:induction false} RemoveIsDelete(isCron: Id -> bool, ss: seq<Schedule>, d: Id, id: Id)
    requires CronOnly(isCron, ss)
    ensures CronOnly(isCron, RemoveSchedule(ss, d))
    ensures ScheduleOf(RemoveSchedule(ss, d), id) == if id == d then None else ScheduleOf(ss, id)
  {
    var r := RemoveSchedule(ss, d);
    var k := FindSchedule(ss, d);
    if k >= 0 {
      WithoutOne(isCron, ss, k);
      if id != d {
        var i, j := FindSchedule(ss, id), FindSchedule(r, id);
        if i >= 0 {
          var x := if i < k then i else i - 1;
          assert r[x] == ss[i];
          FindUnique(r, x);
        }
      }
    }
  }

  // ---------------------------------------------------------------------------------------------
  // One event, one batch, one call
  // ---------------------------------------------------------------------------------------------

  function SchedulesAfter(b: StateBase, e: Event): seq<Schedule> {
    match SystemBase(b, e) case Some(c) => c.schedules case None => b.schedules
  }

  lemma {:induction false} EventKeepsCronOnly(isCron: Id -> bool, b: StateBase, e: Event)
    requires CronOnly(isCron, b.schedules) && WellNamed(isCron, e)
    ensures CronOnly(isCron, SchedulesAfter(b, e))
  {
    match e
    case ScheduleAdded(s) => UpsertIsUpdate(isCron, b.schedules, s, s.id);
    case ScheduleRemoved(d) => RemoveIsDelete(isCron, b.schedules, d, d);
    case CancelSchedule(d) => RemoveIsDelete(isCron, b.schedules, d, d);
    case Delay(d, _, _, cron, _) =>
      if cron != "" { UpsertIsUpdate(isCron, b.schedules, CronSchedule(e), d); }
    case _ =>
  }

  lemma {:induction false} EventProjectsAt(isCron: Id -> bool, delays: Delays, w: Id, b: StateBase, e: Event, id: Id)
    requires CronOnly(isCron, b.schedules) && WellNamed(isCron, e)
    requires CronRow(delays, w, id) == ScheduleOf(b.schedules, id)
    ensures CronRow(SyncDelay(delays, w, e), w, id) == ScheduleOf(SchedulesAfter(b, e), id)
  {
    match e
    case ScheduleAdded(s) => UpsertProjects(isCron, delays, w, b.schedules, s, id);
    case ScheduleRemoved(d) => RemoveProjects(isCron, delays, w, b.schedules, d, id);
    case CancelSchedule(d) => RemoveProjects(isCron, delays, w, b.schedules, d, id);
    case Delay(d, _, _, cron, _) =>
      if cron != "" {
        UpsertProjects(isCron, delays, w, b.schedules, CronSchedule(e), id);
      } else {
        OneShotKeeps(isCron, delays, w, b.schedules, e, id);
      }
    case _ =>
  }

  lemma {:induction false} UpsertProjects(isCron: Id -> bool, delays: Delays, w: Id, ss: seq<Schedule>, s: Schedule, id: Id)
    requires CronOnly(isCron, ss) && isCron(s.id) && s.cron != "" && CronRow(delays, w, id) == ScheduleOf(ss, id)
    ensures CronRow(delays[DelayKey(w, s.id) := DelayRow(s.cron, s.timezone, s.nextCmd)], w, id) == ScheduleOf(UpsertSchedule(ss, s), id)
  {
    UpsertIsUpdate(isCron, ss, s, id);
  }

  lemma {:induction false} RemoveProjects(isCron: Id -> bool, delays: Delays, w: Id, ss: seq<Schedule>, d: Id, id: Id)
    requires CronOnly(isCron, ss) && CronRow(delays, w, id) == ScheduleOf(ss, id)
    ensures CronRow(delays - {DelayKey(w, d)}, w, id) == ScheduleOf(RemoveSchedule(ss, d), id)
  {
    RemoveIsDelete(isCron, ss, d, id);
  }

  /** A one-shot row never stands where a cron schedule is. */
  lemma {:induction false} OneShotKeeps(isCron: Id -> bool, delays: Delays, w: Id, ss: seq<Schedule>, e: Event, id: Id)
    requires CronOnly(isCron, ss) && e.Delay? && e.cron == "" && WellNamed(isCron, e)
    requires CronRow(delays, w, id) == ScheduleOf(ss, id)
    ensures CronRow(SyncDelay(delays, w, e), w, id) == ScheduleOf(ss, id)
  {
    if id == e.id {
      assert FindSchedule(ss, id) < 0;
    }
  }

  lemma {:induction false} EventProjects(isCron: Id -> bool, delays: Delays, w: Id, b: StateBase, e: Event)
    requires CronOnly(isCron, b.schedules) && Projects(delays, w, b.schedules) && WellNamed(isCron, e)
    ensures CronOnly(isCron, SchedulesAfter(b, e))
    ensures Projects(SyncDelay(delays, w, e), w, SchedulesAfter(b, e))
  {
    EventKeepsCronOnly(isCron, b, e);
    forall id ensures CronRow(SyncDelay(delays, w, e), w, id) == ScheduleOf(SchedulesAfter(b, e), id) {
      EventProjectsAt(isCron, delays, w, b, e, id);
    }
  }

  lemma {:induction false} OthersKept(delays: Delays, w: Id, es: seq<Event>, u: Id, id: Id)
    requires u != w
    ensures CronRow(SyncDelays(delays, w, es), u, id) == CronRow(delays, u, id)
    decreases |es|
  {
    if es != [] { OthersKept(delays, w, es[..|es| - 1], u, id); }
  }

  ghost predicate Matches(isCron: Id -> bool, delays: Delays, w: Id, s: Option<State>) {
    CronOnly(isCron, SchedulesOf(s)) && Projects(delays, w, SchedulesOf(s))
  }

  /** Evolving by one event changes the schedules as SchedulesAfter says. */
  lemma {:induction false} EvolveSchedules(wf: Workflow, s: Option<State>, e: Event)
    requires KeepsBase(wf) && StartsWell(s, [e])
    ensures Evolve(wf, s, e).evolver
    ensures Evolve(wf, s, e).base.schedules ==
            SchedulesAfter(if s.Some? then s.value.base else NewStateBase, e)
  {
    if s.Some? { EvolveBase(wf, s.value, e); }
  }

  lemma {:induction false} BatchProjects(isCron: Id -> bool, wf: Workflow, delays: Delays, w: Id, s: Option<State>, es: seq<Event>)
    requires KeepsBase(wf) && StartsWell(s, es) && AllWellNamed(isCron, es) && Matches(isCron, delays, w, s)
    ensures Matches(isCron, SyncDelays(delays, w, es), w, EvolveAll(wf, s, es))
    decreases |es|
  {
    if es != [] {
      var front, e := es[..|es| - 1], es[|es| - 1];
      BatchProjects(isCron, wf, delays, w, s, front);
      BatchStaysConcrete(wf, s, front);
      var r := EvolveAll(wf, s, front);
      assert r.None? ==> front == [] && s.None? && [e][0] == es[0];
      EvolveSchedules(wf, r, e);
      assert e in es;
      EventProjects(isCron, SyncDelays(delays, w, front), w, if r.Some? then r.value.base else NewStateBase, e);
    }
  }

  /** What a row says as a cron row. */
  function AsSchedule(id: Id, row: DelayRow): Option<Schedule> {
    if row.cron != "" then Some(Schedule(id, row.cron, row.timezone, row.nextCmd)) else None
  }

  /** A fire's row is, as a cron row, the one in the table; a registered delay has a one-shot id. */
  ghost predicate FreshOp(isCron: Id -> bool, db: Db, op: Op) {
    && (op.Fire? ==> CronRow(db.delays, op.w, op.delayId) == AsSchedule(op.delayId, op.row))
    && (op.Register? ==> !isCron(op.delayId))
  }

  ghost predicate FreshHistory(cfg: Config, isCron: Id -> bool, ops: seq<Op>) {
    ops != [] ==>
      && FreshHistory(cfg, isCron, ops[..|ops| - 1])
      && match Replay(cfg, EmptyDb, ops[..|ops| - 1]) { case Some(d) => FreshOp(isCron, d, ops[|ops| - 1]) case None => true }
  }

  /** The cron rows of w are the schedules of its folded state. */
  ghost predicate TableIsProjection(cfg: Config, isCron: Id -> bool, db: Db, w: Id) {
    Matches(isCron, db.delays, w, FoldTo(cfg, db, w, Head(db, w)))
  }

  lemma {:induction false} CommitSyncs(cfg: Config, db: Db, op: Op, db': Db)
    requires DbOk(cfg, db) && Decides(op) && ApplyOp(cfg, db, op) == Some(db')
    ensures db'.delays == SyncDelays(db.delays, op.w, Batch(cfg, db, op))
  {
  }

  lemma {:induction false} BatchWellNamed(cfg: Config, isCron: Id -> bool, db: Db, op: Op)
    requires NamesWell(isCron, cfg.wf) && Decides(op)
    ensures AllWellNamed(isCron, Batch(cfg, db, op))
  {
  }

  lemma {:induction false} FireProjects(isCron: Id -> bool, db: Db, op: Op, version: int, db': Db, u: Id, id: Id)
    requires op.Fire? && FreshOp(isCron, db, op) && FireAt(db, op.w, op.delayId, op.row, version) == Committed(db')
    ensures CronRow(db'.delays, u, id) == CronRow(db.delays, u, id)
  {
  }

  lemma {:induction false} OwnStep(cfg: Config, isCron: Id -> bool, db: Db, op: Op, db': Db)
    requires KeepsBase(cfg.wf) && BornByUser(cfg.wf) && NamesWell(isCron, cfg.wf) && DbOk(cfg, db)
    requires Concrete(cfg, db, op.w) && TableIsProjection(cfg, isCron, db, op.w)
    requires FreshOp(isCron, db, op) && ApplyOp(cfg, db, op) == Some(db')
    ensures TableIsProjection(cfg, isCron, db', op.w)
  {
    var s := FoldTo(cfg, db, op.w, Head(db, op.w));
    BatchStartsWell(cfg, db, op, db');
    if Decides(op) {
      CommitSyncs(cfg, db, op, db');
      BatchWellNamed(cfg, isCron, db, op);
      BatchProjects(isCron, cfg.wf, db.delays, op.w, s, Batch(cfg, db, op));
    } else if op.Fire? {
      FireSchedules(cfg, s, op.delayId);
      OwnFire(isCron, db, op, Head(db, op.w) + 1, db', SchedulesOf(s));
    } else {
      OwnRegister(isCron, db, op, SchedulesOf(s));
    }
  }

  lemma {:induction false} FireSchedules(cfg: Config, s: Option<State>, id: Id)
    requires KeepsBase(cfg.wf) && StartsWell(s, [DelayComplete(id)])
    ensures SchedulesOf(EvolveAll(cfg.wf, s, [DelayComplete(id)])) == SchedulesOf(s)
  {
    assert [DelayComplete(id)][..0] == [];
    EvolveSchedules(cfg.wf, s, DelayComplete(id));
  }

  lemma {:induction false} OwnFire(isCron: Id -> bool, db: Db, op: Op, version: int, db': Db, ss: seq<Schedule>)
    requires op.Fire? && FreshOp(isCron, db, op) && FireAt(db, op.w, op.delayId, op.row, version) == Committed(db')
    requires Projects(db.delays, op.w, ss)
    ensures Projects(db'.delays, op.w, ss)
  {
    forall id ensures CronRow(db'.delays, op.w, id) == ScheduleOf(ss, id) {
      FireProjects(isCron, db, op, version, db', op.w, id);
    }
  }

  lemma {:induction false} OwnRegister(isCron: Id -> bool, db: Db, op: Op, ss: seq<Schedule>)
    requires op.Register? && !isCron(op.delayId) && CronOnly(isCron, ss) && Projects(db.delays, op.w, ss)
    ensures Projects(RegisterIn(db, op.w, op.delayId, op.nextCmd).delays, op.w, ss)
  {
    forall id ensures CronRow(RegisterIn(db, op.w, op.delayId, op.nextCmd).delays, op.w, id) == ScheduleOf(ss, id) {
      assert CronRow(db.delays, op.w, id) == ScheduleOf(ss, id);
    }
  }

  lemma {:induction false} OtherStep(cfg: Config, isCron: Id -> bool, db: Db, op: Op, db': Db, w: Id)
    requires DbOk(cfg, db) && w != op.w && TableIsProjection(cfg, isCron, db, w)
    requires FreshOp(isCron, db, op) && ApplyOp(cfg, db, op) == Some(db')
    ensures TableIsProjection(cfg, isCron, db', w)
  {
    ApplyOpKeeps(cfg, db, op, db');
    assert SameWorkflow(db, db', w) && Log(db', w) == Log(db, w);
    var ss := SchedulesOf(FoldTo(cfg, db, w, Head(db, w)));
    forall id ensures CronRow(db'.delays, w, id) == ScheduleOf(ss, id) {
      assert CronRow(db.delays, w, id) == ScheduleOf(ss, id);
      if Decides(op) {
        CommitSyncs(cfg, db, op, db');
        OthersKept(db.delays, op.w, Batch(cfg, db, op), w, id);
      } else if op.Fire? {
        FireProjects(isCron, db, op, Head(db, op.w) + 1, db', w, id);
      }
    }
  }

  lemma {:induction false} SerialProjection(cfg: Config, isCron: Id -> bool, ops: seq<Op>, db: Db, w: Id)
    requires KeepsBase(cfg.wf) && BornByUser(cfg.wf) && NamesWell(isCron, cfg.wf)
    requires FreshHistory(cfg, isCron, ops) && Replay(cfg, EmptyDb, ops) == Some(db)
    ensures TableIsProjection(cfg, isCron, db, w)
    decreases |ops|
  {
    EmptyDbOk(cfg);
    if ops != [] {
      var front, op := ops[..|ops| - 1], ops[|ops| - 1];
      var d := Replay(cfg, EmptyDb, front).value;
      SerialProjection(cfg, isCron, front, d, w);
      ReplayKeeps(cfg, EmptyDb, front, d);
      SerialConcrete(cfg, front, d, w);
      if op.w == w {
        OwnStep(cfg, isCron, d, op, db);
      } else {
        OtherStep(cfg, isCron, d, op, db, w);
      }
    }
  }

  /** Over every interleaving whose fires used the cron row that was in the table, the table is a projection of state. */
  lemma {:induction false} DelayTableIsProjection(u: Setup, isCron: Id -> bool, steps: seq<Step>, s: World, w: Id)
    requires FrameworkNotFinal(u.cfg.wf) && KeepsBase(u.cfg.wf) && BornByUser(u.cfg.wf) && NamesWell(isCron, u.cfg.wf)
    requires Reachable(u, steps, s) && FreshHistory(u.cfg, isCron, s.history)
    ensures TableIsProjection(u.cfg, isCron, s.db, w)
  {
    Serializable(u, steps, s);
    SerialProjection(u.cfg, isCron, s.history, s.db, w);
  }

  /**
   The freshness condition is exact: a fire keeps the projection if and only if its row is, as a cron
   row, the one in the table.  A fire that read its row before the schedule was removed brings it back.
   */
  lemma {:induction false} FireKeepsProjectionIff(cfg: Config, isCron: Id -> bool, db: Db, op: Op, db': Db)
    requires KeepsBase(cfg.wf) && DbOk(cfg, db) && Concrete(cfg, db, op.w)
    requires TableIsProjection(cfg, isCron, db, op.w) && op.Fire? && ApplyOp(cfg, db, op) == Some(db')
    ensures TableIsProjection(cfg, isCron, db', op.w) <==>
            CronRow(db.delays, op.w, op.delayId) == AsSchedule(op.delayId, op.row)
  {
    var w, e := op.w, DelayComplete(op.delayId);
    var s := FoldTo(cfg, db, w, Head(db, w));
    ApplyOpKeeps(cfg, db, op, db');
    assert LogOk(cfg, db, w);
    HeadOf(db.events, w, Head(db, w));
    FoldSome(cfg, db, w, Head(db, w));
    EvolveAllConcat(cfg.wf, None, Log(db, w), [e]);
    EvolveSchedules(cfg.wf, s, e);
    var ss := SchedulesOf(s);
    assert SchedulesOf(FoldTo(cfg, db', w, Head(db', w))) == ss;
    assert CronRow(db.delays, w, op.delayId) == ScheduleOf(ss, op.delayId);
    forall id | id != op.delayId ensures CronRow(db'.delays, w, id) == ScheduleOf(ss, id) {
      assert CronRow(db.delays, w, id) == ScheduleOf(ss, id);
    }
  }

  // ---------------------------------------------------------------------------------------------
  // Every row of the table, one-shot delays included
  // ---------------------------------------------------------------------------------------------

  /** What happens to the delays of one workflow. */
  datatype Note = Logged(e: Event) | Fired(id: Id, row: DelayRow) | Registered(id: Id, nextCmd: Json)

  /** The note concerns the delay `id`. */
  predicate Concerns(note: Note, id: Id) {
    match note
    case Logged(ScheduleAdded(s)) => s.id == id
    case Logged(Delay(d, _, _, _, _)) => d == id
    case Logged(ScheduleRemoved(d)) => d == id
    case Logged(CancelSchedule(d)) => d == id
    case Logged(SystemCancel(_)) => true
    case Logged(_) => false
    case Fired(d, _) => d == id
    case Registered(d, _) => d == id
  }

  /** The row that a note which concerns a delay leaves for it. */
  function RowLeft(note: Note): Option<DelayRow> {
    match note
    case Logged(ScheduleAdded(s)) => Some(DelayRow(s.cron, s.timezone, s.nextCmd))
    case Logged(Delay(_, _, cmd, cron, tz)) => Some(if cron == "" then DelayRow("", "", cmd) else DelayRow(cron, tz, cmd))
    case Fired(_, row) => if row.cron == "" then None else Some(row)
    case Registered(_, cmd) => Some(DelayRow("", "", cmd))
    case _ => None
  }

  /** The last note that concerns a delay decides. */
  function RowAfter(notes: seq<Note>, id: Id): Option<DelayRow> {
    if notes == [] then None
    else if Concerns(notes[|notes| - 1], id) then RowLeft(notes[|notes| - 1])
    else RowAfter(notes[..|notes| - 1], id)
  }

  function RowOf(delays: Delays, w: Id, id: Id): Option<DelayRow> {
    if DelayKey(w, id) in delays then Some(delays[DelayKey(w, id)]) else None
  }

  function LoggedAll(es: seq<Event>): seq<Note> { seq(|es|, i requires 0 <= i < |es| => Logged(es[i])) }

  /** What a call notes for its workflow. */
  ghost function NotesOfCall(cfg: Config, db: Db, op: Op): seq<Note> {
    match op
    case Fire(_, id, row) => [Fired(id, row)]
    case Register(_, id, cmd) => [Registered(id, cmd)]
    case _ => LoggedAll(Batch(cfg, db, op))
  }

  ghost function NotesOf(cfg: Config, ops: seq<Op>, w: Id): seq<Note> {
    if ops == [] then []
    else
      var front, op := ops[..|ops| - 1], ops[|ops| - 1];
      var d := Replay(cfg, EmptyDb, front);
      NotesOf(cfg, front, w) + if op.w == w && d.Some? then NotesOfCall(cfg, d.value, op) else []
  }

  lemma {:induction false} NoteAfter(notes: seq<Note>, note: Note, id: Id)
    ensures RowAfter(notes + [note], id) == if Concerns(note, id) then RowLeft(note) else RowAfter(notes, id)
  {
    assert (notes + [note])[..|notes|] == notes;
  }

  lemma {:induction false} EventRow'(delays: Delays, w: Id, e: Event, u: Id, id: Id)
    ensures RowOf(SyncDelay(delays, w, e), u, id) == if u == w && Concerns(Logged(e), id) then RowLeft(Logged(e)) else RowOf(delays, u, id)
  {
  }

  lemma {:induction false} BatchRows(delays: Delays, w: Id, es: seq<Event>, u: Id, id: Id, notes: seq<Note>)
    requires RowOf(delays, u, id) == RowAfter(notes, id)
    ensures RowOf(SyncDelays(delays, w, es), u, id) == RowAfter(notes + if u == w then LoggedAll(es) else [], id)
    decreases |es|
  {
    if es == [] {
      assert notes + (if u == w then LoggedAll(es) else []) == notes;
    } else {
      var front, e := es[..|es| - 1], es[|es| - 1];
      BatchRows(delays, w, front, u, id, notes);
      EventRow'(SyncDelays(delays, w, front), w, e, u, id);
      if u == w {
        NoteAfter(notes + LoggedAll(front), Logged(e), id);
        assert notes + LoggedAll(es) == notes + LoggedAll(front) + [Logged(e)];
      }
    }
  }

  lemma {:induction false} CallRows(cfg: Config, db: Db, op: Op, db': Db, u: Id, id: Id, notes: seq<Note>)
    requires DbOk(cfg, db) && ApplyOp(cfg, db, op) == Some(db') && RowOf(db.delays, u, id) == RowAfter(notes, id)
    ensures RowOf(db'.delays, u, id) == RowAfter(notes + if u == op.w then NotesOfCall(cfg, db, op) else [], id)
  {
    if Decides(op) {
      CommitSyncs(cfg, db, op, db');
      BatchRows(db.delays, op.w, Batch(cfg, db, op), u, id, notes);
    } else {
      OneRow(db, op, db', Head(db, op.w) + 1, u, id);
      if u == op.w { NoteAfter(notes, NotesOfCall(cfg, db, op)[0], id); } else { assert notes + [] == notes; }
    }
  }

  lemma {:induction false} OneRow(db: Db, op: Op, db': Db, version: int, u: Id, id: Id)
    requires if op.Fire? then FireAt(db, op.w, op.delayId, op.row, version) == Committed(db')
             else op.Register? && db' == RegisterIn(db, op.w, op.delayId, op.nextCmd)
    ensures var note := if op.Fire? then Fired(op.delayId, op.row) else Registered(op.delayId, op.nextCmd);
            RowOf(db'.delays, u, id) == if u == op.w && id == op.delayId then RowLeft(note) else RowOf(db.delays, u, id)
  {
  }

  lemma {:induction false} SerialRows(cfg: Config, ops: seq<Op>, db: Db, w: Id, id: Id)
    requires Replay(cfg, EmptyDb, ops) == Some(db)
    ensures RowOf(db.delays, w, id) == RowAfter(NotesOf(cfg, ops, w), id)
    decreases |ops|
  {
    EmptyDbOk(cfg);
    if ops != [] {
      var front, op := ops[..|ops| - 1], ops[|ops| - 1];
      var d := Replay(cfg, EmptyDb, front).value;
      SerialRows(cfg, front, d, w, id);
      ReplayKeeps(cfg, EmptyDb, front, d);
      CallRows(cfg, d, op, db, w, id, NotesOf(cfg, front, w));
    }
  }

  /**
   Over every interleaving, the row of a delay is the one that the last event, fire or registration concerning
   it left: added, replaced or removed by events, dropped by a cancellation or a one-shot fire, put back by a
   cron fire.
   */
  lemma {:induction false} LastNoteDecides(u: Setup, steps: seq<Step>, s: World, w: Id, id: Id)
    requires FrameworkNotFinal(u.cfg.wf) && Reachable(u, steps, s)
    ensures RowOf(s.db.delays, w, id) == RowAfter(NotesOf(u.cfg, s.history, w), id)
  {
    Serializable(u, steps, s);
    SerialRows(u.cfg, s.history, s.db, w, id);
  }
}
