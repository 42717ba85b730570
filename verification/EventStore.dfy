/** The tables behind a repository and what one transaction does to them (pkg/repo/repo.go). */
module EventStore {
  import opened Wrappers
  import opened WorkflowModel

  // `stored_events` is a map from its unique key (workflow_id, workflow_version) to a row, so an insert that would
  // violate the key is visible as a key already present.  `Load` is loadStateTx; `Commit` is everything a
  // transaction writes, or the reason it was rolled back; `ApplyOp` is one whole call run alone; `Replay` runs a
  // list of calls one after the other.

  datatype Key = Key(w: Id, v: int)
  datatype EventRow = EventRow(gid: int, event: Event, pushed: bool)
  type Table = map<Key, EventRow>

  datatype Snapshot = Snapshot(version: int, state: State)

  /** A cron row has a cron expression; a one-shot row has the empty one. */
  datatype DelayRow = DelayRow(cron: string, timezone: string, nextCmd: Json)
  datatype DelayKey = DelayKey(w: Id, id: Id)

  datatype SubKey = SubKey(w: Id, emitter: Id, eventType: string)
  datatype SubRow = SubRow(sub: Sub, addedGid: Option<int>)

  datatype Db = Db(
    events: Table, nextGid: int, snapshots: map<Id, Snapshot>,
    delays: map<DelayKey, DelayRow>, subs: map<SubKey, SubRow>)

  const EmptyDb := Db(map[], 1, map[], map[], map[])

  datatype Stored = Stored(version: int, state: State)

  /** `interval` is the snapshot interval; zero or less disables snapshots. */
  datatype Config = Config(wf: Workflow, interval: int)

  // ---------------------------------------------------------------------------------------------
  // Reading
  // ---------------------------------------------------------------------------------------------

  function Versions(t: Table, w: Id): set<int> { set k | k in t && k.w == w :: k.v }

  ghost function MaxOf(s: set<int>): (m: int)
    requires s != {}
    ensures m in s && forall x :: x in s ==> x <= m
  {
    SomeOrNone(s);
    var x :| x in s;
    if s == {x} then x
    else
      var m := MaxOf(s - {x});
      assert forall y :: y in s ==> y == x || y in s - {x};
      if x > m then x else m
  }

  /** SELECT COALESCE(MAX(workflow_version), 0). */
  ghost function MaxVersion(t: Table, w: Id): (m: int)
    ensures Versions(t, w) == {} ==> m == 0
    ensures Versions(t, w) != {} ==> m in Versions(t, w) && forall v :: v in Versions(t, w) ==> v <= m
  {
    if Versions(t, w) == {} then 0 else MaxOf(Versions(t, w))
  }

  /** The events of w with lo < version <= hi that are in the table, in version order. */
  function SelectEvents(t: Table, w: Id, lo: int, hi: int): seq<Event>
    decreases hi - lo
  {
    if hi <= lo then []
    else SelectEvents(t, w, lo, hi - 1) + if Key(w, hi) in t then [t[Key(w, hi)].event] else []
  }

  function Min(a: int, b: int): int { if a < b then a else b }

  /** The snapshot statement: WHERE workflow_id = $1 [AND version <= $2], only when snapshots are on. */
  function SnapshotFor(cfg: Config, db: Db, w: Id, at: Option<int>): Option<Snapshot> {
    if cfg.interval > 0 && w in db.snapshots && (at.Some? ==> db.snapshots[w].version <= at.value)
    then Some(db.snapshots[w]) else None
  }

  /** The event statement and the rest of loadStateTx, given what the snapshot statement returned. */
  ghost function LoadFrom(cfg: Config, t: Table, w: Id, snap: Option<Snapshot>, at: Option<int>): Option<Stored> {
    var lo := if snap.Some? then snap.value.version else 0;
    var base := if snap.Some? then Some(snap.value.state) else None;
    var hi := if at.Some? then Min(at.value, MaxVersion(t, w)) else MaxVersion(t, w);
    var es := SelectEvents(t, w, lo, hi);
    if es != [] then
      if IsTerminal(cfg.wf, es[|es| - 1]) then None
      else Some(Stored(lo + |es|, EvolveAll(cfg.wf, base, es).value))
    else if snap.Some? then Some(Stored(lo, snap.value.state))
    else None
  }

  ghost function Load(cfg: Config, db: Db, w: Id, at: Option<int>): Option<Stored> {
    LoadFrom(cfg, db.events, w, SnapshotFor(cfg, db, w, at), at)
  }

  /** getCurrentStateTx: a cached state is used when it is trusted or when MAX agrees with its version. */
  ghost function CurrentState(cfg: Config, db: Db, w: Id, cached: Option<Stored>, trust: bool): Option<Stored> {
    if cached.Some? && (trust || MaxVersion(db.events, w) == cached.value.version) then cached
    else Load(cfg, db, w, None)
  }

  // ---------------------------------------------------------------------------------------------
  // Writing
  // ---------------------------------------------------------------------------------------------

  /** The rows of a batch appended above `base`, with the next global ids. */
  function Insert(t: Table, w: Id, base: int, es: seq<Event>, gid: int): Table {
    if es == [] then t
    else
      var n := |es| - 1;
      Insert(t, w, base, es[..n], gid)[Key(w, base + n + 1) := EventRow(gid + n, es[n], false)]
  }

  function SyncDelay(delays: map<DelayKey, DelayRow>, w: Id, e: Event): map<DelayKey, DelayRow> {
    match e
    case ScheduleAdded(s) => delays[DelayKey(w, s.id) := DelayRow(s.cron, s.timezone, s.nextCmd)]
    case ScheduleRemoved(id) => delays - {DelayKey(w, id)}
    case CancelSchedule(id) => delays - {DelayKey(w, id)}
    case Delay(id, _, cmd, cron, tz) =>
      delays[DelayKey(w, id) := if cron != "" then DelayRow(cron, tz, cmd) else DelayRow("", "", cmd)]
    case SystemCancel(_) => map k | k in delays && k.w != w :: delays[k]
    case _ => delays
  }

  function SubKeyOf(w: Id, sub: Sub): SubKey { SubKey(w, sub.workflowId, sub.eventType) }

  /** The upsert does not touch subscription_added_global_id. */
  function SyncSub(subs: map<SubKey, SubRow>, w: Id, e: Event): map<SubKey, SubRow> {
    match e
    case SubscriptionAdded(sub) =>
      var k := SubKeyOf(w, sub);
      subs[k := SubRow(sub, if k in subs then subs[k].addedGid else None)]
    case SubscriptionRemoved(sub) => subs - {SubKeyOf(w, sub)}
    case _ => subs
  }

  function SyncDelays(delays: map<DelayKey, DelayRow>, w: Id, es: seq<Event>): map<DelayKey, DelayRow> {
    if es == [] then delays
    else SyncDelay(SyncDelays(delays, w, es[..|es| - 1]), w, es[|es| - 1])
  }

  function SyncSubs(subs: map<SubKey, SubRow>, w: Id, es: seq<Event>): map<SubKey, SubRow> {
    if es == [] then subs
    else SyncSub(SyncSubs(subs, w, es[..|es| - 1]), w, es[|es| - 1])
  }

  predicate SetsHorizon(e: Event) { e.SubscriptionAdded? && e.sub.after.Some? }

  /** updateSubscriptionAddedGlobalIDsTx; None when an event's row is missing (RowsAffected() == 0). */
  function StampSubs(subs: map<SubKey, SubRow>, w: Id, es: seq<Event>, gid: int): Option<map<SubKey, SubRow>> {
    if es == [] then Some(subs)
    else
      var n := |es| - 1;
      match StampSubs(subs, w, es[..n], gid)
      case None => None
      case Some(s) =>
        if !SetsHorizon(es[n]) then Some(s)
        else
          var k := SubKeyOf(w, es[n].sub);
          if k in s then Some(s[k := s[k].(addedGid := Some(gid + n))]) else None
  }

  function MaybeSnapshot(cfg: Config, snaps: map<Id, Snapshot>, w: Id, state: State, version: int): map<Id, Snapshot> {
    if cfg.interval <= 0 || version % cfg.interval != 0 then snaps
    else snaps[w := Snapshot(version, state)]
  }

  datatype CommitResult = Conflict | Failed | Committed(db: Db)

  predicate Conflicts(t: Table, w: Id, base: int, n: nat) {
    exists v :: base < v <= base + n && Key(w, v) in t
  }

  /** What a transaction that decided `es` on a state of version `base` does when it writes and commits. */
  function Commit(cfg: Config, db: Db, w: Id, base: int, state: Option<State>, es: seq<Event>): CommitResult
    requires es != []
  {
    if Conflicts(db.events, w, base, |es|) then Conflict
    else match StampSubs(SyncSubs(db.subs, w, es), w, es, db.nextGid)
      case None => Failed
      case Some(subs) =>
        Committed(Db(
          Insert(db.events, w, base, es, db.nextGid),
          db.nextGid + |es|,
          MaybeSnapshot(cfg, db.snapshots, w, EvolveAll(cfg.wf, state, es).value, base + |es|),
          SyncDelays(db.delays, w, es),
          subs))
  }

  // ---------------------------------------------------------------------------------------------
  // Whole calls, run alone
  // ---------------------------------------------------------------------------------------------

  datatype Op =
    | Create(w: Id, cmd: Json)
    | Command(w: Id, cmd: Json)
    | Pause(w: Id, reason: string)
    | Resume(w: Id)
    | Cancel(w: Id, reason: string)
    | Fire(w: Id, delayId: Id, row: DelayRow)
    | Register(w: Id, delayId: Id, nextCmd: Json)

  /** Calls that load a state before they decide. */
  predicate Loads(op: Op) { op.Command? || op.Pause? || op.Resume? || op.Cancel? }

  predicate Decides(op: Op) { Loads(op) || op.Create? }

  /** The lifecycle check and the decision; None when the call ends without writing. */
  function Decide(wf: Workflow, op: Op, state: Option<State>): (r: Option<seq<Event>>)
    requires Decides(op) && (Loads(op) ==> state.Some?)
    ensures r.Some? ==> r.value != []
  {
    match op
    case Create(_, cmd) =>
      (match wf.decide(None, cmd)
       case Accepted(es) => if es != [] then Some(es) else None
       case Rejected(_) => None)
    case Command(_, cmd) =>
      if state.value.base.lifecycle != Active then None
      else (match wf.decide(state, cmd)
            case Accepted(es) => if es != [] then Some(es) else None
            case Rejected(_) => None)
    case Pause(_, reason) => if state.value.base.lifecycle == Active then Some([SystemPause(reason)]) else None
    case Resume(_) => if state.value.base.lifecycle == Paused then Some([SystemResume]) else None
    case Cancel(_, reason) => if state.value.base.lifecycle != Cancelled then Some([SystemCancel(reason)]) else None
  }

  function StateOf(base: Option<Stored>): Option<State> {
    match base case Some(b) => Some(b.state) case None => None
  }

  function BaseVersion(base: Option<Stored>): int { if base.Some? then base.value.version else 0 }

  function CommitOp(cfg: Config, db: Db, op: Op, base: Option<Stored>, es: seq<Event>): CommitResult
    requires es != []
  {
    Commit(cfg, db, op.w, BaseVersion(base), StateOf(base), es)
  }

  /** What the call returns and caches once its transaction is committed. */
  function ResultOf(cfg: Config, base: Option<Stored>, es: seq<Event>): Stored
    requires es != []
  {
    Stored(BaseVersion(base) + |es|, EvolveAll(cfg.wf, StateOf(base), es).value)
  }

  /** resumeWorkflow: the event goes in at `version`, the schedule row is re-inserted or deleted. */
  function FireAt(db: Db, w: Id, delayId: Id, row: DelayRow, version: int): CommitResult {
    if Key(w, version) in db.events then Conflict
    else Committed(db.(
      events := db.events[Key(w, version) := EventRow(db.nextGid, DelayComplete(delayId), false)],
      nextGid := db.nextGid + 1,
      delays := if row.cron != "" then db.delays[DelayKey(w, delayId) := row]
                else db.delays - {DelayKey(w, delayId)}))
  }

  /** RegisterDelay: delete then insert of a one-shot row. */
  function RegisterIn(db: Db, w: Id, delayId: Id, nextCmd: Json): Db {
    db.(delays := db.delays[DelayKey(w, delayId) := DelayRow("", "", nextCmd)])
  }

  /** Deciding on a loaded state, writing and committing. */
  function ApplyDecided(cfg: Config, db: Db, op: Op, base: Option<Stored>): Option<Db>
    requires Decides(op) && (Loads(op) ==> base.Some?)
  {
    match Decide(cfg.wf, op, StateOf(base))
    case None => None
    case Some(es) =>
      match CommitOp(cfg, db, op, base, es)
      case Committed(d) => Some(d)
      case _ => None
  }

  /** One call with nothing interleaved; None when it is refused or has nothing to write. */
  ghost function ApplyOp(cfg: Config, db: Db, op: Op): Option<Db> {
    match op
    case Register(w, id, cmd) => Some(RegisterIn(db, w, id, cmd))
    case Fire(w, id, row) =>
      if Versions(db.events, w) == {} then None
      else (match FireAt(db, w, id, row, MaxVersion(db.events, w) + 1)
            case Committed(d) => Some(d)
            case _ => None)
    case _ =>
      var base := if Loads(op) then Load(cfg, db, op.w, None) else None;
      if Loads(op) && base.None? then None
      else if op.Command? && Key(op.w, 1) !in db.events then None
      else ApplyDecided(cfg, db, op, base)
  }

  /** The calls `ops`, run one after the other from `db`; None when one of them is refused. */
  ghost function Replay(cfg: Config, db: Db, ops: seq<Op>): Option<Db> {
    if ops == [] then Some(db)
    else match Replay(cfg, db, ops[..|ops| - 1])
      case None => None
      case Some(d) => ApplyOp(cfg, d, ops[|ops| - 1])
  }

  // ---------------------------------------------------------------------------------------------
  // The log of a workflow
  // ---------------------------------------------------------------------------------------------

  ghost function Head(db: Db, w: Id): int { MaxVersion(db.events, w) }

  ghost function Log(db: Db, w: Id): seq<Event> { SelectEvents(db.events, w, 0, Head(db, w)) }

  /** The rows of w are exactly the versions 1..n. */
  ghost predicate Contiguous(t: Table, w: Id, n: int) {
    n >= 0 && forall v :: Key(w, v) in t <==> 1 <= v <= n
  }

  /** The fold of the first n events: what the state of w at version n is. */
  ghost function FoldTo(cfg: Config, db: Db, w: Id, n: int): Option<State> {
    EvolveAll(cfg.wf, None, SelectEvents(db.events, w, 0, n))
  }

  ghost predicate SnapshotOk(cfg: Config, db: Db, w: Id) {
    w in db.snapshots ==>
      && 1 <= db.snapshots[w].version <= Head(db, w)
      && FoldTo(cfg, db, w, db.snapshots[w].version) == Some(db.snapshots[w].state)
  }

  ghost predicate LogOk(cfg: Config, db: Db, w: Id) {
    Contiguous(db.events, w, Head(db, w)) && SnapshotOk(cfg, db, w)
  }

  /** Every log is gap free and every snapshot is the fold of the prefix it is labelled with. */
  ghost predicate DbOk(cfg: Config, db: Db) { forall w :: LogOk(cfg, db, w) }

  lemma {:induction false} HeadOf(t: Table, w: Id, n: int)
    requires Contiguous(t, w, n)
    ensures MaxVersion(t, w) == n
    ensures Versions(t, w) == {} <==> n == 0
  {
    if n > 0 {
      assert Key(w, n) in t;
      assert n in Versions(t, w);
      assert Key(w, MaxVersion(t, w)) in t;
    } else {
      assert forall v :: v in Versions(t, w) ==> Key(w, v) in t;
    }
  }

  lemma {:induction false} SelectSame(t: Table, t': Table, w: Id, lo: int, hi: int)
    requires forall v :: lo < v <= hi ==>
               (Key(w, v) in t <==> Key(w, v) in t') && (Key(w, v) in t ==> t[Key(w, v)].event == t'[Key(w, v)].event)
    ensures SelectEvents(t, w, lo, hi) == SelectEvents(t', w, lo, hi)
    decreases hi - lo
  {
    if hi > lo {
      SelectSame(t, t', w, lo, hi - 1);
    }
  }

  lemma {:induction false} SelectLen(t: Table, w: Id, lo: int, hi: int)
    requires 0 <= lo <= hi && forall v :: lo < v <= hi ==> Key(w, v) in t
    ensures |SelectEvents(t, w, lo, hi)| == hi - lo
    ensures hi > lo ==> SelectEvents(t, w, lo, hi)[hi - lo - 1] == t[Key(w, hi)].event
    decreases hi - lo
  {
    if hi > lo {
      SelectLen(t, w, lo, hi - 1);
    }
  }

  lemma {:induction false} SelectSplit(t: Table, w: Id, lo: int, mid: int, hi: int)
    requires lo <= mid <= hi
    ensures SelectEvents(t, w, lo, hi) == SelectEvents(t, w, lo, mid) + SelectEvents(t, w, mid, hi)
    decreases hi - mid
  {
    if hi > mid {
      SelectSplit(t, w, lo, mid, hi - 1);
    }
  }

  lemma {:induction false} SelectAt(t: Table, w: Id, n: int, i: int)
    requires 0 <= i < n && forall v :: 0 < v <= n ==> Key(w, v) in t
    ensures |SelectEvents(t, w, 0, n)| == n
    ensures SelectEvents(t, w, 0, n)[i] == t[Key(w, i + 1)].event
  {
    SelectSplit(t, w, 0, i + 1, n);
    SelectLen(t, w, 0, i + 1);
    SelectLen(t, w, 0, n);
  }

  predicate InBatch(k: Key, w: Id, base: int, n: int) { k.w == w && base < k.v <= base + n }

  lemma {:induction false} InsertKeys(t: Table, w: Id, base: int, es: seq<Event>, gid: int)
    ensures forall k :: k in Insert(t, w, base, es, gid) <==> k in t || InBatch(k, w, base, |es|)
    ensures forall k :: k in t && !InBatch(k, w, base, |es|) ==> Insert(t, w, base, es, gid)[k] == t[k]
    ensures forall k :: InBatch(k, w, base, |es|) ==>
                          Insert(t, w, base, es, gid)[k] == EventRow(gid + k.v - base - 1, es[k.v - base - 1], false)
  {
    if es != [] {
      InsertKeys(t, w, base, es[..|es| - 1], gid);
    }
  }

  lemma {:induction false} InsertSelect(t: Table, w: Id, base: int, es: seq<Event>, gid: int, k: nat)
    requires k <= |es|
    ensures SelectEvents(Insert(t, w, base, es, gid), w, base, base + k) == es[..k]
  {
    if k > 0 {
      InsertSelect(t, w, base, es, gid, k - 1);
      InsertKeys(t, w, base, es, gid);
      assert InBatch(Key(w, base + k), w, base, |es|);
      assert es[..k] == es[..k - 1] + [es[k - 1]];
    }
  }

  lemma {:induction false} InsertContiguous(t: Table, w: Id, n: int, es: seq<Event>, gid: int)
    requires Contiguous(t, w, n)
    ensures var t' := Insert(t, w, n, es, gid);
            Contiguous(t', w, n + |es|) && MaxVersion(t, w) == n && MaxVersion(t', w) == n + |es|
  {
    InsertKeys(t, w, n, es, gid);
    HeadOf(t, w, n);
    HeadOf(Insert(t, w, n, es, gid), w, n + |es|);
  }

  /** What appending at the head does to the table alone. */
  lemma {:induction false} InsertAtHead(t: Table, w: Id, n: int, es: seq<Event>, gid: int)
    requires Contiguous(t, w, n)
    ensures var t' := Insert(t, w, n, es, gid);
            && Contiguous(t', w, n + |es|) && MaxVersion(t, w) == n && MaxVersion(t', w) == n + |es|
            && SelectEvents(t', w, 0, n + |es|) == SelectEvents(t, w, 0, n) + es
    ensures forall k :: k in t ==> k in Insert(t, w, n, es, gid) && Insert(t, w, n, es, gid)[k] == t[k]
    ensures forall k: Key :: k.w != w ==> (k in t <==> k in Insert(t, w, n, es, gid))
  {
    var t' := Insert(t, w, n, es, gid);
    InsertContiguous(t, w, n, es, gid);
    InsertKeys(t, w, n, es, gid);
    InsertSelect(t, w, n, es, gid, |es|);
    SelectSplit(t', w, 0, n, n + |es|);
    assert SelectEvents(t, w, 0, n) == SelectEvents(t', w, 0, n) by {
      SelectSame(t, t', w, 0, n);
    }
  }

  /** The full replay that every fast path has to equal: fold the first min(at, head) events. */
  ghost function FullReplay(cfg: Config, db: Db, w: Id, at: Option<int>): Option<Stored> {
    var n := if at.Some? then Min(at.value, Head(db, w)) else Head(db, w);
    if n <= 0 || Key(w, n) !in db.events || IsTerminal(cfg.wf, db.events[Key(w, n)].event) then None
    else Some(Stored(n, FoldTo(cfg, db, w, n).value))
  }

  /** A final event sits exactly on the snapshot that the load starts from, and nothing follows it. */
  ghost predicate FinalOnSnapshot(cfg: Config, db: Db, w: Id, at: Option<int>) {
    var snap := SnapshotFor(cfg, db, w, at);
    var n := if at.Some? then Min(at.value, Head(db, w)) else Head(db, w);
    && snap.Some? && snap.value.version == n
    && Key(w, n) in db.events && IsTerminal(cfg.wf, db.events[Key(w, n)].event)
  }

  lemma {:induction false} FoldSome(cfg: Config, db: Db, w: Id, n: int)
    requires LogOk(cfg, db, w) && 1 <= n <= Head(db, w)
    ensures FoldTo(cfg, db, w, n).Some?
  {
    SelectLen(db.events, w, 0, n);
  }

  lemma {:induction false} FoldFrom(cfg: Config, db: Db, w: Id, lo: int, n: int)
    requires LogOk(cfg, db, w) && 0 <= lo <= n <= Head(db, w)
    ensures var es := SelectEvents(db.events, w, lo, n);
            && |es| == n - lo && (n > lo ==> es[|es| - 1] == db.events[Key(w, n)].event)
            && EvolveAll(cfg.wf, FoldTo(cfg, db, w, lo), es) == FoldTo(cfg, db, w, n)
  {
    SelectLen(db.events, w, lo, n);
    SelectSplit(db.events, w, 0, lo, n);
    EvolveAllConcat(cfg.wf, None, SelectEvents(db.events, w, 0, lo), SelectEvents(db.events, w, lo, n));
  }

  /** A load, given the rows that its event statement returned. */
  lemma {:induction false} LoadSuffix(cfg: Config, t: Table, w: Id, snap: Option<Snapshot>, at: Option<int>, es: seq<Event>)
    requires var lo := if snap.Some? then snap.value.version else 0;
             es == SelectEvents(t, w, lo, if at.Some? then Min(at.value, MaxVersion(t, w)) else MaxVersion(t, w))
    ensures LoadFrom(cfg, t, w, snap, at) ==
            if es == [] then (if snap.Some? then Some(Stored(snap.value.version, snap.value.state)) else None)
            else if IsTerminal(cfg.wf, es[|es| - 1]) then None
            else
              var base := if snap.Some? then Some(snap.value.state) else None;
              Some(Stored((if snap.Some? then snap.value.version else 0) + |es|, EvolveAll(cfg.wf, base, es).value))
  {
  }

  /** Reading a snapshot that is the fold of a prefix, then the rest of the log, gives a full fold. */
  lemma {:induction false} LoadFromIsFold(cfg: Config, db: Db, w: Id, snap: Option<Snapshot>, at: Option<int>)
    requires LogOk(cfg, db, w)
    requires snap.Some? ==>
               && 1 <= snap.value.version <= Head(db, w) && (at.Some? ==> snap.value.version <= at.value)
               && FoldTo(cfg, db, w, snap.value.version) == Some(snap.value.state)
    ensures var n := if at.Some? then Min(at.value, Head(db, w)) else Head(db, w);
            LoadFrom(cfg, db.events, w, snap, at) ==
            if n <= 0 then None
            else if !(snap.Some? && snap.value.version == n) && IsTerminal(cfg.wf, db.events[Key(w, n)].event) then None
            else Some(Stored(n, FoldTo(cfg, db, w, n).value))
  {
    var n := if at.Some? then Min(at.value, Head(db, w)) else Head(db, w);
    var lo := if snap.Some? then snap.value.version else 0;
    var es := SelectEvents(db.events, w, lo, n);
    LoadSuffix(cfg, db.events, w, snap, at, es);
    if n > 0 {
      FoldFrom(cfg, db, w, lo, n);
      assert (if snap.Some? then Some(snap.value.state) else None) == FoldTo(cfg, db, w, lo);
    }
  }

  /** Snapshot plus suffix equals the full replay, at every version, except in one exact case. */
  lemma {:induction false} LoadIsFullReplay(cfg: Config, db: Db, w: Id, at: Option<int>)
    requires LogOk(cfg, db, w)
    ensures Load(cfg, db, w, at) == FullReplay(cfg, db, w, at) <==> !FinalOnSnapshot(cfg, db, w, at)
    ensures FinalOnSnapshot(cfg, db, w, at) ==> Load(cfg, db, w, at).Some? && FullReplay(cfg, db, w, at).None?
  {
    LoadFromIsFold(cfg, db, w, SnapshotFor(cfg, db, w, at), at);
  }

  // ---------------------------------------------------------------------------------------------
  // What a call keeps
  // ---------------------------------------------------------------------------------------------

  /** The rows and the snapshot of w are the same in both databases. */
  ghost predicate SameWorkflow(db: Db, db': Db, w: Id) {
    && (forall v :: Key(w, v) in db.events <==> Key(w, v) in db'.events)
    && (forall v :: Key(w, v) in db.events ==> db.events[Key(w, v)] == db'.events[Key(w, v)])
    && (w in db.snapshots <==> w in db'.snapshots)
    && (w in db.snapshots ==> db.snapshots[w] == db'.snapshots[w])
  }

  /** w has only grown: its old log is a prefix of its new one and its snapshot did not move back. */
  ghost predicate Grows(db: Db, db': Db, w: Id) {
    && Head(db, w) <= Head(db', w)
    && (forall v :: 1 <= v <= Head(db, w) ==>
          Key(w, v) in db.events && Key(w, v) in db'.events && db.events[Key(w, v)] == db'.events[Key(w, v)])
    && (w in db.snapshots ==> w in db'.snapshots && db.snapshots[w].version <= db'.snapshots[w].version)
  }

  ghost predicate Extends(db: Db, db': Db) { forall w :: Grows(db, db', w) }

  lemma {:induction false} FrameLog(cfg: Config, db: Db, db': Db, w: Id)
    requires LogOk(cfg, db, w) && SameWorkflow(db, db', w)
    ensures LogOk(cfg, db', w) && Grows(db, db', w) && Head(db, w) == Head(db', w)
    ensures Log(db', w) == Log(db, w)
  {
    HeadOf(db.events, w, Head(db, w));
    HeadOf(db'.events, w, Head(db, w));
    SelectSame(db.events, db'.events, w, 0, Head(db, w));
    if w in db.snapshots {
      SelectSame(db.events, db'.events, w, 0, db.snapshots[w].version);
    }
  }

  lemma {:induction false} FoldFrame(cfg: Config, db: Db, db': Db, w: Id, n: int)
    requires Grows(db, db', w) && n <= Head(db, w)
    ensures FoldTo(cfg, db, w, n) == FoldTo(cfg, db', w, n)
  {
    SelectSame(db.events, db'.events, w, 0, n);
  }

  /** A batch that met no conflict was written exactly at the end of the log. */
  lemma {:induction false} NoConflictAtHead(t: Table, w: Id, n: int, base: int, k: nat)
    requires Contiguous(t, w, n) && 0 <= base <= n && k > 0
    ensures Conflicts(t, w, base, k) <==> base < n
  {
    if base < n {
      assert Key(w, base + 1) in t;
    }
  }

  /** The snapshot of w after an append is still the fold of the prefix it is labelled with. */
  lemma {:induction false} SnapshotAtHead(cfg: Config, db: Db, db': Db, w: Id, state: Option<State>, es: seq<Event>)
    requires LogOk(cfg, db, w) && es != [] && state == FoldTo(cfg, db, w, Head(db, w))
    requires db'.events == Insert(db.events, w, Head(db, w), es, db.nextGid)
    requires var s := EvolveAll(cfg.wf, state, es).value;
             db'.snapshots == MaybeSnapshot(cfg, db.snapshots, w, s, Head(db, w) + |es|) || db'.snapshots == db.snapshots
    ensures LogOk(cfg, db', w) && Grows(db, db', w)
    ensures Head(db', w) == Head(db, w) + |es| && Log(db', w) == Log(db, w) + es
    ensures FoldTo(cfg, db', w, Head(db', w)) == EvolveAll(cfg.wf, state, es)
  {
    var n := Head(db, w);
    InsertAtHead(db.events, w, n, es, db.nextGid);
    EvolveAllConcat(cfg.wf, None, Log(db, w), es);
    if w in db.snapshots {
      SelectSame(db.events, db'.events, w, 0, db.snapshots[w].version);
    }
  }

  /** Appending at the head keeps every log gap free and every snapshot a fold. */
  lemma {:induction false} CommitAtHead(cfg: Config, db: Db, w: Id, state: Option<State>, es: seq<Event>, db': Db)
    requires DbOk(cfg, db) && es != []
    requires state == FoldTo(cfg, db, w, Head(db, w))
    requires Commit(cfg, db, w, Head(db, w), state, es) == Committed(db')
    ensures DbOk(cfg, db') && Extends(db, db')
    ensures Head(db', w) == Head(db, w) + |es| && Log(db', w) == Log(db, w) + es
    ensures forall u :: u != w ==> SameWorkflow(db, db', u) && Log(db', u) == Log(db, u)
    ensures FoldTo(cfg, db', w, Head(db', w)) == EvolveAll(cfg.wf, state, es)
  {
    assert LogOk(cfg, db, w);
    SnapshotAtHead(cfg, db, db', w, state, es);
    InsertAtHead(db.events, w, Head(db, w), es, db.nextGid);
    forall u | u != w
      ensures SameWorkflow(db, db', u) && LogOk(cfg, db', u) && Grows(db, db', u) && Log(db', u) == Log(db, u)
    {
      assert LogOk(cfg, db, u);
      FrameLog(cfg, db, db', u);
    }
  }

  lemma {:induction false} FireAtHead(cfg: Config, db: Db, w: Id, id: Id, row: DelayRow, db': Db)
    requires DbOk(cfg, db)
    requires FireAt(db, w, id, row, Head(db, w) + 1) == Committed(db')
    ensures DbOk(cfg, db') && Extends(db, db')
    ensures Head(db', w) == Head(db, w) + 1 && Log(db', w) == Log(db, w) + [DelayComplete(id)]
    ensures forall u :: u != w ==> SameWorkflow(db, db', u) && Log(db', u) == Log(db, u)
  {
    var n := Head(db, w);
    assert LogOk(cfg, db, w);
    HeadOf(db'.events, w, n + 1);
    SelectSame(db.events, db'.events, w, 0, n);
    if w in db.snapshots {
      SelectSame(db.events, db'.events, w, 0, db.snapshots[w].version);
    }
    forall u | u != w
      ensures SameWorkflow(db, db', u) && LogOk(cfg, db', u) && Grows(db, db', u) && Log(db', u) == Log(db, u)
    {
      assert LogOk(cfg, db, u);
      FrameLog(cfg, db, db', u);
    }
  }
}
