/**
 Truncation (pkg/truncation/truncation.go): the deletions, and what loads and commits do on a database that
 has lost rows.  `full` is the database that the same calls build when nothing is deleted.  Module
 TruncationRun runs the service beside the whole system.
 */
module Truncation {
  import opened Wrappers
  import opened WorkflowModel
  import opened EventStore
  import opened SerialHistory
  import opened Repository
  import opened OffsetsTable

  /** SELECT MIN(last_read_event_no); a missing result counts as 0. */
  ghost predicate IsMin(readers: map<Reader, int>, m: int) {
    if readers == map[] then m == 0
    else (exists r :: r in readers && readers[r] == m) && forall r :: r in readers ==> m <= readers[r]
  }

  /** The WHERE clause of the DELETE; the age test only excludes more rows. */
  predicate Eligible(t: Table, k: Key, w: Id, version: int, min: int) {
    k in t && k.w == w && k.v < version && t[k].gid < min && t[k].pushed
  }

  function Without(t: Table, ks: set<Key>): Table { map k | k in t && k !in ks :: t[k] }

  function Unpush(t: Table, ks: set<Key>): Table {
    map k | k in t :: if k in ks then t[k].(pushed := false) else t[k]
  }

  // ---------------------------------------------------------------------------------------------
  // The truncated database and the full one
  // ---------------------------------------------------------------------------------------------

  predicate SameRow(a: EventRow, b: EventRow) { a.gid == b.gid && a.event == b.event }

  /** The real table holds a part of the full one. */
  ghost predicate PartOf(t: Table, full: Table) {
    forall k :: k in t ==> k in full && SameRow(t[k], full[k])
  }

  ghost predicate Gone(t: Table, full: Table, k: Key) { k in full && k !in t }

  /** A row may be missing only below its workflow's snapshot. */
  ghost predicate GoneBelowSnapshot(db: Db, full: Db) {
    forall k :: Gone(db.events, full.events, k) ==> k.w in full.snapshots && k.v < full.snapshots[k.w].version
  }

  ghost predicate Shadow(cfg: Config, db: Db, full: Db) {
    && DbOk(cfg, full)
    && db == full.(events := db.events)
    && PartOf(db.events, full.events) && GoneBelowSnapshot(db, full)
  }

  // ---------------------------------------------------------------------------------------------
  // Reading the truncated database
  // ---------------------------------------------------------------------------------------------

  /** MAX(workflow_version) is unchanged, and nothing above the snapshot is missing. */
  lemma {:induction false} HeadSurvives(cfg: Config, db: Db, full: Db, w: Id)
    requires Shadow(cfg, db, full)
    ensures Head(db, w) == Head(full, w)
    ensures Versions(db.events, w) == {} <==> Versions(full.events, w) == {}
    ensures forall v :: Key(w, v) in db.events ==> 1 <= v <= Head(full, w)
    ensures Head(full, w) > 0 ==> Key(w, Head(full, w)) in db.events
  {
    assert LogOk(cfg, full, w);
    var n := Head(full, w);
    HeadOf(full.events, w, n);
    assert forall v :: v in Versions(db.events, w) ==> Key(w, v) in db.events;
    if n > 0 {
      assert Key(w, n) in full.events;
      assert !Gone(db.events, full.events, Key(w, n));
      assert n in Versions(db.events, w);
      assert Key(w, Head(db, w)) in full.events;
    }
  }

  lemma {:induction false} SameHead(cfg: Config, db: Db, full: Db, w: Id)
    requires Shadow(cfg, db, full)
    ensures Head(db, w) == Head(full, w)
  {
    HeadSurvives(cfg, db, full, w);
  }

  /** Any load that starts at the current snapshot, or above it, is unchanged. */
  lemma {:induction false} LoadSurvives(cfg: Config, db: Db, full: Db, w: Id, at: Option<int>)
    requires Shadow(cfg, db, full) && cfg.interval > 0
    requires at.Some? && w in full.snapshots ==> full.snapshots[w].version <= at.value
    ensures Load(cfg, db, w, at) == Load(cfg, full, w, at)
  {
    SameHead(cfg, db, full, w);
    var snap := SnapshotFor(cfg, full, w, at);
    var lo := if snap.Some? then snap.value.version else 0;
    var hi := if at.Some? then Min(at.value, Head(full, w)) else Head(full, w);
    SelectSurvives(db, full, w, lo, hi);
    LoadFromSame(cfg, db.events, full.events, w, snap, at);
  }

  lemma {:induction false} LoadFromSame(cfg: Config, t: Table, t': Table, w: Id, snap: Option<Snapshot>, at: Option<int>)
    requires MaxVersion(t, w) == MaxVersion(t', w)
    requires var lo := if snap.Some? then snap.value.version else 0;
             var hi := if at.Some? then Min(at.value, MaxVersion(t, w)) else MaxVersion(t, w);
             SelectEvents(t, w, lo, hi) == SelectEvents(t', w, lo, hi)
    ensures LoadFrom(cfg, t, w, snap, at) == LoadFrom(cfg, t', w, snap, at)
  {
  }

  lemma {:induction false} SelectSurvives(db: Db, full: Db, w: Id, lo: int, hi: int)
    requires PartOf(db.events, full.events) && GoneBelowSnapshot(db, full)
    requires w in full.snapshots ==> full.snapshots[w].version <= lo || hi <= lo
    ensures SelectEvents(db.events, w, lo, hi) == SelectEvents(full.events, w, lo, hi)
  {
    forall v | lo < v <= hi
      ensures Key(w, v) in db.events <==> Key(w, v) in full.events
      ensures Key(w, v) in db.events ==> db.events[Key(w, v)].event == full.events[Key(w, v)].event
    {
      assert !Gone(db.events, full.events, Key(w, v));
    }
    SelectSame(db.events, full.events, w, lo, hi);
  }

  /** SelectEvents loses exactly the missing rows. */
  lemma {:induction false} SelectShrinks(t: Table, full: Table, w: Id, lo: int, hi: int)
    requires PartOf(t, full) && 0 <= lo <= hi && forall v :: lo < v <= hi ==> Key(w, v) in full
    ensures |SelectEvents(t, w, lo, hi)| <= hi - lo == |SelectEvents(full, w, lo, hi)|
    ensures |SelectEvents(t, w, lo, hi)| == hi - lo <==> forall v :: lo < v <= hi ==> Key(w, v) in t
    ensures lo < hi && Key(w, hi) in t ==>
              var es := SelectEvents(t, w, lo, hi); es != [] && es[|es| - 1] == full[Key(w, hi)].event
    decreases hi - lo
  {
    SelectLen(full, w, lo, hi);
    if lo < hi {
      SelectShrinks(t, full, w, lo, hi - 1);
    }
  }

  /**
   A load whose snapshot statement ran earlier, from a snapshot that has since been replaced or before there
   was one, is right if and only if no row between that snapshot and the head was deleted meanwhile (or the
   log has ended).
   */
  lemma {:induction false} TornLoadIff(cfg: Config, db: Db, full: Db, w: Id, snap: Option<Snapshot>)
    requires Shadow(cfg, db, full) && (if snap.Some? then 1 <= snap.value.version <= Head(full, w) else Head(full, w) > 0)
    ensures var lo := if snap.Some? then snap.value.version else 0;
            LoadFrom(cfg, db.events, w, snap, None) == LoadFrom(cfg, full.events, w, snap, None) <==>
            || (forall v :: lo < v <= Head(full, w) ==> Key(w, v) in db.events)
            || IsTerminal(cfg.wf, full.events[Key(w, Head(full, w))].event)
  {
    var lo, n := if snap.Some? then snap.value.version else 0, Head(full, w);
    assert LogOk(cfg, full, w);
    HeadSurvives(cfg, db, full, w);
    SelectShrinks(db.events, full.events, w, lo, n);
    SelectLen(full.events, w, lo, n);
    LoadSuffix(cfg, db.events, w, snap, None, SelectEvents(db.events, w, lo, n));
    LoadSuffix(cfg, full.events, w, snap, None, SelectEvents(full.events, w, lo, n));
    if forall v :: lo < v <= n ==> Key(w, v) in db.events {
      SelectSame(db.events, full.events, w, lo, n);
    }
  }

  // ---------------------------------------------------------------------------------------------
  // Writing to the truncated database
  // ---------------------------------------------------------------------------------------------

  lemma {:induction false} InsertPart(t: Table, full: Table, w: Id, n: int, es: seq<Event>, gid: int)
    requires PartOf(t, full)
    ensures PartOf(Insert(t, w, n, es, gid), Insert(full, w, n, es, gid))
    ensures forall k :: Gone(Insert(t, w, n, es, gid), Insert(full, w, n, es, gid), k) ==>
                          Gone(t, full, k) && Insert(full, w, n, es, gid)[k] == full[k]
    ensures forall k :: k in Insert(t, w, n, es, gid) && Insert(t, w, n, es, gid)[k].pushed ==>
                          k in t && t[k] == Insert(t, w, n, es, gid)[k]
  {
    InsertKeys(t, w, n, es, gid);
    InsertKeys(full, w, n, es, gid);
  }

  /** What a call does to the rows, seen from the truncated side. */
  ghost predicate SameCall(db: Db, full: Db, db': Db, full': Db) {
    && db' == full'.(events := db'.events) && PartOf(db'.events, full'.events)
    && (forall k :: Gone(db'.events, full'.events, k) ==>
          Gone(db.events, full.events, k) && full'.events[k].gid == full.events[k].gid)
    && (forall k :: k in db'.events && db'.events[k].pushed ==> k in db.events && db.events[k] == db'.events[k])
  }

  lemma {:induction false} CommitMirrors(cfg: Config, db: Db, full: Db, w: Id, base: int, state: Option<State>, es: seq<Event>, db': Db)
    requires Shadow(cfg, db, full) && es != [] && base == Head(full, w)
    requires Commit(cfg, db, w, base, state, es) == Committed(db')
    ensures var r := Commit(cfg, full, w, base, state, es); r.Committed? && SameCall(db, full, db', r.db)
  {
    assert LogOk(cfg, full, w);
    NoConflictAtHead(full.events, w, base, base, |es|);
    InsertPart(db.events, full.events, w, base, es, full.nextGid);
  }

  /**
   A call that the truncated database accepts is accepted by the full one too and writes the same rows,
   unless it creates an id that was used before, which only the truncated database can accept.
   */
  lemma {:induction false} CallMirrors(cfg: Config, db: Db, full: Db, op: Op, db': Db)
    requires Shadow(cfg, db, full) && cfg.interval > 0 && ApplyOp(cfg, db, op) == Some(db')
    ensures var r := ApplyOp(cfg, full, op);
            && (r.Some? <==> !(op.Create? && Head(full, op.w) > 0))
            && (r.Some? ==> SameCall(db, full, db', r.value))
  {
    if op.Create? {
      CreateMirrors(cfg, db, full, op, db');
    } else if op.Fire? {
      FireMirrors(cfg, db, full, op, db');
    } else if Loads(op) {
      LoadedCallMirrors(cfg, db, full, op, db');
    }
  }

  lemma {:induction false} CreateMirrors(cfg: Config, db: Db, full: Db, op: Op, db': Db)
    requires Shadow(cfg, db, full) && op.Create? && ApplyOp(cfg, db, op) == Some(db')
    ensures var r := ApplyOp(cfg, full, op);
            && (r.Some? <==> !(Head(full, op.w) > 0)) && (r.Some? ==> SameCall(db, full, db', r.value))
  {
    var es := Batch(cfg, db, op);
    assert LogOk(cfg, full, op.w);
    NoConflictAtHead(full.events, op.w, Head(full, op.w), 0, |es|);
    if Head(full, op.w) == 0 {
      CommitMirrors(cfg, db, full, op.w, 0, None, es, db');
    }
  }

  lemma {:induction false} LoadedCallMirrors(cfg: Config, db: Db, full: Db, op: Op, db': Db)
    requires Shadow(cfg, db, full) && cfg.interval > 0 && Loads(op) && ApplyOp(cfg, db, op) == Some(db')
    ensures var r := ApplyOp(cfg, full, op); r.Some? && SameCall(db, full, db', r.value)
  {
    LoadSurvives(cfg, db, full, op.w, None);
    var base, es := LoadedBatch(cfg, db, op, db');
    LoadedVersion(cfg, full, op.w);
    CommitMirrors(cfg, db, full, op.w, BaseVersion(base), StateOf(base), es, db');
    if op.Command? { RowOne(cfg, db, full, op.w); }
    LoadedApply(cfg, full, op, es, Commit(cfg, full, op.w, BaseVersion(base), StateOf(base), es).db);
  }

  lemma {:induction false} RowOne(cfg: Config, db: Db, full: Db, w: Id)
    requires Shadow(cfg, db, full) && Key(w, 1) in db.events
    ensures Key(w, 1) in full.events
  {
  }

  lemma {:induction false} FireMirrors(cfg: Config, db: Db, full: Db, op: Op, db': Db)
    requires Shadow(cfg, db, full) && op.Fire? && ApplyOp(cfg, db, op) == Some(db')
    ensures var r := ApplyOp(cfg, full, op); r.Some? && SameCall(db, full, db', r.value)
  {
    var v := Head(full, op.w) + 1;
    HeadSurvives(cfg, db, full, op.w);
    assert LogOk(cfg, full, op.w);
    assert Key(op.w, v) !in full.events;
    FireRows(db, full, op, v);
    FireApply(cfg, db, op, v);
    FireApply(cfg, full, op, v);
  }

  lemma {:induction false} FireApply(cfg: Config, db: Db, op: Op, v: int)
    requires op.Fire? && Versions(db.events, op.w) != {} && v == MaxVersion(db.events, op.w) + 1 && Key(op.w, v) !in db.events
    ensures ApplyOp(cfg, db, op) == Some(FireAt(db, op.w, op.delayId, op.row, v).db)
  {
  }

  /** A fire writes the same row to both tables. */
  lemma {:induction false} FireRows(db: Db, full: Db, op: Op, v: int)
    requires op.Fire? && db == full.(events := db.events) && PartOf(db.events, full.events) && Key(op.w, v) !in full.events
    ensures var a, b := FireAt(db, op.w, op.delayId, op.row, v), FireAt(full, op.w, op.delayId, op.row, v);
            a.Committed? && b.Committed? && SameCall(db, full, a.db, b.db)
  {
  }

  // ---------------------------------------------------------------------------------------------
  // Committing over deleted rows
  // ---------------------------------------------------------------------------------------------

  /** An overtaken batch passes the unique key if and only if all its versions were deleted. */
  lemma {:induction false} OverwriteIff(cfg: Config, db: Db, full: Db, w: Id, base: int, n: nat)
    requires Shadow(cfg, db, full) && 0 <= base < Head(full, w) && n > 0
    ensures !Conflicts(db.events, w, base, n) <==> forall v :: base < v <= base + n ==> Gone(db.events, full.events, Key(w, v))
    ensures !Conflicts(db.events, w, base, n) ==>
              w in full.snapshots && base + n < full.snapshots[w].version <= Head(full, w)
  {
    assert LogOk(cfg, full, w);
    HeadSurvives(cfg, db, full, w);
    if !Conflicts(db.events, w, base, n) {
      assert base + n < Head(full, w);
      assert Gone(db.events, full.events, Key(w, base + n));
    }
  }

  /** A transaction decided on an overtaken state commits if and only if the rows it would repeat were deleted. */
  lemma {:induction false} OvertakenCommitsIff(cfg: Config, db: Db, full: Db, op: Op, base: Option<Stored>, es: seq<Event>)
    requires Shadow(cfg, db, full) && es != [] && 0 <= BaseVersion(base) < Head(full, op.w)
    ensures CommitOp(cfg, db, op, base, es).Committed? <==>
            && (forall v :: BaseVersion(base) < v <= BaseVersion(base) + |es| ==> Gone(db.events, full.events, Key(op.w, v)))
            && StampSubs(SyncSubs(db.subs, op.w, es), op.w, es, db.nextGid).Some?
  {
    OverwriteIff(cfg, db, full, op.w, BaseVersion(base), |es|);
  }

  /** Tables with the same top row of w have the same MAX. */
  lemma {:induction false} SameMax(t: Table, t': Table, w: Id, m: int)
    requires m == MaxVersion(t, w) && (Versions(t, w) == {} ==> Versions(t', w) == {})
    requires Versions(t, w) != {} ==> Key(w, m) in t' && forall v :: Key(w, v) in t' ==> v <= m
    ensures MaxVersion(t', w) == m
  {
    if Versions(t, w) != {} {
      assert m in Versions(t', w);
      assert Key(w, MaxVersion(t', w)) in t';
    }
  }

  /** The rows above an accepted overtaken batch are the ones that were there. */
  lemma {:induction false} OverwriteKeepsTop(cfg: Config, db: Db, full: Db, w: Id, base: int, es: seq<Event>, t': Table)
    requires Shadow(cfg, db, full) && 0 <= base < Head(full, w) && es != [] && !Conflicts(db.events, w, base, |es|)
    requires t' == Insert(db.events, w, base, es, db.nextGid)
    ensures MaxVersion(t', w) == MaxVersion(db.events, w) == Head(full, w)
    ensures forall lo :: lo >= base + |es| ==> SelectEvents(t', w, lo, Head(full, w)) == SelectEvents(db.events, w, lo, Head(full, w))
  {
    var m := Head(full, w);
    OverwriteIff(cfg, db, full, w, base, |es|);
    HeadSurvives(cfg, db, full, w);
    InsertKeys(db.events, w, base, es, db.nextGid);
    SameMax(db.events, t', w, m);
    forall lo | lo >= base + |es| ensures SelectEvents(t', w, lo, m) == SelectEvents(db.events, w, lo, m) {
      SelectSame(t', db.events, w, lo, m);
    }
  }

  /** What a commit leaves of w: the rows of the batch, and a snapshot when it hits the interval. */
  ghost predicate Written(cfg: Config, db: Db, w: Id, v: int, state: State, t: Table, db': Db) {
    db'.events == t && db'.snapshots == MaybeSnapshot(cfg, db.snapshots, w, state, v)
  }

  lemma {:induction false} CommitWrites(cfg: Config, db: Db, op: Op, base: Option<Stored>, es: seq<Event>, db': Db)
    requires es != [] && CommitOp(cfg, db, op, base, es) == Committed(db')
    ensures !Conflicts(db.events, op.w, BaseVersion(base), |es|)
    ensures Written(cfg, db, op.w, BaseVersion(base) + |es|, EvolveAll(cfg.wf, StateOf(base), es).value,
                    Insert(db.events, op.w, BaseVersion(base), es, db.nextGid), db')
  {
  }

  /** Off the snapshot interval an accepted overtaken batch is invisible to a cold load: it is lost. */
  lemma {:induction false} OverwriteIsLost(cfg: Config, db: Db, full: Db, w: Id, base: int, state: State, es: seq<Event>, db': Db)
    requires Shadow(cfg, db, full) && cfg.interval > 0 && es != [] && 0 <= base < Head(full, w) && !Conflicts(db.events, w, base, |es|)
    requires Written(cfg, db, w, base + |es|, state, Insert(db.events, w, base, es, db.nextGid), db')
    requires (base + |es|) % cfg.interval != 0
    ensures Load(cfg, db', w, None) == Load(cfg, db, w, None)
  {
    OverwriteIff(cfg, db, full, w, base, |es|);
    OverwriteKeepsTop(cfg, db, full, w, base, es, db'.events);
    LoadFromSame(cfg, db'.events, db.events, w, SnapshotFor(cfg, db, w, None), None);
  }

  /** The rows left above version v, folded onto a state of that version, as a load returns it. */
  ghost function LoadAbove(cfg: Config, db: Db, w: Id, v: int, state: State): Option<Stored> {
    var above := SelectEvents(db.events, w, v, Head(db, w));
    if above != [] && IsTerminal(cfg.wf, above[|above| - 1]) then None
    else Some(Stored(v + |above|, EvolveAll(cfg.wf, Some(state), above).value))
  }

  /** On the interval it replaces the newer snapshot: a load continues from the overtaken state with the rows left above it. */
  lemma {:induction false} OverwriteIsBase(cfg: Config, db: Db, full: Db, w: Id, base: int, state: State, es: seq<Event>, db': Db)
    requires Shadow(cfg, db, full) && cfg.interval > 0 && es != [] && 0 <= base < Head(full, w) && !Conflicts(db.events, w, base, |es|)
    requires Written(cfg, db, w, base + |es|, state, Insert(db.events, w, base, es, db.nextGid), db')
    requires (base + |es|) % cfg.interval == 0
    ensures Load(cfg, db', w, None) == LoadAbove(cfg, db, w, base + |es|, state)
  {
    var v, m := base + |es|, Head(full, w);
    OverwriteIff(cfg, db, full, w, base, |es|);
    OverwriteKeepsTop(cfg, db, full, w, base, es, db'.events);
    TopRow(cfg, db, full, w, v);
    LoadSuffix(cfg, db'.events, w, SnapshotFor(cfg, db', w, None), None, SelectEvents(db'.events, w, v, m));
  }

  /** The top row is never deleted. */
  lemma {:induction false} TopRow(cfg: Config, db: Db, full: Db, w: Id, lo: int)
    requires Shadow(cfg, db, full) && 0 <= lo < Head(full, w)
    ensures var above := SelectEvents(db.events, w, lo, Head(full, w));
            above != [] && above[|above| - 1] == full.events[Key(w, Head(full, w))].event
  {
    assert LogOk(cfg, full, w);
    HeadSurvives(cfg, db, full, w);
    SelectShrinks(db.events, full.events, w, lo, Head(full, w));
  }

  /** An overtaken delay fire is accepted exactly when its version was deleted, and is lost. */
  lemma {:induction false} FireOverwriteIff(cfg: Config, db: Db, full: Db, w: Id, id: Id, row: DelayRow, version: int)
    requires Shadow(cfg, db, full) && cfg.interval > 0 && 0 <= version < Head(full, w)
    ensures var r := FireAt(db, w, id, row, version + 1);
            && (r.Committed? <==> Gone(db.events, full.events, Key(w, version + 1)))
            && (r.Committed? ==> Load(cfg, r.db, w, None) == Load(cfg, db, w, None))
  {
    assert LogOk(cfg, full, w);
    HeadSurvives(cfg, db, full, w);
    var r := FireAt(db, w, id, row, version + 1);
    if r.Committed? {
      SameMax(db.events, r.db.events, w, Head(full, w));
      var snap := SnapshotFor(cfg, db, w, None);
      assert Gone(db.events, full.events, Key(w, version + 1));
      SelectSame(db.events, r.db.events, w, snap.value.version, Head(full, w));
      LoadFromSame(cfg, r.db.events, db.events, w, snap, None);
    }
  }

  // ---------------------------------------------------------------------------------------------
  // The service
  // ---------------------------------------------------------------------------------------------

  ghost predicate EligibleFor(t: Table, k: Key, w: Id, version: int, min: int, aged: set<int>) {
    Eligible(t, k, w, version, min) && t[k].gid in aged
  }

  function RowsOfOne(ks: set<Key>, w: Id): set<Key> { set k | k in ks && k.w == w }

  /** The cycle is through with w: a whole batch of its rows went, or fewer and none that may go is left. */
  ghost predicate Swept(t: Table, gone: set<Key>, w: Id, version: int, min: int, aged: set<int>, batchSize: nat) {
    || |RowsOfOne(gone, w)| == batchSize
    || (|RowsOfOne(gone, w)| < batchSize && NoneLeft(t, w, version, min, aged))
  }

  /** Every row of w that is left is at or above the snapshot, unread by some reader, unpublished or too young. */
  ghost predicate NoneLeft(t: Table, w: Id, version: int, min: int, aged: set<int>) {
    forall k :: k in t && k.w == w ==> k.v >= version || t[k].gid >= min || !t[k].pushed || t[k].gid !in aged
  }

  lemma {:induction false} SweptStays(t: Table, gone: set<Key>, w: Id, version: int, min: int, aged: set<int>, batchSize: nat, ks: set<Key>)
    requires Swept(t, gone, w, version, min, aged, batchSize) && forall k :: k in ks ==> k.w != w
    ensures Swept(Without(t, ks), gone + ks, w, version, min, aged, batchSize)
  {
    assert RowsOfOne(gone + ks, w) == RowsOfOne(gone, w);
  }

  lemma {:induction false} WithoutSize(t: Table, ks: set<Key>)
    requires forall k :: k in ks ==> k in t
    ensures |Without(t, ks)| == |t| - |ks|
  {
    assert Without(t, ks).Keys == t.Keys - ks;
    assert |t.Keys - ks| == |t.Keys| - |ks|;
  }

  lemma {:induction false} WithoutTwice(t: Table, a: set<Key>, b: set<Key>)
    ensures Without(Without(t, a), b) == Without(t, a + b)
  {
  }

  class TruncationService {
    const db: Database
    const offsets: Offsets
    const batchSize: nat

    constructor (db: Database, offsets: Offsets, batchSize: nat)
      ensures this.db == db && this.offsets == offsets && this.batchSize == batchSize
    {
      this.db, this.offsets, this.batchSize := db, offsets, batchSize;
    }

    method GetMinReaderOffset() returns (m: int)
      ensures IsMin(offsets.rows, m)
    {
      var left := offsets.rows.Keys;
      if left == {} { return 0; }
      var r :| r in left;
      m, left := offsets.rows[r], left - {r};
      while left != {}
        invariant left <= offsets.rows.Keys && exists q :: q in offsets.rows && offsets.rows[q] == m
        invariant forall q :: q in offsets.rows ==> q in left || m <= offsets.rows[q]
        decreases |left|
      {
        r :| r in left;
        left := left - {r};
        if offsets.rows[r] < m { m := offsets.rows[r]; }
      }
    }

    /** DELETE ... LIMIT: up to batchSize eligible rows go, in an order the statement does not fix. */
    method DeleteEventsForSnapshot(w: Id, version: int, min: int, aged: set<int>) returns (deleted: nat, ghost ks: set<Key>)
      modifies db`events
      ensures forall k :: k in ks ==> EligibleFor(old(db.events), k, w, version, min, aged)
      ensures db.events == Without(old(db.events), ks) && deleted == |ks| <= batchSize
      ensures deleted < batchSize ==> forall k :: !EligibleFor(db.events, k, w, version, min, aged)
    {
      var left := set k | k in db.events && Eligible(db.events, k, w, version, min) && db.events[k].gid in aged;
      ghost var t := db.events;
      ks, deleted := {}, 0;
      while left != {} && deleted < batchSize
        invariant forall k :: k in ks ==> EligibleFor(t, k, w, version, min, aged)
        invariant forall k :: k in left <==> EligibleFor(db.events, k, w, version, min, aged)
        invariant db.events == Without(t, ks) && deleted == |ks| <= batchSize
        decreases |left|
      {
        var k :| k in left;
        assert k in db.events && k !in ks;
        left, deleted, ks := left - {k}, deleted + 1, ks + {k};
        db.events := db.events - {k};
      }
    }

    /** One cycle with nothing else running; each deletion is a `Delete` step of module TruncationRun. */
    method RunTruncationCycle(ws: set<Id>, aged: set<int>) returns (totalDeleted: nat, ghost gone: set<Key>)
      modifies db`events
      ensures db.events == Without(old(db.events), gone) && totalDeleted == |gone| == |old(db.events)| - |db.events|
      ensures forall k :: k in gone ==>
                && k.w in ws && k.w in db.snapshots
                && exists m :: && m != 0 && IsMin(offsets.rows, m)
                               && EligibleFor(old(db.events), k, k.w, db.snapshots[k.w].version, m, aged)
      ensures IsMin(offsets.rows, 0) ==> totalDeleted == 0
      ensures forall m, w :: m != 0 && IsMin(offsets.rows, m) && w in ws && w in db.snapshots ==>
                Swept(db.events, gone, w, db.snapshots[w].version, m, aged, batchSize)
    {
      totalDeleted, gone := 0, {};
      ghost var t := db.events;
      assert t == Without(t, {});
      var min := GetMinReaderOffset();
      if min == 0 { return; }
      var left := set w | w in db.snapshots && w in ws;
      while left != {}
        invariant db.events == Without(t, gone) && totalDeleted == |gone|
        invariant forall k :: k in gone ==>
                    && k in t && k.w in db.snapshots && k.w in ws
                    && EligibleFor(t, k, k.w, db.snapshots[k.w].version, min, aged)
        invariant left <= db.snapshots.Keys * ws
        invariant forall k :: k in gone ==> k.w !in left
        invariant forall w :: w in ws && w in db.snapshots && w !in left ==>
                    Swept(db.events, gone, w, db.snapshots[w].version, min, aged, batchSize)
        decreases |left|
      {
        var w :| w in left;
        left := left - {w};
        ghost var before, gone0 := db.events, gone;
        ghost var ks;
        var deleted;
        deleted, ks := DeleteEventsForSnapshot(w, db.snapshots[w].version, min, aged);
        assert deleted < batchSize ==> NoneLeft(db.events, w, db.snapshots[w].version, min, aged) by {
          assert forall k :: k in db.events && k.w == w && deleted < batchSize ==>
                   !EligibleFor(db.events, k, w, db.snapshots[w].version, min, aged);
        }
        WithoutTwice(t, gone, ks);
        assert gone !! ks by { assert forall k :: k in ks ==> k in before; }
        totalDeleted, gone := totalDeleted + deleted, gone + ks;
        assert RowsOfOne(gone, w) == ks;
        forall u | u in ws && u in db.snapshots && u !in left && u != w
          ensures Swept(db.events, gone, u, db.snapshots[u].version, min, aged, batchSize)
        {
          SweptStays(before, gone0, u, db.snapshots[u].version, min, aged, batchSize, ks);
        }
      }
      WithoutSize(t, gone);
      assert forall m :: IsMin(offsets.rows, m) ==> m == min;
    }
  }
}
