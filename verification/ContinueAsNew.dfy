/**
 ContinueAsNew (pkg/repo/repo.go) is not a step of the other modules, because it breaks what they rest on:
 the snapshot keeps the old version while the log starts again at 1.  This module says exactly when the
 events that follow are lost to a cold load.
 */
module ContinueAsNewCall {
  import opened Wrappers
  import opened WorkflowModel
  import opened EventStore
  import opened SerialHistory

  function OnlyMarker(t: Table, w: Id, gid: int): Table {
    (map k | k in t && k.w != w :: t[k])[Key(w, 1) := EventRow(gid, ContinueAsNew, false)]
  }

  /** Force a snapshot at the current version, delete the log, insert the marker at version 1. */
  ghost function Continue(cfg: Config, db: Db, w: Id): Option<Db> {
    var base := Load(cfg, db, w, None);
    if cfg.interval <= 0 || base.None? then None
    else Some(db.(
      events := OnlyMarker(db.events, w, db.nextGid),
      nextGid := db.nextGid + 1,
      snapshots := db.snapshots[w := Snapshot(base.value.version, base.value.state)]))
  }

  lemma {:induction false} MarkerAlone(t: Table, w: Id, gid: int)
    ensures Contiguous(OnlyMarker(t, w, gid), w, 1) && MaxVersion(OnlyMarker(t, w, gid), w) == 1
  {
    HeadOf(OnlyMarker(t, w, gid), w, 1);
  }

  /** The old log is replaced by the marker alone, with a fresh global id; no other workflow and no other table changes. */
  lemma {:induction false} OnlyLogGoes(cfg: Config, db: Db, w: Id, db': Db)
    requires DbOk(cfg, db) && Continue(cfg, db, w) == Some(db')
    ensures forall v :: Key(w, v) in db'.events <==> v == 1
    ensures db'.events[Key(w, 1)].event == ContinueAsNew && db'.events[Key(w, 1)].gid == db.nextGid < db'.nextGid
    ensures w in db'.snapshots && Some(db'.snapshots[w].state) == FoldTo(cfg, db, w, Head(db, w)) && db'.snapshots[w].version == Head(db, w)
    ensures (forall u :: u != w ==> SameWorkflow(db, db', u)) && db'.delays == db.delays && db'.subs == db.subs
  {
    LoadedVersion(cfg, db, w);
  }

  /** The state survives, but the loaded version and MAX(workflow_version) agree only for a log of one event. */
  lemma {:induction false} VersionsAgreeIff(cfg: Config, db: Db, w: Id, db': Db)
    requires DbOk(cfg, db) && Continue(cfg, db, w) == Some(db')
    ensures Load(cfg, db', w, None) == Load(cfg, db, w, None)
    ensures Load(cfg, db', w, None).value.version == MaxVersion(db'.events, w) <==> Head(db, w) == 1
  {
    LoadedVersion(cfg, db, w);
    assert LogOk(cfg, db, w);
    LoadAtHead(cfg, db, w);
    MarkerAlone(db.events, w, db.nextGid);
  }

  /**
   A batch that is written after the marker, at version 2 on, as the refreshed cache directs.  When it hits
   the snapshot interval, a cold load returns the state it led to.  Otherwise it is invisible to a cold
   load if and only if it ends at or below the version that the log had before.
   */
  lemma {:induction false} LostIff(cfg: Config, db: Db, w: Id, db': Db, state: Option<State>, es: seq<Event>, later: Db)
    requires DbOk(cfg, db) && Continue(cfg, db, w) == Some(db') && es != []
    requires Commit(cfg, db', w, 1, state, es) == Committed(later)
    ensures if (1 + |es|) % cfg.interval == 0
            then Load(cfg, later, w, None) == Some(Stored(1 + |es|, EvolveAll(cfg.wf, state, es).value))
            else Load(cfg, later, w, None) == Load(cfg, db, w, None) <==> 1 + |es| <= Head(db, w)
  {
    var n, snap := AfterContinue(cfg, db, w, db');
    InsertAtHead(db'.events, w, 1, es, db'.nextGid);
    SuffixLostIff(cfg, later.events, w, later.snapshots[w], 1 + |es|);
  }

  lemma {:induction false} AfterContinue(cfg: Config, db: Db, w: Id, db': Db) returns (n: int, snap: Snapshot)
    requires DbOk(cfg, db) && Continue(cfg, db, w) == Some(db')
    ensures n == Head(db, w) == snap.version >= 1 && Load(cfg, db, w, None) == Some(Stored(n, snap.state))
    ensures cfg.interval > 0 && w in db'.snapshots && db'.snapshots[w] == snap && Contiguous(db'.events, w, 1)
  {
    var base := Load(cfg, db, w, None).value;
    n, snap := base.version, Snapshot(base.version, base.state);
    assert LogOk(cfg, db, w);
    LoadAtHead(cfg, db, w);
    MarkerAlone(db.events, w, db.nextGid);
  }

  /** A log of m events loads as the snapshot alone exactly when it does not reach past it. */
  lemma {:induction false} SuffixLostIff(cfg: Config, t: Table, w: Id, snap: Snapshot, m: int)
    requires Contiguous(t, w, m) && MaxVersion(t, w) == m && snap.version >= 1
    ensures LoadFrom(cfg, t, w, Some(snap), None) == Some(Stored(snap.version, snap.state)) <==> m <= snap.version
  {
    if m > snap.version {
      SelectLen(t, w, snap.version, m);
    }
    LoadSuffix(cfg, t, w, Some(snap), None, SelectEvents(t, w, snap.version, m));
  }
}
