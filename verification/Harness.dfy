/**
 The in-memory test harness (pkg/testing/testing.go) and the proof that the repository refines it: for a
 single client the database, the snapshots and the cache are invisible.
 */
module Harness {
  import opened Wrappers
  import opened WorkflowModel
  import opened EventStore
  import opened SerialHistory
  import opened Interleaving
  import opened EphemeralStorage
  import opened Repository

  /** The harness's maps. */
  datatype Book = Book(states: map<Id, Option<State>>, versions: map<Id, int>)

  datatype Answer = No(reason: Reason) | Yes(events: seq<Event>, state: Option<State>, version: int)

  function HarnessCreate(wf: Workflow, h: Book, w: Id, cmd: Json): (Book, Answer) {
    if w in h.states then (h, No(AlreadyExists))
    else match wf.decide(None, cmd)
      case Rejected(msg) => (h, No(ByDecide(msg)))
      case Accepted(es) =>
        if es == [] then (Book(h.states[w := None], h.versions[w := 0]), Yes([], None, 0))
        else
          var s := EvolveAll(wf, None, es);
          (Book(h.states[w := s], h.versions[w := |es|]), Yes(es, s, |es|))
  }

  function VersionOf(h: Book, w: Id): int { if w in h.versions then h.versions[w] else 0 }

  function HarnessSend(wf: Workflow, h: Book, w: Id, cmd: Json): (Book, Answer) {
    if w !in h.states then (h, No(NotFound))
    else
      var s := h.states[w];
      if s.Some? && s.value.base.lifecycle == Paused then (h, No(WorkflowPaused))
      else if s.Some? && s.value.base.lifecycle == Cancelled then (h, No(WorkflowCancelled))
      else match wf.decide(s, cmd)
        case Rejected(msg) => (h, No(ByDecide(msg)))
        case Accepted(es) =>
          if es == [] then (h, Yes([], s, VersionOf(h, w)))
          else
            var s' := EvolveAll(wf, s, es);
            var v := VersionOf(h, w) + |es|;
            (Book(h.states[w := s'], h.versions[w := v]), Yes(es, s', v))
  }

  /** WorkflowTestHarness. */
  class WorkflowTestHarness {
    const workflow: Workflow
    var states: map<Id, Option<State>>
    var versions: map<Id, int>

    constructor (workflow: Workflow)
      ensures this.workflow == workflow && View() == Book(map[], map[])
    {
      this.workflow, states, versions := workflow, map[], map[];
    }

    ghost function View(): Book
      reads this
    {
      Book(states, versions)
    }

    method CreateNew(w: Id, cmd: Json) returns (r: Answer)
      modifies this
      ensures (View(), r) == old(HarnessCreate(workflow, View(), w, cmd))
    {
      if w in states { return No(AlreadyExists); }
      match workflow.decide(None, cmd) {
        case Rejected(msg) => r := No(ByDecide(msg));
        case Accepted(es) =>
          if es == [] {
            states, versions := states[w := None], versions[w := 0];
            return Yes([], None, 0);
          }
          var state := EvolveAllLoop(workflow, None, es);
          states, versions := states[w := state], versions[w := |es|];
          r := Yes(es, state, |es|);
      }
    }

    method SendCommand(w: Id, cmd: Json) returns (r: Answer)
      modifies this
      ensures (View(), r) == old(HarnessSend(workflow, View(), w, cmd))
    {
      if w !in states { return No(NotFound); }
      var state := states[w];
      if state.Some? {
        if state.value.base.lifecycle == Paused { return No(WorkflowPaused); }
        if state.value.base.lifecycle == Cancelled { return No(WorkflowCancelled); }
      }
      match workflow.decide(state, cmd) {
        case Rejected(msg) => r := No(ByDecide(msg));
        case Accepted(es) =>
          if es == [] { return Yes([], state, VersionOf(Book(states, versions), w)); }
          var newState := EvolveAllLoop(workflow, state, es);
          var v := VersionOf(Book(states, versions), w) + |es|;
          states, versions := states[w := newState], versions[w := v];
          r := Yes(es, newState, v);
      }
    }
  }

  // ---------------------------------------------------------------------------------------------
  // One client, one repository
  // ---------------------------------------------------------------------------------------------

  datatype ClientCall = NewWorkflow(w: Id, cmd: Json) | Send(w: Id, cmd: Json)

  /** The repository as its one client sees it: database and cache. */
  datatype Shop = Shop(db: Db, cache: Lru)

  function AnswerOf(o: Outcome): Answer {
    match o
    case Refused(r) => No(r)
    case Retry => No(TooManyRetries)
    case Done(result, es) => Yes(es, Some(result.state), result.version)
  }

  ghost function RepoCall(cfg: Config, trust: bool, n: nat, s: Shop, call: ClientCall): (Shop, Answer) {
    var a := match call
      case NewWorkflow(w, cmd) => CreateCall(cfg, s.db, s.cache, w, cmd)
      case Send(w, cmd) => Attempts(cfg, trust, s.db, s.cache, w, cmd, n);
    (Shop(a.db, a.cache), AnswerOf(a.outcome))
  }

  function HarnessCall(wf: Workflow, h: Book, call: ClientCall): (Book, Answer) {
    match call
    case NewWorkflow(w, cmd) => HarnessCreate(wf, h, w, cmd)
    case Send(w, cmd) => HarnessSend(wf, h, w, cmd)
  }

  ghost function RepoRun(cfg: Config, trust: bool, n: nat, s: Shop, calls: seq<ClientCall>): (Shop, seq<Answer>) {
    if calls == [] then (s, [])
    else
      var (s', rs) := RepoRun(cfg, trust, n, s, calls[..|calls| - 1]);
      var (s'', a) := RepoCall(cfg, trust, n, s', calls[|calls| - 1]);
      (s'', rs + [a])
  }

  function HarnessRun(wf: Workflow, h: Book, calls: seq<ClientCall>): (Book, seq<Answer>) {
    if calls == [] then (h, [])
    else
      var (h', hs) := HarnessRun(wf, h, calls[..|calls| - 1]);
      var (h'', a) := HarnessCall(wf, h', calls[|calls| - 1]);
      (h'', hs + [a])
  }

  /** Same events, state and version; or both refuse, for the same reason unless it was a create. */
  predicate Agree(call: ClientCall, r: Answer, h: Answer) {
    if r.Yes? || h.Yes? then r == h else call.NewWorkflow? || r == h
  }

  // ---------------------------------------------------------------------------------------------
  // Hypotheses
  // ---------------------------------------------------------------------------------------------

  ghost predicate NeverFinal(wf: Workflow) { forall e :: !wf.isFinal(e) }

  /** Every horizon subscription that the batch adds is still there at its end. */
  predicate KeepsHorizons(w: Id, es: seq<Event>) {
    forall i :: 0 <= i < |es| && SetsHorizon(es[i]) ==> SubKeyOf(w, es[i].sub) in SyncSubs(map[], w, es)
  }

  /** The batch is not empty, does not end the workflow, and keeps the horizons it adds. */
  predicate Plain(wf: Workflow, w: Id, es: seq<Event>) {
    es != [] && !IsTerminal(wf, es[|es| - 1]) && KeepsHorizons(w, es)
  }

  /** A first create, or a command to an active workflow, whose batch is plain; a command may also emit nothing. */
  predicate Clean(wf: Workflow, h: Book, call: ClientCall) {
    match call
    case NewWorkflow(w, cmd) =>
      var d := wf.decide(None, cmd);
      w !in h.states && d.Accepted? ==> Plain(wf, w, d.events)
    case Send(w, cmd) =>
      w in h.states && h.states[w].Some? && h.states[w].value.base.lifecycle == Active ==>
        var d := wf.decide(h.states[w], cmd);
        d.Accepted? && d.events != [] ==> Plain(wf, w, d.events)
  }

  predicate CleanCalls(wf: Workflow, h: Book, calls: seq<ClientCall>) {
    calls != [] ==>
      CleanCalls(wf, h, calls[..|calls| - 1]) && Clean(wf, HarnessRun(wf, h, calls[..|calls| - 1]).0, calls[|calls| - 1])
  }

  // ---------------------------------------------------------------------------------------------
  // When the horizon stamp fails
  // ---------------------------------------------------------------------------------------------

  predicate Touches(w: Id, e: Event, k: SubKey) {
    (e.SubscriptionAdded? || e.SubscriptionRemoved?) && SubKeyOf(w, e.sub) == k
  }

  /** Whether a key that the batch touches is present at its end does not depend on the table before it. */
  lemma {:induction false} PresenceIsLocal(subs: map<SubKey, SubRow>, w: Id, es: seq<Event>, k: SubKey, i: nat)
    requires i < |es| && Touches(w, es[i], k)
    ensures k in SyncSubs(subs, w, es) <==> k in SyncSubs(map[], w, es)
    decreases |es|
  {
    if !Touches(w, es[|es| - 1], k) {
      PresenceIsLocal(subs, w, es[..|es| - 1], k, i);
    }
  }

  lemma {:induction false} StampNeedsRows(subs: map<SubKey, SubRow>, w: Id, es: seq<Event>, gid: int)
    ensures StampSubs(subs, w, es, gid).Some? <==>
            forall i :: 0 <= i < |es| && SetsHorizon(es[i]) ==> SubKeyOf(w, es[i].sub) in subs
    ensures StampSubs(subs, w, es, gid).Some? ==> StampSubs(subs, w, es, gid).value.Keys == subs.Keys
    decreases |es|
  {
    if es != [] {
      var front := es[..|es| - 1];
      StampNeedsRows(subs, w, front, gid);
      assert forall i :: 0 <= i < |front| ==> front[i] == es[i];
    }
  }

  /** The subscription step refuses a batch if and only if the batch drops a horizon it adds. */
  lemma {:induction false} StampFailsIff(subs: map<SubKey, SubRow>, w: Id, es: seq<Event>, gid: int)
    ensures StampSubs(SyncSubs(subs, w, es), w, es, gid).Some? <==> KeepsHorizons(w, es)
  {
    StampNeedsRows(SyncSubs(subs, w, es), w, es, gid);
    forall i | 0 <= i < |es| && SetsHorizon(es[i])
      ensures SubKeyOf(w, es[i].sub) in SyncSubs(subs, w, es) <==> SubKeyOf(w, es[i].sub) in SyncSubs(map[], w, es)
    {
      PresenceIsLocal(subs, w, es, SubKeyOf(w, es[i].sub), i);
    }
  }

  // ---------------------------------------------------------------------------------------------
  // The refinement
  // ---------------------------------------------------------------------------------------------

  /** The harness's entry for w is the fold of w's log, and exists exactly when the log is not empty. */
  ghost predicate SameBook(cfg: Config, db: Db, h: Book, w: Id) {
    && (w in h.states <==> Head(db, w) > 0)
    && (w in h.states ==> w in h.versions && h.versions[w] == Head(db, w)
                          && h.states[w] == FoldTo(cfg, db, w, Head(db, w)))
  }

  ghost predicate FreshEntry(cfg: Config, db: Db, e: Entry) {
    IsFold(cfg, db, e.key, e.value) && e.value.version == Head(db, e.key)
  }

  /** The log does not end in a final event. */
  ghost predicate Open(cfg: Config, db: Db, w: Id) {
    var n := Head(db, w); n > 0 ==> Key(w, n) in db.events && !IsTerminal(cfg.wf, db.events[Key(w, n)].event)
  }

  ghost predicate Refines(cfg: Config, s: Shop, h: Book) {
    && DbOk(cfg, s.db) && DistinctKeys(s.cache.entries)
    && (forall w :: SameBook(cfg, s.db, h, w) && Open(cfg, s.db, w))
    && (forall e :: e in s.cache.entries ==> FreshEntry(cfg, s.db, e))
  }

  /** A load of an open log is the fold of the log. */
  lemma {:induction false} LoadIsFold(cfg: Config, db: Db, w: Id)
    requires LogOk(cfg, db, w) && Open(cfg, db, w)
    ensures Load(cfg, db, w, None) ==
            if Head(db, w) <= 0 then None else Some(Stored(Head(db, w), FoldTo(cfg, db, w, Head(db, w)).value))
  {
    LoadFromIsFold(cfg, db, w, SnapshotFor(cfg, db, w, None), None);
  }

  lemma {:induction false} CurrentIsFold(cfg: Config, trust: bool, s: Shop, h: Book, w: Id)
    requires Refines(cfg, s, h)
    ensures CurrentState(cfg, s.db, w, GetFrom(s.cache, w).1, trust) ==
            if Head(s.db, w) <= 0 then None
            else Some(Stored(Head(s.db, w), FoldTo(cfg, s.db, w, Head(s.db, w)).value))
  {
    assert LogOk(cfg, s.db, w) && SameBook(cfg, s.db, h, w) && Open(cfg, s.db, w);
    LoadIsFold(cfg, s.db, w);
    var hit := GetFrom(s.cache, w).1;
    if hit.Some? {
      assert FreshEntry(cfg, s.db, Entry(w, hit.value));
    }
  }

  /** A batch that follows the fold is written, cached and mirrored by the harness. */
  lemma {:induction false} WriteMirrors(cfg: Config, s: Shop, h: Book, w: Id, base: Option<Stored>, es: seq<Event>, onConflict: Outcome, h': Book)
    requires Refines(cfg, s, h) && Plain(cfg.wf, w, es)
    requires BaseVersion(base) == Head(s.db, w) && StateOf(base) == FoldTo(cfg, s.db, w, Head(s.db, w))
    requires var r := ResultOf(cfg, base, es);
             h' == Book(h.states[w := Some(r.state)], h.versions[w := r.version])
    ensures var a := WriteBatch(cfg, s.db, s.cache, w, base, es, onConflict);
            a.outcome == Done(ResultOf(cfg, base, es), es) && Refines(cfg, Shop(a.db, a.cache), h')
  {
    assert LogOk(cfg, s.db, w);
    StampFailsIff(s.db.subs, w, es, s.db.nextGid);
    NoConflictAtHead(s.db.events, w, Head(s.db, w), BaseVersion(base), |es|);
    var a := WriteBatch(cfg, s.db, s.cache, w, base, es, onConflict);
    var r := ResultOf(cfg, base, es);
    assert Commit(cfg, s.db, w, Head(s.db, w), StateOf(base), es) == Committed(a.db);
    CommitAtHead(cfg, s.db, w, StateOf(base), es, a.db);
    assert a.cache == PutIn(s.cache, w, r);
    PutEntries(s.cache, w, r);
    BooksMirror(cfg, s, h, w, r, a.db, h');
    StaysOpen(cfg, s, h, w, StateOf(base), es, a.db);
    forall e | e in a.cache.entries ensures FreshEntry(cfg, a.db, e) {
      if e.key != w {
        assert FreshEntry(cfg, s.db, e) && SameWorkflow(s.db, a.db, e.key) && LogOk(cfg, s.db, e.key);
        FrameLog(cfg, s.db, a.db, e.key);
      }
    }
  }

  lemma {:induction false} BooksMirror(cfg: Config, s: Shop, h: Book, w: Id, r: Stored, db': Db, h': Book)
    requires Refines(cfg, s, h) && DbOk(cfg, db')
    requires forall u :: u != w ==> SameWorkflow(s.db, db', u)
    requires Head(db', w) == r.version > 0 && FoldTo(cfg, db', w, r.version) == Some(r.state)
    requires h' == Book(h.states[w := Some(r.state)], h.versions[w := r.version])
    ensures forall u :: SameBook(cfg, db', h', u)
  {
    forall u ensures SameBook(cfg, db', h', u) {
      assert SameBook(cfg, s.db, h, u);
      if u != w {
        assert LogOk(cfg, s.db, u);
        FrameLog(cfg, s.db, db', u);
      }
    }
  }

  lemma {:induction false} StaysOpen(cfg: Config, s: Shop, h: Book, w: Id, state: Option<State>, es: seq<Event>, db': Db)
    requires Refines(cfg, s, h) && Plain(cfg.wf, w, es) && Commit(cfg, s.db, w, Head(s.db, w), state, es) == Committed(db')
    requires Head(db', w) == Head(s.db, w) + |es| && forall u :: u != w ==> SameWorkflow(s.db, db', u)
    ensures forall u :: Open(cfg, db', u)
  {
    forall u ensures Open(cfg, db', u) {
      if u == w {
        LastRow(cfg, s.db, w, Head(s.db, w), state, es, db');
      } else {
        assert SameBook(cfg, s.db, h, u) && Open(cfg, s.db, u) && LogOk(cfg, s.db, u);
        FrameLog(cfg, s.db, db', u);
      }
    }
  }

  lemma {:induction false} HitKeepsRefines(cfg: Config, s: Shop, h: Book, w: Id)
    requires Refines(cfg, s, h)
    ensures Refines(cfg, Shop(s.db, GetFrom(s.cache, w).0), h)
  {
    GetEntries(s.cache, w);
  }

  lemma {:induction false} SendRefines(cfg: Config, trust: bool, n: nat, s: Shop, h: Book, w: Id, cmd: Json)
    requires Clean(cfg.wf, h, Send(w, cmd)) && Refines(cfg, s, h) && n > 0
    ensures var (s', r) := RepoCall(cfg, trust, n, s, Send(w, cmd));
            var (h', a) := HarnessSend(cfg.wf, h, w, cmd);
            r == a && Refines(cfg, s', h')
  {
    assert SameBook(cfg, s.db, h, w) && LogOk(cfg, s.db, w);
    CurrentIsFold(cfg, trust, s, h, w);
    if w in h.states {
      FoldSome(cfg, s.db, w, Head(s.db, w));
      var c := GetFrom(s.cache, w).0;
      HitKeepsRefines(cfg, s, h, w);
      var b := CurrentState(cfg, s.db, w, GetFrom(s.cache, w).1, trust);
      assert Attempt(cfg, trust, s.db, s.cache, w, cmd) == DecideAndWrite(cfg, s.db, c, w, cmd, b);
      var d := cfg.wf.decide(Some(b.value.state), cmd);
      if b.value.state.base.lifecycle == Active && d.Accepted? && d.events != [] {
        WriteMirrors(cfg, Shop(s.db, c), h, w, b, d.events, Retry, HarnessSend(cfg.wf, h, w, cmd).0);
      }
    }
  }

  lemma {:induction false} CreateRefines(cfg: Config, trust: bool, n: nat, s: Shop, h: Book, w: Id, cmd: Json)
    requires Clean(cfg.wf, h, NewWorkflow(w, cmd)) && Refines(cfg, s, h)
    ensures var (s', r) := RepoCall(cfg, trust, n, s, NewWorkflow(w, cmd));
            var (h', a) := HarnessCreate(cfg.wf, h, w, cmd);
            Agree(NewWorkflow(w, cmd), r, a) && Refines(cfg, s', h')
  {
    assert SameBook(cfg, s.db, h, w) && LogOk(cfg, s.db, w);
    var d := cfg.wf.decide(None, cmd);
    if d.Accepted? && d.events != [] {
      NoConflictAtHead(s.db.events, w, Head(s.db, w), 0, |d.events|);
      if w !in h.states {
        WriteMirrors(cfg, s, h, w, None, d.events, Refused(AlreadyExists), HarnessCreate(cfg.wf, h, w, cmd).0);
      }
    }
  }

  lemma {:induction false} RunRefines(cfg: Config, trust: bool, n: nat, s: Shop, h: Book, calls: seq<ClientCall>)
    requires CleanCalls(cfg.wf, h, calls) && Refines(cfg, s, h) && n > 0
    ensures var (s', rs) := RepoRun(cfg, trust, n, s, calls);
            var (h', hs) := HarnessRun(cfg.wf, h, calls);
            && Refines(cfg, s', h') && |rs| == |hs| == |calls|
            && forall i :: 0 <= i < |calls| ==> Agree(calls[i], rs[i], hs[i])
    decreases |calls|
  {
    if calls != [] {
      var front, call := calls[..|calls| - 1], calls[|calls| - 1];
      RunRefines(cfg, trust, n, s, h, front);
      var s1, h1 := RepoRun(cfg, trust, n, s, front).0, HarnessRun(cfg.wf, h, front).0;
      match call
      case NewWorkflow(w, cmd) => CreateRefines(cfg, trust, n, s1, h1, w, cmd);
      case Send(w, cmd) => SendRefines(cfg, trust, n, s1, h1, w, cmd);
    }
  }

  /**
   The repository refines the harness: for every sequence of calls, any snapshot interval, any cache
   size, cache trusted or checked, both accept the same calls with the same events, state and version,
   as long as every batch is plain.
   */
  lemma {:induction false} RepositoryRefinesHarness(cfg: Config, trust: bool, n: nat, maxSize: int, calls: seq<ClientCall>)
    requires CleanCalls(cfg.wf, Book(map[], map[]), calls) && n > 0
    ensures var (s, rs) := RepoRun(cfg, trust, n, Shop(EmptyDb, NewLru(maxSize)), calls);
            var (h, hs) := HarnessRun(cfg.wf, Book(map[], map[]), calls);
            && |rs| == |hs| == |calls| && (forall i :: 0 <= i < |calls| ==> Agree(calls[i], rs[i], hs[i]))
            && forall w :: SameBook(cfg, s.db, h, w)
  {
    EmptyDbOk(cfg);
    RunRefines(cfg, trust, n, Shop(EmptyDb, NewLru(maxSize)), Book(map[], map[]), calls);
  }

  /** The two hypotheses on creates and horizons are exact for a first create of a fresh workflow. */
  lemma {:induction false} FirstCreateAgreesIff(cfg: Config, trust: bool, n: nat, maxSize: int, w: Id, cmd: Json)
    ensures var r := RepoCall(cfg, trust, n, Shop(EmptyDb, NewLru(maxSize)), NewWorkflow(w, cmd)).1;
            var a := HarnessCreate(cfg.wf, Book(map[], map[]), w, cmd).1;
            var d := cfg.wf.decide(None, cmd);
            Agree(NewWorkflow(w, cmd), r, a) <==> (d.Accepted? ==> d.events != [] && KeepsHorizons(w, d.events))
  {
    var d := cfg.wf.decide(None, cmd);
    if d.Accepted? && d.events != [] {
      StampFailsIff(map[], w, d.events, 1);
    }
  }
}
