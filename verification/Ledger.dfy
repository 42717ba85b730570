/** What a repository answers, and what it caches: the calls against a ledger of accounts. */
module Ledger {
  import opened Wrappers
  import opened WorkflowModel
  import opened EventStore
  import opened SerialHistory
  import opened Interleaving
  import opened EphemeralStorage
  import opened Repository
  import opened Harness

  // First, one call of one process on a database that others write too: a result is the fold of the log that the
  // call leaves behind, and the cache holds folds of prefixes before and after.  Then one repository alone: the
  // answers to every sequence of calls are those of a ledger that knows no log, snapshot or cache.

  // ---------------------------------------------------------------------------------------------
  // One call on a shared database
  // ---------------------------------------------------------------------------------------------

  ghost predicate CacheOk(cfg: Config, db: Db, c: Lru) {
    DistinctKeys(c.entries) && forall e :: e in c.entries ==> CachedOk(cfg, db, e.key, e.value)
  }

  /** `es` were appended to the log of w, and `result` is the fold of all of it. */
  ghost predicate Appended(cfg: Config, db: Db, db': Db, w: Id, es: seq<Event>, result: Stored) {
    && DbOk(cfg, db') && Extends(db, db') && Log(db', w) == Log(db, w) + es
    && result.version == Head(db', w) == Head(db, w) + |es|
    && FoldTo(cfg, db', w, Head(db', w)) == Some(result.state)
  }

  lemma {:induction false} CommitAppends(cfg: Config, db: Db, w: Id, base: Option<Stored>, es: seq<Event>, db': Db)
    requires DbOk(cfg, db) && es != [] && (base.Some? ==> BaseOk(cfg, db, w, base.value))
    requires Commit(cfg, db, w, BaseVersion(base), StateOf(base), es) == Committed(db')
    ensures Appended(cfg, db, db', w, es, Stored(BaseVersion(base) + |es|, EvolveAll(cfg.wf, StateOf(base), es).value))
    ensures BaseVersion(base) == Head(db, w) && StateOf(base) == FoldTo(cfg, db, w, Head(db, w))
  {
    assert LogOk(cfg, db, w);
    NoConflictAtHead(db.events, w, Head(db, w), BaseVersion(base), |es|);
    CommitAtHead(cfg, db, w, StateOf(base), es, db');
  }

  /** A commit leaves every cached state a fold of a prefix, and a batch that does not end the workflow adds one. */
  lemma {:induction false} CachesAfter(cfg: Config, db: Db, c: Lru, w: Id, base: Option<Stored>, es: seq<Event>, db': Db)
    requires DbOk(cfg, db) && CacheOk(cfg, db, c) && es != [] && (base.Some? ==> BaseOk(cfg, db, w, base.value))
    requires Commit(cfg, db, w, BaseVersion(base), StateOf(base), es) == Committed(db')
    ensures CacheOk(cfg, db', c) && CacheOk(cfg, db', RemoveFrom(c, w))
    ensures !IsTerminal(cfg.wf, es[|es| - 1]) ==>
              CacheOk(cfg, db', PutIn(c, w, Stored(BaseVersion(base) + |es|, EvolveAll(cfg.wf, StateOf(base), es).value)))
  {
    CommitAppends(cfg, db, w, base, es, db');
    forall e | e in c.entries ensures CachedOk(cfg, db', e.key, e.value) {
      assert Grows(db, db', e.key);
      CachedGrows(cfg, db, db', e.key, e.value);
    }
    DropKeeps(c.entries, w);
    var result := Stored(BaseVersion(base) + |es|, EvolveAll(cfg.wf, StateOf(base), es).value);
    LastRow(cfg, db, w, BaseVersion(base), StateOf(base), es, db');
    PutEntries(c, w, result);
  }

  /** What a lifecycle call appends. */
  predicate IsItsEvent(op: Op, e: Event) {
    match op
    case Pause(_, reason) => e == SystemPause(reason)
    case Resume(_) => e == SystemResume
    case Cancel(_, reason) => e == SystemCancel(reason)
    case _ => false
  }

  /**
   An accepted pause, resume or cancel appends its one event and returns the fold of the log that this gives;
   a pause or a resume leaves that fold in the cache, a cancel leaves nothing there.
   */
  lemma {:induction false} LifecycleAnswers(cfg: Config, db: Db, c: Lru, op: Op)
    requires FrameworkNotFinal(cfg.wf) && DbOk(cfg, db) && CacheOk(cfg, db, c) && IsLifecycle(op)
    ensures var a := LifecycleCall(cfg, db, c, op);
            match a.outcome
            case Done(result, es) =>
              && |es| == 1 && IsItsEvent(op, es[0]) && Appended(cfg, db, a.db, op.w, es, result)
              && CacheOk(cfg, a.db, a.cache) && Find(a.cache.entries, op.w) == (if op.Cancel? then None else Some(result))
            case _ => a.db == db && a.cache == c
  {
    var b := Load(cfg, db, op.w, None);
    if b.Some? && LifecycleRefusal(op, b.value.state.base.lifecycle).None? {
      LoadedIsBase(cfg, db, op.w);
      var es := [LifecycleEvent(op)];
      var r := Commit(cfg, db, op.w, b.value.version, StateOf(b), es);
      if r.Committed? {
        CommitAppends(cfg, db, op.w, b, es, r.db);
        CachesAfter(cfg, db, c, op.w, b, es, r.db);
        FindGone(c.entries, op.w);
      }
    }
  }

  lemma {:induction false} LoadedIsBase(cfg: Config, db: Db, w: Id)
    requires DbOk(cfg, db) && Load(cfg, db, w, None).Some?
    ensures BaseOk(cfg, db, w, Load(cfg, db, w, None).value)
  {
    assert LogOk(cfg, db, w);
    var snap := SnapshotFor(cfg, db, w, None);
    if snap.Some? { assert SnapOk(cfg, db, w, snap.value); }
    SplitLoadOk(cfg, db, w, snap);
  }

  /** After writing a batch: the result, and the cache entry unless the batch ends the workflow. */
  ghost predicate Wrote(cfg: Config, db: Db, c: Lru, w: Id, known: bool, a: After) {
    match a.outcome
    case Done(result, es) =>
      && Appended(cfg, db, a.db, w, es, result) && CacheOk(cfg, a.db, a.cache) && es != []
      && if !IsTerminal(cfg.wf, es[|es| - 1]) then Find(a.cache.entries, w) == Some(result)
         else if known then Find(a.cache.entries, w) == None else a.cache == c
    case _ => a.db == db && a.cache == c
  }

  lemma {:induction false} WriteAnswers(cfg: Config, db: Db, c: Lru, w: Id, base: Option<Stored>, es: seq<Event>, onConflict: Outcome)
    requires DbOk(cfg, db) && CacheOk(cfg, db, c) && es != [] && (base.Some? ==> BaseOk(cfg, db, w, base.value)) && !onConflict.Done?
    ensures Wrote(cfg, db, c, w, base.Some?, WriteBatch(cfg, db, c, w, base, es, onConflict))
  {
    var r := Commit(cfg, db, w, BaseVersion(base), StateOf(base), es);
    if r.Committed? {
      CommitAppends(cfg, db, w, base, es, r.db);
      CachesAfter(cfg, db, c, w, base, es, r.db);
    }
    ConcludeAnswers(cfg, db, c, w, base.Some?, es, r, ResultOf(cfg, base, es), onConflict);
  }

  lemma {:induction false} ConcludeAnswers(cfg: Config, db: Db, c: Lru, w: Id, known: bool, es: seq<Event>, r: CommitResult, result: Stored, onConflict: Outcome)
    requires CacheOk(cfg, db, c) && es != [] && !onConflict.Done?
    requires r.Committed? ==>
               && Appended(cfg, db, r.db, w, es, result) && CacheOk(cfg, r.db, c) && CacheOk(cfg, r.db, RemoveFrom(c, w))
               && (!IsTerminal(cfg.wf, es[|es| - 1]) ==> CacheOk(cfg, r.db, PutIn(c, w, result)))
    ensures Wrote(cfg, db, c, w, known, Concluded(r, result, IsTerminal(cfg.wf, es[|es| - 1]), db, c, w, known, es, onConflict))
  {
    FindGone(c.entries, w);
  }

  /** The same for a create. */
  lemma {:induction false} CreateAnswers(cfg: Config, db: Db, c: Lru, w: Id, cmd: Json)
    requires DbOk(cfg, db) && CacheOk(cfg, db, c)
    ensures Wrote(cfg, db, c, w, false, CreateCall(cfg, db, c, w, cmd))
  {
    var d := cfg.wf.decide(None, cmd);
    if d.Accepted? && d.events != [] {
      WriteAnswers(cfg, db, c, w, None, d.events, Refused(AlreadyExists));
    }
  }

  lemma {:induction false} GetKeepsCache(cfg: Config, db: Db, c: Lru, w: Id)
    requires CacheOk(cfg, db, c)
    ensures CacheOk(cfg, db, GetFrom(c, w).0)
    ensures GetFrom(c, w).1.Some? ==> CachedOk(cfg, db, w, GetFrom(c, w).1.value)
  {
    GetEntries(c, w);
  }

  /** The same for a command: an empty batch returns the state that was loaded, a fold of some prefix. */
  lemma {:induction false} CommandAnswers(cfg: Config, trust: bool, db: Db, c: Lru, w: Id, cmd: Json)
    requires DbOk(cfg, db) && CacheOk(cfg, db, c)
    ensures var a := Attempt(cfg, trust, db, c, w, cmd);
            if a.outcome.Done? && a.outcome.events != [] then Wrote(cfg, db, c, w, true, a)
            else a.db == db && CacheOk(cfg, db, a.cache) && (a.outcome.Done? ==> IsFold(cfg, db, w, a.outcome.result))
  {
    var c', cached := GetFrom(c, w).0, GetFrom(c, w).1;
    GetKeepsCache(cfg, db, c, w);
    var base := CurrentState(cfg, db, w, cached, trust);
    if base.Some? {
      if base != cached { LoadedIsBase(cfg, db, w); }
      DecideAnswers(cfg, db, c', w, cmd, base.value);
    }
  }

  lemma {:induction false} DecideAnswers(cfg: Config, db: Db, c: Lru, w: Id, cmd: Json, b: Stored)
    requires DbOk(cfg, db) && CacheOk(cfg, db, c) && BaseOk(cfg, db, w, b)
    ensures var a := DecideAndWrite(cfg, db, c, w, cmd, Some(b));
            if a.outcome.Done? && a.outcome.events != [] then Wrote(cfg, db, c, w, true, a)
            else a.db == db && a.cache == c && (a.outcome.Done? ==> a.outcome.result == b)
  {
    var d := cfg.wf.decide(Some(b.state), cmd);
    DecideCases(cfg, db, c, w, cmd, b);
    if d.Accepted? && d.events != [] {
      WriteAnswers(cfg, db, c, w, Some(b), d.events, Retry);
    }
  }

  /** A command refuses, has nothing to write, or writes its batch. */
  lemma {:induction false} DecideCases(cfg: Config, db: Db, c: Lru, w: Id, cmd: Json, b: Stored)
    ensures var a, d := DecideAndWrite(cfg, db, c, w, cmd, Some(b)), cfg.wf.decide(Some(b.state), cmd);
            if b.state.base.lifecycle == Active && d.Accepted? && d.events != [] then a == WriteBatch(cfg, db, c, w, Some(b), d.events, Retry)
            else a.db == db && a.cache == c && !a.outcome.Retry? && (a.outcome.Done? ==> a.outcome == Done(b, []))
  {
  }

  // ---------------------------------------------------------------------------------------------
  // The ledger
  // ---------------------------------------------------------------------------------------------

  /** `gone`: a final event has ended the workflow, and no snapshot hides that. */
  datatype Account = Account(version: int, state: State, gone: bool)

  type Accounts = map<Id, Account>

  predicate Ends(cfg: Config, version: int, es: seq<Event>)
    requires es != []
  {
    IsTerminal(cfg.wf, es[|es| - 1]) && (cfg.interval <= 0 || version % cfg.interval != 0)
  }

  function Enter(cfg: Config, l: Accounts, w: Id, version: int, state: Option<State>, es: seq<Event>): (Accounts, Answer)
    requires es != []
  {
    if !KeepsHorizons(w, es) then (l, No(NoSubscriptionRow))
    else
      var v, s := version + |es|, EvolveAll(cfg.wf, state, es).value;
      (l[w := Account(v, s, Ends(cfg, v, es))], Yes(es, Some(s), v))
  }

  predicate Alive(l: Accounts, w: Id) { w in l && !l[w].gone }

  /** What the client is told, and the account afterwards. */
  function LedgerCall(cfg: Config, l: Accounts, op: Op): (Accounts, Answer)
    requires Decides(op)
  {
    match op
    case Create(w, cmd) =>
      (match cfg.wf.decide(None, cmd)
       case Rejected(msg) => (l, No(ByDecide(msg)))
       case Accepted(es) =>
         if es == [] then (l, No(NoEvents)) else if w in l then (l, No(AlreadyExists)) else Enter(cfg, l, w, 0, None, es))
    case Command(w, cmd) =>
      if !Alive(l, w) then (l, No(NotFound))
      else if l[w].state.base.lifecycle == Paused then (l, No(WorkflowPaused))
      else if l[w].state.base.lifecycle == Cancelled then (l, No(WorkflowCancelled))
      else (match cfg.wf.decide(Some(l[w].state), cmd)
        case Rejected(msg) => (l, No(ByDecide(msg)))
        case Accepted(es) =>
          if es == [] then (l, Yes([], Some(l[w].state), l[w].version))
          else Enter(cfg, l, w, l[w].version, Some(l[w].state), es))
    case Pause(w, reason) =>
      if !Alive(l, w) then (l, No(NotFound))
      else if l[w].state.base.lifecycle == Paused then (l, No(AlreadyPaused))
      else if l[w].state.base.lifecycle == Cancelled then (l, No(WorkflowCancelled))
      else Enter(cfg, l, w, l[w].version, Some(l[w].state), [SystemPause(reason)])
    case Resume(w) =>
      if !Alive(l, w) then (l, No(NotFound))
      else if l[w].state.base.lifecycle != Paused then (l, No(NotPaused))
      else Enter(cfg, l, w, l[w].version, Some(l[w].state), [SystemResume])
    case Cancel(w, reason) =>
      if !Alive(l, w) then (l, No(NotFound))
      else if l[w].state.base.lifecycle == Cancelled then (l, No(AlreadyCancelled))
      else Enter(cfg, l, w, l[w].version, Some(l[w].state), [SystemCancel(reason)])
    case _ => (l, No(NotFound))
  }

  /** The same calls on the repository: database and cache. */
  ghost function ShopCall(cfg: Config, trust: bool, n: nat, s: Shop, op: Op): (Shop, Answer)
    requires Decides(op)
  {
    var a := match op
      case Create(w, cmd) => CreateCall(cfg, s.db, s.cache, w, cmd)
      case Command(w, cmd) => Attempts(cfg, trust, s.db, s.cache, w, cmd, n)
      case _ => LifecycleCall(cfg, s.db, s.cache, op);
    (Shop(a.db, a.cache), AnswerOf(a.outcome))
  }

  predicate AllDecide(ops: seq<Op>) { forall i :: 0 <= i < |ops| ==> Decides(ops[i]) }

  ghost function ShopRun(cfg: Config, trust: bool, n: nat, s: Shop, ops: seq<Op>): (Shop, seq<Answer>)
    requires AllDecide(ops)
  {
    if ops == [] then (s, [])
    else
      var (s', rs) := ShopRun(cfg, trust, n, s, ops[..|ops| - 1]);
      var (s'', a) := ShopCall(cfg, trust, n, s', ops[|ops| - 1]);
      (s'', rs + [a])
  }

  function LedgerRun(cfg: Config, l: Accounts, ops: seq<Op>): (Accounts, seq<Answer>)
    requires AllDecide(ops)
  {
    if ops == [] then (l, [])
    else
      var (l', rs) := LedgerRun(cfg, l, ops[..|ops| - 1]);
      var (l'', a) := LedgerCall(cfg, l', ops[|ops| - 1]);
      (l'', rs + [a])
  }

  // ---------------------------------------------------------------------------------------------
  // The repository keeps the ledger
  // ---------------------------------------------------------------------------------------------

  function Held(l: Accounts, w: Id): Option<Stored> {
    if Alive(l, w) then Some(Stored(l[w].version, l[w].state)) else None
  }

  ghost predicate AccountOk(cfg: Config, db: Db, l: Accounts, w: Id) {
    (w in l <==> Head(db, w) > 0) && Load(cfg, db, w, None) == Held(l, w)
  }

  ghost predicate CacheHolds(c: Lru, l: Accounts) {
    DistinctKeys(c.entries) && forall e :: e in c.entries ==> Held(l, e.key) == Some(e.value)
  }

  ghost predicate Kept(cfg: Config, s: Shop, l: Accounts) {
    DbOk(cfg, s.db) && CacheHolds(s.cache, l) && forall w :: AccountOk(cfg, s.db, l, w)
  }

  /** What a load returns once a batch is committed. */
  lemma {:induction false} LoadAfterCommit(cfg: Config, db: Db, w: Id, state: Option<State>, es: seq<Event>, db': Db)
    requires DbOk(cfg, db) && es != [] && state == FoldTo(cfg, db, w, Head(db, w))
    requires Commit(cfg, db, w, Head(db, w), state, es) == Committed(db')
    ensures var v := Head(db, w) + |es|;
            Load(cfg, db', w, None) == if Ends(cfg, v, es) then None else Some(Stored(v, EvolveAll(cfg.wf, state, es).value))
  {
    CommitAtHead(cfg, db, w, state, es, db');
    LastRow(cfg, db, w, Head(db, w), state, es, db');
    assert LogOk(cfg, db, w) && LogOk(cfg, db', w);
    LoadFromIsFold(cfg, db', w, SnapshotFor(cfg, db', w, None), None);
  }

  lemma {:induction false} LoadElsewhere(cfg: Config, db: Db, db': Db, w: Id)
    requires LogOk(cfg, db, w) && SameWorkflow(db, db', w)
    ensures Load(cfg, db', w, None) == Load(cfg, db, w, None) && Head(db', w) == Head(db, w)
  {
    FrameLog(cfg, db, db', w);
    var snap := SnapshotFor(cfg, db, w, None);
    var lo := if snap.Some? then snap.value.version else 0;
    var es := SelectEvents(db.events, w, lo, Head(db, w));
    SelectSame(db.events, db'.events, w, lo, Head(db, w));
    LoadSuffix(cfg, db.events, w, snap, None, es);
    LoadSuffix(cfg, db'.events, w, snap, None, es);
  }

  lemma {:induction false} OtherAccounts(cfg: Config, db: Db, l: Accounts, w: Id, l': Accounts, db': Db)
    requires DbOk(cfg, db) && (forall u :: AccountOk(cfg, db, l, u)) && forall u :: u != w ==> SameWorkflow(db, db', u)
    requires w in l' && l' == l[w := l'[w]]
    ensures forall u :: u != w ==> AccountOk(cfg, db', l', u)
  {
    forall u | u != w ensures AccountOk(cfg, db', l', u) {
      assert AccountOk(cfg, db, l, u) && LogOk(cfg, db, u);
      LoadElsewhere(cfg, db, db', u);
    }
  }

  lemma {:induction false} OwnAccount(cfg: Config, db: Db, l: Accounts, w: Id, state: Option<State>, es: seq<Event>, db': Db)
    requires DbOk(cfg, db) && es != [] && state == FoldTo(cfg, db, w, Head(db, w))
    requires Commit(cfg, db, w, Head(db, w), state, es) == Committed(db')
    ensures var v := Head(db, w) + |es|;
            AccountOk(cfg, db', l[w := Account(v, EvolveAll(cfg.wf, state, es).value, Ends(cfg, v, es))], w)
    ensures DbOk(cfg, db') && forall u :: u != w ==> SameWorkflow(db, db', u)
  {
    assert LogOk(cfg, db, w);
    CommitAtHead(cfg, db, w, state, es, db');
    LoadAfterCommit(cfg, db, w, state, es, db');
  }

  lemma {:induction false} AccountsAfter(cfg: Config, db: Db, l: Accounts, w: Id, state: Option<State>, es: seq<Event>, db': Db)
    requires DbOk(cfg, db) && (forall u :: AccountOk(cfg, db, l, u)) && es != [] && KeepsHorizons(w, es)
    requires state == FoldTo(cfg, db, w, Head(db, w)) && Commit(cfg, db, w, Head(db, w), state, es) == Committed(db')
    ensures DbOk(cfg, db') && forall u :: AccountOk(cfg, db', Enter(cfg, l, w, Head(db, w), state, es).0, u)
  {
    OwnAccount(cfg, db, l, w, state, es, db');
    var v := Head(db, w) + |es|;
    OtherAccounts(cfg, db, l, w, l[w := Account(v, EvolveAll(cfg.wf, state, es).value, Ends(cfg, v, es))], db');
  }

  /** At the head a batch is refused for a dropped horizon or committed. */
  lemma {:induction false} CommitsAtHead(cfg: Config, db: Db, w: Id, state: Option<State>, es: seq<Event>)
    requires DbOk(cfg, db) && es != []
    ensures var r := Commit(cfg, db, w, Head(db, w), state, es);
            if KeepsHorizons(w, es) then r.Committed? else r == Failed
  {
    assert LogOk(cfg, db, w);
    NoConflictAtHead(db.events, w, Head(db, w), Head(db, w), |es|);
    StampFailsIff(db.subs, w, es, db.nextGid);
  }

  lemma {:induction false} AliveIsHead(cfg: Config, db: Db, l: Accounts, w: Id)
    requires DbOk(cfg, db) && AccountOk(cfg, db, l, w) && Alive(l, w)
    ensures l[w].version == Head(db, w) >= 1 && Some(l[w].state) == FoldTo(cfg, db, w, Head(db, w)) && Key(w, 1) in db.events
  {
    assert LogOk(cfg, db, w);
    LoadAtHead(cfg, db, w);
  }

  /** The cache after w's account changed: the new state, or nothing of w. */
  lemma {:induction false} CacheFollows(c: Lru, l: Accounts, w: Id, a: Account)
    requires CacheHolds(c, l)
    ensures !a.gone ==> CacheHolds(PutIn(c, w, Stored(a.version, a.state)), l[w := a])
    ensures CacheHolds(RemoveFrom(c, w), l[w := a])
    ensures !Alive(l, w) ==> CacheHolds(c, l[w := a])
  {
    PutEntries(c, w, Stored(a.version, a.state));
    DropKeeps(c.entries, w);
  }

  /** The batch of a command or a create, written, cached and entered. */
  lemma {:induction false} WriteKept(cfg: Config, s: Shop, l: Accounts, w: Id, base: Option<Stored>, es: seq<Event>, onConflict: Outcome)
    requires Kept(cfg, s, l) && es != [] && BaseVersion(base) == Head(s.db, w) && StateOf(base) == FoldTo(cfg, s.db, w, Head(s.db, w))
    requires base.None? ==> w !in l
    ensures var a := WriteBatch(cfg, s.db, s.cache, w, base, es, onConflict);
            var (l', answer) := Enter(cfg, l, w, BaseVersion(base), StateOf(base), es);
            AnswerOf(a.outcome) == answer && Kept(cfg, Shop(a.db, a.cache), l')
  {
    CommitsAtHead(cfg, s.db, w, StateOf(base), es);
    var r := Commit(cfg, s.db, w, Head(s.db, w), StateOf(base), es);
    if KeepsHorizons(w, es) { AccountsAfter(cfg, s.db, l, w, StateOf(base), es, r.db); }
    ConcludeKept(cfg, s, l, w, base, es, r, onConflict);
  }

  lemma {:induction false} ConcludeKept(cfg: Config, s: Shop, l: Accounts, w: Id, base: Option<Stored>, es: seq<Event>, r: CommitResult, onConflict: Outcome)
    requires Kept(cfg, s, l) && es != [] && (base.None? ==> w !in l)
    requires if KeepsHorizons(w, es) then
               r.Committed? && DbOk(cfg, r.db)
               && forall u :: AccountOk(cfg, r.db, Enter(cfg, l, w, BaseVersion(base), StateOf(base), es).0, u)
             else r == Failed
    ensures var a := Concluded(r, ResultOf(cfg, base, es), IsTerminal(cfg.wf, es[|es| - 1]), s.db, s.cache, w, base.Some?, es, onConflict);
            var (l', answer) := Enter(cfg, l, w, BaseVersion(base), StateOf(base), es);
            AnswerOf(a.outcome) == answer && Kept(cfg, Shop(a.db, a.cache), l')
  {
    var v := BaseVersion(base) + |es|;
    CacheFollows(s.cache, l, w, Account(v, EvolveAll(cfg.wf, StateOf(base), es).value, Ends(cfg, v, es)));
  }

  /** The ledger's side of a lifecycle call. */
  lemma {:induction false} LedgerRefuses(cfg: Config, l: Accounts, op: Op)
    requires IsLifecycle(op)
    ensures LedgerCall(cfg, l, op) ==
            if !Alive(l, op.w) then (l, No(NotFound))
            else match LifecycleRefusal(op, l[op.w].state.base.lifecycle)
              case Some(r) => (l, No(r))
              case None => Enter(cfg, l, op.w, l[op.w].version, Some(l[op.w].state), [LifecycleEvent(op)])
  {
  }

  lemma {:induction false} LifecycleKept(cfg: Config, s: Shop, l: Accounts, op: Op)
    requires FrameworkNotFinal(cfg.wf) && Kept(cfg, s, l) && IsLifecycle(op)
    ensures var a := LifecycleCall(cfg, s.db, s.cache, op);
            var (l', answer) := LedgerCall(cfg, l, op);
            AnswerOf(a.outcome) == answer && Kept(cfg, Shop(a.db, a.cache), l')
  {
    assert AccountOk(cfg, s.db, l, op.w);
    LedgerRefuses(cfg, l, op);
    if Alive(l, op.w) {
      AliveIsHead(cfg, s.db, l, op.w);
      LifecycleFromKept(cfg, s, l, op, Held(l, op.w).value);
    }
  }

  lemma {:induction false} LifecycleFromKept(cfg: Config, s: Shop, l: Accounts, op: Op, b: Stored)
    requires FrameworkNotFinal(cfg.wf) && Kept(cfg, s, l) && IsLifecycle(op)
    requires b.version == Head(s.db, op.w) && Some(b.state) == FoldTo(cfg, s.db, op.w, Head(s.db, op.w))
    ensures var a := LifecycleFrom(cfg, s.db, s.cache, op, b);
            var (l', answer) := match LifecycleRefusal(op, b.state.base.lifecycle)
              case Some(r) => (l, No(r))
              case None => Enter(cfg, l, op.w, b.version, Some(b.state), [LifecycleEvent(op)]);
            AnswerOf(a.outcome) == answer && Kept(cfg, Shop(a.db, a.cache), l')
  {
    if LifecycleRefusal(op, b.state.base.lifecycle).None? {
      var es := [LifecycleEvent(op)];
      CommitsAtHead(cfg, s.db, op.w, Some(b.state), es);
      var r := Commit(cfg, s.db, op.w, Head(s.db, op.w), Some(b.state), es);
      AccountsAfter(cfg, s.db, l, op.w, Some(b.state), es, r.db);
      LifecycleDoneKept(cfg, s, l, op, b, r);
    }
  }

  lemma {:induction false} LifecycleDoneKept(cfg: Config, s: Shop, l: Accounts, op: Op, b: Stored, r: CommitResult)
    requires FrameworkNotFinal(cfg.wf) && Kept(cfg, s, l) && IsLifecycle(op) && r.Committed? && DbOk(cfg, r.db)
    requires forall u :: AccountOk(cfg, r.db, Enter(cfg, l, op.w, b.version, Some(b.state), [LifecycleEvent(op)]).0, u)
    ensures var es := [LifecycleEvent(op)];
            var a := LifecycleDone(r, ResultOf(cfg, Some(b), es), s.db, s.cache, op, es);
            var (l', answer) := Enter(cfg, l, op.w, b.version, Some(b.state), es);
            AnswerOf(a.outcome) == answer && Kept(cfg, Shop(a.db, a.cache), l')
  {
    var es := [LifecycleEvent(op)];
    var v := b.version + 1;
    assert KeepsHorizons(op.w, es) && !Ends(cfg, v, es);
    CacheFollows(s.cache, l, op.w, Account(v, EvolveAll(cfg.wf, Some(b.state), es).value, false));
  }

  lemma {:induction false} CreateKept(cfg: Config, s: Shop, l: Accounts, op: Op)
    requires Kept(cfg, s, l) && op.Create?
    ensures var a := CreateCall(cfg, s.db, s.cache, op.w, op.cmd);
            var (l', answer) := LedgerCall(cfg, l, op);
            AnswerOf(a.outcome) == answer && Kept(cfg, Shop(a.db, a.cache), l')
  {
    assert AccountOk(cfg, s.db, l, op.w) && LogOk(cfg, s.db, op.w);
    var d := cfg.wf.decide(None, op.cmd);
    if d.Accepted? && d.events != [] {
      NoConflictAtHead(s.db.events, op.w, Head(s.db, op.w), 0, |d.events|);
      if op.w !in l { WriteKept(cfg, s, l, op.w, None, d.events, Refused(AlreadyExists)); }
    }
  }

  lemma {:induction false} CommandKept(cfg: Config, trust: bool, s: Shop, l: Accounts, op: Op)
    requires Kept(cfg, s, l) && op.Command?
    ensures var a := Attempt(cfg, trust, s.db, s.cache, op.w, op.cmd);
            var (l', answer) := LedgerCall(cfg, l, op);
            !a.outcome.Retry? && AnswerOf(a.outcome) == answer && Kept(cfg, Shop(a.db, a.cache), l')
  {
    var w := op.w;
    assert AccountOk(cfg, s.db, l, w) && LogOk(cfg, s.db, w);
    var c, hit := GetFrom(s.cache, w).0, GetFrom(s.cache, w).1;
    GetEntries(s.cache, w);
    assert hit.Some? ==> Entry(w, hit.value) in s.cache.entries;
    if Alive(l, w) {
      AliveIsHead(cfg, s.db, l, w);
      assert CurrentState(cfg, s.db, w, hit, trust) == Held(l, w);
      DecideKept(cfg, Shop(s.db, c), l, op, Held(l, w).value);
    } else {
      assert hit.None? && CurrentState(cfg, s.db, w, hit, trust) == None;
    }
  }

  lemma {:induction false} DecideKept(cfg: Config, s: Shop, l: Accounts, op: Op, b: Stored)
    requires Kept(cfg, s, l) && op.Command? && Held(l, op.w) == Some(b)
    requires b.version == Head(s.db, op.w) && Some(b.state) == FoldTo(cfg, s.db, op.w, Head(s.db, op.w))
    ensures var a := DecideAndWrite(cfg, s.db, s.cache, op.w, op.cmd, Some(b));
            var (l', answer) := LedgerCall(cfg, l, op);
            !a.outcome.Retry? && AnswerOf(a.outcome) == answer && Kept(cfg, Shop(a.db, a.cache), l')
  {
    var d := cfg.wf.decide(Some(b.state), op.cmd);
    if d.Accepted? && d.events != [] {
      CommitsAtHead(cfg, s.db, op.w, Some(b.state), d.events);
      WriteKept(cfg, s, l, op.w, Some(b), d.events, Retry);
    }
  }

  lemma {:induction false} CallKept(cfg: Config, trust: bool, n: nat, s: Shop, l: Accounts, op: Op)
    requires FrameworkNotFinal(cfg.wf) && Kept(cfg, s, l) && Decides(op) && n > 0
    ensures var (s', a) := ShopCall(cfg, trust, n, s, op);
            var (l', b) := LedgerCall(cfg, l, op);
            a == b && Kept(cfg, s', l')
  {
    if op.Create? {
      CreateKept(cfg, s, l, op);
    } else if op.Command? {
      CommandKept(cfg, trust, s, l, op);
      AttemptsStep(cfg, trust, s.db, s.cache, op.w, op.cmd, n);
    } else {
      LifecycleKept(cfg, s, l, op);
    }
  }

  lemma {:induction false} RunKept(cfg: Config, trust: bool, n: nat, s: Shop, l: Accounts, ops: seq<Op>)
    requires FrameworkNotFinal(cfg.wf) && Kept(cfg, s, l) && AllDecide(ops) && n > 0
    ensures var (s', as') := ShopRun(cfg, trust, n, s, ops);
            var (l', bs') := LedgerRun(cfg, l, ops);
            as' == bs' && Kept(cfg, s', l')
    decreases |ops|
  {
    if ops != [] {
      var front, op := ops[..|ops| - 1], ops[|ops| - 1];
      RunKept(cfg, trust, n, s, l, front);
      CallKept(cfg, trust, n, ShopRun(cfg, trust, n, s, front).0, LedgerRun(cfg, l, front).0, op);
    }
  }

  /**
   One repository alone: to every sequence of creates, commands, pauses, resumes and cancels, with final events,
   empty batches and dropped horizons, for any snapshot interval, any cache size, cache trusted or checked, it
   answers exactly what the ledger says, and a cold load returns exactly what the ledger holds.
   */
  lemma {:induction false} RepositoryKeepsLedger(cfg: Config, trust: bool, n: nat, maxSize: int, ops: seq<Op>)
    requires FrameworkNotFinal(cfg.wf) && AllDecide(ops) && n > 0
    ensures var (s, answers) := ShopRun(cfg, trust, n, Shop(EmptyDb, NewLru(maxSize)), ops);
            var (l, expected) := LedgerRun(cfg, map[], ops);
            answers == expected && Kept(cfg, s, l)
  {
    EmptyDbOk(cfg);
    forall w ensures AccountOk(cfg, EmptyDb, map[], w) {
      assert LogOk(cfg, EmptyDb, w);
      LoadFromIsFold(cfg, EmptyDb, w, None, None);
    }
    RunKept(cfg, trust, n, Shop(EmptyDb, NewLru(maxSize)), map[], ops);
  }

  // ---------------------------------------------------------------------------------------------
  // What a client sees of the lifecycle
  // ---------------------------------------------------------------------------------------------

  ghost predicate AllConcrete(l: Accounts) { forall w :: w in l ==> l[w].state.evolver }

  lemma {:induction false} EnterConcrete(cfg: Config, l: Accounts, w: Id, version: int, state: Option<State>, es: seq<Event>)
    requires KeepsBase(cfg.wf) && AllConcrete(l) && es != [] && StartsWell(state, es)
    ensures AllConcrete(Enter(cfg, l, w, version, state, es).0)
  {
    BatchStaysConcrete(cfg.wf, state, es);
  }

  lemma {:induction false} CallConcrete(cfg: Config, l: Accounts, op: Op)
    requires KeepsBase(cfg.wf) && BornByUser(cfg.wf) && AllConcrete(l) && Decides(op)
    ensures AllConcrete(LedgerCall(cfg, l, op).0)
  {
    if op.Create? {
      var d := cfg.wf.decide(None, op.cmd);
      if d.Accepted? && d.events != [] { EnterConcrete(cfg, l, op.w, 0, None, d.events); }
    } else if Alive(l, op.w) {
      var a := l[op.w];
      if op.Command? {
        var d := cfg.wf.decide(Some(a.state), op.cmd);
        if d.Accepted? && d.events != [] { EnterConcrete(cfg, l, op.w, a.version, Some(a.state), d.events); }
      } else {
        EnterConcrete(cfg, l, op.w, a.version, Some(a.state), [LifecycleEvent(op)]);
      }
    }
  }

  lemma {:induction false} LedgerConcrete(cfg: Config, ops: seq<Op>)
    requires KeepsBase(cfg.wf) && BornByUser(cfg.wf) && AllDecide(ops)
    ensures AllConcrete(LedgerRun(cfg, map[], ops).0)
    decreases |ops|
  {
    if ops != [] {
      LedgerConcrete(cfg, ops[..|ops| - 1]);
      CallConcrete(cfg, LedgerRun(cfg, map[], ops[..|ops| - 1]).0, ops[|ops| - 1]);
    }
  }

  function After(op: Op): Lifecycle
    requires IsLifecycle(op)
  {
    if op.Pause? then Paused else if op.Resume? then Active else Cancelled
  }

  /** The account after an accepted lifecycle call: the old state with the new lifecycle, a cancel without schedules. */
  lemma {:induction false} LedgerLifecycle(cfg: Config, l: Accounts, op: Op)
    requires FrameworkNotFinal(cfg.wf) && IsLifecycle(op) && AllConcrete(l) && LedgerCall(cfg, l, op).1.Yes?
    ensures var (l', a) := LedgerCall(cfg, l, op);
            && Alive(l, op.w) && Alive(l', op.w)
            && a.state == Some(l'[op.w].state) && a.version == l'[op.w].version == l[op.w].version + 1
            && l'[op.w].state.base.lifecycle == After(op) && l'[op.w].state.user == l[op.w].state.user
            && l'[op.w].state.base.subscriptions == l[op.w].state.base.subscriptions
  {
    var es := [LifecycleEvent(op)];
    assert es[..0] == [];
    assert EvolveAll(cfg.wf, Some(l[op.w].state), es) == Some(Evolve(cfg.wf, Some(l[op.w].state), es[0]));
  }

  /** What the ledger tells a command after an accepted lifecycle call. */
  lemma {:induction false} LedgerNext(cfg: Config, l: Accounts, op: Op, cmd: Json)
    requires IsLifecycle(op) && Alive(l, op.w) && l[op.w].state.base.lifecycle == After(op)
    ensures var next := LedgerCall(cfg, l, Command(op.w, cmd)).1;
            && (op.Pause? ==> next == No(WorkflowPaused)) && (op.Cancel? ==> next == No(WorkflowCancelled))
            && (op.Resume? ==> next !in [No(NotFound), No(WorkflowPaused), No(WorkflowCancelled)])
  {
  }

  /**
   After any calls, an accepted pause makes the next command answer that the workflow is paused, an accepted
   cancel that it is cancelled, and after an accepted resume it is decided again.
   */
  lemma {:induction false} NextCommandKnows(cfg: Config, trust: bool, n: nat, maxSize: int, ops: seq<Op>, op: Op, cmd: Json)
    requires FrameworkNotFinal(cfg.wf) && KeepsBase(cfg.wf) && BornByUser(cfg.wf) && AllDecide(ops) && n > 0 && IsLifecycle(op)
    ensures var (s, a) := ShopCall(cfg, trust, n, ShopRun(cfg, trust, n, Shop(EmptyDb, NewLru(maxSize)), ops).0, op);
            var next := ShopCall(cfg, trust, n, s, Command(op.w, cmd)).1;
            a.Yes? ==>
              && a.state.Some? && a.state.value.base.lifecycle == After(op)
              && (op.Pause? ==> next == No(WorkflowPaused)) && (op.Cancel? ==> next == No(WorkflowCancelled))
              && (op.Resume? ==> next !in [No(NotFound), No(WorkflowPaused), No(WorkflowCancelled)])
  {
    RepositoryKeepsLedger(cfg, trust, n, maxSize, ops);
    LedgerConcrete(cfg, ops);
    NextKnows(cfg, trust, n, ShopRun(cfg, trust, n, Shop(EmptyDb, NewLru(maxSize)), ops).0, LedgerRun(cfg, map[], ops).0, op, cmd);
  }

  lemma {:induction false} NextKnows(cfg: Config, trust: bool, n: nat, s: Shop, l: Accounts, op: Op, cmd: Json)
    requires FrameworkNotFinal(cfg.wf) && Kept(cfg, s, l) && AllConcrete(l) && n > 0 && IsLifecycle(op)
    ensures var (s', a) := ShopCall(cfg, trust, n, s, op);
            var next := ShopCall(cfg, trust, n, s', Command(op.w, cmd)).1;
            a.Yes? ==>
              && a.state.Some? && a.state.value.base.lifecycle == After(op)
              && (op.Pause? ==> next == No(WorkflowPaused)) && (op.Cancel? ==> next == No(WorkflowCancelled))
              && (op.Resume? ==> next !in [No(NotFound), No(WorkflowPaused), No(WorkflowCancelled)])
  {
    CallKept(cfg, trust, n, s, l, op);
    var (l', a) := LedgerCall(cfg, l, op);
    if a.Yes? {
      LedgerLifecycle(cfg, l, op);
      CallKept(cfg, trust, n, ShopCall(cfg, trust, n, s, op).0, l', Command(op.w, cmd));
      LedgerNext(cfg, l', op, cmd);
    }
  }
}
