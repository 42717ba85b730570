/**
 Repartitioning (pkg/scaling/scaling.go, pkg/partitioning/partitioning.go): the offsets of n readers are
 turned into starting points for m readers with new names, while the old workers go on advancing.
 */
module Scaling {
  import opened Decimals
  import opened Wrappers
  import opened OffsetsTable

  type Id = string

  // ---------------------------------------------------------------------------------------------
  // Ownership
  // ---------------------------------------------------------------------------------------------

  const MaxUint64: nat := 0xFFFF_FFFF_FFFF_FFFF

  /** ParseUint of the MD5 digest's 32 hex digits: a value out of range gives the largest uint64. */
  function ParsedHash(digest: nat): nat { if digest > MaxUint64 then MaxUint64 else digest }

  function PartitionIndex(digest: nat, total: int): int {
    if total <= 0 then 0 else ParsedHash(digest) % total
  }

  predicate IsMine(digest: nat, i: int, total: int) { PartitionIndex(digest, total) == i }

  /** Every workflow has exactly one owner in range. */
  lemma {:induction false} UniqueOwner(digest: nat, total: int, i: int)
    requires total > 0
    ensures 0 <= PartitionIndex(digest, total) < total
    ensures IsMine(digest, i, total) <==> i == PartitionIndex(digest, total)
  {
  }

  /** Digests that do not fit 64 bits, so all but one in 2^64, share one partition. */
  lemma {:induction false} LargeDigestsShareAPartition(a: nat, b: nat, total: int)
    requires a > MaxUint64 && b > MaxUint64
    ensures PartitionIndex(a, total) == PartitionIndex(b, total)
  {
  }

  function Prefix(workflowType: string): string { workflowType + "_runner_partition_" }

  function ReaderName(workflowType: string, i: nat, n: nat): Reader {
    Prefix(workflowType) + Decimal(i) + "_of_" + Decimal(n)
  }

  lemma {:induction false} SplitAtUnderscore(a: string, s: string, b: string, t: string)
    requires a + "_of_" + s == b + "_of_" + t
    requires (forall c :: c in a ==> IsDigit(c)) && (forall c :: c in b ==> IsDigit(c))
    ensures a == b && s == t
  {
    var x, y := a + "_of_" + s, b + "_of_" + t;
    assert x[|a|] == '_' && y[|b|] == '_';
    assert forall i :: 0 <= i < |a| ==> x[i] == a[i] && a[i] in a;
    assert forall i :: 0 <= i < |b| ==> y[i] == b[i] && b[i] in b;
    assert a == x[..|a|] && b == y[..|b|] && s == x[|a| + 4..] && t == y[|b| + 4..];
  }

  /** Readers of one workflow type have the same name only if index and total agree. */
  lemma {:induction false} NameInjective(workflowType: string, i: nat, n: nat, j: nat, m: nat)
    requires ReaderName(workflowType, i, n) == ReaderName(workflowType, j, m)
    ensures i == j && n == m
  {
    var p := Prefix(workflowType);
    var x, y := Decimal(i) + "_of_" + Decimal(n), Decimal(j) + "_of_" + Decimal(m);
    assert ReaderName(workflowType, i, n) == p + x && ReaderName(workflowType, j, m) == p + y;
    assert x == (p + x)[|p|..] && y == (p + y)[|p|..];
    SplitAtUnderscore(Decimal(i), Decimal(n), Decimal(j), Decimal(m));
    DecimalInjective(i, j);
    DecimalInjective(n, m);
  }

  // ---------------------------------------------------------------------------------------------
  // The statements, as functions of the table
  // ---------------------------------------------------------------------------------------------

  type Rows = map<Reader, int>

  /** The readers of one generation. */
  function Names(workflowType: string, n: nat): set<Reader> { set i | 0 <= i < n :: ReaderName(workflowType, i, n) }

  /** WHERE reader LIKE 'prefix%'. */
  function Existing(rows: Rows, workflowType: string): set<Reader> {
    set r | r in rows && Prefix(workflowType) <= r
  }

  ghost predicate IsMaxOffset(rows: Rows, workflowType: string, m: int) {
    if Existing(rows, workflowType) == {} then m == 0
    else (exists r :: r in Existing(rows, workflowType) && rows[r] == m)
         && forall r :: r in Existing(rows, workflowType) ==> rows[r] <= m
  }

  /** checkAllWorkersSynced; `all` also asks that every reader has a row. */
  predicate Synced(rows: Rows, workflowType: string, n: nat, target: int, all: bool) {
    forall i :: 0 <= i < n ==>
      var r := ReaderName(workflowType, i, n);
      if r in rows then rows[r] >= target else !all
  }

  /** UPDATE ... WHERE last_read_event_no < target, then INSERT ... ON CONFLICT DO NOTHING. */
  function InitOne(rows: Rows, r: Reader, target: int): Rows {
    if r in rows && rows[r] >= target then rows else rows[r := target]
  }

  function InitAll(rows: Rows, workflowType: string, n: nat, k: nat, target: int): Rows
    decreases k
  {
    if k == 0 then rows else InitOne(InitAll(rows, workflowType, n, k - 1, target), ReaderName(workflowType, k - 1, n), target)
  }

  /** r is one of the first k readers of the generation. */
  ghost predicate Listed(workflowType: string, n: nat, k: nat, r: Reader) {
    exists i :: 0 <= i < k && r == ReaderName(workflowType, i, n)
  }

  lemma {:induction false} ListedSnoc(workflowType: string, n: nat, k: nat, r: Reader)
    requires k > 0
    ensures Listed(workflowType, n, k, r) <==> Listed(workflowType, n, k - 1, r) || r == ReaderName(workflowType, k - 1, n)
  {
    if r == ReaderName(workflowType, k - 1, n) {
      assert Listed(workflowType, n, k, r);
    }
  }

  /** Every listed reader is at max(old, target), a new one at the target; the rest is untouched. */
  lemma {:induction false} InitIsMax(rows: Rows, workflowType: string, n: nat, k: nat, target: int, r: Reader)
    requires k <= n
    ensures var after := InitAll(rows, workflowType, n, k, target);
            if Listed(workflowType, n, k, r) then
              r in after && after[r] == if r in rows && rows[r] > target then rows[r] else target
            else (r in after <==> r in rows) && (r in rows ==> after[r] == rows[r])
    decreases k
  {
    if k > 0 {
      InitIsMax(rows, workflowType, n, k - 1, target, r);
      ListedSnoc(workflowType, n, k, r);
    }
  }

  // ---------------------------------------------------------------------------------------------
  // The machine
  // ---------------------------------------------------------------------------------------------

  datatype Phase =
    | Idle
    | Waiting(up: bool, m: nat, count: nat, target: int)
    | Initializing(m: nat, target: int, k: nat)
    | Complete(m: nat, target: int)

  datatype World = World(rows: Rows, phase: Phase)

  datatype Step = Advance(r: Reader, offset: int) | Plan(up: bool, m: nat, target: int) | Poll | InitNext | Finish

  /** The readers that the operation creates are not started before it is complete. */
  ghost function Take(workflowType: string, s: World, step: Step): Option<World> {
    match step
    case Advance(r, offset) =>
      if r !in s.rows || offset < s.rows[r] || (s.phase.Initializing? && r in Names(workflowType, s.phase.m)) then None
      else Some(s.(rows := s.rows[r := offset]))
    case Plan(up, m, target) =>
      var readers := Existing(s.rows, workflowType);
      if !s.phase.Idle? || !IsMaxOffset(s.rows, workflowType, target) || (!up && readers == {}) then None
      else Some(s.(phase := Waiting(up, m, |readers|, target)))
    case Poll =>
      if !s.phase.Waiting? || !Synced(s.rows, workflowType, s.phase.count, s.phase.target, !s.phase.up) then None
      else Some(s.(phase := Initializing(s.phase.m, s.phase.target, 0)))
    case InitNext =>
      if !s.phase.Initializing? || s.phase.k >= s.phase.m then None
      else Some(World(InitOne(s.rows, ReaderName(workflowType, s.phase.k, s.phase.m), s.phase.target),
                      s.phase.(k := s.phase.k + 1)))
    case Finish =>
      if !s.phase.Initializing? || s.phase.k != s.phase.m then None
      else Some(s.(phase := Complete(s.phase.m, s.phase.target)))
  }

  /** A run of one operation, which ends when the operation is complete. */
  ghost function Run(workflowType: string, s: World, steps: seq<Step>): Option<World>
    decreases |steps|
  {
    if steps == [] then Some(s)
    else if s.phase.Complete? then None
    else match Take(workflowType, s, steps[0])
      case None => None
      case Some(r) => Run(workflowType, r, steps[1..])
  }

  // ---------------------------------------------------------------------------------------------
  // The invariant
  // ---------------------------------------------------------------------------------------------

  /** The table holds one complete generation of n readers and nothing of the generation m. */
  ghost predicate OneGeneration(rows: Rows, workflowType: string, n: nat, m: nat) {
    n > 0 && n != m && Existing(rows, workflowType) == Names(workflowType, n)
  }

  ghost predicate AllAt(rows: Rows, workflowType: string, n: nat, target: int) {
    forall i :: 0 <= i < n ==> ReaderName(workflowType, i, n) in rows && rows[ReaderName(workflowType, i, n)] >= target
  }

  ghost predicate Started(rows: Rows, workflowType: string, m: nat, k: nat, target: int) {
    forall j :: 0 <= j < k ==> ReaderName(workflowType, j, m) in rows && rows[ReaderName(workflowType, j, m)] == target
  }

  ghost predicate NotStarted(rows: Rows, workflowType: string, m: nat, k: nat) {
    forall j :: k <= j < m ==> ReaderName(workflowType, j, m) !in rows
  }

  ghost predicate Inv(workflowType: string, n: nat, m: nat, s: World) {
    match s.phase
    case Idle => OneGeneration(s.rows, workflowType, n, m)
    case Waiting(up, m', count, target) =>
      m' == m ==> count == n && OneGeneration(s.rows, workflowType, n, m)
    case Initializing(m', target, k) =>
      m' == m ==> k <= m && AllAt(s.rows, workflowType, n, target) && n != m
                  && Started(s.rows, workflowType, m, k, target) && NotStarted(s.rows, workflowType, m, k)
    case Complete(m', target) =>
      m' == m ==> AllAt(s.rows, workflowType, n, target) && Started(s.rows, workflowType, m, m, target)
  }

  lemma {:induction false} NameHasPrefix(workflowType: string, i: nat, n: nat)
    ensures Prefix(workflowType) <= ReaderName(workflowType, i, n)
  {
  }

  lemma {:induction false} NamesSnoc(workflowType: string, n: nat, k: nat)
    requires k > 0
    ensures (set i | 0 <= i < k :: ReaderName(workflowType, i, n)) ==
            (set i | 0 <= i < k - 1 :: ReaderName(workflowType, i, n)) + {ReaderName(workflowType, k - 1, n)}
  {
  }

  lemma {:induction false} CountNames(workflowType: string, n: nat, k: nat)
    requires k <= n
    ensures var names := set i | 0 <= i < k :: ReaderName(workflowType, i, n); |names| == k
    decreases k
  {
    if k > 0 {
      CountNames(workflowType, n, k - 1);
      var front := set i | 0 <= i < k - 1 :: ReaderName(workflowType, i, n);
      var last := ReaderName(workflowType, k - 1, n);
      if last in front {
        var i :| 0 <= i < k - 1 && ReaderName(workflowType, i, n) == last;
        NameInjective(workflowType, i, n, k - 1, n);
      }
      NamesSnoc(workflowType, n, k);
    }
  }

  /** No reader of the new generation has a row. */
  lemma {:induction false} FreshNames(rows: Rows, workflowType: string, n: nat, m: nat)
    requires OneGeneration(rows, workflowType, n, m)
    ensures NotStarted(rows, workflowType, m, 0)
    ensures forall i :: 0 <= i < n ==> ReaderName(workflowType, i, n) in rows
  {
    forall j | 0 <= j < m ensures ReaderName(workflowType, j, m) !in rows {
      var r := ReaderName(workflowType, j, m);
      NameHasPrefix(workflowType, j, m);
      if r in rows {
        assert r in Existing(rows, workflowType);
        var i :| 0 <= i < n && r == ReaderName(workflowType, i, n);
        NameInjective(workflowType, i, n, j, m);
      }
    }
    forall i | 0 <= i < n ensures ReaderName(workflowType, i, n) in rows {
      assert ReaderName(workflowType, i, n) in Names(workflowType, n);
    }
  }

  lemma {:induction false} AdvanceKeepsInv(workflowType: string, n: nat, m: nat, s: World, r: Reader, offset: int, s': World)
    requires Inv(workflowType, n, m, s) && !s.phase.Complete? && Take(workflowType, s, Advance(r, offset)) == Some(s')
    ensures Inv(workflowType, n, m, s')
  {
    assert Existing(s'.rows, workflowType) == Existing(s.rows, workflowType);
    if s.phase.Initializing? && s.phase.m == m {
      forall j | 0 <= j < m ensures r != ReaderName(workflowType, j, m) {
        assert ReaderName(workflowType, j, m) in Names(workflowType, m);
      }
    }
  }

  lemma {:induction false} InitKeepsInv(workflowType: string, n: nat, m: nat, s: World, s': World)
    requires Inv(workflowType, n, m, s) && Take(workflowType, s, InitNext) == Some(s')
    ensures Inv(workflowType, n, m, s')
  {
    if s.phase.m == m {
      var k := s.phase.k;
      var r := ReaderName(workflowType, k, m);
      forall j | 0 <= j < m && j != k ensures ReaderName(workflowType, j, m) != r {
        if ReaderName(workflowType, j, m) == r { NameInjective(workflowType, j, m, k, m); }
      }
      forall i | 0 <= i < n ensures ReaderName(workflowType, i, n) != r {
        if ReaderName(workflowType, i, n) == r { NameInjective(workflowType, i, n, k, m); }
      }
    }
  }

  lemma {:induction false} StepKeepsInv(workflowType: string, n: nat, m: nat, s: World, step: Step, s': World)
    requires Inv(workflowType, n, m, s) && !s.phase.Complete? && Take(workflowType, s, step) == Some(s')
    ensures Inv(workflowType, n, m, s')
  {
    match step
    case Advance(r, offset) => AdvanceKeepsInv(workflowType, n, m, s, r, offset, s');
    case Plan(_, _, _) => CountNames(workflowType, n, n);
    case Poll =>
      if s.phase.m == m { FreshNames(s.rows, workflowType, n, m); }
    case InitNext => InitKeepsInv(workflowType, n, m, s, s');
    case Finish =>
  }

  lemma {:induction false} RunKeepsInv(workflowType: string, n: nat, m: nat, s: World, steps: seq<Step>, s': World)
    requires Inv(workflowType, n, m, s) && Run(workflowType, s, steps) == Some(s')
    ensures Inv(workflowType, n, m, s')
    decreases |steps|
  {
    if steps != [] {
      var r := Take(workflowType, s, steps[0]).value;
      StepKeepsInv(workflowType, n, m, s, steps[0], r);
      RunKeepsInv(workflowType, n, m, r, steps[1..], s');
    }
  }

  // ---------------------------------------------------------------------------------------------
  // Theorems
  // ---------------------------------------------------------------------------------------------

  /** `own(w, n)` is the reader that owns w among n. */
  ghost predicate Owns(own: (Id, nat) -> nat, n: nat) { forall w :: own(w, n) < n }

  /** An event of w is behind its old owner or still ahead of its new one. */
  predicate Kept(rows: Rows, workflowType: string, own: (Id, nat) -> nat, n: nat, m: nat, w: Id, gid: int) {
    var a, b := ReaderName(workflowType, own(w, n), n), ReaderName(workflowType, own(w, m), m);
    a in rows && b in rows && (gid <= rows[a] || gid > rows[b])
  }

  /**
   Scaling up or down from one complete generation loses no event, whatever the ownership functions are
   and however the old workers advanced meanwhile; what an old worker read past the target is read again.
   */
  lemma {:induction false} NothingLost(workflowType: string, n: nat, m: nat, rows: Rows, steps: seq<Step>, s: World,
                                       own: (Id, nat) -> nat, w: Id, gid: int)
    requires OneGeneration(rows, workflowType, n, m) && m > 0 && Owns(own, n) && Owns(own, m)
    requires Run(workflowType, World(rows, Idle), steps) == Some(s) && s.phase.Complete? && s.phase.m == m
    ensures Kept(s.rows, workflowType, own, n, m, w, gid)
    ensures var old', new' := ReaderName(workflowType, own(w, n), n), ReaderName(workflowType, own(w, m), m);
            && s.rows[new'] == s.phase.target <= s.rows[old']
            && (gid <= s.rows[old'] && gid > s.rows[new'] <==> s.phase.target < gid <= s.rows[old'])
  {
    RunKeepsInv(workflowType, n, m, World(rows, Idle), steps, s);
  }

  /** The wait is exactly what this needs: with every new reader at the target, nothing is lost iff no old one lags. */
  lemma {:induction false} LostIffLagging(workflowType: string, n: nat, m: nat, rows: Rows, target: int)
    requires n > 0 && m > 0 && Started(rows, workflowType, m, m, target)
    requires forall i :: 0 <= i < n ==> ReaderName(workflowType, i, n) in rows
    ensures (forall own: (Id, nat) -> nat, w, gid :: Owns(own, n) && Owns(own, m) ==> Kept(rows, workflowType, own, n, m, w, gid))
            <==> AllAt(rows, workflowType, n, target)
  {
    if !AllAt(rows, workflowType, n, target) {
      var i :| 0 <= i < n && rows[ReaderName(workflowType, i, n)] < target;
      var own: (Id, nat) -> nat := (w, k) => if k == n then i else 0;
      assert n == m ==> i < m;
      assert !Kept(rows, workflowType, own, n, m, "", target);
    }
  }

  /**
   A second scale-up over leftover readers does not wait: the rows of an earlier generation make the count
   wrong, so the wait looks for readers that do not exist and a lagging worker goes unnoticed.
   */
  lemma {:induction false} LeftoversAreNotAwaited(workflowType: string, rows: Rows, up: bool, n: nat, m: nat, s: World, target: int)
    requires Take(workflowType, World(rows, Idle), Plan(up, m, target)) == Some(s)
    requires Names(workflowType, n) <= rows.Keys && n < |Existing(rows, workflowType)|
    requires forall i, k :: ReaderName(workflowType, i, k) in rows ==> k != |Existing(rows, workflowType)|
    ensures Take(workflowType, s, Poll).Some? <==> up
  {
    var count := |Existing(rows, workflowType)|;
    assert ReaderName(workflowType, 0, count) !in rows;
  }

  // ---------------------------------------------------------------------------------------------
  // The operations
  // ---------------------------------------------------------------------------------------------

  datatype Status = Pending | Synchronizing | Failed

  datatype ScaleResult = Scaled | NoReaders | InProgress | TimedOut

  /** Workers report offsets; none goes back. */
  function Apply(rows: Rows, reports: Rows): Rows {
    map r | r in rows :: if r in reports && reports[r] > rows[r] then reports[r] else rows[r]
  }

  /** The table after the first t reports. */
  function AfterReports(rows: Rows, ticks: seq<Rows>, t: nat): Rows
    requires t <= |ticks|
  {
    if t == 0 then rows else Apply(AfterReports(rows, ticks, t - 1), ticks[t - 1])
  }

  /** The wait ends at tick t: the first report after which nobody lags. */
  predicate SyncsAt(rows: Rows, workflowType: string, n: nat, target: int, all: bool, ticks: seq<Rows>, t: nat)
    requires t <= |ticks|
  {
    && t > 0 && Synced(AfterReports(rows, ticks, t), workflowType, n, target, all)
    && forall j :: 0 < j < t ==> !Synced(AfterReports(rows, ticks, j), workflowType, n, target, all)
  }

  /** The old readers reach the target within the ticks. */
  ghost predicate WaitEnds(rows: Rows, workflowType: string, n: nat, target: int, all: bool, ticks: seq<Rows>) {
    exists t :: 0 <= t <= |ticks| && SyncsAt(rows, workflowType, n, target, all, ticks, t)
  }

  // ---------------------------------------------------------------------------------------------
  // The operations are runs of the machine
  // ---------------------------------------------------------------------------------------------

  lemma {:induction false} RunConcat(workflowType: string, s: World, a: seq<Step>, r: World, b: seq<Step>)
    requires Run(workflowType, s, a) == Some(r)
    ensures Run(workflowType, s, a + b) == Run(workflowType, r, b)
    decreases |a|
  {
    if a == [] {
      assert a + b == b;
    } else {
      assert (a + b)[1..] == a[1..] + b;
      RunConcat(workflowType, Take(workflowType, s, a[0]).value, a[1..], r, b);
    }
  }

  lemma {:induction false} RunOne(workflowType: string, s: World, step: Step)
    requires !s.phase.Complete?
    ensures Run(workflowType, s, [step]) == Take(workflowType, s, step)
  {
    assert [step][1..] == [];
  }

  /** The reports of the readers in `rs` alone. */
  function ApplyTo(rows: Rows, reports: Rows, rs: set<Reader>): Rows {
    map r | r in rows :: if r in rs && r in reports && reports[r] > rows[r] then reports[r] else rows[r]
  }

  lemma {:induction false} ReportsRun(workflowType: string, s: World, reports: Rows, rs: set<Reader>) returns (steps: seq<Step>)
    requires s.phase.Waiting?
    ensures Run(workflowType, s, steps) == Some(s.(rows := ApplyTo(s.rows, reports, rs)))
    decreases rs
  {
    if rs == {} {
      steps := [];
      assert ApplyTo(s.rows, reports, rs) == s.rows;
    } else {
      var r :| r in rs;
      steps := ReportsRun(workflowType, s, reports, rs - {r});
      var before := s.(rows := ApplyTo(s.rows, reports, rs - {r}));
      var after := s.(rows := ApplyTo(s.rows, reports, rs));
      if r in s.rows && r in reports && reports[r] > s.rows[r] {
        assert before.rows[r := reports[r]] == after.rows;
        RunOne(workflowType, before, Advance(r, reports[r]));
        RunConcat(workflowType, s, steps, before, [Advance(r, reports[r])]);
        steps := steps + [Advance(r, reports[r])];
      } else {
        assert before.rows == after.rows;
      }
    }
  }

  lemma {:induction false} TicksRun(workflowType: string, s: World, ticks: seq<Rows>, t: nat) returns (steps: seq<Step>)
    requires s.phase.Waiting? && t <= |ticks|
    ensures Run(workflowType, s, steps) == Some(s.(rows := AfterReports(s.rows, ticks, t)))
  {
    if t == 0 {
      steps := [];
    } else {
      steps := TicksRun(workflowType, s, ticks, t - 1);
      var before := s.(rows := AfterReports(s.rows, ticks, t - 1));
      var more := ReportsRun(workflowType, before, ticks[t - 1], before.rows.Keys);
      assert ApplyTo(before.rows, ticks[t - 1], before.rows.Keys) == Apply(before.rows, ticks[t - 1]);
      RunConcat(workflowType, s, steps, before, more);
      steps := steps + more;
    }
  }

  lemma {:induction false} InitsRun(workflowType: string, s: World, m: nat, target: int, k: nat) returns (steps: seq<Step>)
    requires s.phase == Initializing(m, target, 0) && k <= m
    ensures Run(workflowType, s, steps) == Some(World(InitAll(s.rows, workflowType, m, k, target), Initializing(m, target, k)))
    decreases k
  {
    if k == 0 {
      steps := [];
    } else {
      steps := InitsRun(workflowType, s, m, target, k - 1);
      var before := World(InitAll(s.rows, workflowType, m, k - 1, target), Initializing(m, target, k - 1));
      RunOne(workflowType, before, InitNext);
      RunConcat(workflowType, s, steps, before, [InitNext]);
      steps := steps + [InitNext];
    }
  }

  /** Initializing all readers and completing. */
  lemma {:induction false} FinishRun(workflowType: string, s: World, m: nat, target: int) returns (steps: seq<Step>)
    requires s.phase == Initializing(m, target, 0)
    ensures Run(workflowType, s, steps) == Some(World(InitAll(s.rows, workflowType, m, m, target), Complete(m, target)))
  {
    steps := InitsRun(workflowType, s, m, target, m);
    var last := World(InitAll(s.rows, workflowType, m, m, target), Initializing(m, target, m));
    RunOne(workflowType, last, Finish);
    RunConcat(workflowType, s, steps, last, [Finish]);
    steps := steps + [Finish];
  }

  /** Planning, waiting for t reports, and the rest. */
  lemma {:induction false} OperationRuns(workflowType: string, rows: Rows, up: bool, m: nat, target: int, ticks: seq<Rows>, t: nat) returns (steps: seq<Step>)
    requires IsMaxOffset(rows, workflowType, target) && (up || Existing(rows, workflowType) != {}) && t <= |ticks|
    requires Synced(AfterReports(rows, ticks, t), workflowType, |Existing(rows, workflowType)|, target, !up)
    ensures Run(workflowType, World(rows, Idle), steps) ==
            Some(World(InitAll(AfterReports(rows, ticks, t), workflowType, m, m, target), Complete(m, target)))
  {
    var count, seen := |Existing(rows, workflowType)|, AfterReports(rows, ticks, t);
    var s0, s1 := World(rows, Idle), World(rows, Waiting(up, m, count, target));
    RunOne(workflowType, s0, Plan(up, m, target));
    var reports := TicksRun(workflowType, s1, ticks, t);
    RunConcat(workflowType, s0, [Plan(up, m, target)], s1, reports);
    var s2, s3 := World(seen, Waiting(up, m, count, target)), World(seen, Initializing(m, target, 0));
    RunOne(workflowType, s2, Poll);
    RunConcat(workflowType, s0, [Plan(up, m, target)] + reports, s2, [Poll]);
    var rest := FinishRun(workflowType, s3, m, target);
    RunConcat(workflowType, s0, [Plan(up, m, target)] + reports + [Poll], s3, rest);
    steps := [Plan(up, m, target)] + reports + [Poll] + rest;
  }

  /** What a successful operation leaves in the table is where a run of the machine ends. */
  ghost predicate IsComplete(workflowType: string, rows: Rows, m: nat, after: Rows) {
    exists steps, target :: Run(workflowType, World(rows, Idle), steps) == Some(World(after, Complete(m, target)))
  }

  /** So it loses no event: each is behind its old owner or ahead of its new one. */
  lemma {:induction false} ScaledKeeps(workflowType: string, n: nat, m: nat, rows: Rows, after: Rows, own: (Id, nat) -> nat, w: Id, gid: int)
    requires OneGeneration(rows, workflowType, n, m) && m > 0 && Owns(own, n) && Owns(own, m)
    requires IsComplete(workflowType, rows, m, after)
    ensures Kept(after, workflowType, own, n, m, w, gid)
  {
    var steps, target :| Run(workflowType, World(rows, Idle), steps) == Some(World(after, Complete(m, target)));
    NothingLost(workflowType, n, m, rows, steps, World(after, Complete(m, target)), own, w, gid);
  }

  class Scaler {
    const workflowType: string
    const offsets: Offsets
    var operations: map<string, Status>

    constructor (workflowType: string, offsets: Offsets)
      ensures this.workflowType == workflowType && this.offsets == offsets && operations == map[]
    {
      this.workflowType, this.offsets, operations := workflowType, offsets, map[];
    }

    method GetMaxOffset() returns (m: int)
      ensures IsMaxOffset(offsets.rows, workflowType, m)
    {
      var left := Existing(offsets.rows, workflowType);
      if left == {} { return 0; }
      var r :| r in left;
      m, left := offsets.rows[r], left - {r};
      while left != {}
        invariant left <= Existing(offsets.rows, workflowType)
        invariant exists q :: q in Existing(offsets.rows, workflowType) && offsets.rows[q] == m
        invariant forall q :: q in Existing(offsets.rows, workflowType) ==> q in left || offsets.rows[q] <= m
        decreases |left|
      {
        r :| r in left;
        left := left - {r};
        if offsets.rows[r] > m { m := offsets.rows[r]; }
      }
    }

    method CheckAllWorkersSynced(n: nat, target: int, all: bool) returns (synced: bool)
      ensures synced == Synced(offsets.rows, workflowType, n, target, all)
    {
      var lagging, missing := 0, 0;
      for i := 0 to n
        invariant lagging >= 0 && missing >= 0
        invariant lagging == 0 <==> Synced'(i, n, target)
        invariant missing == 0 <==> forall j :: 0 <= j < i ==> ReaderName(workflowType, j, n) in offsets.rows
      {
        var r := ReaderName(workflowType, i, n);
        if r !in offsets.rows {
          missing := missing + 1;
        } else if offsets.rows[r] < target {
          lagging := lagging + 1;
        }
      }
      if all && missing > 0 { return false; }
      return lagging == 0;
    }

    /** None of the first k readers lags. */
    ghost predicate Synced'(k: nat, n: nat, target: int)
      reads this, offsets
    {
      forall j :: 0 <= j < k && ReaderName(workflowType, j, n) in offsets.rows ==>
        offsets.rows[ReaderName(workflowType, j, n)] >= target
    }

    /** One report a tick; the context's deadline comes after the last. */
    method WaitForWorkersToSync(n: nat, target: int, all: bool, ticks: seq<Rows>) returns (ok: bool, ghost t: nat)
      modifies offsets
      ensures t <= |ticks| && offsets.rows == AfterReports(old(offsets.rows), ticks, t)
      ensures ok <==> WaitEnds(old(offsets.rows), workflowType, n, target, all, ticks)
      ensures if ok then SyncsAt(old(offsets.rows), workflowType, n, target, all, ticks, t) else t == |ticks|
    {
      ghost var rows := offsets.rows;
      t := 0;
      for i := 0 to |ticks|
        invariant t == i && offsets.rows == AfterReports(rows, ticks, t)
        invariant forall j :: 0 < j <= t ==> !Synced(AfterReports(rows, ticks, j), workflowType, n, target, all)
      {
        offsets.rows := Apply(offsets.rows, ticks[i]);
        t := t + 1;
        ok := CheckAllWorkersSynced(n, target, all);
        if ok {
          assert SyncsAt(rows, workflowType, n, target, all, ticks, t);
          return;
        }
      }
      ok := false;
    }

    method InitializePartitionOffsets(m: nat, target: int)
      modifies offsets
      ensures offsets.rows == InitAll(old(offsets.rows), workflowType, m, m, target)
    {
      for k := 0 to m
        invariant offsets.rows == InitAll(old(offsets.rows), workflowType, m, k, target)
      {
        var r := ReaderName(workflowType, k, m);
        var updated := 0;
        if r in offsets.rows && offsets.rows[r] < target {
          offsets.rows, updated := offsets.rows[r := target], 1;
        }
        if updated == 0 && r !in offsets.rows {
          offsets.rows := offsets.rows[r := target];
        }
      }
    }

    /** The operation starts: there are readers to take over from, or none are needed, and no other is running. */
    predicate Starts(up: bool)
      reads this, offsets
    {
      && (up || Existing(offsets.rows, workflowType) != {})
      && (workflowType in operations ==> operations[workflowType] == Pending)
    }

    /** From the row of the operation on: the wait, the new readers, the row again. */
    method Proceed(m: nat, count: nat, target: int, all: bool, ticks: seq<Rows>) returns (ok: bool, ghost t: nat)
      modifies this, offsets
      ensures ok <==> WaitEnds(old(offsets.rows), workflowType, count, target, all, ticks)
      ensures operations == if ok then old(operations) - {workflowType} else old(operations)[workflowType := Failed]
      ensures t <= |ticks| && if ok then SyncsAt(old(offsets.rows), workflowType, count, target, all, ticks, t) else t == |ticks|
      ensures var seen := AfterReports(old(offsets.rows), ticks, t);
              offsets.rows == if ok then InitAll(seen, workflowType, m, m, target) else seen
    {
      operations := operations[workflowType := Synchronizing];
      ok, t := WaitForWorkersToSync(count, target, all, ticks);
      if !ok {
        operations := operations[workflowType := Failed];
        return;
      }
      InitializePartitionOffsets(m, target);
      operations := operations - {workflowType};
    }

    /** ScaleUpPartitions (up) and ScaleDownPartitions, which differ in the missing-reader check and the empty table. */
    method Scale(up: bool, m: nat, ticks: seq<Rows>) returns (r: ScaleResult)
      modifies this, offsets
      ensures r == NoReaders <==> !up && old(Existing(offsets.rows, workflowType)) == {}
      ensures r in [Scaled, TimedOut] <==> old(Starts(up))
      ensures old(Starts(up)) ==> forall target :: IsMaxOffset(old(offsets.rows), workflowType, target) ==>
                (r == Scaled <==> WaitEnds(old(offsets.rows), workflowType, |old(Existing(offsets.rows, workflowType))|, target, !up, ticks))
      ensures r == Scaled ==> operations == old(operations) - {workflowType}
                              && IsComplete(workflowType, old(offsets.rows), m, offsets.rows)
      ensures r == Scaled ==> exists target ::
                && IsMaxOffset(old(offsets.rows), workflowType, target) && AllAt(offsets.rows, workflowType, m, target)
                && Synced(offsets.rows, workflowType, |old(Existing(offsets.rows, workflowType))|, target, !up)
      ensures r == TimedOut ==> operations == old(operations)[workflowType := Failed]
                                && offsets.rows == AfterReports(old(offsets.rows), ticks, |ticks|)
      ensures r in [NoReaders, InProgress] ==> offsets.rows == old(offsets.rows) && operations == old(operations)
    {
      var readers := Existing(offsets.rows, workflowType);
      if !up && readers == {} { return NoReaders; }
      var target := GetMaxOffset();
      MaxIsUnique(offsets.rows, workflowType, target);
      if workflowType in operations && operations[workflowType] != Pending { return InProgress; }
      var ok, t := Proceed(m, |readers|, target, !up, ticks);
      if !ok { return TimedOut; }
      CompletesIt(workflowType, old(offsets.rows), up, m, target, ticks, t);
      r := Scaled;
    }
  }

  lemma {:induction false} InitMeans(rows: Rows, workflowType: string, m: nat, target: int, n: nat, all: bool)
    requires Synced(rows, workflowType, n, target, all)
    ensures var after := InitAll(rows, workflowType, m, m, target);
            Synced(after, workflowType, n, target, all) && AllAt(after, workflowType, m, target)
  {
    var after := InitAll(rows, workflowType, m, m, target);
    forall i | 0 <= i < n
      ensures var r := ReaderName(workflowType, i, n); if r in after then after[r] >= target else !all
    {
      InitIsMax(rows, workflowType, m, m, target, ReaderName(workflowType, i, n));
    }
    forall j | 0 <= j < m
      ensures ReaderName(workflowType, j, m) in after && after[ReaderName(workflowType, j, m)] >= target
    {
      assert Listed(workflowType, m, m, ReaderName(workflowType, j, m));
      InitIsMax(rows, workflowType, m, m, target, ReaderName(workflowType, j, m));
    }
  }

  lemma {:induction false} CompletesIt(workflowType: string, rows: Rows, up: bool, m: nat, target: int, ticks: seq<Rows>, t: nat)
    requires IsMaxOffset(rows, workflowType, target) && (up || Existing(rows, workflowType) != {}) && t <= |ticks|
    requires Synced(AfterReports(rows, ticks, t), workflowType, |Existing(rows, workflowType)|, target, !up)
    ensures var after := InitAll(AfterReports(rows, ticks, t), workflowType, m, m, target);
            && IsComplete(workflowType, rows, m, after) && AllAt(after, workflowType, m, target)
            && Synced(after, workflowType, |Existing(rows, workflowType)|, target, !up)
  {
    InitMeans(AfterReports(rows, ticks, t), workflowType, m, target, |Existing(rows, workflowType)|, !up);
    var steps := OperationRuns(workflowType, rows, up, m, target, ticks, t);
  }

  /** Where every completed operation ends: the new readers, and those that were waited for, are at or above the old maximum. */
  lemma {:induction false} CompleteMeans(workflowType: string, rows: Rows, steps: seq<Step>, s: World)
    requires Run(workflowType, World(rows, Idle), steps) == Some(s) && s.phase.Complete?
    ensures AllAt(s.rows, workflowType, s.phase.m, s.phase.target)
    ensures forall r :: r in rows ==> r in s.rows && s.rows[r] >= rows[r]
  {
    RunGoesForward(workflowType, World(rows, Idle), steps, s);
  }

  /** The readers initialized so far are at or above the target. */
  ghost predicate Reached(workflowType: string, s: World) {
    match s.phase
    case Initializing(m, target, k) => k <= m && forall j :: 0 <= j < k ==>
      ReaderName(workflowType, j, m) in s.rows && s.rows[ReaderName(workflowType, j, m)] >= target
    case Complete(m, target) => AllAt(s.rows, workflowType, m, target)
    case _ => true
  }

  lemma {:induction false} RunGoesForward(workflowType: string, s: World, steps: seq<Step>, s': World)
    requires Reached(workflowType, s) && Run(workflowType, s, steps) == Some(s')
    ensures Reached(workflowType, s') && forall r :: r in s.rows ==> r in s'.rows && s'.rows[r] >= s.rows[r]
    decreases |steps|
  {
    if steps != [] {
      var r := Take(workflowType, s, steps[0]).value;
      StepGoesForward(workflowType, s, steps[0], r);
      RunGoesForward(workflowType, r, steps[1..], s');
    }
  }

  lemma {:induction false} StepGoesForward(workflowType: string, s: World, step: Step, s': World)
    requires Reached(workflowType, s) && !s.phase.Complete? && Take(workflowType, s, step) == Some(s')
    ensures Reached(workflowType, s') && forall r :: r in s.rows ==> r in s'.rows && s'.rows[r] >= s.rows[r]
  {
  }

  /** Waiting adds and removes no reader, and no offset goes back. */
  lemma {:induction false} ReportsGoForward(rows: Rows, ticks: seq<Rows>, t: nat)
    requires t <= |ticks|
    ensures var after := AfterReports(rows, ticks, t); after.Keys == rows.Keys && forall r :: r in rows ==> after[r] >= rows[r]
  {
    if t > 0 {
      ReportsGoForward(rows, ticks, t - 1);
    }
  }

  lemma {:induction false} MaxIsUnique(rows: Rows, workflowType: string, m: int)
    requires IsMaxOffset(rows, workflowType, m)
    ensures forall x :: IsMaxOffset(rows, workflowType, x) ==> x == m
  {
  }
}
