/** The action executor (pkg/actions/executor.go): attempts, retries, checkpoints, goroutines. */
module ActionExecutor {
  import opened Decimals
  import opened Wrappers

  // One attempt consumes the yields of an adapter, a retry loop runs attempts, and the checkpoint map is carried from
  // one to the next by aliasing.  What adapters yield, when contexts and timers fire, and which statements fail come
  // from a script.

  type Json = string
  type Data = map<string, Json>

  datatype Yield =
    | CommandYield(rejected: bool)
    | CheckpointYield(data: Data, saveNow: bool, saveFails: bool)
    | TimeoutYield

  /** What the select before a yield finds; only consumeWithTimeout looks at the timer. */
  datatype Seen = Quiet | TimerFired | ContextCancelled | ContextDeadline

  datatype Moment = Moment(seen: Seen, item: Yield)

  datatype Attempt = Attempt(actOnFails: bool, moments: seq<Moment>)

  datatype Result = Succeeded | Interrupted | Failure

  // ---------------------------------------------------------------------------------------------
  // One attempt
  // ---------------------------------------------------------------------------------------------

  /** The select before the yield; `timed` once an ActionTimeout was yielded. */
  function Interruption(m: Moment, timed: bool): Option<Result> {
    match m.seen
    case ContextCancelled => Some(Interrupted)
    case ContextDeadline => Some(Failure)
    case TimerFired => if timed then Some(Failure) else None
    case Quiet => None
  }

  /** Why consuming ends at this yield, if it does. */
  function Stop(m: Moment, timed: bool): Option<Result> {
    if Interruption(m, timed).Some? then Interruption(m, timed)
    else match m.item
      case CommandYield(rejected) => if rejected then Some(Failure) else None
      case CheckpointYield(_, saveNow, saveFails) => if saveNow && saveFails then Some(Failure) else None
      case TimeoutYield => None
  }

  function Consume(moments: seq<Moment>, timed: bool): Result {
    if moments == [] then Succeeded
    else match Stop(moments[0], timed)
      case Some(r) => r
      case None => Consume(moments[1..], timed || moments[0].item.TimeoutYield?)
  }

  /** The checkpoint yields that are merged before consuming ends, in order. */
  function Merged(moments: seq<Moment>, timed: bool): seq<Data> {
    if moments == [] || Interruption(moments[0], timed).Some? then []
    else
      (if moments[0].item.CheckpointYield? then [moments[0].item.data] else []) +
      if Stop(moments[0], timed).Some? then [] else Merged(moments[1..], timed || moments[0].item.TimeoutYield?)
  }

  /** An attempt that never yields is a failure. */
  function AttemptResult(a: Attempt): Result {
    if a.actOnFails || a.moments == [] then Failure else Consume(a.moments, false)
  }

  function AttemptData(a: Attempt): seq<Data> { if a.actOnFails then [] else Merged(a.moments, false) }

  /** cp with the first n of ds laid over it, one after the other. */
  function OverlayFirstN(cp: Data, ds: seq<Data>, n: nat): Data
    requires n <= |ds|
  {
    if n == 0 then cp else OverlayFirstN(cp, ds, n - 1) + ds[n - 1]
  }

  function Overlay(cp: Data, ds: seq<Data>): Data { OverlayFirstN(cp, ds, |ds|) }

  predicate TimedAt(moments: seq<Moment>, i: nat)
    requires i <= |moments|
  {
    exists j :: 0 <= j < i && moments[j].item.TimeoutYield?
  }

  lemma {:induction false} ConsumeCleanIff(moments: seq<Moment>, timed: bool)
    ensures Consume(moments, timed).Succeeded? <==>
            forall i :: 0 <= i < |moments| ==> Stop(moments[i], timed || TimedAt(moments, i)).None?
    decreases |moments|
  {
    if moments != [] {
      var rest, t := moments[1..], timed || moments[0].item.TimeoutYield?;
      ConsumeCleanIff(rest, t);
      forall i | 0 <= i < |rest| ensures (t || TimedAt(rest, i)) == (timed || TimedAt(moments, i + 1)) {
        TimedTail(moments, i);
      }
      assert forall i :: 0 < i < |moments| ==> moments[i] == rest[i - 1] && TimedAt(moments, (i - 1) + 1) == TimedAt(moments, i);
    }
  }

  lemma {:induction false} TimedTail(moments: seq<Moment>, i: nat)
    requires i < |moments|
    ensures TimedAt(moments, i + 1) <==> moments[0].item.TimeoutYield? || TimedAt(moments[1..], i)
  {
    if TimedAt(moments, i + 1) {
      var j :| 0 <= j < i + 1 && moments[j].item.TimeoutYield?;
      assert j > 0 ==> moments[1..][j - 1].item.TimeoutYield?;
    }
    if TimedAt(moments[1..], i) {
      var j :| 0 <= j < i && moments[1..][j].item.TimeoutYield?;
      assert moments[j + 1].item.TimeoutYield?;
    }
  }

  /** The select before yield i lets it through: no context done, and no timer fired that an earlier ActionTimeout set. */
  ghost predicate Reached(moments: seq<Moment>, i: nat)
    requires i < |moments|
  {
    && moments[i].seen != ContextCancelled && moments[i].seen != ContextDeadline
    && (moments[i].seen == TimerFired ==> !exists j :: 0 <= j < i && moments[j].item == TimeoutYield)
  }

  /** Yield i does not fail: it is no rejected command and no checkpoint whose immediate save fails. */
  predicate Handles(y: Yield) {
    y != CommandYield(true) && !(y.CheckpointYield? && y.saveNow && y.saveFails)
  }

  ghost predicate Passes(moments: seq<Moment>, n: nat)
    requires n <= |moments|
  {
    forall i :: 0 <= i < n ==> Reached(moments, i) && Handles(moments[i].item)
  }

  lemma {:induction false} StopsIff(moments: seq<Moment>, i: nat)
    requires i < |moments|
    ensures var stop := Stop(moments[i], TimedAt(moments, i));
            && (stop == None <==> Reached(moments, i) && Handles(moments[i].item))
            && (stop == Some(Interrupted) <==> moments[i].seen == ContextCancelled)
            && stop != Some(Succeeded)
    ensures Interruption(moments[i], TimedAt(moments, i)).None? <==> Reached(moments, i)
  {
    assert TimedAt(moments, i) <==> exists j :: 0 <= j < i && moments[j].item == TimeoutYield;
  }

  /** An attempt succeeds exactly when ActOn did, something was yielded, and no yield was stopped or failed. */
  lemma {:induction false} SucceedsIff(a: Attempt)
    ensures AttemptResult(a) == Succeeded <==> !a.actOnFails && a.moments != [] && Passes(a.moments, |a.moments|)
  {
    ConsumeCleanIff(a.moments, false);
    forall i | 0 <= i < |a.moments| ensures Stop(a.moments[i], TimedAt(a.moments, i)).None? <==> Reached(a.moments, i) && Handles(a.moments[i].item) {
      StopsIff(a.moments, i);
    }
  }

  /** Consuming ends at the first yield that stops it. */
  lemma {:induction false} ConsumeAt(moments: seq<Moment>, timed: bool, n: nat)
    requires n < |moments| && Stop(moments[n], timed || TimedAt(moments, n)).Some?
    requires forall i :: 0 <= i < n ==> Stop(moments[i], timed || TimedAt(moments, i)).None?
    ensures Consume(moments, timed) == Stop(moments[n], timed || TimedAt(moments, n)).value
    decreases n
  {
    if n > 0 {
      var rest, t := moments[1..], timed || moments[0].item.TimeoutYield?;
      assert Stop(moments[0], timed || TimedAt(moments, 0)).None? && !TimedAt(moments, 0);
      TailStops(moments, timed, n);
      ConsumeAt(rest, t, n - 1);
    }
  }

  /** The first n yields pass, and yield n does not. */
  ghost predicate EndsAt(moments: seq<Moment>, n: int) {
    0 <= n < |moments| && Passes(moments, n) && !(Reached(moments, n) && Handles(moments[n].item))
  }

  lemma {:induction false} PassOrEnd(moments: seq<Moment>, n: nat)
    requires n <= |moments|
    ensures Passes(moments, n) || exists i :: 0 <= i < n && EndsAt(moments, i)
  {
    if n > 0 {
      PassOrEnd(moments, n - 1);
      if Passes(moments, n - 1) && !Passes(moments, n) {
        assert EndsAt(moments, n - 1);
      }
    }
  }

  lemma {:induction false} EndDecides(a: Attempt, n: nat)
    requires !a.actOnFails && EndsAt(a.moments, n)
    ensures AttemptResult(a) == if a.moments[n].seen == ContextCancelled then Interrupted else Failure
  {
    forall i | 0 <= i <= n ensures Stop(a.moments[i], TimedAt(a.moments, i)).None? <==> i < n {
      StopsIff(a.moments, i);
    }
    ConsumeAt(a.moments, false, n);
    StopsIff(a.moments, n);
  }

  /** An attempt is interrupted exactly when the first thing that stops it is a cancelled context. */
  lemma {:induction false} InterruptedIff(a: Attempt)
    ensures AttemptResult(a) == Interrupted <==>
            !a.actOnFails && exists n :: 0 <= n < |a.moments| && Passes(a.moments, n) && a.moments[n].seen == ContextCancelled
  {
    if !a.actOnFails && a.moments != [] {
      PassOrEnd(a.moments, |a.moments|);
      if Passes(a.moments, |a.moments|) {
        SucceedsIff(a);
        assert forall n :: 0 <= n < |a.moments| ==> Reached(a.moments, n);
      } else {
        var n :| 0 <= n < |a.moments| && EndsAt(a.moments, n);
        EndDecides(a, n);
        assert forall m :: 0 <= m < n ==> Reached(a.moments, m) && a.moments[m].seen != ContextCancelled;
        assert forall m :: n < m < |a.moments| ==> !Passes(a.moments, m);
      }
    }
  }

  /** The data of the checkpoints among some yields, in order. */
  function CheckpointData(moments: seq<Moment>): seq<Data> {
    if moments == [] then []
    else
      var last := moments[|moments| - 1].item;
      CheckpointData(moments[..|moments| - 1]) + if last.CheckpointYield? then [last.data] else []
  }

  lemma {:induction false} CheckpointDataFirst(moments: seq<Moment>)
    requires moments != []
    ensures CheckpointData(moments) ==
            (if moments[0].item.CheckpointYield? then [moments[0].item.data] else []) + CheckpointData(moments[1..])
    decreases |moments|
  {
    var n := |moments| - 1;
    if n > 0 {
      CheckpointDataFirst(moments[..n]);
      assert moments[..n][1..] == moments[1..][..n - 1];
    } else {
      assert moments[..0] == [] && moments[1..] == [];
    }
  }

  lemma {:induction false} MergedUpTo(moments: seq<Moment>, timed: bool, n: nat)
    requires n <= |moments| && forall i :: 0 <= i < n ==> Stop(moments[i], timed || TimedAt(moments, i)).None?
    requires n < |moments| ==> Stop(moments[n], timed || TimedAt(moments, n)).Some?
    ensures Merged(moments, timed) ==
            if n < |moments| && Interruption(moments[n], timed || TimedAt(moments, n)).None? then CheckpointData(moments[..n + 1])
            else CheckpointData(moments[..n])
    decreases n
  {
    if moments != [] && n == 0 {
      assert !TimedAt(moments, 0);
      CheckpointDataFirst(moments[..1]);
      assert moments[..1][1..] == [] && moments[..0] == [];
    } else if moments != [] {
      assert !TimedAt(moments, 0) && Stop(moments[0], timed || TimedAt(moments, 0)).None?;
      var rest, t := moments[1..], timed || moments[0].item.TimeoutYield?;
      TailStops(moments, timed, n);
      MergedUpTo(rest, t, n - 1);
      DataFromFirst(moments, n);
      if n < |moments| { DataFromFirst(moments, n + 1); }
    }
  }

  lemma {:induction false} DataFromFirst(moments: seq<Moment>, n: nat)
    requires 0 < n <= |moments|
    ensures CheckpointData(moments[..n]) ==
            (if moments[0].item.CheckpointYield? then [moments[0].item.data] else []) + CheckpointData(moments[1..][..n - 1])
  {
    CheckpointDataFirst(moments[..n]);
    assert moments[..n][1..] == moments[1..][..n - 1];
  }

  /** What stops a yield is the same seen from the second yield on. */
  lemma {:induction false} TailStops(moments: seq<Moment>, timed: bool, n: nat)
    requires 0 < n <= |moments| && forall i :: 0 <= i < n ==> Stop(moments[i], timed || TimedAt(moments, i)).None?
    ensures var rest, t := moments[1..], timed || moments[0].item.TimeoutYield?;
            && (forall i :: 0 <= i < n - 1 ==> Stop(rest[i], t || TimedAt(rest, i)).None?)
            && (n < |moments| ==> (t || TimedAt(rest, n - 1)) == (timed || TimedAt(moments, n)))
  {
    var rest, t := moments[1..], timed || moments[0].item.TimeoutYield?;
    forall i | 0 <= i < |rest| ensures (t || TimedAt(rest, i)) == (timed || TimedAt(moments, i + 1)) {
      TimedTail(moments, i);
    }
    forall i | 0 <= i < n - 1 ensures Stop(rest[i], t || TimedAt(rest, i)).None? {
      assert Stop(moments[i + 1], timed || TimedAt(moments, i + 1)).None?;
    }
  }

  /** The data of the yields before yield n, and of yield n if it was reached. */
  ghost function DataBeforeEnd(moments: seq<Moment>, n: int): seq<Data>
    requires 0 <= n < |moments|
  {
    if Reached(moments, n) then CheckpointData(moments[..n + 1]) else CheckpointData(moments[..n])
  }

  /**
   Which checkpoints an attempt leaves behind: those of all its yields when none stops it, and otherwise those
   before the yield that does, and that yield's own when it was reached, so even one whose save failed.
   */
  lemma {:induction false} AttemptDataIs(a: Attempt)
    requires !a.actOnFails
    ensures Passes(a.moments, |a.moments|) ==> AttemptData(a) == CheckpointData(a.moments)
    ensures forall n :: EndsAt(a.moments, n) ==> AttemptData(a) == DataBeforeEnd(a.moments, n)
  {
    var moments := a.moments;
    if Passes(moments, |moments|) {
      forall i | 0 <= i < |moments| ensures Stop(moments[i], TimedAt(moments, i)).None? {
        StopsIff(moments, i);
      }
      MergedUpTo(moments, false, |moments|);
      assert moments[..|moments|] == moments;
    }
    forall n | EndsAt(moments, n) ensures AttemptData(a) == DataBeforeEnd(moments, n) {
      DataAtEnd(a, n);
    }
  }

  lemma {:induction false} DataAtEnd(a: Attempt, n: int)
    requires !a.actOnFails && EndsAt(a.moments, n)
    ensures AttemptData(a) == DataBeforeEnd(a.moments, n)
  {
    forall i | 0 <= i <= n ensures Stop(a.moments[i], TimedAt(a.moments, i)).None? <==> i < n {
      StopsIff(a.moments, i);
    }
    StopsIff(a.moments, n);
    MergedUpTo(a.moments, false, n);
  }

  lemma {:induction false} OverlayOne(cp: Data, d: Data)
    ensures Overlay(cp, [d]) == cp + d
  {
    assert OverlayFirstN(cp, [d], 0) == cp;
  }

  lemma {:induction false} OverlayPrefix(cp: Data, a: seq<Data>, b: seq<Data>, n: nat)
    requires n <= |a|
    ensures OverlayFirstN(cp, a + b, n) == OverlayFirstN(cp, a, n)
  {
    if n > 0 {
      OverlayPrefix(cp, a, b, n - 1);
    }
  }

  lemma {:induction false} OverlaySuffix(cp: Data, a: seq<Data>, b: seq<Data>, n: nat)
    requires n <= |b|
    ensures OverlayFirstN(cp, a + b, |a| + n) == OverlayFirstN(Overlay(cp, a), b, n)
  {
    if n == 0 {
      OverlayPrefix(cp, a, b, |a|);
    } else {
      OverlaySuffix(cp, a, b, n - 1);
    }
  }

  lemma {:induction false} OverlayConcat(cp: Data, a: seq<Data>, b: seq<Data>)
    ensures Overlay(cp, a + b) == Overlay(Overlay(cp, a), b)
  {
    OverlaySuffix(cp, a, b, |b|);
  }

  // ---------------------------------------------------------------------------------------------
  // The retry loop
  // ---------------------------------------------------------------------------------------------

  datatype Status = Running | Retrying | Completed | Failed | Cancelled

  /** What happens around attempt k: before it, at its status update, in it, in the backoff after it. */
  datatype Turn = Turn(cancelledBefore: bool, statusFails: bool, attempt: Attempt, cancelledAsleep: bool)

  /** The activity row; a JSON null checkpoint is None. */
  datatype Activity = Activity(retryCount: int, maxRetries: int, checkpoint: Option<Data>)

  datatype Loaded = LoadError | NoActivity | Found(activity: Activity)

  /** The status updates that are issued, and the checkpoint that each attempt is given. */
  datatype Report = Report(trace: seq<Status>, handed: seq<Data>)

  function StartOf(cp: Option<Data>): Data { if cp.Some? then cp.value else map[] }

  function StatusFor(retryCount: int): Status { if retryCount > 0 then Retrying else Running }

  /** Without a stored map every attempt gets an empty one of its own. */
  function CarryOver(cp: Option<Data>, a: Attempt): Option<Data> {
    match cp case Some(m) => Some(Overlay(m, AttemptData(a))) case None => None
  }

  /** One turn of the loop: what it reports, and whether another follows. */
  function OneTurn(max: int, turn: Turn, retryCount: int, cp: Option<Data>): (Report, bool) {
    if turn.cancelledBefore then (Report([Cancelled], []), false)
    else if turn.statusFails then (Report([Failed], []), false)
    else
      var status, start := StatusFor(retryCount), StartOf(cp);
      match AttemptResult(turn.attempt)
      case Succeeded => (Report([status, Completed], [start]), false)
      case Interrupted => (Report([status, Cancelled], [start]), false)
      case Failure =>
        if retryCount + 1 > max then (Report([status, Failed], [start]), false)
        else if turn.cancelledAsleep then (Report([status, Cancelled], [start]), false)
        else (Report([status], [start]), true)
  }

  function RetryLoop(max: int, turns: nat -> Turn, retryCount: int, k: nat, cp: Option<Data>): Report
    decreases max + 1 - retryCount
  {
    if retryCount > max then Report([Failed], [])
    else
      var (first, more) := OneTurn(max, turns(k), retryCount, cp);
      if !more then first
      else
        var rest := RetryLoop(max, turns, retryCount + 1, k + 1, CarryOver(cp, turns(k).attempt));
        Report(first.trace + rest.trace, first.handed + rest.handed)
  }

  /** The policy's limit, capped by the executor's option when that is set. */
  function Limit(policyMax: int, optionMax: int): int {
    if optionMax > 0 && policyMax > optionMax then optionMax else policyMax
  }

  function RunAction(optionMax: int, loaded: Loaded, semCancelled: bool, turns: nat -> Turn): Report {
    match loaded
    case Found(a) =>
      if semCancelled then Report([Cancelled], [])
      else RetryLoop(Limit(a.maxRetries, optionMax), turns, a.retryCount, 0, a.checkpoint)
    case _ => Report([Failed], [])
  }

  /** Attempts that are left. */
  function Budget(max: int, retryCount: int): nat { if retryCount > max then 0 else max - retryCount + 1 }

  ghost predicate AllFailed(turns: nat -> Turn, lo: nat, hi: nat) {
    forall j :: lo <= j < hi ==> AttemptResult(turns(j).attempt).Failure?
  }

  /** RUNNING only for the first attempt of a fresh activity, RETRYING after that, then one final status. */
  ghost predicate TraceOk(r: Report, retryCount: int) {
    && |r.trace| == |r.handed| + 1
    && (forall i :: 0 <= i < |r.handed| ==> r.trace[i] == if retryCount + i > 0 then Retrying else Running)
    && r.trace[|r.handed|] in [Completed, Failed, Cancelled]
  }

  /** The last of n attempts failed, or there was none, and the budget allows another turn. */
  ghost predicate OneMoreTurn(max: int, turns: nat -> Turn, retryCount: int, k: nat, n: nat) {
    n < Budget(max, retryCount) && (n > 0 ==> AttemptResult(turns(k + n - 1).attempt) == Failure && !turns(k + n - 1).cancelledAsleep)
  }

  /**
   The n attempts are exactly those the turns call for, and each verdict is given exactly when it is due:
   COMPLETED after a success; FAILED when all attempts failed and the budget is used up, or a status update
   fails; CANCELLED before a turn, in an attempt, or in the backoff after a failed one.
   */
  ghost predicate VerdictOk(r: Report, max: int, turns: nat -> Turn, retryCount: int, k: nat)
    requires |r.trace| == |r.handed| + 1
  {
    var n, verdict := |r.handed|, r.trace[|r.handed|];
    && n <= Budget(max, retryCount)
    && (forall j :: k <= j < k + n ==> !turns(j).cancelledBefore && !turns(j).statusFails)
    && (n > 0 ==> AllFailed(turns, k, k + n - 1) && forall j :: k <= j < k + n - 1 ==> !turns(j).cancelledAsleep)
    && (verdict == Completed <==> n > 0 && AttemptResult(turns(k + n - 1).attempt) == Succeeded)
    && (verdict == Failed <==>
          || (n == Budget(max, retryCount) && (n > 0 ==> AttemptResult(turns(k + n - 1).attempt) == Failure))
          || (OneMoreTurn(max, turns, retryCount, k, n) && !turns(k + n).cancelledBefore && turns(k + n).statusFails))
    && (verdict == Cancelled <==>
          || (OneMoreTurn(max, turns, retryCount, k, n) && turns(k + n).cancelledBefore)
          || (n > 0 && AttemptResult(turns(k + n - 1).attempt) == Interrupted)
          || (0 < n < Budget(max, retryCount) && AttemptResult(turns(k + n - 1).attempt) == Failure && turns(k + n - 1).cancelledAsleep))
  }

  lemma {:induction false} LoopTells(max: int, turns: nat -> Turn, retryCount: int, k: nat, cp: Option<Data>)
    ensures var r := RetryLoop(max, turns, retryCount, k, cp);
            TraceOk(r, retryCount) && VerdictOk(r, max, turns, retryCount, k)
    decreases max + 1 - retryCount
  {
    if retryCount <= max && OneTurn(max, turns(k), retryCount, cp).1 {
      var next := CarryOver(cp, turns(k).attempt);
      LoopTells(max, turns, retryCount + 1, k + 1, next);
      ShiftTells(RetryLoop(max, turns, retryCount + 1, k + 1, next), max, turns, retryCount, k, StartOf(cp));
    } else if retryCount <= max {
      LastTurnTells(max, turns, retryCount, k, cp);
    }
  }

  /** A turn that ends the loop. */
  lemma {:induction false} LastTurnTells(max: int, turns: nat -> Turn, retryCount: int, k: nat, cp: Option<Data>)
    requires retryCount <= max && !OneTurn(max, turns(k), retryCount, cp).1
    ensures var r := OneTurn(max, turns(k), retryCount, cp).0;
            TraceOk(r, retryCount) && VerdictOk(r, max, turns, retryCount, k)
  {
  }

  /** One failed attempt in front of a truthful report. */
  lemma {:induction false} ShiftTells(r: Report, max: int, turns: nat -> Turn, retryCount: int, k: nat, start: Data)
    requires retryCount < max && AttemptResult(turns(k).attempt).Failure? && !turns(k).cancelledAsleep
    requires !turns(k).cancelledBefore && !turns(k).statusFails
    requires TraceOk(r, retryCount + 1) && VerdictOk(r, max, turns, retryCount + 1, k + 1)
    ensures var s := Report([StatusFor(retryCount)] + r.trace, [start] + r.handed);
            TraceOk(s, retryCount) && VerdictOk(s, max, turns, retryCount, k)
  {
    var s := Report([StatusFor(retryCount)] + r.trace, [start] + r.handed);
    assert s.trace[|s.handed|] == r.trace[|r.handed|];
    assert forall i :: 0 < i < |s.handed| ==> s.trace[i] == r.trace[i - 1];
  }

  /**
   The retry loop terminates and its final status tells the truth, whatever was loaded: without an activity
   or a semaphore slot there is no attempt and a single FAILED or CANCELLED.
   */
  lemma {:induction false} FinalStatusIsTrue(optionMax: int, loaded: Loaded, semCancelled: bool, turns: nat -> Turn)
    ensures var r := RunAction(optionMax, loaded, semCancelled, turns);
            match loaded
            case Found(a) =>
              var max := if 0 < optionMax < a.maxRetries then optionMax else a.maxRetries;
              && TraceOk(r, a.retryCount)
              && (if semCancelled then r.trace == [Cancelled] else VerdictOk(r, max, turns, a.retryCount, 0))
              && |r.handed| <= Budget(a.maxRetries, a.retryCount)
              && (optionMax > 0 ==> |r.handed| <= Budget(optionMax, a.retryCount))
            case _ => r.trace == [Failed] && r.handed == []
  {
    if loaded.Found? {
      var a := loaded.activity;
      LoopTells(Limit(a.maxRetries, optionMax), turns, a.retryCount, 0, a.checkpoint);
    }
  }

  // ---------------------------------------------------------------------------------------------
  // Checkpoints across attempts
  // ---------------------------------------------------------------------------------------------

  function Concat(f: nat -> seq<Data>, k: nat, n: nat): seq<Data> {
    if n == 0 then [] else Concat(f, k, n - 1) + f(k + n - 1)
  }

  lemma {:induction false} ConcatFirst(f: nat -> seq<Data>, k: nat, n: nat)
    ensures Concat(f, k, n + 1) == f(k) + Concat(f, k + 1, n)
    decreases n
  {
    if n > 0 {
      ConcatFirst(f, k, n - 1);
      assert (f(k) + Concat(f, k + 1, n - 1)) + f(k + n) == f(k) + (Concat(f, k + 1, n - 1) + f(k + n));
    } else {
      assert Concat(f, k, 0) == [] && Concat(f, k + 1, 0) == [];
    }
  }

  function Yields(turns: nat -> Turn): nat -> seq<Data> { (k: nat) => AttemptData(turns(k).attempt) }

  /** Every checkpoint yield of the n attempts from k on, in order. */
  function DataUpTo(turns: nat -> Turn, k: nat, n: nat): seq<Data> { Concat(Yields(turns), k, n) }

  /** The attempt failed and another one follows. */
  predicate GoesOn(max: int, turn: Turn, retryCount: int) {
    AttemptResult(turn.attempt).Failure? && retryCount + 1 <= max && !turn.cancelledAsleep
  }

  /** The checkpoints alone. */
  function Handed(max: int, turns: nat -> Turn, retryCount: int, k: nat, cp: Option<Data>): seq<Data>
    decreases max + 1 - retryCount
  {
    if retryCount > max || turns(k).cancelledBefore || turns(k).statusFails then []
    else if !GoesOn(max, turns(k), retryCount) then [StartOf(cp)]
    else [StartOf(cp)] + Handed(max, turns, retryCount + 1, k + 1, CarryOver(cp, turns(k).attempt))
  }

  lemma {:induction false} HandedIs(max: int, turns: nat -> Turn, retryCount: int, k: nat, cp: Option<Data>)
    ensures RetryLoop(max, turns, retryCount, k, cp).handed == Handed(max, turns, retryCount, k, cp)
    decreases max + 1 - retryCount
  {
    if retryCount <= max && OneTurn(max, turns(k), retryCount, cp).1 {
      HandedIs(max, turns, retryCount + 1, k + 1, CarryOver(cp, turns(k).attempt));
    }
  }

  /** The checkpoint after n attempts, one attempt at a time. */
  function Carried(f: nat -> seq<Data>, k: nat, cp: Data, n: nat): Data
    decreases n
  {
    if n == 0 then cp else Carried(f, k + 1, Overlay(cp, f(k)), n - 1)
  }

  lemma {:induction false} CarriedIs(f: nat -> seq<Data>, k: nat, cp: Data, n: nat)
    ensures Carried(f, k, cp, n) == Overlay(cp, Concat(f, k, n))
    decreases n
  {
    if n > 0 {
      CarriedIs(f, k + 1, Overlay(cp, f(k)), n - 1);
      ConcatFirst(f, k, n - 1);
      OverlayConcat(cp, f(k), Concat(f, k + 1, n - 1));
    }
  }

  lemma {:induction false} Accumulate(max: int, turns: nat -> Turn, retryCount: int, k: nat, cp: Data, i: nat)
    requires i < |Handed(max, turns, retryCount, k, Some(cp))|
    ensures Handed(max, turns, retryCount, k, Some(cp))[i] == Carried(Yields(turns), k, cp, i)
    decreases i
  {
    if i > 0 {
      Accumulate(max, turns, retryCount + 1, k + 1, Overlay(cp, Yields(turns)(k)), i - 1);
    }
  }

  /** The checkpoint of every attempt is the stored one with all earlier checkpoint yields laid over it. */
  lemma {:induction false} CheckpointsAccumulate(max: int, turns: nat -> Turn, retryCount: int, k: nat, cp: Data, i: nat)
    requires i < |RetryLoop(max, turns, retryCount, k, Some(cp)).handed|
    ensures RetryLoop(max, turns, retryCount, k, Some(cp)).handed[i] == Overlay(cp, DataUpTo(turns, k, i))
  {
    HandedIs(max, turns, retryCount, k, Some(cp));
    Accumulate(max, turns, retryCount, k, cp, i);
    CarriedIs(Yields(turns), k, cp, i);
  }

  lemma {:induction false} SumEmptyIff(a: Data, b: Data)
    ensures a + b == map[] <==> a == map[] && b == map[]
  {
    assert (a + b).Keys == a.Keys + b.Keys;
    assert a == map[] <==> a.Keys == {};
    assert b == map[] <==> b.Keys == {};
    assert a + b == map[] <==> (a + b).Keys == {};
  }

  lemma {:induction false} OverlayEmptyIff(ds: seq<Data>, n: nat)
    requires n <= |ds|
    ensures OverlayFirstN(map[], ds, n) == map[] <==> forall i :: 0 <= i < n ==> ds[i] == map[]
  {
    if n > 0 {
      OverlayEmptyIff(ds, n - 1);
      SumEmptyIff(OverlayFirstN(map[], ds, n - 1), ds[n - 1]);
    }
  }

  /** With a null checkpoint in the row a retry starts from nothing: right only while nothing was yielded. */
  lemma {:induction false} NullCheckpointForgets(max: int, turns: nat -> Turn, retryCount: int, k: nat, i: nat)
    requires i < |RetryLoop(max, turns, retryCount, k, None).handed|
    ensures RetryLoop(max, turns, retryCount, k, None).handed[i] == map[]
    ensures RetryLoop(max, turns, retryCount, k, None).handed[i] == Overlay(map[], DataUpTo(turns, k, i)) <==>
            forall j :: 0 <= j < |DataUpTo(turns, k, i)| ==> DataUpTo(turns, k, i)[j] == map[]
  {
    HandedIs(max, turns, retryCount, k, None);
    NullHandsNothing(max, turns, retryCount, k, i);
    OverlayEmptyIff(DataUpTo(turns, k, i), |DataUpTo(turns, k, i)|);
  }

  lemma {:induction false} NullHandsNothing(max: int, turns: nat -> Turn, retryCount: int, k: nat, i: nat)
    requires i < |Handed(max, turns, retryCount, k, None)|
    ensures Handed(max, turns, retryCount, k, None)[i] == map[]
    decreases i
  {
    if i > 0 {
      NullHandsNothing(max, turns, retryCount + 1, k + 1, i - 1);
    }
  }

  // ---------------------------------------------------------------------------------------------
  // The objects
  // ---------------------------------------------------------------------------------------------

  /** A Go map: a reference that several holders share. */
  class GoMap {
    var entries: Data

    constructor ()
      ensures entries == map[]
    {
      entries := map[];
    }

    /** for k, v := range data { m[k] = v }. */
    method SetAll(data: Data)
      modifies this
      ensures entries == old(entries) + data
    {
      ghost var before := entries;
      ghost var merged: set<string> := {};
      assert Restrict(data, {}) == map[] && before + map[] == before;
      var left := data.Keys;
      while left != {}
        invariant merged !! left && merged + left == data.Keys
        invariant entries == before + Restrict(data, merged)
        decreases |left|
      {
        var k :| k in left;
        RestrictSnoc(before, data, merged, k);
        left, merged := left - {k}, merged + {k};
        entries := entries[k := data[k]];
      }
      assert Restrict(data, merged) == data;
    }
  }

  function Restrict(data: Data, ks: set<string>): Data { map k | k in data && k in ks :: data[k] }

  lemma {:induction false} RestrictSnoc(before: Data, data: Data, ks: set<string>, k: string)
    requires k in data
    ensures (before + Restrict(data, ks))[k := data[k]] == before + Restrict(data, ks + {k})
  {
  }

  class ActionContext {
    var checkpoint: GoMap?

    constructor (checkpoint: GoMap?)
      ensures this.checkpoint == checkpoint
    {
      this.checkpoint := checkpoint;
    }

    function Entries(): Data
      reads this, checkpoint
    {
      if checkpoint == null then map[] else checkpoint.entries
    }

    method MergeCheckpoint(data: Data)
      modifies this, checkpoint
      ensures checkpoint != null && (if old(checkpoint) == null then fresh(checkpoint) else checkpoint == old(checkpoint))
      ensures Entries() == old(Entries()) + data
    {
      if checkpoint == null { checkpoint := new GoMap(); }
      checkpoint.SetAll(data);
    }
  }

  class Executor {
    const optionMax: int
    var trace: seq<Status>
    var handed: seq<Data>

    constructor (optionMax: int)
      ensures this.optionMax == optionMax && trace == [] && handed == []
    {
      this.optionMax, trace, handed := optionMax, [], [];
    }

    /** The CommandYield and CheckpointYield cases that both loops share; true when the yield ends the attempt. */
    method HandleYield(y: Yield, actionCtx: ActionContext) returns (failed: bool)
      requires actionCtx.checkpoint != null
      modifies actionCtx, actionCtx.checkpoint
      ensures actionCtx.checkpoint == old(actionCtx.checkpoint)
      ensures failed == Stop(Moment(Quiet, y), false).Some?
      ensures actionCtx.Entries() == Overlay(old(actionCtx.Entries()), if y.CheckpointYield? then [y.data] else [])
    {
      failed := false;
      match y {
        case CommandYield(rejected) => failed := rejected;
        case CheckpointYield(data, saveNow, saveFails) =>
          OverlayOne(actionCtx.Entries(), data);
          actionCtx.MergeCheckpoint(data);
          failed := saveNow && saveFails;
        case TimeoutYield =>
      }
    }

    method ConsumeWithTimeout(moments: seq<Moment>, actionCtx: ActionContext) returns (r: Result)
      requires actionCtx.checkpoint != null
      modifies actionCtx, actionCtx.checkpoint
      ensures actionCtx.checkpoint == old(actionCtx.checkpoint)
      ensures r == Consume(moments, true)
      ensures actionCtx.Entries() == Overlay(old(actionCtx.Entries()), Merged(moments, true))
    {
      var rest := moments;
      ghost var result, goal := Consume(moments, true), Overlay(actionCtx.Entries(), Merged(moments, true));
      while rest != []
        invariant actionCtx.checkpoint == old(actionCtx.checkpoint)
        invariant Consume(rest, true) == result && Overlay(actionCtx.Entries(), Merged(rest, true)) == goal
        decreases |rest|
      {
        var m := rest[0];
        MergedStep(actionCtx.Entries(), rest, true);
        if m.seen == TimerFired || m.seen == ContextDeadline { return Failure; }
        if m.seen == ContextCancelled { return Interrupted; }
        var failed := HandleYield(m.item, actionCtx);
        if failed { return Failure; }
        rest := rest[1..];
      }
      r := Succeeded;
    }

    method ExecuteSingleAttempt(a: Attempt, actionCtx: ActionContext) returns (r: Result)
      requires actionCtx.checkpoint != null
      modifies actionCtx, actionCtx.checkpoint
      ensures actionCtx.checkpoint == old(actionCtx.checkpoint)
      ensures r == AttemptResult(a)
      ensures actionCtx.Entries() == Overlay(old(actionCtx.Entries()), AttemptData(a))
    {
      if a.actOnFails { return Failure; }
      var rest, yieldCount := a.moments, 0;
      ghost var result, goal := Consume(rest, false), Overlay(actionCtx.Entries(), Merged(rest, false));
      while rest != []
        invariant actionCtx.checkpoint == old(actionCtx.checkpoint)
        invariant yieldCount + |rest| == |a.moments|
        invariant Consume(rest, false) == result && Overlay(actionCtx.Entries(), Merged(rest, false)) == goal
        decreases |rest|
      {
        var m := rest[0];
        MergedStep(actionCtx.Entries(), rest, false);
        if m.seen == ContextDeadline { return Failure; }
        if m.seen == ContextCancelled { return Interrupted; }
        yieldCount := yieldCount + 1;
        if m.item.TimeoutYield? {
          r := ConsumeWithTimeout(rest[1..], actionCtx);
          return;
        }
        var failed := HandleYield(m.item, actionCtx);
        if failed { return Failure; }
        rest := rest[1..];
      }
      r := if yieldCount == 0 then Failure else Succeeded;
    }

    /** The body of the retry loop; every attempt works on the map that the activity holds. */
    method TakeTurn(maxRetries: int, turn: Turn, retryCount: int, stored: GoMap?) returns (more: bool)
      modifies this, stored
      ensures var (r, m) := old(OneTurn(maxRetries, turn, retryCount, Held(stored)));
              trace == old(trace) + r.trace && handed == old(handed) + r.handed && more == m
      ensures more ==> Held(stored) == old(CarryOver(Held(stored), turn.attempt))
    {
      if turn.cancelledBefore {
        trace := trace + [Cancelled];
        return false;
      }
      if turn.statusFails {
        trace := trace + [Failed];
        return false;
      }
      var checkpoint := stored;
      if checkpoint == null { checkpoint := new GoMap(); }
      var actionCtx := new ActionContext(checkpoint);
      trace, handed := trace + [StatusFor(retryCount)], handed + [checkpoint.entries];
      var result := ExecuteSingleAttempt(turn.attempt, actionCtx);
      var final := None;
      if result.Succeeded? {
        final := Some(Completed);
      } else if result.Interrupted? {
        final := Some(Cancelled);
      } else if retryCount + 1 > maxRetries {
        final := Some(Failed);
      } else if turn.cancelledAsleep {
        final := Some(Cancelled);
      }
      if final.Some? { trace := trace + [final.value]; }
      more := final.None?;
    }

    /** _runActionWithRetry. */
    method RunActionWithRetry(loaded: Loaded, stored: GoMap?, semCancelled: bool, turns: nat -> Turn)
      requires loaded.Found? ==> loaded.activity.checkpoint == Held(stored)
      modifies this, stored
      ensures var r := RunAction(optionMax, loaded, semCancelled, turns);
              trace == old(trace) + r.trace && handed == old(handed) + r.handed
    {
      if !loaded.Found? {
        trace := trace + [Failed];
        return;
      }
      var maxRetries := Limit(loaded.activity.maxRetries, optionMax);
      if semCancelled {
        trace := trace + [Cancelled];
        return;
      }
      var retryCount, k := loaded.activity.retryCount, 0;
      ghost var goal := RunAction(optionMax, loaded, semCancelled, turns);
      ghost var rest := goal;
      while retryCount <= maxRetries
        invariant k >= 0 && rest == RetryLoop(maxRetries, turns, retryCount, k, Held(stored))
        invariant trace + rest.trace == old(trace) + goal.trace
        invariant handed + rest.handed == old(handed) + goal.handed
        decreases maxRetries - retryCount
      {
        ghost var t, h, cp := trace, handed, Held(stored);
        LoopOnce(maxRetries, turns, retryCount, k, cp, t, h);
        var more := TakeTurn(maxRetries, turns(k), retryCount, stored);
        if !more { return; }
        retryCount, k := retryCount + 1, k + 1;
        rest := RetryLoop(maxRetries, turns, retryCount, k, Held(stored));
      }
      trace := trace + [Failed];
    }
  }

  /** What a turn reports, then what the rest of the loop reports. */
  lemma {:induction false} LoopOnce(max: int, turns: nat -> Turn, retryCount: int, k: nat, cp: Option<Data>, t: seq<Status>, h: seq<Data>)
    requires retryCount <= max
    ensures var (first, more) := OneTurn(max, turns(k), retryCount, cp);
            var r := RetryLoop(max, turns, retryCount, k, cp);
            if !more then r == first
            else
              var rest := RetryLoop(max, turns, retryCount + 1, k + 1, CarryOver(cp, turns(k).attempt));
              (t + first.trace) + rest.trace == t + r.trace && (h + first.handed) + rest.handed == h + r.handed
  {
  }

  /** The stored checkpoint as a value. */
  function Held(m: GoMap?): Option<Data>
    reads m
  {
    if m == null then None else Some(m.entries)
  }

  /** Laying the data of the first yield over the map, then the rest. */
  lemma {:induction false} MergedStep(cp: Data, moments: seq<Moment>, timed: bool)
    requires moments != []
    ensures var m := moments[0];
            var first := if m.item.CheckpointYield? then [m.item.data] else [];
            && (Interruption(m, timed).Some? ==> Overlay(cp, Merged(moments, timed)) == cp)
            && (Interruption(m, timed).None? && Stop(m, timed).Some? ==>
                  Overlay(cp, Merged(moments, timed)) == Overlay(cp, first))
            && (Stop(m, timed).None? ==>
                  var rest := Merged(moments[1..], timed || m.item.TimeoutYield?);
                  Overlay(cp, Merged(moments, timed)) == Overlay(Overlay(cp, first), rest))
  {
    var m := moments[0];
    var first := if m.item.CheckpointYield? then [m.item.data] else [];
    if Stop(m, timed).None? {
      OverlayConcat(cp, first, Merged(moments[1..], timed || m.item.TimeoutYield?));
    } else if Interruption(m, timed).None? {
      assert first + [] == first;
    }
  }

  // ---------------------------------------------------------------------------------------------
  // Running actions: one at a time per key, a cap overall
  // ---------------------------------------------------------------------------------------------

  type TaskId = nat

  datatype Stage = Queued | Holding | Leaving

  /** `running` is the map _runningActions; a task is a goroutine. */
  datatype Pool = Pool(running: set<string>, tasks: map<TaskId, Task>)
  datatype Task = Task(key: string, stage: Stage)

  datatype PoolStep = Spawn(t: TaskId, w: string, n: nat) | Acquire(t: TaskId) | GiveUp(t: TaskId) | Release(t: TaskId) | Remove(t: TaskId)

  function ActionKey(w: string, n: nat): string { Tagged(w, n) }

  function Holders(p: Pool): set<TaskId> { set t | t in p.tasks && p.tasks[t].stage.Holding? }

  /** `cap` is MaxConcurrentActions; None means no global semaphore. */
  function TakePool(cap: Option<nat>, p: Pool, step: PoolStep): Option<Pool> {
    match step
    case Spawn(t, w, n) =>
      if t in p.tasks || ActionKey(w, n) in p.running then None
      else Some(Pool(p.running + {ActionKey(w, n)}, p.tasks[t := Task(ActionKey(w, n), Queued)]))
    case Acquire(t) =>
      if t !in p.tasks || !p.tasks[t].stage.Queued? || (cap.Some? && |Holders(p)| >= cap.value) then None
      else Some(p.(tasks := p.tasks[t := p.tasks[t].(stage := Holding)]))
    case GiveUp(t) =>
      if t !in p.tasks || !p.tasks[t].stage.Queued? then None
      else Some(p.(tasks := p.tasks[t := p.tasks[t].(stage := Leaving)]))
    case Release(t) =>
      if t !in p.tasks || !p.tasks[t].stage.Holding? then None
      else Some(p.(tasks := p.tasks[t := p.tasks[t].(stage := Leaving)]))
    case Remove(t) =>
      if t !in p.tasks || !p.tasks[t].stage.Leaving? then None
      else Some(Pool(p.running - {p.tasks[t].key}, p.tasks - {t}))
  }

  function RunPool(cap: Option<nat>, p: Pool, steps: seq<PoolStep>): Option<Pool>
    decreases |steps|
  {
    if steps == [] then Some(p)
    else match TakePool(cap, p, steps[0])
      case None => None
      case Some(r) => RunPool(cap, r, steps[1..])
  }

  ghost predicate HasTask(p: Pool, key: string) { exists t :: t in p.tasks && p.tasks[t].key == key }

  ghost predicate KeysApart(p: Pool) {
    && (forall t :: t in p.tasks ==> p.tasks[t].key in p.running)
    && (forall t, u :: t in p.tasks && u in p.tasks && p.tasks[t].key == p.tasks[u].key ==> t == u)
  }

  ghost predicate PoolOk(cap: Option<nat>, p: Pool) {
    && KeysApart(p) && (forall key :: key in p.running ==> HasTask(p, key))
    && (cap.Some? ==> |Holders(p)| <= cap.value)
  }

  lemma {:induction false} PoolStepOk(cap: Option<nat>, p: Pool, step: PoolStep, p': Pool)
    requires PoolOk(cap, p) && TakePool(cap, p, step) == Some(p')
    ensures PoolOk(cap, p')
  {
    KeysStayApart(cap, p, step, p');
    forall key | key in p'.running ensures HasTask(p', key) {
      StillRuns(cap, p, step, p', key);
    }
    HoldersBounded(cap, p, step, p');
  }

  lemma {:induction false} KeysStayApart(cap: Option<nat>, p: Pool, step: PoolStep, p': Pool)
    requires KeysApart(p) && TakePool(cap, p, step) == Some(p')
    ensures KeysApart(p')
  {
  }

  lemma {:induction false} HoldersBounded(cap: Option<nat>, p: Pool, step: PoolStep, p': Pool)
    requires (cap.Some? ==> |Holders(p)| <= cap.value) && TakePool(cap, p, step) == Some(p')
    ensures cap.Some? ==> |Holders(p')| <= cap.value
  {
    if step.Acquire? {
      assert Holders(p') == Holders(p) + {step.t};
    } else {
      assert Holders(p') <= Holders(p);
      SubsetSize(Holders(p'), Holders(p));
    }
  }

  lemma {:induction false} StillRuns(cap: Option<nat>, p: Pool, step: PoolStep, p': Pool, key: string)
    requires PoolOk(cap, p) && TakePool(cap, p, step) == Some(p') && key in p'.running
    ensures HasTask(p', key)
  {
    if step.Spawn? && key == ActionKey(step.w, step.n) {
      assert p'.tasks[step.t].key == key;
    } else {
      var t :| t in p.tasks && p.tasks[t].key == key;
      assert t in p'.tasks && p'.tasks[t].key == key;
    }
  }

  lemma {:induction false} SubsetSize(a: set<TaskId>, b: set<TaskId>)
    requires a <= b
    ensures |a| <= |b|
  {
    assert b == a + (b - a);
  }

  lemma {:induction false} PoolRunOk(cap: Option<nat>, p: Pool, steps: seq<PoolStep>, p': Pool)
    requires PoolOk(cap, p) && RunPool(cap, p, steps) == Some(p')
    ensures PoolOk(cap, p')
    decreases |steps|
  {
    if steps != [] {
      var r := TakePool(cap, p, steps[0]).value;
      PoolStepOk(cap, p, steps[0], r);
      PoolRunOk(cap, r, steps[1..], p');
    }
  }

  /** Over every run no action has two goroutines, and at most `cap` goroutines hold the semaphore. */
  lemma {:induction false} OneTaskPerActionAndCap(cap: Option<nat>, steps: seq<PoolStep>, p: Pool)
    requires RunPool(cap, Pool({}, map[]), steps) == Some(p)
    ensures forall t, u, w, n :: t in p.tasks && u in p.tasks && p.tasks[t].key == p.tasks[u].key == ActionKey(w, n) ==> t == u
    ensures cap.Some? ==> |Holders(p)| <= cap.value
  {
    assert Holders(Pool({}, map[])) == {};
    PoolRunOk(cap, Pool({}, map[]), steps, p);
  }

  /** An action can be started exactly while no goroutine runs it, and a queued one proceeds exactly below the cap. */
  lemma {:induction false} StartsIffIdle(cap: Option<nat>, steps: seq<PoolStep>, p: Pool, t: TaskId, w: string, n: nat)
    requires RunPool(cap, Pool({}, map[]), steps) == Some(p)
    ensures t !in p.tasks ==>
              (TakePool(cap, p, Spawn(t, w, n)).Some? <==> forall u :: u in p.tasks ==> p.tasks[u].key != ActionKey(w, n))
    ensures t in p.tasks && p.tasks[t].stage.Queued? ==>
              (TakePool(cap, p, Acquire(t)).Some? <==> (cap.Some? ==> |Holders(p)| < cap.value))
  {
    assert Holders(Pool({}, map[])) == {};
    PoolRunOk(cap, Pool({}, map[]), steps, p);
  }

  /** Cancelling all actions of w also hits the workflows whose id continues w with a colon, and only those. */
  lemma {:induction false} PrefixCancelIff(w: string, v: string, n: nat)
    ensures w + ":" < ActionKey(v, n) <==> v == w || w + ":" <= v
  {
    var key, prefix, d := ActionKey(v, n), w + ":", Decimal(n);
    assert key == v + ":" + d && prefix[|w|] == ':';
    if |w| < |v| {
      assert key[..|prefix|] == v[..|prefix|];
    } else if |w| == |v| {
      assert key[..|prefix|] == v + ":";
      assert w == prefix[..|w|] && v == (v + ":")[..|v|];
    } else {
      assert forall i :: |v| < i < |key| ==> key[i] == d[i - |v| - 1] && key[i] in d;
    }
  }
}
