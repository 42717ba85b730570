/**
 A reader of the global event stream and the runner loop behind it (pkg/stream/reader.go,
 pkg/runner/runner.go): pages are fetched, events queue in a channel, the loop dispatches and completes
 them one at a time, a background task stores the offset, and the process may die at any point.

 Global ids become visible in increasing order (see GlobalOrder).
 */
module StreamReader {
  import opened Wrappers
  import opened Inflight
  import opened OffsetsTable

  /** Where the runner loop is: for the next event, in processEvent, or past MarkDone. */
  datatype Stage = Waiting | Busy(id: int) | Finished

  /** One incarnation of the process; `write` is an offset on its way to the table. */
  datatype Proc = Proc(
    lastRead: int, committed: int, marked: int,
    batch: seq<int>, channel: seq<int>, stage: Stage, tracker: Tracker, write: Option<int>)

  /** `done` holds the events that some incarnation marked done. */
  datatype World = World(log: seq<int>, stored: int, done: set<int>, proc: Option<Proc>)

  datatype Step =
    | Append(id: int)
    | Restart(ok: bool)
    | Fetch(page: seq<int>)
    | Send
    | Begin
    | Complete
    | CommitOffset
    | Capture
    | Write
    | WriteFails
    | Crash

  const Start := World([], 0, {}, None)

  /** The latest visible id, 0 for an empty log. */
  function Top(log: seq<int>): int { if log == [] then 0 else log[|log| - 1] }

  /** WHERE global_id > lo ORDER BY global_id LIMIT |page|. */
  ghost predicate IsPage(log: seq<int>, lo: int, page: seq<int>) {
    && Ascending(page) && (forall x :: x in page ==> x in log && x > lo)
    && (page != [] ==> forall x :: x in log && lo < x <= Top(page) ==> x in page)
  }

  /** The reader after initOffset found `offset`; a failed query leaves all three fields at 0. */
  function Boot(offset: int): Proc { Proc(offset, offset, offset, [], [], Waiting, NewTracker, None) }

  /** The value that markHorizon writes. */
  function HorizonValue(committed: int, lastRead: int): int { if committed == 0 then lastRead else committed }

  ghost function TakeUp(s: World, p: Proc, step: Step): Option<World> {
    match step
    case Fetch(page) =>
      if p.batch != [] || !IsPage(s.log, p.lastRead, page) then None
      else Some(s.(proc := Some(p.(batch := page))))
    case Send =>
      if p.batch == [] then None
      else Some(s.(proc := Some(p.(batch := p.batch[1..], channel := p.channel + [p.batch[0]], lastRead := p.batch[0]))))
    case Begin =>
      if !p.stage.Waiting? || p.channel == [] then None
      else Some(s.(proc := Some(p.(stage := Busy(p.channel[0]), channel := p.channel[1..],
                                   tracker := Dispatch(p.tracker, p.channel[0])))))
    case Complete =>
      if !p.stage.Busy? then None
      else Some(s.(done := s.done + {p.stage.id},
                   proc := Some(p.(stage := Finished, tracker := Finish(p.tracker, p.stage.id)))))
    case CommitOffset =>
      if !p.stage.Finished? then None
      else Some(s.(proc := Some(p.(stage := Waiting, committed := p.tracker.committed))))
    case Capture =>
      var n := HorizonValue(p.committed, p.lastRead);
      if p.write.Some? || n == p.marked then None else Some(s.(proc := Some(p.(write := Some(n)))))
    case Write =>
      if p.write.None? then None
      else Some(s.(stored := p.write.value, proc := Some(p.(marked := p.write.value, write := None))))
    case WriteFails => Some(s.(proc := Some(p.(write := None))))
    case Crash => Some(s.(proc := None))
    case _ => None
  }

  ghost function Take(s: World, step: Step): Option<World> {
    match step
    case Append(id) => if id <= Top(s.log) then None else Some(s.(log := s.log + [id]))
    case Restart(ok) => if s.proc.Some? then None else Some(s.(proc := Some(Boot(if ok then s.stored else 0))))
    case _ => if s.proc.None? then None else TakeUp(s, s.proc.value, step)
  }

  ghost function Run(s: World, steps: seq<Step>): Option<World>
    decreases |steps|
  {
    if steps == [] then Some(s)
    else match Take(s, steps[0])
      case None => None
      case Some(r) => Run(r, steps[1..])
  }

  // ---------------------------------------------------------------------------------------------
  // Hypotheses on a run
  // ---------------------------------------------------------------------------------------------

  /** When the offset is captured from lastRead, all that is queued or being processed was done before. */
  ghost predicate Careful(s: World, step: Step) {
    step.Capture? && s.proc.Some? && s.proc.value.committed == 0 ==>
      && (forall x :: x in s.proc.value.channel ==> x in s.done)
      && (s.proc.value.stage.Busy? ==> s.proc.value.stage.id in s.done)
  }

  ghost predicate CarefulRun(s: World, steps: seq<Step>)
    decreases |steps|
  {
    steps == [] ||
    (Careful(s, steps[0]) && var r := Take(s, steps[0]); r.Some? ==> CarefulRun(r.value, steps[1..]))
  }

  /** The offset is not captured from lastRead while an event is queued or being processed. */
  predicate Patient(s: World, step: Step) {
    step.Capture? && s.proc.Some? ==>
      s.proc.value.committed != 0 || (s.proc.value.channel == [] && !s.proc.value.stage.Busy?)
  }

  ghost predicate PatientRun(s: World, steps: seq<Step>)
    decreases |steps|
  {
    steps == [] ||
    (Patient(s, steps[0]) && var r := Take(s, steps[0]); r.Some? ==> PatientRun(r.value, steps[1..]))
  }

  lemma {:induction false} PatientIsCareful(s: World, steps: seq<Step>)
    requires PatientRun(s, steps)
    ensures CarefulRun(s, steps)
    decreases |steps|
  {
    if steps != [] && Take(s, steps[0]).Some? {
      PatientIsCareful(Take(s, steps[0]).value, steps[1..]);
    }
  }

  /** Every restart could read the offset row. */
  predicate CleanRestarts(steps: seq<Step>) { forall i :: 0 <= i < |steps| && steps[i].Restart? ==> steps[i].ok }

  // ---------------------------------------------------------------------------------------------
  // The invariant
  // ---------------------------------------------------------------------------------------------

  /** Nothing visible at or below c is left to do. */
  ghost predicate Safe(s: World, c: int) {
    0 <= c <= Top(s.log) && forall x :: x in s.log && x <= c ==> x in s.done
  }

  /** Visible events up to lastRead are done or in the hands of the loop. */
  ghost predicate Covered(s: World, p: Proc) {
    forall x :: x in s.log && x <= p.lastRead ==> x in s.done || x in p.channel || p.stage == Busy(x)
  }

  ghost predicate QueueOk(s: World, p: Proc) {
    && 0 <= p.lastRead <= Top(s.log)
    && IsPage(s.log, p.lastRead, p.batch)
    && Ascending(p.channel) && (forall x :: x in p.channel ==> x in s.log)
    && (p.channel != [] ==> Top(p.channel) == p.lastRead)
    && (p.stage.Busy? ==> p.stage.id in s.log && p.stage.id <= p.lastRead && forall x :: x in p.channel ==> p.stage.id < x)
    && (p.stage.Busy? && p.channel == [] ==> p.stage.id == p.lastRead)
    && (p.stage.Finished? ==> p.tracker.committed <= p.lastRead && forall x :: x in p.channel ==> p.tracker.committed < x)
    && (p.stage.Finished? && p.channel == [] ==> p.tracker.committed == p.lastRead)
  }

  ghost predicate TrackerOk(s: World, p: Proc) {
    && (forall x :: x in p.tracker.pending <==> p.stage == Busy(x))
    && Safe(s, p.tracker.committed)
  }

  ghost predicate ProcOk(s: World, p: Proc) {
    QueueOk(s, p) && Covered(s, p) && TrackerOk(s, p) && Safe(s, p.committed) && (p.write.Some? ==> Safe(s, p.write.value))
  }

  ghost predicate Inv(s: World) {
    && Ascending(s.log) && (forall x :: x in s.log ==> 0 < x <= Top(s.log))
    && Safe(s, s.stored) && (s.proc.Some? ==> ProcOk(s, s.proc.value))
  }

  lemma {:induction false} AscendingTail(ids: seq<int>)
    requires Ascending(ids) && ids != []
    ensures Ascending(ids[1..]) && (forall x :: x in ids[1..] ==> ids[0] < x)
    ensures forall x :: x in ids <==> x == ids[0] || x in ids[1..]
    ensures ids[1..] != [] ==> Top(ids[1..]) == Top(ids)
    ensures forall x :: x in ids ==> x <= Top(ids)
  {
    assert ids == [ids[0]] + ids[1..];
  }

  lemma {:induction false} AscendingSnoc(ids: seq<int>, x: int)
    requires Ascending(ids) && (ids != [] ==> Top(ids) < x)
    ensures Ascending(ids + [x]) && Top(ids + [x]) == x
    ensures forall y :: y in ids + [x] <==> y in ids || y == x
  {
  }

  lemma {:induction false} AppendKeepsInv(s: World, id: int, s': World)
    requires Inv(s) && Take(s, Append(id)) == Some(s')
    ensures Inv(s')
  {
    AscendingSnoc(s.log, id);
    assert forall c :: Safe(s, c) ==> Safe(s', c);
    if s.proc.Some? {
      assert IsPage(s'.log, s.proc.value.lastRead, s.proc.value.batch) by {
        assert s.proc.value.batch != [] ==> Top(s.proc.value.batch) in s.proc.value.batch;
      }
    }
  }

  lemma {:induction false} SendKeepsInv(s: World, s': World)
    requires Inv(s) && Take(s, Send) == Some(s')
    ensures Inv(s')
  {
    var p := s.proc.value;
    var x := p.batch[0];
    AscendingTail(p.batch);
    assert x in p.batch;
    AscendingSnoc(p.channel, x);
    assert Covered(s', s'.proc.value) by {
      assert forall y :: y in s.log && p.lastRead < y <= x ==> y in p.batch;
    }
    assert IsPage(s.log, x, p.batch[1..]);
  }

  lemma {:induction false} BeginKeepsInv(s: World, s': World)
    requires Inv(s) && Take(s, Begin) == Some(s')
    ensures Inv(s')
  {
    AscendingTail(s.proc.value.channel);
  }

  /** With one entry in the window, completing it moves the offset to that entry. */
  lemma {:induction false} FinishAlone(t: Tracker, id: int)
    requires forall x :: x in t.pending <==> x == id
    ensures Finish(t, id).committed == id && forall x :: x !in Finish(t, id).pending
  {
    var t' := t.(pending := t.pending[id := true]);
    AdvanceOne(t', id);
    AdvanceNone(Tracker(t'.pending - {id}, id));
  }

  lemma {:induction false} CompleteKeepsInv(s: World, s': World)
    requires Inv(s) && Take(s, Complete) == Some(s')
    ensures Inv(s')
  {
    var p := s.proc.value;
    FinishAlone(p.tracker, p.stage.id);
    assert forall c :: Safe(s, c) ==> Safe(s', c);
    assert Safe(s', p.stage.id);
  }

  lemma {:induction false} StepKeepsInv(s: World, step: Step, s': World)
    requires Inv(s) && Careful(s, step) && Take(s, step) == Some(s')
    ensures Inv(s')
  {
    match step
    case Append(id) => AppendKeepsInv(s, id, s');
    case Send => SendKeepsInv(s, s');
    case Begin => BeginKeepsInv(s, s');
    case Complete => CompleteKeepsInv(s, s');
    case _ =>
      assert s'.log == s.log && s'.done == s.done;
      assert forall c :: Safe(s, c) <==> Safe(s', c);
  }

  lemma {:induction false} RunKeepsInv(s: World, steps: seq<Step>, s': World)
    requires Inv(s) && CarefulRun(s, steps) && Run(s, steps) == Some(s')
    ensures Inv(s')
    decreases |steps|
  {
    if steps != [] {
      var r := Take(s, steps[0]).value;
      StepKeepsInv(s, steps[0], r);
      RunKeepsInv(r, steps[1..], s');
    }
  }

  // ---------------------------------------------------------------------------------------------
  // Theorems
  // ---------------------------------------------------------------------------------------------

  /** Every visible event at or below the stored offset has been marked done, and no event is skipped. */
  lemma {:induction false} AtLeastOnce(steps: seq<Step>, s: World)
    requires CarefulRun(Start, steps) && Run(Start, steps) == Some(s)
    ensures forall x :: x in s.log && x <= s.stored ==> x in s.done
    ensures s.proc.Some? ==> forall x :: x in s.log ==>
              || x in s.done || x in s.proc.value.channel || s.proc.value.stage == Busy(x)
              || x > s.proc.value.lastRead
  {
    RunKeepsInv(Start, steps, s);
  }

  /** A clean restart begins below every event that no incarnation has done. */
  lemma {:induction false} RestartSkipsNothing(steps: seq<Step>, s: World, s': World, x: int)
    requires CarefulRun(Start, steps) && Run(Start, steps) == Some(s) && Take(s, Restart(true)) == Some(s')
    requires x in s.log && x !in s.done
    ensures s'.proc.value.lastRead == s.stored < x
  {
    RunKeepsInv(Start, steps, s);
  }

  /** A horizon taken from lastRead, committed still being 0, is safe exactly when all that is in flight is already done. */
  lemma {:induction false} EarlyHorizonIff(steps: seq<Step>, s: World, s': World)
    requires CarefulRun(Start, steps) && Run(Start, steps) == Some(s)
    requires s.proc.Some? && s.proc.value.committed == 0 && Take(s, Capture) == Some(s')
    ensures Safe(s, s'.proc.value.write.value) <==>
            && (forall x :: x in s.proc.value.channel ==> x in s.done)
            && (s.proc.value.stage.Busy? ==> s.proc.value.stage.id in s.done)
  {
    RunKeepsInv(Start, steps, s);
    var p := s.proc.value;
    forall x | x in p.channel ensures x <= p.lastRead {
      AscendingTail(p.channel);
    }
  }

  lemma {:induction false} RunCons(s: World, step: Step, rest: seq<Step>)
    requires Take(s, step).Some?
    ensures Run(s, [step] + rest) == Run(Take(s, step).value, rest)
  {
    assert ([step] + rest)[1..] == rest;
  }

  /** What goes wrong otherwise: the event that was queued is never read again. */
  lemma {:induction false} EarlyHorizonLoses()
    ensures exists steps, s :: Run(Start, steps) == Some(s) && s.log == [1] && s.done == {} && s.proc == Some(Boot(1))
  {
    var s1 := World([1], 0, {}, None);
    var s2 := World([1], 0, {}, Some(Boot(0)));
    var s3 := World([1], 0, {}, Some(Boot(0).(batch := [1])));
    assert Take(Start, Append(1)) == Some(s1) by { assert [] + [1] == [1]; }
    assert Take(s1, Restart(true)) == Some(s2) && Take(s2, Fetch([1])) == Some(s3);
    var rest := EarlyHorizonMiddle(s3);
    RunCons(s2, Fetch([1]), rest);
    RunCons(s1, Restart(true), [Fetch([1])] + rest);
    RunCons(Start, Append(1), [Restart(true)] + ([Fetch([1])] + rest));
  }

  lemma {:induction false} EarlyHorizonMiddle(s: World) returns (steps: seq<Step>)
    requires s.proc == Some(Boot(0).(batch := [1]))
    ensures Run(s, steps) == Some(s.(stored := 1, proc := Some(Boot(1))))
  {
    var s4 := s.(proc := Some(Boot(0).(channel := [1], lastRead := 1)));
    var s5 := s.(proc := Some(Boot(0).(channel := [1], lastRead := 1, write := Some(1))));
    var s6 := s.(stored := 1, proc := Some(Boot(0).(channel := [1], lastRead := 1, marked := 1)));
    assert Take(s, Send) == Some(s4) by { assert [1][1..] == [] && [] + [1] == [1]; }
    assert Take(s4, Capture) == Some(s5) && Take(s5, Write) == Some(s6);
    EarlyHorizonTail(s6);
    var tail := [Crash] + ([Restart(true)] + []);
    RunCons(s5, Write, tail);
    RunCons(s4, Capture, [Write] + tail);
    RunCons(s, Send, [Capture] + ([Write] + tail));
    steps := [Send] + ([Capture] + ([Write] + tail));
  }

  lemma {:induction false} EarlyHorizonTail(s: World)
    requires s.proc.Some? && s.stored == 1
    ensures Run(s, [Crash] + ([Restart(true)] + [])) == Some(s.(proc := Some(Boot(1))))
  {
    RunCons(s, Crash, [Restart(true)] + []);
    RunCons(s.(proc := None), Restart(true), []);
  }

  /** The stored offset and a value on its way to it are below all that is still to be committed. */
  ghost predicate Floor(p: Proc, v: int) {
    && v <= p.lastRead && (forall x :: x in p.channel ==> v < x)
    && (p.stage.Busy? ==> v < p.stage.id)
    && (p.stage.Finished? ==> v <= p.tracker.committed)
    && (p.committed != 0 ==> v <= p.committed)
  }

  ghost predicate Climbing(s: World) {
    s.proc.Some? ==>
      && Floor(s.proc.value, s.stored) && Floor(s.proc.value, s.proc.value.committed)
      && (s.proc.value.write.Some? ==> s.stored <= s.proc.value.write.value && Floor(s.proc.value, s.proc.value.write.value))
  }

  lemma {:induction false} SendClimbs(s: World, s': World)
    requires Inv(s) && Climbing(s) && Take(s, Send) == Some(s')
    ensures Climbing(s')
  {
    var p := s.proc.value;
    assert p.batch[0] in p.batch;
    AscendingSnoc(p.channel, p.batch[0]);
  }

  lemma {:induction false} BeginClimbs(s: World, s': World)
    requires Inv(s) && Climbing(s) && Take(s, Begin) == Some(s')
    ensures Climbing(s')
  {
    var p := s.proc.value;
    assert p.channel[0] in p.channel;
    AscendingTail(p.channel);
  }

  lemma {:induction false} CompleteClimbs(s: World, s': World)
    requires Inv(s) && Climbing(s) && Take(s, Complete) == Some(s')
    ensures Climbing(s')
  {
    FinishAlone(s.proc.value.tracker, s.proc.value.stage.id);
  }

  lemma {:induction false} StepClimbs(s: World, step: Step, s': World)
    requires Inv(s) && Climbing(s) && Patient(s, step) && Take(s, step) == Some(s') && (step.Restart? ==> step.ok)
    ensures Climbing(s') && s.stored <= s'.stored
  {
    match step
    case Send => SendClimbs(s, s');
    case Begin => BeginClimbs(s, s');
    case Complete => CompleteClimbs(s, s');
    case _ =>
  }

  /** The stored offset never goes back. */
  lemma {:induction false} OffsetNeverDecreases(steps: seq<Step>, s: World, later: seq<Step>, s': World)
    requires PatientRun(Start, steps) && Run(Start, steps) == Some(s) && CleanRestarts(steps)
    requires PatientRun(s, later) && Run(s, later) == Some(s') && CleanRestarts(later)
    ensures s.stored <= s'.stored
  {
    PatientIsCareful(Start, steps);
    RunKeepsInv(Start, steps, s);
    RunClimbs(Start, steps, s);
    RunClimbs(s, later, s');
  }

  lemma {:induction false} RunClimbs(s: World, steps: seq<Step>, s': World)
    requires Inv(s) && Climbing(s) && PatientRun(s, steps) && Run(s, steps) == Some(s') && CleanRestarts(steps)
    ensures Climbing(s') && s.stored <= s'.stored
    decreases |steps|
  {
    if steps != [] {
      var r := Take(s, steps[0]).value;
      StepKeepsInv(s, steps[0], r);
      StepClimbs(s, steps[0], r);
      RunClimbs(r, steps[1..], s');
    }
  }

  /** Without clean restarts it can: a failed offset query starts the reader over and drags the stored offset down. */
  lemma {:induction false} FailedRestartFallsBack(s: World) returns (steps: seq<Step>, s': World)
    requires Inv(s) && s.proc.None? && s.log != [] && s.log[0] < s.stored
    ensures PatientRun(s, steps) && Run(s, steps) == Some(s') && s'.stored == s.log[0] < s.stored
  {
    steps, s' := StartAndRead(s, false, s.log[0]);
  }

  /** A run from the start in which that happens: two events are read and stored, then the query fails. */
  lemma {:induction false} StoredOffsetFallsBack() returns (steps: seq<Step>, s: World, later: seq<Step>, s': World)
    ensures PatientRun(Start, steps) && Run(Start, steps) == Some(s) && CleanRestarts(steps)
    ensures PatientRun(s, later) && Run(s, later) == Some(s') && s'.stored == 1 < 2 == s.stored
  {
    var s1 := World([1], 0, {}, None);
    assert Take(Start, Append(1)) == Some(s1) by { assert [] + [1] == [1]; }
    var a, s2 := StartAndRead(s1, true, 1);
    var s3 := s2.(proc := None);
    var s4 := s3.(log := [1, 2]);
    assert Take(s2, Crash) == Some(s3);
    assert Take(s3, Append(2)) == Some(s4) by { assert [1] + [2] == [1, 2]; }
    var b, s5 := StartAndRead(s4, true, 2);
    s := s5.(proc := None);
    assert Take(s5, Crash) == Some(s);
    PatientConcat(s4, b, s5, [Crash] + []);
    PatientCons(s5, Crash, []);
    PatientCons(s3, Append(2), b + ([Crash] + []));
    PatientCons(s2, Crash, [Append(2)] + (b + ([Crash] + [])));
    PatientConcat(s1, a, s2, [Crash] + ([Append(2)] + (b + ([Crash] + []))));
    steps := [Append(1)] + (a + ([Crash] + ([Append(2)] + (b + ([Crash] + [])))));
    PatientCons(Start, Append(1), a + ([Crash] + ([Append(2)] + (b + ([Crash] + [])))));
    PatientIsCareful(Start, steps);
    RunKeepsInv(Start, steps, s);
    later, s' := FailedRestartFallsBack(s);
  }

  lemma {:induction false} PatientConcat(s: World, a: seq<Step>, r: World, b: seq<Step>)
    requires PatientRun(s, a) && Run(s, a) == Some(r) && PatientRun(r, b)
    ensures PatientRun(s, a + b) && Run(s, a + b) == Run(r, b)
    decreases |a|
  {
    if a == [] {
      assert a + b == b;
    } else {
      PatientConcat(Take(s, a[0]).value, a[1..], r, b);
      assert (a + b)[1..] == a[1..] + b;
    }
  }

  /** The process starts and takes the next event, x, all the way through. */
  lemma {:induction false} StartAndRead(s: World, ok: bool, x: int) returns (steps: seq<Step>, s': World)
    requires s.proc.None? && x in s.log
    requires var lo := if ok then s.stored else 0; 0 <= lo < x && forall y :: y in s.log && lo < y <= x ==> y == x
    ensures PatientRun(s, steps) && Run(s, steps) == Some(s') && s'.stored == x && s'.log == s.log && s'.proc.Some?
    ensures ok ==> CleanRestarts(steps)
  {
    var lo := if ok then s.stored else 0;
    var s1 := s.(proc := Some(Boot(lo)));
    var s2 := s.(proc := Some(Boot(lo).(batch := [x])));
    assert Take(s, Restart(ok)) == Some(s1) && Take(s1, Fetch([x])) == Some(s2);
    var rest;
    rest, s' := ReadOne(s2, lo, x);
    steps := [Restart(ok)] + ([Fetch([x])] + rest);
    PatientCons(s1, Fetch([x]), rest);
    PatientCons(s, Restart(ok), [Fetch([x])] + rest);
  }

  lemma {:induction false} PatientCons(s: World, step: Step, rest: seq<Step>)
    requires Take(s, step).Some? && Patient(s, step) && PatientRun(Take(s, step).value, rest)
    ensures PatientRun(s, [step] + rest) && Run(s, [step] + rest) == Run(Take(s, step).value, rest)
  {
    assert ([step] + rest)[1..] == rest;
  }

  /** One event all the way through: sent, dispatched, done, committed, stored. */
  lemma {:induction false} ReadOne(s: World, lo: int, x: int) returns (steps: seq<Step>, s': World)
    requires 0 <= lo < x && s.proc == Some(Boot(lo).(batch := [x]))
    ensures PatientRun(s, steps) && Run(s, steps) == Some(s') && s'.stored == x && s'.log == s.log && s'.proc.Some?
    ensures CleanRestarts(steps)
  {
    var p := Boot(lo).(lastRead := x);
    var s1 := s.(proc := Some(p.(channel := [x])));
    assert Take(s, Send) == Some(s1) by { assert [x][1..] == [] && [] + [x] == [x]; }
    var s2 := s.(proc := Some(p.(stage := Busy(x), tracker := Dispatch(NewTracker, x))));
    assert Take(s1, Begin) == Some(s2) by { assert [x][1..] == []; }
    var t := Finish(Dispatch(NewTracker, x), x);
    FinishAlone(Dispatch(NewTracker, x), x);
    var s3 := s.(done := s.done + {x}, proc := Some(p.(stage := Finished, tracker := t)));
    assert Take(s2, Complete) == Some(s3);
    var rest;
    rest, s' := StoreOne(s3, x);
    steps := [Send] + ([Begin] + ([Complete] + rest));
    PatientCons(s2, Complete, rest);
    PatientCons(s1, Begin, [Complete] + rest);
    PatientCons(s, Send, [Begin] + ([Complete] + rest));
  }

  lemma {:induction false} StoreOne(s: World, x: int) returns (steps: seq<Step>, s': World)
    requires x > 0 && s.proc.Some? && s.proc.value.stage.Finished? && s.proc.value.tracker.committed == x
    requires s.proc.value.marked != x && s.proc.value.write.None?
    ensures PatientRun(s, steps) && Run(s, steps) == Some(s') && s'.stored == x && s'.log == s.log && s'.proc.Some?
    ensures CleanRestarts(steps)
  {
    var p := s.proc.value.(stage := Waiting, committed := x);
    var s1 := s.(proc := Some(p));
    var s2 := s.(proc := Some(p.(write := Some(x))));
    s' := s.(stored := x, proc := Some(p.(marked := x)));
    assert Take(s, CommitOffset) == Some(s1) && Take(s1, Capture) == Some(s2) && Take(s2, Write) == Some(s');
    steps := [CommitOffset] + ([Capture] + ([Write] + []));
    PatientCons(s2, Write, []);
    PatientCons(s1, Capture, [Write] + []);
    PatientCons(s, CommitOffset, [Capture] + ([Write] + []));
  }

  // ---------------------------------------------------------------------------------------------
  // The objects
  // ---------------------------------------------------------------------------------------------

  /** The rows above lo among the first i of the log are a page. */
  lemma {:induction false} FirstOfLog(log: seq<int>, i: nat, lo: int, page: seq<int>)
    requires Ascending(log) && i <= |log| && Ascending(page) && forall x :: x in page <==> x in log[..i] && x > lo
    ensures IsPage(log, lo, page)
  {
    forall x | page != [] && x in log && lo < x <= Top(page) ensures x in page {
      var j :| 0 <= j < |log| && log[j] == x;
      assert Top(page) in page;
      var t :| 0 <= t < i && log[t] == Top(page);
      assert forall n :: t < n < |log| ==> log[t] < log[n];
      assert j < i ==> log[..i][j] == x;
    }
  }

  class StreamPosition {
    const name: Reader
    const offsets: Offsets
    const batchSize: nat
    var lastReadEventId: int
    var committedOffset: int
    var markedInDb: int

    constructor (name: Reader, offsets: Offsets, batchSize: nat)
      ensures this.name == name && this.offsets == offsets && this.batchSize == batchSize
      ensures lastReadEventId == committedOffset == markedInDb == 0
    {
      this.name, this.offsets, this.batchSize := name, offsets, batchSize;
      lastReadEventId, committedOffset, markedInDb := 0, 0, 0;
    }

    /** The three fields are those of the process p. */
    predicate Shows(p: Proc)
      reads this
    {
      lastReadEventId == p.lastRead && committedOffset == p.committed && markedInDb == p.marked
    }

    method InitOffset()
      modifies this
      ensures name in offsets.rows ==> Shows(Boot(offsets.rows[name]))
      ensures name !in offsets.rows ==> Shows(old(Boot(0).(lastRead := lastReadEventId, committed := committedOffset, marked := markedInDb)))
    {
      if name in offsets.rows {
        var lastRead := offsets.rows[name];
        lastReadEventId, markedInDb, committedOffset := lastRead, lastRead, lastRead;
      }
    }

    /** One page of rows above lastReadEventId from a log that is scanned in id order. */
    method FetchEventsFull(log: seq<int>) returns (page: seq<int>)
      requires Ascending(log)
      ensures IsPage(log, lastReadEventId, page) && |page| <= batchSize
      ensures |page| < batchSize ==> forall x :: x in log && x > lastReadEventId ==> x in page
    {
      page := [];
      var i := 0;
      while i < |log| && |page| < batchSize
        invariant 0 <= i <= |log| && |page| <= batchSize
        invariant Ascending(page) && forall x :: x in page <==> x in log[..i] && x > lastReadEventId
        invariant page != [] ==> i > 0 && Top(page) <= log[i - 1]
      {
        assert log[..i + 1] == log[..i] + [log[i]];
        if log[i] > lastReadEventId {
          AscendingSnoc(page, log[i]);
          page := page + [log[i]];
        }
        i := i + 1;
      }
      FirstOfLog(log, i, lastReadEventId, page);
    }

    method SetCommittedOffset(offset: int)
      modifies this`committedOffset
      ensures committedOffset == offset
    {
      committedOffset := offset;
    }

    /** markHorizon with a write that succeeds: Capture followed by Write, or nothing at all. */
    method MarkHorizon()
      modifies this`markedInDb, offsets
      ensures var n := HorizonValue(committedOffset, lastReadEventId);
              && markedInDb == n
              && offsets.rows == if n == old(markedInDb) then old(offsets.rows) else old(offsets.rows)[name := n]
    {
      var lastNum := committedOffset;
      if lastNum == 0 { lastNum := lastReadEventId; }
      if lastNum == markedInDb { return; }
      offsets.rows := offsets.rows[name := lastNum];
      markedInDb := lastNum;
    }
  }

  /** The event loop of Runner.Start over the events that the channel hands out; processEvent is module Horizon's subject. */
  method EventLoop(events: seq<int>, reader: StreamPosition)
    requires Ascending(events) && (events != [] ==> events[0] > 0)
    modifies reader`committedOffset
    ensures reader.committedOffset == if events == [] then old(reader.committedOffset) else Top(events)
  {
    var inflight := new InflightTracker();
    for i := 0 to |events|
      invariant forall x :: x !in inflight.pending
      invariant reader.committedOffset == if i == 0 then old(reader.committedOffset) else events[i - 1]
    {
      inflight.Register(events[i]);
      FinishAlone(inflight.View(), events[i]);
      inflight.MarkDone(events[i]);
      reader.SetCommittedOffset(inflight.committed);
    }
  }
}
