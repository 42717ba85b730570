/** Workflows, their events and their states (pkg/model). */
module WorkflowModel {
  import opened Wrappers

  // Decide, the user's Evolve and IsFinalEvent are the three functions of a `Workflow` value, so every theorem about
  // a `Workflow` holds for all user code.  Bodies that the system only stores and hands back (user payloads,
  // commands) are JSON texts.

  type Id = string
  type Json = string

  datatype Lifecycle = Active | Paused | Cancelled

  datatype Sub = Sub(eventType: string, workflowId: Id, tags: seq<string>, tagsAll: seq<string>, after: Option<int>)

  datatype Schedule = Schedule(id: Id, cron: string, timezone: string, nextCmd: Json)

  datatype StateBase = StateBase(
    subscriptions: seq<Sub>, externals: seq<string>, lifecycle: Lifecycle, schedules: seq<Schedule>)

  /** `evolver` says whether the concrete Go type implements SystemEvolver; a bare StateBase does not. */
  datatype State = State(evolver: bool, base: StateBase, user: Json)

  datatype Event =
    | DelayComplete(delayId: Id)
    | SystemPause(reason: string)
    | SystemResume
    | SystemCancel(reason: string)
    | ContinueAsNew
    | SubscriptionAdded(sub: Sub)
    | SubscriptionRemoved(sub: Sub)
    | ExternalSubscriptionAdded(topic: string)
    | ExternalSubscriptionRemoved(topic: string)
    | ScheduleAdded(schedule: Schedule)
    | ScheduleRemoved(delayId: Id)
    | CancelSchedule(delayId: Id)
    | ActionCancel(eventNumbers: seq<int>)
    | Delay(id: Id, until: int, nextCmd: Json, cron: string, timezone: string)
    | DirectMessage(target: Id)
    | UserEvent(name: string, body: Json)

  datatype Decision = Rejected(msg: string) | Accepted(events: seq<Event>)

  datatype Workflow = Workflow(
    decide: (Option<State>, Json) -> Decision,
    evolve: (Option<State>, Event) -> State,
    isFinal: Event -> bool)

  const NewStateBase := StateBase([], [], Active, [])

  /** A fresh *StateBase, which EvolveSystem hands out when a system event meets a nil state. */
  function Bare(base: StateBase): State { State(false, base, "") }

  predicate IsFrameworkEvent(e: Event) {
    e.DelayComplete? || e.SystemPause? || e.SystemResume? || e.SystemCancel? || e.ContinueAsNew?
  }

  // ---------------------------------------------------------------------------------------------
  // The StateBase helpers (pkg/model/state.go), as functions
  // ---------------------------------------------------------------------------------------------

  function FindSchedule(ss: seq<Schedule>, id: Id): (i: int)
    ensures -1 <= i < |ss|
    ensures i >= 0 ==> ss[i].id == id && forall j :: 0 <= j < i ==> ss[j].id != id
    ensures i < 0 ==> forall j :: 0 <= j < |ss| ==> ss[j].id != id
  {
    if ss == [] then -1
    else if ss[0].id == id then 0
    else var i := FindSchedule(ss[1..], id); if i < 0 then -1 else i + 1
  }

  function UpsertSchedule(ss: seq<Schedule>, s: Schedule): seq<Schedule> {
    var i := FindSchedule(ss, s.id);
    if i >= 0 then ss[i := s] else ss + [s]
  }

  function RemoveSchedule(ss: seq<Schedule>, id: Id): seq<Schedule> {
    var i := FindSchedule(ss, id);
    if i >= 0 then ss[..i] + ss[i + 1..] else ss
  }

  function RemoveFirst<T(==)>(xs: seq<T>, x: T): seq<T> {
    if xs == [] then []
    else if xs[0] == x then xs[1..]
    else [xs[0]] + RemoveFirst(xs[1..], x)
  }

  function CronSchedule(e: Event): Schedule
    requires e.Delay?
  {
    Schedule(e.id, e.cron, e.timezone, e.nextCmd)
  }

  // ---------------------------------------------------------------------------------------------
  // Evolving (pkg/model/workflow.go)
  // ---------------------------------------------------------------------------------------------

  /** What a SystemEvolver does with a system event; None hands the event to the user's Evolve. */
  function SystemBase(b: StateBase, e: Event): Option<StateBase> {
    match e
    case SystemPause(_) => Some(b.(lifecycle := Paused))
    case SystemResume => Some(b.(lifecycle := Active))
    case SystemCancel(_) => Some(b.(lifecycle := Cancelled, schedules := []))
    case SubscriptionAdded(sub) => Some(b.(subscriptions := b.subscriptions + [sub]))
    case SubscriptionRemoved(sub) => Some(b.(subscriptions := RemoveFirst(b.subscriptions, sub)))
    case ExternalSubscriptionAdded(t) => Some(b.(externals := b.externals + [t]))
    case ExternalSubscriptionRemoved(t) => Some(b.(externals := RemoveFirst(b.externals, t)))
    case ScheduleAdded(s) => Some(b.(schedules := UpsertSchedule(b.schedules, s)))
    case ScheduleRemoved(id) => Some(b.(schedules := RemoveSchedule(b.schedules, id)))
    case CancelSchedule(id) => Some(b.(schedules := RemoveSchedule(b.schedules, id)))
    case Delay(_, _, _, cron, _) =>
      if cron != "" then Some(b.(schedules := UpsertSchedule(b.schedules, CronSchedule(e)))) else None
    case _ => None
  }

  /** The result is None exactly when the Go function returns nil. */
  function EvolveSystem(s: Option<State>, e: Event): Option<State> {
    match s
    case Some(st) =>
      if st.evolver then
        match SystemBase(st.base, e)
        case Some(b) => Some(st.(base := b))
        case None => None
      else if e.ContinueAsNew? then s
      else None
    case None =>
      match SystemBase(NewStateBase, e)
      case Some(b) => Some(Bare(b))
      case None => None
  }

  function Evolve(wf: Workflow, s: Option<State>, e: Event): State {
    match EvolveSystem(s, e)
    case Some(st) => st
    case None => wf.evolve(s, e)
  }

  function EvolveAll(wf: Workflow, s: Option<State>, es: seq<Event>): (r: Option<State>)
    ensures es != [] || s.Some? ==> r.Some?
  {
    if es == [] then s
    else Some(Evolve(wf, EvolveAll(wf, s, es[..|es| - 1]), es[|es| - 1]))
  }

  predicate IsTerminal(wf: Workflow, e: Event) {
    !e.SystemCancel? && wf.isFinal(e)
  }

  /** Folding a log can be cut anywhere: this is what makes a snapshot a starting point. */
  lemma {:induction false} EvolveAllConcat(wf: Workflow, s: Option<State>, a: seq<Event>, b: seq<Event>)
    ensures EvolveAll(wf, s, a + b) == EvolveAll(wf, EvolveAll(wf, s, a), b)
    decreases |b|
  {
    if b == [] {
      assert a + b == a;
    } else {
      var c := b[..|b| - 1];
      EvolveAllConcat(wf, s, a, c);
      assert (a + b)[..|a + b| - 1] == a + c;
    }
  }

  /** EvolveAll as the source writes it: a loop that keeps reassigning `state`. */
  method EvolveAllLoop(wf: Workflow, s: Option<State>, es: seq<Event>) returns (state: Option<State>)
    ensures state == EvolveAll(wf, s, es)
  {
    state := s;
    for i := 0 to |es|
      invariant state == EvolveAll(wf, s, es[..i])
    {
      assert es[..i + 1][..i] == es[..i];
      state := Some(Evolve(wf, state, es[i]));
    }
    assert es[..|es|] == es;
  }

  // ---------------------------------------------------------------------------------------------
  // Hypotheses on user code
  // ---------------------------------------------------------------------------------------------

  /** Framework events do not complete a workflow; a cancellation may be final to the user's code. */
  ghost predicate FrameworkNotFinal(wf: Workflow) {
    forall e: Event :: IsFrameworkEvent(e) && !e.SystemCancel? ==> !wf.isFinal(e)
  }

  /** The user's Evolve builds SystemEvolver states and leaves the embedded StateBase alone. */
  ghost predicate KeepsBase(wf: Workflow) {
    && (forall e: Event :: wf.evolve(None, e).evolver && wf.evolve(None, e).base == NewStateBase)
    && (forall s: State, e: Event :: s.evolver ==>
          wf.evolve(Some(s), e).evolver && wf.evolve(Some(s), e).base == s.base)
  }

  /** A workflow is born from an event its own Evolve handles, so its state is a SystemEvolver. */
  ghost predicate BornByUser(wf: Workflow) {
    forall c: Json :: var d := wf.decide(None, c);
      d.Accepted? && d.events != [] ==> SystemBase(NewStateBase, d.events[0]).None?
  }

  /** On a SystemEvolver state one event changes the base exactly as SystemBase says. */
  lemma {:induction false} EvolveBase(wf: Workflow, s: State, e: Event)
    requires KeepsBase(wf) && s.evolver
    ensures Evolve(wf, Some(s), e).evolver
    ensures Evolve(wf, Some(s), e).base ==
            match SystemBase(s.base, e) { case Some(b) => b case None => s.base }
  {
  }

  /**
   A workflow whose first event is a system event starts as a bare StateBase.  No later system event reaches its
   base any more: the user's Evolve gets them all, except ContinueAsNew, which changes nothing.
   */
  lemma {:induction false} BornBare(wf: Workflow, first: Event, later: Event)
    requires SystemBase(NewStateBase, first).Some?
    ensures var s := Evolve(wf, None, first);
            && !s.evolver && s.user == "" && s.base == SystemBase(NewStateBase, first).value
            && Evolve(wf, Some(s), later) == if later.ContinueAsNew? then s else wf.evolve(Some(s), later)
  {
  }
}
