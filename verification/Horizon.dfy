/** Horizon subscriptions (pkg/runner/backfill.go, pkg/runner/subscriptions.go, pkg/runner/runner.go). */
module Horizon {
  import opened Wrappers
  import opened WorkflowModel
  import opened EventStore

  // A subscription with a horizon is served by two mechanisms: when the runner meets its EvSubscriptionAdded event it
  // replays older emitter events, and from then on the subscription row serves newer ones.  This module counts what
  // the two hand over while the log and the table grow; module HorizonRun runs them against the repository.  The
  // runner has no partition filter, no adapter and no namespace, and does not crash.

  /** A row of stored_events as a runner sees it; `ours` says that its workflow type is the runner's. */
  datatype Row = Row(
    gid: int, w: Id, v: int, ours: bool, eventType: string, tags: seq<string>, wfTags: seq<string>, event: Event)

  /** One ProcessCommand call: the command made from `row`, for workflow `to`. */
  datatype Delivery = Delivery(to: Id, row: Row)

  /** `routable(row)`: the event parses and EventToCmd gives a command. */
  datatype Runner = Runner(routable: Row -> bool)

  type Subs = map<SubKey, SubRow>

  // ---------------------------------------------------------------------------------------------
  // Matching (pkg/model/state.go)
  // ---------------------------------------------------------------------------------------------

  predicate MatchesWorkflowAndEvent(sub: Sub, w: Id, eventType: string) {
    (sub.workflowId == "*" || sub.workflowId == w) && (sub.eventType == "*" || sub.eventType == eventType)
  }

  /** One of `tags`, if there are any, and all of `tagsAll`. */
  predicate MatchesTags(sub: Sub, tags: seq<string>, wfTags: seq<string>) {
    && (sub.tags != [] ==> exists t :: t in sub.tags && t in tags + wfTags)
    && (forall t :: t in sub.tagsAll ==> t in tags + wfTags)
  }

  method MatchesTagsLoop(sub: Sub, tags: seq<string>, wfTags: seq<string>) returns (r: bool)
    ensures r == MatchesTags(sub, tags, wfTags)
  {
    var allTags: set<string> := {};
    for i := 0 to |tags|
      invariant forall t :: t in allTags <==> t in tags[..i]
    {
      allTags := allTags + {tags[i]};
    }
    for i := 0 to |wfTags|
      invariant forall t :: t in allTags <==> t in tags || t in wfTags[..i]
    {
      allTags := allTags + {wfTags[i]};
    }
    assert forall t :: t in allTags <==> t in tags + wfTags;
    if |sub.tags| > 0 {
      var found, i := false, 0;
      while i < |sub.tags| && !found
        invariant 0 <= i <= |sub.tags|
        invariant found <==> exists t :: t in sub.tags[..i] && t in allTags
      {
        assert sub.tags[..i + 1] == sub.tags[..i] + [sub.tags[i]];
        if sub.tags[i] in allTags { found := true; }
        i := i + 1;
      }
      assert sub.tags[..|sub.tags|] == sub.tags;
      if !found { return false; }
    }
    for i := 0 to |sub.tagsAll|
      invariant forall t :: t in sub.tagsAll[..i] ==> t in allTags
    {
      if sub.tagsAll[i] !in allTags {
        assert sub.tagsAll[i] in sub.tagsAll;
        return false;
      }
    }
    r := true;
  }

  predicate Matches(sub: Sub, row: Row) {
    MatchesWorkflowAndEvent(sub, row.w, row.eventType) && MatchesTags(sub, row.tags, row.wfTags)
  }

  predicate PastHorizon(sub: Sub, row: Row) { sub.after.Some? ==> row.v > sub.after.value }

  /** The (event type, workflow) condition of the live query. */
  predicate SqlMatch(sub: Sub, row: Row) {
    || (sub.eventType in ["*", row.eventType] && sub.workflowId == row.w)
    || (sub.eventType == row.eventType && sub.workflowId in ["*", row.w])
  }

  /** The query drops one kind of subscription that the model's matcher accepts: ("*", "*"). */
  lemma {:induction false} SqlMatchIff(sub: Sub, row: Row)
    ensures SqlMatch(sub, row) <==>
            && MatchesWorkflowAndEvent(sub, row.w, row.eventType)
            && !(sub.workflowId == "*" && sub.eventType == "*" && row.w != "*" && row.eventType != "*")
  {
    var a, b := "*", row.eventType;
    assert sub.eventType in [a, b] <==> sub.eventType == a || sub.eventType == b;
    assert sub.workflowId in [a, row.w] <==> sub.workflowId == a || sub.workflowId == row.w;
  }

  // ---------------------------------------------------------------------------------------------
  // The two mechanisms
  // ---------------------------------------------------------------------------------------------

  /** The live query and the Go filter behind it. */
  predicate Hits(r: SubRow, row: Row) {
    && SqlMatch(r.sub, row) && PastHorizon(r.sub, row)
    && (r.addedGid.Some? ==> row.gid >= r.addedGid.value)
    && Matches(r.sub, row)
  }

  function FindSubscriptions(subs: Subs, row: Row): set<Id> {
    if row.eventType == "" then {} else set k | k in subs && Hits(subs[k], row) :: k.w
  }

  /** delay_complete goes back to its own workflow, a direct message to its target. */
  function DirectTarget(row: Row): set<Id> {
    if !row.ours then {}
    else match row.event
      case DelayComplete(_) => {row.w}
      case DirectMessage(target) => {target}
      case _ => {}
  }

  function WorkflowsToNotify(subs: Subs, row: Row): set<Id> { DirectTarget(row) + FindSubscriptions(subs, row) }

  predicate Cancels(row: Row) { row.ours && row.event.ActionCancel? }

  function Live(u: Runner, subs: Subs, row: Row): set<Delivery> {
    if Cancels(row) || !u.routable(row) then {}
    else set w | w in WorkflowsToNotify(subs, row) :: Delivery(w, row)
  }

  /** The rows that the backfill query returns and the filters keep. */
  predicate Replayed(u: Runner, sub: Sub, gid: int, row: Row) {
    && row.w == sub.workflowId && PastHorizon(sub, row) && row.gid < gid
    && Matches(sub, row) && u.routable(row)
  }

  function Backfill(u: Runner, log: seq<Row>, to: Id, sub: Sub, gid: int): seq<Delivery> {
    if log == [] then []
    else
      var row := log[|log| - 1];
      Backfill(u, log[..|log| - 1], to, sub, gid) + if Replayed(u, sub, gid, row) then [Delivery(to, row)] else []
  }

  /** A horizon subscription to a named emitter, added by a workflow of the runner's type. */
  predicate Triggers(row: Row) {
    row.ours && row.event.SubscriptionAdded? && row.event.sub.after.Some? && row.event.sub.workflowId != "*"
  }

  function BackfillFor(u: Runner, log: seq<Row>, row: Row): seq<Delivery> {
    if Triggers(row) then Backfill(u, log, row.w, row.event.sub, row.gid) else []
  }

  /** Everything that processing one event hands over. */
  function Handed(u: Runner, log: seq<Row>, subs: Subs, row: Row): multiset<Delivery> {
    multiset(BackfillFor(u, log, row)) + multiset(Live(u, subs, row))
  }

  method BackfillSubscription(u: Runner, log: seq<Row>, to: Id, sub: Sub, gid: int) returns (out: seq<Delivery>)
    ensures out == if sub.after.Some? && sub.workflowId != "*" then Backfill(u, log, to, sub, gid) else []
  {
    out := [];
    if sub.after.None? { return; }
    if sub.workflowId == "*" { return; }
    for i := 0 to |log|
      invariant out == Backfill(u, log[..i], to, sub, gid)
    {
      assert log[..i + 1][..i] == log[..i];
      var row := log[i];
      if row.w == sub.workflowId && row.v > sub.after.value && row.gid < gid {
        if MatchesWorkflowAndEvent(sub, row.w, row.eventType) {
          var tagged := MatchesTagsLoop(sub, row.tags, row.wfTags);
          if tagged && u.routable(row) { out := out + [Delivery(to, row)]; }
        }
      }
    }
    assert log[..|log|] == log;
  }

  method FindSubscriptionsLoop(subs: Subs, row: Row) returns (seen: set<Id>)
    ensures seen == FindSubscriptions(subs, row)
  {
    seen := {};
    if row.eventType == "" { return; }
    ghost var visited: set<SubKey> := {};
    var left := subs.Keys;
    while left != {}
      invariant visited !! left && visited + left == subs.Keys
      invariant seen == set k | k in visited && Hits(subs[k], row) :: k.w
      decreases |left|
    {
      var k :| k in left;
      var r := subs[k];
      left, visited := left - {k}, visited + {k};
      if SqlMatch(r.sub, row) && PastHorizon(r.sub, row) && (r.addedGid.Some? ==> row.gid >= r.addedGid.value) {
        var tagged := MatchesTagsLoop(r.sub, row.tags, row.wfTags);
        if MatchesWorkflowAndEvent(r.sub, row.w, row.eventType) && tagged { seen := seen + {k.w}; }
      }
    }
  }

  method ProcessEvent(u: Runner, log: seq<Row>, subs: Subs, row: Row) returns (out: multiset<Delivery>)
    ensures out == Handed(u, log, subs, row)
  {
    out := multiset{};
    if row.ours {
      if row.event.ActionCancel? { return; }
      if row.event.SubscriptionAdded? && row.event.sub.after.Some? {
        var replayed := BackfillSubscription(u, log, row.w, row.event.sub, row.gid);
        out := multiset(replayed);
      }
    }
    if !u.routable(row) { return; }
    var subscribed := FindSubscriptionsLoop(subs, row);
    var targets := DirectTarget(row) + subscribed;
    out := out + multiset(set w | w in targets :: Delivery(w, row));
  }

  // ---------------------------------------------------------------------------------------------
  // The machine
  // ---------------------------------------------------------------------------------------------

  /** `next` is the number of events processed so far; `out` is every command handed over. */
  datatype World = World(log: seq<Row>, subs: Subs, next: nat, out: multiset<Delivery>)

  datatype Step = Commit(rows: seq<Row>, subs: Subs) | Process

  ghost predicate InOrder(log: seq<Row>) { forall i, j :: 0 <= i < j < |log| ==> log[i].gid < log[j].gid }

  /** Rows and subscription table change together, in one transaction; global ids only go up. */
  ghost function Take(u: Runner, s: World, step: Step): Option<World> {
    match step
    case Commit(rows, subs) =>
      if !InOrder(s.log + rows) then None else Some(s.(log := s.log + rows, subs := subs))
    case Process =>
      if s.next >= |s.log| then None
      else Some(s.(next := s.next + 1, out := s.out + Handed(u, s.log, s.subs, s.log[s.next])))
  }

  // ---------------------------------------------------------------------------------------------
  // The watched subscription
  // ---------------------------------------------------------------------------------------------

  /** `subscriber` adds `sub` in the event with global id `gid`. */
  datatype Watch = Watch(subscriber: Id, sub: Sub, gid: int)

  predicate Named(x: Watch) { x.sub.after.Some? && x.sub.workflowId != "*" }

  predicate Added(x: Watch, row: Row) {
    row.gid == x.gid && row.ours && row.w == x.subscriber && row.event == SubscriptionAdded(x.sub)
  }

  ghost predicate Visible(x: Watch, s: World) { exists i :: 0 <= i < |s.log| && s.log[i].gid == x.gid }

  /** The row can bring emitter events to the subscriber. */
  predicate Reaches(x: Watch, k: SubKey, r: SubRow) {
    k.w == x.subscriber && r.sub.workflowId in ["*", x.sub.workflowId]
  }

  /** Processing the row replays emitter events to the subscriber. */
  predicate ReplaysEmitter(x: Watch, row: Row) {
    Triggers(row) && row.w == x.subscriber && row.event.sub.workflowId == x.sub.workflowId
  }

  /** The subscription is in the table from the moment its event is visible, and is the subscriber's only route. */
  ghost predicate OnlyRoute(x: Watch, s: World) {
    var k := SubKeyOf(x.subscriber, x.sub);
    && (forall i :: 0 <= i < |s.log| && s.log[i].gid == x.gid ==> Added(x, s.log[i]))
    && (Visible(x, s) ==> k in s.subs && s.subs[k] == SubRow(x.sub, Some(x.gid)))
    && (forall j :: j in s.subs && Reaches(x, j, s.subs[j]) ==> j == k && Visible(x, s))
    && (forall i :: 0 <= i < |s.log| && ReplaysEmitter(x, s.log[i]) ==> s.log[i].gid == x.gid)
    && (forall i :: 0 <= i < |s.log| && s.log[i].w == x.sub.workflowId ==> x.subscriber !in DirectTarget(s.log[i]))
  }

  predicate FromEmitter(x: Watch, row: Row) { row.w == x.sub.workflowId }

  /** The live path looks at the event at all: it returns early on an action_cancel and on an empty event type. */
  predicate SeenLive(row: Row) { row.eventType != "" && !Cancels(row) }

  /** The subscription asks for this event. */
  predicate Wanted(u: Runner, x: Watch, row: Row) {
    row.v > (if x.sub.after.Some? then x.sub.after.value else 0) && Matches(x.sub, row) && u.routable(row)
  }

  /** The runner has processed the event that added the subscription. */
  ghost predicate Passed(x: Watch, s: World) { exists g :: 0 <= g < s.next && g < |s.log| && s.log[g].gid == x.gid }

  /** How often row i of the log should have been handed over by now. */
  ghost function Expected(u: Runner, x: Watch, s: World, i: int): int
    requires 0 <= i < |s.log|
  {
    if Wanted(u, x, s.log[i]) && Passed(x, s) && (s.log[i].gid < x.gid || (i < s.next && SeenLive(s.log[i]))) then 1 else 0
  }

  ghost predicate Inv(u: Runner, x: Watch, s: World) {
    && InOrder(s.log) && s.next <= |s.log|
    && (forall d :: d in s.out ==> d.row in s.log)
    && forall i :: 0 <= i < |s.log| && FromEmitter(x, s.log[i]) ==>
         s.out[Delivery(x.subscriber, s.log[i])] == Expected(u, x, s, i)
  }

  // ---------------------------------------------------------------------------------------------
  // The proof
  // ---------------------------------------------------------------------------------------------

  lemma {:induction false} BackfillCounts(u: Runner, log: seq<Row>, to: Id, sub: Sub, gid: int, d: Delivery)
    requires InOrder(log)
    ensures multiset(Backfill(u, log, to, sub, gid))[d] ==
            if d.to == to && d.row in log && Replayed(u, sub, gid, d.row) then 1 else 0
    decreases |log|
  {
    if log != [] {
      var front, row := log[..|log| - 1], log[|log| - 1];
      FrontInOrder(log);
      BackfillCounts(u, front, to, sub, gid, d);
    }
  }

  lemma {:induction false} FrontInOrder(log: seq<Row>)
    requires InOrder(log) && log != []
    ensures var front, row := log[..|log| - 1], log[|log| - 1];
            InOrder(front) && row !in front && forall r :: r in log <==> r in front || r == row
  {
    var front, row := log[..|log| - 1], log[|log| - 1];
    assert log == front + [row];
    assert forall i :: 0 <= i < |front| ==> front[i].gid < row.gid;
  }

  /** The backfill of another event hands the subscriber nothing from the emitter. */
  lemma {:induction false} BackfillPart(u: Runner, x: Watch, s: World, row: Row, i: int)
    requires Named(x) && InOrder(s.log) && OnlyRoute(x, s) && row in s.log && 0 <= i < |s.log| && FromEmitter(x, s.log[i])
    ensures multiset(BackfillFor(u, s.log, row))[Delivery(x.subscriber, s.log[i])] ==
            if row.gid == x.gid && s.log[i].gid < x.gid && Wanted(u, x, s.log[i]) then 1 else 0
  {
    if Triggers(row) {
      BackfillCounts(u, s.log, row.w, row.event.sub, row.gid, Delivery(x.subscriber, s.log[i]));
    }
  }

  /** The live query finds the subscriber for its emitter's event exactly when the watched row does. */
  lemma {:induction false} FoundIff(u: Runner, x: Watch, s: World, row: Row)
    requires Named(x) && OnlyRoute(x, s) && row in s.log && FromEmitter(x, row)
    ensures x.subscriber in WorkflowsToNotify(s.subs, row) <==>
            row.eventType != "" && Visible(x, s) && row.gid >= x.gid && PastHorizon(x.sub, row) && Matches(x.sub, row)
  {
    var k := SubKeyOf(x.subscriber, x.sub);
    SqlMatchIff(x.sub, row);
    if Visible(x, s) && Hits(s.subs[k], row) {
      assert k in s.subs && k.w == x.subscriber;
    }
    forall j | j in s.subs && Hits(s.subs[j], row) && j.w == x.subscriber
      ensures j == k && Visible(x, s)
    {
      assert s.subs[j].sub.workflowId in ["*", x.sub.workflowId];
      assert Reaches(x, j, s.subs[j]);
    }
  }

  lemma {:induction false} LivePart(u: Runner, x: Watch, s: World, row: Row, r: Row)
    requires Named(x) && OnlyRoute(x, s) && row in s.log && FromEmitter(x, r)
    ensures multiset(Live(u, s.subs, row))[Delivery(x.subscriber, r)] ==
            if r == row && SeenLive(row) && Visible(x, s) && row.gid >= x.gid && Wanted(u, x, row) then 1 else 0
  {
    if r == row {
      FoundIff(u, x, s, row);
    }
  }

  lemma {:induction false} ProcessCounts(u: Runner, x: Watch, s: World, s': World, i: int)
    requires Named(x) && Inv(u, x, s) && OnlyRoute(x, s) && Take(u, s, Process) == Some(s')
    requires 0 <= i < |s.log| && FromEmitter(x, s.log[i])
    ensures s'.out[Delivery(x.subscriber, s.log[i])] == Expected(u, x, s', i)
  {
    var row, r := s.log[s.next], s.log[i];
    BackfillPart(u, x, s, row, i);
    LivePart(u, x, s, row, r);
    assert r == row <==> i == s.next;
    PassedNext(x, s, s');
    VisiblePassed(x, s, i);
    assert s'.out[Delivery(x.subscriber, r)] == Expected(u, x, s, i)
      + (if row.gid == x.gid && r.gid < x.gid && Wanted(u, x, r) then 1 else 0)
      + (if r == row && SeenLive(row) && Visible(x, s) && row.gid >= x.gid && Wanted(u, x, row) then 1 else 0);
  }

  lemma {:induction false} PassedNext(x: Watch, s: World, s': World)
    requires s.next < |s.log| && s'.log == s.log && s'.next == s.next + 1
    ensures Passed(x, s') <==> Passed(x, s) || s.log[s.next].gid == x.gid
  {
    if s.log[s.next].gid == x.gid {
      assert s'.log[s.next].gid == x.gid;
    }
  }

  /** Once an event at or after the subscription is next, the subscription's own event is next or was processed. */
  lemma {:induction false} VisiblePassed(x: Watch, s: World, i: int)
    requires InOrder(s.log) && s.next < |s.log|
    ensures Visible(x, s) && s.log[s.next].gid > x.gid ==> Passed(x, s)
    ensures Passed(x, s) ==> Visible(x, s) && s.log[s.next].gid > x.gid
    ensures 0 <= i < |s.log| && i < s.next ==> s.log[i].gid < s.log[s.next].gid
  {
    if Visible(x, s) && s.log[s.next].gid > x.gid {
      var g :| 0 <= g < |s.log| && s.log[g].gid == x.gid;
      assert g < s.next;
    }
  }

  lemma {:induction false} BackfillFromLog(u: Runner, log: seq<Row>, to: Id, sub: Sub, gid: int)
    ensures forall d :: d in Backfill(u, log, to, sub, gid) ==> d.row in log
    decreases |log|
  {
    if log != [] {
      BackfillFromLog(u, log[..|log| - 1], to, sub, gid);
    }
  }

  lemma {:induction false} ProcessKeepsInv(u: Runner, x: Watch, s: World, s': World)
    requires Named(x) && Inv(u, x, s) && OnlyRoute(x, s) && Take(u, s, Process) == Some(s')
    ensures Inv(u, x, s')
  {
    forall i | 0 <= i < |s'.log| && FromEmitter(x, s'.log[i])
      ensures s'.out[Delivery(x.subscriber, s'.log[i])] == Expected(u, x, s', i)
    {
      ProcessCounts(u, x, s, s', i);
    }
    var row := s.log[s.next];
    if Triggers(row) { BackfillFromLog(u, s.log, row.w, row.event.sub, row.gid); }
    assert forall d :: d in multiset(Live(u, s.subs, row)) ==> d in Live(u, s.subs, row);
  }

  lemma {:induction false} CommitKeepsInv(u: Runner, x: Watch, s: World, rows: seq<Row>, subs: Subs, s': World)
    requires Inv(u, x, s) && Take(u, s, Commit(rows, subs)) == Some(s')
    ensures Inv(u, x, s')
  {
    assert Passed(x, s') <==> Passed(x, s) by {
      assert forall g :: 0 <= g < s.next ==> s'.log[g] == s.log[g];
    }
    forall i | 0 <= i < |s'.log| && FromEmitter(x, s'.log[i])
      ensures s'.out[Delivery(x.subscriber, s'.log[i])] == Expected(u, x, s', i)
    {
      if i < |s.log| {
        assert s'.log[i] == s.log[i];
      } else {
        assert s'.log[i] !in s.log by {
          assert forall j :: 0 <= j < |s.log| ==> s'.log[j] == s.log[j] && s'.log[j].gid < s'.log[i].gid;
        }
        if Passed(x, s') {
          var g :| 0 <= g < s'.next && g < |s'.log| && s'.log[g].gid == x.gid;
          assert s'.log[g].gid < s'.log[i].gid;
        }
      }
    }
  }

  lemma {:induction false} StepKeepsInv(u: Runner, x: Watch, s: World, step: Step, s': World)
    requires Named(x) && Inv(u, x, s) && OnlyRoute(x, s) && Take(u, s, step) == Some(s')
    ensures Inv(u, x, s')
  {
    match step
    case Commit(rows, subs) => CommitKeepsInv(u, x, s, rows, subs, s');
    case Process => ProcessKeepsInv(u, x, s, s');
  }
}
