/** The outbox publisher (pkg/jetstream/jetstream.go) with failures, restarts and resets. */
module Outbox {
  import opened Decimals
  import opened Wrappers

  // Polls publish unpushed rows one by one and flip their flags in one commit.  A publish or the commit may fail,
  // the process may stop anywhere, and the reconciler (pkg/reconcile/reconcile.go) resets any flags it likes.  One
  // publisher holds the advisory lock; the broker drops a message whose id it has seen before.  Global ids become
  // visible in increasing order, and versions ascend with them (see GlobalOrder).

  datatype Row = Row(gid: int, w: string, v: nat)

  /** The broker's de-duplication key. */
  function MsgId(r: Row): string { Tagged(r.w, r.v) }

  // ---------------------------------------------------------------------------------------------
  // The machine
  // ---------------------------------------------------------------------------------------------

  /** A poll in progress: rows still to publish, and the ids already published in this transaction. */
  datatype Poll = Poll(todo: seq<Row>, sent: set<int>)

  datatype World = World(log: seq<Row>, pushed: set<int>, stream: seq<Row>, poll: Option<Poll>)

  datatype Step =
    | Append(row: Row)
    | Select(limit: nat)
    | Publish
    | PublishFails
    | CommitPushed
    | CommitFails
    | Crash
    | Reset(gids: set<int>)

  const Start := World([], {}, [], None)

  /** WHERE pushed = false ORDER BY global_id LIMIT n. */
  function Unpushed(log: seq<Row>, pushed: set<int>, n: nat): seq<Row> {
    if log == [] || n == 0 then []
    else if log[0].gid in pushed then Unpushed(log[1..], pushed, n)
    else [log[0]] + Unpushed(log[1..], pushed, n - 1)
  }

  /** The row comes after every row of the log, and after every version of its workflow. */
  ghost predicate Follows(log: seq<Row>, row: Row) {
    forall r :: r in log ==> r.gid < row.gid && (r.w == row.w ==> r.v < row.v)
  }

  ghost function Take(s: World, step: Step): Option<World> {
    match step
    case Append(row) => if !Follows(s.log, row) then None else Some(s.(log := s.log + [row]))
    case Select(limit) =>
      var rows := Unpushed(s.log, s.pushed, limit);
      if s.poll.Some? || rows == [] then None else Some(s.(poll := Some(Poll(rows, {}))))
    case Publish =>
      if s.poll.None? || s.poll.value.todo == [] then None
      else
        var Poll(todo, sent) := s.poll.value;
        Some(s.(stream := s.stream + [todo[0]], poll := Some(Poll(todo[1..], sent + {todo[0].gid}))))
    case CommitPushed =>
      if s.poll.None? || s.poll.value.todo != [] then None
      else Some(s.(pushed := s.pushed + s.poll.value.sent, poll := None))
    case Reset(gids) => Some(s.(pushed := s.pushed - gids))
    case _ => Some(s.(poll := None))
  }

  ghost function Run(s: World, steps: seq<Step>): Option<World>
    decreases |steps|
  {
    if steps == [] then Some(s)
    else match Take(s, steps[0])
      case None => None
      case Some(r) => Run(r, steps[1..])
  }

  /** What the broker keeps: the first message of every id. */
  function Dedup(stream: seq<Row>): seq<Row> {
    if stream == [] then []
    else
      var front, r := stream[..|stream| - 1], stream[|stream| - 1];
      if exists x :: x in front && MsgId(x) == MsgId(r) then Dedup(front) else Dedup(front) + [r]
  }

  // ---------------------------------------------------------------------------------------------
  // The invariant
  // ---------------------------------------------------------------------------------------------

  ghost predicate InOrder(log: seq<Row>) {
    forall i, j :: 0 <= i < j < |log| ==> log[i].gid < log[j].gid && (log[i].w == log[j].w ==> log[i].v < log[j].v)
  }

  ghost predicate Ascending(rows: seq<Row>) { forall i, j :: 0 <= i < j < |rows| ==> rows[i].gid < rows[j].gid }

  function Last(rows: seq<Row>): Row
    requires rows != []
  {
    rows[|rows| - 1]
  }

  /** Only published rows carry these ids. */
  ghost predicate ArePublished(s: World, gids: set<int>) {
    && (forall g :: g in gids ==> s.log != [] && g <= Last(s.log).gid)
    && (forall r :: r in s.log && r.gid in gids ==> r in s.stream)
  }

  /** Rows up to the last one of the batch are published, or waiting in it in order. */
  ghost predicate PollOk(s: World, p: Poll) {
    && (forall r :: r in p.todo ==> r in s.log) && Ascending(p.todo)
    && (p.todo != [] ==> forall r :: r in s.log && r.gid <= Last(p.todo).gid ==> r in s.stream || r in p.todo)
    && ArePublished(s, p.sent)
  }

  ghost predicate Inv(s: World) {
    && InOrder(s.log)
    && (forall r :: r in s.stream ==> r in s.log)
    && Dedup(s.stream) <= s.log
    && ArePublished(s, s.pushed)
    && (s.poll.Some? ==> PollOk(s, s.poll.value))
  }

  lemma {:induction false} SameRows(log: seq<Row>, a: Row, b: Row)
    requires InOrder(log) && a in log && b in log && (a.gid == b.gid || MsgId(a) == MsgId(b))
    ensures a == b
  {
    TaggedInjective(a.w, a.v, b.w, b.v);
  }

  /** De-duplication loses no row. */
  lemma {:induction false} DedupKeepsRows(log: seq<Row>, stream: seq<Row>)
    requires InOrder(log) && forall r :: r in stream ==> r in log
    ensures forall r :: r in stream <==> r in Dedup(stream)
    decreases |stream|
  {
    if stream != [] {
      var front, last := stream[..|stream| - 1], stream[|stream| - 1];
      assert stream == front + [last];
      DedupKeepsRows(log, front);
      if exists x :: x in front && MsgId(x) == MsgId(last) {
        var x :| x in front && MsgId(x) == MsgId(last);
        SameRows(log, x, last);
      }
    }
  }

  /** A row is in the first n rows of the log exactly when its id is below the next one's. */
  lemma {:induction false} PrefixIff(log: seq<Row>, n: nat, r: Row)
    requires InOrder(log) && n < |log| && r in log
    ensures r in log[..n] <==> r.gid < log[n].gid
    ensures r.gid == log[n].gid ==> r == log[n]
  {
    var j :| 0 <= j < |log| && log[j] == r;
    if j < n { assert log[..n][j] == r; }
  }

  /** The next row of a poll is a repetition, or exactly the next row of the log. */
  lemma {:induction false} NextIsNext(s: World, row: Row)
    requires Inv(s) && row in s.log && forall r :: r in s.log && r.gid < row.gid ==> r in s.stream
    ensures row in s.stream || (|Dedup(s.stream)| < |s.log| && s.log[|Dedup(s.stream)|] == row)
  {
    var n := |Dedup(s.stream)|;
    DedupKeepsRows(s.log, s.stream);
    if row !in s.stream {
      assert n < |s.log|;
      assert Dedup(s.stream) == s.log[..n];
      PrefixIff(s.log, n, row);
      PrefixIff(s.log, n, s.log[n]);
    }
  }

  lemma {:induction false} PublishDedup(s: World, row: Row)
    requires Inv(s) && row in s.log && forall r :: r in s.log && r.gid < row.gid ==> r in s.stream
    ensures Dedup(s.stream + [row]) <= s.log
  {
    NextIsNext(s, row);
    assert (s.stream + [row])[..|s.stream|] == s.stream;
    if exists x :: x in s.stream && MsgId(x) == MsgId(row) {
    } else {
      assert row !in s.stream;
    }
  }

  lemma {:induction false} AscendingTail(rows: seq<Row>)
    requires Ascending(rows) && rows != []
    ensures Ascending(rows[1..]) && (forall r :: r in rows[1..] ==> rows[0].gid < r.gid)
    ensures forall r :: r in rows <==> r == rows[0] || r in rows[1..]
    ensures rows[0].gid <= Last(rows).gid && (rows[1..] != [] ==> Last(rows[1..]) == Last(rows))
  {
    assert rows == [rows[0]] + rows[1..];
  }

  /** A published row may be marked. */
  lemma {:induction false} PublishMarks(s: World, row: Row, gids: set<int>, s': World)
    requires InOrder(s.log) && row in s.log && ArePublished(s, gids) && s'.log == s.log && s'.stream == s.stream + [row]
    ensures ArePublished(s', gids) && ArePublished(s', gids + {row.gid})
  {
    forall r | r in s.log && r.gid == row.gid ensures r in s'.stream {
      SameRows(s.log, r, row);
    }
    assert s.log != [] && row.gid <= Last(s.log).gid;
  }

  lemma {:induction false} PublishPoll(s: World, s': World)
    requires Inv(s) && Take(s, Publish) == Some(s')
    ensures PollOk(s', s'.poll.value)
  {
    var todo := s.poll.value.todo;
    AscendingTail(todo);
    PublishMarks(s, todo[0], s.poll.value.sent, s');
  }

  lemma {:induction false} PublishKeepsInv(s: World, s': World)
    requires Inv(s) && Take(s, Publish) == Some(s')
    ensures Inv(s')
  {
    var row := s.poll.value.todo[0];
    AscendingTail(s.poll.value.todo);
    PublishPoll(s, s');
    PublishDedup(s, row);
    PublishMarks(s, row, s.pushed, s');
  }

  /** The first unpushed rows, in order. */
  ghost predicate IsBatch(log: seq<Row>, pushed: set<int>, rows: seq<Row>) {
    && (forall r :: r in rows ==> r in log && r.gid !in pushed) && Ascending(rows)
    && (rows != [] ==> forall r :: r in log && r.gid <= Last(rows).gid ==> r.gid in pushed || r in rows)
  }

  lemma {:induction false} BatchSkip(log: seq<Row>, pushed: set<int>, rows: seq<Row>)
    requires InOrder(log) && log != [] && IsBatch(log[1..], pushed, rows) && log[0].gid in pushed
    ensures IsBatch(log, pushed, rows)
  {
    AscendingTail(log);
  }

  lemma {:induction false} ConsAscending(row: Row, rows: seq<Row>)
    requires Ascending(rows) && forall r :: r in rows ==> row.gid < r.gid
    ensures Ascending([row] + rows)
  {
    var all := [row] + rows;
    forall i, j | 0 <= i < j < |all| ensures all[i].gid < all[j].gid {
      assert all[j] == rows[j - 1];
      assert i > 0 ==> all[i] == rows[i - 1];
    }
  }

  lemma {:induction false} BatchTake(log: seq<Row>, pushed: set<int>, rows: seq<Row>)
    requires InOrder(log) && log != [] && IsBatch(log[1..], pushed, rows) && log[0].gid !in pushed
    ensures IsBatch(log, pushed, [log[0]] + rows)
  {
    var all := [log[0]] + rows;
    AscendingTail(log);
    ConsAscending(log[0], rows);
    assert rows != [] ==> Last(all) == Last(rows);
    assert forall r :: r in all <==> r == log[0] || r in rows;
  }

  lemma {:induction false} BatchOk(log: seq<Row>, pushed: set<int>, n: nat)
    requires InOrder(log)
    ensures IsBatch(log, pushed, Unpushed(log, pushed, n)) && |Unpushed(log, pushed, n)| <= n
    ensures |Unpushed(log, pushed, n)| < n ==> forall r :: r in log ==> r.gid in pushed || r in Unpushed(log, pushed, n)
    ensures n > 0 && Unpushed(log, pushed, n) == [] ==> forall r :: r in log ==> r.gid in pushed
    decreases |log|
  {
    if log != [] && n > 0 {
      assert log == [log[0]] + log[1..];
      if log[0].gid in pushed {
        BatchOk(log[1..], pushed, n);
        BatchSkip(log, pushed, Unpushed(log[1..], pushed, n));
      } else {
        BatchOk(log[1..], pushed, n - 1);
        BatchTake(log, pushed, Unpushed(log[1..], pushed, n - 1));
      }
    }
  }

  lemma {:induction false} SelectKeepsInv(s: World, n: nat, s': World)
    requires Inv(s) && Take(s, Select(n)) == Some(s')
    ensures Inv(s')
  {
    BatchOk(s.log, s.pushed, n);
  }

  lemma {:induction false} AppendKeepsInv(s: World, row: Row, s': World)
    requires Inv(s) && Take(s, Append(row)) == Some(s')
    ensures Inv(s')
  {
    forall i | 0 <= i < |s.log|
      ensures s.log[i].gid < row.gid && (s.log[i].w == row.w ==> s.log[i].v < row.v)
    {
      assert s.log[i] in s.log;
    }
    if s.poll.Some? && s.poll.value.todo != [] {
      assert Last(s.poll.value.todo) in s.log;
    }
  }

  lemma {:induction false} StepKeepsInv(s: World, step: Step, s': World)
    requires Inv(s) && Take(s, step) == Some(s')
    ensures Inv(s')
  {
    match step
    case Append(row) => AppendKeepsInv(s, row, s');
    case Select(n) => SelectKeepsInv(s, n, s');
    case Publish => PublishKeepsInv(s, s');
    case _ =>
  }

  lemma {:induction false} RunKeepsInv(s: World, steps: seq<Step>, s': World)
    requires Inv(s) && Run(s, steps) == Some(s')
    ensures Inv(s')
    decreases |steps|
  {
    if steps != [] {
      StepKeepsInv(s, steps[0], Take(s, steps[0]).value);
      RunKeepsInv(Take(s, steps[0]).value, steps[1..], s');
    }
  }

  // ---------------------------------------------------------------------------------------------
  // Theorems
  // ---------------------------------------------------------------------------------------------

  /**
   Whatever failed and whatever was reset, the broker holds a gap-free prefix of the log in global order,
   so the versions of each workflow arrive in order, and a row is only marked pushed when it was published.
   */
  lemma {:induction false} BrokerHoldsPrefix(steps: seq<Step>, s: World)
    requires Run(Start, steps) == Some(s)
    ensures Dedup(s.stream) <= s.log
    ensures forall i, j :: 0 <= i < j < |Dedup(s.stream)| && Dedup(s.stream)[i].w == Dedup(s.stream)[j].w ==>
              Dedup(s.stream)[i].v < Dedup(s.stream)[j].v
    ensures forall r :: r in s.log && r.gid in s.pushed ==> r in Dedup(s.stream)
  {
    RunKeepsInv(Start, steps, s);
    DedupKeepsRows(s.log, s.stream);
  }

  /** When a poll finds nothing to publish, everything is on the broker. */
  lemma {:induction false} IdleMeansComplete(steps: seq<Step>, s: World, limit: nat)
    requires Run(Start, steps) == Some(s) && limit > 0 && Unpushed(s.log, s.pushed, limit) == []
    ensures Dedup(s.stream) == s.log
  {
    RunKeepsInv(Start, steps, s);
    BrokerHoldsPrefix(steps, s);
    BatchOk(s.log, s.pushed, limit);
    var n := |Dedup(s.stream)|;
    assert Dedup(s.stream) == s.log[..n];
    if n < |s.log| {
      PrefixIff(s.log, n, s.log[n]);
    }
  }

  // ---------------------------------------------------------------------------------------------
  // A poll as a run of the machine
  // ---------------------------------------------------------------------------------------------

  function Gids(rows: seq<Row>): set<int> { set r | r in rows :: r.gid }

  lemma {:induction false} GidsSnoc(rows: seq<Row>, r: Row)
    ensures Gids(rows + [r]) == Gids(rows) + {r.gid}
  {
  }

  lemma {:induction false} RunSnoc(s: World, steps: seq<Step>, last: Step)
    requires Run(s, steps).Some?
    ensures Run(s, steps + [last]) == Take(Run(s, steps).value, last)
    decreases |steps|
  {
    if steps == [] {
      assert steps + [last] == [last];
      var r := Take(s, last);
      assert r.Some? ==> Run(r.value, [last][1..]) == r;
    } else {
      assert (steps + [last])[1..] == steps[1..] + [last];
      RunSnoc(Take(s, steps[0]).value, steps[1..], last);
    }
  }

  /** The first k rows of the batch are published, none is marked yet. */
  lemma {:induction false} PublishRuns(s: World, limit: nat, k: nat) returns (steps: seq<Step>)
    requires s.poll.None? && k <= |Unpushed(s.log, s.pushed, limit)| && Unpushed(s.log, s.pushed, limit) != []
    ensures var rows := Unpushed(s.log, s.pushed, limit);
            Run(s, steps) == Some(s.(stream := s.stream + rows[..k], poll := Some(Poll(rows[k..], Gids(rows[..k])))))
  {
    var rows := Unpushed(s.log, s.pushed, limit);
    if k == 0 {
      steps := [] + [Select(limit)];
      RunSnoc(s, [], Select(limit));
      assert rows[0..] == rows && s.stream + rows[..0] == s.stream && Gids(rows[..0]) == {};
    } else {
      var front := PublishRuns(s, limit, k - 1);
      steps := front + [Publish];
      RunSnoc(s, front, Publish);
      assert rows[..k] == rows[..k - 1] + [rows[k - 1]] && rows[k - 1..][1..] == rows[k..];
      assert s.stream + rows[..k - 1] + [rows[k - 1]] == s.stream + rows[..k];
      GidsSnoc(rows[..k - 1], rows[k - 1]);
    }
  }

  /** What JetStreamPublisher.PollOnce leaves behind is what the machine reaches. */
  lemma {:induction false} PollRuns(s: World, limit: nat, stop: nat, marks: bool) returns (steps: seq<Step>)
    requires s.poll.None? && stop <= |Unpushed(s.log, s.pushed, limit)| && (marks ==> stop == |Unpushed(s.log, s.pushed, limit)|)
    ensures var rows := Unpushed(s.log, s.pushed, limit);
            Run(s, steps) == Some(s.(stream := s.stream + rows[..stop], pushed := if marks then s.pushed + Gids(rows) else s.pushed))
  {
    var rows := Unpushed(s.log, s.pushed, limit);
    if rows == [] {
      steps := [];
      assert s.stream + rows[..0] == s.stream && s.pushed + Gids(rows) == s.pushed;
    } else {
      var front := PublishRuns(s, limit, stop);
      var last := if marks then CommitPushed else Crash;
      steps := front + [last];
      RunSnoc(s, front, last);
      assert rows[..|rows|] == rows;
    }
  }

  // ---------------------------------------------------------------------------------------------
  // The object
  // ---------------------------------------------------------------------------------------------

  /** The part of stored_events that the publisher and the reconciler share. */
  class OutboxTable {
    var events: seq<Row>
    var pushed: set<int>

    constructor ()
      ensures events == [] && pushed == {}
    {
      events, pushed := [], {};
    }
  }

  class JetStreamPublisher {
    const table: OutboxTable
    const batchSize: nat
    var stream: seq<Row>

    constructor (table: OutboxTable, batchSize: nat)
      ensures this.table == table && this.batchSize == batchSize && stream == []
    {
      this.table, this.batchSize, stream := table, batchSize, [];
    }

    method SelectUnpushed() returns (rows: seq<Row>)
      ensures rows == Unpushed(table.events, table.pushed, batchSize)
    {
      rows := [];
      var i := 0;
      while i < |table.events| && |rows| < batchSize
        invariant 0 <= i <= |table.events| && |rows| <= batchSize
        invariant rows + Unpushed(table.events[i..], table.pushed, batchSize - |rows|) ==
                  Unpushed(table.events, table.pushed, batchSize)
      {
        assert table.events[i..][1..] == table.events[i + 1..];
        if table.events[i].gid !in table.pushed { rows := rows + [table.events[i]]; }
        i := i + 1;
      }
    }

    /**
     One poll.  `broken` is the index of the row whose publish fails, if any; `commits` is whether the
     transaction commits.  PollRuns gives the same effect as a run of the machine.
     */
    method PollOnce(broken: Option<nat>, commits: bool) returns (n: nat, ok: bool)
      modifies this`stream, table`pushed
      ensures var rows := old(Unpushed(table.events, table.pushed, batchSize));
              var stop := if broken.Some? && broken.value < |rows| then broken.value else |rows|;
              && stream == old(stream) + rows[..stop]
              && ok == (rows == [] || (stop == |rows| && commits)) && n == (if ok then |rows| else 0)
              && table.pushed == if ok then old(table.pushed) + Gids(rows) else old(table.pushed)
    {
      var rows := SelectUnpushed();
      if |rows| == 0 { return 0, true; }
      var globalIds: set<int> := {};
      for i := 0 to |rows|
        invariant stream == old(stream) + rows[..i] && table.pushed == old(table.pushed)
        invariant globalIds == Gids(rows[..i])
        invariant broken.Some? ==> broken.value >= i
      {
        if broken == Some(i) { return 0, false; }
        assert rows[..i + 1] == rows[..i] + [rows[i]];
        stream, globalIds := stream + [rows[i]], globalIds + {rows[i].gid};
      }
      assert rows[..|rows|] == rows;
      if !commits { return 0, false; }
      table.pushed := table.pushed + globalIds;
      n, ok := |rows|, true;
    }
  }

  class Reconciler {
    const table: OutboxTable

    constructor (table: OutboxTable)
      ensures this.table == table
    {
      this.table := table;
    }

    /** The machine's Reset. */
    method RepublishStuckEvents(stuck: seq<int>)
      modifies table`pushed
      ensures table.pushed == old(table.pushed) - set g | g in stuck
    {
      var globalIds: set<int> := {};
      for i := 0 to |stuck|
        invariant globalIds == set g | g in stuck[..i]
      {
        assert stuck[..i + 1] == stuck[..i] + [stuck[i]];
        globalIds := globalIds + {stuck[i]};
      }
      assert stuck[..|stuck|] == stuck;
      table.pushed := table.pushed - globalIds;
    }
  }
}
