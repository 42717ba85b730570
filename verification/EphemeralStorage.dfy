/**
 The in-process LRU cache and the two-tier cache (pkg/repo/storage.go).

 `Lru` is the cache as a value: its entries, most recently used first.  `LruCache` is the object of the
 source, a map of list elements and a recency list that share the same entries, changed in place.  Over
 every history of calls the value is shown to be bounded, in order of last touch and never stale, to drop
 only the key touched longest ago, and to answer whatever a tier holds; the object follows the value.
 */
module EphemeralStorage {
  import opened Wrappers
  import opened WorkflowModel
  import opened EventStore

  // ---------------------------------------------------------------------------------------------
  // The cache as a value
  // ---------------------------------------------------------------------------------------------

  datatype Entry = Entry(key: Id, value: Stored)
  datatype Lru = Lru(maxSize: int, entries: seq<Entry>)

  function Find(es: seq<Entry>, k: Id): (r: Option<Stored>)
    ensures r.Some? ==> Entry(k, r.value) in es
    ensures r.None? ==> forall e :: e in es ==> e.key != k
  {
    if es == [] then None else if es[0].key == k then Some(es[0].value) else Find(es[1..], k)
  }

  function Drop(es: seq<Entry>, k: Id): seq<Entry> {
    if es == [] then [] else if es[0].key == k then es[1..] else [es[0]] + Drop(es[1..], k)
  }

  function ButLast(es: seq<Entry>): seq<Entry> { if es == [] then [] else es[..|es| - 1] }

  function PutIn(c: Lru, k: Id, v: Stored): Lru {
    if Find(c.entries, k).Some? then c.(entries := [Entry(k, v)] + Drop(c.entries, k))
    else
      c.(entries := [Entry(k, v)] + if |c.entries| >= c.maxSize then ButLast(c.entries) else c.entries)
  }

  function GetFrom(c: Lru, k: Id): (Lru, Option<Stored>) {
    match Find(c.entries, k)
    case Some(v) => (c.(entries := [Entry(k, v)] + Drop(c.entries, k)), Some(v))
    case None => (c, None)
  }

  function RemoveFrom(c: Lru, k: Id): Lru { c.(entries := Drop(c.entries, k)) }

  function NewLru(maxSize: int): Lru { Lru(if maxSize <= 0 then 1000 else maxSize, []) }

  /** TieredEuphemeralStorage over two caches. */
  datatype Tiered = Tiered(l1: Lru, l2: Lru)

  function PutBoth(t: Tiered, k: Id, v: Stored): Tiered { Tiered(PutIn(t.l1, k, v), PutIn(t.l2, k, v)) }

  function RemoveBoth(t: Tiered, k: Id): Tiered { Tiered(RemoveFrom(t.l1, k), RemoveFrom(t.l2, k)) }

  function GetTiered(t: Tiered, k: Id): (Tiered, Option<Stored>) {
    var (l1, hit) := GetFrom(t.l1, k);
    if hit.Some? then (Tiered(l1, t.l2), hit) else GetSecond(Tiered(l1, t.l2), k)
  }

  /** The L1 miss path: a hit in L2 is promoted. */
  function GetSecond(t: Tiered, k: Id): (Tiered, Option<Stored>) {
    var (l2, found) := GetFrom(t.l2, k);
    match found
    case None => (Tiered(t.l1, l2), None)
    case Some(v) => (Tiered(PutIn(t.l1, k, v), l2), found)
  }

  // ---------------------------------------------------------------------------------------------
  // What a history of calls promises
  // ---------------------------------------------------------------------------------------------

  datatype Call = Put(k: Id, v: Stored) | Get(k: Id) | Remove(k: Id)

  function Do(c: Lru, call: Call): Lru {
    match call
    case Put(k, v) => PutIn(c, k, v)
    case Get(k) => GetFrom(c, k).0
    case Remove(k) => RemoveFrom(c, k)
  }

  function DoTiered(t: Tiered, call: Call): Tiered {
    match call
    case Put(k, v) => PutBoth(t, k, v)
    case Get(k) => GetTiered(t, k).0
    case Remove(k) => RemoveBoth(t, k)
  }

  function RunCache(c: Lru, calls: seq<Call>): Lru {
    if calls == [] then c else Do(RunCache(c, calls[..|calls| - 1]), calls[|calls| - 1])
  }

  function RunTiered(t: Tiered, calls: seq<Call>): Tiered {
    if calls == [] then t else DoTiered(RunTiered(t, calls[..|calls| - 1]), calls[|calls| - 1])
  }

  /** The value put last for k, if no Remove came after it. */
  function LastPut(calls: seq<Call>, k: Id): Option<Stored> {
    if calls == [] then None
    else match calls[|calls| - 1]
      case Put(j, v) => if j == k then Some(v) else LastPut(calls[..|calls| - 1], k)
      case Remove(j) => if j == k then None else LastPut(calls[..|calls| - 1], k)
      case Get(_) => LastPut(calls[..|calls| - 1], k)
  }

  /** When k was last named in a Put or a Get; -1 if never. */
  function LastTouch(calls: seq<Call>, k: Id): (i: int)
    ensures -1 <= i < |calls|
  {
    if calls == [] then -1
    else if calls[|calls| - 1].k == k && !calls[|calls| - 1].Remove? then |calls| - 1
    else LastTouch(calls[..|calls| - 1], k)
  }

  /** The entries are in recency order (hence have distinct keys) and hold the values put last. */
  ghost predicate Faithful(es: seq<Entry>, calls: seq<Call>) {
    && (forall i, j :: 0 <= i < j < |es| ==> LastTouch(calls, es[i].key) > LastTouch(calls, es[j].key))
    && (forall i :: 0 <= i < |es| ==> LastPut(calls, es[i].key) == Some(es[i].value))
  }

  ghost predicate DistinctKeys(es: seq<Entry>) {
    forall i, j :: 0 <= i < j < |es| ==> es[i].key != es[j].key
  }

  lemma {:induction false} DropKeeps(es: seq<Entry>, k: Id)
    requires DistinctKeys(es)
    ensures |Drop(es, k)| == |es| - (if Find(es, k).Some? then 1 else 0)
    ensures forall e :: e in Drop(es, k) <==> e in es && e.key != k
    ensures DistinctKeys(Drop(es, k))
  {
    if es != [] && es[0].key != k {
      DropKeeps(es[1..], k);
    }
  }

  /** Removing a key removes its one position and keeps the order of the others. */
  lemma {:induction false} DropShape(es: seq<Entry>, k: Id) returns (at: nat)
    requires DistinctKeys(es) && Find(es, k).Some?
    ensures at < |es| && es[at] == Entry(k, Find(es, k).value)
    ensures Drop(es, k) == es[..at] + es[at + 1..]
  {
    if es[0].key == k {
      at := 0;
    } else {
      var i := DropShape(es[1..], k);
      at := i + 1;
    }
  }

  lemma {:induction false} NotFoundDrop(es: seq<Entry>, k: Id)
    requires Find(es, k).None?
    ensures Drop(es, k) == es
  {
    if es != [] { NotFoundDrop(es[1..], k); }
  }

  /** Entries that do not name the newest call's key keep their touch and their value. */
  lemma {:induction false} OthersFaithful(es: seq<Entry>, calls: seq<Call>, call: Call)
    requires Faithful(es, calls) && forall e :: e in es ==> e.key != call.k
    ensures Faithful(es, calls + [call])
  {
    var all := calls + [call];
    assert all[..|all| - 1] == calls;
    forall i | 0 <= i < |es|
      ensures LastTouch(all, es[i].key) == LastTouch(calls, es[i].key) && LastPut(all, es[i].key) == LastPut(calls, es[i].key)
    {
      assert es[i] in es;
    }
  }

  lemma {:induction false} FaithfulSub(es: seq<Entry>, at: nat, calls: seq<Call>)
    requires Faithful(es, calls) && at < |es|
    ensures Faithful(es[..at] + es[at + 1..], calls)
  {
    var r := es[..at] + es[at + 1..];
    assert forall x :: 0 <= x < |r| ==> r[x] == es[if x < at then x else x + 1];
  }

  lemma {:induction false} FrontFaithful(e: Entry, es: seq<Entry>, calls: seq<Call>, call: Call)
    requires Faithful(es, calls) && !call.Remove? && call.k == e.key && forall x :: x in es ==> x.key != e.key
    requires if call.Put? then call.v == e.value else LastPut(calls, e.key) == Some(e.value)
    ensures Faithful([e] + es, calls + [call])
  {
    OthersFaithful(es, calls, call);
    assert (calls + [call])[..|calls|] == calls;
  }

  lemma {:induction false} FaithfulDistinct(es: seq<Entry>, calls: seq<Call>)
    requires Faithful(es, calls)
    ensures DistinctKeys(es)
  {
  }

  lemma {:induction false} DropFaithful(es: seq<Entry>, k: Id, calls: seq<Call>)
    requires Faithful(es, calls)
    ensures Faithful(Drop(es, k), calls) && |Drop(es, k)| <= |es|
    ensures Find(es, k).Some? ==> |Drop(es, k)| == |es| - 1 && LastPut(calls, k) == Find(es, k)
    ensures forall x :: x in Drop(es, k) ==> x.key != k
  {
    FaithfulDistinct(es, calls);
    DropKeeps(es, k);
    if Find(es, k).Some? {
      var at := DropShape(es, k);
      FaithfulSub(es, at, calls);
    } else {
      NotFoundDrop(es, k);
    }
  }

  lemma {:induction false} DoFaithful(c: Lru, calls: seq<Call>, call: Call)
    requires c.maxSize > 0 && |c.entries| <= c.maxSize && Faithful(c.entries, calls)
    ensures var r := Do(c, call); r.maxSize == c.maxSize && |r.entries| <= c.maxSize && Faithful(r.entries, calls + [call])
  {
    var k := call.k;
    DropFaithful(c.entries, k, calls);
    match call
    case Put(_, v) =>
      if Find(c.entries, k).Some? {
        FrontFaithful(Entry(k, v), Drop(c.entries, k), calls, call);
      } else {
        FrontFaithful(Entry(k, v), if |c.entries| >= c.maxSize then ButLast(c.entries) else c.entries, calls, call);
      }
    case Get(_) =>
      if Find(c.entries, k).Some? {
        FrontFaithful(Entry(k, Find(c.entries, k).value), Drop(c.entries, k), calls, call);
      } else {
        OthersFaithful(c.entries, calls, call);
      }
    case Remove(_) => OthersFaithful(Drop(c.entries, k), calls, call);
  }

  /** After any calls: never over capacity, in recency order, and no entry holds a wrong value. */
  lemma {:induction false} LruIsFaithful(maxSize: int, calls: seq<Call>)
    ensures var c := RunCache(NewLru(maxSize), calls);
            |c.entries| <= c.maxSize == (if maxSize <= 0 then 1000 else maxSize) && Faithful(c.entries, calls)
    decreases |calls|
  {
    if calls != [] {
      var front, call := calls[..|calls| - 1], calls[|calls| - 1];
      LruIsFaithful(maxSize, front);
      DoFaithful(RunCache(NewLru(maxSize), front), front, call);
      assert calls == front + [call];
    }
  }

  /** In recency order the last entry is the one touched longest ago. */
  lemma {:induction false} LastIsOldest(es: seq<Entry>, calls: seq<Call>, j: Id)
    requires Faithful(es, calls) && Find(es, j).Some?
    ensures es[|es| - 1].key == j <==> forall e :: e in es ==> LastTouch(calls, j) <= LastTouch(calls, e.key)
  {
    FaithfulDistinct(es, calls);
    var at := DropShape(es, j);
    assert es[|es| - 1] in es;
  }

  lemma {:induction false} OnlyLastLeaves(es: seq<Entry>, e: Entry, j: Id)
    requires DistinctKeys(es) && es != [] && Find(es, j).Some? && e.key != j
    ensures Find([e] + ButLast(es), j).None? <==> es[|es| - 1].key == j
  {
    var at := DropShape(es, j);
    var after := [e] + ButLast(es);
    if at < |es| - 1 {
      assert after[at + 1] == es[at];
    } else {
      assert forall x :: x in after ==> x.key != j;
    }
  }

  /** A Put that finds the cache full drops exactly the key that was touched longest ago. */
  lemma {:induction false} EvictsLeastRecent(maxSize: int, calls: seq<Call>, k: Id, v: Stored, j: Id)
    requires var c := RunCache(NewLru(maxSize), calls);
             |c.entries| == c.maxSize && Find(c.entries, k).None? && Find(c.entries, j).Some?
    ensures var c := RunCache(NewLru(maxSize), calls);
            Find(PutIn(c, k, v).entries, j).None? <==>
            forall e :: e in c.entries ==> LastTouch(calls, j) <= LastTouch(calls, e.key)
  {
    LruIsFaithful(maxSize, calls);
    var es := RunCache(NewLru(maxSize), calls).entries;
    FaithfulDistinct(es, calls);
    LastIsOldest(es, calls, j);
    OnlyLastLeaves(es, Entry(k, v), j);
  }

  ghost predicate TierOk(t: Tiered, calls: seq<Call>) {
    && (forall e :: e in t.l1.entries ==> LastPut(calls, e.key) == Some(e.value))
    && (forall e :: e in t.l2.entries ==> LastPut(calls, e.key) == Some(e.value))
    && DistinctKeys(t.l1.entries) && DistinctKeys(t.l2.entries)
  }

  lemma {:induction false} PutEntries(c: Lru, k: Id, v: Stored)
    requires DistinctKeys(c.entries)
    ensures var r := PutIn(c, k, v).entries;
            DistinctKeys(r) && forall e :: e in r ==> e == Entry(k, v) || (e in c.entries && e.key != k)
  {
    DropKeeps(c.entries, k);
  }

  lemma {:induction false} GetEntries(c: Lru, k: Id)
    requires DistinctKeys(c.entries)
    ensures var r := GetFrom(c, k).0.entries; DistinctKeys(r) && forall e :: e in r ==> e in c.entries
  {
    DropKeeps(c.entries, k);
  }

  lemma {:induction false} FindDrop(es: seq<Entry>, k: Id, j: Id)
    requires j != k
    ensures Find(Drop(es, k), j) == Find(es, j)
  {
    if es != [] && es[0].key != k {
      FindDrop(es[1..], k, j);
      assert Drop(es, k)[1..] == Drop(es[1..], k);
    }
  }

  lemma {:induction false} FindGone(es: seq<Entry>, k: Id)
    requires DistinctKeys(es)
    ensures Find(Drop(es, k), k) == None
  {
    DropKeeps(es, k);
  }

  lemma {:induction false} FindBehind(e: Entry, es: seq<Entry>, j: Id)
    ensures Find([e] + es, j) == if e.key == j then Some(e.value) else Find(es, j)
  {
    assert ([e] + es)[1..] == es;
  }

  /** A put stores the value, and a put that overwrites or finds room drops no other key. */
  lemma {:induction false} PutDropsNothing(c: Lru, k: Id, v: Stored)
    ensures Find(PutIn(c, k, v).entries, k) == Some(v)
    ensures Find(c.entries, k).Some? || |c.entries| < c.maxSize ==>
              forall j :: j != k ==> Find(PutIn(c, k, v).entries, j) == Find(c.entries, j)
  {
    forall j | Find(c.entries, k).Some? || |c.entries| < c.maxSize
      ensures j != k ==> Find(PutIn(c, k, v).entries, j) == Find(c.entries, j)
    {
      FindBehind(Entry(k, v), if Find(c.entries, k).Some? then Drop(c.entries, k) else c.entries, j);
      if j != k { FindDrop(c.entries, k, j); }
    }
  }

  /** A get changes no value, and a remove drops its key alone. */
  lemma {:induction false} GetAndRemoveKeep(c: Lru, k: Id, j: Id)
    requires DistinctKeys(c.entries)
    ensures GetFrom(c, k).1 == Find(c.entries, k) && Find(GetFrom(c, k).0.entries, j) == Find(c.entries, j)
    ensures Find(RemoveFrom(c, k).entries, j) == if j == k then None else Find(c.entries, j)
  {
    if Find(c.entries, k).Some? {
      FindBehind(Entry(k, Find(c.entries, k).value), Drop(c.entries, k), j);
    }
    if j != k { FindDrop(c.entries, k, j); } else { FindGone(c.entries, k); }
  }

  /** A tiered get answers whenever one of the tiers holds the key, L1 first, and then L1 holds what it answered. */
  lemma {:induction false} TieredAnswers(t: Tiered, k: Id)
    requires DistinctKeys(t.l1.entries) && DistinctKeys(t.l2.entries)
    ensures var (t', r) := GetTiered(t, k);
            && r == (if Find(t.l1.entries, k).Some? then Find(t.l1.entries, k) else Find(t.l2.entries, k))
            && Find(t'.l1.entries, k) == r
            && forall j :: Find(t'.l2.entries, j) == Find(t.l2.entries, j)
  {
    GetAndRemoveKeep(t.l1, k, k);
    forall j ensures Find(GetFrom(t.l2, k).0.entries, j) == Find(t.l2.entries, j) {
      GetAndRemoveKeep(t.l2, k, j);
    }
    if Find(t.l2.entries, k).Some? { PutDropsNothing(t.l1, k, Find(t.l2.entries, k).value); }
  }

  lemma {:induction false} TierStep(t: Tiered, calls: seq<Call>, call: Call)
    requires TierOk(t, calls)
    ensures TierOk(DoTiered(t, call), calls + [call])
  {
    assert (calls + [call])[..|calls|] == calls;
    match call
    case Put(k, v) =>
      PutEntries(t.l1, k, v);
      PutEntries(t.l2, k, v);
    case Get(k) =>
      GetEntries(t.l1, k);
      GetEntries(t.l2, k);
      if Find(t.l1.entries, k).None? && Find(t.l2.entries, k).Some? {
        PutEntries(t.l1, k, Find(t.l2.entries, k).value);
      }
    case Remove(k) =>
      DropKeeps(t.l1.entries, k);
      DropKeeps(t.l2.entries, k);
  }

  lemma {:induction false} TierInvariant(n1: int, n2: int, calls: seq<Call>)
    ensures TierOk(RunTiered(Tiered(NewLru(n1), NewLru(n2)), calls), calls)
    decreases |calls|
  {
    if calls != [] {
      TierInvariant(n1, n2, calls[..|calls| - 1]);
      TierStep(RunTiered(Tiered(NewLru(n1), NewLru(n2)), calls[..|calls| - 1]), calls[..|calls| - 1], calls[|calls| - 1]);
      assert calls == calls[..|calls| - 1] + [calls[|calls| - 1]];
    }
  }

  /** A tiered cache over two LRUs of any sizes answers nothing, or the value last put since the last remove. */
  lemma {:induction false} TieredNeverStale(n1: int, n2: int, calls: seq<Call>, k: Id)
    ensures var r := GetTiered(RunTiered(Tiered(NewLru(n1), NewLru(n2)), calls), k).1;
            r.Some? ==> r == LastPut(calls, k)
  {
    TierInvariant(n1, n2, calls);
  }

  // ---------------------------------------------------------------------------------------------
  // The object
  // ---------------------------------------------------------------------------------------------

  class LruEntry {
    const key: Id
    var value: Stored

    constructor (key: Id, value: Stored)
      ensures this.key == key && this.value == value
    {
      this.key := key;
      this.value := value;
    }
  }

  ghost function EntriesOf(order: seq<LruEntry>): (es: seq<Entry>)
    reads order
    ensures |es| == |order|
    ensures forall i :: 0 <= i < |order| ==> es[i] == Entry(order[i].key, order[i].value)
  {
    seq(|order|, i requires 0 <= i < |order| reads order => Entry(order[i].key, order[i].value))
  }

  ghost predicate DistinctElements(order: seq<LruEntry>) {
    forall i, j :: 0 <= i < j < |order| ==> order[i].key != order[j].key
  }

  lemma {:induction false} DropAt(es: seq<Entry>, at: nat)
    requires DistinctKeys(es) && at < |es|
    ensures Drop(es, es[at].key) == es[..at] + es[at + 1..] && Find(es, es[at].key) == Some(es[at].value)
  {
    if at > 0 {
      assert es[0].key != es[at].key;
      var rest := es[1..];
      assert rest[at - 1] == es[at];
      DropAt(rest, at - 1);
      assert es[..at] == [es[0]] + rest[..at - 1] && es[at + 1..] == rest[at..];
    }
  }

  lemma {:induction false} UnlinkAt(order: seq<LruEntry>, at: nat)
    requires DistinctElements(order) && at < |order|
    ensures RemoveFirst(order, order[at]) == order[..at] + order[at + 1..]
  {
    if at > 0 {
      assert order[0] != order[at];
      UnlinkAt(order[1..], at - 1);
    }
  }

  lemma {:induction false} UnlinkKeeps(order: seq<LruEntry>, at: nat, rest: seq<LruEntry>)
    requires DistinctElements(order) && at < |order| && rest == order[..at] + order[at + 1..]
    ensures forall x :: x in rest <==> x in order && x != order[at]
    ensures DistinctElements(rest) && DistinctElements([order[at]] + rest)
  {
    assert forall i :: 0 <= i < |rest| ==> rest[i] == order[if i < at then i else i + 1];
    forall x | x in order && x != order[at] ensures x in rest {
      var i :| 0 <= i < |order| && order[i] == x;
      assert rest[if i < at then i else i - 1] == x;
    }
  }

  /** Unlinking an element is dropping its key. */
  lemma {:induction false} UnlinkIsDrop(order: seq<LruEntry>, e: LruEntry)
    requires DistinctElements(order) && e in order
    ensures var rest := RemoveFirst(order, e);
            && EntriesOf(rest) == Drop(EntriesOf(order), e.key) && Find(EntriesOf(order), e.key) == Some(e.value)
            && (forall x :: x in rest <==> x in order && x != e)
            && DistinctElements(rest) && DistinctElements([e] + rest) && |rest| == |order| - 1
  {
    var at :| 0 <= at < |order| && order[at] == e;
    var rest := order[..at] + order[at + 1..];
    UnlinkAt(order, at);
    UnlinkKeeps(order, at, rest);
    EntriesAt(order, at);
  }

  lemma {:induction false} EntriesAt(order: seq<LruEntry>, at: nat)
    requires DistinctElements(order) && at < |order|
    ensures EntriesOf(order[..at] + order[at + 1..]) == Drop(EntriesOf(order), order[at].key)
    ensures Find(EntriesOf(order), order[at].key) == Some(order[at].value)
  {
    var es := EntriesOf(order);
    DropAt(es, at);
    assert EntriesOf(order[..at] + order[at + 1..]) == es[..at] + es[at + 1..];
  }

  lemma {:induction false} MissingKey(order: seq<LruEntry>, k: Id)
    requires forall e :: e in order ==> e.key != k
    ensures Find(EntriesOf(order), k).None? && Drop(EntriesOf(order), k) == EntriesOf(order)
  {
    forall e | e in EntriesOf(order) ensures e.key != k {
      var i :| 0 <= i < |order| && EntriesOf(order)[i] == e;
      assert order[i] in order;
    }
    NotFoundDrop(EntriesOf(order), k);
  }

  lemma {:induction false} FrontEntry(e: LruEntry, rest: seq<LruEntry>)
    ensures EntriesOf([e] + rest) == [Entry(e.key, e.value)] + EntriesOf(rest)
  {
  }

  /** The map holds exactly the elements of the list, each under its key. */
  ghost predicate Linked(items: map<Id, LruEntry>, order: seq<LruEntry>) {
    && (forall k :: k in items ==> items[k] in order && items[k].key == k)
    && (forall e :: e in order ==> e.key in items && items[e.key] == e)
  }

  lemma {:induction false} LinkFront(items: map<Id, LruEntry>, order: seq<LruEntry>, e: LruEntry)
    requires Linked(items, order) && DistinctElements(order) && e.key !in items
    ensures Linked(items[e.key := e], [e] + order) && DistinctElements([e] + order)
  {
    var all := [e] + order;
    assert forall x :: x in all <==> x == e || x in order;
    forall i, j | 0 <= i < j < |all| ensures all[i].key != all[j].key {
      assert all[j] == order[j - 1] && order[j - 1] in order;
      assert i > 0 ==> all[i] == order[i - 1];
    }
  }

  lemma {:induction false} LinkSame(items: map<Id, LruEntry>, order: seq<LruEntry>, order': seq<LruEntry>)
    requires Linked(items, order) && forall e :: e in order' <==> e in order
    ensures Linked(items, order')
  {
  }

  lemma {:induction false} LinkWithout(items: map<Id, LruEntry>, order: seq<LruEntry>, e: LruEntry, rest: seq<LruEntry>)
    requires Linked(items, order) && e in order && forall x :: x in rest <==> x in order && x != e
    ensures Linked(items - {e.key}, rest)
  {
    assert forall x :: x in rest ==> x.key != e.key;
  }

  class LruCache {
    var items: map<Id, LruEntry>
    var order: seq<LruEntry>
    var maxSize: int
    var hits: nat
    var misses: nat

    /** The map and the recency list describe the same elements, at most maxSize of them. */
    ghost predicate Valid()
      reads this`items, this`order, this`maxSize
    {
      && maxSize > 0 && |order| <= maxSize && DistinctElements(order)
      && Linked(items, order)
    }

    ghost function View(): Lru
      reads this`order, this`maxSize, order
    {
      Lru(maxSize, EntriesOf(order))
    }

    constructor (maxSize: int)
      ensures Valid() && View() == NewLru(maxSize) && fresh(this) && order == []
    {
      this.items := map[];
      this.order := [];
      this.maxSize := if maxSize <= 0 then 1000 else maxSize;
      this.hits := 0;
      this.misses := 0;
    }

    /** list.MoveToFront. */
    method MoveToFront(elem: LruEntry) returns (ghost rest: seq<LruEntry>)
      requires Valid() && elem in order
      modifies this`order
      ensures Valid() && order == [elem] + rest && elem !in rest
      ensures EntriesOf(rest) == Drop(old(EntriesOf(order)), elem.key)
      ensures Find(old(EntriesOf(order)), elem.key) == Some(elem.value)
      ensures forall e :: e in order <==> e in old(order)
    {
      UnlinkIsDrop(order, elem);
      rest := RemoveFirst(order, elem);
      LinkSame(items, order, [elem] + rest);
      order := [elem] + RemoveFirst(order, elem);
    }

    method Touch(elem: LruEntry)
      requires Valid() && elem in order
      modifies this`order
      ensures Valid() && EntriesOf(order) == [Entry(elem.key, elem.value)] + Drop(old(EntriesOf(order)), elem.key)
      ensures Find(old(EntriesOf(order)), elem.key) == Some(elem.value)
      ensures forall e :: e in order <==> e in old(order)
    {
      ghost var rest := MoveToFront(elem);
      FrontEntry(elem, rest);
    }

    method PushFront(k: Id, v: Stored)
      requires Valid() && k !in items && |order| < maxSize
      modifies this
      ensures Valid() && maxSize == old(maxSize) && hits == old(hits) && misses == old(misses)
      ensures EntriesOf(order) == [Entry(k, v)] + old(EntriesOf(order))
      ensures forall e :: e in order ==> e in old(order) || fresh(e)
    {
      ghost var rest := order;
      var entry := new LruEntry(k, v);
      FrontEntry(entry, rest);
      LinkFront(items, rest, entry);
      order := [entry] + order;
      items := items[k := entry];
    }

    /** The branch of PutState for a key that is present. */
    method Refresh(elem: LruEntry, v: Stored)
      requires Valid() && elem in order
      modifies this`order, elem
      ensures Valid() && EntriesOf(order) == [Entry(elem.key, v)] + Drop(old(EntriesOf(order)), elem.key)
      ensures Find(old(EntriesOf(order)), elem.key).Some?
      ensures forall e :: e in order ==> e in old(order)
    {
      ghost var rest := MoveToFront(elem);
      elem.value := v;
      FrontEntry(elem, rest);
    }

    method PutState(k: Id, v: Stored)
      requires Valid()
      modifies this, order
      ensures Valid() && View() == old(PutIn(View(), k, v))
      ensures forall e :: e in order ==> e in old(order) || fresh(e)
      ensures hits == old(hits) && misses == old(misses)
    {
      if k in items {
        Refresh(items[k], v);
      } else {
        Admit(k, v);
      }
    }

    /** The branch of PutState for a key that is absent: make room, then insert at the front. */
    method Admit(k: Id, v: Stored)
      requires Valid() && k !in items
      modifies this
      ensures Valid() && View() == old(PutIn(View(), k, v))
      ensures forall e :: e in order ==> e in old(order) || fresh(e)
      ensures hits == old(hits) && misses == old(misses)
    {
      MissingKey(order, k);
      if |order| >= maxSize {
        EvictLru();
      }
      PushFront(k, v);
    }

    method EvictLru()
      requires Valid()
      modifies this
      ensures Valid() && maxSize == old(maxSize) && hits == old(hits) && misses == old(misses)
      ensures EntriesOf(order) == ButLast(old(EntriesOf(order)))
      ensures forall e :: e in order ==> e in old(order)
      ensures forall k :: k in items ==> k in old(items)
    {
      if order == [] { return; }
      var elem := order[|order| - 1];
      order := order[..|order| - 1];
      items := items - {elem.key};
    }

    method GetState(k: Id) returns (r: Option<Stored>)
      requires Valid()
      modifies this
      ensures Valid() && (View(), r) == old(GetFrom(View(), k))
      ensures forall e :: e in order <==> e in old(order)
      ensures if r.Some? then hits == old(hits) + 1 && misses == old(misses) else hits == old(hits) && misses == old(misses) + 1
    {
      if k in items {
        var elem := items[k];
        Touch(elem);
        hits := hits + 1;
        return Some(elem.value);
      }
      MissingKey(order, k);
      misses := misses + 1;
      return None;
    }

    method RemoveState(k: Id)
      requires Valid()
      modifies this
      ensures Valid() && View() == old(RemoveFrom(View(), k))
      ensures forall e :: e in order ==> e in old(order)
    {
      if k in items {
        var elem := items[k];
        UnlinkIsDrop(order, elem);
        LinkWithout(items, order, elem, RemoveFirst(order, elem));
        order := RemoveFirst(order, elem);
        items := items - {k};
      } else {
        MissingKey(order, k);
      }
    }
  }

  /** Two caches that share no element. */
  class TieredCache {
    const l1: LruCache
    const l2: LruCache

    ghost predicate Valid()
      reads this, l1, l2, l1.order, l2.order
    {
      l1 != l2 && l1.Valid() && l2.Valid() && forall e :: e in l1.order ==> e !in l2.order
    }

    ghost function View(): Tiered
      reads this, l1, l2, l1.order, l2.order
    {
      Tiered(l1.View(), l2.View())
    }

    constructor (l1: LruCache, l2: LruCache)
      requires l1 != l2 && l1.Valid() && l2.Valid() && forall e :: e in l1.order ==> e !in l2.order
      ensures Valid() && View() == Tiered(l1.View(), l2.View()) && this.l1 == l1 && this.l2 == l2
    {
      this.l1 := l1;
      this.l2 := l2;
    }

    method PutState(k: Id, v: Stored)
      requires Valid()
      modifies l1, l2, l1.order, l2.order
      ensures Valid() && View() == old(PutBoth(View(), k, v))
    {
      PutInFirst(k, v);
      PutInSecond(k, v);
    }

    method PutInFirst(k: Id, v: Stored)
      requires Valid()
      modifies l1, l1.order
      ensures Valid() && View() == old(Tiered(PutIn(l1.View(), k, v), l2.View()))
    {
      l1.PutState(k, v);
    }

    method PutInSecond(k: Id, v: Stored)
      requires Valid()
      modifies l2, l2.order
      ensures Valid() && View() == old(Tiered(l1.View(), PutIn(l2.View(), k, v)))
    {
      l2.PutState(k, v);
    }

    method GetState(k: Id) returns (r: Option<Stored>)
      requires Valid()
      modifies l1, l2, l1.order, l2.order
      ensures Valid() && (View(), r) == old(GetTiered(View(), k))
    {
      ghost var v1, v2 := l1.View(), l2.View();
      r := l1.GetState(k);
      assert (l1.View(), r) == GetFrom(v1, k) && l2.View() == v2 && l2.Valid();
      if r.None? {
        r := GetFromSecond(k);
      }
    }

    method GetFromSecond(k: Id) returns (r: Option<Stored>)
      requires Valid()
      modifies l1, l2, l1.order, l2.order
      ensures Valid() && (View(), r) == old(GetSecond(View(), k))
    {
      ghost var v1 := l1.View();
      r := l2.GetState(k);
      assert l1.View() == v1 && Valid();
      if r.Some? { PutInFirst(k, r.value); }
    }

    method RemoveState(k: Id)
      requires Valid()
      modifies l1, l2
      ensures Valid() && View() == old(RemoveBoth(View(), k))
    {
      ghost var v1, v2 := l1.View(), l2.View();
      l1.RemoveState(k);
      assert l1.View() == RemoveFrom(v1, k) && l2.View() == v2 && l2.Valid();
      l2.RemoveState(k);
      assert l2.View() == RemoveFrom(v2, k) && l1.View() == RemoveFrom(v1, k) && l1.Valid();
    }
  }
}
