/** The agent's ledger of operations it started: an age-ordered map with a size bound and a time to live. */
module OperationLedger {
  import opened AsciiText
  import opened Common

  datatype Entry = Entry(id: string, at: int)

  datatype Limits = Limits(maxEntries: nat, ttl: nat)

  // ---- What the map does ----

  /** Drops old entries from the front, up to the first that is younger than the cutoff. */
  function Prune(entries: seq<Entry>, cutoff: int): seq<Entry> {
    if entries == [] || entries[0].at > cutoff then entries else Prune(entries[1..], cutoff)
  }

  function Delete(entries: seq<Entry>, id: string): seq<Entry> {
    if entries == [] then []
    else if entries[0].id == id then Delete(entries[1..], id)
    else [entries[0]] + Delete(entries[1..], id)
  }

  /** The newest `n` entries. */
  function Newest(entries: seq<Entry>, n: nat): seq<Entry> {
    if |entries| <= n then entries else entries[|entries| - n..]
  }

  function Record(entries: seq<Entry>, limits: Limits, id: string, prunedAt: int, at: int): seq<Entry>
    requires limits.maxEntries > 0
  {
    Newest(Delete(Prune(entries, prunedAt - limits.ttl), id), limits.maxEntries - 1) + [Entry(id, at)]
  }

  predicate Has(entries: seq<Entry>, id: string) {
    exists i :: 0 <= i < |entries| && entries[i].id == id
  }

  // ---- What was recorded ----

  /** Each call reads the clock for its pruning, and a record once more for the entry itself. */
  datatype Call = RecordCall(id: string, prunedAt: int, at: int) | KnowsCall(id: string, at: int)

  function AfterCall(entries: seq<Entry>, limits: Limits, call: Call): seq<Entry>
    requires limits.maxEntries > 0
  {
    match call
    case RecordCall(id, prunedAt, at) => Record(entries, limits, Lower(id), prunedAt, at)
    case KnowsCall(_, at) => Prune(entries, at - limits.ttl)
  }

  function Run(limits: Limits, calls: seq<Call>): seq<Entry>
    requires limits.maxEntries > 0
  {
    if calls == [] then [] else AfterCall(Run(limits, calls[..|calls| - 1]), limits, calls[|calls| - 1])
  }

  /** The records so far, oldest first. */
  function Records(calls: seq<Call>): seq<Entry> {
    if calls == [] then []
    else
      var call := calls[|calls| - 1];
      Records(calls[..|calls| - 1]) + if call.RecordCall? then [Entry(Lower(call.id), call.at)] else []
  }

  predicate ReadsInOrder(call: Call, now: int) {
    match call
    case RecordCall(_, prunedAt, at) => now <= prunedAt <= at
    case KnowsCall(_, at) => now <= at
  }

  /** The clock never goes back; `Clock` is its last reading. */
  function Clock(calls: seq<Call>, start: int): int {
    if calls == [] then start else calls[|calls| - 1].at
  }

  predicate InOrder(calls: seq<Call>, start: int) {
    calls != [] ==>
      InOrder(calls[..|calls| - 1], start) && ReadsInOrder(calls[|calls| - 1], Clock(calls[..|calls| - 1], start))
  }

  function LastAt(records: seq<Entry>, id: string): Option<int> {
    if records == [] then None
    else if records[|records| - 1].id == id then Some(records[|records| - 1].at)
    else LastAt(records[..|records| - 1], id)
  }

  /** The other ids recorded since `id` last was. */
  function Since(records: seq<Entry>, id: string): set<string> {
    if records == [] || records[|records| - 1].id == id then {}
    else Since(records[..|records| - 1], id) + {records[|records| - 1].id}
  }

  // ---- The ledger tracks what was recorded ----

  function Ids(entries: seq<Entry>): set<string> {
    set i | 0 <= i < |entries| :: entries[i].id
  }

  /** Each entry is its id's last record, and the entries after it are exactly the ids recorded since. */
  predicate Tracks(entries: seq<Entry>, records: seq<Entry>) {
    entries != [] ==>
      && LastAt(records, entries[0].id) == Some(entries[0].at)
      && Since(records, entries[0].id) == Ids(entries[1..])
      && entries[0].id !in Ids(entries[1..])
      && Tracks(entries[1..], records)
  }

  predicate Ascending(entries: seq<Entry>, now: int) {
    && (forall i, j :: 0 <= i < j < |entries| ==> entries[i].at <= entries[j].at)
    && (forall i :: 0 <= i < |entries| ==> entries[i].at <= now)
  }

  /** An id the ledger may forget: too old, or with as many ids recorded since as it has room for. */
  predicate Forgettable(records: seq<Entry>, limits: Limits, now: int, id: string) {
    LastAt(records, id).Some? ==> LastAt(records, id).value <= now - limits.ttl || |Since(records, id)| >= limits.maxEntries
  }

  /** `high` is the latest reading the ledger was pruned at. */
  ghost predicate Inv(entries: seq<Entry>, records: seq<Entry>, limits: Limits, high: int) {
    && Tracks(entries, records) && |entries| <= limits.maxEntries
    && forall id :: id !in Ids(entries) ==> Forgettable(records, limits, high, id)
  }

  /** Stopping at the first young entry loses nothing: the result is the entries younger than the cutoff. */
  function Younger(entries: seq<Entry>, cutoff: int): seq<Entry> {
    if entries == [] then []
    else if entries[0].at > cutoff then [entries[0]] + Younger(entries[1..], cutoff)
    else Younger(entries[1..], cutoff)
  }

  lemma {:induction false} AllYounger(entries: seq<Entry>, cutoff: int)
    requires forall i :: 0 <= i < |entries| ==> entries[i].at > cutoff
    ensures Younger(entries, cutoff) == entries
  {
    if entries != [] {
      AllYounger(entries[1..], cutoff);
    }
  }

  lemma {:induction false} PruneIsFilter(entries: seq<Entry>, cutoff: int, now: int)
    requires Ascending(entries, now)
    ensures Prune(entries, cutoff) == Younger(entries, cutoff)
  {
    if entries != [] {
      if entries[0].at > cutoff {
        AllYounger(entries, cutoff);
      } else {
        PruneIsFilter(entries[1..], cutoff, now);
      }
    }
  }

  lemma IdsCons(entries: seq<Entry>)
    requires entries != []
    ensures Ids(entries) == {entries[0].id} + Ids(entries[1..])
  {
    assert forall i :: 0 < i < |entries| ==> entries[i] == entries[1..][i - 1];
    forall id | id in Ids(entries)
      ensures id in {entries[0].id} + Ids(entries[1..])
    {
      var i :| 0 <= i < |entries| && entries[i].id == id;
      assert i > 0 ==> entries[1..][i - 1].id == id;
    }
    forall id | id in Ids(entries[1..])
      ensures id in Ids(entries)
    {
      var i :| 0 <= i < |entries[1..]| && entries[1..][i].id == id;
      assert entries[i + 1].id == id;
    }
    assert entries[0].id in Ids(entries);
  }

  lemma {:induction false} IdsTouched(entries: seq<Entry>, id: string, at: int)
    ensures Ids(Delete(entries, id) + [Entry(id, at)]) == Ids(entries) + {id}
  {
    var touched := Delete(entries, id) + [Entry(id, at)];
    if entries == [] {
      assert touched == [Entry(id, at)];
      IdsCons(touched);
      assert Ids(touched[1..]) == {};
    } else {
      IdsTouched(entries[1..], id, at);
      IdsCons(entries);
      if entries[0].id != id {
        IdsCons(touched);
        assert touched[1..] == Delete(entries[1..], id) + [Entry(id, at)];
      }
    }
  }

  /** Moving an id to the end of the ledger is what recording it does to the history. */
  lemma {:induction false} TouchTracks(entries: seq<Entry>, records: seq<Entry>, id: string, at: int)
    requires Tracks(entries, records)
    ensures Tracks(Delete(entries, id) + [Entry(id, at)], records + [Entry(id, at)])
  {
    var records' := records + [Entry(id, at)];
    assert records'[..|records|] == records;
    var touched := Delete(entries, id) + [Entry(id, at)];
    if entries == [] {
      assert touched == [Entry(id, at)] && touched[1..] == [];
    } else {
      TouchTracks(entries[1..], records, id, at);
      if entries[0].id != id {
        IdsTouched(entries[1..], id, at);
        assert touched[1..] == Delete(entries[1..], id) + [Entry(id, at)];
      }
    }
  }

  /** Dropping from the front keeps the ledger in step, and what it drops is one id at a time. */
  lemma TailTracks(entries: seq<Entry>, records: seq<Entry>)
    requires entries != [] && Tracks(entries, records)
    ensures Tracks(entries[1..], records) && Ids(entries) == {entries[0].id} + Ids(entries[1..])
    ensures |Since(records, entries[0].id)| == |entries| - 1
  {
    IdsCons(entries);
    IdsCount(entries[1..], records);
  }

  lemma {:induction false} IdsCount(entries: seq<Entry>, records: seq<Entry>)
    requires Tracks(entries, records)
    ensures |Ids(entries)| == |entries|
  {
    if entries == [] {
      assert Ids(entries) == {};
    } else {
      IdsCount(entries[1..], records);
      IdsCons(entries);
    }
  }

  lemma NewestOfTail(entries: seq<Entry>, n: nat)
    requires |entries| > n
    ensures Newest(entries[1..], n) == Newest(entries, n)
  {
  }

  lemma {:induction false} NewestTracks(entries: seq<Entry>, records: seq<Entry>, n: nat)
    requires Tracks(entries, records)
    ensures Tracks(Newest(entries, n), records) && Ids(Newest(entries, n)) <= Ids(entries)
    ensures forall id :: id in Ids(entries) && id !in Ids(Newest(entries, n)) ==> |Since(records, id)| >= n
  {
    hide Tracks, Since, LastAt, Ids;
    if |entries| > n {
      TailTracks(entries, records);
      NewestTracks(entries[1..], records, n);
      NewestOfTail(entries, n);
      hide Newest;
    }
  }

  lemma {:induction false} PruneTracks(entries: seq<Entry>, records: seq<Entry>, cutoff: int)
    requires Tracks(entries, records)
    ensures Tracks(Prune(entries, cutoff), records) && |Prune(entries, cutoff)| <= |entries|
    ensures forall id :: id in Ids(entries) && id !in Ids(Prune(entries, cutoff)) ==>
      LastAt(records, id).Some? && LastAt(records, id).value <= cutoff
  {
    if entries != [] && entries[0].at <= cutoff {
      TailTracks(entries, records);
      PruneTracks(entries[1..], records, cutoff);
    }
  }

  lemma {:induction false} PruneAscending(entries: seq<Entry>, cutoff: int, now: int)
    requires Ascending(entries, now)
    ensures Ascending(Prune(entries, cutoff), now)
    ensures forall i :: 0 <= i < |Prune(entries, cutoff)| ==> Prune(entries, cutoff)[i].at > cutoff
  {
    if entries != [] && entries[0].at <= cutoff {
      PruneAscending(entries[1..], cutoff, now);
    }
  }

  lemma {:induction false} DeleteFrom(entries: seq<Entry>, id: string, e: Entry)
    requires e in Delete(entries, id)
    ensures e in entries
  {
    if entries[0].id == id || e != entries[0] {
      DeleteFrom(entries[1..], id, e);
    }
  }

  lemma {:induction false} DeleteAscending(entries: seq<Entry>, id: string, now: int)
    requires Ascending(entries, now)
    ensures Ascending(Delete(entries, id), now)
  {
    if entries != [] {
      DeleteAscending(entries[1..], id, now);
      var rest := Delete(entries[1..], id);
      forall i | 0 <= i < |rest|
        ensures entries[0].at <= rest[i].at
      {
        DeleteFrom(entries[1..], id, rest[i]);
      }
    }
  }

  lemma AppendAscending(entries: seq<Entry>, e: Entry, now: int)
    requires Ascending(entries, now) && now <= e.at
    ensures Ascending(entries + [e], e.at)
  {
  }

  lemma NewestAscending(entries: seq<Entry>, now: int, n: nat)
    requires Ascending(entries, now)
    ensures Ascending(Newest(entries, n), now)
  {
  }

  lemma TouchAscending(entries: seq<Entry>, id: string, at: int, now: int, n: nat)
    requires Ascending(entries, now) && now <= at
    ensures Ascending(Newest(Delete(entries, id) + [Entry(id, at)], n), at)
  {
    hide Delete, Newest, Ascending;
    DeleteAscending(entries, id, now);
    AppendAscending(Delete(entries, id), Entry(id, at), now);
    NewestAscending(Delete(entries, id) + [Entry(id, at)], at, n);
  }

  // ---- Every run ----

  lemma RecordIsTouch(entries: seq<Entry>, limits: Limits, id: string, prunedAt: int, at: int)
    requires limits.maxEntries > 0
    ensures Record(entries, limits, id, prunedAt, at) ==
      Newest(Delete(Prune(entries, prunedAt - limits.ttl), id) + [Entry(id, at)], limits.maxEntries)
  {
  }

  lemma ForgettableStays(records: seq<Entry>, limits: Limits, high: int, added: Entry, id: string)
    requires Forgettable(records, limits, high, id) && id != added.id
    ensures Forgettable(records + [added], limits, high, id)
  {
    assert (records + [added])[..|records|] == records;
    if |Since(records, id)| >= limits.maxEntries {
      assert Since(records, id) <= Since(records + [added], id);
      Subset(Since(records, id), Since(records + [added], id));
    }
  }

  lemma CrowdedOut(records: seq<Entry>, limits: Limits, now: int, id: string)
    requires |Since(records, id)| >= limits.maxEntries
    ensures Forgettable(records, limits, now, id)
  {
  }

  lemma {:induction false} Subset(small: set<string>, large: set<string>)
    requires small <= large
    ensures |small| <= |large|
  {
    if small != {} {
      var x :| x in small;
      Subset(small - {x}, large - {x});
    }
  }

  function Later(a: int, b: int): int {
    if a < b then b else a
  }

  lemma PruneKeepsInv(entries: seq<Entry>, records: seq<Entry>, limits: Limits, high: int, at: int)
    requires Inv(entries, records, limits, high)
    ensures Inv(Prune(entries, at - limits.ttl), records, limits, Later(high, at))
  {
    PruneTracks(entries, records, at - limits.ttl);
    hide Tracks, Since, LastAt, Ids;
  }

  lemma TouchKeepsInv(entries: seq<Entry>, records: seq<Entry>, limits: Limits, high: int, id: string, at: int)
    requires Inv(entries, records, limits, high) && limits.maxEntries > 0
    ensures Inv(Newest(Delete(entries, id) + [Entry(id, at)], limits.maxEntries), records + [Entry(id, at)], limits, high)
  {
    hide Tracks, Since, LastAt, Delete, Ids, Forgettable;
    var added, touched := Entry(id, at), Delete(entries, id) + [Entry(id, at)];
    var records', kept := records + [added], Newest(touched, limits.maxEntries);
    TouchTracks(entries, records, id, at);
    NewestTracks(touched, records', limits.maxEntries);
    IdsTouched(entries, id, at);
    forall other | other !in Ids(kept)
      ensures Forgettable(records', limits, high, other)
    {
      if other !in Ids(touched) {
        ForgettableStays(records, limits, high, added, other);
      } else {
        CrowdedOut(records', limits, high, other);
      }
    }
  }

  function PrunedAt(call: Call): int {
    if call.RecordCall? then call.prunedAt else call.at
  }

  /** The latest of all the readings the ledger was pruned at, and `at`. */
  function High(calls: seq<Call>, at: int): int {
    if calls == [] then at else Later(High(calls[..|calls| - 1], at), PrunedAt(calls[|calls| - 1]))
  }

  lemma {:induction false} RunKeepsInv(limits: Limits, calls: seq<Call>, at: int)
    requires limits.maxEntries > 0
    ensures Inv(Run(limits, calls), Records(calls), limits, High(calls, at))
  {
    if calls == [] {
      assert Ids([]) == {};
    } else {
      hide Inv, Record;
      var before, call := calls[..|calls| - 1], calls[|calls| - 1];
      RunKeepsInv(limits, before, at);
      var entries, records := Run(limits, before), Records(before);
      PruneKeepsInv(entries, records, limits, High(before, at), PrunedAt(call));
      match call {
        case KnowsCall(_, _) =>
          assert records + [] == records;
        case RecordCall(id, prunedAt, at') =>
          TouchKeepsInv(Prune(entries, prunedAt - limits.ttl), records, limits, High(calls, at), Lower(id), at');
          RecordIsTouch(entries, limits, Lower(id), prunedAt, at');
      }
    }
  }

  lemma CallAscends(entries: seq<Entry>, limits: Limits, call: Call, now: int)
    requires limits.maxEntries > 0 && Ascending(entries, now) && ReadsInOrder(call, now)
    ensures Ascending(AfterCall(entries, limits, call), call.at)
  {
    hide Ascending, Record, Prune, Lower, Delete, Newest;
    var pruned := Prune(entries, PrunedAt(call) - limits.ttl);
    PruneAscending(entries, PrunedAt(call) - limits.ttl, now);
    match call {
      case KnowsCall(_, at) => AscendsLonger(pruned, now, at);
      case RecordCall(id, prunedAt, at) =>
        TouchAscending(pruned, Lower(id), at, now, limits.maxEntries);
        RecordIsTouch(entries, limits, Lower(id), prunedAt, at);
    }
  }

  lemma {:induction false} RunAscends(limits: Limits, calls: seq<Call>, start: int)
    requires limits.maxEntries > 0 && InOrder(calls, start)
    ensures Ascending(Run(limits, calls), Clock(calls, start))
  {
    if calls != [] {
      hide Ascending, AfterCall, ReadsInOrder;
      var before := calls[..|calls| - 1];
      RunAscends(limits, before, start);
      CallAscends(Run(limits, before), limits, calls[|calls| - 1], Clock(before, start));
    }
  }

  lemma {:induction false} HighIsNow(calls: seq<Call>, start: int, at: int)
    requires InOrder(calls, start) && Clock(calls, start) <= at
    ensures High(calls, at) == at
  {
    if calls != [] {
      HighIsNow(calls[..|calls| - 1], start, at);
    }
  }

  lemma AscendsLonger(entries: seq<Entry>, now: int, later: int)
    requires Ascending(entries, now) && now <= later
    ensures Ascending(entries, later)
  {
  }

  lemma {:induction false} TracksAt(entries: seq<Entry>, records: seq<Entry>, i: nat)
    requires Tracks(entries, records) && i < |entries|
    ensures LastAt(records, entries[i].id) == Some(entries[i].at)
    ensures |Since(records, entries[i].id)| == |entries| - 1 - i
  {
    if i == 0 {
      IdsCount(entries[1..], records);
    } else {
      TracksAt(entries[1..], records, i - 1);
    }
  }

  /** Whether the ledger knows an id at a reading of the clock, after any calls. */
  predicate Knows(limits: Limits, calls: seq<Call>, id: string, at: int)
    requires limits.maxEntries > 0
  {
    Has(Prune(Run(limits, calls), at - limits.ttl), Lower(id))
  }

  /**
   * Whatever the clock does, the ledger knows only recorded ids with fewer
   * distinct others recorded since than it has room for, and all of those that
   * were young at every pruning. While the clock does not step back it knows
   * exactly those whose last record is younger than the time to live.
   */
  lemma KnowsExactly(limits: Limits, calls: seq<Call>, start: int, id: string, at: int)
    requires limits.maxEntries > 0
    ensures
      var last := LastAt(Records(calls), Lower(id));
      var roomFor := last.Some? && |Since(Records(calls), Lower(id))| < limits.maxEntries;
      && (Knows(limits, calls, id, at) ==> roomFor)
      && (roomFor && last.value > High(calls, at) - limits.ttl ==> Knows(limits, calls, id, at))
      && (InOrder(calls, start) && Clock(calls, start) <= at ==>
            (Knows(limits, calls, id, at) <==> roomFor && last.value > at - limits.ttl))
  {
    hide Tracks, Since, LastAt, Prune, Run, Records, High, InOrder, Clock;
    var entries, records, key := Run(limits, calls), Records(calls), Lower(id);
    var pruned := Prune(entries, at - limits.ttl);
    RunKeepsInv(limits, calls, at);
    HighIsLater(calls, at);
    PruneKeepsInv(entries, records, limits, High(calls, at), at);
    if InOrder(calls, start) && Clock(calls, start) <= at {
      RunAscends(limits, calls, start);
      HighIsNow(calls, start, at);
      PruneAscending(entries, at - limits.ttl, Clock(calls, start));
    }
    if key in Ids(pruned) {
      var i :| 0 <= i < |pruned| && pruned[i].id == key;
      TracksAt(pruned, records, i);
    } else {
      assert Forgettable(records, limits, High(calls, at), key);
      assert !Has(pruned, key);
    }
  }

  lemma {:induction false} HighIsLater(calls: seq<Call>, at: int)
    ensures at <= High(calls, at)
  {
    if calls != [] {
      HighIsLater(calls[..|calls| - 1], at);
    }
  }

  // ---- The ledger as an object ----

  class Ledger {
    const limits: Limits
    var entries: seq<Entry>

    constructor (limits: Limits)
      ensures this.limits == limits && entries == []
    {
      this.limits := limits;
      entries := [];
    }

    method PruneAt(now: int)
      modifies this
      ensures entries == Prune(old(entries), now - limits.ttl)
    {
      var cutoff := now - limits.ttl;
      while entries != [] && entries[0].at <= cutoff
        invariant Prune(entries, cutoff) == Prune(old(entries), cutoff)
        decreases |entries|
      {
        entries := entries[1..];
      }
    }

    method RecordAt(id: string, prunedAt: int, at: int)
      requires limits.maxEntries > 0
      modifies this
      ensures entries == Record(old(entries), limits, Lower(id), prunedAt, at)
    {
      PruneAt(prunedAt);
      var key := Lower(id);
      entries := Delete(entries, key);
      ghost var all := entries;
      while |entries| >= limits.maxEntries
        invariant |entries| <= |all| && entries == all[|all| - |entries|..]
        invariant |entries| >= limits.maxEntries - 1 || entries == all
        decreases |entries|
      {
        entries := entries[1..];
      }
      entries := entries + [Entry(key, at)];
    }

    method KnowsAt(id: string, at: int) returns (known: bool)
      modifies this
      ensures entries == Prune(old(entries), at - limits.ttl)
      ensures known == Has(entries, Lower(id))
    {
      PruneAt(at);
      known := exists i :: 0 <= i < |entries| && entries[i].id == Lower(id);
    }
  }
}
